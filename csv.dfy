/**
 * Comma-separated text as the two download paths write it: cells joined by `,`, records joined
 * by `\n`, and some cells wrapped in double quotes with every inner quote doubled (rule 7 of
 * section 2 of RFC 4180). A reader that follows the same RFC rules (with `\n` as the record
 * separator) is the partner that the round-trip lemmas relate the writer to.
 */
module Csv {
  import opened Common
  import opened Js

  /** A cell as the writer emits it: `Plain` verbatim, `Quoted` inside quotes with quotes doubled. */
  datatype Cell = Plain(text: string) | Quoted(text: string)

  /** `"${s.replace(/"/g, '""')}"`. */
  function Quote(s: string): (r: string)
    ensures |r| == |s| + Count(s, '"') + 2
    ensures r[0] == '"' && r[|r| - 1] == '"'
  {
    "\"" + DoubleQuotes(s) + "\""
  }

  function RenderCell(c: Cell): string {
    match c
    case Plain(t) => t
    case Quoted(t) => Quote(t)
  }

  /** The rendered cells, in order (the `map` before a `join`). */
  function RenderCells(cells: seq<Cell>): (r: seq<string>)
    ensures |r| == |cells|
  {
    if cells == [] then [] else [RenderCell(cells[0])] + RenderCells(cells[1..])
  }

  /** One record: `row.join(",")`. */
  function RenderRow(cells: seq<Cell>): string {
    Join(RenderCells(cells), ",")
  }

  function RenderRows(rows: seq<seq<Cell>>): (r: seq<string>)
    ensures |r| == |rows|
  {
    if rows == [] then [] else [RenderRow(rows[0])] + RenderRows(rows[1..])
  }

  /** The whole text: the records joined by `\n`, with no trailing newline. */
  function RenderTable(rows: seq<seq<Cell>>): string {
    Join(RenderRows(rows), "\n")
  }

  /** The values a reader should recover from `cells`. */
  function Texts(cells: seq<Cell>): (r: seq<string>)
    ensures |r| == |cells|
    ensures forall i :: 0 <= i < |cells| ==> r[i] == cells[i].text
  {
    if cells == [] then [] else [cells[0].text] + Texts(cells[1..])
  }

  function TableTexts(rows: seq<seq<Cell>>): (r: seq<seq<string>>)
    ensures |r| == |rows|
  {
    if rows == [] then [] else [Texts(rows[0])] + TableTexts(rows[1..])
  }

  /** A cell whose rendering a reader can take back: plain text without separators or quotes. */
  predicate SafeCell(c: Cell) {
    c.Plain? ==> ',' !in c.text && '\n' !in c.text && '"' !in c.text
  }

  predicate SafeRow(cells: seq<Cell>) {
    cells != [] && forall i :: 0 <= i < |cells| ==> SafeCell(cells[i])
  }

  // ---------------------------------------------------------------- the reader

  /**
   * The rest of a quoted field after its opening quote: the value (a doubled quote read as one)
   * and the text after the closing quote; `None` when the closing quote is missing.
   */
  function ReadQuotedBody(t: string): (r: Option<(string, string)>)
    ensures r.Some? ==> |r.value.1| < |t|
    decreases |t|
  {
    if t == [] then None
    else if t[0] == '"' then
      if |t| >= 2 && t[1] == '"' then
        match ReadQuotedBody(t[2..])
        case Some((v, rest)) => Some(("\"" + v, rest))
        case None => None
      else Some(("", t[1..]))
    else
      match ReadQuotedBody(t[1..])
      case Some((v, rest)) => Some(([t[0]] + v, rest))
      case None => None
  }

  /** An unquoted field: everything up to the next `,` or `\n`. */
  function ReadPlain(t: string): (r: (string, string))
    ensures r.0 + r.1 == t
    ensures ',' !in r.0 && '\n' !in r.0
    ensures r.1 == [] || r.1[0] == ',' || r.1[0] == '\n'
  {
    if t == [] || t[0] == ',' || t[0] == '\n' then ("", t)
    else
      var (v, rest) := ReadPlain(t[1..]);
      assert [t[0]] + v + rest == t;
      ([t[0]] + v, rest)
  }

  /** One field, quoted or not, and the text after it. */
  function ReadField(t: string): (r: Option<(string, string)>)
    ensures r.Some? ==> |r.value.1| <= |t|
  {
    if t != [] && t[0] == '"' then ReadQuotedBody(t[1..]) else Some(ReadPlain(t))
  }

  /**
   * One record: its fields, the text after it, and whether a `\n` ended it (so that another
   * record follows). `None` when the text is malformed (a quoted field followed by a stray character).
   */
  function ReadRecord(t: string): (r: Option<(seq<string>, string, bool)>)
    ensures r.Some? ==> |r.value.1| < |t| || (!r.value.2 && r.value.1 == [])
    decreases |t|
  {
    match ReadField(t)
    case None => None
    case Some((v, rest)) =>
      if rest == [] then Some(([v], "", false))
      else if rest[0] == '\n' then Some(([v], rest[1..], true))
      else if rest[0] == ',' then
        match ReadRecord(rest[1..])
        case Some((vs, after, more)) => Some(([v] + vs, after, more))
        case None => None
      else None
  }

  /** All records of a text. */
  function ReadTable(t: string): Option<seq<seq<string>>>
    decreases |t|
  {
    match ReadRecord(t)
    case None => None
    case Some((fields, rest, more)) =>
      if !more then Some([fields])
      else
        match ReadTable(rest)
        case Some(tail) => Some([fields] + tail)
        case None => None
  }

  // ---------------------------------------------------------------- round trips

  lemma {:induction false} QuotedBodyRoundTrip(s: string, rest: string)
    requires rest == [] || rest[0] != '"'
    ensures ReadQuotedBody(DoubleQuotes(s) + "\"" + rest) == Some((s, rest))
    decreases |s|
  {
    var t := DoubleQuotes(s) + "\"" + rest;
    if s == [] {
      assert t == "\"" + rest;
      assert t[1..] == rest;
    } else if s[0] == '"' {
      assert t == "\"\"" + (DoubleQuotes(s[1..]) + "\"" + rest);
      assert t[2..] == DoubleQuotes(s[1..]) + "\"" + rest;
      QuotedBodyRoundTrip(s[1..], rest);
      assert "\"" + s[1..] == s;
    } else {
      assert t == [s[0]] + (DoubleQuotes(s[1..]) + "\"" + rest);
      assert t[1..] == DoubleQuotes(s[1..]) + "\"" + rest;
      QuotedBodyRoundTrip(s[1..], rest);
      assert [s[0]] + s[1..] == s;
    }
  }

  /** Reading a quoted field back by the rules of RFC 4180 yields the original text. */
  lemma QuoteRoundTrip(s: string, rest: string)
    requires rest == [] || rest[0] != '"'
    ensures ReadField(Quote(s) + rest) == Some((s, rest))
  {
    var t := Quote(s) + rest;
    assert t[1..] == DoubleQuotes(s) + "\"" + rest;
    QuotedBodyRoundTrip(s, rest);
  }

  lemma {:induction false} PlainRoundTrip(s: string, rest: string)
    requires ',' !in s && '\n' !in s
    requires rest == [] || rest[0] == ',' || rest[0] == '\n'
    ensures ReadPlain(s + rest) == (s, rest)
    decreases |s|
  {
    if s == [] {
      assert s + rest == rest;
    } else {
      assert (s + rest)[0] == s[0] && s[0] != ',' && s[0] != '\n';
      assert (s + rest)[1..] == s[1..] + rest;
      PlainRoundTrip(s[1..], rest);
      assert [s[0]] + s[1..] == s;
    }
  }

  lemma CellRoundTrip(c: Cell, rest: string)
    requires SafeCell(c)
    requires rest == [] || rest[0] == ',' || rest[0] == '\n'
    ensures ReadField(RenderCell(c) + rest) == Some((c.text, rest))
  {
    match c
    case Quoted(t) => QuoteRoundTrip(t, rest);
    case Plain(t) =>
      PlainRoundTrip(t, rest);
      assert t != [] ==> (t + rest)[0] == t[0];
  }

  lemma {:induction false} RowRoundTrip(cells: seq<Cell>, rest: string)
    requires SafeRow(cells)
    requires rest == [] || rest[0] == '\n'
    ensures ReadRecord(RenderRow(cells) + rest)
         == Some((Texts(cells), if rest == [] then [] else rest[1..], rest != []))
    decreases |cells|
  {
    if |cells| == 1 {
      assert RenderRow(cells) == RenderCell(cells[0]);
      assert Texts(cells) == [cells[0].text];
      CellRoundTrip(cells[0], rest);
    } else {
      var tailRow := RenderRow(cells[1..]);
      var after := "," + tailRow + rest;
      RenderRowCons(cells, rest);
      SafeRowTail(cells);
      CellRoundTrip(cells[0], after);
      RecordCons(RenderRow(cells) + rest, cells[0].text, after);
      RowRoundTrip(cells[1..], rest);
      assert Texts(cells) == [cells[0].text] + Texts(cells[1..]);
    }
  }

  /** A record of several cells is its first cell, a comma, and the record of the others. */
  lemma RenderRowCons(cells: seq<Cell>, rest: string)
    requires |cells| > 1
    ensures RenderRow(cells) + rest == RenderCell(cells[0]) + ("," + RenderRow(cells[1..]) + rest)
    ensures ("," + RenderRow(cells[1..]) + rest)[1..] == RenderRow(cells[1..]) + rest
  {
    assert RenderCells(cells)[1..] == RenderCells(cells[1..]);
    assert RenderRow(cells) == RenderCell(cells[0]) + "," + RenderRow(cells[1..]);
  }

  /** A field followed by a comma is followed by the rest of its record. */
  lemma RecordCons(t: string, v: string, after: string)
    requires ReadField(t) == Some((v, after)) && after != [] && after[0] == ','
    ensures ReadRecord(t) == match ReadRecord(after[1..])
                             case Some((vs, a, more)) => Some(([v] + vs, a, more))
                             case None => None
  {
  }

  lemma SafeRowTail(cells: seq<Cell>)
    requires SafeRow(cells) && |cells| > 1
    ensures SafeRow(cells[1..])
  {
    forall i | 0 <= i < |cells[1..]| ensures SafeCell(cells[1..][i]) {
      assert cells[1..][i] == cells[i + 1];
    }
  }

  /** Reading a rendered table back yields the texts of its cells, record by record. */
  lemma {:induction false} TableRoundTrip(rows: seq<seq<Cell>>)
    requires rows != []
    requires forall i :: 0 <= i < |rows| ==> SafeRow(rows[i])
    ensures ReadTable(RenderTable(rows)) == Some(TableTexts(rows))
    decreases |rows|
  {
    if |rows| == 1 {
      assert RenderTable(rows) == RenderRow(rows[0]);
      RowRoundTrip(rows[0], "");
      assert RenderRow(rows[0]) + "" == RenderRow(rows[0]);
      assert TableTexts(rows) == [Texts(rows[0])];
    } else {
      var tail := RenderTable(rows[1..]);
      assert RenderRows(rows)[1..] == RenderRows(rows[1..]);
      assert RenderTable(rows) == RenderRow(rows[0]) + ("\n" + tail);
      RowRoundTrip(rows[0], "\n" + tail);
      assert ("\n" + tail)[1..] == tail;
      TableRoundTrip(rows[1..]);
    }
  }
}
