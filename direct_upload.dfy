/**
 * The direct-upload step: a file is checked by type and size, read (a naive comma-split CSV
 * reader, or the first sheet of a workbook), checked for the columns the target step needs,
 * and handed to that step with tallies derived from its rows.
 */
module DirectUpload {
  import opened Common
  import opened Js
  import opened Domain

  // ---------------------------------------------------------------- records

  /**
   * A row object: its keys in insertion order (`Object.keys`) and its values. Keys that look like
   * array indices, which JavaScript lists first, are not distinguished.
   */
  datatype Record = Record(keys: seq<string>, values: map<string, string>)

  /** Keys are listed once each, and exactly the keys that have values. */
  ghost predicate WellFormed(r: Record) {
    && (forall i, j :: 0 <= i < j < |r.keys| ==> r.keys[i] != r.keys[j])
    && (forall k :: k in r.values <==> k in r.keys)
  }

  /** `row[key] = value`: a new key goes to the end of the key order, an existing one keeps its place. */
  function Assign(r: Record, key: string, value: string): Record {
    Record(if key in r.values then r.keys else r.keys + [key], r.values[key := value])
  }

  /** `values[index] || ""` (an empty value stays empty, a missing one becomes empty). */
  function ValueAt(values: seq<string>, index: nat): string {
    if index < |values| then values[index] else ""
  }

  /** The row the `forEach` over the headers builds, one header at a time. */
  function RowOf(headers: seq<string>, values: seq<string>): Record
    decreases |headers|
  {
    if headers == [] then Record([], map[])
    else
      var n := |headers| - 1;
      Assign(RowOf(headers[..n], values), headers[n], ValueAt(values, n))
  }

  /** The header at `k` is its last occurrence. */
  predicate LastOccurrence(headers: seq<string>, k: nat)
    requires k < |headers|
  {
    forall j :: k < j < |headers| ==> headers[j] != headers[k]
  }

  /** `headers.forEach((header, index) => { row[header] = values[index] || "" })`. */
  method BuildRow(headers: seq<string>, values: seq<string>) returns (row: Record)
    ensures row == RowOf(headers, values)
  {
    row := Record([], map[]);
    for index := 0 to |headers|
      invariant row == RowOf(headers[..index], values)
    {
      assert headers[..index + 1][..index] == headers[..index];
      row := Assign(row, headers[index], ValueAt(values, index));
    }
    assert headers[..|headers|] == headers;
  }

  lemma {:induction false} RowWellFormed(headers: seq<string>, values: seq<string>)
    ensures WellFormed(RowOf(headers, values))
    ensures forall h :: h in RowOf(headers, values).values <==> h in headers
    decreases |headers|
  {
    if headers != [] {
      var n := |headers| - 1;
      RowWellFormed(headers[..n], values);
      assert headers == headers[..n] + [headers[n]];
    }
  }

  /** Each header's value is the value in the column of its LAST occurrence: a repeated header is overwritten. */
  lemma {:induction false} RowLastWins(headers: seq<string>, values: seq<string>, k: nat)
    requires k < |headers| && LastOccurrence(headers, k)
    ensures headers[k] in RowOf(headers, values).values
    ensures RowOf(headers, values).values[headers[k]] == ValueAt(values, k)
    decreases |headers|
  {
    var n := |headers| - 1;
    if k < n {
      RowLastWins(headers[..n], values, k);
    }
  }

  /** With distinct headers the keys are the headers, in order. */
  lemma {:induction false} RowKeysInOrder(headers: seq<string>, values: seq<string>)
    requires forall i, j :: 0 <= i < j < |headers| ==> headers[i] != headers[j]
    ensures RowOf(headers, values).keys == headers
    decreases |headers|
  {
    if headers != [] {
      var n := |headers| - 1;
      RowKeysInOrder(headers[..n], values);
      RowWellFormed(headers[..n], values);
      assert headers[n] !in headers[..n];
    }
  }

  // ---------------------------------------------------------------- the file guard

  const ValidTypes: seq<string> := [
    "application/vnd.openxmlformats-officedocument.spreadsheetml.sheet",
    "application/vnd.ms-excel",
    "text/csv"
  ]

  /** 50 MB. */
  const MaxSize: nat := 50 * 1024 * 1024

  const TypeError: string := "Please upload an Excel file (.xlsx, .xls) or CSV file (.csv)"
  const SizeError: string := "File size must be less than 50MB"

  /**
   * A chosen file: its name, MIME type and size, and what reading it yields — its text, and the
   * first sheet of the workbook as row objects, or the message the spreadsheet library throws.
   */
  datatype Upload = Upload(name: string, mime: string, size: nat, text: string, sheet: SheetRead)

  datatype SheetRead = Unreadable(message: string) | Sheet(rows: seq<Record>)

  /** The guard of `validateAndSetFile`: the message it shows, if any. */
  function GuardError(f: Upload): (e: Option<string>)
    ensures e.None? <==> (f.mime in ValidTypes || EndsWith(f.name, ".csv")) && f.size <= MaxSize
    ensures e.Some? ==> e.value == (if f.mime in ValidTypes || EndsWith(f.name, ".csv") then SizeError else TypeError)
  {
    if f.mime !in ValidTypes && !EndsWith(f.name, ".csv") then Some(TypeError)
    else if f.size > MaxSize then Some(SizeError)
    else None
  }

  // ---------------------------------------------------------------- reading

  const TooShortError: string := "CSV file must have at least a header row and one data row"
  const EmptyError: string := "File appears to be empty"

  datatype Read = Failed(message: string) | Rows(rows: seq<Record>)

  /** `filter((line) => line.trim())`; `NonBlankCounts` and `NonBlankSplits` say what it keeps. */
  function NonBlank(lines: seq<string>): (r: seq<string>)
    ensures |r| <= |lines|
    ensures forall k :: 0 <= k < |r| ==> Trim(r[k]) != "" && r[k] in lines
    ensures forall l :: l in lines && Trim(l) != "" ==> l in r
  {
    if lines == [] then []
    else
      var rest := NonBlank(lines[1..]);
      assert forall l :: l in lines[1..] ==> l in lines;
      if Trim(lines[0]) != "" then [lines[0]] + rest else rest
  }

  /** Every non-blank line is kept as many times as it occurs, and no blank one. */
  lemma {:induction false} NonBlankCounts(lines: seq<string>, l: string)
    ensures multiset(NonBlank(lines))[l] == (if Trim(l) != "" then multiset(lines)[l] else 0)
  {
    if lines != [] {
      var x, tail := lines[0], lines[1..];
      NonBlankCounts(tail, l);
      assert lines == [x] + tail;
      var m := multiset(lines)[l];
      assert m == multiset([x])[l] + multiset(tail)[l];
      if Trim(x) != "" {
        assert NonBlank(lines) == [x] + NonBlank(tail);
        assert multiset(NonBlank(lines))[l] == multiset([x])[l] + multiset(NonBlank(tail))[l];
      } else {
        assert NonBlank(lines) == NonBlank(tail);
        assert x == l ==> Trim(l) == "";
      }
    }
  }

  /** The lines kept from `a + b` are those kept from `a` followed by those kept from `b`. */
  lemma {:induction false} NonBlankSplits(a: seq<string>, b: seq<string>)
    ensures NonBlank(a + b) == NonBlank(a) + NonBlank(b)
  {
    if a == [] {
      assert a + b == b;
    } else {
      assert (a + b)[0] == a[0] && (a + b)[1..] == a[1..] + b;
      NonBlankSplits(a[1..], b);
    }
  }

  /** A single line is kept exactly when it is not blank: with `NonBlankSplits`, the kept lines keep their order. */
  lemma NonBlankLine(l: string)
    ensures NonBlank([l]) == (if Trim(l) != "" then [l] else [])
  {
    assert [l][1..] == [];
  }

  /** `h.trim().replace(/"/g, "")`. */
  function Clean(s: string): (r: string)
    ensures '"' !in r
  {
    RemoveAll(Trim(s), '"')
  }

  /** A line split at every comma, each piece cleaned: quoting is not understood. */
  function Fields(line: string): (r: seq<string>)
    ensures |r| == Count(line, ',') + 1
    ensures forall k :: 0 <= k < |r| ==> '"' !in r[k]
  {
    var parts := Split(line, ',');
    SplitCount(line, ',');
    seq(|parts|, k requires 0 <= k < |parts| => Clean(parts[k]))
  }

  /** The rows built from the data lines under `headers`. */
  function CsvRows(headers: seq<string>, lines: seq<string>): (rows: seq<Record>)
    ensures |rows| == |lines|
    decreases |lines|
  {
    if lines == [] then []
    else
      var n := |lines| - 1;
      CsvRows(headers, lines[..n]) + [RowOf(headers, Fields(lines[n]))]
  }

  /** Row `k` is built from line `k`. */
  lemma {:induction false} CsvRowAt(headers: seq<string>, lines: seq<string>, k: nat)
    requires k < |lines|
    ensures CsvRows(headers, lines)[k] == RowOf(headers, Fields(lines[k]))
    decreases |lines|
  {
    var n := |lines| - 1;
    var front := CsvRows(headers, lines[..n]);
    assert CsvRows(headers, lines) == front + [RowOf(headers, Fields(lines[n]))];
    if k < n {
      CsvRowAt(headers, lines[..n], k);
      assert lines[..n][k] == lines[k];
      assert CsvRows(headers, lines)[k] == front[k];
    }
  }

  /** The CSV branch of `validateFileFormat`. */
  function CsvData(text: string): Read {
    var lines := NonBlank(Split(text, '\n'));
    if |lines| < 2 then Failed(TooShortError)
    else Rows(CsvRows(Fields(lines[0]), lines[1..]))
  }

  /** A name ending in ".csv" is read as CSV, anything else as a workbook. */
  function ReadData(f: Upload): Read {
    if EndsWith(f.name, ".csv") then CsvData(f.text)
    else if f.sheet.Unreadable? then Failed(f.sheet.message)
    else Rows(f.sheet.rows)
  }

  /** Reads the rows of `f` as `validateFileFormat` does, building each CSV row with `BuildRow`. */
  method ReadRows(f: Upload) returns (read: Read)
    ensures read == ReadData(f)
  {
    if !EndsWith(f.name, ".csv") {
      read := if f.sheet.Unreadable? then Failed(f.sheet.message) else Rows(f.sheet.rows);
      return;
    }
    var lines := NonBlank(Split(f.text, '\n'));
    if |lines| < 2 {
      return Failed(TooShortError);
    }
    var data := BuildRows(Fields(lines[0]), lines[1..]);
    return Rows(data);
  }

  /** `lines.slice(1).map(...)`: one row per data line. */
  method BuildRows(headers: seq<string>, body: seq<string>) returns (data: seq<Record>)
    ensures data == CsvRows(headers, body)
  {
    data := [];
    for i := 0 to |body|
      invariant data == CsvRows(headers, body[..i])
    {
      var row := BuildRow(headers, Fields(body[i]));
      assert body[..i + 1][..i] == body[..i];
      data := data + [row];
    }
    assert body[..|body|] == body;
  }

  /**
   * A CSV text fails exactly when it has fewer than two non-blank lines; otherwise there is one row
   * per non-blank line after the first, so CSV data is never empty, and every row has the keys of
   * the header line.
   */
  lemma CsvShape(text: string)
    ensures var lines := NonBlank(Split(text, '\n'));
      && (CsvData(text).Failed? <==> |lines| < 2)
      && (CsvData(text).Failed? ==> CsvData(text).message == TooShortError)
      && (CsvData(text).Rows? ==> |CsvData(text).rows| == |lines| - 1 >= 1)
  {
  }

  /** Every CSV row has exactly the header line's cleaned names as keys, none holding a quote. */
  lemma CsvKeys(text: string, k: nat)
    requires CsvData(text).Rows? && k < |CsvData(text).rows|
    ensures var lines := NonBlank(Split(text, '\n'));
      var row := CsvData(text).rows[k];
      && WellFormed(row)
      && (forall h :: h in row.values <==> h in Fields(lines[0]))
      && (forall h :: h in row.values ==> '"' !in h)
  {
    var lines := NonBlank(Split(text, '\n'));
    CsvRowAt(Fields(lines[0]), lines[1..], k);
    RowWellFormed(Fields(lines[0]), Fields(lines[1..][k]));
  }

  // ---------------------------------------------------------------- columns

  const MissingPrefix: string := "Missing required columns: "

  /** One lower-cased name contains the other. */
  predicate Matches(fileColumn: string, column: string) {
    Contains(Lower(fileColumn), Lower(column)) || Contains(Lower(column), Lower(fileColumn))
  }

  predicate Found(column: string, fileColumns: seq<string>) {
    exists fc :: fc in fileColumns && Matches(fc, column)
  }

  /** The expected columns no file column matches, in their order. */
  function Missing(expected: seq<string>, fileColumns: seq<string>): (m: seq<string>)
    ensures |m| <= |expected|
    ensures forall c :: c in m <==> c in expected && !Found(c, fileColumns)
  {
    if expected == [] then []
    else (if Found(expected[0], fileColumns) then [] else [expected[0]]) + Missing(expected[1..], fileColumns)
  }

  /** `stepFormats[targetStep].expectedColumns`. */
  function ExpectedColumns(target: int): seq<string>
    requires target in {1, 3, 4}
  {
    if target == 1 then ["ConvID", "Date/Time", "Role", "Message"]
    else if target == 3 then ["ConvID", "Date", "Conversation"]
    else ["ConvID", "Date", "Intent"]
  }

  /** What a successful validation keeps. */
  datatype Validation = Validation(rowCount: nat, columns: seq<string>, preview: seq<Record>, data: seq<Record>)

  datatype Verdict = Rejected(message: string) | Passed(result: Validation)

  /** The checks after reading: rows exist, and every expected column is matched by a key of the first row. */
  function Validate(data: seq<Record>, expected: seq<string>): Verdict {
    if data == [] then Rejected(EmptyError)
    else
      var columns := data[0].keys;
      var missing := Missing(expected, columns);
      if missing != [] then
        Rejected(MissingPrefix + Join(missing, ", ") + ". Found columns: " + Join(columns, ", "))
      else Passed(Validation(|data|, columns, Take(data, 3), data))
  }

  /** The whole of `validateFileFormat`, for a target's expected columns. */
  function Check(f: Upload, expected: seq<string>): Verdict {
    match ReadData(f)
    case Failed(message) => Rejected(message)
    case Rows(data) => Validate(data, expected)
  }

  /**
   * Validation passes exactly when there are rows and each expected column is matched by a key of
   * the first row; it then keeps all rows, their count, the first row's keys and the first three
   * rows. An empty file and a file missing a column are told apart by their messages.
   */
  lemma ValidateIff(data: seq<Record>, expected: seq<string>)
    ensures Validate(data, expected).Passed? <==> data != [] && forall c :: c in expected ==> Found(c, data[0].keys)
    ensures Validate(data, expected).Passed? ==>
      Validate(data, expected).result == Validation(|data|, data[0].keys, data[..Min(3, |data|)], data)
    ensures data == [] ==> Validate(data, expected) == Rejected(EmptyError)
    ensures data != [] && Validate(data, expected).Rejected? ==> MissingPrefix <= Validate(data, expected).message
  {
    if data != [] {
      var m := Missing(expected, data[0].keys);
      if m != [] {
        assert m[0] in m;
      }
      assert data[..|data|] == data;
    }
  }

  /** A blank column name (`",Intent"` yields one) matches every expected column. */
  lemma BlankColumnMatchesAll(column: string)
    ensures Matches("", column)
  {
    assert Lower("") == "";
  }

  /** Matching ignores case: lower-casing either name changes nothing. */
  lemma CaseIgnored(fileColumn: string, column: string)
    ensures Matches(fileColumn, column) <==> Matches(Lower(fileColumn), Lower(column))
  {
    LowerIdempotent(fileColumn);
    LowerIdempotent(column);
  }

  // ---------------------------------------------------------------- handing on

  /** `row[key]`, where a missing key reads as the falsy `undefined`, here `""`. */
  function Field(r: Record, key: string): string {
    if key in r.values then r.values[key] else ""
  }

  /** `conv.Conversation ? conv.Conversation.split("\n").length : 0`. */
  function MessageCount(r: Record): nat {
    var c := Field(r, "Conversation");
    if c == "" then 0 else |Split(c, '\n')|
  }

  function TotalMessages(rows: seq<Record>): nat {
    if rows == [] then 0 else MessageCount(rows[0]) + TotalMessages(rows[1..])
  }

  /** Intents present and not marked as errors. */
  function SuccessfulCount(rows: seq<Record>): nat {
    if rows == [] then 0
    else
      var i := Field(rows[0], "Intent");
      (if i != "" && !IsErrorIntent(i) then 1 else 0) + SuccessfulCount(rows[1..])
  }

  /** Intents whose lower-case text contains "unclear". */
  function UnclearCount(rows: seq<Record>): nat {
    if rows == [] then 0
    else
      var i := Field(rows[0], "Intent");
      (if i != "" && Contains(Lower(i), "unclear") then 1 else 0) + UnclearCount(rows[1..])
  }

  /** Intents marked as errors. */
  function ErrorCount(rows: seq<Record>): nat {
    if rows == [] then 0
    else
      var i := Field(rows[0], "Intent");
      (if i != "" && IsErrorIntent(i) then 1 else 0) + ErrorCount(rows[1..])
  }

  /** What `handleNext` passes on for each target step. */
  datatype Handoff =
    | RawFile(file: Upload)
    | Conversations(conversations: seq<Record>, totalConversations: nat, totalMessages: nat)
    | Intents(intents: seq<Record>, totalProcessed: nat, successful: nat, unclear: nat, errors: nat)

  /** The rows that carry a non-empty Intent. */
  function WithIntent(rows: seq<Record>): nat {
    if rows == [] then 0 else (if Field(rows[0], "Intent") != "" then 1 else 0) + WithIntent(rows[1..])
  }

  /** Successful and error tallies split the rows with an intent between them. */
  lemma {:induction false} IntentTallies(rows: seq<Record>)
    ensures SuccessfulCount(rows) + ErrorCount(rows) == WithIntent(rows)
    ensures SuccessfulCount(rows) <= |rows| && UnclearCount(rows) <= WithIntent(rows)
  {
    if rows != [] {
      IntentTallies(rows[1..]);
    }
  }

  /** An unclear intent also counts as successful: the two tallies overlap. */
  lemma UnclearIsSuccessful()
    ensures var rows := [Record(["Intent"], map["Intent" := "unclear"])];
      SuccessfulCount(rows) == 1 && UnclearCount(rows) == 1 && ErrorCount(rows) == 0
  {
    var rows := [Record(["Intent"], map["Intent" := "unclear"])];
    assert Lower("unclear") == "unclear";
    assert !IsErrorIntent("unclear") by {
      assert "unclear"[0] != ErrorPrefix[0];
    }
    assert Contains("unclear", "unclear");
    assert rows[1..] == [];
  }

  /** A row with a lower-case "intent" key passes the column check yet is tallied as having no intent. */
  lemma LowerCaseIntentUncounted()
    ensures var rows := [Record(["intent"], map["intent" := "Reset my password"])];
      Matches("intent", "Intent") && WithIntent(rows) == 0 && SuccessfulCount(rows) == 0
  {
    var lower := Lower("Intent");
    assert lower[0] == 'i' && lower[1] == 'n' && lower[2] == 't' && lower[3] == 'e' && lower[4] == 'n' && lower[5] == 't';
    assert lower == "intent" == Lower("intent");
    assert Contains(lower, lower);
    var rows := [Record(["intent"], map["intent" := "Reset my password"])];
    assert "Intent" !in rows[0].values;
    assert rows[1..] == [];
  }

  /** Each non-empty conversation contributes one message per line. */
  lemma {:induction false} MessagesAreLines(rows: seq<Record>)
    ensures TotalMessages(rows) == LineTotal(rows)
  {
    if rows != [] {
      MessagesAreLines(rows[1..]);
      SplitCount(Field(rows[0], "Conversation"), '\n');
    }
  }

  /** The number of lines of the non-empty conversations: one more than their newlines. */
  function LineTotal(rows: seq<Record>): nat {
    if rows == [] then 0
    else
      var c := Field(rows[0], "Conversation");
      (if c == "" then 0 else Count(c, '\n') + 1) + LineTotal(rows[1..])
  }

  // ---------------------------------------------------------------- the component

  class DirectUploadStep {
    const targetStep: int
    var file: Option<Upload>
    var error: string
    var processing: bool
    var validation: Option<Validation>

    /** A kept validation is the verdict on the kept file. */
    predicate Valid()
      reads this
    {
      && targetStep in {1, 3, 4}
      && !processing
      && (validation.Some? ==> file.Some? && Check(file.value, ExpectedColumns(targetStep)) == Passed(validation.value))
    }

    constructor (target: int)
      requires target in {1, 3, 4}
      ensures Valid() && targetStep == target
      ensures file.None? && error == "" && !processing && validation.None?
    {
      targetStep := target;
      file, error, processing, validation := None, "", false, None;
    }

    /**
     * `handleFileInput` and `handleDrop`: the error is cleared, then a chosen file goes through the
     * guard. A refused file leaves the previous file and validation in place.
     */
    method Choose(chosen: Option<Upload>)
      requires Valid()
      modifies this
      ensures Valid() && !processing
      ensures chosen.None? ==> error == "" && file == old(file) && validation == old(validation)
      ensures chosen.Some? && GuardError(chosen.value).Some? ==>
        error == GuardError(chosen.value).value && file == old(file) && validation == old(validation)
      ensures chosen.Some? && GuardError(chosen.value).None? ==>
        && file == chosen
        && match Check(chosen.value, ExpectedColumns(targetStep))
           case Rejected(message) => error == message && validation.None?
           case Passed(v) => error == "" && validation == Some(v)
    {
      error := "";
      if chosen.Some? {
        var f := chosen.value;
        var guard := GuardError(f);
        if guard.Some? {
          error := guard.value;
          return;
        }
        file := Some(f);
        ValidateFileFormat(f);
      }
    }

    /** `validateFileFormat`: the verdict goes to `validationResult`, or its message to `error`. */
    method ValidateFileFormat(f: Upload)
      requires targetStep in {1, 3, 4} && !processing && file == Some(f) && error == ""
      modifies this`processing, this`error, this`validation
      ensures Valid() && !processing
      ensures match Check(f, ExpectedColumns(targetStep))
        case Rejected(message) => error == message && validation.None?
        case Passed(v) => error == "" && validation == Some(v)
    {
      processing := true;
      var read := ReadRows(f);
      match read {
        case Failed(message) =>
          error, validation := message, None;
        case Rows(data) =>
          var verdict := Validate(data, ExpectedColumns(targetStep));
          if verdict.Rejected? {
            error, validation := verdict.message, None;
          } else {
            validation := Some(verdict.result);
          }
      }
      processing := false;
    }

    /** `handleNext`: nothing without a validation, else the target step's data. */
    function Next(): (h: Option<Handoff>)
      requires Valid()
      reads this
      ensures h.Some? <==> validation.Some?
      ensures h.Some? && targetStep == 1 ==> h.value == RawFile(file.value)
      ensures h.Some? && targetStep == 3 ==>
        var rows := validation.value.data;
        h.value == Conversations(rows, |rows|, LineTotal(rows))
      ensures h.Some? && targetStep == 4 ==>
        var rows := validation.value.data;
        && h.value.Intents? && h.value.intents == rows && h.value.totalProcessed == |rows|
        && h.value.successful == SuccessfulCount(rows) && h.value.unclear == UnclearCount(rows)
        && h.value.errors == ErrorCount(rows)
        && h.value.successful + h.value.errors == WithIntent(rows) && h.value.unclear <= WithIntent(rows)
    {
      if validation.None? then None
      else
        var rows := validation.value.data;
        if targetStep == 1 then Some(RawFile(file.value))
        else if targetStep == 3 then
          MessagesAreLines(rows);
          Some(Conversations(rows, |rows|, TotalMessages(rows)))
        else
          IntentTallies(rows);
          Some(Intents(rows, |rows|, SuccessfulCount(rows), UnclearCount(rows), ErrorCount(rows)))
    }
  }
}
