/**
 * The conversation assembly of the upload endpoint: spreadsheet rows are normalised, sorted by
 * (numeric conversation key, timestamp), grouped by conversation identifier in order of first
 * appearance, and every conversation with at least one message becomes one transcript.
 */
module ProcessData {
  import opened Common
  import opened Js
  import opened Domain

  // ---------------------------------------------------------------- time values

  /** The largest magnitude of an ECMAScript time value, in milliseconds. */
  const MaxTime: int := 8_640_000_000_000_000

  /** A valid (clipped) time value: milliseconds since the epoch. */
  type Time = t: int | -MaxTime <= t <= MaxTime

  /** `ToIntegerOrInfinity` on a finite number: truncation toward zero. */
  function Truncate(x: real): (r: int)
    ensures 0.0 <= x ==> 0 <= r && r as real <= x < r as real + 1.0
    ensures x < 0.0 ==> r <= 0 && r as real - 1.0 < x <= r as real
  {
    if 0.0 <= x then x.Floor else -((-x).Floor)
  }

  /** `new Date((v - 25569) * 86400 * 1000)`: `None` for an Invalid Date. */
  function SerialTime(v: real): (r: Option<Time>)
    ensures r.Some? <==> -(MaxTime as real) <= (v - 25569.0) * 86400000.0 <= MaxTime as real
  {
    var x := (v - 25569.0) * 86400.0 * 1000.0;
    if -(MaxTime as real) <= x <= MaxTime as real then
      var t: Time := Truncate(x);
      Some(t)
    else None
  }

  /**
   * What the clock and the date parser are to the endpoint: `parseText` is the whole chain of
   * attempts on a text cell (`new Date(s)` and the three rewritten formats, the first valid one
   * winning), `isoDate` is `toISOString().split("T")[0]`, and `now` is `new Date()`.
   */
  datatype Env = Env(parseText: string -> Option<Time>, isoDate: Time -> string, now: Time)

  /** The Date/Time cell of a spreadsheet row as the spreadsheet reader hands it over. */
  datatype DateCell =
    | Blank                      // missing, null, false
    | Serial(days: real)         // a number: an Excel serial day
    | Text(text: string)         // a string
    | Instant(time: Option<Time>) // a Date object; None is an Invalid Date
    | Other                      // any other truthy value

  /**
   * The instant of a row: a falsy cell, an unrecognised value, or any value that yields an
   * Invalid Date (whose `toISOString` throws inside the row's `try`) falls back to `now`.
   */
  function Timestamp(cell: DateCell, env: Env): (t: Time)
    ensures cell.Serial? && cell.days != 0.0 && SerialTime(cell.days).Some? ==> t == SerialTime(cell.days).value
    ensures cell.Text? && cell.text != "" && env.parseText(cell.text).Some? ==> t == env.parseText(cell.text).value
    ensures cell.Instant? && cell.time.Some? ==> t == cell.time.value
    ensures cell.Blank? || cell.Other? || cell == Serial(0.0) || cell == Text("") ==> t == env.now
    ensures cell.Serial? && cell.days != 0.0 && SerialTime(cell.days).None? ==> t == env.now
    ensures cell.Text? && cell.text != "" && env.parseText(cell.text).None? ==> t == env.now
    ensures cell == Instant(None) ==> t == env.now
  {
    match cell
    case Blank => env.now
    case Serial(v) => if v == 0.0 then env.now else SerialTime(v).GetOr(env.now)
    case Text(s) => if s == "" then env.now else env.parseText(s).GetOr(env.now)
    case Instant(t) => t.GetOr(env.now)
    case Other => env.now
  }

  // ---------------------------------------------------------------- rows

  /** A data row of the first sheet; Role and Message are the text of their cells. */
  datatype SheetRow = SheetRow(convId: Option<ConvId>, dateTime: DateCell, role: string, message: string)

  /** A normalised row. */
  datatype Row = Row(convId: ConvId, time: Time, date: string, role: string, message: string)

  /** `row.ConvID || conv_${index}`: a missing identifier, `0` or `""` is replaced. */
  function RowId(id: Option<ConvId>, index: nat): (r: ConvId)
    ensures id.Some? && id.value != Num(0) && id.value != Str("") ==> r == id.value
    ensures id.None? || id.value == Num(0) || id.value == Str("") ==> r == Str("conv_" + NatToString(index))
  {
    match id
    case Some(v) => if v == Num(0) || v == Str("") then Str("conv_" + NatToString(index)) else v
    case None => Str("conv_" + NatToString(index))
  }

  function NormalizeRow(r: SheetRow, index: nat, env: Env): Row {
    var t := Timestamp(r.dateTime, env);
    Row(RowId(r.convId, index), t, env.isoDate(t), Trim(r.role), Trim(r.message))
  }

  function NormalizeRows(rows: seq<SheetRow>, env: Env): (r: seq<Row>)
    ensures |r| == |rows|
    ensures forall i :: 0 <= i < |rows| ==> r[i] == NormalizeRow(rows[i], i, env)
  {
    seq(|rows|, i requires 0 <= i < |rows| => NormalizeRow(rows[i], i, env))
  }

  // ---------------------------------------------------------------- ordering

  /** The numeric key of an identifier: a number as is, a string through `parseInt(...) || 0`. */
  function SortKey(id: ConvId): int {
    match id
    case Num(n) => n
    case Str(s) => ParseInt(s).GetOr(0)
  }

  /** The comparator: by key, then by timestamp. */
  predicate RowLe(a: Row, b: Row) {
    SortKey(a.convId) < SortKey(b.convId) || (SortKey(a.convId) == SortKey(b.convId) && a.time <= b.time)
  }

  predicate SameKey(a: Row, b: Row) {
    SortKey(a.convId) == SortKey(b.convId) && a.time == b.time
  }

  predicate Sorted(s: seq<Row>) {
    forall i, j :: 0 <= i < j < |s| ==> RowLe(s[i], s[j])
  }

  /** Places `x` before the first element it does not follow. */
  function Insert(x: Row, s: seq<Row>): (r: seq<Row>)
    ensures |r| == |s| + 1
    ensures multiset(r) == multiset(s) + multiset{x}
  {
    if s == [] || RowLe(x, s[0]) then [x] + s
    else
      assert s == [s[0]] + s[1..];
      [s[0]] + Insert(x, s[1..])
  }

  /** `Array.prototype.sort` with the comparator: a stable sort. */
  function Sort(s: seq<Row>): (r: seq<Row>)
    ensures |r| == |s|
    ensures multiset(r) == multiset(s)
  {
    if s == [] then []
    else
      assert s == [s[0]] + s[1..];
      Insert(s[0], Sort(s[1..]))
  }

  lemma {:induction false} InsertSorted(x: Row, s: seq<Row>)
    requires Sorted(s)
    ensures Sorted(Insert(x, s))
  {
    if s == [] || RowLe(x, s[0]) {
    } else {
      var t := Insert(x, s[1..]);
      InsertSorted(x, s[1..]);
      forall j | 0 <= j < |t| ensures RowLe(s[0], t[j]) {
        assert t[j] in multiset(t);
        assert t[j] == x || t[j] in multiset(s[1..]);
        if t[j] != x {
          assert t[j] in s[1..];
        }
      }
      assert Insert(x, s) == [s[0]] + t;
    }
  }

  /** The sorted rows are ordered by the comparator. */
  lemma {:induction false} SortSorted(s: seq<Row>)
    ensures Sorted(Sort(s))
  {
    if s != [] {
      SortSorted(s[1..]);
      InsertSorted(s[0], Sort(s[1..]));
    }
  }

  /** The rows whose comparison key is that of `k`, in order. */
  function WithKey(s: seq<Row>, k: Row): (r: seq<Row>)
    ensures |r| <= |s|
  {
    if s == [] then []
    else (if SameKey(s[0], k) then [s[0]] else []) + WithKey(s[1..], k)
  }

  lemma {:induction false} InsertWithKey(x: Row, s: seq<Row>, k: Row)
    ensures WithKey(Insert(x, s), k) == (if SameKey(x, k) then [x] else []) + WithKey(s, k)
  {
    if s == [] || RowLe(x, s[0]) {
      assert ([x] + s)[1..] == s;
    } else {
      var t := Insert(x, s[1..]);
      InsertWithKey(x, s[1..], k);
      assert ([s[0]] + t)[1..] == t;
      assert !(SameKey(s[0], k) && SameKey(x, k));
    }
  }

  /** Stability: rows that compare equal keep their input order. */
  lemma {:induction false} SortStable(s: seq<Row>, k: Row)
    ensures WithKey(Sort(s), k) == WithKey(s, k)
  {
    if s != [] {
      SortStable(s[1..], k);
      InsertWithKey(s[0], Sort(s[1..]), k);
    }
  }

  /** Rows already in comparator order are left as they are. */
  lemma {:induction false} SortIdempotent(s: seq<Row>)
    requires Sorted(s)
    ensures Sort(s) == s
  {
    if s != [] {
      assert Sorted(s[1..]);
      SortIdempotent(s[1..]);
      assert s == [s[0]] + s[1..];
    }
  }

  // ---------------------------------------------------------------- grouping

  /** What a conversation remembers of a message row. */
  datatype RawEntry = RawEntry(role: string, message: string, time: Time)

  /** A conversation under construction: `{ConvID, Date, messages, rawEntries}`. */
  datatype Group = Group(convId: ConvId, date: string, messages: seq<string>, rawEntries: seq<RawEntry>)

  /** `if (row.Role && row.Message)`: only rows with both parts non-empty contribute a message. */
  predicate Contributes(r: Row) {
    r.role != "" && r.message != ""
  }

  function EntryOf(r: Row): RawEntry {
    RawEntry(r.role, r.message, r.time)
  }

  /** `${Role}: ${Message}`. */
  function Line(e: RawEntry): string {
    e.role + ": " + e.message
  }

  function Lines(es: seq<RawEntry>): (r: seq<string>)
    ensures |r| == |es|
    ensures forall i :: 0 <= i < |es| ==> r[i] == Line(es[i])
  {
    if es == [] then [] else Lines(es[..|es| - 1]) + [Line(es[|es| - 1])]
  }

  lemma {:induction false} LinesSnoc(es: seq<RawEntry>, e: RawEntry)
    ensures Lines(es + [e]) == Lines(es) + [Line(e)]
  {
    assert (es + [e])[..|es|] == es;
  }

  /** The position of the group with identifier `id`, or -1. */
  function FindGroup(gs: seq<Group>, id: ConvId): (k: int)
    ensures -1 <= k < |gs|
    ensures 0 <= k ==> gs[k].convId == id
    ensures forall j :: 0 <= j < |gs| && (k < 0 || j < k) ==> gs[j].convId != id
  {
    if gs == [] then -1
    else if gs[0].convId == id then 0
    else
      var k := FindGroup(gs[1..], id);
      if k < 0 then -1 else k + 1
  }

  /** `conversation.messages.push(...)` and `conversation.rawEntries.push(...)` for a contributing row. */
  function Grow(g: Group, r: Row): Group {
    if Contributes(r) then
      g.(messages := g.messages + [Line(EntryOf(r))], rawEntries := g.rawEntries + [EntryOf(r)])
    else g
  }

  /** One step of the `forEach`: find or create the group, then record the message. */
  function AddRow(gs: seq<Group>, r: Row): seq<Group> {
    var j := FindGroup(gs, r.convId);
    if j < 0 then gs + [Grow(Group(r.convId, r.date, [], []), r)] else gs[j := Grow(gs[j], r)]
  }

  /** The groups after all rows, in order: the values of the insertion-ordered map. */
  function Grouped(rows: seq<Row>): seq<Group> {
    if rows == [] then [] else AddRow(Grouped(rows[..|rows| - 1]), rows[|rows| - 1])
  }

  /** The first row with identifier `id`, or -1. */
  function FirstWith(rows: seq<Row>, id: ConvId): (f: int)
    ensures -1 <= f < |rows|
    ensures 0 <= f ==> rows[f].convId == id
    ensures forall i :: 0 <= i < |rows| && (f < 0 || i < f) ==> rows[i].convId != id
  {
    if rows == [] then -1
    else
      var f := FirstWith(rows[..|rows| - 1], id);
      if 0 <= f then f else if rows[|rows| - 1].convId == id then |rows| - 1 else -1
  }

  /** The entries of the contributing rows with identifier `id`, in row order. */
  function EntriesFor(rows: seq<Row>, id: ConvId): seq<RawEntry> {
    if rows == [] then []
    else
      var last := rows[|rows| - 1];
      EntriesFor(rows[..|rows| - 1], id) + (if last.convId == id && Contributes(last) then [EntryOf(last)] else [])
  }

  /** The number of contributing rows. */
  function MessageRows(rows: seq<Row>): nat {
    if rows == [] then 0
    else MessageRows(rows[..|rows| - 1]) + (if Contributes(rows[|rows| - 1]) then 1 else 0)
  }

  function SumMessages(gs: seq<Group>): nat {
    if gs == [] then 0 else |gs[0].messages| + SumMessages(gs[1..])
  }

  /** A group holds exactly the contributing rows of its identifier and the date of its first row. */
  predicate GroupOf(rows: seq<Row>, g: Group) {
    var f := FirstWith(rows, g.convId);
    0 <= f && g.date == rows[f].date && g.rawEntries == EntriesFor(rows, g.convId) && g.messages == Lines(g.rawEntries)
  }

  /** What the groups built from `rows` are. */
  predicate Describes(rows: seq<Row>, gs: seq<Group>) {
    AllGroupsOf(rows, gs) && FirstOrdered(rows, gs) && Covers(rows, gs) && SumMessages(gs) == MessageRows(rows)
  }

  predicate AllGroupsOf(rows: seq<Row>, gs: seq<Group>) {
    forall k :: 0 <= k < |gs| ==> GroupOf(rows, gs[k])
  }

  /** The groups are in order of the first row of each identifier. */
  predicate FirstOrdered(rows: seq<Row>, gs: seq<Group>) {
    forall k1, k2 :: 0 <= k1 < k2 < |gs| ==> FirstWith(rows, gs[k1].convId) < FirstWith(rows, gs[k2].convId)
  }

  /** Every row's identifier has a group. */
  predicate Covers(rows: seq<Row>, gs: seq<Group>) {
    forall i :: 0 <= i < |rows| ==> 0 <= FindGroup(gs, rows[i].convId)
  }

  lemma {:induction false} EntriesForAbsent(rows: seq<Row>, id: ConvId)
    requires forall i :: 0 <= i < |rows| ==> rows[i].convId != id
    ensures EntriesFor(rows, id) == []
  {
    if rows != [] {
      EntriesForAbsent(rows[..|rows| - 1], id);
    }
  }

  lemma {:induction false} SumAppend(gs: seq<Group>, g: Group)
    ensures SumMessages(gs + [g]) == SumMessages(gs) + |g.messages|
  {
    if gs == [] {
      assert [g][1..] == [];
    } else {
      assert (gs + [g])[1..] == gs[1..] + [g];
      SumAppend(gs[1..], g);
    }
  }

  lemma {:induction false} SumUpdate(gs: seq<Group>, k: nat, g: Group)
    requires k < |gs|
    ensures SumMessages(gs[k := g]) == SumMessages(gs) - |gs[k].messages| + |g.messages|
  {
    if k > 0 {
      assert gs[k := g][1..] == gs[1..][k - 1 := g];
      SumUpdate(gs[1..], k - 1, g);
    } else {
      assert gs[k := g][1..] == gs[1..];
    }
  }

  lemma {:induction false} FirstWithSnoc(rows: seq<Row>, r: Row, id: ConvId)
    ensures FirstWith(rows + [r], id)
         == if 0 <= FirstWith(rows, id) then FirstWith(rows, id) else if r.convId == id then |rows| else -1
  {
    assert (rows + [r])[..|rows|] == rows;
  }

  lemma {:induction false} EntriesForSnoc(rows: seq<Row>, r: Row, id: ConvId)
    ensures EntriesFor(rows + [r], id)
         == EntriesFor(rows, id) + (if r.convId == id && Contributes(r) then [EntryOf(r)] else [])
  {
    assert (rows + [r])[..|rows|] == rows;
  }

  lemma {:induction false} MessageRowsSnoc(rows: seq<Row>, r: Row)
    ensures MessageRows(rows + [r]) == MessageRows(rows) + (if Contributes(r) then 1 else 0)
  {
    assert (rows + [r])[..|rows|] == rows;
  }

  /** A group whose identifier is not that of `r` keeps its description when `r` is added. */
  lemma {:induction false} GroupOfSnoc(rows: seq<Row>, r: Row, g: Group)
    requires GroupOf(rows, g) && g.convId != r.convId
    ensures GroupOf(rows + [r], g)
    ensures FirstWith(rows + [r], g.convId) == FirstWith(rows, g.convId)
  {
    FirstWithSnoc(rows, r, g.convId);
    EntriesForSnoc(rows, r, g.convId);
    assert (rows + [r])[FirstWith(rows, g.convId)] == rows[FirstWith(rows, g.convId)];
  }

  /** The group of `r`'s identifier, grown by `r`, describes the longer rows. */
  lemma {:induction false} GrowOf(rows: seq<Row>, r: Row, g: Group)
    requires GroupOf(rows, g) && g.convId == r.convId
    ensures GroupOf(rows + [r], Grow(g, r))
    ensures FirstWith(rows + [r], g.convId) == FirstWith(rows, g.convId)
  {
    FirstWithSnoc(rows, r, r.convId);
    EntriesForSnoc(rows, r, r.convId);
    assert (rows + [r])[FirstWith(rows, r.convId)] == rows[FirstWith(rows, r.convId)];
    LinesSnoc(g.rawEntries, EntryOf(r));
  }

  /** The group created for a new identifier describes the longer rows. */
  lemma {:induction false} FreshOf(rows: seq<Row>, r: Row)
    requires FirstWith(rows, r.convId) < 0
    ensures GroupOf(rows + [r], Grow(Group(r.convId, r.date, [], []), r))
    ensures FirstWith(rows + [r], r.convId) == |rows|
  {
    FirstWithSnoc(rows, r, r.convId);
    EntriesForAbsent(rows, r.convId);
    EntriesForSnoc(rows, r, r.convId);
    LinesSnoc([], EntryOf(r));
  }

  /** An identifier without a group has no row. */
  lemma {:induction false} Uncovered(rows: seq<Row>, gs: seq<Group>, id: ConvId)
    requires Covers(rows, gs) && FindGroup(gs, id) < 0
    ensures FirstWith(rows, id) < 0
  {
    forall i | 0 <= i < |rows| ensures rows[i].convId != id {
      assert 0 <= FindGroup(gs, rows[i].convId);
    }
  }

  lemma {:induction false} NewAllGroupsOf(rows: seq<Row>, gs: seq<Group>, r: Row)
    requires AllGroupsOf(rows, gs) && FirstWith(rows, r.convId) < 0
    ensures AllGroupsOf(rows + [r], gs + [Grow(Group(r.convId, r.date, [], []), r)])
  {
    var gs' := gs + [Grow(Group(r.convId, r.date, [], []), r)];
    FreshOf(rows, r);
    forall k | 0 <= k < |gs'| ensures GroupOf(rows + [r], gs'[k]) {
      if k < |gs| {
        assert GroupOf(rows, gs[k]);
        GroupOfSnoc(rows, r, gs[k]);
      }
    }
  }

  lemma {:induction false} NewFirstOrdered(rows: seq<Row>, gs: seq<Group>, r: Row)
    requires AllGroupsOf(rows, gs) && FirstOrdered(rows, gs) && FirstWith(rows, r.convId) < 0
    ensures FirstOrdered(rows + [r], gs + [Grow(Group(r.convId, r.date, [], []), r)])
  {
    var gs' := gs + [Grow(Group(r.convId, r.date, [], []), r)];
    FreshOf(rows, r);
    forall k | 0 <= k < |gs| ensures FirstWith(rows + [r], gs[k].convId) == FirstWith(rows, gs[k].convId) {
      assert GroupOf(rows, gs[k]);
      GroupOfSnoc(rows, r, gs[k]);
    }
    forall k1, k2 | 0 <= k1 < k2 < |gs'|
      ensures FirstWith(rows + [r], gs'[k1].convId) < FirstWith(rows + [r], gs'[k2].convId)
    {
      assert gs'[k1] == gs[k1];
      if k2 < |gs| {
        assert gs'[k2] == gs[k2];
      }
    }
  }

  lemma {:induction false} NewCovers(rows: seq<Row>, gs: seq<Group>, r: Row, g: Group)
    requires Covers(rows, gs) && g.convId == r.convId
    ensures Covers(rows + [r], gs + [g])
  {
    var gs' := gs + [g];
    forall i | 0 <= i < |rows| + 1 ensures 0 <= FindGroup(gs', (rows + [r])[i].convId) {
      if i < |rows| {
        var m := FindGroup(gs, rows[i].convId);
        assert gs'[m].convId == (rows + [r])[i].convId;
      } else {
        assert gs'[|gs|].convId == (rows + [r])[i].convId;
      }
    }
  }

  lemma {:induction false} AddNewGroup(rows: seq<Row>, gs: seq<Group>, r: Row)
    requires Describes(rows, gs)
    requires FindGroup(gs, r.convId) < 0
    ensures Describes(rows + [r], AddRow(gs, r))
  {
    var g := Grow(Group(r.convId, r.date, [], []), r);
    Uncovered(rows, gs, r.convId);
    NewAllGroupsOf(rows, gs, r);
    NewFirstOrdered(rows, gs, r);
    NewCovers(rows, gs, r, g);
    SumAppend(gs, g);
    MessageRowsSnoc(rows, r);
  }

  lemma {:induction false} GrownAllGroupsOf(rows: seq<Row>, gs: seq<Group>, r: Row, j: nat)
    requires AllGroupsOf(rows, gs) && FirstOrdered(rows, gs)
    requires j < |gs| && gs[j].convId == r.convId
    ensures AllGroupsOf(rows + [r], gs[j := Grow(gs[j], r)])
  {
    var gs' := gs[j := Grow(gs[j], r)];
    assert GroupOf(rows, gs[j]);
    GrowOf(rows, r, gs[j]);
    forall k | 0 <= k < |gs'| ensures GroupOf(rows + [r], gs'[k]) {
      if k != j {
        assert GroupOf(rows, gs[k]);
        assert FirstWith(rows, gs[k].convId) != FirstWith(rows, gs[j].convId);
        GroupOfSnoc(rows, r, gs[k]);
      }
    }
  }

  lemma {:induction false} GrownFirstOrdered(rows: seq<Row>, gs: seq<Group>, r: Row, j: nat)
    requires AllGroupsOf(rows, gs) && FirstOrdered(rows, gs)
    requires j < |gs| && gs[j].convId == r.convId
    ensures FirstOrdered(rows + [r], gs[j := Grow(gs[j], r)])
  {
    var gs' := gs[j := Grow(gs[j], r)];
    forall k | 0 <= k < |gs| ensures FirstWith(rows + [r], gs[k].convId) == FirstWith(rows, gs[k].convId) {
      assert GroupOf(rows, gs[k]);
      FirstWithSnoc(rows, r, gs[k].convId);
    }
    forall k1, k2 | 0 <= k1 < k2 < |gs'|
      ensures FirstWith(rows + [r], gs'[k1].convId) < FirstWith(rows + [r], gs'[k2].convId)
    {
      assert gs'[k1].convId == gs[k1].convId && gs'[k2].convId == gs[k2].convId;
    }
  }

  lemma {:induction false} GrownCovers(rows: seq<Row>, gs: seq<Group>, r: Row, j: nat)
    requires Covers(rows, gs)
    requires j < |gs| && gs[j].convId == r.convId
    ensures Covers(rows + [r], gs[j := Grow(gs[j], r)])
  {
    var gs' := gs[j := Grow(gs[j], r)];
    forall i | 0 <= i < |rows| + 1 ensures 0 <= FindGroup(gs', (rows + [r])[i].convId) {
      var m := if i < |rows| then FindGroup(gs, rows[i].convId) else j;
      assert gs'[m].convId == (rows + [r])[i].convId;
    }
  }

  lemma {:induction false} AddToGroup(rows: seq<Row>, gs: seq<Group>, r: Row)
    requires Describes(rows, gs)
    requires 0 <= FindGroup(gs, r.convId)
    ensures Describes(rows + [r], AddRow(gs, r))
  {
    var j := FindGroup(gs, r.convId);
    GrownAllGroupsOf(rows, gs, r, j);
    GrownFirstOrdered(rows, gs, r, j);
    GrownCovers(rows, gs, r, j);
    SumUpdate(gs, j, Grow(gs[j], r));
    MessageRowsSnoc(rows, r);
  }

  lemma {:induction false} GroupedDescribes(rows: seq<Row>)
    ensures Describes(rows, Grouped(rows))
  {
    if rows != [] {
      var init, last := rows[..|rows| - 1], rows[|rows| - 1];
      assert init + [last] == rows;
      assert Grouped(rows) == AddRow(Grouped(init), last);
      GroupedDescribes(init);
      AddRowDescribes(init, Grouped(init), last);
    }
  }

  /** One step of the `forEach` keeps the groups describing the rows seen so far. */
  lemma AddRowDescribes(rows: seq<Row>, gs: seq<Group>, r: Row)
    requires Describes(rows, gs)
    ensures Describes(rows + [r], AddRow(gs, r))
  {
    if FindGroup(gs, r.convId) < 0 {
      AddNewGroup(rows, gs, r);
    } else {
      AddToGroup(rows, gs, r);
    }
  }

  /** The map from identifier to position that stands for the `Map`'s lookup. */
  predicate Indexes(index: map<ConvId, nat>, gs: seq<Group>) {
    && (forall id :: id in index ==> index[id] < |gs| && gs[index[id]].convId == id)
    && (forall k :: 0 <= k < |gs| ==> gs[k].convId in index)
  }

  predicate DistinctIds(gs: seq<Group>) {
    forall k1, k2 :: 0 <= k1 < k2 < |gs| ==> gs[k1].convId != gs[k2].convId
  }

  /** With distinct identifiers, the index answers what the search would. */
  lemma {:induction false} IndexFinds(index: map<ConvId, nat>, gs: seq<Group>, id: ConvId)
    requires Indexes(index, gs) && DistinctIds(gs)
    ensures FindGroup(gs, id) == if id in index then index[id] else -1
  {
    if id in index {
      assert gs[index[id]].convId == id;
    } else {
      forall k | 0 <= k < |gs| ensures gs[k].convId != id {
        assert gs[k].convId in index;
      }
    }
  }

  /** A new identifier at the end keeps the index and the identifiers distinct. */
  lemma {:induction false} IndexAppend(index: map<ConvId, nat>, gs: seq<Group>, g: Group)
    requires Indexes(index, gs) && DistinctIds(gs) && g.convId !in index
    ensures Indexes(index[g.convId := |gs|], gs + [g]) && DistinctIds(gs + [g])
  {
    var gs' := gs + [g];
    forall k | 0 <= k < |gs| ensures gs'[k].convId != g.convId && gs'[k].convId in index {
      assert gs'[k] == gs[k];
    }
  }

  /** Growing a group keeps the index and the identifiers distinct. */
  lemma {:induction false} IndexUpdate(index: map<ConvId, nat>, gs: seq<Group>, k: nat, g: Group)
    requires Indexes(index, gs) && DistinctIds(gs) && k < |gs| && g.convId == gs[k].convId
    ensures Indexes(index, gs[k := g]) && DistinctIds(gs[k := g])
  {
    assert forall j :: 0 <= j < |gs| ==> gs[k := g][j].convId == gs[j].convId;
  }

  /** The body of the `forEach` for one row: look the identifier up, create its group if needed, push. */
  method Record(groups: seq<Group>, index: map<ConvId, nat>, row: Row)
    returns (groups': seq<Group>, index': map<ConvId, nat>)
    requires Indexes(index, groups) && DistinctIds(groups)
    ensures groups' == AddRow(groups, row)
    ensures Indexes(index', groups') && DistinctIds(groups')
  {
    IndexFinds(index, groups, row.convId);
    groups', index' := groups, index;
    if row.convId !in index' {
      IndexAppend(index', groups', Group(row.convId, row.date, [], []));
      index' := index'[row.convId := |groups'|];
      groups' := groups' + [Group(row.convId, row.date, [], [])];
    }
    var k := index'[row.convId];
    var g := groups'[k];
    if Contributes(row) {
      g := g.(messages := g.messages + [Line(EntryOf(row))], rawEntries := g.rawEntries + [EntryOf(row)]);
    }
    assert g == Grow(groups'[k], row);
    IndexUpdate(index', groups', k, g);
    ghost var created := groups';
    groups' := groups'[k := g];
    if row.convId in index {
      assert groups' == groups[k := Grow(groups[k], row)];
    } else {
      assert created == groups + [Group(row.convId, row.date, [], [])];
      assert groups' == groups + [Grow(Group(row.convId, row.date, [], []), row)];
    }
  }

  /** The `forEach` over the sorted rows, with `Map.has`, `Map.set` and `Map.get`. */
  method GroupRows(rows: seq<Row>) returns (groups: seq<Group>)
    ensures groups == Grouped(rows)
  {
    groups := [];
    var index: map<ConvId, nat> := map[];
    var i := 0;
    while i < |rows|
      invariant 0 <= i <= |rows|
      invariant groups == Grouped(rows[..i])
      invariant Indexes(index, groups) && DistinctIds(groups)
    {
      assert rows[..i + 1][..i] == rows[..i];
      groups, index := Record(groups, index, rows[i]);
      i := i + 1;
    }
    assert rows[..|rows|] == rows;
  }

  // ---------------------------------------------------------------- ordering inside the groups

  predicate TimeOrdered(es: seq<RawEntry>) {
    forall a, b :: 0 <= a < b < |es| ==> es[a].time <= es[b].time
  }

  lemma {:induction false} EntriesBounded(rows: seq<Row>, id: ConvId, t: int)
    requires forall i :: 0 <= i < |rows| && rows[i].convId == id ==> rows[i].time <= t
    ensures forall a :: 0 <= a < |EntriesFor(rows, id)| ==> EntriesFor(rows, id)[a].time <= t
  {
    if rows != [] {
      EntriesBounded(rows[..|rows| - 1], id, t);
    }
  }

  /** Over sorted rows, the messages of one identifier come in timestamp order. */
  lemma {:induction false} EntriesOrdered(rows: seq<Row>, id: ConvId)
    requires Sorted(rows)
    ensures TimeOrdered(EntriesFor(rows, id))
  {
    if rows != [] {
      var init := rows[..|rows| - 1];
      var last := rows[|rows| - 1];
      assert Sorted(init);
      EntriesOrdered(init, id);
      if last.convId == id && Contributes(last) {
        forall i | 0 <= i < |init| && init[i].convId == id ensures init[i].time <= last.time {
          assert RowLe(rows[i], rows[|rows| - 1]);
        }
        EntriesBounded(init, id, last.time);
      }
    }
  }

  /** A contributing row's identifier has at least one message. */
  lemma {:induction false} EntriesNonEmpty(rows: seq<Row>, i: nat)
    requires i < |rows| && Contributes(rows[i])
    ensures EntriesFor(rows, rows[i].convId) != []
  {
    if i < |rows| - 1 {
      EntriesNonEmpty(rows[..|rows| - 1], i);
    }
  }

  lemma {:induction false} MessageRowsCons(x: Row, s: seq<Row>)
    ensures MessageRows([x] + s) == (if Contributes(x) then 1 else 0) + MessageRows(s)
  {
    if s == [] {
      assert ([x] + s)[..0] == [];
    } else {
      assert ([x] + s)[..|s|] == [x] + s[..|s| - 1];
      MessageRowsCons(x, s[..|s| - 1]);
    }
  }

  lemma {:induction false} MessageRowsInsert(x: Row, s: seq<Row>)
    ensures MessageRows(Insert(x, s)) == (if Contributes(x) then 1 else 0) + MessageRows(s)
  {
    if s == [] || RowLe(x, s[0]) {
      MessageRowsCons(x, s);
    } else {
      MessageRowsInsert(x, s[1..]);
      MessageRowsCons(s[0], Insert(x, s[1..]));
      MessageRowsCons(s[0], s[1..]);
      assert [s[0]] + s[1..] == s;
    }
  }

  /** Sorting neither adds nor drops a message row. */
  lemma {:induction false} MessageRowsSort(s: seq<Row>)
    ensures MessageRows(Sort(s)) == MessageRows(s)
  {
    if s != [] {
      MessageRowsSort(s[1..]);
      MessageRowsInsert(s[0], Sort(s[1..]));
      MessageRowsCons(s[0], s[1..]);
      assert [s[0]] + s[1..] == s;
    }
  }

  // ---------------------------------------------------------------- distinct identifiers

  function GroupIds(gs: seq<Group>): (r: set<ConvId>)
    ensures forall k :: 0 <= k < |gs| ==> gs[k].convId in r
    ensures forall id :: id in r ==> 0 <= FindGroup(gs, id)
  {
    if gs == [] then {} else {gs[0].convId} + GroupIds(gs[1..])
  }

  function RowIds(rows: seq<Row>): (r: set<ConvId>)
    ensures forall i :: 0 <= i < |rows| ==> rows[i].convId in r
    ensures forall id :: id in r ==> 0 <= FirstWith(rows, id)
  {
    if rows == [] then {} else RowIds(rows[..|rows| - 1]) + {rows[|rows| - 1].convId}
  }

  lemma {:induction false} DistinctCount(gs: seq<Group>)
    requires DistinctIds(gs)
    ensures |GroupIds(gs)| == |gs|
  {
    if gs != [] {
      assert DistinctIds(gs[1..]);
      DistinctCount(gs[1..]);
      assert gs[0].convId !in GroupIds(gs[1..]);
    }
  }

  /** The groups have one identifier per distinct identifier of the rows. */
  lemma {:induction false} GroupIdsAreRowIds(rows: seq<Row>, gs: seq<Group>)
    requires Describes(rows, gs)
    ensures GroupIds(gs) == RowIds(rows) && |gs| == |RowIds(rows)|
  {
    forall id | id in GroupIds(gs) ensures id in RowIds(rows) {
      var k := FindGroup(gs, id);
      assert GroupOf(rows, gs[k]);
      assert rows[FirstWith(rows, id)].convId == id;
    }
    forall id | id in RowIds(rows) ensures id in GroupIds(gs) {
      var f := FirstWith(rows, id);
      assert 0 <= FindGroup(gs, rows[f].convId);
    }
    assert DistinctIds(gs) by {
      forall k1, k2 | 0 <= k1 < k2 < |gs| ensures gs[k1].convId != gs[k2].convId {
        assert FirstWith(rows, gs[k1].convId) < FirstWith(rows, gs[k2].convId);
      }
    }
    DistinctCount(gs);
  }

  // ---------------------------------------------------------------- conversations

  /** `{ConvID, Date, Conversation, MessageCount, RawEntries}`. */
  datatype Assembled = Assembled(convId: ConvId, date: string, text: string, messageCount: nat, rawEntries: seq<RawEntry>)

  function Transcript(g: Group): Assembled {
    Assembled(g.convId, g.date, Join(g.messages, "\n"), |g.messages|, g.rawEntries)
  }

  /** `.filter((conv) => conv.messages.length > 0).map(...)` over the groups. */
  function Assemble(gs: seq<Group>): (cs: seq<Assembled>)
    ensures |cs| <= |gs|
  {
    if gs == [] then []
    else (if |gs[0].messages| > 0 then [Transcript(gs[0])] else []) + Assemble(gs[1..])
  }

  function ConvIds(cs: seq<Assembled>): (r: seq<ConvId>)
    ensures |r| == |cs| && forall k :: 0 <= k < |cs| ==> r[k] == cs[k].convId
  {
    seq(|cs|, k requires 0 <= k < |cs| => cs[k].convId)
  }

  /** `conversations.reduce((sum, conv) => sum + conv.MessageCount, 0)`. */
  function TotalMessages(cs: seq<Assembled>): nat {
    if cs == [] then 0 else cs[0].messageCount + TotalMessages(cs[1..])
  }

  /**
   * A conversation is the transcript of the contributing rows of its identifier, in row order,
   * dated by the first row of that identifier (whether or not that row has a message).
   */
  predicate ConversationOf(rows: seq<Row>, c: Assembled) {
    var f := FirstWith(rows, c.convId);
    && 0 <= f && c.date == rows[f].date
    && c.rawEntries == EntriesFor(rows, c.convId) && c.rawEntries != []
    && c.messageCount == |c.rawEntries|
    && c.text == Join(Lines(c.rawEntries), "\n")
  }

  lemma {:induction false} TranscriptOf(rows: seq<Row>, g: Group)
    requires GroupOf(rows, g) && g.messages != []
    ensures ConversationOf(rows, Transcript(g))
  {
  }

  lemma {:induction false} AssembleOf(rows: seq<Row>, gs: seq<Group>)
    requires AllGroupsOf(rows, gs)
    ensures forall k :: 0 <= k < |Assemble(gs)| ==> ConversationOf(rows, Assemble(gs)[k])
  {
    if gs != [] {
      var t := gs[1..];
      var ct := Assemble(t);
      assert AllGroupsOf(rows, t) by {
        forall k | 0 <= k < |t| ensures GroupOf(rows, t[k]) {
          assert t[k] == gs[k + 1];
        }
      }
      AssembleOf(rows, t);
      if |gs[0].messages| > 0 {
        assert GroupOf(rows, gs[0]);
        TranscriptOf(rows, gs[0]);
        var cs := [Transcript(gs[0])] + ct;
        forall k | 0 <= k < |cs| ensures ConversationOf(rows, cs[k]) {
          if k > 0 {
            assert cs[k] == ct[k - 1];
          }
        }
      } else {
        assert Assemble(gs) == ct;
      }
    }
  }

  /** Every conversation comes from one of the groups. */
  lemma {:induction false} AssembleFrom(gs: seq<Group>, c: Assembled)
    requires c in Assemble(gs)
    ensures exists k :: 0 <= k < |gs| && gs[k].convId == c.convId
  {
    if c != Transcript(gs[0]) || |gs[0].messages| == 0 {
      assert c in Assemble(gs[1..]);
      AssembleFrom(gs[1..], c);
      var k :| 0 <= k < |gs[1..]| && gs[1..][k].convId == c.convId;
      assert gs[k + 1].convId == c.convId;
    } else {
      assert gs[0].convId == c.convId;
    }
  }

  /** The conversations appear in the order of their identifiers' first rows. */
  predicate AssembledOrdered(rows: seq<Row>, cs: seq<Assembled>) {
    forall k1, k2 :: 0 <= k1 < k2 < |cs| ==> FirstWith(rows, cs[k1].convId) < FirstWith(rows, cs[k2].convId)
  }

  lemma {:induction false} AssembleOrdered(rows: seq<Row>, gs: seq<Group>)
    requires FirstOrdered(rows, gs)
    ensures AssembledOrdered(rows, Assemble(gs))
  {
    if gs != [] {
      var t := gs[1..];
      FirstOrderedTail(rows, gs);
      AssembleOrdered(rows, t);
      if |gs[0].messages| > 0 {
        var ct := Assemble(t);
        HeadPrecedes(rows, gs);
        assert Transcript(gs[0]).convId == gs[0].convId;
        OrderedCons(rows, Transcript(gs[0]), Assemble(t));
      } else {
        assert Assemble(gs) == Assemble(t);
      }
    }
  }

  lemma FirstOrderedTail(rows: seq<Row>, gs: seq<Group>)
    requires gs != [] && FirstOrdered(rows, gs)
    ensures FirstOrdered(rows, gs[1..])
  {
    var t := gs[1..];
    forall k1, k2 | 0 <= k1 < k2 < |t|
      ensures FirstWith(rows, t[k1].convId) < FirstWith(rows, t[k2].convId)
    {
      assert t[k1] == gs[k1 + 1] && t[k2] == gs[k2 + 1];
    }
  }

  /** The first group's first row comes before that of every later conversation. */
  lemma HeadPrecedes(rows: seq<Row>, gs: seq<Group>)
    requires gs != [] && FirstOrdered(rows, gs)
    ensures forall m :: 0 <= m < |Assemble(gs[1..])| ==>
      FirstWith(rows, gs[0].convId) < FirstWith(rows, Assemble(gs[1..])[m].convId)
  {
    var t := gs[1..];
    var ct := Assemble(t);
    forall m | 0 <= m < |ct|
      ensures FirstWith(rows, gs[0].convId) < FirstWith(rows, ct[m].convId)
    {
      assert ct[m] in ct;
      AssembleFrom(t, ct[m]);
      var k :| 0 <= k < |t| && t[k].convId == ct[m].convId;
      assert t[k] == gs[k + 1];
    }
  }

  lemma OrderedCons(rows: seq<Row>, c: Assembled, ct: seq<Assembled>)
    requires AssembledOrdered(rows, ct)
    requires forall m :: 0 <= m < |ct| ==> FirstWith(rows, c.convId) < FirstWith(rows, ct[m].convId)
    ensures AssembledOrdered(rows, [c] + ct)
  {
    var cs := [c] + ct;
    forall k1, k2 | 0 <= k1 < k2 < |cs|
      ensures FirstWith(rows, cs[k1].convId) < FirstWith(rows, cs[k2].convId)
    {
      assert cs[k2] == ct[k2 - 1];
      if k1 > 0 {
        assert cs[k1] == ct[k1 - 1];
      }
    }
  }

  /** A group with a message becomes a conversation. */
  lemma {:induction false} AssembleKeeps(gs: seq<Group>, k: nat)
    requires k < |gs| && gs[k].messages != []
    ensures gs[k].convId in ConvIds(Assemble(gs))
  {
    var head := if |gs[0].messages| > 0 then [Transcript(gs[0])] else [];
    var ct := Assemble(gs[1..]);
    assert Assemble(gs) == head + ct;
    if k == 0 {
      assert ConvIds(Assemble(gs))[0] == gs[0].convId;
    } else {
      AssembleKeeps(gs[1..], k - 1);
      var m :| 0 <= m < |ct| && ConvIds(ct)[m] == gs[k].convId;
      assert ConvIds(Assemble(gs))[m + |head|] == gs[k].convId;
    }
  }

  lemma {:induction false} AssembleTotal(gs: seq<Group>)
    ensures TotalMessages(Assemble(gs)) == SumMessages(gs)
  {
    if gs != [] {
      AssembleTotal(gs[1..]);
      var ct := Assemble(gs[1..]);
      if |gs[0].messages| > 0 {
        var cs := [Transcript(gs[0])] + ct;
        assert Assemble(gs) == cs;
        assert cs[1..] == ct;
        assert cs[0].messageCount == |gs[0].messages|;
      } else {
        assert Assemble(gs) == ct;
      }
    }
  }

  // ---------------------------------------------------------------- the endpoint

  /** What the form's `file` field holds. */
  datatype Upload =
    | NoFile
    | Unreadable(message: string)  // the workbook or its first sheet could not be read
    | Sheet(rows: seq<SheetRow>)

  datatype Response =
    | Missing                                   // 400, "No file provided"
    | Failed(error: string, details: string)    // 500
    | Processed(conversations: seq<Assembled>, totalConversations: nat, totalMessages: nat,
                uniqueConvIds: nat, preview: seq<Assembled>)

  function Status(r: Response): nat {
    match r
    case Missing => 400
    case Failed(_, _) => 500
    case Processed(_, _, _, _, _) => 200
  }

  /** The user-facing text for a failure, chosen by what the error message mentions. */
  function FailureMessage(details: string): string {
    if Contains(details, "Invalid time value") then
      "Invalid date format in the Excel file. Please check the Date/Time column format."
    else if Contains(details, "ConvID") then
      "Invalid ConvID format. Please ensure ConvID column contains valid identifiers."
    else if Contains(details, "Cannot read properties") then
      "Invalid Excel file format. Please ensure the file has the required columns: ConvID, Date/Time, Role, Message."
    else "Processing error: " + details
  }

  /** The statistics over the groups; `uniqueConvIds` is the map's size, before filtering. */
  function Summarise(gs: seq<Group>): Response {
    var cs := Assemble(gs);
    Processed(cs, |cs|, TotalMessages(cs), |gs|, if |cs| <= 20 then cs else cs[..20])
  }

  /** The sorted, normalised rows of a sheet. */
  function SortedRows(rows: seq<SheetRow>, env: Env): seq<Row> {
    Sort(NormalizeRows(rows, env))
  }

  function Process(upload: Upload, env: Env): Response {
    match upload
    case NoFile => Missing
    case Unreadable(m) => Failed(FailureMessage(m), m)
    case Sheet(rows) => Summarise(Grouped(SortedRows(rows, env)))
  }

  /** The POST handler. */
  method ProcessUpload(upload: Upload, env: Env) returns (resp: Response)
    ensures resp == Process(upload, env)
  {
    match upload
    case NoFile =>
      resp := Missing;
    case Unreadable(m) =>
      resp := Failed(FailureMessage(m), m);
    case Sheet(rows) =>
      var sorted := Sort(NormalizeRows(rows, env));
      var groups := GroupRows(sorted);
      resp := Summarise(groups);
  }

  /**
   * No file answers 400; a workbook that cannot be read answers 500, with the reader's message
   * as the details; a readable sheet always answers 200, whatever its dates hold.
   */
  lemma ResponseStatus(upload: Upload, env: Env)
    ensures var r := Process(upload, env);
      && (Status(r) == 400 <==> upload.NoFile?)
      && (Status(r) == 500 <==> upload.Unreadable?)
      && (Status(r) == 200 <==> upload.Sheet?)
      && (upload.Unreadable? ==> r.details == upload.message)
  {
  }

  /** Every conversation of a readable sheet is the transcript of the message rows of its identifier. */
  lemma {:induction false} SheetConversations(rows: seq<SheetRow>, env: Env)
    ensures var cs := Process(Sheet(rows), env).conversations;
      forall k :: 0 <= k < |cs| ==> ConversationOf(SortedRows(rows, env), cs[k]) && TimeOrdered(cs[k].rawEntries)
  {
    var srt := SortedRows(rows, env);
    SortSorted(NormalizeRows(rows, env));
    SortedConversations(srt);
    assert Process(Sheet(rows), env).conversations == Assemble(Grouped(srt));
  }

  lemma SortedConversations(srt: seq<Row>)
    requires Sorted(srt)
    ensures forall k :: 0 <= k < |Assemble(Grouped(srt))| ==>
      ConversationOf(srt, Assemble(Grouped(srt))[k]) && TimeOrdered(Assemble(Grouped(srt))[k].rawEntries)
  {
    var cs := Assemble(Grouped(srt));
    GroupedDescribes(srt);
    AssembleOf(srt, Grouped(srt));
    forall k | 0 <= k < |cs| ensures TimeOrdered(cs[k].rawEntries) {
      EntriesOrdered(srt, cs[k].convId);
    }
  }

  /** Conversations have distinct identifiers, in non-decreasing key order. */
  lemma {:induction false} SheetOrder(rows: seq<SheetRow>, env: Env)
    ensures var cs := Process(Sheet(rows), env).conversations;
      forall k1, k2 :: 0 <= k1 < k2 < |cs| ==>
        cs[k1].convId != cs[k2].convId && SortKey(cs[k1].convId) <= SortKey(cs[k2].convId)
  {
    var srt := SortedRows(rows, env);
    SortSorted(NormalizeRows(rows, env));
    SortedOrder(srt);
    assert Process(Sheet(rows), env).conversations == Assemble(Grouped(srt));
  }

  lemma SortedOrder(srt: seq<Row>)
    requires Sorted(srt)
    ensures forall k1, k2 :: 0 <= k1 < k2 < |Assemble(Grouped(srt))| ==>
      Assemble(Grouped(srt))[k1].convId != Assemble(Grouped(srt))[k2].convId
      && SortKey(Assemble(Grouped(srt))[k1].convId) <= SortKey(Assemble(Grouped(srt))[k2].convId)
  {
    var cs := Assemble(Grouped(srt));
    GroupedDescribes(srt);
    AssembleOf(srt, Grouped(srt));
    AssembleOrdered(srt, Grouped(srt));
    forall k1, k2 | 0 <= k1 < k2 < |cs|
      ensures cs[k1].convId != cs[k2].convId && SortKey(cs[k1].convId) <= SortKey(cs[k2].convId)
    {
      var f1, f2 := FirstWith(srt, cs[k1].convId), FirstWith(srt, cs[k2].convId);
      assert ConversationOf(srt, cs[k1]) && ConversationOf(srt, cs[k2]);
      assert RowLe(srt[f1], srt[f2]);
    }
  }

  /** No message row is lost: each one's identifier has a conversation. */
  lemma {:induction false} SheetCoverage(rows: seq<SheetRow>, env: Env)
    ensures var srt := SortedRows(rows, env);
      forall i :: 0 <= i < |srt| && Contributes(srt[i]) ==>
        srt[i].convId in ConvIds(Process(Sheet(rows), env).conversations)
  {
    var srt := SortedRows(rows, env);
    var gs := Grouped(srt);
    GroupedDescribes(srt);
    forall i | 0 <= i < |srt| && Contributes(srt[i]) ensures srt[i].convId in ConvIds(Assemble(gs)) {
      var m := FindGroup(gs, srt[i].convId);
      assert GroupOf(srt, gs[m]);
      EntriesNonEmpty(srt, i);
      AssembleKeeps(gs, m);
    }
  }

  /** `uniqueConvIds` counts every distinct identifier of the rows, with or without messages. */
  lemma {:induction false} GroupCount(rows: seq<Row>)
    ensures |Grouped(rows)| == |RowIds(rows)|
  {
    GroupedDescribes(rows);
    GroupIdsAreRowIds(rows, Grouped(rows));
  }

  lemma {:induction false} GroupedMessages(rows: seq<Row>)
    ensures SumMessages(Grouped(rows)) == MessageRows(rows)
  {
    GroupedDescribes(rows);
  }

  /**
   * The counts: the message total is the number of rows with both a role and a message, and
   * `uniqueConvIds` counts every distinct identifier, including those without messages.
   */
  lemma {:induction false} SheetCounts(rows: seq<SheetRow>, env: Env)
    ensures var resp := Process(Sheet(rows), env);
      && resp.Processed?
      && resp.totalConversations == |resp.conversations| <= resp.uniqueConvIds
      && resp.uniqueConvIds == |RowIds(SortedRows(rows, env))|
      && resp.totalMessages == MessageRows(NormalizeRows(rows, env))
      && |resp.preview| == Min(20, |resp.conversations|) && resp.preview <= resp.conversations
  {
    var srt := SortedRows(rows, env);
    var gs := Grouped(srt);
    var cs := Assemble(gs);
    GroupCount(srt);
    GroupedMessages(srt);
    MessageRowsSort(NormalizeRows(rows, env));
    AssembleTotal(gs);
    assert Process(Sheet(rows), env) == Summarise(gs);
  }
}
