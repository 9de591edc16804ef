/**
 The join of inline properties with the rows of the property table: per key, a last-writer merge
 with deletions in which an entry older than the previous accepted one is ignored.
 */
module ReadtableProperties {
  import opened Wrappers
  import opened PropertyMerge
  import Text

  type Row = map<string, Json>

  /** Python's `int()` and `json.loads`, `None` where they raise. */
  datatype Library = Library(toInt: Json -> Option<int>, loads: string -> Option<Json>)

  function Get(row: Row, key: string): Json {
    if key in row then row[key] else Null
  }

  function SafeInt(value: Json, lib: Library): Option<int> {
    if value.Null? then None else lib.toInt(value)
  }

  /** `_row_update_time`, in milliseconds; 0 means untimed. */
  function UpdateTime(row: Row, lib: Library): int {
    var seconds := SafeInt(Get(row, "updateTimeSec"), lib).GetOr(0);
    if seconds != 0 then seconds * 1000 else SafeInt(Get(row, "updateTime"), lib).GetOr(0)
  }

  datatype Change = Put(value: Json) | Delete

  datatype Entry = Entry(time: int, change: Change)

  // ---- What each source contributes to one key ----

  function Inline(owner: Row, key: string, lib: Library): seq<Entry> {
    var raw := Get(owner, "properties");
    if raw.Obj? && key in raw.fields then [Entry(UpdateTime(owner, lib), Put(raw.fields[key]))] else []
  }

  function Decoded(value: Json, lib: Library): Json {
    if value.Str? && Text.LStrip(value.text) != "" && Text.LStrip(value.text)[0] in {'{', '['} then
      lib.loads(value.text).GetOr(value)
    else value
  }

  predicate IsDeleted(row: Row) {
    Get(row, "delFlag") in {Num(1.0), Bool(true), Str("1")}
  }

  /** The property a row of the table is about, if the row is usable. */
  function RowKey(row: Row): Option<string> {
    var key := Get(row, "property");
    if key.Str? && Text.Strip(key.text) != "" && (IsDeleted(row) || "value" in row) then Some(key.text) else None
  }

  function RowEntry(row: Row, lib: Library): Entry
    requires RowKey(row).Some?
  {
    Entry(UpdateTime(row, lib), if IsDeleted(row) then Delete else Put(Decoded(row["value"], lib)))
  }

  function OneRow(row: Row, key: string, lib: Library): seq<Entry> {
    if RowKey(row) == Some(key) then [RowEntry(row, lib)] else []
  }

  function RowEntries(rows: seq<Row>, key: string, lib: Library): seq<Entry> {
    if rows == [] then [] else OneRow(rows[0], key, lib) + RowEntries(rows[1..], key, lib)
  }

  /** Everything said about `key`, in arrival order. */
  function Entries(device: Row, status: Row, rows: seq<Row>, key: string, lib: Library): seq<Entry> {
    Inline(device, key, lib) + Inline(status, key, lib) + RowEntries(rows, key, lib)
  }

  // ---- The fold over the entries of one key ----

  /** `times` and `properties` at one key. */
  datatype Cell = Cell(time: int, value: Option<Json>)

  const Blank := Cell(0, None)

  predicate Accepts(cell: Cell, entry: Entry) {
    entry.time == 0 || entry.time >= cell.time
  }

  function Patched(value: Option<Json>, patch: Json): Json {
    if value.Some? then Merge(value.value, patch) else patch
  }

  function Next(cell: Cell, entry: Entry): Cell {
    if !Accepts(cell, entry) then cell
    else Cell(entry.time, if entry.change.Put? then Some(Patched(cell.value, entry.change.value)) else None)
  }

  function Fold(cell: Cell, es: seq<Entry>): Cell
    decreases |es|
  {
    if es == [] then cell else Fold(Next(cell, es[0]), es[1..])
  }

  lemma {:induction false} FoldConcat(cell: Cell, es: seq<Entry>, more: seq<Entry>)
    ensures Fold(cell, es + more) == Fold(Fold(cell, es), more)
    decreases |es|
  {
    if es == [] {
      assert es + more == more;
    } else {
      assert (es + more)[0] == es[0] && (es + more)[1..] == es[1..] + more;
      FoldConcat(Next(cell, es[0]), es[1..], more);
    }
  }

  // ---- The function of the source ----

  function Join(properties: map<string, Json>, times: map<string, int>, key: string): Cell {
    Cell(if key in times then times[key] else 0, if key in properties then Some(properties[key]) else None)
  }

  /** `_merge_properties(properties, {key: value})`. */
  function MergeAt(properties: map<string, Json>, key: string, value: Json): map<string, Json> {
    properties[key := Patched(if key in properties then Some(properties[key]) else None, value)]
  }

  lemma MergeAtIsMerge(properties: map<string, Json>, key: string, value: Json)
    ensures Obj(MergeAt(properties, key, value)) == Merge(Obj(properties), Obj(map[key := value]))
  {
    assert MergeAt(properties, key, value) == Merge(Obj(properties), Obj(map[key := value])).fields;
  }

  method AddInline(owner: Row, properties0: map<string, Json>, times0: map<string, int>, lib: Library)
    returns (properties: map<string, Json>, times: map<string, int>)
    ensures forall key :: Join(properties, times, key) == Fold(Join(properties0, times0, key), Inline(owner, key, lib))
  {
    properties, times := properties0, times0;
    var raw := Get(owner, "properties");
    if raw.Obj? {
      var timestamp := UpdateTime(owner, lib);
      var todo := raw.fields.Keys;
      while todo != {}
        invariant todo <= raw.fields.Keys
        invariant forall key :: Join(properties, times, key)
                             == if key in todo then Join(properties0, times0, key)
                                else Fold(Join(properties0, times0, key), Inline(owner, key, lib))
        decreases todo
      {
        var key :| key in todo;
        todo := todo - {key};
        var cell := Join(properties, times, key);
        assert cell == Join(properties0, times0, key);
        assert Inline(owner, key, lib) == [Entry(timestamp, Put(raw.fields[key]))];
        assert Fold(cell, Inline(owner, key, lib)) == Next(cell, Entry(timestamp, Put(raw.fields[key])));
        if timestamp != 0 && timestamp < cell.time {
          continue;
        }
        properties := MergeAt(properties, key, raw.fields[key]);
        times := times[key := timestamp];
      }
    }
  }

  method AddRow(row: Row, properties0: map<string, Json>, times0: map<string, int>, lib: Library)
    returns (properties: map<string, Json>, times: map<string, int>)
    ensures forall key :: Join(properties, times, key)
                       == if RowKey(row) == Some(key) then Next(Join(properties0, times0, key), RowEntry(row, lib))
                          else Join(properties0, times0, key)
  {
    properties, times := properties0, times0;
    if RowKey(row).None? {
      return;
    }
    var key := RowKey(row).value;
    var timestamp := UpdateTime(row, lib);
    if timestamp != 0 && timestamp < Join(properties, times, key).time {
      return;
    }
    times := times[key := timestamp];
    if IsDeleted(row) {
      properties := properties - {key};
    } else {
      properties := MergeAt(properties, key, Decoded(row["value"], lib));
    }
    WriteTouchesOneKey(properties0, times0, key, RowEntry(row, lib), properties, times);
  }

  lemma WriteTouchesOneKey(properties0: map<string, Json>, times0: map<string, int>, key: string, entry: Entry,
                           properties: map<string, Json>, times: map<string, int>)
    requires Accepts(Join(properties0, times0, key), entry)
    requires times == times0[key := entry.time]
    requires properties == if entry.change.Put? then MergeAt(properties0, key, entry.change.value) else properties0 - {key}
    ensures forall k :: Join(properties, times, k)
                     == if k == key then Next(Join(properties0, times0, key), entry) else Join(properties0, times0, k)
  {
  }

  /** `_readtable_properties`: each key holds the fold of its own entries, and only such keys exist. */
  method Properties(device: Row, status: Row, rows: seq<Row>, lib: Library) returns (properties: map<string, Json>)
    ensures forall key :: (if key in properties then Some(properties[key]) else None)
                       == Fold(Blank, Entries(device, status, rows, key, lib)).value
  {
    var times: map<string, int>;
    properties, times := AddInline(device, map[], map[], lib);
    ghost var properties0, times0 := properties, times;
    properties, times := AddInline(status, properties, times, lib);
    InlineJoined(device, status, properties0, times0, properties, times, lib);
    for i := 0 to |rows|
      invariant Joined(properties, times, device, status, rows[..i], lib)
    {
      properties0, times0 := properties, times;
      properties, times := AddRow(rows[i], properties, times, lib);
      RowJoined(device, status, rows, i, properties0, times0, properties, times, lib);
    }
    assert rows[..|rows|] == rows;
    forall key ensures (if key in properties then Some(properties[key]) else None)
                    == Fold(Blank, Entries(device, status, rows, key, lib)).value
    {
      assert Join(properties, times, key) == Fold(Blank, Entries(device, status, rows, key, lib));
    }
  }

  ghost predicate Joined(properties: map<string, Json>, times: map<string, int>, device: Row, status: Row,
                         rows: seq<Row>, lib: Library)
  {
    forall key :: Join(properties, times, key) == Fold(Blank, Entries(device, status, rows, key, lib))
  }

  lemma InlineJoined(device: Row, status: Row, properties0: map<string, Json>, times0: map<string, int>,
                     properties: map<string, Json>, times: map<string, int>, lib: Library)
    requires forall key :: Join(properties0, times0, key) == Fold(Join(map[], map[], key), Inline(device, key, lib))
    requires forall key :: Join(properties, times, key) == Fold(Join(properties0, times0, key), Inline(status, key, lib))
    ensures Joined(properties, times, device, status, [], lib)
  {
    forall key ensures Join(properties, times, key) == Fold(Blank, Entries(device, status, [], key, lib)) {
      FoldConcat(Blank, Inline(device, key, lib), Inline(status, key, lib));
      assert Entries(device, status, [], key, lib) == Inline(device, key, lib) + Inline(status, key, lib);
      assert Join(properties0, times0, key) == Fold(Blank, Inline(device, key, lib));
    }
  }

  lemma RowJoined(device: Row, status: Row, rows: seq<Row>, i: nat, properties0: map<string, Json>,
                  times0: map<string, int>, properties: map<string, Json>, times: map<string, int>, lib: Library)
    requires i < |rows| && Joined(properties0, times0, device, status, rows[..i], lib)
    requires forall key :: Join(properties, times, key)
                        == if RowKey(rows[i]) == Some(key) then Next(Join(properties0, times0, key), RowEntry(rows[i], lib))
                           else Join(properties0, times0, key)
    ensures Joined(properties, times, device, status, rows[..i + 1], lib)
  {
    forall key ensures Join(properties, times, key) == Fold(Blank, Entries(device, status, rows[..i + 1], key, lib)) {
      OneMoreRow(device, status, rows, i, key, lib);
      assert Join(properties0, times0, key) == Fold(Blank, Entries(device, status, rows[..i], key, lib));
    }
  }

  lemma {:induction false} RowEntriesConcat(rows: seq<Row>, more: seq<Row>, key: string, lib: Library)
    ensures RowEntries(rows + more, key, lib) == RowEntries(rows, key, lib) + RowEntries(more, key, lib)
  {
    if rows == [] {
      assert rows + more == more;
    } else {
      assert (rows + more)[0] == rows[0] && (rows + more)[1..] == rows[1..] + more;
      RowEntriesConcat(rows[1..], more, key, lib);
      var here, later, rest := OneRow(rows[0], key, lib), RowEntries(rows[1..], key, lib), RowEntries(more, key, lib);
      assert here + (later + rest) == (here + later) + rest;
    }
  }

  lemma OneMoreRow(device: Row, status: Row, rows: seq<Row>, i: nat, key: string, lib: Library)
    requires i < |rows|
    ensures Fold(Blank, Entries(device, status, rows[..i + 1], key, lib))
         == if RowKey(rows[i]) == Some(key)
            then Next(Fold(Blank, Entries(device, status, rows[..i], key, lib)), RowEntry(rows[i], lib))
            else Fold(Blank, Entries(device, status, rows[..i], key, lib))
  {
    RowEntriesSnoc(rows, i, key, lib);
    FoldSnoc(Inline(device, key, lib) + Inline(status, key, lib), RowEntries(rows[..i], key, lib),
             OneRow(rows[i], key, lib));
  }

  lemma RowEntriesSnoc(rows: seq<Row>, i: nat, key: string, lib: Library)
    requires i < |rows|
    ensures RowEntries(rows[..i + 1], key, lib) == RowEntries(rows[..i], key, lib) + OneRow(rows[i], key, lib)
  {
    assert rows[..i + 1] == rows[..i] + [rows[i]];
    RowEntriesConcat(rows[..i], [rows[i]], key, lib);
  }

  lemma FoldSnoc(inline: seq<Entry>, before: seq<Entry>, last: seq<Entry>)
    requires |last| <= 1
    ensures Fold(Blank, inline + (before + last))
         == if last == [] then Fold(Blank, inline + before) else Next(Fold(Blank, inline + before), last[0])
  {
    assert inline + (before + last) == (inline + before) + last;
    FoldConcat(Blank, inline + before, last);
    FoldAtMostOne(Fold(Blank, inline + before), last);
  }

  lemma FoldAtMostOne(cell: Cell, es: seq<Entry>)
    requires |es| <= 1
    ensures Fold(cell, es) == if es == [] then cell else Next(cell, es[0])
  {
  }

  // ---- What the fold means ----

  /** The entries that are untimed or not older than the accepted entry before them. */
  function Accepted(time: int, es: seq<Entry>): seq<Entry>
    decreases |es|
  {
    if es == [] then []
    else if es[0].time == 0 || es[0].time >= time then [es[0]] + Accepted(es[0].time, es[1..])
    else Accepted(time, es[1..])
  }

  function SinceDeletion(es: seq<Entry>): seq<Entry>
    decreases |es|
  {
    if es == [] || es[|es| - 1].change.Delete? then []
    else SinceDeletion(es[..|es| - 1]) + [es[|es| - 1]]
  }

  /** The deep merge, in order, of the values put by `es`. */
  function MergeAll(es: seq<Entry>): Option<Json>
    requires forall e | e in es :: e.change.Put?
    decreases |es|
  {
    if es == [] then None else Some(Patched(MergeAll(es[..|es| - 1]), es[|es| - 1].change.value))
  }

  lemma {:induction false} SinceDeletionPuts(es: seq<Entry>)
    ensures forall e | e in SinceDeletion(es) :: e.change.Put?
    decreases |es|
  {
    if es != [] && es[|es| - 1].change.Put? {
      SinceDeletionPuts(es[..|es| - 1]);
    }
  }

  function Value(es: seq<Entry>): Option<Json> {
    SinceDeletionPuts(es);
    MergeAll(SinceDeletion(es))
  }

  lemma ValueSnoc(es: seq<Entry>, e: Entry)
    ensures Value(es + [e]) == if e.change.Put? then Some(Patched(Value(es), e.change.value)) else None
  {
    SinceDeletionPuts(es);
    SinceDeletionPuts(es + [e]);
    assert (es + [e])[..|es|] == es;
    if e.change.Put? {
      var s := SinceDeletion(es) + [e];
      assert SinceDeletion(es + [e]) == s;
      assert s[..|s| - 1] == SinceDeletion(es);
    }
  }

  lemma {:induction false} FoldMeans(done: seq<Entry>, cell: Cell, es: seq<Entry>)
    requires cell.value == Value(done)
    ensures Fold(cell, es).value == Value(done + Accepted(cell.time, es))
    decreases |es|
  {
    if es == [] {
      assert done + [] == done;
    } else if Accepts(cell, es[0]) {
      ValueSnoc(done, es[0]);
      FoldMeans(done + [es[0]], Next(cell, es[0]), es[1..]);
      assert done + [es[0]] + Accepted(es[0].time, es[1..]) == done + Accepted(cell.time, es);
    } else {
      FoldMeans(done, cell, es[1..]);
    }
  }

  /** A key's value is the merge of exactly the accepted values after the last accepted deletion. */
  lemma KeyValue(es: seq<Entry>)
    ensures Fold(Blank, es).value == Value(Accepted(0, es))
  {
    FoldMeans([], Blank, es);
    assert [] + Accepted(0, es) == Accepted(0, es);
  }

  // ---- Order independence ----

  /** Positive times, no two alike, and no structured values. */
  predicate Clocked(es: seq<Entry>) {
    && (forall e | e in es :: e.time > 0 && (e.change.Put? ==> !e.change.value.Obj?))
    && (forall i, j | 0 <= i < j < |es| :: es[i].time != es[j].time)
  }

  predicate Newest(e: Entry, es: seq<Entry>) {
    e in es && forall f | f in es :: f.time <= e.time
  }

  function Written(e: Entry): Cell {
    Cell(e.time, if e.change.Put? then Some(e.change.value) else None)
  }

  lemma {:induction false} NewestWins(cell: Cell, es: seq<Entry>) returns (winner: Option<Entry>)
    requires forall e | e in es :: e.time > 0 && (e.change.Put? ==> !e.change.value.Obj?)
    ensures winner.None? ==> Fold(cell, es) == cell && forall e | e in es :: e.time < cell.time
    ensures winner.Some? ==> Newest(winner.value, es) && winner.value.time >= cell.time
                             && Fold(cell, es) == Written(winner.value)
    decreases |es|
  {
    if es == [] {
      winner := None;
    } else {
      winner := NewestWins(Next(cell, es[0]), es[1..]);
      if winner.None? && Accepts(cell, es[0]) {
        winner := Some(es[0]);
      }
    }
  }

  lemma ClockedFoldIgnoresOrder(cell: Cell, es: seq<Entry>, es': seq<Entry>)
    requires Clocked(es) && multiset(es) == multiset(es')
    ensures Fold(cell, es) == Fold(cell, es')
  {
    forall e ensures e in es <==> e in es' {
      assert e in multiset(es) <==> e in multiset(es');
    }
    var winner := NewestWins(cell, es);
    var winner' := NewestWins(cell, es');
    if winner.Some? && winner'.Some? {
      var i :| 0 <= i < |es| && es[i] == winner.value;
      var j :| 0 <= j < |es| && es[j] == winner'.value;
    }
  }

  lemma TakeRowOut(front: seq<Row>, row: Row, back: seq<Row>, key: string, lib: Library)
    ensures multiset(RowEntries(front + [row] + back, key, lib))
         == multiset(OneRow(row, key, lib)) + multiset(RowEntries(front + back, key, lib))
  {
    RowEntriesConcat(front, back, key, lib);
    RowEntriesConcat(front + [row], back, key, lib);
    RowEntriesConcat(front, [row], key, lib);
    assert RowEntries([row], key, lib) == OneRow(row, key, lib);
  }

  lemma FindHead(rows: seq<Row>, rows': seq<Row>) returns (front: seq<Row>, back: seq<Row>)
    requires rows != [] && multiset(rows) == multiset(rows')
    ensures rows' == front + [rows[0]] + back
    ensures multiset(rows[1..]) == multiset(front + back)
  {
    assert rows[0] in multiset(rows');
    var i :| 0 <= i < |rows'| && rows'[i] == rows[0];
    front, back := rows'[..i], rows'[i + 1..];
    assert rows' == front + [rows[0]] + back;
    assert rows == [rows[0]] + rows[1..];
    assert multiset(rows') == multiset(front) + multiset{rows[0]} + multiset(back);
    assert multiset(rows) == multiset{rows[0]} + multiset(rows[1..]);
    assert multiset(rows[1..]) == multiset(rows) - multiset{rows[0]} == multiset(front) + multiset(back);
  }

  lemma {:induction false} RowEntriesIgnoreOrder(rows: seq<Row>, rows': seq<Row>, key: string, lib: Library)
    requires multiset(rows) == multiset(rows')
    ensures multiset(RowEntries(rows, key, lib)) == multiset(RowEntries(rows', key, lib))
    decreases |rows|
  {
    if rows == [] {
      assert |rows'| == |multiset(rows')| == 0;
    } else {
      var front, back := FindHead(rows, rows');
      RowEntriesIgnoreOrder(rows[1..], front + back, key, lib);
      TakeRowOut(front, rows[0], back, key, lib);
    }
  }

  /** Rows with distinct positive timestamps and scalar values may arrive in any order. */
  lemma RowOrderDoesNotMatter(device: Row, status: Row, rows: seq<Row>, rows': seq<Row>, key: string, lib: Library)
    requires multiset(rows) == multiset(rows')
    requires Clocked(RowEntries(rows, key, lib))
    ensures Fold(Blank, Entries(device, status, rows, key, lib)) == Fold(Blank, Entries(device, status, rows', key, lib))
  {
    var inline := Inline(device, key, lib) + Inline(status, key, lib);
    FoldConcat(Blank, inline, RowEntries(rows, key, lib));
    FoldConcat(Blank, inline, RowEntries(rows', key, lib));
    RowEntriesIgnoreOrder(rows, rows', key, lib);
    ClockedFoldIgnoresOrder(Fold(Blank, inline), RowEntries(rows, key, lib), RowEntries(rows', key, lib));
  }

  /** Two rows with the same timestamp: the one that arrives last wins, so order matters. */
  lemma EqualTimesFollowArrival(time: int, a: Json, b: Json)
    requires a != b && !a.Obj? && !b.Obj? && time > 0
    ensures Fold(Blank, [Entry(time, Put(a)), Entry(time, Put(b))]).value == Some(b)
    ensures Fold(Blank, [Entry(time, Put(b)), Entry(time, Put(a))]).value == Some(a)
  {
    var x, y := Entry(time, Put(a)), Entry(time, Put(b));
    assert [x, y][1..] == [y] && [y, x][1..] == [x];
    assert Fold(Next(Blank, x), [y]) == Next(Next(Blank, x), y);
    assert Fold(Next(Blank, y), [x]) == Next(Next(Blank, y), x);
  }
}
