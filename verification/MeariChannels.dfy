/** Recorders of the inventory and their channels. */
module MeariChannels {
  import opened Wrappers
  import opened MeariInventory

  const MAX_CHANNELS := 128
  const CAPABILITY_CODES: set<string> := {"p2p", "nct", "dpc", "idt", "idt2", "vtk"}
  const RECORDER_CODES: set<string> := {"dpc", "idt", "idt2", "nct"}

  type Codes = map<string, nat>

  function CodesOf(caps: Object): Codes {
    map key | key in CAPABILITY_CODES && Integer(Get(caps, key)).Some? :: Integer(Get(caps, key)).value
  }

  // ---- The recorders ----

  datatype Pick = Pick(index: nat, serial: string, codes: Codes)

  datatype Snapshot = Snapshot(picks: seq<Pick>, total: nat, truncated: bool, missing: nat)

  predicate IsRecorder(row: Row) {
    Code(Get(row.fields, "devTypeID")) in {Some(11), Some(17), Some(21)}
  }

  function SerialOf(row: Row): Option<string> {
    var v := Get(row.fields, "snNum");
    if v.Str? && 1 <= |v.s| <= 256 && forall i | 0 <= i < |v.s| :: '!' <= v.s[i] <= '~' then Some(v.s) else None
  }

  function ParentCodes(loads: Loads, row: Row): Codes {
    CodesOf(AsObject(loads, SESSION_TEXT, Get(AsObject(loads, SESSION_TEXT, Get(row.fields, "capability")), "caps")))
  }

  function Serials(picks: seq<Pick>): set<string> {
    set p | p in picks :: p.serial
  }

  /** Each serial's first recorder, with its index in the inventory. */
  function Picks(loads: Loads, rows: seq<Row>): seq<Pick> {
    if rows == [] then [] else PicksNext(loads, Picks(loads, rows[..|rows| - 1]), |rows|, rows[|rows| - 1])
  }

  function PicksNext(loads: Loads, picks: seq<Pick>, index: nat, row: Row): seq<Pick> {
    if IsRecorder(row) && SerialOf(row).Some? && SerialOf(row).value !in Serials(picks)
    then picks + [Pick(index, SerialOf(row).value, ParentCodes(loads, row))]
    else picks
  }

  function CountRecorders(rows: seq<Row>, missing: bool): nat {
    if rows == [] then 0
    else
      var row := rows[|rows| - 1];
      CountRecorders(rows[..|rows| - 1], missing) + if IsRecorder(row) && (missing ==> SerialOf(row).None?) then 1 else 0
  }

  lemma FoldsNext(loads: Loads, rows: seq<Row>, row: Row)
    ensures Picks(loads, rows + [row]) == PicksNext(loads, Picks(loads, rows), |rows| + 1, row)
    ensures CountRecorders(rows + [row], false) == CountRecorders(rows, false) + if IsRecorder(row) then 1 else 0
    ensures CountRecorders(rows + [row], true)
         == CountRecorders(rows, true) + if IsRecorder(row) && SerialOf(row).None? then 1 else 0
  {
    CountNext(rows, row, false);
    CountNext(rows, row, true);
    assert (rows + [row])[..|rows|] == rows;
  }

  lemma CountNext(rows: seq<Row>, row: Row, missing: bool)
    ensures CountRecorders(rows + [row], missing)
         == CountRecorders(rows, missing) + if IsRecorder(row) && (missing ==> SerialOf(row).None?) then 1 else 0
  {
    assert (rows + [row])[..|rows|] == rows;
  }

  function SnapshotOf(loads: Loads, rows: seq<Row>): Snapshot {
    var picks := Picks(loads, rows);
    Snapshot(picks[..Min(MAX_NVRS, |picks|)], CountRecorders(rows, false), |picks| > MAX_NVRS, CountRecorders(rows, true))
  }

  function SnapshotRoot(loads: Loads, payload: Value): Option<Object> {
    var raw := AsObject(loads, SESSION_TEXT, payload);
    var root := RootOf(loads, SESSION_TEXT, raw);
    if Code(Get(raw, "resultCode")) == Some(1001) && HasGroup(root) then Some(root) else None
  }

  /** The body of the loop of `_nvr_snapshot` for one row, after the rows `before`. */
  method VisitRow(loads: Loads, row: Row, index: nat, s: Snapshot, seen: set<string>, ghost before: seq<Row>)
    returns (t: Snapshot, seen': set<string>)
    requires index == |before| + 1 && s == SnapshotOf(loads, before) && seen == Serials(Picks(loads, before))
    ensures t == SnapshotOf(loads, before + [row]) && seen' == Serials(Picks(loads, before + [row]))
  {
    FoldsNext(loads, before, row);
    t, seen' := s, seen;
    if !IsRecorder(row) { return; }
    t := t.(total := t.total + 1);
    var serial := SerialOf(row);
    if serial.None? { t := t.(missing := t.missing + 1); return; }
    if serial.value in seen { return; }
    seen' := seen + {serial.value};
    if |t.picks| >= MAX_NVRS {
      t := t.(truncated := true);
    } else {
      t := t.(picks := t.picks + [Pick(index, serial.value, ParentCodes(loads, row))]);
    }
  }

  /** The rows of one group, from the rows `before` on. */
  method VisitGroup(loads: Loads, root: Object, g: nat, s: Snapshot, seen: set<string>, index: nat)
    returns (t: Snapshot, seen': set<string>, index': nat)
    requires g < |GROUPS| && index == |RowsUpTo(root, g)|
    requires s == SnapshotOf(loads, RowsUpTo(root, g)) && seen == Serials(Picks(loads, RowsUpTo(root, g)))
    ensures index' == |RowsUpTo(root, g + 1)|
    ensures t == SnapshotOf(loads, RowsUpTo(root, g + 1)) && seen' == Serials(Picks(loads, RowsUpTo(root, g + 1)))
  {
    t, seen', index' := s, seen, index;
    var items := GroupItems(root, g);
    ghost var before := RowsUpTo(root, g);
    SeenEnds(root, g);
    for i := 0 to |items|
      invariant before == Seen(root, g, i) && index' == |before|
      invariant t == SnapshotOf(loads, before) && seen' == Serials(Picks(loads, before))
    {
      SeenNext(root, g, i);
      if items[i].Map? {
        var row := Row(GROUPS[g], items[i].fields);
        index' := index' + 1;
        t, seen' := VisitRow(loads, row, index', t, seen', before);
        before := before + [row];
      }
    }
  }

  method NvrSnapshot(loads: Loads, payload: Value) returns (r: Result<Snapshot, Error>)
    ensures SnapshotRoot(loads, payload).None? ==> r == Err(Invalid)
    ensures SnapshotRoot(loads, payload).Some? ==>
              r == Ok(SnapshotOf(loads, AllRows(SnapshotRoot(loads, payload).value)))
  {
    var found := SnapshotRoot(loads, payload);
    if found.None? { return Err(Invalid); }
    var root := found.value;
    var s, seen, index := Snapshot([], 0, false, 0), {}, 0;
    for g := 0 to |GROUPS|
      invariant index == |RowsUpTo(root, g)|
      invariant s == SnapshotOf(loads, RowsUpTo(root, g)) && seen == Serials(Picks(loads, RowsUpTo(root, g)))
    {
      s, seen, index := VisitGroup(loads, root, g, s, seen, index);
    }
    return Ok(s);
  }

  /** The first recorder with a serial. */
  predicate IsFirstWith(rows: seq<Row>, serial: string, i: nat) {
    && i < |rows| && IsRecorder(rows[i]) && SerialOf(rows[i]) == Some(serial)
    && forall j | 0 <= j < i :: !(IsRecorder(rows[j]) && SerialOf(rows[j]) == Some(serial))
  }

  /** The picks are exactly the first recorders of their serials, in the order and numbering of the inventory. */
  predicate ArePicks(loads: Loads, rows: seq<Row>, picks: seq<Pick>) {
    && (forall a | 0 <= a < |picks| :: IsPick(loads, rows, picks[a]))
    && (forall i | 0 <= i < |rows| && IsRecorder(rows[i]) && SerialOf(rows[i]).Some? ::
          SerialOf(rows[i]).value in Serials(picks))
    && (forall a, b | 0 <= a < b < |picks| :: picks[a].index < picks[b].index && picks[a].serial != picks[b].serial)
  }

  predicate IsPick(loads: Loads, rows: seq<Row>, p: Pick) {
    1 <= p.index <= |rows| && IsFirstWith(rows, p.serial, p.index - 1) && p.codes == ParentCodes(loads, rows[p.index - 1])
  }

  lemma PicksStay(loads: Loads, rows: seq<Row>, picks: seq<Pick>, row: Row)
    requires ArePicks(loads, rows, picks)
    ensures forall a | 0 <= a < |picks| :: IsPick(loads, rows + [row], picks[a])
  {
    forall a | 0 <= a < |picks| ensures IsPick(loads, rows + [row], picks[a]) {
      assert IsPick(loads, rows, picks[a]);
    }
  }

  lemma NewPick(loads: Loads, rows: seq<Row>, picks: seq<Pick>, row: Row, serial: string)
    requires ArePicks(loads, rows, picks) && IsRecorder(row) && SerialOf(row) == Some(serial) && serial !in Serials(picks)
    ensures IsPick(loads, rows + [row], Pick(|rows| + 1, serial, ParentCodes(loads, row)))
    ensures forall a | 0 <= a < |picks| :: picks[a].index <= |rows| && picks[a].serial != serial
  {
    var all := rows + [row];
    forall j | 0 <= j < |rows| ensures !(IsRecorder(all[j]) && SerialOf(all[j]) == Some(serial)) {
      assert all[j] == rows[j];
    }
    assert IsFirstWith(all, serial, |rows|);
    forall a | 0 <= a < |picks| ensures picks[a].index <= |rows| && picks[a].serial != serial {
      assert IsPick(loads, rows, picks[a]) && picks[a] in picks;
    }
  }

  lemma PicksStep(loads: Loads, rows: seq<Row>, picks: seq<Pick>, row: Row)
    requires ArePicks(loads, rows, picks)
    ensures ArePicks(loads, rows + [row], PicksNext(loads, picks, |rows| + 1, row))
  {
    var next := PicksNext(loads, picks, |rows| + 1, row);
    PicksStay(loads, rows, picks, row);
    PicksCover(loads, rows, picks, row);
    if next != picks {
      NewPick(loads, rows, picks, row, SerialOf(row).value);
    }
  }

  lemma PicksCover(loads: Loads, rows: seq<Row>, picks: seq<Pick>, row: Row)
    requires ArePicks(loads, rows, picks)
    ensures forall i | 0 <= i < |rows + [row]| && IsRecorder((rows + [row])[i]) && SerialOf((rows + [row])[i]).Some? ::
              SerialOf((rows + [row])[i]).value in Serials(PicksNext(loads, picks, |rows| + 1, row))
  {
    SerialsGrow(loads, picks, |rows| + 1, row);
    forall i | 0 <= i < |rows + [row]| && IsRecorder((rows + [row])[i]) && SerialOf((rows + [row])[i]).Some?
      ensures SerialOf((rows + [row])[i]).value in Serials(PicksNext(loads, picks, |rows| + 1, row))
    {
      if i < |rows| { assert (rows + [row])[i] == rows[i]; }
    }
  }

  lemma SerialsGrow(loads: Loads, picks: seq<Pick>, index: nat, row: Row)
    ensures Serials(picks) <= Serials(PicksNext(loads, picks, index, row))
    ensures IsRecorder(row) && SerialOf(row).Some? ==> SerialOf(row).value in Serials(PicksNext(loads, picks, index, row))
  {
    var next := PicksNext(loads, picks, index, row);
    forall serial | serial in Serials(picks) ensures serial in Serials(next) {
      var p :| p in picks && p.serial == serial;
      assert p in next;
    }
    if next != picks {
      assert next[|picks|] in next;
    }
  }

  lemma {:induction false} PicksAreFirsts(loads: Loads, rows: seq<Row>)
    ensures ArePicks(loads, rows, Picks(loads, rows))
  {
    if rows != [] {
      var front, last := rows[..|rows| - 1], rows[|rows| - 1];
      PicksAreFirsts(loads, front);
      PicksStep(loads, front, Picks(loads, front), last);
      assert front + [last] == rows;
    }
  }

  // ---- The channels of one recorder ----

  datatype Capabilities = Capabilities(table: map<nat, Codes>, stage: string, truncated: bool)

  /** `_channel_capabilities` on the decoded list: up to 128 channels, a later item replacing an earlier one. */
  function TableOf(loads: Loads, items: seq<Value>, n: nat): Capabilities
    requires n <= |items|
  {
    if n == 0 then Capabilities(map[], "received", false)
    else TableNext(TableOf(loads, items, n - 1), AsObject(loads, SESSION_TEXT, items[n - 1]), loads)
  }

  function TableNext(before: Capabilities, item: Object, loads: Loads): Capabilities {
    var id, caps := Integer(Get(item, "channel")), AsObject(loads, SESSION_TEXT, Get(item, "caps"));
    if id.None? || caps == map[] then before else Put(before, id.value, CodesOf(caps))
  }

  function Put(before: Capabilities, id: nat, codes: Codes): Capabilities {
    if id !in before.table && |before.table| >= MAX_CHANNELS then before.(truncated := true)
    else before.(table := before.table[id := codes])
  }

  function CapabilitiesOf(loads: Loads, v: Value): Capabilities {
    if v.Null? then Capabilities(map[], "missing", false)
    else
      var decoded := if v.Str? && |v.s| <= SESSION_TEXT then loads(v.s) else Some(v);
      if decoded.Some? && decoded.value.List?
      then TableOf(loads, decoded.value.items, |decoded.value.items|)
      else Capabilities(map[], "invalid", false)
  }

  // What the table is, apart from the loop that fills it.
  type Entry = (nat, Codes)

  function EntryOf(loads: Loads, item: Object): (e: seq<Entry>)
    ensures |e| <= 1
  {
    var id, caps := Integer(Get(item, "channel")), AsObject(loads, SESSION_TEXT, Get(item, "caps"));
    if id.None? || caps == map[] then [] else [(id.value, CodesOf(caps))]
  }

  lemma NextIsOfEntry(before: Capabilities, item: Object, loads: Loads)
    ensures TableNext(before, item, loads)
         == var e := EntryOf(loads, item); if e == [] then before else Put(before, e[0].0, e[0].1)
  {
  }

  /** The channels described by the first `n` items, with their codes; other items say nothing. */
  function Entries(loads: Loads, items: seq<Value>, n: nat): seq<Entry>
    requires n <= |items|
  {
    if n == 0 then []
    else
      Entries(loads, items, n - 1) + EntryOf(loads, AsObject(loads, SESSION_TEXT, items[n - 1]))
  }

  function PutAll(entries: seq<Entry>): Capabilities {
    if entries == [] then Capabilities(map[], "received", false)
    else Put(PutAll(entries[..|entries| - 1]), entries[|entries| - 1].0, entries[|entries| - 1].1)
  }

  lemma PutAllOneMore(front: seq<Entry>, more: seq<Entry>)
    requires |more| <= 1
    ensures PutAll(front + more) == if more == [] then PutAll(front) else Put(PutAll(front), more[0].0, more[0].1)
  {
    if more == [] {
      assert front + more == front;
    } else {
      assert (front + more)[..|front|] == front;
    }
  }

  lemma {:induction false} TableIsOfEntries(loads: Loads, items: seq<Value>, n: nat)
    requires n <= |items|
    ensures TableOf(loads, items, n) == PutAll(Entries(loads, items, n))
  {
    if n > 0 {
      var item := AsObject(loads, SESSION_TEXT, items[n - 1]);
      TableIsOfEntries(loads, items, n - 1);
      NextIsOfEntry(TableOf(loads, items, n - 1), item, loads);
      PutAllOneMore(Entries(loads, items, n - 1), EntryOf(loads, item));
    }
  }

  function EntryIds(entries: seq<Entry>): set<nat> {
    set e | e in entries :: e.0
  }

  lemma EntryIdsSnoc(front: seq<Entry>, last: Entry)
    ensures EntryIds(front + [last]) == EntryIds(front) + {last.0}
  {
    assert forall e | e in front :: e in front + [last];
    assert last in front + [last];
  }

  /** The table after entries for the channels `ids`. */
  ghost predicate Holds(c: Capabilities, ids: set<nat>) {
    && c.stage == "received" && c.table.Keys <= ids && |c.table| <= MAX_CHANNELS
    && (c.truncated <==> |ids| > MAX_CHANNELS)
    && (if |ids| > MAX_CHANNELS then |c.table| == MAX_CHANNELS else c.table.Keys == ids)
  }

  lemma PutHolds(c: Capabilities, ids: set<nat>, id: nat, codes: Codes)
    requires Holds(c, ids)
    ensures Holds(Put(c, id, codes), ids + {id})
    ensures forall u :: u in Put(c, id, codes).table <==> u in c.table || (u == id && |ids| < MAX_CHANNELS)
  {
    assert |c.table| == |c.table.Keys|;
    if id in ids {
      assert ids + {id} == ids;
    } else {
      assert |ids + {id}| == |ids| + 1 && |c.table[id := codes]| == |c.table[id := codes].Keys|;
      assert c.table[id := codes].Keys == c.table.Keys + {id};
    }
    if |c.table| == |ids| {
      SubsetOfSameSize(c.table.Keys, ids);
    }
  }

  lemma SubsetOfSameSize(a: set<nat>, b: set<nat>)
    requires a <= b && |a| == |b|
    ensures a == b
  {
    assert |b - a| == |b| - |a|;
  }

  lemma {:induction false} AllPutHolds(entries: seq<Entry>)
    ensures Holds(PutAll(entries), EntryIds(entries))
    decreases |entries|
  {
    if entries != [] {
      var front, last := entries[..|entries| - 1], entries[|entries| - 1];
      AllPutHolds(front);
      assert entries == front + [last];
      EntryIdsSnoc(front, last);
      PutHolds(PutAll(front), EntryIds(front), last.0, last.1);
    }
  }

  /** Some entry is for the channel, at a time when fewer than 128 channels had one. */
  ghost predicate Enters(entries: seq<Entry>, id: nat) {
    exists i :: 0 <= i < |entries| && entries[i].0 == id && |EntryIds(entries[..i])| < MAX_CHANNELS
  }

  lemma EntersSnoc(front: seq<Entry>, last: Entry, id: nat)
    ensures Enters(front + [last], id) <==> Enters(front, id) || (last.0 == id && |EntryIds(front)| < MAX_CHANNELS)
  {
    var all := front + [last];
    assert all[..|front|] == front && all[|front|] == last;
    assert forall i | 0 <= i < |front| :: all[i] == front[i] && all[..i] == front[..i];
    if i :| 0 <= i < |front| && front[i].0 == id && |EntryIds(front[..i])| < MAX_CHANNELS {
      assert all[i].0 == id && |EntryIds(all[..i])| < MAX_CHANNELS;
    }
  }

  lemma {:induction false} FirstChannelsEnter(entries: seq<Entry>, id: nat)
    ensures id in PutAll(entries).table <==> Enters(entries, id)
    decreases |entries|
  {
    if entries != [] {
      var front, last := entries[..|entries| - 1], entries[|entries| - 1];
      FirstChannelsEnter(front, id);
      AllPutHolds(front);
      PutHolds(PutAll(front), EntryIds(front), last.0, last.1);
      assert entries == front + [last];
      EntersSnoc(front, last, id);
    }
  }

  /** Entry `i` is the last one for the channel. */
  ghost predicate IsLatest(entries: seq<Entry>, id: nat, i: int) {
    0 <= i < |entries| && entries[i].0 == id && forall j | i < j < |entries| :: entries[j].0 != id
  }

  lemma {:induction false} LatestEntryStays(entries: seq<Entry>, id: nat) returns (i: int)
    requires id in PutAll(entries).table
    ensures IsLatest(entries, id, i) && PutAll(entries).table[id] == entries[i].1
    decreases |entries|
  {
    var last := |entries| - 1;
    if entries[last].0 == id {
      i := last;
    } else {
      i := LatestEntryStays(entries[..last], id);
    }
  }

  /**
   The table has the first 128 channels that items describe and says whether there were more; each has the codes of the
   last item that describes it.
   */
  lemma CapabilityTable(loads: Loads, items: seq<Value>, id: nat)
    ensures var c, entries := TableOf(loads, items, |items|), Entries(loads, items, |items|);
            && |c.table| <= MAX_CHANNELS && (c.truncated <==> |EntryIds(entries)| > MAX_CHANNELS)
            && (id in c.table <==> Enters(entries, id))
            && (id in c.table ==> exists i :: IsLatest(entries, id, i) && c.table[id] == entries[i].1)
  {
    var entries := Entries(loads, items, |items|);
    TableIsOfEntries(loads, items, |items|);
    AllPutHolds(entries);
    FirstChannelsEnter(entries, id);
    if id in PutAll(entries).table {
      var i := LatestEntryStays(entries, id);
    }
  }

  datatype Channel = Channel(id: nat, codes: Codes, state: Option<nat>, kind: Option<nat>)

  datatype Summary =
    | ResultMissing
    | StateMissing(capabilities: Capabilities, maximum: Option<nat>)
    | InvalidState(capabilities: Capabilities, maximum: Option<nat>)
    | Received(capabilities: Capabilities, maximum: Option<nat>,
               count: nat, channels: seq<Channel>, truncated: bool, invalid: nat)

  function ChannelId(v: Value): Option<nat> {
    if v.Map? then Integer(Get(v.fields, "channel")) else None
  }

  /** A channel's own codes, or the recorder's; four of them are always the recorder's. */
  function ChannelCodes(capabilities: map<nat, Codes>, parent: Codes, id: nat): (codes: Codes)
    ensures forall key | key in RECORDER_CODES ::
              (key in codes <==> key in parent) && (key in codes ==> codes[key] == parent[key])
    ensures forall key | key !in RECORDER_CODES ::
              var own := if id in capabilities then capabilities[id] else parent;
              (key in codes <==> key in own) && (key in codes ==> codes[key] == own[key])
  {
    var own := if id in capabilities then capabilities[id] else parent;
    (own - RECORDER_CODES) + (map key | key in parent && key in RECORDER_CODES :: parent[key])
  }

  function Render(capabilities: map<nat, Codes>, parent: Codes, v: Value): Channel
    requires ChannelId(v).Some?
  {
    var id := ChannelId(v).value;
    Channel(id, ChannelCodes(capabilities, parent, id), Integer(Get(v.fields, "state")), Integer(Get(v.fields, "type")))
  }

  /** The first row of each channel id among the first `n` rows. */
  function Firsts(rows: seq<Value>, n: nat): (firsts: seq<Value>)
    requires n <= |rows|
    ensures |firsts| <= n && forall v | v in firsts :: ChannelId(v).Some?
  {
    if n == 0 then []
    else
      var before, row := Firsts(rows, n - 1), rows[n - 1];
      if ChannelId(row).Some? && ChannelId(row).value !in IdsOf(before) then before + [row] else before
  }

  function IdsOf(rows: seq<Value>): set<nat>
    requires forall v | v in rows :: ChannelId(v).Some?
  {
    set v | v in rows :: ChannelId(v).value
  }

  function RenderAll(capabilities: map<nat, Codes>, parent: Codes, rows: seq<Value>, n: nat): (channels: seq<Channel>)
    requires n <= |rows| && forall v | v in rows :: ChannelId(v).Some?
    ensures |channels| == n && forall i | 0 <= i < n :: channels[i] == Render(capabilities, parent, rows[i])
  {
    seq(n, i requires 0 <= i < n => Render(capabilities, parent, rows[i]))
  }

  function SummaryOf(loads: Loads, v: Value, parent: Codes): Summary {
    if !v.Map? then ResultMissing
    else
      var capabilities := CapabilitiesOf(loads, Get(v.fields, "67"));
      var maximum := Integer(Get(v.fields, "213"));
      if "1015" !in v.fields then StateMissing(capabilities, maximum)
      else
        var state := Get(AsObject(loads, SESSION_TEXT, v.fields["1015"]), "state");
        if !state.List? then InvalidState(capabilities, maximum)
        else
          var firsts := Firsts(state.items, |state.items|);
          Received(capabilities, maximum, |firsts|,
                   RenderAll(capabilities.table, parent, firsts, Min(MAX_CHANNELS, |firsts|)),
                   |firsts| > MAX_CHANNELS, |state.items| - |firsts|)
  }

  method ChannelCapabilities(loads: Loads, v: Value) returns (r: Capabilities)
    ensures r == CapabilitiesOf(loads, v)
  {
    if v.Null? { return Capabilities(map[], "missing", false); }
    var decoded := if v.Str? && |v.s| <= SESSION_TEXT then loads(v.s) else Some(v);
    if decoded.None? || !decoded.value.List? { return Capabilities(map[], "invalid", false); }
    var items := decoded.value.items;
    r := Capabilities(map[], "received", false);
    for i := 0 to |items|
      invariant r == TableOf(loads, items, i)
    {
      r := AddCapability(loads, AsObject(loads, SESSION_TEXT, items[i]), r);
    }
  }

  method AddCapability(loads: Loads, item: Object, before: Capabilities) returns (r: Capabilities)
    ensures r == TableNext(before, item, loads)
  {
    r := before;
    var id, caps := Integer(Get(item, "channel")), AsObject(loads, SESSION_TEXT, Get(item, "caps"));
    if id.None? || caps == map[] { return; }
    if id.value !in r.table && |r.table| >= MAX_CHANNELS {
      r := r.(truncated := true);
    } else {
      r := r.(table := r.table[id.value := CodesOf(caps)]);
    }
  }

  lemma RenderAllNext(capabilities: map<nat, Codes>, parent: Codes, rows: seq<Value>, row: Value)
    requires (forall v | v in rows :: ChannelId(v).Some?) && ChannelId(row).Some?
    ensures forall v | v in rows + [row] :: ChannelId(v).Some?
    ensures RenderAll(capabilities, parent, rows + [row], Min(MAX_CHANNELS, |rows| + 1))
         == RenderAll(capabilities, parent, rows, Min(MAX_CHANNELS, |rows|))
            + if |rows| < MAX_CHANNELS then [Render(capabilities, parent, row)] else []
  {
    forall v | v in rows + [row] ensures ChannelId(v).Some? {
    }
  }

  /** The kept rows with their ids and, up to the limit, their public rows. */
  predicate Lists(capabilities: map<nat, Codes>, parent: Codes, kept: seq<Value>, channels: seq<Channel>, seen: set<nat>) {
    && (forall v | v in kept :: ChannelId(v).Some?)
    && seen == IdsOf(kept) && |seen| == |kept|
    && channels == RenderAll(capabilities, parent, kept, Min(MAX_CHANNELS, |kept|))
  }

  /** One row in the loop of `_channel_summary`; `before` are the rows kept so far. */
  method AddChannel(capabilities: map<nat, Codes>, parent: Codes, row: Value, channels: seq<Channel>, seen: set<nat>,
                    ghost before: seq<Value>)
    returns (channels': seq<Channel>, seen': set<nat>, valid: bool)
    requires Lists(capabilities, parent, before, channels, seen)
    ensures valid <==> ChannelId(row).Some? && ChannelId(row).value !in seen
    ensures Lists(capabilities, parent, if valid then before + [row] else before, channels', seen')
  {
    channels', seen' := channels, seen;
    var id := ChannelId(row);
    valid := id.Some? && id.value !in seen;
    if valid {
      IdsGrow(before, row);
      RenderAllNext(capabilities, parent, before, row);
      seen' := seen + {id.value};
      if |channels| < MAX_CHANNELS {
        channels' := channels + [Render(capabilities, parent, row)];
      }
    }
  }

  method ListChannels(capabilities: map<nat, Codes>, parent: Codes, rows: seq<Value>)
    returns (channels: seq<Channel>, seen: set<nat>, invalid: nat)
    ensures Lists(capabilities, parent, Firsts(rows, |rows|), channels, seen)
    ensures invalid == |rows| - |Firsts(rows, |rows|)|
  {
    channels, seen, invalid := [], {}, 0;
    for i := 0 to |rows|
      invariant Lists(capabilities, parent, Firsts(rows, i), channels, seen)
      invariant invalid == i - |Firsts(rows, i)|
    {
      var valid;
      channels, seen, valid := AddChannel(capabilities, parent, rows[i], channels, seen, Firsts(rows, i));
      if !valid { invalid := invalid + 1; }
    }
  }

  lemma IdsGrow(rows: seq<Value>, v: Value)
    requires (forall w | w in rows :: ChannelId(w).Some?) && ChannelId(v).Some?
    ensures forall w | w in rows + [v] :: ChannelId(w).Some?
    ensures IdsOf(rows + [v]) == IdsOf(rows) + {ChannelId(v).value}
  {
    forall w | w in rows + [v] ensures ChannelId(w).Some? {
    }
    forall id | id in IdsOf(rows) ensures id in IdsOf(rows + [v]) {
      var w :| w in rows && ChannelId(w).value == id;
      assert w in rows + [v];
    }
    assert v in rows + [v];
  }

  method ChannelSummary(loads: Loads, v: Value, parent: Codes) returns (r: Summary)
    ensures r == SummaryOf(loads, v, parent)
  {
    if !v.Map? { return ResultMissing; }
    var capabilities := ChannelCapabilities(loads, Get(v.fields, "67"));
    var maximum := Integer(Get(v.fields, "213"));
    if "1015" !in v.fields { return StateMissing(capabilities, maximum); }
    var state := Get(AsObject(loads, SESSION_TEXT, v.fields["1015"]), "state");
    if !state.List? { return InvalidState(capabilities, maximum); }
    var channels, seen, invalid := ListChannels(capabilities.table, parent, state.items);
    return Received(capabilities, maximum, |seen|, channels, |seen| > |channels|, invalid);
  }

  /** Valid and invalid rows make up the input, and exactly the first 128 valid ones are listed. */
  lemma ChannelRowsAreConserved(loads: Loads, v: Value, parent: Codes)
    requires SummaryOf(loads, v, parent).Received?
    ensures var r := SummaryOf(loads, v, parent);
            var rows := Get(AsObject(loads, SESSION_TEXT, v.fields["1015"]), "state").items;
            && r.count + r.invalid == |rows|
            && |r.channels| == Min(MAX_CHANNELS, r.count)
            && r.count == |ValidIds(rows)|
            && (forall c | c in r.channels :: c.id in ValidIds(rows))
            && (forall a, b | 0 <= a < b < |r.channels| :: r.channels[a].id != r.channels[b].id)
            && (!r.truncated <==> forall id | id in ValidIds(rows) :: exists c :: c in r.channels && c.id == id)
  {
    var r := SummaryOf(loads, v, parent);
    var rows := Get(AsObject(loads, SESSION_TEXT, v.fields["1015"]), "state").items;
    var firsts := Firsts(rows, |rows|);
    FirstsAreDistinct(rows, |rows|);
    FirstsCover(rows, |rows|);
    assert rows[..|rows|] == rows;
    ListedIds(firsts, r.channels, r.capabilities.table, parent);
  }

  /** The channel ids that occur in the input. */
  function ValidIds(rows: seq<Value>): set<nat> {
    set v | v in rows && ChannelId(v).Some? :: ChannelId(v).value
  }

  lemma {:induction false} FirstsCover(rows: seq<Value>, n: nat)
    requires n <= |rows|
    ensures IdsOf(Firsts(rows, n)) == ValidIds(rows[..n])
  {
    if n > 0 {
      FirstsCover(rows, n - 1);
      var before, row := Firsts(rows, n - 1), rows[n - 1];
      assert rows[..n] == rows[..n - 1] + [row];
      ValidIdsGrow(rows[..n - 1], row);
      if ChannelId(row).Some? {
        IdsGrow(before, row);
      }
    }
  }

  lemma ValidIdsGrow(rows: seq<Value>, v: Value)
    ensures ValidIds(rows + [v]) == ValidIds(rows) + if ChannelId(v).Some? then {ChannelId(v).value} else {}
  {
    var all := rows + [v];
    forall id | id in ValidIds(rows) ensures id in ValidIds(all) {
      var w :| w in rows && ChannelId(w) == Some(id);
      assert w in all;
    }
    if ChannelId(v).Some? {
      assert v in all;
    }
  }

  predicate Distinct(rows: seq<Value>)
    requires forall v | v in rows :: ChannelId(v).Some?
  {
    && |IdsOf(rows)| == |rows|
    && forall a, b | 0 <= a < b < |rows| :: ChannelId(rows[a]) != ChannelId(rows[b])
  }

  lemma DistinctGrows(rows: seq<Value>, v: Value)
    requires (forall w | w in rows :: ChannelId(w).Some?) && ChannelId(v).Some?
    requires Distinct(rows) && ChannelId(v).value !in IdsOf(rows)
    ensures (forall w | w in rows + [v] :: ChannelId(w).Some?) && Distinct(rows + [v])
  {
    IdsGrow(rows, v);
    forall a | 0 <= a < |rows| ensures ChannelId(rows[a]) != ChannelId(v) {
      assert rows[a] in rows && ChannelId(rows[a]).value in IdsOf(rows);
    }
  }

  lemma {:induction false} FirstsAreDistinct(rows: seq<Value>, n: nat)
    requires n <= |rows|
    ensures Distinct(Firsts(rows, n))
  {
    if n > 0 {
      FirstsAreDistinct(rows, n - 1);
      var before, row := Firsts(rows, n - 1), rows[n - 1];
      if ChannelId(row).Some? && ChannelId(row).value !in IdsOf(before) {
        DistinctGrows(before, row);
      }
    }
  }

  lemma ListedIds(firsts: seq<Value>, channels: seq<Channel>, table: map<nat, Codes>, parent: Codes)
    requires forall v | v in firsts :: ChannelId(v).Some?
    requires forall a, b | 0 <= a < b < |firsts| :: ChannelId(firsts[a]) != ChannelId(firsts[b])
    requires |channels| <= |firsts| && forall i | 0 <= i < |channels| :: channels[i].id == ChannelId(firsts[i]).value
    ensures forall c | c in channels :: c.id in IdsOf(firsts)
    ensures forall a, b | 0 <= a < b < |channels| :: channels[a].id != channels[b].id
    ensures |channels| == |firsts| <==> forall id | id in IdsOf(firsts) :: exists c :: c in channels && c.id == id
  {
    forall c | c in channels ensures c.id in IdsOf(firsts) {
      var i :| 0 <= i < |channels| && channels[i] == c;
      assert firsts[i] in firsts;
    }
    forall a, b | 0 <= a < b < |channels| ensures channels[a].id != channels[b].id {
      assert firsts[a] in firsts && firsts[b] in firsts;
    }
    if |channels| == |firsts| {
      forall id | id in IdsOf(firsts) ensures exists c :: c in channels && c.id == id {
        var v :| v in firsts && ChannelId(v).value == id;
        var i :| 0 <= i < |firsts| && firsts[i] == v;
        assert channels[i] in channels && channels[i].id == id;
      }
    } else {
      var v := firsts[|channels|];
      assert v in firsts && ChannelId(v).value in IdsOf(firsts);
      forall c | c in channels ensures c.id != ChannelId(v).value {
        var i :| 0 <= i < |channels| && channels[i] == c;
        assert firsts[i] in firsts;
      }
    }
  }

  // ---- The channels of the recorders ----

  /** `summarize_nvr_channels`: the recorders' channels under their inventory indexes, if the answer is good. */
  function NvrChannels(loads: Loads, payload: Value, picks: seq<Pick>): (r: seq<(nat, Summary)>)
    ensures r == [] || |r| == |picks|
  {
    var raw := AsObject(loads, SESSION_TEXT, payload);
    var result := Get(raw, "result");
    if Code(Get(raw, "resultCode")) == Some(1001) && result.Map? then
      seq(|picks|, i requires 0 <= i < |picks| =>
        (picks[i].index, SummaryOf(loads, Get(result.fields, picks[i].serial), picks[i].codes)))
    else []
  }
}
