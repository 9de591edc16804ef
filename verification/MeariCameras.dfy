/**
 Live cameras: the join of a selected device to an inventory row by vendor id, and the playback
 context built from the row found again later. The checks of session data, passwords, keys and
 capabilities are given predicates; a channel payload fetched over the network is an input.
 */
module MeariCameras {
  import opened Wrappers
  import opened MeariInventory
  import Channels = MeariChannels

  datatype Env = Env(
    loads: Loads,
    show: int -> string,                              // str on whole numbers
    sessionAccepted: bool,                            // the checks before the row is selected
    vet: (Row, nat, Option<Value>) -> bool)           // the other checks of a row, channel and channel payload

  datatype Context = Context(deviceId: Option<string>, serial: string, category: string, deviceType: nat, channel: nat)

  datatype Description = Description(device: string, vendor: string, channel: nat, isNvr: bool)

  // ---- The identity of a row ----

  function VendorId(env: Env, row: Row): string {
    var v := Get(row.fields, "deviceID");
    var text := if v.Int? then Str(env.show(v.n)) else v;
    if text.Str? && 0 < |text.s| <= 128 then text.s else ""
  }

  predicate LooksLikeNvr(row: Row) {
    Shows(Get(row.fields, "devTypeID"), 11, "11")
  }

  // ---- build_probe_context ----

  /** `_text`: a string of printable characters without spaces. */
  predicate IsText(v: Value, maximum: nat, empty: bool) {
    v.Str? && |v.s| <= maximum && (empty || v.s != "") && forall i | 0 <= i < |v.s| :: '!' <= v.s[i] <= '~'
  }

  /** `format_sn` gives something. */
  predicate SerialUsable(serial: string) {
    |serial| == 9 || |serial| > 4
  }

  function DeviceIdText(env: Env, row: Row): Value {
    var v := Get(row.fields, "deviceID");
    if v.Int? && 0 <= v.n <= 0x7FFF_FFFF_FFFF_FFFF then Str(env.show(v.n)) else v
  }

  /** The part of `build_probe_context` from the selected row on. */
  function FromRow(env: Env, row: Row, channel: nat, channels: Option<Value>): Result<Context, Error> {
    var deviceType := Number(Get(row.fields, "devTypeID"), 65535);
    var serial, id := Get(row.fields, "snNum"), DeviceIdText(env, row);
    if Number(Get(row.fields, "iotType"), 65535) != Some(3) || deviceType !in {Some(2), Some(11)} then Err(Unsupported)
    else if deviceType == Some(2) && channel != 0 then Err(BadChannel)
    else if !IsText(serial, 63, false) || !SerialUsable(serial.s) then Err(BadText)
    else if id != Null && !IsText(id, 128, true) then Err(BadText)
    else if !env.vet(row, channel, channels) then Err(Rejected)
    else Ok(Context(if id == Null then None else Some(id.s), serial.s, row.group, deviceType.value, channel))
  }

  /** The row of an index, as `SelectedDevice` finds it. */
  function RowAt(env: Env, payload: Value, index: nat): Result<Row, Error> {
    var root := ContextRoot(env.loads, payload);
    if root.None? then Err(Invalid)
    else
      var rows := AllRows(root.value);
      if 1 <= index <= |rows| then Ok(rows[index - 1]) else Err(NotFound)
  }

  function BuildContext(env: Env, payload: Value, index: nat, channel: nat, channels: Option<Value>): Result<Context, Error> {
    if !(1 <= index <= 512) then Err(NotFound)
    else if channel > 128 then Err(BadChannel)
    else if !env.sessionAccepted then Err(Rejected)
    else
      match RowAt(env, payload, index)
      case Err(e) => Err(e)
      case Ok(row) => FromRow(env, row, channel, channels)
  }

  method BuildProbeContext(env: Env, payload: Value, index: nat, channel: nat, channels: Option<Value>)
    returns (r: Result<Context, Error>)
    ensures r == BuildContext(env, payload, index, channel, channels)
  {
    if !(1 <= index <= 512) { return Err(NotFound); }
    if channel > 128 { return Err(BadChannel); }
    if !env.sessionAccepted { return Err(Rejected); }
    var row := SelectedDevice(env.loads, payload, index);
    if row.Err? { return Err(row.error); }
    return FromRow(env, row.value, channel, channels);
  }

  // ---- LiveCameraBootstrap.context ----

  /** The positions of the rows with a vendor id, among the first `n`. */
  function Matches(env: Env, rows: seq<Row>, vendor: string): (m: seq<(nat, Row)>)
    ensures forall k | 0 <= k < |m| :: 1 <= m[k].0 <= |rows| && m[k].1 == rows[m[k].0 - 1] && VendorId(env, m[k].1) == vendor
  {
    if rows == [] then []
    else
      var n := |rows| - 1;
      Matches(env, rows[..n], vendor) + if VendorId(env, rows[n]) == vendor then [(n + 1, rows[n])] else []
  }

  /** The rows that `_devices` returns. */
  function LiveRows(env: Env, payload: Value): Result<seq<Row>, Error> {
    var root := LiveRoot(env.loads, payload);
    if root.None? then Err(Unavailable)
    else if |AllRows(root.value)| > MAX_DEVICES then Err(Limit)
    else Ok(AllRows(root.value))
  }

  function PlaybackContext(env: Env, payload: Value, d: Description, channels: Value): Result<Context, Error> {
    match LiveRows(env, payload)
    case Err(e) => Err(e)
    case Ok(rows) =>
      var matches := Matches(env, rows, d.vendor);
      if |matches| != 1 then Err(Unavailable)
      else if LooksLikeNvr(matches[0].1) != d.isNvr then Err(Changed)
      else BuildContext(env, payload, matches[0].0, d.channel, if d.isNvr then Some(channels) else None)
  }

  /** The index found by `_devices` selects the same row for the context. */
  lemma IndexSelectsItsRow(env: Env, payload: Value, index: nat)
    requires LiveRows(env, payload).Ok? && 1 <= index <= |LiveRows(env, payload).value|
    ensures RowAt(env, payload, index) == Ok(LiveRows(env, payload).value[index - 1])
  {
    LiveRootIsEveryRoot(env.loads, payload);
  }

  predicate IsOnly(env: Env, rows: seq<Row>, vendor: string, i: nat) {
    i < |rows| && forall j | 0 <= j < |rows| :: VendorId(env, rows[j]) == vendor <==> j == i
  }

  lemma {:induction false} NoMatch(env: Env, rows: seq<Row>, vendor: string)
    ensures Matches(env, rows, vendor) == [] <==> forall j | 0 <= j < |rows| :: VendorId(env, rows[j]) != vendor
  {
    if rows != [] {
      NoMatch(env, rows[..|rows| - 1], vendor);
    }
  }

  lemma {:induction false} OneMatchIsOnly(env: Env, rows: seq<Row>, vendor: string)
    requires |Matches(env, rows, vendor)| == 1
    ensures IsOnly(env, rows, vendor, Matches(env, rows, vendor)[0].0 - 1)
  {
    var n := |rows| - 1;
    if VendorId(env, rows[n]) == vendor {
      assert Matches(env, rows[..n], vendor) == [];
      NoMatch(env, rows[..n], vendor);
      assert forall j | 0 <= j < n :: rows[..n][j] == rows[j];
    } else {
      OneMatchIsOnly(env, rows[..n], vendor);
      assert forall j | 0 <= j < n :: rows[..n][j] == rows[j];
    }
  }

  /** What the context becomes once its row is found; the row's number plays no part. */
  function PlayRow(env: Env, row: Row, d: Description, channels: Value): Result<Context, Error> {
    if LooksLikeNvr(row) != d.isNvr then Err(Changed)
    else if d.channel > 128 then Err(BadChannel)
    else if !env.sessionAccepted then Err(Rejected)
    else FromRow(env, row, d.channel, if d.isNvr then Some(channels) else None)
  }

  lemma BuildIsOfTheRow(env: Env, payload: Value, index: nat, d: Description, channels: Value, row: Row)
    requires RowAt(env, payload, index) == Ok(row) && 1 <= index <= 512 && LooksLikeNvr(row) == d.isNvr
    ensures BuildContext(env, payload, index, d.channel, if d.isNvr then Some(channels) else None)
         == PlayRow(env, row, d, channels)
  {
  }

  lemma PlaybackIsOfTheRow(env: Env, payload: Value, d: Description, channels: Value)
    requires LiveRows(env, payload).Ok?
    ensures var matches := Matches(env, LiveRows(env, payload).value, d.vendor);
            PlaybackContext(env, payload, d, channels)
              == if |matches| != 1 then Err(Unavailable) else PlayRow(env, matches[0].1, d, channels)
  {
    var matches := Matches(env, LiveRows(env, payload).value, d.vendor);
    if |matches| == 1 && LooksLikeNvr(matches[0].1) == d.isNvr {
      var (index, row) := matches[0];
      IndexSelectsItsRow(env, payload, index);
      BuildIsOfTheRow(env, payload, index, d, channels, row);
    }
  }

  lemma FromRowKeepsIdentity(env: Env, row: Row, channel: nat, channels: Option<Value>, vendor: string)
    requires vendor != "" && VendorId(env, row) == vendor && FromRow(env, row, channel, channels).Ok?
    ensures FromRow(env, row, channel, channels).value.deviceId == Some(vendor)
  {
  }

  /** The context is made from row `i`, the only one with the vendor id. */
  predicate Names(env: Env, rows: seq<Row>, d: Description, c: Context, i: nat) {
    && IsOnly(env, rows, d.vendor, i)
    && c.deviceId == Some(d.vendor) && c.channel == d.channel
    && Get(rows[i].fields, "snNum") == Str(c.serial) && rows[i].group == c.category && LooksLikeNvr(rows[i]) == d.isNvr
  }

  /** A playback context names the one row whose device id is the description's vendor id. */
  lemma ContextNamesTheDevice(env: Env, payload: Value, d: Description, channels: Value)
    requires d.vendor != "" && PlaybackContext(env, payload, d, channels).Ok?
    ensures exists i: nat ::
              Names(env, LiveRows(env, payload).value, d, PlaybackContext(env, payload, d, channels).value, i)
  {
    var rows := LiveRows(env, payload).value;
    var matches := Matches(env, rows, d.vendor);
    PlaybackIsOfTheRow(env, payload, d, channels);
    OneMatchIsOnly(env, rows, d.vendor);
    FromRowKeepsIdentity(env, matches[0].1, d.channel, if d.isNvr then Some(channels) else None, d.vendor);
    assert Names(env, rows, d, PlaybackContext(env, payload, d, channels).value, matches[0].0 - 1);
  }

  // ---- Reordering ----

  function RowsIn(matches: seq<(nat, Row)>): (r: seq<Row>)
    ensures |r| == |matches| && forall k | 0 <= k < |r| :: r[k] == matches[k].1
  {
    seq(|matches|, k requires 0 <= k < |matches| => matches[k].1)
  }

  lemma MatchedNext(env: Env, rows: seq<Row>, row: Row, vendor: string)
    ensures RowsIn(Matches(env, rows + [row], vendor))
         == RowsIn(Matches(env, rows, vendor)) + if VendorId(env, row) == vendor then [row] else []
  {
    assert (rows + [row])[..|rows|] == rows;
  }

  lemma {:induction false} MatchedRows(env: Env, rows: seq<Row>, vendor: string, row: Row)
    ensures multiset(RowsIn(Matches(env, rows, vendor)))[row] == if VendorId(env, row) == vendor then multiset(rows)[row] else 0
  {
    if rows != [] {
      var front, last := rows[..|rows| - 1], rows[|rows| - 1];
      MatchedRows(env, front, vendor, row);
      assert rows == front + [last];
      MatchedOneMore(env, front, last, vendor, row);
    }
  }

  lemma MatchedOneMore(env: Env, front: seq<Row>, last: Row, vendor: string, row: Row)
    ensures multiset(RowsIn(Matches(env, front + [last], vendor)))[row]
         == multiset(RowsIn(Matches(env, front, vendor)))[row] + if row == last && VendorId(env, last) == vendor then 1 else 0
    ensures multiset(front + [last])[row] == multiset(front)[row] + if row == last then 1 else 0
  {
    MatchedNext(env, front, last, vendor);
    var before, after := RowsIn(Matches(env, front, vendor)), RowsIn(Matches(env, front + [last], vendor));
    CountNext(front, last, row);
    if VendorId(env, last) == vendor {
      assert after == before + [last];
      CountNext(before, last, row);
    } else {
      assert after == before;
    }
  }

  lemma CountNext(rows: seq<Row>, last: Row, row: Row)
    ensures multiset(rows + [last])[row] == multiset(rows)[row] + if row == last then 1 else 0
    ensures multiset(rows + [])[row] == multiset(rows)[row]
  {
    assert rows + [] == rows;
  }

  lemma SameMatches(env: Env, a: seq<Row>, b: seq<Row>, vendor: string)
    requires multiset(a) == multiset(b)
    ensures multiset(RowsIn(Matches(env, a, vendor))) == multiset(RowsIn(Matches(env, b, vendor)))
  {
    var x, y := RowsIn(Matches(env, a, vendor)), RowsIn(Matches(env, b, vendor));
    forall row ensures multiset(x)[row] == multiset(y)[row] {
      MatchedRows(env, a, vendor, row);
      MatchedRows(env, b, vendor, row);
    }
  }

  lemma SameSingle(x: seq<Row>, y: seq<Row>)
    requires multiset(x) == multiset(y)
    ensures |x| == |y| && (|x| == 1 ==> x[0] == y[0])
  {
    assert |x| == |multiset(x)| && |y| == |multiset(y)|;
    if |x| == 1 {
      assert x[0] in multiset(y);
    }
  }

  /** The context does not depend on the order of the rows, nor on their numbers. */
  lemma ContextIgnoresOrder(env: Env, p: Value, q: Value, d: Description, channels: Value)
    requires LiveRows(env, p).Ok? && LiveRows(env, q).Ok?
    requires multiset(LiveRows(env, p).value) == multiset(LiveRows(env, q).value)
    ensures PlaybackContext(env, p, d, channels) == PlaybackContext(env, q, d, channels)
  {
    var a := Matches(env, LiveRows(env, p).value, d.vendor);
    var b := Matches(env, LiveRows(env, q).value, d.vendor);
    SameMatches(env, LiveRows(env, p).value, LiveRows(env, q).value, d.vendor);
    SameSingle(RowsIn(a), RowsIn(b));
    PlaybackIsOfTheRow(env, p, d, channels);
    PlaybackIsOfTheRow(env, q, d, channels);
    if |a| == 1 {
      assert RowsIn(a)[0] == RowsIn(b)[0];
    }
  }

  // ---- describe_live_cameras ----

  predicate IsLive(c: Channels.Channel) {
    c.state == Some(1) && "p2p" in c.codes && c.codes["p2p"] == 2
  }

  /** The channel ids tried for a row: 0 for a single camera, the live ones for a recorder. */
  function TriedChannels(row: Row, summaries: seq<(nat, Channels.Summary)>, index: nat): seq<nat> {
    if !LooksLikeNvr(row) then [0]
    else
      var s := SummaryAt(summaries, index);
      if s.Some? && s.value.Received? then LiveIds(s.value.channels) else []
  }

  function SummaryAt(summaries: seq<(nat, Channels.Summary)>, index: nat): Option<Channels.Summary> {
    if summaries == [] then None
    else if summaries[|summaries| - 1].0 == index then Some(summaries[|summaries| - 1].1)
    else SummaryAt(summaries[..|summaries| - 1], index)
  }

  function LiveIds(channels: seq<Channels.Channel>): seq<nat> {
    if channels == [] then []
    else (if IsLive(channels[0]) then [channels[0].id] else []) + LiveIds(channels[1..])
  }

  /** One description per tried channel whose context builds. */
  function Offers(env: Env, inventory: Value, device: string, vendor: string, index: nat, isNvr: bool,
                  tried: seq<nat>, n: nat, channels: Value): seq<Description>
    requires n <= |tried|
  {
    if n == 0 then []
    else
      Offers(env, inventory, device, vendor, index, isNvr, tried, n - 1, channels)
      + if BuildContext(env, inventory, index, tried[n - 1], if isNvr then Some(channels) else None).Ok?
        then [Description(device, vendor, tried[n - 1], isNvr)] else []
  }

  datatype Selected = Selected(device: string, uid: Value)

  function DescribeOne(env: Env, inventory: Value, rows: seq<Row>, summaries: seq<(nat, Channels.Summary)>,
                       s: Selected, channels: Value): seq<Description>
  {
    if !s.uid.Str? || s.uid.s == "" then []
    else
      var matches := Matches(env, rows, s.uid.s);
      if |matches| != 1 then []
      else
        var (index, row) := matches[0];
        var tried := TriedChannels(row, summaries, index);
        Offers(env, inventory, s.device, s.uid.s, index, LooksLikeNvr(row), tried, |tried|, channels)
  }

  function Describer(env: Env, inventory: Value, rows: seq<Row>, summaries: seq<(nat, Channels.Summary)>, channels: Value)
    : Selected -> seq<Description>
  {
    s => DescribeOne(env, inventory, rows, summaries, s, channels)
  }

  function FlatMap<S, T>(xs: seq<S>, part: S -> seq<T>): seq<T> {
    if xs == [] then [] else FlatMap(xs[..|xs| - 1], part) + part(xs[|xs| - 1])
  }

  lemma FlatMapPrefix<S, T>(xs: seq<S>, n: nat, part: S -> seq<T>)
    requires n < |xs|
    ensures FlatMap(xs[..n + 1], part) == FlatMap(xs[..n], part) + part(xs[n])
  {
    assert xs[..n + 1][..n] == xs[..n];
  }

  lemma {:induction false} InFlatMap<S, T>(xs: seq<S>, part: S -> seq<T>, t: T) returns (k: nat)
    requires t in FlatMap(xs, part)
    ensures k < |xs| && t in part(xs[k])
  {
    if t in part(xs[|xs| - 1]) {
      k := |xs| - 1;
    } else {
      k := InFlatMap(xs[..|xs| - 1], part, t);
    }
  }

  /** All descriptions, or the error of a bad inventory. */
  function Described(env: Env, inventory: Value, channels: Value, selected: seq<Selected>): Result<seq<Description>, Error> {
    match LiveRows(env, inventory)
    case Err(e) => Err(e)
    case Ok(rows) =>
      var picks := Channels.SnapshotOf(env.loads, rows).picks;
      var summaries := Channels.NvrChannels(env.loads, channels, picks);
      Ok(FlatMap(selected, Describer(env, inventory, rows, summaries, channels)))
  }

  /** The search for the one row with a vendor id. */
  method FindMatches(env: Env, rows: seq<(nat, Row)>, vendor: string, ghost plain: seq<Row>) returns (matches: seq<(nat, Row)>)
    requires rows == Numbered(plain)
    ensures matches == Matches(env, plain, vendor)
  {
    matches := [];
    for i := 0 to |rows|
      invariant matches == Matches(env, plain[..i], vendor)
    {
      assert plain[..i + 1][..i] == plain[..i];
      if VendorId(env, rows[i].1) == vendor {
        matches := matches + [rows[i]];
      }
    }
    assert plain[..|rows|] == plain;
  }

  method DescribeLiveCameras(env: Env, inventory: Value, channels: Value, selected: seq<Selected>)
    returns (r: Result<seq<Description>, Error>)
    ensures r == Described(env, inventory, channels, selected)
  {
    var rows := Devices(env.loads, inventory);
    if rows.Err? { return Err(rows.error); }
    ghost var plain := LiveRows(env, inventory).value;
    SnapshotReadsLiveRoot(env, inventory);
    var snapshot := Channels.NvrSnapshot(env.loads, inventory);
    var summaries := Channels.NvrChannels(env.loads, channels, snapshot.value.picks);
    var result := DescribeEachSelected(env, inventory, rows.value, summaries, selected, channels, plain,
                                       Describer(env, inventory, plain, summaries, channels));
    return Ok(result);
  }

  method DescribeEachSelected(env: Env, inventory: Value, rows: seq<(nat, Row)>, summaries: seq<(nat, Channels.Summary)>,
                              selected: seq<Selected>, channels: Value,
                              ghost plain: seq<Row>, ghost part: Selected -> seq<Description>)
    returns (result: seq<Description>)
    requires rows == Numbered(plain) && part == Describer(env, inventory, plain, summaries, channels)
    ensures result == FlatMap(selected, part)
  {
    result := [];
    for n := 0 to |selected|
      invariant result == FlatMap(selected[..n], part)
    {
      var found := DescribeSelected(env, inventory, rows, summaries, selected[n], channels, plain, part);
      FlatMapPrefix(selected, n, part);
      result := result + found;
    }
    assert selected[..|selected|] == selected;
  }

  method DescribeSelected(env: Env, inventory: Value, rows: seq<(nat, Row)>, summaries: seq<(nat, Channels.Summary)>,
                          s: Selected, channels: Value, ghost plain: seq<Row>, ghost part: Selected -> seq<Description>)
    returns (offers: seq<Description>)
    requires rows == Numbered(plain) && part == Describer(env, inventory, plain, summaries, channels)
    ensures offers == part(s)
  {
    if !s.uid.Str? || s.uid.s == "" { return []; }
    var matches := FindMatches(env, rows, s.uid.s, plain);
    if |matches| != 1 { return []; }
    var (index, row) := matches[0];
    offers := Offer(env, inventory, s.device, s.uid.s, index, LooksLikeNvr(row), TriedChannels(row, summaries, index), channels);
  }

  method Offer(env: Env, inventory: Value, device: string, vendor: string, index: nat, isNvr: bool, tried: seq<nat>,
               channels: Value)
    returns (offers: seq<Description>)
    ensures offers == Offers(env, inventory, device, vendor, index, isNvr, tried, |tried|, channels)
  {
    offers := [];
    for k := 0 to |tried|
      invariant offers == Offers(env, inventory, device, vendor, index, isNvr, tried, k, channels)
    {
      var context := BuildProbeContext(env, inventory, index, tried[k], if isNvr then Some(channels) else None);
      if context.Ok? {
        offers := offers + [Description(device, vendor, tried[k], isNvr)];
      }
    }
  }

  lemma SnapshotReadsLiveRoot(env: Env, inventory: Value)
    requires LiveRoot(env.loads, inventory).Some?
    ensures Channels.SnapshotRoot(env.loads, inventory) == LiveRoot(env.loads, inventory)
  {
    NumeralOf1001();
  }

  // ---- What is described can be played ----

  lemma {:induction false} OffersBuild(env: Env, inventory: Value, device: string, vendor: string, index: nat, isNvr: bool,
                                       tried: seq<nat>, n: nat, channels: Value, d: Description)
    requires n <= |tried| && d in Offers(env, inventory, device, vendor, index, isNvr, tried, n, channels)
    ensures d.vendor == vendor && d.isNvr == isNvr
    ensures BuildContext(env, inventory, index, d.channel, if isNvr then Some(channels) else None).Ok?
  {
    if d in Offers(env, inventory, device, vendor, index, isNvr, tried, n - 1, channels) {
      OffersBuild(env, inventory, device, vendor, index, isNvr, tried, n - 1, channels, d);
    }
  }

  /** The checks of the row with the description's vendor id pass on the channel payload fetched for the playback. */
  predicate StillPasses(env: Env, payload: Value, d: Description, channels: Value) {
    && LiveRows(env, payload).Ok?
    && var matches := Matches(env, LiveRows(env, payload).value, d.vendor);
       |matches| == 1 && env.vet(matches[0].1, d.channel, Some(channels))
  }

  /** Of a playback's channel payload only those checks look, and for recorders only. */
  lemma OnlyChecksReadChannels(env: Env, payload: Value, d: Description, channels: Value, fetched: Value)
    requires PlaybackContext(env, payload, d, channels).Ok?
    ensures PlaybackContext(env, payload, d, fetched).Ok? <==> (d.isNvr ==> StillPasses(env, payload, d, fetched))
    ensures PlaybackContext(env, payload, d, fetched).Ok? ==>
              PlaybackContext(env, payload, d, fetched) == PlaybackContext(env, payload, d, channels)
  {
    PlaybackIsOfTheRow(env, payload, d, channels);
    PlaybackIsOfTheRow(env, payload, d, fetched);
  }

  lemma DescribedOne(env: Env, inventory: Value, rows: seq<Row>, summaries: seq<(nat, Channels.Summary)>,
                     s: Selected, channels: Value, d: Description)
    requires d in DescribeOne(env, inventory, rows, summaries, s, channels) && LiveRows(env, inventory) == Ok(rows)
    ensures d.vendor != "" && PlaybackContext(env, inventory, d, channels).Ok?
  {
    var (index, row) := Matches(env, rows, s.uid.s)[0];
    var tried := TriedChannels(row, summaries, index);
    OffersBuild(env, inventory, s.device, s.uid.s, index, LooksLikeNvr(row), tried, |tried|, channels, d);
  }

  /**
   From any later inventory with the same rows in any order, and a channel payload fetched anew, a described camera
   gets a playback context if and only if it is no recorder's or its row still passes the checks on that payload; the
   context is then the one that the first payload would have given, and names the described device.
   */
  lemma DescribedCamerasPlay(env: Env, inventory: Value, later: Value, channels: Value, fetched: Value,
                             selected: seq<Selected>, d: Description)
    requires Described(env, inventory, channels, selected).Ok? && d in Described(env, inventory, channels, selected).value
    requires LiveRows(env, later).Ok? && multiset(LiveRows(env, inventory).value) == multiset(LiveRows(env, later).value)
    ensures PlaybackContext(env, later, d, fetched).Ok? <==> (d.isNvr ==> StillPasses(env, later, d, fetched))
    ensures PlaybackContext(env, later, d, fetched).Ok? ==>
              && PlaybackContext(env, later, d, fetched) == PlaybackContext(env, later, d, channels)
              && exists i: nat :: Names(env, LiveRows(env, later).value, d, PlaybackContext(env, later, d, fetched).value, i)
  {
    var rows := LiveRows(env, inventory).value;
    var summaries := Channels.NvrChannels(env.loads, channels, Channels.SnapshotOf(env.loads, rows).picks);
    var k := InFlatMap(selected, Describer(env, inventory, rows, summaries, channels), d);
    DescribedOne(env, inventory, rows, summaries, selected[k], channels, d);
    ContextIgnoresOrder(env, inventory, later, d, channels);
    OnlyChecksReadChannels(env, later, d, channels, fetched);
    if PlaybackContext(env, later, d, fetched).Ok? {
      ContextNamesTheDevice(env, later, d, fetched);
    }
  }
}
