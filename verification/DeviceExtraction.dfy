/**
 Extraction of the device list from an arbitrarily nested binary-protocol payload: a preorder walk
 in which a table name holds for everything below it, and rows of one uid are combined.
 */
module DeviceExtraction {
  import opened Wrappers
  import opened Sorting
  import Text

  /** A JSON value; a mapping keeps its keys and values in insertion order. */
  datatype Node =
    | Null
    | Truth(truth: bool)
    | Whole(int)
    | Fraction(real)
    | Str(text: string)
    | List(children: seq<Node>)
    | Map(keys: seq<string>, children: seq<Node>)

  /** Python's `str()` of a value that is not a string, `int()` (`None` where it raises) and `str.lower`. */
  datatype Library = Library(show: Node -> string, toInt: Node -> Option<int>, lower: string -> string)

  function Children(n: Node): seq<Node> {
    if n.List? || n.Map? then n.children else []
  }

  function Find(keys: seq<string>, children: seq<Node>, key: string): Option<Node> {
    if keys == [] || children == [] then None
    else if keys[0] == key then Some(children[0])
    else Find(keys[1..], children[1..], key)
  }

  /** `value.get(key)`. */
  function Get(row: Node, key: string): Node
    requires row.Map?
  {
    Find(row.keys, row.children, key).GetOr(Null)
  }

  function Filled(value: Node): bool {
    value != Null && value != Str("")
  }

  function Show(value: Node, lib: Library): string {
    if value.Str? then value.text else lib.show(value)
  }

  function FirstText(row: Node, keys: seq<string>, lib: Library): string
    requires row.Map?
  {
    if keys == [] then ""
    else if Filled(Get(row, keys[0])) then Text.Strip(Show(Get(row, keys[0]), lib))
    else FirstText(row, keys[1..], lib)
  }

  function SafeInt(value: Node, lib: Library): Option<int> {
    if value.Null? then None else lib.toInt(value)
  }

  function ParseOnline(value: Node, lib: Library): Option<bool> {
    match value
    case Truth(b) => Some(b)
    case Whole(n) => if n == 0 then Some(false) else if n == 1 then Some(true) else None
    case Str(s) =>
      var word := lib.lower(Text.Strip(s));
      if word in {"1", "true", "online", "connected"} then Some(true)
      else if word in {"0", "false", "offline", "disconnected"} then Some(false)
      else None
    case _ => None
  }

  const ID_KEYS := ["deviceId", "deviceID", "deviceUid", "deviceUUID", "deviceUuid", "uuid", "uid"]
  const MARKERS :=
    ["uid", "extAddr", "deviceName", "devName", "deviceType", "devType", "model", "modelName", "productId", "productID"]
  const ROOM_ID_KEYS := ["roomId", "roomID"]
  const DEVICE_TABLES := {"device", "devices", "devicelist", "privacydevice", "privacydevices"}

  /** Keys of the plain text fields: name, model, types, parent, hardware uid, addresses and class name. */
  const TEXT_KEYS := [
    ["deviceName", "devName", "name", "nickName", "nickname"],
    ["model", "modelName", "modelId", "modelID", "productName", "productId", "productID"],
    ["deviceType", "devType", "type", "category", "deviceCategory"],
    ["subDeviceType", "subDevType"],
    ["parentUid", "parentId", "parentID", "gatewayUid", "hubUid"],
    ["uid"],
    ["extAddr", "extAddress"],
    ["statusId", "statusID"],
    ["appDeviceId", "appDeviceID"],
    ["gatewayId", "gatewayID"],
    ["className"]]

  const INT_KEYS := ["value1", "value2", "value3", "value4", "deviceFlag"]

  datatype Device = Device(
    uid: string,
    texts: seq<string>,
    room: string,
    uiModel: string,
    ints: seq<Option<int>>,
    online: Option<bool>,
    classId: Option<int>,
    endpoint: int,
    properties: Node)

  // ---- One row ----

  type Rooms = map<string, string>

  function RoomOf(row: Node, rooms: Rooms, lib: Library): string
    requires row.Map?
  {
    var name := FirstText(row, ["roomName", "room"], lib);
    var id := FirstText(row, ROOM_ID_KEYS, lib);
    if name != "" then name else if id != "" && id in rooms then rooms[id] else ""
  }

  function OnlineOf(row: Node): Node
    requires row.Map?
  {
    var online := Find(row.keys, row.children, "online");
    var isOnline := Find(row.keys, row.children, "isOnline");
    if online.Some? then online.value
    else if isOnline.Some? then isOnline.value
    else Get(row, "connected")
  }

  function Candidate(row: Node, rooms: Rooms, lib: Library): Device
    requires row.Map?
  {
    var ui := Get(row, "ui");
    Device(FirstText(row, ID_KEYS, lib),
           seq(|TEXT_KEYS|, i requires 0 <= i < |TEXT_KEYS| => FirstText(row, TEXT_KEYS[i], lib)),
           RoomOf(row, rooms, lib),
           if ui.Map? then Show(Find(ui.keys, ui.children, "model").GetOr(Str("")), lib) else "",
           seq(|INT_KEYS|, i requires 0 <= i < |INT_KEYS| => SafeInt(Get(row, INT_KEYS[i]), lib)),
           ParseOnline(OnlineOf(row), lib),
           SafeInt(Get(row, "classId"), lib),
           SafeInt(Get(row, "endpoint"), lib).GetOr(0),
           if Get(row, "properties").Map? then Get(row, "properties") else Map([], []))
  }

  predicate IsDeviceRow(row: Node, table: Option<string>, lib: Library)
    requires row.Map?
  {
    && |FirstText(row, ID_KEYS, lib)| >= 6
    && (exists k | k in MARKERS :: Filled(Get(row, k)))
    && (table.None? || table.value in DEVICE_TABLES)
  }

  function WithoutUnderscores(s: string): string {
    if s == "" then "" else (if s[0] == '_' then "" else [s[0]]) + WithoutUnderscores(s[1..])
  }

  /** The table name that a node states itself. */
  function OwnTable(n: Node, lib: Library): Option<string> {
    if n.Map? && Get(n, "tableName").Str? && Text.Strip(Get(n, "tableName").text) != ""
    then Some(WithoutUnderscores(lib.lower(Text.Strip(Get(n, "tableName").text))))
    else None
  }

  function TableFor(n: Node, inherited: Option<string>, lib: Library): Option<string> {
    if OwnTable(n, lib).Some? then OwnTable(n, lib) else inherited
  }

  function RowOf(n: Node, table: Option<string>, rooms: Rooms, lib: Library): seq<Device> {
    if n.Map? && IsDeviceRow(n, table, lib) then [Candidate(n, rooms, lib)] else []
  }

  // ---- The recursive walk ----

  /** The qualifying rows that `visit(n, table)` meets. */
  function Rows(n: Node, table: Option<string>, rooms: Rooms, lib: Library): seq<Device>
    decreases n, 1
  {
    var own := TableFor(n, table, lib);
    RowOf(n, own, rooms, lib) + if n.List? || n.Map? then RowsOfAll(n.children, own, rooms, lib) else []
  }

  function RowsOfAll(ns: seq<Node>, table: Option<string>, rooms: Rooms, lib: Library): seq<Device>
    decreases ns, 0
  {
    if ns == [] then [] else Rows(ns[0], table, rooms, lib) + RowsOfAll(ns[1..], table, rooms, lib)
  }

  /** `collect_room_names`. */
  function CollectRooms(n: Node, rooms: Rooms, lib: Library): Rooms
    decreases n, 1
  {
    var id := if n.Map? then FirstText(n, ROOM_ID_KEYS, lib) else "";
    var name := if n.Map? then FirstText(n, ["roomName"], lib) else "";
    var added := if id != "" && name != "" then rooms[id := name] else rooms;
    if n.List? || n.Map? then CollectAllRooms(n.children, added, lib) else added
  }

  function CollectAllRooms(ns: seq<Node>, rooms: Rooms, lib: Library): Rooms
    decreases ns, 0
  {
    if ns == [] then rooms else CollectAllRooms(ns[1..], CollectRooms(ns[0], rooms, lib), lib)
  }

  // ---- Combining rows ----

  function NonZero(n: Option<int>): bool {
    n.Some? && n.value != 0
  }

  function Combine(previous: Device, candidate: Device): Device
  {
    Device(previous.uid,
           seq(|candidate.texts|, i requires 0 <= i < |candidate.texts| =>
             if candidate.texts[i] == "" && i < |previous.texts| then previous.texts[i] else candidate.texts[i]),
           if candidate.room != "" then candidate.room else previous.room,
           if candidate.uiModel != "" then candidate.uiModel else previous.uiModel,
           seq(|candidate.ints|, i requires 0 <= i < |candidate.ints| =>
             if candidate.ints[i].None? && i < |previous.ints| then previous.ints[i] else candidate.ints[i]),
           if candidate.online.Some? then candidate.online else previous.online,
           if NonZero(candidate.classId) then candidate.classId else previous.classId,
           if candidate.endpoint != 0 then candidate.endpoint else previous.endpoint,
           if candidate.properties != Map([], []) then candidate.properties else previous.properties)
  }

  type Devices = map<string, Device>

  predicate Keyed(devices: Devices) {
    forall u | u in devices :: devices[u].uid == u
  }

  function Store(devices: Devices, d: Device): Devices {
    devices[d.uid := if d.uid in devices then Combine(devices[d.uid], d) else d]
  }

  function StoreAll(devices: Devices, rows: seq<Device>): Devices
    decreases |rows|
  {
    if rows == [] then devices else Store(StoreAll(devices, rows[..|rows| - 1]), rows[|rows| - 1])
  }

  lemma {:induction false} StoreConcat(devices: Devices, rows: seq<Device>, more: seq<Device>)
    ensures StoreAll(devices, rows + more) == StoreAll(StoreAll(devices, rows), more)
    decreases |more|
  {
    if more == [] {
      assert rows + more == rows;
    } else {
      var last := |more| - 1;
      assert (rows + more)[|rows + more| - 1] == more[last];
      assert (rows + more)[..|rows + more| - 1] == rows + more[..last];
      StoreConcat(devices, rows, more[..last]);
    }
  }

  // ---- The function of the source ----

  class Extractor {
    var devices: Devices
    const rooms: Rooms
    const lib: Library

    constructor (rooms: Rooms, lib: Library)
      ensures this.rooms == rooms && this.lib == lib && devices == map[]
    {
      this.rooms, this.lib, devices := rooms, lib, map[];
    }

    /** The nested function `visit`. */
    method Visit(n: Node, table: Option<string>)
      modifies this
      ensures devices == StoreAll(old(devices), Rows(n, table, rooms, lib))
      decreases n, 1
    {
      var own := TableFor(n, table, lib);
      if n.Map? && IsDeviceRow(n, own, lib) {
        devices := Store(devices, Candidate(n, rooms, lib));
      }
      StoreAtMostOne(old(devices), RowOf(n, own, rooms, lib));
      if n.List? || n.Map? {
        VisitAll(n.children, own);
        StoreConcat(old(devices), RowOf(n, own, rooms, lib), RowsOfAll(n.children, own, rooms, lib));
      } else {
        assert Rows(n, table, rooms, lib) == [];
      }
    }

    method VisitAll(ns: seq<Node>, table: Option<string>)
      modifies this
      ensures devices == StoreAll(old(devices), RowsOfAll(ns, table, rooms, lib))
      decreases ns, 0
    {
      for i := 0 to |ns|
        invariant devices == StoreAll(old(devices), RowsOfAll(ns[..i], table, rooms, lib))
      {
        Visit(ns[i], table);
        VisitOneMore(old(devices), ns, i, table, rooms, lib);
      }
      assert ns[..|ns|] == ns;
    }
  }

  lemma VisitOneMore(devices: Devices, ns: seq<Node>, i: nat, table: Option<string>, rooms: Rooms, lib: Library)
    requires i < |ns|
    ensures StoreAll(devices, RowsOfAll(ns[..i + 1], table, rooms, lib))
         == StoreAll(StoreAll(devices, RowsOfAll(ns[..i], table, rooms, lib)), Rows(ns[i], table, rooms, lib))
  {
    assert ns[..i + 1] == ns[..i] + [ns[i]];
    RowsOfAllSnoc(ns[..i], ns[i], table, rooms, lib);
    StoreConcat(devices, RowsOfAll(ns[..i], table, rooms, lib), Rows(ns[i], table, rooms, lib));
  }

  lemma StoreAtMostOne(devices: Devices, rows: seq<Device>)
    requires |rows| <= 1
    ensures StoreAll(devices, rows) == if rows == [] then devices else Store(devices, rows[0])
  {
  }

  lemma {:induction false} RowsOfAllSnoc(ns: seq<Node>, n: Node, table: Option<string>, rooms: Rooms, lib: Library)
    ensures RowsOfAll(ns + [n], table, rooms, lib) == RowsOfAll(ns, table, rooms, lib) + Rows(n, table, rooms, lib)
    decreases |ns|
  {
    if ns == [] {
      assert [n][1..] == [] && RowsOfAll([], table, rooms, lib) == [];
      assert [] + [n] == [n];
    } else {
      assert (ns + [n])[0] == ns[0] && (ns + [n])[1..] == ns[1..] + [n];
      RowsOfAllSnoc(ns[1..], n, table, rooms, lib);
      var a, b, c := Rows(ns[0], table, rooms, lib), RowsOfAll(ns[1..], table, rooms, lib), Rows(n, table, rooms, lib);
      assert a + (b + c) == (a + b) + c;
    }
  }

  // ---- Sorting by uid ----

  predicate UidBefore(a: Device, b: Device) {
    Before(a.uid, b.uid)
  }

  predicate SortedByUid(ds: seq<Device>) {
    SortedBy(ds, UidBefore)
  }

  /** `sorted(devices.values(), key=uid)`: each stored device once, in strictly increasing uid order. */
  method SortDevices(devices: Devices) returns (out: seq<Device>)
    requires Keyed(devices)
    ensures SortedByUid(out)
    ensures forall d :: d in out <==> d.uid in devices && devices[d.uid] == d
  {
    forall a, b | a in devices.Values && b in devices.Values && a != b ensures UidBefore(a, b) || UidBefore(b, a) {
      BeforeIsTotal(a.uid, b.uid);
    }
    forall a, b, c | UidBefore(a, b) && UidBefore(b, c) ensures UidBefore(a, c) {
      BeforeIsTransitive(a.uid, b.uid, c.uid);
    }
    out := Sort(devices.Values, UidBefore);
  }

  /** The rows of one device, in the order in which they are met. */
  function RowsWith(rows: seq<Device>, uid: string): seq<Device> {
    if rows == [] then []
    else RowsWith(rows[..|rows| - 1], uid) + if rows[|rows| - 1].uid == uid then [rows[|rows| - 1]] else []
  }

  /** Each row combined onto what the rows before it gave. */
  function CombineAll(rows: seq<Device>): Device
    requires rows != []
    decreases |rows|
  {
    if |rows| == 1 then rows[0] else Combine(CombineAll(rows[..|rows| - 1]), rows[|rows| - 1])
  }

  lemma {:induction false} StoredRows(rows: seq<Device>, uid: string)
    ensures uid in StoreAll(map[], rows) <==> RowsWith(rows, uid) != []
    ensures uid in StoreAll(map[], rows) ==> StoreAll(map[], rows)[uid] == CombineAll(RowsWith(rows, uid))
    ensures Keyed(StoreAll(map[], rows))
    decreases |rows|
  {
    if rows != [] {
      var last := rows[|rows| - 1];
      var before := RowsWith(rows[..|rows| - 1], uid);
      StoredRows(rows[..|rows| - 1], uid);
      if last.uid == uid {
        assert (before + [last])[..|before|] == before;
      } else {
        assert RowsWith(rows, uid) == before;
      }
    }
  }

  /** The devices are exactly the combined rows of each uid, sorted by uid. */
  ghost predicate Extracted(payload: Node, lib: Library, out: seq<Device>) {
    && SortedByUid(out)
    && var rows := Rows(payload, None, CollectRooms(payload, map[], lib), lib);
       forall d: Device :: d in out <==> RowsWith(rows, d.uid) != [] && d == CombineAll(RowsWith(rows, d.uid))
  }

  /** `extract_devices`. */
  method ExtractDevices(payload: Node, lib: Library) returns (out: seq<Device>)
    ensures Extracted(payload, lib, out)
  {
    var rooms := CollectRooms(payload, map[], lib);
    var extractor := new Extractor(rooms, lib);
    extractor.Visit(payload, None);
    ghost var rows := Rows(payload, None, rooms, lib);
    StoredRows(rows, "");
    out := SortDevices(extractor.devices);
    forall d: Device ensures d in out <==> RowsWith(rows, d.uid) != [] && d == CombineAll(RowsWith(rows, d.uid)) {
      StoredRows(rows, d.uid);
    }
  }
}
