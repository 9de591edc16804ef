/**
 The vendor's camera inventory and the four traversals that number its rows. A payload is decoded
 JSON; a JSON object's key order is never looked at. Decoding text inside a payload is a given function.
 */
module MeariInventory {
  import opened Wrappers

  datatype Value =
    | Null
    | Bool(b: bool)
    | Int(n: int)
    | Float(x: real)
    | Str(s: string)
    | List(items: seq<Value>)
    | Map(fields: Object)

  type Object = map<string, Value>

  /** `json.loads`, with None for a decoding error. */
  type Loads = string -> Option<Value>

  const GROUPS: seq<string> := [
    "doorbell", "snap", "voiceBell", "fourthGeneration", "light", "nvr",
    "ipc", "chime", "nvr-neutral", "base", "pictureDoorBell", "jingle",
    "cellular", "locator", "lock", "jingle-bridge", "waterFountain", "base-station"]

  const MAX_DEVICES := 512
  const MAX_NVRS := 32
  const SESSION_TEXT := 512_000
  const CONTEXT_TEXT := 2_000_000

  datatype Error =
    | Unavailable | Limit | Invalid | NotFound | Changed | Unsupported | BadChannel | BadText | BadCode | Rejected | Unrecognized

  // ---- Reading values ----

  function Get(fields: Object, key: string): Value {
    if key in fields then fields[key] else Null
  }

  /** `_object`, whose text limit differs between the modules. */
  function AsObject(loads: Loads, limit: nat, v: Value): Object {
    if v.Map? then v.fields
    else if v.Str? && |v.s| <= limit then
      match loads(v.s)
      case Some(Map(fields)) => fields
      case _ => map[]
    else map[]
  }

  predicate AllDigits(s: string) {
    forall i | 0 <= i < |s| :: '0' <= s[i] <= '9'
  }

  function Numeral(s: string): nat
    requires AllDigits(s)
  {
    if s == "" then 0
    else Numeral(s[..|s| - 1]) * 10 + (s[|s| - 1] - '0') as nat
  }

  /** `_code` and `_number`: a whole number or a short decimal numeral, up to a maximum. */
  function NumberOf(v: Value, digits: nat, maximum: nat): Option<nat> {
    match v
    case Int(n) => if 0 <= n <= maximum then Some(n) else None
    case Str(s) =>
      if 1 <= |s| <= digits && AllDigits(s) && Numeral(s) <= maximum then Some(Numeral(s)) else None
    case _ => None
  }

  function Code(v: Value): Option<nat> {
    NumberOf(v, 6, 999_999)
  }

  function Integer(v: Value): Option<nat> {
    if Code(v).Some? && Code(v).value <= 65535 then Code(v) else None
  }

  function Number(v: Value, maximum: nat): Option<nat> {
    NumberOf(v, 19, maximum)
  }

  /** Python's `str(v) == text`, for a text that is a plain numeral. */
  predicate Shows(v: Value, n: int, text: string) {
    v == Int(n) || v == Str(text)
  }

  // ---- Rows ----

  datatype Row = Row(group: string, fields: Object)

  predicate HasGroup(root: Object) {
    exists g | 0 <= g < |GROUPS| :: Get(root, GROUPS[g]).List?
  }

  function RootOf(loads: Loads, limit: nat, raw: Object): Object {
    if HasGroup(raw) then raw else AsObject(loads, limit, Get(raw, "result"))
  }

  function GroupItems(root: Object, g: nat): seq<Value>
    requires g < |GROUPS|
  {
    var v := Get(root, GROUPS[g]);
    if v.List? then v.items else []
  }

  /** The objects among the first `n` items of a group. */
  function RowsOf(group: string, items: seq<Value>, n: nat): seq<Row>
    requires n <= |items|
  {
    if n == 0 then []
    else RowsOf(group, items, n - 1) + if items[n - 1].Map? then [Row(group, items[n - 1].fields)] else []
  }

  /** The rows of the first `g` groups, in the fixed order of the groups. */
  function RowsUpTo(root: Object, g: nat): seq<Row>
    requires g <= |GROUPS|
  {
    if g == 0 then [] else RowsUpTo(root, g - 1) + RowsOf(GROUPS[g - 1], GroupItems(root, g - 1), |GroupItems(root, g - 1)|)
  }

  /** The inventory's rows; the row at position `i` has index `i + 1`. */
  function AllRows(root: Object): seq<Row> {
    RowsUpTo(root, |GROUPS|)
  }

  /** The rows seen once `n` items of group `g` are done. */
  function Seen(root: Object, g: nat, n: nat): seq<Row>
    requires g < |GROUPS| && n <= |GroupItems(root, g)|
  {
    RowsUpTo(root, g) + RowsOf(GROUPS[g], GroupItems(root, g), n)
  }

  lemma SeenNext(root: Object, g: nat, n: nat)
    requires g < |GROUPS| && n < |GroupItems(root, g)|
    ensures var item := GroupItems(root, g)[n];
            Seen(root, g, n + 1) == Seen(root, g, n) + if item.Map? then [Row(GROUPS[g], item.fields)] else []
  {
  }

  lemma SeenEnds(root: Object, g: nat)
    requires g < |GROUPS|
    ensures Seen(root, g, 0) == RowsUpTo(root, g)
    ensures Seen(root, g, |GroupItems(root, g)|) == RowsUpTo(root, g + 1)
  {
  }

  /** What has been seen is a prefix of the inventory. */
  lemma {:induction false} PrefixOfAll(root: Object, g: nat)
    requires g <= |GROUPS|
    ensures RowsUpTo(root, g) <= AllRows(root)
    decreases |GROUPS| - g
  {
    if g < |GROUPS| {
      PrefixOfAll(root, g + 1);
    }
  }

  lemma {:induction false} SeenGrows(root: Object, g: nat, n: nat)
    requires g < |GROUPS| && n <= |GroupItems(root, g)|
    ensures Seen(root, g, n) <= RowsUpTo(root, g + 1)
    decreases |GroupItems(root, g)| - n
  {
    if n < |GroupItems(root, g)| {
      SeenGrows(root, g, n + 1);
      SeenNext(root, g, n);
    } else {
      SeenEnds(root, g);
    }
  }

  // ---- _devices ----

  function Numbered(rows: seq<Row>): (r: seq<(nat, Row)>)
    ensures |r| == |rows| && forall i | 0 <= i < |rows| :: r[i] == (i + 1, rows[i])
  {
    seq(|rows|, i requires 0 <= i < |rows| => (i + 1, rows[i]))
  }

  /** The root that `_devices` reads, if the payload is a good answer. */
  function LiveRoot(loads: Loads, payload: Value): Option<Object> {
    var raw := AsObject(loads, SESSION_TEXT, payload);
    var root := RootOf(loads, SESSION_TEXT, raw);
    if Shows(Get(raw, "resultCode"), 1001, "1001") && HasGroup(root) then Some(root) else None
  }

  method Devices(loads: Loads, payload: Value) returns (r: Result<seq<(nat, Row)>, Error>)
    ensures LiveRoot(loads, payload).None? ==> r == Err(Unavailable)
    ensures LiveRoot(loads, payload).Some? ==>
              var all := AllRows(LiveRoot(loads, payload).value);
              r == if |all| > MAX_DEVICES then Err(Limit) else Ok(Numbered(all))
  {
    var live := LiveRoot(loads, payload);
    if live.None? { return Err(Unavailable); }
    var root, rows := live.value, [];
    for g := 0 to |GROUPS|
      invariant rows == Numbered(RowsUpTo(root, g)) && |rows| <= MAX_DEVICES
    {
      rows := DevicesOfGroup(root, g, rows);
      if |rows| > MAX_DEVICES {
        PrefixOfAll(root, g + 1);
        return Err(Limit);
      }
    }
    return Ok(rows);
  }

  /** One group; the walk stops as soon as the limit is passed, which then shows in the number of rows. */
  method DevicesOfGroup(root: Object, g: nat, before: seq<(nat, Row)>) returns (rows: seq<(nat, Row)>)
    requires g < |GROUPS| && before == Numbered(RowsUpTo(root, g)) && |before| <= MAX_DEVICES
    ensures if |RowsUpTo(root, g + 1)| > MAX_DEVICES then |rows| == MAX_DEVICES + 1 else rows == Numbered(RowsUpTo(root, g + 1))
  {
    rows := before;
    var items := GroupItems(root, g);
    SeenEnds(root, g);
    for i := 0 to |items|
      invariant rows == Numbered(Seen(root, g, i)) && |rows| <= MAX_DEVICES
    {
      SeenNext(root, g, i);
      if items[i].Map? {
        rows := rows + [(|rows| + 1, Row(GROUPS[g], items[i].fields))];
        if |rows| > MAX_DEVICES {
          SeenGrows(root, g, i + 1);
          return;
        }
      }
    }
  }

  // ---- _selected_device ----

  function ContextRoot(loads: Loads, payload: Value): Option<Object> {
    var raw := AsObject(loads, CONTEXT_TEXT, payload);
    var root := RootOf(loads, CONTEXT_TEXT, raw);
    if Number(Get(raw, "resultCode"), 65535) == Some(1001) && HasGroup(root) then Some(root) else None
  }

  method SelectedDevice(loads: Loads, payload: Value, index: nat) returns (r: Result<Row, Error>)
    ensures ContextRoot(loads, payload).None? ==> r == Err(Invalid)
    ensures ContextRoot(loads, payload).Some? ==>
              var all := AllRows(ContextRoot(loads, payload).value);
              r == if 1 <= index <= |all| then Ok(all[index - 1]) else Err(NotFound)
  {
    var context := ContextRoot(loads, payload);
    if context.None? { return Err(Invalid); }
    var root, seen := context.value, 0;
    for g := 0 to |GROUPS|
      invariant seen == |RowsUpTo(root, g)| && (index == 0 || seen < index)
    {
      var found: Option<Row>;
      seen, found := SelectInGroup(root, g, index, seen);
      if found.Some? {
        PrefixOfAll(root, g + 1);
        return Ok(found.value);
      }
    }
    return Err(NotFound);
  }

  method SelectInGroup(root: Object, g: nat, index: nat, before: nat) returns (seen: nat, found: Option<Row>)
    requires g < |GROUPS| && before == |RowsUpTo(root, g)| && (index == 0 || before < index)
    ensures var rows := RowsUpTo(root, g + 1);
            if 1 <= index <= |rows| then found == Some(rows[index - 1]) else found == None && seen == |rows|
  {
    seen := before;
    var items := GroupItems(root, g);
    SeenEnds(root, g);
    for i := 0 to |items|
      invariant seen == |Seen(root, g, i)| && (index == 0 || seen < index)
    {
      SeenNext(root, g, i);
      if items[i].Map? {
        seen := seen + 1;
        if seen == index {
          SeenGrows(root, g, i + 1);
          assert Seen(root, g, i + 1)[index - 1] == RowsUpTo(root, g + 1)[index - 1];
          return seen, Some(Row(GROUPS[g], items[i].fields));
        }
      }
    }
    found := None;
  }

  // ---- summarize_inventory ----

  datatype Entry = Entry(index: nat, category: string)

  datatype Summary = Summary(total: nat, counts: map<string, nat>, rows: seq<Entry>, truncated: bool)

  function Min(a: nat, b: nat): nat {
    if a <= b then a else b
  }

  function Listed(rows: seq<Row>): (r: seq<Entry>)
    ensures |r| == Min(|rows|, MAX_DEVICES) && forall i | 0 <= i < |r| :: r[i] == Entry(i + 1, rows[i].group)
  {
    seq(Min(|rows|, MAX_DEVICES), i requires 0 <= i < |rows| => Entry(i + 1, rows[i].group))
  }

  /** The number of objects in each of the first `g` groups that are lists. */
  function Counts(root: Object, g: nat): map<string, nat>
    requires g <= |GROUPS|
  {
    if g == 0 then map[]
    else if Get(root, GROUPS[g - 1]).List?
    then Counts(root, g - 1)[GROUPS[g - 1] := |RowsOf(GROUPS[g - 1], GroupItems(root, g - 1), |GroupItems(root, g - 1)|)|]
    else Counts(root, g - 1)
  }

  function SummaryRoot(loads: Loads, payload: Value): Result<Object, Error> {
    var raw := AsObject(loads, SESSION_TEXT, payload);
    var root := RootOf(loads, SESSION_TEXT, raw);
    var code := Code(Get(raw, "resultCode"));
    if code.None? then Err(BadCode)
    else if code != Some(1001) then Err(Rejected)
    else if !HasGroup(root) then Err(Unrecognized)
    else Ok(root)
  }

  method SummarizeInventory(loads: Loads, payload: Value) returns (r: Result<Summary, Error>)
    ensures r.Err? <==> SummaryRoot(loads, payload).Err?
    ensures r.Err? ==> r.error == SummaryRoot(loads, payload).error
    ensures r.Ok? ==>
              var root := SummaryRoot(loads, payload).value;
              r.value == Summary(|AllRows(root)|, Counts(root, |GROUPS|), Listed(AllRows(root)), |AllRows(root)| > MAX_DEVICES)
  {
    var found := SummaryRoot(loads, payload);
    if found.Err? { return Err(found.error); }
    var root := found.value;
    var rows, total, counts := [], 0, map[];
    for g := 0 to |GROUPS|
      invariant total == |RowsUpTo(root, g)| && rows == Listed(RowsUpTo(root, g)) && counts == Counts(root, g)
    {
      if Get(root, GROUPS[g]).List? {
        var n;
        rows, n := SummarizeGroup(root, g, rows, total);
        counts := counts[GROUPS[g] := n];
        total := total + n;
      }
    }
    return Ok(Summary(total, counts, rows, total > |rows|));
  }

  /** The rows of one group, and how many there are. */
  method SummarizeGroup(root: Object, g: nat, before: seq<Entry>, total: nat) returns (rows: seq<Entry>, n: nat)
    requires g < |GROUPS| && total == |RowsUpTo(root, g)| && before == Listed(RowsUpTo(root, g))
    ensures rows == Listed(RowsUpTo(root, g + 1))
    ensures n == |RowsOf(GROUPS[g], GroupItems(root, g), |GroupItems(root, g)|)|
  {
    rows, n := before, 0;
    var items := GroupItems(root, g);
    SeenEnds(root, g);
    for i := 0 to |items|
      invariant n == |RowsOf(GROUPS[g], items, i)| && rows == Listed(Seen(root, g, i))
    {
      SeenNext(root, g, i);
      if items[i].Map? {
        n := n + 1;
        if |rows| < MAX_DEVICES {
          rows := rows + [Entry(|rows| + 1, GROUPS[g])];
        }
      }
    }
  }

  // ---- The numbers agree ----

  /** What `_devices` reads, every other traversal reads too, and from the same root. */
  lemma LiveRootIsEveryRoot(loads: Loads, payload: Value)
    requires LiveRoot(loads, payload).Some?
    ensures ContextRoot(loads, payload) == LiveRoot(loads, payload)
    ensures SummaryRoot(loads, payload) == Ok(LiveRoot(loads, payload).value)
  {
    NumeralOf1001();
  }

  lemma NumeralOf1001()
    ensures AllDigits("1001") && Numeral("1001") == 1001
  {
    var s := "1001";
    assert s[..3] == "100" && "100"[..2] == "10" && "10"[..1] == "1" && "1"[..0] == "";
    assert Numeral("1") == 1 && Numeral("10") == 10 && Numeral("100") == 100;
  }

  /** The summary's total is the sum of its category counts. */
  function Sum(counts: map<string, nat>, g: nat): nat
    requires g <= |GROUPS|
  {
    if g == 0 then 0 else Sum(counts, g - 1) + if GROUPS[g - 1] in counts then counts[GROUPS[g - 1]] else 0
  }

  lemma GroupsAreDistinct(j: nat, k: nat)
    requires j < k < |GROUPS|
    ensures GROUPS[j] != GROUPS[k]
  {
  }

  lemma {:induction false} SumDependsOnItsGroups(a: map<string, nat>, b: map<string, nat>, g: nat)
    requires g <= |GROUPS|
    requires forall k | 0 <= k < g :: (GROUPS[k] in a <==> GROUPS[k] in b) && (GROUPS[k] in a ==> a[GROUPS[k]] == b[GROUPS[k]])
    ensures Sum(a, g) == Sum(b, g)
  {
    if g > 0 {
      SumDependsOnItsGroups(a, b, g - 1);
    }
  }

  lemma {:induction false} CategoryCountsAddUp(root: Object, g: nat)
    requires g <= |GROUPS|
    ensures |RowsUpTo(root, g)| == Sum(Counts(root, g), g)
    ensures forall k | g <= k < |GROUPS| :: GROUPS[k] !in Counts(root, g)
  {
    if g > 0 {
      CategoryCountsAddUp(root, g - 1);
      forall k | 0 <= k < |GROUPS| && k != g - 1 ensures GROUPS[k] != GROUPS[g - 1] {
        if k < g - 1 { GroupsAreDistinct(k, g - 1); } else { GroupsAreDistinct(g - 1, k); }
      }
      SumDependsOnItsGroups(Counts(root, g), Counts(root, g - 1), g - 1);
    }
  }
}
