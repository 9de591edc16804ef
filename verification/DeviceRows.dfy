/** What the recursive walk of DeviceExtraction computes, said without recursion on inherited names. */
module DeviceRows {
  import opened Wrappers
  import opened DeviceExtraction

  /** Child positions from the payload down to a node. */
  type Path = seq<nat>

  function NodeAt(root: Node, path: Path): Option<Node>
    decreases |path|
  {
    if path == [] then Some(root)
    else if path[0] < |Children(root)| then NodeAt(Children(root)[path[0]], path[1..])
    else None
  }

  /** The table name of the nearest node, from `path` upwards, that states one. */
  function NearestTable(root: Node, path: Path, lib: Library): Option<string>
    decreases |path|
  {
    var n := NodeAt(root, path);
    if n.Some? && OwnTable(n.value, lib).Some? then OwnTable(n.value, lib)
    else if path == [] then None
    else NearestTable(root, path[..|path| - 1], lib)
  }

  /** All paths below `at`, each node before its children. */
  function Preorder(n: Node, at: Path): seq<Path>
    decreases n, 1
  {
    [at] + if n.List? || n.Map? then PreorderAll(n.children, at, 0) else []
  }

  function PreorderAll(ns: seq<Node>, at: Path, i: nat): seq<Path>
    decreases ns, 0
  {
    if ns == [] then [] else Preorder(ns[0], at + [i]) + PreorderAll(ns[1..], at, i + 1)
  }

  function RowAt(root: Node, path: Path, rooms: Rooms, lib: Library): seq<Device> {
    var n := NodeAt(root, path);
    if n.Some? then RowOf(n.value, NearestTable(root, path, lib), rooms, lib) else []
  }

  function Gather<P, T>(ps: seq<P>, part: P -> seq<T>): seq<T> {
    if ps == [] then [] else part(ps[0]) + Gather(ps[1..], part)
  }

  lemma {:induction false} GatherConcat<P, T>(ps: seq<P>, qs: seq<P>, part: P -> seq<T>)
    ensures Gather(ps + qs, part) == Gather(ps, part) + Gather(qs, part)
  {
    if ps == [] {
      assert ps + qs == qs;
    } else {
      assert (ps + qs)[0] == ps[0] && (ps + qs)[1..] == ps[1..] + qs;
      GatherConcat(ps[1..], qs, part);
    }
  }

  function RowFinder(root: Node, rooms: Rooms, lib: Library): Path -> seq<Device> {
    (path: Path) => RowAt(root, path, rooms, lib)
  }

  function RowsAt(root: Node, paths: seq<Path>, rooms: Rooms, lib: Library): seq<Device> {
    Gather(paths, RowFinder(root, rooms, lib))
  }

  lemma {:induction false} NodeAtChild(root: Node, path: Path, i: nat)
    requires NodeAt(root, path).Some?
    ensures NodeAt(root, path + [i])
         == if i < |Children(NodeAt(root, path).value)| then Some(Children(NodeAt(root, path).value)[i]) else None
    decreases |path|
  {
    if path == [] {
      assert (path + [i])[1..] == [];
    } else {
      assert (path + [i])[0] == path[0] && (path + [i])[1..] == path[1..] + [i];
      NodeAtChild(Children(root)[path[0]], path[1..], i);
    }
  }

  lemma {:induction false} WalkFrom(root: Node, at: Path, n: Node, inherited: Option<string>, rooms: Rooms, lib: Library)
    requires NodeAt(root, at) == Some(n)
    requires inherited == if at == [] then None else NearestTable(root, at[..|at| - 1], lib)
    ensures Rows(n, inherited, rooms, lib) == RowsAt(root, Preorder(n, at), rooms, lib)
    decreases n, 1
  {
    var own := TableFor(n, inherited, lib);
    assert own == NearestTable(root, at, lib);
    if n.List? || n.Map? {
      WalkChildren(root, at, n.children, 0, rooms, lib);
      GatherConcat([at], PreorderAll(n.children, at, 0), RowFinder(root, rooms, lib));
    }
    var part := RowFinder(root, rooms, lib);
    assert part(at) == RowAt(root, at, rooms, lib) == RowOf(n, own, rooms, lib);
    assert [at][1..] == [] && Gather([at], part) == part(at) + Gather([at][1..], part);
  }

  lemma {:induction false} WalkChildren(root: Node, at: Path, ns: seq<Node>, i: nat, rooms: Rooms, lib: Library)
    requires NodeAt(root, at).Some? && i + |ns| == |Children(NodeAt(root, at).value)|
    requires ns == Children(NodeAt(root, at).value)[i..]
    ensures RowsOfAll(ns, NearestTable(root, at, lib), rooms, lib) == RowsAt(root, PreorderAll(ns, at, i), rooms, lib)
    decreases ns, 0
  {
    if ns != [] {
      NodeAtChild(root, at, i);
      assert (at + [i])[..|at + [i]| - 1] == at;
      WalkFrom(root, at + [i], ns[0], NearestTable(root, at, lib), rooms, lib);
      WalkChildren(root, at, ns[1..], i + 1, rooms, lib);
      GatherConcat(Preorder(ns[0], at + [i]), PreorderAll(ns[1..], at, i + 1), RowFinder(root, rooms, lib));
    }
  }

  /** The walk meets, in preorder, exactly the nodes that qualify under their nearest table name. */
  lemma RowsArePreorderRows(payload: Node, rooms: Rooms, lib: Library)
    ensures Rows(payload, None, rooms, lib) == RowsAt(payload, Preorder(payload, []), rooms, lib)
  {
    WalkFrom(payload, [], payload, None, rooms, lib);
  }

  lemma {:induction false} PreorderReaches(n: Node, at: Path, below: Path)
    requires NodeAt(n, below).Some?
    ensures at + below in Preorder(n, at)
    decreases n, 1
  {
    if below == [] {
      assert at + below == at;
    } else {
      PreorderAllReaches(n.children, at, 0, below);
      assert at + below == at + [0 + below[0]] + below[1..];
    }
  }

  lemma {:induction false} PreorderAllReaches(ns: seq<Node>, at: Path, i: nat, below: Path)
    requires below != [] && below[0] < |ns| && NodeAt(ns[below[0]], below[1..]).Some?
    ensures at + [i + below[0]] + below[1..] in PreorderAll(ns, at, i)
    decreases ns, 0
  {
    if below[0] == 0 {
      PreorderReaches(ns[0], at + [i], below[1..]);
    } else {
      var rest := [below[0] - 1] + below[1..];
      assert rest[1..] == below[1..];
      PreorderAllReaches(ns[1..], at, i + 1, rest);
    }
  }

  /** No node of the payload is passed over. */
  lemma EveryNodeIsVisited(payload: Node, path: Path)
    requires NodeAt(payload, path).Some?
    ensures path in Preorder(payload, [])
  {
    PreorderReaches(payload, [], path);
    assert [] + path == path;
  }

  // ---- Combined fields ----

  predicate Shaped(d: Device) {
    |d.texts| == |TEXT_KEYS| && |d.ints| == |INT_KEYS|
  }

  lemma {:induction false} RowsAreShaped(n: Node, table: Option<string>, rooms: Rooms, lib: Library)
    ensures forall d | d in Rows(n, table, rooms, lib) :: Shaped(d)
    decreases n, 1
  {
    if n.List? || n.Map? {
      RowsOfAllAreShaped(n.children, TableFor(n, table, lib), rooms, lib);
    }
  }

  lemma {:induction false} RowsOfAllAreShaped(ns: seq<Node>, table: Option<string>, rooms: Rooms, lib: Library)
    ensures forall d | d in RowsOfAll(ns, table, rooms, lib) :: Shaped(d)
    decreases ns, 0
  {
    if ns != [] {
      RowsAreShaped(ns[0], table, rooms, lib);
      RowsOfAllAreShaped(ns[1..], table, rooms, lib);
    }
  }

  /** `v` is the value at the last informative row, or at the first row when no later one is informative. */
  ghost predicate IsLastInformative<T(!new)>(v: T, rows: seq<Device>, value: Device -> T, informative: T -> bool) {
    exists i :: LastInformativeIsAt(v, rows, value, informative, i)
  }

  ghost predicate LastInformativeIsAt<T(!new)>(v: T, rows: seq<Device>, value: Device -> T, informative: T -> bool, i: int) {
    && 0 <= i < |rows| && v == value(rows[i])
    && (i > 0 ==> informative(value(rows[i])))
    && forall j | i < j < |rows| :: !informative(value(rows[j]))
  }

  lemma {:induction false} FieldIsLast<T(!new)>(rows: seq<Device>, value: Device -> T, informative: T -> bool)
    requires rows != [] && forall d | d in rows :: Shaped(d)
    requires forall a, b | Shaped(a) && Shaped(b) ::
               value(Combine(a, b)) == if informative(value(b)) then value(b) else value(a)
    ensures Shaped(CombineAll(rows))
    ensures IsLastInformative(value(CombineAll(rows)), rows, value, informative)
    decreases |rows|
  {
    var last := |rows| - 1;
    if last == 0 {
      assert LastInformativeIsAt(value(CombineAll(rows)), rows, value, informative, 0);
    } else {
      var before := rows[..last];
      FieldIsLast(before, value, informative);
      assert rows[last] in rows && CombineAll(rows) == Combine(CombineAll(before), rows[last]);
      if informative(value(rows[last])) {
        assert LastInformativeIsAt(value(CombineAll(rows)), rows, value, informative, last);
      } else {
        var i :| LastInformativeIsAt(value(CombineAll(before)), before, value, informative, i);
        forall j | i < j < |rows| ensures !informative(value(rows[j])) {
          if j < last { assert before[j] == rows[j]; }
        }
        assert LastInformativeIsAt(value(CombineAll(rows)), rows, value, informative, i);
      }
    }
  }

  function TextAt(i: nat): Device -> string {
    (d: Device) => if i < |d.texts| then d.texts[i] else ""
  }

  function IntAt(i: nat): Device -> Option<int> {
    (d: Device) => if i < |d.ints| then d.ints[i] else None
  }

  /** Every field of `c` is the last informative one among `rows`. */
  ghost predicate FieldsAreLast(c: Device, rows: seq<Device>) {
    && (forall i: nat | i < |TEXT_KEYS| :: IsLastInformative(TextAt(i)(c), rows, TextAt(i), (s: string) => s != ""))
    && (forall i: nat | i < |INT_KEYS| :: IsLastInformative(IntAt(i)(c), rows, IntAt(i), (n: Option<int>) => n.Some?))
    && IsLastInformative(c.room, rows, (d: Device) => d.room, (s: string) => s != "")
    && IsLastInformative(c.uiModel, rows, (d: Device) => d.uiModel, (s: string) => s != "")
    && IsLastInformative(c.online, rows, (d: Device) => d.online, (o: Option<bool>) => o.Some?)
    && IsLastInformative(c.classId, rows, (d: Device) => d.classId, NonZero)
    && IsLastInformative(c.endpoint, rows, (d: Device) => d.endpoint, (n: int) => n != 0)
    && IsLastInformative(c.properties, rows, (d: Device) => d.properties, (n: Node) => n != Map([], []))
  }

  lemma CombinedFieldsAreLastInformative(rows: seq<Device>)
    requires rows != [] && forall d | d in rows :: Shaped(d)
    ensures FieldsAreLast(CombineAll(rows), rows)
  {
    forall i: nat | i < |TEXT_KEYS|
      ensures IsLastInformative(TextAt(i)(CombineAll(rows)), rows, TextAt(i), (s: string) => s != "")
    {
      FieldIsLast(rows, TextAt(i), (s: string) => s != "");
    }
    forall i: nat | i < |INT_KEYS|
      ensures IsLastInformative(IntAt(i)(CombineAll(rows)), rows, IntAt(i), (n: Option<int>) => n.Some?)
    {
      FieldIsLast(rows, IntAt(i), (n: Option<int>) => n.Some?);
    }
    FieldIsLast(rows, (d: Device) => d.room, (s: string) => s != "");
    FieldIsLast(rows, (d: Device) => d.uiModel, (s: string) => s != "");
    FieldIsLast(rows, (d: Device) => d.online, (o: Option<bool>) => o.Some?);
    FieldIsLast(rows, (d: Device) => d.classId, NonZero);
    FieldIsLast(rows, (d: Device) => d.endpoint, (n: int) => n != 0);
    FieldIsLast(rows, (d: Device) => d.properties, (n: Node) => n != Map([], []));
  }

  /** The rows of one uid among the qualifying nodes of the payload, in preorder. */
  function PreorderRowsOf(payload: Node, lib: Library, uid: string): seq<Device> {
    RowsWith(RowsAt(payload, Preorder(payload, []), CollectRooms(payload, map[], lib), lib), uid)
  }

  lemma {:induction false} RowsWithAreRows(rows: seq<Device>, uid: string)
    ensures forall d | d in RowsWith(rows, uid) :: d in rows && d.uid == uid
  {
    if rows != [] {
      RowsWithAreRows(rows[..|rows| - 1], uid);
    }
  }

  lemma {:induction false} CombinedUid(rows: seq<Device>, uid: string)
    requires rows != [] && forall d | d in rows :: d.uid == uid
    ensures CombineAll(rows).uid == uid
    decreases |rows|
  {
    if |rows| > 1 {
      CombinedUid(rows[..|rows| - 1], uid);
    }
  }

  /**
   What `extract_devices` returns, told by the payload alone: a device of a uid exactly when some node of the payload
   qualifies with that uid, and each of its fields is the last informative one among those nodes in preorder.
   */
  lemma ExtractedFieldsAreLastInformative(payload: Node, lib: Library, out: seq<Device>, uid: string)
    requires Extracted(payload, lib, out)
    ensures (exists d :: d in out && d.uid == uid) <==> PreorderRowsOf(payload, lib, uid) != []
    ensures forall d | d in out && d.uid == uid :: FieldsAreLast(d, PreorderRowsOf(payload, lib, uid))
  {
    var rooms := CollectRooms(payload, map[], lib);
    var all, rows := Rows(payload, None, rooms, lib), PreorderRowsOf(payload, lib, uid);
    RowsArePreorderRows(payload, rooms, lib);
    assert rows == RowsWith(all, uid);
    RowsAreShaped(payload, None, rooms, lib);
    RowsWithAreRows(all, uid);
    if rows != [] {
      CombinedUid(rows, uid);
      assert CombineAll(rows) in out;
      CombinedFieldsAreLastInformative(rows);
    }
  }
}
