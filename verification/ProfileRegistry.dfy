/** User device profiles: loading with duplicate rules, and a memoised, guarded, prioritised lookup. */
module ProfileRegistry {
  import opened Wrappers
  import opened Sorting

  /** What the match rules read of a device; `key` is its device id, uid or object identity. */
  datatype Device = Device(key: string, ints: map<string, int>, texts: map<string, string>, paths: map<string, string>)

  datatype Condition =
    | IntIn(field: string, candidates: set<int>)
    | TextIn(field: string, literals: set<string>, patterns: seq<string>)
    | Present(wanted: seq<string>)
    | Equals(wants: map<string, string>)
    | Unsupported

  datatype Profile = Profile(id: string, priority: int, overriding: bool, anyOf: seq<seq<Condition>>)

  /** `re.search(pattern, text)`. */
  type Search = (string, string) -> bool

  predicate Holds(c: Condition, d: Device, search: Search) {
    match c
    case IntIn(field, candidates) => field in d.ints && d.ints[field] in candidates
    case TextIn(field, literals, patterns) =>
      var actual := if field in d.texts then d.texts[field] else "";
      actual in literals || exists p | p in patterns :: search(p, actual)
    case Present(wanted) => forall p | p in wanted :: p in d.paths
    case Equals(wants) => forall p | p in wants.Keys :: (if p in d.paths then d.paths[p] else "None") == wants[p]
    case Unsupported => false
  }

  /** `MatchSpec.matches`: all conditions of at least one branch. */
  predicate Matches(p: Profile, d: Device, search: Search) {
    exists branch | branch in p.anyOf :: forall c | c in branch :: Holds(c, d, search)
  }

  predicate Eligible(p: Profile, d: Device, recognised: bool, search: Search) {
    Matches(p, d, search) && (recognised ==> p.overriding)
  }

  /** Higher priority first, then the smaller id. */
  predicate Ahead(p: Profile, q: Profile) {
    p.priority > q.priority || (p.priority == q.priority && Before(p.id, q.id))
  }

  /** The first eligible profile of the ordered list. */
  function Scan(ordered: seq<Profile>, d: Device, recognised: bool, search: Search): Option<Profile> {
    if ordered == [] then None
    else if Eligible(ordered[0], d, recognised, search) then Some(ordered[0])
    else Scan(ordered[1..], d, recognised, search)
  }

  /** The scan finds the eligible profile of highest priority, then least id, whenever there is one. */
  lemma {:induction false} ScanFindsTheBest(ordered: seq<Profile>, d: Device, recognised: bool, search: Search)
    requires SortedBy(ordered, Ahead)
    ensures var r := Scan(ordered, d, recognised, search);
            && (r.None? ==> forall p | p in ordered :: !Eligible(p, d, recognised, search))
            && (r.Some? ==> r.value in ordered && Eligible(r.value, d, recognised, search)
                            && forall q | q in ordered && q != r.value && Eligible(q, d, recognised, search) :: Ahead(r.value, q))
  {
    if ordered != [] {
      ScanFindsTheBest(ordered[1..], d, recognised, search);
    }
  }

  // ---- The memo ----

  datatype Lookup = Lookup(device: Device, recognised: bool) {
    function Key(): (string, bool) {
      (device.key, recognised)
    }
  }

  datatype Memo = Memo(cache: map<(string, bool), Option<Profile>>, counts: map<string, nat>)

  const Empty := Memo(map[], map[])

  function Counted(counts: map<string, nat>, id: string): nat {
    if id in counts then counts[id] else 0
  }

  /** `find_profile`. */
  function Find(ordered: seq<Profile>, m: Memo, l: Lookup, search: Search): (Option<Profile>, Memo) {
    if ordered == [] then (None, m)
    else if l.Key() in m.cache then (m.cache[l.Key()], m)
    else
      var found := Scan(ordered, l.device, l.recognised, search);
      (found, Memo(m.cache[l.Key() := found],
                   if found.Some? then m.counts[found.value.id := Counted(m.counts, found.value.id) + 1] else m.counts))
  }

  /** The memo after a sequence of lookups since the last load. */
  function After(ordered: seq<Profile>, ls: seq<Lookup>, search: Search): Memo
    decreases |ls|
  {
    if ls == [] then Empty
    else Find(ordered, After(ordered, ls[..|ls| - 1], search), ls[|ls| - 1], search).1
  }

  /** The first lookup under a cache key. */
  function First(ls: seq<Lookup>, key: (string, bool)): Option<Lookup>
    decreases |ls|
  {
    if ls == [] then None
    else if First(ls[..|ls| - 1], key).Some? then First(ls[..|ls| - 1], key)
    else if ls[|ls| - 1].Key() == key then Some(ls[|ls| - 1])
    else None
  }

  lemma {:induction false} FirstHasTheKey(ls: seq<Lookup>, key: (string, bool))
    ensures First(ls, key).Some? ==> First(ls, key).value.Key() == key && First(ls, key).value in ls
    ensures First(ls, key).None? <==> forall l | l in ls :: l.Key() != key
    decreases |ls|
  {
    if ls != [] {
      FirstHasTheKey(ls[..|ls| - 1], key);
      assert ls == ls[..|ls| - 1] + [ls[|ls| - 1]];
    }
  }

  /** Each cache entry holds the scan of the first device looked up under its key. */
  lemma {:induction false} CacheHoldsFirstScans(ordered: seq<Profile>, ls: seq<Lookup>, search: Search, key: (string, bool))
    requires ordered != []
    ensures var cache := After(ordered, ls, search).cache;
            && (key in cache <==> First(ls, key).Some?)
            && (key in cache ==> cache[key] == Scan(ordered, First(ls, key).value.device, key.1, search))
    decreases |ls|
  {
    if ls != [] {
      CacheHoldsFirstScans(ordered, ls[..|ls| - 1], search, key);
      FirstHasTheKey(ls, key);
    }
  }

  /** The memoised answer is the plain scan exactly when the first lookup of the key scans alike. */
  lemma MemoEqualsScanIff(ordered: seq<Profile>, ls: seq<Lookup>, l: Lookup, search: Search)
    ensures Find(ordered, After(ordered, ls, search), l, search).0 == Scan(ordered, l.device, l.recognised, search)
       <==> (First(ls, l.Key()).Some? ==>
               Scan(ordered, First(ls, l.Key()).value.device, l.recognised, search)
               == Scan(ordered, l.device, l.recognised, search))
  {
    if ordered != [] {
      CacheHoldsFirstScans(ordered, ls, search, l.Key());
    }
  }

  /** The match rules see no difference between two devices. */
  predicate SameMatchFields(d: Device, e: Device) {
    d.ints == e.ints && d.texts == e.texts && d.paths == e.paths
  }

  lemma {:induction false} SameFieldsScanAlike(ordered: seq<Profile>, d: Device, e: Device, recognised: bool, search: Search)
    requires SameMatchFields(d, e)
    ensures Scan(ordered, d, recognised, search) == Scan(ordered, e, recognised, search)
  {
    if ordered != [] {
      forall c ensures Holds(c, d, search) <==> Holds(c, e, search) {
      }
      assert Matches(ordered[0], d, search) <==> Matches(ordered[0], e, search);
      SameFieldsScanAlike(ordered[1..], d, e, recognised, search);
    }
  }

  /** If equal cache keys mean equal match fields, memoisation is invisible. */
  lemma MemoIsTransparent(ordered: seq<Profile>, ls: seq<Lookup>, l: Lookup, search: Search)
    requires forall e | e in ls && e.Key() == l.Key() :: SameMatchFields(e.device, l.device)
    ensures Find(ordered, After(ordered, ls, search), l, search).0 == Scan(ordered, l.device, l.recognised, search)
  {
    FirstHasTheKey(ls, l.Key());
    MemoEqualsScanIff(ordered, ls, l, search);
    if First(ls, l.Key()).Some? {
      SameFieldsScanAlike(ordered, First(ls, l.Key()).value.device, l.device, l.recognised, search);
    }
  }

  lemma {:induction false} ScanIsGuarded(ordered: seq<Profile>, d: Device, recognised: bool, search: Search)
    ensures var r := Scan(ordered, d, recognised, search); r.Some? && recognised ==> r.value.overriding
  {
    if ordered != [] {
      ScanIsGuarded(ordered[1..], d, recognised, search);
    }
  }

  /** However stale the memo, a device the built-in taxonomy recognises only ever gets an overriding profile. */
  lemma RecognisedDevicesNeedOverride(ordered: seq<Profile>, ls: seq<Lookup>, l: Lookup, search: Search)
    ensures var r := Find(ordered, After(ordered, ls, search), l, search).0;
            r.Some? && l.recognised ==> r.value.overriding
  {
    if ordered != [] {
      CacheHoldsFirstScans(ordered, ls, search, l.Key());
      ScanIsGuarded(ordered, l.device, l.recognised, search);
      if First(ls, l.Key()).Some? {
        ScanIsGuarded(ordered, First(ls, l.Key()).value.device, l.recognised, search);
      }
    }
  }

  /** The cache keys under which a profile with this id was found. */
  function Holders(m: Memo, id: string): set<(string, bool)> {
    set key | key in m.cache && m.cache[key].Some? && m.cache[key].value.id == id
  }

  /** The match counter of a profile counts its cache entries, not lookups. */
  lemma {:induction false} CountsAreCacheEntries(ordered: seq<Profile>, ls: seq<Lookup>, search: Search, id: string)
    ensures Counted(After(ordered, ls, search).counts, id) == |Holders(After(ordered, ls, search), id)|
    decreases |ls|
  {
    if ls == [] {
      assert Holders(Empty, id) == {};
    } else {
      var before := After(ordered, ls[..|ls| - 1], search);
      var l := ls[|ls| - 1];
      CountsAreCacheEntries(ordered, ls[..|ls| - 1], search, id);
      if ordered != [] && l.Key() !in before.cache {
        var found := Scan(ordered, l.device, l.recognised, search);
        var holders := Holders(before, id);
        assert Holders(Find(ordered, before, l, search).1, id)
            == if found.Some? && found.value.id == id then holders + {l.Key()} else holders;
      }
    }
  }

  // ---- Loading ----

  /** A profile file, as reading and validating it turned out. */
  datatype File = File(path: string, content: Result<Profile, string>)

  predicate Defines(f: File, id: string) {
    f.content.Ok? && f.content.value.id == id
  }

  /** The file is well-formed, and it is the first with its id or declares `override`. */
  predicate Accepted(files: seq<File>, i: nat)
    requires i < |files|
  {
    files[i].content.Ok?
    && (files[i].content.value.overriding || forall j | 0 <= j < i :: !Defines(files[j], files[i].content.value.id))
  }

  /** An accepted file that no later accepted file replaces. */
  predicate Kept(files: seq<File>, i: nat)
    requires i < |files|
  {
    Accepted(files, i) && forall j | i < j < |files| && Accepted(files, j) :: !Defines(files[j], files[i].content.value.id)
  }

  /** An accepted file that a later accepted one replaces. */
  predicate Superseded(files: seq<File>, i: nat)
    requires i < |files|
  {
    Accepted(files, i) && exists j | i < j < |files| && Accepted(files, j) :: Defines(files[j], files[i].content.value.id)
  }

  ghost predicate HoldsKept(profiles: map<string, Profile>, files: seq<File>) {
    && (forall id :: id in profiles <==> exists i | 0 <= i < |files| :: Kept(files, i) && Defines(files[i], id))
    && (forall i | 0 <= i < |files| && Kept(files, i) ::
          files[i].content.value.id in profiles && profiles[files[i].content.value.id] == files[i].content.value)
  }

  /** Something defines `id`: then the last accepted definition is kept. */
  lemma {:induction false} SomeDefinitionIsKept(files: seq<File>, id: string, i: nat) returns (k: nat)
    requires i < |files| && Accepted(files, i) && Defines(files[i], id)
    ensures i <= k < |files| && Kept(files, k) && Defines(files[k], id)
    decreases |files| - i
  {
    if Kept(files, i) {
      k := i;
    } else {
      var j: nat :| i < j < |files| && Accepted(files, j) && Defines(files[j], id);
      k := SomeDefinitionIsKept(files, id, j);
    }
  }

  lemma FirstDefinitionIsAccepted(files: seq<File>, id: string, i: nat) returns (j: nat)
    requires i < |files| && Defines(files[i], id)
    ensures j <= i && Accepted(files, j) && Defines(files[j], id)
    decreases i
  {
    if Accepted(files, i) {
      j := i;
    } else {
      var k: nat :| k < i && Defines(files[k], id);
      j := FirstDefinitionIsAccepted(files, id, k);
    }
  }

  /** Every file has exactly one fate: kept, superseded by an override, or reported as an error. */
  lemma EveryFileHasOneFate(files: seq<File>, i: nat)
    requires i < |files|
    ensures Kept(files, i) ==> !Superseded(files, i) && Accepted(files, i)
    ensures Superseded(files, i) ==> !Kept(files, i) && Accepted(files, i)
    ensures Accepted(files, i) ==> Kept(files, i) || Superseded(files, i)
    ensures Superseded(files, i) ==> exists k | i < k < |files| :: Kept(files, k) && Defines(files[k], files[i].content.value.id)
  {
    if Superseded(files, i) {
      var j: nat :| i < j < |files| && Accepted(files, j) && Defines(files[j], files[i].content.value.id);
      var k := SomeDefinitionIsKept(files, files[i].content.value.id, j);
    }
  }

  lemma AcceptedByPrefix(files: seq<File>, f: File)
    ensures forall i | 0 <= i < |files| :: Accepted(files + [f], i) <==> Accepted(files, i)
    ensures forall i | 0 <= i < |files| ::
              Kept(files + [f], i)
              <==> Kept(files, i) && !(Accepted(files + [f], |files|) && Defines(f, files[i].content.value.id))
    ensures Kept(files + [f], |files|) <==> Accepted(files + [f], |files|)
  {
    var more := files + [f];
    forall i | 0 <= i < |files| ensures Accepted(more, i) <==> Accepted(files, i) {
      assert forall j | 0 <= j < i :: more[j] == files[j];
    }
    forall i | 0 <= i < |files|
      ensures Kept(more, i) <==> Kept(files, i) && !(Accepted(more, |files|) && Defines(f, files[i].content.value.id))
    {
      assert more[i] == files[i] && more[|files|] == f;
      assert forall j | i < j < |files| :: more[j] == files[j];
    }
  }

  /** The loader's test, against the profiles kept so far, decides acceptance. */
  lemma AcceptedIffFreshOrOverriding(profiles: map<string, Profile>, files: seq<File>, f: File)
    requires HoldsKept(profiles, files)
    ensures Accepted(files + [f], |files|)
       <==> f.content.Ok? && (f.content.value.overriding || f.content.value.id !in profiles)
  {
    assert forall j | 0 <= j < |files| :: (files + [f])[j] == files[j];
    if f.content.Ok? {
      var id := f.content.value.id;
      if j: nat :| j < |files| && Defines(files[j], id) {
        var first := FirstDefinitionIsAccepted(files, id, j);
        var k := SomeDefinitionIsKept(files, id, first);
        assert Kept(files, k) && id in profiles;
        assert Defines((files + [f])[j], id);
      }
    }
  }

  lemma RejectedFileChangesNothing(profiles: map<string, Profile>, files: seq<File>, f: File)
    requires HoldsKept(profiles, files) && !Accepted(files + [f], |files|)
    ensures HoldsKept(profiles, files + [f])
  {
    AcceptedByPrefix(files, f);
    var more := files + [f];
    assert forall i | 0 <= i < |files| :: more[i] == files[i];
    forall id | id in profiles ensures exists i | 0 <= i < |more| :: Kept(more, i) && Defines(more[i], id) {
      var i :| 0 <= i < |files| && Kept(files, i) && Defines(files[i], id);
      assert Kept(more, i);
    }
  }

  lemma AcceptedFileTakesItsId(profiles: map<string, Profile>, files: seq<File>, f: File)
    requires HoldsKept(profiles, files) && Accepted(files + [f], |files|) && f.content.Ok?
    ensures HoldsKept(profiles[f.content.value.id := f.content.value], files + [f])
  {
    AcceptedByPrefix(files, f);
    var more := files + [f];
    assert more[|files|] == f && forall i | 0 <= i < |files| :: more[i] == files[i];
    var result := profiles[f.content.value.id := f.content.value];
    forall id | id in result ensures exists i | 0 <= i < |more| :: Kept(more, i) && Defines(more[i], id) {
      if id == f.content.value.id {
        assert Kept(more, |files|) && Defines(more[|files|], id);
      } else {
        var i :| 0 <= i < |files| && Kept(files, i) && Defines(files[i], id);
        assert Kept(more, i);
      }
    }
    forall i | 0 <= i < |more| && Kept(more, i)
      ensures more[i].content.value.id in result && result[more[i].content.value.id] == more[i].content.value
    {
      if i < |files| {
        assert Kept(files, i) && !Defines(f, files[i].content.value.id);
      }
    }
  }

  lemma IdsMatch(profiles: map<string, Profile>, files: seq<File>)
    requires HoldsKept(profiles, files)
    ensures forall id | id in profiles :: profiles[id].id == id
  {
  }

  // ---- The loader's loop ----

  /** The loader's test of a file against the profiles that it has kept so far. */
  predicate Takes(profiles: map<string, Profile>, f: File) {
    f.content.Ok? && (f.content.value.overriding || f.content.value.id !in profiles)
  }

  function Loaded(files: seq<File>): map<string, Profile> {
    if files == [] then map[] else LoadedNext(Loaded(files[..|files| - 1]), files[|files| - 1])
  }

  function LoadedNext(before: map<string, Profile>, f: File): map<string, Profile> {
    if Takes(before, f) then before[f.content.value.id := f.content.value] else before
  }

  /** The paths of the files that fail the test, in order. */
  function Errors(files: seq<File>): seq<string> {
    if files == [] then []
    else
      var front, last := files[..|files| - 1], files[|files| - 1];
      Errors(front) + if Takes(Loaded(front), last) then [] else [last.path]
  }

  lemma LoadSnoc(files: seq<File>, f: File)
    ensures Loaded(files + [f]) == LoadedNext(Loaded(files), f)
    ensures Errors(files + [f]) == Errors(files) + if Takes(Loaded(files), f) then [] else [f.path]
  {
    assert (files + [f])[..|files|] == files;
  }

  /** The loop keeps exactly the kept files, and its test is acceptance. */
  lemma {:induction false} LoadedFilesAreKept(files: seq<File>)
    ensures HoldsKept(Loaded(files), files)
    ensures files != [] ==> (Takes(Loaded(files[..|files| - 1]), files[|files| - 1]) <==> Accepted(files, |files| - 1))
    decreases |files|
  {
    if files != [] {
      var front, last := files[..|files| - 1], files[|files| - 1];
      assert files == front + [last];
      LoadedFilesAreKept(front);
      AcceptedIffFreshOrOverriding(Loaded(front), front, last);
      if Takes(Loaded(front), last) {
        AcceptedFileTakesItsId(Loaded(front), front, last);
      } else {
        RejectedFileChangesNothing(Loaded(front), front, last);
      }
    }
  }

  lemma {:induction false} ErrorsAreTheRejected(files: seq<File>, path: string)
    ensures path in Errors(files) <==> exists i | 0 <= i < |files| :: !Accepted(files, i) && files[i].path == path
    decreases |files|
  {
    if files != [] {
      var last := |files| - 1;
      var before := files[..last];
      assert files == before + [files[last]];
      LoadedFilesAreKept(files);
      AcceptedByPrefix(before, files[last]);
      ErrorsAreTheRejected(before, path);
      if path in Errors(before) {
        var i :| 0 <= i < last && !Accepted(before, i) && before[i].path == path;
        assert !Accepted(files, i) && files[i].path == path;
      }
      if i :| 0 <= i < |files| && !Accepted(files, i) && files[i].path == path {
        if i < last {
          assert !Accepted(before, i) && before[i].path == path;
        }
      }
    }
  }

  class CustomDeviceRegistry {
    var profiles: map<string, Profile>
    var ordered: seq<Profile>
    var errors: seq<string>
    var matchCounts: map<string, nat>
    var matchCache: map<(string, bool), Option<Profile>>
    const search: Search
    ghost var lookups: seq<Lookup>

    ghost predicate Valid()
      reads this
    {
      && SortedBy(ordered, Ahead)
      && (forall p :: p in ordered <==> p.id in profiles && profiles[p.id] == p)
      && Memo(matchCache, matchCounts) == After(ordered, lookups, search)
    }

    constructor (search: Search)
      ensures Valid() && profiles == map[] && lookups == []
    {
      this.search := search;
      profiles, ordered, errors, matchCounts, matchCache, lookups := map[], [], [], map[], map[], [];
    }

    /** `load`. */
    method Load(files: seq<File>)
      modifies this
      ensures Valid() && lookups == []
      ensures HoldsKept(profiles, files)
      ensures errors == Errors(files)
    {
      LoadFiles(files);
      LoadedFilesAreKept(files);
      IdsMatch(profiles, files);
      SortProfiles();
      matchCounts, matchCache, lookups := map[], map[], [];
    }

    method LoadFiles(files: seq<File>)
      modifies this`profiles, this`errors
      ensures profiles == Loaded(files) && errors == Errors(files)
    {
      profiles, errors := map[], [];
      ghost var done: seq<File> := [];
      for n := 0 to |files|
        invariant done == files[..n] && profiles == Loaded(done) && errors == Errors(done)
      {
        LoadSnoc(done, files[n]);
        LoadOne(files[n]);
        done := done + [files[n]];
      }
      assert done == files;
    }

    method LoadOne(f: File)
      modifies this`profiles, this`errors
      ensures profiles == LoadedNext(old(profiles), f)
      ensures errors == old(errors) + if Takes(old(profiles), f) then [] else [f.path]
    {
      if f.content.Err? || (f.content.value.id in profiles && !f.content.value.overriding) {
        errors := errors + [f.path];
      } else {
        profiles := profiles[f.content.value.id := f.content.value];
      }
    }

    method SortProfiles()
      requires forall id | id in profiles :: profiles[id].id == id
      modifies this`ordered
      ensures SortedBy(ordered, Ahead)
      ensures forall p :: p in ordered <==> p.id in profiles && profiles[p.id] == p
    {
      forall p, q | p in profiles.Values && q in profiles.Values && p != q ensures Ahead(p, q) || Ahead(q, p) {
        BeforeIsTotal(p.id, q.id);
      }
      forall p, q, r | Ahead(p, q) && Ahead(q, r) ensures Ahead(p, r) {
        if p.priority == r.priority {
          BeforeIsTransitive(p.id, q.id, r.id);
        }
      }
      ordered := Sort(profiles.Values, Ahead);
    }

    method FirstEligible(device: Device, recognised: bool) returns (found: Option<Profile>)
      ensures found == Scan(ordered, device, recognised, search)
    {
      found := None;
      var i := 0;
      while i < |ordered|
        invariant i <= |ordered|
        invariant Scan(ordered, device, recognised, search) == Scan(ordered[i..], device, recognised, search)
      {
        if Matches(ordered[i], device, search) && (!recognised || ordered[i].overriding) {
          return Some(ordered[i]);
        }
        i := i + 1;
      }
    }

    method RecordMatch(id: string)
      modifies this`matchCounts
      ensures matchCounts == old(matchCounts)[id := Counted(old(matchCounts), id) + 1]
    {
      matchCounts := matchCounts[id := Counted(matchCounts, id) + 1];
    }

    /** `find_profile`. */
    method FindProfile(device: Device, recognised: bool) returns (found: Option<Profile>)
      requires Valid()
      modifies this`matchCounts, this`matchCache, this`lookups
      ensures Valid() && lookups == old(lookups) + [Lookup(device, recognised)]
      ensures found == Find(ordered, After(ordered, old(lookups), search), Lookup(device, recognised), search).0
    {
      ghost var l := Lookup(device, recognised);
      assert (lookups + [l])[..|lookups|] == lookups;
      var key := (device.key, recognised);
      lookups := lookups + [l];
      if ordered == [] {
        return None;
      }
      if key in matchCache {
        return matchCache[key];
      }
      found := FirstEligible(device, recognised);
      if found.Some? {
        RecordMatch(found.value.id);
      }
      matchCache := matchCache[key := found];
    }
  }
}
