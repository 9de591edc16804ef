/**
 Reconciliation of the device inventory with periodic cloud snapshots: a device that a snapshot
 hides goes at once, one that snapshots merely omit goes at the third omission in a row.
 */
module DeviceInventory {
  import opened Wrappers

  const TOLERANCE := 3

  /** One entry of a snapshot; `hidden` is the outcome of classifying it. */
  datatype Listing<I> = Listing(id: string, hidden: bool, info: I)

  /** How a device's state is first built and how a snapshot is merged into it. */
  datatype Policy<!I, !V> = Policy(initial: I -> V, merged: (V, I) -> V)

  datatype Inventory<I, V> = Inventory(devices: map<string, I>, states: map<string, V>, missing: map<string, nat>)

  function Removed<I, V>(inv: Inventory<I, V>, id: string): Inventory<I, V> {
    Inventory(inv.devices - {id}, inv.states - {id}, inv.missing - {id})
  }

  /** One loop round of `merge_cloud`. */
  function Listed<I, V>(inv: Inventory<I, V>, l: Listing<I>, policy: Policy<I, V>): Inventory<I, V> {
    if l.hidden then Removed(inv, l.id)
    else
      var state := if l.id in inv.states then inv.states[l.id] else policy.initial(l.info);
      Inventory(inv.devices[l.id := l.info], inv.states[l.id := policy.merged(state, l.info)], inv.missing - {l.id})
  }

  function ListAll<I, V>(inv: Inventory<I, V>, ls: seq<Listing<I>>, policy: Policy<I, V>): Inventory<I, V>
    decreases |ls|
  {
    if ls == [] then inv else Listed(ListAll(inv, ls[..|ls| - 1], policy), ls[|ls| - 1], policy)
  }

  ghost function Seen<I>(ls: seq<Listing<I>>): set<string> {
    set l | l in ls && !l.hidden :: l.id
  }

  function Misses<I, V>(inv: Inventory<I, V>, id: string): nat {
    if id in inv.missing then inv.missing[id] else 0
  }

  predicate Goes<I, V>(inv: Inventory<I, V>, seen: set<string>, id: string) {
    id !in seen && Misses(inv, id) + 1 >= TOLERANCE
  }

  /** `_remove_missing_devices`, applied to the devices in `done`. */
  function DropMissing<I, V>(inv: Inventory<I, V>, seen: set<string>, done: set<string>): Inventory<I, V> {
    Inventory(
      map id | id in inv.devices && !(id in done && Goes(inv, seen, id)) :: inv.devices[id],
      map id | id in inv.states && !(id in done && Goes(inv, seen, id)) :: inv.states[id],
      map id | id in inv.missing.Keys + (done - seen) && !(id in done && Goes(inv, seen, id)) ::
        if id in done && id !in seen then Misses(inv, id) + 1 else inv.missing[id])
  }

  /** One loop round of `_remove_missing_devices`. */
  function DropOne<I, V>(inv: Inventory<I, V>, seen: set<string>, id: string): Inventory<I, V> {
    if id in seen then inv
    else if Misses(inv, id) + 1 < TOLERANCE then inv.(missing := inv.missing[id := Misses(inv, id) + 1])
    else Removed(inv, id)
  }

  lemma DropOneMore<I, V>(inv: Inventory<I, V>, seen: set<string>, done: set<string>, id: string)
    requires id !in done
    ensures DropMissing(inv, seen, done + {id}) == DropOne(DropMissing(inv, seen, done), seen, id)
  {
    assert Misses(DropMissing(inv, seen, done), id) == Misses(inv, id);
    KeptAfterOneMore(inv, seen, done, id);
    MissingAfterOneMore(inv, seen, done, id);
  }

  lemma KeptAfterOneMore<I, V>(inv: Inventory<I, V>, seen: set<string>, done: set<string>, id: string)
    requires id !in done
    ensures var before, after := DropMissing(inv, seen, done), DropMissing(inv, seen, done + {id});
            && after.devices == (if Goes(inv, seen, id) then before.devices - {id} else before.devices)
            && after.states == (if Goes(inv, seen, id) then before.states - {id} else before.states)
  {
  }

  lemma MissingAfterOneMore<I, V>(inv: Inventory<I, V>, seen: set<string>, done: set<string>, id: string)
    requires id !in done
    ensures DropMissing(inv, seen, done + {id}).missing
         == var missing := DropMissing(inv, seen, done).missing;
            if id in seen then missing
            else if Goes(inv, seen, id) then missing - {id}
            else missing[id := Misses(inv, id) + 1]
  {
  }

  lemma DropNone<I, V>(inv: Inventory<I, V>, seen: set<string>)
    ensures DropMissing(inv, seen, {}) == inv
  {
    var after := DropMissing(inv, seen, {});
    assert after.devices == inv.devices && after.states == inv.states && after.missing == inv.missing;
  }

  /** `merge_cloud`. */
  ghost function MergeCloud<I, V>(inv: Inventory<I, V>, ls: seq<Listing<I>>, policy: Policy<I, V>): Inventory<I, V> {
    var listed := ListAll(inv, ls, policy);
    DropMissing(listed, Seen(ls), listed.devices.Keys)
  }

  /** `initialize`, which skips hidden devices instead of removing them. */
  function Initialized<I, V>(inv: Inventory<I, V>, ls: seq<Listing<I>>, policy: Policy<I, V>): Inventory<I, V>
    decreases |ls|
  {
    if ls == [] then inv
    else
      var l := ls[|ls| - 1];
      var before := Initialized(inv, ls[..|ls| - 1], policy);
      if l.hidden then before
      else before.(devices := before.devices[l.id := l.info], states := before.states[l.id := policy.initial(l.info)])
  }

  /** A periodic snapshot, or a state update; an optimistic one writes for any device id, be the device gone by then. */
  datatype Happening<I, V> = Snapshot(listings: seq<Listing<I>>) | Update(id: string, state: V)

  function Updated<I, V>(inv: Inventory<I, V>, id: string, state: V): Inventory<I, V> {
    inv.(states := inv.states[id := state])
  }

  /** An integration run: the initial discovery, then snapshots and updates. */
  ghost function Run<I, V>(found: seq<Listing<I>>, happenings: seq<Happening<I, V>>, policy: Policy<I, V>): Inventory<I, V>
    decreases |happenings|
  {
    if happenings == [] then Initialized(Inventory(map[], map[], map[]), found, policy)
    else
      var before := Run(found, happenings[..|happenings| - 1], policy);
      match happenings[|happenings| - 1]
      case Snapshot(listings) => MergeCloud(before, listings, policy)
      case Update(id, state) => Updated(before, id, state)
  }

  ghost predicate Consistent<I, V>(inv: Inventory<I, V>) {
    && inv.devices.Keys <= inv.states.Keys
    && (forall id | id in inv.missing :: id in inv.devices && 0 < inv.missing[id] < TOLERANCE)
  }

  /** A state without its device. */
  predicate IsOrphan<I, V>(inv: Inventory<I, V>, id: string) {
    id in inv.states && id !in inv.devices
  }

  // ---- What the snapshots say about one device ----

  datatype Verdict = Visible | Hidden | Omitted

  /** The last listing of a device in a snapshot decides. */
  function VerdictOn<I>(ls: seq<Listing<I>>, id: string): Verdict
    decreases |ls|
  {
    if ls == [] then Omitted
    else if ls[|ls| - 1].id == id then (if ls[|ls| - 1].hidden then Hidden else Visible)
    else VerdictOn(ls[..|ls| - 1], id)
  }

  /** What the discovery and the snapshots said about a device; updates say nothing. */
  ghost function History<I, V>(found: seq<Listing<I>>, happenings: seq<Happening<I, V>>, id: string): seq<Verdict>
    decreases |happenings|
  {
    if happenings == [] then [if id in Seen(found) then Visible else Omitted]
    else
      var before, last := History(found, happenings[..|happenings| - 1], id), happenings[|happenings| - 1];
      if last.Snapshot? then before + [VerdictOn(last.listings, id)] else before
  }

  /** The device was last visible `m` snapshots ago and only omitted since. */
  predicate TrailingMisses(h: seq<Verdict>, m: nat) {
    m < |h| && h[|h| - 1 - m].Visible? && forall j | |h| - m <= j < |h| :: h[j].Omitted?
  }

  /** The inventory's record of one device: the misses counted for it, if it is there. */
  function Entry<I, V>(inv: Inventory<I, V>, id: string): Option<nat> {
    if id in inv.devices then Some(Misses(inv, id)) else None
  }

  function NextEntry(entry: Option<nat>, verdict: Verdict): Option<nat> {
    match verdict
    case Visible => Some(0)
    case Hidden => None
    case Omitted => if entry.Some? && entry.value + 1 < TOLERANCE then Some(entry.value + 1) else None
  }

  lemma {:induction false} ListedEntries<I, V>(inv: Inventory<I, V>, ls: seq<Listing<I>>, policy: Policy<I, V>, id: string)
    requires Consistent(inv)
    ensures Consistent(ListAll(inv, ls, policy))
    ensures Entry(ListAll(inv, ls, policy), id)
         == match VerdictOn(ls, id) case Visible => Some(0) case Hidden => None case Omitted => Entry(inv, id)
    ensures id in Seen(ls) ==> !VerdictOn(ls, id).Omitted?
    ensures VerdictOn(ls, id).Visible? ==> id in Seen(ls)
    ensures IsOrphan(ListAll(inv, ls, policy), id) <==> VerdictOn(ls, id).Omitted? && IsOrphan(inv, id)
    decreases |ls|
  {
    if ls != [] {
      var last := |ls| - 1;
      ListedEntries(inv, ls[..last], policy, id);
      assert ls == ls[..last] + [ls[last]];
    }
  }

  /** One snapshot moves every device's record by its verdict alone, and ends an orphan unless it omits it. */
  lemma SnapshotStep<I, V>(inv: Inventory<I, V>, ls: seq<Listing<I>>, policy: Policy<I, V>, id: string)
    requires Consistent(inv)
    ensures Consistent(MergeCloud(inv, ls, policy))
    ensures Entry(MergeCloud(inv, ls, policy), id) == NextEntry(Entry(inv, id), VerdictOn(ls, id))
    ensures IsOrphan(MergeCloud(inv, ls, policy), id) <==> VerdictOn(ls, id).Omitted? && IsOrphan(inv, id)
  {
    ListedEntries(inv, ls, policy, id);
  }

  lemma {:induction false} InitialEntries<I, V>(found: seq<Listing<I>>, policy: Policy<I, V>, id: string)
    ensures var inv := Initialized(Inventory(map[], map[], map[]), found, policy);
            && Consistent(inv) && inv.missing == map[] && inv.devices.Keys == inv.states.Keys
            && Entry(inv, id) == if id in Seen(found) then Some(0) else None
    decreases |found|
  {
    if found != [] {
      var last := |found| - 1;
      InitialEntries(found[..last], policy, id);
      assert found == found[..last] + [found[last]];
    }
  }

  /** The record that a history of verdicts leaves. */
  function EntryAfter(h: seq<Verdict>): Option<nat> {
    if h == [] then None else NextEntry(EntryAfter(h[..|h| - 1]), h[|h| - 1])
  }

  lemma {:induction false} EntryCountsTrailingMisses(h: seq<Verdict>, m: nat)
    ensures EntryAfter(h) == Some(m) <==> m < TOLERANCE && TrailingMisses(h, m)
    decreases |h|
  {
    if h != [] {
      var last := |h| - 1;
      assert h == h[..last] + [h[last]];
      TrailingSnoc(h[..last], h[last], m);
      EntryCountsTrailingMisses(h[..last], if m > 0 then m - 1 else 0);
    }
  }

  lemma {:induction false} RunFollowsHistory<I, V>(found: seq<Listing<I>>, happenings: seq<Happening<I, V>>,
                                                   policy: Policy<I, V>, id: string)
    ensures Consistent(Run(found, happenings, policy))
    ensures Entry(Run(found, happenings, policy), id) == EntryAfter(History(found, happenings, id))
    decreases |happenings|
  {
    var h := History(found, happenings, id);
    if happenings == [] {
      InitialEntries(found, policy, id);
      assert h[..0] == [];
    } else {
      var last := |happenings| - 1;
      RunFollowsHistory(found, happenings[..last], policy, id);
      if happenings[last].Snapshot? {
        SnapshotStep(Run(found, happenings[..last], policy), happenings[last].listings, policy, id);
        assert h[..|h| - 1] == History(found, happenings[..last], id);
      }
    }
  }

  /**
   A device is in the inventory with `m` counted misses exactly when it was last visible `m`
   snapshots ago, was only omitted since, and `m` is below three.
   */
  lemma InventoryFollowsHistory<I, V>(found: seq<Listing<I>>, happenings: seq<Happening<I, V>>,
                                      policy: Policy<I, V>, id: string, m: nat)
    ensures Consistent(Run(found, happenings, policy))
    ensures Entry(Run(found, happenings, policy), id) == Some(m)
       <==> m < TOLERANCE && TrailingMisses(History(found, happenings, id), m)
  {
    RunFollowsHistory(found, happenings, policy, id);
    EntryCountsTrailingMisses(History(found, happenings, id), m);
  }

  // ---- States without a device ----

  /** The `i`-th happening updated a device that was absent, and every snapshot since then omits it. */
  ghost predicate OrphanedAt<I, V>(found: seq<Listing<I>>, happenings: seq<Happening<I, V>>, id: string, i: int) {
    && 0 <= i < |happenings| && happenings[i].Update? && happenings[i].id == id
    && EntryAfter(History(found, happenings[..i], id)).None?
    && forall j | i < j < |happenings| && happenings[j].Snapshot? :: VerdictOn(happenings[j].listings, id).Omitted?
  }

  ghost predicate Orphaned<I, V>(found: seq<Listing<I>>, happenings: seq<Happening<I, V>>, id: string) {
    exists i :: OrphanedAt(found, happenings, id, i)
  }

  lemma OrphanedSnoc<I, V>(found: seq<Listing<I>>, front: seq<Happening<I, V>>, last: Happening<I, V>, id: string)
    ensures Orphaned(found, front + [last], id)
       <==> if last.Snapshot? then VerdictOn(last.listings, id).Omitted? && Orphaned(found, front, id)
            else Orphaned(found, front, id) || (last.id == id && EntryAfter(History(found, front, id)).None?)
  {
    var all := front + [last];
    assert all[..|front|] == front && all[|front|] == last;
    assert forall i | 0 <= i < |front| :: all[i] == front[i] && all[..i] == front[..i];
    forall i | 0 <= i < |front|
      ensures OrphanedAt(found, all, id, i)
         <==> OrphanedAt(found, front, id, i) && (last.Snapshot? ==> VerdictOn(last.listings, id).Omitted?)
    {
    }
    if i :| OrphanedAt(found, front, id, i) && (last.Snapshot? ==> VerdictOn(last.listings, id).Omitted?) {
      assert OrphanedAt(found, all, id, i);
    }
    if last.Update? && last.id == id && EntryAfter(History(found, front, id)).None? {
      assert OrphanedAt(found, all, id, |front|);
    }
  }

  lemma {:induction false} OrphansFollowHistory<I, V>(found: seq<Listing<I>>, happenings: seq<Happening<I, V>>,
                                                      policy: Policy<I, V>, id: string)
    ensures IsOrphan(Run(found, happenings, policy), id) <==> Orphaned(found, happenings, id)
    decreases |happenings|
  {
    if happenings == [] {
      InitialEntries(found, policy, id);
    } else {
      var front, last := happenings[..|happenings| - 1], happenings[|happenings| - 1];
      OrphansFollowHistory(found, front, policy, id);
      RunFollowsHistory(found, front, policy, id);
      assert happenings == front + [last];
      OrphanedSnoc(found, front, last, id);
      if last.Snapshot? {
        SnapshotStep(Run(found, front, policy), last.listings, policy, id);
      }
    }
  }

  /**
   Devices and states have the same keys exactly when no update reached an absent device that every snapshot since
   then omits; the next snapshot that lists such a device, visible or hidden, restores the equality for it.
   */
  lemma KeysAgreeIff<I, V>(found: seq<Listing<I>>, happenings: seq<Happening<I, V>>, policy: Policy<I, V>)
    ensures Run(found, happenings, policy).devices.Keys == Run(found, happenings, policy).states.Keys
       <==> forall id :: !Orphaned(found, happenings, id)
  {
    var inv := Run(found, happenings, policy);
    RunFollowsHistory(found, happenings, policy, "");
    forall id ensures IsOrphan(inv, id) <==> Orphaned(found, happenings, id) {
      OrphansFollowHistory(found, happenings, policy, id);
    }
    if forall id :: !Orphaned(found, happenings, id) {
      forall id | id in inv.states.Keys ensures id in inv.devices.Keys {
        assert !IsOrphan(inv, id);
      }
    } else {
      var id :| Orphaned(found, happenings, id);
      assert IsOrphan(inv, id);
    }
  }

  lemma TrailingSnoc(h: seq<Verdict>, v: Verdict, m: nat)
    ensures TrailingMisses(h + [v], m) <==> if m == 0 then v.Visible? else v.Omitted? && TrailingMisses(h, m - 1)
  {
    var more := h + [v];
    assert more[|h|] == v && forall j | 0 <= j < |h| :: more[j] == h[j];
  }

  /** A device leaves at a snapshot exactly when it is hidden there, or omitted for the third time in a row. */
  lemma LeavesWhenHiddenOrThirdMiss<I, V>(found: seq<Listing<I>>, happenings: seq<Happening<I, V>>, next: seq<Listing<I>>,
                                          policy: Policy<I, V>, id: string)
    requires id in Run(found, happenings, policy).devices
    ensures id !in Run(found, happenings + [Snapshot(next)], policy).devices
       <==> VerdictOn(next, id).Hidden?
            || (VerdictOn(next, id).Omitted? && TrailingMisses(History(found, happenings, id), TOLERANCE - 1))
  {
    var before := Run(found, happenings, policy);
    InventoryFollowsHistory(found, happenings, policy, id, TOLERANCE - 1);
    InventoryFollowsHistory(found, happenings, policy, id, Misses(before, id));
    assert (happenings + [Snapshot(next)])[..|happenings|] == happenings;
    SnapshotStep(before, next, policy, id);
  }

  // ---- The object of the source ----

  class DeviceInventory<I, V> {
    var devices: map<string, I>
    var states: map<string, V>
    var missingCounts: map<string, nat>
    const policy: Policy<I, V>
    // The initial discovery, and the snapshots and updates since.
    ghost var found: seq<Listing<I>>
    ghost var happenings: seq<Happening<I, V>>

    ghost function Now(): Inventory<I, V>
      reads this
    {
      Inventory(devices, states, missingCounts)
    }

    /** The inventory is what those make of an empty one. */
    ghost predicate Valid()
      reads this
    {
      Now() == Run(found, happenings, policy)
    }

    constructor (policy: Policy<I, V>)
      ensures Now() == Inventory(map[], map[], map[]) && this.policy == policy
      ensures Valid() && found == [] && happenings == []
    {
      this.policy := policy;
      found, happenings := [], [];
      devices, states, missingCounts := map[], map[], map[];
    }

    method Remove(id: string)
      modifies `devices, `states, `missingCounts
      ensures Now() == Removed(old(Now()), id)
      ensures Entry(Now(), id) == None && forall other | other != id :: Entry(Now(), other) == Entry(old(Now()), other)
      ensures old(Consistent(Now())) ==> Consistent(Now())
    {
      devices, states, missingCounts := devices - {id}, states - {id}, missingCounts - {id};
    }

    method Initialize(discovered: seq<Listing<I>>)
      modifies this
      ensures Now() == Initialized(old(Now()), discovered, policy)
      ensures old(Valid() && found == [] && happenings == []) ==> Valid() && found == discovered && happenings == []
    {
      InitializeListings(discovered);
      found, happenings := discovered, [];
    }

    method InitializeListings(discovered: seq<Listing<I>>)
      modifies `devices, `states, `missingCounts
      ensures Now() == Initialized(old(Now()), discovered, policy)
    {
      for i := 0 to |discovered|
        invariant Now() == Initialized(old(Now()), discovered[..i], policy)
      {
        var l := discovered[i];
        assert discovered[..i + 1][..i] == discovered[..i];
        if l.hidden {
          continue;
        }
        devices := devices[l.id := l.info];
        states := states[l.id := policy.initial(l.info)];
      }
      assert discovered[..|discovered|] == discovered;
    }

    /** One loop round of `merge_cloud`. */
    method MergeOne(l: Listing<I>)
      modifies `devices, `states, `missingCounts
      ensures Now() == Listed(old(Now()), l, policy)
      ensures Entry(Now(), l.id) == if l.hidden then None else Some(0)
      ensures forall other | other != l.id :: Entry(Now(), other) == Entry(old(Now()), other)
      ensures old(Consistent(Now())) ==> Consistent(Now())
    {
      if l.hidden {
        Remove(l.id);
        return;
      }
      missingCounts := missingCounts - {l.id};
      devices := devices[l.id := l.info];
      if l.id !in states {
        states := states[l.id := policy.initial(l.info)];
      }
      states := states[l.id := policy.merged(states[l.id], l.info)];
    }

    /** A state arrives for a device, whether or not it is in the inventory: no device's record moves. */
    method Update(id: string, state: V)
      requires Valid()
      modifies this
      ensures Valid() && found == old(found) && happenings == old(happenings) + [Happening.Update(id, state)]
      ensures forall other :: Entry(Now(), other) == Entry(old(Now()), other)
      ensures IsOrphan(Now(), id) <==> id !in devices
    {
      states := states[id := state];
      happenings := happenings + [Happening.Update(id, state)];
      assert happenings[..|happenings| - 1] == old(happenings);
    }

    /** After every snapshot the records are exactly what the history of snapshots says. */
    method Merge(discovered: seq<Listing<I>>)
      requires Valid()
      modifies this
      ensures Valid() && found == old(found) && happenings == old(happenings) + [Snapshot(discovered)] && Consistent(Now())
      ensures forall id, m: nat ::
                Entry(Now(), id) == Some(m) <==> m < TOLERANCE && TrailingMisses(History(found, happenings, id), m)
    {
      MergeListings(discovered);
      happenings := happenings + [Snapshot(discovered)];
      assert happenings[..|happenings| - 1] == old(happenings);
      InventoryFollowsHistory(found, happenings, policy, "", 0);
      forall id, m: nat
        ensures Entry(Now(), id) == Some(m) <==> m < TOLERANCE && TrailingMisses(History(found, happenings, id), m)
      {
        InventoryFollowsHistory(found, happenings, policy, id, m);
      }
    }

    method MergeListings(discovered: seq<Listing<I>>)
      modifies `devices, `states, `missingCounts
      ensures Now() == MergeCloud(old(Now()), discovered, policy)
    {
      var seen: set<string> := {};
      for i := 0 to |discovered|
        invariant Now() == ListAll(old(Now()), discovered[..i], policy)
        invariant seen == Seen(discovered[..i])
      {
        var l := discovered[i];
        assert discovered[..i + 1][..i] == discovered[..i];
        assert discovered[..i + 1] == discovered[..i] + [l];
        MergeOne(l);
        if !l.hidden {
          seen := seen + {l.id};
        }
      }
      assert discovered[..|discovered|] == discovered;
      RemoveMissingDevices(seen);
    }

    method RemoveIfMissing(id: string, seen: set<string>)
      modifies `devices, `states, `missingCounts
      ensures Now() == DropOne(old(Now()), seen, id)
    {
      if id in seen {
        return;
      }
      var misses := (if id in missingCounts then missingCounts[id] else 0) + 1;
      if misses < TOLERANCE {
        missingCounts := missingCounts[id := misses];
        return;
      }
      Remove(id);
    }

    method RemoveMissingDevices(seen: set<string>)
      modifies `devices, `states, `missingCounts
      ensures Now() == DropMissing(old(Now()), seen, old(devices).Keys)
    {
      ghost var before := Now();
      ghost var done: set<string> := {};
      var todo := devices.Keys;
      DropNone(before, seen);
      while todo != {}
        invariant done !! todo && done + todo == old(devices).Keys
        invariant Now() == DropMissing(before, seen, done)
        decreases todo
      {
        var id :| id in todo;
        DropOneMore(before, seen, done, id);
        todo := todo - {id};
        done := done + {id};
        RemoveIfMissing(id, seen);
      }
      assert done == old(devices).Keys;
    }
  }
}
