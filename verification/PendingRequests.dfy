/**
 The request/response correlation registry. A future is a handle into the event loop's futures;
 each remembers its key, its outcome and how often it was completed (asyncio forbids a second time).
 Between a future's completion and its waiter's cleanup other calls may come, so these are two events.
 */
module PendingRequests {
  import opened Wrappers

  datatype Outcome<R> = Pending | Value(result: Option<R>) | Cancelled

  datatype Future<R> = Future(key: string, outcome: Outcome<R>, completions: nat)

  datatype State<R> = State(table: map<string, nat>, futures: seq<Future<R>>)

  datatype Event<R> =
    | Register(key: string, replace: bool)
    | Resolve(key: string, result: Option<R>)
    | Abandon(future: nat)                        // the waiter times out or is cancelled
    | WaitEnds(key: string, future: nat)          // the waiter's cleanup, once the future is done
    | Cancel(key: string, given: Option<nat>)
    | CancelAll

  function Completed<R>(f: Future<R>, outcome: Outcome<R>): Future<R> {
    Future(f.key, outcome, f.completions + 1)
  }

  /** The futures after completing the pending ones among `hit`. */
  function CompleteAll<R>(futures: seq<Future<R>>, hit: set<nat>, outcome: Outcome<R>): (r: seq<Future<R>>)
    ensures |r| == |futures|
    ensures forall i | 0 <= i < |r| ::
              r[i] == if i in hit && futures[i].outcome.Pending? then Completed(futures[i], outcome) else futures[i]
  {
    seq(|futures|, i requires 0 <= i < |futures| =>
      if i in hit && futures[i].outcome.Pending? then Completed(futures[i], outcome) else futures[i])
  }

  function Stored<R>(s: State<R>, key: string): set<nat> {
    if key in s.table then {s.table[key]} else {}
  }

  /** Drops the registration of a key, but only if it is this future's. */
  function Drop(table: map<string, nat>, key: string, hit: set<nat>): map<string, nat> {
    if key in table && table[key] in hit then table - {key} else table
  }

  predicate Refused<R>(s: State<R>, key: string, replace: bool) {
    !replace && key in s.table && s.table[key] < |s.futures| && s.futures[s.table[key]].outcome.Pending?
  }

  predicate Possible<R>(s: State<R>, e: Event<R>) {
    match e
    case Abandon(f) => f < |s.futures|
    case WaitEnds(_, f) => f < |s.futures| && !s.futures[f].outcome.Pending?
    case Cancel(_, given) => given.Some? ==> given.value < |s.futures|
    case _ => true
  }

  function Step<R>(s: State<R>, e: Event<R>): State<R> {
    match e
    case Register(key, replace) =>
      if Refused(s, key, replace) then s
      else
        State(s.table[key := |s.futures|],
              CompleteAll(s.futures, Stored(s, key), Value(None)) + [Future(key, Pending, 0)])
    case Resolve(key, result) => s.(futures := CompleteAll(s.futures, Stored(s, key), Value(result)))
    case Abandon(f) => s.(futures := CompleteAll(s.futures, {f}, Cancelled))
    case WaitEnds(key, f) => s.(table := Drop(s.table, key, {f}))
    case Cancel(key, given) =>
      var hit := if given.Some? then {given.value} else Stored(s, key);
      State(Drop(s.table, key, hit), CompleteAll(s.futures, hit, Value(None)))
    case CancelAll => State(map[], CompleteAll(s.futures, s.table.Values, Value(None)))
  }

  function Run<R>(s: State<R>, events: seq<Event<R>>): State<R>
    decreases |events|
  {
    if events == [] then s else Run(Step(s, events[0]), events[1..])
  }

  predicate Runnable<R>(s: State<R>, events: seq<Event<R>>)
    decreases |events|
  {
    events == [] || (Possible(s, events[0]) && Runnable(Step(s, events[0]), events[1..]))
  }

  function Start<R>(): State<R> {
    State(map[], [])
  }

  // ---- What every run keeps ----

  predicate StoredUnderOwnKeys<R>(s: State<R>) {
    forall key | key in s.table :: s.table[key] < |s.futures| && s.futures[s.table[key]].key == key
  }

  predicate PendingAreStored<R>(s: State<R>) {
    forall f | 0 <= f < |s.futures| && s.futures[f].outcome.Pending? ::
      s.futures[f].key in s.table && s.table[s.futures[f].key] == f
  }

  predicate CompletedOnce<R>(s: State<R>) {
    forall f | 0 <= f < |s.futures| :: s.futures[f].completions == if s.futures[f].outcome.Pending? then 0 else 1
  }

  /** A stored future is the newest of its key. */
  predicate StoredAreNewest<R>(s: State<R>) {
    forall f | 0 <= f < |s.futures| && s.futures[f].key in s.table :: f <= s.table[s.futures[f].key]
  }

  predicate Inv<R>(s: State<R>) {
    StoredUnderOwnKeys(s) && PendingAreStored(s) && CompletedOnce(s) && StoredAreNewest(s)
  }

  /** Completing futures is safe as long as every registration that goes belongs to a completed one. */
  lemma CompletingKeepsInv<R>(s: State<R>, table: map<string, nat>, hit: set<nat>, outcome: Outcome<R>)
    requires Inv(s) && !outcome.Pending?
    requires forall key | key in table :: key in s.table && table[key] == s.table[key]
    requires forall key | key in s.table && key !in table ::
               s.table[key] in hit || !s.futures[s.table[key]].outcome.Pending?
    ensures Inv(State(table, CompleteAll(s.futures, hit, outcome)))
  {
    var t := State(table, CompleteAll(s.futures, hit, outcome));
    assert forall f | 0 <= f < |t.futures| :: t.futures[f].key == s.futures[f].key;
  }

  lemma AddingKeepsInv<R>(s: State<R>, key: string)
    requires Inv(s) && (key in s.table ==> !s.futures[s.table[key]].outcome.Pending?)
    ensures Inv(State(s.table[key := |s.futures|], s.futures + [Future(key, Pending, 0)]))
  {
    var t := State(s.table[key := |s.futures|], s.futures + [Future(key, Pending, 0)]);
    assert forall f | 0 <= f < |s.futures| :: t.futures[f] == s.futures[f];
  }

  lemma StepKeepsInv<R>(s: State<R>, e: Event<R>)
    requires Inv(s) && Possible(s, e)
    ensures Inv(Step(s, e))
  {
    match e
    case Register(key, replace) =>
      if !Refused(s, key, replace) {
        CompletingKeepsInv(s, s.table, Stored(s, key), Value(None));
        AddingKeepsInv(State(s.table, CompleteAll(s.futures, Stored(s, key), Value(None))), key);
      }
    case Resolve(key, result) => CompletingKeepsInv(s, s.table, Stored(s, key), Value(result));
    case Abandon(f) => CompletingKeepsInv(s, s.table, {f}, Cancelled);
    case WaitEnds(key, f) =>
      CompletingKeepsInv(s, Drop(s.table, key, {f}), {}, Cancelled);
      assert CompleteAll(s.futures, {}, Cancelled) == s.futures;
    case Cancel(key, given) =>
      var hit := if given.Some? then {given.value} else Stored(s, key);
      CompletingKeepsInv(s, Drop(s.table, key, hit), hit, Value(None));
    case CancelAll => CompletingKeepsInv(s, map[], s.table.Values, Value(None));
  }

  /** After any sequence of calls: no pending future is orphaned, none is completed twice. */
  lemma {:induction false} RunKeepsInv<R>(s: State<R>, events: seq<Event<R>>)
    requires Inv(s) && Runnable(s, events)
    ensures Inv(Run(s, events))
    decreases |events|
  {
    if events != [] {
      StepKeepsInv(s, events[0]);
      RunKeepsInv(Step(s, events[0]), events[1..]);
    }
  }

  /** At most one request is in flight for a key, and it is the newest one made for that key. */
  lemma OneInFlightPerKey<R>(events: seq<Event<R>>, f: nat, g: nat)
    requires Runnable(Start<R>(), events)
    requires var s := Run(Start<R>(), events);
             f < |s.futures| && g < |s.futures| && s.futures[f].key == s.futures[g].key && s.futures[f].outcome.Pending?
    ensures g <= f && (Run(Start<R>(), events).futures[g].outcome.Pending? ==> g == f)
  {
    RunKeepsInv(Start<R>(), events);
  }

  /** `cancel_all` leaves no request pending and none registered, in every reachable state. */
  lemma NothingPendingAfterCancelAll<R>(events: seq<Event<R>>)
    requires Runnable(Start<R>(), events)
    ensures var s := Step(Run(Start<R>(), events), CancelAll);
            s.table == map[] && forall f | 0 <= f < |s.futures| :: !s.futures[f].outcome.Pending?
  {
    RunKeepsInv(Start<R>(), events);
    StepKeepsInv(Run(Start<R>(), events), CancelAll);
  }

  /** A waiter's cleanup touches no registration but that of its own future, whichever key it was given. */
  lemma WaiterRemovesOnlyItsOwn<R>(s: State<R>, key: string, f: nat)
    requires Inv(s) && Possible(s, WaitEnds(key, f))
    ensures var t := Step(s, WaitEnds(key, f));
            && t.futures == s.futures
            && forall k | k in s.table && s.table[k] != f :: k in t.table && t.table[k] == s.table[k]
    ensures key == s.futures[f].key ==>
              forall k | k in Step(s, WaitEnds(key, f)).table :: Step(s, WaitEnds(key, f)).table[k] != f
  {
    forall k | k in s.table && s.table[k] == f ensures k == s.futures[f].key {
    }
  }

  // ---- What becomes of one request ----

  /** The first of the events that is addressed to a future decides its outcome; no table is consulted. */
  function Fate<R>(f: nat, key: string, events: seq<Event<R>>): Outcome<R>
    decreases |events|
  {
    if events == [] then Pending
    else
      match Verdict(f, key, events[0])
      case Pending => Fate(f, key, events[1..])
      case outcome => outcome
  }

  function Verdict<R>(f: nat, key: string, e: Event<R>): Outcome<R> {
    match e
    case Register(k, replace) => if k == key && replace then Value(None) else Pending
    case Resolve(k, result) => if k == key then Value(result) else Pending
    case Abandon(g) => if g == f then Cancelled else Pending
    case WaitEnds(_, _) => Pending
    case Cancel(k, None) => if k == key then Value(None) else Pending
    case Cancel(_, Some(g)) => if g == f then Value(None) else Pending
    case CancelAll => Value(None)
  }

  lemma StepDecides<R>(s: State<R>, e: Event<R>, f: nat)
    requires Inv(s) && Possible(s, e) && f < |s.futures|
    ensures f < |Step(s, e).futures| && Step(s, e).futures[f].key == s.futures[f].key
    ensures Step(s, e).futures[f].outcome
         == if s.futures[f].outcome.Pending? then Verdict(f, s.futures[f].key, e) else s.futures[f].outcome
  {
    if s.futures[f].outcome.Pending? {
      assert s.table[s.futures[f].key] == f;
    }
  }

  /** A request's outcome is decided by the first later event addressed to it, and is then final. */
  lemma {:induction false} FirstAddressedEventDecides<R>(s: State<R>, events: seq<Event<R>>, f: nat)
    requires Inv(s) && Runnable(s, events) && f < |s.futures|
    ensures f < |Run(s, events).futures|
    ensures Run(s, events).futures[f].outcome
         == if s.futures[f].outcome.Pending? then Fate(f, s.futures[f].key, events) else s.futures[f].outcome
    decreases |events|
  {
    if events != [] {
      StepDecides(s, events[0], f);
      StepKeepsInv(s, events[0]);
      FirstAddressedEventDecides(Step(s, events[0]), events[1..], f);
    }
  }

  // ---- The registry ----

  class PendingRequests<R> {
    var table: map<string, nat>
    var futures: seq<Future<R>>

    function Now(): State<R>
      reads this
    {
      State(table, futures)
    }

    constructor ()
      ensures Now() == Start<R>()
    {
      table, futures := map[], [];
    }

    method SetResult(f: nat, outcome: Outcome<R>)
      requires f < |futures| && futures[f].outcome.Pending?
      modifies `futures
      ensures futures == CompleteAll(old(futures), {f}, outcome)
    {
      futures := futures[f := Completed(futures[f], outcome)];
    }

    /** Completes a future with no result unless it is done. */
    method CancelOne(f: nat)
      requires f < |futures|
      modifies `futures
      ensures futures == CompleteAll(old(futures), {f}, Value(None))
    {
      if futures[f].outcome.Pending? { SetResult(f, Value(None)); }
    }

    method Register(key: string, replace: bool) returns (future: Option<nat>)
      requires Inv(Now())
      modifies this
      ensures Inv(Now()) && Now() == Step(old(Now()), Event.Register(key, replace))
      ensures future == if Refused(old(Now()), key, replace) then None else Some(|old(futures)|)
    {
      StepKeepsInv(Now(), Event.Register(key, replace));
      if Refused(Now(), key, replace) { return None; }
      if key in table { CancelOne(table[key]); }
      assert futures == CompleteAll(old(futures), Stored(old(Now()), key), Value(None));
      future := Some(|futures|);
      futures := futures + [Future(key, Pending, 0)];
      table := table[key := future.value];
    }

    method Resolve(key: string, result: Option<R>) returns (resolved: bool)
      requires Inv(Now())
      modifies `futures
      ensures Inv(Now()) && Now() == Step(old(Now()), Event.Resolve(key, result))
      ensures resolved <==> key in table && old(futures[table[key]]).outcome.Pending?
    {
      StepKeepsInv(Now(), Event.Resolve(key, result));
      if key !in table || !futures[table[key]].outcome.Pending? { return false; }
      SetResult(table[key], Value(result));
      return true;
    }

    /** The `finally` of `wait`. */
    method WaitEnds(key: string, future: nat)
      requires Inv(Now()) && Possible(Now(), Event.WaitEnds(key, future))
      modifies `table
      ensures Inv(Now()) && Now() == Step(old(Now()), Event.WaitEnds(key, future))
    {
      StepKeepsInv(Now(), Event.WaitEnds(key, future));
      if key in table && table[key] == future {
        table := table - {key};
      }
    }

    method Cancel(key: string, given: Option<nat>)
      requires Inv(Now()) && Possible(Now(), Event.Cancel(key, given))
      modifies this
      ensures Inv(Now()) && Now() == Step(old(Now()), Event.Cancel(key, given))
    {
      StepKeepsInv(Now(), Event.Cancel(key, given));
      var future := given;
      if future.None? && key in table { future := Some(table[key]); }
      if future.Some? && futures[future.value].outcome.Pending? { SetResult(future.value, Value(None)); }
      if key in table && future == Some(table[key]) { table := table - {key}; }
    }

    method CancelAll()
      requires Inv(Now())
      modifies this
      ensures Inv(Now()) && Now() == Step(old(Now()), Event.CancelAll)
    {
      StepKeepsInv(Now(), Event.CancelAll);
      var left := table.Values;
      ghost var all := table.Values;
      while left != {}
        invariant left <= all && table == old(table)
        invariant |futures| == |old(futures)|
        invariant futures == CompleteAll(old(futures), all - left, Value(None))
      {
        var f :| f in left;
        CompletingMore(old(futures), all - left, f);
        CancelOne(f);
        assert all - (left - {f}) == all - left + {f};
        left := left - {f};
      }
      assert all - left == all;
      table := map[];
    }
  }

  lemma CompletingMore<R>(futures: seq<Future<R>>, hit: set<nat>, f: nat)
    ensures CompleteAll(CompleteAll(futures, hit, Value(None)), {f}, Value(None))
         == CompleteAll(futures, hit + {f}, Value(None))
  {
  }
}
