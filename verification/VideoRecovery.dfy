/**
 The recovery of the bridge: a bounded number of spaced attempts, each of which waits for a shared warm-up.
 What an attempt finds and how it ends is tied to the states and steps of the bridge at the end.
 */
module VideoRecovery {
  import opened Wrappers
  import opened P = VideoProtocol

  const RECOVERY_TIMEOUT := 120.0
  const FIRST_FRAME_TIMEOUT := 55.0
  const RECOVERY_BACKOFF := 1.0
  const RECOVERY_ATTEMPTS := 3

  datatype Outcome = Warmed | WarmFailed | Cancelled

  /** What the recovery finds when it wakes for one attempt, and how the warm-up it then awaits ends. */
  datatype Wake = Wake(closed: bool, prepared: bool, active: bool, outcome: Outcome, took: real)

  function Delay(attempt: nat): real {
    var doubled := if attempt == 0 then 1.0 else if attempt == 1 then 2.0 else 4.0;
    if RECOVERY_BACKOFF * doubled < 8.0 then RECOVERY_BACKOFF * doubled else 8.0
  }

  predicate Proceeds(w: Wake) {
    !w.closed && !w.prepared && !w.active
  }

  /** When attempt `i` of a recovery begun at `begin` would start, if all earlier ones failed. */
  function StartTime(begin: real, wakes: seq<Wake>, i: nat): real
    requires i <= |wakes|
  {
    if i == 0 then begin + Delay(0) else StartTime(begin, wakes, i - 1) + wakes[i - 1].took + Delay(i)
  }

  /** Attempt `i` is made: it is the first, or the one before it was made and failed; and there is time left. */
  predicate Attempted(begin: real, wakes: seq<Wake>, i: nat)
    requires i < |wakes|
  {
    && (i > 0 ==> Attempted(begin, wakes, i - 1) && wakes[i - 1].outcome.WarmFailed?)
    && StartTime(begin, wakes, i) + FIRST_FRAME_TIMEOUT <= begin + RECOVERY_TIMEOUT
    && Proceeds(wakes[i])
  }

  /** `_recover`, with exact sleeps: the start times of its warm-up attempts. */
  method Recovery(begin: real, wakes: seq<Wake>) returns (starts: seq<real>)
    requires |wakes| == RECOVERY_ATTEMPTS && forall w | w in wakes :: w.took >= 0.0
    ensures |starts| <= RECOVERY_ATTEMPTS
    ensures forall i | 0 <= i < RECOVERY_ATTEMPTS :: i < |starts| <==> Attempted(begin, wakes, i)
    ensures forall i | 0 <= i < |starts| ::
              starts[i] == StartTime(begin, wakes, i) <= begin + RECOVERY_TIMEOUT - FIRST_FRAME_TIMEOUT
  {
    starts := [];
    var now := begin;
    var deadline := now + RECOVERY_TIMEOUT;
    for attempt := 0 to RECOVERY_ATTEMPTS
      invariant |starts| == attempt
      invariant now + Delay(attempt) == StartTime(begin, wakes, attempt)
      invariant forall i | 0 <= i < attempt :: Attempted(begin, wakes, i) && wakes[i].outcome.WarmFailed?
      invariant forall i | 0 <= i < attempt ::
                  starts[i] == StartTime(begin, wakes, i) <= begin + RECOVERY_TIMEOUT - FIRST_FRAME_TIMEOUT
    {
      var delay := Delay(attempt);
      if now + delay + FIRST_FRAME_TIMEOUT > deadline {
        StopsAt(begin, wakes, attempt);
        return;
      }
      now := now + delay;
      if !Proceeds(wakes[attempt]) {
        StopsAt(begin, wakes, attempt);
        return;
      }
      starts := starts + [now];
      now := now + wakes[attempt].took;
      if !wakes[attempt].outcome.WarmFailed? {
        if attempt + 1 < RECOVERY_ATTEMPTS {
          StopsAt(begin, wakes, attempt + 1);
        }
        return;
      }
    }
  }

  lemma {:induction false} StopsAt(begin: real, wakes: seq<Wake>, i: nat)
    requires i < |wakes| && !Attempted(begin, wakes, i)
    ensures forall j | i <= j < |wakes| :: !Attempted(begin, wakes, j)
    decreases |wakes| - i
  {
    if i + 1 < |wakes| {
      StopsAt(begin, wakes, i + 1);
    }
  }

  /** A second attempt comes at least three, a third at least seven seconds after the recovery began. */
  lemma {:induction false} AttemptsAreSpaced(begin: real, wakes: seq<Wake>, i: nat)
    requires |wakes| == RECOVERY_ATTEMPTS && i < RECOVERY_ATTEMPTS && Attempted(begin, wakes, i)
    requires forall w | w in wakes :: w.took >= 0.0
    ensures StartTime(begin, wakes, i) >= begin + (if i == 0 then 1.0 else if i == 1 then 3.0 else 7.0)
    ensures forall j | 0 <= j < i :: Attempted(begin, wakes, j) && wakes[j].outcome.WarmFailed?
  {
    if i > 0 {
      AttemptsAreSpaced(begin, wakes, i - 1);
      assert wakes[i - 1] in wakes;
    }
  }

  // ---- Attempts on the bridge ----

  /** The wake reads off the bridge what `_recover` tests. */
  predicate Sees(s: State, w: Wake) {
    w.closed == s.closed && w.prepared == s.prepared.Some? && w.active == s.active.Some?
  }

  /** How an event ends the warm-up `t`: with its pipeline in the slot, failed and closed, or cancelled unbegun. */
  function EndsBy(s: State, e: Event, t: TaskId): Option<Outcome> {
    if e == WarmReady(t) && !s.closed then Some(Warmed)
    else if e == WarmEnd(t) then Some(WarmFailed)
    else if e == WarmCancelled(t) then Some(Outcome.Cancelled)
    else None
  }

  /** How the warm-up `t` ends along a run, if it does. */
  function EndOf(s: State, es: seq<Event>, t: TaskId): Option<Outcome>
    requires Executable(s, es)
    decreases |es|
  {
    if es == [] then None
    else if EndsBy(s, es[0], t).Some? then EndsBy(s, es[0], t)
    else EndOf(Apply(s, es[0]), es[1..], t)
  }

  /** On an open bridge the current warm-up has not ended. */
  ghost predicate WarmRuns(s: State) {
    Tasks(s) && (!s.closed && s.warming.Some? ==> s.warming.value in s.warms)
  }

  /** No warm-up ends, and what was streamed or closed stays so. */
  predicate Onward(s: State, t: State) {
    && t.mode == s.mode && (s.everStreamed ==> t.everStreamed) && (s.closed ==> t.closed)
    && s.nextId <= t.nextId
    && (t.warming == s.warming || (t.warming == Some(s.nextId) && s.nextId < t.nextId && s.nextId in t.warms))
    && (forall w | w in s.warms :: w in t.warms) && (forall w | w in t.warms :: w in s.warms || s.nextId <= w)
  }

  predicate IsWarmEvent(e: Event) {
    e.WarmBegin? || e.WarmReady? || e.WarmFail? || e.WarmEnd? || e.WarmCancelled?
  }

  lemma FallbackIsOnward(s: State, h: TaskId)
    requires h in s.handlers
    ensures Onward(s, Fallback(s, h))
  {
  }

  lemma TakeFirstIsOnward(s: State, h: TaskId, healthy: bool)
    requires h in s.handlers
    ensures Onward(s, TakeFirst(s, h, healthy))
  {
    FallbackIsOnward(s, h);
  }

  lemma TakeSecondIsOnward(s: State, h: TaskId, healthy: bool)
    requires h in s.handlers
    ensures Onward(s, TakeSecond(s, h, healthy))
  {
  }

  lemma RunIsOnward(s: State, e: Event)
    requires Enabled(s, e) && (e.RunStart? || e.RunJoined? || e.RunWarmed? || e.RunDropped?)
    ensures Onward(s, Apply(s, e))
  {
    match e
    case RunStart(h, healthy) =>
      if s.warming.None? { TakeFirstIsOnward(s, h, healthy); }
    case RunJoined(h, healthy) => TakeFirstIsOnward(s, h, healthy);
    case RunWarmed(h, healthy) => TakeSecondIsOnward(s, h, healthy);
    case RunDropped(h) => FallbackIsOnward(Close(s, s.handlers[h].phase.failed), h);
  }

  lemma StepIsOnward(s: State, e: Event)
    requires Enabled(s, e) && !IsWarmEvent(e)
    ensures Onward(s, Apply(s, e))
  {
    if e.RunStart? || e.RunJoined? || e.RunWarmed? || e.RunDropped? {
      RunIsOnward(s, e);
    } else if e.PrepareReuse? || e.PrepareWarm? || e.PrepareDrop? || e.PrepareDropped? || e.PrepareReplace? || e.Recover? {
      PrepareIsOnward(s, e);
    }
  }

  lemma PrepareIsOnward(s: State, e: Event)
    requires Enabled(s, e)
    requires e.PrepareReuse? || e.PrepareWarm? || e.PrepareDrop? || e.PrepareDropped? || e.PrepareReplace? || e.Recover?
    ensures Onward(s, Apply(s, e))
  {
  }

  /** What a step does to the warm-up `t`, and what it keeps. */
  lemma StepEnds(s: State, e: Event, t: TaskId)
    requires WarmRuns(s) && Enabled(s, e) && t < s.nextId
    ensures Tasks(Apply(s, e)) ==> WarmRuns(Apply(s, e))
    ensures t < Apply(s, e).nextId
    ensures t in s.warms ==> (EndsBy(s, e, t).None? <==> t in Apply(s, e).warms)
    ensures t !in s.warms ==> t !in Apply(s, e).warms
    ensures Apply(s, e).mode == s.mode && (s.everStreamed ==> Apply(s, e).everStreamed) && (s.closed ==> Apply(s, e).closed)
  {
    if IsWarmEvent(e) {
      WarmEventEnds(s, e, t);
    } else {
      StepIsOnward(s, e);
    }
  }

  lemma WarmEventEnds(s: State, e: Event, t: TaskId)
    requires WarmRuns(s) && Enabled(s, e) && t < s.nextId && IsWarmEvent(e)
    ensures var s' := Apply(s, e);
            && (!s'.closed && s'.warming.Some? ==> s'.warming.value in s'.warms) && t < s'.nextId
            && (t in s.warms ==> (EndsBy(s, e, t).None? <==> t in s'.warms)) && (t !in s.warms ==> t !in s'.warms)
            && s'.mode == s.mode && s'.everStreamed == s.everStreamed && s'.closed == s.closed
  {
  }

  lemma {:induction false} RunEnds(s: State, es: seq<Event>, t: TaskId)
    requires WarmRuns(s) && Inv(s) && Executable(s, es) && t < s.nextId
    ensures WarmRuns(Final(s, es)) && Inv(Final(s, es)) && t < Final(s, es).nextId
    ensures t in s.warms ==> (EndOf(s, es, t).None? <==> t in Final(s, es).warms)
    ensures t !in s.warms ==> t !in Final(s, es).warms
    ensures Final(s, es).mode == s.mode && (s.everStreamed ==> Final(s, es).everStreamed) && (s.closed ==> Final(s, es).closed)
    ensures EndOf(s, es, t) == Some(Outcome.Cancelled) ==> Final(s, es).closed
    decreases |es|
  {
    if es != [] {
      StepKeepsInv(s, es[0]);
      StepEnds(s, es[0], t);
      RunEnds(Apply(s, es[0]), es[1..], t);
      assert es[0] == WarmCancelled(t) ==> s.closed;
    }
  }

  lemma {:induction false} RunKeepsWarmRuns(s: State, es: seq<Event>)
    requires WarmRuns(s) && Inv(s) && Executable(s, es)
    ensures WarmRuns(Final(s, es)) && Inv(Final(s, es))
    decreases |es|
  {
    if es != [] {
      StepKeepsInv(s, es[0]);
      if IsWarmEvent(es[0]) {
        StepEnds(s, es[0], es[0].warm);
      } else {
        StepIsOnward(s, es[0]);
      }
      RunKeepsWarmRuns(Apply(s, es[0]), es[1..]);
    }
  }

  /**
   On a live bridge that has streamed, an attempt is made exactly when the recovery step is enabled, and awaits a
   running warm-up.
   */
  lemma AttemptIsTheStep(es: seq<Event>, w: Wake)
    requires Executable(Init(Live), es) && Final(Init(Live), es).everStreamed && Sees(Final(Init(Live), es), w)
    ensures Proceeds(w) <==> Enabled(Final(Init(Live), es), Recover)
    ensures var s := Final(Init(Live), es);
            Enabled(s, Recover) ==>
              var t := Apply(s, Recover); t.warming.Some? && t.warming.value in t.warms && (s.warming.Some? ==> t == s)
  {
    assert Inv(Init(Live));
    RunKeepsWarmRuns(Init(Live), es);
    ModeIsFixed(Init(Live), es);
  }

  /**
   What an attempt waits for, whatever happens meanwhile: its warm-up has ended, in exactly one way, when it is no
   longer among the running ones; it is cancelled only by `async_close`; and an attempt made after it has ended
   waits for another, later warm-up.
   */
  lemma AttemptsAwaitWarmUps(es: seq<Event>, more: seq<Event>)
    requires Executable(Init(Live), es) && Enabled(Final(Init(Live), es), Recover)
    requires Executable(Apply(Final(Init(Live), es), Recover), more)
    ensures var s := Apply(Final(Init(Live), es), Recover);
            var t, f := s.warming.value, Final(s, more);
            && (EndOf(s, more, t).None? <==> t in f.warms)
            && (EndOf(s, more, t) == Some(Outcome.Cancelled) ==> f.closed)
            && (EndOf(s, more, t).Some? && Enabled(f, Recover) ==> Apply(f, Recover).warming.value != t)
            && (EndOf(s, more, t).Some? && Enabled(f, Recover) ==> Apply(f, Recover).warming.value in Apply(f, Recover).warms)
  {
    assert Inv(Init(Live));
    RunKeepsWarmRuns(Init(Live), es);
    var before := Final(Init(Live), es);
    var s := Apply(before, Recover);
    StepKeepsInv(before, Recover);
    RecoverAwaits(before);
    RunEnds(s, more, s.warming.value);
    if Enabled(Final(s, more), Recover) {
      RecoverAwaits(Final(s, more));
    }
  }

  lemma RecoverAwaits(s: State)
    requires WarmRuns(s) && Enabled(s, Recover)
    ensures var t := Apply(s, Recover);
            t.warming.Some? && t.warming.value in t.warms && t.warming.value < t.nextId && (Tasks(t) ==> WarmRuns(t))
    ensures forall w | w < s.nextId && w !in s.warms :: Apply(s, Recover).warming.value != w
  {
  }
}
