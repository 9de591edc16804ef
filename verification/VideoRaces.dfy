/**
 When the bridge can and cannot lose a pipeline. The prepared slot is guarded only as long as
 `async_prepare` closes a failed pipeline and asks for a new warm-up without letting others in.
 */
module VideoRaces {
  import opened Wrappers
  import opened VideoProtocol

  /** No `async_prepare` call gives way while it closes a failed pipeline. */
  predicate Unhurried(es: seq<Event>) {
    forall e | e in es :: !e.PrepareDrop?
  }

  /** The two halves of a failed `async_prepare`, run back to back, are the one-step replacement. */
  lemma DropThenResumeIsReplace(s: State)
    requires Enabled(s, PrepareDrop) && s.prepared.value !in s.closing
    ensures Enabled(Apply(s, PrepareDrop), PrepareDropped(s.prepared.value))
    ensures Enabled(s, PrepareReplace)
    ensures Apply(Apply(s, PrepareDrop), PrepareDropped(s.prepared.value)) == Apply(s, PrepareReplace)
  {
    var p := s.prepared.value;
    assert s.closing[p := Preparer] - {p} == s.closing;
  }

  ghost predicate SlotGuarded(s: State)
    requires Tasks(s)
  {
    && (forall p | p in s.closing :: !s.closing[p].Preparer?)
    && (s.prepared.Some? ==> s.warms == map[])
    && (s.active.Some? && s.handlers[s.active.value].phase.DroppingFirst? ==> s.prepared.None? && s.warms == map[])
  }

  lemma GuardPrepare(s: State, e: Event)
    requires Tasks(s) && SlotGuarded(s) && Enabled(s, e) && Tasks(Apply(s, e))
    requires e.PrepareReuse? || e.PrepareWarm? || e.PrepareDropped? || e.PrepareReplace? || e.Recover? || e.Get?
    ensures SlotGuarded(Apply(s, e))
  {
  }

  lemma GuardClose(s: State, e: Event)
    requires Tasks(s) && SlotGuarded(s) && Enabled(s, e) && Tasks(Apply(s, e))
    requires e.ExpiryFire? || e.CloseEnds? || e.CloseBegin? || e.CloseCancel? || e.CloseClaim? || e.CloseFinish?
    ensures SlotGuarded(Apply(s, e))
  {
  }

  lemma GuardWarm(s: State, e: Event)
    requires Tasks(s) && SlotGuarded(s) && Enabled(s, e) && Tasks(Apply(s, e))
    requires e.WarmBegin? || e.WarmReady? || e.WarmFail? || e.WarmEnd? || e.WarmCancelled?
    ensures SlotGuarded(Apply(s, e))
  {
    if e.WarmReady? || e.WarmEnd? || e.WarmCancelled? {
      assert forall w | w in s.warms :: w == e.warm;
      assert s.warms - {e.warm} == map[];
    }
  }

  lemma GuardFallback(s: State, h: TaskId)
    requires Tasks(s) && SlotGuarded(s) && h in s.handlers && s.prepared.None? && Tasks(Fallback(s, h))
    ensures SlotGuarded(Fallback(s, h))
  {
  }

  lemma GuardTakeFirst(s: State, h: TaskId, healthy: bool)
    requires Tasks(s) && SlotGuarded(s) && h in s.handlers && Tasks(TakeFirst(s, h, healthy))
    requires s.handlers[h].phase.Queued? || s.handlers[h].phase.Joining?
    ensures SlotGuarded(TakeFirst(s, h, healthy))
  {
    if s.prepared.None? {
      GuardFallback(s, h);
    }
  }

  lemma GuardTakeSecond(s: State, h: TaskId, healthy: bool)
    requires Tasks(s) && SlotGuarded(s) && h in s.handlers && Tasks(TakeSecond(s, h, healthy))
    requires s.handlers[h].phase.Awaiting?
    ensures SlotGuarded(TakeSecond(s, h, healthy))
  {
    if s.prepared.Some? && healthy {
      GuardAdopt(s, h);
    }
  }

  lemma GuardAdopt(s: State, h: TaskId)
    requires Tasks(s) && SlotGuarded(s) && h in s.handlers && s.prepared.Some? && Tasks(Adopt(s, h))
    ensures SlotGuarded(Adopt(s, h))
  {
  }

  lemma GuardRequest(s: State, e: Event)
    requires Tasks(s) && SlotGuarded(s) && Enabled(s, e) && Tasks(Apply(s, e))
    requires e.RunGaveUp? || e.RunPiped? || e.FirstWrite? || e.Leave? || e.LeftoverClosed? || e.HandlerEnd?
    ensures SlotGuarded(Apply(s, e))
  {
    if e.RunGaveUp? || e.LeftoverClosed? {
      GuardClosed(s, e);
    } else if e.RunPiped? || e.FirstWrite? {
      GuardObtained(s, e);
    } else {
      GuardEnding(s, e);
    }
  }

  lemma GuardClosed(s: State, e: Event)
    requires Tasks(s) && SlotGuarded(s) && Enabled(s, e) && Tasks(Apply(s, e)) && (e.RunGaveUp? || e.LeftoverClosed?)
    ensures SlotGuarded(Apply(s, e))
  {
  }

  lemma GuardObtained(s: State, e: Event)
    requires Tasks(s) && SlotGuarded(s) && Enabled(s, e) && Tasks(Apply(s, e)) && (e.RunPiped? || e.FirstWrite?)
    ensures SlotGuarded(Apply(s, e))
  {
  }

  lemma GuardEnding(s: State, e: Event)
    requires Tasks(s) && SlotGuarded(s) && Enabled(s, e) && Tasks(Apply(s, e)) && (e.Leave? || e.HandlerEnd?)
    ensures SlotGuarded(Apply(s, e))
  {
  }

  lemma GuardDropped(s: State, h: TaskId)
    requires Tasks(s) && SlotGuarded(s) && Enabled(s, RunDropped(h)) && Tasks(Apply(s, RunDropped(h)))
    ensures SlotGuarded(Apply(s, RunDropped(h)))
  {
  }

  lemma GuardTakes(s: State, e: Event)
    requires Tasks(s) && SlotGuarded(s) && Enabled(s, e) && Tasks(Apply(s, e))
    requires e.RunStart? || e.RunJoined? || e.RunWarmed?
    ensures SlotGuarded(Apply(s, e))
  {
    match e
    case RunStart(h, healthy) =>
      if s.warming.None? {
        GuardTakeFirst(s, h, healthy);
      }
    case RunJoined(h, healthy) => GuardTakeFirst(s, h, healthy);
    case RunWarmed(h, healthy) => GuardTakeSecond(s, h, healthy);
  }

  lemma GuardStep(s: State, e: Event)
    requires Tasks(s) && SlotGuarded(s) && Enabled(s, e) && !e.PrepareDrop? && Tasks(Apply(s, e))
    ensures SlotGuarded(Apply(s, e))
  {
    if e.RunStart? || e.RunJoined? || e.RunWarmed? {
      GuardTakes(s, e);
    } else if e.WarmBegin? || e.WarmReady? || e.WarmFail? || e.WarmEnd? || e.WarmCancelled? {
      GuardWarm(s, e);
    } else if e.RunDropped? {
      GuardDropped(s, e.request);
    } else if e.RunGaveUp? || e.RunPiped? || e.FirstWrite? || e.Leave? || e.LeftoverClosed? || e.HandlerEnd? {
      GuardRequest(s, e);
    } else if e.ExpiryFire? || e.CloseEnds? || e.CloseBegin? || e.CloseCancel? || e.CloseClaim? || e.CloseFinish? {
      GuardClose(s, e);
    } else {
      GuardPrepare(s, e);
    }
  }

  lemma {:induction false} UnhurriedRun(s: State, es: seq<Event>)
    requires Inv(s) && SlotGuarded(s) && Executable(s, es) && Unhurried(es)
    ensures Inv(Final(s, es)) && SlotGuarded(Final(s, es)) && OverwriteCount(s, es) == 0
    decreases |es|
  {
    if es != [] {
      StepKeepsInv(s, es[0]);
      GuardStep(s, es[0]);
      assert !Overwrites(s, es[0]);
      UnhurriedRun(Apply(s, es[0]), es[1..]);
    }
  }

  /** With one-step replacement every open session always has exactly one owner. */
  lemma UnhurriedRunsLoseNothing(mode: Mode, es: seq<Event>)
    requires Executable(Init(mode), es) && Unhurried(es)
    ensures OverwriteCount(Init(mode), es) == 0
    ensures forall p :: Owners(Final(Init(mode), es), p) == if p in Final(Init(mode), es).open then 1 else 0
    ensures var s := Final(Init(mode), es);
            s.stage.ShutDown? ==> (s.open == {} <==> s.closing == map[] && NoLateWarm(s))
  {
    assert Inv(Init(mode)) && SlotGuarded(Init(mode));
    UnhurriedRun(Init(mode), es);
    EveryOpenSessionHasOneOwner(mode, es);
    NothingLostIffNoOverwrite(mode, es);
    if Final(Init(mode), es).stage.ShutDown? {
      AfterShutdown(mode, es);
    }
  }

  /** From first GET to a warm pipeline in the slot: what both runs below start with. */
  function WarmOnce(first: TaskId): seq<Event> {
    [PrepareWarm, WarmBegin(first), WarmReady(first)]
  }

  predicate CanWarm(t: State) {
    AcceptsPrepare(t) && t.stage.Running? && t.prepared.None? && t.warming.None? && t.warms == map[]
  }

  function Warmed(t: State): State {
    t.(prepared := Some(t.nextId + 1), expiry := Some(t.nextId + 1), open := t.open + {t.nextId + 1}, nextId := t.nextId + 2)
  }

  function Asked(t: State): State {
    t.(warming := Some(t.nextId), warms := map[t.nextId := Scheduled], nextId := t.nextId + 1)
  }

  function Begun(t: State): State {
    Asked(t).(warms := map[t.nextId := Opening(t.nextId + 1)], open := t.open + {t.nextId + 1}, nextId := t.nextId + 2)
  }

  lemma WarmIsAsked(t: State)
    requires CanWarm(t)
    ensures Executable(t, [PrepareWarm]) && Final(t, [PrepareWarm]) == Asked(t)
  {
    ExtendTo(t, [], PrepareWarm, Asked(t));
  }

  lemma WarmIsBegun(t: State)
    requires CanWarm(t)
    ensures Executable(t, [PrepareWarm, WarmBegin(t.nextId)]) && Final(t, [PrepareWarm, WarmBegin(t.nextId)]) == Begun(t)
  {
    WarmIsAsked(t);
    ExtendTo(t, [PrepareWarm], WarmBegin(t.nextId), Begun(t));
    assert [PrepareWarm] + [WarmBegin(t.nextId)] == [PrepareWarm, WarmBegin(t.nextId)];
  }

  lemma WarmOnceFrom(t: State)
    requires CanWarm(t)
    ensures Executable(t, WarmOnce(t.nextId)) && Final(t, WarmOnce(t.nextId)) == Warmed(t)
  {
    var w := t.nextId;
    WarmIsBegun(t);
    assert map[w := Opening(w + 1)] - {w} == map[];
    ExtendTo(t, [PrepareWarm, WarmBegin(w)], WarmReady(w), Warmed(t));
    assert WarmOnce(w) == [PrepareWarm, WarmBegin(w)] + [WarmReady(w)];
  }

  lemma WarmOnceRun(s: State, es: seq<Event>)
    requires Executable(s, es) && CanWarm(Final(s, es))
    ensures Executable(s, es + WarmOnce(Final(s, es).nextId))
    ensures Final(s, es + WarmOnce(Final(s, es).nextId)) == Warmed(Final(s, es))
  {
    var t := Final(s, es);
    WarmOnceFrom(t);
    Concat(s, es, WarmOnce(t.nextId));
  }

  /** The slot holds session 3 while an image request is still closing the failed session 1. */
  lemma HurriedHalf() returns (es: seq<Event>)
    ensures Executable(Init(Live), es)
    ensures Final(Init(Live), es)
         == Init(Live).(prepared := Some(3), expiry := Some(3), open := {1, 3}, closing := map[1 := Preparer], nextId := 4)
  {
    var s := Init(Live);
    var dropping := Warmed(s).(prepared := None, closing := map[1 := Preparer]);
    WarmOnceFrom(s);
    ExtendTo(s, WarmOnce(0), PrepareDrop, dropping);
    WarmOnceRun(s, WarmOnce(0) + [PrepareDrop]);
    es := WarmOnce(0) + [PrepareDrop] + WarmOnce(2);
    assert Warmed(dropping).open == {1, 3};
  }

  /**
   Two image requests: the first gives way while closing a failed pipeline, the second warms a new
   one, and the first then warms another over it. Session 3 is lost.
   */
  lemma HurriedRunLosesASession()
    ensures exists es :: Executable(Init(Live), es) && 3 in LostSet(Final(Init(Live), es))
  {
    var s := Init(Live);
    var es := HurriedHalf();
    Extend(s, es, PrepareDropped(1));
    es := es + [PrepareDropped(1)];
    Extend(s, es, WarmBegin(4));
    es := es + [WarmBegin(4)];
    Extend(s, es, WarmReady(4));
    es := es + [WarmReady(4)];
    assert 3 in LostSet(Final(s, es));
  }
}
