/**
 What `async_close` leaves behind: what may be open when it returns, and what may still be opened after that.
 */
module VideoShutdown {
  import opened Wrappers
  import opened VideoProtocol
  import opened VideoRaces

  function CloseAll(p: SessionId): seq<Event> {
    [CloseBegin, CloseCancel, CloseClaim, CloseEnds(p), CloseFinish]
  }

  ghost predicate ReadyToClose(t: State) {
    && t.stage.Running? && t.active.None? && t.warms == map[] && t.prepared.Some?
    && t.prepared == t.expiry && t.prepared.value !in t.closing
    && forall p | p in t.closing :: t.closing[p].Expiry?
  }

  lemma ClaimStates(t: State)
    requires ReadyToClose(t)
    ensures Executable(t, [CloseBegin, CloseCancel, CloseClaim])
    ensures Final(t, [CloseBegin, CloseCancel, CloseClaim])
         == t.(closed := true, stage := Claimed(t.nextId), prepared := None,
               closing := t.closing[t.prepared.value := Shutdown])
  {
    var begun := t.(closed := true, stage := ShuttingDown);
    ExtendTo(t, [], CloseBegin, begun);
    ExtendTo(t, [CloseBegin], CloseCancel, begun.(stage := Draining(t.nextId)));
    Extend(t, [CloseBegin] + [CloseCancel], CloseClaim);
    assert [CloseBegin] + [CloseCancel] + [CloseClaim] == [CloseBegin, CloseCancel, CloseClaim];
  }

  lemma CloseAllStates(t: State)
    requires ReadyToClose(t)
    ensures var p := t.prepared.value;
            && Executable(t, CloseAll(p))
            && Final(t, CloseAll(p))
               == t.(prepared := None, closed := true, stage := ShutDown(t.nextId), open := t.open - {p})
  {
    var p := t.prepared.value;
    var ended := t.(closed := true, stage := Claimed(t.nextId), prepared := None, open := t.open - {p});
    assert t.closing[p := Shutdown] - {p} == t.closing;
    ClaimStates(t);
    var claim := [CloseBegin, CloseCancel, CloseClaim];
    ExtendTo(t, claim, CloseEnds(p), ended);
    CloseFinishState(ended);
    Extend(t, claim + [CloseEnds(p)], CloseFinish);
    assert CloseAll(p) == claim + [CloseEnds(p)] + [CloseFinish];
  }

  lemma CloseFinishState(t: State)
    requires t.stage.Claimed? && forall p | p in t.closing :: t.closing[p].Expiry? && t.expiry != Some(p)
    ensures Enabled(t, CloseFinish) && Apply(t, CloseFinish) == t.(stage := ShutDown(t.stage.since))
  {
  }

  /** A bridge whose first pipeline expired and is still being closed. */
  lemma ExpiredOnce() returns (es: seq<Event>)
    ensures Executable(Init(Live), es) && Unhurried(es)
    ensures Final(Init(Live), es) == Init(Live).(expiry := Some(1), open := {1}, closing := map[1 := Closer.Expiry], nextId := 2)
  {
    var s := Init(Live);
    WarmOnceFrom(s);
    es := WarmOnce(0) + [ExpiryFire];
    assert s.open + {1} == {1} && s.closing[1 := Closer.Expiry] == map[1 := Closer.Expiry];
    Extend(s, WarmOnce(0), ExpiryFire);
  }

  /**
   `async_close` awaits the latest expiry task only, so it can return while an earlier one is
   still closing its pipeline, although no warm-up runs and nothing was lost.
   */
  lemma ShutdownCanPrecedeAnEarlierExpiry()
    ensures exists es ::
              && Executable(Init(Live), es) && Unhurried(es)
              && Final(Init(Live), es).stage.ShutDown? && Final(Init(Live), es).warms == map[]
              && 1 in Final(Init(Live), es).open
  {
    var es := ExpiredOnce();
    var expired := Final(Init(Live), es);
    WarmOnceFrom(expired);
    CloseAllStates(Warmed(expired));
    Concat(expired, WarmOnce(2), CloseAll(3));
    Concat(Init(Live), es, WarmOnce(2) + CloseAll(3));
    assert Unhurried(es + (WarmOnce(2) + CloseAll(3)));
  }

  /**
   An `async_prepare` that was closing a failed pipeline during the whole of `async_close` then asks for a
   warm-up: a session is opened on a bridge that is shut down.
   */
  lemma WarmUpCanStartAfterShutdown()
    ensures exists es ::
              && Executable(Init(Live), es) && Final(Init(Live), es).stage.ShutDown?
              && OverwriteCount(Init(Live), es) == 0 && Final(Init(Live), es).closing == map[]
              && Final(Init(Live), es).warms == map[2 := Opening(3)] && Final(Init(Live), es).open == {3}
  {
    var es := ClosedWhileDropping();
    var down := Final(Init(Live), es);
    var asked := down.(open := {}, closing := map[], warming := Some(2), warms := map[2 := Scheduled], nextId := 3);
    var more := [PrepareDropped(1), WarmBegin(2)];
    assert down.open - {1} == {} && map[1 := Preparer] - {1} == map[];
    ExtendTo(down, [], PrepareDropped(1), asked);
    ExtendTo(down, [PrepareDropped(1)], WarmBegin(2), asked.(warms := map[2 := Opening(3)], open := {3}, nextId := 4));
    assert more == [PrepareDropped(1)] + [WarmBegin(2)] && [] + [PrepareDropped(1)] == [PrepareDropped(1)];
    Concat(Init(Live), es, more);
    EveryOpenSessionHasOneOwner(Live, es + more);
    NothingLostHere(es + more);
  }

  lemma NothingLostHere(es: seq<Event>)
    requires Executable(Init(Live), es) && Final(Init(Live), es).open == {3}
    requires Final(Init(Live), es).warms == map[2 := Opening(3)]
    ensures OverwriteCount(Init(Live), es) == 0
  {
    EveryOpenSessionHasOneOwner(Live, es);
    var s := Final(Init(Live), es);
    assert Inv(Init(Live));
    RunKeepsInv(Init(Live), es);
    assert s.warms[2].session == 3 && s.warming == Some(2);
    assert WarmOwns(s, 3) == 1 && Owners(s, 3) >= 1;
    assert LostSet(s) == {};
  }

  /** An `async_prepare` that is closing a failed pipeline while `async_close` runs up to its claim of the slot. */
  lemma ClaimedWhileDropping() returns (es: seq<Event>)
    ensures Executable(Init(Live), es)
    ensures Final(Init(Live), es)
         == Init(Live).(expiry := Some(1), open := {1}, closing := map[1 := Preparer], nextId := 2,
                        closed := true, stage := Claimed(2))
  {
    var s := Init(Live);
    var dropping := Warmed(s).(prepared := None, closing := map[1 := Preparer]);
    var begun := dropping.(closed := true, stage := ShuttingDown);
    WarmOnceFrom(s);
    assert s.closing[1 := Preparer] == map[1 := Preparer] && s.open + {1} == {1};
    es := WarmOnce(0);
    ExtendTo(s, es, PrepareDrop, dropping);
    es := es + [PrepareDrop];
    ExtendTo(s, es, CloseBegin, begun);
    es := es + [CloseBegin];
    ExtendTo(s, es, CloseCancel, begun.(stage := Draining(2)));
    es := es + [CloseCancel];
    ExtendTo(s, es, CloseClaim, begun.(stage := Claimed(2)));
    es := es + [CloseClaim];
  }

  lemma ClosedWhileDropping() returns (es: seq<Event>)
    ensures Executable(Init(Live), es)
    ensures Final(Init(Live), es)
         == Init(Live).(expiry := Some(1), open := {1}, closing := map[1 := Preparer], nextId := 2,
                        closed := true, stage := ShutDown(2))
  {
    es := ClaimedWhileDropping();
    Extend(Init(Live), es, CloseFinish);
    es := es + [CloseFinish];
  }

  /** The same, but the failed pipeline is closed just before `async_close` returns: by then nothing is open. */
  lemma ClosedAfterDropping() returns (es: seq<Event>)
    ensures Executable(Init(Live), es)
    ensures Final(Init(Live), es)
         == Init(Live).(expiry := Some(1), nextId := 3, warming := Some(2), warms := map[2 := Scheduled],
                        closed := true, stage := ShutDown(2))
  {
    es := ClaimedWhileDropping();
    var claimed := Final(Init(Live), es);
    var asked := claimed.(open := {}, closing := map[], warming := Some(2), warms := map[2 := Scheduled], nextId := 3);
    assert claimed.open - {1} == {} && map[1 := Preparer] - {1} == map[];
    ExtendTo(Init(Live), es, PrepareDropped(1), asked);
    es := es + [PrepareDropped(1)];
    ExtendTo(Init(Live), es, CloseFinish, asked.(stage := ShutDown(2)));
    es := es + [CloseFinish];
  }

  /** `async_close` returns with nothing lost, nothing open and nothing pending, and a session is opened afterwards. */
  lemma WarmUpCanStartAfterACleanReturn()
    ensures exists es ::
              && Executable(Init(Live), es) && Final(Init(Live), es).stage.ShutDown?
              && Final(Init(Live), es).open == {} && Final(Init(Live), es).closing == map[]
              && Executable(Init(Live), es + [WarmBegin(2)]) && Final(Init(Live), es + [WarmBegin(2)]).open == {3}
  {
    var es := ClosedAfterDropping();
    var down := Final(Init(Live), es);
    assert down.open + {3} == {3};
    Extend(Init(Live), es, WarmBegin(2));
  }

  // ---- What may still be opened ----

  /**
   On a bridge that is shut down a session can still be opened: a warm-up waits for its first step, or a resumed
   `async_prepare` will ask for one. It does so in vain only where the cancelled warm-up, which never began, is
   still taken for a running one.
   */
  predicate CanStillOpen(s: State) {
    || (exists w :: w in s.warms && s.warms[w].Scheduled?)
    || ((exists p :: p in s.closing && s.closing[p].Preparer?) && (s.warming.None? || s.warming.value in s.warms))
  }

  lemma QuietStep(s: State, e: Event)
    requires Inv(s) && s.stage.ShutDown? && !CanStillOpen(s) && Enabled(s, e)
    ensures Apply(s, e).stage.ShutDown? && !CanStillOpen(Apply(s, e)) && Apply(s, e).open <= s.open
  {
    match e
    case PrepareDropped(p) => assert EnsureWarm(Close(s, p)) == Close(s, p);
    case WarmReady(w) => assert s.warming == Some(w);
    case WarmFail(w) => assert s.warming == Some(w);
    case WarmEnd(w) => assert s.warming == Some(w);
    case _ =>
  }

  lemma {:induction false} QuietRun(s: State, es: seq<Event>)
    requires Inv(s) && s.stage.ShutDown? && !CanStillOpen(s) && Executable(s, es)
    ensures Final(s, es).open <= s.open
    decreases |es|
  {
    if es != [] {
      QuietStep(s, es[0]);
      StepKeepsInv(s, es[0]);
      QuietRun(Apply(s, es[0]), es[1..]);
    }
  }

  /** A session that `s` does not have is open after `es`. */
  predicate Opens(s: State, es: seq<Event>) {
    Executable(s, es) && s.nextId <= Final(s, es).nextId && exists p :: p in Final(s, es).open && s.nextId <= p
  }

  lemma ScheduledOpens(s: State, w: TaskId)
    requires s.stage.ShutDown? && w in s.warms && s.warms[w].Scheduled?
    ensures Opens(s, [WarmBegin(w)])
  {
    Extend(s, [], WarmBegin(w));
    assert [] + [WarmBegin(w)] == [WarmBegin(w)] && s.nextId in Final(s, [WarmBegin(w)]).open;
  }

  lemma OpensLater(s: State, e: Event, es: seq<Event>)
    requires Enabled(s, e) && s.nextId <= Apply(s, e).nextId && Opens(Apply(s, e), es)
    ensures Opens(s, [e] + es)
  {
    assert ([e] + es)[0] == e && ([e] + es)[1..] == es;
  }

  lemma PreparerOpens(s: State, p: SessionId) returns (es: seq<Event>)
    requires s.stage.ShutDown? && p in s.closing && s.closing[p].Preparer? && s.warming.None?
    ensures Opens(s, es)
  {
    ScheduledOpens(Apply(s, PrepareDropped(p)), s.nextId);
    OpensLater(s, PrepareDropped(p), [WarmBegin(s.nextId)]);
    es := [PrepareDropped(p)] + [WarmBegin(s.nextId)];
  }

  lemma PreparerOpensAfter(s: State, p: SessionId, w: TaskId) returns (es: seq<Event>)
    requires s.stage.ShutDown? && p in s.closing && s.closing[p].Preparer? && w in s.warms && s.warms[w].Unwinding?
    ensures Opens(s, es)
  {
    es := PreparerOpens(Apply(s, WarmEnd(w)), p);
    OpensLater(s, WarmEnd(w), es);
    es := [WarmEnd(w)] + es;
  }

  lemma StillOpens(s: State) returns (es: seq<Event>)
    requires s.stage.ShutDown? && CanStillOpen(s)
    ensures Opens(s, es)
  {
    if w :| w in s.warms && s.warms[w].Scheduled? {
      ScheduledOpens(s, w);
      es := [WarmBegin(w)];
    } else {
      var p :| p in s.closing && s.closing[p].Preparer?;
      if s.warming.None? {
        es := PreparerOpens(s, p);
      } else if s.warms[s.warming.value].Unwinding? {
        es := PreparerOpensAfter(s, p, s.warming.value);
      } else {
        var w := s.warming.value;
        es := PreparerOpensAfter(Apply(s, WarmFail(w)), p, w);
        OpensLater(s, WarmFail(w), es);
        es := [WarmFail(w)] + es;
      }
    }
  }

  /** No continuation opens a session that was not open: the open ones can only be closed. */
  ghost predicate OnlyCloses(s: State) {
    forall more | Executable(s, more) :: Final(s, more).open <= s.open
  }

  /** From a shut-down state no session is ever opened again exactly when none waits to be. */
  lemma NothingOpensAfterShutdownIff(mode: Mode, es: seq<Event>)
    requires Executable(Init(mode), es) && Final(Init(mode), es).stage.ShutDown?
    ensures OnlyCloses(Final(Init(mode), es)) <==> !CanStillOpen(Final(Init(mode), es))
  {
    var s := Final(Init(mode), es);
    assert Inv(Init(mode));
    RunKeepsInv(Init(mode), es);
    if CanStillOpen(s) {
      var more := StillOpens(s);
      var p :| p in Final(s, more).open && s.nextId <= p;
      assert p !in s.open;
    } else {
      forall more | Executable(s, more) ensures Final(s, more).open <= s.open {
        QuietRun(s, more);
      }
    }
  }

  ghost predicate StaysShut(s: State) {
    forall more | Executable(s, more) :: Final(s, more).open == {}
  }

  /** Nothing is open then or ever after exactly when nothing was lost and neither a close nor a warm-up is left. */
  lemma StaysShutIff(mode: Mode, es: seq<Event>)
    requires Executable(Init(mode), es) && Final(Init(mode), es).stage.ShutDown?
    ensures StaysShut(Final(Init(mode), es))
       <==> OverwriteCount(Init(mode), es) == 0 && Final(Init(mode), es).closing == map[] && Final(Init(mode), es).warms == map[]
  {
    var s := Final(Init(mode), es);
    NothingOpensAfterShutdownIff(mode, es);
    AfterShutdown(mode, es);
    assert Executable(s, []) && Final(s, []) == s;
    if StaysShut(s) {
      assert OnlyCloses(s);
      assert forall w :: w !in s.warms;
    }
  }
}
