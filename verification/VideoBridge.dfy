/**
 The bridge as the object that the source has: every method is one await-free stretch that updates
 the fields in place. A ghost history of protocol events ties the object to the runs of VideoProtocol,
 so that what holds over all runs holds of every bridge that its methods can produce.
 */
module VideoBridge {
  import opened Wrappers
  import opened P = VideoProtocol

  /** How `async_prepare` answers up to its first suspension. */
  datatype Preparation = RaisedClosed | AlreadyActive | RaisedConsumed | Kept | Dropping | AwaitsWarm

  // ---- What single events mean for ownership ----

  lemma BegunWarmOwns(s: State, w: TaskId)
    requires Inv(s) && Enabled(s, WarmBegin(w))
    ensures s.nextId !in s.open && WarmOwns(Apply(s, WarmBegin(w)), s.nextId) == 1
  {
    assert s.warming == Some(w);
  }

  lemma ReadyWarmMeans(s: State, w: TaskId)
    requires Inv(s) && Enabled(s, WarmReady(w))
    ensures s.closed ==> WarmOwns(Apply(s, WarmReady(w)), s.warms[w].session) == 1
    ensures !s.closed ==> Apply(s, WarmReady(w)).warms == map[]
  {
    assert s.warming == Some(w) && forall v | v in s.warms :: v == w;
    assert s.warms - {w} == map[];
  }

  lemma FailedWarmOwns(s: State, w: TaskId)
    requires Inv(s) && Enabled(s, WarmFail(w))
    ensures WarmOwns(Apply(s, WarmFail(w)), s.warms[w].session) == 1
  {
    assert s.warming == Some(w);
  }

  lemma EndedWarmMeans(s: State, w: TaskId)
    requires Inv(s) && Enabled(s, WarmEnd(w))
    ensures Apply(s, WarmEnd(w)).warms == map[]
  {
    assert forall v | v in s.warms :: v == w;
    assert s.warms - {w} == map[];
  }

  lemma AcceptedMeans(s: State)
    requires Inv(s) && Enabled(s, Get)
    ensures var t := Apply(s, Get);
            && t.handlers.Keys == {s.nextId} && t.handlers[s.nextId].session == s.nextId + 1
            && s.nextId + 1 !in s.open && RequestOwns(t, s.nextId + 1) == 1
  {
    assert s.handlers.Keys == {};
  }

  /** The request holds what was in the slot, and the slot is empty. */
  ghost predicate Took(s: State, t: State) {
    t.prepared.None? && t.open == s.open && (s.prepared.Some? ==> RequestOwns(t, s.prepared.value) == 1)
  }

  lemma HoldsAtLeast(s: State, t: State, h: TaskId)
    requires Inv(s) && Owned(t) && s.active == t.active == Some(h) && h in t.handlers && t.open == s.open
    requires s.prepared.Some? && t.handlers[h].Owns(s.prepared.value) >= 1
    ensures RequestOwns(t, s.prepared.value) == 1
  {
    var p := s.prepared.value;
    assert Owners(s, p) >= 1;
    assert p in t.open && Owners(t, p) <= 1;
  }

  lemma FirstMeans(s: State, h: TaskId, healthy: bool)
    requires Inv(s) && s.active == Some(h) && h in s.handlers && Owned(TakeFirst(s, h, healthy))
    ensures Took(s, TakeFirst(s, h, healthy))
  {
    if s.prepared.Some? {
      HoldsAtLeast(s, TakeFirst(s, h, healthy), h);
    }
  }

  lemma StartMeans(s: State, h: TaskId, healthy: bool)
    requires Inv(s) && Enabled(s, RunStart(h, healthy)) && Owned(Apply(s, RunStart(h, healthy)))
    ensures Apply(s, RunStart(h, healthy)).open == s.open
    ensures s.warming.None? ==> Took(s, Apply(s, RunStart(h, healthy)))
  {
    assert s.active == Some(h);
    if s.warming.None? {
      FirstMeans(s, h, healthy);
    }
  }

  lemma TakeFirstMeans(s: State, h: TaskId, healthy: bool)
    requires Inv(s) && Enabled(s, RunJoined(h, healthy)) && Owned(Apply(s, RunJoined(h, healthy)))
    ensures Took(s, Apply(s, RunJoined(h, healthy)))
  {
    assert s.active == Some(h);
    FirstMeans(s, h, healthy);
  }

  lemma TakeSecondMeans(s: State, h: TaskId, healthy: bool)
    requires Inv(s) && Enabled(s, RunWarmed(h, healthy)) && Owned(Apply(s, RunWarmed(h, healthy)))
    ensures Took(s, Apply(s, RunWarmed(h, healthy)))
  {
    assert s.active == Some(h);
    if s.prepared.Some? {
      HoldsAtLeast(s, Apply(s, RunWarmed(h, healthy)), h);
    }
  }

  lemma FirstWriteMeans(s: State, h: TaskId)
    requires Inv(s) && Enabled(s, FirstWrite(h)) && s.mode.Playback?
    ensures !s.consumed && s.firstWrites == 0
  {
    assert s.active == Some(h);
  }

  lemma EndMeans(s: State, h: TaskId)
    requires Inv(s) && Enabled(s, HandlerEnd(h))
    ensures Apply(s, HandlerEnd(h)).handlers == map[]
    ensures forall p :: p in Apply(s, HandlerEnd(h)).open <==> p in s.open && s.handlers[h].Owns(p) == 0
  {
    assert forall k | k in s.handlers :: k == h;
    assert s.handlers - {h} == map[];
  }

  lemma CancelMeans(s: State)
    requires Inv(s) && Enabled(s, CloseCancel)
    ensures forall w | w in s.warms :: Cancelled(Apply(s, CloseCancel), w) && !Enabled(Apply(s, CloseCancel), WarmBegin(w))
  {
    forall w | w in s.warms ensures w < s.nextId {
      assert s.warming == Some(w);
    }
  }

  lemma ClaimMeans(s: State)
    requires Enabled(s, CloseClaim)
    ensures forall w | w in Apply(s, CloseClaim).warms :: s.stage.since <= w
  {
  }

  class MeariVideoBridge {
    const mode: Mode
    var closed: bool
    var active: Option<TaskId>
    var warming: Option<TaskId>
    var prepared: Option<SessionId>
    var expiry: Option<SessionId>
    var everStreamed: bool
    var playbackConsumed: bool
    // What the event loop and the operating system hold for the bridge.
    var handlers: map<TaskId, Handler>
    var warms: map<TaskId, Warm>
    var closing: map<SessionId, Closer>
    var open: set<SessionId>
    var stage: Stage
    var firstWrites: nat
    var nextId: nat
    ghost var history: seq<Event>

    ghost function Now(): State
      reads this
    {
      State(mode, closed, active, warming, prepared, expiry, everStreamed, playbackConsumed, handlers, warms, closing,
            open, stage, firstWrites, nextId)
    }

    /** The fields are where the protocol run of the history leads. */
    ghost predicate Valid()
      reads this
    {
      Executable(Init(mode), history) && Now() == Final(Init(mode), history)
    }

    /** The event `e` can be, and has been, taken. */
    ghost predicate Can(e: Event)
      reads this
    {
      Valid() && Enabled(Now(), e)
    }

    constructor (mode: Mode)
      ensures Valid() && history == [] && Owned(Now()) && open == {}
    {
      this.mode := mode;
      closed, active, warming, prepared, expiry := false, None, None, None, None;
      everStreamed, playbackConsumed := false, false;
      handlers, warms, closing, open := map[], map[], map[], {};
      stage, firstWrites, nextId := Running, 0, 0;
      history := [];
      new;
      InvIsOwned(Init(mode));
    }

    // ---- Parts of the steps below ----

    method EnsureWarm() returns (task: TaskId)
      modifies this
      ensures Now() == P.EnsureWarm(old(Now())) && history == old(history)
      ensures warming == Some(task) && (old(warming).Some? ==> unchanged(this))
    {
      if warming.None? {
        warming := Some(nextId);
        warms := warms[nextId := Scheduled];
        nextId := nextId + 1;
      }
      task := warming.value;
    }

    /** `_claim`: empties the slot; cancelling the expiry timer has no other effect on ownership. */
    method Claim() returns (ready: Option<SessionId>)
      modifies this`prepared
      ensures ready == old(prepared) && prepared.None?
    {
      ready := prepared;
      prepared := None;
    }

    /** `session.close()` of a session held by nobody else. */
    method CloseSession(session: SessionId)
      modifies this`open
      ensures open == old(open) - {session}
    {
      open := open - {session};
    }

    method SetPhase(h: TaskId, phase: Phase)
      requires h in handlers
      modifies this`handlers
      ensures Now() == P.SetPhase(old(Now()), h, phase)
    {
      handlers := handlers[h := handlers[h].(phase := phase)];
    }

    method UseOwnOrRetry(h: TaskId)
      requires h in handlers
      modifies this
      ensures Now() == P.Fallback(old(Now()), h) && history == old(history)
    {
      if everStreamed && mode.Live? {
        var task := EnsureWarm();
        SetPhase(h, Awaiting(task));
      } else {
        SetPhase(h, OwnPipeline);
      }
    }

    method Adopt(h: TaskId, session: SessionId)
      requires h in handlers
      modifies this`handlers
      ensures handlers == old(handlers)[h := old(handlers)[h].(children := old(handlers)[h].children + [session],
                                                             phase := Obtained)]
    {
      handlers := handlers[h := handlers[h].(children := handlers[h].children + [session], phase := Obtained)];
    }

    /** `_run` from its first `_take_ready` to the next suspension. */
    method TakeFirst(h: TaskId, healthy: bool)
      requires h in handlers
      modifies this
      ensures Now() == P.TakeFirst(old(Now()), h, healthy) && history == old(history)
    {
      var ready := Claim();
      if ready.None? {
        UseOwnOrRetry(h);
      } else if healthy {
        Adopt(h, ready.value);
      } else {
        SetPhase(h, DroppingFirst(ready.value));
      }
    }

    /** `_run` from its second `_take_ready`, after the shared warm-up. */
    method TakeSecond(h: TaskId, healthy: bool)
      requires h in handlers
      modifies this
      ensures Now() == P.TakeSecond(old(Now()), h, healthy) && history == old(history)
    {
      var ready := Claim();
      if ready.None? {
        SetPhase(h, Ending(None));
      } else if healthy {
        Adopt(h, ready.value);
      } else {
        SetPhase(h, DroppingSecond(ready.value));
      }
    }

    method CloseChildren(children: seq<SessionId>)
      modifies this`open
      ensures open == old(open) - set c | c in children
    {
      for i := 0 to |children|
        invariant open == old(open) - set c | c in children[..i]
      {
        CloseSession(children[i]);
        assert children[..i + 1] == children[..i] + [children[i]];
      }
      assert children[..|children|] == children;
    }

    /** The fields have taken the event; noting it keeps the object valid, with all that runs guarantee. */
    ghost method Note(e: Event, before: State)
      requires Executable(Init(mode), history) && before == Final(Init(mode), history)
      requires Enabled(before, e) && Now() == Apply(before, e)
      modifies this`history
      ensures Valid() && history == old(history) + [e] && Inv(before) && Owned(before) && Owned(Now())
      ensures LostSet(Now()) == LostSet(before) + if Overwrites(before, e) then before.prepared.ToSet() else {}
    {
      OneMoreEvent(mode, history, e);
      history := history + [e];
    }

    // ---- async_prepare, warm-up and expiry ----

    /**
     `async_prepare` up to its first suspension; `healthy` is the outcome of the pipeline check. It loses
     and opens nothing: a healthy pipeline stays in the slot, a failed one passes to this caller to close.
     */
    method Prepare(healthy: bool) returns (r: Preparation)
      requires Valid()
      modifies this
      ensures Valid() && Owned(Now()) && open == old(open) && LostSet(Now()) == LostSet(old(Now()))
      ensures forall p :: Owners(Now(), p) == Owners(old(Now()), p)
      ensures r.RaisedClosed? <==> old(closed)
      ensures r.AlreadyActive? <==> !old(closed) && old(active).Some?
      ensures r.RaisedConsumed? <==> !old(closed) && old(active).None? && mode.Playback? && old(playbackConsumed)
      ensures r.RaisedClosed? || r.AlreadyActive? || r.RaisedConsumed? ==> unchanged(this)
      ensures r.Kept? ==> healthy && prepared.Some? && prepared == old(prepared) == expiry
      ensures r.Dropping? ==> !healthy && prepared.None? && old(prepared).Some? && closing == old(closing)[old(prepared.value) := Preparer]
      ensures r.AwaitsWarm? ==> old(prepared).None? && prepared.None? && warming.Some?
    {
      SameState();
      if closed { return RaisedClosed; }
      if active.Some? { return AlreadyActive; }
      if mode.Playback? && playbackConsumed { return RaisedConsumed; }
      r := TakeReady(healthy);
    }

    /** `async_prepare` past its guards. */
    method TakeReady(healthy: bool) returns (r: Preparation)
      requires Valid() && AcceptsPrepare(Now())
      modifies this
      ensures Valid() && Owned(Now()) && open == old(open) && LostSet(Now()) == LostSet(old(Now()))
      ensures forall p :: Owners(Now(), p) == Owners(old(Now()), p)
      ensures if old(prepared).None? then r.AwaitsWarm? && prepared.None? && warming.Some?
              else if healthy then r.Kept? && prepared == old(prepared) == expiry
              else r.Dropping? && prepared.None? && closing == old(closing)[old(prepared.value) := Preparer]
    {
      ghost var before := Now();
      if prepared.None? {
        AskForWarm();
        r := AwaitsWarm;
      } else if healthy {
        KeepReady();
        r := Kept;
      } else {
        DropReady();
        r := Dropping;
      }
      SameOwners(before, Now());
    }

    method AskForWarm()
      requires Can(PrepareWarm)
      modifies this
      ensures Valid() && Owned(old(Now())) && Owned(Now()) && Now() == P.EnsureWarm(old(Now()))
      ensures LostSet(Now()) == LostSet(old(Now())) && warming.Some?
    {
      ghost var before := Now();
      var _ := EnsureWarm();
      Note(PrepareWarm, before);
    }

    method KeepReady()
      requires Can(PrepareReuse)
      modifies this
      ensures Valid() && Owned(old(Now())) && Owned(Now()) && Now() == old(Now()).(expiry := old(prepared))
      ensures LostSet(Now()) == LostSet(old(Now()))
    {
      ghost var before := Now();
      var ready := Claim();
      prepared, expiry := ready, ready;
      Note(PrepareReuse, before);
    }

    method DropReady()
      requires Can(PrepareDrop)
      modifies this
      ensures Valid() && Owned(old(Now())) && Owned(Now()) && LostSet(Now()) == LostSet(old(Now()))
      ensures Now() == old(Now()).(prepared := None, closing := old(closing)[old(prepared.value) := Preparer])
    {
      ghost var before := Now();
      var ready := Claim();
      closing := closing[ready.value := Preparer];
      Note(PrepareDrop, before);
    }

    lemma SameState()
      requires Valid()
      ensures Owned(Now())
    {
      RunKeepsInv(Init(mode), history);
      InvIsOwned(Now());
    }

    /**
     `async_prepare` after closing a failed pipeline: the session is gone and a warm-up runs, although
     neither `_closed` nor `_active` nor the slot was looked at again.
     */
    method PrepareResumes(session: SessionId)
      requires Can(PrepareDropped(session))
      modifies this
      ensures Valid() && Owned(Now()) && history == old(history) + [PrepareDropped(session)]
      ensures open == old(open) - {session} && LostSet(Now()) == LostSet(old(Now())) && Owners(Now(), session) == 0
      ensures warming.Some? && prepared == old(prepared) && closed == old(closed) && active == old(active)
    {
      ghost var before := Now();
      CloseSession(session);
      closing := closing - {session};
      var _ := EnsureWarm();
      Note(PrepareDropped(session), before);
    }

    /** First step of `_warm`: a new session, owned by the warm-up alone; nothing else changes hands. */
    method WarmBegins(w: TaskId) returns (session: SessionId)
      requires Can(WarmBegin(w))
      modifies this
      ensures Valid() && Owned(Now()) && history == old(history) + [WarmBegin(w)]
      ensures session !in old(open) && open == old(open) + {session} && WarmOwns(Now(), session) == 1
      ensures LostSet(Now()) == LostSet(old(Now()))
    {
      ghost var before := Now();
      session := nextId;
      warms := warms[w := Opening(session)];
      open := open + {session};
      nextId := nextId + 1;
      Note(WarmBegin(w), before);
      BegunWarmOwns(before, w);
    }

    /**
     `_prepare` returned a pipeline. On a closed bridge the warm-up keeps it. Otherwise it goes into the
     slot, and what was in the slot is lost.
     */
    method WarmSucceeds(w: TaskId)
      requires Can(WarmReady(w))
      modifies this
      ensures Valid() && Owned(Now()) && history == old(history) + [WarmReady(w)] && open == old(open)
      ensures closed ==> prepared == old(prepared) && WarmOwns(Now(), old(warms[w]).session) == 1
      ensures !closed ==> prepared == expiry == Some(old(warms[w]).session) && warms == map[] && warming.None?
      ensures LostSet(Now()) == LostSet(old(Now())) + if closed then {} else old(prepared).ToSet()
    {
      ghost var before := Now();
      var session := warms[w].session;
      if closed {
        warms := warms[w := Unwinding(session)];
      } else {
        prepared, expiry := Some(session), Some(session);
        warms, warming := warms - {w}, None;
      }
      Note(WarmReady(w), before);
      ReadyWarmMeans(before, w);
    }

    /** `_prepare` failed, timed out or was cancelled: the session stays the warm-up's to close. */
    method WarmFails(w: TaskId)
      requires Can(WarmFail(w))
      modifies this
      ensures Valid() && Owned(Now()) && history == old(history) + [WarmFail(w)] && open == old(open)
      ensures WarmOwns(Now(), old(warms[w]).session) == 1 && prepared == old(prepared)
      ensures forall p :: Owners(Now(), p) == Owners(old(Now()), p)
    {
      ghost var before := Now();
      warms := warms[w := Unwinding(warms[w].session)];
      Note(WarmFail(w), before);
      FailedWarmOwns(before, w);
      SameOwners(before, Now());
    }

    /** End of the `finally` block of a failed `_warm`: its session is closed and the next warm-up may start. */
    method WarmEnds(w: TaskId)
      requires Can(WarmEnd(w))
      modifies this
      ensures Valid() && Owned(Now()) && history == old(history) + [WarmEnd(w)]
      ensures open == old(open) - {old(warms[w]).session} && Owners(Now(), old(warms[w]).session) == 0
      ensures warming.None? && warms == map[] && LostSet(Now()) == LostSet(old(Now()))
    {
      ghost var before := Now();
      CloseSession(warms[w].session);
      warms, warming := warms - {w}, None;
      Note(WarmEnd(w), before);
      EndedWarmMeans(before, w);
    }

    /** A warm-up cancelled by `async_close` before its first step: it held nothing. */
    method WarmIsCancelled(w: TaskId)
      requires Can(WarmCancelled(w))
      modifies this
      ensures Valid() && Owned(Now()) && history == old(history) + [WarmCancelled(w)] && open == old(open)
      ensures forall p :: Owners(Now(), p) == Owners(old(Now()), p)
    {
      ghost var before := Now();
      warms := warms - {w};
      Note(WarmCancelled(w), before);
      SameOwners(before, Now());
    }

    /** `_recover` asks for the shared warm-up. */
    method Recovers()
      requires Can(P.Recover)
      modifies this
      ensures Valid() && Owned(Now()) && history == old(history) + [P.Recover] && open == old(open)
      ensures warming.Some? && forall p :: Owners(Now(), p) == Owners(old(Now()), p)
    {
      ghost var before := Now();
      var _ := EnsureWarm();
      Note(P.Recover, before);
      SameOwners(before, Now());
    }

    /** `_expire` drops an unclaimed or failed pipeline: the slot is free and the expiry task now owns the session. */
    method Expires()
      requires Can(ExpiryFire)
      modifies this
      ensures Valid() && Owned(Now()) && history == old(history) + [ExpiryFire] && open == old(open)
      ensures prepared.None? && closing == old(closing)[old(prepared).value := Closer.Expiry]
      ensures forall p :: Owners(Now(), p) == Owners(old(Now()), p)
    {
      ghost var before := Now();
      closing := closing[prepared.value := Closer.Expiry];
      prepared := None;
      Note(ExpiryFire, before);
      SameOwners(before, Now());
    }

    /** A close in progress ends with nothing to follow: that session is gone for good, and only that one. */
    method CloseCompletes(session: SessionId)
      requires Can(CloseEnds(session))
      modifies this
      ensures Valid() && Owned(Now()) && history == old(history) + [CloseEnds(session)]
      ensures open == old(open) - {session} && Owners(Now(), session) == 0 && LostSet(Now()) == LostSet(old(Now()))
    {
      ghost var before := Now();
      CloseSession(session);
      closing := closing - {session};
      Note(CloseEnds(session), before);
    }

    // ---- Requests ----

    /** `_handle` up to its wait: a refused request leaves no trace, an accepted one is the only one and has a new session. */
    method Handle() returns (accepted: bool)
      requires Valid()
      modifies this
      ensures Valid() && Owned(Now())
      ensures accepted <==> !old(closed) && old(active).None? && !(mode.Playback? && old(playbackConsumed))
      ensures !accepted ==> unchanged(this)
      ensures accepted ==>
                && history == old(history) + [Get] && active.Some? && handlers.Keys == {active.value}
                && var session := handlers[active.value].session;
                   session !in old(open) && open == old(open) + {session} && RequestOwns(Now(), session) == 1
      ensures LostSet(Now()) == LostSet(old(Now()))
    {
      SameState();
      accepted := !(closed || active.Some? || (mode.Playback? && playbackConsumed));
      if accepted {
        Accept();
      }
    }

    method Accept()
      requires Can(Get)
      modifies this
      ensures Valid() && Owned(Now()) && history == old(history) + [Get] && LostSet(Now()) == LostSet(old(Now()))
      ensures active.Some? && handlers.Keys == {active.value}
      ensures var session := handlers[active.value].session;
              session !in old(open) && open == old(open) + {session} && RequestOwns(Now(), session) == 1
    {
      ghost var before := Now();
      AdmitRequest();
      Note(Get, before);
      AcceptedMeans(before);
    }

    method AdmitRequest()
      requires Enabled(Now(), Get)
      modifies this
      ensures Now() == Apply(old(Now()), Get) && history == old(history)
    {
      active := Some(nextId);
      handlers := handlers[nextId := Handler(nextId + 1, [], Queued)];
      open := open + {nextId + 1};
      nextId := nextId + 2;
    }

    /** First step of `_run`: it waits for a running warm-up before looking at the slot; sessions only change hands. */
    method RunStarts(h: TaskId, healthy: bool)
      requires Can(RunStart(h, healthy))
      modifies this
      ensures Valid() && Owned(Now()) && history == old(history) + [RunStart(h, healthy)] && open == old(open)
      ensures forall p :: Owners(Now(), p) == Owners(old(Now()), p)
      ensures old(warming).Some? ==> prepared == old(prepared)
      ensures old(warming).None? ==> prepared.None? && (old(prepared).Some? ==> RequestOwns(Now(), old(prepared).value) == 1)
    {
      ghost var before := Now();
      if warming.Some? {
        SetPhase(h, Joining(warming.value));
      } else {
        TakeFirst(h, healthy);
      }
      Note(RunStart(h, healthy), before);
      StartMeans(before, h, healthy);
      SameOwners(before, Now());
    }

    /** The warm-up that the request waited for has ended: the request takes what is in the slot. */
    method RunJoins(h: TaskId, healthy: bool)
      requires Can(RunJoined(h, healthy))
      modifies this
      ensures Valid() && Owned(Now()) && history == old(history) + [RunJoined(h, healthy)] && open == old(open)
      ensures forall p :: Owners(Now(), p) == Owners(old(Now()), p)
      ensures prepared.None? && (old(prepared).Some? ==> RequestOwns(Now(), old(prepared).value) == 1)
    {
      ghost var before := Now();
      TakeFirst(h, healthy);
      Note(RunJoined(h, healthy), before);
      TakeFirstMeans(before, h, healthy);
      SameOwners(before, Now());
    }

    /** The same after the warm-up that the request itself asked for; without a pipeline it gives up. */
    method RunIsWarmed(h: TaskId, healthy: bool)
      requires Can(RunWarmed(h, healthy))
      modifies this
      ensures Valid() && Owned(Now()) && history == old(history) + [RunWarmed(h, healthy)] && open == old(open)
      ensures forall p :: Owners(Now(), p) == Owners(old(Now()), p)
      ensures prepared.None? && (old(prepared).Some? ==> RequestOwns(Now(), old(prepared).value) == 1)
    {
      ghost var before := Now();
      TakeSecond(h, healthy);
      Note(RunWarmed(h, healthy), before);
      TakeSecondMeans(before, h, healthy);
      SameOwners(before, Now());
    }

    /** The failed pipeline is closed; the request goes on with its own session or a retry, and owns no less. */
    method RunResumesAfterDrop(h: TaskId)
      requires Can(RunDropped(h))
      modifies this
      ensures Valid() && Owned(Now()) && history == old(history) + [RunDropped(h)]
      ensures var failed := old(handlers[h]).phase.failed;
              open == old(open) - {failed} && Owners(Now(), failed) == 0
      ensures LostSet(Now()) == LostSet(old(Now())) && prepared == old(prepared)
    {
      ghost var before := Now();
      CloseSession(handlers[h].phase.failed);
      UseOwnOrRetry(h);
      Note(RunDropped(h), before);
    }

    /** The pipeline that the shared warm-up left has failed too, and is closed: the request ends without one. */
    method RunGivesUp(h: TaskId)
      requires Can(RunGaveUp(h))
      modifies this
      ensures Valid() && Owned(Now()) && history == old(history) + [RunGaveUp(h)]
      ensures open == old(open) - {old(handlers[h]).phase.failed} && LostSet(Now()) == LostSet(old(Now()))
    {
      ghost var before := Now();
      CloseSession(handlers[h].phase.failed);
      SetPhase(h, Ending(None));
      Note(RunGaveUp(h), before);
    }

    /** The pipeline of the request's own session is ready: it was the request's all the time. */
    method RunIsPiped(h: TaskId)
      requires Can(RunPiped(h))
      modifies this
      ensures Valid() && Owned(Now()) && history == old(history) + [RunPiped(h)] && open == old(open)
      ensures forall p :: Owners(Now(), p) == Owners(old(Now()), p)
    {
      ghost var before := Now();
      SetPhase(h, Obtained);
      Note(RunPiped(h), before);
      SameOwners(before, Now());
    }

    /** `_run` ends or is cancelled anywhere: what it held is still the request's to close. */
    method Leaves(h: TaskId)
      requires Can(Leave(h))
      modifies this
      ensures Valid() && Owned(Now()) && history == old(history) + [Leave(h)] && open == old(open)
      ensures forall p :: Owners(Now(), p) == Owners(old(Now()), p)
    {
      ghost var before := Now();
      SetPhase(h, LeavePhase(handlers[h].phase));
      Note(Leave(h), before);
      SameOwners(before, Now());
    }

    /** A request cancelled while it closed a failed pipeline finishes that close first. */
    method LeftoverCloses(h: TaskId)
      requires Can(LeftoverClosed(h))
      modifies this
      ensures Valid() && Owned(Now()) && history == old(history) + [LeftoverClosed(h)]
      ensures open == old(open) - {old(handlers[h]).phase.leftover.value} && LostSet(Now()) == LostSet(old(Now()))
    {
      ghost var before := Now();
      CloseSession(handlers[h].phase.leftover.value);
      SetPhase(h, Ending(None));
      Note(LeftoverClosed(h), before);
    }

    /** `response.write(ready.first)` returned: in playback this is the only time, and no session changes hands. */
    method FirstWriteDone(h: TaskId)
      requires Can(FirstWrite(h))
      modifies this
      ensures Valid() && Owned(Now()) && history == old(history) + [FirstWrite(h)] && open == old(open)
      ensures forall p :: Owners(Now(), p) == Owners(old(Now()), p)
      ensures everStreamed && (mode.Playback? ==> playbackConsumed && old(firstWrites) == 0 && firstWrites == 1)
    {
      ghost var before := Now();
      MarkStreamed(h);
      Note(FirstWrite(h), before);
      if mode.Playback? {
        FirstWriteMeans(before, h);
      }
      SameOwners(before, Now());
    }

    method MarkStreamed(h: TaskId)
      requires Enabled(Now(), FirstWrite(h))
      modifies this
      ensures Now() == Apply(old(Now()), FirstWrite(h)) && history == old(history)
    {
      SetPhase(h, Streaming);
      ghost var phased := Now();
      CountWrite();
      assert Now() == phased.(everStreamed := true, consumed := phased.consumed || mode.Playback?,
                              firstWrites := phased.firstWrites + 1);
    }

    method CountWrite()
      modifies this`everStreamed, this`playbackConsumed, this`firstWrites
      ensures everStreamed && playbackConsumed == (old(playbackConsumed) || mode.Playback?)
      ensures firstWrites == old(firstWrites) + 1
    {
      everStreamed := true;
      if mode.Playback? {
        playbackConsumed := true;
      }
      firstWrites := firstWrites + 1;
    }

    /** End of the `finally` block of `_handle`: the session and all it adopted are gone, and the bridge is idle. */
    method HandleEnds(h: TaskId)
      requires Can(HandlerEnd(h))
      modifies this
      ensures Valid() && Owned(Now()) && history == old(history) + [HandlerEnd(h)]
      ensures active.None? && handlers == map[] && LostSet(Now()) == LostSet(old(Now()))
      ensures forall p :: p in open <==> p in old(open) && old(handlers[h]).Owns(p) == 0
    {
      ghost var before := Now();
      CloseRequest(h);
      Note(HandlerEnd(h), before);
      EndMeans(before, h);
    }

    method CloseRequest(h: TaskId)
      requires Enabled(Now(), HandlerEnd(h))
      modifies this
      ensures Now() == Apply(old(Now()), HandlerEnd(h)) && history == old(history)
    {
      CloseSession(handlers[h].session);
      CloseChildren(handlers[h].children);
      handlers := handlers - {h};
      active := None;
    }

    // ---- async_close ----

    /** From here on no request and no new call of `async_prepare` is accepted. */
    method CloseBegins()
      requires Can(CloseBegin)
      modifies this
      ensures Valid() && Owned(Now()) && history == old(history) + [CloseBegin] && open == old(open)
      ensures !Enabled(Now(), Get) && !AcceptsPrepare(Now())
      ensures forall p :: Owners(Now(), p) == Owners(old(Now()), p)
    {
      ghost var before := Now();
      MarkClosed();
      Note(CloseBegin, before);
      SameOwners(before, Now());
    }

    method MarkClosed()
      requires Enabled(Now(), CloseBegin)
      modifies this`closed, this`stage
      ensures closed && Now() == Apply(old(Now()), CloseBegin)
    {
      closed := true;
      stage := ShuttingDown;
    }

    /** `async_close` cancels the warm-up of the moment: none that was asked for before can take its first step now. */
    method CloseCancels()
      requires Can(CloseCancel)
      modifies this
      ensures Valid() && Owned(Now()) && history == old(history) + [CloseCancel] && open == old(open)
      ensures warms == old(warms) && forall w | w in warms :: Cancelled(Now(), w) && !Enabled(Now(), WarmBegin(w))
      ensures forall p :: Owners(Now(), p) == Owners(old(Now()), p)
    {
      ghost var before := Now();
      MarkDraining();
      Note(CloseCancel, before);
      CancelMeans(before);
      SameOwners(before, Now());
    }

    method MarkDraining()
      requires Enabled(Now(), CloseCancel)
      modifies this`stage
      ensures Now() == Apply(old(Now()), CloseCancel)
    {
      stage := Draining(nextId);
    }

    /**
     `async_close` after that warm-up and the request have ended: the slot is emptied for good, its session now owned by
     the close.
     */
    method CloseClaims()
      requires Can(CloseClaim)
      modifies this
      ensures Valid() && Owned(Now()) && history == old(history) + [CloseClaim] && open == old(open)
      ensures active.None? && stage.Claimed? && forall w | w in warms :: stage.since <= w
      ensures prepared.None? && (old(prepared).Some? ==> closing == old(closing)[old(prepared).value := Shutdown])
      ensures forall p :: Owners(Now(), p) == Owners(old(Now()), p)
    {
      ghost var before := Now();
      ClaimForClose();
      Note(CloseClaim, before);
      ClaimMeans(before);
      SameOwners(before, Now());
    }

    method ClaimForClose()
      requires Enabled(Now(), CloseClaim)
      modifies this
      ensures Now() == Apply(old(Now()), CloseClaim) && history == old(history)
    {
      var ready := Claim();
      if ready.Some? {
        closing := closing[ready.value := Shutdown];
      }
      stage := Claimed(stage.since);
    }

    /** `async_close` returns: what is still open then was lost, or is held by a warm-up or an unawaited close. */
    method CloseFinishes()
      requires Can(CloseFinish)
      modifies this
      ensures Valid() && Owned(Now()) && history == old(history) + [CloseFinish] && open == old(open)
      ensures open == {} <==> OverwriteCount(Init(mode), history) == 0 && closing == map[] && NoLateWarm(Now())
    {
      ghost var before := Now();
      stage := ShutDown(stage.since);
      Note(CloseFinish, before);
      AfterShutdown(mode, history);
    }
  }
}
