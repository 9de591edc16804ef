/**
 The video bridge: an HTTP handler, a shared warm-up, a prepared slot, expiry timers, a
 recovery task and `async_close` pass disposable sessions to one another. asyncio code is
 atomic between two awaits, so each await-free stretch is one event here. Timers, the network
 and subprocesses only decide which enabled event happens next.
 */
module VideoProtocol {
  import opened Wrappers

  type SessionId = nat
  type TaskId = nat

  datatype Mode = Live | Playback

  /** A warm-up task: created, running `_prepare` with its session, or closing that session. */
  datatype Warm = Scheduled | Opening(session: SessionId) | Unwinding(session: SessionId)

  /** Where the `_run` task of a request stands. `Ending` is the `finally` block of `_handle`. */
  datatype Phase =
    | Queued
    | Joining(warm: TaskId)
    | DroppingFirst(failed: SessionId)
    | Awaiting(warm: TaskId)
    | DroppingSecond(failed: SessionId)
    | OwnPipeline
    | Obtained
    | Streaming
    | Ending(leftover: Option<SessionId>)
  {
    /** The failed pipeline that this request is still closing. */
    predicate Failing(p: SessionId) {
      ((DroppingFirst? || DroppingSecond?) && failed == p) || (Ending? && leftover == Some(p))
    }
  }

  datatype Handler = Handler(session: SessionId, children: seq<SessionId>, phase: Phase) {
    /** How often this request is responsible for closing `p`. */
    function Owns(p: SessionId): nat {
      (if session == p then 1 else 0) + multiset(children)[p] + (if phase.Failing(p) then 1 else 0)
    }
  }

  /** Who runs a `session.close()` that belongs to no warm-up and no request. */
  datatype Closer = Expiry | Preparer | Shutdown

  /** How far `async_close` is; `since` is the first id of the tasks made after it cancelled the warm-up of the moment. */
  datatype Stage =
    | Running
    | ShuttingDown
    | Draining(since: TaskId)
    | Claimed(since: TaskId)
    | ShutDown(since: TaskId)
  {
    predicate Drains() { Draining? || Claimed? || ShutDown? }
  }

  datatype State = State(
    mode: Mode,
    closed: bool,
    active: Option<TaskId>,
    warming: Option<TaskId>,
    prepared: Option<SessionId>,
    expiry: Option<SessionId>,
    everStreamed: bool,
    consumed: bool,
    handlers: map<TaskId, Handler>,
    warms: map<TaskId, Warm>,
    closing: map<SessionId, Closer>,
    open: set<SessionId>,
    stage: Stage,
    firstWrites: nat,
    nextId: nat)

  function Init(mode: Mode): State {
    State(mode, false, None, None, None, None, false, false, map[], map[], map[], {}, Running, 0, 0)
  }

  datatype Event =
    | PrepareReuse
    | PrepareWarm
    | PrepareDrop
    | PrepareDropped(session: SessionId)
    | PrepareReplace
    | WarmBegin(warm: TaskId)
    | WarmReady(warm: TaskId)
    | WarmFail(warm: TaskId)
    | WarmEnd(warm: TaskId)
    | WarmCancelled(warm: TaskId)
    | ExpiryFire
    | CloseEnds(session: SessionId)
    | Recover
    | Get
    | RunStart(request: TaskId, healthy: bool)
    | RunJoined(request: TaskId, healthy: bool)
    | RunDropped(request: TaskId)
    | RunWarmed(request: TaskId, healthy: bool)
    | RunGaveUp(request: TaskId)
    | RunPiped(request: TaskId)
    | FirstWrite(request: TaskId)
    | Leave(request: TaskId)
    | LeftoverClosed(request: TaskId)
    | HandlerEnd(request: TaskId)
    | CloseBegin
    | CloseCancel
    | CloseClaim
    | CloseFinish

  // ---- The await-free stretches of the source ----

  function EnsureWarm(s: State): State {
    if s.warming.Some? then s
    else s.(warming := Some(s.nextId), warms := s.warms[s.nextId := Scheduled], nextId := s.nextId + 1)
  }

  function SetPhase(s: State, h: TaskId, phase: Phase): State
    requires h in s.handlers
  {
    s.(handlers := s.handlers[h := s.handlers[h].(phase := phase)])
  }

  function Close(s: State, session: SessionId): State {
    s.(open := s.open - {session})
  }

  function AcceptsPrepare(s: State): bool {
    !s.closed && s.active.None? && !(s.mode.Playback? && s.consumed)
  }

  function Fallback(s: State, h: TaskId): State
    requires h in s.handlers
  {
    if s.everStreamed && s.mode.Live? then
      var warmed := EnsureWarm(s);
      SetPhase(warmed, h, Awaiting(warmed.warming.value))
    else
      SetPhase(s, h, OwnPipeline)
  }

  function Adopt(s: State, h: TaskId): State
    requires h in s.handlers && s.prepared.Some?
  {
    var handler := s.handlers[h];
    s.(prepared := None,
       handlers := s.handlers[h := handler.(children := handler.children + [s.prepared.value], phase := Obtained)])
  }

  function TakeFirst(s: State, h: TaskId, healthy: bool): State
    requires h in s.handlers
  {
    if s.prepared.None? then Fallback(s, h)
    else if healthy then Adopt(s, h)
    else SetPhase(s.(prepared := None), h, DroppingFirst(s.prepared.value))
  }

  function TakeSecond(s: State, h: TaskId, healthy: bool): State
    requires h in s.handlers
  {
    if s.prepared.None? then SetPhase(s, h, Ending(None))
    else if healthy then Adopt(s, h)
    else SetPhase(s.(prepared := None), h, DroppingSecond(s.prepared.value))
  }

  function LeavePhase(phase: Phase): Phase {
    match phase
    case DroppingFirst(p) => Ending(Some(p))
    case DroppingSecond(p) => Ending(Some(p))
    case _ => Ending(None)
  }

  /** The warm-ups that `async_close` cancels and awaits. */
  predicate Cancelled(s: State, w: TaskId) {
    s.stage.Draining? && w < s.stage.since
  }

  predicate Enabled(s: State, e: Event) {
    match e
    case PrepareReuse => AcceptsPrepare(s) && s.prepared.Some?
    case PrepareWarm => AcceptsPrepare(s) && s.prepared.None?
    case PrepareDrop => AcceptsPrepare(s) && s.prepared.Some?
    case PrepareReplace => AcceptsPrepare(s) && s.prepared.Some?
    case PrepareDropped(p) => p in s.closing && s.closing[p].Preparer?
    case WarmBegin(w) => w in s.warms && s.warms[w].Scheduled? && !Cancelled(s, w)
    case WarmCancelled(w) => w in s.warms && s.warms[w].Scheduled? && Cancelled(s, w)
    case WarmReady(w) => w in s.warms && s.warms[w].Opening?
    case WarmFail(w) => w in s.warms && s.warms[w].Opening?
    case WarmEnd(w) => w in s.warms && s.warms[w].Unwinding?
    case ExpiryFire => s.prepared.Some?
    case CloseEnds(p) => p in s.closing    // also that of an `async_prepare` whose caller was cancelled
    case Recover => s.mode.Live? && s.everStreamed && !s.closed && s.prepared.None? && s.active.None?
    case Get => AcceptsPrepare(s)
    case RunStart(h, _) => h in s.handlers && s.handlers[h].phase.Queued?
    case RunJoined(h, _) => h in s.handlers && s.handlers[h].phase.Joining? && s.handlers[h].phase.warm !in s.warms
    case RunDropped(h) => h in s.handlers && s.handlers[h].phase.DroppingFirst?
    case RunWarmed(h, _) => h in s.handlers && s.handlers[h].phase.Awaiting? && s.handlers[h].phase.warm !in s.warms
    case RunGaveUp(h) => h in s.handlers && s.handlers[h].phase.DroppingSecond?
    case RunPiped(h) => h in s.handlers && s.handlers[h].phase.OwnPipeline?
    case FirstWrite(h) => h in s.handlers && s.handlers[h].phase.Obtained?
    case Leave(h) => h in s.handlers && !s.handlers[h].phase.Ending?
    case LeftoverClosed(h) => h in s.handlers && s.handlers[h].phase.Ending? && s.handlers[h].phase.leftover.Some?
    case HandlerEnd(h) => h in s.handlers && s.handlers[h].phase == Ending(None)
    case CloseBegin => s.stage.Running?
    case CloseCancel => s.stage.ShuttingDown?
    case CloseClaim => s.stage.Draining? && s.active.None? && forall w | w in s.warms :: !Cancelled(s, w)
    case CloseFinish =>
      s.stage.Claimed?
      && forall p | p in s.closing :: !(s.closing[p].Shutdown? || (s.closing[p].Expiry? && s.expiry == Some(p)))
  }

  function Apply(s: State, e: Event): State
    requires Enabled(s, e)
  {
    match e
    case PrepareReuse => s.(expiry := s.prepared)
    case PrepareWarm => EnsureWarm(s)
    case PrepareDrop => s.(prepared := None, closing := s.closing[s.prepared.value := Preparer])
    case PrepareDropped(p) => EnsureWarm(Close(s, p).(closing := s.closing - {p}))
    case PrepareReplace => EnsureWarm(Close(s, s.prepared.value).(prepared := None))
    case WarmBegin(w) =>
      s.(warms := s.warms[w := Opening(s.nextId)], open := s.open + {s.nextId}, nextId := s.nextId + 1)
    case WarmCancelled(w) => s.(warms := s.warms - {w})
    case WarmReady(w) =>
      if s.closed then s.(warms := s.warms[w := Unwinding(s.warms[w].session)])
      else s.(prepared := Some(s.warms[w].session), expiry := Some(s.warms[w].session),
                warms := s.warms - {w}, warming := None)
    case WarmFail(w) => s.(warms := s.warms[w := Unwinding(s.warms[w].session)])
    case WarmEnd(w) => Close(s, s.warms[w].session).(warms := s.warms - {w}, warming := None)
    case ExpiryFire => s.(prepared := None, closing := s.closing[s.prepared.value := Expiry])
    case CloseEnds(p) => Close(s, p).(closing := s.closing - {p})
    case Recover => EnsureWarm(s)
    case Get =>
      s.(active := Some(s.nextId),
         handlers := s.handlers[s.nextId := Handler(s.nextId + 1, [], Queued)],
         open := s.open + {s.nextId + 1},
         nextId := s.nextId + 2)
    case RunStart(h, healthy) =>
      if s.warming.Some? then SetPhase(s, h, Joining(s.warming.value)) else TakeFirst(s, h, healthy)
    case RunJoined(h, healthy) => TakeFirst(s, h, healthy)
    case RunDropped(h) => Fallback(Close(s, s.handlers[h].phase.failed), h)
    case RunWarmed(h, healthy) => TakeSecond(s, h, healthy)
    case RunGaveUp(h) => SetPhase(Close(s, s.handlers[h].phase.failed), h, Ending(None))
    case RunPiped(h) => SetPhase(s, h, Obtained)
    case FirstWrite(h) =>
      SetPhase(s, h, Streaming).(everStreamed := true, consumed := s.consumed || s.mode.Playback?,
                                 firstWrites := s.firstWrites + 1)
    case Leave(h) => SetPhase(s, h, LeavePhase(s.handlers[h].phase))
    case LeftoverClosed(h) => SetPhase(Close(s, s.handlers[h].phase.leftover.value), h, Ending(None))
    case HandlerEnd(h) =>
      s.(open := s.open - {s.handlers[h].session} - (set c | c in s.handlers[h].children),
         handlers := s.handlers - {h}, active := None)
    case CloseBegin => s.(closed := true, stage := ShuttingDown)
    case CloseCancel => s.(stage := Draining(s.nextId))
    case CloseClaim =>
      if s.prepared.None? then s.(stage := Claimed(s.stage.since))
      else s.(stage := Claimed(s.stage.since), prepared := None, closing := s.closing[s.prepared.value := Shutdown])
    case CloseFinish => s.(stage := ShutDown(s.stage.since))
  }

  predicate Executable(s: State, es: seq<Event>)
    decreases |es|
  {
    es == [] || (Enabled(s, es[0]) && Executable(Apply(s, es[0]), es[1..]))
  }

  function Final(s: State, es: seq<Event>): State
    requires Executable(s, es)
    decreases |es|
  {
    if es == [] then s else Final(Apply(s, es[0]), es[1..])
  }

  // ---- Ownership ----

  function WarmOwns(s: State, p: SessionId): nat {
    if s.warming.Some? && s.warming.value in s.warms && !s.warms[s.warming.value].Scheduled?
       && s.warms[s.warming.value].session == p then 1 else 0
  }

  function RequestOwns(s: State, p: SessionId): nat {
    if s.active.Some? && s.active.value in s.handlers then s.handlers[s.active.value].Owns(p) else 0
  }

  /** How many parties will close `p`: warm-up, prepared slot, request, other closes in progress. */
  function Owners(s: State, p: SessionId): nat {
    WarmOwns(s, p) + (if s.prepared == Some(p) then 1 else 0) + RequestOwns(s, p) + (if p in s.closing then 1 else 0)
  }

  /** An open session that nobody will ever close. */
  predicate Lost(s: State, p: SessionId) {
    p in s.open && Owners(s, p) == 0
  }

  ghost predicate Tasks(s: State) {
    && (forall h :: h in s.handlers <==> s.active == Some(h))
    && (forall w | w in s.warms :: s.warming == Some(w))
    && (s.active.Some? ==> s.active.value < s.nextId)
    && (s.warming.Some? ==> s.warming.value < s.nextId)
    && (s.closed <==> !s.stage.Running?)
    && (s.stage.Claimed? || s.stage.ShutDown? ==> s.prepared.None? && s.active.None?)
    && (s.stage.ShutDown? ==>
          forall p | p in s.closing :: s.closing[p].Preparer? || (s.closing[p].Expiry? && s.expiry != Some(p)))
    && (s.mode.Playback? ==>
          && s.firstWrites == (if s.consumed then 1 else 0)
          && (s.consumed && s.active.Some? ==>
                var phase := s.handlers[s.active.value].phase; phase.Streaming? || phase.Ending?))
  }

  ghost predicate Inv(s: State) {
    && Tasks(s)
    && (forall p | p in s.open :: p < s.nextId)
    && forall p :: Owners(s, p) <= if p in s.open then 1 else 0
  }

  /** A warm-up finishes while another pipeline still sits in the slot. */
  predicate Overwrites(s: State, e: Event) {
    e.WarmReady? && !s.closed && s.prepared.Some?
  }

  ghost predicate Good(s: State, p: SessionId) {
    && Tasks(s)
    && Owners(s, p) <= (if p in s.open then 1 else 0)
    && forall q | q in s.open :: q < s.nextId
  }

  ghost predicate GoodOwners(s: State, e: Event, p: SessionId)
    requires Enabled(s, e)
  {
    Follows(s, Apply(s, e), Overwrites(s, e), p)
  }

  /** What a step does to the owners of one session. */
  ghost predicate Follows(s: State, s': State, overwrites: bool, p: SessionId) {
    && Owners(s', p) <= (if p in s'.open then 1 else 0)
    && (p in s'.open ==> p < s'.nextId)
    && (Lost(s', p) <==> Lost(s, p) || (overwrites && s.prepared == Some(p)))
  }

  lemma PrepareTasks(s: State, e: Event)
    requires Tasks(s) && Enabled(s, e)
    requires e.PrepareReuse? || e.PrepareWarm? || e.PrepareDrop? || e.PrepareDropped? || e.PrepareReplace? || e.Recover?
    ensures Tasks(Apply(s, e))
  {
  }

  lemma ClosedOwners(s: State, q: SessionId, p: SessionId)
    requires Good(s, p) && Enabled(s, PrepareDropped(q))
    ensures var rest := Close(s, q).(closing := s.closing - {q});
            && Tasks(rest) && WarmOwns(rest, p) == WarmOwns(s, p) && RequestOwns(rest, p) == RequestOwns(s, p)
            && Owners(rest, p) == Owners(s, p) - if p == q then 1 else 0
  {
  }

  lemma DroppedOwners(s: State, q: SessionId, p: SessionId)
    requires Good(s, p) && Enabled(s, PrepareDropped(q))
    ensures GoodOwners(s, PrepareDropped(q), p)
  {
    var rest := Close(s, q).(closing := s.closing - {q});
    ClosedOwners(s, q, p);
    EnsureWarmKeeps(rest, p);
    assert Owners(EnsureWarm(rest), p) == Owners(rest, p);
  }

  lemma ReplaceOwners(s: State, p: SessionId)
    requires Good(s, p) && Enabled(s, PrepareReplace)
    ensures GoodOwners(s, PrepareReplace, p)
  {
    EnsureWarmKeeps(Close(s, s.prepared.value).(prepared := None), p);
  }

  lemma PrepareOwners(s: State, e: Event, p: SessionId)
    requires Good(s, p) && Enabled(s, e)
    requires e.PrepareReuse? || e.PrepareWarm? || e.PrepareDrop? || e.Recover?
    ensures GoodOwners(s, e, p)
  {
    EnsureWarmKeeps(s, p);
  }

  lemma WarmTasks(s: State, e: Event)
    requires Tasks(s) && Enabled(s, e)
    requires e.WarmBegin? || e.WarmReady? || e.WarmFail? || e.WarmEnd? || e.WarmCancelled?
    ensures Tasks(Apply(s, e))
  {
  }

  lemma WarmOwners(s: State, e: Event, p: SessionId)
    requires Good(s, p) && Enabled(s, e)
    requires e.WarmBegin? || e.WarmReady? || e.WarmFail? || e.WarmEnd? || e.WarmCancelled?
    ensures GoodOwners(s, e, p)
  {
  }

  lemma CloseTasks(s: State, e: Event)
    requires Tasks(s) && Enabled(s, e)
    requires e.ExpiryFire? || e.CloseEnds? || e.CloseBegin? || e.CloseCancel? || e.CloseClaim? || e.CloseFinish?
    ensures Tasks(Apply(s, e))
  {
    if e.ExpiryFire? || e.CloseEnds? {
      ExpiryTasks(s, e);
    } else {
      ShutdownTasks(s, e);
    }
  }

  lemma ExpiryTasks(s: State, e: Event)
    requires Tasks(s) && Enabled(s, e) && (e.ExpiryFire? || e.CloseEnds?)
    ensures Tasks(Apply(s, e))
  {
  }

  lemma ShutdownTasks(s: State, e: Event)
    requires Tasks(s) && Enabled(s, e) && (e.CloseBegin? || e.CloseCancel? || e.CloseClaim? || e.CloseFinish?)
    ensures Tasks(Apply(s, e))
  {
    if e.CloseClaim? {
      ClaimTasks(s);
    }
  }

  lemma ClaimTasks(s: State)
    requires Tasks(s) && Enabled(s, CloseClaim)
    ensures Tasks(Apply(s, CloseClaim))
  {
  }

  lemma CloseOwners(s: State, e: Event, p: SessionId)
    requires Good(s, p) && Enabled(s, e)
    requires e.ExpiryFire? || e.CloseEnds? || e.CloseBegin? || e.CloseCancel? || e.CloseClaim? || e.CloseFinish?
    ensures GoodOwners(s, e, p)
  {
    if e.ExpiryFire? || e.CloseEnds? {
      ExpiryOwners(s, e, p);
    } else {
      ShutdownOwners(s, e, p);
    }
  }

  lemma ExpiryOwners(s: State, e: Event, p: SessionId)
    requires Good(s, p) && Enabled(s, e) && (e.ExpiryFire? || e.CloseEnds?)
    ensures GoodOwners(s, e, p)
  {
    var s' := Apply(s, e);
    assert WarmOwns(s', p) == WarmOwns(s, p) && RequestOwns(s', p) == RequestOwns(s, p);
  }

  lemma ShutdownOwners(s: State, e: Event, p: SessionId)
    requires Good(s, p) && Enabled(s, e) && (e.CloseBegin? || e.CloseCancel? || e.CloseClaim? || e.CloseFinish?)
    ensures GoodOwners(s, e, p)
  {
    if e.CloseClaim? {
      ClaimOwners(s, p);
    } else {
      var s' := Apply(s, e);
      assert WarmOwns(s', p) == WarmOwns(s, p) && RequestOwns(s', p) == RequestOwns(s, p);
    }
  }

  lemma ClaimOwners(s: State, p: SessionId)
    requires Good(s, p) && Enabled(s, CloseClaim)
    ensures GoodOwners(s, CloseClaim, p)
  {
    var s' := Apply(s, CloseClaim);
    assert WarmOwns(s', p) == WarmOwns(s, p) && RequestOwns(s', p) == RequestOwns(s, p);
  }

  // One request changes its own entry only; the rest of the state is framed here.
  lemma PhaseOwners(s: State, h: TaskId, phase: Phase, p: SessionId)
    requires Tasks(s) && h in s.handlers
    ensures RequestOwns(SetPhase(s, h, phase), p) + (if s.handlers[h].phase.Failing(p) then 1 else 0)
         == RequestOwns(s, p) + (if phase.Failing(p) then 1 else 0)
    ensures WarmOwns(SetPhase(s, h, phase), p) == WarmOwns(s, p)
  {
  }

  lemma PhaseTasks(s: State, h: TaskId, phase: Phase)
    requires Tasks(s) && h in s.handlers
    requires s.mode.Playback? && s.consumed ==> phase.Streaming? || phase.Ending?
    ensures Tasks(SetPhase(s, h, phase))
  {
  }

  lemma EnsureWarmKeeps(s: State, p: SessionId)
    requires Tasks(s)
    ensures Tasks(EnsureWarm(s))
    ensures WarmOwns(EnsureWarm(s), p) == WarmOwns(s, p)
    ensures RequestOwns(EnsureWarm(s), p) == RequestOwns(s, p)
  {
  }

  lemma FallbackKeeps(s: State, h: TaskId, p: SessionId)
    requires Tasks(s) && h in s.handlers && !(s.handlers[h].phase.Streaming? || s.handlers[h].phase.Ending?)
    ensures Tasks(Fallback(s, h))
    ensures Owners(Fallback(s, h), p) + (if s.handlers[h].phase.Failing(p) then 1 else 0) == Owners(s, p)
  {
    if s.everStreamed && s.mode.Live? {
      EnsureWarmKeeps(s, p);
      var warmed := EnsureWarm(s);
      PhaseOwners(warmed, h, Awaiting(warmed.warming.value), p);
      PhaseTasks(warmed, h, Awaiting(warmed.warming.value));
    } else {
      PhaseOwners(s, h, OwnPipeline, p);
      PhaseTasks(s, h, OwnPipeline);
    }
  }

  lemma AdoptKeeps(s: State, h: TaskId, p: SessionId)
    requires Tasks(s) && h in s.handlers && !(s.handlers[h].phase.Streaming? || s.handlers[h].phase.Ending?)
    requires !s.handlers[h].phase.Failing(p)
    requires s.prepared.Some?
    ensures Tasks(Adopt(s, h))
    ensures Owners(Adopt(s, h), p) == Owners(s, p)
  {
  }

  lemma DropKeeps(s: State, h: TaskId, phase: Phase, p: SessionId)
    requires Tasks(s) && h in s.handlers && s.prepared.Some?
    requires s.mode.Playback? && s.consumed ==> s.handlers[h].phase.Streaming? || s.handlers[h].phase.Ending?
    requires !(s.handlers[h].phase.Streaming? || s.handlers[h].phase.Ending?)
    requires !s.handlers[h].phase.Failing(p)
    requires phase == DroppingFirst(s.prepared.value) || phase == DroppingSecond(s.prepared.value)
    ensures Tasks(SetPhase(s.(prepared := None), h, phase))
    ensures Owners(SetPhase(s.(prepared := None), h, phase), p) == Owners(s, p)
  {
    var emptied := s.(prepared := None);
    assert Tasks(emptied);
    assert RequestOwns(emptied, p) == RequestOwns(s, p) && WarmOwns(emptied, p) == WarmOwns(s, p);
    PhaseOwners(emptied, h, phase, p);
    PhaseTasks(emptied, h, phase);
  }

  lemma TakeFirstKeeps(s: State, h: TaskId, healthy: bool, p: SessionId)
    requires Tasks(s) && h in s.handlers && (s.handlers[h].phase.Queued? || s.handlers[h].phase.Joining?)
    ensures Tasks(TakeFirst(s, h, healthy))
    ensures Owners(TakeFirst(s, h, healthy), p) == Owners(s, p)
    ensures TakeFirst(s, h, healthy).open == s.open && TakeFirst(s, h, healthy).nextId >= s.nextId
  {
    if s.prepared.None? {
      FallbackKeeps(s, h, p);
    } else if healthy {
      AdoptKeeps(s, h, p);
    } else {
      DropKeeps(s, h, DroppingFirst(s.prepared.value), p);
    }
  }

  lemma TakeSecondKeeps(s: State, h: TaskId, healthy: bool, p: SessionId)
    requires Tasks(s) && h in s.handlers && s.handlers[h].phase.Awaiting?
    ensures Tasks(TakeSecond(s, h, healthy))
    ensures Owners(TakeSecond(s, h, healthy), p) == Owners(s, p)
    ensures TakeSecond(s, h, healthy).open == s.open && TakeSecond(s, h, healthy).nextId >= s.nextId
  {
    if s.prepared.None? {
      PhaseOwners(s, h, Ending(None), p);
      PhaseTasks(s, h, Ending(None));
    } else if healthy {
      AdoptKeeps(s, h, p);
    } else {
      DropKeeps(s, h, DroppingSecond(s.prepared.value), p);
    }
  }

  lemma RunStartStep(s: State, h: TaskId, healthy: bool, p: SessionId)
    requires Good(s, p) && Enabled(s, RunStart(h, healthy))
    ensures Tasks(Apply(s, RunStart(h, healthy))) && GoodOwners(s, RunStart(h, healthy), p)
  {
    if s.warming.Some? {
      PhaseOwners(s, h, Joining(s.warming.value), p);
      PhaseTasks(s, h, Joining(s.warming.value));
    } else {
      TakeFirstKeeps(s, h, healthy, p);
    }
  }

  lemma RunJoinedStep(s: State, h: TaskId, healthy: bool, p: SessionId)
    requires Good(s, p) && Enabled(s, RunJoined(h, healthy))
    ensures Tasks(Apply(s, RunJoined(h, healthy))) && GoodOwners(s, RunJoined(h, healthy), p)
  {
    TakeFirstKeeps(s, h, healthy, p);
  }

  lemma RunWarmedStep(s: State, h: TaskId, healthy: bool, p: SessionId)
    requires Good(s, p) && Enabled(s, RunWarmed(h, healthy))
    ensures Tasks(Apply(s, RunWarmed(h, healthy))) && GoodOwners(s, RunWarmed(h, healthy), p)
  {
    TakeSecondKeeps(s, h, healthy, p);
  }

  lemma ClosedFailure(s: State, h: TaskId, p: SessionId)
    requires Good(s, p) && Enabled(s, RunDropped(h))
    ensures var rest := Close(s, s.handlers[h].phase.failed);
            && Tasks(rest) && rest.handlers == s.handlers && Owners(rest, p) == Owners(s, p)
            && (p in rest.open <==> p in s.open && p != s.handlers[h].phase.failed)
    ensures s.handlers[h].phase.failed == p ==> Owners(s, p) == 1
  {
    assert s.active == Some(h);
  }

  lemma FallbackOpens(s: State, h: TaskId)
    requires h in s.handlers
    ensures Fallback(s, h).open == s.open && Fallback(s, h).nextId >= s.nextId
  {
  }

  lemma RunDroppedStep(s: State, h: TaskId, p: SessionId)
    requires Good(s, p) && Enabled(s, RunDropped(h))
    ensures Tasks(Apply(s, RunDropped(h))) && GoodOwners(s, RunDropped(h), p)
  {
    var rest := Close(s, s.handlers[h].phase.failed);
    ClosedFailure(s, h, p);
    FallbackKeeps(rest, h, p);
    FallbackOpens(rest, h);
    assert Apply(s, RunDropped(h)) == Fallback(rest, h);
    FailureFollows(s, Fallback(rest, h), s.handlers[h].phase.failed, p);
  }

  lemma FailureFollows(s: State, s': State, failed: SessionId, p: SessionId)
    requires Owners(s, p) <= (if p in s.open then 1 else 0) && (p in s.open ==> p < s.nextId)
    requires s'.open == s.open - {failed} && s'.nextId >= s.nextId
    requires Owners(s', p) == Owners(s, p) - (if failed == p then 1 else 0)
    ensures Follows(s, s', false, p)
  {
  }

  lemma RunGaveUpStep(s: State, h: TaskId, p: SessionId)
    requires Good(s, p) && Enabled(s, RunGaveUp(h))
    ensures Tasks(Apply(s, RunGaveUp(h))) && GoodOwners(s, RunGaveUp(h), p)
  {
    var closed := Close(s, s.handlers[h].phase.failed);
    PhaseOwners(closed, h, Ending(None), p);
    PhaseTasks(closed, h, Ending(None));
  }

  lemma LeftoverClosedStep(s: State, h: TaskId, p: SessionId)
    requires Good(s, p) && Enabled(s, LeftoverClosed(h))
    ensures Tasks(Apply(s, LeftoverClosed(h))) && GoodOwners(s, LeftoverClosed(h), p)
  {
    var closed := Close(s, s.handlers[h].phase.leftover.value);
    PhaseOwners(closed, h, Ending(None), p);
    PhaseTasks(closed, h, Ending(None));
  }

  lemma RunPipedStep(s: State, h: TaskId, p: SessionId)
    requires Good(s, p) && Enabled(s, RunPiped(h))
    ensures Tasks(Apply(s, RunPiped(h))) && GoodOwners(s, RunPiped(h), p)
  {
    PhaseOwners(s, h, Obtained, p);
  }

  lemma FirstWriteStep(s: State, h: TaskId, p: SessionId)
    requires Good(s, p) && Enabled(s, FirstWrite(h))
    ensures Tasks(Apply(s, FirstWrite(h))) && GoodOwners(s, FirstWrite(h), p)
  {
    PhaseOwners(s, h, Streaming, p);
  }

  lemma LeaveStep(s: State, h: TaskId, p: SessionId)
    requires Good(s, p) && Enabled(s, Leave(h))
    ensures Tasks(Apply(s, Leave(h))) && GoodOwners(s, Leave(h), p)
  {
    PhaseOwners(s, h, LeavePhase(s.handlers[h].phase), p);
  }

  lemma HandlerEndStep(s: State, h: TaskId, p: SessionId)
    requires Good(s, p) && Enabled(s, HandlerEnd(h))
    ensures Tasks(Apply(s, HandlerEnd(h))) && GoodOwners(s, HandlerEnd(h), p)
  {
  }

  lemma GetStep(s: State, p: SessionId)
    requires Good(s, p) && Good(s, s.nextId) && Good(s, s.nextId + 1) && Enabled(s, Get)
    ensures Tasks(Apply(s, Get)) && GoodOwners(s, Get, p)
  {
  }

  lemma RunStepGood(s: State, e: Event, p: SessionId)
    requires Inv(s) && Enabled(s, e)
    requires e.RunStart? || e.RunJoined? || e.RunWarmed? || e.RunDropped? || e.RunGaveUp? || e.RunPiped?
    ensures Tasks(Apply(s, e)) && GoodOwners(s, e, p)
  {
    assert Good(s, p);
    match e
    case RunStart(h, healthy) => RunStartStep(s, h, healthy, p);
    case RunJoined(h, healthy) => RunJoinedStep(s, h, healthy, p);
    case RunWarmed(h, healthy) => RunWarmedStep(s, h, healthy, p);
    case RunDropped(h) => RunDroppedStep(s, h, p);
    case RunGaveUp(h) => RunGaveUpStep(s, h, p);
    case RunPiped(h) => RunPipedStep(s, h, p);
  }

  lemma HandleStepGood(s: State, e: Event, p: SessionId)
    requires Inv(s) && Enabled(s, e)
    requires e.LeftoverClosed? || e.FirstWrite? || e.Leave? || e.HandlerEnd? || e.Get?
    ensures Tasks(Apply(s, e)) && GoodOwners(s, e, p)
  {
    assert Good(s, p) && Good(s, s.nextId) && Good(s, s.nextId + 1);
    match e
    case LeftoverClosed(h) => LeftoverClosedStep(s, h, p);
    case FirstWrite(h) => FirstWriteStep(s, h, p);
    case Leave(h) => LeaveStep(s, h, p);
    case HandlerEnd(h) => HandlerEndStep(s, h, p);
    case Get => GetStep(s, p);
  }

  lemma WarmStepGood(s: State, e: Event, p: SessionId)
    requires Inv(s) && Enabled(s, e)
    requires e.WarmBegin? || e.WarmReady? || e.WarmFail? || e.WarmEnd? || e.WarmCancelled?
    ensures Tasks(Apply(s, e)) && GoodOwners(s, e, p)
  {
    assert Good(s, p) && Good(s, s.nextId);
    WarmTasks(s, e);
    WarmOwners(s, e, p);
  }

  lemma CloseStepGood(s: State, e: Event, p: SessionId)
    requires Inv(s) && Enabled(s, e)
    requires e.ExpiryFire? || e.CloseEnds? || e.CloseBegin? || e.CloseCancel? || e.CloseClaim? || e.CloseFinish?
    ensures Tasks(Apply(s, e)) && GoodOwners(s, e, p)
  {
    assert Good(s, p);
    CloseTasks(s, e);
    CloseOwners(s, e, p);
  }

  lemma PrepareStepGood(s: State, e: Event, p: SessionId)
    requires Inv(s) && Enabled(s, e)
    requires e.PrepareReuse? || e.PrepareWarm? || e.PrepareDrop? || e.PrepareDropped? || e.PrepareReplace? || e.Recover?
    ensures Tasks(Apply(s, e)) && GoodOwners(s, e, p)
  {
    assert Good(s, p);
    PrepareTasks(s, e);
    match e
    case PrepareDropped(q) => DroppedOwners(s, q, p);
    case PrepareReplace => ReplaceOwners(s, p);
    case _ => PrepareOwners(s, e, p);
  }

  lemma StepGood(s: State, e: Event, p: SessionId)
    requires Inv(s) && Enabled(s, e)
    ensures Tasks(Apply(s, e)) && GoodOwners(s, e, p)
  {
    if e.WarmBegin? || e.WarmReady? || e.WarmFail? || e.WarmEnd? || e.WarmCancelled? {
      WarmStepGood(s, e, p);
    } else if e.ExpiryFire? || e.CloseEnds? || e.CloseBegin? || e.CloseCancel? || e.CloseClaim? || e.CloseFinish? {
      CloseStepGood(s, e, p);
    } else if e.PrepareReuse? || e.PrepareWarm? || e.PrepareDrop? || e.PrepareDropped? || e.PrepareReplace? || e.Recover? {
      PrepareStepGood(s, e, p);
    } else if e.LeftoverClosed? || e.FirstWrite? || e.Leave? || e.HandlerEnd? || e.Get? {
      HandleStepGood(s, e, p);
    } else {
      RunStepGood(s, e, p);
    }
  }

  ghost function LostSet(s: State): set<SessionId> {
    set p | p in s.open && Lost(s, p)
  }

  lemma FollowsForAll(s: State, s': State, overwrites: bool)
    requires Inv(s) && Tasks(s') && (overwrites ==> s.prepared.Some?)
    requires forall p :: Follows(s, s', overwrites, p)
    ensures Inv(s')
    ensures LostSet(s') == LostSet(s) + if overwrites then {s.prepared.value} else {}
    ensures overwrites ==> s.prepared.value !in LostSet(s)
  {
    forall p ensures Owners(s', p) <= (if p in s'.open then 1 else 0) {
      assert Follows(s, s', overwrites, p);
    }
    forall p | p in s'.open ensures p < s'.nextId {
      assert Follows(s, s', overwrites, p);
    }
    forall p ensures p in LostSet(s') <==> p in LostSet(s) || (overwrites && p == s.prepared.value) {
      assert Follows(s, s', overwrites, p);
      assert Owners(s, p) <= (if p in s.open then 1 else 0);
    }
  }

  lemma StepKeepsInv(s: State, e: Event)
    requires Inv(s) && Enabled(s, e)
    ensures Inv(Apply(s, e))
    ensures LostSet(Apply(s, e)) == LostSet(s) + if Overwrites(s, e) then {s.prepared.value} else {}
    ensures Overwrites(s, e) ==> s.prepared.value !in LostSet(s)
  {
    StepGood(s, e, 0);
    forall p ensures Follows(s, Apply(s, e), Overwrites(s, e), p) {
      StepGood(s, e, p);
    }
    FollowsForAll(s, Apply(s, e), Overwrites(s, e));
  }

  // ---- Whole runs ----

  /** How often a run publishes a warm pipeline onto an occupied slot. */
  function OverwriteCount(s: State, es: seq<Event>): nat
    requires Executable(s, es)
    decreases |es|
  {
    if es == [] then 0
    else (if Overwrites(s, es[0]) then 1 else 0) + OverwriteCount(Apply(s, es[0]), es[1..])
  }

  lemma {:induction false} RunKeepsInv(s: State, es: seq<Event>)
    requires Inv(s) && Executable(s, es)
    ensures Inv(Final(s, es))
    ensures |LostSet(Final(s, es))| == |LostSet(s)| + OverwriteCount(s, es)
    ensures LostSet(s) <= LostSet(Final(s, es))
    decreases |es|
  {
    if es != [] {
      StepKeepsInv(s, es[0]);
      RunKeepsInv(Apply(s, es[0]), es[1..]);
    }
  }

  /** In every reachable state an open session has exactly one owner or was lost to an overwrite. */
  lemma EveryOpenSessionHasOneOwner(mode: Mode, es: seq<Event>)
    requires Executable(Init(mode), es)
    ensures var s := Final(Init(mode), es);
            && (forall p | p in s.open :: Owners(s, p) == 1 || (Owners(s, p) == 0 && p in LostSet(s)))
            && (forall p | p !in s.open :: Owners(s, p) == 0)
            && |LostSet(s)| == OverwriteCount(Init(mode), es)
  {
    assert Inv(Init(mode));
    assert LostSet(Init(mode)) == {};
    RunKeepsInv(Init(mode), es);
  }

  /** Every open session has exactly one owner or was lost, no other has any, and at most one of each task runs. */
  ghost predicate Owned(s: State) {
    && (forall p | p in s.open :: Owners(s, p) == if p in LostSet(s) then 0 else 1)
    && (forall p | p !in s.open :: Owners(s, p) == 0)
    && (forall h, k | h in s.handlers && k in s.handlers :: h == k)
    && (forall w, v | w in s.warms && v in s.warms :: w == v)
    && (s.mode.Playback? ==> s.firstWrites <= 1)
  }

  lemma InvIsOwned(s: State)
    requires Inv(s)
    ensures Owned(s)
  {
    forall p | p in s.open ensures Owners(s, p) == if p in LostSet(s) then 0 else 1 {
      assert Owners(s, p) <= 1;
    }
    forall p | p !in s.open ensures Owners(s, p) == 0 {
      assert Owners(s, p) <= 0;
    }
  }

  /** A run continued by one enabled event: its state is owned, and the event loses nothing but what it overwrites. */
  lemma OneMoreEvent(mode: Mode, es: seq<Event>, e: Event)
    requires Executable(Init(mode), es) && Enabled(Final(Init(mode), es), e)
    ensures Executable(Init(mode), es + [e])
    ensures Final(Init(mode), es + [e]) == Apply(Final(Init(mode), es), e)
    ensures Inv(Final(Init(mode), es)) && Owned(Final(Init(mode), es)) && Owned(Apply(Final(Init(mode), es), e))
    ensures var s := Final(Init(mode), es);
            LostSet(Apply(s, e)) == LostSet(s) + if Overwrites(s, e) then s.prepared.ToSet() else {}
  {
    Extend(Init(mode), es, e);
    assert Inv(Init(mode));
    RunKeepsInv(Init(mode), es);
    StepKeepsInv(Final(Init(mode), es), e);
    InvIsOwned(Final(Init(mode), es));
    InvIsOwned(Apply(Final(Init(mode), es), e));
  }

  /** With the same sessions open and the same lost, each session has as many owners as before. */
  lemma SameOwners(s: State, t: State)
    requires Owned(s) && Owned(t) && s.open == t.open && LostSet(s) == LostSet(t)
    ensures forall p :: Owners(t, p) == Owners(s, p)
  {
    forall p ensures Owners(t, p) == Owners(s, p) {
      if p in s.open {
        assert Owners(s, p) == if p in LostSet(s) then 0 else 1;
      }
    }
  }

  /** A run loses no session exactly when every warm-up that finishes finds the slot empty. */
  lemma NothingLostIffNoOverwrite(mode: Mode, es: seq<Event>)
    requires Executable(Init(mode), es)
    ensures (forall p | p in Final(Init(mode), es).open :: Owners(Final(Init(mode), es), p) == 1)
       <==> OverwriteCount(Init(mode), es) == 0
  {
    EveryOpenSessionHasOneOwner(mode, es);
    var s := Final(Init(mode), es);
    if OverwriteCount(Init(mode), es) == 0 {
      assert LostSet(s) == {};
    } else {
      assert LostSet(s) != {};
      var p :| p in LostSet(s);
      assert p in s.open && Owners(s, p) == 0;
    }
  }

  lemma {:induction false} ExecutableSplits(s: State, es: seq<Event>, more: seq<Event>)
    requires Executable(s, es + more)
    ensures Executable(s, es) && Executable(Final(s, es), more)
    ensures Final(s, es + more) == Final(Final(s, es), more)
    decreases |es|
  {
    if es == [] {
      assert es + more == more;
    } else {
      assert (es + more)[0] == es[0] && (es + more)[1..] == es[1..] + more;
      ExecutableSplits(Apply(s, es[0]), es[1..], more);
    }
  }

  lemma {:induction false} Extend(s: State, es: seq<Event>, e: Event)
    requires Executable(s, es) && Enabled(Final(s, es), e)
    ensures Executable(s, es + [e]) && Final(s, es + [e]) == Apply(Final(s, es), e)
    decreases |es|
  {
    if es == [] {
      assert es + [e] == [e];
      assert Executable(Apply(s, e), [e][1..]);
    } else {
      assert (es + [e])[0] == es[0] && (es + [e])[1..] == es[1..] + [e];
      Extend(Apply(s, es[0]), es[1..], e);
    }
  }

  lemma ExtendTo(s: State, es: seq<Event>, e: Event, t: State)
    requires Executable(s, es) && Enabled(Final(s, es), e) && Apply(Final(s, es), e) == t
    ensures Executable(s, es + [e]) && Final(s, es + [e]) == t
  {
    Extend(s, es, e);
  }

  lemma {:induction false} Concat(s: State, es: seq<Event>, more: seq<Event>)
    requires Executable(s, es) && Executable(Final(s, es), more)
    ensures Executable(s, es + more) && Final(s, es + more) == Final(Final(s, es), more)
    decreases |es|
  {
    if es == [] {
      assert es + more == more;
    } else {
      assert (es + more)[0] == es[0] && (es + more)[1..] == es[1..] + more;
      Concat(Apply(s, es[0]), es[1..], more);
    }
  }

  /** A lost session stays open in every continuation, through `async_close` too. */
  lemma LostForever(mode: Mode, es: seq<Event>, more: seq<Event>)
    requires Executable(Init(mode), es + more)
    ensures Executable(Init(mode), es)
    ensures LostSet(Final(Init(mode), es)) <= Final(Init(mode), es + more).open
  {
    ExecutableSplits(Init(mode), es, more);
    assert Inv(Init(mode));
    RunKeepsInv(Init(mode), es);
    RunKeepsInv(Final(Init(mode), es), more);
  }

  /** At most one request and one warm-up run; in playback at most one response is ever written to. */
  lemma OneRequestOneWarmOneWrite(mode: Mode, es: seq<Event>)
    requires Executable(Init(mode), es)
    ensures var s := Final(Init(mode), es);
            && (forall h, k | h in s.handlers && k in s.handlers :: h == k)
            && (forall w, v | w in s.warms && v in s.warms :: w == v)
            && (mode.Playback? ==> s.firstWrites <= 1)
  {
    assert Inv(Init(mode));
    RunKeepsInv(Init(mode), es);
    ModeIsFixed(Init(mode), es);
  }

  lemma StepKeepsMode(s: State, e: Event)
    requires Enabled(s, e)
    ensures Apply(s, e).mode == s.mode
  {
    match e
    case RunStart(h, healthy) => TakesKeepMode(s, h, healthy);
    case RunJoined(h, healthy) => TakesKeepMode(s, h, healthy);
    case RunWarmed(h, healthy) => TakesKeepMode(s, h, healthy);
    case RunDropped(h) => TakesKeepMode(Close(s, s.handlers[h].phase.failed), h, true);
    case _ =>
  }

  lemma TakesKeepMode(s: State, h: TaskId, healthy: bool)
    requires h in s.handlers
    ensures Fallback(s, h).mode == TakeFirst(s, h, healthy).mode == TakeSecond(s, h, healthy).mode == s.mode
  {
  }

  lemma {:induction false} ModeIsFixed(s: State, es: seq<Event>)
    requires Executable(s, es)
    ensures Final(s, es).mode == s.mode
    decreases |es|
  {
    if es != [] {
      StepKeepsMode(s, es[0]);
      ModeIsFixed(Apply(s, es[0]), es[1..]);
    }
  }

  // ---- async_close ----

  /** The ids of later tasks are larger; once the slot is claimed, the warm-ups that were cancelled have ended. */
  ghost predicate Drained(s: State) {
    && (s.stage.Drains() ==> s.stage.since <= s.nextId)
    && (s.stage.Claimed? || s.stage.ShutDown? ==> forall w | w in s.warms :: s.stage.since <= w)
  }

  /** Nothing but a new task joins the warm-ups, and `async_close` is as far as before. */
  ghost predicate AddsWarm(s: State, t: State) {
    && t.stage == s.stage && s.nextId <= t.nextId
    && forall w | w in t.warms :: w in s.warms || s.nextId <= w
  }

  lemma FallbackAddsWarm(s: State, h: TaskId)
    requires h in s.handlers
    ensures AddsWarm(s, Fallback(s, h))
  {
  }

  lemma TakeFirstAddsWarm(s: State, h: TaskId, healthy: bool)
    requires h in s.handlers
    ensures AddsWarm(s, TakeFirst(s, h, healthy))
  {
    FallbackAddsWarm(s, h);
  }

  lemma TakeSecondAddsWarm(s: State, h: TaskId, healthy: bool)
    requires h in s.handlers
    ensures AddsWarm(s, TakeSecond(s, h, healthy))
  {
  }

  lemma RunAddsWarm(s: State, e: Event)
    requires Enabled(s, e) && (e.RunStart? || e.RunJoined? || e.RunWarmed? || e.RunDropped?)
    ensures AddsWarm(s, Apply(s, e))
  {
    match e
    case RunStart(h, healthy) =>
      if s.warming.None? { TakeFirstAddsWarm(s, h, healthy); }
    case RunJoined(h, healthy) => TakeFirstAddsWarm(s, h, healthy);
    case RunWarmed(h, healthy) => TakeSecondAddsWarm(s, h, healthy);
    case RunDropped(h) => FallbackAddsWarm(Close(s, s.handlers[h].phase.failed), h);
  }

  lemma StepAddsWarm(s: State, e: Event)
    requires Enabled(s, e) && !(e.CloseBegin? || e.CloseCancel? || e.CloseClaim? || e.CloseFinish?)
    ensures AddsWarm(s, Apply(s, e))
  {
    if e.RunStart? || e.RunJoined? || e.RunWarmed? || e.RunDropped? {
      RunAddsWarm(s, e);
    }
  }

  lemma StepKeepsDrained(s: State, e: Event)
    requires Drained(s) && Enabled(s, e)
    ensures Drained(Apply(s, e))
  {
    if !(e.CloseBegin? || e.CloseCancel? || e.CloseClaim? || e.CloseFinish?) {
      StepAddsWarm(s, e);
    }
  }

  lemma {:induction false} RunKeepsDrained(s: State, es: seq<Event>)
    requires Drained(s) && Executable(s, es)
    ensures Drained(Final(s, es))
    decreases |es|
  {
    if es != [] {
      StepKeepsDrained(s, es[0]);
      RunKeepsDrained(Apply(s, es[0]), es[1..]);
    }
  }

  /** A warm-up asked for after `async_close` had cancelled the one of the moment, and begun. */
  predicate IsLateWarm(s: State, w: TaskId) {
    w in s.warms && !s.warms[w].Scheduled? && s.stage.Drains() && s.stage.since <= w
  }

  predicate NoLateWarm(s: State) {
    forall w | w in s.warms :: !IsLateWarm(s, w)
  }

  /**
   After `async_close`: open sessions are lost, or held by a warm-up that was asked for after it had cancelled
   one, or by a close still in progress, which is that of a resumed `async_prepare` or of an expiry older than
   the one awaited. So nothing is open exactly when no session was lost and neither of those remains.
   */
  lemma AfterShutdown(mode: Mode, es: seq<Event>)
    requires Executable(Init(mode), es) && Final(Init(mode), es).stage.ShutDown?
    ensures var s := Final(Init(mode), es);
            && s.prepared.None? && s.active.None? && (forall w | w in s.warms :: s.stage.since <= w)
            && (forall p | p in s.open ::
                  || p in LostSet(s)
                  || (WarmOwns(s, p) == 1 && IsLateWarm(s, s.warming.value))
                  || (p in s.closing && (s.closing[p].Preparer? || (s.closing[p].Expiry? && s.expiry != Some(p)))))
    ensures var s := Final(Init(mode), es);
            s.open == {} <==> OverwriteCount(Init(mode), es) == 0 && s.closing == map[] && NoLateWarm(s)
  {
    EveryOpenSessionHasOneOwner(mode, es);
    assert Inv(Init(mode));
    RunKeepsInv(Init(mode), es);
    RunKeepsDrained(Init(mode), es);
    var s := Final(Init(mode), es);
    assert OverwriteCount(Init(mode), es) == 0 ==> LostSet(s) == {};
    if s.open == {} {
      NothingOpenMeansNothingHeld(s);
      assert LostSet(s) == {};
    }
  }

  lemma HeldIsOpen(s: State, p: SessionId)
    requires Inv(s) && (p in s.closing || (exists w :: w in s.warms && !s.warms[w].Scheduled? && s.warms[w].session == p))
    ensures p in s.open
  {
    if w :| w in s.warms && !s.warms[w].Scheduled? && s.warms[w].session == p {
      assert s.warming == Some(w) && WarmOwns(s, p) == 1;
    }
    assert Owners(s, p) >= 1;
  }

  lemma NothingOpenMeansNothingHeld(s: State)
    requires Inv(s) && s.open == {}
    ensures s.closing == map[] && NoLateWarm(s)
  {
    forall p ensures p !in s.closing {
      if p in s.closing { HeldIsOpen(s, p); }
    }
    forall w | w in s.warms ensures !IsLateWarm(s, w) {
      if !s.warms[w].Scheduled? { HeldIsOpen(s, s.warms[w].session); }
    }
  }

  /** No close is in progress that `async_close` does not await: of a resumed `async_prepare` or of an older expiry. */
  predicate NoUnawaitedClose(s: State) {
    forall p | p in s.closing :: !(s.closing[p].Preparer? || (s.closing[p].Expiry? && s.expiry != Some(p)))
  }

  /**
   When `async_close` returns, it leaves nothing open exactly when nothing was lost, those closes are done and
   no warm-up has begun since it cancelled one.
   */
  lemma ShutdownLeavesNothingOpenIff(mode: Mode, es: seq<Event>)
    requires Executable(Init(mode), es) && Enabled(Final(Init(mode), es), CloseFinish)
    ensures Executable(Init(mode), es + [CloseFinish])
    ensures Final(Init(mode), es + [CloseFinish]).open == {}
       <==> OverwriteCount(Init(mode), es) == 0 && NoLateWarm(Final(Init(mode), es)) && NoUnawaitedClose(Final(Init(mode), es))
  {
    var s := Final(Init(mode), es);
    Extend(Init(mode), es, CloseFinish);
    AfterShutdown(mode, es + [CloseFinish]);
    CountSnoc(Init(mode), es, CloseFinish);
    assert Apply(s, CloseFinish) == s.(stage := ShutDown(s.stage.since));
    if NoUnawaitedClose(s) {
      assert forall p :: p !in s.closing;
      assert s.closing == map[];
    }
  }

  lemma {:induction false} CountSnoc(s: State, es: seq<Event>, e: Event)
    requires Executable(s, es) && Enabled(Final(s, es), e) && Executable(s, es + [e])
    ensures OverwriteCount(s, es + [e]) == OverwriteCount(s, es) + if Overwrites(Final(s, es), e) then 1 else 0
    decreases |es|
  {
    if es == [] {
      assert es + [e] == [e];
      assert OverwriteCount(Apply(s, e), [e][1..]) == 0;
    } else {
      assert (es + [e])[0] == es[0] && (es + [e])[1..] == es[1..] + [e];
      CountSnoc(Apply(s, es[0]), es[1..], e);
    }
  }
}
