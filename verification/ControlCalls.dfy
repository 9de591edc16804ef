/**
 Control calls as steps on the stored states and a trace of what was sent. Whether a send succeeds,
 what the device answers and which clients are connected is given with each call.
 */
module ControlCalls {
  import opened Wrappers
  import opened ControlPolicy

  /** A dictionary entry: no key, the value `None`, or a number. */
  datatype Slot = Absent | Nothing | At(n: int)

  datatype Stored = Stored(position: Slot, angle: Slot)

  datatype Category = DreamCurtain | OtherCategory

  datatype Device = Device(profile: Profile, category: Category)

  datatype Command =
    | CurtainAngle(degrees: int)
    | CurtainPosition(percent: int)
    | CoverPosition(percent: int)
    | Sterilize(on: bool)
    | HorseFeature
    | Routed

  /** A drying-rack feature; the table of control fields does not know the last. */
  datatype Feature = Sterilizing | OtherFeature | UnknownFeature

  datatype Outcome = Success | Refused | Raised

  datatype Reply = Reply(angle: Option<int>, value1: Option<int>, otherState: bool) {
    predicate HasState() {
      angle.Some? || value1.Some? || otherState
    }
  }

  /** What one invocation meets: clients, gateway, send outcomes and the awaited SSL answer. */
  datatype Net = Net(adapter: bool, connected: bool, sslClient: bool, sslAtRetry: bool, lan: Outcome, ssl: Outcome,
                     reply: Option<Reply>)

  datatype Event = Sent(channel: Channel, command: Command, outcome: Outcome) | Answered(angle: Option<int>)

  /**
   One call that sent something: what it found stored when it began, and what its first and, for a
   curtain that is centred first, its second invocation did. An awaited answer ends its invocation.
   */
  datatype Block = Block(device: string, found: Stored, routed: bool, first: seq<Event>, second: seq<Event>) {
    function Events(): seq<Event> {
      first + second
    }
  }

  datatype State = State(
    mode: TransportMode,
    devices: map<string, Device>,
    states: map<string, Stored>,
    lastTransport: map<string, Channel>,
    trace: seq<Block>)

  datatype Call =
    | SetCoverPosition(id: string, position: int, net: Net, net2: Net)
    | SetCurtainAngle(id: string, angle: int, net: Net)
    | SendRouted(id: string, net: Net)
    | HorseControl(id: string, feature: Feature, on: bool, net: Net)
    | StatePushed(id: string, stored: Stored)

  // ---- One invocation ----

  datatype Invocation = Invocation(events: seq<Event>, ok: bool, scope: Channel, threw: bool)

  /** `_invoke_with_fallback`. */
  function Invoke(mode: TransportMode, scope: Channel, present: bool, command: Command, net: Net): Invocation {
    if !present then Invocation([], false, scope, false)
    else if scope.Ssl? then
      Invocation([Sent(Ssl, command, net.ssl)], net.ssl.Success?, Ssl, net.ssl.Raised?)
    else if net.lan.Success? || mode.LanOnly? || !net.sslAtRetry then
      Invocation([Sent(Lan, command, net.lan)], net.lan.Success?, Lan, false)
    else
      Invocation([Sent(Lan, command, net.lan), Sent(Ssl, command, net.ssl)], net.ssl.Success?, Ssl, net.ssl.Raised?)
  }

  /** At most one LAN send, then at most one SSL send; after a LAN send only if that failed. */
  predicate OneShotFallback(mode: TransportMode, es: seq<Event>) {
    && |es| <= 2
    && (forall e | e in es :: e.Sent?)
    && (|es| == 2 ==> es[0].channel.Lan? && !es[0].outcome.Success? && es[1].channel.Ssl? && es[0].command == es[1].command)
    && (mode.LanOnly? ==> |es| <= 1)
  }

  /** The sends of an invocation, without the answer that may have been awaited after them. */
  function Sends(es: seq<Event>): seq<Event> {
    if es != [] && es[|es| - 1].Answered? then es[..|es| - 1] else es
  }

  lemma InvokeFallsBackOnce(mode: TransportMode, c: Capability, command: Command, net: Net)
    ensures var (scope, present) := Transport(mode, c, net.adapter && net.connected, net.sslClient);
            var r := Invoke(mode, scope, present, command, net);
            && OneShotFallback(mode, r.events)
            && (forall e | e in r.events ::
                  e.command == command && MaySendOn(mode, c, net.adapter && net.connected, net.sslClient, e.channel))
            && (mode.LanOnly? ==> forall e | e in r.events :: e.channel.Lan?)
            && (mode.CloudOnly? ==> forall e | e in r.events :: e.channel.Ssl?)
            && (r.ok <==> r.events != [] && r.events[|r.events| - 1].outcome.Success?)
            && (r.ok ==> r.scope == r.events[|r.events| - 1].channel)
  {
  }

  // ---- Calls ----

  /** `_transport` for a device and what the call meets. */
  function Select(mode: TransportMode, p: Profile, net: Net): (Channel, bool) {
    Transport(mode, CapabilityFor(p), net.adapter && net.connected, net.sslClient)
  }

  function Found(s: State, id: string): Stored {
    if id in s.states then s.states[id] else Stored(Absent, Absent)
  }

  /** `_connected_device`. */
  predicate Connected(s: State, id: string, net: Net) {
    (net.sslClient || net.adapter) && id in s.devices
  }

  /** `_controllable_device`. */
  predicate Controllable(s: State, id: string, net: Net) {
    Connected(s, id, net) && !s.devices[id].profile.RegistrationOnly()
  }

  function Track(last: map<string, Channel>, id: string, es: seq<Event>): map<string, Channel>
    decreases |es|
  {
    if es == [] then last
    else
      var e := es[|es| - 1];
      var before := Track(last, id, es[..|es| - 1]);
      if e.Sent? && e.outcome.Success? then before[id := e.channel] else before
  }

  /** The trace and the transport record after a call; a call that sent nothing leaves no block. */
  function Record(s: State, id: string, routed: bool, first: seq<Event>, second: seq<Event>): State {
    if first + second == [] then s
    else s.(trace := s.trace + [Block(id, Found(s, id), routed, first, second)],
            lastTransport := Track(s.lastTransport, id, first + second))
  }

  function Answer(r: Invocation, net: Net): Option<Reply> {
    if r.ok && r.scope.Ssl? then net.reply else None
  }

  /** The state update at the end of a successful `set_cover_position`; both kinds create a missing entry. */
  function StorePosition(s: State, id: string, position: int, reply: Option<Reply>): State {
    var actual := if reply.Some? then reply.value.value1 else None;
    if actual.Some? && 0 <= actual.value <= 100 then
      s.(states := s.states[id := Found(s, id).(position := At(actual.value))])
    else if reply.None? || !reply.value.HasState() then
      s.(states := s.states[id := Found(s, id).(position := At(position))])
    else s
  }

  function Positioned(s: State, id: string, position: int, centring: seq<Event>, r: Invocation, net: Net): State {
    var after := if centring == [] then Record(s, id, true, r.events, []) else Record(s, id, true, centring, r.events);
    if r.ok then StorePosition(after, id, position, Answer(r, net)) else after
  }

  /** What the centring invocation sends, and the answer awaited after an SSL success. */
  function Centring(mode: TransportMode, scope: Channel, net: Net): seq<Event> {
    var centred := Invoke(mode, scope, true, CurtainAngle(90), net);
    var reply := Answer(centred, net);
    centred.events
      + if centred.ok && centred.scope.Ssl? then [Answered(if reply.Some? then reply.value.angle else None)] else []
  }

  /** The centring command reaches the device over SSL, at once or after the LAN send failed, and is answered with 90. */
  predicate CentredOverSsl(mode: TransportMode, scope: Channel, net: Net) {
    && (scope.Lan? ==> !net.lan.Success? && !mode.LanOnly? && net.sslAtRetry)
    && net.ssl.Success? && net.reply.Some? && net.reply.value.angle == Some(90)
  }

  /** A closed curtain: centre it, and position it over SSL only once the answer confirms the centring. */
  function CentreThenPosition(s: State, id: string, position: int, scope: Channel, net: Net, net2: Net): State {
    var centring := Centring(s.mode, scope, net);
    if !CentredOverSsl(s.mode, scope, net) || !net2.sslClient then Record(s, id, true, centring, [])
    else Positioned(s, id, position, centring, Invoke(s.mode, Ssl, true, CurtainPosition(position), net2), net2)
  }

  function SetPosition(s: State, id: string, position: int, net: Net, net2: Net): State {
    if !Controllable(s, id, net) then s
    else
      var device := s.devices[id];
      var (scope, present) := Select(s.mode, device.profile, net);
      if device.profile.Custom? then Record(s, id, true, Invoke(s.mode, scope, present, Routed, net).events, [])
      else if !present then s
      else if !device.category.DreamCurtain? then
        Positioned(s, id, position, [], Invoke(s.mode, scope, true, CoverPosition(position), net), net)
      else if Found(s, id).angle == At(90) then
        Positioned(s, id, position, [], Invoke(s.mode, scope, true, CurtainPosition(position), net), net)
      else if Found(s, id).position != At(0) then s
      else
        CentreThenPosition(s, id, position, scope, net, net2)
  }

  /** What `set_cover_position` answers. */
  predicate PositionSucceeds(s: State, id: string, position: int, net: Net, net2: Net) {
    Controllable(s, id, net) &&
    var device := s.devices[id];
    var (scope, present) := Select(s.mode, device.profile, net);
    if device.profile.Custom? then Invoke(s.mode, scope, present, Routed, net).ok
    else if !present then false
    else if !device.category.DreamCurtain? then Invoke(s.mode, scope, true, CoverPosition(position), net).ok
    else if Found(s, id).angle == At(90) then Invoke(s.mode, scope, true, CurtainPosition(position), net).ok
    else Found(s, id).position == At(0) && CentredOverSsl(s.mode, scope, net) && net2.sslClient && net2.ssl.Success?
  }

  function Clamp(angle: int): int {
    if angle < 0 then 0 else if angle > 180 then 180 else angle
  }

  function SetAngle(s: State, id: string, angle: int, net: Net): State {
    if !Controllable(s, id, net) || s.devices[id].profile.Custom? || !s.devices[id].category.DreamCurtain?
       || Found(s, id).position != At(0) then s
    else
      var (scope, present) := Select(s.mode, s.devices[id].profile, net);
      var r := Invoke(s.mode, scope, present, CurtainAngle(angle), net);
      var after := Record(s, id, true, r.events, []);
      if r.ok then after.(states := after.states[id := Found(after, id).(angle := At(Clamp(angle)))]) else after
  }

  function Route(s: State, id: string, net: Net): State {
    if !Controllable(s, id, net) then s
    else
      var (scope, present) := Select(s.mode, s.devices[id].profile, net);
      Record(s, id, true, Invoke(s.mode, scope, present, Routed, net).events, [])
  }

  function HorseCommand(feature: Feature, on: bool): Command {
    if feature.Sterilizing? then Sterilize(on) else HorseFeature
  }

  function Horse(s: State, id: string, feature: Feature, on: bool, net: Net): State {
    if !Connected(s, id, net) || feature.UnknownFeature? then s
    else if feature.Sterilizing? && on && Found(s, id).position !in {Absent, At(0)} then s
    else if !net.sslClient then s
    else Record(s, id, false, [Sent(Ssl, HorseCommand(feature, on), net.ssl)], [])
  }

  function Step(s: State, c: Call): State {
    match c
    case SetCoverPosition(id, position, net, net2) => SetPosition(s, id, position, net, net2)
    case SetCurtainAngle(id, angle, net) => SetAngle(s, id, angle, net)
    case SendRouted(id, net) => Route(s, id, net)
    case HorseControl(id, feature, on, net) => Horse(s, id, feature, on, net)
    case StatePushed(id, stored) => s.(states := s.states[id := stored])
  }

  function Run(s: State, calls: seq<Call>): State
    decreases |calls|
  {
    if calls == [] then s else Run(Step(s, calls[0]), calls[1..])
  }

  // ---- Safety of a block ----

  /** A centring command went out over SSL and was then answered with angle 90, before event `i`. */
  predicate CentredBefore(b: Block, i: int)
    requires i <= |b.Events()|
  {
    exists j, k | 0 <= j < k < i ::
      b.Events()[j] == Sent(Ssl, CurtainAngle(90), Success) && b.Events()[k] == Answered(Some(90))
  }

  predicate EventIsSafe(b: Block, i: int)
    requires 0 <= i < |b.Events()|
  {
    b.Events()[i].Sent? ==>
      match b.Events()[i].command
      case CurtainPosition(_) => b.found.angle == At(90) || (b.found.position == At(0) && CentredBefore(b, i))
      case CurtainAngle(_) => b.found.position == At(0)
      case Sterilize(on) => on ==> b.found.position in {Absent, At(0)}
      case _ => true
  }

  ghost predicate Interlocked(b: Block) {
    forall i | 0 <= i < |b.Events()| :: EventIsSafe(b, i)
  }

  /** Each invocation of the call: at most one LAN send, then at most one SSL send, and that only after a failure. */
  predicate OneShots(mode: TransportMode, b: Block) {
    OneShotFallback(mode, Sends(b.first)) && OneShotFallback(mode, Sends(b.second))
  }

  ghost predicate OnPolicy(mode: TransportMode, devices: map<string, Device>, b: Block) {
    b.routed ==>
      && b.device in devices && !devices[b.device].profile.RegistrationOnly()
      && forall e | e in b.Events() && e.Sent? ::
           && (mode.LanOnly? ==> e.channel.Lan?)
           && (mode.CloudOnly? ==> e.channel.Ssl?)
           && (devices[b.device].profile.Builtin? ==>
                 PathFor(CapabilityFor(devices[b.device].profile), mode).Permits(e.channel))
  }

  /** The channel of the latest successful send to `id`. */
  function LatestSuccess(trace: seq<Block>, id: string): Option<Channel>
    decreases |trace|
  {
    if trace == [] then None
    else
      var b := trace[|trace| - 1];
      var here := if b.device == id then LatestIn(b.Events()) else None;
      if here.Some? then here else LatestSuccess(trace[..|trace| - 1], id)
  }

  function LatestIn(es: seq<Event>): Option<Channel>
    decreases |es|
  {
    if es == [] then None
    else
      var e := es[|es| - 1];
      if e.Sent? && e.outcome.Success? then Some(e.channel) else LatestIn(es[..|es| - 1])
  }

  ghost predicate Safe(s: State) {
    && (forall b | b in s.trace :: Interlocked(b) && OneShots(s.mode, b) && OnPolicy(s.mode, s.devices, b))
    && (forall id :: (if id in s.lastTransport then Some(s.lastTransport[id]) else None) == LatestSuccess(s.trace, id))
  }

  lemma {:induction false} TrackIsLatest(last: map<string, Channel>, id: string, es: seq<Event>, other: string)
    ensures var t := Track(last, id, es);
            (if other in t then Some(t[other]) else None)
            == if other == id && LatestIn(es).Some? then LatestIn(es)
               else if other in last then Some(last[other]) else None
    decreases |es|
  {
    if es != [] {
      TrackIsLatest(last, id, es[..|es| - 1], other);
    }
  }

  ghost predicate SafeBlock(s: State, b: Block) {
    Interlocked(b) && OneShots(s.mode, b) && OnPolicy(s.mode, s.devices, b)
  }

  lemma RecordIsSafe(s: State, id: string, routed: bool, first: seq<Event>, second: seq<Event>)
    requires Safe(s)
    requires first + second != [] ==> SafeBlock(s, Block(id, Found(s, id), routed, first, second))
    ensures Safe(Record(s, id, routed, first, second))
  {
    if first + second != [] {
      var after := Record(s, id, routed, first, second);
      assert after.trace[..|after.trace| - 1] == s.trace;
      forall other
        ensures (if other in after.lastTransport then Some(after.lastTransport[other]) else None)
             == LatestSuccess(after.trace, other)
      {
        TrackIsLatest(s.lastTransport, id, first + second, other);
      }
    }
  }

  /** The block of a call with one invocation keeps to the policy and falls back at most once. */
  lemma InvokeIsOnPolicy(s: State, id: string, command: Command, net: Net, found: Stored)
    requires id in s.devices && !s.devices[id].profile.RegistrationOnly()
    ensures var (scope, present) := Select(s.mode, s.devices[id].profile, net);
            var b := Block(id, found, true, Invoke(s.mode, scope, present, command, net).events, []);
            && OnPolicy(s.mode, s.devices, b) && OneShots(s.mode, b) && b.Events() == b.first
            && forall e | e in b.first :: e.Sent? && e.command == command
  {
    var p := s.devices[id].profile;
    var c := CapabilityFor(p);
    InvokeFallsBackOnce(s.mode, c, command, net);
    var (scope, present) := Transport(s.mode, c, net.adapter && net.connected, net.sslClient);
    var es := Invoke(s.mode, scope, present, command, net).events;
    assert es + [] == es;
    forall e | e in es && p.Builtin?
      ensures PathFor(c, s.mode).Permits(e.channel)
    {
      UsedChannelIsPermittedIff(s.mode, p, net.adapter && net.connected, net.sslClient, e.channel);
      GuardedBuiltinsHaveAPath(p);
    }
  }

  lemma SetAngleIsSafe(s: State, id: string, angle: int, net: Net)
    requires Safe(s)
    ensures Safe(SetAngle(s, id, angle, net))
  {
    if Controllable(s, id, net) {
      var (scope, present) := Select(s.mode, s.devices[id].profile, net);
      InvokeIsOnPolicy(s, id, CurtainAngle(angle), net, Found(s, id));
      var es := Invoke(s.mode, scope, present, CurtainAngle(angle), net).events;
      if Found(s, id).position == At(0) {
        RecordIsSafe(s, id, true, es, []);
      }
    }
  }

  lemma RouteIsSafe(s: State, id: string, net: Net)
    requires Safe(s)
    ensures Safe(Route(s, id, net))
  {
    if Controllable(s, id, net) {
      var (scope, present) := Select(s.mode, s.devices[id].profile, net);
      InvokeIsOnPolicy(s, id, Routed, net, Found(s, id));
      RecordIsSafe(s, id, true, Invoke(s.mode, scope, present, Routed, net).events, []);
    }
  }

  lemma HorseIsSafe(s: State, id: string, feature: Feature, on: bool, net: Net)
    requires Safe(s)
    ensures Safe(Horse(s, id, feature, on, net))
  {
    var es := [Sent(Ssl, HorseCommand(feature, on), net.ssl)];
    if !(feature.Sterilizing? && on && Found(s, id).position !in {Absent, At(0)}) && net.sslClient {
      assert OneShotFallback(s.mode, Sends(es));
      RecordIsSafe(s, id, false, es, []);
    }
  }

  lemma CentredPositionIsSafe(s: State, id: string, position: int, net: Net, net2: Net)
    requires Safe(s) && Controllable(s, id, net) && s.devices[id].profile.Builtin? && s.devices[id].category.DreamCurtain?
    requires Found(s, id).angle != At(90) && Found(s, id).position == At(0)
    ensures Safe(SetPosition(s, id, position, net, net2))
  {
    var (scope, present) := Select(s.mode, s.devices[id].profile, net);
    if present {
      var centring := Centring(s.mode, scope, net);
      CentringIsSafe(s, id, net);
      if !CentredOverSsl(s.mode, scope, net) || !net2.sslClient {
        RecordIsSafe(s, id, true, centring, []);
      } else {
        SecondIsSafe(s, id, position, net, net2);
        RecordIsSafe(s, id, true, centring, Invoke(s.mode, Ssl, true, CurtainPosition(position), net2).events);
      }
    }
  }

  lemma CentringIsSafe(s: State, id: string, net: Net)
    requires id in s.devices && !s.devices[id].profile.RegistrationOnly() && Found(s, id).position == At(0)
    requires Select(s.mode, s.devices[id].profile, net).1
    ensures var centring := Centring(s.mode, Select(s.mode, s.devices[id].profile, net).0, net);
            SafeBlock(s, Block(id, Found(s, id), true, centring, []))
  {
    var (scope, present) := Select(s.mode, s.devices[id].profile, net);
    var centring := Centring(s.mode, scope, net);
    var b := Block(id, Found(s, id), true, centring, []);
    InvokeIsOnPolicy(s, id, CurtainAngle(90), net, Found(s, id));
    assert centring + [] == centring;
    assert Sends(centring) == Invoke(s.mode, scope, true, CurtainAngle(90), net).events;
  }

  lemma SecondIsSafe(s: State, id: string, position: int, net: Net, net2: Net)
    requires id in s.devices && !s.devices[id].profile.RegistrationOnly() && Found(s, id).position == At(0)
    requires Select(s.mode, s.devices[id].profile, net).1
    requires CentredOverSsl(s.mode, Select(s.mode, s.devices[id].profile, net).0, net)
    ensures var centring := Centring(s.mode, Select(s.mode, s.devices[id].profile, net).0, net);
            SafeBlock(s, Block(id, Found(s, id), true, centring, [Sent(Ssl, CurtainPosition(position), net2.ssl)]))
  {
    var centring := Centring(s.mode, Select(s.mode, s.devices[id].profile, net).0, net);
    var last := Sent(Ssl, CurtainPosition(position), net2.ssl);
    var b := Block(id, Found(s, id), true, centring, [last]);
    var alone := Block(id, Found(s, id), true, centring, []);
    CentringIsSafe(s, id, net);
    var n := |centring|;
    assert centring[n - 2] == Sent(Ssl, CurtainAngle(90), Success) && centring[n - 1] == Answered(Some(90));
    assert b.Events()[n - 2] == centring[n - 2] && b.Events()[n - 1] == centring[n - 1] && b.Events()[n] == last;
    assert CentredBefore(b, n);
    assert alone.Events() == centring;
    forall i | 0 <= i < |b.Events()| ensures EventIsSafe(b, i) {
      if i < n {
        assert EventIsSafe(alone, i) && b.Events()[i] == alone.Events()[i];
      }
    }
    assert alone.Events()[n - 2] in alone.Events();
  }

  lemma DirectPositionIsSafe(s: State, id: string, position: int, command: Command, net: Net)
    requires Safe(s) && Controllable(s, id, net)
    requires command.CoverPosition? || (command.CurtainPosition? && Found(s, id).angle == At(90))
    ensures var (scope, present) := Select(s.mode, s.devices[id].profile, net);
            present ==> Safe(Positioned(s, id, position, [], Invoke(s.mode, scope, true, command, net), net))
  {
    var (scope, present) := Select(s.mode, s.devices[id].profile, net);
    InvokeIsOnPolicy(s, id, command, net, Found(s, id));
    if present {
      RecordIsSafe(s, id, true, Invoke(s.mode, scope, true, command, net).events, []);
    }
  }

  lemma SetPositionIsSafe(s: State, id: string, position: int, net: Net, net2: Net)
    requires Safe(s)
    ensures Safe(SetPosition(s, id, position, net, net2))
  {
    if Controllable(s, id, net) {
      if s.devices[id].profile.Custom? {
        RouteIsSafe(s, id, net);
      } else if !s.devices[id].category.DreamCurtain? {
        DirectPositionIsSafe(s, id, position, CoverPosition(position), net);
      } else if Found(s, id).angle == At(90) {
        DirectPositionIsSafe(s, id, position, CurtainPosition(position), net);
      } else if Found(s, id).position == At(0) {
        CentredPositionIsSafe(s, id, position, net, net2);
      }
    }
  }

  /**
   Interlocks, the one-shot fallback of every invocation, transport policy and the transport record
   hold after every sequence of calls.
   */
  lemma {:induction false} EveryRunIsSafe(s: State, calls: seq<Call>)
    requires Safe(s)
    ensures Safe(Run(s, calls))
    decreases |calls|
  {
    if calls != [] {
      match calls[0] {
        case SetCoverPosition(id, position, net, net2) => SetPositionIsSafe(s, id, position, net, net2);
        case SetCurtainAngle(id, angle, net) => SetAngleIsSafe(s, id, angle, net);
        case SendRouted(id, net) => RouteIsSafe(s, id, net);
        case HorseControl(id, feature, on, net) => HorseIsSafe(s, id, feature, on, net);
        case StatePushed(id, stored) =>
      }
      EveryRunIsSafe(Step(s, calls[0]), calls[1..]);
    }
  }

  // ---- What the caller is told ----

  /** What a step added to the trace. */
  function NewEvents(s: State, t: State): seq<Event> {
    if |s.trace| < |t.trace| then t.trace[|s.trace|].Events() else []
  }

  /** The last send of a call succeeded. */
  predicate EndsInSuccess(es: seq<Event>) {
    es != [] && es[|es| - 1].Sent? && es[|es| - 1].outcome.Success?
  }

  lemma InvokeAnswers(mode: TransportMode, scope: Channel, present: bool, command: Command, net: Net)
    ensures var r := Invoke(mode, scope, present, command, net);
            && (r.ok <==> EndsInSuccess(r.events)) && (forall e | e in r.events :: e.Sent? && e.command == command)
            && r.events + [] == r.events
  {
  }

  lemma CentringAnswers(mode: TransportMode, scope: Channel, net: Net)
    ensures var es := Centring(mode, scope, net);
            && es != [] && es + [] == es && !(EndsInSuccess(es) && !es[|es| - 1].command.CurtainAngle?)
  {
  }

  /** The answer fits the events: true exactly when the last send, and that no centring, succeeded. */
  predicate Fits(answer: bool, es: seq<Event>) {
    answer <==> EndsInSuccess(es) && !es[|es| - 1].command.CurtainAngle?
  }

  lemma OneInvocationAnswers(s: State, id: string, position: int, present: bool, scope: Channel, command: Command, net: Net)
    requires !command.CurtainAngle?
    ensures var r := Invoke(s.mode, scope, present, command, net);
            && Fits(r.ok, NewEvents(s, Positioned(s, id, position, [], r, net)))
            && Fits(r.ok, NewEvents(s, Record(s, id, true, r.events, [])))
  {
    InvokeAnswers(s.mode, scope, present, command, net);
  }

  lemma CentredAnswers(s: State, id: string, position: int, net: Net, net2: Net)
    requires Controllable(s, id, net) && s.devices[id].profile.Builtin? && s.devices[id].category.DreamCurtain?
    requires Select(s.mode, s.devices[id].profile, net).1
    requires Found(s, id).angle != At(90) && Found(s, id).position == At(0)
    ensures Fits(PositionSucceeds(s, id, position, net, net2), NewEvents(s, SetPosition(s, id, position, net, net2)))
  {
    CentringAnswers(s.mode, Select(s.mode, s.devices[id].profile, net).0, net);
    CentredAttempt(s, id, position, net, net2);
  }

  /** `set_cover_position` answers true exactly when its last send, and that was no centring, succeeded. */
  lemma PositionAnswers(s: State, id: string, position: int, net: Net, net2: Net)
    ensures Fits(PositionSucceeds(s, id, position, net, net2), NewEvents(s, SetPosition(s, id, position, net, net2)))
  {
    if Controllable(s, id, net) {
      var device := s.devices[id];
      var (scope, present) := Select(s.mode, device.profile, net);
      if device.profile.Custom? {
        OneInvocationAnswers(s, id, position, present, scope, Routed, net);
      } else if present && !device.category.DreamCurtain? {
        OneInvocationAnswers(s, id, position, true, scope, CoverPosition(position), net);
      } else if present && Found(s, id).angle == At(90) {
        OneInvocationAnswers(s, id, position, true, scope, CurtainPosition(position), net);
      } else if present && Found(s, id).position == At(0) {
        CentredAnswers(s, id, position, net, net2);
      }
    }
  }

  // ---- When a dream curtain is opened ----

  /** A position command is among the events. */
  predicate Orders(es: seq<Event>, position: int) {
    exists e :: e in es && e.Sent? && e.command == CurtainPosition(position)
  }

  predicate SendsPosition(s: State, t: State, position: int) {
    Orders(NewEvents(s, t), position)
  }

  lemma NoAttempt(s: State, id: string, position: int, net: Net, net2: Net)
    requires id in s.devices && s.devices[id].profile.Builtin? && s.devices[id].category.DreamCurtain?
    requires !(Controllable(s, id, net) && Select(s.mode, s.devices[id].profile, net).1)
             || (Found(s, id).angle != At(90) && Found(s, id).position != At(0))
    ensures NewEvents(s, SetPosition(s, id, position, net, net2)) == []
  {
  }

  lemma DirectAttempt(s: State, id: string, position: int, net: Net, net2: Net)
    requires Controllable(s, id, net) && s.devices[id].profile.Builtin? && s.devices[id].category.DreamCurtain?
    requires Select(s.mode, s.devices[id].profile, net).1 && Found(s, id).angle == At(90)
    ensures Orders(NewEvents(s, SetPosition(s, id, position, net, net2)), position)
  {
    var events := NewEvents(s, SetPosition(s, id, position, net, net2));
    assert events[0] in events && events[0].command == CurtainPosition(position);
  }

  lemma CentredAttempt(s: State, id: string, position: int, net: Net, net2: Net)
    requires Controllable(s, id, net) && s.devices[id].profile.Builtin? && s.devices[id].category.DreamCurtain?
    requires Select(s.mode, s.devices[id].profile, net).1
    requires Found(s, id).angle != At(90) && Found(s, id).position == At(0)
    ensures var scope := Select(s.mode, s.devices[id].profile, net).0;
            NewEvents(s, SetPosition(s, id, position, net, net2))
              == Centring(s.mode, scope, net)
                 + if CentredOverSsl(s.mode, scope, net) && net2.sslClient
                   then [Sent(Ssl, CurtainPosition(position), net2.ssl)] else []
  {
  }

  lemma OrdersAfterCentring(mode: TransportMode, scope: Channel, net: Net, net2: Net, position: int)
    ensures !Orders(Centring(mode, scope, net) + [], position)
    ensures Orders(Centring(mode, scope, net) + [Sent(Ssl, CurtainPosition(position), net2.ssl)], position)
  {
    var last := Sent(Ssl, CurtainPosition(position), net2.ssl);
    assert last in Centring(mode, scope, net) + [last];
  }

  /**
   A built-in dream curtain gets a position command exactly when it may be controlled, a channel is
   there, and it is centred or else closed, centred over SSL, and SSL is still there.
   */
  lemma PositionIsSentIff(s: State, id: string, position: int, net: Net, net2: Net)
    requires id in s.devices && s.devices[id].profile.Builtin? && s.devices[id].category.DreamCurtain?
    ensures SendsPosition(s, SetPosition(s, id, position, net, net2), position)
       <==> && Controllable(s, id, net) && Select(s.mode, s.devices[id].profile, net).1
            && (Found(s, id).angle == At(90)
                || (&& Found(s, id).position == At(0) && net2.sslClient
                    && CentredOverSsl(s.mode, Select(s.mode, s.devices[id].profile, net).0, net)))
  {
    if !(Controllable(s, id, net) && Select(s.mode, s.devices[id].profile, net).1)
       || (Found(s, id).angle != At(90) && Found(s, id).position != At(0)) {
      NoAttempt(s, id, position, net, net2);
    } else if Found(s, id).angle == At(90) {
      DirectAttempt(s, id, position, net, net2);
    } else {
      var scope := Select(s.mode, s.devices[id].profile, net).0;
      CentredAttempt(s, id, position, net, net2);
      OrdersAfterCentring(s.mode, scope, net, net2, position);
    }
  }

  /** Under LAN_ONLY, where no answer is awaited, the stored angle alone decides. */
  lemma LanOnlyPositionIsSentIff(s: State, id: string, position: int, net: Net, net2: Net)
    requires id in s.devices && s.devices[id].profile.Builtin? && s.devices[id].category.DreamCurtain?
    requires s.mode.LanOnly? && Controllable(s, id, net) && Select(s.mode, s.devices[id].profile, net).1
    ensures SendsPosition(s, SetPosition(s, id, position, net, net2), position) <==> Found(s, id).angle == At(90)
  {
    PositionIsSentIff(s, id, position, net, net2);
  }

  /** Under AUTO too, centring over LAN sends the centring command and then gives up. */
  lemma AutoOverLanOnlyCentres(position: int)
    ensures var curtain := Device(Builtin(false, false, false, true), DreamCurtain);
            var s := State(Auto, map["c" := curtain], map["c" := Stored(At(0), At(45))], map[], []);
            var net := Net(true, true, true, true, Success, Success, Some(Reply(Some(90), None, false)));
            var t := SetPosition(s, "c", position, net, net);
            NewEvents(s, t) == [Sent(Lan, CurtainAngle(90), Success)] && !SendsPosition(s, t, position)
  {
    var curtain := Device(Builtin(false, false, false, true), DreamCurtain);
    var s := State(Auto, map["c" := curtain], map["c" := Stored(At(0), At(45))], map[], []);
    var net := Net(true, true, true, true, Success, Success, Some(Reply(Some(90), None, false)));
    var t := SetPosition(s, "c", position, net, net);
    assert CapabilityFor(curtain.profile).channels == {Lan, Ssl};
    assert Select(Auto, curtain.profile, net) == (Lan, true);
    CentredAttempt(s, "c", position, net, net);
  }

  /** Two calls open a closed curtain over LAN alone: centring it as an angle call stores the angle. */
  lemma TwoCallsOpenOverLan(s: State, id: string, position: int, net: Net, net2: Net)
    requires id in s.devices && s.devices[id].profile.Builtin? && s.devices[id].category.DreamCurtain?
    requires s.mode.LanOnly? && Controllable(s, id, net) && Select(s.mode, s.devices[id].profile, net).1
    requires net.lan.Success? && Found(s, id).position == At(0)
    ensures var centred := Step(s, SetCurtainAngle(id, 90, net));
            && Run(s, [SetCurtainAngle(id, 90, net), SetCoverPosition(id, position, net, net2)])
               == Step(centred, SetCoverPosition(id, position, net, net2))
            && SendsPosition(centred, Step(centred, SetCoverPosition(id, position, net, net2)), position)
  {
    var a, b := SetCurtainAngle(id, 90, net), SetCoverPosition(id, position, net, net2);
    var centred := Step(s, a);
    assert [a, b][1..] == [b] && [b][1..] == [];
    assert Run(Step(centred, b), []) == Step(centred, b) && Run(centred, [b]) == Step(centred, b);
    assert Found(centred, id).angle == At(90);
    PositionIsSentIff(centred, id, position, net, net2);
  }
}
