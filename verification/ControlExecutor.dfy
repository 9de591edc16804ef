/** The executor object: its methods send, wait and update in place, and compute the steps of ControlCalls. */
module ControlExecutor {
  import opened Wrappers
  import opened ControlPolicy
  import opened C = ControlCalls

  lemma {:induction false} TrackConcat(last: map<string, Channel>, id: string, es: seq<Event>, more: seq<Event>)
    ensures Track(last, id, es + more) == Track(Track(last, id, es), id, more)
    decreases |more|
  {
    if more == [] {
      assert es + more == es;
    } else {
      assert (es + more)[..|es + more| - 1] == es + more[..|more| - 1];
      TrackConcat(last, id, es, more[..|more| - 1]);
    }
  }

  lemma TrackOne(last: map<string, Channel>, id: string, e: Event)
    ensures Track(last, id, [e]) == if e.Sent? && e.outcome.Success? then last[id := e.channel] else last
  {
    assert [e][..0] == [];
  }

  class ControlExecutor {
    const mode: TransportMode
    const devices: map<string, Device>
    var states: map<string, Stored>
    var lastTransport: map<string, Channel>
    ghost var trace: seq<Block>

    ghost function Now(): State
      reads this
    {
      State(mode, devices, states, lastTransport, trace)
    }

    constructor (mode: TransportMode, devices: map<string, Device>, states: map<string, Stored>)
      ensures Now() == State(mode, devices, states, map[], []) && Safe(Now())
    {
      this.mode, this.devices, this.states, lastTransport, trace := mode, devices, states, map[], [];
    }

    /** `_invoke_with_fallback`: retries once on SSL after a LAN failure and notes the channel of a success. */
    method InvokeWithFallback(id: string, present: bool, scope: Channel, command: Command, net: Net)
      returns (r: Invocation)
      modifies this`lastTransport
      ensures r == Invoke(mode, scope, present, command, net)
      ensures lastTransport == Track(old(lastTransport), id, r.events)
    {
      if !present {
        return Invocation([], false, scope, false);
      }
      var first := if scope.Lan? then net.lan else net.ssl;
      var events := [Sent(scope, command, first)];
      TrackOne(lastTransport, id, events[0]);
      if first.Raised? && scope.Ssl? {
        return Invocation(events, false, scope, true);
      }
      if first.Success? || scope.Ssl? || mode.LanOnly? {
        if first.Success? {
          lastTransport := lastTransport[id := scope];
        }
        return Invocation(events, first.Success?, scope, false);
      }
      if !net.sslAtRetry {
        return Invocation(events, false, scope, false);
      }
      TrackConcat(lastTransport, id, events, [Sent(Ssl, command, net.ssl)]);
      TrackOne(lastTransport, id, Sent(Ssl, command, net.ssl));
      events := events + [Sent(Ssl, command, net.ssl)];
      if net.ssl.Success? {
        lastTransport := lastTransport[id := Ssl];
      }
      r := Invocation(events, net.ssl.Success?, Ssl, net.ssl.Raised?);
    }

    ghost method Log(id: string, found: Stored, routed: bool, first: seq<Event>, second: seq<Event>)
      modifies this`trace
      ensures trace == if first + second == [] then old(trace) else old(trace) + [Block(id, found, routed, first, second)]
    {
      if first + second != [] {
        trace := trace + [Block(id, found, routed, first, second)];
      }
    }

    method SendSelected(id: string, command: Command, net: Net) returns (r: Invocation)
      requires id in devices
      modifies this`lastTransport, this`trace
      ensures var (scope, present) := Select(mode, devices[id].profile, net);
              r == Invoke(mode, scope, present, command, net)
      ensures Now() == Record(old(Now()), id, true, r.events, [])
    {
      var (scope, present) := Select(mode, devices[id].profile, net);
      r := InvokeWithFallback(id, present, scope, command, net);
      assert r.events + [] == r.events;
      Log(id, Found(Now(), id), true, r.events, []);
    }

    method FinishPosition(id: string, position: int, r: Invocation, net: Net)
      modifies this`states
      ensures Now() == if r.ok then StorePosition(old(Now()), id, position, Answer(r, net)) else old(Now())
    {
      if r.ok {
        var stored := if id in states then states[id] else Stored(Absent, Absent);
        var reply := Answer(r, net);
        var actual := if reply.Some? then reply.value.value1 else None;
        if actual.Some? && 0 <= actual.value <= 100 {
          states := states[id := stored.(position := At(actual.value))];
        } else if reply.None? || !reply.value.HasState() {
          states := states[id := stored.(position := At(position))];
        }
      }
    }

    /** `set_cover_position`. */
    method SetCoverPosition(id: string, position: int, net: Net, net2: Net) returns (result: bool)
      modifies this
      ensures Now() == Step(old(Now()), C.SetCoverPosition(id, position, net, net2))
      ensures result <==> PositionSucceeds(old(Now()), id, position, net, net2)
    {
      if !((net.sslClient || net.adapter) && id in devices) || devices[id].profile.RegistrationOnly() {
        return false;
      }
      if devices[id].profile.Custom? {
        var routed := SendSelected(id, Routed, net);
        return routed.ok;
      }
      var (scope, present) := Select(mode, devices[id].profile, net);
      if !present {
        return false;
      }
      var found := if id in states then states[id] else Stored(Absent, Absent);
      if !devices[id].category.DreamCurtain? {
        result := PositionDirectly(id, position, CoverPosition(position), scope, net);
      } else if found.angle == At(90) {
        result := PositionDirectly(id, position, CurtainPosition(position), scope, net);
      } else if found.position == At(0) {
        result := CentreThenPosition(id, position, scope, net, net2);
      } else {
        result := false;
      }
    }

    method PositionDirectly(id: string, position: int, command: Command, scope: Channel, net: Net) returns (result: bool)
      modifies this
      ensures Now() == Positioned(old(Now()), id, position, [], Invoke(mode, scope, true, command, net), net)
      ensures result == Invoke(mode, scope, true, command, net).ok
    {
      ghost var found := Found(Now(), id);
      var r := InvokeWithFallback(id, true, scope, command, net);
      assert r.events + [] == r.events;
      Log(id, found, true, r.events, []);
      FinishPosition(id, position, r, net);
      result := r.ok;
    }

    method CentreThenPosition(id: string, position: int, scope: Channel, net: Net, net2: Net) returns (result: bool)
      modifies this
      ensures Now() == C.CentreThenPosition(old(Now()), id, position, scope, net, net2)
      ensures result <==> CentredOverSsl(mode, scope, net) && net2.sslClient && net2.ssl.Success?
    {
      ghost var found := Found(Now(), id);
      ghost var centring := Centring(mode, scope, net);
      var confirmed := Centre(id, scope, net);
      assert centring + [] == centring;
      if !confirmed || !net2.sslClient {
        Log(id, found, true, centring, []);
        return false;
      }
      var r := InvokeWithFallback(id, true, Ssl, CurtainPosition(position), net2);
      TrackConcat(old(lastTransport), id, centring, r.events);
      Log(id, found, true, centring, r.events);
      FinishPosition(id, position, r, net2);
      result := r.ok;
    }

    /** Sends the centring command and waits, on SSL, for the angle that the curtain answers. */
    method Centre(id: string, scope: Channel, net: Net) returns (confirmed: bool)
      modifies this`lastTransport
      ensures confirmed == CentredOverSsl(mode, scope, net)
      ensures lastTransport == Track(old(lastTransport), id, Centring(mode, scope, net))
    {
      var centred := InvokeWithFallback(id, true, scope, CurtainAngle(90), net);
      var reply := Answer(centred, net);
      var angle := if reply.Some? then reply.value.angle else None;
      TrackConcat(old(lastTransport), id, centred.events, [Answered(angle)]);
      TrackOne(lastTransport, id, Answered(angle));
      assert centred.events + [] == centred.events;
      confirmed := centred.ok && angle == Some(90);
    }

    /** `set_dream_curtain_angle`. */
    method SetDreamCurtainAngle(id: string, angle: int, net: Net) returns (result: bool)
      modifies this
      ensures Now() == Step(old(Now()), SetCurtainAngle(id, angle, net))
      ensures result <==> EndsInSuccess(NewEvents(old(Now()), Now()))
    {
      if !((net.sslClient || net.adapter) && id in devices) || devices[id].profile.RegistrationOnly()
         || devices[id].profile.Custom? || !devices[id].category.DreamCurtain? {
        return false;
      }
      var stored := if id in states then states[id] else Stored(Absent, Absent);
      if stored.position != At(0) {
        return false;
      }
      var r := SendSelected(id, CurtainAngle(angle), net);
      if r.ok {
        states := states[id := stored.(angle := At(Clamp(angle)))];
      }
      result := r.ok;
    }

    /** `clothes_horse_control`, which always uses the SSL client directly. */
    method ClothesHorseControl(id: string, feature: Feature, on: bool, net: Net) returns (result: bool)
      modifies this
      ensures Now() == Step(old(Now()), HorseControl(id, feature, on, net))
      ensures result <==> EndsInSuccess(NewEvents(old(Now()), Now()))
    {
      if !((net.sslClient || net.adapter) && id in devices) {
        return false;
      }
      if feature.UnknownFeature? {
        return false;
      }
      var position := if id in states then states[id].position else Absent;
      if feature.Sterilizing? && on && position != Absent && position != At(0) {
        return false;
      }
      if !net.sslClient {
        return false;
      }
      var event := Sent(Ssl, HorseCommand(feature, on), net.ssl);
      TrackOne(lastTransport, id, event);
      assert [event] + [] == [event];
      Log(id, Found(Now(), id), false, [event], []);
      if net.ssl.Success? {
        lastTransport := lastTransport[id := Ssl];
      }
      result := net.ssl.Success?;
    }
  }
}
