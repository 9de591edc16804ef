/**
 Door-lock events: no-op packets and adjacent duplicates are dropped, and an opening of the door is
 attributed to the last published unlock. The five lock properties and the event of a packet are
 taken after `normalize_door_lock_properties` and `normalize_lock_event`; the clock is an input.
 */
module LockEvents {
  import opened Wrappers

  datatype Lock = Lock(locked: Option<bool>, doorOpen: Option<bool>, insideLocked: Option<bool>,
                       childLocked: Option<bool>, leaveHomeArmed: Option<bool>)

  datatype Kind = Unlock | ErrorUnlock | DoorUnclose | Picklock | LeaveHome | Ring | Answered | Bye

  /** `V` is a JSON value; an absent field reads as null. */
  datatype LockEvent<V> = LockEvent(kind: Kind, unlockType: Option<V>, user: Option<V>, time: Option<V>)

  datatype Packet<V> = Packet(device: string, lock: Lock, event: Option<LockEvent<V>>, now: real)

  datatype Signature<V> = OfEvent(event: LockEvent<V>) | OfState(lock: Lock)

  datatype LastUnlock<V> = LastUnlock(user: Option<V>, unlockType: Option<V>, at: real)

  datatype Opener<V> = Opener(user: V, unlockType: Option<V>, name: Option<string>)

  datatype Published<V> = Published(packet: Packet<V>, unlockName: Option<string>, opener: Option<Opener<V>>)

  /** The user-name resolver, Python's `str` and the attribution window. */
  datatype Config<!V> = Config(nameOf: (string, Option<V>) -> Option<string>, str: V -> V, window: real)

  datatype State<V> = State(signatures: map<string, Signature<V>>, unlocks: map<string, LastUnlock<V>>)

  datatype Input<V> = Status(packet: Packet<V>) | Removed(device: string)

  const BLANK := Lock(None, None, None, None, None)

  predicate IsNoOp<V>(p: Packet<V>) {
    p.event.None? && p.lock == BLANK
  }

  function SignatureOf<V>(p: Packet<V>): Signature<V> {
    if p.event.Some? then OfEvent(p.event.value) else OfState(p.lock)
  }

  predicate IsUnlock<V>(p: Packet<V>) {
    p.event.Some? && p.event.value.kind.Unlock?
  }

  function UnlockOf<V>(p: Packet<V>): LastUnlock<V>
    requires IsUnlock(p)
  {
    LastUnlock(p.event.value.user, p.event.value.unlockType, p.now)
  }

  function NonEmpty(name: Option<string>): Option<string> {
    if name == Some("") then None else name
  }

  /** `resolve_opened_by`, with the opener's name. */
  function OpenerOf<V>(c: Config<V>, device: string, last: Option<LastUnlock<V>>, now: real): Option<Opener<V>> {
    if last.None? then None
    else
      var elapsed := now - last.value.at;
      if elapsed < 0.0 || elapsed > c.window || last.value.user.None? then None
      else
        var user := c.str(last.value.user.value);
        Some(Opener(user, last.value.unlockType, NonEmpty(c.nameOf(device, Some(user)))))
  }

  function Lookup<T>(m: map<string, T>, key: string): Option<T> {
    if key in m then Some(m[key]) else None
  }

  // ---- One call ----

  predicate IsPublished<V(==)>(s: State<V>, p: Packet<V>) {
    !IsNoOp(p) && Lookup(s.signatures, p.device) != Some(SignatureOf(p))
  }

  function Step<V(==)>(s: State<V>, i: Input<V>): State<V> {
    match i
    case Removed(d) => State(s.signatures - {d}, s.unlocks - {d})
    case Status(p) =>
      if !IsPublished(s, p) then s
      else
        State(s.signatures[p.device := SignatureOf(p)],
              if IsUnlock(p) then s.unlocks[p.device := UnlockOf(p)] else s.unlocks)
  }

  /** The public event of a packet, given the last unlock known once the packet is taken in. */
  function Render<V>(c: Config<V>, p: Packet<V>, last: Option<LastUnlock<V>>): Published<V> {
    Published(p,
              if IsUnlock(p) then NonEmpty(c.nameOf(p.device, p.event.value.user)) else None,
              if p.lock.doorOpen == Some(true) then OpenerOf(c, p.device, last, p.now) else None)
  }

  function Emit<V(==)>(c: Config<V>, s: State<V>, i: Input<V>): seq<Published<V>> {
    if i.Status? && IsPublished(s, i.packet)
    then [Render(c, i.packet, Lookup(Step(s, i).unlocks, i.packet.device))]
    else []
  }

  // ---- Runs ----

  function After<V(==)>(inputs: seq<Input<V>>): State<V> {
    if inputs == [] then State(map[], map[]) else Step(After(inputs[..|inputs| - 1]), inputs[|inputs| - 1])
  }

  /** The events published for a device. */
  function Outputs<V(==)>(c: Config<V>, d: string, inputs: seq<Input<V>>): seq<Published<V>> {
    if inputs == [] then []
    else
      var before, last := inputs[..|inputs| - 1], inputs[|inputs| - 1];
      Outputs(c, d, before) + if About(last) == d then Emit(c, After(before), last) else []
  }

  function About<V>(i: Input<V>): string {
    if i.Status? then i.packet.device else i.device
  }

  // ---- The stream it should be ----

  /** The device's packets since its last removal, without no-ops. */
  function Stream<V>(d: string, inputs: seq<Input<V>>): (r: seq<Packet<V>>)
    ensures forall p | p in r :: p.device == d && !IsNoOp(p)
  {
    if inputs == [] then [] else Grown(d, Stream(d, inputs[..|inputs| - 1]), inputs[|inputs| - 1])
  }

  function Grown<V>(d: string, ps: seq<Packet<V>>, i: Input<V>): seq<Packet<V>> {
    match i
    case Removed(e) => if e == d then [] else ps
    case Status(p) => if p.device == d && !IsNoOp(p) then ps + [p] else ps
  }

  /** Drops each packet whose signature is that of the packet just before it. */
  function Collapse<V(==)>(ps: seq<Packet<V>>): (r: seq<Packet<V>>)
    ensures forall p | p in r :: p in ps
  {
    if |ps| <= 1 then ps
    else
      var n := |ps| - 1;
      Collapse(ps[..n]) + if SignatureOf(ps[n - 1]) == SignatureOf(ps[n]) then [] else [ps[n]]
  }

  /** The last unlock of a stream of published packets. */
  function Latest<V>(ps: seq<Packet<V>>): Option<LastUnlock<V>> {
    if ps == [] then None
    else if IsUnlock(ps[|ps| - 1]) then Some(UnlockOf(ps[|ps| - 1]))
    else Latest(ps[..|ps| - 1])
  }

  function RenderAll<V>(c: Config<V>, ps: seq<Packet<V>>): (r: seq<Published<V>>)
    ensures |r| == |ps|
  {
    if ps == [] then [] else RenderAll(c, ps[..|ps| - 1]) + [Render(c, ps[|ps| - 1], Latest(ps))]
  }

  /** What the device's streams before its last removal gave. */
  function Past<V(==)>(c: Config<V>, d: string, inputs: seq<Input<V>>): seq<Published<V>>
    decreases |inputs|, 0
  {
    if inputs == [] then []
    else
      var before, last := inputs[..|inputs| - 1], inputs[|inputs| - 1];
      if last == Removed(d) then Expected(c, d, before) else Past(c, d, before)
  }

  function Expected<V(==)>(c: Config<V>, d: string, inputs: seq<Input<V>>): seq<Published<V>>
    decreases |inputs|, 1
  {
    Past(c, d, inputs) + RenderAll(c, Collapse(Stream(d, inputs)))
  }

  // ---- It is that stream ----

  function LastSignature<V>(ps: seq<Packet<V>>): Option<Signature<V>> {
    if ps == [] then None else Some(SignatureOf(ps[|ps| - 1]))
  }

  lemma CollapseSnoc<V>(ps: seq<Packet<V>>, p: Packet<V>)
    ensures Collapse(ps + [p])
         == Collapse(ps) + if LastSignature(ps) == Some(SignatureOf(p)) then [] else [p]
  {
    assert (ps + [p])[..|ps|] == ps;
  }

  lemma RenderSnoc<V>(c: Config<V>, ps: seq<Packet<V>>, p: Packet<V>)
    ensures RenderAll(c, ps + [p]) == RenderAll(c, ps) + [Render(c, p, Latest(ps + [p]))]
  {
    assert (ps + [p])[..|ps|] == ps;
  }

  lemma LatestSnoc<V>(ps: seq<Packet<V>>, p: Packet<V>)
    ensures Latest(ps + [p]) == if IsUnlock(p) then Some(UnlockOf(p)) else Latest(ps)
  {
    assert (ps + [p])[..|ps|] == ps;
  }

  /** The two tables hold, for a device, the last signature of its stream and its last published unlock. */
  predicate Matches<V(==)>(s: State<V>, d: string, ps: seq<Packet<V>>) {
    && Lookup(s.signatures, d) == LastSignature(ps)
    && Lookup(s.unlocks, d) == Latest(Collapse(ps))
  }

  lemma StepKeepsMatch<V>(s: State<V>, d: string, ps: seq<Packet<V>>, i: Input<V>)
    requires Matches(s, d, ps)
    ensures Matches(Step(s, i), d, Grown(d, ps, i))
  {
    if About(i) == d && i.Status? && !IsNoOp(i.packet) {
      PacketKeepsMatch(s, d, ps, i.packet);
    }
  }

  lemma PacketKeepsMatch<V>(s: State<V>, d: string, ps: seq<Packet<V>>, p: Packet<V>)
    requires Matches(s, d, ps) && p.device == d && !IsNoOp(p)
    ensures Matches(Step(s, Status(p)), d, ps + [p])
  {
    CollapseSnoc(ps, p);
    if IsPublished(s, p) {
      assert Collapse(ps + [p]) == Collapse(ps) + [p];
      LatestSnoc(Collapse(ps), p);
    } else {
      assert Collapse(ps + [p]) == Collapse(ps);
    }
  }

  lemma EmitsNext<V>(c: Config<V>, s: State<V>, d: string, ps: seq<Packet<V>>, p: Packet<V>)
    requires Matches(s, d, ps) && p.device == d && !IsNoOp(p)
    ensures RenderAll(c, Collapse(ps + [p])) == RenderAll(c, Collapse(ps)) + Emit(c, s, Status(p))
  {
    CollapseSnoc(ps, p);
    PacketKeepsMatch(s, d, ps, p);
    if IsPublished(s, p) {
      assert Collapse(ps + [p]) == Collapse(ps) + [p];
      RenderSnoc(c, Collapse(ps), p);
    } else {
      assert Collapse(ps + [p]) == Collapse(ps);
    }
  }

  lemma {:induction false} TablesFollowStreams<V>(d: string, inputs: seq<Input<V>>)
    ensures Matches(After(inputs), d, Stream(d, inputs))
  {
    if inputs != [] {
      var before := inputs[..|inputs| - 1];
      TablesFollowStreams(d, before);
      StepKeepsMatch(After(before), d, Stream(d, before), inputs[|inputs| - 1]);
    }
  }

  lemma EmitsGrown<V>(c: Config<V>, s: State<V>, d: string, ps: seq<Packet<V>>, i: Input<V>)
    requires Matches(s, d, ps) && i.Status? && i.packet.device == d
    ensures RenderAll(c, Collapse(Grown(d, ps, i))) == RenderAll(c, Collapse(ps)) + Emit(c, s, i)
  {
    if IsNoOp(i.packet) {
      assert Emit(c, s, i) == [];
    } else {
      EmitsNext(c, s, d, ps, i.packet);
    }
  }

  lemma Regroup<T>(a: seq<T>, b: seq<T>, c: seq<T>)
    ensures a + b + c == a + (b + c)
  {
  }

  /**
   Between removals the published events of a device are its stream with adjacent equal signatures
   collapsed, each opening attributed within that stream; a removal starts a new stream.
   */
  lemma {:induction false} PublishesTheCollapsedStream<V>(c: Config<V>, d: string, inputs: seq<Input<V>>)
    ensures Outputs(c, d, inputs) == Expected(c, d, inputs)
  {
    if inputs != [] {
      var before, last := inputs[..|inputs| - 1], inputs[|inputs| - 1];
      PublishesTheCollapsedStream(c, d, before);
      TablesFollowStreams(d, before);
      if About(last) != d {
        assert Stream(d, inputs) == Stream(d, before);
      } else if last.Status? {
        var emitted := Emit(c, After(before), last);
        EmitsGrown(c, After(before), d, Stream(d, before), last);
        Regroup(Past(c, d, before), RenderAll(c, Collapse(Stream(d, before))), emitted);
      }
    }
  }

  /** Other devices have no effect on what is published for a device. */
  lemma {:induction false} OtherDevicesHaveNoEffect<V>(c: Config<V>, d: string, inputs: seq<Input<V>>)
    ensures Outputs(c, d, inputs) == Outputs(c, d, Only(d, inputs))
  {
    PublishesTheCollapsedStream(c, d, inputs);
    PublishesTheCollapsedStream(c, d, Only(d, inputs));
    OnlyIsEnough(c, d, inputs);
  }

  function Only<V>(d: string, inputs: seq<Input<V>>): seq<Input<V>> {
    if inputs == [] then []
    else
      var last := inputs[|inputs| - 1];
      Only(d, inputs[..|inputs| - 1]) + if About(last) == d then [last] else []
  }

  lemma HistorySnoc<V>(c: Config<V>, d: string, inputs: seq<Input<V>>, i: Input<V>)
    ensures Stream(d, inputs + [i]) == Grown(d, Stream(d, inputs), i)
    ensures Past(c, d, inputs + [i]) == if i == Removed(d) then Expected(c, d, inputs) else Past(c, d, inputs)
  {
    assert (inputs + [i])[..|inputs|] == inputs;
  }

  lemma {:induction false} OnlyIsEnough<V>(c: Config<V>, d: string, inputs: seq<Input<V>>)
    ensures Stream(d, Only(d, inputs)) == Stream(d, inputs) && Past(c, d, Only(d, inputs)) == Past(c, d, inputs)
  {
    if inputs != [] {
      var last := inputs[|inputs| - 1];
      OnlyIsEnough(c, d, inputs[..|inputs| - 1]);
      if About(last) == d {
        HistorySnoc(c, d, Only(d, inputs[..|inputs| - 1]), last);
        assert Only(d, inputs) == Only(d, inputs[..|inputs| - 1]) + [last];
      } else {
        assert Only(d, inputs) == Only(d, inputs[..|inputs| - 1]);
      }
    }
  }

  // ---- Attribution ----

  /** The unlock at `u` is the most recent one at or before `j`. */
  predicate IsLatestUnlock<V>(ps: seq<Packet<V>>, u: nat, j: nat)
    requires j < |ps|
  {
    u <= j && IsUnlock(ps[u]) && forall k | u < k <= j :: !IsUnlock(ps[k])
  }

  lemma {:induction false} LatestIsMostRecent<V>(ps: seq<Packet<V>>, j: nat, u: nat)
    requires j < |ps|
    ensures IsLatestUnlock(ps, u, j) ==> Latest(ps[..j + 1]) == Some(UnlockOf(ps[u]))
    ensures Latest(ps[..j + 1]).Some? ==> exists v: nat :: IsLatestUnlock(ps, v, j)
    decreases j
  {
    var front := ps[..j + 1];
    assert front[..j] == ps[..j] && front[j] == ps[j];
    if IsUnlock(ps[j]) {
      assert IsLatestUnlock(ps, j, j);
    } else if j == 0 {
      assert Latest(front[..0]).None?;
    } else {
      LatestIsMostRecent(ps, j - 1, u);
      if Latest(front).Some? {
        var v: nat :| IsLatestUnlock(ps, v, j - 1);
        assert IsLatestUnlock(ps, v, j);
      }
    }
  }

  lemma {:induction false} RenderAt<V>(c: Config<V>, ps: seq<Packet<V>>, j: nat)
    requires j < |ps|
    ensures RenderAll(c, ps)[j] == Render(c, ps[j], Latest(ps[..j + 1]))
  {
    if j < |ps| - 1 {
      RenderAt(c, ps[..|ps| - 1], j);
      assert ps[..|ps| - 1][..j + 1] == ps[..j + 1];
    } else {
      assert ps[..j + 1] == ps;
    }
  }

  /** The `j`-th event of a stream is published at `at`, and names `opener` exactly when an unlock explains it. */
  ghost predicate AttributedAt<V>(c: Config<V>, d: string, outputs: seq<Published<V>>, at: nat,
                                  kept: seq<Packet<V>>, j: nat, opener: Opener<V>)
    requires j < |kept|
  {
    && at < |outputs| && outputs[at].packet == kept[j]
    && (outputs[at].opener == Some(opener) <==>
          kept[j].lock.doorOpen == Some(true) && exists u: nat :: Explains(c, d, kept, u, j, opener))
  }

  lemma RenderedOpener<V>(c: Config<V>, d: string, past: seq<Published<V>>, kept: seq<Packet<V>>, j: nat, opener: Opener<V>)
    requires j < |kept| && kept[j].device == d
    ensures AttributedAt(c, d, past + RenderAll(c, kept), |past| + j, kept, j, opener)
  {
    RenderAt(c, kept, j);
    LatestIsMostRecent(kept, j, 0);
    if Latest(kept[..j + 1]).Some? {
      var v: nat :| IsLatestUnlock(kept, v, j);
      LatestIsMostRecent(kept, j, v);
      if RenderAll(c, kept)[j].opener == Some(opener) {
        assert Explains(c, d, kept, v, j, opener);
      }
    }
    if u: nat :| Explains(c, d, kept, u, j, opener) {
      LatestIsMostRecent(kept, j, u);
    }
  }

  /**
   A published opening names an opener exactly when the device's most recent published unlock carries
   a user and happened at most the window earlier; the opener is then that user.
   */
  lemma OpeningIsAttributedIff<V>(c: Config<V>, d: string, inputs: seq<Input<V>>, j: nat, opener: Opener<V>)
    requires j < |Collapse(Stream(d, inputs))|
    ensures AttributedAt(c, d, Outputs(c, d, inputs), |Past(c, d, inputs)| + j, Collapse(Stream(d, inputs)), j, opener)
  {
    PublishesTheCollapsedStream(c, d, inputs);
    var kept := Collapse(Stream(d, inputs));
    assert kept[j] in kept;
    RenderedOpener(c, d, Past(c, d, inputs), kept, j, opener);
  }

  predicate Explains<V(==)>(c: Config<V>, d: string, kept: seq<Packet<V>>, u: nat, j: nat, opener: Opener<V>)
    requires j < |kept|
  {
    && IsLatestUnlock(kept, u, j)
    && 0.0 <= kept[j].now - kept[u].now <= c.window
    && var e := kept[u].event.value;
       e.user.Some? && opener == Opener(c.str(e.user.value), e.unlockType,
                                        NonEmpty(c.nameOf(d, Some(c.str(e.user.value)))))
  }

  // ---- The manager ----

  class LockEventManager<V(==)> {
    const config: Config<V>
    var lastSignatures: map<string, Signature<V>>
    var lastUnlocks: map<string, LastUnlock<V>>
    ghost var inputs: seq<Input<V>>

    function Now(): State<V>
      reads this
    {
      State(lastSignatures, lastUnlocks)
    }

    /** The tables are what the packets and removals so far make of empty ones. */
    ghost predicate Valid()
      reads this
    {
      Now() == After(inputs)
    }

    constructor (config: Config<V>)
      ensures this.config == config && Valid() && inputs == []
    {
      this.config := config;
      inputs := [];
      lastSignatures, lastUnlocks := map[], map[];
    }

    /** The answers for a device are, call by call, what its collapsed stream gives; other devices see no change. */
    method BuildEvent(p: Packet<V>) returns (data: Option<Published<V>>)
      requires Valid()
      modifies this
      ensures Valid() && inputs == old(inputs) + [Status(p)]
      ensures Expected(config, p.device, inputs)
           == Expected(config, p.device, old(inputs)) + if data.Some? then [data.value] else []
      ensures forall d | d != p.device :: Expected(config, d, inputs) == Expected(config, d, old(inputs))
    {
      data := TakeIn(p);
      InputSnoc(config, inputs, Status(p));
      inputs := inputs + [Status(p)];
    }

    method TakeIn(p: Packet<V>) returns (data: Option<Published<V>>)
      modifies `lastSignatures, `lastUnlocks
      ensures Now() == Step(old(Now()), Status(p))
      ensures Emit(config, old(Now()), Status(p)) == if data.Some? then [data.value] else []
    {
      if IsNoOp(p) { return None; }
      var signature := SignatureOf(p);
      if p.device in lastSignatures && lastSignatures[p.device] == signature { return None; }
      lastSignatures := lastSignatures[p.device := signature];
      var unlockName, opener := None, None;
      if IsUnlock(p) {
        lastUnlocks := lastUnlocks[p.device := UnlockOf(p)];
        unlockName := NonEmpty(config.nameOf(p.device, p.event.value.user));
      }
      if p.lock.doorOpen == Some(true) && p.device in lastUnlocks {
        opener := OpenerOf(config, p.device, Some(lastUnlocks[p.device]), p.now);
      }
      data := Some(Published(p, unlockName, opener));
    }

    /** The device starts a new stream: neither a signature nor an unlock of the old one is remembered. */
    method Remove(device: string)
      requires Valid()
      modifies this
      ensures Valid() && inputs == old(inputs) + [Removed(device)]
      ensures Stream(device, inputs) == [] && Past(config, device, inputs) == Expected(config, device, old(inputs))
      ensures forall d :: Expected(config, d, inputs) == Expected(config, d, old(inputs))
    {
      lastSignatures := lastSignatures - {device};
      lastUnlocks := lastUnlocks - {device};
      HistorySnoc(config, device, inputs, Removed(device));
      InputSnoc(config, inputs, Removed(device));
      inputs := inputs + [Removed(device)];
    }
  }

  /** One more input: the state takes it, and what is expected for a device grows by what is emitted for it. */
  lemma InputSnoc<V>(c: Config<V>, inputs: seq<Input<V>>, i: Input<V>)
    ensures After(inputs + [i]) == Step(After(inputs), i)
    ensures forall d :: Expected(c, d, inputs + [i])
                     == Expected(c, d, inputs) + if About(i) == d then Emit(c, After(inputs), i) else []
  {
    assert (inputs + [i])[..|inputs|] == inputs;
    forall d ensures Expected(c, d, inputs + [i])
                  == Expected(c, d, inputs) + if About(i) == d then Emit(c, After(inputs), i) else []
    {
      PublishesTheCollapsedStream(c, d, inputs);
      PublishesTheCollapsedStream(c, d, inputs + [i]);
      OutputSnoc(c, d, inputs, i);
    }
  }

  lemma OutputSnoc<V>(c: Config<V>, d: string, inputs: seq<Input<V>>, i: Input<V>)
    ensures Outputs(c, d, inputs + [i]) == Outputs(c, d, inputs) + if About(i) == d then Emit(c, After(inputs), i) else []
  {
    assert (inputs + [i])[..|inputs|] == inputs;
  }
}
