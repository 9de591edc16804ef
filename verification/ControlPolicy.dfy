/** Which transport a device may use: capabilities, the user-facing path, and the choice per control. */
module ControlPolicy {
  datatype Channel = Lan | Ssl

  datatype TransportMode = Auto | LanOnly | CloudOnly

  datatype TransportPath = LanPath | CloudPath | LanCloudPath | Unavailable {
    predicate Permits(c: Channel) {
      match this
      case LanPath => c.Lan?
      case CloudPath => c.Ssl?
      case LanCloudPath => true
      case Unavailable => false
    }
  }

  datatype Capability = Capability(channels: set<Channel>, statusOnly: bool, cloudOnly: bool)

  /**
   A resolved device profile. For a built-in device only the outcomes of the type and category
   tables matter; a custom profile declares its channels itself.
   */
  datatype Profile =
    | Builtin(statusOnlyType: bool, cloudOnlyType: bool, unverified: bool, lanType: bool)
    | Custom(statusOnly: bool, hasControl: bool, hardwareVerified: bool, cloudOnly: bool, declared: set<Channel>)
  {
    predicate RegistrationOnly() {
      match this
      case Builtin(_, _, unverified, _) => unverified
      case Custom(statusOnly, _, hardwareVerified, _, _) => !hardwareVerified || statusOnly
    }
  }

  /** `capability_for` and `DeviceCapability.for_custom_profile`. */
  function CapabilityFor(p: Profile): Capability {
    match p
    case Builtin(statusOnly, cloudOnly, unverified, lanType) =>
      Capability(
        if cloudOnly then (if statusOnly then {} else {Ssl})
        else if statusOnly || unverified then {}
        else if lanType then {Lan, Ssl}
        else {Ssl},
        statusOnly, cloudOnly)
    case Custom(statusOnly, hasControl, hardwareVerified, cloudOnly, declared) =>
      var readOnly := statusOnly || !hasControl;
      Capability(
        if readOnly || !hardwareVerified then {} else if cloudOnly then {Ssl} else declared,
        readOnly, cloudOnly)
  }

  /** `transport_path_for`. */
  function PathFor(c: Capability, mode: TransportMode): TransportPath {
    match mode
    case CloudOnly => CloudPath
    case LanOnly =>
      if !c.cloudOnly && (c.statusOnly || Lan in c.channels) then LanPath else Unavailable
    case Auto =>
      if c.cloudOnly then CloudPath
      else if c.statusOnly || Lan in c.channels then LanCloudPath
      else if Ssl in c.channels then CloudPath
      else Unavailable
  }

  /** `_transport`: the channel and whether something is there to send on. */
  function Transport(mode: TransportMode, c: Capability, lanReady: bool, sslReady: bool): (r: (Channel, bool)) {
    if !mode.CloudOnly? && lanReady && Lan in c.channels then (Lan, true)
    else if mode.LanOnly? then (Lan, false)
    else (Ssl, sslReady)
  }

  /** Every channel that a control started by `Transport` can end up on. */
  predicate MaySendOn(mode: TransportMode, c: Capability, lanReady: bool, sslReady: bool, used: Channel) {
    var (channel, present) := Transport(mode, c, lanReady, sslReady);
    present && (used == channel || (channel.Lan? && !mode.LanOnly? && used.Ssl?))
  }

  /** A device for which AUTO offers no path although a control would go to the cloud. */
  predicate Pathless(c: Capability) {
    c.channels == {} && !c.statusOnly && !c.cloudOnly
  }

  /** The channel in use is one the path permits, except for a `Pathless` device under AUTO. */
  lemma UsedChannelIsPermittedIff(mode: TransportMode, p: Profile, lanReady: bool, sslReady: bool, used: Channel)
    requires MaySendOn(mode, CapabilityFor(p), lanReady, sslReady, used)
    ensures PathFor(CapabilityFor(p), mode).Permits(used) <==> !(mode.Auto? && Pathless(CapabilityFor(p)))
  {
    var c := CapabilityFor(p);
    if Lan !in c.channels && Ssl !in c.channels {
      assert c.channels == {} by {
        forall x ensures x !in c.channels {
          assert x == Lan || x == Ssl;
        }
      }
    }
  }

  /** The control guard leaves no `Pathless` built-in device. */
  lemma GuardedBuiltinsHaveAPath(p: Profile)
    requires p.Builtin? && !p.RegistrationOnly()
    ensures !Pathless(CapabilityFor(p))
  {
    if !p.statusOnlyType && !p.cloudOnlyType {
      assert Ssl in CapabilityFor(p).channels;
    }
  }

  /** A verified custom profile without a usable channel passes the guard, yet its path is unavailable. */
  lemma GuardedCustomProfileCanBePathless()
    ensures var p := Custom(false, true, true, false, {});
            !p.RegistrationOnly() && Pathless(CapabilityFor(p))
            && MaySendOn(Auto, CapabilityFor(p), false, true, Ssl)
            && !PathFor(CapabilityFor(p), Auto).Permits(Ssl)
  {
  }
}
