/**
  ParticipantDeviceModel: the view-model of one conference device. It keeps
  three flags (paused, speaking, video enabled) and emits a change signal only
  when a flag really changes. The SDK device is an opaque identity; what the
  SDK answers about it at a given moment is passed in as DeviceFacts.
 */
module DeviceModel {
  import opened Optional

  /** Identity of an SDK participant device (the shared pointer). */
  type DeviceId = int
  /** Identity of an SDK address object. */
  type Address = int

  /** linphone::MediaDirection */
  datatype MediaDirection = Invalid | Inactive | SendOnly | RecvOnly | SendRecv

  /** The call state; only StreamsRunning is told apart by this component. */
  datatype CallState = StreamsRunning | OtherCallState

  /** What the SDK answers about a device when asked. */
  datatype DeviceFacts = DeviceFacts(
    name: string,
    address: Address,
    addressUri: string,
    displayName: string,
    securityLevel: int,
    timeOfJoining: int,
    isMuted: bool,
    inConference: bool,
    videoAvailable: bool,
    videoCapability: MediaDirection)

  /** The change signals a device model emits. */
  datatype Signal = IsPausedChanged | IsSpeakingChanged | VideoEnabledChanged | SecurityLevelChanged

  /** The video directions in which the device sends video. */
  predicate SendsVideo(direction: MediaDirection)
  {
    direction == SendRecv || direction == SendOnly
  }

  /** The video state updateVideoEnabled computes: always on for the local
      user; for anyone else, on only for a device that is in the conference,
      has video available and sends video. */
  function ComputeVideoEnabled(device: Option<DeviceFacts>, isMe: bool): (enabled: bool)
    ensures isMe ==> enabled
    ensures !isMe && device.None? ==> !enabled
    ensures !isMe && device.Some? && !device.value.inConference ==> !enabled
    ensures !isMe && device.Some? && !device.value.videoAvailable ==> !enabled
    ensures !isMe && device.Some? && !SendsVideo(device.value.videoCapability) ==> !enabled
    ensures (!isMe && device.Some? && device.value.inConference && device.value.videoAvailable
             && SendsVideo(device.value.videoCapability)) ==> enabled
    ensures enabled && !isMe ==> device.Some? && device.value.videoCapability in {SendOnly, SendRecv}
  {
    (device.Some? && device.value.inConference && device.value.videoAvailable
     && (device.value.videoCapability == SendRecv || device.value.videoCapability == SendOnly))
    || isMe
  }

  /** The value mIsVideoEnabled takes after updateVideoEnabled: the computed
      value is committed only while a call exists and is in StreamsRunning. */
  function CommitVideoEnabled(current: bool, computed: bool, hasCall: bool, state: CallState): (next: bool)
    ensures next == current || next == computed
    ensures next != current ==> hasCall && state == StreamsRunning
    ensures hasCall && state == StreamsRunning ==> next == computed
  {
    if current != computed && hasCall && state == StreamsRunning then computed else current
  }

  /** Re-evaluating with the same facts a second time changes nothing more. */
  lemma CommitIsIdempotent(current: bool, computed: bool, hasCall: bool, state: CallState)
    ensures CommitVideoEnabled(CommitVideoEnabled(current, computed, hasCall, state), computed, hasCall, state)
            == CommitVideoEnabled(current, computed, hasCall, state)
  {
  }

  /** The signal emitted when a flag goes from `before` to `after`: one, and only on a change. */
  function ChangeSignal(before: bool, after: bool, signal: Signal): (emitted: seq<Signal>)
    ensures |emitted| <= 1
    ensures emitted == [] <==> before == after
    ensures emitted != [] ==> emitted[0] == signal
  {
    if before != after then [signal] else []
  }

  class ParticipantDeviceModel {
    /** mParticipantDevice (None: a null device) */
    const device: Option<DeviceId>
    /** mIsMe */
    const isMe: bool
    /** mCall != null */
    const hasCall: bool
    /** mIsPaused */
    var isPaused: bool
    /** mIsSpeaking */
    var isSpeaking: bool
    /** mIsVideoEnabled */
    var isVideoEnabled: bool
    /** The signals emitted so far, oldest first. */
    ghost var signals: seq<Signal>

    /** The SDK's answers about the device, or None when there is no device. */
    function Facts(facts: DeviceFacts): (f: Option<DeviceFacts>)
      ensures f.Some? <==> device.Some?
      ensures f.Some? ==> f.value == facts
    {
      if device.Some? then Some(facts) else None
    }

    /** Video starts off and is turned on at construction only when the call
        is already in StreamsRunning and the computed value is on. */
    constructor (hasCall: bool, device: Option<DeviceId>, isMe: bool, facts: DeviceFacts, state: CallState)
      ensures this.hasCall == hasCall && this.device == device && this.isMe == isMe
      ensures !isPaused && !isSpeaking
      ensures isVideoEnabled <==> hasCall && state == StreamsRunning
                                  && ComputeVideoEnabled(if device.Some? then Some(facts) else None, isMe)
      ensures signals == if isVideoEnabled then [VideoEnabledChanged] else []
    {
      this.isMe := isMe;
      this.device := device;
      this.hasCall := hasCall;
      isPaused := false;
      isSpeaking := false;
      isVideoEnabled := false;
      signals := [];
      new;
      UpdateVideoEnabled(facts, state);
    }

    /** getName */
    function Name(facts: DeviceFacts): (name: string)
      ensures device.None? ==> name == "NoName"
      ensures device.Some? ==> name == facts.name
    {
      if device.Some? then facts.name else "NoName"
    }

    /** getDisplayName */
    function DisplayName(facts: DeviceFacts): (name: string)
      ensures device.None? ==> name == ""
      ensures device.Some? ==> name == facts.displayName
    {
      if device.Some? then facts.displayName else ""
    }

    /** getSecurityLevel */
    function SecurityLevel(facts: DeviceFacts): (level: int)
      ensures device.None? ==> level == 0
      ensures device.Some? ==> level == facts.securityLevel
    {
      if device.Some? then facts.securityLevel else 0
    }

    /** getTimeOfJoining */
    function TimeOfJoining(facts: DeviceFacts): (time: int)
      ensures device.None? ==> time == 0
      ensures device.Some? ==> time == facts.timeOfJoining
    {
      if device.Some? then facts.timeOfJoining else 0
    }

    /** getAddress */
    function AddressUri(facts: DeviceFacts): (uri: string)
      ensures device.None? ==> uri == ""
      ensures device.Some? ==> uri == facts.addressUri
    {
      if device.Some? then facts.addressUri else ""
    }

    /** getIsMuted */
    function IsMuted(facts: DeviceFacts): (muted: bool)
      ensures device.None? ==> !muted
      ensures device.Some? ==> muted == facts.isMuted
    {
      if device.Some? then facts.isMuted else false
    }

    /** setPaused: set the flag; signal once, and only if it changed. */
    method SetPaused(paused: bool)
      modifies this
      ensures isPaused == paused
      ensures isSpeaking == old(isSpeaking) && isVideoEnabled == old(isVideoEnabled)
      ensures signals == old(signals) + ChangeSignal(old(isPaused), paused, IsPausedChanged)
    {
      if isPaused != paused {
        isPaused := paused;
        signals := signals + [IsPausedChanged];
      }
    }

    /** setIsSpeaking: set the flag; signal once, and only if it changed. */
    method SetIsSpeaking(speaking: bool)
      modifies this
      ensures isSpeaking == speaking
      ensures isPaused == old(isPaused) && isVideoEnabled == old(isVideoEnabled)
      ensures signals == old(signals) + ChangeSignal(old(isSpeaking), speaking, IsSpeakingChanged)
    {
      if isSpeaking != speaking {
        isSpeaking := speaking;
        signals := signals + [IsSpeakingChanged];
      }
    }

    /** updateVideoEnabled: compute the video state from the device facts and
        commit it, with one signal, only when it differs and the call is in
        StreamsRunning. */
    method UpdateVideoEnabled(facts: DeviceFacts, state: CallState)
      modifies this
      ensures isVideoEnabled == CommitVideoEnabled(old(isVideoEnabled), ComputeVideoEnabled(Facts(facts), isMe), hasCall, state)
      ensures isPaused == old(isPaused) && isSpeaking == old(isSpeaking)
      ensures signals == old(signals) + ChangeSignal(old(isVideoEnabled), isVideoEnabled, VideoEnabledChanged)
    {
      var enabled := (device.Some? && facts.inConference && facts.videoAvailable
                      && (facts.videoCapability == SendRecv || facts.videoCapability == SendOnly))
                     || isMe;
      if isVideoEnabled != enabled && hasCall && state == StreamsRunning {
        isVideoEnabled := enabled;
        signals := signals + [VideoEnabledChanged];
      }
    }

    /** onCallStatusChanged: re-evaluate video only in StreamsRunning. It is
        connected only to a call that exists. */
    method OnCallStatusChanged(facts: DeviceFacts, state: CallState)
      requires hasCall
      modifies this
      ensures state != StreamsRunning ==>
                isVideoEnabled == old(isVideoEnabled) && signals == old(signals)
      ensures state == StreamsRunning ==>
                isVideoEnabled == ComputeVideoEnabled(Facts(facts), isMe)
      ensures isPaused == old(isPaused) && isSpeaking == old(isSpeaking)
      ensures signals == old(signals) + ChangeSignal(old(isVideoEnabled), isVideoEnabled, VideoEnabledChanged)
    {
      if state == StreamsRunning {
        UpdateVideoEnabled(facts, state);
      }
    }

    /** onSecurityLevelChanged: re-emit for a null address (everyone), or when
        this device's address weakly equals the changed one. */
    method OnSecurityLevelChanged(changed: Option<Address>, facts: DeviceFacts, weakEqual: (Address, Address) -> bool)
      modifies this
      ensures isPaused == old(isPaused) && isSpeaking == old(isSpeaking) && isVideoEnabled == old(isVideoEnabled)
      ensures |signals| == |old(signals)| + 1 <==>
                changed.None? || (device.Some? && weakEqual(facts.address, changed.value))
      ensures signals == old(signals) || signals == old(signals) + [SecurityLevelChanged]
    {
      if changed.None? || (device.Some? && weakEqual(facts.address, changed.value)) {
        signals := signals + [SecurityLevelChanged];
      }
    }
  }
}
