/**
 The transport-free volume reducer of agent/avrcp_absolute_volume_state.cpp: the
 scaling pair between the Windows percent scale and the 0..127 scale of section
 6.13 of the AVRCP 1.6 specification, and the echo-suppressing session reducer.
 */
module AbsoluteVolume {
  import opened Words

  /** `UnlistedSupport` is a value outside the enumerators, which a cast can produce. */
  datatype Support = Unknown | Unsupported | Supported | UnlistedSupport(raw: uint32)

  datatype HeadsetEvent = CommandResponse | RemoteNotification | UnlistedEvent(raw: uint32)

  datatype WindowsVolume = WindowsVolume(percent: uint8, muted: bool)

  const DEFAULT_WINDOWS_VOLUME := WindowsVolume(0, true)

  /** The two action bits of a reducer decision and the payload of each. */
  datatype VolumeDecision = VolumeDecision(
    setWindowsEndpoint: bool,
    sendHeadsetVolume: bool,
    windowsVolume: WindowsVolume,
    headsetVolume: uint8)
  {
    predicate HasAction() {
      setWindowsEndpoint || sendHeadsetVolume
    }
  }

  const NO_VOLUME_ACTION := VolumeDecision(false, false, DEFAULT_WINDOWS_VOLUME, 0)

  datatype ReducerState = ReducerState(
    generation: uint64,
    sessionActive: bool,
    support: Support,
    windowsVolumeKnown: bool,
    windowsVolume: WindowsVolume,
    firstSessionSyncComplete: bool,
    outboundEchoPending: bool,
    lastHeadsetVolumeSent: uint8,
    inboundVolumeSeen: bool,
    lastHeadsetVolumeReceived: uint8,
    windowsUpdatePending: bool,
    pendingHeadsetVolume: uint8)

  const RESET_REDUCER := ReducerState(
    0, false, Unknown, false, DEFAULT_WINDOWS_VOLUME, false, false, 0, false, 0, false, 0)

  // ---------------------------------------------------------------- scaling

  function ToHeadsetScale(windowsPercent: uint32): uint8 {
    (Min(windowsPercent, 100) * 127 + 50) / 100
  }

  function ToWindowsPercent(headsetVolume: uint32): uint8 {
    (Min(headsetVolume, 127) * 100 + 63) / 127
  }

  function Project(volume: WindowsVolume): uint8 {
    if volume.muted || volume.percent == 0 then 0 else ToHeadsetScale(volume.percent)
  }

  function Clamp(volume: WindowsVolume): WindowsVolume {
    volume.(percent := Min(volume.percent, 100))
  }

  /** The endpoint volume that a headset value asks for. */
  function FromHeadset(headsetVolume: uint8): WindowsVolume {
    WindowsVolume(ToWindowsPercent(headsetVolume), headsetVolume == 0)
  }

  /** Percent to headset scale and back loses nothing; both directions are bounded by their range. */
  lemma ScalingRoundTrip(percent: uint32)
    ensures ToWindowsPercent(ToHeadsetScale(percent)) == Min(percent, 100)
    ensures ToHeadsetScale(percent) <= 127 && ToWindowsPercent(percent) <= 100
  {
    var bounded := Min(percent, 100);
    var scaled := (bounded * 127 + 50) / 100;
    assert 127 * bounded <= scaled * 100 + 63 < 127 * bounded + 127;
  }

  /** What a headset value asks of the endpoint is in range as it stands. */
  lemma AskedIsInRange(headsetVolume: uint8)
    ensures FromHeadset(headsetVolume).percent <= 100 && Clamp(FromHeadset(headsetVolume)) == FromHeadset(headsetVolume)
  {
    ScalingRoundTrip(headsetVolume);
  }

  /** Hence the other way round is idempotent, although it is not the identity. */
  lemma ScalingIsIdempotent(headsetVolume: uint8)
    ensures var settled := Project(FromHeadset(headsetVolume));
            && settled <= 127 && FromHeadset(settled) == FromHeadset(headsetVolume)
            && Project(FromHeadset(settled)) == settled
  {
    ScalingRoundTrip(ToWindowsPercent(headsetVolume));
  }

  /** The headset values whose rounding to a percent stays within what half a step of the way back undoes. */
  predicate SurvivesScaling(headsetVolume: uint32) {
    headsetVolume <= 127 && 14 <= (100 * headsetVolume + 63) % 127 <= 113
  }

  /** On its own scale, a headset value is rounded to a percent and that percent is scaled back. */
  lemma ProjectionOfAsked(headsetVolume: uint8)
    requires headsetVolume <= 127
    ensures Project(FromHeadset(headsetVolume)) == (127 * ToWindowsPercent(headsetVolume) + 50) / 100
    ensures 127 * ToWindowsPercent(headsetVolume) + (100 * headsetVolume + 63) % 127 == 100 * headsetVolume + 63
  {
    ScalingRoundTrip(headsetVolume);
  }

  /** The 127-scale to the endpoint and back is the identity exactly on these. */
  lemma ScaleKeepsExactly(headsetVolume: uint8)
    ensures Project(FromHeadset(headsetVolume)) == headsetVolume <==> SurvivesScaling(headsetVolume)
  {
    hide ToHeadsetScale, ToWindowsPercent, Project, FromHeadset;
    if headsetVolume <= 127 {
      ProjectionOfAsked(headsetVolume);
      RoundingUndone(headsetVolume, ToWindowsPercent(headsetVolume), (100 * headsetVolume + 63) % 127);
    } else {
      ScalingIsIdempotent(headsetVolume);
    }
  }

  lemma RoundingUndone(headsetVolume: nat, percent: nat, rest: nat)
    requires 127 * percent + rest == 100 * headsetVolume + 63 && rest < 127
    ensures (127 * percent + 50) / 100 == headsetVolume <==> 14 <= rest <= 113
  {
  }

  /** The first headset value that no endpoint percent projects to. */
  lemma HeadsetScaleHasGaps()
    ensures exists headsetVolume: uint8 ::
              headsetVolume <= 127 && Project(FromHeadset(headsetVolume)) != headsetVolume
  {
    ScaleKeepsExactly(2);
  }

  // --------------------------------------------- the reducer as a function

  predicate IsCurrentSession(s: ReducerState, generation: uint64) {
    generation != 0 && s.sessionActive && generation == s.generation
  }

  function SendAuthoritative(s: ReducerState): (ReducerState, VolumeDecision) {
    if !s.windowsVolumeKnown || s.support != Supported then (s, NO_VOLUME_ACTION)
    else
      var projected := Project(s.windowsVolume);
      (s.(firstSessionSyncComplete := true, outboundEchoPending := true, lastHeadsetVolumeSent := projected),
       NO_VOLUME_ACTION.(sendHeadsetVolume := true, headsetVolume := projected))
  }

  function BeginSession(s: ReducerState, generation: uint64, support: Support, observed: WindowsVolume)
    : (ReducerState, VolumeDecision)
  {
    if !IsNewerGeneration(generation, s.generation) then (s, NO_VOLUME_ACTION)
    else SendAuthoritative(RESET_REDUCER.(generation := generation, sessionActive := true, support := support,
                                          windowsVolumeKnown := true, windowsVolume := Clamp(observed)))
  }

  function ReduceWindows(s: ReducerState, generation: uint64, observed: WindowsVolume)
    : (ReducerState, VolumeDecision)
  {
    if !IsCurrentSession(s, generation) then (s, NO_VOLUME_ACTION)
    else
      var known := s.(windowsVolumeKnown := true, windowsVolume := Clamp(observed), windowsUpdatePending := false);
      var projected := Project(known.windowsVolume);
      if s.windowsUpdatePending then
        if projected == s.pendingHeadsetVolume
        then (known.(lastHeadsetVolumeSent := projected, outboundEchoPending := false), NO_VOLUME_ACTION)
        else SendAuthoritative(known)
      else if s.support != Supported || (s.firstSessionSyncComplete && s.lastHeadsetVolumeSent == projected)
      then (known, NO_VOLUME_ACTION)
      else SendAuthoritative(known)
  }

  function ReduceHeadset(s: ReducerState, generation: uint64, headsetVolume: uint32, event: HeadsetEvent)
    : (ReducerState, VolumeDecision)
  {
    if !IsCurrentSession(s, generation) || s.support != Supported || headsetVolume > 127
    then (s, NO_VOLUME_ACTION)
    else if event == CommandResponse then
      (if s.outboundEchoPending && headsetVolume == s.lastHeadsetVolumeSent
       then s.(outboundEchoPending := false) else s, NO_VOLUME_ACTION)
    else if s.inboundVolumeSeen && headsetVolume == s.lastHeadsetVolumeReceived then (s, NO_VOLUME_ACTION)
    else
      var seen := s.(inboundVolumeSeen := true, lastHeadsetVolumeReceived := headsetVolume,
                     outboundEchoPending := false);
      if s.windowsVolumeKnown && Project(s.windowsVolume) == headsetVolume then (seen, NO_VOLUME_ACTION)
      else (seen.(windowsUpdatePending := true, pendingHeadsetVolume := headsetVolume),
            NO_VOLUME_ACTION.(setWindowsEndpoint := true, windowsVolume := FromHeadset(headsetVolume)))
  }

  // -------------------------------------------------- the reducer in place

  class VolumeReducer {
    var generation: uint64
    var sessionActive: bool
    var support: Support
    var windowsVolumeKnown: bool
    var windowsVolume: WindowsVolume
    var firstSessionSyncComplete: bool
    var outboundEchoPending: bool
    var lastHeadsetVolumeSent: uint8
    var inboundVolumeSeen: bool
    var lastHeadsetVolumeReceived: uint8
    var windowsUpdatePending: bool
    var pendingHeadsetVolume: uint8

    function View(): ReducerState
      reads this
    {
      ReducerState(generation, sessionActive, support, windowsVolumeKnown, windowsVolume, firstSessionSyncComplete,
                   outboundEchoPending, lastHeadsetVolumeSent, inboundVolumeSeen, lastHeadsetVolumeReceived,
                   windowsUpdatePending, pendingHeadsetVolume)
    }

    constructor ()
      ensures View() == RESET_REDUCER
    {
      generation, sessionActive, support := 0, false, Unknown;
      windowsVolumeKnown, windowsVolume := false, DEFAULT_WINDOWS_VOLUME;
      firstSessionSyncComplete, outboundEchoPending, lastHeadsetVolumeSent := false, false, 0;
      inboundVolumeSeen, lastHeadsetVolumeReceived := false, 0;
      windowsUpdatePending, pendingHeadsetVolume := false, 0;
    }

    method Reset()
      modifies this
      ensures View() == RESET_REDUCER
    {
      generation, sessionActive, support := 0, false, Unknown;
      windowsVolumeKnown, windowsVolume := false, DEFAULT_WINDOWS_VOLUME;
      firstSessionSyncComplete, outboundEchoPending, lastHeadsetVolumeSent := false, false, 0;
      inboundVolumeSeen, lastHeadsetVolumeReceived := false, 0;
      windowsUpdatePending, pendingHeadsetVolume := false, 0;
    }

    method SendAuthoritativeVolume() returns (decision: VolumeDecision)
      modifies this
      ensures (View(), decision) == SendAuthoritative(old(View()))
    {
      decision := NO_VOLUME_ACTION;
      if !windowsVolumeKnown || support != Supported {
        return;
      }
      var projected := Project(windowsVolume);
      decision := decision.(sendHeadsetVolume := true, headsetVolume := projected);
      firstSessionSyncComplete := true;
      outboundEchoPending := true;
      lastHeadsetVolumeSent := projected;
    }

    method Begin(generation: uint64, support: Support, observed: WindowsVolume) returns (decision: VolumeDecision)
      modifies this
      ensures (View(), decision) == BeginSession(old(View()), generation, support, observed)
    {
      decision := NO_VOLUME_ACTION;
      if !IsNewerGeneration(generation, this.generation) {
        return;
      }
      Reset();
      this.generation := generation;
      sessionActive := true;
      this.support := support;
      windowsVolumeKnown := true;
      windowsVolume := Clamp(observed);
      decision := SendAuthoritativeVolume();
    }

    method ObserveWindowsEndpoint(generation: uint64, observed: WindowsVolume) returns (decision: VolumeDecision)
      modifies this
      ensures (View(), decision) == ReduceWindows(old(View()), generation, observed)
    {
      decision := NO_VOLUME_ACTION;
      if !IsCurrentSession(View(), generation) {
        return;
      }
      windowsVolumeKnown := true;
      windowsVolume := Clamp(observed);
      var projected := Project(windowsVolume);
      if windowsUpdatePending {
        var isExpectedCallback := projected == pendingHeadsetVolume;
        windowsUpdatePending := false;
        if isExpectedCallback {
          lastHeadsetVolumeSent := projected;
          outboundEchoPending := false;
          return;
        }
        decision := SendAuthoritativeVolume();
        return;
      }
      if support != Supported {
        return;
      }
      if firstSessionSyncComplete && lastHeadsetVolumeSent == projected {
        return;
      }
      decision := SendAuthoritativeVolume();
    }

    method ObserveHeadsetVolume(generation: uint64, headsetVolume: uint32, event: HeadsetEvent)
      returns (decision: VolumeDecision)
      modifies this
      ensures (View(), decision) == ReduceHeadset(old(View()), generation, headsetVolume, event)
    {
      decision := NO_VOLUME_ACTION;
      if !IsCurrentSession(View(), generation) || support != Supported || headsetVolume > 127 {
        return;
      }
      if event == CommandResponse {
        if outboundEchoPending && headsetVolume == lastHeadsetVolumeSent {
          outboundEchoPending := false;
        }
        return;
      }
      if inboundVolumeSeen && headsetVolume == lastHeadsetVolumeReceived {
        return;
      }
      inboundVolumeSeen := true;
      lastHeadsetVolumeReceived := headsetVolume;
      outboundEchoPending := false;
      if windowsVolumeKnown && Project(windowsVolume) == headsetVolume {
        return;
      }
      decision := decision.(setWindowsEndpoint := true,
                            windowsVolume := WindowsVolume(ToWindowsPercent(headsetVolume), headsetVolume == 0));
      windowsUpdatePending := true;
      pendingHeadsetVolume := headsetVolume;
    }
  }
}
