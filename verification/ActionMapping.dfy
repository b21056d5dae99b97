/**
 The control mapper of agent/v1_avrcp_action_mapper.cpp. It drives the
 pass-through gate and the volume gate in lockstep, holds back volume pushes
 until a preferred headset has spoken, and adopts the headset's first volume.
 */
module ActionMapping {
  import opened Words
  import opened AbsoluteVolume
  import VolumeGating
  import PassThrough

  datatype Playback = Stopped | Playing | Paused

  datatype SessionPlayback = NoSession | SessionStopped | SessionPlaying | SessionPaused

  datatype MediaSnapshot = MediaSnapshot(
    aclGeneration: uint64,
    playback: SessionPlayback,
    playEnabled: bool,
    pauseEnabled: bool,
    nextEnabled: bool,
    previousEnabled: bool)

  datatype Eligibility = Eligibility(
    sessionPresent: bool,
    play: bool,
    pause: bool,
    next: bool,
    previous: bool,
    aclGeneration: uint64)

  const NOTHING_ELIGIBLE := Eligibility(false, false, false, false, false, 0)

  datatype Action =
    | SetWindowsVolume | StepVolumeUp | StepVolumeDown | ToggleMute
    | MediaPlay | MediaPause | MediaPlayPause | MediaStop | MediaNextTrack | MediaPreviousTrack
    | SendHeadsetVolume | NotifyPlaybackStatus

  datatype ActionSet = ActionSet(
    actions: set<Action>,
    aclGeneration: uint64,
    authorizedCurrent: bool,
    eventObserved: bool,
    windowsVolume: WindowsVolume,
    headsetVolume: uint8,
    playbackAfter: Playback,
    playbackChanged: bool)

  const NO_ACTIONS := ActionSet({}, 0, false, false, DEFAULT_WINDOWS_VOLUME, 0, Stopped, false)

  /** What the mapper knows of the PC's media session and last told the headset about it. */
  datatype MediaStatus = MediaStatus(
    eligibility: Eligibility,
    playback: Playback,
    pcPlayback: Playback,
    pcPlaybackValid: bool,
    statusSyncRequired: bool,
    lastStatus: Playback,
    statusValid: bool)

  const NO_MEDIA := MediaStatus(NOTHING_ELIGIBLE, Stopped, Stopped, false, false, Stopped, false)

  datatype MapperState = MapperState(
    aclGeneration: uint64,
    aclGenerationCurrent: bool,
    ownerLease: uint64,
    volumeSyncEnabled: bool,
    mediaRoutingEnabled: bool,
    headsetPreferred: bool,
    headsetVolumeSeen: bool,
    media: MediaStatus,
    keys: PassThrough.KeyGateState,
    volume: VolumeGating.GateState)

  const RESET_MAPPER := MapperState(
    0, false, 0, false, false, false, false, NO_MEDIA, PassThrough.RESET_KEY_GATE, VolumeGating.RESET_GATE)

  // ---------------------------------------------- the mapper as a function

  predicate IsCurrent(s: MapperState, generation: uint64) {
    generation != 0 && s.aclGenerationCurrent && s.aclGeneration == generation
  }

  function Snapshot(s: MapperState): ActionSet {
    NO_ACTIONS.(aclGeneration := s.aclGeneration, authorizedCurrent := s.aclGenerationCurrent && s.ownerLease != 0)
  }

  function Evaluate(snapshot: MediaSnapshot): Eligibility {
    if snapshot.aclGeneration == 0 || snapshot.playback == NoSession || snapshot.playback == SessionStopped
    then NOTHING_ELIGIBLE.(aclGeneration := snapshot.aclGeneration)
    else Eligibility(true,
                     snapshot.playback == SessionPaused && snapshot.playEnabled,
                     snapshot.playback == SessionPlaying && snapshot.pauseEnabled,
                     snapshot.nextEnabled, snapshot.previousEnabled, snapshot.aclGeneration)
  }

  function PlaybackOf(snapshot: MediaSnapshot): Playback {
    if snapshot.playback == SessionPlaying then Playing
    else if snapshot.playback == SessionPaused then Paused else Stopped
  }

  /** A new or ended generation forgets everything but the headset preference. */
  function SessionForgotten(s: MapperState): MapperState {
    s.(ownerLease := 0, volumeSyncEnabled := false, mediaRoutingEnabled := false, headsetVolumeSeen := false,
       media := NO_MEDIA)
  }

  function BeginGeneration(s: MapperState, g: uint64): (MapperState, ActionSet) {
    var gated := s.(keys := PassThrough.BeginKeys(s.keys, g).0,
                    volume := VolumeGating.GateStep(s.volume, VolumeGating.Begin(g)).0);
    if gated.keys.aclGeneration != g || !gated.keys.aclGenerationCurrent ||
       gated.volume.aclGeneration != g || !gated.volume.aclGenerationCurrent
    then (gated, NO_ACTIONS)
    else
      var next := SessionForgotten(gated.(aclGeneration := g, aclGenerationCurrent := true));
      (next, Snapshot(next))
  }

  function EndGeneration(s: MapperState, g: uint64): (MapperState, ActionSet) {
    if !IsCurrent(s, g) then (s, NO_ACTIONS)
    else
      var next := SessionForgotten(s.(aclGenerationCurrent := false, keys := PassThrough.EndKeys(s.keys, g).0,
                                      volume := VolumeGating.GateStep(s.volume, VolumeGating.End(g)).0));
      (next, Snapshot(next))
  }

  function SetMode(s: MapperState, g: uint64, volumeSync: bool, mediaRouting: bool): (MapperState, ActionSet) {
    if !IsCurrent(s, g) then (s, NO_ACTIONS)
    else
      var routes := if mediaRouting then PassThrough.RouteToMediaSession else PassThrough.ObserveKeys;
      var mode := if volumeSync then VolumeGating.Synchronize else VolumeGating.ObserveOnly;
      var next := s.(keys := PassThrough.SetRouteMode(s.keys, g, routes).0,
                     volume := VolumeGating.GateStep(s.volume, VolumeGating.SetMode(g, mode)).0,
                     volumeSyncEnabled := volumeSync, mediaRoutingEnabled := mediaRouting,
                     media := if !s.mediaRoutingEnabled && mediaRouting
                              then s.media.(statusSyncRequired := true) else s.media);
      (next, Snapshot(next))
  }

  function AcquireLease(s: MapperState, g: uint64, lease: uint64): (MapperState, ActionSet) {
    if !IsCurrent(s, g) || lease == 0 then (s, NO_ACTIONS)
    else
      var gated := s.(keys := PassThrough.AcquireKeys(s.keys, g, lease).0,
                      volume := VolumeGating.GateStep(s.volume, VolumeGating.Acquire(g, lease)).0);
      if gated.keys.ownerLease != lease || gated.volume.ownerLease != lease then (gated, NO_ACTIONS)
      else
        var next := gated.(ownerLease := lease, media := s.media.(statusSyncRequired := true));
        (next, Snapshot(next))
  }

  function RevokeLease(s: MapperState, g: uint64, lease: uint64): (MapperState, ActionSet) {
    if !IsCurrent(s, g) || lease == 0 || s.ownerLease != lease then (s, NO_ACTIONS)
    else
      var next := s.(keys := PassThrough.RevokeKeys(s.keys, g, lease).0,
                     volume := VolumeGating.GateStep(s.volume, VolumeGating.Revoke(g, lease)).0,
                     ownerLease := 0);
      (next, Snapshot(next))
  }

  function SetMediaSession(s: MapperState, snapshot: MediaSnapshot): (MapperState, ActionSet) {
    if !IsCurrent(s, snapshot.aclGeneration) then (s, NO_ACTIONS)
    else
      var playback := PlaybackOf(snapshot);
      var changed := !s.media.pcPlaybackValid || s.media.pcPlayback != playback;
      var media := s.media.(eligibility := Evaluate(snapshot), pcPlayback := playback, pcPlaybackValid := true,
                            playback := playback);
      var next := s.(media := media);
      if s.mediaRoutingEnabled && s.ownerLease != 0 &&
         (media.statusSyncRequired || changed || !media.statusValid || media.lastStatus != playback)
      then (next.(media := media.(lastStatus := playback, statusValid := true, statusSyncRequired := false)),
            Snapshot(next).(actions := {NotifyPlaybackStatus}, playbackAfter := playback, playbackChanged := true))
      else (next, Snapshot(next))
  }

  function MergeVolume(actions: ActionSet, decision: VolumeGating.GateDecision): ActionSet {
    var written := if decision.volume.setWindowsEndpoint
                   then actions.(actions := actions.actions + {SetWindowsVolume},
                                 windowsVolume := decision.volume.windowsVolume)
                   else actions;
    if decision.volume.sendHeadsetVolume
    then written.(actions := written.actions + {SendHeadsetVolume}, headsetVolume := decision.volume.headsetVolume)
    else written
  }

  /** No push to a preferred headset before it has reported its own volume. */
  function FilterPush(s: MapperState, actions: ActionSet): ActionSet {
    if !s.headsetPreferred || s.headsetVolumeSeen then actions
    else actions.(actions := actions.actions - {SendHeadsetVolume})
  }

  function Merged(s: MapperState, step: (VolumeGating.GateState, VolumeGating.GateDecision)): (MapperState, ActionSet) {
    var next := s.(volume := step.0);
    (next, FilterPush(next, MergeVolume(Snapshot(next), step.1)))
  }

  function ObserveCapability(s: MapperState, g: uint64, supported: bool): (MapperState, ActionSet) {
    if !IsCurrent(s, g) then (s, NO_ACTIONS)
    else
      var support := if supported then Supported else Unsupported;
      Merged(s, VolumeGating.GateStep(s.volume, VolumeGating.Capability(g, support)))
  }

  function ObserveWindows(s: MapperState, g: uint64, windows: WindowsVolume): (MapperState, ActionSet) {
    if !IsCurrent(s, g) then (s, NO_ACTIONS)
    else Merged(s, VolumeGating.GateStep(s.volume, VolumeGating.WindowsVolumeSeen(g, windows)))
  }

  /** The reducer is told that the adopted headset value is what was last sent. */
  function Adopted(volume: VolumeGating.GateState, value: uint8): VolumeGating.GateState {
    volume.(reducer := volume.reducer.(lastHeadsetVolumeSent := value % 0x80, outboundEchoPending := false))
  }

  function ObserveHeadset(s: MapperState, g: uint64, value: uint8, event: HeadsetEvent): (MapperState, ActionSet) {
    if !IsCurrent(s, g) then (s, NO_ACTIONS)
    else
      var (volume, decision) := VolumeGating.GateStep(s.volume, VolumeGating.HeadsetVolumeSeen(g, value, event));
      var merged := MergeVolume(Snapshot(s), decision);
      if !s.headsetPreferred || s.headsetVolumeSeen then (s.(volume := volume), merged)
      else
        var next := s.(headsetVolumeSeen := true, volume := Adopted(volume, value));
        var wanted := FromHeadset(value);
        if s.ownerLease != 0 && volume.mode == VolumeGating.Synchronize && SetWindowsVolume !in merged.actions &&
           !(volume.windowsVolumeObserved && volume.lastWindowsVolume == wanted)
        then (next, merged.(actions := merged.actions + {SetWindowsVolume}, windowsVolume := wanted))
        else (next, merged)
  }

  /** A key that names no capability of the session, or no session, routes nothing. */
  function RouteKey(e: Eligibility, actions: ActionSet, decision: PassThrough.KeyDecision): ActionSet {
    var seen := actions.(eventObserved := actions.eventObserved || decision.eventObserved);
    if decision.action.None? then seen
    else
      match decision.action.value
      case VolumeUp => seen.(actions := seen.actions + {StepVolumeUp})
      case VolumeDown => seen.(actions := seen.actions + {StepVolumeDown})
      case Mute => seen.(actions := seen.actions + {ToggleMute})
      case Play =>
        if e.pause then Routed(seen, MediaPlayPause, Paused)
        else if e.play then Routed(seen, MediaPlay, Playing) else seen
      case Pause =>
        if e.play then Routed(seen, MediaPlayPause, Playing)
        else if e.pause then Routed(seen, MediaPause, Paused) else seen
      case Stop => if e.sessionPresent then Routed(seen, MediaStop, Stopped) else seen
      case Forward => if e.next then seen.(actions := seen.actions + {MediaNextTrack}) else seen
      case Backward => if e.previous then seen.(actions := seen.actions + {MediaPreviousTrack}) else seen
      case UnknownOperation => seen
  }

  function Routed(actions: ActionSet, action: Action, after: Playback): ActionSet {
    actions.(actions := actions.actions + {action}, playbackAfter := after, playbackChanged := true)
  }

  function ObserveKey(s: MapperState, g: uint64, operationId: uint8, released: bool): (MapperState, ActionSet) {
    if !IsCurrent(s, g) then (s, NO_ACTIONS)
    else
      var event := PassThrough.KeyEvent(PassThrough.DecodeOperation(operationId), released);
      var (keys, decision) := PassThrough.ObserveKey(s.keys, g, event);
      var actions := RouteKey(s.media.eligibility, Snapshot(s), decision);
      var media := if actions.playbackChanged then s.media.(playback := actions.playbackAfter) else s.media;
      (s.(keys := keys, media := media), actions)
  }

  // ---------------------------------------------------------------- lockstep

  /** Mapper, pass-through gate and volume gate agree on generation, currency, lease and modes. */
  ghost predicate Lockstep(s: MapperState) {
    && s.keys.aclGeneration == s.volume.aclGeneration == s.aclGeneration
    && s.keys.aclGenerationCurrent == s.volume.aclGenerationCurrent == s.aclGenerationCurrent
    && s.keys.ownerLease == s.volume.ownerLease == s.ownerLease
    && (s.mediaRoutingEnabled <==> s.keys.mode == PassThrough.RouteToMediaSession)
    && s.volume.mode == (if s.volumeSyncEnabled then VolumeGating.Synchronize else VolumeGating.ObserveOnly)
    && (s.aclGenerationCurrent ==> s.aclGeneration != 0)
    && (!s.aclGenerationCurrent ==> s.ownerLease == 0 && !s.volumeSyncEnabled && !s.mediaRoutingEnabled)
  }

  /** Both gates accept a generation together, or neither does. */
  lemma BeginAgainstEnded(s: MapperState, g: uint64)
    requires Lockstep(s) && !s.aclGenerationCurrent
    ensures var (next, actions) := BeginGeneration(s, g);
            if IsNewerGeneration(g, s.aclGeneration)
            then Lockstep(next) && IsCurrent(next, g) && actions.aclGeneration == g && g != 0
            else next == s && actions == NO_ACTIONS
  {
  }

  /**
   While a generation is current, beginning keeps lockstep unless the generation asked
   for is the current one and holds a lease or a mode: that call clears the mapper's
   lease and modes and leaves those of the gates.
   */
  lemma BeginKeepsLockstep(s: MapperState, g: uint64)
    requires Lockstep(s) && s.aclGenerationCurrent
    ensures Lockstep(BeginGeneration(s, g).0) <==>
            !(s.aclGeneration == g && (s.ownerLease != 0 || s.volumeSyncEnabled || s.mediaRoutingEnabled))
  {
    if !IsNewerGeneration(g, s.aclGeneration) {
      assert PassThrough.BeginKeys(s.keys, g).0 == s.keys;
      assert VolumeGating.GateStep(s.volume, VolumeGating.Begin(g)).0 == s.volume;
    }
  }

  /** Three calls on a new mapper lose it: the generation begun again while its lease is held. */
  lemma LockstepIsLost()
    ensures var held := AcquireLease(BeginGeneration(RESET_MAPPER, 1).0, 1, 7).0;
            Lockstep(held) && !Lockstep(BeginGeneration(held, 1).0)
  {
    BeginAgainstEnded(RESET_MAPPER, 1);
    var begun := BeginGeneration(RESET_MAPPER, 1).0;
    AcquireKeepsLockstep(begun, 1, 7);
    var held := AcquireLease(begun, 1, 7).0;
    assert held.ownerLease == 7 && held.aclGeneration == 1 && held.aclGenerationCurrent;
    hide AcquireLease, BeginGeneration;
    BeginKeepsLockstep(held, 1);
  }

  lemma EndKeepsLockstep(s: MapperState, g: uint64)
    requires Lockstep(s)
    ensures Lockstep(EndGeneration(s, g).0)
  {
  }

  lemma ModeKeepsLockstep(s: MapperState, g: uint64, volumeSync: bool, mediaRouting: bool)
    requires Lockstep(s)
    ensures Lockstep(SetMode(s, g, volumeSync, mediaRouting).0)
  {
  }

  lemma AcquireKeepsLockstep(s: MapperState, g: uint64, lease: uint64)
    requires Lockstep(s)
    ensures Lockstep(AcquireLease(s, g, lease).0)
  {
  }

  lemma RevokeKeepsLockstep(s: MapperState, g: uint64, lease: uint64)
    requires Lockstep(s)
    ensures Lockstep(RevokeLease(s, g, lease).0)
  {
  }

  lemma CapabilityKeepsLockstep(s: MapperState, g: uint64, supported: bool)
    requires Lockstep(s)
    ensures Lockstep(ObserveCapability(s, g, supported).0)
  {
  }

  lemma WindowsKeepsLockstep(s: MapperState, g: uint64, windows: WindowsVolume)
    requires Lockstep(s)
    ensures Lockstep(ObserveWindows(s, g, windows).0)
  {
  }

  lemma HeadsetKeepsLockstep(s: MapperState, g: uint64, value: uint8, event: HeadsetEvent)
    requires Lockstep(s)
    ensures Lockstep(ObserveHeadset(s, g, value, event).0)
  {
  }

  lemma KeyKeepsLockstep(s: MapperState, g: uint64, operationId: uint8, released: bool)
    requires Lockstep(s)
    ensures Lockstep(ObserveKey(s, g, operationId, released).0)
  {
  }

  lemma SnapshotKeepsLockstep(s: MapperState, snapshot: MediaSnapshot)
    requires Lockstep(s)
    ensures Lockstep(SetMediaSession(s, snapshot).0)
  {
  }

  /** The ten calls of the mapper. */
  datatype MapperCall =
    | Begin(generation: uint64)
    | End(generation: uint64)
    | Mode(generation: uint64, volumeSync: bool, mediaRouting: bool)
    | Acquire(generation: uint64, lease: uint64)
    | Revoke(generation: uint64, lease: uint64)
    | Session(snapshot: MediaSnapshot)
    | Capability(generation: uint64, supported: bool)
    | Windows(generation: uint64, windows: WindowsVolume)
    | Headset(generation: uint64, value: uint8, event: HeadsetEvent)
    | Key(generation: uint64, operationId: uint8, released: bool)

  function MapperStep(s: MapperState, call: MapperCall): (MapperState, ActionSet) {
    match call
    case Begin(g) => BeginGeneration(s, g)
    case End(g) => EndGeneration(s, g)
    case Mode(g, volumeSync, mediaRouting) => SetMode(s, g, volumeSync, mediaRouting)
    case Acquire(g, lease) => AcquireLease(s, g, lease)
    case Revoke(g, lease) => RevokeLease(s, g, lease)
    case Session(snapshot) => SetMediaSession(s, snapshot)
    case Capability(g, supported) => ObserveCapability(s, g, supported)
    case Windows(g, windows) => ObserveWindows(s, g, windows)
    case Headset(g, value, event) => ObserveHeadset(s, g, value, event)
    case Key(g, operationId, released) => ObserveKey(s, g, operationId, released)
  }

  /** A begin that names the current generation while it holds a lease or a mode. */
  predicate Clashes(s: MapperState, call: MapperCall) {
    call.Begin? && s.aclGenerationCurrent && s.aclGeneration == call.generation &&
    (s.ownerLease != 0 || s.volumeSyncEnabled || s.mediaRoutingEnabled)
  }

  lemma CallKeepsLockstep(s: MapperState, call: MapperCall)
    requires Lockstep(s)
    ensures Lockstep(MapperStep(s, call).0) <==> !Clashes(s, call)
  {
    hide BeginGeneration, EndGeneration, SetMode, AcquireLease, RevokeLease, SetMediaSession;
    hide ObserveCapability, ObserveWindows, ObserveHeadset, ObserveKey, Lockstep;
    match call
    case Begin(g) =>
      if s.aclGenerationCurrent {
        BeginKeepsLockstep(s, g);
      } else {
        BeginAgainstEnded(s, g);
      }
    case End(g) => EndKeepsLockstep(s, g);
    case Mode(g, volumeSync, mediaRouting) => ModeKeepsLockstep(s, g, volumeSync, mediaRouting);
    case Acquire(g, lease) => AcquireKeepsLockstep(s, g, lease);
    case Revoke(g, lease) => RevokeKeepsLockstep(s, g, lease);
    case Session(snapshot) => SnapshotKeepsLockstep(s, snapshot);
    case Capability(g, supported) => CapabilityKeepsLockstep(s, g, supported);
    case Windows(g, windows) => WindowsKeepsLockstep(s, g, windows);
    case Headset(g, value, event) => HeadsetKeepsLockstep(s, g, value, event);
    case Key(g, operationId, released) => KeyKeepsLockstep(s, g, operationId, released);
  }

  /** Lockstep before the run and after every call of it. */
  ghost predicate StaysInLockstep(s: MapperState, calls: seq<MapperCall>)
    decreases calls
  {
    Lockstep(s) && (calls == [] || StaysInLockstep(MapperStep(s, calls[0]).0, calls[1..]))
  }

  ghost predicate NothingClashes(s: MapperState, calls: seq<MapperCall>)
    decreases calls
  {
    calls == [] || (!Clashes(s, calls[0]) && NothingClashes(MapperStep(s, calls[0]).0, calls[1..]))
  }

  /** Over every sequence of calls, lockstep holds throughout exactly if no begin clashes. */
  lemma {:induction false} LockstepHoldsExactly(s: MapperState, calls: seq<MapperCall>)
    requires Lockstep(s)
    ensures StaysInLockstep(s, calls) <==> NothingClashes(s, calls)
    decreases calls
  {
    hide Lockstep, MapperStep, Clashes;
    if calls != [] {
      CallKeepsLockstep(s, calls[0]);
      if !Clashes(s, calls[0]) {
        LockstepHoldsExactly(MapperStep(s, calls[0]).0, calls[1..]);
      } else {
        LostStaysOut(MapperStep(s, calls[0]).0, calls[1..]);
      }
    }
  }

  lemma LostStaysOut(s: MapperState, calls: seq<MapperCall>)
    requires !Lockstep(s)
    ensures !StaysInLockstep(s, calls)
  {
  }

  /** An endpoint observation never asks for an endpoint write, and pushes nothing to a silent preferred headset. */
  lemma WindowsNeverWritesWindows(s: MapperState, g: uint64, windows: WindowsVolume)
    ensures var (next, actions) := ObserveWindows(s, g, windows);
            && actions.actions <= {SendHeadsetVolume}
            && (s.headsetPreferred && !s.headsetVolumeSeen ==> actions.actions == {})
            && next.headsetPreferred == s.headsetPreferred && next.headsetVolumeSeen == s.headsetVolumeSeen
            && next.aclGeneration == s.aclGeneration && next.aclGenerationCurrent == s.aclGenerationCurrent
  {
    var decision := VolumeGating.GateStep(s.volume, VolumeGating.WindowsVolumeSeen(g, windows)).1;
    assert !decision.volume.setWindowsEndpoint;
  }

  /** A headset report never pushes a volume back to the headset. */
  lemma HeadsetNeverSendsHeadset(s: MapperState, g: uint64, value: uint8, event: HeadsetEvent)
    ensures ObserveHeadset(s, g, value, event).1.actions <= {SetWindowsVolume}
  {
    var decision := VolumeGating.GateStep(s.volume, VolumeGating.HeadsetVolumeSeen(g, value, event)).1;
    assert !decision.volume.sendHeadsetVolume;
  }

  // --------------------------------------------- adopting the first report

  /** The first report of a preferred headset, when the mapper may act on it. */
  predicate AwaitsReport(s: MapperState) {
    s.headsetPreferred && !s.headsetVolumeSeen && s.ownerLease != 0 && s.volumeSyncEnabled
  }

  /**
   The first report of a preferred headset, of whichever kind, is adopted: the endpoint
   is told its value and nothing else happens; only an endpoint already there may be left alone.
   */
  lemma FirstReportIsAdopted(s: MapperState, value: uint8, event: HeadsetEvent)
    requires Lockstep(s) && IsCurrent(s, s.aclGeneration) && AwaitsReport(s) && value <= 127
    ensures var (next, actions) := ObserveHeadset(s, s.aclGeneration, value, event);
            && next.headsetVolumeSeen && Lockstep(next)
            && next.volume.reducer.lastHeadsetVolumeSent == value && !next.volume.reducer.outboundEchoPending
            && actions.actions <= {SetWindowsVolume}
            && (SetWindowsVolume in actions.actions ==> actions.windowsVolume == FromHeadset(value))
            && (SetWindowsVolume !in actions.actions ==> EndpointIsThere(s, value))
  {
    HeadsetNeverSendsHeadset(s, s.aclGeneration, value, event);
    HeadsetKeepsLockstep(s, s.aclGeneration, value, event);
  }

  predicate EndpointIsThere(s: MapperState, value: uint8) {
    s.volume.windowsVolumeObserved && s.volume.lastWindowsVolume == FromHeadset(value)
  }

  /**
   It is left alone exactly if it is there already, except that a synchronised gate asks
   again for a newly notified value that the scaling loses.
   */
  lemma FirstReportWritesExactly(s: MapperState, value: uint8, event: HeadsetEvent)
    requires Lockstep(s) && IsCurrent(s, s.aclGeneration) && AwaitsReport(s) && value <= 127
    requires VolumeGating.Agrees(s.volume)
    ensures SetWindowsVolume in ObserveHeadset(s, s.aclGeneration, value, event).1.actions <==>
            || !EndpointIsThere(s, value)
            || (&& VolumeGating.CanSynchronize(s.volume) && event != CommandResponse
                && !VolumeGating.IsRepeat(s.volume, value) && !SurvivesScaling(value))
  {
    ScaleKeepsExactly(value);
    GateAsksExactly(s.volume, value, event);
    hide VolumeGating.GateStep, VolumeGating.Agrees, Project, FromHeadset, SurvivesScaling, VolumeGating.IsRepeat;
  }

  /** When the gate itself asks for the endpoint on a report. */
  lemma GateAsksExactly(volume: VolumeGating.GateState, value: uint8, event: HeadsetEvent)
    requires VolumeGating.Agrees(volume) && VolumeGating.IsCurrentGeneration(volume, volume.aclGeneration)
    requires value <= 127
    ensures var report := VolumeGating.HeadsetVolumeSeen(volume.aclGeneration, value, event);
            var (next, decision) := VolumeGating.GateStep(volume, report);
            && (decision.volume.setWindowsEndpoint <==>
                  && VolumeGating.CanSynchronize(volume) && event != CommandResponse
                  && !VolumeGating.IsRepeat(volume, value) && value != Project(volume.lastWindowsVolume))
            && next.mode == volume.mode && next.windowsVolumeObserved == volume.windowsVolumeObserved
            && next.lastWindowsVolume == volume.lastWindowsVolume
            && (next.reducer.windowsUpdatePending <==>
                  volume.reducer.windowsUpdatePending || decision.volume.setWindowsEndpoint)
  {
    hide ToHeadsetScale, ToWindowsPercent, Project, FromHeadset;
  }

  /** The gate between the adoption of a value and the endpoint's callback. */
  ghost predicate Adopting(volume: VolumeGating.GateState, value: uint8) {
    && VolumeGating.CanSynchronize(volume) && volume.reducer.sessionActive
    && volume.reducer.generation == volume.aclGeneration && volume.reducer.support == Supported
    && volume.reducer.firstSessionSyncComplete && volume.reducer.lastHeadsetVolumeSent == value
    && (volume.reducer.windowsUpdatePending ==> volume.reducer.pendingHeadsetVolume == value)
  }

  /** The gate's own part of a first report: the reducer may ask for the endpoint, and for that value. */
  lemma ReportReachesReducer(volume: VolumeGating.GateState, value: uint8, event: HeadsetEvent)
    requires VolumeGating.Agrees(volume) && VolumeGating.CanSynchronize(volume)
    requires !volume.reducer.windowsUpdatePending && value <= 127
    ensures var report := VolumeGating.HeadsetVolumeSeen(volume.aclGeneration, value, event);
            Adopting(Adopted(VolumeGating.GateStep(volume, report).0, value), value)
  {
    hide ToHeadsetScale, ToWindowsPercent, Project, FromHeadset;
  }

  lemma AdoptionPrepares(s: MapperState, value: uint8, event: HeadsetEvent)
    requires Lockstep(s) && IsCurrent(s, s.aclGeneration) && AwaitsReport(s) && value <= 127
    requires VolumeGating.Agrees(s.volume) && VolumeGating.CanSynchronize(s.volume)
    requires !s.volume.reducer.windowsUpdatePending
    ensures var adopted := ObserveHeadset(s, s.aclGeneration, value, event).0;
            && Adopting(adopted.volume, value) && IsCurrent(adopted, s.aclGeneration)
            && adopted.volume.aclGeneration == s.aclGeneration && adopted.headsetVolumeSeen
  {
    HeadsetKeepsLockstep(s, s.aclGeneration, value, event);
    ReportReachesReducer(s.volume, value, event);
    hide VolumeGating.GateStep, VolumeGating.Agrees, VolumeGating.CanSynchronize, Adopted, Adopting, FromHeadset;
    hide MergeVolume;
  }

  lemma CallbackRestores(volume: VolumeGating.GateState, value: uint8)
    requires Adopting(volume, value) && value <= 127
    ensures var (next, decision) :=
              VolumeGating.GateStep(volume, VolumeGating.WindowsVolumeSeen(volume.aclGeneration, FromHeadset(value)));
            && VolumeGating.Agrees(next) && VolumeGating.CanSynchronize(next) && !next.reducer.windowsUpdatePending
            && next.lastWindowsVolume == FromHeadset(value) && next.aclGeneration == volume.aclGeneration
            && VolumeGating.Held(value, decision) == Project(FromHeadset(value))
            && !decision.volume.setWindowsEndpoint
  {
    hide Project, FromHeadset, Clamp;
    AskedIsInRange(value);
  }

  lemma AdoptionLeavesGate(s: MapperState, value: uint8, event: HeadsetEvent)
    requires Lockstep(s) && IsCurrent(s, s.aclGeneration) && AwaitsReport(s)
    ensures ObserveHeadset(s, s.aclGeneration, value, event).0.volume ==
            Adopted(VolumeGating.GateStep(
                      s.volume, VolumeGating.HeadsetVolumeSeen(s.volume.aclGeneration, value, event)).0, value)
  {
    hide VolumeGating.GateStep, MergeVolume, FromHeadset;
  }

  /** A report moves neither side of the agreement but the value last sent, which adoption overrules. */
  lemma AdoptedAgreesExactly(volume: VolumeGating.GateState, value: uint8, event: HeadsetEvent)
    requires VolumeGating.Agrees(volume) && VolumeGating.CanSynchronize(volume) && value <= 127
    ensures var report := VolumeGating.HeadsetVolumeSeen(volume.aclGeneration, value, event);
            VolumeGating.Agrees(Adopted(VolumeGating.GateStep(volume, report).0, value)) <==>
            value == Project(volume.lastWindowsVolume)
  {
    hide ToHeadsetScale, ToWindowsPercent, Project, FromHeadset;
  }

  /** Adoption parts gate and reducer exactly if the value is not what the endpoint projects to. */
  lemma AdoptionPartsExactly(s: MapperState, value: uint8, event: HeadsetEvent)
    requires Lockstep(s) && IsCurrent(s, s.aclGeneration) && AwaitsReport(s) && value <= 127
    requires VolumeGating.Agrees(s.volume) && VolumeGating.CanSynchronize(s.volume)
    ensures VolumeGating.Agrees(ObserveHeadset(s, s.aclGeneration, value, event).0.volume) <==>
            value == Project(s.volume.lastWindowsVolume)
  {
    AdoptionLeavesGate(s, value, event);
    AdoptedAgreesExactly(s.volume, value, event);
    hide ObserveHeadset, VolumeGating.GateStep, Adopted, VolumeGating.Agrees, Project;
  }

  /**
   Where adoption parted gate and reducer, the endpoint's faithful callback brings them
   together again; it leaves the loop settled in any case, with headset and endpoint on
   the same value, whichever kind of report came first.
   */
  lemma AdoptionSettles(s: MapperState, value: uint8, event: HeadsetEvent)
    requires Lockstep(s) && IsCurrent(s, s.aclGeneration) && AwaitsReport(s) && value <= 127
    requires VolumeGating.Agrees(s.volume) && VolumeGating.CanSynchronize(s.volume)
    requires !s.volume.reducer.windowsUpdatePending
    ensures var adopted := ObserveHeadset(s, s.aclGeneration, value, event).0;
            var (called, answer) := ObserveWindows(adopted, s.aclGeneration, FromHeadset(value));
            var held := if SendHeadsetVolume in answer.actions then answer.headsetVolume else value;
            && held == Project(FromHeadset(value)) && VolumeGating.Settled(called.volume, held)
            && called.volume.lastWindowsVolume == FromHeadset(value)
  {
    AdoptionPrepares(s, value, event);
    var adopted := ObserveHeadset(s, s.aclGeneration, value, event).0;
    hide ObserveHeadset;
    CallbackRestores(adopted.volume, value);
    CallbackReaches(adopted, FromHeadset(value));
    ScalingIsIdempotent(value);
    hide VolumeGating.GateStep, VolumeGating.Agrees, VolumeGating.CanSynchronize, Adopting;
    hide Lockstep, Project, FromHeadset, ObserveWindows;
  }

  /** Once a preferred headset has spoken, or without preference, the gate's answer to a callback is the mapper's. */
  lemma CallbackReaches(s: MapperState, windows: WindowsVolume)
    requires IsCurrent(s, s.aclGeneration) && (!s.headsetPreferred || s.headsetVolumeSeen)
    ensures var (volume, decision) :=
              VolumeGating.GateStep(s.volume, VolumeGating.WindowsVolumeSeen(s.aclGeneration, windows));
            var (next, actions) := ObserveWindows(s, s.aclGeneration, windows);
            && next.volume == volume
            && (SendHeadsetVolume in actions.actions <==> decision.volume.sendHeadsetVolume)
            && (decision.volume.sendHeadsetVolume ==> actions.headsetVolume == decision.volume.headsetVolume)
  {
    hide VolumeGating.GateStep;
  }

  // -------------------------------------------------- keys and media status

  predicate IsVolumeKey(action: Action) {
    action == StepVolumeUp || action == StepVolumeDown || action == ToggleMute
  }

  /** What a key may do, in terms of what the session offers; it asks for one action at most. */
  lemma KeysNeedEligibility(e: Eligibility, decision: PassThrough.KeyDecision)
    ensures var routed := RouteKey(e, NO_ACTIONS, decision);
            && (forall a, b :: a in routed.actions && b in routed.actions ==> a == b)
            && (!e.sessionPresent && !e.play && !e.pause && !e.next && !e.previous ==>
                  !routed.playbackChanged && forall a :: a in routed.actions ==> IsVolumeKey(a))
            && (routed.playbackChanged && routed.playbackAfter == Playing ==> e.play)
            && (routed.playbackChanged && routed.playbackAfter == Paused ==> e.pause)
            && (MediaStop in routed.actions ==> e.sessionPresent)
            && (MediaNextTrack in routed.actions ==> e.next)
            && (MediaPreviousTrack in routed.actions ==> e.previous)
  {
    hide PassThrough.DecodeOperation;
    match decision.action
    case None =>
    case Some(operation) =>
      match operation
      case Play =>
      case Pause =>
      case _ =>
  }

  /**
   Without a playing or paused session only the volume keys act; with one, a key that
   claims a playback change claims one the session is not in already and has enabled.
   */
  lemma KeysRespectTheSession(snapshot: MediaSnapshot, decision: PassThrough.KeyDecision)
    ensures var routed := RouteKey(Evaluate(snapshot), NO_ACTIONS, decision);
            && (!Evaluate(snapshot).sessionPresent ==> forall a :: a in routed.actions ==> IsVolumeKey(a))
            && (routed.playbackChanged ==> routed.playbackAfter != PlaybackOf(snapshot))
            && (routed.playbackChanged && routed.playbackAfter == Playing ==> snapshot.playEnabled)
            && (routed.playbackChanged && routed.playbackAfter == Paused ==> snapshot.pauseEnabled)
            && (MediaStop in routed.actions ==> PlaybackOf(snapshot) != Stopped)
            && (MediaNextTrack in routed.actions ==> snapshot.nextEnabled)
            && (MediaPreviousTrack in routed.actions ==> snapshot.previousEnabled)
  {
    hide RouteKey;
    KeysNeedEligibility(Evaluate(snapshot), decision);
  }

  /** What the headset was last told is the PC's playback, and telling it twice is avoided. */
  lemma StatusIsToldOnce(s: MapperState, snapshot: MediaSnapshot)
    requires IsCurrent(s, snapshot.aclGeneration) && s.mediaRoutingEnabled && s.ownerLease != 0
    ensures var (next, actions) := SetMediaSession(s, snapshot);
            && next.media.statusValid && next.media.lastStatus == PlaybackOf(snapshot)
            && (NotifyPlaybackStatus in actions.actions ==> actions.playbackAfter == PlaybackOf(snapshot))
            && SetMediaSession(next, snapshot).1.actions == {}
            && SetMediaSession(next, snapshot).0 == next
  {
  }

  /** A lease just taken, or routing just enabled, is told the status anew. */
  lemma NewOwnerIsTold(s: MapperState, lease: uint64, snapshot: MediaSnapshot)
    requires Lockstep(s) && IsCurrent(s, snapshot.aclGeneration) && s.mediaRoutingEnabled
    requires lease != 0 && (s.ownerLease == 0 || s.ownerLease == lease)
    ensures var leased := AcquireLease(s, snapshot.aclGeneration, lease).0;
            leased.ownerLease == lease && NotifyPlaybackStatus in SetMediaSession(leased, snapshot).1.actions
  {
  }

  lemma NewRoutingIsTold(s: MapperState, volumeSync: bool, snapshot: MediaSnapshot)
    requires Lockstep(s) && IsCurrent(s, snapshot.aclGeneration) && !s.mediaRoutingEnabled && s.ownerLease != 0
    ensures var routed := SetMode(s, snapshot.aclGeneration, volumeSync, true).0;
            NotifyPlaybackStatus in SetMediaSession(routed, snapshot).1.actions
  {
  }

  function MapperRun(s: MapperState, calls: seq<MapperCall>): MapperState
    decreases calls
  {
    if calls == [] then s else MapperRun(MapperStep(s, calls[0]).0, calls[1..])
  }

  /** The playback the headset was last told. */
  function Told(actions: ActionSet, told: Option<Playback>): Option<Playback> {
    if NotifyPlaybackStatus in actions.actions then Some(actions.playbackAfter) else told
  }

  function ToldBy(s: MapperState, calls: seq<MapperCall>, told: Option<Playback>): Option<Playback>
    decreases calls
  {
    if calls == [] then told
    else ToldBy(MapperStep(s, calls[0]).0, calls[1..], Told(MapperStep(s, calls[0]).1, told))
  }

  /** What the mapper believes the headset was told is what it was told. */
  ghost predicate KnowsStatus(s: MapperState, told: Option<Playback>) {
    s.media.statusValid ==> told == Some(s.media.lastStatus)
  }

  lemma VolumeCallsTellNothing(s: MapperState, call: MapperCall)
    requires call.Capability? || call.Windows? || call.Headset?
    ensures MapperStep(s, call).0.media == s.media && NotifyPlaybackStatus !in MapperStep(s, call).1.actions
  {
    hide VolumeGating.GateStep, FromHeadset;
  }

  lemma CallKeepsStatus(s: MapperState, call: MapperCall, told: Option<Playback>)
    requires KnowsStatus(s, told)
    ensures KnowsStatus(MapperStep(s, call).0, Told(MapperStep(s, call).1, told))
  {
    if call.Capability? || call.Windows? || call.Headset? {
      VolumeCallsTellNothing(s, call);
      hide MapperStep;
    } else {
      hide VolumeGating.GateStep, ObserveCapability, ObserveWindows, ObserveHeadset, Evaluate;
      hide PassThrough.ObserveKey, PassThrough.DecodeOperation;
    }
  }

  lemma {:induction false} RunKeepsStatus(s: MapperState, calls: seq<MapperCall>, told: Option<Playback>)
    requires KnowsStatus(s, told)
    ensures KnowsStatus(MapperRun(s, calls), ToldBy(s, calls, told))
    decreases calls
  {
    hide MapperStep, KnowsStatus, Told;
    if calls != [] {
      CallKeepsStatus(s, calls[0], told);
      RunKeepsStatus(MapperStep(s, calls[0]).0, calls[1..], Told(MapperStep(s, calls[0]).1, told));
    }
  }

  /**
   After any calls on a new mapper, a session snapshot leaves a routing owner's headset
   told of the PC's playback, whether it had to be told or had been.
   */
  lemma StatusReachesTheHeadset(calls: seq<MapperCall>, snapshot: MediaSnapshot)
    requires var s := MapperRun(RESET_MAPPER, calls);
             IsCurrent(s, snapshot.aclGeneration) && s.mediaRoutingEnabled && s.ownerLease != 0
    ensures var s, told := MapperRun(RESET_MAPPER, calls), ToldBy(RESET_MAPPER, calls, None);
            Told(SetMediaSession(s, snapshot).1, told) == Some(PlaybackOf(snapshot))
  {
    hide MapperRun, ToldBy;
    RunKeepsStatus(RESET_MAPPER, calls, None);
  }

  // ------------------------------------------- what every call answers

  /** The calls a mapper in lockstep takes; the others answer nothing and leave it as it is. */
  predicate Takes(s: MapperState, call: MapperCall) {
    match call
    case Begin(g) => IsNewerGeneration(g, s.aclGeneration) || IsCurrent(s, g)
    case Acquire(g, lease) => IsCurrent(s, g) && lease != 0 && (s.ownerLease == 0 || s.ownerLease == lease)
    case Revoke(g, lease) => IsCurrent(s, g) && lease != 0 && s.ownerLease == lease
    case Session(snapshot) => IsCurrent(s, snapshot.aclGeneration)
    case _ => IsCurrent(s, call.generation)
  }

  /** The generation, the owner and the mode that every answer is labelled with, or was decided by. */
  ghost predicate Labelled(s: MapperState, actions: ActionSet) {
    && actions.aclGeneration == s.aclGeneration != 0
    && (actions.authorizedCurrent <==> s.aclGenerationCurrent && s.ownerLease != 0)
  }

  ghost predicate AnswersFit(s: MapperState, call: MapperCall) {
    var (next, actions) := MapperStep(s, call);
    && (!Takes(s, call) ==> next == s && actions == NO_ACTIONS)
    && (Takes(s, call) ==> Labelled(next, actions))
    && (actions.eventObserved <==> call.Key? && Takes(s, call))
    && (call.Begin? || call.End? || call.Mode? || call.Acquire? || call.Revoke? ==> actions.actions == {})
  }

  /**
   Every call a mapper in lockstep takes answers with the generation it leaves and with
   whether an owner is left to act; only a key reports an event, and only volume calls,
   keys and snapshots ever ask for anything.
   */
  lemma AnswersAreLabelled(s: MapperState, call: MapperCall)
    requires Lockstep(s)
    ensures AnswersFit(s, call)
  {
    hide AnswersFit;
    if call.Headset? {
      HeadsetAnswersFit(s, call);
    } else if call.Capability? || call.Windows? {
      VolumeAnswersFit(s, call);
    } else if call.Key? || call.Session? {
      MediaAnswersFit(s, call);
    } else if call.Begin? {
      BeginAnswersFit(s, call);
    } else if call.Acquire? {
      AcquireAnswersFit(s, call);
    } else {
      ControlAnswersFit(s, call);
    }
  }

  lemma HeadsetAnswersFit(s: MapperState, call: MapperCall)
    requires Lockstep(s) && call.Headset?
    ensures AnswersFit(s, call)
  {
    hide VolumeGating.GateStep, FromHeadset, Adopted;
  }

  lemma VolumeAnswersFit(s: MapperState, call: MapperCall)
    requires Lockstep(s) && (call.Capability? || call.Windows?)
    ensures AnswersFit(s, call)
  {
    hide VolumeGating.GateStep;
  }

  lemma MediaAnswersFit(s: MapperState, call: MapperCall)
    requires Lockstep(s) && (call.Key? || call.Session?)
    ensures AnswersFit(s, call)
  {
    hide VolumeGating.GateStep, Evaluate, PassThrough.DecodeOperation;
  }

  lemma BeginAnswersFit(s: MapperState, call: MapperCall)
    requires Lockstep(s) && call.Begin?
    ensures AnswersFit(s, call)
  {
  }

  lemma AcquireAnswersFit(s: MapperState, call: MapperCall)
    requires Lockstep(s) && call.Acquire?
    ensures AnswersFit(s, call)
  {
  }

  lemma ControlAnswersFit(s: MapperState, call: MapperCall)
    requires Lockstep(s) && (call.End? || call.Mode? || call.Revoke?)
    ensures AnswersFit(s, call)
  {
    hide VolumeGating.GateStep, PassThrough.EndKeys, PassThrough.SetRouteMode, PassThrough.RevokeKeys;
  }

  /** The playback the mapper believes in is the last one a snapshot showed or a key asked for. */
  lemma PlaybackFollows(s: MapperState, call: MapperCall)
    requires Lockstep(s)
    ensures var (next, actions) := MapperStep(s, call);
            next.media.playback ==
            if !Takes(s, call) then s.media.playback
            else if call.Begin? || call.End? then Stopped
            else if call.Session? then PlaybackOf(call.snapshot)
            else if call.Key? && actions.playbackChanged then actions.playbackAfter
            else s.media.playback
  {
    hide Evaluate, MergeVolume, FilterPush, FromHeadset, Adopted, PassThrough.ObserveKey, RouteKey;
  }

  /** The action of each operation code on a session, without mention of the tables in between. */
  function KeyAction(operationId: uint8, session: MediaSnapshot): (actions: set<Action>)
    ensures SetWindowsVolume !in actions
  {
    var playing, paused := session.playback == SessionPlaying, session.playback == SessionPaused;
    if operationId == 0x41 then {StepVolumeUp}
    else if operationId == 0x42 then {StepVolumeDown}
    else if operationId == 0x43 then {ToggleMute}
    else if operationId == 0x44 && playing && session.pauseEnabled then {MediaPlayPause}
    else if operationId == 0x44 && paused && session.playEnabled then {MediaPlay}
    else if operationId == 0x45 && (playing || paused) then {MediaStop}
    else if operationId == 0x46 && paused && session.playEnabled then {MediaPlayPause}
    else if operationId == 0x46 && playing && session.pauseEnabled then {MediaPause}
    else if operationId == 0x4B && (playing || paused) && session.nextEnabled then {MediaNextTrack}
    else if operationId == 0x4C && (playing || paused) && session.previousEnabled then {MediaPreviousTrack}
    else {}
  }

  /** A press of any code, with no key held, does to the session last shown what the code says; a release nothing. */
  lemma CodesLeadToActions(s: MapperState, session: MediaSnapshot, operationId: uint8, released: bool)
    requires Lockstep(s) && IsCurrent(s, session.aclGeneration) && s.mediaRoutingEnabled && s.ownerLease != 0
    requires s.keys.heldOperation == None
    ensures var shown := SetMediaSession(s, session).0;
            ObserveKey(shown, session.aclGeneration, operationId, released).1.actions ==
            if released then {} else KeyAction(operationId, session)
  {
    hide VolumeGating.GateStep;
    var shown := SetMediaSession(s, session).0;
    assert shown.keys == s.keys && shown.media.eligibility == Evaluate(session);
    var event := PassThrough.KeyEvent(PassThrough.DecodeOperation(operationId), released);
    PassThrough.KeysAreHeldExactly(s.keys, session.aclGeneration, event);
    var decision := PassThrough.ObserveKey(s.keys, session.aclGeneration, event).1;
    assert Decides(decision, operationId, released);
    OperationsRoute(session, Snapshot(shown), decision, operationId, released);
    hide PassThrough.ObserveKey, RouteKey, Evaluate, KeyAction, PassThrough.DecodeOperation, SetMediaSession;
  }

  /** Such a press is authorized, and asks nothing of the endpoint's own volume. */
  lemma ShownKeyActs(s: MapperState, session: MediaSnapshot, operationId: uint8, released: bool)
    requires Lockstep(s) && IsCurrent(s, session.aclGeneration) && s.mediaRoutingEnabled && s.ownerLease != 0
    requires s.keys.heldOperation == None
    ensures var shown := SetMediaSession(s, session).0;
            var actions := ObserveKey(shown, session.aclGeneration, operationId, released).1;
            && IsCurrent(shown, session.aclGeneration)
            && actions.actions == (if released then {} else KeyAction(operationId, session))
            && actions.authorizedCurrent && SetWindowsVolume !in actions.actions
  {
    hide PassThrough.ObserveKey, PassThrough.DecodeOperation, RouteKey, Evaluate, KeyAction;
    CodesLeadToActions(s, session, operationId, released);
    SnapshotKeepsLockstep(s, session);
    var shown := SetMediaSession(s, session).0;
    var key := Key(session.aclGeneration, operationId, released);
    assert IsCurrent(shown, session.aclGeneration) && shown.ownerLease != 0;
    hide SetMediaSession, Lockstep;
    AnswersAreLabelled(shown, key);
    KeysLeaveTheOwner(shown, key);
    hide ObserveKey;
  }

  lemma KeysLeaveTheOwner(s: MapperState, call: MapperCall)
    requires call.Key?
    ensures var (next, actions) := MapperStep(s, call);
            && next.ownerLease == s.ownerLease && next.aclGenerationCurrent == s.aclGenerationCurrent
            && (next, actions) == ObserveKey(s, call.generation, call.operationId, call.released)
  {
    hide PassThrough.ObserveKey, PassThrough.DecodeOperation, RouteKey;
  }

  ghost predicate Decides(decision: PassThrough.KeyDecision, operationId: uint8, released: bool) {
    var operation := PassThrough.DecodeOperation(operationId);
    decision.action == if released || operation == PassThrough.UnknownOperation then None else Some(operation)
  }

  lemma OperationsRoute(session: MediaSnapshot, actions: ActionSet, decision: PassThrough.KeyDecision,
                        operationId: uint8, released: bool)
    requires actions.actions == {} && session.aclGeneration != 0 && Decides(decision, operationId, released)
    ensures RouteKey(Evaluate(session), actions, decision).actions ==
            if released then {} else KeyAction(operationId, session)
  {
    hide RouteKey, Evaluate, KeyAction;
    if operationId == 0x44 || operationId == 0x46 {
      PlayAndPauseRoute(session, actions, decision, operationId, released);
    } else if operationId == 0x45 || operationId == 0x4B || operationId == 0x4C {
      StopAndTracksRoute(session, actions, decision, operationId, released);
    } else {
      OtherCodesRoute(session, actions, decision, operationId, released);
    }
  }

  lemma PlayAndPauseRoute(session: MediaSnapshot, actions: ActionSet, decision: PassThrough.KeyDecision,
                          operationId: uint8, released: bool)
    requires actions.actions == {} && session.aclGeneration != 0 && Decides(decision, operationId, released)
    requires operationId == 0x44 || operationId == 0x46
    ensures RouteKey(Evaluate(session), actions, decision).actions ==
            if released then {} else KeyAction(operationId, session)
  {
  }

  lemma StopAndTracksRoute(session: MediaSnapshot, actions: ActionSet, decision: PassThrough.KeyDecision,
                           operationId: uint8, released: bool)
    requires actions.actions == {} && session.aclGeneration != 0 && Decides(decision, operationId, released)
    requires operationId == 0x45 || operationId == 0x4B || operationId == 0x4C
    ensures RouteKey(Evaluate(session), actions, decision).actions ==
            if released then {} else KeyAction(operationId, session)
  {
  }

  lemma OtherCodesRoute(session: MediaSnapshot, actions: ActionSet, decision: PassThrough.KeyDecision,
                        operationId: uint8, released: bool)
    requires actions.actions == {} && Decides(decision, operationId, released)
    requires operationId !in [0x44, 0x45, 0x46, 0x4B, 0x4C]
    ensures RouteKey(Evaluate(session), actions, decision).actions ==
            if released then {} else KeyAction(operationId, session)
  {
  }

  // ---------------------------------------------------- the mapper in place

  class ControlMapper {
    var aclGeneration: uint64
    var aclGenerationCurrent: bool
    var ownerLease: uint64
    var volumeSyncEnabled: bool
    var mediaRoutingEnabled: bool
    var headsetPreferred: bool
    var headsetVolumeSeen: bool
    var media: MediaStatus
    const keys: PassThrough.KeyGate
    const volume: VolumeGating.VolumeGate

    /** The mapper, its two gates and the reducer inside one of them. */
    function Parts(): set<object> {
      {this, keys, volume, volume.reducer}
    }

    function View(): MapperState
      reads Parts()
    {
      MapperState(aclGeneration, aclGenerationCurrent, ownerLease, volumeSyncEnabled, mediaRoutingEnabled,
                  headsetPreferred, headsetVolumeSeen, media, keys.View(), volume.View())
    }

    /** For callers that keep the view closed. */
    lemma ShowsGeneration()
      ensures View().aclGeneration == aclGeneration && View().aclGenerationCurrent == aclGenerationCurrent
    {
    }

    constructor ()
      ensures View() == RESET_MAPPER && fresh(Parts())
    {
      keys := new PassThrough.KeyGate();
      volume := new VolumeGating.VolumeGate();
      aclGeneration, aclGenerationCurrent, ownerLease := 0, false, 0;
      volumeSyncEnabled, mediaRoutingEnabled := false, false;
      headsetPreferred, headsetVolumeSeen, media := false, false, NO_MEDIA;
    }

    /** The assignments that beginning and ending a generation share. */
    method ForgetSession()
      modifies this
      ensures View() == SessionForgotten(old(View()))
    {
      hide PassThrough.KeyGate.View, VolumeGating.VolumeGate.View;
      ownerLease := 0;
      volumeSyncEnabled := false;
      mediaRoutingEnabled := false;
      headsetVolumeSeen := false;
      media := NO_MEDIA;
    }

    method BeginAclGeneration(g: uint64) returns (actions: ActionSet)
      modifies Parts()
      ensures (View(), actions) == BeginGeneration(old(View()), g)
    {
      GatesShowThemselves();
      hide PassThrough.KeyGate.View, VolumeGating.VolumeGate.View, PassThrough.BeginKeys, VolumeGating.GateStep;
      var _ := keys.BeginAclGeneration(g);
      var _ := volume.BeginAclGeneration(g);
      GatesShowThemselves();
      if keys.aclGeneration != g || !keys.aclGenerationCurrent ||
         volume.aclGeneration != g || !volume.aclGenerationCurrent {
        return NO_ACTIONS;
      }
      aclGeneration := g;
      aclGenerationCurrent := true;
      ForgetSession();
      actions := Snapshot(View());
    }

    /** What the mapper reads of its gates directly is what their views show. */
    lemma GatesShowThemselves()
      ensures keys.View().aclGeneration == keys.aclGeneration && volume.View().aclGeneration == volume.aclGeneration
      ensures keys.View().aclGenerationCurrent == keys.aclGenerationCurrent
      ensures volume.View().aclGenerationCurrent == volume.aclGenerationCurrent
      ensures keys.View().ownerLease == keys.ownerLease && volume.View().ownerLease == volume.ownerLease
    {
    }

    method EndAclGeneration(g: uint64) returns (actions: ActionSet)
      modifies Parts()
      ensures (View(), actions) == EndGeneration(old(View()), g)
    {
      hide PassThrough.KeyGate.View, VolumeGating.VolumeGate.View, PassThrough.EndKeys, VolumeGating.GateStep;
      if !IsCurrent(View(), g) {
        return NO_ACTIONS;
      }
      var _ := keys.EndAclGeneration(g);
      var _ := volume.EndAclGeneration(g);
      aclGenerationCurrent := false;
      ForgetSession();
      actions := Snapshot(View());
    }

    method SetControlMode(g: uint64, volumeSync: bool, mediaRouting: bool) returns (actions: ActionSet)
      modifies Parts()
      ensures (View(), actions) == SetMode(old(View()), g, volumeSync, mediaRouting)
    {
      hide PassThrough.KeyGate.View, VolumeGating.VolumeGate.View, PassThrough.SetRouteMode, VolumeGating.GateStep;
      if !IsCurrent(View(), g) {
        return NO_ACTIONS;
      }
      var enablingMediaRouting := !mediaRoutingEnabled && mediaRouting;
      var _ := keys.SetGateMode(g, if mediaRouting then PassThrough.RouteToMediaSession else PassThrough.ObserveKeys);
      var _ := volume.SetGateMode(g, if volumeSync then VolumeGating.Synchronize else VolumeGating.ObserveOnly);
      volumeSyncEnabled := volumeSync;
      mediaRoutingEnabled := mediaRouting;
      if enablingMediaRouting {
        media := media.(statusSyncRequired := true);
      }
      actions := Snapshot(View());
    }

    method AcquireOwnerLease(g: uint64, lease: uint64) returns (actions: ActionSet)
      modifies Parts()
      ensures (View(), actions) == AcquireLease(old(View()), g, lease)
    {
      hide PassThrough.KeyGate.View, VolumeGating.VolumeGate.View, PassThrough.AcquireKeys, VolumeGating.GateStep;
      if !IsCurrent(View(), g) || lease == 0 {
        return NO_ACTIONS;
      }
      var _ := keys.AcquireOwnerLease(g, lease);
      var _ := volume.AcquireOwnerLease(g, lease);
      GatesShowThemselves();
      if keys.ownerLease != lease || volume.ownerLease != lease {
        return NO_ACTIONS;
      }
      ownerLease := lease;
      media := media.(statusSyncRequired := true);
      actions := Snapshot(View());
    }

    method RevokeOwnerLease(g: uint64, lease: uint64) returns (actions: ActionSet)
      modifies Parts()
      ensures (View(), actions) == RevokeLease(old(View()), g, lease)
    {
      hide PassThrough.KeyGate.View, VolumeGating.VolumeGate.View, PassThrough.RevokeKeys, VolumeGating.GateStep;
      if !IsCurrent(View(), g) || lease == 0 || ownerLease != lease {
        return NO_ACTIONS;
      }
      var _ := keys.RevokeOwnerLease(g, lease);
      var _ := volume.RevokeOwnerLease(g, lease);
      ownerLease := 0;
      actions := Snapshot(View());
    }

    method SetMediaSessionSnapshot(snapshot: MediaSnapshot) returns (actions: ActionSet)
      modifies this`media
      ensures (View(), actions) == SetMediaSession(old(View()), snapshot)
    {
      hide PassThrough.KeyGate.View, VolumeGating.VolumeGate.View;
      if !IsCurrent(View(), snapshot.aclGeneration) {
        return NO_ACTIONS;
      }
      var nextPlayback := PlaybackOf(snapshot);
      var pcPlaybackChanged := !media.pcPlaybackValid || media.pcPlayback != nextPlayback;
      media := media.(eligibility := Evaluate(snapshot), pcPlayback := nextPlayback, pcPlaybackValid := true,
                      playback := nextPlayback);
      actions := Snapshot(View());
      if mediaRoutingEnabled && ownerLease != 0 &&
         (media.statusSyncRequired || pcPlaybackChanged || !media.statusValid || media.lastStatus != nextPlayback) {
        actions := actions.(actions := {NotifyPlaybackStatus}, playbackAfter := nextPlayback, playbackChanged := true);
        media := media.(lastStatus := nextPlayback, statusValid := true, statusSyncRequired := false);
      }
    }

    method ObserveVolumeCapability(g: uint64, supported: bool) returns (actions: ActionSet)
      modifies Parts()
      ensures (View(), actions) == ObserveCapability(old(View()), g, supported)
    {
      hide PassThrough.KeyGate.View, VolumeGating.VolumeGate.View, VolumeGating.GateStep, MergeVolume, FilterPush;
      if !IsCurrent(View(), g) {
        return NO_ACTIONS;
      }
      var decision := volume.ObserveCapability(g, if supported then Supported else Unsupported);
      actions := FilterPush(View(), MergeVolume(Snapshot(View()), decision));
    }

    method ObserveWindowsVolume(g: uint64, windows: WindowsVolume) returns (actions: ActionSet)
      modifies Parts()
      ensures (View(), actions) == ObserveWindows(old(View()), g, windows)
    {
      hide PassThrough.KeyGate.View, VolumeGating.VolumeGate.View, VolumeGating.GateStep, MergeVolume, FilterPush;
      if !IsCurrent(View(), g) {
        return NO_ACTIONS;
      }
      var decision := volume.ObserveWindowsVolume(g, windows);
      actions := FilterPush(View(), MergeVolume(Snapshot(View()), decision));
    }

    /** The mapper reaches into its gate's reducer to make the reported value the one last sent. */
    method AdoptVolume(value: uint8)
      modifies volume.reducer
      ensures volume.View() == Adopted(old(volume.View()), value)
    {
      volume.reducer.lastHeadsetVolumeSent := value % 0x80;
      volume.reducer.outboundEchoPending := false;
    }

    method ObserveHeadsetVolume(g: uint64, value: uint8, event: HeadsetEvent) returns (actions: ActionSet)
      modifies Parts()
      ensures (View(), actions) == ObserveHeadset(old(View()), g, value, event)
    {
      hide PassThrough.KeyGate.View, VolumeGating.GateStep, MergeVolume, ToWindowsPercent;
      if !IsCurrent(View(), g) {
        return NO_ACTIONS;
      }
      var decision := volume.ObserveHeadsetVolume(g, value, event);
      actions := MergeVolume(Snapshot(View()), decision);
      if headsetPreferred && !headsetVolumeSeen {
        headsetVolumeSeen := true;
        actions := FilterPush(View(), actions);
        AdoptVolume(value);
        if ownerLease != 0 && volume.mode == VolumeGating.Synchronize && SetWindowsVolume !in actions.actions {
          var percent := ToWindowsPercent(value);
          var muted := value == 0;
          var matchesLast := volume.windowsVolumeObserved &&
                             volume.lastWindowsVolume.percent == percent && volume.lastWindowsVolume.muted == muted;
          if !matchesLast {
            actions := actions.(actions := actions.actions + {SetWindowsVolume},
                                windowsVolume := WindowsVolume(percent, muted));
          }
        }
      }
    }

    method ObservePassThrough(g: uint64, operationId: uint8, released: bool) returns (actions: ActionSet)
      modifies this`media, keys
      ensures (View(), actions) == ObserveKey(old(View()), g, operationId, released)
    {
      hide PassThrough.KeyGate.View, VolumeGating.VolumeGate.View, PassThrough.ObserveKey, PassThrough.DecodeOperation;
      hide RouteKey;
      if !IsCurrent(View(), g) {
        return NO_ACTIONS;
      }
      var decision := keys.ObserveEvent(g, PassThrough.KeyEvent(PassThrough.DecodeOperation(operationId), released));
      actions := RouteKey(media.eligibility, Snapshot(View()), decision);
      if actions.playbackChanged {
        media := media.(playback := actions.playbackAfter);
      }
    }
  }
}
