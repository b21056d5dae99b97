/**
 The closed volume loop through mapper, executor and sink: what holds of the gate in
 every event stream, and what one volume event costs
 (agent/v1_avrcp_action_mapper.cpp, agent/v1_avrcp_action_executor.cpp).
 */
module VolumeLoop {
  import opened Words
  import opened AbsoluteVolume
  import opened ActionMapping
  import opened ActionExecution
  import PassThrough
  import VolumeGating

  // ------------------------------------------------- agreement over streams

  /**
   Gate and reducer agree unless a preferred headset has spoken in this generation, and
   while it is silent nothing is pending and nothing has been heard.
   */
  ghost predicate Attuned(s: MapperState) {
    && s.volume.lastWindowsVolume.percent <= 100
    && (!(s.headsetPreferred && s.headsetVolumeSeen) ==> VolumeGating.Agrees(s.volume))
    && (s.headsetPreferred && !s.headsetVolumeSeen ==> VolumeGating.Unheard(s.volume))
  }

  /** The gate between the begin of a generation and its first headset report. */
  ghost predicate Calm(volume: VolumeGating.GateState) {
    VolumeGating.Agrees(volume) && VolumeGating.Unheard(volume)
  }

  lemma CallKeepsCalm(volume: VolumeGating.GateState, op: VolumeGating.GateOp)
    requires Calm(volume) && !op.HeadsetVolumeSeen?
    ensures Calm(VolumeGating.GateStep(volume, op).0)
  {
    hide VolumeGating.GateStep, VolumeGating.Agrees, VolumeGating.Unheard;
    VolumeGating.StepKeepsAgreement(volume, op);
    VolumeGating.StaysUnheard(volume, op);
  }

  lemma CallKeepsAttuned(s: MapperState, op: VolumeGating.GateOp)
    requires Attuned(s) && !op.HeadsetVolumeSeen?
    ensures Attuned(s.(volume := VolumeGating.GateStep(s.volume, op).0))
  {
    hide VolumeGating.GateStep, VolumeGating.Agrees, VolumeGating.Unheard;
    VolumeGating.StepKeepsRange(s.volume, op);
    if !(s.headsetPreferred && s.headsetVolumeSeen) {
      VolumeGating.StepKeepsAgreement(s.volume, op);
    }
    if s.headsetPreferred && !s.headsetVolumeSeen {
      VolumeGating.StaysUnheard(s.volume, op);
    }
  }

  lemma WindowsKeepsAttuned(s: MapperState, g: uint64, windows: WindowsVolume)
    requires Attuned(s)
    ensures Attuned(ObserveWindows(s, g, windows).0)
  {
    hide VolumeGating.GateStep, VolumeGating.Agrees, VolumeGating.Unheard;
    CallKeepsAttuned(s, VolumeGating.WindowsVolumeSeen(g, windows));
  }

  lemma CapabilityKeepsAttuned(s: MapperState, g: uint64, supported: bool)
    requires Attuned(s)
    ensures Attuned(ObserveCapability(s, g, supported).0)
  {
    hide VolumeGating.GateStep, VolumeGating.Agrees, VolumeGating.Unheard;
    CallKeepsAttuned(s, VolumeGating.Capability(g, if supported then Supported else Unsupported));
  }

  lemma HeadsetKeepsAttuned(s: MapperState, g: uint64, value: uint8, event: HeadsetEvent)
    requires Attuned(s)
    ensures Attuned(ObserveHeadset(s, g, value, event).0)
  {
    hide VolumeGating.GateStep, VolumeGating.Agrees, VolumeGating.Unheard, MergeVolume, FromHeadset;
    VolumeGating.StepKeepsRange(s.volume, VolumeGating.HeadsetVolumeSeen(g, value, event));
    if !s.headsetPreferred {
      VolumeGating.StepKeepsAgreement(s.volume, VolumeGating.HeadsetVolumeSeen(g, value, event));
    }
  }

  lemma KeyKeepsAttuned(s: MapperState, g: uint64, operationId: uint8, released: bool)
    requires Attuned(s)
    ensures Attuned(ObserveKey(s, g, operationId, released).0)
  {
    hide VolumeGating.Agrees, VolumeGating.Unheard, RouteKey;
  }

  /** The end of a generation resets the reducer, so the agreement holds again. */
  lemma EndAttunes(s: MapperState, g: uint64)
    requires Lockstep(s) && Attuned(s)
    ensures Attuned(EndGeneration(s, g).0)
  {
  }

  lemma BeginCalms(s: MapperState, g: uint64)
    requires Lockstep(s) && !s.aclGenerationCurrent && IsNewerGeneration(g, s.aclGeneration)
    ensures Calm(BeginGeneration(s, g).0.volume)
  {
  }

  lemma SetUpStaysCalm(s: MapperState, g: uint64, options: Options)
    requires Calm(s.volume)
    ensures Calm(SetUp(s, g, options).0.volume)
  {
    hide VolumeGating.GateStep, Calm;
    var mode := if options.volumeSync then VolumeGating.Synchronize else VolumeGating.ObserveOnly;
    CallKeepsCalm(s.volume, VolumeGating.SetMode(g, mode));
    var moded := SetMode(s, g, options.volumeSync, options.mediaRouting).0;
    CallKeepsCalm(moded.volume, VolumeGating.Acquire(g, options.ownerLease));
    var configured := Configured(s, g, options);
    CallKeepsCalm(configured.volume, VolumeGating.WindowsVolumeSeen(g, options.initialWindowsVolume));
  }

  lemma CalmIsAttuned(s: MapperState)
    requires Calm(s.volume)
    ensures Attuned(s)
  {
  }

  lemma DispatchKeepsAttuned(script: Script, w: World, actions: ActionSet)
    requires Attuned(w.mapper)
    ensures Attuned(Dispatch(script, w, actions).mapper)
    decreases if SetWindowsVolume in actions.actions then 1 else 0
  {
    hide Attuned, ObserveWindows;
    if actions.actions != {} && actions.authorizedCurrent {
      var (told, readback) := Offered(script, w, actions);
      if readback.Some? {
        WindowsNeverWritesWindows(w.mapper, w.mapper.aclGeneration, readback.value);
        WindowsKeepsAttuned(w.mapper, w.mapper.aclGeneration, readback.value);
        var (mapper, feedback) := ObserveWindows(w.mapper, w.mapper.aclGeneration, readback.value);
        DispatchKeepsAttuned(script, told.(mapper := mapper), feedback);
      }
    }
  }

  lemma ObserveKeepsAttuned(s: MapperState, event: ObservedEvent)
    requires Attuned(s)
    ensures Attuned(Observe(s, event).0)
  {
    hide Attuned, ObserveCapability, ObserveHeadset, ObserveKey;
    match event.kind
    case VolumeCapability => CapabilityKeepsAttuned(s, event.generation, event.value != 0);
    case AbsoluteVolumeReport => HeadsetKeepsAttuned(s, event.generation, event.value % 0x80, event.volumeEvent);
    case PassThroughKey => KeyKeepsAttuned(s, event.generation, event.value % 0x80, IsReleased(event.flags));
    case SetAbsoluteVolumeCommand =>
      HeadsetKeepsAttuned(s, event.generation, event.value % 0x80, RemoteNotification);
    case _ =>
  }

  lemma StartKeepsAttuned(script: Script, w: World, g: uint64, options: Options)
    requires Lockstep(w.mapper) && Attuned(w.mapper)
    ensures Attuned(FeedStart(script, w, g, options).0.mapper)
  {
    if !w.mapper.aclGenerationCurrent && IsNewerGeneration(g, w.mapper.aclGeneration) {
      BeginAgainstEnded(w.mapper, g);
      BeginCalms(w.mapper, g);
      var begun := BeginGeneration(w.mapper, g).0;
      SetUpStaysCalm(begun, g, options);
      var (ready, media) := SetUp(begun, g, options);
      CalmIsAttuned(ready);
      DispatchKeepsAttuned(script, w.(mapper := ready), media);
      hide BeginGeneration, SetUp, Dispatch, Attuned, Calm, Lockstep;
    } else if !w.mapper.aclGenerationCurrent {
      BeginAgainstEnded(w.mapper, g);
      hide BeginGeneration, SetUp, Dispatch, Attuned, Lockstep;
    }
  }

  lemma FeedKeepsAttuned(script: Script, w: World, event: ObservedEvent, options: Options)
    requires Lockstep(w.mapper) && Attuned(w.mapper)
    ensures Attuned(Feed(script, w, event, options).0.mapper)
  {
    hide Attuned, Lockstep, FeedStart, Observe, Dispatch, EndGeneration;
    if event.kind == GenerationStarted {
      StartKeepsAttuned(script, w, event.generation, options);
    } else if event.kind == GenerationEnded {
      EndAttunes(w.mapper, event.generation);
    } else {
      ObserveKeepsAttuned(w.mapper, event);
      var (mapper, actions) := Observe(w.mapper, event);
      DispatchKeepsAttuned(script, Recognized(w.(mapper := mapper)), actions);
    }
  }

  lemma {:induction false} StreamKeepsAttuned(script: Script, w: World, calls: seq<Call>)
    requires Lockstep(w.mapper) && Attuned(w.mapper)
    ensures Attuned(FeedAll(script, w, calls).mapper)
    decreases calls
  {
    hide Feed, Lockstep, Attuned;
    if calls != [] {
      FeedKeepsLockstep(script, w, calls[0].event, calls[0].options);
      FeedKeepsAttuned(script, w, calls[0].event, calls[0].options);
      StreamKeepsAttuned(script, Feed(script, w, calls[0].event, calls[0].options).0, calls[1..]);
    }
  }

  /**
   In every event stream, with every sink: gate and reducer agree unless a preferred
   headset has spoken, and while it is silent nothing is pending and nothing was heard.
   */
  lemma EveryStreamIsAttuned(script: Script, calls: seq<Call>)
    ensures Attuned(FeedAll(script, NEW_EXECUTION, calls).mapper)
  {
    StreamKeepsAttuned(script, NEW_EXECUTION, calls);
  }

  // ----------------------------------------- the first report in a stream

  /**
   The first report of a preferred headset after any stream: the endpoint is told its
   value exactly if it is not there already, or a synchronised gate is notified of a value
   that the scaling loses; adoption then parts gate and reducer exactly if the value is not
   the endpoint's projection; and the faithful callback settles the loop.
   */
  lemma FirstReportInAStream(script: Script, calls: seq<Call>, value: uint8, event: HeadsetEvent)
    requires value <= 127
    requires var s := FeedAll(script, NEW_EXECUTION, calls).mapper;
             IsCurrent(s, s.aclGeneration) && AwaitsReport(s)
    ensures var s := FeedAll(script, NEW_EXECUTION, calls).mapper;
            var (adopted, actions) := ObserveHeadset(s, s.aclGeneration, value, event);
            && (SetWindowsVolume in actions.actions <==>
                  || !EndpointIsThere(s, value)
                  || (&& VolumeGating.CanSynchronize(s.volume) && event != CommandResponse
                      && !SurvivesScaling(value)))
            && (VolumeGating.CanSynchronize(s.volume) ==>
                  && (VolumeGating.Agrees(adopted.volume) <==> value == Project(s.volume.lastWindowsVolume))
                  && var (called, answer) := ObserveWindows(adopted, s.aclGeneration, FromHeadset(value));
                     var held := if SendHeadsetVolume in answer.actions then answer.headsetVolume else value;
                     held == Project(FromHeadset(value)) && VolumeGating.Settled(called.volume, held))
  {
    var s := FeedAll(script, NEW_EXECUTION, calls).mapper;
    MapperAndGatesInLockstep(script, calls);
    EveryStreamIsAttuned(script, calls);
    hide FeedAll, ObserveHeadset, ObserveWindows, Lockstep, VolumeGating.Agrees, VolumeGating.CanSynchronize;
    hide Project, FromHeadset, SurvivesScaling, EndpointIsThere, VolumeGating.Settled;
    FirstReportWritesExactly(s, value, event);
    if VolumeGating.CanSynchronize(s.volume) {
      AdoptionPartsExactly(s, value, event);
      AdoptionSettles(s, value, event);
    }
  }

  // ------------------------------------------- and adoption does part them

  /** One generation that synchronises volumes for a preferred headset, the endpoint at half. */
  const PREFERRING := Options(1, true, false, true, WindowsVolume(50, false),
                              MediaSnapshot(0, NoSession, false, false, false, false))

  const STARTED := ObservedEvent(GenerationStarted, 1, 0, 0, RemoteNotification)
  const CAPABLE := ObservedEvent(VolumeCapability, 1, 0, 1, RemoteNotification)

  /** The volume gate after the start: everything but a supported headset. */
  const HALF_GATE := VolumeGating.READY_GATE.(
    observedSupport := Unknown, windowsVolumeObserved := true, lastWindowsVolume := WindowsVolume(50, false))

  lemma StartGate()
    ensures var begun := BeginGeneration(RESET_MAPPER, 1).0;
            var (ready, media) := SetUp(begun, 1, PREFERRING);
            && ready.volume == HALF_GATE && IsCurrent(ready, 1) && AwaitsReport(ready) && media.actions == {}
            && BeginGeneration(RESET_MAPPER, 1).1.aclGeneration == 1
  {
    var begun := BeginGeneration(RESET_MAPPER, 1).0;
    assert begun.volume == VolumeGating.RESET_GATE.(aclGeneration := 1, aclGenerationCurrent := true,
                                                    authorizationEpoch := 1);
    assert IsCurrent(begun, 1) && !begun.mediaRoutingEnabled && begun.keys.ownerLease == 0;
    var moded := SetMode(begun, 1, true, false).0;
    assert moded.volume == begun.volume.(mode := VolumeGating.Synchronize);
    LeaseTaken(moded);
  }

  lemma LeaseTaken(moded: MapperState)
    requires IsCurrent(moded, 1) && moded.volumeSyncEnabled && !moded.mediaRoutingEnabled
    requires moded.volume == VolumeGating.RESET_GATE.(aclGeneration := 1, aclGenerationCurrent := true,
                                                      authorizationEpoch := 1, mode := VolumeGating.Synchronize)
    requires PassThrough.IsCurrentKeyGeneration(moded.keys, 1) && moded.keys.ownerLease == 0
    ensures var leased := AcquireLease(moded, 1, 1).0;
            && leased.volume == VolumeGating.READY_GATE.(observedSupport := Unknown)
            && leased.ownerLease == 1 && IsCurrent(leased, 1) && leased.volumeSyncEnabled
            && !leased.mediaRoutingEnabled
  {
  }

  /** A supported headset activates the gate; the push is held back. */
  lemma CapabilityActivates(s: MapperState)
    requires IsCurrent(s, 1) && AwaitsReport(s) && s.volume == HALF_GATE
    ensures var (ready, actions) := ObserveCapability(s, 1, true);
            && actions.actions == {} && IsCurrent(ready, 1) && AwaitsReport(ready)
            && VolumeGating.CanSynchronize(ready.volume)
            && ready.volume.lastWindowsVolume == WindowsVolume(50, false)
  {
    hide Project;
  }

  lemma TwoCalls(script: Script, w: World, first: Call, second: Call)
    ensures var after := Feed(script, w, first.event, first.options).0;
            FeedAll(script, w, [first, second]) == Feed(script, after, second.event, second.options).0
  {
    hide Feed;
    var calls := [first, second];
    var after := Feed(script, w, first.event, first.options).0;
    assert calls[1..] == [second] && [second][1..] == [];
    assert FeedAll(script, after, [second]) == Feed(script, after, second.event, second.options).0;
  }

  lemma StartedMapper(script: Script)
    ensures Feed(script, NEW_EXECUTION, STARTED, PREFERRING).0.mapper ==
            SetUp(BeginGeneration(RESET_MAPPER, 1).0, 1, PREFERRING).0
  {
    StartGate();
    var (ready, media) := SetUp(BeginGeneration(RESET_MAPPER, 1).0, 1, PREFERRING);
    assert BeginGeneration(NEW_EXECUTION.mapper, 1).1.aclGeneration == 1;
    hide SetUp, BeginGeneration, Dispatch;
    SilentDispatch(script, NEW_EXECUTION.(mapper := ready), media);
    assert FeedStart(script, NEW_EXECUTION, 1, PREFERRING).0.mapper == ready;
    hide FeedStart;
    assert STARTED.kind == GenerationStarted && STARTED.generation == 1;
    assert Feed(script, NEW_EXECUTION, STARTED, PREFERRING) == FeedStart(script, NEW_EXECUTION, 1, PREFERRING);
  }

  lemma CapableMapper(script: Script, w: World)
    requires IsCurrent(w.mapper, 1) && ObserveCapability(w.mapper, 1, true).1.actions == {}
    ensures Feed(script, w, CAPABLE, PREFERRING).0.mapper == ObserveCapability(w.mapper, 1, true).0
  {
    hide ObserveCapability;
  }

  /** After two events of a stream, with any sink, the first report of 127 parts gate and reducer. */
  lemma AdoptionPartsInAStream(script: Script) returns (calls: seq<Call>)
    ensures var s := FeedAll(script, NEW_EXECUTION, calls).mapper;
            && IsCurrent(s, s.aclGeneration) && AwaitsReport(s) && VolumeGating.CanSynchronize(s.volume)
            && VolumeGating.Agrees(s.volume)
            && !VolumeGating.Agrees(ObserveHeadset(s, s.aclGeneration, 127, RemoteNotification).0.volume)
  {
    assert Project(WindowsVolume(50, false)) == 64;
    hide SetUp, BeginGeneration, ObserveCapability, Project, Feed, FeedAll, ObserveHeadset;
    calls := [Call(STARTED, PREFERRING), Call(CAPABLE, PREFERRING)];
    StartGate();
    StartedMapper(script);
    var first := Feed(script, NEW_EXECUTION, STARTED, PREFERRING).0;
    CapabilityActivates(first.mapper);
    CapableMapper(script, first);
    TwoCalls(script, NEW_EXECUTION, calls[0], calls[1]);
    MapperAndGatesInLockstep(script, calls);
    EveryStreamIsAttuned(script, calls);
    var s := FeedAll(script, NEW_EXECUTION, calls).mapper;
    AdoptionPartsExactly(s, 127, RemoteNotification);
  }

  // ----------------------------------------------- the PC's volume is pushed

  /** A change of the endpoint that is news to the headset is pushed to it as it is, and nothing else is. */
  lemma EndpointChangeIsPushed(s: MapperState, windows: WindowsVolume)
    requires Synchronised(s) && !(s.headsetPreferred && !s.headsetVolumeSeen)
    ensures var actions := ObserveWindows(s, s.aclGeneration, windows).1;
            && (SendHeadsetVolume in actions.actions <==>
                  Project(Clamp(windows)) != Project(s.volume.lastWindowsVolume))
            && (SendHeadsetVolume in actions.actions ==>
                  actions.authorizedCurrent && actions.headsetVolume == Project(Clamp(windows)))
  {
    assert s.volume.aclGeneration == s.aclGeneration;
    SynchronisedOwns(s);
    VolumeGating.WindowsSendsExactly(s.volume, windows);
    CallbackReaches(s, windows);
    CallbackShape(s, windows);
    hide ObserveWindows, VolumeGating.GateStep, Project, Clamp, Lockstep;
  }

  /** Support, the last thing missing, has the endpoint's volume pushed, unless the headset is preferred and silent. */
  lemma CapabilityPushes(s: MapperState)
    requires Lockstep(s) && IsCurrent(s, s.aclGeneration) && s.ownerLease != 0 && s.volumeSyncEnabled
    requires s.volume.windowsVolumeObserved && s.volume.observedSupport != Supported
    requires VolumeGating.Agrees(s.volume)
    ensures var actions := ObserveCapability(s, s.aclGeneration, true).1;
            var silent := s.headsetPreferred && !s.headsetVolumeSeen;
            && actions.actions == (if silent then {} else {SendHeadsetVolume})
            && (!silent ==> actions.headsetVolume == Project(s.volume.lastWindowsVolume))
  {
    hide Project;
  }

  // ------------------------------------- one volume event and a faithful sink

  /** A volume event that notifies; a command response is none. */
  predicate Notifies(event: ObservedEvent) {
    event.kind == SetAbsoluteVolumeCommand ||
    (event.kind == AbsoluteVolumeReport && event.volumeEvent == RemoteNotification)
  }

  /** The gate as the loop needs it, with nothing of an earlier event left over. */
  ghost predicate Synchronised(s: MapperState) {
    && Lockstep(s) && IsCurrent(s, s.aclGeneration) && VolumeGating.Agrees(s.volume)
    && VolumeGating.CanSynchronize(s.volume) && !s.volume.reducer.windowsUpdatePending
    && (s.headsetPreferred && !s.headsetVolumeSeen ==> VolumeGating.Unheard(s.volume))
  }

  /** A write that the sink accepts and reads back faithfully, and the single answer to it. */
  lemma FaithfulDispatch(script: Script, w: World, actions: ActionSet)
    requires actions.actions == {SetWindowsVolume} && actions.authorizedCurrent
    requires script.accepts(|w.offered|) && script.readbacks(|w.offered|) == Some(actions.windowsVolume)
    ensures var (called, answer) := ObserveWindows(w.mapper, w.mapper.aclGeneration, actions.windowsVolume);
            var after := Dispatch(script, w, actions);
            && after.mapper == called
            && after.offered == w.offered + [actions] +
                                (if answer.actions != {} && answer.authorizedCurrent then [answer] else [])
  {
    var (called, answer) := ObserveWindows(w.mapper, w.mapper.aclGeneration, actions.windowsVolume);
    WindowsNeverWritesWindows(w.mapper, w.mapper.aclGeneration, actions.windowsVolume);
    hide ObserveWindows;
    var told := Offered(script, w, actions).0.(mapper := called);
    SilentDispatch(script, told, answer);
  }

  lemma SilentDispatch(script: Script, w: World, actions: ActionSet)
    requires SetWindowsVolume !in actions.actions
    ensures var after := Dispatch(script, w, actions);
            && after.mapper == w.mapper
            && after.offered ==
               w.offered + (if actions.actions != {} && actions.authorizedCurrent then [actions] else [])
  {
  }

  /** What one notification and its faithful callback leave of the mapper, and what they ask for. */
  ghost predicate Served(s: MapperState, value: uint8) {
    var (noticed, request) := ObserveHeadset(s, s.aclGeneration, value, RemoteNotification);
    && (request.actions == {} || request.actions == {SetWindowsVolume})
    && noticed.aclGeneration == s.aclGeneration && Lockstep(noticed)
    && (request.actions != {} ==> request.authorizedCurrent && request.windowsVolume == FromHeadset(value))
    && var (called, answer) := Answered(noticed, request, value);
       && (answer.actions == {} || (answer.actions == {SendHeadsetVolume} && answer.authorizedCurrent))
       && Lockstep(called) && IsCurrent(called, s.aclGeneration) && called.aclGeneration == s.aclGeneration
       && (called.headsetPreferred ==> called.headsetVolumeSeen)
       && VolumeGating.Settled(called.volume, HeldAfter(value, answer))
  }

  /** The callback, if a write was asked for. */
  function Answered(noticed: MapperState, request: ActionSet, value: uint8): (MapperState, ActionSet) {
    if request.actions == {} then (noticed, NO_ACTIONS)
    else ObserveWindows(noticed, noticed.aclGeneration, FromHeadset(value))
  }

  /** The value the headset holds afterwards. */
  function HeldAfter(value: uint8, answer: ActionSet): uint8 {
    if SendHeadsetVolume in answer.actions then answer.headsetVolume else value
  }

  /** Facts about a report that do not depend on the gate's decision. */
  lemma ReportShape(s: MapperState, value: uint8)
    requires Lockstep(s) && IsCurrent(s, s.aclGeneration) && s.ownerLease != 0
    ensures var (noticed, request) := ObserveHeadset(s, s.aclGeneration, value, RemoteNotification);
            && (request.actions == {} || request.actions == {SetWindowsVolume}) && request.authorizedCurrent
            && noticed.aclGeneration == s.aclGeneration && Lockstep(noticed)
            && noticed.aclGenerationCurrent && noticed.ownerLease == s.ownerLease
            && noticed.headsetPreferred == s.headsetPreferred
            && (noticed.headsetVolumeSeen <==> s.headsetVolumeSeen || s.headsetPreferred)
  {
    HeadsetKeepsLockstep(s, s.aclGeneration, value, RemoteNotification);
    HeadsetNeverSendsHeadset(s, s.aclGeneration, value, RemoteNotification);
    hide VolumeGating.GateStep, Lockstep, FromHeadset, MergeVolume;
    var merged := MergeVolume(Snapshot(s), VolumeGating.GateStep(
                    s.volume, VolumeGating.HeadsetVolumeSeen(s.aclGeneration, value, RemoteNotification)).1);
    MergeKeepsHead(Snapshot(s), VolumeGating.GateStep(
                     s.volume, VolumeGating.HeadsetVolumeSeen(s.aclGeneration, value, RemoteNotification)).1);
  }

  lemma MergeKeepsHead(actions: ActionSet, decision: VolumeGating.GateDecision)
    ensures MergeVolume(actions, decision).authorizedCurrent == actions.authorizedCurrent
  {
  }

  lemma CallbackShape(s: MapperState, windows: WindowsVolume)
    requires Lockstep(s) && IsCurrent(s, s.aclGeneration) && s.ownerLease != 0
    ensures var (called, answer) := ObserveWindows(s, s.aclGeneration, windows);
            && (answer.actions == {} || answer.actions == {SendHeadsetVolume}) && answer.authorizedCurrent
            && Lockstep(called) && IsCurrent(called, s.aclGeneration) && called.aclGeneration == s.aclGeneration
            && called.headsetPreferred == s.headsetPreferred && called.headsetVolumeSeen == s.headsetVolumeSeen
  {
    WindowsKeepsLockstep(s, s.aclGeneration, windows);
    WindowsNeverWritesWindows(s, s.aclGeneration, windows);
    hide VolumeGating.GateStep, Lockstep, MergeVolume;
    MergeKeepsHead(Snapshot(s), VolumeGating.GateStep(
                     s.volume, VolumeGating.WindowsVolumeSeen(s.aclGeneration, windows)).1);
  }

  lemma SynchronisedOwns(s: MapperState)
    requires Synchronised(s)
    ensures s.ownerLease != 0 && (s.headsetPreferred && !s.headsetVolumeSeen ==> AwaitsReport(s))
  {
  }

  /** The first report of a preferred headset is served. */
  lemma AwaitingIsServed(s: MapperState, value: uint8)
    requires Synchronised(s) && s.headsetPreferred && !s.headsetVolumeSeen && value <= 127
    ensures Served(s, value)
  {
    SynchronisedOwns(s);
    ReportShape(s, value);
    FirstReportIsAdopted(s, value, RemoteNotification);
    FirstReportWritesExactly(s, value, RemoteNotification);
    var (noticed, request) := ObserveHeadset(s, s.aclGeneration, value, RemoteNotification);
    if request.actions != {} {
      hide ObserveHeadset, Lockstep, VolumeGating.Agrees, VolumeGating.CanSynchronize, VolumeGating.Settled;
      hide FromHeadset, Project, SurvivesScaling, VolumeGating.IsRepeat, EndpointIsThere, ObserveWindows;
      AdoptionSettles(s, value, RemoteNotification);
      CallbackShape(noticed, FromHeadset(value));
    } else {
      LeftAloneIsSettled(s, value);
    }
  }

  /** An endpoint that needed no write projects to the reported value. */
  lemma LeftAloneIsSettled(s: MapperState, value: uint8)
    requires Synchronised(s) && AwaitsReport(s) && value <= 127
    requires EndpointIsThere(s, value) && SurvivesScaling(value)
    ensures VolumeGating.Settled(ObserveHeadset(s, s.aclGeneration, value, RemoteNotification).0.volume, value)
  {
    ScaleKeepsExactly(value);
    AdoptionPartsExactly(s, value, RemoteNotification);
    AdoptionLeavesGate(s, value, RemoteNotification);
    GateAsksExactly(s.volume, value, RemoteNotification);
    AdoptionPrepares(s, value, RemoteNotification);
    hide VolumeGating.GateStep, ObserveHeadset, VolumeGating.Agrees, Project, FromHeadset, SurvivesScaling, Lockstep;
  }

  /** Without preference, or once the headset has spoken, a report is the gate's own. */
  lemma ReportReaches(s: MapperState, value: uint8)
    requires IsCurrent(s, s.aclGeneration) && !(s.headsetPreferred && !s.headsetVolumeSeen)
    ensures var (volume, decision) := VolumeGating.GateStep(
                                        s.volume,
                                        VolumeGating.HeadsetVolumeSeen(s.aclGeneration, value, RemoteNotification));
            var (noticed, request) := ObserveHeadset(s, s.aclGeneration, value, RemoteNotification);
            && noticed.volume == volume
            && (SetWindowsVolume in request.actions <==> decision.volume.setWindowsEndpoint)
            && (decision.volume.setWindowsEndpoint ==> request.windowsVolume == decision.volume.windowsVolume)
  {
    hide VolumeGating.GateStep;
  }

  lemma HearingIsServed(s: MapperState, value: uint8)
    requires Synchronised(s) && !(s.headsetPreferred && !s.headsetVolumeSeen) && value <= 127
    ensures Served(s, value)
  {
    SynchronisedOwns(s);
    ReportShape(s, value);
    ReportReaches(s, value);
    assert s.volume.aclGeneration == s.aclGeneration;
    VolumeGating.NotificationAsks(s.volume, value);
    VolumeGating.VolumeLoopQuiesces(s.volume, value, []);
    hide ObserveHeadset, Lockstep, VolumeGating.Agrees, VolumeGating.CanSynchronize, VolumeGating.Settled;
    hide VolumeGating.GateStep, FromHeadset, Project, SurvivesScaling, VolumeGating.IsRepeat, ObserveWindows;
    var (noticed, request) := ObserveHeadset(s, s.aclGeneration, value, RemoteNotification);
    if request.actions != {} {
      CallbackReaches(noticed, FromHeadset(value));
      CallbackShape(noticed, FromHeadset(value));
    }
  }

  /** What the executor makes of a request: nothing, or the write and the answer to it. */
  lemma RequestIsDispatched(script: Script, w: World, request: ActionSet, value: uint8)
    requires request.actions == {} || request.actions == {SetWindowsVolume}
    requires request.actions != {} ==> request.authorizedCurrent && request.windowsVolume == FromHeadset(value)
    requires script.accepts(|w.offered|) && script.readbacks(|w.offered|) == Some(FromHeadset(value))
    ensures var (called, answer) := Answered(w.mapper, request, value);
            var after := Dispatch(script, w, request);
            && after.mapper == called
            && after.offered == w.offered + (if request.actions != {} then [request] else []) +
                                (if answer.actions != {} && answer.authorizedCurrent then [answer] else [])
  {
    hide ObserveWindows, FromHeadset;
    if request.actions != {} {
      FaithfulDispatch(script, w, request);
    }
  }

  /**
   Through mapper, gates, executor and sink: a notification of the current generation to a
   synchronised mapper, with a sink that accepts and reads back what it was told, costs at
   most one endpoint write and at most one headset send, in this order, and leaves the
   mapper synchronised, and its gate settled on the value the headset then holds.
   */
  lemma NotificationCostsOneOfEach(script: Script, w: World, event: ObservedEvent, options: Options)
    requires Synchronised(w.mapper) && Notifies(event) && IsCurrent(w.mapper, event.generation)
    requires script.accepts(|w.offered|)
    requires script.readbacks(|w.offered|) == Some(FromHeadset(event.value % 0x80))
    ensures var value := event.value % 0x80;
            var (noticed, request) := ObserveHeadset(w.mapper, w.mapper.aclGeneration, value, RemoteNotification);
            var (called, answer) := Answered(noticed, request, value);
            var after := Feed(script, w, event, options).0;
            && after.offered == w.offered + (if request.actions != {} then [request] else []) +
                                (if answer.actions != {} then [answer] else [])
            && (request.actions == {} || request.actions == {SetWindowsVolume})
            && (answer.actions == {} || answer.actions == {SendHeadsetVolume})
            && Synchronised(after.mapper) && VolumeGating.Settled(after.mapper.volume, HeldAfter(value, answer))
  {
    var value := event.value % 0x80;
    var s := w.mapper;
    if s.headsetPreferred && !s.headsetVolumeSeen {
      AwaitingIsServed(s, value);
    } else {
      HearingIsServed(s, value);
    }
    var (noticed, request) := ObserveHeadset(s, s.aclGeneration, value, RemoteNotification);
    hide ObserveHeadset, Lockstep, Dispatch, ObserveWindows, VolumeGating.Agrees, VolumeGating.CanSynchronize;
    hide FromHeadset, Project, Answered;
    RequestIsDispatched(script, Recognized(w.(mapper := noticed)), request, value);
  }

}
