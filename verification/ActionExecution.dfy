/**
 Feeding observed events to the mapper and dispatching what it authorizes
 (agent/v1_avrcp_action_executor.cpp). An applied endpoint write is read back
 and observed again, so dispatching is recursive through the sink.
 */
module ActionExecution {
  import opened Words
  import opened AbsoluteVolume
  import opened ActionMapping
  import PassThrough
  import VolumeGating

  datatype EventKind =
    | GenerationStarted | GenerationEnded | VolumeCapability | AbsoluteVolumeReport | PassThroughKey
    | SetAbsoluteVolumeCommand | UnlistedKind(raw: uint8)

  datatype ObservedEvent = ObservedEvent(
    kind: EventKind,
    generation: uint64,
    flags: uint32,
    value: uint32,
    volumeEvent: HeadsetEvent)

  datatype Options = Options(
    ownerLease: uint64,
    volumeSync: bool,
    mediaRouting: bool,
    headsetPreferred: bool,
    initialWindowsVolume: WindowsVolume,
    mediaSession: MediaSnapshot)

  datatype Stats = Stats(
    recognizedEvents: nat,
    ignoredLines: nat,
    actionSets: nat,
    sinkAccepted: nat,
    generationEnded: nat,
    errors: nat)

  const NO_STATS := Stats(0, 0, 0, 0, 0, 0)

  predicate IsReleased(flags: uint32) {
    flags / 2 % 2 == 1
  }

  // ------------------------------------------------ any sink, any readback

  /** What a sink answers at each turn; being arbitrary, it stands for every sink. */
  datatype Script = Script(accepts: nat -> bool, readbacks: nat -> Option<WindowsVolume>)

  datatype World = World(mapper: MapperState, stats: Stats, offered: seq<ActionSet>)

  class ActionSink {
    const script: Script
    var offered: seq<ActionSet>

    constructor (script: Script)
      ensures this.script == script && offered == []
    {
      this.script := script;
      offered := [];
    }

    method Handle(actions: ActionSet) returns (accepted: bool)
      modifies this
      ensures offered == old(offered) + [actions] && accepted == script.accepts(|old(offered)|)
    {
      accepted := script.accepts(|offered|);
      offered := offered + [actions];
    }

    /** The endpoint volume after the write just handled, if the sink can tell. */
    method QueryWindowsVolume() returns (volume: Option<WindowsVolume>)
      requires offered != []
      ensures volume == script.readbacks(|offered| - 1)
    {
      volume := script.readbacks(|offered| - 1);
    }
  }

  class ReplayStats {
    var recognizedEvents: nat
    var ignoredLines: nat
    var actionSets: nat
    var sinkAccepted: nat
    var generationEnded: nat
    var errors: nat

    function View(): Stats
      reads this
    {
      Stats(recognizedEvents, ignoredLines, actionSets, sinkAccepted, generationEnded, errors)
    }

    constructor ()
      ensures View() == NO_STATS
    {
      recognizedEvents, ignoredLines, actionSets, sinkAccepted, generationEnded, errors := 0, 0, 0, 0, 0, 0;
    }
  }

  // ---------------------------------------- dispatch and feed as functions

  /** One set offered to the sink, and what it reads back of an endpoint write it accepted. */
  function Offered(script: Script, w: World, actions: ActionSet): (World, Option<WindowsVolume>) {
    var turn := |w.offered|;
    var told := w.(stats := w.stats.(actionSets := w.stats.actionSets + 1), offered := w.offered + [actions]);
    if !script.accepts(turn) then (told, None)
    else
      (told.(stats := told.stats.(sinkAccepted := told.stats.sinkAccepted + 1)),
       if SetWindowsVolume in actions.actions then script.readbacks(turn) else None)
  }

  function Dispatch(script: Script, w: World, actions: ActionSet): World
    decreases if SetWindowsVolume in actions.actions then 1 else 0
  {
    if actions.actions == {} || !actions.authorizedCurrent then w
    else
      var (told, readback) := Offered(script, w, actions);
      if readback.None? then told
      else
        WindowsNeverWritesWindows(w.mapper, w.mapper.aclGeneration, readback.value);
        var (mapper, feedback) := ObserveWindows(w.mapper, w.mapper.aclGeneration, readback.value);
        Dispatch(script, told.(mapper := mapper), feedback)
  }

  /** Mode, lease and headset preference of an accepted generation. */
  function Configured(s: MapperState, g: uint64, options: Options): MapperState {
    var moded := SetMode(s, g, options.volumeSync, options.mediaRouting).0;
    var leased := AcquireLease(moded, g, options.ownerLease).0;
    leased.(headsetPreferred := options.headsetPreferred, headsetVolumeSeen := false)
  }

  /** The session set-up of an accepted generation, before its media snapshot is dispatched. */
  function SetUp(s: MapperState, g: uint64, options: Options): (MapperState, ActionSet) {
    var observed := ObserveWindows(Configured(s, g, options), g, options.initialWindowsVolume).0;
    SetMediaSession(observed, options.mediaSession.(aclGeneration := g))
  }

  function Observe(s: MapperState, event: ObservedEvent): (MapperState, ActionSet) {
    match event.kind
    case VolumeCapability => ObserveCapability(s, event.generation, event.value != 0)
    case AbsoluteVolumeReport => ObserveHeadset(s, event.generation, event.value % 0x80, event.volumeEvent)
    case PassThroughKey => ObserveKey(s, event.generation, event.value % 0x80, IsReleased(event.flags))
    case SetAbsoluteVolumeCommand => ObserveHeadset(s, event.generation, event.value % 0x80, RemoteNotification)
    case _ => (s, NO_ACTIONS)
  }

  function Failed(w: World): World {
    w.(stats := w.stats.(errors := w.stats.errors + 1))
  }

  function Recognized(w: World): World {
    w.(stats := w.stats.(recognizedEvents := w.stats.recognizedEvents + 1))
  }

  function FeedStart(script: Script, w: World, g: uint64, options: Options): (World, bool) {
    if w.mapper.aclGenerationCurrent then (Failed(w), false)
    else
      var (begun, actions) := BeginGeneration(w.mapper, g);
      if actions.aclGeneration == 0 then (Failed(w.(mapper := begun)), false)
      else
        var (ready, media) := SetUp(begun, g, options);
        (Recognized(Dispatch(script, w.(mapper := ready), media)), true)
  }

  function FeedEnd(w: World, g: uint64): (World, bool) {
    if !w.mapper.aclGenerationCurrent then (Failed(w), false)
    else
      var ended := Recognized(w.(mapper := EndGeneration(w.mapper, g).0));
      (ended.(stats := ended.stats.(generationEnded := ended.stats.generationEnded + 1)), true)
  }

  function FeedObserved(script: Script, w: World, event: ObservedEvent): World {
    if !w.mapper.aclGenerationCurrent || (event.generation == w.mapper.aclGeneration && event.kind.UnlistedKind?)
    then w.(stats := w.stats.(ignoredLines := w.stats.ignoredLines + 1))
    else if event.generation != w.mapper.aclGeneration then Failed(w)
    else
      var (mapper, actions) := Observe(w.mapper, event);
      Dispatch(script, Recognized(w.(mapper := mapper)), actions)
  }

  function Feed(script: Script, w: World, event: ObservedEvent, options: Options): (World, bool) {
    if event.generation == 0 then (Failed(w), false)
    else if event.kind == GenerationStarted then FeedStart(script, w, event.generation, options)
    else if event.kind == GenerationEnded then FeedEnd(w, event.generation)
    else (FeedObserved(script, w, event), true)
  }

  /** Every call brings its own options. */
  datatype Call = Call(event: ObservedEvent, options: Options)

  function FeedAll(script: Script, w: World, calls: seq<Call>): World
    decreases calls
  {
    if calls == [] then w else FeedAll(script, Feed(script, w, calls[0].event, calls[0].options).0, calls[1..])
  }

  const NEW_EXECUTION := World(RESET_MAPPER, NO_STATS, [])

  // ------------------------------------------------- dispatching terminates

  /**
   For every sink and every readback the recursion nests at most twice: a second
   set is offered only after an endpoint write, and it is a single headset send.
   Only authorized, non-empty sets are ever offered.
   */
  lemma DispatchNestsAtMostTwice(script: Script, w: World, actions: ActionSet)
    ensures var offered := Dispatch(script, w, actions).offered;
            && w.offered <= offered && |offered| <= |w.offered| + 2
            && (|offered| > |w.offered| ==> offered[|w.offered|] == actions)
            && (|offered| == |w.offered| + 2 ==>
                  SetWindowsVolume in actions.actions && offered[|w.offered| + 1].actions == {SendHeadsetVolume})
            && (forall i :: |w.offered| <= i < |offered| ==>
                  offered[i].authorizedCurrent && offered[i].actions != {})
  {
    var turn := |w.offered|;
    if actions.actions != {} && actions.authorizedCurrent && script.accepts(turn) &&
       SetWindowsVolume in actions.actions && script.readbacks(turn).Some? {
      var volume := script.readbacks(turn).value;
      WindowsNeverWritesWindows(w.mapper, w.mapper.aclGeneration, volume);
      var feedback := ObserveWindows(w.mapper, w.mapper.aclGeneration, volume).1;
      assert SetWindowsVolume !in feedback.actions;
      if feedback.actions != {} {
        assert SendHeadsetVolume in feedback.actions;
      }
    }
  }

  /**
   A key event names its operation in the low seven bits of its value and a release in the
   second bit of its flags. With no key held, the press of any operation offers the sink
   what that code does to the session last shown; a release offers nothing.
   */
  lemma KeyEventsAct(script: Script, w: World, session: MediaSnapshot, event: ObservedEvent)
    requires Lockstep(w.mapper) && IsCurrent(w.mapper, session.aclGeneration)
    requires w.mapper.mediaRoutingEnabled && w.mapper.ownerLease != 0 && w.mapper.keys.heldOperation == None
    requires event.kind == PassThroughKey && event.generation == session.aclGeneration
    ensures var shown := w.(mapper := SetMediaSession(w.mapper, session).0);
            var offered := FeedObserved(script, shown, event).offered;
            var wanted := if event.flags / 2 % 2 == 1 then {} else KeyAction(event.value % 0x80, session);
            && w.offered <= offered
            && (wanted == {} ==> offered == w.offered)
            && (wanted != {} ==> |offered| == |w.offered| + 1 && offered[|w.offered|].actions == wanted)
  {
    var released := IsReleased(event.flags);
    ShownKeyActs(w.mapper, session, event.value % 0x80, released);
    hide SetMediaSession, Lockstep, KeyAction, ObserveKey, Dispatch;
    var shown := w.(mapper := SetMediaSession(w.mapper, session).0);
    var (mapper, actions) := ObserveKey(shown.mapper, event.generation, event.value % 0x80, released);
    assert Observe(shown.mapper, event) == (mapper, actions);
    OneSetIsOffered(script, Recognized(shown.(mapper := mapper)), actions);
  }

  lemma OneSetIsOffered(script: Script, w: World, actions: ActionSet)
    requires SetWindowsVolume !in actions.actions
    ensures Dispatch(script, w, actions).offered ==
            if actions.actions != {} && actions.authorizedCurrent then w.offered + [actions] else w.offered
  {
  }

  // ------------------------------------------- lockstep over event streams

  lemma DispatchKeepsLockstep(script: Script, w: World, actions: ActionSet)
    requires Lockstep(w.mapper)
    ensures var after := Dispatch(script, w, actions).mapper;
            Lockstep(after) && after.headsetPreferred == w.mapper.headsetPreferred &&
            after.headsetVolumeSeen == w.mapper.headsetVolumeSeen
    decreases if SetWindowsVolume in actions.actions then 1 else 0
  {
    var turn := |w.offered|;
    if actions.actions != {} && actions.authorizedCurrent && script.accepts(turn) &&
       SetWindowsVolume in actions.actions && script.readbacks(turn).Some? {
      var volume := script.readbacks(turn).value;
      WindowsNeverWritesWindows(w.mapper, w.mapper.aclGeneration, volume);
      WindowsKeepsLockstep(w.mapper, w.mapper.aclGeneration, volume);
      var (mapper, feedback) := ObserveWindows(w.mapper, w.mapper.aclGeneration, volume);
      var stats := w.stats.(actionSets := w.stats.actionSets + 1, sinkAccepted := w.stats.sinkAccepted + 1);
      DispatchKeepsLockstep(script, World(mapper, stats, w.offered + [actions]), feedback);
    }
  }

  lemma ConfiguredKeepsLockstep(s: MapperState, g: uint64, options: Options)
    requires Lockstep(s)
    ensures var configured := Configured(s, g, options);
            Lockstep(configured) && configured.headsetPreferred == options.headsetPreferred &&
            !configured.headsetVolumeSeen
  {
    hide SetMode, AcquireLease;
    ModeKeepsLockstep(s, g, options.volumeSync, options.mediaRouting);
    AcquireKeepsLockstep(SetMode(s, g, options.volumeSync, options.mediaRouting).0, g, options.ownerLease);
  }

  lemma SetUpKeepsLockstep(s: MapperState, g: uint64, options: Options)
    requires Lockstep(s)
    ensures Lockstep(SetUp(s, g, options).0)
    ensures SetUp(s, g, options).0.headsetPreferred == options.headsetPreferred
    ensures !SetUp(s, g, options).0.headsetVolumeSeen
    ensures SendHeadsetVolume !in SetUp(s, g, options).1.actions
  {
    hide Configured, ObserveWindows, Lockstep;
    var configured := Configured(s, g, options);
    ConfiguredKeepsLockstep(s, g, options);
    WindowsKeepsLockstep(configured, g, options.initialWindowsVolume);
    WindowsNeverWritesWindows(configured, g, options.initialWindowsVolume);
    var observed := ObserveWindows(configured, g, options.initialWindowsVolume).0;
    SnapshotKeepsLockstep(observed, options.mediaSession.(aclGeneration := g));
  }

  lemma ObserveKeepsLockstep(s: MapperState, event: ObservedEvent)
    requires Lockstep(s)
    ensures Lockstep(Observe(s, event).0)
  {
    match event.kind
    case VolumeCapability => CapabilityKeepsLockstep(s, event.generation, event.value != 0);
    case AbsoluteVolumeReport => HeadsetKeepsLockstep(s, event.generation, event.value % 0x80, event.volumeEvent);
    case PassThroughKey => KeyKeepsLockstep(s, event.generation, event.value % 0x80, IsReleased(event.flags));
    case SetAbsoluteVolumeCommand =>
      HeadsetKeepsLockstep(s, event.generation, event.value % 0x80, RemoteNotification);
    case _ =>
  }

  lemma FeedKeepsLockstep(script: Script, w: World, event: ObservedEvent, options: Options)
    requires Lockstep(w.mapper)
    ensures Lockstep(Feed(script, w, event, options).0.mapper)
  {
    var g := event.generation;
    if event.kind == GenerationStarted {
      if g != 0 && !w.mapper.aclGenerationCurrent {
        BeginAgainstEnded(w.mapper, g);
        var begun := BeginGeneration(w.mapper, g).0;
        SetUpKeepsLockstep(begun, g, options);
        var (ready, media) := SetUp(begun, g, options);
        DispatchKeepsLockstep(script, w.(mapper := ready), media);
      }
    } else if event.kind == GenerationEnded {
      EndKeepsLockstep(w.mapper, g);
    } else {
      ObserveKeepsLockstep(w.mapper, event);
      var (mapper, actions) := Observe(w.mapper, event);
      DispatchKeepsLockstep(script, Recognized(w.(mapper := mapper)), actions);
    }
  }

  lemma {:induction false} StreamKeepsLockstep(script: Script, w: World, calls: seq<Call>)
    requires Lockstep(w.mapper)
    ensures Lockstep(FeedAll(script, w, calls).mapper)
    decreases calls
  {
    hide Feed, Lockstep;
    if calls != [] {
      FeedKeepsLockstep(script, w, calls[0].event, calls[0].options);
      StreamKeepsLockstep(script, Feed(script, w, calls[0].event, calls[0].options).0, calls[1..]);
    }
  }

  /** Over every event stream, whatever its options, mapper and gates agree on generation, currency, lease and modes. */
  lemma MapperAndGatesInLockstep(script: Script, calls: seq<Call>)
    ensures Lockstep(FeedAll(script, NEW_EXECUTION, calls).mapper)
  {
    StreamKeepsLockstep(script, NEW_EXECUTION, calls);
  }

  // ------------------------------------------------------ what is counted

  /** What the sink is offered is what is counted, and so is what it accepts. */
  ghost predicate Counted(script: Script, w: World) {
    w.stats.actionSets == |w.offered| && w.stats.sinkAccepted == Acceptances(script, |w.offered|)
  }

  function Acceptances(script: Script, turns: nat): nat {
    if turns == 0 then 0 else Acceptances(script, turns - 1) + (if script.accepts(turns - 1) then 1 else 0)
  }

  lemma DispatchIsCounted(script: Script, w: World, actions: ActionSet)
    requires Counted(script, w)
    ensures var after := Dispatch(script, w, actions);
            && Counted(script, after) && after.stats.recognizedEvents == w.stats.recognizedEvents
            && after.stats.ignoredLines == w.stats.ignoredLines && after.stats.errors == w.stats.errors
            && after.stats.generationEnded == w.stats.generationEnded
    decreases if SetWindowsVolume in actions.actions then 1 else 0
  {
    hide ObserveWindows;
    if actions.actions != {} && actions.authorizedCurrent {
      var (told, readback) := Offered(script, w, actions);
      if readback.Some? {
        WindowsNeverWritesWindows(w.mapper, w.mapper.aclGeneration, readback.value);
        var (mapper, feedback) := ObserveWindows(w.mapper, w.mapper.aclGeneration, readback.value);
        DispatchIsCounted(script, told.(mapper := mapper), feedback);
      }
    }
  }

  /** An event out of place: of no generation or another, a start within one or of an old one, an end without one. */
  predicate IsError(s: MapperState, event: ObservedEvent) {
    || event.generation == 0
    || (event.kind == GenerationStarted &&
        (s.aclGenerationCurrent || !IsNewerGeneration(event.generation, s.aclGeneration)))
    || (event.kind == GenerationEnded && !s.aclGenerationCurrent)
    || (event.kind != GenerationStarted && event.kind != GenerationEnded && s.aclGenerationCurrent &&
        event.generation != s.aclGeneration)
  }

  predicate IsIgnored(s: MapperState, event: ObservedEvent) {
    event.generation != 0 && event.kind != GenerationStarted && event.kind != GenerationEnded &&
    (!s.aclGenerationCurrent || (event.kind.UnlistedKind? && event.generation == s.aclGeneration))
  }

  /** Every event fed is counted once, as an error, as ignored or as recognized. */
  lemma FeedIsCounted(script: Script, w: World, event: ObservedEvent, options: Options)
    requires Lockstep(w.mapper) && Counted(script, w)
    ensures var after := Feed(script, w, event, options).0;
            var error, ignored := IsError(w.mapper, event), IsIgnored(w.mapper, event);
            && Counted(script, after)
            && after.stats.errors == w.stats.errors + (if error then 1 else 0)
            && after.stats.ignoredLines == w.stats.ignoredLines + (if ignored then 1 else 0)
            && after.stats.recognizedEvents == w.stats.recognizedEvents + (if error || ignored then 0 else 1)
            && after.stats.generationEnded ==
               w.stats.generationEnded + (if event.kind == GenerationEnded && !error then 1 else 0)
  {
    hide Observe, Dispatch, SetUp, BeginGeneration, Counted, EndGeneration;
    var g := event.generation;
    if event.kind == GenerationStarted {
      if g != 0 && !w.mapper.aclGenerationCurrent {
        BeginAgainstEnded(w.mapper, g);
        var begun := BeginGeneration(w.mapper, g).0;
        var (ready, media) := SetUp(begun, g, options);
        SameCounts(script, w, w.(mapper := ready));
        SameCounts(script, w, Failed(w.(mapper := begun)));
        DispatchIsCounted(script, w.(mapper := ready), media);
        var told := Dispatch(script, w.(mapper := ready), media);
        SameCounts(script, told, Recognized(told));
      }
      SameCounts(script, w, Failed(w));
    } else if event.kind == GenerationEnded {
      SameCounts(script, w, Failed(w));
      SameCounts(script, w, FeedEnd(w, g).0);
    } else {
      SameCounts(script, w, Failed(w));
      SameCounts(script, w, w.(stats := w.stats.(ignoredLines := w.stats.ignoredLines + 1)));
      var (mapper, actions) := Observe(w.mapper, event);
      SameCounts(script, w, Recognized(w.(mapper := mapper)));
      DispatchIsCounted(script, Recognized(w.(mapper := mapper)), actions);
    }
  }

  lemma SameCounts(script: Script, a: World, b: World)
    requires a.offered == b.offered && a.stats.actionSets == b.stats.actionSets
    requires a.stats.sinkAccepted == b.stats.sinkAccepted
    ensures Counted(script, a) <==> Counted(script, b)
  {
  }

  lemma {:induction false} StreamCountsUp(script: Script, w: World, calls: seq<Call>)
    requires Lockstep(w.mapper) && Counted(script, w)
    ensures var after := FeedAll(script, w, calls).stats;
            && Counted(script, FeedAll(script, w, calls))
            && after.errors + after.ignoredLines + after.recognizedEvents ==
               w.stats.errors + w.stats.ignoredLines + w.stats.recognizedEvents + |calls|
    decreases calls
  {
    hide Feed, Lockstep, Counted, IsError, IsIgnored;
    if calls != [] {
      FeedKeepsLockstep(script, w, calls[0].event, calls[0].options);
      FeedIsCounted(script, w, calls[0].event, calls[0].options);
      NeverBoth(w.mapper, calls[0].event);
      StreamCountsUp(script, Feed(script, w, calls[0].event, calls[0].options).0, calls[1..]);
    }
  }

  lemma NeverBoth(s: MapperState, event: ObservedEvent)
    ensures !(IsError(s, event) && IsIgnored(s, event))
  {
  }

  /** Over every stream each event is counted once, and the action counters are those of the sink. */
  lemma EveryEventIsCounted(script: Script, calls: seq<Call>)
    ensures var after := FeedAll(script, NEW_EXECUTION, calls);
            && after.stats.errors + after.stats.ignoredLines + after.stats.recognizedEvents == |calls|
            && after.stats.actionSets == |after.offered|
            && after.stats.sinkAccepted == Acceptances(script, |after.offered|)
  {
    StreamCountsUp(script, NEW_EXECUTION, calls);
  }

  // ------------------------------------------------ the first playback status

  /** A generation that starts with routing for an owner tells the sink the playback of the PC, and nothing else. */
  lemma StartTellsStatus(script: Script, w: World, g: uint64, options: Options)
    requires Lockstep(w.mapper) && !w.mapper.aclGenerationCurrent && IsNewerGeneration(g, w.mapper.aclGeneration)
    ensures var (after, ok) := FeedStart(script, w, g, options);
            var routes := options.mediaRouting && options.ownerLease != 0;
            && ok && (!routes ==> after.offered == w.offered)
            && (routes ==>
                  && |after.offered| == |w.offered| + 1 && w.offered <= after.offered
                  && after.offered[|w.offered|].actions == {NotifyPlaybackStatus}
                  && after.offered[|w.offered|].playbackAfter == PlaybackOf(options.mediaSession))
  {
    BeginAgainstEnded(w.mapper, g);
    var begun := BeginGeneration(w.mapper, g).0;
    NewSessionStatus(begun, g, options);
    hide BeginGeneration, SetUp;
  }

  lemma NewSessionStatus(s: MapperState, g: uint64, options: Options)
    requires Lockstep(s) && IsCurrent(s, g) && s.ownerLease == 0 && !s.media.statusValid
    ensures var (ready, media) := SetUp(s, g, options);
            var routes := options.mediaRouting && options.ownerLease != 0;
            && media.actions == (if routes then {NotifyPlaybackStatus} else {})
            && (routes ==> media.authorizedCurrent && media.playbackAfter == PlaybackOf(options.mediaSession))
  {
    ConfiguredMapper(s, g, options);
    var configured := Configured(s, g, options);
    ObservingKeepsMedia(configured, g, options.initialWindowsVolume);
    hide Configured, ObserveWindows;
  }

  lemma ConfiguredMapper(s: MapperState, g: uint64, options: Options)
    requires Lockstep(s) && IsCurrent(s, g) && s.ownerLease == 0
    ensures var configured := Configured(s, g, options);
            && IsCurrent(configured, g) && configured.ownerLease == options.ownerLease
            && configured.mediaRoutingEnabled == options.mediaRouting
            && configured.volumeSyncEnabled == options.volumeSync
            && configured.media.statusValid == s.media.statusValid
  {
    ModeKeepsLockstep(s, g, options.volumeSync, options.mediaRouting);
    var moded := SetMode(s, g, options.volumeSync, options.mediaRouting).0;
    assert IsCurrent(moded, g) && moded.ownerLease == 0 && moded.mediaRoutingEnabled == options.mediaRouting;
    assert moded.volumeSyncEnabled == options.volumeSync && moded.media.statusValid == s.media.statusValid;
    hide SetMode;
    LeaseIsTaken(moded, g, options.ownerLease);
    hide AcquireLease;
  }

  lemma LeaseIsTaken(s: MapperState, g: uint64, lease: uint64)
    requires Lockstep(s) && IsCurrent(s, g) && s.ownerLease == 0
    ensures var leased := AcquireLease(s, g, lease).0;
            && leased.ownerLease == lease && IsCurrent(leased, g)
            && leased.mediaRoutingEnabled == s.mediaRoutingEnabled && leased.volumeSyncEnabled == s.volumeSyncEnabled
            && leased.media.statusValid == s.media.statusValid
  {
  }

  lemma ObservingKeepsMedia(s: MapperState, g: uint64, windows: WindowsVolume)
    ensures ObserveWindows(s, g, windows).0 == s.(volume := ObserveWindows(s, g, windows).0.volume)
  {
    hide VolumeGating.GateStep;
  }

  // ------------------------------------------------ the headset speaks first

  /** A volume event of the generation that is current. */
  predicate Speaks(s: MapperState, event: ObservedEvent) {
    (event.kind == AbsoluteVolumeReport || event.kind == SetAbsoluteVolumeCommand) && IsCurrent(s, event.generation)
  }

  /** No volume event of the current generation comes, and no new generation that does without the preference. */
  predicate Waits(s: MapperState, call: Call) {
    && !Speaks(s, call.event)
    && (call.event.kind == GenerationStarted && !s.aclGenerationCurrent ==> call.options.headsetPreferred)
  }

  ghost predicate Unspoken(script: Script, w: World, calls: seq<Call>)
    decreases calls
  {
    calls == [] ||
    (Waits(w.mapper, calls[0]) &&
     Unspoken(script, Feed(script, w, calls[0].event, calls[0].options).0, calls[1..]))
  }

  ghost predicate NoHeadsetSend(offered: seq<ActionSet>, from: nat) {
    forall i :: from <= i < |offered| ==> SendHeadsetVolume !in offered[i].actions
  }

  /** The mapper waits for the headset; nothing it dispatches in that condition is a volume push. */
  lemma DispatchWhileWaiting(script: Script, w: World, actions: ActionSet)
    requires w.mapper.headsetPreferred && !w.mapper.headsetVolumeSeen && SendHeadsetVolume !in actions.actions
    ensures var after := Dispatch(script, w, actions);
            && w.offered <= after.offered && NoHeadsetSend(after.offered, |w.offered|)
            && after.mapper.headsetPreferred && !after.mapper.headsetVolumeSeen
  {
    DispatchNestsAtMostTwice(script, w, actions);
    var turn := |w.offered|;
    if actions.actions != {} && actions.authorizedCurrent && script.accepts(turn) &&
       SetWindowsVolume in actions.actions && script.readbacks(turn).Some? {
      WindowsNeverWritesWindows(w.mapper, w.mapper.aclGeneration, script.readbacks(turn).value);
    }
  }

  /** Nothing but a volume event makes a waiting mapper ask for a push or stop waiting. */
  lemma ObserveWhileWaiting(s: MapperState, event: ObservedEvent)
    requires s.headsetPreferred && !s.headsetVolumeSeen && !Speaks(s, event)
    ensures var (next, actions) := Observe(s, event);
            && SendHeadsetVolume !in actions.actions && next.headsetPreferred && !next.headsetVolumeSeen
  {
    hide VolumeGating.GateStep, PassThrough.ObserveKey, MergeVolume, PassThrough.DecodeOperation;
  }

  lemma FeedWhileWaiting(script: Script, w: World, event: ObservedEvent, options: Options)
    requires Lockstep(w.mapper) && Waits(w.mapper, Call(event, options))
    requires w.mapper.headsetPreferred && !w.mapper.headsetVolumeSeen
    ensures var after := Feed(script, w, event, options).0;
            && w.offered <= after.offered && NoHeadsetSend(after.offered, |w.offered|)
            && after.mapper.headsetPreferred && !after.mapper.headsetVolumeSeen
  {
    hide Observe, Dispatch, SetUp, BeginGeneration;
    var g := event.generation;
    if event.kind == GenerationStarted {
      if g != 0 && !w.mapper.aclGenerationCurrent {
        BeginAgainstEnded(w.mapper, g);
        var begun := BeginGeneration(w.mapper, g).0;
        SetUpKeepsLockstep(begun, g, options);
        var (ready, media) := SetUp(begun, g, options);
        DispatchWhileWaiting(script, w.(mapper := ready), media);
      }
    } else if event.kind != GenerationEnded && IsCurrent(w.mapper, g) {
      ObserveWhileWaiting(w.mapper, event);
      var (mapper, actions) := Observe(w.mapper, event);
      DispatchWhileWaiting(script, Recognized(w.(mapper := mapper)), actions);
    }
  }

  lemma {:induction false} StreamWhileWaiting(script: Script, w: World, calls: seq<Call>)
    requires Lockstep(w.mapper) && Unspoken(script, w, calls)
    requires w.mapper.headsetPreferred && !w.mapper.headsetVolumeSeen
    ensures w.offered <= FeedAll(script, w, calls).offered
    ensures NoHeadsetSend(FeedAll(script, w, calls).offered, |w.offered|)
    decreases calls
  {
    hide Feed, Lockstep, Waits;
    if calls != [] {
      FeedKeepsLockstep(script, w, calls[0].event, calls[0].options);
      FeedWhileWaiting(script, w, calls[0].event, calls[0].options);
      StreamWhileWaiting(script, Feed(script, w, calls[0].event, calls[0].options).0, calls[1..]);
    }
  }

  lemma StartWaits(script: Script, w: World, start: Call)
    requires Lockstep(w.mapper) && start.options.headsetPreferred && start.event.kind == GenerationStarted
    requires Feed(script, w, start.event, start.options).1
    ensures var after := Feed(script, w, start.event, start.options).0;
            && w.offered <= after.offered && NoHeadsetSend(after.offered, |w.offered|)
            && after.mapper.headsetPreferred && !after.mapper.headsetVolumeSeen
  {
    var g := start.event.generation;
    BeginAgainstEnded(w.mapper, g);
    var begun := BeginGeneration(w.mapper, g).0;
    hide BeginGeneration, SetUp, Dispatch, Lockstep;
    SetUpKeepsLockstep(begun, g, start.options);
    var (ready, media) := SetUp(begun, g, start.options);
    DispatchWhileWaiting(script, w.(mapper := ready), media);
  }

  /**
   Whatever ran before, under whatever options: from the start of a generation that
   prefers the headset on, no headset volume send reaches the sink before the first
   volume event of that generation.
   */
  lemma HeadsetSpeaksFirst(script: Script, before: seq<Call>, start: Call, after: seq<Call>)
    requires start.options.headsetPreferred && start.event.kind == GenerationStarted
    requires var w := FeedAll(script, NEW_EXECUTION, before);
             Feed(script, w, start.event, start.options).1 && Unspoken(script, w, [start] + after)
    ensures var w := FeedAll(script, NEW_EXECUTION, before);
            var last := FeedAll(script, w, [start] + after);
            w.offered <= last.offered && NoHeadsetSend(last.offered, |w.offered|)
  {
    hide Feed, Lockstep, Waits;
    MapperAndGatesInLockstep(script, before);
    var w := FeedAll(script, NEW_EXECUTION, before);
    var calls := [start] + after;
    assert calls[0] == start && calls[1..] == after;
    StartWaits(script, w, start);
    FeedKeepsLockstep(script, w, start.event, start.options);
    StreamWhileWaiting(script, Feed(script, w, start.event, start.options).0, after);
  }

  // ----------------------------------------------------------- in place

  method Offer(actions: ActionSet, sink: ActionSink, stats: ReplayStats, ghost mapper: MapperState)
    returns (readback: Option<WindowsVolume>)
    modifies sink, stats
    ensures (World(mapper, stats.View(), sink.offered), readback) ==
            Offered(sink.script, old(World(mapper, stats.View(), sink.offered)), actions)
  {
    stats.actionSets := stats.actionSets + 1;
    var handled := sink.Handle(actions);
    if !handled {
      return None;
    }
    stats.sinkAccepted := stats.sinkAccepted + 1;
    if SetWindowsVolume !in actions.actions {
      return None;
    }
    readback := sink.QueryWindowsVolume();
  }

  method DispatchAuthorizedActions(mapper: ControlMapper, actions: ActionSet, sink: ActionSink, stats: ReplayStats)
    modifies mapper.Parts(), sink, stats
    ensures World(mapper.View(), stats.View(), sink.offered) ==
            Dispatch(sink.script, old(World(mapper.View(), stats.View(), sink.offered)), actions)
    decreases if SetWindowsVolume in actions.actions then 1 else 0
  {
    if actions.actions == {} || !actions.authorizedCurrent {
      return;
    }
    OnlyWritesAreReadBack(sink.script, World(mapper.View(), stats.View(), sink.offered), actions);
    mapper.ShowsGeneration();
    hide ControlMapper.View, ReplayStats.View, ObserveWindows, Offered;
    var readback := Offer(actions, sink, stats, mapper.View());
    if readback.Some? {
      WindowsNeverWritesWindows(mapper.View(), mapper.aclGeneration, readback.value);
      var feedback := mapper.ObserveWindowsVolume(mapper.aclGeneration, readback.value);
      DispatchAuthorizedActions(mapper, feedback, sink, stats);
    }
  }

  lemma OnlyWritesAreReadBack(script: Script, w: World, actions: ActionSet)
    ensures Offered(script, w, actions).1.Some? ==> SetWindowsVolume in actions.actions
    ensures Offered(script, w, actions).0.mapper == w.mapper
  {
  }

  method ConfigureSession(mapper: ControlMapper, g: uint64, options: Options)
    modifies mapper.Parts()
    ensures mapper.View() == Configured(old(mapper.View()), g, options)
  {
    hide PassThrough.KeyGate.View, VolumeGating.VolumeGate.View, SetMode, AcquireLease;
    var _ := mapper.SetControlMode(g, options.volumeSync, options.mediaRouting);
    var _ := mapper.AcquireOwnerLease(g, options.ownerLease);
    mapper.headsetPreferred := options.headsetPreferred;
    mapper.headsetVolumeSeen := false;
  }

  method SetUpSession(mapper: ControlMapper, g: uint64, options: Options) returns (media: ActionSet)
    modifies mapper.Parts()
    ensures (mapper.View(), media) == SetUp(old(mapper.View()), g, options)
  {
    hide ControlMapper.View, Configured, ObserveWindows, SetMediaSession;
    ConfigureSession(mapper, g, options);
    var _ := mapper.ObserveWindowsVolume(g, options.initialWindowsVolume);
    media := mapper.SetMediaSessionSnapshot(options.mediaSession.(aclGeneration := g));
  }

  method StartGeneration(mapper: ControlMapper, g: uint64, options: Options, sink: ActionSink, stats: ReplayStats)
    returns (ok: bool)
    modifies mapper.Parts(), sink, stats
    ensures (World(mapper.View(), stats.View(), sink.offered), ok) ==
            FeedStart(sink.script, old(World(mapper.View(), stats.View(), sink.offered)), g, options)
  {
    hide ControlMapper.View, BeginGeneration, SetUp, Dispatch;
    mapper.ShowsGeneration();
    if mapper.aclGenerationCurrent {
      stats.errors := stats.errors + 1;
      return false;
    }
    var begun := mapper.BeginAclGeneration(g);
    if begun.aclGeneration == 0 {
      stats.errors := stats.errors + 1;
      return false;
    }
    var media := SetUpSession(mapper, g, options);
    DispatchAuthorizedActions(mapper, media, sink, stats);
    stats.recognizedEvents := stats.recognizedEvents + 1;
    return true;
  }

  method FinishGeneration(mapper: ControlMapper, g: uint64, sink: ActionSink, stats: ReplayStats) returns (ok: bool)
    modifies mapper.Parts(), stats
    ensures (World(mapper.View(), stats.View(), sink.offered), ok) ==
            FeedEnd(old(World(mapper.View(), stats.View(), sink.offered)), g)
  {
    hide ControlMapper.View, EndGeneration;
    mapper.ShowsGeneration();
    if !mapper.aclGenerationCurrent {
      stats.errors := stats.errors + 1;
      return false;
    }
    var _ := mapper.EndAclGeneration(g);
    stats.recognizedEvents := stats.recognizedEvents + 1;
    stats.generationEnded := stats.generationEnded + 1;
    return true;
  }

  method ObserveEvent(mapper: ControlMapper, event: ObservedEvent) returns (actions: ActionSet)
    modifies mapper.Parts()
    ensures (mapper.View(), actions) == Observe(old(mapper.View()), event)
  {
    hide ControlMapper.View, ObserveCapability, ObserveHeadset, ObserveKey;
    actions := NO_ACTIONS;
    match event.kind {
      case VolumeCapability => actions := mapper.ObserveVolumeCapability(event.generation, event.value != 0);
      case AbsoluteVolumeReport =>
        actions := mapper.ObserveHeadsetVolume(event.generation, event.value % 0x80, event.volumeEvent);
      case PassThroughKey =>
        actions := mapper.ObservePassThrough(event.generation, event.value % 0x80, IsReleased(event.flags));
      case SetAbsoluteVolumeCommand =>
        actions := mapper.ObserveHeadsetVolume(event.generation, event.value % 0x80, RemoteNotification);
      case _ =>
    }
  }

  method FeedObservation(mapper: ControlMapper, event: ObservedEvent, sink: ActionSink, stats: ReplayStats)
    requires event.kind != GenerationStarted && event.kind != GenerationEnded
    modifies mapper.Parts(), sink, stats
    ensures World(mapper.View(), stats.View(), sink.offered) ==
            FeedObserved(sink.script, old(World(mapper.View(), stats.View(), sink.offered)), event)
  {
    hide ControlMapper.View, Observe, Dispatch;
    mapper.ShowsGeneration();
    if !mapper.aclGenerationCurrent {
      stats.ignoredLines := stats.ignoredLines + 1;
      return;
    }
    if event.generation != mapper.aclGeneration {
      stats.errors := stats.errors + 1;
      return;
    }
    if event.kind.UnlistedKind? {
      stats.ignoredLines := stats.ignoredLines + 1;
      return;
    }
    ghost var before := World(mapper.View(), stats.View(), sink.offered);
    var actions := ObserveEvent(mapper, event);
    stats.recognizedEvents := stats.recognizedEvents + 1;
    ghost var (next, authorized) := Observe(before.mapper, event);
    assert actions == authorized && stats.View() == Recognized(before).stats;
    assert World(mapper.View(), stats.View(), sink.offered) == Recognized(before.(mapper := next));
    DispatchAuthorizedActions(mapper, actions, sink, stats);
  }

  method FeedEvent(mapper: ControlMapper, event: ObservedEvent, options: Options, sink: ActionSink, stats: ReplayStats)
    returns (ok: bool)
    modifies mapper.Parts(), sink, stats
    ensures (World(mapper.View(), stats.View(), sink.offered), ok) ==
            Feed(sink.script, old(World(mapper.View(), stats.View(), sink.offered)), event, options)
  {
    hide ControlMapper.View, FeedStart, FeedEnd, FeedObserved;
    if event.generation == 0 {
      stats.errors := stats.errors + 1;
      return false;
    }
    if event.kind == GenerationStarted {
      ok := StartGeneration(mapper, event.generation, options, sink, stats);
      return;
    }
    if event.kind == GenerationEnded {
      ok := FinishGeneration(mapper, event.generation, sink, stats);
      return;
    }
    FeedObservation(mapper, event, sink, stats);
    return true;
  }
}
