/**
 The bounded recorder and the replayer of the volume gate
 (agent/avrcp_absolute_volume_observe_log.cpp).
 */
module ObserveLog {
  import opened Words
  import opened AbsoluteVolume
  import opened VolumeGating

  const LOG_CAPACITY := 256
  const SNAPSHOT_SCHEMA: uint32 := 1

  datatype LogKind =
    | GenerationStarted | GenerationEnded | CapabilitySeen | WindowsCallback | HeadsetVolume
    | LeaseAcquired | LeaseRevoked | ModeChanged | UnlistedLogKind(raw: uint32)

  datatype Status =
    | Accepted | InvalidArgument | InvalidEnum | OutOfRange | StaleGeneration | InvalidTransition
    | CapacityExceeded | ActionViolation

  datatype LogEvent = LogEvent(
    sequence: uint64,
    generation: uint64,
    kind: LogKind,
    support: Support,
    windowsVolume: WindowsVolume,
    headsetVolume: uint32,
    headsetEvent: HeadsetEvent,
    ownerLease: uint64,
    mode: GateMode)

  datatype Cursor = Cursor(lastGeneration: uint64, generationCurrent: bool, ownerLease: uint64)

  const RESET_CURSOR := Cursor(0, false, 0)

  // --------------------------------------------------- validating one event

  predicate HasListedEnums(event: LogEvent) {
    !event.kind.UnlistedLogKind? && !event.support.UnlistedSupport? && !event.headsetEvent.UnlistedEvent? &&
    !event.mode.UnlistedMode?
  }

  function Validate(event: LogEvent, expected: nat, c: Cursor): (Status, Cursor) {
    if event.sequence != expected || event.generation == 0 then (InvalidArgument, c)
    else if !HasListedEnums(event) then (InvalidEnum, c)
    else if event.windowsVolume.percent > 100 || event.headsetVolume > 127 then (OutOfRange, c)
    else if event.kind == GenerationStarted then
      if IsNewerGeneration(event.generation, c.lastGeneration) then (Accepted, Cursor(event.generation, true, 0))
      else (StaleGeneration, c)
    else if !c.generationCurrent || event.generation != c.lastGeneration then (StaleGeneration, c)
    else
      match event.kind
      case GenerationEnded => (Accepted, c.(generationCurrent := false, ownerLease := 0))
      case LeaseAcquired =>
        if event.ownerLease == 0 then (OutOfRange, c)
        else if c.ownerLease != 0 && c.ownerLease != event.ownerLease then (InvalidTransition, c)
        else (Accepted, c.(ownerLease := event.ownerLease))
      case LeaseRevoked =>
        if event.ownerLease == 0 then (OutOfRange, c)
        else if c.ownerLease != event.ownerLease then (InvalidTransition, c)
        else (Accepted, c.(ownerLease := 0))
      case _ => (Accepted, c)
  }

  /** Full re-validation of a prefix: the first rejection, or the cursor after the last event. */
  function Revalidate(events: seq<LogEvent>): (Status, Cursor) {
    if events == [] then (Accepted, RESET_CURSOR)
    else
      var last := |events| - 1;
      var (status, cursor) := Revalidate(events[..last]);
      if status != Accepted then (status, cursor) else Validate(events[last], last + 1, cursor)
  }

  // ---------------------------------------------------------------- recording

  datatype LogState = LogState(events: seq<LogEvent>, cursor: Cursor)

  const EMPTY_LOG := LogState([], RESET_CURSOR)

  /** The stored cursor is what re-validating every stored event gives. */
  ghost predicate Consistent(log: LogState) {
    |log.events| <= LOG_CAPACITY && Revalidate(log.events) == (Accepted, log.cursor)
  }

  function Recorded(log: LogState, event: LogEvent): (LogState, Status) {
    if event.sequence != 0 then (log, InvalidArgument)
    else
      var (existing, cursor) := Revalidate(log.events);
      if existing != Accepted then (log, existing)
      else if cursor != log.cursor then (log, InvalidTransition)
      else if |log.events| >= LOG_CAPACITY then (log, CapacityExceeded)
      else
        var candidate := event.(sequence := |log.events| + 1);
        var (status, next) := Validate(candidate, |log.events| + 1, cursor);
        if status != Accepted then (log, status) else (LogState(log.events + [candidate], next), Accepted)
  }

  function RecordAll(log: LogState, events: seq<LogEvent>): LogState
    decreases events
  {
    if events == [] then log else RecordAll(Recorded(log, events[0]).0, events[1..])
  }

  /**
   Recording keeps a log consistent, and on a consistent log the one validation that
   decides is that of the new event against the stored cursor.
   */
  lemma RecordingIsIncremental(log: LogState, event: LogEvent)
    requires Consistent(log)
    ensures Consistent(Recorded(log, event).0)
    ensures var candidate := event.(sequence := (|log.events| + 1) as uint64);
            var (status, next) := Validate(candidate, |log.events| + 1, log.cursor);
            Recorded(log, event) ==
            if event.sequence != 0 then (log, InvalidArgument)
            else if |log.events| == LOG_CAPACITY then (log, CapacityExceeded)
            else if status != Accepted then (log, status)
            else (LogState(log.events + [candidate], next), Accepted)
  {
    var candidate := event.(sequence := |log.events| + 1);
    var extended := log.events + [candidate];
    assert extended[..|log.events|] == log.events;
  }

  /** Nothing is added to a log whose events or stored cursor do not hold together. */
  lemma OnlyConsistentLogsGrow(log: LogState, event: LogEvent)
    requires !Consistent(log)
    ensures Recorded(log, event).0 == log && Recorded(log, event).1 != Accepted
  {
    hide Validate;
  }

  lemma {:induction false} RecordedLogsAreConsistent(log: LogState, events: seq<LogEvent>)
    requires Consistent(log)
    ensures Consistent(RecordAll(log, events))
    decreases events
  {
    if events != [] {
      RecordingIsIncremental(log, events[0]);
      RecordedLogsAreConsistent(Recorded(log, events[0]).0, events[1..]);
    }
  }

  // ----------------------------------------------------------------- replaying

  /** The nine counters of a snapshot, one for each category of event. */
  datatype EventCounts = EventCounts(
    generationsStarted: uint64,
    generationsEnded: uint64,
    capabilities: uint64,
    windowsCallbacks: uint64,
    commandResponses: uint64,
    remoteNotifications: uint64,
    leasesAcquired: uint64,
    leasesRevoked: uint64,
    modeChanges: uint64)
  {
    function Sum(): nat {
      generationsStarted + generationsEnded + capabilities + windowsCallbacks + commandResponses +
      remoteNotifications + leasesAcquired + leasesRevoked + modeChanges
    }
  }

  datatype ReplaySnapshot = ReplaySnapshot(
    schemaVersion: uint32,
    replayedEventCount: uint64,
    lastSequence: uint64,
    currentGeneration: uint64,
    generationCurrent: bool,
    support: Support,
    windowsVolumeObserved: bool,
    windowsVolume: WindowsVolume,
    headsetVolumeObserved: bool,
    headsetVolume: uint8,
    headsetEvent: HeadsetEvent,
    ownerLease: uint64,
    requestedMode: GateMode,
    enforcedReplayMode: GateMode,
    emittedActionCount: uint64,
    counts: EventCounts)

  const NO_COUNTS := EventCounts(0, 0, 0, 0, 0, 0, 0, 0, 0)

  const EMPTY_SNAPSHOT := ReplaySnapshot(
    SNAPSHOT_SCHEMA, 0, 0, 0, false, Unknown, false, DEFAULT_WINDOWS_VOLUME, false, 0, CommandResponse, 0, ObserveOnly,
    ObserveOnly, 0, NO_COUNTS)

  function Increment(counter: uint64): uint64 {
    if counter == MAX_U64 then 0 else counter + 1
  }

  /** The gate call a recorded event replays as; a recorded mode is never authorized. */
  function ReplayOp(event: LogEvent): GateOp {
    match event.kind
    case GenerationStarted => Begin(event.generation)
    case GenerationEnded => End(event.generation)
    case CapabilitySeen => Capability(event.generation, event.support)
    case WindowsCallback => WindowsVolumeSeen(event.generation, event.windowsVolume)
    case HeadsetVolume => HeadsetVolumeSeen(event.generation, event.headsetVolume, event.headsetEvent)
    case LeaseAcquired => Acquire(event.generation, event.ownerLease)
    case LeaseRevoked => Revoke(event.generation, event.ownerLease)
    case _ => SetMode(event.generation, ObserveOnly)
  }

  function CountKind(n: EventCounts, event: LogEvent): EventCounts {
    match event.kind
    case GenerationStarted => n.(generationsStarted := Increment(n.generationsStarted))
    case GenerationEnded => n.(generationsEnded := Increment(n.generationsEnded))
    case CapabilitySeen => n.(capabilities := Increment(n.capabilities))
    case WindowsCallback => n.(windowsCallbacks := Increment(n.windowsCallbacks))
    case HeadsetVolume =>
      if event.headsetEvent == CommandResponse then n.(commandResponses := Increment(n.commandResponses))
      else n.(remoteNotifications := Increment(n.remoteNotifications))
    case LeaseAcquired => n.(leasesAcquired := Increment(n.leasesAcquired))
    case LeaseRevoked => n.(leasesRevoked := Increment(n.leasesRevoked))
    case _ => n.(modeChanges := Increment(n.modeChanges))
  }

  /** The fields of the snapshot that describe what was last observed. */
  function Observed(s: ReplaySnapshot, event: LogEvent): ReplaySnapshot {
    match event.kind
    case GenerationStarted =>
      s.(currentGeneration := event.generation, generationCurrent := true, support := Unknown,
         windowsVolumeObserved := false, windowsVolume := DEFAULT_WINDOWS_VOLUME, headsetVolumeObserved := false,
         headsetVolume := 0, headsetEvent := CommandResponse, ownerLease := 0, requestedMode := ObserveOnly)
    case GenerationEnded => s.(generationCurrent := false, ownerLease := 0, requestedMode := ObserveOnly)
    case CapabilitySeen => s.(support := event.support)
    case WindowsCallback => s.(windowsVolumeObserved := true, windowsVolume := event.windowsVolume)
    case HeadsetVolume =>
      s.(headsetVolumeObserved := true, headsetVolume := event.headsetVolume % 0x100,
         headsetEvent := event.headsetEvent)
    case LeaseAcquired => s.(ownerLease := event.ownerLease)
    case LeaseRevoked => s.(ownerLease := 0)
    case _ => s.(requestedMode := event.mode)
  }

  function Counted(s: ReplaySnapshot, event: LogEvent): ReplaySnapshot {
    Observed(s, event).(counts := CountKind(s.counts, event))
  }

  predicate IsEmptyDecision(decision: GateDecision) {
    !decision.volume.HasAction() && decision.aclGeneration == 0 && decision.ownerLease == 0 &&
    decision.authorizationEpoch == 0
  }

  datatype ReplayState = ReplayState(cursor: Cursor, gate: GateState, snapshot: ReplaySnapshot)

  const RESET_REPLAY := ReplayState(RESET_CURSOR, RESET_GATE, EMPTY_SNAPSHOT)

  function ReplayEvent(r: ReplayState, event: LogEvent, expected: nat): (Status, ReplayState) {
    var (status, cursor) := Validate(event, expected, r.cursor);
    if status != Accepted then (status, r)
    else
      var (gate, decision) := GateStep(r.gate, ReplayOp(event));
      if !IsEmptyDecision(decision) then (ActionViolation, r)
      else
        var counted := Counted(r.snapshot, event);
        (Accepted, ReplayState(cursor, gate, counted.(replayedEventCount := Increment(counted.replayedEventCount),
                                                      lastSequence := event.sequence)))
  }

  function ReplayEvents(events: seq<LogEvent>): (Status, ReplayState) {
    if events == [] then (Accepted, RESET_REPLAY)
    else
      var last := |events| - 1;
      var (status, r) := ReplayEvents(events[..last]);
      if status != Accepted then (status, r) else ReplayEvent(r, events[last], last + 1)
  }

  function Replayed(log: LogState): (Status, Option<ReplaySnapshot>) {
    if |log.events| > LOG_CAPACITY then (InvalidArgument, None)
    else
      var (status, r) := ReplayEvents(log.events);
      if status != Accepted then (status, None)
      else if r.cursor != log.cursor then (InvalidTransition, None)
      else (Accepted, Some(r.snapshot))
  }

  // ------------------------------------------------- simulation and validity

  /** The replayed gate follows the cursor and never leaves observing. */
  ghost predicate Simulates(gate: GateState, c: Cursor) {
    gate.aclGeneration == c.lastGeneration && gate.aclGenerationCurrent == c.generationCurrent &&
    gate.ownerLease == c.ownerLease && gate.mode == ObserveOnly && (c.generationCurrent ==> c.lastGeneration != 0)
  }

  /** Every event is in one category; ends follow starts and revokes follow acquires. */
  ghost predicate Tallied(n: EventCounts, c: Cursor, count: nat) {
    && n.Sum() == count && (count != 0 ==> n.generationsStarted != 0)
    && (n.generationsStarted == 0 <==> c.lastGeneration == 0)
    && n.generationsEnded + (if c.generationCurrent then 1 else 0) <= n.generationsStarted
    && (!c.generationCurrent ==> c.ownerLease == 0 && (n.generationsStarted == 0 || n.generationsEnded != 0))
    && n.leasesRevoked + (if c.ownerLease != 0 then 1 else 0) <= n.leasesAcquired
  }

  /** What a snapshot says of generation, lease and mode is what the cursor knows. */
  ghost predicate Tracks(s: ReplaySnapshot, c: Cursor) {
    && s.currentGeneration == c.lastGeneration && s.generationCurrent == c.generationCurrent
    && s.ownerLease == c.ownerLease && (!s.generationCurrent ==> s.requestedMode == ObserveOnly)
    && s.schemaVersion == SNAPSHOT_SCHEMA && s.emittedActionCount == 0 && s.enforcedReplayMode == ObserveOnly
  }

  /** Nothing is shown that was never counted, nor out of range. */
  ghost predicate Backed(s: ReplaySnapshot, n: EventCounts) {
    && (s.support != Unknown ==> n.capabilities != 0)
    && (s.windowsVolumeObserved ==> n.windowsCallbacks != 0)
    && (s.headsetVolumeObserved ==> n.commandResponses != 0 || n.remoteNotifications != 0)
    && (s.requestedMode == Synchronize ==> n.modeChanges != 0)
    && !s.support.UnlistedSupport? && !s.headsetEvent.UnlistedEvent? && !s.requestedMode.UnlistedMode?
    && s.windowsVolume.percent <= 100 && s.headsetVolume <= 127
  }

  ghost predicate Balanced(s: ReplaySnapshot, c: Cursor, count: nat) {
    s.replayedEventCount == count && s.lastSequence == count && Tallied(s.counts, c, count) && Tracks(s, c) &&
    Backed(s, s.counts)
  }

  lemma SimulationStep(gate: GateState, c: Cursor, event: LogEvent, expected: nat)
    requires Simulates(gate, c) && Validate(event, expected, c).0 == Accepted
    ensures var (next, decision) := GateStep(gate, ReplayOp(event));
            IsEmptyDecision(decision) && Simulates(next, Validate(event, expected, c).1)
  {
  }

  function OneIf(condition: bool): nat {
    if condition then 1 else 0
  }

  /** Within capacity no counter wraps: the category of the event grows by one and nothing else moves. */
  lemma OneCategoryGrows(n: EventCounts, event: LogEvent)
    requires n.Sum() < LOG_CAPACITY && !event.kind.UnlistedLogKind?
    ensures var next, kind := CountKind(n, event), event.kind;
            var response := event.headsetEvent == CommandResponse;
            && next.generationsStarted == n.generationsStarted + OneIf(kind == GenerationStarted)
            && next.generationsEnded == n.generationsEnded + OneIf(kind == GenerationEnded)
            && next.capabilities == n.capabilities + OneIf(kind == CapabilitySeen)
            && next.windowsCallbacks == n.windowsCallbacks + OneIf(kind == WindowsCallback)
            && next.commandResponses == n.commandResponses + OneIf(kind == HeadsetVolume && response)
            && next.remoteNotifications == n.remoteNotifications + OneIf(kind == HeadsetVolume && !response)
            && next.leasesAcquired == n.leasesAcquired + OneIf(kind == LeaseAcquired)
            && next.leasesRevoked == n.leasesRevoked + OneIf(kind == LeaseRevoked)
            && next.modeChanges == n.modeChanges + OneIf(kind == ModeChanged)
  {
  }

  lemma SumGrows(n: EventCounts, event: LogEvent)
    requires n.Sum() < LOG_CAPACITY && !event.kind.UnlistedLogKind?
    ensures CountKind(n, event).Sum() == n.Sum() + 1
  {
    OneCategoryGrows(n, event);
    hide CountKind;
  }

  lemma TallyStep(n: EventCounts, c: Cursor, event: LogEvent, count: nat)
    requires Tallied(n, c, count) && count < LOG_CAPACITY && Validate(event, count + 1, c).0 == Accepted
    ensures Tallied(CountKind(n, event), Validate(event, count + 1, c).1, count + 1)
  {
    AcceptedEvents(event, count + 1, c);
    OneCategoryGrows(n, event);
    SumGrows(n, event);
    hide CountKind, EventCounts.Sum;
  }

  lemma TrackingStep(s: ReplaySnapshot, c: Cursor, event: LogEvent, count: nat)
    requires Tracks(s, c) && Validate(event, count + 1, c).0 == Accepted
    ensures Tracks(Counted(s, event), Validate(event, count + 1, c).1)
  {
  }

  lemma AcceptedEvents(event: LogEvent, expected: nat, c: Cursor)
    requires Validate(event, expected, c).0 == Accepted
    ensures event.sequence == expected && event.generation != 0 && HasListedEnums(event)
    ensures event.windowsVolume.percent <= 100 && event.headsetVolume <= 127
  {
  }

  lemma BackingStep(s: ReplaySnapshot, event: LogEvent)
    requires Backed(s, s.counts) && s.counts.Sum() < LOG_CAPACITY && HasListedEnums(event)
    requires event.windowsVolume.percent <= 100 && event.headsetVolume <= 127
    ensures Backed(Counted(s, event), CountKind(s.counts, event))
  {
    OneCategoryGrows(s.counts, event);
    hide CountKind, EventCounts.Sum;
  }

  ghost predicate Follows(r: ReplayState, c: Cursor, count: nat) {
    r.cursor == c && Simulates(r.gate, c) && Balanced(r.snapshot, c, count)
  }

  lemma ReplayStep(r: ReplayState, event: LogEvent, count: nat)
    requires count < LOG_CAPACITY && Follows(r, r.cursor, count)
    ensures var (status, next) := ReplayEvent(r, event, count + 1);
            && status == Validate(event, count + 1, r.cursor).0
            && (status == Accepted ==> Follows(next, Validate(event, count + 1, r.cursor).1, count + 1))
  {
    hide GateStep, CountKind, Validate;
    if Validate(event, count + 1, r.cursor).0 == Accepted {
      SimulationStep(r.gate, r.cursor, event, count + 1);
      TallyStep(r.snapshot.counts, r.cursor, event, count);
      TrackingStep(r.snapshot, r.cursor, event, count);
      AcceptedEvents(event, count + 1, r.cursor);
      BackingStep(r.snapshot, event);
    }
  }

  /** Replaying a log within capacity is re-validating it: same verdict, same cursor, never an action. */
  lemma {:induction false} ReplayFollowsValidation(events: seq<LogEvent>)
    requires |events| <= LOG_CAPACITY
    ensures ReplayEvents(events).0 == Revalidate(events).0
    ensures ReplayEvents(events).0 == Accepted ==> Follows(ReplayEvents(events).1, Revalidate(events).1, |events|)
  {
    if events == [] {
      assert Follows(RESET_REPLAY, RESET_CURSOR, 0);
    } else {
      var last := |events| - 1;
      ReplayFollowsValidation(events[..last]);
      ReplayAfter(ReplayEvents(events[..last]), Revalidate(events[..last]), events[last], last);
    }
  }

  lemma ReplayAfter(replayed: (Status, ReplayState), validated: (Status, Cursor), event: LogEvent, count: nat)
    requires count < LOG_CAPACITY && replayed.0 == validated.0
    requires replayed.0 == Accepted ==> Follows(replayed.1, validated.1, count)
    ensures var next := if replayed.0 != Accepted then replayed else ReplayEvent(replayed.1, event, count + 1);
            var valid := if validated.0 != Accepted then validated else Validate(event, count + 1, validated.1);
            next.0 == valid.0 && (next.0 == Accepted ==> Follows(next.1, valid.1, count + 1))
  {
    if replayed.0 == Accepted {
      ReplayStep(replayed.1, event, count);
    }
  }

  /** A log replays as accepted exactly when it is consistent; no log ends in an action violation. */
  lemma ReplayAcceptsConsistentLogs(log: LogState)
    ensures Replayed(log).0 == Accepted <==> Consistent(log)
    ensures Replayed(log).0 != ActionViolation
    ensures Replayed(log).1.Some? <==> Replayed(log).0 == Accepted
    ensures Replayed(log).0 == Accepted ==> Balanced(Replayed(log).1.value, log.cursor, |log.events|)
  {
    if |log.events| <= LOG_CAPACITY {
      ReplayFollowsValidation(log.events);
      ValidationNeverActs(log.events);
    }
  }

  lemma {:induction false} ValidationNeverActs(events: seq<LogEvent>)
    ensures Revalidate(events).0 != ActionViolation
  {
    if events != [] {
      ValidationNeverActs(events[..|events| - 1]);
    }
  }

  /** Every log built from empty by recording, accepted or refused, replays as accepted. */
  lemma RecordedLogsReplay(events: seq<LogEvent>)
    ensures Replayed(RecordAll(EMPTY_LOG, events)).0 == Accepted
  {
    RecordedLogsAreConsistent(EMPTY_LOG, events);
    ReplayAcceptsConsistentLogs(RecordAll(EMPTY_LOG, events));
  }

  // ------------------------------------------------ what is accepted, and why

  /** An event that could stand in a log: numbered as expected, of some generation, listed and in range. */
  predicate WellFormed(event: LogEvent, expected: nat) {
    event.sequence == expected && event.generation != 0 && HasListedEnums(event) &&
    event.windowsVolume.percent <= 100 && event.headsetVolume <= 127
  }

  /** Whether the gate would take the event: a newer generation, or one of the current and a lease it can honour. */
  predicate GateTakes(gate: GateState, event: LogEvent) {
    if event.kind == GenerationStarted then Withdraws(gate, Begin(event.generation))
    else
      && IsCurrentGeneration(gate, event.generation)
      && (event.kind == LeaseAcquired ==>
            event.ownerLease != 0 &&
            GateStep(gate, Acquire(event.generation, event.ownerLease)).0.ownerLease == event.ownerLease)
      && (event.kind == LeaseRevoked ==> Withdraws(gate, Revoke(event.generation, event.ownerLease)))
  }

  /** An event is accepted exactly if it is well formed and the gate the log describes takes it. */
  lemma AcceptedExactly(gate: GateState, c: Cursor, event: LogEvent, expected: nat)
    requires Simulates(gate, c)
    ensures Validate(event, expected, c).0 == Accepted <==> WellFormed(event, expected) && GateTakes(gate, event)
  {
    hide Activated;
    ActivationKeepsLease(gate.(ownerLease := event.ownerLease));
  }

  lemma ActivationKeepsLease(gate: GateState)
    ensures Activated(gate).0.ownerLease == gate.ownerLease
  {
  }

  /** And it is refused for the first of these reasons that applies. */
  lemma RefusedForAReason(gate: GateState, c: Cursor, event: LogEvent, expected: nat)
    requires Simulates(gate, c)
    ensures var status := Validate(event, expected, c).0;
            var numbered := event.sequence == expected && event.generation != 0;
            var lease := event.kind == LeaseAcquired || event.kind == LeaseRevoked;
            var placed := if event.kind == GenerationStarted then Withdraws(gate, Begin(event.generation))
                          else IsCurrentGeneration(gate, event.generation);
            && (status == InvalidArgument <==> !numbered)
            && (status == InvalidEnum <==> numbered && !HasListedEnums(event))
            && (status == StaleGeneration <==> WellFormed(event, expected) && !placed)
            && (status == InvalidTransition <==>
                  WellFormed(event, expected) && placed && lease && event.ownerLease != 0 && !GateTakes(gate, event))
            && (status == OutOfRange <==>
                  && numbered && HasListedEnums(event)
                  && (WellFormed(event, expected) ==> placed && lease && event.ownerLease == 0))
  {
    AcceptedExactly(gate, c, event, expected);
    hide GateStep;
  }

  lemma ReplayedConsistently(log: LogState)
    requires Consistent(log)
    ensures Simulates(ReplayEvents(log.events).1.gate, log.cursor)
  {
    ReplayFollowsValidation(log.events);
    hide ReplayEvents, Revalidate, Simulates, Balanced;
  }

  /** The recorder accepts exactly an unnumbered event that fits, while there is room, and that replay's gate takes. */
  lemma RecordedExactly(log: LogState, event: LogEvent)
    requires Consistent(log)
    ensures var candidate := event.(sequence := (|log.events| + 1) as uint64);
            Recorded(log, event).1 == Accepted <==>
            && event.sequence == 0 && |log.events| < LOG_CAPACITY && WellFormed(candidate, |log.events| + 1)
            && GateTakes(ReplayEvents(log.events).1.gate, candidate)
  {
    hide Validate, WellFormed, GateTakes, Simulates, Tracks, EventCounts.Sum;
    ReplayedConsistently(log);
    RecordingIsIncremental(log, event);
    hide Recorded, Consistent, Replayed;
    if |log.events| < LOG_CAPACITY {
      var candidate := event.(sequence := (|log.events| + 1) as uint64);
      AcceptedExactly(ReplayEvents(log.events).1.gate, log.cursor, candidate, |log.events| + 1);
    }
  }

  // --------------------------------------------------- a log of every kind

  const BLANK_EVENT := LogEvent(
    0, 1, GenerationStarted, Supported, WindowsVolume(50, false), 64, RemoteNotification, 7, Synchronize)

  /** One generation with an event of each kind. */
  const EVERY_KIND: seq<LogKind> := [
    GenerationStarted, CapabilitySeen, WindowsCallback, HeadsetVolume, LeaseAcquired, ModeChanged, LeaseRevoked,
    GenerationEnded]

  function Numbered(kinds: seq<LogKind>, count: nat): seq<LogEvent>
    requires count <= |kinds| <= LOG_CAPACITY
  {
    seq(count, i requires 0 <= i < count => BLANK_EVENT.(kind := kinds[i], sequence := i + 1))
  }

  function Offered(kinds: seq<LogKind>): seq<LogEvent> {
    seq(|kinds|, i requires 0 <= i < |kinds| => BLANK_EVENT.(kind := kinds[i]))
  }

  /** The cursor after the first events of that generation. */
  function EveryKindCursor(count: nat): Cursor {
    Cursor(if count == 0 then 0 else 1, 1 <= count <= 7, if count == 5 || count == 6 then 7 else 0)
  }

  lemma NextKindIsValid(count: nat)
    requires count < 8
    ensures Validate(BLANK_EVENT.(kind := EVERY_KIND[count], sequence := count + 1), count + 1,
                     EveryKindCursor(count)) == (Accepted, EveryKindCursor(count + 1))
  {
  }

  lemma NextKindIsRecorded(count: nat)
    requires count < 8 && Consistent(LogState(Numbered(EVERY_KIND, count), EveryKindCursor(count)))
    ensures var log := LogState(Numbered(EVERY_KIND, count), EveryKindCursor(count));
            Recorded(log, BLANK_EVENT.(kind := EVERY_KIND[count])) ==
            (LogState(Numbered(EVERY_KIND, count + 1), EveryKindCursor(count + 1)), Accepted)
  {
    var log := LogState(Numbered(EVERY_KIND, count), EveryKindCursor(count));
    NextKindIsValid(count);
    RecordingIsIncremental(log, BLANK_EVENT.(kind := EVERY_KIND[count]));
    hide Recorded, Validate, Revalidate;
    assert Numbered(EVERY_KIND, count + 1) ==
           Numbered(EVERY_KIND, count) + [BLANK_EVENT.(kind := EVERY_KIND[count], sequence := count + 1)];
  }

  lemma {:induction false} EveryKindFrom(count: nat)
    requires count <= 8 && Consistent(LogState(Numbered(EVERY_KIND, count), EveryKindCursor(count)))
    ensures RecordAll(LogState(Numbered(EVERY_KIND, count), EveryKindCursor(count)), Offered(EVERY_KIND)[count..]) ==
            LogState(Numbered(EVERY_KIND, 8), EveryKindCursor(8))
    decreases 8 - count
  {
    var log, rest := LogState(Numbered(EVERY_KIND, count), EveryKindCursor(count)), Offered(EVERY_KIND)[count..];
    if count < 8 {
      NextKindIsRecorded(count);
      RecordingIsIncremental(log, BLANK_EVENT.(kind := EVERY_KIND[count]));
      hide Recorded, Revalidate, Consistent;
      assert rest[0] == BLANK_EVENT.(kind := EVERY_KIND[count]) && rest[1..] == Offered(EVERY_KIND)[count + 1..];
      EveryKindFrom(count + 1);
    } else {
      assert rest == [];
    }
  }

  /** A stream with an event of each of the eight kinds is recorded whole. */
  lemma EveryKindIsRecorded()
    ensures RecordAll(EMPTY_LOG, Offered(EVERY_KIND)).events == Numbered(EVERY_KIND, 8)
  {
    assert Numbered(EVERY_KIND, 0) == [] && Offered(EVERY_KIND)[0..] == Offered(EVERY_KIND);
    assert LogState(Numbered(EVERY_KIND, 0), EveryKindCursor(0)) == EMPTY_LOG;
    EveryKindFrom(0);
  }

  // ------------------------------------------------------- what a snapshot shows

  /** The last event of a kind in the generation the events end in. */
  function LastOf(events: seq<LogEvent>, kind: LogKind): Option<LogEvent> {
    if events == [] then None
    else
      var last := events[|events| - 1];
      if last.kind == kind then Some(last)
      else if last.kind == GenerationStarted then None
      else LastOf(events[..|events| - 1], kind)
  }

  function KindCount(events: seq<LogEvent>, kind: LogKind): nat {
    if events == [] then 0
    else KindCount(events[..|events| - 1], kind) + OneIf(events[|events| - 1].kind == kind)
  }

  ghost predicate ShowsLast(s: ReplaySnapshot, support: Option<LogEvent>, windows: Option<LogEvent>,
                            headset: Option<LogEvent>, mode: Option<LogEvent>)
  {
    && s.support == (if support.Some? then support.value.support else Unknown)
    && s.windowsVolumeObserved == windows.Some?
    && s.windowsVolume == (if windows.Some? then windows.value.windowsVolume else DEFAULT_WINDOWS_VOLUME)
    && s.headsetVolumeObserved == headset.Some?
    && s.headsetVolume == (if headset.Some? then headset.value.headsetVolume else 0)
    && s.headsetEvent == (if headset.Some? then headset.value.headsetEvent else CommandResponse)
    && s.requestedMode == (if s.generationCurrent && mode.Some? then mode.value.mode else ObserveOnly)
  }

  lemma NothingShown()
    ensures ShowsLast(EMPTY_SNAPSHOT, None, None, None, None)
  {
  }

  function Updated(before: Option<LogEvent>, event: LogEvent, kind: LogKind): Option<LogEvent> {
    if event.kind == kind then Some(event) else if event.kind == GenerationStarted then None else before
  }

  lemma EventIsShown(s: ReplaySnapshot, c: Cursor, event: LogEvent, expected: nat, support: Option<LogEvent>,
                     windows: Option<LogEvent>, headset: Option<LogEvent>, mode: Option<LogEvent>)
    requires ShowsLast(s, support, windows, headset, mode) && Tracks(s, c)
    requires Validate(event, expected, c).0 == Accepted
    ensures ShowsLast(Counted(s, event), Updated(support, event, CapabilitySeen),
                      Updated(windows, event, WindowsCallback), Updated(headset, event, HeadsetVolume),
                      Updated(mode, event, ModeChanged))
  {
    AcceptedEvents(event, expected, c);
    hide CountKind;
    OtherEventsAreCurrent(event, expected, c);
    hide Validate;
  }

  lemma OtherEventsAreCurrent(event: LogEvent, expected: nat, c: Cursor)
    requires Validate(event, expected, c).0 == Accepted
    ensures event.kind == GenerationStarted || c.generationCurrent
  {
  }

  /**
   The support, the volumes and the requested mode of a replayed snapshot are those of the
   last event of their kind in the current generation, and absent without one.
   */
  lemma {:induction false} SnapshotShowsTheLast(events: seq<LogEvent>)
    requires |events| <= LOG_CAPACITY && ReplayEvents(events).0 == Accepted
    ensures ShowsLast(ReplayEvents(events).1.snapshot, LastOf(events, CapabilitySeen), LastOf(events, WindowsCallback),
                      LastOf(events, HeadsetVolume), LastOf(events, ModeChanged))
  {
    hide ShowsLast, Counted, GateStep, Validate;
    if events == [] {
      NothingShown();
    } else {
      var last := |events| - 1;
      var before, r := events[..last], ReplayEvents(events[..last]).1;
      SnapshotShowsTheLast(before);
      ReplayFollowsValidation(before);
      EventIsShown(r.snapshot, r.cursor, events[last], last + 1, LastOf(before, CapabilitySeen),
                   LastOf(before, WindowsCallback), LastOf(before, HeadsetVolume), LastOf(before, ModeChanged));
      ShowsRegardlessOfCount(Counted(r.snapshot, events[last]), ReplayEvents(events).1.snapshot,
                             LastOf(events, CapabilitySeen), LastOf(events, WindowsCallback),
                             LastOf(events, HeadsetVolume), LastOf(events, ModeChanged));
    }
  }

  lemma ShowsRegardlessOfCount(a: ReplaySnapshot, b: ReplaySnapshot, support: Option<LogEvent>,
                               windows: Option<LogEvent>, headset: Option<LogEvent>, mode: Option<LogEvent>)
    requires b == a.(replayedEventCount := b.replayedEventCount, lastSequence := b.lastSequence)
    ensures ShowsLast(a, support, windows, headset, mode) ==> ShowsLast(b, support, windows, headset, mode)
  {
  }

  /** And its counters are the numbers of events of each kind. */
  ghost predicate CountsKinds(n: EventCounts, events: seq<LogEvent>) {
    && n.generationsStarted == KindCount(events, GenerationStarted)
    && n.generationsEnded == KindCount(events, GenerationEnded)
    && n.capabilities == KindCount(events, CapabilitySeen)
    && n.windowsCallbacks == KindCount(events, WindowsCallback)
    && n.commandResponses + n.remoteNotifications == KindCount(events, HeadsetVolume)
    && n.leasesAcquired == KindCount(events, LeaseAcquired) && n.leasesRevoked == KindCount(events, LeaseRevoked)
    && n.modeChanges == KindCount(events, ModeChanged)
  }

  lemma KindCountGrows(events: seq<LogEvent>, kind: LogKind)
    requires events != []
    ensures var last := |events| - 1;
            KindCount(events, kind) == KindCount(events[..last], kind) + OneIf(events[last].kind == kind)
  {
  }

  lemma OneMoreIsCounted(n: EventCounts, events: seq<LogEvent>)
    requires events != [] && CountsKinds(n, events[..|events| - 1])
    requires n.Sum() < LOG_CAPACITY && !events[|events| - 1].kind.UnlistedLogKind?
    ensures CountsKinds(CountKind(n, events[|events| - 1]), events)
  {
    OneCategoryGrows(n, events[|events| - 1]);
    KindCountGrows(events, GenerationStarted);
    KindCountGrows(events, GenerationEnded);
    KindCountGrows(events, CapabilitySeen);
    KindCountGrows(events, WindowsCallback);
    KindCountGrows(events, HeadsetVolume);
    KindCountGrows(events, LeaseAcquired);
    KindCountGrows(events, LeaseRevoked);
    KindCountGrows(events, ModeChanged);
    hide KindCount, CountKind, EventCounts.Sum;
  }

  lemma NothingCounted()
    ensures CountsKinds(CountsOf([]), [])
  {
  }

  lemma ReplayedEventCounts(r: ReplayState, event: LogEvent, expected: nat)
    requires ReplayEvent(r, event, expected).0 == Accepted
    ensures Validate(event, expected, r.cursor).0 == Accepted
    ensures ReplayEvent(r, event, expected).1.snapshot.counts == CountKind(r.snapshot.counts, event)
  {
    hide Validate, GateStep, CountKind, Observed;
  }

  /** What follows a log within capacity, in the pieces that other results ask for. */
  lemma FollowedPieces(events: seq<LogEvent>)
    requires |events| <= LOG_CAPACITY && ReplayEvents(events).0 == Accepted
    ensures CountsOf(events).Sum() == |events|
    ensures Simulates(ReplayEvents(events).1.gate, ReplayEvents(events).1.cursor)
    ensures Tracks(ReplayEvents(events).1.snapshot, ReplayEvents(events).1.cursor)
  {
    ReplayFollowsValidation(events);
    hide ReplayEvents, Revalidate, Simulates, Tracks, Backed, EventCounts.Sum;
  }

  function CountsOf(events: seq<LogEvent>): EventCounts {
    ReplayEvents(events).1.snapshot.counts
  }

  lemma ReplayUnfolds(events: seq<LogEvent>)
    requires events != [] && ReplayEvents(events).0 == Accepted
    ensures var last := |events| - 1; var before := events[..last];
            && ReplayEvents(before).0 == Accepted && !events[last].kind.UnlistedLogKind?
            && CountsOf(events) == CountKind(CountsOf(before), events[last])
  {
    hide CountKind, Validate, ReplayEvent;
    var last := |events| - 1;
    var before := events[..last];
    ReplayedEventCounts(ReplayEvents(before).1, events[last], last + 1);
    ListedKind(events[last], last + 1, ReplayEvents(before).1.cursor);
  }

  lemma {:induction false} SnapshotCountsKinds(events: seq<LogEvent>)
    requires |events| <= LOG_CAPACITY && ReplayEvents(events).0 == Accepted
    ensures CountsKinds(CountsOf(events), events)
  {
    hide CountKind, EventCounts.Sum, CountsKinds, ReplayEvents, CountsOf;
    if events == [] {
      NothingCounted();
    } else {
      var before := events[..|events| - 1];
      ReplayUnfolds(events);
      FollowedPieces(before);
      SnapshotCountsKinds(before);
      OneMoreIsCounted(CountsOf(before), events);
    }
  }

  lemma ListedKind(event: LogEvent, expected: nat, c: Cursor)
    requires Validate(event, expected, c).0 == Accepted
    ensures !event.kind.UnlistedLogKind?
  {
  }

  // --------------------------------------------------------------- in place

  /** The fixed array and the summary fields; only the first `eventCount` entries are events. */
  class EventLog {
    const events: array<LogEvent>
    var eventCount: nat
    var lastGeneration: uint64
    var generationCurrent: bool
    var observedOwnerLease: uint64

    /** The array is the one the log was made with; everything else may be damaged. */
    predicate Allocated() {
      events.Length == LOG_CAPACITY
    }

    function View(): LogState
      reads this, events
      requires Allocated() && eventCount <= LOG_CAPACITY
    {
      LogState(events[..eventCount], Cursor(lastGeneration, generationCurrent, observedOwnerLease))
    }

    constructor ()
      ensures Allocated() && eventCount == 0 && View() == EMPTY_LOG && fresh(events)
    {
      var blank :=
        LogEvent(0, 0, GenerationStarted, Unknown, DEFAULT_WINDOWS_VOLUME, 0, CommandResponse, 0, ObserveOnly);
      events := new LogEvent[LOG_CAPACITY](_ => blank);
      eventCount, lastGeneration, generationCurrent, observedOwnerLease := 0, 0, false, 0;
    }

    method Record(event: LogEvent) returns (status: Status)
      requires Allocated()
      modifies this, events
      ensures old(eventCount) > LOG_CAPACITY ==>
                status == InvalidArgument && eventCount == old(eventCount) && events[..] == old(events[..])
      ensures old(eventCount) <= LOG_CAPACITY ==>
                eventCount <= LOG_CAPACITY && (View(), status) == Recorded(old(View()), event)
    {
      if event.sequence != 0 || eventCount > LOG_CAPACITY {
        return InvalidArgument;
      }
      var cursor := RESET_CURSOR;
      var index := 0;
      while index < eventCount
        invariant 0 <= index <= eventCount
        invariant Revalidate(events[..index]) == (Accepted, cursor)
      {
        var (existing, next) := Validate(events[index], index + 1, cursor);
        assert events[..index + 1][..index] == events[..index] && events[..index + 1][index] == events[index];
        if existing != Accepted {
          assert events[..eventCount][..index + 1] == events[..index + 1];
          RejectedPrefix(events[..eventCount], index + 1);
          return existing;
        }
        cursor := next;
        index := index + 1;
      }
      if cursor.lastGeneration != lastGeneration || cursor.generationCurrent != generationCurrent ||
         cursor.ownerLease != observedOwnerLease {
        return InvalidTransition;
      }
      if eventCount == LOG_CAPACITY {
        return CapacityExceeded;
      }
      var candidate := event.(sequence := eventCount + 1);
      var (verdict, next) := Validate(candidate, candidate.sequence, cursor);
      if verdict != Accepted {
        return verdict;
      }
      events[eventCount] := candidate;
      eventCount := eventCount + 1;
      assert events[..eventCount] == old(events[..eventCount]) + [candidate];
      lastGeneration := next.lastGeneration;
      generationCurrent := next.generationCurrent;
      observedOwnerLease := next.ownerLease;
      return Accepted;
    }

    /** The loop over the stored events, up to the first that is refused. */
    method ReplayLoop() returns (status: Status, cursor: Cursor, next: ReplaySnapshot)
      requires Allocated() && eventCount <= LOG_CAPACITY
      ensures var (verdict, r) := ReplayEvents(events[..eventCount]);
              status == verdict && (status == Accepted ==> cursor == r.cursor && next == r.snapshot)
      ensures next.emittedActionCount == 0
    {
      hide VolumeGate.View, ReplayEvent;
      status, cursor, next := Accepted, RESET_CURSOR, EMPTY_SNAPSHOT;
      var gate := new VolumeGate();
      ghost var state := RESET_REPLAY;
      var index := 0;
      while index < eventCount
        invariant 0 <= index <= eventCount && status == Accepted
        invariant fresh(gate) && fresh(gate.reducer)
        invariant next.emittedActionCount == 0
        invariant state == ReplayState(cursor, gate.View(), next)
        invariant ReplayEvents(events[..index]) == (Accepted, state)
      {
        assert events[..index + 1][..index] == events[..index] && events[..index + 1][index] == events[index];
        status, cursor, next := ReplayOne(gate, cursor, next, events[index], index + 1);
        if status != Accepted {
          assert events[..eventCount][..index + 1] == events[..index + 1];
          RejectedReplay(events[..eventCount], index + 1);
          return;
        }
        state := ReplayEvent(state, events[index], index + 1).1;
        index := index + 1;
      }
    }

    method Replay() returns (status: Status, snapshot: Option<ReplaySnapshot>)
      requires Allocated()
      ensures (status, snapshot) ==
              if eventCount > LOG_CAPACITY then (InvalidArgument, None) else Replayed(View())
    {
      hide ReplayEvents;
      if eventCount > LOG_CAPACITY {
        return InvalidArgument, None;
      }
      var verdict, cursor, next := ReplayLoop();
      if verdict != Accepted {
        return verdict, None;
      }
      if cursor.lastGeneration != lastGeneration || cursor.generationCurrent != generationCurrent ||
         cursor.ownerLease != observedOwnerLease {
        return InvalidTransition, None;
      }
      return Accepted, Some(next.(emittedActionCount := 0));
    }
  }

  /** One turn of the replay loop. */
  method ReplayOne(gate: VolumeGate, cursor: Cursor, snapshot: ReplaySnapshot, event: LogEvent, expected: nat)
    returns (status: Status, nextCursor: Cursor, next: ReplaySnapshot)
    modifies gate, gate.reducer
    ensures var r := ReplayEvent(ReplayState(cursor, old(gate.View()), snapshot), event, expected);
            status == r.0 && (status == Accepted ==> ReplayState(nextCursor, gate.View(), next) == r.1)
    ensures next.emittedActionCount == snapshot.emittedActionCount
  {
    next := snapshot;
    status, nextCursor := Validate(event, expected, cursor).0, Validate(event, expected, cursor).1;
    if status != Accepted {
      return;
    }
    var decision := ReplayThroughGate(gate, event);
    if !IsEmptyDecision(decision) {
      return ActionViolation, nextCursor, next;
    }
    next := Counted(next, event);
    next := next.(replayedEventCount := Increment(next.replayedEventCount), lastSequence := event.sequence);
  }

  method ReplayThroughGate(gate: VolumeGate, event: LogEvent) returns (decision: GateDecision)
    modifies gate, gate.reducer
    ensures (gate.View(), decision) == GateStep(old(gate.View()), ReplayOp(event))
  {
    match event.kind {
      case GenerationStarted => decision := gate.BeginAclGeneration(event.generation);
      case GenerationEnded => decision := gate.EndAclGeneration(event.generation);
      case CapabilitySeen => decision := gate.ObserveCapability(event.generation, event.support);
      case WindowsCallback => decision := gate.ObserveWindowsVolume(event.generation, event.windowsVolume);
      case HeadsetVolume =>
        decision := gate.ObserveHeadsetVolume(event.generation, event.headsetVolume, event.headsetEvent);
      case LeaseAcquired => decision := gate.AcquireOwnerLease(event.generation, event.ownerLease);
      case LeaseRevoked => decision := gate.RevokeOwnerLease(event.generation, event.ownerLease);
      case _ => decision := gate.SetGateMode(event.generation, ObserveOnly);
    }
  }

  lemma {:induction false} RejectedPrefix(events: seq<LogEvent>, length: nat)
    requires length <= |events| && Revalidate(events[..length]).0 != Accepted
    ensures Revalidate(events) == Revalidate(events[..length])
    decreases |events| - length
  {
    if length == |events| {
      assert events[..length] == events;
    } else {
      assert events[..length + 1][..length] == events[..length];
      RejectedPrefix(events, length + 1);
    }
  }

  lemma {:induction false} RejectedReplay(events: seq<LogEvent>, length: nat)
    requires length <= |events| && ReplayEvents(events[..length]).0 != Accepted
    ensures ReplayEvents(events) == ReplayEvents(events[..length])
    decreases |events| - length
  {
    if length == |events| {
      assert events[..length] == events;
    } else {
      assert events[..length + 1][..length] == events[..length];
      RejectedReplay(events, length + 1);
    }
  }
}
