/**
 The authorization gate around the volume reducer
 (agent/avrcp_absolute_volume_state.cpp): generation, owner lease, mode,
 capability and epoch decide whether a reducer decision may be executed.
 */
module VolumeGating {
  import opened Words
  import opened AbsoluteVolume

  datatype GateMode = ObserveOnly | Synchronize | UnlistedMode(raw: uint32)

  datatype GateDecision = GateDecision(
    volume: VolumeDecision,
    aclGeneration: uint64,
    ownerLease: uint64,
    authorizationEpoch: uint64)

  const NO_GATE_DECISION := GateDecision(NO_VOLUME_ACTION, 0, 0, 0)

  datatype GateState = GateState(
    aclGeneration: uint64,
    aclGenerationCurrent: bool,
    ownerLease: uint64,
    authorizationEpoch: uint64,
    mode: GateMode,
    observedSupport: Support,
    windowsVolumeObserved: bool,
    lastWindowsVolume: WindowsVolume,
    headsetVolumeObserved: bool,
    lastHeadsetVolume: uint8,
    lastHeadsetEvent: HeadsetEvent,
    reducer: ReducerState)

  const RESET_GATE := GateState(
    0, false, 0, 0, ObserveOnly, Unknown, false, DEFAULT_WINDOWS_VOLUME, false, 0, RemoteNotification, RESET_REDUCER)

  // ------------------------------------------------ the gate as a function

  predicate IsCurrentGeneration(s: GateState, aclGeneration: uint64) {
    aclGeneration != 0 && s.aclGenerationCurrent && s.aclGeneration == aclGeneration
  }

  predicate CanSynchronize(s: GateState) {
    s.aclGenerationCurrent && s.aclGeneration != 0 && s.ownerLease != 0 && s.mode == Synchronize &&
    s.observedSupport == Supported && s.windowsVolumeObserved
  }

  function Invalidated(s: GateState): GateState {
    s.(authorizationEpoch := NextNonzero(s.authorizationEpoch), reducer := RESET_REDUCER)
  }

  function Authorized(s: GateState, volume: VolumeDecision): GateDecision {
    if CanSynchronize(s) && volume.HasAction()
    then GateDecision(volume, s.aclGeneration, s.ownerLease, s.authorizationEpoch)
    else NO_GATE_DECISION
  }

  function Activated(s: GateState): (GateState, GateDecision) {
    if !CanSynchronize(s) || s.reducer.sessionActive then (s, NO_GATE_DECISION)
    else
      var (reducer, volume) := BeginSession(RESET_REDUCER, s.aclGeneration, Supported, s.lastWindowsVolume);
      var active := s.(reducer := reducer);
      (active, Authorized(active, volume))
  }

  predicate IsDecisionCurrent(s: GateState, decision: GateDecision) {
    decision.volume.HasAction() && CanSynchronize(s) && s.reducer.sessionActive &&
    decision.aclGeneration == s.aclGeneration && decision.ownerLease == s.ownerLease &&
    decision.authorizationEpoch == s.authorizationEpoch
  }

  /** The eight entry points of the gate; every one but `Begin` names the generation it was issued for. */
  datatype GateOp =
    | Begin(generation: uint64)
    | SetMode(generation: uint64, mode: GateMode)
    | Acquire(generation: uint64, lease: uint64)
    | Revoke(generation: uint64, lease: uint64)
    | Capability(generation: uint64, support: Support)
    | WindowsVolumeSeen(generation: uint64, windows: WindowsVolume)
    | HeadsetVolumeSeen(generation: uint64, headset: uint32, event: HeadsetEvent)
    | End(generation: uint64)

  function GateStep(s: GateState, op: GateOp): (GateState, GateDecision) {
    match op
    case Begin(g) =>
      if !IsNewerGeneration(g, s.aclGeneration) then (s, NO_GATE_DECISION)
      else (Invalidated(RESET_GATE.(authorizationEpoch := s.authorizationEpoch))
            .(aclGeneration := g, aclGenerationCurrent := true), NO_GATE_DECISION)
    case SetMode(g, mode) =>
      if !IsCurrentGeneration(s, g) then (s, NO_GATE_DECISION)
      else if mode != Synchronize then (Invalidated(s.(mode := mode)), NO_GATE_DECISION)
      else Activated(s.(mode := mode))
    case Acquire(g, lease) =>
      if lease == 0 || !IsCurrentGeneration(s, g) || (s.ownerLease != 0 && s.ownerLease != lease)
      then (s, NO_GATE_DECISION)
      else Activated(s.(ownerLease := lease))
    case Revoke(g, lease) =>
      if lease == 0 || !IsCurrentGeneration(s, g) || s.ownerLease != lease then (s, NO_GATE_DECISION)
      else (Invalidated(s.(ownerLease := 0)), NO_GATE_DECISION)
    case Capability(g, support) =>
      if !IsCurrentGeneration(s, g) then (s, NO_GATE_DECISION)
      else if support != Supported then (Invalidated(s.(observedSupport := support)), NO_GATE_DECISION)
      else Activated(s.(observedSupport := support))
    case WindowsVolumeSeen(g, windows) =>
      if !IsCurrentGeneration(s, g) then (s, NO_GATE_DECISION)
      else
        var seen := s.(windowsVolumeObserved := true, lastWindowsVolume := Clamp(windows));
        if !CanSynchronize(seen) then (seen, NO_GATE_DECISION)
        else if !seen.reducer.sessionActive then Activated(seen)
        else
          var (reducer, volume) := ReduceWindows(seen.reducer, g, seen.lastWindowsVolume);
          (seen.(reducer := reducer), Authorized(seen, volume))
    case HeadsetVolumeSeen(g, headset, event) =>
      if headset > 127 || !IsCurrentGeneration(s, g) then (s, NO_GATE_DECISION)
      else
        var seen := s.(headsetVolumeObserved := true, lastHeadsetVolume := headset, lastHeadsetEvent := event);
        if !CanSynchronize(seen) || !seen.reducer.sessionActive then (seen, NO_GATE_DECISION)
        else
          var (reducer, volume) := ReduceHeadset(seen.reducer, g, headset, event);
          (seen.(reducer := reducer), Authorized(seen, volume))
    case End(g) =>
      if !IsCurrentGeneration(s, g) then (s, NO_GATE_DECISION)
      else (Invalidated(s.(aclGenerationCurrent := false, ownerLease := 0, mode := ObserveOnly,
                           observedSupport := Unknown)), NO_GATE_DECISION)
  }

  function GateRun(s: GateState, ops: seq<GateOp>): GateState
    decreases ops
  {
    if ops == [] then s else GateRun(GateStep(s, ops[0]).0, ops[1..])
  }

  // -------------------------------------------- gate and reducer agree

  ghost predicate Agrees(s: GateState) {
    && (s.reducer.sessionActive <==> CanSynchronize(s))
    && s.lastWindowsVolume.percent <= 100
    && (s.reducer.sessionActive ==>
          && s.reducer.generation == s.aclGeneration
          && s.reducer.support == Supported
          && s.reducer.windowsVolumeKnown
          && s.reducer.firstSessionSyncComplete
          && s.reducer.windowsVolume == s.lastWindowsVolume
          && s.reducer.lastHeadsetVolumeSent == Project(s.lastWindowsVolume))
  }

  lemma ActivationKeepsAgreement(s: GateState)
    requires s.lastWindowsVolume.percent <= 100
    requires s.reducer.sessionActive ==> Agrees(s)
    ensures Agrees(Activated(s).0)
  {
  }

  lemma WindowsKeepsAgreement(s: GateState, g: uint64, windows: WindowsVolume)
    requires Agrees(s)
    ensures Agrees(GateStep(s, WindowsVolumeSeen(g, windows)).0)
  {
  }

  lemma HeadsetKeepsAgreement(s: GateState, g: uint64, headset: uint32, event: HeadsetEvent)
    requires Agrees(s)
    ensures Agrees(GateStep(s, HeadsetVolumeSeen(g, headset, event)).0)
  {
  }

  lemma StepKeepsAgreement(s: GateState, op: GateOp)
    requires Agrees(s)
    ensures Agrees(GateStep(s, op).0)
  {
    hide Activated, ReduceWindows, ReduceHeadset;
    match op
    case SetMode(_, mode) =>
      if mode == Synchronize {
        ActivationKeepsAgreement(s.(mode := mode));
      }
    case Acquire(_, lease) =>
      if s.ownerLease == 0 || s.ownerLease == lease {
        ActivationKeepsAgreement(s.(ownerLease := lease));
      }
    case Capability(_, support) =>
      if support == Supported {
        ActivationKeepsAgreement(s.(observedSupport := support));
      }
    case WindowsVolumeSeen(g, windows) => WindowsKeepsAgreement(s, g, windows);
    case HeadsetVolumeSeen(g, headset, event) => HeadsetKeepsAgreement(s, g, headset, event);
    case _ =>
  }

  lemma {:induction false} RunKeepsAgreement(s: GateState, ops: seq<GateOp>)
    requires Agrees(s)
    ensures Agrees(GateRun(s, ops))
    decreases ops
  {
    if ops != [] {
      StepKeepsAgreement(s, ops[0]);
      RunKeepsAgreement(GateStep(s, ops[0]).0, ops[1..]);
    }
  }

  /** In every state the gate can reach, session, authorization and volumes agree. */
  lemma GateAndReducerAgree(ops: seq<GateOp>)
    ensures Agrees(GateRun(RESET_GATE, ops))
  {
    RunKeepsAgreement(RESET_GATE, ops);
  }

  /** The last observed endpoint volume is in range after every call, agreement or not. */
  lemma StepKeepsRange(s: GateState, op: GateOp)
    requires s.lastWindowsVolume.percent <= 100
    ensures GateStep(s, op).0.lastWindowsVolume.percent <= 100
  {
    hide ReduceWindows, ReduceHeadset;
  }

  /** No headset report has been reduced in this session. */
  predicate Unheard(s: GateState) {
    !s.reducer.windowsUpdatePending && !s.reducer.inboundVolumeSeen
  }

  /** Only a headset report can leave an endpoint update pending, or be repeated. */
  lemma StaysUnheard(s: GateState, op: GateOp)
    requires Unheard(s) && !op.HeadsetVolumeSeen?
    ensures Unheard(GateStep(s, op).0)
  {
    hide Project;
  }

  // -------------------------------------------- stale decisions stay dead

  /** The accepted calls that withdraw authorization; readable off the arguments and the state. */
  predicate Withdraws(s: GateState, op: GateOp) {
    match op
    case Begin(g) => IsNewerGeneration(g, s.aclGeneration)
    case SetMode(g, mode) => IsCurrentGeneration(s, g) && mode != Synchronize
    case Revoke(g, lease) => IsCurrentGeneration(s, g) && lease != 0 && s.ownerLease == lease
    case Capability(g, support) => IsCurrentGeneration(s, g) && support != Supported
    case End(g) => IsCurrentGeneration(s, g)
    case _ => false
  }

  function Withdrawals(s: GateState, ops: seq<GateOp>): nat
    decreases ops
  {
    if ops == [] then 0
    else (if Withdraws(s, ops[0]) then 1 else 0) + Withdrawals(GateStep(s, ops[0]).0, ops[1..])
  }

  lemma {:induction false} EpochCountsWithdrawals(s: GateState, ops: seq<GateOp>)
    ensures GateRun(s, ops).authorizationEpoch == Advance(s.authorizationEpoch, Withdrawals(s, ops))
    decreases ops
  {
    if ops != [] {
      var next := GateStep(s, ops[0]).0;
      var first := if Withdraws(s, ops[0]) then 1 else 0;
      assert next.authorizationEpoch == Advance(s.authorizationEpoch, first);
      EpochCountsWithdrawals(next, ops[1..]);
      AdvanceAdds(s.authorizationEpoch, first, Withdrawals(next, ops[1..]));
    }
  }

  /** A decision that carries an action is current in the state that issued it. */
  lemma IssuedDecisionIsCurrent(s: GateState, op: GateOp)
    requires Agrees(s) && GateStep(s, op).1.volume.HasAction()
    ensures IsDecisionCurrent(GateStep(s, op).0, GateStep(s, op).1)
  {
    StepKeepsAgreement(s, op);
  }

  lemma UnwithdrawnStaysCurrent(s: GateState, op: GateOp, decision: GateDecision)
    requires IsDecisionCurrent(s, decision) && !Withdraws(s, op)
    ensures IsDecisionCurrent(GateStep(s, op).0, decision)
  {
    match op
    case Begin(_) =>
    case SetMode(_, _) =>
    case Acquire(_, _) =>
    case Revoke(_, _) =>
    case Capability(_, _) =>
    case WindowsVolumeSeen(_, _) =>
    case HeadsetVolumeSeen(_, _, _) =>
    case End(_) =>
  }

  lemma {:induction false} UnwithdrawnRunStaysCurrent(s: GateState, ops: seq<GateOp>, decision: GateDecision)
    requires IsDecisionCurrent(s, decision) && Withdrawals(s, ops) == 0
    ensures IsDecisionCurrent(GateRun(s, ops), decision)
    decreases ops
  {
    if ops != [] {
      UnwithdrawnStaysCurrent(s, ops[0], decision);
      UnwithdrawnRunStaysCurrent(GateStep(s, ops[0]).0, ops[1..], decision);
    }
  }

  /**
   A current decision remains current exactly until the first withdrawal, and no
   later run makes it current again unless the epoch counter has turned fully.
   */
  lemma StaleDecisionsStayDead(s: GateState, ops: seq<GateOp>, decision: GateDecision)
    requires IsDecisionCurrent(s, decision)
    ensures IsDecisionCurrent(GateRun(s, ops), decision) ==> Withdrawals(s, ops) % MAX_U64 == 0
    ensures Withdrawals(s, ops) < MAX_U64 ==>
              (IsDecisionCurrent(GateRun(s, ops), decision) <==> Withdrawals(s, ops) == 0)
  {
    EpochCountsWithdrawals(s, ops);
    AdvanceReturns(s.authorizationEpoch, Withdrawals(s, ops));
    if Withdrawals(s, ops) == 0 {
      UnwithdrawnRunStaysCurrent(s, ops, decision);
    }
  }

  /** Leaving synchronisation over and over. */
  function Departures(count: nat): seq<GateOp> {
    if count == 0 then [] else [SetMode(1, ObserveOnly)] + Departures(count - 1)
  }

  lemma {:induction false} DeparturesTurnTheEpoch(s: GateState, count: nat)
    requires IsCurrentGeneration(s, 1) && s.mode == ObserveOnly && s.reducer == RESET_REDUCER
    ensures GateRun(s, Departures(count)) == s.(authorizationEpoch := Advance(s.authorizationEpoch, count))
    ensures Withdrawals(s, Departures(count)) == count
    decreases count
  {
    if count > 0 {
      var next := s.(authorizationEpoch := NextNonzero(s.authorizationEpoch));
      assert GateStep(s, SetMode(1, ObserveOnly)).0 == next;
      assert Departures(count)[0] == SetMode(1, ObserveOnly) && Departures(count)[1..] == Departures(count - 1);
      hide GateStep;
      DeparturesTurnTheEpoch(next, count - 1);
      AdvanceAdds(s.authorizationEpoch, 1, count - 1);
      assert Advance(s.authorizationEpoch, 1) == NextNonzero(s.authorizationEpoch);
    }
  }

  lemma {:induction false} RunsJoin(s: GateState, first: seq<GateOp>, second: seq<GateOp>)
    ensures GateRun(s, first + second) == GateRun(GateRun(s, first), second)
    ensures Withdrawals(s, first + second) == Withdrawals(s, first) + Withdrawals(GateRun(s, first), second)
    decreases first
  {
    hide GateStep, Withdraws;
    if first == [] {
      assert first + second == second;
    } else {
      assert (first + second)[0] == first[0] && (first + second)[1..] == first[1..] + second;
      RunsJoin(GateStep(s, first[0]).0, first[1..], second);
    }
  }

  lemma OneCall(s: GateState, op: GateOp)
    ensures GateRun(s, [op]) == GateStep(s, op).0 && Withdrawals(s, [op]) == if Withdraws(s, op) then 1 else 0
  {
    hide GateStep, Withdraws;
    assert [op][1..] == [];
  }

  /** After a whole turn of the epoch, a decision long withdrawn is current again. */
  lemma EpochReturns(s: GateState, decision: GateDecision) returns (ops: seq<GateOp>)
    requires IsDecisionCurrent(s, decision) && s.aclGeneration == 1 && s.authorizationEpoch == 1
    ensures Withdrawals(s, ops) == MAX_U64 && IsDecisionCurrent(GateRun(s, ops), decision)
  {
    var leave, back := SetMode(1, ObserveOnly), SetMode(1, Synchronize);
    var left := s.(mode := ObserveOnly, authorizationEpoch := 2, reducer := RESET_REDUCER);
    assert GateStep(s, leave).0 == left && Withdraws(s, leave);
    var turned := left.(authorizationEpoch := 1);
    ReturningRevives(turned, decision);
    hide GateStep, Withdraws, IsDecisionCurrent, GateRun, Withdrawals, Departures, Advance;
    OneCall(s, leave);
    DeparturesTurnTheEpoch(left, MAX_U64 - 1);
    AdvanceClosedForm(2, MAX_U64 - 1);
    RemainderOf(MAX_U64, 1, 0, MAX_U64);
    OneCall(turned, back);
    RunsJoin(left, Departures(MAX_U64 - 1), [back]);
    RunsJoin(s, [leave], Departures(MAX_U64 - 1) + [back]);
    ops := [leave] + (Departures(MAX_U64 - 1) + [back]);
  }

  lemma ReturningRevives(s: GateState, decision: GateDecision)
    requires s.aclGeneration == 1 && s.aclGenerationCurrent && s.mode == ObserveOnly && s.reducer == RESET_REDUCER
    requires s.observedSupport == Supported && s.windowsVolumeObserved && s.ownerLease != 0
    requires decision.volume.HasAction() && decision.aclGeneration == 1
    requires decision.ownerLease == s.ownerLease && decision.authorizationEpoch == s.authorizationEpoch
    ensures IsDecisionCurrent(GateStep(s, SetMode(1, Synchronize)).0, decision)
    ensures !Withdraws(s, SetMode(1, Synchronize))
  {
  }

  /** Withdrawn decisions stay dead exactly as long as the epoch has not come round. */
  lemma DecisionsStayDeadExactly(bound: nat)
    ensures (forall s, ops, decision ::
               IsDecisionCurrent(s, decision) && 0 < Withdrawals(s, ops) <= bound ==>
                 !IsDecisionCurrent(GateRun(s, ops), decision)) <==>
            bound < MAX_U64
  {
    hide GateStep, GateRun, Withdrawals;
    if bound < MAX_U64 {
      forall s, ops, decision | IsDecisionCurrent(s, decision) && 0 < Withdrawals(s, ops) <= bound
        ensures !IsDecisionCurrent(GateRun(s, ops), decision)
      {
        StaleDecisionsStayDead(s, ops, decision);
      }
    } else {
      var full := READY_GATE.(windowsVolumeObserved := true, lastWindowsVolume := WindowsVolume(100, false),
                              reducer := FULL_REDUCER);
      var decision := GateDecision(NO_VOLUME_ACTION.(sendHeadsetVolume := true, headsetVolume := 127), 1, 1, 1);
      var ops := EpochReturns(full, decision);
    }
  }

  // ------------------------------------------------- the closed volume loop

  /** What may follow once a headset notification has been served. */
  datatype Echo = RepeatedCallback | AnyResponse(value: uint32) | RepeatedNotification

  function EchoOp(generation: uint64, windows: WindowsVolume, held: uint8, echo: Echo): GateOp {
    match echo
    case RepeatedCallback => WindowsVolumeSeen(generation, windows)
    case AnyResponse(value) => HeadsetVolumeSeen(generation, value, CommandResponse)
    case RepeatedNotification => HeadsetVolumeSeen(generation, held, RemoteNotification)
  }

  function EchoOps(generation: uint64, windows: WindowsVolume, held: uint8, echoes: seq<Echo>): seq<GateOp> {
    if echoes == [] then []
    else [EchoOp(generation, windows, held, echoes[0])] + EchoOps(generation, windows, held, echoes[1..])
  }

  /** Nothing is pending, and the value the headset holds is the projection or was already received. */
  ghost predicate Settled(s: GateState, held: uint8) {
    && Agrees(s) && CanSynchronize(s) && !s.reducer.windowsUpdatePending && held <= 127
    && (held == Project(s.lastWindowsVolume) ||
        (s.reducer.inboundVolumeSeen && s.reducer.lastHeadsetVolumeReceived == held))
  }

  ghost predicate Silent(s: GateState, ops: seq<GateOp>)
    decreases ops
  {
    ops == [] || (!GateStep(s, ops[0]).1.volume.HasAction() && Silent(GateStep(s, ops[0]).0, ops[1..]))
  }

  lemma SettledStaysSilent(s: GateState, held: uint8, echo: Echo)
    requires Settled(s, held)
    ensures var (next, decision) := GateStep(s, EchoOp(s.aclGeneration, s.lastWindowsVolume, held, echo));
            && !decision.volume.HasAction() && Settled(next, held)
            && next.lastWindowsVolume == s.lastWindowsVolume && next.aclGeneration == s.aclGeneration
  {
    StepKeepsAgreement(s, EchoOp(s.aclGeneration, s.lastWindowsVolume, held, echo));
  }

  lemma {:induction false} SettledIsSilentForever(s: GateState, held: uint8, echoes: seq<Echo>)
    requires Settled(s, held)
    ensures Silent(s, EchoOps(s.aclGeneration, s.lastWindowsVolume, held, echoes))
    decreases echoes
  {
    if echoes != [] {
      var op := EchoOp(s.aclGeneration, s.lastWindowsVolume, held, echoes[0]);
      SettledStaysSilent(s, held, echoes[0]);
      var next := GateStep(s, op).0;
      SettledIsSilentForever(next, held, echoes[1..]);
      var rest := EchoOps(s.aclGeneration, s.lastWindowsVolume, held, echoes[1..]);
      assert ([op] + rest)[0] == op && ([op] + rest)[1..] == rest;
    }
  }

  /** One headset notification, followed by a faithful endpoint callback when a write was asked for. */
  function ServeNotification(s: GateState, value: uint8): (GateState, GateDecision, GateDecision) {
    var (noticed, request) := GateStep(s, HeadsetVolumeSeen(s.aclGeneration, value, RemoteNotification));
    if request.volume.setWindowsEndpoint then
      var (called, answer) := GateStep(noticed, WindowsVolumeSeen(s.aclGeneration, request.volume.windowsVolume));
      (called, request, answer)
    else (noticed, request, NO_GATE_DECISION)
  }

  predicate IsRepeat(s: GateState, value: uint8) {
    s.reducer.inboundVolumeSeen && s.reducer.lastHeadsetVolumeReceived == value
  }

  /** The value the headset holds afterwards: the one it notified, unless a send replaced it. */
  function Held(value: uint8, answer: GateDecision): uint8 {
    if answer.volume.sendHeadsetVolume then answer.volume.headsetVolume else value
  }

  /** Serving a repeat does nothing; serving a new value either matches or asks for exactly that value. */
  lemma NotificationAsks(s: GateState, value: uint8)
    requires Agrees(s) && CanSynchronize(s) && !s.reducer.windowsUpdatePending && value <= 127
    ensures var (noticed, request) := GateStep(s, HeadsetVolumeSeen(s.aclGeneration, value, RemoteNotification));
            var asked := !IsRepeat(s, value) && value != Project(s.lastWindowsVolume);
            && !request.volume.sendHeadsetVolume && request.volume.setWindowsEndpoint == asked
            && Agrees(noticed) && CanSynchronize(noticed)
            && noticed.aclGeneration == s.aclGeneration && noticed.lastWindowsVolume == s.lastWindowsVolume
            && noticed.reducer.inboundVolumeSeen && noticed.reducer.windowsUpdatePending == asked
            && (value != Project(s.lastWindowsVolume) ==> noticed.reducer.lastHeadsetVolumeReceived == value)
            && (asked ==> request.volume.windowsVolume == FromHeadset(value) &&
                          noticed.reducer.pendingHeadsetVolume == value)
  {
    HeadsetKeepsAgreement(s, s.aclGeneration, value, RemoteNotification);
  }

  /** The faithful callback settles the loop: silently when the value has a projection, else with one send. */
  lemma CallbackSettles(s: GateState, value: uint8)
    requires Agrees(s) && CanSynchronize(s) && s.reducer.windowsUpdatePending && value <= 127
    requires s.reducer.pendingHeadsetVolume == value
    ensures var (called, answer) := GateStep(s, WindowsVolumeSeen(s.aclGeneration, FromHeadset(value)));
            && !answer.volume.setWindowsEndpoint && called.aclGeneration == s.aclGeneration
            && called.lastWindowsVolume == FromHeadset(value) && Agrees(called) && CanSynchronize(called)
            && !called.reducer.windowsUpdatePending
            && Held(value, answer) == Project(FromHeadset(value))
            && (answer.volume.sendHeadsetVolume <==> !SurvivesScaling(value))
  {
    hide Project, FromHeadset, SurvivesScaling, Clamp;
    WindowsKeepsAgreement(s, s.aclGeneration, FromHeadset(value));
    ScaleKeepsExactly(value);
    AskedIsInRange(value);
  }

  /**
   From any synchronised state without a pending endpoint update, one notification
   costs at most one endpoint write and at most one headset send; afterwards every
   echo is silent for ever. The send is spent exactly on a value that was asked of the
   endpoint and does not survive the scaling. Headset and endpoint then agree, except exactly
   when the notification repeats the last one received and differs from the endpoint's projection.
   */
  lemma VolumeLoopQuiesces(s: GateState, value: uint8, echoes: seq<Echo>)
    requires Agrees(s) && CanSynchronize(s) && !s.reducer.windowsUpdatePending && value <= 127
    ensures var (after, request, answer) := ServeNotification(s, value);
            && !request.volume.sendHeadsetVolume && !answer.volume.setWindowsEndpoint
            && (request.volume.setWindowsEndpoint <==> !IsRepeat(s, value) && value != Project(s.lastWindowsVolume))
            && (answer.volume.sendHeadsetVolume <==> request.volume.setWindowsEndpoint && !SurvivesScaling(value))
            && Settled(after, Held(value, answer))
            && Silent(after, EchoOps(s.aclGeneration, after.lastWindowsVolume, Held(value, answer), echoes))
            && (Held(value, answer) == Project(after.lastWindowsVolume) <==>
                !(IsRepeat(s, value) && value != Project(s.lastWindowsVolume)))
            && (!IsRepeat(s, value) ==> Held(value, answer) == Project(FromHeadset(value)))
  {
    hide GateStep;
    NotificationAsks(s, value);
    var (after, request, answer) := ServeNotification(s, value);
    if request.volume.setWindowsEndpoint {
      var noticed := GateStep(s, HeadsetVolumeSeen(s.aclGeneration, value, RemoteNotification)).0;
      CallbackSettles(noticed, value);
      ScalingIsIdempotent(value);
    } else {
      ScalingRoundTrip(s.lastWindowsVolume.percent);
    }
    SettledIsSilentForever(after, Held(value, answer), echoes);
  }

  // ------------------------------------------- and its exception is reached

  ghost predicate Reachable(s: GateState) {
    exists ops :: GateRun(RESET_GATE, ops) == s
  }

  lemma {:induction false} RunExtends(s: GateState, ops: seq<GateOp>, op: GateOp)
    ensures GateRun(s, ops + [op]) == GateStep(GateRun(s, ops), op).0
    decreases ops
  {
    hide GateStep;
    if ops == [] {
      assert [] + [op] == [op] && [op][1..] == [];
    } else {
      assert (ops + [op])[0] == ops[0] && (ops + [op])[1..] == ops[1..] + [op];
      RunExtends(GateStep(s, ops[0]).0, ops[1..], op);
    }
  }

  lemma ReachNext(s: GateState, op: GateOp)
    requires Reachable(s)
    ensures Reachable(GateStep(s, op).0)
  {
    hide GateStep;
    var ops :| GateRun(RESET_GATE, ops) == s;
    RunExtends(RESET_GATE, ops, op);
  }

  /** A new gate after a generation, synchronising, a lease and a supported headset, before any volume. */
  const READY_GATE := RESET_GATE.(
    aclGeneration := 1, aclGenerationCurrent := true, ownerLease := 1, authorizationEpoch := 1, mode := Synchronize,
    observedSupport := Supported)

  lemma ReadyIsReachable()
    ensures Reachable(READY_GATE)
  {
    assert GateRun(RESET_GATE, []) == RESET_GATE;
    var begun := RESET_GATE.(aclGeneration := 1, aclGenerationCurrent := true, authorizationEpoch := 1);
    ReachNext(RESET_GATE, Begin(1));
    ReachNext(begun, SetMode(1, Synchronize));
    ReachNext(begun.(mode := Synchronize), Acquire(1, 1));
    ReachNext(begun.(mode := Synchronize, ownerLease := 1), Capability(1, Supported));
    hide Reachable;
    assert GateStep(RESET_GATE, Begin(1)).0 == begun;
    assert GateStep(begun, SetMode(1, Synchronize)).0 == begun.(mode := Synchronize);
  }

  /** The reducer of a synchronised gate of generation one at full volume. */
  const FULL_REDUCER := RESET_REDUCER.(
    generation := 1, sessionActive := true, support := Supported, windowsVolumeKnown := true,
    windowsVolume := WindowsVolume(100, false), firstSessionSyncComplete := true, outboundEchoPending := true,
    lastHeadsetVolumeSent := 127)

  /** A dropped repeat that leaves headset and endpoint apart is reached by seven calls on a new gate. */
  lemma DisagreementIsReachable() returns (s: GateState)
    ensures Reachable(s) && Agrees(s) && CanSynchronize(s) && !s.reducer.windowsUpdatePending
    ensures IsRepeat(s, 127) && 127 != Project(s.lastWindowsVolume)
  {
    ReadyIsReachable();
    hide Reachable;
    var full := READY_GATE.(windowsVolumeObserved := true, lastWindowsVolume := WindowsVolume(100, false),
                            reducer := FULL_REDUCER);
    assert GateStep(READY_GATE, WindowsVolumeSeen(1, WindowsVolume(100, false))).0 == full;
    ReachNext(READY_GATE, WindowsVolumeSeen(1, WindowsVolume(100, false)));
    var heard := full.(headsetVolumeObserved := true, lastHeadsetVolume := 127,
                       reducer := FULL_REDUCER.(inboundVolumeSeen := true, lastHeadsetVolumeReceived := 127,
                                                outboundEchoPending := false));
    assert GateStep(full, HeadsetVolumeSeen(1, 127, RemoteNotification)).0 == heard;
    ReachNext(full, HeadsetVolumeSeen(1, 127, RemoteNotification));
    ReachNext(heard, WindowsVolumeSeen(1, WindowsVolume(50, false)));
    s := GateStep(heard, WindowsVolumeSeen(1, WindowsVolume(50, false))).0;
    assert Agrees(heard);
    StepKeepsAgreement(heard, WindowsVolumeSeen(1, WindowsVolume(50, false)));
  }

  /** A synchronised gate at full volume, and the reachable state with an update to 64 pending. */
  const FULL_GATE := READY_GATE.(
    windowsVolumeObserved := true, lastWindowsVolume := WindowsVolume(100, false), reducer := FULL_REDUCER)

  const ASKING_GATE := FULL_GATE.(
    headsetVolumeObserved := true, lastHeadsetVolume := 64,
    reducer := FULL_REDUCER.(inboundVolumeSeen := true, lastHeadsetVolumeReceived := 64, outboundEchoPending := false,
                             windowsUpdatePending := true, pendingHeadsetVolume := 64))

  lemma AskingIsReachable()
    ensures Reachable(ASKING_GATE)
  {
    ReadyIsReachable();
    hide Reachable;
    assert GateStep(READY_GATE, WindowsVolumeSeen(1, WindowsVolume(100, false))).0 == FULL_GATE;
    assert GateStep(FULL_GATE, HeadsetVolumeSeen(1, 64, RemoteNotification)).0 == ASKING_GATE;
    ReachNext(READY_GATE, WindowsVolumeSeen(1, WindowsVolume(100, false)));
    ReachNext(FULL_GATE, HeadsetVolumeSeen(1, 64, RemoteNotification));
  }

  /**
   A notification that takes a pending update back is lost: the faithful callback of the
   update is then answered by silence, with the headset at 127 and the endpoint at half.
   */
  lemma TakenBackIsReachable() returns (s: GateState)
    ensures Reachable(s) && Loses(s, HeadsetVolumeSeen(1, 127, RemoteNotification), 64)
    ensures var taken := GateStep(s, HeadsetVolumeSeen(1, 127, RemoteNotification)).0;
            var (called, answer) := GateStep(taken, WindowsVolumeSeen(1, WindowsVolume(50, false)));
            && s.reducer.pendingHeadsetVolume == 64 == Project(WindowsVolume(50, false))
            && !answer.volume.HasAction() && !called.reducer.windowsUpdatePending
            && Project(called.lastWindowsVolume) == 64
  {
    AskingIsReachable();
    hide Reachable;
    s := ASKING_GATE;
    var taken := ASKING_GATE.(lastHeadsetVolume := 127,
                              reducer := ASKING_GATE.reducer.(lastHeadsetVolumeReceived := 127));
    assert GateStep(s, HeadsetVolumeSeen(1, 127, RemoteNotification)).0 == taken;
  }

  // ------------------------------------------------ the headset follows the PC

  /**
   An endpoint observation is sent on exactly if it is news to the headset: if it differs
   from the update asked for, or without one from the last observation; and then as it is.
   */
  lemma WindowsSendsExactly(s: GateState, windows: WindowsVolume)
    requires Agrees(s) && CanSynchronize(s)
    ensures var (next, decision) := GateStep(s, WindowsVolumeSeen(s.aclGeneration, windows));
            var projected := Project(Clamp(windows));
            var expected := if s.reducer.windowsUpdatePending then s.reducer.pendingHeadsetVolume
                            else Project(s.lastWindowsVolume);
            && (decision.volume.sendHeadsetVolume <==> projected != expected)
            && (decision.volume.sendHeadsetVolume ==> decision.volume.headsetVolume == projected)
            && !decision.volume.setWindowsEndpoint && next.lastWindowsVolume == Clamp(windows)
  {
    hide Project, Clamp;
    ClampingTwice(windows);
  }

  lemma ClampingTwice(windows: WindowsVolume)
    ensures Clamp(Clamp(windows)) == Clamp(windows) && Clamp(windows).percent <= 100
  {
  }

  /** A notification that the synchronised gate takes note of. */
  predicate Hears(s: GateState, op: GateOp) {
    op.HeadsetVolumeSeen? && op.event != CommandResponse && op.headset <= 127 &&
    IsCurrentGeneration(s, op.generation) && CanSynchronize(s)
  }

  /** The value the headset is at: the last one it notified or was sent. */
  function HeadsetAt(s: GateState, op: GateOp, held: uint8): uint8 {
    var decision := GateStep(s, op).1;
    if decision.volume.sendHeadsetVolume then decision.volume.headsetVolume
    else if Hears(s, op) then op.headset else held
  }

  /**
   A notification is lost if it repeats the last one received although the headset has
   been elsewhere since, or if it takes back an update that is still pending.
   */
  predicate Loses(s: GateState, op: GateOp, held: uint8) {
    Hears(s, op) &&
    (if IsRepeat(s, op.headset) then op.headset != held
     else s.reducer.windowsUpdatePending && op.headset == Project(s.lastWindowsVolume))
  }

  /** The headset is at the endpoint's projection, or at the update the endpoint was asked for. */
  ghost predicate Follows(s: GateState, held: uint8) {
    CanSynchronize(s) ==>
      held == if s.reducer.windowsUpdatePending then s.reducer.pendingHeadsetVolume else Project(s.lastWindowsVolume)
  }

  /** Only a change is ever pending. */
  ghost predicate PendingIsNews(s: GateState) {
    CanSynchronize(s) && s.reducer.windowsUpdatePending ==>
      s.reducer.pendingHeadsetVolume != Project(s.lastWindowsVolume)
  }

  lemma ActivationFollows(s: GateState, held: uint8)
    requires s.lastWindowsVolume.percent <= 100 && !s.reducer.sessionActive
    ensures var (next, decision) := Activated(s);
            && (CanSynchronize(s) ==>
                  && decision.volume == NO_VOLUME_ACTION.(sendHeadsetVolume := true,
                                                          headsetVolume := Project(s.lastWindowsVolume))
                  && !next.reducer.windowsUpdatePending && !next.reducer.inboundVolumeSeen)
            && (!CanSynchronize(s) ==> next == s && decision == NO_GATE_DECISION)
            && next.lastWindowsVolume == s.lastWindowsVolume && (CanSynchronize(next) <==> CanSynchronize(s))
  {
    hide Project;
  }

  lemma ReportFollows(s: GateState, op: GateOp, held: uint8)
    requires Agrees(s) && PendingIsNews(s) && Follows(s, held) && op.HeadsetVolumeSeen?
    ensures var next := GateStep(s, op).0;
            PendingIsNews(next) && (Follows(next, HeadsetAt(s, op, held)) <==> !Loses(s, op, held))
  {
    hide Project, FromHeadset;
  }

  lemma ObservationFollows(s: GateState, op: GateOp, held: uint8)
    requires Agrees(s) && PendingIsNews(s) && Follows(s, held) && op.WindowsVolumeSeen?
    ensures PendingIsNews(GateStep(s, op).0) && Follows(GateStep(s, op).0, HeadsetAt(s, op, held))
  {
    hide Project, Clamp;
    ClampingTwice(op.windows);
  }

  lemma OtherCallFollows(s: GateState, op: GateOp, held: uint8)
    requires Agrees(s) && PendingIsNews(s) && Follows(s, held) && !op.HeadsetVolumeSeen? && !op.WindowsVolumeSeen?
    ensures PendingIsNews(GateStep(s, op).0) && Follows(GateStep(s, op).0, HeadsetAt(s, op, held))
  {
    hide Project, Activated;
    match op
    case SetMode(_, mode) =>
      if mode == Synchronize && !s.reducer.sessionActive {
        ActivationFollows(s.(mode := mode), held);
      } else {
        AlreadyActive(s.(mode := mode));
      }
    case Acquire(_, lease) =>
      if !s.reducer.sessionActive {
        ActivationFollows(s.(ownerLease := lease), held);
      } else {
        AlreadyActive(s.(ownerLease := lease));
      }
    case Capability(_, support) =>
      if !s.reducer.sessionActive {
        ActivationFollows(s.(observedSupport := support), held);
      } else {
        AlreadyActive(s.(observedSupport := support));
      }
    case _ =>
  }

  lemma AlreadyActive(s: GateState)
    ensures s.reducer.sessionActive ==> Activated(s) == (s, NO_GATE_DECISION)
  {
  }

  lemma StepFollowsExactly(s: GateState, op: GateOp, held: uint8)
    requires Agrees(s) && PendingIsNews(s) && Follows(s, held)
    ensures var next := GateStep(s, op).0;
            PendingIsNews(next) && (Follows(next, HeadsetAt(s, op, held)) <==> !Loses(s, op, held))
  {
    if op.HeadsetVolumeSeen? {
      ReportFollows(s, op, held);
    } else if op.WindowsVolumeSeen? {
      ObservationFollows(s, op, held);
    } else {
      OtherCallFollows(s, op, held);
    }
    hide GateStep, HeadsetAt, Follows, PendingIsNews;
  }

  ghost predicate FollowsThroughout(s: GateState, held: uint8, ops: seq<GateOp>)
    decreases ops
  {
    Follows(s, held) &&
    (ops == [] || FollowsThroughout(GateStep(s, ops[0]).0, HeadsetAt(s, ops[0], held), ops[1..]))
  }

  ghost predicate NothingLost(s: GateState, held: uint8, ops: seq<GateOp>)
    decreases ops
  {
    ops == [] ||
    (!Loses(s, ops[0], held) && NothingLost(GateStep(s, ops[0]).0, HeadsetAt(s, ops[0], held), ops[1..]))
  }

  lemma {:induction false} RunFollowsExactly(s: GateState, held: uint8, ops: seq<GateOp>)
    requires Agrees(s) && PendingIsNews(s) && Follows(s, held)
    ensures FollowsThroughout(s, held, ops) <==> NothingLost(s, held, ops)
    decreases ops
  {
    hide GateStep, HeadsetAt, Follows, PendingIsNews, Loses, Agrees;
    if ops != [] {
      StepKeepsAgreement(s, ops[0]);
      StepFollowsExactly(s, ops[0], held);
      if !Loses(s, ops[0], held) {
        RunFollowsExactly(GateStep(s, ops[0]).0, HeadsetAt(s, ops[0], held), ops[1..]);
      } else {
        ApartAtOnce(GateStep(s, ops[0]).0, HeadsetAt(s, ops[0], held), ops[1..]);
      }
    }
  }

  lemma ApartAtOnce(s: GateState, held: uint8, ops: seq<GateOp>)
    requires !Follows(s, held)
    ensures !FollowsThroughout(s, held, ops)
  {
  }

  /**
   Over every run of a new gate, wherever the headset was before: whenever the gate may
   synchronise, the headset is at the endpoint's projection, or at the update that is
   pending, throughout exactly if no notification is lost.
   */
  lemma HeadsetFollowsExactly(held: uint8, ops: seq<GateOp>)
    ensures FollowsThroughout(RESET_GATE, held, ops) <==> NothingLost(RESET_GATE, held, ops)
  {
    hide FollowsThroughout, NothingLost;
    RunFollowsExactly(RESET_GATE, held, ops);
  }

  /** Who the gate acts for, and how, changes exactly for these reasons. */
  lemma FieldsHaveReasons(s: GateState, op: GateOp)
    ensures var next := GateStep(s, op).0;
            var begun := op.Begin? && IsNewerGeneration(op.generation, s.aclGeneration);
            var here := !op.Begin? && IsCurrentGeneration(s, op.generation);
            var over := begun || (op.End? && here);
            && next.aclGeneration == (if begun then op.generation else s.aclGeneration)
            && (next.aclGenerationCurrent <==> begun || (s.aclGenerationCurrent && !over))
            && next.ownerLease ==
               (if over || (op.Revoke? && here && op.lease == s.ownerLease) then 0
                else if op.Acquire? && here && s.ownerLease == 0 then op.lease else s.ownerLease)
            && next.mode == (if over then ObserveOnly else if op.SetMode? && here then op.mode else s.mode)
            && next.observedSupport ==
               (if over then Unknown else if op.Capability? && here then op.support else s.observedSupport)
  {
    hide ReduceWindows, ReduceHeadset, BeginSession, Clamp;
  }

  /** The echo of a send is awaited until it, or something newer from either end, arrives. */
  lemma EchoIsAwaitedExactly(s: GateState, op: GateOp)
    requires Agrees(s)
    ensures var (next, decision) := GateStep(s, op);
            var answered := op.HeadsetVolumeSeen? && op.event == CommandResponse && op.headset <= 127 &&
                            IsCurrentGeneration(s, op.generation) && CanSynchronize(s) &&
                            op.headset == s.reducer.lastHeadsetVolumeSent;
            var called := op.WindowsVolumeSeen? && IsCurrentGeneration(s, op.generation) && CanSynchronize(s) &&
                          s.reducer.windowsUpdatePending &&
                          Project(Clamp(op.windows)) == s.reducer.pendingHeadsetVolume;
            next.reducer.outboundEchoPending <==>
              || decision.volume.sendHeadsetVolume
              || (&& s.reducer.outboundEchoPending && !Withdraws(s, op) && !answered && !called
                  && !(Hears(s, op) && !IsRepeat(s, op.headset)))
  {
    hide Project, Clamp, FromHeadset;
    if op.WindowsVolumeSeen? {
      ClampingTwice(op.windows);
    }
  }

  /** What the gate remembers of the last reports is what was last accepted, and nothing else moves it. */
  lemma ReportsAreRemembered(s: GateState, op: GateOp)
    ensures var next := GateStep(s, op).0;
            var heard := op.HeadsetVolumeSeen? && op.headset <= 127 && IsCurrentGeneration(s, op.generation);
            var seen := op.WindowsVolumeSeen? && IsCurrentGeneration(s, op.generation);
            var begun := op.Begin? && IsNewerGeneration(op.generation, s.aclGeneration);
            && (next.headsetVolumeObserved <==> heard || (s.headsetVolumeObserved && !begun))
            && (next.windowsVolumeObserved <==> seen || (s.windowsVolumeObserved && !begun))
            && (heard ==> next.lastHeadsetVolume == op.headset && next.lastHeadsetEvent == op.event)
            && (seen ==> next.lastWindowsVolume == Clamp(op.windows))
            && (!heard && !begun ==>
                  next.lastHeadsetVolume == s.lastHeadsetVolume && next.lastHeadsetEvent == s.lastHeadsetEvent)
            && (!seen && !begun ==> next.lastWindowsVolume == s.lastWindowsVolume)
  {
    hide ReduceWindows, ReduceHeadset, Clamp, BeginSession;
  }

  // ------------------------------------------------------ the gate in place

  class VolumeGate {
    var aclGeneration: uint64
    var aclGenerationCurrent: bool
    var ownerLease: uint64
    var authorizationEpoch: uint64
    var mode: GateMode
    var observedSupport: Support
    var windowsVolumeObserved: bool
    var lastWindowsVolume: WindowsVolume
    var headsetVolumeObserved: bool
    var lastHeadsetVolume: uint8
    var lastHeadsetEvent: HeadsetEvent
    const reducer: VolumeReducer

    function View(): GateState
      reads this, reducer
    {
      GateState(aclGeneration, aclGenerationCurrent, ownerLease, authorizationEpoch, mode, observedSupport,
                windowsVolumeObserved, lastWindowsVolume, headsetVolumeObserved, lastHeadsetVolume, lastHeadsetEvent,
                reducer.View())
    }

    constructor ()
      ensures View() == RESET_GATE && fresh(reducer)
    {
      reducer := new VolumeReducer();
      aclGeneration, aclGenerationCurrent, ownerLease, authorizationEpoch := 0, false, 0, 0;
      mode, observedSupport := ObserveOnly, Unknown;
      windowsVolumeObserved, lastWindowsVolume := false, DEFAULT_WINDOWS_VOLUME;
      headsetVolumeObserved, lastHeadsetVolume, lastHeadsetEvent := false, 0, RemoteNotification;
    }

    method Reset()
      modifies this, reducer
      ensures View() == RESET_GATE
    {
      aclGeneration, aclGenerationCurrent, ownerLease, authorizationEpoch := 0, false, 0, 0;
      mode, observedSupport := ObserveOnly, Unknown;
      windowsVolumeObserved, lastWindowsVolume := false, DEFAULT_WINDOWS_VOLUME;
      headsetVolumeObserved, lastHeadsetVolume, lastHeadsetEvent := false, 0, RemoteNotification;
      reducer.Reset();
    }

    method InvalidateAuthorization()
      modifies this`authorizationEpoch, reducer
      ensures View() == Invalidated(old(View()))
    {
      if authorizationEpoch == MAX_U64 {
        authorizationEpoch := 1;
      } else {
        authorizationEpoch := authorizationEpoch + 1;
      }
      reducer.Reset();
    }

    method ActivateIfAuthorized() returns (decision: GateDecision)
      modifies reducer
      ensures (View(), decision) == Activated(old(View()))
    {
      decision := NO_GATE_DECISION;
      if !CanSynchronize(View()) || reducer.sessionActive {
        return;
      }
      reducer.Reset();
      var volume := reducer.Begin(aclGeneration, Supported, lastWindowsVolume);
      decision := Authorized(View(), volume);
    }

    method BeginAclGeneration(generation: uint64) returns (decision: GateDecision)
      modifies this, reducer
      ensures (View(), decision) == GateStep(old(View()), Begin(generation))
    {
      decision := NO_GATE_DECISION;
      if !IsNewerGeneration(generation, aclGeneration) {
        return;
      }
      var previousAuthorizationEpoch := authorizationEpoch;
      Reset();
      authorizationEpoch := previousAuthorizationEpoch;
      InvalidateAuthorization();
      aclGeneration := generation;
      aclGenerationCurrent := true;
    }

    method SetGateMode(generation: uint64, mode: GateMode) returns (decision: GateDecision)
      modifies this, reducer
      ensures (View(), decision) == GateStep(old(View()), SetMode(generation, mode))
    {
      decision := NO_GATE_DECISION;
      if !IsCurrentGeneration(View(), generation) {
        return;
      }
      this.mode := mode;
      if mode != Synchronize {
        InvalidateAuthorization();
        return;
      }
      decision := ActivateIfAuthorized();
    }

    method AcquireOwnerLease(generation: uint64, lease: uint64) returns (decision: GateDecision)
      modifies this, reducer
      ensures (View(), decision) == GateStep(old(View()), Acquire(generation, lease))
    {
      decision := NO_GATE_DECISION;
      if lease == 0 || !IsCurrentGeneration(View(), generation) || (ownerLease != 0 && ownerLease != lease) {
        return;
      }
      ownerLease := lease;
      decision := ActivateIfAuthorized();
    }

    method RevokeOwnerLease(generation: uint64, lease: uint64) returns (decision: GateDecision)
      modifies this, reducer
      ensures (View(), decision) == GateStep(old(View()), Revoke(generation, lease))
    {
      decision := NO_GATE_DECISION;
      if lease == 0 || !IsCurrentGeneration(View(), generation) || ownerLease != lease {
        return;
      }
      ownerLease := 0;
      InvalidateAuthorization();
    }

    method ObserveCapability(generation: uint64, support: Support) returns (decision: GateDecision)
      modifies this, reducer
      ensures (View(), decision) == GateStep(old(View()), Capability(generation, support))
    {
      decision := NO_GATE_DECISION;
      if !IsCurrentGeneration(View(), generation) {
        return;
      }
      observedSupport := support;
      if support != Supported {
        InvalidateAuthorization();
        return;
      }
      decision := ActivateIfAuthorized();
    }

    method ObserveWindowsVolume(generation: uint64, windows: WindowsVolume) returns (decision: GateDecision)
      modifies this, reducer
      ensures (View(), decision) == GateStep(old(View()), WindowsVolumeSeen(generation, windows))
    {
      decision := NO_GATE_DECISION;
      if !IsCurrentGeneration(View(), generation) {
        return;
      }
      windowsVolumeObserved := true;
      lastWindowsVolume := Clamp(windows);
      if !CanSynchronize(View()) {
        return;
      }
      if !reducer.sessionActive {
        decision := ActivateIfAuthorized();
        return;
      }
      var volume := reducer.ObserveWindowsEndpoint(generation, lastWindowsVolume);
      decision := Authorized(View(), volume);
    }

    method ObserveHeadsetVolume(generation: uint64, headset: uint32, event: HeadsetEvent)
      returns (decision: GateDecision)
      modifies this, reducer
      ensures (View(), decision) == GateStep(old(View()), HeadsetVolumeSeen(generation, headset, event))
    {
      decision := NO_GATE_DECISION;
      if headset > 127 || !IsCurrentGeneration(View(), generation) {
        return;
      }
      headsetVolumeObserved := true;
      lastHeadsetVolume := headset;
      lastHeadsetEvent := event;
      if !CanSynchronize(View()) || !reducer.sessionActive {
        return;
      }
      var volume := reducer.ObserveHeadsetVolume(generation, headset, event);
      decision := Authorized(View(), volume);
    }

    method EndAclGeneration(generation: uint64) returns (decision: GateDecision)
      modifies this, reducer
      ensures (View(), decision) == GateStep(old(View()), End(generation))
    {
      decision := NO_GATE_DECISION;
      if !IsCurrentGeneration(View(), generation) {
        return;
      }
      aclGenerationCurrent := false;
      ownerLease := 0;
      mode := ObserveOnly;
      observedSupport := Unknown;
      InvalidateAuthorization();
    }
  }
}
