/**
 The pass-through gate of agent/avrcp_passthrough_state.cpp: key presses become
 actions only for the current generation, an owner lease and the routing mode,
 and a key held down is accepted once.
 */
module PassThrough {
  import opened Words

  datatype Operation =
    | UnknownOperation | VolumeUp | VolumeDown | Mute | Play | Stop | Pause | Forward | Backward

  datatype RouteMode = ObserveKeys | RouteToMediaSession

  datatype KeyEvent = KeyEvent(operation: Operation, released: bool)

  /** The decision carries at most one action, named by its operation. */
  datatype KeyDecision = KeyDecision(
    action: Option<Operation>,
    aclGeneration: uint64,
    ownerLease: uint64,
    authorizationEpoch: uint64,
    acceptedEventSequence: uint64,
    eventObserved: bool,
    duplicatePress: bool,
    matchingRelease: bool)

  const NO_KEY_DECISION := KeyDecision(None, 0, 0, 0, 0, false, false, false)

  datatype KeyGateState = KeyGateState(
    aclGeneration: uint64,
    aclGenerationCurrent: bool,
    ownerLease: uint64,
    authorizationEpoch: uint64,
    observedEventCount: uint64,
    acceptedEventSequence: uint64,
    mode: RouteMode,
    heldOperation: Option<Operation>)

  const RESET_KEY_GATE := KeyGateState(0, false, 0, 0, 0, 0, ObserveKeys, None)

  function DecodeOperation(operationId: uint8): Operation {
    match operationId
    case 0x41 => VolumeUp
    case 0x42 => VolumeDown
    case 0x43 => Mute
    case 0x44 => Play
    case 0x45 => Stop
    case 0x46 => Pause
    case 0x4B => Forward
    case 0x4C => Backward
    case _ => UnknownOperation
  }

  // ------------------------------------------------ the gate as a function

  predicate IsCurrentKeyGeneration(s: KeyGateState, generation: uint64) {
    generation != 0 && s.aclGenerationCurrent && s.aclGeneration == generation
  }

  function KeySnapshot(s: KeyGateState): KeyDecision {
    KeyDecision(None, s.aclGeneration, s.ownerLease, s.authorizationEpoch, s.acceptedEventSequence, false, false, false)
  }

  function Reauthorized(s: KeyGateState): KeyGateState {
    s.(authorizationEpoch := NextNonzero(s.authorizationEpoch), heldOperation := None)
  }

  function BeginKeys(s: KeyGateState, generation: uint64): (KeyGateState, KeyDecision) {
    if !IsNewerGeneration(generation, s.aclGeneration) then (s, NO_KEY_DECISION)
    else
      var next := Reauthorized(RESET_KEY_GATE.(aclGeneration := generation, aclGenerationCurrent := true,
                                               authorizationEpoch := s.authorizationEpoch));
      (next, KeySnapshot(next))
  }

  function EndKeys(s: KeyGateState, generation: uint64): (KeyGateState, KeyDecision) {
    if !IsCurrentKeyGeneration(s, generation) then (s, NO_KEY_DECISION)
    else
      var next := Reauthorized(s.(aclGenerationCurrent := false, ownerLease := 0, mode := ObserveKeys));
      (next, KeySnapshot(next))
  }

  function SetRouteMode(s: KeyGateState, generation: uint64, mode: RouteMode): (KeyGateState, KeyDecision) {
    if !IsCurrentKeyGeneration(s, generation) then (s, NO_KEY_DECISION)
    else
      var next := if s.mode == mode then s else Reauthorized(s.(mode := mode));
      (next, KeySnapshot(next))
  }

  function AcquireKeys(s: KeyGateState, generation: uint64, lease: uint64): (KeyGateState, KeyDecision) {
    if !IsCurrentKeyGeneration(s, generation) || lease == 0 || (s.ownerLease != 0 && s.ownerLease != lease)
    then (s, NO_KEY_DECISION)
    else
      var next := if s.ownerLease != 0 then s else Reauthorized(s.(ownerLease := lease));
      (next, KeySnapshot(next))
  }

  function RevokeKeys(s: KeyGateState, generation: uint64, lease: uint64): (KeyGateState, KeyDecision) {
    if !IsCurrentKeyGeneration(s, generation) || lease == 0 || s.ownerLease != lease then (s, NO_KEY_DECISION)
    else
      var next := Reauthorized(s.(ownerLease := 0));
      (next, KeySnapshot(next))
  }

  function ObserveKey(s: KeyGateState, generation: uint64, event: KeyEvent): (KeyGateState, KeyDecision) {
    if !IsCurrentKeyGeneration(s, generation) then (s, NO_KEY_DECISION)
    else
      var counted := s.(observedEventCount := (s.observedEventCount + 1) % TWO_64);
      var seen := KeySnapshot(counted).(eventObserved := true);
      if event.operation == UnknownOperation then (counted, seen)
      else if event.released then
        if s.heldOperation == Some(event.operation)
        then (counted.(heldOperation := None), seen.(matchingRelease := true))
        else (counted, seen)
      else if s.heldOperation == Some(event.operation) then (counted, seen.(duplicatePress := true))
      else
        var held := counted.(heldOperation := Some(event.operation));
        if s.mode != RouteToMediaSession || s.ownerLease == 0 then (held, seen)
        else
          var accepted := held.(acceptedEventSequence := NextNonzero(s.acceptedEventSequence));
          (accepted, KeySnapshot(accepted).(eventObserved := true, action := Some(event.operation)))
  }

  // -------------------------------------------------- one press, one action

  function KeyRun(s: KeyGateState, generation: uint64, events: seq<KeyEvent>): (KeyGateState, seq<Operation>)
    decreases events
  {
    if events == [] then (s, [])
    else
      var (next, decision) := ObserveKey(s, generation, events[0]);
      var (last, actions) := KeyRun(next, generation, events[1..]);
      (last, (if decision.action.Some? then [decision.action.value] else []) + actions)
  }

  /** Reports that change nothing about a held key: its repeats, strange keys, and releases of others. */
  predicate KeepsHolding(held: Operation, event: KeyEvent) {
    event.operation == UnknownOperation ||
    (if event.released then event.operation != held else event.operation == held)
  }

  lemma {:induction false} HoldingIsQuiet(s: KeyGateState, generation: uint64, held: Operation, events: seq<KeyEvent>)
    requires held != UnknownOperation
    requires IsCurrentKeyGeneration(s, generation) ==> s.heldOperation == Some(held)
    requires forall i :: 0 <= i < |events| ==> KeepsHolding(held, events[i])
    ensures KeyRun(s, generation, events).1 == []
    decreases events
  {
    if events != [] {
      assert KeepsHolding(held, events[0]);
      HoldingIsQuiet(ObserveKey(s, generation, events[0]).0, generation, held, events[1..]);
    }
  }

  /**
   However often the headset repeats a held key, it acts once: exactly when the gate
   routes for an owner of the current generation and the key was not held already.
   */
  lemma PressActsOnce(s: KeyGateState, generation: uint64, key: Operation, repeats: seq<KeyEvent>)
    requires key != UnknownOperation
    requires forall i :: 0 <= i < |repeats| ==> KeepsHolding(key, repeats[i])
    ensures KeyRun(s, generation, [KeyEvent(key, false)] + repeats).1 ==
            if IsCurrentKeyGeneration(s, generation) && s.heldOperation != Some(key) &&
               s.mode == RouteToMediaSession && s.ownerLease != 0
            then [key] else []
  {
    var press := KeyEvent(key, false);
    var events := [press] + repeats;
    assert events[0] == press && events[1..] == repeats;
    HoldingIsQuiet(ObserveKey(s, generation, press).0, generation, key, repeats);
  }

  /** The gate routes keys of this generation for an owner. */
  predicate Routes(s: KeyGateState, generation: uint64) {
    IsCurrentKeyGeneration(s, generation) && s.mode == RouteToMediaSession && s.ownerLease != 0
  }

  /** A key is let go by its own release, and the next press of it acts again. */
  lemma PressReleasePressActsTwice(s: KeyGateState, generation: uint64, key: Operation)
    requires key != UnknownOperation && Routes(s, generation) && s.heldOperation != Some(key)
    ensures KeyRun(s, generation, [KeyEvent(key, false), KeyEvent(key, true), KeyEvent(key, false)]).1 == [key, key]
  {
    var press, release := KeyEvent(key, false), KeyEvent(key, true);
    var pressed := ObserveKey(s, generation, press).0;
    var released := ObserveKey(pressed, generation, release).0;
    assert Routes(released, generation) && released.heldOperation == None;
    assert ObserveKey(pressed, generation, release).1.action == None;
    assert ObserveKey(released, generation, press).1.action == Some(key);
    hide ObserveKey;
    assert [press, release, press][1..] == [release, press] && [release, press][1..] == [press] && [press][1..] == [];
    assert KeyRun(released, generation, [press]).1 == [key];
    assert KeyRun(pressed, generation, [release, press]).1 == [key];
  }

  /** What an event does to the key held, and exactly when it acts. */
  lemma KeysAreHeldExactly(s: KeyGateState, generation: uint64, event: KeyEvent)
    ensures var (next, decision) := ObserveKey(s, generation, event);
            var known := IsCurrentKeyGeneration(s, generation) && event.operation != UnknownOperation;
            var again := s.heldOperation == Some(event.operation);
            && next.heldOperation ==
               (if known && !event.released then Some(event.operation)
                else if known && again then None else s.heldOperation)
            && decision.action ==
               (if known && !event.released && !again && Routes(s, generation) then Some(event.operation) else None)
            && (decision.duplicatePress <==> known && !event.released && again)
            && (decision.matchingRelease <==> known && event.released && again)
            && (decision.eventObserved <==> IsCurrentKeyGeneration(s, generation))
  {
  }

  // -------------------------------------------- stale key decisions stay dead

  /** The six entry points of the gate. */
  datatype KeyOp =
    | BeginOp(generation: uint64)
    | EndOp(generation: uint64)
    | RouteOp(generation: uint64, mode: RouteMode)
    | AcquireOp(generation: uint64, lease: uint64)
    | RevokeOp(generation: uint64, lease: uint64)
    | PressOp(generation: uint64, event: KeyEvent)

  function KeyStep(s: KeyGateState, op: KeyOp): (KeyGateState, KeyDecision) {
    match op
    case BeginOp(g) => BeginKeys(s, g)
    case EndOp(g) => EndKeys(s, g)
    case RouteOp(g, mode) => SetRouteMode(s, g, mode)
    case AcquireOp(g, lease) => AcquireKeys(s, g, lease)
    case RevokeOp(g, lease) => RevokeKeys(s, g, lease)
    case PressOp(g, event) => ObserveKey(s, g, event)
  }

  function KeySteps(s: KeyGateState, ops: seq<KeyOp>): KeyGateState
    decreases ops
  {
    if ops == [] then s else KeySteps(KeyStep(s, ops[0]).0, ops[1..])
  }

  predicate IsKeyDecisionCurrent(s: KeyGateState, decision: KeyDecision) {
    decision.action.Some? && s.aclGenerationCurrent && s.mode == RouteToMediaSession && s.ownerLease != 0 &&
    decision.aclGeneration == s.aclGeneration && decision.ownerLease == s.ownerLease &&
    decision.authorizationEpoch == s.authorizationEpoch && decision.acceptedEventSequence == s.acceptedEventSequence
  }

  /** The accepted calls that change who keys are routed for. */
  predicate Reauthorizes(s: KeyGateState, op: KeyOp) {
    match op
    case BeginOp(g) => IsNewerGeneration(g, s.aclGeneration)
    case EndOp(g) => IsCurrentKeyGeneration(s, g)
    case RouteOp(g, mode) => IsCurrentKeyGeneration(s, g) && mode != s.mode
    case AcquireOp(g, lease) => IsCurrentKeyGeneration(s, g) && lease != 0 && s.ownerLease == 0
    case RevokeOp(g, lease) => IsCurrentKeyGeneration(s, g) && lease != 0 && s.ownerLease == lease
    case PressOp(_, _) => false
  }

  predicate Acts(s: KeyGateState, op: KeyOp) {
    op.PressOp? && Routes(s, op.generation) && op.event.operation != UnknownOperation && !op.event.released &&
    s.heldOperation != Some(op.event.operation)
  }

  function Reauthorizations(s: KeyGateState, ops: seq<KeyOp>): nat
    decreases ops
  {
    if ops == [] then 0
    else (if Reauthorizes(s, ops[0]) then 1 else 0) + Reauthorizations(KeyStep(s, ops[0]).0, ops[1..])
  }

  function KeyActions(s: KeyGateState, ops: seq<KeyOp>): nat
    decreases ops
  {
    if ops == [] then 0 else (if Acts(s, ops[0]) then 1 else 0) + KeyActions(KeyStep(s, ops[0]).0, ops[1..])
  }

  lemma CountersStep(s: KeyGateState, op: KeyOp)
    ensures var next := KeyStep(s, op).0;
            && next.authorizationEpoch == (if Reauthorizes(s, op) then NextNonzero(s.authorizationEpoch)
                                           else s.authorizationEpoch)
            && (!Reauthorizes(s, op) ==>
                  && next.acceptedEventSequence == (if Acts(s, op) then NextNonzero(s.acceptedEventSequence)
                                                    else s.acceptedEventSequence)
                  && next.aclGeneration == s.aclGeneration && next.aclGenerationCurrent == s.aclGenerationCurrent
                  && next.mode == s.mode && next.ownerLease == s.ownerLease)
            && (KeyStep(s, op).1.action.Some? <==> Acts(s, op))
  {
  }

  /** Every other field of the gate changes exactly for these reasons. */
  lemma KeyFieldsHaveReasons(s: KeyGateState, op: KeyOp)
    ensures var next := KeyStep(s, op).0;
            var begun := op.BeginOp? && IsNewerGeneration(op.generation, s.aclGeneration);
            var here := !op.BeginOp? && IsCurrentKeyGeneration(s, op.generation);
            var over := begun || (op.EndOp? && here);
            && next.aclGeneration == (if begun then op.generation else s.aclGeneration)
            && (next.aclGenerationCurrent <==> begun || (s.aclGenerationCurrent && !over))
            && next.ownerLease ==
               (if over || (op.RevokeOp? && here && op.lease == s.ownerLease) then 0
                else if op.AcquireOp? && here && s.ownerLease == 0 then op.lease else s.ownerLease)
            && next.mode == (if over then ObserveKeys else if op.RouteOp? && here then op.mode else s.mode)
            && next.observedEventCount ==
               (if begun then 0
                else if op.PressOp? && here then (s.observedEventCount + 1) % TWO_64 else s.observedEventCount)
            && next.acceptedEventSequence ==
               (if begun then 0
                else if Acts(s, op) then NextNonzero(s.acceptedEventSequence) else s.acceptedEventSequence)
            && (Reauthorizes(s, op) ==> next.heldOperation == None)
            && (!Reauthorizes(s, op) && !op.PressOp? ==> next.heldOperation == s.heldOperation)
  {
  }

  /** Over every run the epoch counts the reauthorizations, and between two of them the sequence counts the actions. */
  lemma {:induction false} CountersCount(s: KeyGateState, ops: seq<KeyOp>)
    ensures KeySteps(s, ops).authorizationEpoch == Advance(s.authorizationEpoch, Reauthorizations(s, ops))
    ensures Reauthorizations(s, ops) == 0 ==>
              var end := KeySteps(s, ops);
              && end.acceptedEventSequence == Advance(s.acceptedEventSequence, KeyActions(s, ops))
              && end.aclGeneration == s.aclGeneration && end.aclGenerationCurrent == s.aclGenerationCurrent
              && end.mode == s.mode && end.ownerLease == s.ownerLease
    decreases ops
  {
    hide KeyStep, Reauthorizes, Acts;
    if ops != [] {
      var next := KeyStep(s, ops[0]).0;
      var first, act := if Reauthorizes(s, ops[0]) then 1 else 0, if Acts(s, ops[0]) then 1 else 0;
      CountersStep(s, ops[0]);
      CountersCount(next, ops[1..]);
      assert Advance(s.authorizationEpoch, 0) == s.authorizationEpoch;
      assert Advance(s.authorizationEpoch, 1) == NextNonzero(s.authorizationEpoch);
      assert Advance(s.acceptedEventSequence, 0) == s.acceptedEventSequence;
      assert Advance(s.acceptedEventSequence, 1) == NextNonzero(s.acceptedEventSequence);
      AdvanceAdds(s.authorizationEpoch, first, Reauthorizations(next, ops[1..]));
      AdvanceAdds(s.acceptedEventSequence, act, KeyActions(next, ops[1..]));
    }
  }

  /** A decision that acts is current in the state that issued it. */
  lemma IssuedKeyDecisionIsCurrent(s: KeyGateState, op: KeyOp)
    requires KeyStep(s, op).1.action.Some?
    ensures IsKeyDecisionCurrent(KeyStep(s, op).0, KeyStep(s, op).1)
  {
  }

  /**
   A current key decision stays current exactly until the first reauthorization or the
   next key that acts, and is not revived short of 2^64 - 1 of either.
   */
  lemma StaleKeyDecisionsStayDead(s: KeyGateState, ops: seq<KeyOp>, decision: KeyDecision)
    requires IsKeyDecisionCurrent(s, decision)
    requires Reauthorizations(s, ops) < MAX_U64 && KeyActions(s, ops) < MAX_U64
    ensures IsKeyDecisionCurrent(KeySteps(s, ops), decision) <==>
            Reauthorizations(s, ops) == 0 && KeyActions(s, ops) == 0
  {
    hide KeySteps, Reauthorizations, KeyActions;
    CountersCount(s, ops);
    AdvanceReturns(s.authorizationEpoch, Reauthorizations(s, ops));
    AdvanceReturns(s.acceptedEventSequence, KeyActions(s, ops));
  }

  // ------------------------------------------------------ the gate in place

  class KeyGate {
    var aclGeneration: uint64
    var aclGenerationCurrent: bool
    var ownerLease: uint64
    var authorizationEpoch: uint64
    var observedEventCount: uint64
    var acceptedEventSequence: uint64
    var mode: RouteMode
    var heldOperation: Option<Operation>

    function View(): KeyGateState
      reads this
    {
      KeyGateState(aclGeneration, aclGenerationCurrent, ownerLease, authorizationEpoch, observedEventCount,
                   acceptedEventSequence, mode, heldOperation)
    }

    constructor ()
      ensures View() == RESET_KEY_GATE
    {
      aclGeneration, aclGenerationCurrent, ownerLease, authorizationEpoch := 0, false, 0, 0;
      observedEventCount, acceptedEventSequence, mode, heldOperation := 0, 0, ObserveKeys, None;
    }

    method BeginAclGeneration(generation: uint64) returns (decision: KeyDecision)
      modifies this
      ensures (View(), decision) == BeginKeys(old(View()), generation)
    {
      if !IsNewerGeneration(generation, aclGeneration) {
        return NO_KEY_DECISION;
      }
      aclGeneration := generation;
      aclGenerationCurrent := true;
      ownerLease := 0;
      authorizationEpoch := NextNonzero(authorizationEpoch);
      observedEventCount := 0;
      acceptedEventSequence := 0;
      mode := ObserveKeys;
      heldOperation := None;
      decision := KeySnapshot(View());
    }

    method EndAclGeneration(generation: uint64) returns (decision: KeyDecision)
      modifies this
      ensures (View(), decision) == EndKeys(old(View()), generation)
    {
      if !IsCurrentKeyGeneration(View(), generation) {
        return NO_KEY_DECISION;
      }
      aclGenerationCurrent := false;
      ownerLease := 0;
      authorizationEpoch := NextNonzero(authorizationEpoch);
      mode := ObserveKeys;
      heldOperation := None;
      decision := KeySnapshot(View());
    }

    method SetGateMode(generation: uint64, mode: RouteMode) returns (decision: KeyDecision)
      modifies this
      ensures (View(), decision) == SetRouteMode(old(View()), generation, mode)
    {
      if !IsCurrentKeyGeneration(View(), generation) {
        return NO_KEY_DECISION;
      }
      if this.mode != mode {
        this.mode := mode;
        authorizationEpoch := NextNonzero(authorizationEpoch);
        heldOperation := None;
      }
      decision := KeySnapshot(View());
    }

    method AcquireOwnerLease(generation: uint64, lease: uint64) returns (decision: KeyDecision)
      modifies this
      ensures (View(), decision) == AcquireKeys(old(View()), generation, lease)
    {
      if !IsCurrentKeyGeneration(View(), generation) || lease == 0 || (ownerLease != 0 && ownerLease != lease) {
        return NO_KEY_DECISION;
      }
      if ownerLease == 0 {
        ownerLease := lease;
        authorizationEpoch := NextNonzero(authorizationEpoch);
        heldOperation := None;
      }
      decision := KeySnapshot(View());
    }

    method RevokeOwnerLease(generation: uint64, lease: uint64) returns (decision: KeyDecision)
      modifies this
      ensures (View(), decision) == RevokeKeys(old(View()), generation, lease)
    {
      if !IsCurrentKeyGeneration(View(), generation) || lease == 0 || ownerLease != lease {
        return NO_KEY_DECISION;
      }
      ownerLease := 0;
      authorizationEpoch := NextNonzero(authorizationEpoch);
      heldOperation := None;
      decision := KeySnapshot(View());
    }

    method ObserveEvent(generation: uint64, event: KeyEvent) returns (decision: KeyDecision)
      modifies this
      ensures (View(), decision) == ObserveKey(old(View()), generation, event)
    {
      if !IsCurrentKeyGeneration(View(), generation) {
        return NO_KEY_DECISION;
      }
      observedEventCount := (observedEventCount + 1) % TWO_64;
      decision := KeySnapshot(View()).(eventObserved := true);
      if event.operation == UnknownOperation {
        return;
      }
      if event.released {
        if heldOperation == Some(event.operation) {
          heldOperation := None;
          decision := decision.(matchingRelease := true);
        }
        return;
      }
      if heldOperation == Some(event.operation) {
        decision := decision.(duplicatePress := true);
        return;
      }
      heldOperation := Some(event.operation);
      if mode != RouteToMediaSession || ownerLease == 0 {
        return;
      }
      acceptedEventSequence := NextNonzero(acceptedEventSequence);
      decision := KeySnapshot(View()).(eventObserved := true, action := Some(event.operation));
    }
  }
}
