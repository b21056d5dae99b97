/**
 The hands-free switch of agent/v1_hfp_switch_state.cpp: capture stops the LDAC
 path, enters the hands-free output once the path is down, and gives LDAC back
 after a stability delay.
 */
module HfpSwitching {
  import opened Words

  const RELEASE_STABILITY_MS := 2000

  datatype Phase = Disconnected | LdacAvailable | WaitingForLdacStop | HfpActive | ReleaseDelay

  datatype SwitchInput = SwitchInput(
    aclGeneration: uint64,
    nowMs: uint64,
    physicalConnected: bool,
    captureActive: bool,
    ldacPathActive: bool,
    renderDemand: bool)

  datatype SwitchAction = StopLdac | EnterHfpOutput | ExitHfpOutput | ResumeLdac

  datatype SwitchState = SwitchState(
    phase: Phase,
    aclGeneration: uint64,
    releaseDeadlineMs: uint64,
    hfpOutputActive: bool)

  datatype SwitchDecision = SwitchDecision(
    actions: set<SwitchAction>,
    phase: Phase,
    aclGeneration: uint64,
    releaseDeadlineMs: uint64,
    stale: bool)

  const RESET_SWITCH := SwitchState(Disconnected, 0, 0, false)

  // ---------------------------------------------- the switch as a function

  function Snapshot(s: SwitchState, actions: set<SwitchAction>, stale: bool): SwitchDecision {
    SwitchDecision(actions, s.phase, s.aclGeneration, s.releaseDeadlineMs, stale)
  }

  predicate IsStale(s: SwitchState, input: SwitchInput) {
    input.aclGeneration == 0 ||
    (s.aclGeneration != 0 && input.aclGeneration != s.aclGeneration &&
     !IsNewerGeneration(input.aclGeneration, s.aclGeneration))
  }

  function Unplugged(s: SwitchState): SwitchState {
    s.(phase := Disconnected, releaseDeadlineMs := 0, hfpOutputActive := false)
  }

  function ExitIf(active: bool): set<SwitchAction> {
    if active then {ExitHfpOutput} else {}
  }

  /** A new generation leaves the hands-free output and starts over. */
  function Adopted(s: SwitchState, input: SwitchInput): (SwitchState, set<SwitchAction>) {
    if input.aclGeneration == s.aclGeneration then (s, {})
    else
      (Unplugged(s).(aclGeneration := input.aclGeneration,
                     phase := if input.physicalConnected then LdacAvailable else Disconnected),
       ExitIf(s.hfpOutputActive))
  }

  /** Delay deadlines are computed on 64 bits and may wrap. */
  function Deadline(nowMs: uint64): uint64 {
    (nowMs + RELEASE_STABILITY_MS) % TWO_64
  }

  /** The step of an accepted input on a connected link, after adoption. */
  function Connected(s: SwitchState, input: SwitchInput, actions: set<SwitchAction>): (SwitchState, set<SwitchAction>) {
    var available := if s.phase == Disconnected then s.(phase := LdacAvailable) else s;
    if input.captureActive then
      if input.ldacPathActive then
        (available.(phase := WaitingForLdacStop, releaseDeadlineMs := 0),
         actions + (if available.phase != WaitingForLdacStop then {StopLdac} else {}))
      else
        (available.(phase := HfpActive, releaseDeadlineMs := 0, hfpOutputActive := true),
         actions + (if !s.hfpOutputActive then {EnterHfpOutput} else {}))
    else if available.phase == WaitingForLdacStop && input.ldacPathActive then (available, actions)
    else if available.phase == WaitingForLdacStop || available.phase == HfpActive then
      (available.(phase := ReleaseDelay, releaseDeadlineMs := Deadline(input.nowMs)), actions)
    else if available.phase == ReleaseDelay && input.nowMs >= available.releaseDeadlineMs then
      (available.(phase := LdacAvailable, releaseDeadlineMs := 0, hfpOutputActive := false),
       actions + ExitIf(s.hfpOutputActive) +
       (if input.renderDemand && !input.ldacPathActive then {ResumeLdac} else {}))
    else (available, actions)
  }

  function SwitchStep(s: SwitchState, input: SwitchInput): (SwitchState, SwitchDecision) {
    if IsStale(s, input) then (s, Snapshot(s, {}, true))
    else
      var (adopted, exits) := Adopted(s, input);
      if !input.physicalConnected then
        (Unplugged(adopted), Snapshot(Unplugged(adopted), exits + ExitIf(adopted.hfpOutputActive), false))
      else
        var (next, actions) := Connected(adopted, input, exits);
        (next, Snapshot(next, actions, false))
  }

  lemma DecisionIsASnapshot(s: SwitchState, input: SwitchInput)
    ensures var (next, decision) := SwitchStep(s, input);
            decision == Snapshot(next, decision.actions, IsStale(s, input))
  {
  }

  function SwitchRun(inputs: seq<SwitchInput>): SwitchState {
    if inputs == [] then RESET_SWITCH
    else SwitchStep(SwitchRun(inputs[..|inputs| - 1]), inputs[|inputs| - 1]).0
  }

  /** The decision about the input at position `i` of a trace. */
  function DecisionAt(inputs: seq<SwitchInput>, i: nat): SwitchDecision
    requires i < |inputs|
  {
    SwitchStep(SwitchRun(inputs[..i]), inputs[i]).1
  }

  // ---------------------------------------------- what a step decides, and why

  /** The release delay of this generation ran out in silence. */
  predicate Expires(s: SwitchState, input: SwitchInput) {
    input.aclGeneration == s.aclGeneration && input.physicalConnected && !input.captureActive &&
    s.phase == ReleaseDelay && input.nowMs >= s.releaseDeadlineMs
  }

  /** Each action is decided exactly for its reason. */
  lemma ActionsHaveReasons(s: SwitchState, input: SwitchInput)
    ensures var (next, decision) := SwitchStep(s, input);
            var accepted, renewed := !decision.stale, input.aclGeneration != s.aclGeneration;
            var calls := accepted && input.physicalConnected && input.captureActive;
            && (StopLdac in decision.actions <==>
                  calls && input.ldacPathActive && (renewed || s.phase != WaitingForLdacStop))
            && (EnterHfpOutput in decision.actions <==>
                  calls && !input.ldacPathActive && (renewed || !s.hfpOutputActive))
            && (ExitHfpOutput in decision.actions <==>
                  accepted && s.hfpOutputActive && (renewed || !input.physicalConnected || Expires(s, input)))
            && (ResumeLdac in decision.actions <==>
                  accepted && Expires(s, input) && input.renderDemand && !input.ldacPathActive)
  {
  }

  /** Each phase is entered or kept exactly for its reason. */
  lemma PhasesHaveReasons(s: SwitchState, input: SwitchInput)
    requires !SwitchStep(s, input).1.stale
    ensures var next := SwitchStep(s, input).0;
            var renewed, linked := input.aclGeneration != s.aclGeneration, input.physicalConnected;
            && (next.phase == Disconnected <==> !linked)
            && (next.phase == HfpActive <==> linked && input.captureActive && !input.ldacPathActive)
            && (next.phase == WaitingForLdacStop <==>
                  && linked && input.ldacPathActive
                  && (input.captureActive || (!renewed && s.phase == WaitingForLdacStop)))
            && (next.phase == ReleaseDelay <==>
                  && linked && !input.captureActive && !renewed
                  && (|| (s.phase == WaitingForLdacStop && !input.ldacPathActive) || s.phase == HfpActive
                      || (s.phase == ReleaseDelay && input.nowMs < s.releaseDeadlineMs)))
            && (next.phase == ReleaseDelay ==>
                  next.releaseDeadlineMs ==
                  if s.phase == ReleaseDelay then s.releaseDeadlineMs else Deadline(input.nowMs))
            && next.aclGeneration == input.aclGeneration
  {
  }

  /**
   The hands-free output is entered in a call, and left wherever LDAC is available or the
   link is gone; only a release delay has a deadline.
   */
  ghost predicate OutputFitsPhase(s: SwitchState) {
    && (s.phase == HfpActive ==> s.hfpOutputActive)
    && (s.phase == Disconnected || s.phase == LdacAvailable ==> !s.hfpOutputActive)
    && (s.phase != ReleaseDelay ==> s.releaseDeadlineMs == 0)
  }

  lemma StepFitsPhase(s: SwitchState, input: SwitchInput)
    requires OutputFitsPhase(s)
    ensures OutputFitsPhase(SwitchStep(s, input).0)
  {
  }

  lemma {:induction false} OutputFitsPhaseAlways(inputs: seq<SwitchInput>)
    ensures OutputFitsPhase(SwitchRun(inputs))
  {
    hide SwitchStep, OutputFitsPhase;
    if inputs == [] {
      ResetFitsPhase();
    } else {
      OutputFitsPhaseAlways(inputs[..|inputs| - 1]);
      StepFitsPhase(SwitchRun(inputs[..|inputs| - 1]), inputs[|inputs| - 1]);
    }
  }

  lemma ResetFitsPhase()
    ensures OutputFitsPhase(RESET_SWITCH)
  {
  }

  // ------------------------------------------------------- release timing

  /** In every accepted step from `i` on: no capture, link connected, one generation. */
  ghost predicate QuietSince(inputs: seq<SwitchInput>, i: nat) {
    && i < |inputs| && !DecisionAt(inputs, i).stale
    && forall k :: i <= k < |inputs| && !DecisionAt(inputs, k).stale ==>
         inputs[k].physicalConnected && !inputs[k].captureActive && inputs[k].aclGeneration == inputs[i].aclGeneration
  }

  ghost predicate Armed(inputs: seq<SwitchInput>, i: nat) {
    QuietSince(inputs, i) && SwitchRun(inputs).releaseDeadlineMs == Deadline(inputs[i].nowMs) &&
    SwitchRun(inputs).aclGeneration == inputs[i].aclGeneration
  }

  lemma PrefixDecisions(inputs: seq<SwitchInput>, last: SwitchInput)
    ensures SwitchRun(inputs + [last]) == SwitchStep(SwitchRun(inputs), last).0
    ensures forall k :: 0 <= k < |inputs| ==> DecisionAt(inputs + [last], k) == DecisionAt(inputs, k)
    ensures DecisionAt(inputs + [last], |inputs|) == SwitchStep(SwitchRun(inputs), last).1
  {
    assert (inputs + [last])[..|inputs|] == inputs;
    forall k | 0 <= k < |inputs|
      ensures DecisionAt(inputs + [last], k) == DecisionAt(inputs, k)
    {
      assert (inputs + [last])[..k] == inputs[..k];
    }
  }

  /** One step leaves a delay only as it found it, or arms it. */
  lemma DelayArises(s: SwitchState, input: SwitchInput)
    requires SwitchStep(s, input).0.phase == ReleaseDelay
    ensures var (next, decision) := SwitchStep(s, input);
            || (decision.stale && next == s)
            || (&& !decision.stale && input.physicalConnected && !input.captureActive
                && next.aclGeneration == input.aclGeneration
                && (next.releaseDeadlineMs == Deadline(input.nowMs) || next == s))
  {
  }

  /** A release delay in progress was armed at some step and nothing has disturbed it since. */
  lemma {:induction false} ReleaseDelayWasArmed(inputs: seq<SwitchInput>) returns (i: nat)
    requires SwitchRun(inputs).phase == ReleaseDelay
    ensures Armed(inputs, i)
  {
    hide SwitchStep;
    var last := |inputs| - 1;
    var before, input := inputs[..last], inputs[last];
    assert inputs == before + [input];
    PrefixDecisions(before, input);
    DelayArises(SwitchRun(before), input);
    if !DecisionAt(inputs, last).stale && SwitchRun(inputs).releaseDeadlineMs == Deadline(input.nowMs) {
      i := last;
    } else {
      i := ReleaseDelayWasArmed(before);
    }
  }

  lemma ResumeEndsTheDelay(s: SwitchState, input: SwitchInput)
    requires ResumeLdac in SwitchStep(s, input).1.actions
    ensures !SwitchStep(s, input).1.stale && s.phase == ReleaseDelay && input.aclGeneration == s.aclGeneration
    ensures input.nowMs >= s.releaseDeadlineMs && input.physicalConnected && !input.captureActive
    ensures input.renderDemand && !input.ldacPathActive
  {
  }

  /**
   A resume is never decided without an earlier accepted step since which capture was
   inactive and the link connected, in one generation; and at least 2000 ms have passed
   exactly if that step's clock left room for the delay below 2^64.
   */
  lemma ResumeIsDelayed(inputs: seq<SwitchInput>) returns (i: nat)
    requires inputs != [] && ResumeLdac in DecisionAt(inputs, |inputs| - 1).actions
    ensures i < |inputs| - 1 && QuietSince(inputs, i)
    ensures inputs[|inputs| - 1].nowMs >= Deadline(inputs[i].nowMs)
    ensures inputs[|inputs| - 1].nowMs >= inputs[i].nowMs + RELEASE_STABILITY_MS <==>
              inputs[i].nowMs + RELEASE_STABILITY_MS < TWO_64
    ensures inputs[|inputs| - 1].renderDemand && !inputs[|inputs| - 1].ldacPathActive
  {
    hide SwitchStep;
    var last := |inputs| - 1;
    var before, input := inputs[..last], inputs[last];
    assert inputs == before + [input];
    PrefixDecisions(before, input);
    ResumeEndsTheDelay(SwitchRun(before), input);
    i := ReleaseDelayWasArmed(before);
  }

  /** The room is needed: next to the end of the clock the delay shrinks to nothing. */
  lemma DelayCanWrapAway()
    ensures exists inputs: seq<SwitchInput> ::
              && |inputs| == 3 && (forall k :: 0 <= k < 3 ==> inputs[k].nowMs == MAX_U64)
              && ResumeLdac in DecisionAt(inputs, 2).actions
  {
    var talking := SwitchInput(1, MAX_U64, true, true, false, true);
    var silent := talking.(captureActive := false);
    PrefixDecisions([], talking);
    PrefixDecisions([talking], silent);
    PrefixDecisions([talking, silent], silent);
    assert [] + [talking] == [talking];
    assert [talking] + [silent] == [talking, silent];
    assert [talking, silent] + [silent] == [talking, silent, silent];
    var inputs := [talking, silent, silent];
    assert Deadline(MAX_U64) == 1999;
    assert ResumeLdac in DecisionAt(inputs, 2).actions;
  }

  // -------------------------------------------------------- output balance

  function Count(inputs: seq<SwitchInput>, action: SwitchAction): nat {
    if inputs == [] then 0
    else
      var last := |inputs| - 1;
      Count(inputs[..last], action) + (if action in DecisionAt(inputs, last).actions then 1 else 0)
  }

  lemma OutputFollowsActions(s: SwitchState, input: SwitchInput)
    ensures var (next, decision) := SwitchStep(s, input);
            && (EnterHfpOutput in decision.actions && ExitHfpOutput !in decision.actions ==>
                  !s.hfpOutputActive && next.hfpOutputActive)
            && (ExitHfpOutput in decision.actions && EnterHfpOutput !in decision.actions ==>
                  s.hfpOutputActive && !next.hfpOutputActive)
            && ((EnterHfpOutput in decision.actions <==> ExitHfpOutput in decision.actions) ==>
                  s.hfpOutputActive == next.hfpOutputActive)
  {
  }

  /** Enters and exits of the hands-free output alternate: their difference is the output flag. */
  lemma {:induction false} EntersBalanceExits(inputs: seq<SwitchInput>)
    ensures Count(inputs, EnterHfpOutput) ==
            Count(inputs, ExitHfpOutput) + (if SwitchRun(inputs).hfpOutputActive then 1 else 0)
  {
    hide SwitchStep;
    if inputs != [] {
      OutputFollowsActions(SwitchRun(inputs[..|inputs| - 1]), inputs[|inputs| - 1]);
      EntersBalanceExits(inputs[..|inputs| - 1]);
    }
  }

  /**
   Over every trace the output is off whenever LDAC is available or the link is gone, so
   that enters equal exits there; and a resume always leaves it off.
   */
  lemma OutputIsLeft(inputs: seq<SwitchInput>)
    ensures var s := SwitchRun(inputs);
            s.phase == Disconnected || s.phase == LdacAvailable ==>
              !s.hfpOutputActive && Count(inputs, EnterHfpOutput) == Count(inputs, ExitHfpOutput)
    ensures inputs != [] && ResumeLdac in DecisionAt(inputs, |inputs| - 1).actions ==>
              SwitchRun(inputs).phase == LdacAvailable && !SwitchRun(inputs).hfpOutputActive
  {
    hide SwitchStep;
    OutputFitsPhaseAlways(inputs);
    EntersBalanceExits(inputs);
    if inputs != [] && ResumeLdac in DecisionAt(inputs, |inputs| - 1).actions {
      ResumeLeavesOutput(SwitchRun(inputs[..|inputs| - 1]), inputs[|inputs| - 1]);
    }
  }

  lemma ResumeLeavesOutput(s: SwitchState, input: SwitchInput)
    requires ResumeLdac in SwitchStep(s, input).1.actions
    ensures SwitchStep(s, input).0.phase == LdacAvailable
  {
  }

  /** The output is entered only with the LDAC path down, and a stop never comes with a resume. */
  lemma ActionsExclude(s: SwitchState, input: SwitchInput)
    ensures var actions := SwitchStep(s, input).1.actions;
            && (EnterHfpOutput in actions ==> input.captureActive && input.physicalConnected && !input.ldacPathActive)
            && (StopLdac in actions ==> input.captureActive && input.physicalConnected && input.ldacPathActive)
            && !(StopLdac in actions && ResumeLdac in actions)
  {
  }

  // --------------------------------------------------------------- in place

  class HfpSwitch {
    var phase: Phase
    var aclGeneration: uint64
    var releaseDeadlineMs: uint64
    var hfpOutputActive: bool

    function View(): SwitchState
      reads this
    {
      SwitchState(phase, aclGeneration, releaseDeadlineMs, hfpOutputActive)
    }

    constructor ()
      ensures View() == RESET_SWITCH
    {
      phase, aclGeneration, releaseDeadlineMs, hfpOutputActive := Disconnected, 0, 0, false;
    }

    method ResetDisconnected()
      modifies this
      ensures View() == Unplugged(old(View()))
    {
      phase := Disconnected;
      releaseDeadlineMs := 0;
      hfpOutputActive := false;
    }

    method Step(input: SwitchInput) returns (decision: SwitchDecision)
      modifies this
      ensures View() == SwitchStep(old(View()), input).0
      ensures decision.actions == SwitchStep(old(View()), input).1.actions
      ensures decision == Snapshot(View(), decision.actions, IsStale(old(View()), input))
    {
      if input.aclGeneration == 0 {
        return Snapshot(View(), {}, true);
      }
      if aclGeneration != 0 && input.aclGeneration != aclGeneration &&
         !IsNewerGeneration(input.aclGeneration, aclGeneration) {
        return Snapshot(View(), {}, true);
      }
      var actions := {};
      if input.aclGeneration != aclGeneration {
        if hfpOutputActive {
          actions := actions + {ExitHfpOutput};
        }
        aclGeneration := input.aclGeneration;
        ResetDisconnected();
        if input.physicalConnected {
          phase := LdacAvailable;
        }
      }
      if !input.physicalConnected {
        if hfpOutputActive {
          actions := actions + {ExitHfpOutput};
        }
        ResetDisconnected();
        return Snapshot(View(), actions, false);
      }
      decision := StepConnected(input, actions);
    }

    method StepConnected(input: SwitchInput, before: set<SwitchAction>) returns (decision: SwitchDecision)
      modifies this
      ensures View() == Connected(old(View()), input, before).0
      ensures decision.actions == Connected(old(View()), input, before).1
      ensures decision == Snapshot(View(), decision.actions, false)
    {
      var actions := before;
      if phase == Disconnected {
        phase := LdacAvailable;
      }
      if input.captureActive {
        releaseDeadlineMs := 0;
        if input.ldacPathActive {
          if phase != WaitingForLdacStop {
            actions := actions + {StopLdac};
          }
          phase := WaitingForLdacStop;
          return Snapshot(View(), actions, false);
        }
        if !hfpOutputActive {
          actions := actions + {EnterHfpOutput};
          hfpOutputActive := true;
        }
        phase := HfpActive;
        return Snapshot(View(), actions, false);
      }
      if phase == WaitingForLdacStop {
        if input.ldacPathActive {
          return Snapshot(View(), actions, false);
        }
        phase := ReleaseDelay;
        releaseDeadlineMs := Deadline(input.nowMs);
        return Snapshot(View(), actions, false);
      }
      if phase == HfpActive {
        phase := ReleaseDelay;
        releaseDeadlineMs := Deadline(input.nowMs);
        return Snapshot(View(), actions, false);
      }
      if phase == ReleaseDelay && input.nowMs >= releaseDeadlineMs {
        if hfpOutputActive {
          actions := actions + {ExitHfpOutput};
          hfpOutputActive := false;
        }
        if input.renderDemand && !input.ldacPathActive {
          actions := actions + {ResumeLdac};
        }
        phase := LdacAvailable;
        releaseDeadlineMs := 0;
      }
      return Snapshot(View(), actions, false);
    }
  }
}
