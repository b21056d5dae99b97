/**
 The hands-free switch wired to the lifecycle: the plan of
 agent/v1_hfp_lifecycle_adapter.cpp, the input and the execution of
 agent/v1_presence_agent.cpp, and the capture filter of
 agent/v1_hfp_shadow_state.cpp.
 */
module HfpComposition {
  import opened Words
  import L = LinkLifecycle
  import S = HfpSwitching

  datatype Command = NoCommand | SuspendLdac | ResumeLdac

  datatype Plan = Plan(
    proposed: Command,
    command: Command,
    shadowOnly: bool,
    stale: bool,
    invalid: bool,
    enterHfpOutput: bool,
    exitHfpOutput: bool)

  // ---------------------------------------------------------------- plans

  function PlanFor(decision: S.SwitchDecision, currentGeneration: uint64, enabled: bool): Plan {
    var base := Plan(NoCommand, NoCommand, true, false, false,
                     S.EnterHfpOutput in decision.actions, S.ExitHfpOutput in decision.actions);
    if decision.stale || decision.aclGeneration == 0 || decision.aclGeneration != currentGeneration then
      base.(stale := true)
    else if S.StopLdac in decision.actions && S.ResumeLdac in decision.actions then base.(invalid := true)
    else
      var proposed := if S.StopLdac in decision.actions then SuspendLdac
                      else if S.ResumeLdac in decision.actions then ResumeLdac else NoCommand;
      if enabled then base.(proposed := proposed, command := proposed, shadowOnly := false)
      else base.(proposed := proposed)
  }

  /** No command falls through to the resume event; the host never asks for it. */
  function EventFor(command: Command): L.Event {
    if command == SuspendLdac then L.HfpSuspendLdac else L.HfpResumeLdac
  }

  // ----------------------------------------------------- one turn of the host

  datatype Capture = Capture(monitorReady: bool, endpointMatched: bool, captureActive: bool)

  /** Anything but the two hands-free events reaches the lifecycle directly; those two only through a poll. */
  datatype Move =
    | Event(event: L.Event)
    | Poll(capture: Capture, nowMs: uint64)
  {
    predicate Allowed() {
      Event? ==> event != L.HfpSuspendLdac && event != L.HfpResumeLdac
    }
  }

  /** The deadline of a scheduled retry is kept as a flag: armed, it may come due at any time. */
  datatype Host = Host(life: L.LifecycleState, hfp: S.SwitchState, retryArmed: bool)

  predicate Capturing(capture: Capture) {
    capture.monitorReady && capture.endpointMatched && capture.captureActive
  }

  function InputFor(life: L.LifecycleState, capture: Capture, nowMs: uint64): S.SwitchInput {
    S.SwitchInput(life.aclGeneration, nowMs, life.presence == L.Present,
                  Capturing(capture),
                  life.engine != L.NoEngine || life.Live(),
                  life.render == L.Running)
  }

  function PollDecision(h: Host, m: Move): S.SwitchDecision
    requires m.Poll?
  {
    S.SwitchStep(h.hfp, InputFor(h.life, m.capture, m.nowMs)).1
  }

  function PollPlan(h: Host, m: Move, enabled: bool): Plan
    requires m.Poll?
  {
    PlanFor(PollDecision(h, m), h.life.aclGeneration, enabled)
  }

  predicate Executes(plan: Plan, enabled: bool) {
    enabled && !plan.shadowOnly && !plan.stale && !plan.invalid && plan.command != NoCommand
  }

  /** The lifecycle events a move amounts to: itself, the executed command, or nothing. */
  function Fed(h: Host, m: Move, enabled: bool): seq<L.Event> {
    if m.Event? then [m.event]
    else
      var plan := PollPlan(h, m, enabled);
      if Executes(plan, enabled) then [EventFor(plan.command)] else []
  }

  function ActionsOf(h: Host, m: Move, enabled: bool): set<L.Action> {
    var fed := Fed(h, m, enabled);
    if fed == [] then {} else L.Step(h.life, fed[0]).1
  }

  /** The events at which the host loop forgets a scheduled retry. */
  predicate Disarms(e: L.Event) {
    e == L.TransportRetryDue || e == L.RenderStopped || e == L.AclDisconnected || e == L.WatcherLeaseExpired
  }

  function ArmedAfter(life: L.LifecycleState, armed: bool, e: L.Event): bool {
    if L.ScheduleTransportRetry in L.Step(life, e).1 then true else armed && !Disarms(e)
  }

  function HostStep(h: Host, m: Move, enabled: bool): Host {
    var fed := Fed(h, m, enabled);
    Host(if fed == [] then h.life else L.Step(h.life, fed[0]).0,
         if m.Poll? then S.SwitchStep(h.hfp, InputFor(h.life, m.capture, m.nowMs)).0 else h.hfp,
         if m.Event? then ArmedAfter(h.life, h.retryArmed, m.event) else h.retryArmed)
  }

  function HostRun(h: Host, moves: seq<Move>, enabled: bool): Host
    decreases moves
  {
    if moves == [] then h else HostRun(HostStep(h, moves[0], enabled), moves[1..], enabled)
  }

  function FedBy(h: Host, moves: seq<Move>, enabled: bool): seq<L.Event>
    decreases moves
  {
    if moves == [] then []
    else Fed(h, moves[0], enabled) + FedBy(HostStep(h, moves[0], enabled), moves[1..], enabled)
  }

  function OpensDuring(h: Host, moves: seq<Move>, enabled: bool): nat
    decreases moves
  {
    if moves == [] then 0
    else (if L.OpenTransport in ActionsOf(h, moves[0], enabled) then 1 else 0) +
         OpensDuring(HostStep(h, moves[0], enabled), moves[1..], enabled)
  }

  ghost predicate AllAllowed(moves: seq<Move>) {
    forall m :: m in moves ==> m.Allowed()
  }

  /** What the host loop itself can deliver: a retry comes due only while one is scheduled. */
  predicate Delivers(h: Host, m: Move) {
    m.Allowed() && (m == Event(L.TransportRetryDue) ==> h.retryArmed)
  }

  ghost predicate Delivered(h: Host, moves: seq<Move>, enabled: bool)
    decreases moves
  {
    moves == [] ||
    (Delivers(h, moves[0]) && Delivered(HostStep(h, moves[0], enabled), moves[1..], enabled))
  }

  // ------------------------------------------ the lifecycle inside the host

  /** The host drives its lifecycle exactly as the plain reducer run over the events it feeds. */
  lemma {:induction false} HostRunsTheLifecycle(h: Host, moves: seq<Move>, enabled: bool)
    ensures HostRun(h, moves, enabled).life == L.Run(h.life, FedBy(h, moves, enabled))
    decreases moves
  {
    hide L.Step, S.SwitchStep;
    if moves != [] {
      var fed, rest := Fed(h, moves[0], enabled), FedBy(HostStep(h, moves[0], enabled), moves[1..], enabled);
      HostRunsTheLifecycle(HostStep(h, moves[0], enabled), moves[1..], enabled);
      if fed == [] {
        assert fed + rest == rest;
      } else {
        assert (fed + rest)[0] == fed[0] && (fed + rest)[1..] == rest;
      }
    }
  }

  function DirectEvents(moves: seq<Move>): seq<L.Event> {
    if moves == [] then []
    else (if moves[0].Event? then [moves[0].event] else []) + DirectEvents(moves[1..])
  }

  lemma {:induction false} ShadowPollsFeedNothing(h: Host, moves: seq<Move>)
    ensures FedBy(h, moves, false) == DirectEvents(moves)
    decreases moves
  {
    hide L.Step, S.SwitchStep;
    if moves != [] {
      ShadowPollsFeedNothing(HostStep(h, moves[0], false), moves[1..]);
    }
  }

  /** With transport switching off, the lifecycle is what it would be had nobody polled, whatever was captured. */
  lemma ShadowingIsInvisible(h: Host, moves: seq<Move>)
    ensures HostRun(h, moves, false).life == L.Run(h.life, DirectEvents(moves))
  {
    HostRunsTheLifecycle(h, moves, false);
    ShadowPollsFeedNothing(h, moves);
  }

  // --------------------------------------------------------- what plans say

  lemma PlanReadsTheDecision(h: Host, m: Move, enabled: bool)
    requires m.Poll?
    ensures var plan := PollPlan(h, m, enabled);
            && !plan.invalid
            && (plan.stale <==> S.IsStale(h.hfp, InputFor(h.life, m.capture, m.nowMs)))
            && (!plan.stale && enabled ==> plan.command == plan.proposed && !plan.shadowOnly)
            && (!enabled ==> plan.command == NoCommand && plan.shadowOnly)
  {
    S.ActionsExclude(h.hfp, InputFor(h.life, m.capture, m.nowMs));
  }

  /** A poll executes exactly what the switch decided, if switching is on and the input was not refused. */
  lemma DecisionsAreExecuted(h: Host, m: Move, enabled: bool)
    requires m.Poll?
    ensures var decision, plan := PollDecision(h, m), PollPlan(h, m, enabled);
            && (Suspends(h, m, enabled) <==> enabled && S.StopLdac in decision.actions)
            && (Fed(h, m, enabled) == [L.HfpResumeLdac] <==> enabled && S.ResumeLdac in decision.actions)
            && (Fed(h, m, enabled) == [] <==>
                  !enabled || (S.StopLdac !in decision.actions && S.ResumeLdac !in decision.actions))
            && (plan.proposed == SuspendLdac <==> S.StopLdac in decision.actions)
            && (plan.enterHfpOutput <==> S.EnterHfpOutput in decision.actions)
            && (plan.exitHfpOutput <==> S.ExitHfpOutput in decision.actions)
  {
    var input := InputFor(h.life, m.capture, m.nowMs);
    S.ActionsExclude(h.hfp, input);
    S.ActionsHaveReasons(h.hfp, input);
    S.DecisionIsASnapshot(h.hfp, input);
    SwitchAdopts(h.hfp, input);
    hide S.SwitchStep;
  }

  /** A monitor that is not ready, or sees another endpoint, is as good as silence. */
  lemma BlindPollsAreSilence(h: Host, capture: Capture, nowMs: uint64, enabled: bool)
    requires !capture.monitorReady || !capture.endpointMatched
    ensures HostStep(h, Poll(capture, nowMs), enabled) == HostStep(h, Poll(Capture(true, true, false), nowMs), enabled)
  {
    hide L.Step, S.SwitchStep;
  }

  /**
   In a coherent host an executed suspend always takes the engine down and stops live
   media gracefully; the output is entered only with neither engine nor live media.
   */
  lemma CommandsFitTheLink(h: Host, m: Move, enabled: bool)
    requires L.Coherent(h.life) && m.Poll?
    ensures var plan := PollPlan(h, m, enabled); var actions := ActionsOf(h, m, enabled);
            && (Executes(plan, enabled) && plan.command == SuspendLdac ==>
                  && L.StopEngine in actions && L.CancelTransport !in actions
                  && (L.GracefulStopTransport in actions <==> h.life.Live()))
            && (plan.enterHfpOutput ==>
                  h.life.presence == L.Present && h.life.engine == L.NoEngine && !h.life.Live())
  {
    S.ActionsExclude(h.hfp, InputFor(h.life, m.capture, m.nowMs));
    L.StopsFitTheLink(h.life, L.HfpSuspendLdac);
  }

  // -------------------------------------------------- no open while suspended

  predicate Suspends(h: Host, m: Move, enabled: bool) {
    m.Poll? && Executes(PollPlan(h, m, enabled), enabled) && PollPlan(h, m, enabled).command == SuspendLdac
  }

  predicate EndsSuspension(h: Host, m: Move, enabled: bool) {
    || (m.Event? && L.IsLinkEdge(h.life, m.event))
    || (m.Poll? && Executes(PollPlan(h, m, enabled), enabled) && PollPlan(h, m, enabled).command == ResumeLdac)
  }

  /** Whether the last executed suspend was followed by neither an executed resume nor a link edge. */
  function SuspendedAfter(h: Host, suspended: bool, moves: seq<Move>, enabled: bool): bool
    decreases moves
  {
    if moves == [] then suspended
    else
      var now := Suspends(h, moves[0], enabled) || (suspended && !EndsSuspension(h, moves[0], enabled));
      SuspendedAfter(HostStep(h, moves[0], enabled), now, moves[1..], enabled)
  }

  lemma MoveSuspends(h: Host, m: Move, enabled: bool)
    requires L.QuietIfSuspended(h.life) && m.Allowed()
    ensures var next := HostStep(h, m, enabled).life;
            && L.QuietIfSuspended(next)
            && (next.hfpSuspended <==>
                  Suspends(h, m, enabled) || (h.life.hfpSuspended && !EndsSuspension(h, m, enabled)))
            && (h.life.hfpSuspended && next.hfpSuspended ==> L.OpenTransport !in ActionsOf(h, m, enabled))
  {
    hide L.Step, S.SwitchStep;
    var fed := Fed(h, m, enabled);
    if fed != [] {
      L.StepSuspends(h.life, fed[0]);
    }
  }

  /** The suspension flag says exactly that the last suspend has not been answered, and then media is quiet. */
  lemma {:induction false} SuspensionIsRemembered(h: Host, moves: seq<Move>, enabled: bool)
    requires L.QuietIfSuspended(h.life) && AllAllowed(moves)
    ensures var end := HostRun(h, moves, enabled).life;
            && L.QuietIfSuspended(end)
            && end.hfpSuspended == SuspendedAfter(h, h.life.hfpSuspended, moves, enabled)
    decreases moves
  {
    hide HostStep, Suspends, EndsSuspension;
    if moves != [] {
      MoveSuspends(h, moves[0], enabled);
      SuspensionIsRemembered(HostStep(h, moves[0], enabled), moves[1..], enabled);
    }
  }

  ghost predicate NothingEndsSuspension(h: Host, moves: seq<Move>, enabled: bool)
    decreases moves
  {
    moves == [] ||
    (!EndsSuspension(h, moves[0], enabled) &&
     NothingEndsSuspension(HostStep(h, moves[0], enabled), moves[1..], enabled))
  }

  /**
   From a suspend executed in any reachable host until the next executed resume or
   link edge, no transport is opened and media is neither opening nor streaming.
   */
  lemma NoOpenWhileSuspended(h: Host, poll: Move, moves: seq<Move>, enabled: bool)
    requires L.QuietIfSuspended(h.life) && poll.Allowed() && AllAllowed(moves)
    requires Suspends(h, poll, enabled)
    requires NothingEndsSuspension(HostStep(h, poll, enabled), moves, enabled)
    ensures OpensDuring(h, [poll] + moves, enabled) == 0
    ensures var end := HostRun(h, [poll] + moves, enabled).life;
            end.hfpSuspended && end.media != L.Opening && end.media != L.Streaming
  {
    hide HostStep, EndsSuspension, L.Step;
    MoveSuspends(h, poll, enabled);
    StaysSuspended(HostStep(h, poll, enabled), moves, enabled);
    assert ([poll] + moves)[1..] == moves;
    SuspendOpensNothing(h, poll, enabled);
  }

  lemma SuspendOpensNothing(h: Host, poll: Move, enabled: bool)
    requires Suspends(h, poll, enabled)
    ensures L.OpenTransport !in ActionsOf(h, poll, enabled)
  {
    hide S.SwitchStep;
  }

  lemma {:induction false} StaysSuspended(h: Host, moves: seq<Move>, enabled: bool)
    requires h.life.hfpSuspended && L.QuietIfSuspended(h.life) && AllAllowed(moves)
    requires NothingEndsSuspension(h, moves, enabled)
    ensures OpensDuring(h, moves, enabled) == 0
    ensures HostRun(h, moves, enabled).life.hfpSuspended && L.QuietIfSuspended(HostRun(h, moves, enabled).life)
    decreases moves
  {
    hide HostStep, EndsSuspension, L.Step;
    if moves != [] {
      MoveSuspends(h, moves[0], enabled);
      StaysSuspended(HostStep(h, moves[0], enabled), moves[1..], enabled);
    }
  }

  // ------------------------------------------------ no start while suspended

  /** A scheduled retry waits on a running, unsuspended link with the LDAC path down. */
  ghost predicate RetryWaits(h: Host) {
    h.retryArmed ==>
      && h.life.presence == L.Present && h.life.render == L.Running && h.life.engine == L.NoEngine
      && !h.life.Live() && h.life.openAttempts != 0 && !h.life.hfpSuspended
  }

  lemma EventKeepsWaiting(life: L.LifecycleState, armed: bool, e: L.Event)
    requires L.Coherent(life) && L.QuietIfSuspended(life) && e != L.HfpSuspendLdac
    requires armed ==>
               && life.presence == L.Present && life.render == L.Running && life.engine == L.NoEngine
               && !life.Live() && life.openAttempts != 0 && !life.hfpSuspended
    ensures var next := L.Step(life, e).0;
            ArmedAfter(life, armed, e) ==>
              && next.presence == L.Present && next.render == L.Running && next.engine == L.NoEngine
              && !next.Live() && next.openAttempts != 0 && !next.hfpSuspended
  {
  }

  /** A poll suspends only a path that is up, so never over a waiting retry. */
  lemma PollKeepsWaiting(h: Host, m: Move, enabled: bool)
    requires RetryWaits(h) && m.Poll?
    ensures RetryWaits(HostStep(h, m, enabled))
  {
    var plan := PollPlan(h, m, enabled);
    S.ActionsExclude(h.hfp, InputFor(h.life, m.capture, m.nowMs));
    hide S.SwitchStep;
    if h.retryArmed && Executes(plan, enabled) {
      assert plan.command == ResumeLdac;
    }
  }

  lemma MoveKeepsWaiting(h: Host, m: Move, enabled: bool)
    requires RetryWaits(h) && L.Coherent(h.life) && L.QuietIfSuspended(h.life) && Delivers(h, m)
    ensures RetryWaits(HostStep(h, m, enabled)) && L.Coherent(HostStep(h, m, enabled).life)
    ensures L.StartEngine in ActionsOf(h, m, enabled) ==> !HostStep(h, m, enabled).life.hfpSuspended
  {
    hide L.Step, S.SwitchStep, L.Coherent;
    var fed := Fed(h, m, enabled);
    if m.Event? {
      EventKeepsWaiting(h.life, h.retryArmed, m.event);
    } else {
      PollKeepsWaiting(h, m, enabled);
    }
    if fed != [] {
      L.SuspendedStartsExactly(h.life, fed[0]);
      L.StepKeepsCoherence(h.life, fed[0]);
    }
    hide ArmedAfter;
  }

  lemma {:induction false} RunKeepsWaiting(h: Host, moves: seq<Move>, enabled: bool)
    requires RetryWaits(h) && L.Coherent(h.life) && L.QuietIfSuspended(h.life) && Delivered(h, moves, enabled)
    ensures var end := HostRun(h, moves, enabled);
            RetryWaits(end) && L.Coherent(end.life) && L.QuietIfSuspended(end.life)
    decreases moves
  {
    hide HostStep, RetryWaits, L.Coherent;
    if moves != [] {
      MoveKeepsWaiting(h, moves[0], enabled);
      MoveSuspends(h, moves[0], enabled);
      RunKeepsWaiting(HostStep(h, moves[0], enabled), moves[1..], enabled);
    }
  }

  /**
   Although the reducer would start an engine on a retry that came due within a
   suspension, the host never delivers one: under every configuration, in every run it
   can deliver, no move starts an engine and leaves the link suspended.
   */
  lemma NoStartWhileSuspended(maximum: uint32, tolerateGaps: bool, allowMultiple: bool, moves: seq<Move>, m: Move,
                              enabled: bool)
    requires Delivered(Start(maximum, tolerateGaps, allowMultiple), moves, enabled)
    requires Delivers(HostRun(Start(maximum, tolerateGaps, allowMultiple), moves, enabled), m)
    ensures var h := HostRun(Start(maximum, tolerateGaps, allowMultiple), moves, enabled);
            L.StartEngine in ActionsOf(h, m, enabled) ==> !HostStep(h, m, enabled).life.hfpSuspended
  {
    hide HostStep, ActionsOf;
    RunKeepsWaiting(Start(maximum, tolerateGaps, allowMultiple), moves, enabled);
    MoveKeepsWaiting(HostRun(Start(maximum, tolerateGaps, allowMultiple), moves, enabled), m, enabled);
  }

  // ------------------------------------------------- suspension without end

  /** When the release delay runs out the suspension ends exactly if there is render demand and no LDAC path. */
  lemma ExpiryResumesExactly(h: Host, m: Move)
    requires m.Poll? && !Capturing(m.capture) && h.life.hfpSuspended && h.life.presence == L.Present
    requires h.hfp.phase == S.ReleaseDelay && h.hfp.aclGeneration == h.life.aclGeneration != 0
    requires m.nowMs >= h.hfp.releaseDeadlineMs
    ensures var next := HostStep(h, m, true);
            && next.hfp.phase == S.LdacAvailable
            && (!next.life.hfpSuspended <==>
                  h.life.render == L.Running && h.life.engine == L.NoEngine && !h.life.Live())
  {
  }

  /** Neither a call nor the loss of the link. */
  predicate Uneventful(m: Move) {
    if m.Poll? then !Capturing(m.capture)
    else m.Allowed() && m.event != L.AclDisconnected && m.event != L.WatcherLeaseExpired
  }

  ghost predicate Forgotten(h: Host) {
    && h.life.hfpSuspended && h.life.presence == L.Present
    && h.hfp.phase == S.LdacAvailable && h.hfp.aclGeneration == h.life.aclGeneration != 0
  }

  lemma ForgottenStays(h: Host, m: Move)
    requires Forgotten(h) && Uneventful(m)
    ensures Forgotten(HostStep(h, m, true))
  {
    if m.Poll? {
      SwitchIdles(h.hfp, InputFor(h.life, m.capture, m.nowMs));
    } else {
      hide S.SwitchStep;
    }
  }

  lemma SwitchIdles(s: S.SwitchState, input: S.SwitchInput)
    requires s.phase == S.LdacAvailable && input.aclGeneration == s.aclGeneration != 0
    requires input.physicalConnected && !input.captureActive
    ensures S.SwitchStep(s, input).0 == s && S.SwitchStep(s, input).1.actions == {}
  {
  }

  /**
   If the demand is missing at that moment, nothing short of the next call or the loss
   of the link ends the suspension: starting to render afterwards does not.
   */
  lemma {:induction false} SuspensionCanOutliveTheCall(h: Host, moves: seq<Move>)
    requires Forgotten(h) && forall m :: m in moves ==> Uneventful(m)
    ensures HostRun(h, moves, true).life.hfpSuspended
    decreases moves
  {
    hide HostStep;
    if moves != [] {
      ForgottenStays(h, moves[0]);
      SuspensionCanOutliveTheCall(HostStep(h, moves[0], true), moves[1..]);
    }
  }

  // ------------------------------------------- and these states are reached

  /** The host as it starts in daily mode, the only mode in which it polls. */
  function Daily(): Host {
    Start(L.MAXIMUM_PCM_OPEN_ATTEMPTS, true, true)
  }

  /** Reached by moves the host can deliver, in daily mode with transport switching on. */
  ghost predicate Reachable(h: Host) {
    exists moves :: Delivered(Daily(), moves, true) && HostRun(Daily(), moves, true) == h
  }

  lemma {:induction false} RunExtends(h: Host, moves: seq<Move>, m: Move, enabled: bool)
    requires Delivered(h, moves, enabled) && Delivers(HostRun(h, moves, enabled), m)
    ensures Delivered(h, moves + [m], enabled)
    ensures HostRun(h, moves + [m], enabled) == HostStep(HostRun(h, moves, enabled), m, enabled)
    decreases moves
  {
    hide HostStep, Delivers;
    if moves == [] {
      assert [] + [m] == [m] && [m][1..] == [];
    } else {
      assert (moves + [m])[0] == moves[0] && (moves + [m])[1..] == moves[1..] + [m];
      RunExtends(HostStep(h, moves[0], enabled), moves[1..], m, enabled);
    }
  }

  lemma ReachNext(h: Host, m: Move)
    requires Reachable(h) && Delivers(h, m)
    ensures Reachable(HostStep(h, m, true))
  {
    hide HostStep, Daily, Delivers;
    var moves :| Delivered(Daily(), moves, true) && HostRun(Daily(), moves, true) == h;
    RunExtends(Daily(), moves, m, true);
  }

  lemma OnlyFailuresSchedule(life: L.LifecycleState, e: L.Event)
    ensures L.ScheduleTransportRetry in L.Step(life, e).1 ==> e == L.TransportRetryableFailure
  {
  }

  lemma ReachAfterEvent(h: Host, e: L.Event)
    requires Reachable(h) && Delivers(h, Event(e)) && !h.retryArmed && e != L.TransportRetryableFailure
    ensures Reachable(Host(L.Step(h.life, e).0, h.hfp, false))
  {
    hide Reachable, S.SwitchStep;
    ReachNext(h, Event(e));
    OnlyFailuresSchedule(h.life, e);
    hide L.Step;
  }

  /** The first call on an LDAC path suspends. */
  lemma CallSuspends(h: Host)
    requires h.life.presence == L.Present && h.life.aclGeneration != 0 && h.life.engine != L.NoEngine
    requires h.hfp == S.RESET_SWITCH
    ensures HostStep(h, Poll(Capture(true, true, true), 0), true) ==
            Host(L.Step(h.life, L.HfpSuspendLdac).0,
                 S.SwitchState(S.WaitingForLdacStop, h.life.aclGeneration, 0, false), h.retryArmed)
  {
    hide L.Step;
  }

  /** Its end, once the path is down, arms the release delay, and the delay's end forgets it without demand. */
  lemma SilenceForgets(h: Host)
    requires h.life.presence == L.Present && h.life.aclGeneration != 0 && h.life.engine == L.NoEngine
    requires !h.life.Live() && h.life.render == L.Idle && h.life.hfpSuspended
    requires h.hfp == S.SwitchState(S.WaitingForLdacStop, h.life.aclGeneration, 0, false)
    ensures var delaying := h.(hfp := S.SwitchState(S.ReleaseDelay, h.life.aclGeneration, 2000, false));
            && HostStep(h, Poll(Capture(true, true, false), 0), true) == delaying
            && Forgotten(HostStep(delaying, Poll(Capture(true, true, false), 2000), true))
  {
    hide L.Step;
    assert S.Deadline(0) == 2000;
  }

  /** Connected and rendering in daily mode, with the engine starting. */
  const RENDERING := L.LifecycleState(L.Present, L.Running, L.Starting, L.Stopped, 1, 0, 4, true, true, false, 0)

  lemma RenderingIsReachable()
    ensures Reachable(Host(RENDERING, S.RESET_SWITCH, false))
  {
    var life := Daily().life;
    var connected := life.(presence := L.Present, aclGeneration := 1);
    assert L.Step(life, L.AclConnected).0 == connected;
    assert L.Step(connected, L.RenderStarted).0 == RENDERING;
    hide L.Step, HostStep;
    assert Delivered(Daily(), [], true) && HostRun(Daily(), [], true) == Daily();
    hide HostRun;
    ReachAfterEvent(Daily(), L.AclConnected);
    hide Reachable;
    ReachAfterEvent(Host(connected, S.RESET_SWITCH, false), L.RenderStarted);
  }

  /** A call that ended the LDAC path, which nobody wants any more. */
  const ABANDONED := RENDERING.(engine := L.NoEngine, render := L.Idle, hfpSuspended := true)

  lemma RenderingIsAbandoned()
    ensures var stopping := L.Step(RENDERING, L.HfpSuspendLdac).0;
            var exited := L.Step(stopping, L.EngineExited).0;
            L.Step(exited, L.RenderStopped).0 == ABANDONED
  {
    var stopping := RENDERING.(hfpSuspended := true);
    assert L.Step(RENDERING, L.HfpSuspendLdac).0 == stopping;
    assert L.Step(stopping, L.EngineExited).0 == stopping.(engine := L.NoEngine);
  }

  lemma AbandonedIsReachable()
    ensures Reachable(Host(ABANDONED, S.SwitchState(S.WaitingForLdacStop, 1, 0, false), false))
  {
    hide L.Step, HostStep, Reachable;
    var rendering := Host(RENDERING, S.RESET_SWITCH, false);
    var waiting := S.SwitchState(S.WaitingForLdacStop, 1, 0, false);
    var stopping := L.Step(RENDERING, L.HfpSuspendLdac).0;
    RenderingIsReachable();
    CallSuspends(rendering);
    ReachNext(rendering, Poll(Capture(true, true, true), 0));
    ReachAfterEvent(Host(stopping, waiting, false), L.EngineExited);
    ReachAfterEvent(Host(L.Step(stopping, L.EngineExited).0, waiting, false), L.RenderStopped);
    RenderingIsAbandoned();
  }

  /** A call that ends while nothing renders leaves the host in such a forgotten suspension: seven moves. */
  lemma ForgottenIsReachable() returns (h: Host)
    ensures Reachable(h) && Forgotten(h)
  {
    hide L.Step, HostStep, Reachable;
    AbandonedIsReachable();
    h := Host(ABANDONED, S.SwitchState(S.WaitingForLdacStop, 1, 0, false), false);
    SilenceForgets(h);
    ReachNext(h, Poll(Capture(true, true, false), 0));
    h := HostStep(h, Poll(Capture(true, true, false), 0), true);
    ReachNext(h, Poll(Capture(true, true, false), 2000));
    h := HostStep(h, Poll(Capture(true, true, false), 2000), true);
  }

  // ------------------------------------------------------------ stale plans

  /** Connects of the link since the switch last took its generation over. */
  function Unseen(h: Host, unseen: nat, m: Move, enabled: bool): nat {
    if m.Poll? then (if PollPlan(h, m, enabled).stale then unseen else 0)
    else if m.event == L.AclConnected && h.life.presence == L.Absent then unseen + 1
    else unseen
  }

  function UnseenAfter(h: Host, unseen: nat, moves: seq<Move>, enabled: bool): nat
    decreases moves
  {
    if moves == [] then unseen
    else UnseenAfter(HostStep(h, moves[0], enabled), Unseen(h, unseen, moves[0], enabled), moves[1..], enabled)
  }

  ghost predicate Lags(h: Host, unseen: nat) {
    h.life.aclGeneration == Advance(h.hfp.aclGeneration, unseen)
  }

  lemma GenerationSteps(life: L.LifecycleState, e: L.Event)
    ensures L.Step(life, e).0.aclGeneration ==
            if e == L.AclConnected && life.presence == L.Absent then NextNonzero(life.aclGeneration)
            else life.aclGeneration
  {
  }

  lemma SwitchAdopts(s: S.SwitchState, input: S.SwitchInput)
    ensures S.SwitchStep(s, input).0.aclGeneration ==
            if S.IsStale(s, input) then s.aclGeneration else input.aclGeneration
  {
  }

  lemma MoveLags(h: Host, unseen: nat, m: Move, enabled: bool)
    requires Lags(h, unseen) && m.Allowed()
    ensures Lags(HostStep(h, m, enabled), Unseen(h, unseen, m, enabled))
  {
    hide L.Step, S.SwitchStep;
    if m.Poll? {
      PlanReadsTheDecision(h, m, enabled);
      SwitchAdopts(h.hfp, InputFor(h.life, m.capture, m.nowMs));
    }
    var fed := Fed(h, m, enabled);
    if fed != [] {
      GenerationSteps(h.life, fed[0]);
    }
  }

  lemma {:induction false} RunLags(h: Host, unseen: nat, moves: seq<Move>, enabled: bool)
    requires Lags(h, unseen) && AllAllowed(moves)
    ensures Lags(HostRun(h, moves, enabled), UnseenAfter(h, unseen, moves, enabled))
    decreases moves
  {
    hide HostStep, Unseen;
    if moves != [] {
      MoveLags(h, unseen, moves[0], enabled);
      RunLags(HostStep(h, moves[0], enabled), Unseen(h, unseen, moves[0], enabled), moves[1..], enabled);
    }
  }

  function Start(maximum: uint32, tolerateGaps: bool, allowMultiple: bool): Host {
    Host(L.Configured(maximum, tolerateGaps, allowMultiple), S.RESET_SWITCH, false)
  }

  /**
   In every reachable host a plan is never invalid, and it is stale exactly when the
   link has no generation yet or its unseen connects outran the half range.
   */
  lemma PlansAreStaleExactly(maximum: uint32, tolerateGaps: bool, allowMultiple: bool, moves: seq<Move>, m: Move,
                             enabled: bool)
    requires AllAllowed(moves) && m.Poll?
    ensures var start := Start(maximum, tolerateGaps, allowMultiple);
            var h, unseen := HostRun(start, moves, enabled), UnseenAfter(start, 0, moves, enabled);
            var plan := PollPlan(h, m, enabled);
            && !plan.invalid
            && (plan.stale <==> h.life.aclGeneration == 0 ||
                                (h.hfp.aclGeneration != 0 && Outruns(h.hfp.aclGeneration, unseen)))
            && (unseen < TWO_63 - 1 ==> (plan.stale <==> h.life.aclGeneration == 0))
  {
    hide L.Step, S.SwitchStep, HostStep, Advance, HostRun, UnseenAfter, PollPlan, Outruns;
    hide IsNewerGeneration, AllAllowed;
    var start := Start(maximum, tolerateGaps, allowMultiple);
    var h, unseen := HostRun(start, moves, enabled), UnseenAfter(start, 0, moves, enabled);
    AdvanceReturns(0, 0);
    RunLags(start, 0, moves, enabled);
    PlanReadsTheDecision(h, m, enabled);
    if h.hfp.aclGeneration != 0 {
      AdvanceIsAcceptedExactly(h.hfp.aclGeneration, unseen);
      AdvanceClosedForm(h.hfp.aclGeneration, unseen);
      if unseen < TWO_63 - 1 {
        SoonNeverOutruns(h.hfp.aclGeneration, unseen);
      }
    }
  }

  /** What the results about one move ask of a host holds in every host the loop can reach. */
  lemma ReachableHostsAreCoherent(maximum: uint32, tolerateGaps: bool, allowMultiple: bool,
                                  moves: seq<Move>, enabled: bool)
    requires AllAllowed(moves)
    ensures var h := HostRun(Start(maximum, tolerateGaps, allowMultiple), moves, enabled);
            L.Coherent(h.life) && L.QuietIfSuspended(h.life)
  {
    var start := Start(maximum, tolerateGaps, allowMultiple);
    HostRunsTheLifecycle(start, moves, enabled);
    L.EveryRunIsCoherent(maximum, tolerateGaps, allowMultiple, FedBy(start, moves, enabled));
    SuspensionIsRemembered(start, moves, enabled);
  }

  // --------------------------------------------------------------- in place

  class HostLoop {
    const life: L.Lifecycle
    const hfp: S.HfpSwitch
    const enabled: bool
    var retryArmed: bool

    function View(): Host
      reads this, life, hfp
    {
      Host(life.View(), hfp.View(), retryArmed)
    }

    constructor (life: L.Lifecycle, enabled: bool)
      ensures this.life == life && this.enabled == enabled && fresh(hfp)
      ensures View() == Host(life.View(), S.RESET_SWITCH, false)
    {
      this.life := life;
      this.enabled := enabled;
      hfp := new S.HfpSwitch();
      retryArmed := false;
    }

    /** One lifecycle event, and what it means for the deadline of a scheduled retry. */
    method Deliver(event: L.Event) returns (actions: set<L.Action>)
      modifies life, this`retryArmed
      ensures View() == HostStep(old(View()), Event(event), enabled)
      ensures actions == L.Step(old(life.View()), event).1
    {
      hide L.Step, L.Lifecycle.View, S.HfpSwitch.View;
      if event == L.TransportRetryDue {
        retryArmed := false;
      }
      actions := life.Reduce(event);
      if L.ScheduleTransportRetry in actions {
        retryArmed := true;
      } else if event == L.RenderStopped || event == L.AclDisconnected || event == L.WatcherLeaseExpired {
        retryArmed := false;
      }
    }

    /** The shadow poll and the execution of its plan. */
    method PollHfp(capture: Capture, nowMs: uint64) returns (plan: Plan, actions: set<L.Action>)
      modifies life, hfp
      ensures View() == HostStep(old(View()), Poll(capture, nowMs), enabled)
      ensures plan == PollPlan(old(View()), Poll(capture, nowMs), enabled)
      ensures actions == ActionsOf(old(View()), Poll(capture, nowMs), enabled)
    {
      hide L.Step, S.SwitchStep;
      var input := InputFor(life.View(), capture, nowMs);
      S.DecisionIsASnapshot(hfp.View(), input);
      var decision := hfp.Step(input);
      plan := PlanFor(decision, life.aclGeneration, enabled);
      actions := {};
      if enabled && !plan.shadowOnly && !plan.stale && !plan.invalid && plan.command != NoCommand {
        actions := life.Reduce(EventFor(plan.command));
      }
    }
  }
}
