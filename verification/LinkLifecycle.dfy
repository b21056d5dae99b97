/**
 The lifecycle reducer of agent/v1_lifecycle.cpp: fifteen events over link
 presence, render demand, engine lease, media session and two counters.
 */
module LinkLifecycle {
  import opened Words

  datatype Presence = Absent | Present
  datatype RenderDemand = Idle | Running
  datatype EngineLease = NoEngine | Starting | Ready
  datatype MediaSession = Stopped | Opening | Streaming | Stopping | Faulted

  datatype Event =
    | AclConnected | AclDisconnected | RenderStarted | RenderStopped | HfpSuspendLdac | HfpResumeLdac | EngineReady
    | EngineExited | TransportOpenSuppressed | MediaStarted | MediaStopped | TransportRetryableFailure
    | TransportRetryDue | MediaFailed | WatcherLeaseExpired

  datatype Action =
    | PublishEndpointPresent | PublishEndpointAbsent | StartEngine | StopEngine | OpenTransport
    | GracefulStopTransport | CancelTransport | FailMute | ScheduleTransportRetry

  const MAXIMUM_OPEN_ATTEMPTS: uint32 := 3
  const MAXIMUM_PCM_OPEN_ATTEMPTS: uint32 := 4
  const MAX_U32: int := 0xFFFF_FFFF

  datatype LifecycleState = LifecycleState(
    presence: Presence,
    render: RenderDemand,
    engine: EngineLease,
    media: MediaSession,
    aclGeneration: uint64,
    openAttempts: uint32,
    maximumOpenAttempts: uint32,
    tolerateRenderGaps: bool,
    allowMultipleSessions: bool,
    hfpSuspended: bool,
    completedSessions: uint32)
  {
    predicate Live() {
      media == Opening || media == Streaming || media == Stopping
    }
  }

  /** The state before the first event, under each configuration of the host. */
  function Configured(maximum: uint32, tolerateGaps: bool, allowMultiple: bool): LifecycleState {
    LifecycleState(Absent, Idle, NoEngine, Stopped, 0, 0, maximum, tolerateGaps, allowMultiple, false, 0)
  }

  function RetryDelayMs(completedAttempts: uint32): uint32 {
    match completedAttempts
    case 1 => 15000
    case 2 => 30000
    case 3 => 45000
    case _ => 0
  }

  function PcmRetryDelayMs(completedAttempts: uint32): uint32 {
    match completedAttempts
    case 1 => 1000
    case 2 => 2000
    case 3 => 4000
    case _ => 0
  }

  // --------------------------------------------- the reducer as a function

  function When(condition: bool, action: Action): set<Action> {
    if condition then {action} else {}
  }

  function Unlinked(s: LifecycleState): LifecycleState {
    s.(presence := Absent, render := Idle, engine := NoEngine, media := Stopped, openAttempts := 0,
       completedSessions := 0, hfpSuspended := false)
  }

  /** A fresh render edge that gives a multi-session generation its open budget back. */
  predicate RenewsBudget(s: LifecycleState) {
    s.render == Idle && s.allowMultipleSessions && s.presence == Present && s.engine == NoEngine && s.media == Stopped
  }

  function RenderStart(s: LifecycleState): (LifecycleState, set<Action>) {
    var running := s.(render := Running);
    if s.hfpSuspended then (running, {})
    else
      var renewed := if RenewsBudget(s) then running.(openAttempts := 0) else running;
      if s.presence == Present && s.engine == NoEngine && renewed.openAttempts == 0
      then (renewed.(engine := Starting), {StartEngine})
      else (renewed, {})
  }

  function RenderStop(s: LifecycleState): (LifecycleState, set<Action>) {
    var idle := s.(render := Idle);
    if s.tolerateRenderGaps && s.media != Streaming && s.media != Stopping && s.media != Faulted &&
       s.engine != NoEngine
    then (idle, {})
    else
      var stopping := s.media == Opening || s.media == Streaming;
      (idle.(media := if stopping then Stopping
                      else if s.media == Faulted && !s.allowMultipleSessions then Stopped else s.media),
       When(stopping && s.presence == Present, GracefulStopTransport) +
       When(stopping && s.presence == Absent, CancelTransport) + When(s.engine != NoEngine, StopEngine))
  }

  function Suspend(s: LifecycleState): (LifecycleState, set<Action>) {
    (s.(hfpSuspended := true, media := if s.Live() then Stopping else s.media),
     When(s.Live() && s.presence == Present, GracefulStopTransport) +
     When(s.Live() && s.presence == Absent, CancelTransport) + When(s.engine != NoEngine, StopEngine))
  }

  predicate RestartsOnResume(s: LifecycleState) {
    s.hfpSuspended && s.presence == Present && s.render == Running && s.engine == NoEngine && s.media == Stopped
  }

  function OpenWhenReady(s: LifecycleState): (LifecycleState, set<Action>) {
    if s.engine == Ready && s.openAttempts != 0 then (s, {})
    else if s.presence != Present || s.hfpSuspended || (s.render != Running && !s.tolerateRenderGaps) ||
            s.engine != Starting || s.openAttempts >= s.maximumOpenAttempts
    then (s.(engine := NoEngine), {StopEngine})
    else (s.(engine := Ready, media := Opening, openAttempts := s.openAttempts + 1), {OpenTransport})
  }

  function Step(s: LifecycleState, e: Event): (LifecycleState, set<Action>) {
    match e
    case AclConnected =>
      if s.presence == Present then (s, {})
      else (Unlinked(s).(presence := Present, aclGeneration := NextNonzero(s.aclGeneration)), {PublishEndpointPresent})
    case AclDisconnected => (Unlinked(s), DisconnectActions(s))
    case WatcherLeaseExpired => (Unlinked(s), DisconnectActions(s))
    case RenderStarted => RenderStart(s)
    case RenderStopped => RenderStop(s)
    case HfpSuspendLdac => Suspend(s)
    case HfpResumeLdac =>
      if RestartsOnResume(s)
      then (s.(hfpSuspended := false, openAttempts := 0, engine := Starting), {StartEngine})
      else (s.(hfpSuspended := false), {})
    case EngineReady => OpenWhenReady(s)
    case EngineExited =>
      (s.(engine := NoEngine, media := if s.Live() then Faulted else s.media),
       if s.Live() then {FailMute, CancelTransport} else {})
    case TransportOpenSuppressed => (s.(media := if s.media == Opening then Stopped else s.media), {})
    case MediaStarted =>
      var starts := s.presence == Present && !s.hfpSuspended && s.render == Running && s.engine == Ready &&
                    s.media == Opening;
      (s.(media := if starts then Streaming else s.media), {})
    case MediaStopped =>
      var completes := s.allowMultipleSessions && (s.media == Streaming || s.media == Stopping) &&
                       s.completedSessions != MAX_U32;
      (s.(media := Stopped, engine := NoEngine,
          completedSessions := if completes then s.completedSessions + 1 else s.completedSessions), {})
    case TransportRetryableFailure =>
      var retries := s.presence == Present && s.render == Running && s.media == Opening &&
                     s.openAttempts < s.maximumOpenAttempts;
      (s.(engine := NoEngine, media := if retries then Stopped else Faulted),
       {FailMute, CancelTransport, StopEngine} + When(retries, ScheduleTransportRetry))
    case TransportRetryDue =>
      if s.presence == Present && s.render == Running && s.engine == NoEngine && s.media == Stopped &&
         0 != s.openAttempts < s.maximumOpenAttempts
      then (s.(engine := Starting), {StartEngine})
      else (s, {})
    case MediaFailed =>
      (s.(engine := NoEngine, media := Faulted),
       {FailMute} + When(s.media != Stopped, CancelTransport) + When(s.engine != NoEngine, StopEngine))
  }

  function DisconnectActions(s: LifecycleState): set<Action> {
    {FailMute, PublishEndpointAbsent} + When(s.Live(), CancelTransport) + When(s.engine != NoEngine, StopEngine)
  }

  function Run(s: LifecycleState, events: seq<Event>): LifecycleState
    decreases events
  {
    if events == [] then s else Run(Step(s, events[0]).0, events[1..])
  }

  // --------------------------------------------- what every event keeps

  /** Live media needs the link, a ready engine and an attempt within budget; no link means none of them. */
  ghost predicate Coherent(s: LifecycleState) {
    && (s.Live() ==> s.presence == Present && s.engine == Ready && s.openAttempts >= 1)
    && (s.presence == Absent ==> s.engine == NoEngine && !s.Live() && s.openAttempts == 0)
    && s.openAttempts <= s.maximumOpenAttempts
  }

  lemma StepKeepsCoherence(s: LifecycleState, e: Event)
    requires Coherent(s)
    ensures Coherent(Step(s, e).0) && Step(s, e).0.maximumOpenAttempts == s.maximumOpenAttempts
  {
  }

  lemma {:induction false} RunKeepsCoherence(s: LifecycleState, events: seq<Event>)
    requires Coherent(s)
    ensures Coherent(Run(s, events)) && Run(s, events).maximumOpenAttempts == s.maximumOpenAttempts
    decreases events
  {
    if events != [] {
      StepKeepsCoherence(s, events[0]);
      RunKeepsCoherence(Step(s, events[0]).0, events[1..]);
    }
  }

  lemma EveryRunIsCoherent(maximum: uint32, tolerateGaps: bool, allowMultiple: bool, events: seq<Event>)
    ensures Coherent(Run(Configured(maximum, tolerateGaps, allowMultiple), events))
  {
    RunKeepsCoherence(Configured(maximum, tolerateGaps, allowMultiple), events);
  }

  /**
   In every reachable state: a graceful stop goes only to live media on a present
   link, a stop of render or a suspension never has to cancel, and a transport is
   opened only while no other session lives.
   */
  lemma StopsFitTheLink(s: LifecycleState, e: Event)
    requires Coherent(s)
    ensures var (next, actions) := Step(s, e);
            && (GracefulStopTransport in actions ==> s.presence == next.presence == Present && s.Live())
            && (e == RenderStopped || e == HfpSuspendLdac ==> CancelTransport !in actions)
            && (OpenTransport in actions ==> !s.Live() && s.engine == Starting && next.Live())
  {
  }

  /**
   Nothing ends unannounced: live media ends by its own stop, by the suppression of its
   opening, or muted and cancelled; an engine lease ends by the engine's exit, with the
   media session, or with a stop; and the endpoint is published with the link.
   */
  lemma NothingEndsUnannounced(s: LifecycleState, e: Event)
    requires Coherent(s)
    ensures var (next, actions) := Step(s, e);
            && (s.Live() && !next.Live() ==>
                  e == MediaStopped || e == TransportOpenSuppressed || {FailMute, CancelTransport} <= actions)
            && (s.engine != NoEngine && next.engine == NoEngine ==>
                  e == EngineExited || e == MediaStopped || StopEngine in actions)
            && (PublishEndpointPresent in actions <==> s.presence == Absent && next.presence == Present)
            && (s.presence == Present && next.presence == Absent ==> PublishEndpointAbsent in actions)
            && (PublishEndpointAbsent in actions ==> next.presence == Absent)
            && (StartEngine in actions <==> s.engine != Starting && next.engine == Starting)
  {
  }

  // ------------------------------------------ why each action and each change

  /** Loss of the link, reported or presumed. */
  predicate LosesLink(e: Event) {
    e == AclDisconnected || e == WatcherLeaseExpired
  }

  /** A stop of render that is passed over because the transport is still on its way up. */
  predicate ToleratesStop(s: LifecycleState) {
    s.tolerateRenderGaps && s.engine != NoEngine && (s.media == Stopped || s.media == Opening)
  }

  predicate Schedules(s: LifecycleState, e: Event) {
    e == TransportRetryableFailure && s.presence == Present && s.render == Running && s.media == Opening &&
    s.openAttempts < s.maximumOpenAttempts
  }

  predicate Opens(s: LifecycleState, e: Event) {
    e == EngineReady && s.engine == Starting && s.presence == Present && !s.hfpSuspended &&
    (s.render == Running || s.tolerateRenderGaps) && s.openAttempts < s.maximumOpenAttempts
  }

  predicate Starts(s: LifecycleState, e: Event) {
    || (e == RenderStarted && s.presence == Present && s.engine == NoEngine && !s.hfpSuspended &&
        (s.openAttempts == 0 || RenewsBudget(s)))
    || (e == HfpResumeLdac && RestartsOnResume(s))
    || (e == TransportRetryDue && RetryIsDue(s))
  }

  predicate RefusesEngine(s: LifecycleState, e: Event) {
    e == EngineReady && !Opens(s, e) && !(s.engine == Ready && s.openAttempts != 0)
  }

  predicate StopsRender(s: LifecycleState, e: Event) {
    e == RenderStopped && !ToleratesStop(s)
  }

  /** Each start, open and retry is issued exactly for its reason. */
  lemma TransportActionsHaveReasons(s: LifecycleState, e: Event)
    requires Coherent(s)
    ensures var actions := Step(s, e).1;
            && (StartEngine in actions <==> Starts(s, e))
            && (OpenTransport in actions <==> Opens(s, e))
            && (ScheduleTransportRetry in actions <==> Schedules(s, e))
  {
  }

  /** So is each stop of the transport. */
  lemma StopActionsHaveReasons(s: LifecycleState, e: Event)
    requires Coherent(s)
    ensures var actions := Step(s, e).1;
            && (GracefulStopTransport in actions <==>
                  (StopsRender(s, e) && (s.media == Opening || s.media == Streaming)) ||
                  (e == HfpSuspendLdac && s.Live()))
            && (CancelTransport in actions <==>
                  || ((LosesLink(e) || e == EngineExited) && s.Live())
                  || e == TransportRetryableFailure || (e == MediaFailed && s.media != Stopped))
  {
  }

  /** So is each stop of the engine, each mute and each publication. */
  lemma OtherActionsHaveReasons(s: LifecycleState, e: Event)
    requires Coherent(s)
    ensures var actions := Step(s, e).1;
            && (StopEngine in actions <==>
                  || e == TransportRetryableFailure || RefusesEngine(s, e)
                  || (s.engine != NoEngine &&
                      (LosesLink(e) || StopsRender(s, e) || e == HfpSuspendLdac || e == MediaFailed)))
            && (FailMute in actions <==>
                  || LosesLink(e) || e == TransportRetryableFailure || e == MediaFailed
                  || (e == EngineExited && s.Live()))
            && (PublishEndpointPresent in actions <==> e == AclConnected && s.presence == Absent)
            && (PublishEndpointAbsent in actions <==> LosesLink(e))
  {
  }

  /** The events after which neither an engine nor its media session is left as it was. */
  predicate EndsSession(s: LifecycleState, e: Event) {
    IsLinkEdge(s, e) || e == EngineExited || e == MediaStopped || e == TransportRetryableFailure || e == MediaFailed
  }

  predicate StartsStreaming(s: LifecycleState, e: Event) {
    e == MediaStarted && s.media == Opening && s.render == Running && !s.hfpSuspended
  }

  /** Media opens, streams and stops exactly for these reasons. */
  lemma MediaHasReasons(s: LifecycleState, e: Event)
    requires Coherent(s)
    ensures var next := Step(s, e).0;
            && (next.media == Opening <==>
                  Opens(s, e) ||
                  (s.media == Opening && !EndsSession(s, e) && !StopsRender(s, e) && !StartsStreaming(s, e) &&
                   e != HfpSuspendLdac && e != TransportOpenSuppressed))
            && (next.media == Streaming <==>
                  StartsStreaming(s, e) ||
                  (s.media == Streaming && !EndsSession(s, e) && e != RenderStopped && e != HfpSuspendLdac))
            && (next.media == Stopping <==>
                  || (StopsRender(s, e) && (s.media == Opening || s.media == Streaming))
                  || (e == HfpSuspendLdac && s.Live()) || (s.media == Stopping && !EndsSession(s, e)))
            && (next.media == Faulted <==>
                  || (e == EngineExited && s.Live()) || e == MediaFailed
                  || (e == TransportRetryableFailure && !Schedules(s, e))
                  || (s.media == Faulted && !IsLinkEdge(s, e) && e != MediaStopped && !Opens(s, e) &&
                      !(StopsRender(s, e) && !s.allowMultipleSessions)))
  {
  }

  /** So does the engine start and become ready. */
  lemma EngineHasReasons(s: LifecycleState, e: Event)
    requires Coherent(s)
    ensures var next := Step(s, e).0;
            && (next.engine == Starting <==>
                  Starts(s, e) || (s.engine == Starting && !EndsSession(s, e) && e != EngineReady))
            && (next.engine == Ready <==>
                  Opens(s, e) || (s.engine == Ready && !EndsSession(s, e) && !RefusesEngine(s, e)))
  {
  }

  /** And so do the link, render demand and the count of completed sessions change. */
  lemma FieldsHaveReasons(s: LifecycleState, e: Event)
    requires Coherent(s)
    ensures var next := Step(s, e).0;
            && (next.presence == Present <==> e == AclConnected || (s.presence == Present && !LosesLink(e)))
            && (next.render == Running <==>
                  e == RenderStarted || (s.render == Running && e != RenderStopped && !IsLinkEdge(s, e)))
            && next.completedSessions ==
               (if IsLinkEdge(s, e) then 0
                else if e == MediaStopped && s.allowMultipleSessions && (s.media == Streaming || s.media == Stopping)
                then (if s.completedSessions == MAX_U32 then MAX_U32 else s.completedSessions + 1)
                else s.completedSessions)
            && next.aclGeneration ==
               (if e == AclConnected && s.presence == Absent then NextNonzero(s.aclGeneration) else s.aclGeneration)
            && next.tolerateRenderGaps == s.tolerateRenderGaps && next.allowMultipleSessions == s.allowMultipleSessions
  {
  }

  /** Whether the last open was answered while rendering and unsuspended, and nothing has ended the media since. */
  function StreamsAfter(s: LifecycleState, streams: bool, events: seq<Event>): bool
    decreases events
  {
    if events == [] then streams
    else
      var e := events[0];
      var now := StartsStreaming(s, e) ||
                 (streams && !EndsSession(s, e) && e != RenderStopped && e != HfpSuspendLdac);
      StreamsAfter(Step(s, e).0, now, events[1..])
  }

  /** Over every run media streams exactly then. */
  lemma {:induction false} StreamsExactly(s: LifecycleState, events: seq<Event>)
    requires Coherent(s)
    ensures Run(s, events).media == Streaming <==> StreamsAfter(s, s.media == Streaming, events)
    decreases events
  {
    hide Step, Coherent, StartsStreaming, EndsSession;
    if events != [] {
      StepKeepsCoherence(s, events[0]);
      MediaHasReasons(s, events[0]);
      StreamsExactly(Step(s, events[0]).0, events[1..]);
    }
  }

  /** An open that is answered streams, and the end of render then stops it gracefully, tolerated gap or not. */
  lemma AnsweredOpenStreams(s: LifecycleState)
    requires Coherent(s) && s.media == Opening && s.render == Running && !s.hfpSuspended
    ensures var (streaming, silent) := Step(s, MediaStarted);
            && streaming == s.(media := Streaming) && silent == {}
            && Step(streaming, RenderStopped).1 == {GracefulStopTransport, StopEngine}
  {
  }

  // ---------------------------------------------------------- open budget

  predicate IsLinkEdge(s: LifecycleState, e: Event) {
    e == AclDisconnected || e == WatcherLeaseExpired || (e == AclConnected && s.presence == Absent)
  }

  /** The points at which the attempt counter starts again. */
  predicate ResetsBudget(s: LifecycleState, e: Event) {
    IsLinkEdge(s, e) || (e == RenderStarted && !s.hfpSuspended && RenewsBudget(s)) ||
    (e == HfpResumeLdac && RestartsOnResume(s))
  }

  function OpensAfter(opens: nat, s: LifecycleState, e: Event): nat {
    (if ResetsBudget(s, e) then 0 else opens) + (if OpenTransport in Step(s, e).1 then 1 else 0)
  }

  function OpensSinceReset(s: LifecycleState, opens: nat, events: seq<Event>): nat
    decreases events
  {
    if events == [] then opens
    else OpensSinceReset(Step(s, events[0]).0, OpensAfter(opens, s, events[0]), events[1..])
  }

  lemma AttemptsFollowOpens(s: LifecycleState, e: Event)
    requires Coherent(s)
    ensures Step(s, e).0.openAttempts == OpensAfter(s.openAttempts, s, e)
  {
  }

  /** The attempt counter is the number of opens since the last reset point, never above the maximum. */
  lemma {:induction false} AttemptsCountOpens(s: LifecycleState, events: seq<Event>)
    requires Coherent(s)
    ensures Run(s, events).openAttempts == OpensSinceReset(s, s.openAttempts, events) <= s.maximumOpenAttempts
    decreases events
  {
    hide Step, OpensAfter;
    RunKeepsCoherence(s, events);
    if events != [] {
      StepKeepsCoherence(s, events[0]);
      AttemptsFollowOpens(s, events[0]);
      AttemptsCountOpens(Step(s, events[0]).0, events[1..]);
    }
  }

  function OpenCount(s: LifecycleState, events: seq<Event>): nat
    decreases events
  {
    if events == [] then 0
    else (if OpenTransport in Step(s, events[0]).1 then 1 else 0) + OpenCount(Step(s, events[0]).0, events[1..])
  }

  ghost predicate StaysLinked(s: LifecycleState, events: seq<Event>)
    decreases events
  {
    events == [] || (!IsLinkEdge(s, events[0]) && StaysLinked(Step(s, events[0]).0, events[1..]))
  }

  /** Without multi-session mode and without a resume, one generation opens at most the maximum. */
  lemma {:induction false} GenerationBudget(s: LifecycleState, events: seq<Event>)
    requires Coherent(s) && !s.allowMultipleSessions && StaysLinked(s, events) && HfpResumeLdac !in events
    ensures s.openAttempts + OpenCount(s, events) <= s.maximumOpenAttempts
    decreases events
  {
    if events != [] {
      assert events[0] in events;
      StepKeepsCoherence(s, events[0]);
      GenerationBudget(Step(s, events[0]).0, events[1..]);
    }
  }

  function OpensInGeneration(opens: nat, s: LifecycleState, e: Event): nat {
    (if IsLinkEdge(s, e) then 0 else opens) + (if OpenTransport in Step(s, e).1 then 1 else 0)
  }

  /** Opens since the last link edge. */
  function OpensSinceEdge(s: LifecycleState, opens: nat, events: seq<Event>): nat
    decreases events
  {
    if events == [] then opens
    else OpensSinceEdge(Step(s, events[0]).0, OpensInGeneration(opens, s, events[0]), events[1..])
  }

  /** The completed sessions of this generation and the live one. */
  function Sessions(s: LifecycleState): nat {
    s.completedSessions + (if s.Live() then 1 else 0)
  }

  lemma SessionsFollowOpens(s: LifecycleState, opens: nat, e: Event)
    requires Coherent(s) && Sessions(s) <= opens
    ensures Sessions(Step(s, e).0) <= OpensInGeneration(opens, s, e)
  {
    StopsFitTheLink(s, e);
  }

  /** Completed sessions, and the live one, are each paid for by an open of the same generation. */
  lemma {:induction false} SessionsNeverExceedOpens(s: LifecycleState, opens: nat, events: seq<Event>)
    requires Coherent(s) && Sessions(s) <= opens
    ensures Sessions(Run(s, events)) <= OpensSinceEdge(s, opens, events)
    decreases events
  {
    hide Step, OpensInGeneration;
    if events != [] {
      StepKeepsCoherence(s, events[0]);
      SessionsFollowOpens(s, opens, events[0]);
      SessionsNeverExceedOpens(Step(s, events[0]).0, OpensInGeneration(opens, s, events[0]), events[1..]);
    }
  }

  // ------------------------------------------------------------- retries

  /** A scheduled retry always has a delay: exactly because no configured maximum exceeds four attempts. */
  lemma ScheduledRetriesHaveADelay(s: LifecycleState, e: Event)
    requires Coherent(s) && ScheduleTransportRetry in Step(s, e).1
    ensures var next := Step(s, e).0;
            && 1 <= next.openAttempts < next.maximumOpenAttempts
            && (RetryDelayMs(next.openAttempts) != 0 <==> next.openAttempts < MAXIMUM_PCM_OPEN_ATTEMPTS)
            && (PcmRetryDelayMs(next.openAttempts) != 0 <==> next.openAttempts < MAXIMUM_PCM_OPEN_ATTEMPTS)
  {
  }

  /** So under both maxima the host configures, every retry ever scheduled is delayed. */
  lemma ConfiguredRetriesHaveADelay(
      maximum: uint32, tolerateGaps: bool, allowMultiple: bool, events: seq<Event>, e: Event)
    requires maximum == MAXIMUM_OPEN_ATTEMPTS || maximum == MAXIMUM_PCM_OPEN_ATTEMPTS
    requires ScheduleTransportRetry in Step(Run(Configured(maximum, tolerateGaps, allowMultiple), events), e).1
    ensures var next := Step(Run(Configured(maximum, tolerateGaps, allowMultiple), events), e).0;
            RetryDelayMs(next.openAttempts) != 0 && PcmRetryDelayMs(next.openAttempts) != 0
  {
    var s := Run(Configured(maximum, tolerateGaps, allowMultiple), events);
    RunKeepsCoherence(Configured(maximum, tolerateGaps, allowMultiple), events);
    StepKeepsCoherence(s, e);
    ScheduledRetriesHaveADelay(s, e);
  }

  // --------------------------------------------------------- while suspended

  /** While suspended, media neither opens nor streams. */
  ghost predicate QuietIfSuspended(s: LifecycleState) {
    s.hfpSuspended ==> s.media != Opening && s.media != Streaming
  }

  /** No event opens a transport within a suspension, and the flag follows its two events and the link. */
  lemma StepSuspends(s: LifecycleState, e: Event)
    requires QuietIfSuspended(s)
    ensures var (next, actions) := Step(s, e);
            && QuietIfSuspended(next)
            && (s.hfpSuspended && next.hfpSuspended ==> OpenTransport !in actions)
            && (next.hfpSuspended <==>
                  e == HfpSuspendLdac || (s.hfpSuspended && !IsLinkEdge(s, e) && e != HfpResumeLdac))
  {
  }

  predicate RetryIsDue(s: LifecycleState) {
    s.presence == Present && s.render == Running && s.engine == NoEngine && s.media == Stopped &&
    0 != s.openAttempts < s.maximumOpenAttempts
  }

  /** An engine is started within a suspension exactly by a retry that comes due in it. */
  lemma SuspendedStartsExactly(s: LifecycleState, e: Event)
    ensures var (next, actions) := Step(s, e);
            StartEngine in actions && next.hfpSuspended <==>
            s.hfpSuspended && e == TransportRetryDue && RetryIsDue(s)
  {
  }

  /** Reached by the reducer alone, in daily mode's configuration. */
  ghost predicate Reached(s: LifecycleState) {
    exists events :: Run(Configured(MAXIMUM_PCM_OPEN_ATTEMPTS, true, true), events) == s
  }

  lemma {:induction false} RunExtends(s: LifecycleState, events: seq<Event>, e: Event)
    ensures Run(s, events + [e]) == Step(Run(s, events), e).0
    decreases events
  {
    hide Step;
    if events == [] {
      assert [] + [e] == [e] && [e][1..] == [];
    } else {
      assert (events + [e])[0] == events[0] && (events + [e])[1..] == events[1..] + [e];
      RunExtends(Step(s, events[0]).0, events[1..], e);
    }
  }

  lemma ReachNext(s: LifecycleState, e: Event)
    requires Reached(s)
    ensures Reached(Step(s, e).0)
  {
    hide Step;
    var start := Configured(MAXIMUM_PCM_OPEN_ATTEMPTS, true, true);
    var events :| Run(start, events) == s;
    RunExtends(start, events, e);
  }

  /** The first open of a link in daily mode. */
  const OPENING := LifecycleState(Present, Running, Ready, Opening, 1, 1, 4, true, true, false, 0)

  lemma OpeningIsReached()
    ensures Reached(OPENING)
  {
    var start := Configured(MAXIMUM_PCM_OPEN_ATTEMPTS, true, true);
    var connected := start.(presence := Present, aclGeneration := 1);
    var starting := connected.(render := Running, engine := Starting);
    assert Run(start, []) == start;
    assert Step(start, AclConnected).0 == connected;
    assert Step(connected, RenderStarted).0 == starting;
    assert Step(starting, EngineReady).0 == OPENING;
    assert Reached(start);
    hide Step, Reached;
    ReachNext(start, AclConnected);
    ReachNext(connected, RenderStarted);
    ReachNext(starting, EngineReady);
  }

  /** The reducer alone admits such a start: a failed open, a suspension, and the retry that was scheduled. */
  lemma SuspendedStartIsAdmitted() returns (s: LifecycleState)
    ensures Reached(s) && s.hfpSuspended && Step(s, TransportRetryDue).1 == {StartEngine}
  {
    OpeningIsReached();
    ScheduledRetryReopens(OPENING, TransportRetryableFailure);
    hide Reached;
    assert ScheduleTransportRetry in Step(OPENING, TransportRetryableFailure).1;
    hide Step;
    var failed := Step(OPENING, TransportRetryableFailure).0;
    s := Step(failed, HfpSuspendLdac).0;
    ReachNext(OPENING, TransportRetryableFailure);
    ReachNext(failed, HfpSuspendLdac);
    SuspendedByEvent(failed);
  }

  lemma SuspendedByEvent(s: LifecycleState)
    ensures Step(s, HfpSuspendLdac).0.hfpSuspended
  {
  }

  /**
   A retry is never scheduled within a suspension. When it comes due the engine starts
   and its readiness opens the transport; with a suspension in between the engine starts
   all the same, and its readiness only stops it again.
   */
  lemma ScheduledRetryReopens(s: LifecycleState, e: Event)
    requires Coherent(s) && QuietIfSuspended(s) && ScheduleTransportRetry in Step(s, e).1
    ensures !s.hfpSuspended && RetryIsDue(Step(s, e).0)
    ensures var (started, actions) := Step(Step(s, e).0, TransportRetryDue);
            actions == {StartEngine} && Step(started, EngineReady).1 == {OpenTransport}
    ensures var (suspended, silent) := Step(Step(s, e).0, HfpSuspendLdac);
            var (started, actions) := Step(suspended, TransportRetryDue);
            && silent == {} && actions == {StartEngine} && started.hfpSuspended
            && Step(started, EngineReady).1 == {StopEngine}
  {
  }

  // ------------------------------------------------------------- in place

  class Lifecycle {
    var presence: Presence
    var render: RenderDemand
    var engine: EngineLease
    var media: MediaSession
    var aclGeneration: uint64
    var openAttempts: uint32
    var maximumOpenAttempts: uint32
    var tolerateRenderGaps: bool
    var allowMultipleSessions: bool
    var hfpSuspended: bool
    var completedSessions: uint32

    function View(): LifecycleState
      reads this
    {
      LifecycleState(presence, render, engine, media, aclGeneration, openAttempts, maximumOpenAttempts,
                     tolerateRenderGaps, allowMultipleSessions, hfpSuspended, completedSessions)
    }

    constructor (maximum: uint32, tolerateGaps: bool, allowMultiple: bool)
      ensures View() == Configured(maximum, tolerateGaps, allowMultiple)
    {
      presence, render, engine, media := Absent, Idle, NoEngine, Stopped;
      aclGeneration, openAttempts, maximumOpenAttempts := 0, 0, maximum;
      tolerateRenderGaps, allowMultipleSessions := tolerateGaps, allowMultiple;
      hfpSuspended, completedSessions := false, 0;
    }

    predicate IsLive()
      reads this
    {
      media == Opening || media == Streaming || media == Stopping
    }

    method ResetDisconnected()
      modifies this
      ensures View() == Unlinked(old(View()))
    {
      presence := Absent;
      render := Idle;
      engine := NoEngine;
      media := Stopped;
      openAttempts := 0;
      completedSessions := 0;
      hfpSuspended := false;
    }

    method ReduceConnected() returns (actions: set<Action>)
      modifies this
      ensures View() == Step(old(View()), AclConnected).0
      ensures actions == Step(old(View()), AclConnected).1
    {
      if presence == Present {
        return {};
      }
      presence := Present;
      render := Idle;
      engine := NoEngine;
      media := Stopped;
      openAttempts := 0;
      completedSessions := 0;
      hfpSuspended := false;
      aclGeneration := if aclGeneration == MAX_U64 then 1 else aclGeneration + 1;
      return {PublishEndpointPresent};
    }

    method ReduceDisconnected() returns (actions: set<Action>)
      modifies this
      ensures View() == Unlinked(old(View()))
      ensures actions == DisconnectActions(old(View()))
    {
      actions := {FailMute, PublishEndpointAbsent};
      if IsLive() {
        actions := actions + {CancelTransport};
      }
      if engine != NoEngine {
        actions := actions + {StopEngine};
      }
      ResetDisconnected();
    }

    method ReduceRenderStarted() returns (actions: set<Action>)
      modifies this
      ensures View() == RenderStart(old(View())).0
      ensures actions == RenderStart(old(View())).1
    {
      var freshRenderEdge := render == Idle;
      render := Running;
      if hfpSuspended {
        return {};
      }
      if freshRenderEdge && allowMultipleSessions && presence == Present && engine == NoEngine && media == Stopped &&
         openAttempts != 0 {
        openAttempts := 0;
      }
      if presence == Present && engine == NoEngine && openAttempts == 0 {
        engine := Starting;
        return {StartEngine};
      }
      return {};
    }

    method ReduceRenderStopped() returns (actions: set<Action>)
      modifies this
      ensures View() == RenderStop(old(View())).0
      ensures actions == RenderStop(old(View())).1
    {
      render := Idle;
      actions := {};
      if tolerateRenderGaps && media != Streaming && media != Stopping && media != Faulted && engine != NoEngine {
        return;
      }
      if media == Opening || media == Streaming {
        actions := actions + {if presence == Present then GracefulStopTransport else CancelTransport};
        media := Stopping;
      } else if media == Faulted && !allowMultipleSessions {
        media := Stopped;
      }
      if engine != NoEngine {
        actions := actions + {StopEngine};
      }
    }

    method ReduceHfpSuspend() returns (actions: set<Action>)
      modifies this
      ensures View() == Suspend(old(View())).0
      ensures actions == Suspend(old(View())).1
    {
      hfpSuspended := true;
      actions := {};
      if IsLive() {
        actions := actions + {if presence == Present then GracefulStopTransport else CancelTransport};
        if media != Stopping {
          media := Stopping;
        }
      }
      if engine != NoEngine {
        actions := actions + {StopEngine};
      }
    }

    method ReduceEngineReady() returns (actions: set<Action>)
      modifies this
      ensures View() == OpenWhenReady(old(View())).0
      ensures actions == OpenWhenReady(old(View())).1
    {
      if engine == Ready && openAttempts != 0 {
        return {};
      }
      if presence != Present || hfpSuspended || (render != Running && !tolerateRenderGaps) || engine != Starting ||
         openAttempts >= maximumOpenAttempts {
        engine := NoEngine;
        return {StopEngine};
      }
      engine := Ready;
      media := Opening;
      openAttempts := openAttempts + 1;
      return {OpenTransport};
    }

    method ReduceTransport(e: Event) returns (actions: set<Action>)
      requires e == TransportOpenSuppressed || e == TransportRetryableFailure || e == TransportRetryDue ||
               e == HfpResumeLdac
      modifies this
      ensures View() == Step(old(View()), e).0
      ensures actions == Step(old(View()), e).1
    {
      actions := {};
      if e == TransportOpenSuppressed {
        if media == Opening {
          media := Stopped;
        }
      } else if e == TransportRetryableFailure {
        actions := {FailMute, CancelTransport, StopEngine};
        engine := NoEngine;
        if presence == Present && render == Running && media == Opening && openAttempts < maximumOpenAttempts {
          media := Stopped;
          return actions + {ScheduleTransportRetry};
        }
        media := Faulted;
      } else if e == TransportRetryDue {
        if presence == Present && render == Running && engine == NoEngine && media == Stopped && openAttempts != 0 &&
           openAttempts < maximumOpenAttempts {
          engine := Starting;
          return {StartEngine};
        }
      } else if hfpSuspended {
        hfpSuspended := false;
        if presence == Present && render == Running && engine == NoEngine && media == Stopped {
          openAttempts := 0;
          engine := Starting;
          return {StartEngine};
        }
      }
    }

    method ReduceMedia(e: Event) returns (actions: set<Action>)
      requires e == EngineExited || e == MediaStarted || e == MediaStopped || e == MediaFailed
      modifies this
      ensures View() == Step(old(View()), e).0
      ensures actions == Step(old(View()), e).1
    {
      actions := {};
      if e == EngineExited {
        if IsLive() {
          actions := actions + {FailMute, CancelTransport};
          media := Faulted;
        }
        engine := NoEngine;
      } else if e == MediaStarted {
        if presence == Present && !hfpSuspended && render == Running && engine == Ready && media == Opening {
          media := Streaming;
        }
      } else if e == MediaStopped {
        if allowMultipleSessions && (media == Streaming || media == Stopping) {
          if completedSessions != MAX_U32 {
            completedSessions := completedSessions + 1;
          }
        }
        media := Stopped;
        engine := NoEngine;
      } else {
        actions := {FailMute};
        if media != Stopped {
          actions := actions + {CancelTransport};
        }
        if engine != NoEngine {
          actions := actions + {StopEngine};
        }
        engine := NoEngine;
        media := Faulted;
      }
    }

    method Reduce(e: Event) returns (actions: set<Action>)
      modifies this
      ensures View() == Step(old(View()), e).0
      ensures actions == Step(old(View()), e).1
    {
      match e {
        case AclConnected => actions := ReduceConnected();
        case AclDisconnected => actions := ReduceDisconnected();
        case WatcherLeaseExpired => actions := ReduceDisconnected();
        case RenderStarted => actions := ReduceRenderStarted();
        case RenderStopped => actions := ReduceRenderStopped();
        case HfpSuspendLdac => actions := ReduceHfpSuspend();
        case EngineReady => actions := ReduceEngineReady();
        case TransportOpenSuppressed => actions := ReduceTransport(e);
        case TransportRetryableFailure => actions := ReduceTransport(e);
        case TransportRetryDue => actions := ReduceTransport(e);
        case HfpResumeLdac => actions := ReduceTransport(e);
        case EngineExited => actions := ReduceMedia(e);
        case MediaStarted => actions := ReduceMedia(e);
        case MediaStopped => actions := ReduceMedia(e);
        case MediaFailed => actions := ReduceMedia(e);
      }
    }
  }
}
