/**
 The transactional fade-in of agent/v1_sent_frame_fade_envelope.cpp: blocks are
 prepared against the frames sent so far and count only once committed.
 */
module FadeEnvelope {
  import opened Words
  import opened Samples

  const MAXIMUM_FRAMES := 128
  const MAXIMUM_DURATION_MS := 1000.0

  datatype FadeState = FadeState(sessionGeneration: uint64, committed: uint64, revision: uint64, active: bool)

  datatype FadeBlock = FadeBlock(sessionGeneration: uint64, start: uint64, revision: uint64, frames: nat)

  datatype FadeTelemetry = FadeTelemetry(
    start: uint64,
    durationFrames: nat,
    minimumGain: real,
    lastGain: real,
    framesBelowUnity: nat,
    sanitizedSamples: nat)

  const IDLE := FadeState(0, 0, 0, false)

  // ----------------------------------------------------------- the ramp

  function Ceiling(x: real): int {
    -((-x).Floor)
  }

  predicate InRange(rate: uint32, durationMs: real) {
    rate != 0 && 0.0 < durationMs <= MAXIMUM_DURATION_MS
  }

  function DurationFrames(rate: uint32, durationMs: real): int {
    Ceiling(Scaled(rate as real, durationMs) / 1000.0)
  }

  /** The range check on the duration in frames can never fail. */
  lemma DurationIsPositive(rate: uint32, durationMs: real)
    requires InRange(rate, durationMs)
    ensures 1 <= DurationFrames(rate, durationMs) <= rate
  {
    hide Scaled;
    ProductSign(rate as real, durationMs);
    ProductOrder(rate as real, durationMs, MAXIMUM_DURATION_MS);
    ThousandTimes(rate);
  }

  lemma CeilingIsLeast(x: real, whole: int)
    ensures Ceiling(x) <= whole <==> x <= whole as real
  {
  }

  /** The duration is the least number of frames that lasts the milliseconds asked for. */
  lemma DurationIsLeast(rate: uint32, durationMs: real, frames: nat)
    ensures DurationFrames(rate, durationMs) <= frames <==> Scaled(rate as real, durationMs) <= 1000.0 * frames as real
  {
    var product := Scaled(rate as real, durationMs);
    hide Scaled, Ceiling;
    CeilingIsLeast(product / 1000.0, frames);
    assert product / 1000.0 * 1000.0 == product;
  }

  lemma ThousandTimes(rate: uint32)
    ensures Scaled(rate as real, MAXIMUM_DURATION_MS) / 1000.0 == rate as real
  {
  }

  function RampGain(frame: nat, duration: nat): real {
    if frame >= duration then 1.0 else (frame + 1) as real / duration as real
  }

  /** The gain is the straight line through the frames, cut off at one; it never falls. */
  lemma RampIsALine(frame: nat, duration: nat)
    requires duration > 0
    ensures RampGain(frame, duration) == Lesser(1.0, (frame + 1) as real / duration as real)
    ensures 0.0 < RampGain(frame, duration) <= RampGain(frame + 1, duration) <= 1.0
    ensures RampGain(frame, duration) < 1.0 <==> frame + 1 < duration
  {
    if frame + 1 <= duration {
      FractionOfDuration(frame + 1, duration);
    }
    if frame + 2 <= duration {
      FractionOfDuration(frame + 2, duration);
      QuotientOrder((frame + 1) as real / duration as real, (frame + 2) as real / duration as real, duration as real);
    }
    if frame >= duration {
      FractionOfDuration(frame + 1, duration);
    }
  }

  lemma FractionOfDuration(frames: nat, duration: nat)
    requires 0 < frames && 0 < duration
    ensures var fraction := frames as real / duration as real;
            && Scaled(duration as real, fraction) == frames as real
            && 0.0 < fraction && (fraction < 1.0 <==> frames < duration) && (fraction <= 1.0 <==> frames <= duration)
  {
    var whole, fraction := duration as real, frames as real / duration as real;
    assert whole * fraction == frames as real;
    Quotient(fraction, frames as real, whole);
  }

  /** A source faded in, its first frame being number `start` of the session. */
  function Faded(start: nat, source: seq<Float>, duration: nat): (output: seq<real>)
    ensures |output| == |source|
  {
    seq(|source|, i requires 0 <= i < |source| => Scaled(Sanitized(source[i]), RampGain(start + i / 2, duration)))
  }

  lemma FadedJoins(start: nat, first: seq<Float>, second: seq<Float>, duration: nat)
    requires |first| % 2 == 0
    ensures Faded(start, first + second, duration) ==
            Faded(start, first, duration) + Faded(start + |first| / 2, second, duration)
  {
    hide Scaled, RampGain, Sanitized;
    var whole := Faded(start, first + second, duration);
    var parts := Faded(start, first, duration) + Faded(start + |first| / 2, second, duration);
    forall i | 0 <= i < |whole|
      ensures whole[i] == parts[i]
    {
      if i >= |first| {
        assert start + i / 2 == start + |first| / 2 + (i - |first|) / 2;
      }
    }
  }

  // -------------------------------------------------- the session, as functions

  function BeginSession(s: FadeState, generation: uint64): FadeState {
    if generation == 0 then s else FadeState(generation, 0, NextNonzero(s.revision), true)
  }

  function EndSession(s: FadeState): FadeState {
    s.(revision := NextNonzero(s.revision), active := false)
  }

  predicate CanPrepare(s: FadeState, frames: nat, rate: uint32, durationMs: Float) {
    && s.active && s.sessionGeneration != 0 && 0 < frames <= MAXIMUM_FRAMES
    && durationMs.Finite? && InRange(rate, durationMs.value)
    && s.committed + frames <= MAX_U64
  }

  function BlockFor(s: FadeState, frames: nat): FadeBlock {
    FadeBlock(s.sessionGeneration, s.committed, s.revision, frames)
  }

  predicate CanCommit(s: FadeState, block: FadeBlock, sent: nat) {
    && s.active && block.sessionGeneration == s.sessionGeneration && block.revision == s.revision
    && block.start == s.committed && 0 < block.frames <= MAXIMUM_FRAMES && sent == block.frames
    && s.committed + sent <= MAX_U64
  }

  function CommitBlock(s: FadeState, block: FadeBlock, sent: nat): FadeState {
    if CanCommit(s, block, sent) then s.(committed := s.committed + sent) else s
  }

  // ---------------------------------------------------------- whole traces

  /** The rate and duration stay fixed over a trace. */
  datatype Fade = Fade(rate: uint32, durationMs: real)
  {
    predicate Valid() {
      InRange(rate, durationMs)
    }

    function Duration(): (frames: nat)
      requires Valid()
      ensures 1 <= frames
    {
      DurationIsPositive(rate, durationMs);
      DurationFrames(rate, durationMs)
    }
  }

  datatype Move =
    | Begin(generation: uint64)
    | End
    | Prepare(source: seq<Float>, ahead: nat)
    | Commit(index: nat, sent: nat)

  datatype Prepared = Prepared(block: FadeBlock, source: seq<Float>, output: seq<real>, turn: nat)

  /** Everything prepared so far, what was committed of it in order, and where this session's commits start. */
  datatype World = World(
    state: FadeState,
    prepared: seq<Prepared>,
    commits: seq<nat>,
    sessionStart: nat,
    turns: nat)

  const NEW_WORLD := World(IDLE, [], [], 0, 0)

  /** A caller may prepare ahead of blocks still pending, on a copy of the state moved on by their frames. */
  function Ahead(s: FadeState, ahead: nat): FadeState {
    s.(committed := (s.committed + ahead) % TWO_64)
  }

  function PreparedFrom(s: FadeState, source: seq<Float>, turn: nat, f: Fade): Prepared
    requires f.Valid()
  {
    Prepared(BlockFor(s, |source| / 2), source, Faded(s.committed, source, f.Duration()), turn)
  }

  function WorldStep(w: World, m: Move, f: Fade): World
    requires f.Valid()
  {
    match m
    case Begin(generation) =>
      if generation == 0 then w
      else w.(state := BeginSession(w.state, generation), sessionStart := |w.commits|, turns := w.turns + 1)
    case End => w.(state := EndSession(w.state), turns := w.turns + 1)
    case Prepare(source, ahead) =>
      var from := Ahead(w.state, ahead);
      if |source| % 2 == 0 && CanPrepare(from, |source| / 2, f.rate, Finite(f.durationMs))
      then w.(prepared := w.prepared + [PreparedFrom(from, source, w.turns, f)])
      else w
    case Commit(index, sent) =>
      if index < |w.prepared| && CanCommit(w.state, w.prepared[index].block, sent)
      then w.(state := CommitBlock(w.state, w.prepared[index].block, sent), commits := w.commits + [index])
      else w
  }

  function WorldRun(w: World, moves: seq<Move>, f: Fade): World
    requires f.Valid()
    decreases moves
  {
    if moves == [] then w else WorldRun(WorldStep(w, moves[0], f), moves[1..], f)
  }

  /** Begins and ends use up revisions; nothing else does. */
  function Turn(m: Move): nat {
    if m == End || (m.Begin? && m.generation != 0) then 1 else 0
  }

  function Turns(moves: seq<Move>): nat
    decreases moves
  {
    if moves == [] then 0 else Turn(moves[0]) + Turns(moves[1..])
  }

  ghost predicate Committable(prepared: seq<Prepared>, commits: seq<nat>) {
    forall k :: 0 <= k < |commits| ==> commits[k] < |prepared|
  }

  function Sources(prepared: seq<Prepared>, commits: seq<nat>): seq<Float>
    requires Committable(prepared, commits)
  {
    if commits == [] then []
    else Sources(prepared, commits[..|commits| - 1]) + prepared[commits[|commits| - 1]].source
  }

  function Outputs(prepared: seq<Prepared>, commits: seq<nat>): seq<real>
    requires Committable(prepared, commits)
  {
    if commits == [] then []
    else Outputs(prepared, commits[..|commits| - 1]) + prepared[commits[|commits| - 1]].output
  }

  // ----------------------------------------------- the output is the ramp

  /** A prepared block is the fade of its source from where it says it starts. */
  ghost predicate FadedWell(p: Prepared, duration: nat) {
    0 < p.block.frames && |p.source| == 2 * p.block.frames && p.output == Faded(p.block.start, p.source, duration)
  }

  /** What these commits sent is the ramp over all of it, however it was cut into blocks. */
  ghost predicate IsRamp(prepared: seq<Prepared>, session: seq<nat>, committed: nat, duration: nat) {
    && Committable(prepared, session)
    && |Sources(prepared, session)| == 2 * committed
    && Outputs(prepared, session) == Faded(0, Sources(prepared, session), duration)
  }

  lemma NothingIsRamp(prepared: seq<Prepared>, duration: nat)
    ensures IsRamp(prepared, [], 0, duration)
  {
  }

  lemma {:induction false} LaterBlocksDoNotMatter(prepared: seq<Prepared>, added: Prepared, commits: seq<nat>)
    requires Committable(prepared, commits)
    ensures Sources(prepared + [added], commits) == Sources(prepared, commits)
    ensures Outputs(prepared + [added], commits) == Outputs(prepared, commits)
  {
    if commits != [] {
      LaterBlocksDoNotMatter(prepared, added, commits[..|commits| - 1]);
    }
  }

  lemma RampSurvivesPreparing(
      prepared: seq<Prepared>, added: Prepared, session: seq<nat>, committed: nat, duration: nat)
    requires IsRamp(prepared, session, committed, duration)
    ensures IsRamp(prepared + [added], session, committed, duration)
  {
    hide Sources, Outputs, Faded;
    LaterBlocksDoNotMatter(prepared, added, session);
  }

  lemma CommitAppends(prepared: seq<Prepared>, commits: seq<nat>, index: nat)
    requires Committable(prepared, commits) && index < |prepared|
    ensures Sources(prepared, commits + [index]) == Sources(prepared, commits) + prepared[index].source
    ensures Outputs(prepared, commits + [index]) == Outputs(prepared, commits) + prepared[index].output
  {
    var longer := commits + [index];
    assert longer[..|commits|] == commits && longer[|commits|] == index;
  }

  /** A block that starts where the session stands continues its ramp. */
  lemma RampGrows(prepared: seq<Prepared>, session: seq<nat>, index: nat, committed: nat, duration: nat)
    requires IsRamp(prepared, session, committed, duration)
    requires index < |prepared| && FadedWell(prepared[index], duration) && prepared[index].block.start == committed
    ensures IsRamp(prepared, session + [index], committed + prepared[index].block.frames, duration)
  {
    hide Sources, Outputs, Faded;
    CommitAppends(prepared, session, index);
    FadedJoins(0, Sources(prepared, session), prepared[index].source, duration);
  }

  ghost predicate RampKept(w: World, f: Fade)
    requires f.Valid()
  {
    && w.sessionStart <= |w.commits|
    && (forall i :: 0 <= i < |w.prepared| ==> FadedWell(w.prepared[i], f.Duration()))
    && IsRamp(w.prepared, w.commits[w.sessionStart..], w.state.committed, f.Duration())
  }

  lemma PreparedIsFaded(s: FadeState, source: seq<Float>, turn: nat, f: Fade)
    requires f.Valid() && |source| % 2 == 0 && source != []
    ensures FadedWell(PreparedFrom(s, source, turn, f), f.Duration())
  {
  }

  lemma StepKeepsTheRamp(w: World, m: Move, f: Fade)
    requires f.Valid() && RampKept(w, f)
    ensures RampKept(WorldStep(w, m, f), f)
  {
    hide IsRamp, FadedWell, PreparedFrom, Fade.Duration;
    var next, session := WorldStep(w, m, f), w.commits[w.sessionStart..];
    if next != w {
      match m
      case Begin(_) =>
        NothingIsRamp(w.prepared, f.Duration());
        assert next.commits[next.sessionStart..] == [];
      case End =>
      case Prepare(source, ahead) =>
        var added := PreparedFrom(Ahead(w.state, ahead), source, w.turns, f);
        PreparedIsFaded(Ahead(w.state, ahead), source, w.turns, f);
        RampSurvivesPreparing(w.prepared, added, session, w.state.committed, f.Duration());
      case Commit(index, sent) =>
        RampGrows(w.prepared, session, index, w.state.committed, f.Duration());
        assert next.commits[next.sessionStart..] == session + [index];
    }
  }

  lemma {:induction false} RunKeepsTheRamp(w: World, moves: seq<Move>, f: Fade)
    requires f.Valid() && RampKept(w, f)
    ensures RampKept(WorldRun(w, moves, f), f)
    decreases moves
  {
    hide WorldStep, RampKept;
    if moves != [] {
      StepKeepsTheRamp(w, moves[0], f);
      RunKeepsTheRamp(WorldStep(w, moves[0], f), moves[1..], f);
    }
  }

  lemma RampByFrames(source: seq<Float>, duration: nat)
    requires duration > 0
    ensures forall i :: 0 <= i < |source| ==>
              Faded(0, source, duration)[i] ==
              Scaled(Sanitized(source[i]), Lesser(1.0, (i / 2 + 1) as real / duration as real))
  {
    hide Scaled, RampGain;
    forall i | 0 <= i < |source|
      ensures RampGain(i / 2, duration) == Lesser(1.0, (i / 2 + 1) as real / duration as real)
    {
      RampIsALine(i / 2, duration);
    }
  }

  /** The commits of the session a trace ends in. */
  function Session(w: World): seq<nat>
    requires w.sessionStart <= |w.commits|
  {
    w.commits[w.sessionStart..]
  }

  /**
   After any trace of begins, ends, prepares (some abandoned, some ahead of others) and
   commits, what this session has sent is its source times the ramp, frame by frame,
   whatever the block sizes.
   */
  lemma EverySessionIsTheRamp(moves: seq<Move>, f: Fade)
    requires f.Valid()
    ensures var w := WorldRun(NEW_WORLD, moves, f);
            && w.sessionStart <= |w.commits| && Committable(w.prepared, Session(w))
            && var source, output := Sources(w.prepared, Session(w)), Outputs(w.prepared, Session(w));
               && |source| == |output| == 2 * w.state.committed
               && forall i :: 0 <= i < |output| ==>
                    output[i] ==
                    Scaled(Sanitized(source[i]), Lesser(1.0, (i / 2 + 1) as real / f.Duration() as real))
  {
    hide WorldRun, Fade.Duration, Scaled, Sanitized, Faded, Sources, Outputs;
    NothingIsRamp([], f.Duration());
    assert NEW_WORLD.commits[NEW_WORLD.sessionStart..] == [];
    RunKeepsTheRamp(NEW_WORLD, moves, f);
    var w := WorldRun(NEW_WORLD, moves, f);
    hide FadedWell;
    RampByFrames(Sources(w.prepared, Session(w)), f.Duration());
  }

  // --------------------------------------------- and each block is sent once

  /** Revisions count the turns; a commit lies in an earlier turn, or behind the frames sent in this session. */
  ghost predicate OnceKept(w: World) {
    && w.state.revision == Advance(0, w.turns) && w.sessionStart <= |w.commits|
    && Committable(w.prepared, w.commits)
    && (forall i :: 0 <= i < |w.prepared| ==> PreparedInTurn(w.prepared[i], w.turns))
    && (forall k :: 0 <= k < |w.commits| ==>
          LiesBehind(w.prepared[w.commits[k]], k < w.sessionStart, w.turns, w.state.committed))
    && CommitsOnce(w)
  }

  ghost predicate PreparedInTurn(p: Prepared, turns: nat) {
    p.turn <= turns && p.block.revision == Advance(0, p.turn)
  }

  ghost predicate LiesBehind(p: Prepared, earlierSession: bool, turns: nat, committed: nat) {
    0 < p.block.frames && if earlierSession then p.turn < turns else p.block.start + p.block.frames <= committed
  }

  ghost predicate CommitsOnce(w: World) {
    forall j, k :: 0 <= j < k < |w.commits| ==> w.commits[j] != w.commits[k]
  }

  lemma {:induction false} TurnsCountFromZero(turns: nat)
    requires turns <= MAX_U64
    ensures Advance(0, turns) == turns
  {
    if turns != 0 {
      TurnsCountFromZero(turns - 1);
    }
  }

  /** The session last begun and not ended since, zero for none. */
  function Underway(session: uint64, moves: seq<Move>): uint64
    decreases moves
  {
    if moves == [] then session
    else
      Underway(match moves[0]
               case Begin(generation) => if generation == 0 then session else generation
               case End => 0
               case _ => session, moves[1..])
  }

  ghost predicate Shows(s: FadeState, session: uint64) {
    (s.active <==> session != 0) && (session != 0 ==> s.sessionGeneration == session)
  }

  lemma {:induction false} RunShowsSession(w: World, moves: seq<Move>, f: Fade, session: uint64)
    requires f.Valid() && Shows(w.state, session)
    ensures Shows(WorldRun(w, moves, f).state, Underway(session, moves))
    decreases moves
  {
    hide CanPrepare, CanCommit, PreparedFrom, Ahead;
    if moves != [] {
      var begun := match moves[0]
        case Begin(generation) => if generation == 0 then session else generation
        case End => 0
        case _ => session;
      RunShowsSession(WorldStep(w, moves[0], f), moves[1..], f, begun);
    }
  }

  /** After every trace only blocks of the session underway can be prepared or committed, and none without one. */
  lemma OnlyTheSessionMoves(moves: seq<Move>, f: Fade, frames: nat, rate: uint32, ms: Float, block: FadeBlock,
                            sent: nat)
    requires f.Valid()
    ensures var s, session := WorldRun(NEW_WORLD, moves, f).state, Underway(0, moves);
            && (CanPrepare(s, frames, rate, ms) ==> session != 0 && BlockFor(s, frames).sessionGeneration == session)
            && (CanCommit(s, block, sent) ==> session != 0 && block.sessionGeneration == session)
            && BeginSession(s, 0) == s
  {
    RunShowsSession(NEW_WORLD, moves, f, 0);
    hide WorldRun, Underway;
  }

  /** A block that can be committed was prepared in this session's turn and has not been committed yet. */
  lemma CommitIsFresh(w: World, index: nat, sent: nat)
    requires OnceKept(w) && w.turns <= MAX_U64
    requires index < |w.prepared| && CanCommit(w.state, w.prepared[index].block, sent)
    ensures w.prepared[index].turn == w.turns && index !in w.commits
  {
    hide Advance;
    var p := w.prepared[index];
    assert PreparedInTurn(p, w.turns);
    TurnsCountFromZero(w.turns);
    TurnsCountFromZero(p.turn);
    forall k | 0 <= k < |w.commits|
      ensures w.commits[k] != index
    {
      assert LiesBehind(w.prepared[w.commits[k]], k < w.sessionStart, w.turns, w.state.committed);
    }
  }

  /** A turn leaves every block prepared and every commit in an earlier one. */
  lemma TurnKeepsOnce(w: World, next: World)
    requires OnceKept(w) && next.turns == w.turns + 1 && next.state.revision == NextNonzero(w.state.revision)
    requires next.prepared == w.prepared && next.commits == w.commits
    requires next.sessionStart == |w.commits| ||
             (next.sessionStart == w.sessionStart && next.state.committed == w.state.committed)
    ensures OnceKept(next)
  {
    hide NextNonzero;
    assert next.state.revision == Advance(0, next.turns);
    hide Advance;
    forall i | 0 <= i < |w.prepared|
      ensures PreparedInTurn(w.prepared[i], next.turns)
    {
      assert PreparedInTurn(w.prepared[i], w.turns);
    }
    forall k | 0 <= k < |w.commits|
      ensures LiesBehind(w.prepared[w.commits[k]], k < next.sessionStart, next.turns, next.state.committed)
    {
      assert LiesBehind(w.prepared[w.commits[k]], k < w.sessionStart, w.turns, w.state.committed);
      assert PreparedInTurn(w.prepared[w.commits[k]], w.turns);
    }
  }

  lemma PreparingKeepsOnce(w: World, added: Prepared)
    requires OnceKept(w) && PreparedInTurn(added, w.turns)
    ensures OnceKept(w.(prepared := w.prepared + [added]))
  {
    hide PreparedInTurn, LiesBehind, Advance;
  }

  lemma CommittingKeepsOnce(w: World, index: nat, sent: nat)
    requires OnceKept(w) && w.turns <= MAX_U64
    requires index < |w.prepared| && CanCommit(w.state, w.prepared[index].block, sent)
    ensures OnceKept(w.(state := CommitBlock(w.state, w.prepared[index].block, sent), commits := w.commits + [index]))
  {
    CommitIsFresh(w, index, sent);
    hide Advance, PreparedInTurn;
    var next := w.(state := CommitBlock(w.state, w.prepared[index].block, sent), commits := w.commits + [index]);
    forall k | 0 <= k < |next.commits|
      ensures LiesBehind(w.prepared[next.commits[k]], k < next.sessionStart, next.turns, next.state.committed)
    {
      if k < |w.commits| {
        assert LiesBehind(w.prepared[w.commits[k]], k < w.sessionStart, w.turns, w.state.committed);
      }
    }
  }

  lemma StepKeepsOnce(w: World, m: Move, f: Fade)
    requires f.Valid() && OnceKept(w) && w.turns <= MAX_U64
    ensures OnceKept(WorldStep(w, m, f)) && WorldStep(w, m, f).turns == w.turns + Turn(m)
  {
    hide OnceKept, NextNonzero, CommitBlock, CanCommit, Fade.Duration;
    var next := WorldStep(w, m, f);
    if next != w {
      match m
      case Begin(_) => TurnKeepsOnce(w, next);
      case End => TurnKeepsOnce(w, next);
      case Prepare(source, ahead) =>
        var added := PreparedFrom(Ahead(w.state, ahead), source, w.turns, f);
        PreparedNow(w, Ahead(w.state, ahead), source, f);
        PreparingKeepsOnce(w, added);
      case Commit(index, sent) => CommittingKeepsOnce(w, index, sent);
    }
  }

  lemma PreparedNow(w: World, from: FadeState, source: seq<Float>, f: Fade)
    requires f.Valid() && OnceKept(w) && from.revision == w.state.revision
    ensures PreparedInTurn(PreparedFrom(from, source, w.turns, f), w.turns)
  {
  }

  lemma {:induction false} RunKeepsOnce(w: World, moves: seq<Move>, f: Fade)
    requires f.Valid() && OnceKept(w) && w.turns + Turns(moves) <= MAX_U64
    ensures OnceKept(WorldRun(w, moves, f))
    decreases moves
  {
    hide WorldStep, OnceKept;
    if moves != [] {
      StepKeepsOnce(w, moves[0], f);
      RunKeepsOnce(WorldStep(w, moves[0], f), moves[1..], f);
    }
  }

  lemma {:induction false} RunsJoin(w: World, first: seq<Move>, second: seq<Move>, f: Fade)
    requires f.Valid()
    ensures WorldRun(w, first + second, f) == WorldRun(WorldRun(w, first, f), second, f)
    ensures Turns(first + second) == Turns(first) + Turns(second)
    decreases first
  {
    hide WorldStep, Turn;
    if first == [] {
      assert first + second == second;
    } else {
      assert (first + second)[0] == first[0] && (first + second)[1..] == first[1..] + second;
      RunsJoin(WorldStep(w, first[0], f), first[1..], second, f);
    }
  }

  function Ends(count: nat): seq<Move> {
    if count == 0 then [] else [End] + Ends(count - 1)
  }

  lemma {:induction false} EndsTurnTheRevision(w: World, count: nat, f: Fade)
    requires f.Valid()
    ensures WorldRun(w, Ends(count), f) ==
            w.(turns := w.turns + count,
               state := w.state.(revision := Advance(w.state.revision, count), active := w.state.active && count == 0))
    ensures Turns(Ends(count)) == count
    decreases count
  {
    if count > 0 {
      assert Ends(count)[0] == End && Ends(count)[1..] == Ends(count - 1);
      EndsTurnTheRevision(WorldStep(w, End, f), count - 1, f);
      AdvanceAdds(w.state.revision, 1, count - 1);
      assert Advance(w.state.revision, 1) == NextNonzero(w.state.revision);
    }
  }

  lemma OneMove(w: World, m: Move, f: Fade)
    requires f.Valid()
    ensures WorldRun(w, [m], f) == WorldStep(w, m, f) && Turns([m]) == Turn(m)
  {
    hide WorldStep, Turn;
    assert [m][1..] == [];
  }

  /** A block of silence of one frame, as the first session prepares it. */
  function FirstBlock(f: Fade): Prepared
    requires f.Valid()
  {
    PreparedFrom(FadeState(1, 0, 1, true), [Finite(0.0), Finite(0.0)], 1, f)
  }

  lemma FirstCommit(f: Fade) returns (moves: seq<Move>)
    requires f.Valid()
    ensures Turns(moves) == 1
    ensures WorldRun(NEW_WORLD, moves, f) == World(FadeState(1, 1, 1, true), [FirstBlock(f)], [0], 0, 1)
  {
    hide Faded, Fade.Duration;
    var begin, prepare, commit := Begin(1), Prepare([Finite(0.0), Finite(0.0)], 0), Commit(0, 1);
    var begun := World(FadeState(1, 0, 1, true), [], [], 0, 1);
    assert WorldStep(NEW_WORLD, begin, f) == begun;
    var ready := begun.(prepared := [FirstBlock(f)]);
    assert WorldStep(begun, prepare, f) == ready;
    var sent := World(FadeState(1, 1, 1, true), [FirstBlock(f)], [0], 0, 1);
    assert WorldStep(ready, commit, f) == sent;
    assert Turn(begin) == 1 && Turn(prepare) == Turn(commit) == 0;
    hide WorldStep, WorldRun, Turns, Turn, FirstBlock;
    OneMove(NEW_WORLD, begin, f);
    OneMove(begun, prepare, f);
    OneMove(ready, commit, f);
    RunsJoin(begun, [prepare], [commit], f);
    RunsJoin(NEW_WORLD, [begin], [prepare] + [commit], f);
    moves := [begin] + ([prepare] + [commit]);
  }

  lemma SecondCommit(f: Fade) returns (moves: seq<Move>)
    requires f.Valid()
    ensures Turns(moves) == 1
    ensures var turned := World(FadeState(1, 1, MAX_U64, false), [FirstBlock(f)], [0], 0, MAX_U64);
            WorldRun(turned, moves, f).commits == [0, 0]
  {
    hide Faded, Fade.Duration;
    var begin, commit := Begin(1), Commit(0, 1);
    var turned := World(FadeState(1, 1, MAX_U64, false), [FirstBlock(f)], [0], 0, MAX_U64);
    var again := World(FadeState(1, 0, 1, true), [FirstBlock(f)], [0], 1, MAX_U64 + 1);
    assert WorldStep(turned, begin, f) == again;
    assert WorldStep(again, commit, f).commits == [0, 0];
    assert Turn(begin) == 1 && Turn(commit) == 0;
    hide WorldStep, WorldRun, Turns, Turn, FirstBlock;
    OneMove(turned, begin, f);
    OneMove(again, commit, f);
    RunsJoin(turned, [begin], [commit], f);
    moves := [begin] + [commit];
  }

  /** After a whole turn of the revision, a block of the first session is committed a second time. */
  lemma RevisionReturns(f: Fade) returns (moves: seq<Move>)
    requires f.Valid()
    ensures Turns(moves) == MAX_U64 + 1 && WorldRun(NEW_WORLD, moves, f).commits == [0, 0]
  {
    hide WorldRun, Turns, Ends, Advance, FirstBlock;
    var opening := FirstCommit(f);
    var closing := SecondCommit(f);
    var ends := Ends(MAX_U64 - 1);
    var sent := World(FadeState(1, 1, 1, true), [FirstBlock(f)], [0], 0, 1);
    EndsTurnTheRevision(sent, MAX_U64 - 1, f);
    AdvanceClosedForm(1, MAX_U64 - 1);
    RunsJoin(sent, ends, closing, f);
    RunsJoin(NEW_WORLD, opening, ends + closing, f);
    moves := opening + (ends + closing);
  }

  /** No block is sent twice, in one session or across sessions, exactly as long as the revision has not come round. */
  lemma BlocksAreSentOnceExactly(f: Fade, bound: nat)
    requires f.Valid()
    ensures (forall moves :: Turns(moves) <= bound ==> CommitsOnce(WorldRun(NEW_WORLD, moves, f))) <==>
            bound <= MAX_U64
  {
    hide WorldRun, Turns;
    if bound <= MAX_U64 {
      forall moves | Turns(moves) <= bound
        ensures CommitsOnce(WorldRun(NEW_WORLD, moves, f))
      {
        RunKeepsOnce(NEW_WORLD, moves, f);
      }
    } else {
      var moves := RevisionReturns(f);
      var commits := WorldRun(NEW_WORLD, moves, f).commits;
      assert commits[0] == commits[1];
    }
  }

  // --------------------------------------------------------------- in place

  class FadeSession {
    var sessionGeneration: uint64
    var committed: uint64
    var revision: uint64
    var active: bool

    function View(): FadeState
      reads this
    {
      FadeState(sessionGeneration, committed, revision, active)
    }

    constructor ()
      ensures View() == IDLE
    {
      sessionGeneration, committed, revision, active := 0, 0, 0, false;
    }

    method Begin(generation: uint64) returns (ok: bool)
      modifies this
      ensures View() == BeginSession(old(View()), generation) && (ok <==> generation != 0)
    {
      if generation == 0 {
        return false;
      }
      sessionGeneration := generation;
      committed := 0;
      revision := NextNonzero(revision);
      active := true;
      return true;
    }

    method End()
      modifies this
      ensures View() == EndSession(old(View()))
    {
      revision := NextNonzero(revision);
      active := false;
    }

    /** Buffers overlap here when they are the same array. */
    method Prepare(source: array<Float>, destination: array<Float>, frames: nat, rate: uint32, durationMs: Float)
      returns (block: Option<FadeBlock>, telemetry: Option<FadeTelemetry>)
      requires frames <= MAXIMUM_FRAMES ==> 2 * frames <= source.Length && 2 * frames <= destination.Length
      modifies destination
      ensures block.Some? == telemetry.Some? == (CanPrepare(View(), frames, rate, durationMs) && source != destination)
      ensures block.None? ==> destination[..] == old(destination[..])
      ensures block.Some? ==>
                var samples, duration := source[..2 * frames], DurationFrames(rate, durationMs.value);
                && 1 <= duration && block.value == BlockFor(View(), frames)
                && (forall i :: 0 <= i < 2 * frames ==>
                      destination[i] == Finite(Faded(committed, samples, duration)[i]))
                && destination[2 * frames..] == old(destination[2 * frames..])
                && telemetry.value == FadeTelemetry(
                     committed, duration, RampGain(committed, duration), RampGain(committed + frames - 1, duration),
                     FramesBelowUnity(committed, frames, duration), Total(NotFinite(samples)))
    {
      if source == destination || !CanPrepare(View(), frames, rate, durationMs) {
        return None, None;
      }
      hide Faded, RampGain, Count, Scaled, NotFinite, DurationFrames;
      var duration := DurationFrames(rate, durationMs.value);
      DurationIsPositive(rate, durationMs.value);
      if duration < 1 || duration > MAX_U64 {
        assert false; // the source checks the range of the duration once more
      }
      var seen := FadeInto(source, destination, committed, frames, duration);
      return Some(BlockFor(View(), frames)), Some(seen);
    }

    method Commit(block: FadeBlock, sent: nat) returns (ok: bool)
      modifies this
      ensures View() == CommitBlock(old(View()), block, sent)
      ensures ok <==> CanCommit(old(View()), block, sent)
    {
      if !active || block.sessionGeneration != sessionGeneration || block.revision != revision ||
         block.start != committed || block.frames == 0 || block.frames > MAXIMUM_FRAMES || sent != block.frames ||
         committed > MAX_U64 - sent {
        return false;
      }
      committed := committed + sent;
      return true;
    }
  }

  /** How many of `frames` frames from `start` on come out quieter than they went in. */
  function FramesBelowUnity(start: nat, frames: nat, duration: nat): nat {
    if start + 1 >= duration then 0 else if start + frames + 1 > duration then duration - 1 - start else frames
  }

  lemma FadedAt(start: nat, source: seq<Float>, duration: nat, i: nat)
    requires i < |source|
    ensures Faded(start, source, duration)[i] == Scaled(Sanitized(source[i]), RampGain(start + i / 2, duration))
  {
    hide Scaled, RampGain;
  }

  lemma NotFiniteAt(source: seq<Float>, i: nat)
    requires i < |source|
    ensures |NotFinite(source)| == |source| && NotFinite(source)[i] == source[i].NonFinite?
  {
  }

  method FadeFrame(source: array<Float>, destination: array<Float>, ghost samples: seq<Float>, start: uint64,
                   frame: nat, duration: nat, gain: real)
    returns (notFinite: nat)
    requires source != destination && 2 * frame + 1 < |samples| <= source.Length && |samples| <= destination.Length
    requires samples == source[..|samples|] && gain == RampGain(start + frame, duration)
    modifies destination
    ensures forall i :: 2 * frame <= i < 2 * frame + 2 ==>
              destination[i] == Finite(Faded(start, samples, duration)[i])
    ensures forall i :: 0 <= i < destination.Length && i != 2 * frame && i != 2 * frame + 1 ==>
              destination[i] == old(destination[i])
    ensures |NotFinite(samples)| == |samples|
    ensures Count(NotFinite(samples), 2 * frame + 2) == Count(NotFinite(samples), 2 * frame) + notFinite
  {
    hide Faded, RampGain, Count, Scaled, NotFinite, Sanitized;
    ghost var output, bad := Faded(start, samples, duration), NotFinite(samples);
    notFinite := 0;
    NotFiniteAt(samples, 2 * frame);
    var channel := 0;
    while channel < 2
      invariant 0 <= channel <= 2
      invariant Count(bad, 2 * frame + channel) == Count(bad, 2 * frame) + notFinite
      invariant forall i :: 2 * frame <= i < 2 * frame + channel ==> destination[i] == Finite(output[i])
      invariant forall i :: 0 <= i < destination.Length && !(2 * frame <= i < 2 * frame + channel) ==>
                  destination[i] == old(destination[i])
    {
      var index := 2 * frame + channel;
      FadedAt(start, samples, duration, index);
      NotFiniteAt(samples, index);
      CountUnfolds(bad, index);
      assert samples[index] == source[index] && index / 2 == frame;
      if source[index].NonFinite? {
        notFinite := notFinite + 1;
      }
      destination[index] := Finite(Scaled(Sanitized(source[index]), gain));
      channel := channel + 1;
    }
  }

  method FadeInto(source: array<Float>, destination: array<Float>, start: uint64, frames: nat, duration: nat)
    returns (seen: FadeTelemetry)
    requires 0 < frames && 2 * frames <= source.Length && 2 * frames <= destination.Length && source != destination
    requires 1 <= duration
    modifies destination
    ensures var samples := source[..2 * frames];
            && (forall i :: 0 <= i < 2 * frames ==> destination[i] == Finite(Faded(start, samples, duration)[i]))
            && seen == FadeTelemetry(
                 start, duration, RampGain(start, duration), RampGain(start + frames - 1, duration),
                 FramesBelowUnity(start, frames, duration), Total(NotFinite(samples)))
    ensures destination[2 * frames..] == old(destination[2 * frames..])
  {
    ghost var samples := source[..2 * frames];
    ghost var output, bad := Faded(start, samples, duration), NotFinite(samples);
    assert |bad| == 2 * frames;
    hide Faded, RampGain, Count, Scaled, NotFinite, Sanitized;
    CountUnfolds(bad, 0);
    RampIsALine(start, duration);
    var minimumGain, lastGain, belowUnity, sanitized := 1.0, 1.0, 0, 0;
    var frame := 0;
    while frame < frames
      invariant 0 <= frame <= frames
      invariant minimumGain == if frame == 0 then 1.0 else RampGain(start, duration)
      invariant frame > 0 ==> lastGain == RampGain(start + frame - 1, duration) && RampGain(start, duration) <= lastGain
      invariant belowUnity == FramesBelowUnity(start, frame, duration)
      invariant sanitized == Count(bad, 2 * frame)
      invariant forall i :: 0 <= i < 2 * frame ==> destination[i] == Finite(output[i])
      invariant forall i :: 2 * frame <= i < destination.Length ==> destination[i] == old(destination[i])
    {
      if frame > 0 {
        RampIsALine(start + frame - 1, duration);
      }
      RampIsALine(start + frame, duration);
      var gain := RampGain(start + frame, duration);
      minimumGain := Lesser(minimumGain, gain);
      lastGain := gain;
      if gain < 1.0 {
        belowUnity := belowUnity + 1;
      }
      var notFinite := FadeFrame(source, destination, samples, start, frame, duration, gain);
      sanitized := sanitized + notFinite;
      frame := frame + 1;
    }
    seen := FadeTelemetry(start, duration, minimumGain, lastGain, belowUnity, sanitized);
  }
}
