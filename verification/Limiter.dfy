/**
 The look-ahead linked stereo limiter of agent/v1_linked_stereo_block_limiter.cpp.
 */
module Limiter {
  import opened Words
  import opened Samples

  const MAXIMUM_FRAMES := 128
  const HARD_MAXIMUM_CEILING := 1.0

  datatype Telemetry = Telemetry(
    blockPeak: real,
    outputPeak: real,
    minimumGain: real,
    lastGain: real,
    maximumGainStep: real,
    attackCount: int,
    reducedFrameCount: int,
    reducedSampleCount: int,
    fallbackClampCount: int,
    sanitizedSampleCount: int,
    overCeilingFrameCount: int,
    overCeilingSampleCount: int)

  const NO_TELEMETRY := Telemetry(0.0, 0.0, 1.0, 1.0, 0.0, 0, 0, 0, 0, 0, 0, 0)

  // ------------------------------------------------------------ safe gains

  function SafeGain(peak: real, ceiling: real): real
    requires 0.0 < ceiling
  {
    if peak <= ceiling then 1.0 else ceiling / peak
  }

  lemma SafeGainFits(peak: real, ceiling: real)
    requires 0.0 < ceiling && 0.0 <= peak
    ensures 0.0 < SafeGain(peak, ceiling) <= 1.0 && Scaled(peak, SafeGain(peak, ceiling)) <= ceiling
    ensures peak > ceiling ==> SafeGain(peak, ceiling) < 1.0 && Scaled(peak, SafeGain(peak, ceiling)) == ceiling
  {
    if peak > ceiling {
      assert peak * (ceiling / peak) == ceiling;
    }
  }

  lemma LouderNeedsLess(quiet: real, loud: real, ceiling: real)
    requires 0.0 < ceiling && quiet <= loud
    ensures SafeGain(loud, ceiling) <= SafeGain(quiet, ceiling)
  {
    if quiet > ceiling {
      var less, more := ceiling / loud, ceiling / quiet;
      assert less * loud == ceiling == more * quiet;
      if less > more {
        assert less * loud >= less * quiet > more * quiet;
      }
    }
  }

  lemma ScalingFits(sample: real, peak: real, gain: real, ceiling: real)
    requires 0.0 < ceiling && Abs(sample) <= peak && 0.0 <= gain <= SafeGain(peak, ceiling)
    ensures Abs(Scaled(sample, gain)) <= ceiling && Abs(Scaled(sample, gain)) <= Abs(sample)
    ensures Abs(Scaled(sample, gain)) < Abs(sample) <==> sample != 0.0 && gain < 1.0
    ensures Abs(sample) == peak > ceiling && gain == SafeGain(peak, ceiling) ==> Abs(Scaled(sample, gain)) == ceiling
  {
    hide SafeGain, Scaled;
    var safe, size := SafeGain(peak, ceiling), Abs(sample);
    SafeGainFits(peak, ceiling);
    ProductFacts(sample, gain);
    ProductFacts(size, gain);
    ProductFacts(gain, size);
    ProductFacts(safe, size);
    ProductFacts(safe, peak);
    ProductOrder(size, 0.0, gain);
    ProductOrder(size, gain, 1.0);
    ProductOrder(size, gain, safe);
    ProductOrder(safe, size, peak);
  }

  // ---------------------------------------------------------------- peaks

  function FramePeak(block: seq<real>, frame: nat): real
    requires 2 * frame + 1 < |block|
  {
    Max(Abs(block[2 * frame]), Abs(block[2 * frame + 1]))
  }

  /** The largest magnitude in the block from a frame on. */
  function PeakFrom(block: seq<real>, frame: nat): (peak: real)
    ensures 0.0 <= peak
    decreases |block| - 2 * frame
  {
    if 2 * frame + 1 < |block| then Max(FramePeak(block, frame), PeakFrom(block, frame + 1)) else 0.0
  }

  lemma PeakUnfolds(block: seq<real>, frame: nat)
    ensures 2 * frame + 1 < |block| ==>
              PeakFrom(block, frame) == Max(FramePeak(block, frame), PeakFrom(block, frame + 1))
    ensures 2 * frame + 1 >= |block| ==> PeakFrom(block, frame) == 0.0
  {
  }

  lemma {:induction false} PeakIsReached(block: seq<real>, frame: nat) returns (at: nat)
    requires 2 * frame + 1 < |block|
    ensures frame <= at && 2 * at + 1 < |block| && FramePeak(block, at) == PeakFrom(block, frame) == PeakFrom(block, at)
    decreases |block| - 2 * frame
  {
    at := frame;
    if FramePeak(block, frame) < PeakFrom(block, frame + 1) {
      assert 2 * (frame + 1) + 1 < |block|;
      at := PeakIsReached(block, frame + 1);
    }
  }

  // --------------------------------------------------------- the gain curve

  datatype Setup = Setup(ceiling: real, sampleRateHz: uint32, releaseMs: real)
  {
    predicate Valid() {
      0.0 < ceiling <= HARD_MAXIMUM_CEILING && sampleRateHz != 0 && 0.0 < releaseMs
    }

    function ReleaseFrames(): real {
      sampleRateHz as real * releaseMs / 1000.0
    }

    /** The per-frame increment that brings an attacked gain back to one. */
    function ReleaseStep(attacked: real): real
      requires Valid()
    {
      PositiveFrames();
      (1.0 - attacked) / ReleaseFrames()
    }

    lemma PositiveFrames()
      requires Valid()
      ensures ReleaseFrames() > 0.0
    {
      assert sampleRateHz as real * releaseMs > 0.0;
    }
  }

  datatype Envelope = Envelope(gain: real, releaseStep: real)
  {
    predicate Valid() {
      && 0.0 <= gain <= 1.0 && 0.0 <= releaseStep <= 1.0
      && (gain < 1.0 ==> 0.0 < releaseStep) && (gain == 1.0 ==> releaseStep == 0.0)
    }
  }

  predicate Attacks(setup: Setup, from: Envelope, block: seq<real>)
    requires setup.Valid()
  {
    SafeGain(PeakFrom(block, 0), setup.ceiling) < from.gain
  }

  /** The envelope the block starts with: attacked at once for everything ahead, if it needs to be. */
  function Attacked(setup: Setup, from: Envelope, block: seq<real>): Envelope
    requires setup.Valid()
  {
    if Attacks(setup, from, block) then
      var gain := SafeGain(PeakFrom(block, 0), setup.ceiling);
      Envelope(gain, setup.ReleaseStep(gain))
    else from
  }

  /** An attack whose release would be over in less than its own size of a frame is refused. */
  predicate Releasable(setup: Setup, from: Envelope, block: seq<real>)
    requires setup.Valid()
  {
    Attacked(setup, from, block).releaseStep <= 1.0
  }

  function Released(gain: real, step: real): real {
    if gain + step >= 1.0 - step then 1.0 else gain + step
  }

  /** The gain of the next frame: recovered a little, but never above what is still ahead allows. */
  function Recovering(gain: real, step: real, allowed: real): real {
    if gain < 1.0 then Max(gain, Lesser(allowed, Lesser(1.0, Released(gain, step)))) else gain
  }

  function GainAt(ceiling: real, start: Envelope, block: seq<real>, frame: nat): real
    requires 0.0 < ceiling
  {
    if frame == 0 then start.gain
    else Recovering(GainAt(ceiling, start, block, frame - 1), start.releaseStep,
                    SafeGain(PeakFrom(block, frame), ceiling))
  }

  function EnvelopeAt(ceiling: real, start: Envelope, block: seq<real>, frame: nat): Envelope
    requires 0.0 < ceiling
  {
    var gain := GainAt(ceiling, start, block, frame);
    Envelope(gain, if gain == 1.0 then 0.0 else start.releaseStep)
  }

  function Limited(ceiling: real, start: Envelope, block: seq<real>): (output: seq<real>)
    requires 0.0 < ceiling
    ensures |output| == |block|
  {
    seq(|block|, i requires 0 <= i < |block| =>
      Scaled(block[i], GainAt(ceiling, start, block, i / 2)))
  }

  // -------------------------------------------------------------- safety

  lemma AttackFits(setup: Setup, from: Envelope, block: seq<real>)
    requires setup.Valid() && from.Valid() && Releasable(setup, from, block)
    ensures var start := Attacked(setup, from, block);
            start.Valid() && start.gain <= SafeGain(PeakFrom(block, 0), setup.ceiling)
  {
    SafeGainFits(PeakFrom(block, 0), setup.ceiling);
    if Attacks(setup, from, block) {
      ReleaseIsPositive(setup, SafeGain(PeakFrom(block, 0), setup.ceiling));
    }
  }

  lemma ReleaseIsPositive(setup: Setup, attacked: real)
    requires setup.Valid() && attacked < 1.0
    ensures 0.0 < setup.ReleaseStep(attacked)
    ensures setup.ReleaseStep(attacked) <= 1.0 <==> 1.0 - attacked <= setup.ReleaseFrames()
    ensures Scaled(setup.ReleaseFrames(), setup.ReleaseStep(attacked)) == 1.0 - attacked
  {
    setup.PositiveFrames();
    var frames, step := setup.ReleaseFrames(), setup.ReleaseStep(attacked);
    hide Setup.ReleaseFrames;
    assert frames * step == 1.0 - attacked;
    Quotient(step, 1.0 - attacked, frames);
  }

  /** A block is refused exactly when the drop it needs is larger than the release is long, in frames. */
  lemma RefusedOnlyForShortReleases(setup: Setup, from: Envelope, block: seq<real>)
    requires setup.Valid() && from.Valid()
    ensures !Releasable(setup, from, block) <==>
            Attacks(setup, from, block) &&
            1.0 - SafeGain(PeakFrom(block, 0), setup.ceiling) > setup.ReleaseFrames()
  {
    hide Setup.ReleaseStep, SafeGain;
    if Attacks(setup, from, block) {
      ReleaseIsPositive(setup, SafeGain(PeakFrom(block, 0), setup.ceiling));
    }
  }

  /**
   At every frame the gain already suits everything still ahead, so no frame can need
   an attack of its own; it never falls within a block and rises by at most two steps.
   */
  lemma {:induction false} GainSuitsWhatIsAhead(ceiling: real, start: Envelope, block: seq<real>, frame: nat)
    requires 0.0 < ceiling && start.Valid() && start.gain <= SafeGain(PeakFrom(block, 0), ceiling)
    requires 2 * frame <= |block|
    ensures var gain := GainAt(ceiling, start, block, frame);
            && start.gain <= gain <= SafeGain(PeakFrom(block, frame), ceiling) <= 1.0
            && (2 * frame + 1 < |block| ==> gain <= SafeGain(FramePeak(block, frame), ceiling))
            && (frame > 0 ==> var before := GainAt(ceiling, start, block, frame - 1);
                              before <= gain <= before + 2.0 * start.releaseStep)
  {
    SafeGainFits(PeakFrom(block, frame), ceiling);
    if frame > 0 {
      GainSuitsWhatIsAhead(ceiling, start, block, frame - 1);
      LouderNeedsLess(PeakFrom(block, frame), PeakFrom(block, frame - 1), ceiling);
    }
    if 2 * frame + 1 < |block| {
      LouderNeedsLess(FramePeak(block, frame), PeakFrom(block, frame), ceiling);
    }
  }

  lemma EnvelopeStaysValid(ceiling: real, start: Envelope, block: seq<real>, frame: nat)
    requires 0.0 < ceiling && start.Valid() && start.gain <= SafeGain(PeakFrom(block, 0), ceiling)
    requires 2 * frame <= |block|
    ensures EnvelopeAt(ceiling, start, block, frame).Valid()
  {
    GainSuitsWhatIsAhead(ceiling, start, block, frame);
  }

  /** Every output sample is within the ceiling, whatever the block and the state before it. */
  lemma OutputsStayWithinCeiling(setup: Setup, from: Envelope, block: seq<real>, i: nat)
    requires setup.Valid() && from.Valid() && Releasable(setup, from, block)
    requires |block| % 2 == 0 && i < |block|
    ensures var start := Attacked(setup, from, block);
            var output := Limited(setup.ceiling, start, block);
            Abs(output[i]) <= setup.ceiling && Abs(output[i]) <= Abs(block[i])
  {
    hide SafeGain, Scaled, PeakFrom, GainAt, Setup.ReleaseStep;
    AttackFits(setup, from, block);
    SampleFits(setup.ceiling, Attacked(setup, from, block), block, i);
  }

  lemma SampleFits(ceiling: real, start: Envelope, block: seq<real>, i: nat)
    requires 0.0 < ceiling && start.Valid() && start.gain <= SafeGain(PeakFrom(block, 0), ceiling)
    requires |block| % 2 == 0 && i < |block|
    ensures var gain := GainAt(ceiling, start, block, i / 2); var scaled := Scaled(block[i], gain);
            && Abs(scaled) <= ceiling && Abs(scaled) <= Abs(block[i])
            && (Abs(scaled) < Abs(block[i]) <==> block[i] != 0.0 && gain < 1.0)
  {
    hide SafeGain, Scaled, PeakFrom, GainAt;
    var frame := i / 2;
    assert i == 2 * frame || i == 2 * frame + 1;
    GainSuitsWhatIsAhead(ceiling, start, block, frame);
    ScalingFits(block[i], FramePeak(block, frame), GainAt(ceiling, start, block, frame), ceiling);
  }

  /** A sample that is not finite comes out as silence, and measures nothing. */
  lemma NotFiniteIsSilenced(ceiling: real, start: Envelope, samples: seq<Float>, i: nat)
    requires 0.0 < ceiling && i < |samples| && samples[i].NonFinite?
    ensures Limited(ceiling, start, Cleaned(samples))[i] == 0.0 && Abs(Cleaned(samples)[i]) == 0.0
  {
    ProductFacts(GainAt(ceiling, start, Cleaned(samples), i / 2), 0.0);
    hide GainAt, Scaled;
  }

  /**
   Recovery is held back by nothing but what lies ahead: one frame later the gain is the
   release's next step, or one if that is in reach, or as much of it as the rest of the block allows.
   */
  lemma RecoveryIsNotHeldBack(ceiling: real, start: Envelope, block: seq<real>, frame: nat)
    requires 0.0 < ceiling && start.Valid() && start.gain <= SafeGain(PeakFrom(block, 0), ceiling)
    requires 0 < frame && 2 * frame <= |block|
    ensures var before, gain := GainAt(ceiling, start, block, frame - 1), GainAt(ceiling, start, block, frame);
            var allowed := SafeGain(PeakFrom(block, frame), ceiling);
            gain == if before + 2.0 * start.releaseStep >= 1.0 then allowed
                    else Lesser(allowed, before + start.releaseStep)
  {
    hide PeakFrom, SafeGain;
    GainSuitsWhatIsAhead(ceiling, start, block, frame - 1);
    GainSuitsWhatIsAhead(ceiling, start, block, frame);
  }

  /** A block starts with the smaller of the gain it found and the gain its peak allows, and keeps what it may. */
  lemma StartIsTheSmallerGain(setup: Setup, from: Envelope, block: seq<real>)
    requires setup.Valid()
    ensures var start := Attacked(setup, from, block);
            && start.gain == Lesser(from.gain, SafeGain(PeakFrom(block, 0), setup.ceiling))
            && (start.gain == from.gain ==> start == from)
  {
    hide PeakFrom, SafeGain, Setup.ReleaseStep;
  }

  /** The release is as many frames long as its milliseconds at the rate. */
  lemma ReleaseLastsItsTime(setup: Setup)
    ensures Scaled(setup.ReleaseFrames(), 1000.0) == Scaled(setup.sampleRateHz as real, setup.releaseMs)
  {
  }

  /** The two channels of a frame keep their proportion, whatever happens to the gain. */
  lemma StereoBalanceIsKept(ceiling: real, start: Envelope, block: seq<real>, frame: nat)
    requires 0.0 < ceiling && 2 * frame + 1 < |block|
    ensures var output := Limited(ceiling, start, block);
            output[2 * frame] * block[2 * frame + 1] == output[2 * frame + 1] * block[2 * frame]
  {
    hide GainAt;
    assert (2 * frame) / 2 == frame == (2 * frame + 1) / 2;
    var gain := GainAt(ceiling, start, block, frame);
    SwapFactors(block[2 * frame], block[2 * frame + 1], gain);
  }

  lemma SwapFactors(left: real, right: real, gain: real)
    ensures Scaled(left, gain) * right == Scaled(right, gain) * left
  {
    assert left * gain * right == right * gain * left;
  }

  /** No more than needed: a block that attacks comes out with its peak exactly at the ceiling. */
  lemma AttackReachesTheCeiling(setup: Setup, from: Envelope, block: seq<real>) returns (frame: nat)
    requires setup.Valid() && from.Valid() && Releasable(setup, from, block)
    requires |block| % 2 == 0 && Attacks(setup, from, block)
    ensures 2 * frame + 1 < |block|
    ensures FramePeak(Limited(setup.ceiling, Attacked(setup, from, block), block), frame) == setup.ceiling
  {
    hide SafeGain, Scaled, PeakFrom, GainAt, Setup.ReleaseStep;
    var ceiling, start := setup.ceiling, Attacked(setup, from, block);
    var peak := PeakFrom(block, 0);
    SafeGainFits(peak, ceiling);
    OnlyLoudBlocksAttack(setup, from, block);
    frame := PeakIsReached(block, 0);
    AttackFits(setup, from, block);
    GainSuitsWhatIsAhead(ceiling, start, block, frame);
    assert GainAt(ceiling, start, block, frame) == start.gain == SafeGain(peak, ceiling);
    ScalingFits(block[2 * frame], peak, start.gain, ceiling);
    ScalingFits(block[2 * frame + 1], peak, start.gain, ceiling);
    assert (2 * frame) / 2 == frame == (2 * frame + 1) / 2;
  }

  lemma OnlyLoudBlocksAttack(setup: Setup, from: Envelope, block: seq<real>)
    requires setup.Valid() && from.Valid() && Attacks(setup, from, block)
    ensures setup.ceiling < PeakFrom(block, 0) && 2 <= |block|
  {
  }

  /** Below the ceiling and fully recovered, the limiter changes nothing. */
  lemma {:induction false} QuietPassesUnchanged(setup: Setup, block: seq<real>)
    requires setup.Valid() && PeakFrom(block, 0) <= setup.ceiling
    ensures var rest := Envelope(1.0, 0.0);
            && Attacked(setup, rest, block) == rest
            && Limited(setup.ceiling, rest, block) == block
            && EnvelopeAt(setup.ceiling, rest, block, |block| / 2) == rest
  {
    forall frame: nat ensures GainAt(setup.ceiling, Envelope(1.0, 0.0), block, frame) == 1.0 {
      OneStays(setup.ceiling, block, frame);
    }
    var output := Limited(setup.ceiling, Envelope(1.0, 0.0), block);
    assert forall i :: 0 <= i < |block| ==> output[i] == block[i];
  }

  lemma {:induction false} OneStays(ceiling: real, block: seq<real>, frame: nat)
    requires 0.0 < ceiling
    ensures GainAt(ceiling, Envelope(1.0, 0.0), block, frame) == 1.0
  {
    if frame > 0 {
      OneStays(ceiling, block, frame - 1);
    }
  }

  // ------------------------------------------------------------ recovery

  /** The gain after some frames in which nothing ahead is over the ceiling. */
  function FreeGain(start: Envelope, frames: nat): real {
    if frames == 0 then start.gain else Recovering(FreeGain(start, frames - 1), start.releaseStep, 1.0)
  }

  function FreeEnvelope(start: Envelope, frames: nat): Envelope {
    var gain := FreeGain(start, frames);
    Envelope(gain, if gain == 1.0 then 0.0 else start.releaseStep)
  }

  lemma {:induction false} UnobstructedIsFree(ceiling: real, start: Envelope, block: seq<real>, frame: nat)
    requires 0.0 < ceiling && PeakFrom(block, 1) <= ceiling
    ensures GainAt(ceiling, start, block, frame) == FreeGain(start, frame)
    ensures EnvelopeAt(ceiling, start, block, frame) == FreeEnvelope(start, frame)
  {
    if frame > 0 {
      UnobstructedIsFree(ceiling, start, block, frame - 1);
      PeaksFade(block, 1, frame);
    }
  }

  /** Recovery does not depend on where the frames are cut into blocks. */
  lemma {:induction false} RecoveryIgnoresBlocks(start: Envelope, first: nat, second: nat)
    ensures FreeGain(FreeEnvelope(start, first), second) == FreeGain(start, first + second)
  {
    if second > 0 {
      RecoveryIgnoresBlocks(start, first, second - 1);
      if FreeGain(start, first) == 1.0 {
        OneIsKept(start, first, second - 1);
      }
    }
  }

  lemma {:induction false} OneIsKept(start: Envelope, first: nat, second: nat)
    requires FreeGain(start, first) == 1.0
    ensures FreeGain(start, first + second) == 1.0
  {
    if second > 0 {
      OneIsKept(start, first, second - 1);
    }
  }

  /**
   Unobstructed, an attacked gain climbs in equal steps and is back at one exactly from
   the frame on that is one short of the release time.
   */
  lemma {:induction false} RecoversOnTime(setup: Setup, attacked: real, frame: nat)
    requires setup.Valid() && 0.0 <= attacked < 1.0 && setup.ReleaseStep(attacked) <= 1.0
    ensures var start := Envelope(attacked, setup.ReleaseStep(attacked));
            FreeGain(start, frame) ==
            if frame > 0 && (frame + 1) as real >= setup.ReleaseFrames() then 1.0
            else Climbed(attacked, start.releaseStep, frame)
  {
    hide Setup.ReleaseStep, Setup.ReleaseFrames, Climbed;
    var step, frames := setup.ReleaseStep(attacked), setup.ReleaseFrames();
    ReleaseIsPositive(setup, attacked);
    StepsReachOne(attacked, step, frames, frame);
    if frame > 0 {
      RecoversOnTime(setup, attacked, frame - 1);
      StepsReachOne(attacked, step, frames, frame + 1);
    }
  }

  function Climbed(attacked: real, step: real, count: nat): real {
    attacked + Scaled(count as real, step)
  }

  lemma StepsReachOne(attacked: real, step: real, frames: real, count: nat)
    requires 0.0 < step && Scaled(frames, step) == 1.0 - attacked
    ensures Climbed(attacked, step, count) >= 1.0 <==> count as real >= frames
    ensures Climbed(attacked, step, 0) == attacked
    ensures count > 0 ==> Climbed(attacked, step, count) == Climbed(attacked, step, count - 1) + step
  {
    hide Scaled;
    var c := count as real;
    ProductFacts(frames, step);
    ProductFacts(c, step);
    ProductFacts(c - 1.0, step);
    ProductFacts(step, 0.0);
    if c >= frames {
      ProductOrder(step, frames, c);
    } else {
      ProductOrder(step, c, frames);
    }
  }

  lemma {:induction false} PeaksFade(block: seq<real>, first: nat, last: nat)
    requires first <= last
    ensures PeakFrom(block, last) <= PeakFrom(block, first)
    decreases last - first
  {
    if first < last {
      PeaksFade(block, first + 1, last);
    }
  }

  // ------------------------------------------------------------ telemetry

  lemma MeasureStep(samples: seq<Float>, ceiling: real, frame: nat)
    requires 2 * frame + 1 < |samples|
    ensures var left, right := samples[2 * frame], samples[2 * frame + 1];
            var block := Cleaned(samples);
            var bad, over, overFrames := NotFinite(samples), SamplesOver(block, ceiling), FramesOver(block, ceiling);
            && FramePeak(block, frame) == Max(Abs(Sanitized(left)), Abs(Sanitized(right)))
            && |bad| == |over| == |samples| && |overFrames| == |samples| / 2
            && Count(bad, 2 * frame + 2) == Count(bad, 2 * frame) + One(left.NonFinite?) + One(right.NonFinite?)
            && Count(over, 2 * frame + 2) ==
               Count(over, 2 * frame) + One(Abs(Sanitized(left)) > ceiling) + One(Abs(Sanitized(right)) > ceiling)
            && Count(overFrames, frame + 1) == Count(overFrames, frame) + One(FramePeak(block, frame) > ceiling)
  {
    hide Count;
    var block := Cleaned(samples);
    CountUnfolds(NotFinite(samples), 2 * frame);
    CountUnfolds(NotFinite(samples), 2 * frame + 1);
    CountUnfolds(SamplesOver(block, ceiling), 2 * frame);
    CountUnfolds(SamplesOver(block, ceiling), 2 * frame + 1);
    CountUnfolds(FramesOver(block, ceiling), frame);
  }

  function SamplesOver(block: seq<real>, ceiling: real): seq<bool> {
    seq(|block|, i requires 0 <= i < |block| => Abs(block[i]) > ceiling)
  }

  function FramesOver(block: seq<real>, ceiling: real): seq<bool> {
    seq(|block| / 2, f requires 0 <= f < |block| / 2 => FramePeak(block, f) > ceiling)
  }

  function SamplesReduced(ceiling: real, start: Envelope, block: seq<real>): seq<bool>
    requires 0.0 < ceiling
  {
    seq(|block|, i requires 0 <= i < |block| => block[i] != 0.0 && GainAt(ceiling, start, block, i / 2) < 1.0)
  }

  function FramesReduced(ceiling: real, start: Envelope, block: seq<real>): seq<bool>
    requires 0.0 < ceiling
  {
    seq(|block| / 2, f requires 0 <= f < |block| / 2 =>
      FramePeak(block, f) != 0.0 && GainAt(ceiling, start, block, f) < 1.0)
  }

  /** The largest rise of the gain within the first `frames` frames. */
  function LargestRise(ceiling: real, start: Envelope, block: seq<real>, frames: nat): real
    requires 0.0 < ceiling
  {
    if frames == 0 then 0.0
    else Max(LargestRise(ceiling, start, block, frames - 1),
             GainAt(ceiling, start, block, frames) - GainAt(ceiling, start, block, frames - 1))
  }

  /** What the limiter reports about a block it processed. */
  function Report(setup: Setup, from: Envelope, samples: seq<Float>): Telemetry
    requires setup.Valid()
  {
    var block := Cleaned(samples);
    var start := Attacked(setup, from, block);
    var frames := |block| / 2;
    Telemetry(
      PeakFrom(block, 0),
      PeakFrom(Limited(setup.ceiling, start, block), 0),
      start.gain,
      GainAt(setup.ceiling, start, block, if frames == 0 then 0 else frames - 1),
      Max(from.gain - start.gain, LargestRise(setup.ceiling, start, block, frames)),
      if Attacks(setup, from, block) then 1 else 0,
      Total(FramesReduced(setup.ceiling, start, block)),
      Total(SamplesReduced(setup.ceiling, start, block)),
      0,
      Total(NotFinite(samples)),
      Total(FramesOver(block, setup.ceiling)),
      Total(SamplesOver(block, setup.ceiling)))
  }

  lemma {:induction false} PeakIsWithinExactly(block: seq<real>, frame: nat, limit: real)
    requires 0.0 <= limit && |block| % 2 == 0
    ensures PeakFrom(block, frame) <= limit <==> forall i :: 2 * frame <= i < |block| ==> Abs(block[i]) <= limit
    decreases |block| - 2 * frame
  {
    hide PeakFrom;
    PeakUnfolds(block, frame);
    if 2 * frame + 1 < |block| {
      PeakIsWithinExactly(block, frame + 1, limit);
      assert FramePeak(block, frame) <= limit <==> Abs(block[2 * frame]) <= limit && Abs(block[2 * frame + 1]) <= limit;
      if PeakFrom(block, frame) <= limit {
        forall i | 2 * frame <= i < |block|
          ensures Abs(block[i]) <= limit
        {
          assert i == 2 * frame || i == 2 * frame + 1 || 2 * (frame + 1) <= i;
        }
      }
    }
  }

  /** What a report's counts say of the input: nothing replaced, nothing too loud. */
  lemma ReportTellsInput(setup: Setup, from: Envelope, samples: seq<Float>)
    requires setup.Valid() && |samples| % 2 == 0
    ensures var report := Report(setup, from, samples);
            && (report.sanitizedSampleCount == 0 <==> forall i :: 0 <= i < |samples| ==> samples[i].Finite?)
            && (report.overCeilingSampleCount == 0 <==> report.blockPeak <= setup.ceiling)
  {
    var block := Cleaned(samples);
    hide PeakFrom, GainAt, SafeGain, Scaled, Count, Setup.ReleaseStep, Attacked, Cleaned, LargestRise, Limited;
    hide FramesOver, FramesReduced, SamplesReduced;
    var bad, over := NotFinite(samples), SamplesOver(block, setup.ceiling);
    assert |bad| == |samples| && forall i :: 0 <= i < |samples| ==> bad[i] == !samples[i].Finite?;
    assert |over| == |block| && forall i :: 0 <= i < |block| ==> over[i] == (Abs(block[i]) > setup.ceiling);
    CountIsZeroExactly(bad, |samples|);
    CountIsZeroExactly(over, |block|);
    PeakIsWithinExactly(block, 0, setup.ceiling);
    hide NotFinite, SamplesOver;
  }

  /** And of the output: within the ceiling without a clamp, and nothing changed if nothing was reduced. */
  lemma ReportTellsOutput(setup: Setup, from: Envelope, samples: seq<Float>)
    requires setup.Valid() && from.Valid() && Releasable(setup, from, Cleaned(samples)) && |samples| % 2 == 0
    ensures var report, block := Report(setup, from, samples), Cleaned(samples);
            var output := Limited(setup.ceiling, Attacked(setup, from, block), block);
            && (report.reducedSampleCount == 0 <==> forall i :: 0 <= i < |block| ==> Abs(output[i]) == Abs(block[i]))
            && report.outputPeak <= setup.ceiling && report.fallbackClampCount == 0
  {
    var block := Cleaned(samples);
    var start := Attacked(setup, from, block);
    hide PeakFrom, GainAt, SafeGain, Scaled, Count, Setup.ReleaseStep, Cleaned, LargestRise;
    hide FramesOver, FramesReduced, SamplesOver, NotFinite;
    AttackFits(setup, from, block);
    hide Attacked, Attacks;
    assert |SamplesReduced(setup.ceiling, start, block)| == |block|;
    CountIsZeroExactly(SamplesReduced(setup.ceiling, start, block), |block|);
    OutputsAreReduced(setup.ceiling, start, block);
    hide SamplesReduced, Limited;
    PeakIsWithinExactly(Limited(setup.ceiling, start, block), 0, setup.ceiling);
  }

  lemma OutputsAreReduced(ceiling: real, start: Envelope, block: seq<real>)
    requires 0.0 < ceiling && start.Valid() && start.gain <= SafeGain(PeakFrom(block, 0), ceiling)
    requires |block| % 2 == 0
    ensures forall i :: 0 <= i < |block| ==>
              var output := Limited(ceiling, start, block)[i];
              && Abs(output) <= ceiling
              && (Abs(output) == Abs(block[i]) <==> !SamplesReduced(ceiling, start, block)[i])
  {
    hide PeakFrom, GainAt, SafeGain, Scaled;
    forall i | 0 <= i < |block|
      ensures var output := Limited(ceiling, start, block)[i];
              && Abs(output) <= ceiling
              && (Abs(output) == Abs(block[i]) <==> !SamplesReduced(ceiling, start, block)[i])
    {
      SampleFits(ceiling, start, block, i);
    }
  }

  // --------------------------------------------------------------- in place

  predicate IsUnitScalar(value: Float) {
    value.Finite? && 0.0 <= value.value <= 1.0
  }

  predicate Accepts(frames: nat, ceiling: Float, sampleRateHz: uint32, releaseMs: Float, gain: Float, step: Float) {
    && frames <= MAXIMUM_FRAMES
    && ceiling.Finite? && releaseMs.Finite? && Setup(ceiling.value, sampleRateHz, releaseMs.value).Valid()
    && IsUnitScalar(gain) && IsUnitScalar(step) && Envelope(gain.value, step.value).Valid()
  }

  method InspectFrame(left: Float, right: Float, ceiling: real)
    returns (peak: real, notFinite: nat, samplesOver: nat, frameOver: bool)
    ensures peak == Max(Abs(Sanitized(left)), Abs(Sanitized(right)))
    ensures notFinite == One(left.NonFinite?) + One(right.NonFinite?)
    ensures samplesOver == One(Abs(Sanitized(left)) > ceiling) + One(Abs(Sanitized(right)) > ceiling)
    ensures frameOver <==> peak > ceiling
  {
    notFinite, samplesOver, frameOver := 0, 0, false;
    if left.NonFinite? {
      notFinite := notFinite + 1;
    }
    if right.NonFinite? {
      notFinite := notFinite + 1;
    }
    var leftPeak, rightPeak := Abs(Sanitized(left)), Abs(Sanitized(right));
    peak := Max(leftPeak, rightPeak);
    if leftPeak > ceiling {
      samplesOver := samplesOver + 1;
      frameOver := true;
    }
    if rightPeak > ceiling {
      samplesOver := samplesOver + 1;
      frameOver := true;
    }
  }

  /** The first pass: peaks of the frames, and what is reported about the input. */
  method Measure(buffer: array<Float>, frames: nat, ceiling: real, suffixPeak: array<real>)
    returns (seen: Telemetry)
    requires 2 * frames <= buffer.Length && frames <= suffixPeak.Length
    modifies suffixPeak
    ensures var samples := buffer[..2 * frames]; var block := Cleaned(samples);
            && (forall f :: 0 <= f < frames ==> suffixPeak[f] == FramePeak(block, f))
            && seen == NO_TELEMETRY.(blockPeak := PeakFrom(block, 0),
                                     sanitizedSampleCount := Total(NotFinite(samples)),
                                     overCeilingFrameCount := Total(FramesOver(block, ceiling)),
                                     overCeilingSampleCount := Total(SamplesOver(block, ceiling)))
  {
    hide PeakFrom, Count, FramePeak, Sanitized;
    ghost var samples := buffer[..2 * frames];
    ghost var block := Cleaned(samples);
    ghost var bad, over, overFrames := NotFinite(samples), SamplesOver(block, ceiling), FramesOver(block, ceiling);
    CountUnfolds(bad, 0);
    CountUnfolds(over, 0);
    CountUnfolds(overFrames, 0);
    assert |bad| == |over| == 2 * frames && |overFrames| == frames;
    hide NotFinite, SamplesOver, FramesOver, Cleaned;
    var blockPeak, sanitized, samplesOver, framesOver := 0.0, 0, 0, 0;
    var frame := 0;
    while frame < frames
      invariant 0 <= frame <= frames
      invariant forall f :: 0 <= f < frame ==> suffixPeak[f] == FramePeak(block, f)
      invariant blockPeak >= 0.0 && Max(blockPeak, PeakFrom(block, frame)) == PeakFrom(block, 0)
      invariant sanitized == Count(bad, 2 * frame) && samplesOver == Count(over, 2 * frame)
      invariant framesOver == Count(overFrames, frame)
    {
      PeakUnfolds(block, frame);
      MeasureStep(samples, ceiling, frame);
      assert samples[2 * frame] == buffer[2 * frame] && samples[2 * frame + 1] == buffer[2 * frame + 1];
      var peak, notFinite, oversHere, frameOver := InspectFrame(buffer[2 * frame], buffer[2 * frame + 1], ceiling);
      suffixPeak[frame] := peak;
      blockPeak := Max(blockPeak, peak);
      sanitized := sanitized + notFinite;
      samplesOver := samplesOver + oversHere;
      framesOver := framesOver + One(frameOver);
      frame := frame + 1;
    }
    PeakUnfolds(block, frames);
    seen := NO_TELEMETRY.(blockPeak := blockPeak, sanitizedSampleCount := sanitized,
                          overCeilingFrameCount := framesOver, overCeilingSampleCount := samplesOver);
  }

  /** The second pass turns frame peaks into suffix maxima, backwards and in place. */
  method TakeSuffixMaxima(suffixPeak: array<real>, frames: nat, ghost block: seq<real>)
    requires frames <= suffixPeak.Length && |block| == 2 * frames
    requires forall f :: 0 <= f < frames ==> suffixPeak[f] == FramePeak(block, f)
    modifies suffixPeak
    ensures forall f :: 0 <= f < frames ==> suffixPeak[f] == PeakFrom(block, f)
  {
    hide PeakFrom;
    PeakUnfolds(block, frames);
    var futurePeak := 0.0;
    var frame := frames;
    while frame != 0
      invariant 0 <= frame <= frames
      invariant futurePeak == PeakFrom(block, frame)
      invariant forall f :: 0 <= f < frame ==> suffixPeak[f] == FramePeak(block, f)
      invariant forall f :: frame <= f < frames ==> suffixPeak[f] == PeakFrom(block, f)
    {
      var index := frame - 1;
      PeakUnfolds(block, index);
      futurePeak := Max(futurePeak, suffixPeak[index]);
      suffixPeak[index] := futurePeak;
      frame := index;
    }
  }

  function Clamp(value: real, low: real, high: real): real {
    if value < low then low else if high < value then high else value
  }

  /** One sample of the third pass. */
  method LimitSample(buffer: array<Float>, index: nat, gain: real, ceiling: real)
    returns (magnitude: real, reduced: bool, clamped: bool)
    requires index < buffer.Length && 0.0 < ceiling
    modifies buffer
    ensures forall i :: 0 <= i < buffer.Length && i != index ==> buffer[i] == old(buffer[i])
    ensures var input := Sanitized(old(buffer[index])); var scaled := Scaled(input, gain);
            && buffer[index] == Finite(Clamp(scaled, -ceiling, ceiling))
            && magnitude == Abs(Clamp(scaled, -ceiling, ceiling))
            && (reduced <==> input != 0.0 && magnitude < Abs(input))
            && (clamped <==> Abs(scaled) > ceiling)
  {
    hide Scaled;
    var input := Sanitized(buffer[index]);
    var scaled := Scaled(input, gain);
    var output := Clamp(scaled, -ceiling, ceiling);
    clamped := output != scaled;
    buffer[index] := Finite(output);
    magnitude := Abs(output);
    reduced := input != 0.0 && magnitude < Abs(input);
  }

  /** What the third pass knows of the gain at a frame: it suits the frame, so nothing attacks or clamps. */
  lemma FrameIsSafe(ceiling: real, start: Envelope, block: seq<real>, frame: nat)
    requires 0.0 < ceiling && start.Valid() && start.gain <= SafeGain(PeakFrom(block, 0), ceiling)
    requires |block| % 2 == 0 && 2 * frame + 1 < |block|
    ensures var gain := GainAt(ceiling, start, block, frame); var output := Limited(ceiling, start, block);
            var left, right := 2 * frame, 2 * frame + 1;
            && start.gain <= gain <= 1.0
            && gain <= SafeGain(Max(Abs(block[left]), Abs(block[right])), ceiling)
            && FramePeak(output, frame) == Max(Abs(output[left]), Abs(output[right]))
            && ScaledSafely(ceiling, gain, block[left], output[left])
            && ScaledSafely(ceiling, gain, block[right], output[right])
  {
    hide PeakFrom, GainAt, SafeGain, Scaled, Limited;
    GainSuitsWhatIsAhead(ceiling, start, block, frame);
    SampleFits(ceiling, start, block, 2 * frame);
    SampleFits(ceiling, start, block, 2 * frame + 1);
    LimitedAt(ceiling, start, block, 2 * frame);
    LimitedAt(ceiling, start, block, 2 * frame + 1);
    assert (2 * frame) / 2 == frame == (2 * frame + 1) / 2;
  }

  ghost predicate ScaledSafely(ceiling: real, gain: real, input: real, output: real) {
    && output == Scaled(input, gain) && Abs(output) <= ceiling
    && (Abs(output) < Abs(input) <==> input != 0.0 && gain < 1.0)
  }

  lemma LimitedAt(ceiling: real, start: Envelope, block: seq<real>, i: nat)
    requires 0.0 < ceiling && i < |block|
    ensures Limited(ceiling, start, block)[i] == Scaled(block[i], GainAt(ceiling, start, block, i / 2))
  {
    hide Scaled, GainAt;
  }

  lemma CurveUnfolds(ceiling: real, start: Envelope, block: seq<real>, frame: nat)
    requires 0.0 < ceiling
    ensures GainAt(ceiling, start, block, 0) == start.gain && LargestRise(ceiling, start, block, 0) == 0.0
    ensures var before := GainAt(ceiling, start, block, frame); var gain := GainAt(ceiling, start, block, frame + 1);
            && gain == Recovering(before, start.releaseStep, SafeGain(PeakFrom(block, frame + 1), ceiling))
            && before <= gain
            && LargestRise(ceiling, start, block, frame + 1) ==
               Max(LargestRise(ceiling, start, block, frame), gain - before)
  {
    hide PeakFrom, SafeGain;
  }

  lemma CleanedAt(samples: seq<Float>, i: nat)
    requires i < |samples|
    ensures Cleaned(samples)[i] == Sanitized(samples[i])
  {
  }

  /** How the counts of reduced samples and frames and the largest rise grow over one frame. */
  lemma ReductionStep(ceiling: real, start: Envelope, block: seq<real>, frame: nat)
    requires 0.0 < ceiling && |block| % 2 == 0 && 2 * frame + 1 < |block|
    ensures var samples, frames := SamplesReduced(ceiling, start, block), FramesReduced(ceiling, start, block);
            var less := GainAt(ceiling, start, block, frame) < 1.0;
            var left, right := block[2 * frame] != 0.0 && less, block[2 * frame + 1] != 0.0 && less;
            && |samples| == |block| && |frames| == |block| / 2
            && Count(samples, 2 * frame + 2) == Count(samples, 2 * frame) + One(left) + One(right)
            && Count(frames, frame + 1) == Count(frames, frame) + One(left || right)
  {
    hide Count, GainAt;
    CountUnfolds(SamplesReduced(ceiling, start, block), 2 * frame);
    CountUnfolds(SamplesReduced(ceiling, start, block), 2 * frame + 1);
    CountUnfolds(FramesReduced(ceiling, start, block), frame);
    assert (2 * frame) / 2 == frame == (2 * frame + 1) / 2;
  }

  /** A frame of the third pass, both channels by the same gain. */
  method LimitFrame(buffer: array<Float>, frame: nat, gain: real, ceiling: real)
    returns (peak: real, reduced: nat, frameReduced: bool, clamped: nat)
    requires 2 * frame + 1 < buffer.Length && 0.0 < ceiling
    modifies buffer
    ensures var left, right := Sanitized(old(buffer[2 * frame])), Sanitized(old(buffer[2 * frame + 1]));
            var newLeft := Clamp(Scaled(left, gain), -ceiling, ceiling);
            var newRight := Clamp(Scaled(right, gain), -ceiling, ceiling);
            && buffer[2 * frame] == Finite(newLeft) && buffer[2 * frame + 1] == Finite(newRight)
            && (forall i :: 0 <= i < buffer.Length && i != 2 * frame && i != 2 * frame + 1 ==>
                  buffer[i] == old(buffer[i]))
            && peak == Max(Abs(newLeft), Abs(newRight))
            && reduced == One(left != 0.0 && Abs(newLeft) < Abs(left)) + One(right != 0.0 && Abs(newRight) < Abs(right))
            && (frameReduced <==> reduced > 0)
            && clamped == One(Abs(Scaled(left, gain)) > ceiling) + One(Abs(Scaled(right, gain)) > ceiling)
  {
    hide Scaled;
    peak, reduced, frameReduced, clamped := 0.0, 0, false, 0;
    var index := 2 * frame;
    var leftPeak, leftReduced, leftClamped := LimitSample(buffer, index, gain, ceiling);
    var rightPeak, rightReduced, rightClamped := LimitSample(buffer, index + 1, gain, ceiling);
    peak := Max(leftPeak, rightPeak);
    reduced := One(leftReduced) + One(rightReduced);
    frameReduced := leftReduced || rightReduced;
    clamped := One(leftClamped) + One(rightClamped);
  }

  lemma RecoveringKeepsOne(step: real, allowed: real)
    ensures Recovering(1.0, step, allowed) == Recovering(1.0, 0.0, allowed) == 1.0
  {
  }

  method Recover(gain: real, step: real, allowed: real) returns (next: real)
    ensures next == Recovering(gain, step, allowed)
  {
    next := gain;
    if gain < 1.0 {
      var released := gain + step;
      if released >= 1.0 - step {
        released := 1.0;
      }
      next := Max(gain, Lesser(allowed, Lesser(1.0, released)));
    }
  }

  /** The third pass: scale every frame by the current gain, then let the gain recover as far as the future allows. */
  method ApplyGains(buffer: array<Float>, frames: nat, ceiling: real, start: Envelope, suffixPeak: array<real>)
    returns (end: Envelope, seen: Telemetry)
    requires 2 * frames <= buffer.Length && frames <= suffixPeak.Length
    requires 0.0 < ceiling && start.Valid()
    requires var block := Cleaned(buffer[..2 * frames]);
             && start.gain <= SafeGain(PeakFrom(block, 0), ceiling)
             && forall f :: 0 <= f < frames ==> suffixPeak[f] == PeakFrom(block, f)
    modifies buffer
    ensures buffer[2 * frames..] == old(buffer[2 * frames..])
    ensures var block := Cleaned(old(buffer[..2 * frames])); var output := Limited(ceiling, start, block);
            && (forall i :: 0 <= i < 2 * frames ==> buffer[i] == Finite(output[i]))
            && end == EnvelopeAt(ceiling, start, block, frames)
            && seen == NO_TELEMETRY.(
                         outputPeak := PeakFrom(output, 0),
                         minimumGain := start.gain,
                         lastGain := GainAt(ceiling, start, block, if frames == 0 then 0 else frames - 1),
                         maximumGainStep := LargestRise(ceiling, start, block, frames),
                         reducedFrameCount := Total(FramesReduced(ceiling, start, block)),
                         reducedSampleCount := Total(SamplesReduced(ceiling, start, block)))
  {
    hide PeakFrom, Count, FramePeak, SafeGain, Scaled, GainAt, LargestRise, Limited, Sanitized, Cleaned, Recovering;
    ghost var samples := buffer[..2 * frames];
    ghost var block := Cleaned(samples);
    ghost var output := Limited(ceiling, start, block);
    ghost var reducedSamples := SamplesReduced(ceiling, start, block);
    ghost var reducedFrames := FramesReduced(ceiling, start, block);
    assert |reducedSamples| == 2 * frames && |reducedFrames| == frames;
    hide FramesReduced, SamplesReduced;
    CurveUnfolds(ceiling, start, block, 0);
    CountUnfolds(reducedSamples, 0);
    CountUnfolds(reducedFrames, 0);
    var gain, releaseStep := start.gain, start.releaseStep;
    var minimumGain := if frames == 0 then gain else 1.0;
    var lastGain := gain;
    var outputPeak, maximumGainStep, samplesReduced, framesReduced, clampCount := 0.0, 0.0, 0, 0, 0;
    var frame := 0;
    while frame < frames
      invariant 0 <= frame <= frames
      invariant gain == GainAt(ceiling, start, block, frame)
      invariant releaseStep == if gain == 1.0 then 0.0 else start.releaseStep
      invariant forall i :: 0 <= i < 2 * frame ==> buffer[i] == Finite(output[i])
      invariant forall i :: 2 * frame <= i < buffer.Length ==> buffer[i] == old(buffer[i])
      invariant minimumGain == if frame == 0 && frames != 0 then 1.0 else start.gain
      invariant lastGain == GainAt(ceiling, start, block, if frame == 0 then 0 else frame - 1)
      invariant outputPeak >= 0.0 && Max(outputPeak, PeakFrom(output, frame)) == PeakFrom(output, 0)
      invariant maximumGainStep == LargestRise(ceiling, start, block, frame)
      invariant samplesReduced == Count(reducedSamples, 2 * frame) && framesReduced == Count(reducedFrames, frame)
      invariant clampCount == 0
    {
      RecoveringKeepsOne(start.releaseStep, SafeGain(PeakFrom(block, frame + 1), ceiling));
      FrameIsSafe(ceiling, start, block, frame);
      ReductionStep(ceiling, start, block, frame);
      CurveUnfolds(ceiling, start, block, frame);
      PeakUnfolds(block, frame + 1);
      PeakUnfolds(output, frame);
      assert samples[2 * frame] == buffer[2 * frame] && samples[2 * frame + 1] == buffer[2 * frame + 1];
      CleanedAt(samples, 2 * frame);
      CleanedAt(samples, 2 * frame + 1);
      var framePeak := Max(Abs(Sanitized(buffer[2 * frame])), Abs(Sanitized(buffer[2 * frame + 1])));
      var frameLimit := SafeGain(framePeak, ceiling);
      if frameLimit < gain {
        assert false; // the second attack path of the source is dead
      }
      minimumGain := Lesser(minimumGain, gain);
      lastGain := gain;
      var peak, reduced, frameReduced, clamped := LimitFrame(buffer, frame, gain, ceiling);
      outputPeak := Max(outputPeak, peak);
      samplesReduced := samplesReduced + reduced;
      framesReduced := framesReduced + One(frameReduced);
      clampCount := clampCount + clamped;
      var nextPeak := if frame + 1 < frames then suffixPeak[frame + 1] else 0.0;
      var nextGain := Recover(gain, releaseStep, SafeGain(nextPeak, ceiling));
      maximumGainStep := Max(maximumGainStep, Abs(nextGain - gain));
      gain := nextGain;
      if gain == 1.0 {
        releaseStep := 0.0;
      }
      frame := frame + 1;
    }
    PeakUnfolds(output, frames);
    end := Envelope(gain, releaseStep);
    seen := NO_TELEMETRY.(outputPeak := outputPeak, minimumGain := minimumGain, lastGain := lastGain,
                          maximumGainStep := maximumGainStep, reducedFrameCount := framesReduced,
                          reducedSampleCount := samplesReduced, fallbackClampCount := clampCount);
  }

  /** Whether a call goes through: everything is in range and the release is not too short for the attack. */
  ghost predicate Processes(samples: seq<Float>, ceiling: Float, sampleRateHz: uint32, releaseMs: Float,
                            gain: Float, step: Float)
  {
    && Accepts(|samples| / 2, ceiling, sampleRateHz, releaseMs, gain, step)
    && Releasable(Setup(ceiling.value, sampleRateHz, releaseMs.value), Envelope(gain.value, step.value),
                  Cleaned(samples))
  }

  class BlockLimiter {
    var gain: Float
    var releaseStep: Float
    var telemetry: Telemetry

    constructor ()
      ensures gain == Finite(1.0) && releaseStep == Finite(0.0) && telemetry == NO_TELEMETRY
    {
      gain, releaseStep, telemetry := Finite(1.0), Finite(0.0), NO_TELEMETRY;
    }

    method Reset()
      modifies this
      ensures gain == Finite(1.0) && releaseStep == Finite(0.0) && telemetry == old(telemetry)
    {
      gain, releaseStep := Finite(1.0), Finite(0.0);
    }

    method Process(buffer: array<Float>, frames: nat, ceiling: Float, sampleRateHz: uint32, releaseMs: Float)
      returns (ok: bool)
      requires frames <= MAXIMUM_FRAMES ==> 2 * frames <= buffer.Length
      modifies this, buffer
      ensures frames > MAXIMUM_FRAMES ==> !ok
      ensures frames <= MAXIMUM_FRAMES ==>
                (ok <==> Processes(old(buffer[..2 * frames]), ceiling, sampleRateHz, releaseMs,
                                   old(gain), old(releaseStep)))
      ensures !ok ==> buffer[..] == old(buffer[..]) && gain == old(gain) && releaseStep == old(releaseStep) &&
                      telemetry == old(telemetry)
      ensures ok ==>
                var setup := Setup(ceiling.value, sampleRateHz, releaseMs.value);
                var from := Envelope(old(gain).value, old(releaseStep).value);
                var samples := old(buffer[..2 * frames]);
                var block := Cleaned(samples);
                var start := Attacked(setup, from, block);
                && buffer[2 * frames..] == old(buffer[2 * frames..])
                && (forall i :: 0 <= i < 2 * frames ==>
                      buffer[i] == Finite(Limited(setup.ceiling, start, block)[i]) &&
                      Abs(buffer[i].value) <= setup.ceiling)
                && gain.Finite? && releaseStep.Finite?
                && Envelope(gain.value, releaseStep.value) == EnvelopeAt(setup.ceiling, start, block, frames)
                && Envelope(gain.value, releaseStep.value).Valid()
                && telemetry == Report(setup, from, samples)
    {
      hide Attacked, Attacks, Limited, Cleaned, PeakFrom, GainAt, SafeGain, LargestRise, Count;
      hide Setup.ReleaseStep, EnvelopeAt;
      if !Accepts(frames, ceiling, sampleRateHz, releaseMs, gain, releaseStep) {
        return false;
      }
      ghost var samples := buffer[..2 * frames];
      ghost var block := Cleaned(samples);
      ghost var setup := Setup(ceiling.value, sampleRateHz, releaseMs.value);
      ghost var from := Envelope(gain.value, releaseStep.value);
      var suffixPeak := new real[MAXIMUM_FRAMES];
      var seen := Measure(buffer, frames, ceiling.value, suffixPeak);
      TakeSuffixMaxima(suffixPeak, frames, block);
      var started, start, drop := StartBlock(Setup(ceiling.value, sampleRateHz, releaseMs.value),
                                             Envelope(gain.value, releaseStep.value), seen.blockPeak, block);
      if !started {
        return false;
      }
      AttackFits(setup, from, block);
      assert buffer[..2 * frames] == samples;
      var end, limited := ApplyGains(buffer, frames, ceiling.value, start, suffixPeak);
      forall i | 0 <= i < 2 * frames ensures Abs(buffer[i].value) <= ceiling.value {
        OutputsStayWithinCeiling(setup, from, block, i);
      }
      EnvelopeStaysValid(ceiling.value, start, block, frames);
      RisesAreNotNegative(ceiling.value, start, block, frames);
      gain, releaseStep := Finite(end.gain), Finite(end.releaseStep);
      telemetry := Telemetry(seen.blockPeak, limited.outputPeak, limited.minimumGain, limited.lastGain,
                             Max(drop, limited.maximumGainStep), if drop > 0.0 then 1 else 0,
                             limited.reducedFrameCount, limited.reducedSampleCount, limited.fallbackClampCount,
                             seen.sanitizedSampleCount, seen.overCeilingFrameCount, seen.overCeilingSampleCount);
      return true;
    }
  }

  lemma {:induction false} RisesAreNotNegative(ceiling: real, start: Envelope, block: seq<real>, frames: nat)
    requires 0.0 < ceiling
    ensures LargestRise(ceiling, start, block, frames) >= 0.0
  {
    if frames > 0 {
      RisesAreNotNegative(ceiling, start, block, frames - 1);
    }
  }

  /** The attack at the head of a block. */
  method StartBlock(setup: Setup, from: Envelope, blockPeak: real, ghost block: seq<real>)
    returns (ok: bool, start: Envelope, drop: real)
    requires setup.Valid() && from.Valid() && blockPeak == PeakFrom(block, 0)
    ensures ok <==> Releasable(setup, from, block)
    ensures ok ==> start == Attacked(setup, from, block) && drop == from.gain - start.gain >= 0.0
    ensures ok ==> (drop > 0.0 <==> Attacks(setup, from, block))
  {
    hide Setup.ReleaseStep, SafeGain;
    ok, start, drop := true, from, 0.0;
    var limit := SafeGain(blockPeak, setup.ceiling);
    if limit < from.gain {
      ReleaseIsPositive(setup, limit);
      start := Envelope(limit, setup.ReleaseStep(limit));
      drop := from.gain - limit;
      if start.releaseStep <= 0.0 || start.releaseStep > 1.0 {
        ok := false;
      }
    }
  }
}
