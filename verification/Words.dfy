/**
 The machine words of the agent, the serial comparison of generations, and the
 counters that wrap from the largest 64-bit word to one, never back to zero.
 */
module Words {

  const TWO_63: int := 0x8000_0000_0000_0000
  const TWO_64: int := 0x1_0000_0000_0000_0000
  const MAX_U64: int := TWO_64 - 1

  type uint8 = x: int | 0 <= x < 0x100
  type uint16 = x: int | 0 <= x < 0x1_0000
  type uint32 = x: int | 0 <= x < 0x1_0000_0000
  type uint64 = x: int | 0 <= x < TWO_64

  datatype Option<+T> = None | Some(value: T)

  function Min(a: int, b: int): int {
    if a <= b then a else b
  }

  /** Serial comparison of section 3.2 of RFC 1982 on 64 bits, zero excluded. */
  predicate IsNewerGeneration(candidate: uint64, current: uint64) {
    candidate != 0 &&
    (current == 0 ||
     var distance := (candidate - current) % TWO_64;
     distance != 0 && distance < TWO_63)
  }

  /** The successor of a generation, an authorization epoch or a revision. */
  function NextNonzero(value: uint64): uint64 {
    if value == MAX_U64 then 1 else value + 1
  }

  function Advance(value: uint64, steps: nat): uint64 {
    if steps == 0 then value else NextNonzero(Advance(value, steps - 1))
  }

  /** Two generations of one link can never each be newer than the other. */
  lemma NewerIsAsymmetric(a: uint64, b: uint64)
    requires IsNewerGeneration(a, b) && b != 0
    ensures !IsNewerGeneration(b, a)
  {
    var forward, backward := (a - b) % TWO_64, (b - a) % TWO_64;
    assert (forward + backward) % TWO_64 == 0;
  }

  /** Counting on from a nonzero word is counting modulo 2^64 - 1. */
  lemma {:induction false} AdvanceClosedForm(value: uint64, steps: nat)
    requires value != 0
    ensures Advance(value, steps) == (value - 1 + steps) % MAX_U64 + 1
  {
    if steps != 0 {
      AdvanceClosedForm(value, steps - 1);
      var sum := value - 1 + steps - 1;
      var turns, rest := sum / MAX_U64, sum % MAX_U64;
      if rest == MAX_U64 - 1 {
        RemainderOf(sum + 1, turns + 1, 0, MAX_U64);
      } else {
        RemainderOf(sum + 1, turns, rest + 1, MAX_U64);
      }
    }
  }

  lemma {:induction false} AdvanceAdds(value: uint64, first: nat, second: nat)
    ensures Advance(value, first + second) == Advance(Advance(value, first), second)
  {
    if second != 0 {
      AdvanceAdds(value, first, second - 1);
    }
  }

  /** A counter shows an old value again exactly after whole turns of 2^64 - 1 steps. */
  lemma AdvanceReturns(value: uint64, steps: nat)
    ensures Advance(value, steps) == value <==> if value == 0 then steps == 0 else steps % MAX_U64 == 0
  {
    if value != 0 {
      AdvanceClosedForm(value, steps);
      ShiftedRemainder(value - 1, steps, MAX_U64);
    }
  }

  lemma ShiftedRemainder(base: nat, steps: nat, period: nat)
    requires base < period
    ensures (base + steps) % period == base <==> steps % period == 0
  {
    var turns, rest := steps / period, steps % period;
    assert steps == turns * period + rest;
    if base + rest < period {
      RemainderOf(base + steps, turns, base + rest, period);
    } else {
      RemainderOf(base + steps, turns + 1, base + rest - period, period);
    }
  }

  lemma RemainderOf(value: int, turns: int, rest: int, period: nat)
    requires 0 <= rest < period && value == turns * period + rest
    ensures value % period == rest
  {
    var difference := value / period - turns;
    assert difference * period == rest - value % period;
    ProductLeavesZero(difference, period);
  }

  lemma ProductLeavesZero(difference: int, period: nat)
    ensures difference >= 1 ==> difference * period >= period
    ensures difference <= -1 ==> difference * period + period <= 0
  {
    if difference >= 1 {
      assert (difference - 1) * period >= 0;
    } else if difference <= -1 {
      assert (-difference - 1) * period >= 0;
    }
  }

  /** Fewer than 2^63 - 1 successors later the word is still accepted as newer, wrap included. */
  lemma AdvanceIsNewer(value: uint64, steps: nat)
    requires 0 < steps < TWO_63 - 1
    ensures IsNewerGeneration(Advance(value, steps), value)
  {
    assert Advance(value, steps) == NextNonzero(Advance(value, steps - 1)) != 0;
    if value != 0 {
      AdvanceClosedForm(value, steps);
      var sum := value - 1 + steps;
      if sum < MAX_U64 {
        RemainderOf(sum, 0, sum, MAX_U64);
        RemainderOf(Advance(value, steps) - value, 0, steps, TWO_64);
      } else {
        RemainderOf(sum, 1, sum - MAX_U64, MAX_U64);
        RemainderOf(Advance(value, steps) - value, -1, steps + 1, TWO_64);
      }
    }
  }

  /** Whether `steps` successors of a nonzero word leave the half range that counts as newer. */
  predicate Outruns(value: uint64, steps: nat) {
    var lap := steps % MAX_U64;
    lap + (if value + lap > MAX_U64 then 1 else 0) >= TWO_63
  }

  /** A counter that moved on is taken for a newer or the same generation exactly while it does not outrun. */
  lemma AdvanceIsAcceptedExactly(value: uint64, steps: nat)
    requires value != 0
    ensures (Advance(value, steps) == value || IsNewerGeneration(Advance(value, steps), value)) <==>
            !Outruns(value, steps)
  {
    var lap, turns := steps % MAX_U64, steps / MAX_U64;
    AdvanceClosedForm(value, steps);
    if value + lap > MAX_U64 {
      RemainderOf(value - 1 + steps, turns + 1, value - 1 + lap - MAX_U64, MAX_U64);
      RemainderOf(value + lap - MAX_U64 - value, -1, lap + 1, TWO_64);
    } else {
      RemainderOf(value - 1 + steps, turns, value - 1 + lap, MAX_U64);
      RemainderOf(lap, 0, lap, TWO_64);
    }
  }

  lemma SoonNeverOutruns(value: uint64, steps: nat)
    requires steps < TWO_63 - 1
    ensures !Outruns(value, steps)
  {
    RemainderOf(steps, 0, steps, MAX_U64);
  }
}
