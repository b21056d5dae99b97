/**
 Samples as real numbers or not finite, products kept out of the solver's way, and
 counting. Rounding is not modelled.
 */
module Samples {
  datatype Float = Finite(value: real) | NonFinite

  function Abs(x: real): real { if x < 0.0 then -x else x }
  function Max(x: real, y: real): real { if x < y then y else x }
  function Lesser(x: real, y: real): real { if y < x then y else x }

  function Sanitized(sample: Float): real {
    if sample.Finite? then sample.value else 0.0
  }

  /** A block with silence in place of what is not finite. */
  function Cleaned(samples: seq<Float>): (block: seq<real>)
    ensures |block| == |samples|
  {
    seq(|samples|, i requires 0 <= i < |samples| => Sanitized(samples[i]))
  }

  // ------------------------------------------------------------- products

  function Scaled(sample: real, gain: real): real {
    sample * gain
  }

  lemma ProductOrder(size: real, gain: real, bound: real)
    requires 0.0 <= size && gain <= bound
    ensures Scaled(size, gain) <= Scaled(size, bound)
    ensures size > 0.0 && gain < bound ==> Scaled(size, gain) < Scaled(size, bound)
  {
    hide Scaled;
    var room := bound - gain;
    ProductSign(size, room);
    ProductDistributes(size, gain, room);
    assert gain + room == bound;
  }

  lemma ProductSign(x: real, y: real)
    requires 0.0 <= x && 0.0 <= y
    ensures Scaled(x, y) >= 0.0 && (x > 0.0 && y > 0.0 ==> Scaled(x, y) > 0.0)
  {
  }

  lemma ProductDistributes(x: real, y: real, z: real)
    ensures Scaled(x, y + z) == Scaled(x, y) + Scaled(x, z)
  {
  }

  lemma ProductFacts(x: real, y: real)
    ensures Scaled(x, y) == Scaled(y, x)
    ensures Scaled(x, 1.0) == x == Scaled(1.0, x) && Scaled(x, 0.0) == 0.0
    ensures Scaled(-x, y) == -Scaled(x, y)
    ensures Scaled(x + 1.0, y) == Scaled(x, y) + y
  {
  }

  lemma Quotient(quotient: real, amount: real, divisor: real)
    requires 0.0 < amount && 0.0 < divisor && Scaled(divisor, quotient) == amount
    ensures 0.0 < quotient
    ensures quotient < 1.0 <==> amount < divisor
    ensures quotient <= 1.0 <==> amount <= divisor
  {
    hide Scaled;
    ProductFacts(divisor, quotient);
    QuotientOrder(1.0, quotient, divisor);
    QuotientOrder(quotient, 1.0, divisor);
    QuotientOrder(quotient, 0.0, divisor);
  }

  lemma QuotientOrder(low: real, high: real, divisor: real)
    requires 0.0 < divisor
    ensures Scaled(divisor, low) <= Scaled(divisor, high) <==> low <= high
  {
    hide Scaled;
    if low <= high {
      ProductOrder(divisor, low, high);
    } else {
      ProductOrder(divisor, high, low);
    }
  }

  // ------------------------------------------------------------- counting

  function One(flag: bool): nat {
    if flag then 1 else 0
  }

  /** How many of the first `limit` flags are up. */
  function Count(flags: seq<bool>, limit: nat): nat
    requires limit <= |flags|
  {
    if limit == 0 then 0 else Count(flags, limit - 1) + One(flags[limit - 1])
  }

  lemma CountUnfolds(flags: seq<bool>, limit: nat)
    ensures limit < |flags| ==> Count(flags, limit + 1) == Count(flags, limit) + One(flags[limit])
    ensures Count(flags, 0) == 0
  {
  }

  function Total(flags: seq<bool>): nat {
    Count(flags, |flags|)
  }

  /** Nothing is counted exactly if no flag is up. */
  lemma {:induction false} CountIsZeroExactly(flags: seq<bool>, limit: nat)
    requires limit <= |flags|
    ensures Count(flags, limit) == 0 <==> forall i :: 0 <= i < limit ==> !flags[i]
  {
    if limit > 0 {
      CountIsZeroExactly(flags, limit - 1);
    }
  }

  function NotFinite(samples: seq<Float>): seq<bool> {
    seq(|samples|, i requires 0 <= i < |samples| => samples[i].NonFinite?)
  }
}
