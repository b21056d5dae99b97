/**
 Decimal printing, as agent/avrcp_absolute_volume_observe_json.cpp does it, and
 the overflow-guarded digit loop of agent/runtime_support.cpp that reads it back.
 */
module DecimalText {
  import opened Words

  predicate IsDigit(c: char) {
    '0' <= c <= '9'
  }

  function DigitOf(value: nat): (c: char)
    requires value < 10
    ensures IsDigit(c)
  {
    ('0' as int + value) as char
  }

  function DigitValue(c: char): nat
    requires IsDigit(c)
  {
    c as int - '0' as int
  }

  function Decimal(value: nat): string {
    if value < 10 then [DigitOf(value)] else Decimal(value / 10) + [DigitOf(value % 10)]
  }

  ghost predicate AllDigits(text: string) {
    forall i :: 0 <= i < |text| ==> IsDigit(text[i])
  }

  /** The number that a run of digits denotes, leading zeros included. */
  ghost function ValueOf(text: string): nat
    requires AllDigits(text)
  {
    if text == [] then 0 else ValueOf(text[..|text| - 1]) * 10 + DigitValue(text[|text| - 1])
  }

  function DigitsEnd(text: string, from: nat): (end: nat)
    requires from <= |text|
    ensures from <= end <= |text|
    decreases |text| - from
  {
    if from < |text| && IsDigit(text[from]) then DigitsEnd(text, from + 1) else from
  }

  lemma {:induction false} DigitsEndIsMaximal(text: string, from: nat)
    requires from <= |text|
    ensures AllDigits(text[from..DigitsEnd(text, from)])
    ensures DigitsEnd(text, from) < |text| ==> !IsDigit(text[DigitsEnd(text, from)])
    decreases |text| - from
  {
    if from < |text| && IsDigit(text[from]) {
      DigitsEndIsMaximal(text, from + 1);
      var end := DigitsEnd(text, from + 1);
      assert text[from..end] == [text[from]] + text[from + 1..end];
    }
  }

  /** What reading a number at `from` gives: its value and the offset after it, or nothing. */
  ghost function Scanned(text: string, from: nat): Option<(nat, nat)>
    requires from < |text|
  {
    DigitsEndIsMaximal(text, from);
    var end := DigitsEnd(text, from);
    if from == end || ValueOf(text[from..end]) > MAX_U64 then None else Some((ValueOf(text[from..end]), end))
  }

  lemma {:induction false} PrefixIsSmaller(text: string, length: nat)
    requires AllDigits(text) && length <= |text|
    ensures ValueOf(text[..length]) <= ValueOf(text)
  {
    if length == |text| {
      assert text[..length] == text;
    } else {
      PrefixIsSmaller(text[..|text| - 1], length);
      assert text[..|text| - 1][..length] == text[..length];
    }
  }

  /**
   The digit loop of the parser. Its guard, which compares before it multiplies,
   refuses exactly the runs whose value exceeds 64 bits.
   */
  method ParseDigits(text: string, from: nat) returns (result: Option<(uint64, nat)>)
    requires from < |text|
    ensures Scanned(text, from) == match result case None => None case Some(pair) => Some((pair.0, pair.1))
  {
    if !IsDigit(text[from]) {
      return None;
    }
    DigitsEndIsMaximal(text, from);
    ghost var end := DigitsEnd(text, from);
    var parsed: uint64 := 0;
    var offset := from;
    while offset < |text| && IsDigit(text[offset])
      invariant from <= offset <= end && end == DigitsEnd(text, offset)
      invariant AllDigits(text[from..offset]) && parsed == ValueOf(text[from..offset])
    {
      var digit := DigitValue(text[offset]);
      assert text[from..offset + 1][..offset - from] == text[from..offset];
      if parsed > (MAX_U64 - digit) / 10 {
        assert text[from..end][..offset + 1 - from] == text[from..offset + 1];
        PrefixIsSmaller(text[from..end], offset + 1 - from);
        return None;
      }
      parsed := parsed * 10 + digit;
      offset := offset + 1;
    }
    return Some((parsed, offset));
  }

  lemma {:induction false} DecimalDenotes(value: nat)
    ensures Decimal(value) != [] && AllDigits(Decimal(value)) && ValueOf(Decimal(value)) == value
  {
    if value >= 10 {
      DecimalDenotes(value / 10);
      var text := Decimal(value);
      assert text[..|text| - 1] == Decimal(value / 10);
    } else {
      assert Decimal(value)[..0] == [];
    }
  }

  /** The printer gives back every digit run that has no leading zero. */
  lemma {:induction false} CanonicalDigitsPrintBack(text: string)
    requires AllDigits(text) && text != [] && (|text| > 1 ==> text[0] != '0')
    ensures Decimal(ValueOf(text)) == text && (text[0] != '0' ==> ValueOf(text) != 0)
  {
    var last := |text| - 1;
    var digit := DigitValue(text[last]);
    assert DigitOf(digit) == text[last] && text == text[..last] + [text[last]];
    if last != 0 {
      var high := text[..last];
      CanonicalDigitsPrintBack(high);
      assert ValueOf(text) / 10 == ValueOf(high) && ValueOf(text) % 10 == digit;
    }
  }

  lemma {:induction false} RunOfDigitsEnds(text: string, from: nat, end: nat)
    requires from <= end <= |text| && AllDigits(text[from..end])
    requires end == |text| || !IsDigit(text[end])
    ensures DigitsEnd(text, from) == end
    decreases end - from
  {
    if from < end {
      assert IsDigit(text[from..end][0]);
      assert text[from + 1..end] == text[from..end][1..];
      RunOfDigitsEnds(text, from + 1, end);
    }
  }

  /** Printing a 64-bit value and reading it back, in front of anything but a digit, is the identity. */
  lemma PrintThenParse(before: string, value: uint64, after: string)
    requires after == [] || !IsDigit(after[0])
    ensures Scanned(before + Decimal(value) + after, |before|) == Some((value, |before| + |Decimal(value)|))
  {
    DecimalDenotes(value);
    var text := before + Decimal(value) + after;
    var end := |before| + |Decimal(value)|;
    assert text[|before|..end] == Decimal(value);
    RunOfDigitsEnds(text, |before|, end);
  }

  function Power10(exponent: nat): nat {
    if exponent == 0 then 1 else 10 * Power10(exponent - 1)
  }

  lemma {:induction false} Power10Adds(first: nat, second: nat)
    ensures Power10(first + second) == Power10(first) * Power10(second)
  {
    if first != 0 {
      Power10Adds(first - 1, second);
      assert 10 * (Power10(first - 1) * Power10(second)) == 10 * Power10(first - 1) * Power10(second);
    }
  }

  lemma {:induction false} DecimalLength(value: nat, digits: nat)
    requires digits > 0 && value < Power10(digits)
    ensures 1 <= |Decimal(value)| <= digits
  {
    if value >= 10 {
      DecimalLength(value / 10, digits - 1);
    }
  }

  /** Twenty characters hold every 64-bit value. */
  lemma WordsFitTwentyDigits(value: uint64)
    ensures 1 <= |Decimal(value)| <= 20
  {
    assert Power10(5) == 10 * (10 * (10 * Power10(2)));
    Power10Adds(5, 5);
    Power10Adds(10, 10);
    DecimalLength(value, 20);
  }
}
