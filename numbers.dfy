/** `int.TryParse` as the lexer uses it: on a run of decimal digits, into a 32-bit signed int. */
module Int32Parse {
  import opened CharClasses

  const Int32Max: int := 0x7fff_ffff

  predicate AllDigits(s: string)
  {
    forall i :: 0 <= i < |s| ==> IsDigit(s[i])
  }

  function DigitValue(c: char): (d: nat)
    requires IsDigit(c)
    ensures d < 10
  {
    c as int - '0' as int
  }

  function DigitChar(d: nat): (c: char)
    requires d < 10
    ensures IsDigit(c) && DigitValue(c) == d
  {
    ('0' as int + d) as char
  }

  /** The base-10 value of a digit string, most significant digit first (leading zeros allowed). */
  function DigitsValue(s: string): nat
    requires AllDigits(s)
  {
    if s == [] then 0 else 10 * DigitsValue(s[..|s| - 1]) + DigitValue(s[|s| - 1])
  }

  /** The digit loop of `int.TryParse`: from index `i` with `v` read so far, multiply by ten and
      add the next digit, failing with 0 as soon as the value leaves the Int32 range. */
  function Accumulate(s: string, i: nat, v: nat): (bool, int)
    requires AllDigits(s) && i <= |s| && v <= Int32Max
    decreases |s| - i
  {
    if i == |s| then (true, v)
    else
      var w := 10 * v + DigitValue(s[i]);
      if w > Int32Max then (false, 0) else Accumulate(s, i + 1, w)
  }

  /** `int.TryParse(s, out value)`: fails on the empty string, otherwise reads the digits left to
      right. On failure the out variable holds 0, which the lexer still puts in the token. It
      succeeds exactly when the run's value fits in Int32, and then yields that value. */
  function TryParseInt32(s: string): (r: (bool, int))
    requires AllDigits(s)
    ensures r.0 <==> |s| > 0 && DigitsValue(s) <= Int32Max
    ensures r.0 ==> r.1 == DigitsValue(s)
    ensures !r.0 ==> r.1 == 0
    ensures 0 <= r.1 <= Int32Max
  {
    if |s| == 0 then (false, 0)
    else
      AccumulateReadsValue(s, 0, 0);
      Accumulate(s, 0, 0)
  }

  /** A digit string's value is at least the value of any of its prefixes. */
  lemma {:induction false} PrefixValueBound(s: string, j: nat)
    requires AllDigits(s) && j <= |s|
    ensures AllDigits(s[..j]) && DigitsValue(s[..j]) <= DigitsValue(s)
    decreases |s| - j
  {
    if j < |s| {
      PrefixValueBound(s, j + 1);
      assert s[..j + 1][..j] == s[..j];
    } else {
      assert s[..j] == s;
    }
  }

  /** The accumulation from a prefix's value ends in the whole string's value when that fits in
      Int32, and in failure with 0 otherwise. */
  lemma {:induction false} AccumulateReadsValue(s: string, i: nat, v: nat)
    requires AllDigits(s) && i <= |s| && v <= Int32Max
    requires AllDigits(s[..i]) && v == DigitsValue(s[..i])
    ensures Accumulate(s, i, v) == if DigitsValue(s) <= Int32Max then (true, DigitsValue(s)) else (false, 0)
    decreases |s| - i
  {
    if i == |s| {
      assert s[..i] == s;
    } else {
      var w := 10 * v + DigitValue(s[i]);
      assert s[..i + 1][..i] == s[..i];
      assert w == DigitsValue(s[..i + 1]);
      PrefixValueBound(s, i + 1);
      if w <= Int32Max {
        AccumulateReadsValue(s, i + 1, w);
      }
    }
  }

  /** The decimal spelling of a natural number, without leading zeros (what `int.ToString` gives). */
  function Decimal(n: nat): (s: string)
    ensures |s| > 0 && AllDigits(s)
    ensures n > 0 ==> s[0] != '0'
  {
    if n < 10 then [DigitChar(n)] else Decimal(n / 10) + [DigitChar(n % 10)]
  }

  /** Reading back the decimal spelling of a number gives that number. */
  lemma {:induction false} DigitsValueOfDecimal(n: nat)
    ensures DigitsValue(Decimal(n)) == n
  {
    var s := Decimal(n);
    if n >= 10 {
      DigitsValueOfDecimal(n / 10);
      assert s[..|s| - 1] == Decimal(n / 10);
    }
  }

  /** Every Int32-range natural number round-trips through its spelling; one past the range fails
      and yields 0. */
  lemma ParseDecimalRoundTrip(n: nat)
    ensures n <= Int32Max ==> TryParseInt32(Decimal(n)) == (true, n)
    ensures n > Int32Max ==> TryParseInt32(Decimal(n)) == (false, 0)
  {
    DigitsValueOfDecimal(n);
  }

  /** Leading zeros do not change the value: `"007"` parses as 7. */
  lemma {:induction false} LeadingZero(s: string)
    requires AllDigits(s)
    ensures AllDigits("0" + s) && DigitsValue("0" + s) == DigitsValue(s)
  {
    if s != [] {
      var t := "0" + s;
      assert t[..|t| - 1] == "0" + s[..|s| - 1];
      LeadingZero(s[..|s| - 1]);
    }
  }
}
