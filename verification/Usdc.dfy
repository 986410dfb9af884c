/**
 The decimal printer and parser of USDC amounts in the web client. JavaScript numbers are doubles: integers up to
 2^53 - 1 are exact, and the one inexact operation, the division before the floor, is shown not to matter.
 */
module Usdc {
  import opened Options

  const MICROS: nat := 1_000_000
  const MAX_SAFE: nat := 9_007_199_254_740_991

  predicate IsDigit(c: char) {
    '0' <= c <= '9'
  }

  predicate AllDigits(s: string) {
    forall i :: 0 <= i < |s| ==> IsDigit(s[i])
  }

  function DigitOf(d: nat): (c: char)
    requires d < 10
    ensures IsDigit(c) && c as int - '0' as int == d
  {
    (d + '0' as int) as char
  }

  /** Decimal value of a digit string; the empty string counts zero. */
  function Val(s: string): nat
    requires AllDigits(s)
  {
    if s == "" then 0 else Val(s[..|s| - 1]) * 10 + (s[|s| - 1] as int - '0' as int)
  }

  /** String(n) of a safe integer. */
  function Digits(n: nat): (s: string)
    ensures AllDigits(s) && s != ""
  {
    if n < 10 then [DigitOf(n)] else Digits(n / 10) + [DigitOf(n % 10)]
  }

  function Zeros(n: nat): (s: string)
    ensures |s| == n && forall i :: 0 <= i < n ==> s[i] == '0'
  {
    seq(n, _ => '0')
  }

  function PadStart(s: string, n: nat): string {
    if |s| >= n then s else Zeros(n - |s|) + s
  }

  function PadEnd(s: string, n: nat): string {
    if |s| >= n then s else s + Zeros(n - |s|)
  }

  /** replace(/0+$/, "") */
  function StripZeros(s: string): (r: string)
    ensures |r| <= |s| && r == s[..|r|] && (r != "" ==> r[|r| - 1] != '0')
  {
    if s != "" && s[|s| - 1] == '0' then StripZeros(s[..|s| - 1]) else s
  }

  function MicrosToUsdc(micros: int): string {
    var value := if micros > 0 then micros else 0;
    var whole, frac := value / MICROS, value % MICROS;
    if frac == 0 then Digits(whole) else Digits(whole) + "." + StripZeros(PadStart(Digits(frac), 6))
  }

  function DotAt(s: string): (i: Option<nat>)
    ensures i.Some? ==> i.value < |s| && s[i.value] == '.' && forall k :: 0 <= k < i.value ==> s[k] != '.'
    ensures i == None ==> forall k :: 0 <= k < |s| ==> s[k] != '.'
  {
    if s == "" then None
    else
      var i := DotAt(s[..|s| - 1]);
      if i.Some? then i else if s[|s| - 1] == '.' then Some(|s| - 1) else None
  }

  function Whole(text: string): string {
    var dot := DotAt(text);
    if dot.Some? then text[..dot.value] else text
  }

  function Fraction(text: string): string {
    var dot := DotAt(text);
    if dot.Some? then text[dot.value + 1..] else ""
  }

  /** The pattern of usdcToMicros: digits, then at most six after a dot, with at least one digit somewhere. */
  predicate WellFormed(text: string) {
    && AllDigits(Whole(text)) && AllDigits(Fraction(text)) && |Fraction(text)| <= 6
    && (Whole(text) != "" || Fraction(text) != "")
  }

  lemma PadEndDigits(s: string, n: nat)
    requires AllDigits(s)
    ensures AllDigits(PadEnd(s, n))
  {
  }

  /** `text` is already trimmed. A sum past the safe range is refused, as its rounding never brings it back. */
  function UsdcToMicros(text: string): Option<nat> {
    if !WellFormed(text) then None
    else
      var micros := MicrosOf(Whole(text), Fraction(text));
      if micros <= MAX_SAFE then Some(micros) else None
  }

  function MicrosOf(whole: string, fraction: string): nat
    requires AllDigits(whole) && AllDigits(fraction)
  {
    PadEndDigits(fraction, 6);
    Val(whole) * MICROS + Val(PadEnd(fraction, 6))
  }

  /** Digits, and digits after a dot if there is one. */
  predicate SplitsInto(text: string, whole: string, fraction: string) {
    AllDigits(whole) && AllDigits(fraction) && (text == whole + "." + fraction || (text == whole && fraction == ""))
  }

  /** Every accepted text is digits, or digits on either side of one dot. */
  lemma AcceptedSplits(text: string)
    requires UsdcToMicros(text).Some?
    ensures exists whole, fraction :: SplitsInto(text, whole, fraction)
  {
    assert SplitsInto(text, Whole(text), Fraction(text));
  }

  lemma MicrosAre(whole: string, fraction: string)
    requires AllDigits(whole) && AllDigits(fraction) && |fraction| <= 6
    ensures AllDigits(fraction + Zeros(6 - |fraction|))
    ensures MicrosOf(whole, fraction) == Val(whole) * 1_000_000 + Val(fraction + Zeros(6 - |fraction|))
  {
    var padded := fraction + Zeros(6 - |fraction|);
    assert forall i :: 0 <= i < |padded| ==> IsDigit(padded[i]);
    assert |fraction| == 6 ==> padded == fraction;
    assert PadEnd(fraction, 6) == padded;
  }

  /** Of those, exactly the ones with a digit, six decimals at most and a safe value; `MicrosAre` says which value. */
  lemma AcceptedIff(text: string, whole: string, fraction: string)
    requires SplitsInto(text, whole, fraction)
    ensures |fraction| > 6 || |whole| + |fraction| == 0 ==> UsdcToMicros(text) == None
    ensures |fraction| <= 6 && |whole| + |fraction| > 0 ==>
      var micros := MicrosOf(whole, fraction);
      UsdcToMicros(text) == if micros <= 9_007_199_254_740_991 then Some(micros) else None
  {
    Parts(whole, fraction);
  }

  // ------------------------------------------------------------------ digits

  lemma {:induction false} ValDigits(n: nat)
    ensures Val(Digits(n)) == n
  {
    if n >= 10 {
      ValDigits(n / 10);
      assert Digits(n)[..|Digits(n)| - 1] == Digits(n / 10);
    }
  }

  lemma {:induction false} ValLeadingZeros(k: nat, s: string)
    requires AllDigits(s)
    ensures AllDigits(Zeros(k) + s) && Val(Zeros(k) + s) == Val(s)
  {
    var z := Zeros(k) + s;
    if s != "" {
      assert z[..|z| - 1] == Zeros(k) + s[..|s| - 1];
      ValLeadingZeros(k, s[..|s| - 1]);
    } else if k > 0 {
      assert z[..|z| - 1] == Zeros(k - 1) + "";
      ValLeadingZeros(k - 1, "");
    }
  }

  function Pow10(k: nat): nat {
    if k == 0 then 1 else 10 * Pow10(k - 1)
  }

  lemma {:induction false} DigitsLength(n: nat, k: nat)
    requires k > 0 && n < Pow10(k)
    ensures |Digits(n)| <= k
  {
    if n >= 10 {
      DigitsLength(n / 10, k - 1);
    }
  }

  lemma {:induction false} StripThenPad(s: string)
    ensures StripZeros(s) + Zeros(|s| - |StripZeros(s)|) == s
  {
    if s != "" && s[|s| - 1] == '0' {
      var front := s[..|s| - 1];
      StripThenPad(front);
      var k := |front| - |StripZeros(front)|;
      assert Zeros(k + 1) == Zeros(k) + "0";
      assert s == front + "0";
    }
  }

  lemma SixDigits(frac: nat)
    requires frac < MICROS
    ensures var p := PadStart(Digits(frac), 6);
      |p| == 6 && AllDigits(p) && Val(p) == frac && AllDigits(StripZeros(p)) && PadEnd(StripZeros(p), 6) == p
  {
    PaddedSix(frac);
    var p := PadStart(Digits(frac), 6);
    StripThenPad(p);
    assert PadEnd(StripZeros(p), 6) == StripZeros(p) + Zeros(6 - |StripZeros(p)|);
  }

  lemma PaddedSix(frac: nat)
    requires frac < MICROS
    ensures |PadStart(Digits(frac), 6)| == 6 && AllDigits(PadStart(Digits(frac), 6))
    ensures Val(PadStart(Digits(frac), 6)) == frac
  {
    assert Pow10(6) == MICROS;
    DigitsLength(frac, 6);
    ValDigits(frac);
    ValLeadingZeros(6 - |Digits(frac)|, Digits(frac));
    assert PadStart(Digits(frac), 6) == Zeros(6 - |Digits(frac)|) + Digits(frac);
  }

  /** Where the dot of a printed amount is. */
  lemma Parts(whole: string, fraction: string)
    requires AllDigits(whole) && AllDigits(fraction)
    ensures Whole(whole) == whole && Fraction(whole) == ""
    ensures Whole(whole + "." + fraction) == whole && Fraction(whole + "." + fraction) == fraction
  {
    var text := whole + "." + fraction;
    assert text[|whole|] == '.';
    assert forall k :: 0 <= k < |whole| ==> text[k] == whole[k];
    assert forall k :: |whole| < k < |text| ==> text[k] == fraction[k - |whole| - 1];
    var dot := DotAt(text);
    assert dot.Some? && dot.value == |whole|;
  }

  // ------------------------------------------------------------------ the round trip

  /** A whole part, with or without a fraction, parses to the sum of its parts. */
  lemma ParsesWhole(whole: string)
    requires AllDigits(whole) && whole != "" && Val(whole) * MICROS <= MAX_SAFE
    ensures UsdcToMicros(whole) == Some(Val(whole) * MICROS)
  {
    Parts(whole, "");
    NoFraction(whole);
  }

  lemma NoFraction(whole: string)
    requires AllDigits(whole)
    ensures MicrosOf(whole, "") == Val(whole) * MICROS
  {
    assert PadEnd("", 6) == Zeros(6) + "";
    ValLeadingZeros(6, "");
  }

  lemma ParsesFraction(whole: string, fraction: string)
    requires AllDigits(whole) && whole != "" && AllDigits(fraction) && |fraction| <= 6
    requires MicrosOf(whole, fraction) <= MAX_SAFE
    ensures UsdcToMicros(whole + "." + fraction) == Some(MicrosOf(whole, fraction))
  {
    Parts(whole, fraction);
  }

  /** Every safe amount parses back from its printed form. */
  lemma RoundTrip(m: nat)
    requires m <= MAX_SAFE
    ensures UsdcToMicros(MicrosToUsdc(m)) == Some(m)
  {
    var whole, frac := m / MICROS, m % MICROS;
    ValDigits(whole);
    if frac == 0 {
      ParsesWhole(Digits(whole));
    } else {
      SixDigits(frac);
      assert MicrosOf(Digits(whole), StripZeros(PadStart(Digits(frac), 6))) == m;
      ParsesFraction(Digits(whole), StripZeros(PadStart(Digits(frac), 6)));
    }
  }

  /**
   The printed form is canonical: amounts print alike only when equal, and anything at or below zero prints as zero.
   */
  lemma PrintsApart(a: nat, b: nat)
    requires a <= MAX_SAFE && b <= MAX_SAFE && MicrosToUsdc(a) == MicrosToUsdc(b)
    ensures a == b
  {
    RoundTrip(a);
    RoundTrip(b);
  }

  /** Whatever text was accepted, printing its value gives a text of the same value. */
  lemma Canonical(text: string)
    requires UsdcToMicros(text).Some?
    ensures UsdcToMicros(MicrosToUsdc(UsdcToMicros(text).value)) == UsdcToMicros(text)
  {
    RoundTrip(UsdcToMicros(text).value);
  }

  /**
   The floor of the rounded quotient is the exact one: below 2^53 the quotient is below 2^34, where a double is off by
   at most 2^-20, less than the millionth that separates any other quotient from the next whole number.
   */
  lemma FloatFloorExact(m: nat, quotient: real)
    requires m <= MAX_SAFE
    requires -1.0 / 1048576.0 <= quotient - m as real / 1000000.0 <= 1.0 / 1048576.0
    requires quotient >= (m / MICROS) as real
    ensures quotient.Floor == m / MICROS
  {
    var whole, frac := m / MICROS, m % MICROS;
    assert m == whole * MICROS + frac;
    assert m as real / 1000000.0 == whole as real + frac as real / 1000000.0;
    assert frac as real <= 999999.0;
    assert quotient < whole as real + 1.0;
  }
}
