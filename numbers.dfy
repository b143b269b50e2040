/**
 * How JavaScript prints the numbers this program prints: non-negative
 * integers (`String(n)` for n < 10^21) and integers divided by 100
 * (`q / 100 + ''`), which print with at most two fractional digits and no
 * trailing zeros. Each printer has a decoder and a round-trip lemma.
 */
module Numbers {
  import opened Wrappers

  predicate IsDigit(c: char) { '0' <= c <= '9' }

  predicate AllDigits(s: string) { forall i :: 0 <= i < |s| ==> IsDigit(s[i]) }

  function DigitChar(d: nat): (c: char)
    requires d < 10
    ensures IsDigit(c) && DigitValue(c) == d
  {
    ('0' as int + d) as char
  }

  function DigitValue(c: char): (d: nat)
    requires IsDigit(c)
    ensures d < 10
  {
    c as int - '0' as int
  }

  /** The decimal text of `n`, most significant digit first. */
  function NatToString(n: nat): (s: string)
    ensures |s| >= 1 && AllDigits(s)
    ensures s[0] == '0' <==> n == 0
    ensures n < 10 <==> |s| == 1
    decreases n
  {
    if n < 10 then [DigitChar(n)] else NatToString(n / 10) + [DigitChar(n % 10)]
  }

  /** The value of a run of decimal digits (the empty run is 0). */
  function DigitsValue(s: string): nat
    requires AllDigits(s)
  {
    if s == [] then 0 else DigitsValue(s[..|s| - 1]) * 10 + DigitValue(s[|s| - 1])
  }

  lemma {:induction false} NatToStringRoundTrip(n: nat)
    ensures DigitsValue(NatToString(n)) == n
    decreases n
  {
    if n >= 10 {
      NatToStringRoundTrip(n / 10);
      var s := NatToString(n);
      assert s[..|s| - 1] == NatToString(n / 10);
    }
  }

  lemma NatToStringInjective(m: nat, n: nat)
    requires NatToString(m) == NatToString(n)
    ensures m == n
  {
    NatToStringRoundTrip(m);
    NatToStringRoundTrip(n);
  }

  lemma NatToStringInjectiveAll()
    ensures forall m: nat, n: nat {:trigger NatToString(m), NatToString(n)} ::
      NatToString(m) == NatToString(n) ==> m == n
  {
    forall m: nat, n: nat | NatToString(m) == NatToString(n) ensures m == n {
      NatToStringInjective(m, n);
    }
  }

  /** The fractional digits JavaScript prints for `c / 100`, `c < 100`, dot included. */
  function FractionText(c: nat): (s: string)
    requires c < 100
  {
    if c == 0 then ""
    else if c % 10 == 0 then ['.', DigitChar(c / 10)]
    else ['.', DigitChar(c / 10), DigitChar(c % 10)]
  }

  /** `String(q / 100)` for a non-negative integer `q < 2^31`. */
  function HundredthsText(q: nat): (s: string)
    ensures |s| >= 1
    ensures '.' in s ==> s[|s| - 1] != '0' && s[|s| - 1] != '.'
  {
    var f := FractionText(q % 100);
    assert f != [] ==> f[|f| - 1] != '0';
    NatToString(q / 100) + f
  }

  /** `String(q / 100)` for an integer `q` with `|q| < 2^31`, signs included. */
  function SignedHundredthsText(q: int): (s: string)
    ensures |s| >= 1
  {
    if q < 0 then "-" + HundredthsText(-q) else HundredthsText(q)
  }

  function IndexOfDot(s: string): (i: nat)
    ensures i <= |s|
    ensures i < |s| ==> s[i] == '.'
    ensures forall k :: 0 <= k < i ==> s[k] != '.'
  {
    if s == [] then 0 else if s[0] == '.' then 0 else 1 + IndexOfDot(s[1..])
  }

  /**
   * Reads a decimal with at most two fractional digits back into hundredths:
   * `"123.45"` is 12345, `"1.1"` is 110, `"2"` is 200.
   */
  function ParseHundredths(s: string): (r: Option<nat>)
  {
    var i := IndexOfDot(s);
    var whole := s[..i];
    if whole == [] || !AllDigits(whole) then None
    else if i == |s| then Some(DigitsValue(whole) * 100)
    else
      var frac := s[i + 1..];
      if |frac| == 1 && IsDigit(frac[0]) then
        Some(DigitsValue(whole) * 100 + DigitValue(frac[0]) * 10)
      else if |frac| == 2 && IsDigit(frac[0]) && IsDigit(frac[1]) then
        Some(DigitsValue(whole) * 100 + DigitValue(frac[0]) * 10 + DigitValue(frac[1]))
      else None
  }

  /** Reads an optional minus sign followed by `ParseHundredths`. */
  function ParseSignedHundredths(s: string): (r: Option<int>)
  {
    if |s| > 0 && s[0] == '-' then
      match ParseHundredths(s[1..])
      case Some(v) => if v == 0 then None else Some(0 - v)
      case None => None
    else
      match ParseHundredths(s)
      case Some(v) => Some(v)
      case None => None
  }

  lemma NoDotInDigits(s: string)
    requires AllDigits(s)
    ensures IndexOfDot(s) == |s|
  {
    if s != [] {
      assert s[0] != '.';
      NoDotInDigits(s[1..]);
    }
  }

  lemma IndexOfDotAfterDigits(w: string, f: string)
    requires AllDigits(w)
    requires f != [] ==> f[0] == '.'
    ensures IndexOfDot(w + f) == |w|
  {
    if w == [] {
      assert w + f == f;
    } else {
      assert (w + f)[1..] == w[1..] + f;
      IndexOfDotAfterDigits(w[1..], f);
    }
  }

  lemma {:induction false} HundredthsRoundTrip(q: nat)
    ensures ParseHundredths(HundredthsText(q)) == Some(q)
  {
    var w := NatToString(q / 100);
    var f := FractionText(q % 100);
    var s := w + f;
    assert HundredthsText(q) == s;
    IndexOfDotAfterDigits(w, f);
    NatToStringRoundTrip(q / 100);
    assert s[..|w|] == w;
    var c := q % 100;
    if c == 0 {
      assert s == w;
    } else {
      assert s[|w| + 1..] == f[1..];
    }
  }

  lemma HundredthsTextUnsigned(q: nat)
    ensures HundredthsText(q)[0] != '-'
  {
    assert HundredthsText(q)[0] == NatToString(q / 100)[0];
  }

  lemma ParseSignedNegative(t: string, p: nat)
    requires p > 0 && ParseHundredths(t) == Some(p)
    ensures ParseSignedHundredths("-" + t) == Some(-(p as int))
  {
    assert ("-" + t)[1..] == t;
  }

  lemma ParseSignedUnsigned(t: string, p: nat)
    requires t != [] && t[0] != '-' && ParseHundredths(t) == Some(p)
    ensures ParseSignedHundredths(t) == Some(p)
  {
  }

  lemma SignedHundredthsRoundTrip(q: int)
    ensures ParseSignedHundredths(SignedHundredthsText(q)) == Some(q)
  {
    if q < 0 {
      HundredthsRoundTrip(-q);
      ParseSignedNegative(HundredthsText(-q), -q);
    } else {
      HundredthsRoundTrip(q);
      HundredthsTextUnsigned(q);
      ParseSignedUnsigned(HundredthsText(q), q);
    }
  }
}
