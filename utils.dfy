/**
 * `naiveHumanFileSize` (src/utils.js): a byte count as `"<n>b"` up to 1000
 * bytes, and above that as kilobytes truncated to two decimals, followed by
 * `"kb"` (the `'k'` suffix of the large branch and the unconditional `'b'`).
 */
module Utils {
  import opened Wrappers
  import opened Numbers

  const TWO_32: int := 0x1_0000_0000
  const TWO_31: int := 0x8000_0000

  /** The `~~` operator on an integral value: ToInt32, wrapping modulo 2^32 into [-2^31, 2^31). */
  function ToInt32(x: int): (r: int)
    ensures -TWO_31 <= r < TWO_31
    ensures (r - x) % TWO_32 == 0
    ensures -TWO_31 <= x < TWO_31 ==> r == x
  {
    var m := x % TWO_32;
    if m >= TWO_31 then m - TWO_32 else m
  }

  /**
   * `naiveHumanFileSize(size)`. The large branch computes `~~(size / 10) / 100`;
   * `size / 10` is floored (an exact integer division) before `~~` wraps it.
   */
  function HumanFileSize(size: nat): (r: string)
    ensures |r| >= 2 && r[|r| - 1] == 'b'
    ensures size > 1000 <==> r[|r| - 2] == 'k'
  {
    if size > 1000 then SignedHundredthsText(ToInt32(size / 10)) + "k" + "b"
    else NatToString(size) + "b"
  }

  /** Up to 1000 bytes the text is the decimal integer itself followed by `b`. */
  lemma HumanFileSizeBytes(size: nat)
    requires size <= 1000
    ensures var r := HumanFileSize(size);
      AllDigits(r[..|r| - 1]) && DigitsValue(r[..|r| - 1]) == size
  {
    var r := HumanFileSize(size);
    assert r[..|r| - 1] == NatToString(size);
    NatToStringRoundTrip(size);
  }

  /** Above 1000 bytes the text is the printed hundredths followed by `kb`. */
  lemma KilobyteText(size: nat)
    requires size > 1000
    ensures var r := HumanFileSize(size);
      r[..|r| - 2] == SignedHundredthsText(ToInt32(size / 10)) && r[|r| - 2..] == "kb"
  {
    var t := SignedHundredthsText(ToInt32(size / 10));
    var r := HumanFileSize(size);
    assert r == t + "kb";
  }

  /**
   * Above 1000 bytes, and while `size / 10` fits in an int32, the text before
   * `kb` reads back as `floor(size / 10)` hundredths of a kilobyte: the value
   * `v` printed satisfies `v <= size / 1000 < v + 0.01` (truncation, not rounding).
   */
  lemma HumanFileSizeKilobytes(size: nat)
    requires 1000 < size < 10 * TWO_31
    ensures var r := HumanFileSize(size);
      r[|r| - 2..] == "kb" &&
      exists v: nat :: ParseSignedHundredths(r[..|r| - 2]) == Some(v) &&
        10 * v <= size < 10 * (v + 1)
  {
    var q := size / 10;
    assert ToInt32(q) == q;
    KilobyteText(size);
    SignedHundredthsRoundTrip(q);
  }

  /** Above 1000 bytes the text always reads back as `ToInt32(floor(size / 10))` hundredths. */
  lemma HumanFileSizeWrapped(size: nat)
    requires size > 1000
    ensures var r := HumanFileSize(size);
      ParseSignedHundredths(r[..|r| - 2]) == Some(ToInt32(size / 10))
  {
    KilobyteText(size);
    SignedHundredthsRoundTrip(ToInt32(size / 10));
  }

  /** For sizes in [10 * 2^31, 10 * 2^32), `~~` wraps and the text turns negative. */
  lemma HumanFileSizeWrapsAt(size: nat)
    requires size == 10 * TWO_31
    ensures HumanFileSize(size) == "-21474836.48kb"
  {
    assert ToInt32(size / 10) == -TWO_31;
    var n := 21474836;
    assert NatToString(2) == "2";
    assert NatToString(21) == "21";
    assert NatToString(214) == "214";
    assert NatToString(2147) == "2147";
    assert NatToString(21474) == "21474";
    assert NatToString(214748) == "214748";
    assert NatToString(2147483) == "2147483";
    assert NatToString(n) == "21474836";
    assert TWO_31 / 100 == n && TWO_31 % 100 == 48;
    assert HundredthsText(TWO_31) == "21474836.48";
  }

  /** At 10 * 2^32 bytes `~~` has wrapped all the way round: the text is zero again. */
  lemma HumanFileSizeWrapsBack(size: nat)
    requires size == 10 * TWO_32
    ensures HumanFileSize(size) == "0kb"
  {
    assert ToInt32(size / 10) == 0;
    assert NatToString(0) == "0";
    assert HundredthsText(0) == "0";
  }

  /** The byte examples: the integer is printed, up to and including 1000. */
  lemma HumanFileSizeByteExamples()
    ensures HumanFileSize(999) == "999b"
    ensures HumanFileSize(1000) == "1000b"
  {
    assert NatToString(9) == "9" && NatToString(99) == "99" && NatToString(999) == "999";
    assert NatToString(1) == "1" && NatToString(10) == "10" && NatToString(100) == "100";
  }

  /** The kilobyte examples: truncation, and trailing zeros dropped. */
  lemma HumanFileSizeKilobyteExamples()
    ensures HumanFileSize(1001) == "1kb"
    ensures HumanFileSize(1100) == "1.1kb"
    ensures HumanFileSize(2000) == "2kb"
    ensures HumanFileSize(123456) == "123.45kb"
  {
    assert NatToString(1) == "1" && NatToString(2) == "2";
    assert NatToString(12) == "12" && NatToString(123) == "123";
    assert HundredthsText(100) == "1" && HundredthsText(110) == "1.1" && HundredthsText(200) == "2";
    assert HundredthsText(12345) == "123.45";
    assert ToInt32(100) == 100 && ToInt32(110) == 110 && ToInt32(200) == 200 && ToInt32(12345) == 12345;
    assert SignedHundredthsText(100) == "1" && SignedHundredthsText(110) == "1.1";
    assert SignedHundredthsText(200) == "2" && SignedHundredthsText(12345) == "123.45";
  }
}
