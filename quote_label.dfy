/** The identifier printed under each result: "QT-" followed by the quote's
    one-based position, left-padded with '0' to at least three digits. */
module QuoteLabel {

  predicate IsDigit(c: char) { '0' <= c <= '9' }

  predicate AllDigits(s: string) { forall i :: 0 <= i < |s| ==> IsDigit(s[i]) }

  function DigitChar(d: nat): char
    requires d < 10
  {
    ('0' as int + d) as char
  }

  function DigitValue(c: char): nat
    requires IsDigit(c)
  {
    c as int - '0' as int
  }

  /** `String(n)` for a non-negative integer: one or more decimal digits,
      without a leading zero unless the number is zero itself. */
  function DecimalString(n: nat): (r: string)
    ensures 1 <= |r| && AllDigits(r)
    ensures |r| > 1 ==> r[0] != '0'
  {
    if n < 10 then [DigitChar(n)] else DecimalString(n / 10) + [DigitChar(n % 10)]
  }

  /** Reads a run of decimal digits back as a number; leading zeros are allowed. */
  function DecimalValue(s: string): nat
    requires AllDigits(s)
  {
    if s == [] then 0 else DecimalValue(s[..|s| - 1]) * 10 + DigitValue(s[|s| - 1])
  }

  function Pow10(k: nat): nat {
    if k == 0 then 1 else 10 * Pow10(k - 1)
  }

  function Repeat(c: char, n: nat): (r: string)
    ensures |r| == n && forall i :: 0 <= i < n ==> r[i] == c
  {
    if n == 0 then [] else [c] + Repeat(c, n - 1)
  }

  /** `s.padStart(width, pad)` with a one-character pad: `s` is kept whole at
      the end, and only pad characters are put in front of it, as many as
      bring the length up to `width`. */
  function PadStart(s: string, width: nat, pad: char): (r: string)
    ensures |r| == if |s| < width then width else |s|
    ensures r[|r| - |s|..] == s
    ensures forall i :: 0 <= i < |r| - |s| ==> r[i] == pad
  {
    if |s| < width then Repeat(pad, width - |s|) + s else s
  }

  const IdPrefix: string := "QT-"

  /** `QT-${String(idx + 1).padStart(3, '0')}` for the result at index `idx`. */
  function QuoteId(idx: nat): (r: string)
    ensures |r| >= 6 && r[..3] == IdPrefix && AllDigits(r[3..])
    ensures |r| >= 3 + |DecimalString(idx + 1)|
    ensures r[|r| - |DecimalString(idx + 1)|..] == DecimalString(idx + 1)
  {
    IdPrefix + PadStart(DecimalString(idx + 1), 3, '0')
  }

  /** Reading a number's decimal string gives the number back. */
  lemma {:induction false} DecimalRoundTrip(n: nat)
    ensures DecimalValue(DecimalString(n)) == n
  {
    if n >= 10 {
      var s := DecimalString(n);
      assert s[..|s| - 1] == DecimalString(n / 10);
      DecimalRoundTrip(n / 10);
    }
  }

  /** Leading zeros do not change the value read. */
  lemma {:induction false} LeadingZerosIgnored(k: nat, s: string)
    requires AllDigits(s)
    ensures AllDigits(Repeat('0', k) + s)
    ensures DecimalValue(Repeat('0', k) + s) == DecimalValue(s)
    decreases |s|
  {
    var z := Repeat('0', k);
    if s == [] {
      assert z + s == z;
      ZerosReadAsZero(k);
    } else {
      assert (z + s)[..|z + s| - 1] == z + s[..|s| - 1];
      LeadingZerosIgnored(k, s[..|s| - 1]);
    }
  }

  lemma {:induction false} ZerosReadAsZero(k: nat)
    ensures AllDigits(Repeat('0', k)) && DecimalValue(Repeat('0', k)) == 0
  {
    if k > 0 {
      var z := Repeat('0', k);
      assert z[..k - 1] == Repeat('0', k - 1);
      ZerosReadAsZero(k - 1);
    }
  }

  /** A number has at most `k` decimal digits exactly when it is below 10^k. */
  lemma {:induction false} DecimalLength(n: nat, k: nat)
    requires k >= 1
    ensures |DecimalString(n)| <= k <==> n < Pow10(k)
  {
    if n >= 10 {
      if k == 1 {
        assert Pow10(1) == 10;
      } else {
        DecimalLength(n / 10, k - 1);
        assert n / 10 < Pow10(k - 1) <==> n < 10 * Pow10(k - 1);
      }
    } else {
      Pow10AtLeastTen(k);
    }
  }

  lemma {:induction false} Pow10AtLeastTen(k: nat)
    requires k >= 1
    ensures Pow10(k) >= 10
  {
    if k > 1 { Pow10AtLeastTen(k - 1); }
  }

  /** The digits after "QT-" read back as the one-based position. */
  lemma QuoteIdRoundTrip(idx: nat)
    ensures DecimalValue(QuoteId(idx)[3..]) == idx + 1
  {
    var d := DecimalString(idx + 1);
    var padded := PadStart(d, 3, '0');
    assert QuoteId(idx)[3..] == padded;
    DecimalRoundTrip(idx + 1);
    if |d| < 3 {
      assert padded == Repeat('0', 3 - |d|) + d;
      LeadingZerosIgnored(3 - |d|, d);
    }
  }

  /** Different results never share an identifier. */
  lemma QuoteIdInjective(i: nat, j: nat)
    ensures QuoteId(i) == QuoteId(j) ==> i == j
  {
    QuoteIdRoundTrip(i);
    QuoteIdRoundTrip(j);
  }

  /** The label is exactly six characters long for the first 999 results and
      longer after that: a wide number is never cut down to three digits. */
  lemma QuoteIdLength(idx: nat)
    ensures |QuoteId(idx)| == 6 <==> idx + 1 <= 999
    ensures |QuoteId(idx)| == if idx + 1 <= 999 then 6 else 3 + |DecimalString(idx + 1)|
  {
    DecimalLength(idx + 1, 3);
    assert Pow10(3) == 1000;
  }

  /** The first, twelfth and thousandth labels. */
  lemma QuoteIdExamples()
    ensures QuoteId(0) == "QT-001"
    ensures QuoteId(11) == "QT-012"
    ensures QuoteId(999) == "QT-1000"
  {
    assert DecimalString(1) == "1";
    assert Repeat('0', 2) == "00";
    assert DecimalString(12) == "12";
    assert Repeat('0', 1) == "0";
    assert DecimalString(100) == "100";
    assert DecimalString(1000) == "1000";
  }
}
