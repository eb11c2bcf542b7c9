/** Decimal formatting of non-negative integers as .NET writes them:
    `n.ToString()` (shortest digits) and the standard format "D<width>"
    (digits left-padded with zeros to at least `width` characters, never
    truncated), plus reading such digit strings back. */
module Format {

  /** The character of a decimal digit. */
  function DigitChar(d: nat): (c: char)
    requires d < 10
    ensures '0' <= c <= '9'
    ensures c as int - '0' as int == d
  {
    (d + '0' as int) as char
  }

  function DigitValue(c: char): (d: nat)
    requires '0' <= c <= '9'
    ensures d < 10
  {
    c as int - '0' as int
  }

  predicate IsDigits(s: string)
  {
    forall i :: 0 <= i < |s| ==> '0' <= s[i] <= '9'
  }

  function Pow10(k: nat): (p: nat)
    ensures p >= 1
  {
    if k == 0 then 1 else 10 * Pow10(k - 1)
  }

  /** Shortest decimal representation of `n` (what `n.ToString()` gives for
      a non-negative integer): at least one digit, and no leading zero
      unless `n` is zero. */
  function Digits(n: nat): (s: string)
    ensures |s| >= 1 && IsDigits(s)
    ensures s[0] == '0' ==> n == 0
  {
    if n < 10 then [DigitChar(n)] else Digits(n / 10) + [DigitChar(n % 10)]
  }

  /** The value of a digit string, most significant digit first; the empty
      string reads as zero. */
  function Parse(s: string): (n: nat)
    requires IsDigits(s)
  {
    if s == [] then 0 else 10 * Parse(s[..|s| - 1]) + DigitValue(s[|s| - 1])
  }

  function Zeros(k: nat): (s: string)
    ensures |s| == k && IsDigits(s)
    ensures forall i :: 0 <= i < k ==> s[i] == '0'
  {
    if k == 0 then [] else Zeros(k - 1) + ['0']
  }

  /** .NET standard format "D<width>" of a non-negative integer. */
  function PadDigits(n: nat, width: nat): (s: string)
    ensures IsDigits(s)
    ensures |s| == if |Digits(n)| < width then width else |Digits(n)|
    ensures |Digits(n)| >= width ==> s == Digits(n)
  {
    var d := Digits(n);
    if |d| < width then Zeros(width - |d|) + d else d
  }

  /** Reading back the shortest representation gives the number. */
  lemma {:induction false} ParseDigits(n: nat)
    ensures Parse(Digits(n)) == n
  {
    if n >= 10 {
      var s := Digits(n);
      assert s[..|s| - 1] == Digits(n / 10);
      ParseDigits(n / 10);
    }
  }

  /** Leading zeros do not change the value of a digit string. */
  lemma {:induction false} ParseLeadingZeros(k: nat, s: string)
    requires IsDigits(s)
    ensures IsDigits(Zeros(k) + s)
    ensures Parse(Zeros(k) + s) == Parse(s)
  {
    var z := Zeros(k) + s;
    if s == [] {
      assert z == Zeros(k);
      ZerosParse(k);
    } else {
      assert z[..|z| - 1] == Zeros(k) + s[..|s| - 1];
      ParseLeadingZeros(k, s[..|s| - 1]);
    }
  }

  lemma {:induction false} ZerosParse(k: nat)
    ensures Parse(Zeros(k)) == 0
  {
    if k > 0 {
      assert Zeros(k)[..k - 1] == Zeros(k - 1);
      ZerosParse(k - 1);
    }
  }

  /** Padding never loses the value: "D<width>" reads back as `n` for every
      width, so a number wider than `width` is not truncated. */
  lemma {:induction false} PadDigitsRoundTrip(n: nat, width: nat)
    ensures Parse(PadDigits(n, width)) == n
  {
    var d := Digits(n);
    ParseDigits(n);
    if |d| < width {
      ParseLeadingZeros(width - |d|, d);
      assert PadDigits(n, width) == Zeros(width - |d|) + d;
    } else {
      assert PadDigits(n, width) == d;
    }
  }

  /** `n` has at most `k` digits exactly when it is below 10^k. */
  lemma {:induction false} DigitsLength(n: nat, k: nat)
    requires k >= 1
    ensures |Digits(n)| <= k <==> n < Pow10(k)
  {
    if n >= 10 {
      if k == 1 {
        assert |Digits(n)| == |Digits(n / 10)| + 1;
      } else {
        DigitsLength(n / 10, k - 1);
        assert n / 10 < Pow10(k - 1) <==> n < Pow10(k);
      }
    } else {
      PowGrows(k);
    }
  }

  lemma {:induction false} PowGrows(k: nat)
    requires k >= 1
    ensures Pow10(k) >= 10
  {
    if k > 1 {
      PowGrows(k - 1);
    }
  }

  /** "D<width>" has exactly `width` characters when the value fits in that
      many digits, and otherwise is the full, untruncated representation. */
  lemma {:induction false} PadDigitsLength(n: nat, width: nat)
    requires width >= 1
    ensures n < Pow10(width) ==> |PadDigits(n, width)| == width
    ensures n >= Pow10(width) ==> PadDigits(n, width) == Digits(n) && |Digits(n)| > width
  {
    DigitsLength(n, width);
  }
}
