/** Human-readable order numbers "ORD-<yyyy>-<suffix>". The layered service
    numbers orders sequentially (suffix = the next id in format "D5"), the
    flat controller with the first eight characters of a fresh GUID, and the
    seed with its loop index in format "D5". */
module OrderNumbers {
  import opened Wrappers
  import opened Format

  /** Length of "ORD-yyyy-", the part before the suffix. */
  const PrefixLength: nat := 9

  /** "ORD-" + the year as "yyyy" + "-" + suffix. A `DateTime` year is in
      1..9999, so "yyyy" is always exactly four digits. */
  function OrderNumber(year: nat, suffix: string): (s: string)
    requires year <= 9999
    ensures |s| == PrefixLength + |suffix|
    ensures s[..4] == "ORD-" && s[8] == '-' && s[PrefixLength..] == suffix
    ensures IsDigits(s[4..8]) && Parse(s[4..8]) == year
  {
    PadDigitsLength(year, 4);
    PadDigitsRoundTrip(year, 4);
    var y := PadDigits(year, 4);
    var s := "ORD-" + y + "-" + suffix;
    assert s[4..8] == y;
    s
  }

  /** The layered service's number for sequence value `next`: "ORD-yyyy-" and
      `next` in format "D5". */
  function SequentialNumber(year: nat, next: nat): (s: string)
    requires year <= 9999
    ensures |s| >= PrefixLength + 5
    ensures next < 100000 ==> |s| == PrefixLength + 5
    ensures next >= 100000 ==> s[PrefixLength..] == Digits(next)
  {
    PadDigitsLength(next, 5);
    OrderNumber(year, PadDigits(next, 5))
  }

  /** The flat controller's number: "ORD-yyyy-" and the first eight
      characters of a GUID in format "N" (32 hexadecimal digits). */
  function TokenNumber(year: nat, guid: string): (s: string)
    requires year <= 9999 && |guid| == 32
    ensures |s| == PrefixLength + 8 && s[PrefixLength..] == guid[..8]
  {
    OrderNumber(year, guid[..8])
  }

  /** The sequence value encoded in a sequential order number, if its suffix
      is a digit string. */
  function SequenceOf(number: string): Option<nat>
  {
    if |number| > PrefixLength && IsDigits(number[PrefixLength..]) then Some(Parse(number[PrefixLength..])) else None
  }

  /** A sequential number reads back as its sequence value, whether or not
      the value fits in five digits. */
  lemma SequenceOfSequentialNumber(year: nat, next: nat)
    requires year <= 9999
    ensures SequenceOf(SequentialNumber(year, next)) == Some(next)
  {
    PadDigitsRoundTrip(next, 5);
    assert |Digits(next)| >= 1;
  }

  /** Sequential numbers are distinct for distinct (year, sequence) pairs. */
  lemma SequentialNumberInjective(y1: nat, n1: nat, y2: nat, n2: nat)
    requires y1 <= 9999 && y2 <= 9999
    ensures SequentialNumber(y1, n1) == SequentialNumber(y2, n2) <==> y1 == y2 && n1 == n2
  {
    if SequentialNumber(y1, n1) == SequentialNumber(y2, n2) {
      SequenceOfSequentialNumber(y1, n1);
      SequenceOfSequentialNumber(y2, n2);
    }
  }
}
