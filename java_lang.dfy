/**
 * The few `java.lang` behaviours the join definition relies on: nullable
 * strings, `int`, `String.equalsIgnoreCase`, `String.toLowerCase`,
 * `Integer.toString`, `Boolean.toString`/`Boolean.parseBoolean` and
 * `String.compareTo`.
 */
module JavaLang {
  import opened Wrappers

  /** A Java `String` reference: `None` is `null`. */
  type JString = Option<string>

  const MinInt: int := -0x8000_0000
  const MaxInt: int := 0x7fff_ffff

  /** A Java `int`. */
  type Int32 = x: int | MinInt <= x <= MaxInt

  /** Lower-cases one character (ASCII letters only). */
  function LowerAscii(c: char): char {
    if 'A' <= c <= 'Z' then (c as int + 32) as char else c
  }

  /** `s.toLowerCase()`, restricted to ASCII letters. */
  function ToLowerAscii(s: string): string {
    seq(|s|, i requires 0 <= i < |s| => LowerAscii(s[i]))
  }

  /** `a.equalsIgnoreCase(b)`: false for a null `b`, otherwise same length and equal letter by letter up to case. */
  predicate EqualsIgnoreCase(a: string, b: JString) {
    && b.Some?
    && |a| == |b.value|
    && forall i :: 0 <= i < |a| ==> LowerAscii(a[i]) == LowerAscii(b.value[i])
  }

  /** `StringUtils.isEmpty(s)`: null or of length zero. */
  predicate IsEmpty(s: JString) {
    s.None? || s.value == ""
  }

  /** `StringUtils.fastConcat(a, b)`: the concatenation, a null part contributing nothing. */
  function FastConcat(a: JString, b: JString): string {
    a.GetOr("") + b.GetOr("")
  }

  // ---------------------------------------------------------------- decimal

  predicate IsDigit(c: char) {
    '0' <= c <= '9'
  }

  predicate AllDigits(s: string) {
    forall i :: 0 <= i < |s| ==> IsDigit(s[i])
  }

  function DigitChar(d: nat): (c: char)
    requires d < 10
    ensures IsDigit(c) && c as int - '0' as int == d
  {
    (d + '0' as int) as char
  }

  /** The decimal digits of `n`, without sign or leading zeros. */
  function NaturalToString(n: nat): (s: string)
    ensures |s| >= 1 && AllDigits(s)
    ensures s[0] == '0' ==> n == 0
    decreases n
  {
    if n < 10 then [DigitChar(n)] else NaturalToString(n / 10) + [DigitChar(n % 10)]
  }

  /** `Integer.toString(n)`: a minus sign for negative values, then the digits of the magnitude. */
  function IntegerToString(n: int): string {
    if n < 0 then "-" + NaturalToString(-n) else NaturalToString(n)
  }

  /** The value of a string of decimal digits. */
  function DigitsValue(s: string): nat
    requires AllDigits(s)
    decreases |s|
  {
    if s == [] then 0 else DigitsValue(s[..|s| - 1]) * 10 + (s[|s| - 1] as int - '0' as int)
  }

  /** Reads back a decimal integer in the form `IntegerToString` writes; the inverse used to state what that form determines. */
  function ParseDecimal(s: string): Option<int> {
    if |s| >= 2 && s[0] == '-' && AllDigits(s[1..]) then Some(-(DigitsValue(s[1..]) as int))
    else if |s| >= 1 && AllDigits(s) then Some(DigitsValue(s))
    else None
  }

  lemma {:induction false} DigitsOfNatural(n: nat)
    ensures DigitsValue(NaturalToString(n)) == n
    decreases n
  {
    if n >= 10 {
      var s := NaturalToString(n);
      assert s[..|s| - 1] == NaturalToString(n / 10);
      DigitsOfNatural(n / 10);
    }
  }

  /** Reading back `Integer.toString(n)` gives `n`, for every integer including 0 and negatives. */
  lemma IntegerToStringRoundTrip(n: int)
    ensures ParseDecimal(IntegerToString(n)) == Some(n)
  {
    if n < 0 {
      var s := IntegerToString(n);
      assert s[1..] == NaturalToString(-n);
      DigitsOfNatural(-n);
    } else {
      DigitsOfNatural(n);
    }
  }

  // ---------------------------------------------------------------- boolean

  /** `Boolean.toString(b)`. */
  function BooleanToString(b: bool): string {
    if b then "true" else "false"
  }

  /** `Boolean.parseBoolean(s)`: true exactly for "true" in any case; false for null and anything else. */
  function ParseBoolean(s: JString): (b: bool)
    ensures b <==> s.Some? && ToLowerAscii(s.value) == "true"
  {
    EqualsIgnoreCase("true", s)
  }

  /** `Boolean.parseBoolean(Boolean.toString(b)) == b`. */
  lemma ParseBooleanRoundTrip(b: bool)
    ensures ParseBoolean(Some(BooleanToString(b))) == b
  {
  }

  // ------------------------------------------------------------ comparison

  /**
   * `a.compareTo(b)`: the difference of the first pair of characters that
   * differ, or the difference of the lengths when one string is a prefix of
   * the other.
   */
  function CompareStrings(a: string, b: string): int
    decreases |a|
  {
    if a == [] || b == [] then |a| - |b|
    else if a[0] != b[0] then a[0] as int - b[0] as int
    else CompareStrings(a[1..], b[1..])
  }

  /** `compareTo` returns 0 exactly on equal strings. */
  lemma {:induction false} CompareStringsZeroIff(a: string, b: string)
    ensures CompareStrings(a, b) == 0 <==> a == b
    decreases |a|
  {
    if a != [] && b != [] && a[0] == b[0] {
      CompareStringsZeroIff(a[1..], b[1..]);
      assert a == [a[0]] + a[1..] && b == [b[0]] + b[1..];
    }
  }

  /** Swapping the operands negates the result. */
  lemma {:induction false} CompareStringsAntisymmetric(a: string, b: string)
    ensures CompareStrings(a, b) == -CompareStrings(b, a)
    decreases |a|
  {
    if a != [] && b != [] && a[0] == b[0] {
      CompareStringsAntisymmetric(a[1..], b[1..]);
    }
  }

  /** The order `compareTo` defines is transitive. */
  lemma {:induction false} CompareStringsTransitive(a: string, b: string, c: string)
    requires CompareStrings(a, b) < 0 && CompareStrings(b, c) < 0
    ensures CompareStrings(a, c) < 0
    decreases |a|
  {
    if a != [] && b != [] && c != [] && a[0] == b[0] && b[0] == c[0] {
      CompareStringsTransitive(a[1..], b[1..], c[1..]);
    }
  }
}
