/** The .NET string operations the library relies on: `string.IsNullOrWhiteSpace`,
    `ToUpper`, ordinal and ordinal-ignore-case equality and comparison, and the
    decimal rendering of an `int` used in an exception message. */
module Text {
  import opened Wrappers

  /** `char.IsWhiteSpace`: the Unicode separators plus the control characters
      U+0009..U+000D and U+0085. */
  predicate IsWhiteSpace(c: char) {
    var n := c as int;
    n == 0x20 || (0x09 <= n <= 0x0D) || n == 0x85 || n == 0xA0 || n == 0x1680
    || (0x2000 <= n <= 0x200A) || n == 0x2028 || n == 0x2029 || n == 0x202F
    || n == 0x205F || n == 0x3000
  }

  /** `string.IsNullOrWhiteSpace`; a null string is represented by "", which takes
      the same branch everywhere the library tests it. */
  predicate IsNullOrWhiteSpace(s: string) {
    forall i | 0 <= i < |s| :: IsWhiteSpace(s[i])
  }

  predicate IsAsciiLower(c: char) {
    'a' <= c <= 'z'
  }

  /** Upper-casing of one character (ASCII letters only). */
  function ToUpperChar(c: char): (u: char)
    ensures IsAsciiLower(c) ==> u as int == c as int - 32
    ensures !IsAsciiLower(c) ==> u == c
    ensures !IsAsciiLower(u)
  {
    if IsAsciiLower(c) then (c as int - 32) as char else c
  }

  /** `string.ToUpper()`, character by character. */
  function ToUpper(s: string): string {
    seq(|s|, i requires 0 <= i < |s| => ToUpperChar(s[i]))
  }

  /** A string that upper-casing leaves as it is. */
  predicate IsUpperCase(s: string) {
    ToUpper(s) == s
  }

  lemma ToUpperIdempotent(s: string)
    ensures IsUpperCase(ToUpper(s))
  {
    var u := ToUpper(s);
    assert forall i | 0 <= i < |u| :: ToUpperChar(u[i]) == u[i];
  }

  /** `string.Equals(a, b, comparison)` with `StringComparison.OrdinalIgnoreCase`
      when `ignoreCase` holds and `StringComparison.Ordinal` otherwise. */
  predicate Equals(a: string, b: string, ignoreCase: bool) {
    if ignoreCase then ToUpper(a) == ToUpper(b) else a == b
  }

  /** Ordinal comparison: lexicographic on code units. Only the sign of .NET's
      result is modelled. */
  function CompareOrdinal(a: string, b: string): (r: int)
    ensures -1 <= r <= 1
    ensures |a| == 0 && |b| > 0 ==> r == -1
    ensures |a| > 0 && |b| == 0 ==> r == 1
  {
    if |a| == 0 && |b| == 0 then 0
    else if |a| == 0 then -1
    else if |b| == 0 then 1
    else if a[0] < b[0] then -1
    else if a[0] > b[0] then 1
    else CompareOrdinal(a[1..], b[1..])
  }

  /** `string.Compare(a, b, comparison)` where `b` may be null: a non-null string
      sorts after null. */
  function Compare(a: string, b: Option<string>, ignoreCase: bool): int {
    match b
    case None => 1
    case Some(s) => if ignoreCase then CompareOrdinal(ToUpper(a), ToUpper(s)) else CompareOrdinal(a, s)
  }

  lemma {:induction false} CompareOrdinalZeroIff(a: string, b: string)
    ensures CompareOrdinal(a, b) == 0 <==> a == b
    decreases |a|
  {
    if |a| > 0 && |b| > 0 && a[0] == b[0] {
      CompareOrdinalZeroIff(a[1..], b[1..]);
      assert a == [a[0]] + a[1..];
      assert b == [b[0]] + b[1..];
    } else if |a| > 0 && |b| > 0 {
      assert a[0] != b[0];
    }
  }

  /** `Compare(a, b, c) == 0` is the same test as `Equals(a, b, c)`, and it fails
      whenever `b` is null. */
  lemma CompareZeroIffEquals(a: string, b: Option<string>, ignoreCase: bool)
    ensures Compare(a, b, ignoreCase) == 0 <==> b.Some? && Equals(a, b.value, ignoreCase)
  {
    if b.Some? {
      if ignoreCase {
        CompareOrdinalZeroIff(ToUpper(a), ToUpper(b.value));
      } else {
        CompareOrdinalZeroIff(a, b.value);
      }
    }
  }

  /** Ignore-case equality accepts a lower-case answer for an upper-case code, and
      ordinal equality rejects it. */
  lemma CaseSensitivityExample()
    ensures Equals("abcd", "ABCD", true)
    ensures !Equals("abcd", "ABCD", false)
  {
    assert ToUpper("abcd") == "ABCD";
    assert ToUpper("ABCD") == "ABCD";
  }

  function DigitChar(d: int): char
    requires 0 <= d < 10
  {
    "0123456789"[d]
  }

  /** Decimal digits of a natural number, most significant first. */
  function NatToString(n: nat): (s: string)
    ensures |s| >= 1
    ensures forall i | 0 <= i < |s| :: '0' <= s[i] <= '9'
  {
    if n < 10 then [DigitChar(n)] else NatToString(n / 10) + [DigitChar(n % 10)]
  }

  /** Decimal rendering of an `int` by string interpolation, under a culture whose
      negative sign is '-'. */
  function IntToString(n: int): string {
    if n < 0 then "-" + NatToString(-n) else NatToString(n)
  }
}
