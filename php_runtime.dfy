/** The few pieces of PHP's runtime the notification workflow relies on:
    trim(), the (int) cast of a string, the decimal rendering of an int
    inside string concatenation, and the falsiness of a string under
    empty() and the ?: operator. */
module PhpRuntime {

  // ---------------------------------------------------------------- trim()

  /** The characters trim() strips by default: space, tab, line feed,
      carriage return, NUL and vertical tab. */
  predicate IsTrimChar(c: char) {
    c == ' ' || c == '\t' || c == '\n' || c == '\r' || c == '\0' || c == '\U{B}'
  }

  /** Every character of s would be stripped by trim(). */
  predicate AllTrimChars(s: string) {
    forall i :: 0 <= i < |s| ==> IsTrimChar(s[i])
  }

  /** Strips the leading run of trim characters: the result is the suffix of
      s that starts at the first character trim() keeps. */
  function TrimLeft(s: string): (r: string)
    ensures |r| <= |s| && r == s[|s| - |r|..]
    ensures AllTrimChars(s[..|s| - |r|])
    ensures r == [] || !IsTrimChar(r[0])
  {
    if |s| > 0 && IsTrimChar(s[0]) then
      var r := TrimLeft(s[1..]);
      assert s[..|s| - |r|] == [s[0]] + s[1..][..|s| - 1 - |r|];
      r
    else
      s
  }

  /** Strips the trailing run of trim characters: the result is the prefix of
      s that ends at the last character trim() keeps. */
  function TrimRight(s: string): (r: string)
    ensures |r| <= |s| && r == s[..|r|]
    ensures AllTrimChars(s[|r|..])
    ensures r == [] || !IsTrimChar(r[|r| - 1])
  {
    if |s| > 0 && IsTrimChar(s[|s| - 1]) then
      var r := TrimRight(s[..|s| - 1]);
      assert s[|r|..] == s[..|s| - 1][|r|..] + [s[|s| - 1]];
      r
    else
      s
  }

  /** PHP's trim($s). The result neither starts nor ends with a trim
      character, and it is empty exactly when s consists of trim characters
      only. */
  function Trim(s: string): (r: string)
    ensures |r| <= |s|
    ensures r == [] || (!IsTrimChar(r[0]) && !IsTrimChar(r[|r| - 1]))
    ensures r == [] <==> AllTrimChars(s)
  {
    var left := TrimLeft(s);
    var r := TrimRight(left);
    assert r != [] ==> r[0] == left[0];
    assert r == [] ==> AllTrimChars(left) by {
      if r == [] { assert left[|r|..] == left; }
    }
    assert AllTrimChars(left) ==> AllTrimChars(s) by {
      if AllTrimChars(left) {
        assert s == s[..|s| - |left|] + left;
        forall i | 0 <= i < |s| ensures IsTrimChar(s[i]) {
          if i < |s| - |left| {
            assert s[i] == s[..|s| - |left|][i];
          }
        }
      }
    }
    r
  }

  /** trim($s) === '' : the string is absent for the purposes of the source's
      emptiness checks. */
  predicate IsBlank(s: string) {
    Trim(s) == []
  }

  /** A string that does not start with a trim character is its own TrimLeft. */
  lemma TrimLeftFixed(r: string)
    requires r == [] || !IsTrimChar(r[0])
    ensures TrimLeft(r) == r
  {
  }

  /** A string that does not end with a trim character is its own TrimRight. */
  lemma TrimRightFixed(r: string)
    requires r == [] || !IsTrimChar(r[|r| - 1])
    ensures TrimRight(r) == r
  {
  }

  /** A string that neither starts nor ends with a trim character is its
      own trim. */
  lemma TrimOfTrimmed(r: string)
    requires r == [] || (!IsTrimChar(r[0]) && !IsTrimChar(r[|r| - 1]))
    ensures Trim(r) == r
  {
    TrimLeftFixed(r);
    TrimRightFixed(r);
  }

  /** Trimming twice is trimming once. */
  lemma TrimIdempotent(s: string)
    ensures Trim(Trim(s)) == Trim(s)
  {
    TrimOfTrimmed(Trim(s));
  }

  // ------------------------------------------------- (int) cast of a string

  /** The white space the (int) cast skips before the number. */
  predicate IsCastSpace(c: char) {
    c == ' ' || c == '\t' || c == '\n' || c == '\r' || c == '\U{B}' || c == '\U{C}'
  }

  function SkipSpace(s: string): (r: string)
    ensures |r| <= |s| && r == s[|s| - |r|..]
    ensures r == [] || !IsCastSpace(r[0])
  {
    if |s| > 0 && IsCastSpace(s[0]) then SkipSpace(s[1..]) else s
  }

  predicate IsDigit(c: char) {
    '0' <= c <= '9'
  }

  predicate AllDigits(s: string) {
    forall i :: 0 <= i < |s| ==> IsDigit(s[i])
  }

  /** The longest prefix of s made of decimal digits. */
  function DigitPrefix(s: string): (r: string)
    ensures |r| <= |s| && r == s[..|r|]
    ensures AllDigits(r)
    ensures |r| == |s| || !IsDigit(s[|r|])
  {
    if |s| > 0 && IsDigit(s[0]) then [s[0]] + DigitPrefix(s[1..]) else []
  }

  function DigitValue(c: char): nat
    requires IsDigit(c)
  {
    c as int - '0' as int
  }

  /** The number a string of decimal digits denotes (0 for the empty one). */
  function DigitsValue(d: string): nat
    requires AllDigits(d)
  {
    if d == [] then 0 else 10 * DigitsValue(d[..|d| - 1]) + DigitValue(d[|d| - 1])
  }

  /** The range of a PHP int on a 64-bit build. */
  const PHP_INT_MAX: int := 0x7fff_ffff_ffff_ffff
  const PHP_INT_MIN: int := -0x8000_0000_0000_0000

  /** An integer string beyond the 64-bit range casts to the nearest bound. */
  function Saturate(n: int): (r: int)
    ensures PHP_INT_MIN <= r <= PHP_INT_MAX
    ensures PHP_INT_MIN <= n <= PHP_INT_MAX ==> r == n
    ensures n > PHP_INT_MAX ==> r == PHP_INT_MAX
    ensures n < PHP_INT_MIN ==> r == PHP_INT_MIN
  {
    if n > PHP_INT_MAX then PHP_INT_MAX else if n < PHP_INT_MIN then PHP_INT_MIN else n
  }

  /** (int)$s for a string $s: leading white space is skipped, an optional
      sign and the digits after it are read, and anything else stops the
      reading; a string with no leading digits casts to 0. */
  function IntCast(s: string): (r: int)
    ensures PHP_INT_MIN <= r <= PHP_INT_MAX
  {
    var t := SkipSpace(s);
    if |t| > 0 && t[0] == '-' then Saturate(-(DigitsValue(DigitPrefix(t[1..])) as int))
    else if |t| > 0 && t[0] == '+' then Saturate(DigitsValue(DigitPrefix(t[1..])))
    else Saturate(DigitsValue(DigitPrefix(t)))
  }

  // ---------------------------------------- decimal rendering of an int

  function DigitChar(d: nat): (c: char)
    requires d < 10
    ensures IsDigit(c) && DigitValue(c) == d
  {
    ('0' as int + d) as char
  }

  /** The decimal digits of n, most significant first, without leading zeros. */
  function NatToString(n: nat): (r: string)
    ensures |r| > 0 && AllDigits(r)
    ensures DigitsValue(r) == n
    ensures r[0] == '0' ==> n == 0
  {
    if n < 10 then
      [DigitChar(n)]
    else
      var r := NatToString(n / 10) + [DigitChar(n % 10)];
      assert r[..|r| - 1] == NatToString(n / 10);
      r
  }

  /** How PHP renders an int when it is concatenated into a string. */
  function IntToString(n: int): (r: string)
    ensures |r| > 0 && !IsTrimChar(r[0]) && !IsCastSpace(r[0])
    ensures n >= 0 <==> IsDigit(r[0])
    ensures n < 0 ==> r[0] == '-' && r[1..] == NatToString(-n)
  {
    if n < 0 then "-" + NatToString(-n) else NatToString(n)
  }

  /** The (int) cast reads back what IntToString wrote, for every int a
      64-bit PHP int can hold. */
  lemma IntCastRoundTrip(n: int)
    requires PHP_INT_MIN <= n <= PHP_INT_MAX
    ensures IntCast(IntToString(n)) == n
  {
    var s := IntToString(n);
    assert SkipSpace(s) == s;
    if n < 0 {
      var digits := NatToString(-n);
      assert s[1..] == digits;
      DigitPrefixOfDigits(digits);
    } else {
      DigitPrefixOfDigits(s);
    }
  }

  lemma DigitPrefixOfDigits(s: string)
    requires AllDigits(s)
    ensures DigitPrefix(s) == s
  {
  }

  /** The digits in front of anything that is not a digit are the whole
      digit prefix. */
  lemma {:induction false} DigitPrefixOfConcat(d: string, rest: string)
    requires AllDigits(d)
    requires rest == [] || !IsDigit(rest[0])
    ensures DigitPrefix(d + rest) == d
  {
    if d != [] {
      assert (d + rest)[1..] == d[1..] + rest;
      DigitPrefixOfConcat(d[1..], rest);
    }
  }

  /** What the cast reads once the white space and an optional sign are
      skipped. */
  function CastDigitsStart(s: string): string {
    var t := SkipSpace(s);
    if |t| > 0 && (t[0] == '-' || t[0] == '+') then t[1..] else t
  }

  /** A string with no digit where the number would start casts to 0: "",
      "abc", " -x". */
  lemma NonNumericCastsToZero(s: string)
    requires CastDigitsStart(s) == [] || !IsDigit(CastDigitsStart(s)[0])
    ensures IntCast(s) == 0
  {
  }

  /** A digit string followed by anything that does not start with a digit
      casts to the digits' value: "12abc" casts to 12. */
  lemma LeadingDigitsCast(d: string, rest: string)
    requires d != [] && AllDigits(d) && DigitsValue(d) <= PHP_INT_MAX
    requires rest == [] || !IsDigit(rest[0])
    ensures IntCast(d + rest) == DigitsValue(d)
  {
    assert SkipSpace(d + rest) == d + rest by {
      assert (d + rest)[0] == d[0];
    }
    DigitPrefixOfConcat(d, rest);
  }

  /** The cast skips leading white space: " 12" casts as "12" does. */
  lemma CastSkipsSpace(c: char, s: string)
    requires IsCastSpace(c)
    ensures IntCast([c] + s) == IntCast(s)
  {
    assert ([c] + s)[1..] == s;
  }

  // ----------------------------------------------------- falsy strings

  /** empty($s) and the falsiness ?: tests, for a string: '' and '0'. */
  predicate IsFalsyString(s: string) {
    s == "" || s == "0"
  }
}
