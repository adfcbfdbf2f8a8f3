/**
 * The few pieces of JavaScript string semantics the application relies on:
 * `String.prototype.trim`, truthiness of a `string | null`, and the decimal
 * text that a template literal produces for an integral number.
 */
module JsText {
  import opened Opt

  // ---------------------------------------------------------------------------
  // String.prototype.trim
  // ---------------------------------------------------------------------------

  /**
   * The code points `trim` removes: ECMAScript WhiteSpace (TAB, VT, FF, SPACE,
   * NBSP, ZWNBSP and the Unicode "Zs" category) and LineTerminator (LF, CR,
   * LS, PS).
   */
  predicate IsJsWhitespace(c: char) {
    || c == '\t' || c == '\n' || c == '\U{000B}' || c == '\U{000C}' || c == '\r'
    || c == ' ' || c == '\U{00A0}' || c == '\U{1680}'
    || ('\U{2000}' <= c <= '\U{200A}')
    || c == '\U{2028}' || c == '\U{2029}' || c == '\U{202F}' || c == '\U{205F}'
    || c == '\U{3000}' || c == '\U{FEFF}'
  }

  predicate AllWhitespace(s: string) {
    forall k :: 0 <= k < |s| ==> IsJsWhitespace(s[k])
  }

  /** `r` sits at index `i` of `s`, with nothing but whitespace around it. */
  ghost predicate InfixAmidSpace(s: string, i: int, r: string) {
    && 0 <= i <= |s| - |r|
    && s[i..i + |r|] == r
    && (forall k :: 0 <= k < i ==> IsJsWhitespace(s[k]))
    && (forall k :: i + |r| <= k < |s| ==> IsJsWhitespace(s[k]))
  }

  /** Neither end of `r` is whitespace (vacuously so for the empty string). */
  predicate NoOuterWhitespace(r: string) {
    r == [] || (!IsJsWhitespace(r[0]) && !IsJsWhitespace(r[|r| - 1]))
  }

  /** Where the trimmed text starts: the first index from `i` on that is not whitespace, or `|s|`. */
  function SkipSpaceForward(s: string, i: nat): (j: nat)
    requires i <= |s|
    ensures i <= j <= |s|
    ensures forall k :: i <= k < j ==> IsJsWhitespace(s[k])
    ensures j == |s| || !IsJsWhitespace(s[j])
    decreases |s| - i
  {
    if i < |s| && IsJsWhitespace(s[i]) then SkipSpaceForward(s, i + 1) else i
  }

  /** Where the trimmed text ends: the last index down to `lo` that follows a non-whitespace character, or `lo`. */
  function SkipSpaceBackward(s: string, lo: nat, e: nat): (j: nat)
    requires lo <= e <= |s|
    ensures lo <= j <= e
    ensures forall k :: j <= k < e ==> IsJsWhitespace(s[k])
    ensures j == lo || !IsJsWhitespace(s[j - 1])
    decreases e
  {
    if lo < e && IsJsWhitespace(s[e - 1]) then SkipSpaceBackward(s, lo, e - 1) else e
  }

  /** `s.trim()`. */
  function Trim(s: string): (r: string)
    ensures exists i :: InfixAmidSpace(s, i, r)
    ensures NoOuterWhitespace(r)
    ensures r == [] <==> AllWhitespace(s)
  {
    var i := SkipSpaceForward(s, 0);
    var j := SkipSpaceBackward(s, i, |s|);
    assert InfixAmidSpace(s, i, s[i..j]);
    assert i == j ==> i == |s|;
    s[i..j]
  }

  /**
   * `trim` has one possible result: any infix of `s` that has only whitespace
   * around it and none at its ends is `Trim(s)`.
   */
  lemma TrimUnique(s: string, i: int, r: string)
    requires InfixAmidSpace(s, i, r) && NoOuterWhitespace(r)
    ensures r == Trim(s)
  {
    if r == [] {
      assert AllWhitespace(s);
    } else {
      var a := SkipSpaceForward(s, 0);
      var e := i + |r|;
      assert s[i] == r[0] && s[e - 1] == r[|r| - 1];
      assert a == i;
      var b := SkipSpaceBackward(s, a, |s|);
      assert b == e;
    }
  }

  /** A string with no whitespace at either end is its own trim. */
  lemma TrimKeepsUntrimmed(s: string)
    requires NoOuterWhitespace(s)
    ensures Trim(s) == s
  {
    assert s[0..0 + |s|] == s;
    TrimUnique(s, 0, s);
  }

  /** Trimming twice is trimming once. */
  lemma TrimIdempotent(s: string)
    ensures Trim(Trim(s)) == Trim(s)
  {
    TrimKeepsUntrimmed(Trim(s));
  }

  // ---------------------------------------------------------------------------
  // Truthiness of `string | null`
  // ---------------------------------------------------------------------------

  /** `!!k`: both `null` and `""` are falsy. */
  predicate IsTruthy(k: Option<string>) {
    k.Some? && k.value != ""
  }

  /** `k || ""`: the text shown for a stored value that may be null. */
  function OrEmpty(k: Option<string>): (r: string)
    ensures r == "" <==> !IsTruthy(k)
    ensures IsTruthy(k) ==> r == k.value
  {
    if IsTruthy(k) then k.value else ""
  }

  /** `s || null`: the empty string becomes null. */
  function EmptyToNull(s: string): (r: Option<string>)
    ensures r.None? <==> s == ""
    ensures r.Some? ==> r.value == s
  {
    if s == "" then None else Some(s)
  }

  // ---------------------------------------------------------------------------
  // Decimal text of an integral number (`${n}`)
  // ---------------------------------------------------------------------------

  predicate IsDigit(c: char) {
    '0' <= c <= '9'
  }

  predicate AllDigits(s: string) {
    forall k :: 0 <= k < |s| ==> IsDigit(s[k])
  }

  function DigitChar(d: nat): (c: char)
    requires d < 10
    ensures IsDigit(c)
  {
    ('0' as int + d) as char
  }

  function DigitValue(c: char): (d: nat)
    requires IsDigit(c)
    ensures d < 10
  {
    c as int - '0' as int
  }

  lemma DigitCharOfValue(c: char)
    requires IsDigit(c)
    ensures DigitChar(DigitValue(c)) == c
  {
  }

  /** Digits as a number is written: no leading zero, unless the number is zero itself. */
  predicate IsCanonicalDecimal(d: string) {
    d != [] && AllDigits(d) && (d[0] != '0' || d == "0")
  }

  /** The decimal digits of `n`, most significant first, with no leading zero. */
  function NatToDecimal(n: nat): (r: string)
    ensures IsCanonicalDecimal(r)
    ensures r == "0" <==> n == 0
    decreases n
  {
    if n < 10 then [DigitChar(n)] else NatToDecimal(n / 10) + [DigitChar(n % 10)]
  }

  /** The number a string of decimal digits denotes. */
  function DigitsValue(s: string): nat
    requires AllDigits(s)
  {
    if s == [] then 0 else DigitsValue(s[..|s| - 1]) * 10 + DigitValue(s[|s| - 1])
  }

  lemma {:induction false} DigitsValueOfDecimal(n: nat)
    ensures DigitsValue(NatToDecimal(n)) == n
    decreases n
  {
    var r := NatToDecimal(n);
    if n >= 10 {
      var prefix := NatToDecimal(n / 10);
      assert r[..|r| - 1] == prefix;
      DigitsValueOfDecimal(n / 10);
    }
  }

  /** Digits that do not start with a zero denote a positive number. */
  lemma {:induction false} LeadingDigitPositive(d: string)
    requires d != [] && AllDigits(d) && d[0] != '0'
    ensures DigitsValue(d) >= 1
    decreases |d|
  {
    if |d| > 1 {
      var p := d[..|d| - 1];
      assert p[0] == d[0];
      LeadingDigitPositive(p);
    }
  }

  /** Canonical digits are the decimal text of the number they denote. */
  lemma {:induction false} DecimalOfDigitsValue(d: string)
    requires IsCanonicalDecimal(d)
    ensures NatToDecimal(DigitsValue(d)) == d
    decreases |d|
  {
    var c := d[|d| - 1];
    DigitCharOfValue(c);
    if |d| == 1 {
      assert d[..0] == [] && d == [c];
    } else {
      var p := d[..|d| - 1];
      assert p[0] == d[0] && d[0] != '0';
      DecimalOfDigitsValue(p);
      LeadingDigitPositive(p);
      var n := DigitsValue(d);
      assert n / 10 == DigitsValue(p) && n % 10 == DigitValue(c);
      assert d == p + [c];
    }
  }

  /** How a template literal renders an integral number: a minus sign, then the digits. */
  function NumberToString(n: int): (r: string)
    ensures r != []
  {
    if n < 0 then "-" + NatToDecimal(-n) else NatToDecimal(n)
  }

  /** Reads back exactly the texts `NumberToString` writes; `None` for anything else, such as "07" or "-0". */
  function ParseInteger(s: string): Option<int> {
    if |s| >= 2 && s[0] == '-' && IsCanonicalDecimal(s[1..]) && s[1..] != "0" then Some(0 - DigitsValue(s[1..]))
    else if IsCanonicalDecimal(s) then Some(DigitsValue(s))
    else None
  }

  /** Distinct integers render as distinct text: the rendering has an inverse. */
  lemma NumberToStringRoundTrip(n: int)
    ensures ParseInteger(NumberToString(n)) == Some(n)
  {
    if n < 0 {
      DigitsValueOfDecimal(-n);
      ParseNegative(NatToDecimal(-n));
    } else {
      DigitsValueOfDecimal(n);
      ParseNonNegative(NatToDecimal(n));
    }
  }

  /** Only the rendering of an integer parses: whatever `ParseInteger` accepts is written as `NumberToString` writes it. */
  lemma ParsedIsRendered(s: string, n: int)
    requires ParseInteger(s) == Some(n)
    ensures s == NumberToString(n)
  {
    if |s| >= 2 && s[0] == '-' && IsCanonicalDecimal(s[1..]) && s[1..] != "0" {
      var d := s[1..];
      LeadingDigitPositive(d);
      DecimalOfDigitsValue(d);
      assert s == "-" + d;
    } else {
      DecimalOfDigitsValue(s);
    }
  }

  lemma ParseNonNegative(d: string)
    requires IsCanonicalDecimal(d)
    ensures ParseInteger(d) == Some(DigitsValue(d))
  {
    assert IsDigit(d[0]);
  }

  lemma ParseNegative(d: string)
    requires IsCanonicalDecimal(d) && d != "0"
    ensures ParseInteger("-" + d) == Some(0 - DigitsValue(d))
  {
    assert ("-" + d)[1..] == d;
  }
}
