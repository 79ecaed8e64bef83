/** The `java.lang.String` operations the core relies on, over `seq<char>`. */
module Text {

  /** `s.startsWith(p)` */
  predicate StartsWith(s: string, p: string) {
    |p| <= |s| && s[..|p|] == p
  }

  /** `k` occurs in `s` starting at index `i`. */
  predicate OccursAt(s: string, k: string, i: int) {
    0 <= i && i + |k| <= |s| && s[i..i + |k|] == k
  }

  /** `s.indexOf(k, from)`: the first occurrence of `k` at or after `from`, or -1. */
  function IndexOf(s: string, k: string, from: nat): (r: int)
    requires from <= |s|
    ensures r == -1 || (from <= r && OccursAt(s, k, r))
    ensures r == -1 ==> forall i :: from <= i ==> !OccursAt(s, k, i)
    ensures r >= 0 ==> forall i :: from <= i < r ==> !OccursAt(s, k, i)
    decreases |s| - from
  {
    if from + |k| > |s| then -1
    else if s[from..from + |k|] == k then from
    else IndexOf(s, k, from + 1)
  }

  /** `s.contains(k)` */
  predicate Contains(s: string, k: string) {
    IndexOf(s, k, 0) >= 0
  }

  lemma ContainsIff(s: string, k: string)
    ensures Contains(s, k) <==> exists i :: OccursAt(s, k, i)
  {
    if !Contains(s, k) {
      forall i ensures !OccursAt(s, k, i) {
        if 0 <= i { assert !OccursAt(s, k, i); }
      }
    }
  }

  lemma ContainsAt(s: string, k: string, i: int)
    requires OccursAt(s, k, i)
    ensures Contains(s, k)
  {
    ContainsIff(s, k);
  }

  /** Containment is transitive: a text containing `a` contains everything `a` contains. */
  lemma {:induction false} ContainsTransitive(s: string, a: string, b: string)
    requires Contains(s, a) && Contains(a, b)
    ensures Contains(s, b)
  {
    var i := IndexOf(s, a, 0);
    var j := IndexOf(a, b, 0);
    forall x | 0 <= x < |b| ensures s[i + j + x] == b[x] {
      assert a[j..j + |b|][x] == b[x];
      assert s[i..i + |a|][j + x] == a[j + x];
    }
    assert s[i + j..i + j + |b|] == b;
    ContainsAt(s, b, i + j);
  }

  /** A text contains itself. */
  lemma ContainsSelf(s: string)
    ensures Contains(s, s)
  {
    ContainsAt(s, s, 0);
  }

  /**
   * The lower-case mapping of `String.toLowerCase`, character by character:
   * the capitals of ASCII and Latin-1, and the capitals outside Latin-1
   * whose lower case lies in it or pairs with one of its letters.
   */
  function ToLowerChar(c: char): char {
    if 'A' <= c <= 'Z' || ('\U{00C0}' <= c <= '\U{00DE}' && c != '\U{00D7}') then
      (c as int + 32) as char
    else if c == '\U{0178}' then '\U{00FF}'
    else if c == '\U{039C}' then '\U{03BC}'
    else if c == '\U{1E9E}' then '\U{00DF}'
    else if c == '\U{212A}' then 'k'
    else if c == '\U{212B}' then '\U{00E5}'
    else c
  }

  /** `Character.toLowerCase`: as `ToLowerChar`, and the dotted capital I lowers to a plain `i`. */
  function CharLower(c: char): char {
    if c == '\U{0130}' then 'i' else ToLowerChar(c)
  }

  /** `Character.toUpperCase` over the same characters. */
  function CharUpper(c: char): char {
    if 'a' <= c <= 'z' || ('\U{00E0}' <= c <= '\U{00FE}' && c != '\U{00F7}') then
      (c as int - 32) as char
    else if c == '\U{00FF}' then '\U{0178}'
    else if c == '\U{00B5}' || c == '\U{03BC}' then '\U{039C}'
    else if c == '\U{0131}' then 'I'
    else if c == '\U{017F}' then 'S'
    else c
  }

  /** `s.toLowerCase()` */
  function ToLower(s: string): (r: string)
    ensures |r| == |s|
    ensures forall i :: 0 <= i < |s| ==> r[i] == ToLowerChar(s[i])
  {
    seq(|s|, i requires 0 <= i < |s| => ToLowerChar(s[i]))
  }

  /** Lower-casing twice is lower-casing once. */
  lemma ToLowerIdempotent(s: string)
    ensures ToLower(ToLower(s)) == ToLower(s)
  {
    assert forall i :: 0 <= i < |s| ==> ToLowerChar(ToLowerChar(s[i])) == ToLowerChar(s[i]);
  }

  /** A lower-cased string holds no ASCII capital letter. */
  lemma ToLowerNoAsciiCapital(s: string)
    ensures forall i :: 0 <= i < |ToLower(s)| ==> !('A' <= ToLower(s)[i] <= 'Z')
  {
  }

  /**
   * Two characters equal ignoring case, as `regionMatches(true, ...)`
   * compares them: equal, or equal upper cases, or equal lower cases of
   * the upper cases.
   */
  predicate CharsMatch(x: char, y: char) {
    x == y || CharUpper(x) == CharUpper(y) || CharLower(CharUpper(x)) == CharLower(CharUpper(y))
  }

  /** `a.equalsIgnoreCase(b)`: the same length and matching characters position by position. */
  predicate EqualsIgnoreCase(a: string, b: string) {
    |a| == |b| && forall i :: 0 <= i < |a| ==> CharsMatch(a[i], b[i])
  }

  /** `equalsIgnoreCase` is symmetric. */
  lemma EqualsIgnoreCaseSymmetric(a: string, b: string)
    ensures EqualsIgnoreCase(a, b) <==> EqualsIgnoreCase(b, a)
  {
  }

  /** A string equals its lower-cased form ignoring case. */
  lemma LowerEqualsIgnoreCase(s: string)
    ensures EqualsIgnoreCase(ToLower(s), s)
  {
    forall i | 0 <= i < |s| ensures CharsMatch(ToLower(s)[i], s[i]) {
      LowerCharMatches(s[i]);
    }
  }

  lemma LowerCharMatches(c: char)
    ensures CharsMatch(ToLowerChar(c), c)
  {
  }

  /** `Character.isWhitespace` */
  predicate IsWhitespace(c: char) {
    c == ' ' || c == '\t' || c == '\n' || c == '\U{000B}' || c == '\U{000C}' || c == '\r'
    || ('\U{001C}' <= c <= '\U{001F}')
    || c == '\U{1680}' || ('\U{2000}' <= c <= '\U{2006}') || ('\U{2008}' <= c <= '\U{200A}')
    || c == '\U{2028}' || c == '\U{2029}' || c == '\U{205F}' || c == '\U{3000}'
  }

  /** `s.isBlank()`: empty or only whitespace. */
  predicate IsBlank(s: string) {
    forall i :: 0 <= i < |s| ==> IsWhitespace(s[i])
  }

  /** Strips the leading characters at or below U+0020, as `String.trim` does. */
  function TrimStart(s: string): (r: string)
    ensures |r| <= |s| && r == s[|s| - |r|..]
    ensures r == [] || r[0] > ' '
    ensures forall i :: 0 <= i < |s| - |r| ==> s[i] <= ' '
  {
    if |s| > 0 && s[0] <= ' ' then TrimStart(s[1..]) else s
  }

  /** Strips the trailing characters at or below U+0020, as `String.trim` does. */
  function TrimEnd(s: string): (r: string)
    ensures |r| <= |s| && r == s[..|r|]
    ensures r == [] || r[|r| - 1] > ' '
    ensures forall i :: |r| <= i < |s| ==> s[i] <= ' '
  {
    if |s| > 0 && s[|s| - 1] <= ' ' then TrimEnd(s[..|s| - 1]) else s
  }

  /** `s.trim()` */
  function Trim(s: string): (r: string) {
    TrimEnd(TrimStart(s))
  }

  /** The trimmed text is a slice of the original. */
  lemma TrimIsSlice(s: string)
    ensures exists a, b :: 0 <= a <= b <= |s| && Trim(s) == s[a..b]
  {
    var t := TrimStart(s);
    var a := |s| - |t|;
    var r := TrimEnd(t);
    assert r == t[..|r|] && t == s[a..];
    assert Trim(s) == s[a..a + |r|];
  }

  /** No padding is left at either end of a trimmed text. */
  lemma TrimLeavesNoPadding(s: string)
    ensures Trim(s) == [] || (Trim(s)[0] > ' ' && Trim(s)[|Trim(s)| - 1] > ' ')
  {
    var t := TrimStart(s);
    var r := TrimEnd(t);
    if r != [] {
      assert r[0] == t[0];
    }
  }

  /** Every character of a trimmed text comes from the original. */
  lemma TrimChars(s: string, c: char)
    requires c in Trim(s)
    ensures c in s
  {
    var t := TrimStart(s);
    var r := TrimEnd(t);
    var i :| 0 <= i < |r| && r[i] == c;
    assert t[i] == c;
    assert s[|s| - |t| + i] == c;
  }

  /**
   * `s.replace(t, r)`: every non-overlapping occurrence of `t`, scanning
   * from the left, is replaced by `r`.
   */
  function ReplaceAll(s: string, t: string, r: string): string
    requires |t| > 0
    decreases |s|
  {
    if |s| < |t| then s
    else if s[..|t|] == t then r + ReplaceAll(s[|t|..], t, r)
    else [s[0]] + ReplaceAll(s[1..], t, r)
  }

  /** Replacing a text that does not occur leaves the string as it was. */
  lemma {:induction false} ReplaceAbsent(s: string, t: string, r: string)
    requires |t| > 0 && !Contains(s, t)
    ensures ReplaceAll(s, t, r) == s
    decreases |s|
  {
    if |s| >= |t| {
      assert s[..|t|] != t by { ContainsIff(s, t); assert !OccursAt(s, t, 0); }
      assert !Contains(s[1..], t) by {
        if Contains(s[1..], t) {
          var i := IndexOf(s[1..], t, 0);
          assert s[1..][i..i + |t|] == s[i + 1..i + 1 + |t|];
          ContainsAt(s, t, i + 1);
        }
      }
      ReplaceAbsent(s[1..], t, r);
    }
  }

  predicate IsDigit(c: char) {
    '0' <= c <= '9'
  }

  predicate AllDigits(s: string) {
    forall i :: 0 <= i < |s| ==> IsDigit(s[i])
  }

  function DigitChar(d: nat): (c: char)
    requires d < 10
    ensures IsDigit(c) && c as int - '0' as int == d
  {
    ('0' as int + d) as char
  }

  /** `Integer.toString(n)` for a non-negative `n`: decimal digits without leading zeros. */
  function Decimal(n: nat): (r: string)
    ensures |r| >= 1 && AllDigits(r)
    ensures r[0] != '0' || n == 0
    decreases n
  {
    if n < 10 then [DigitChar(n)] else Decimal(n / 10) + [DigitChar(n % 10)]
  }

  /** The number a string of decimal digits denotes (leading zeros allowed). */
  function DecimalValue(s: string): nat
    requires AllDigits(s)
    decreases |s|
  {
    if s == [] then 0 else DecimalValue(s[..|s| - 1]) * 10 + (s[|s| - 1] as int - '0' as int)
  }

  /** Printing a number and reading it back gives the number. */
  lemma {:induction false} DecimalRoundTrip(n: nat)
    ensures DecimalValue(Decimal(n)) == n
    decreases n
  {
    if n >= 10 {
      DecimalRoundTrip(n / 10);
      var d := Decimal(n);
      assert d[..|d| - 1] == Decimal(n / 10);
    }
  }

  /** Distinct numbers print differently. */
  lemma DecimalInjective(n: nat, m: nat)
    requires Decimal(n) == Decimal(m)
    ensures n == m
  {
    DecimalRoundTrip(n);
    DecimalRoundTrip(m);
  }

  function Pow10(k: nat): (r: nat)
    ensures r >= 1
  {
    if k == 0 then 1 else 10 * Pow10(k - 1)
  }

  /** A number below 10^k prints in at most k digits. */
  lemma {:induction false} DecimalLength(n: nat, k: nat)
    requires 1 <= k && n < Pow10(k)
    ensures |Decimal(n)| <= k
    decreases k
  {
    if n >= 10 {
      assert k >= 2;
      DecimalLength(n / 10, k - 1);
    }
  }

  /** Leading zeros do not change the value of a digit string. */
  lemma {:induction false} LeadingZeros(z: nat, s: string)
    requires AllDigits(s)
    ensures AllDigits(seq(z, _ => '0') + s)
    ensures DecimalValue(seq(z, _ => '0') + s) == DecimalValue(s)
    decreases |s|
  {
    var zs: string := seq(z, _ => '0');
    var t := zs + s;
    assert AllDigits(t) by {
      forall i | 0 <= i < |t| ensures IsDigit(t[i]) {
        if i < z { assert t[i] == zs[i]; } else { assert t[i] == s[i - z]; }
      }
    }
    if s == [] {
      assert t == zs;
      AllZeros(z);
    } else {
      assert t[..|t| - 1] == zs + s[..|s| - 1];
      LeadingZeros(z, s[..|s| - 1]);
    }
  }

  lemma {:induction false} AllZeros(z: nat)
    ensures AllDigits(seq(z, _ => '0'))
    ensures DecimalValue(seq(z, _ => '0')) == 0
    decreases z
  {
    if z > 0 {
      var zs: string := seq(z, _ => '0');
      assert zs[..z - 1] == seq(z - 1, _ => '0');
      AllZeros(z - 1);
    }
  }
}
