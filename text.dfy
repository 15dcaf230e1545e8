/**
 * Character, string and integer-formatting helpers shared by the formatters of the app.
 * Swift's `Int` division truncates toward zero (Dafny's is Euclidean), its
 * `lowercased()`/`uppercased()` map letters case by case, and `"\(n)"` / `%d` / `%02d`
 * print decimal digits; this module writes those out.
 */
module Text {
  import opened Wrappers

  // ---------------------------------------------------------------------------
  // Truncating division, as Swift's `/` and `%` on Int
  // ---------------------------------------------------------------------------

  /** Swift's `a / b` for a positive divisor: the quotient rounded toward zero. */
  function Quot(a: int, b: int): (q: int)
    requires b > 0
    ensures a >= 0 ==> q == a / b
    ensures a < 0 ==> q == -((-a) / b) && q <= 0
  {
    if a >= 0 then a / b else -((-a) / b)
  }

  /** Swift's `a % b` for a positive divisor: the remainder takes the sign of `a`. */
  function Rem(a: int, b: int): (r: int)
    requires b > 0
    ensures a == b * Quot(a, b) + r
    ensures a >= 0 ==> 0 <= r < b && r == a % b
    ensures a < 0 ==> -b < r <= 0
  {
    a - b * Quot(a, b)
  }

  // ---------------------------------------------------------------------------
  // Decimal digits
  // ---------------------------------------------------------------------------

  predicate IsDigit(c: char) {
    '0' <= c <= '9'
  }

  predicate AllDigits(s: string) {
    forall i :: 0 <= i < |s| ==> IsDigit(s[i])
  }

  function DigitChar(d: nat): (c: char)
    requires d < 10
    ensures IsDigit(c) && c as int - '0' as int == d
  {
    (('0' as int) + d) as char
  }

  /** The number a string of decimal digits denotes (the inverse of NatToString). */
  function DigitsValue(s: string): nat
    requires AllDigits(s)
  {
    if s == [] then 0 else DigitsValue(s[..|s| - 1]) * 10 + (s[|s| - 1] as int - '0' as int)
  }

  /** `"\(n)"` for a non-negative n: its decimal digits, without leading zeros. */
  function NatToString(n: nat): (s: string)
    ensures 1 <= |s| && AllDigits(s)
    ensures n < 10 <==> |s| == 1
    ensures |s| > 1 ==> s[0] != '0'
  {
    if n < 10 then [DigitChar(n)] else NatToString(n / 10) + [DigitChar(n % 10)]
  }

  lemma {:induction false} NatToStringRoundTrip(n: nat)
    ensures DigitsValue(NatToString(n)) == n
  {
    if n >= 10 {
      var s := NatToString(n);
      assert s[..|s| - 1] == NatToString(n / 10);
      NatToStringRoundTrip(n / 10);
    }
  }

  /** `"\(i)"` / `%d` for any Int: a minus sign before the digits of a negative number. */
  function IntToString(i: int): (s: string)
    ensures 1 <= |s|
    ensures i >= 0 ==> s == NatToString(i)
    ensures i < 0 ==> s == "-" + NatToString(-i)
  {
    if i < 0 then "-" + NatToString(-i) else NatToString(i)
  }

  /** Reads back what IntToString prints; None for anything that is not an optional '-' and digits. */
  function ParseInt(s: string): Option<int> {
    if 2 <= |s| && s[0] == '-' && AllDigits(s[1..]) then
      var magnitude: int := DigitsValue(s[1..]);
      Some(-magnitude)
    else if 1 <= |s| && AllDigits(s) then Some(DigitsValue(s) as int)
    else None
  }

  lemma IntToStringRoundTrip(i: int)
    ensures ParseInt(IntToString(i)) == Some(i)
  {
    if i < 0 {
      NegativeReadsBack(-i);
    } else {
      var s := NatToString(i);
      assert IsDigit(s[0]);
      NatToStringRoundTrip(i);
      assert ParseInt(s) == Some(i);
    }
  }

  lemma NegativeReadsBack(n: nat)
    ensures ParseInt("-" + NatToString(n)) == Some(0 - n)
  {
    var t := NatToString(n);
    var s := "-" + t;
    assert s[0] == '-' && s[1..] == t;
    NatToStringRoundTrip(n);
  }

  lemma IntToStringInjective(i: int, j: int)
    requires IntToString(i) == IntToString(j)
    ensures i == j
  {
    IntToStringRoundTrip(i);
    IntToStringRoundTrip(j);
  }

  /** `String(format: "%02d", n)`: at least two characters, zero-padded on the left. */
  function Pad2(n: int): (s: string)
    ensures 2 <= |s|
    ensures 0 <= n ==> AllDigits(s)
    ensures 0 <= n < 100 ==> |s| == 2
    ensures n < 0 ==> s == IntToString(n)
  {
    if 0 <= n < 10 then "0" + NatToString(n) else IntToString(n)
  }

  lemma Pad2Value(n: nat)
    ensures DigitsValue(Pad2(n)) == n
  {
    if n < 10 {
      var s := Pad2(n);
      assert s == ['0', DigitChar(n)];
      var head := s[..1];
      assert head == "0" && head[..0] == "";
      assert DigitsValue(head) == 0;
    } else {
      NatToStringRoundTrip(n);
    }
  }

  /** `String(format: "%d:%02d", m, s)`. */
  function MinutesSeconds(m: int, s: int): (r: string)
    ensures |r| >= 4
    ensures 0 <= s < 100 ==> r[|r| - 3] == ':'
  {
    IntToString(m) + ":" + Pad2(s)
  }

  /** Minutes and a two-digit second count read back from their "m:ss" text. */
  lemma MinutesSecondsReadsBack(m: nat, s: nat)
    requires s < 60
    ensures var r := MinutesSeconds(m, s);
      |r| >= 4 && r[|r| - 3] == ':' && !AllDigits(r) && IsDigit(r[|r| - 1]) &&
      AllDigits(r[..|r| - 3]) && AllDigits(r[|r| - 2..]) &&
      DigitsValue(r[..|r| - 3]) == m && DigitsValue(r[|r| - 2..]) == s
  {
    var r := MinutesSeconds(m, s);
    var sec := Pad2(s);
    assert r == NatToString(m) + ":" + sec;
    assert r[..|r| - 3] == NatToString(m);
    assert r[|r| - 2..] == sec;
    assert r[|r| - 1] == sec[1];
    assert !IsDigit(r[|r| - 3]);
    NatToStringRoundTrip(m);
    Pad2Value(s);
  }

  // ---------------------------------------------------------------------------
  // Case mapping (ASCII and Latin-1)
  // ---------------------------------------------------------------------------

  predicate IsUpperLetter(c: char) {
    ('A' <= c <= 'Z') || ('\U{C0}' <= c <= '\U{DE}' && c != '\U{D7}')
  }

  predicate IsLowerLetter(c: char) {
    ('a' <= c <= 'z') || ('\U{E0}' <= c <= '\U{FE}' && c != '\U{F7}')
  }

  function LowerChar(c: char): (l: char)
    ensures !IsUpperLetter(l)
    ensures IsUpperLetter(c) ==> IsLowerLetter(l)
  {
    if IsUpperLetter(c) then (c as int + 32) as char else c
  }

  /**
   * The upper case of a character that has a one-character upper case: the
   * Latin-1 lower-case letters, ÿ (to Ÿ, U+0178) and the micro sign µ (to the
   * Greek capital mu, U+039C). Every other character is its own upper case.
   */
  function UpperChar(c: char): (u: char)
    ensures !HasUpperCase(u) || u == '\U{DF}'
    ensures !HasUpperCase(c) ==> u == c
    ensures IsLowerLetter(c) ==> IsUpperLetter(u)
  {
    if c == '\U{FF}' then '\U{178}'
    else if c == '\U{B5}' then '\U{39C}'
    else if IsLowerLetter(c) then (c as int - 32) as char
    else c
  }

  /** `s.lowercased()`. */
  function Lower(s: string): (r: string)
    ensures |r| == |s|
    ensures forall i :: 0 <= i < |s| ==> r[i] == LowerChar(s[i])
  {
    seq(|s|, i requires 0 <= i < |s| => LowerChar(s[i]))
  }

  /** `c` has an upper case other than itself. */
  predicate HasUpperCase(c: char) {
    IsLowerLetter(c) || c == '\U{DF}' || c == '\U{FF}' || c == '\U{B5}'
  }

  /** No character of `s` has an upper case other than itself. */
  predicate NoLowerCase(s: string) {
    forall i :: 0 <= i < |s| ==> !HasUpperCase(s[i])
  }

  /** The upper case of one character: ß, which has no capital form, becomes "SS". */
  function UpperText(c: char): (u: string)
    ensures NoLowerCase(u)
    ensures c == '\U{DF}' ==> u == "SS"
    ensures c != '\U{DF}' ==> u == [UpperChar(c)]
  {
    if c == '\U{DF}' then "SS" else [UpperChar(c)]
  }

  /**
   * `s.uppercased()`: each character by its upper case, so the text grows by
   * one character per ß.
   */
  function Upper(s: string): (r: string)
    ensures |r| == |s| + multiset(s)['\U{DF}']
    ensures NoLowerCase(r)
    ensures '\U{DF}' !in s ==> forall i :: 0 <= i < |s| ==> r[i] == UpperChar(s[i])
  {
    if s == [] then []
    else
      assert s == [s[0]] + s[1..];
      assert multiset(s) == multiset{s[0]} + multiset(s[1..]);
      UpperText(s[0]) + Upper(s[1..])
  }

  /** Upper-casing works character by character: it distributes over concatenation. */
  lemma {:induction false} UpperAppend(a: string, b: string)
    ensures Upper(a + b) == Upper(a) + Upper(b)
  {
    if a == [] {
      assert a + b == b;
    } else {
      assert (a + b)[0] == a[0] && (a + b)[1..] == a[1..] + b;
      UpperAppend(a[1..], b);
    }
  }

  /** A text without lower case is its own upper case. */
  lemma {:induction false} UpperOfNoLowerCase(s: string)
    requires NoLowerCase(s)
    ensures Upper(s) == s
  {
    if s != [] {
      assert !HasUpperCase(s[0]);
      assert NoLowerCase(s[1..]) by {
        forall i | 0 <= i < |s[1..]|
          ensures !HasUpperCase(s[1..][i])
        {
          assert s[1..][i] == s[i + 1];
        }
      }
      UpperOfNoLowerCase(s[1..]);
      assert s == [s[0]] + s[1..];
    }
  }

  /** Upper-casing twice is upper-casing once. */
  lemma UpperIdempotent(s: string)
    ensures Upper(Upper(s)) == Upper(s)
  {
    UpperOfNoLowerCase(Upper(s));
  }

  /** Upper-casing a character in front. */
  lemma UpperCons(c: char, s: string)
    ensures Upper([c] + s) == UpperText(c) + Upper(s)
  {
    assert ([c] + s)[0] == c && ([c] + s)[1..] == s;
  }

  /** ß, which has no capital letter, upper-cases to two characters. */
  lemma UpperEszett()
    ensures Upper("\U{DF}") == "SS"
  {
    UpperCons('\U{DF}', []);
    assert ['\U{DF}'] + [] == "\U{DF}";
  }

  /** Each ß becomes "SS": a text ending in ß upper-cases one character longer. */
  lemma UpperSharpS(s: string)
    ensures Upper(s + "\U{DF}") == Upper(s) + "SS"
    ensures |Upper(s + "\U{DF}")| == |Upper(s)| + 2
  {
    UpperAppend(s, "\U{DF}");
    UpperEszett();
  }

  lemma LowerIdempotent(s: string)
    ensures Lower(Lower(s)) == Lower(s)
  {
  }

  // ---------------------------------------------------------------------------
  // Substrings, prefixes and ordering
  // ---------------------------------------------------------------------------

  /** `s.hasPrefix(p)` / `s.starts(with: p)`. */
  predicate StartsWith(s: string, p: string) {
    |p| <= |s| && s[..|p|] == p
  }

  /** `sub` occurs in `s` starting at position `i`. */
  predicate OccursAt(s: string, sub: string, i: int) {
    0 <= i <= |s| - |sub| && s[i..i + |sub|] == sub
  }

  /** `s.contains(sub)`: `sub` occurs in `s` at some position. */
  predicate Contains(s: string, sub: string) {
    exists i :: 0 <= i <= |s| - |sub| && OccursAt(s, sub, i)
  }

  /** A string that lacks one of the characters of `sub` does not contain `sub`. */
  lemma NotContainsWithoutChar(s: string, sub: string, k: nat)
    requires k < |sub|
    requires forall i :: 0 <= i < |s| ==> s[i] != sub[k]
    ensures !Contains(s, sub)
  {
    forall i | 0 <= i <= |s| - |sub|
      ensures !OccursAt(s, sub, i)
    {
      assert s[i..i + |sub|][k] == s[i + k];
    }
  }

  /** Swift's `<` on strings, modelled as lexicographic order of the characters. */
  predicate StrLt(a: string, b: string)
    decreases |a|
  {
    if |a| == 0 then |b| > 0
    else if |b| == 0 then false
    else if a[0] != b[0] then a[0] < b[0]
    else StrLt(a[1..], b[1..])
  }

  lemma {:induction false} StrLtIrreflexive(a: string)
    ensures !StrLt(a, a)
    decreases |a|
  {
    if |a| > 0 { StrLtIrreflexive(a[1..]); }
  }

  lemma {:induction false} StrLtTransitive(a: string, b: string, c: string)
    requires StrLt(a, b) && StrLt(b, c)
    ensures StrLt(a, c)
    decreases |a|
  {
    if |a| > 0 && |b| > 0 && |c| > 0 && a[0] == b[0] == c[0] {
      StrLtTransitive(a[1..], b[1..], c[1..]);
    }
  }

  lemma {:induction false} StrLtTrichotomy(a: string, b: string)
    ensures StrLt(a, b) || a == b || StrLt(b, a)
    decreases |a|
  {
    if |a| > 0 && |b| > 0 && a[0] == b[0] {
      StrLtTrichotomy(a[1..], b[1..]);
      if a[1..] == b[1..] {
        assert a == [a[0]] + a[1..] && b == [b[0]] + b[1..];
      }
    }
  }

  lemma StrLtAsymmetric(a: string, b: string)
    requires StrLt(a, b)
    ensures !StrLt(b, a)
  {
    if StrLt(b, a) {
      StrLtTransitive(a, b, a);
      StrLtIrreflexive(a);
    }
  }
}
