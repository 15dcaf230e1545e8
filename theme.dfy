/**
 * The app's colour palette and `Color(hex:)`: the text is trimmed of
 * non-alphanumeric characters at both ends, read by `Scanner.scanHexInt64`
 * into an unsigned 64-bit integer, and split into alpha, red, green and blue
 * by the trimmed length (3: 12-bit RGB, 6: 24-bit RGB, 8: 32-bit ARGB, anything
 * else: the fixed fallback (1, 1, 1, 0)). The components are kept as the
 * integers the shifts and masks give, before the division by 255.
 *
 * The repository carries two textually identical copies of this parser and
 * palette (`GymBuddy/Theme.swift` and the root `Theme.swift`); both are this module.
 */
module Theme {
  import opened Text

  /** The four integer components, in the order `(a, r, g, b)` the initialiser assigns them. */
  datatype Argb = Argb(a: nat, r: nat, g: nat, b: nat)

  const UInt64Max: nat := 0xFFFF_FFFF_FFFF_FFFF

  // ---------------------------------------------------------------------------
  // Trimming
  // ---------------------------------------------------------------------------

  /**
   * `CharacterSet.alphanumerics` (the Unicode letters, marks and numbers),
   * restricted to ASCII and Latin-1: the letters, the ordinal indicators
   * ª and º, the micro sign µ, the decimal digits, the superscripts ¹ ² ³
   * and the vulgar fractions ¼ ½ ¾.
   */
  predicate IsAlphanumeric(c: char) {
    || IsDigit(c) || IsUpperLetter(c) || IsLowerLetter(c) || c == 'ß' || c == 'ÿ'
    || c == 'ª' || c == 'µ' || c == 'º'
    || c == '¹' || c == '²' || c == '³' || c == '¼' || c == '½' || c == '¾'
  }

  predicate NoAlphanumeric(s: string) {
    forall i :: 0 <= i < |s| ==> !IsAlphanumeric(s[i])
  }

  /** Drops the leading characters that are not alphanumeric. */
  function TrimStart(s: string): (r: string)
    ensures |r| <= |s| && r == s[|s| - |r|..]
    ensures r == [] || IsAlphanumeric(r[0])
    ensures NoAlphanumeric(s[..|s| - |r|])
  {
    if s == [] || IsAlphanumeric(s[0]) then
      assert s[..0] == [];
      s
    else
      var r := TrimStart(s[1..]);
      TrimStartStep(s, r);
      r
  }

  /** Dropping one more leading character keeps the dropped part free of letters and digits. */
  lemma TrimStartStep(s: string, r: string)
    requires s != [] && !IsAlphanumeric(s[0])
    requires |r| < |s| && r == s[1..][|s| - 1 - |r|..]
    requires NoAlphanumeric(s[1..][..|s| - 1 - |r|])
    ensures r == s[|s| - |r|..]
    ensures NoAlphanumeric(s[..|s| - |r|])
  {
    var t, p := s[1..], s[..|s| - |r|];
    forall i | 0 <= i < |p|
      ensures !IsAlphanumeric(p[i])
    {
      if i > 0 {
        assert p[i] == t[..|t| - |r|][i - 1];
      }
    }
  }

  /** Drops the trailing characters that are not alphanumeric. */
  function TrimEnd(s: string): (r: string)
    ensures |r| <= |s| && r == s[..|r|]
    ensures r == [] || IsAlphanumeric(r[|r| - 1])
    ensures NoAlphanumeric(s[|r|..])
  {
    if s == [] || IsAlphanumeric(s[|s| - 1]) then
      assert s[|s|..] == [];
      s
    else
      var r := TrimEnd(s[..|s| - 1]);
      TrimEndStep(s, r);
      r
  }

  /** Dropping one more trailing character keeps the dropped part free of letters and digits. */
  lemma TrimEndStep(s: string, r: string)
    requires s != [] && !IsAlphanumeric(s[|s| - 1])
    requires |r| < |s| && r == s[..|s| - 1][..|r|]
    requires NoAlphanumeric(s[..|s| - 1][|r|..])
    ensures r == s[..|r|]
    ensures NoAlphanumeric(s[|r|..])
  {
    var t, q := s[..|s| - 1], s[|r|..];
    forall i | 0 <= i < |q|
      ensures !IsAlphanumeric(q[i])
    {
      if i < |t| - |r| {
        assert q[i] == t[|r|..][i];
      }
    }
  }

  /** `hex.trimmingCharacters(in: CharacterSet.alphanumerics.inverted)`. */
  function Trim(s: string): (r: string)
    ensures |r| <= |s|
    ensures r == [] || (IsAlphanumeric(r[0]) && IsAlphanumeric(r[|r| - 1]))
  {
    TrimEnd(TrimStart(s))
  }

  lemma {:induction false} TrimStartSkips(p: string, t: string)
    requires NoAlphanumeric(p)
    ensures TrimStart(p + t) == TrimStart(t)
    decreases |p|
  {
    if p != [] {
      assert (p + t)[0] == p[0] && !IsAlphanumeric(p[0]);
      assert (p + t)[1..] == p[1..] + t;
      assert NoAlphanumeric(p[1..]) by {
        forall i | 0 <= i < |p[1..]| ensures !IsAlphanumeric(p[1..][i]) { assert p[1..][i] == p[i + 1]; }
      }
      TrimStartSkips(p[1..], t);
    } else {
      assert p + t == t;
    }
  }

  lemma {:induction false} TrimEndSkips(t: string, q: string)
    requires NoAlphanumeric(q)
    ensures TrimEnd(t + q) == TrimEnd(t)
    decreases |q|
  {
    if q != [] {
      assert (t + q)[|t + q| - 1] == q[|q| - 1] && !IsAlphanumeric(q[|q| - 1]);
      assert (t + q)[..|t + q| - 1] == t + q[..|q| - 1];
      assert NoAlphanumeric(q[..|q| - 1]) by {
        var q' := q[..|q| - 1];
        forall i | 0 <= i < |q'| ensures !IsAlphanumeric(q'[i]) { assert q'[i] == q[i]; }
      }
      TrimEndSkips(t, q[..|q| - 1]);
    } else {
      assert t + q == t;
    }
  }

  /** Trimming removes exactly the non-alphanumeric characters around an already trimmed text. */
  lemma TrimSurrounding(p: string, s: string, q: string)
    requires NoAlphanumeric(p) && NoAlphanumeric(q)
    requires s == [] || (IsAlphanumeric(s[0]) && IsAlphanumeric(s[|s| - 1]))
    ensures Trim(p + s + q) == s
  {
    assert p + s + q == p + (s + q);
    TrimStartSkips(p, s + q);
    if s == [] {
      assert s + q == q + [];
      TrimStartSkips(q, []);
    } else {
      assert (s + q)[0] == s[0];
      TrimEndSkips(s, q);
    }
  }

  // ---------------------------------------------------------------------------
  // Scanning hexadecimal digits
  // ---------------------------------------------------------------------------

  predicate IsHexDigit(c: char) {
    ('0' <= c <= '9') || ('a' <= c <= 'f') || ('A' <= c <= 'F')
  }

  predicate AllHex(s: string) {
    forall i :: 0 <= i < |s| ==> IsHexDigit(s[i])
  }

  function HexDigitValue(c: char): (v: nat)
    requires IsHexDigit(c)
    ensures v < 16
  {
    if '0' <= c <= '9' then c as int - '0' as int
    else if 'a' <= c <= 'f' then c as int - 'a' as int + 10
    else c as int - 'A' as int + 10
  }

  function Pow16(n: nat): (p: nat)
    ensures p >= 1
  {
    if n == 0 then 1 else 16 * Pow16(n - 1)
  }

  /** The powers the parser's shifts use. */
  lemma Pow16Values()
    ensures Pow16(2) == 0x100 && Pow16(3) == 0x1000 && Pow16(4) == 0x1_0000
    ensures Pow16(6) == 0x100_0000 && Pow16(8) == 0x1_0000_0000
  {
    assert Pow16(1) == 16;
    assert Pow16(2) == 0x100;
    assert Pow16(3) == 0x1000;
    assert Pow16(4) == 0x1_0000;
    assert Pow16(5) == 0x10_0000;
    assert Pow16(6) == 0x100_0000;
    assert Pow16(7) == 0x1000_0000;
  }

  lemma {:induction false} Pow16Monotone(m: nat, n: nat)
    requires m <= n
    ensures Pow16(m) <= Pow16(n)
    decreases n
  {
    if m < n { Pow16Monotone(m, n - 1); }
  }

  /** The number a string of hex digits denotes, most significant digit first. */
  function HexValue(s: string): (v: nat)
    requires AllHex(s)
    ensures v < Pow16(|s|)
  {
    if s == [] then 0 else HexValue(s[..|s| - 1]) * 16 + HexDigitValue(s[|s| - 1])
  }

  /** The longest prefix of hex digits. */
  function LeadingHex(s: string): (r: string)
    ensures |r| <= |s| && AllHex(r) && r == s[..|r|]
    ensures |r| < |s| ==> !IsHexDigit(s[|r|])
  {
    if s == [] || !IsHexDigit(s[0]) then [] else [s[0]] + LeadingHex(s[1..])
  }

  /** A string that is all hex digits is its own leading run. */
  lemma {:induction false} LeadingHexAll(s: string)
    requires AllHex(s)
    ensures LeadingHex(s) == s
  {
    if s != [] {
      LeadingHexAll(s[1..]);
      assert s == [s[0]] + s[1..];
    }
  }

  /** An `0x`/`0X` prefix followed by a hex digit, which the scanner skips. */
  predicate HasHexPrefix(s: string) {
    3 <= |s| && s[0] == '0' && (s[1] == 'x' || s[1] == 'X') && IsHexDigit(s[2])
  }

  /** The digits the scanner consumes. */
  function ScannedDigits(s: string): (d: string)
    ensures AllHex(d) && |d| <= |s|
  {
    if HasHexPrefix(s) then LeadingHex(s[2..]) else LeadingHex(s)
  }

  /**
   * `Scanner(string:).scanHexInt64(&int)`: an optional `0x`/`0X` prefix, then the
   * leading hex digits; 0 when there are none, `UInt64.max` when they overflow.
   * The scanner's skipping of leading white space never applies, as the text is
   * trimmed first.
   */
  function ScanHex(s: string): (v: nat)
    ensures v <= UInt64Max
    ensures v < Pow16(|s|)
  {
    var digits := ScannedDigits(s);
    Pow16Monotone(|digits|, |s|);
    var value := HexValue(digits);
    if value > UInt64Max then UInt64Max else value
  }

  lemma HexValueSlice(s: string, i: nat, j: nat)
    requires AllHex(s) && i <= j <= |s|
    ensures AllHex(s[i..j])
  {
    assert forall k :: 0 <= k < j - i ==> s[i..j][k] == s[i + k];
  }

  /** One more digit: the value so far times 16, plus the digit. */
  lemma HexValueSnoc(s: string, k: nat)
    requires AllHex(s) && 1 <= k <= |s|
    ensures AllHex(s[..k]) && AllHex(s[..k - 1])
    ensures HexValue(s[..k]) == HexValue(s[..k - 1]) * 16 + HexDigitValue(s[k - 1])
  {
    HexValueSlice(s, 0, k);
    HexValueSlice(s, 0, k - 1);
    assert s[..k][..k - 1] == s[..k - 1] && s[..k][k - 1] == s[k - 1];
  }

  lemma DivMod16(n: int, q: int, r: int)
    requires 0 <= r < 16 && n == q * 16 + r
    ensures n / 16 == q && n % 16 == r
  {
  }

  lemma DivMod256(n: int, q: int, r: int)
    requires 0 <= r < 256 && n == q * 256 + r
    ensures n / 256 == q && n % 256 == r
  {
  }

  lemma DivMod65536(n: int, q: int, r: int)
    requires 0 <= r < 0x1_0000 && n == q * 0x1_0000 + r
    ensures n / 0x1_0000 == q
  {
  }

  lemma DivMod16777216(n: int, q: int, r: int)
    requires 0 <= r < 0x100_0000 && n == q * 0x100_0000 + r
    ensures n / 0x100_0000 == q
  {
  }

  // ---------------------------------------------------------------------------
  // Color(hex:)
  // ---------------------------------------------------------------------------

  /** The switch on the trimmed length, given the scanned value. */
  function Components(length: nat, v: nat): (c: Argb)
    requires v < Pow16(length)
    ensures c.a < 256 && c.r < 256 && c.g < 256 && c.b < 256
    ensures length !in {3, 6, 8} ==> c == Argb(1, 1, 1, 0)
    ensures length in {3, 6} ==> c.a == 255
  {
    Pow16Values();
    if length == 3 then
      Argb(255, (v / 256) * 17, ((v / 16) % 16) * 17, (v % 16) * 17)
    else if length == 6 then
      Argb(255, v / 0x1_0000, (v / 0x100) % 0x100, v % 0x100)
    else if length == 8 then
      Argb(v / 0x100_0000, (v / 0x1_0000) % 0x100, (v / 0x100) % 0x100, v % 0x100)
    else
      Argb(1, 1, 1, 0)
  }

  /**
   * `Color(hex:)`, up to the division of each component by 255; the shifts and
   * masks are division and remainder by powers of two. Every component is a
   * byte, whatever the text.
   */
  function ColorFromHex(hex: string): (c: Argb)
    ensures c.a < 256 && c.r < 256 && c.g < 256 && c.b < 256
    ensures |Trim(hex)| !in {3, 6, 8} ==> c == Argb(1, 1, 1, 0)
  {
    var t := Trim(hex);
    Components(|t|, ScanHex(t))
  }

  lemma TrimAllHex(s: string)
    requires AllHex(s) && 1 <= |s|
    ensures Trim(s) == s
  {
    assert IsHexDigit(s[0]) && IsHexDigit(s[|s| - 1]);
    assert TrimStart(s) == s;
  }

  lemma Pow16Eight()
    ensures Pow16(8) == 0x1_0000_0000
  {
    Pow16Values();
  }

  lemma ScannedAllHex(s: string)
    requires AllHex(s) && 1 <= |s|
    ensures ScannedDigits(s) == s
  {
    assert !HasHexPrefix(s) by {
      if 2 <= |s| { assert IsHexDigit(s[1]); }
    }
    LeadingHexAll(s);
  }

  lemma EightDigitsFit(s: string)
    requires AllHex(s) && |s| <= 8
    ensures HexValue(s) <= UInt64Max
  {
    Pow16Monotone(|s|, 8);
    Pow16Eight();
  }

  lemma ScanUnclamped(s: string)
    requires HexValue(ScannedDigits(s)) <= UInt64Max
    ensures ScanHex(s) == HexValue(ScannedDigits(s))
  {
  }

  /** A string of at most eight hex digits scans to its value. */
  lemma ScanAllHex(s: string)
    requires AllHex(s) && 1 <= |s| <= 8
    ensures ScanHex(s) == HexValue(s)
  {
    ScannedAllHex(s);
    EightDigitsFit(s);
    ScanUnclamped(s);
  }

  /** On a string of hex digits, `Color(hex:)` is the length switch applied to the digits' value. */
  lemma HexColor(s: string)
    requires AllHex(s) && 1 <= |s| <= 8
    ensures ColorFromHex(s) == Components(|s|, HexValue(s))
  {
    TrimAllHex(s);
    ScanAllHex(s);
  }

  /** The byte two hex digits spell. */
  function ByteValue(s: string): (v: nat)
    requires |s| == 2 && AllHex(s)
    ensures v < 256
  {
    16 * HexDigitValue(s[0]) + HexDigitValue(s[1])
  }

  /** Three digits, written out with constant multipliers. */
  lemma HexValueThree(s: string)
    requires AllHex(s) && |s| == 3
    ensures HexValue(s) == (HexDigitValue(s[0]) * 16 + HexDigitValue(s[1])) * 16 + HexDigitValue(s[2])
  {
    assert s[..0] == [];
    HexValueSnoc(s, 1);
    HexValueSnoc(s, 2);
    HexValueSnoc(s, 3);
    assert s[..3] == s;
  }

  /** Two more digits: the value so far times 256, plus the byte they spell. */
  lemma HexValuePair(s: string, k: nat)
    requires AllHex(s) && 2 <= k <= |s|
    ensures AllHex(s[..k]) && AllHex(s[..k - 2]) && AllHex(s[k - 2..k])
    ensures HexValue(s[..k]) == HexValue(s[..k - 2]) * 256 + ByteValue(s[k - 2..k])
  {
    HexValueSnoc(s, k);
    HexValueSnoc(s, k - 1);
    HexValueSlice(s, k - 2, k);
    assert s[k - 2..k][0] == s[k - 2] && s[k - 2..k][1] == s[k - 1];
  }

  /** Six digits are three bytes, most significant first. */
  lemma HexValueSix(s: string)
    requires AllHex(s) && |s| == 6
    ensures AllHex(s[..2]) && AllHex(s[2..4]) && AllHex(s[4..])
    ensures HexValue(s) == (ByteValue(s[..2]) * 256 + ByteValue(s[2..4])) * 256 + ByteValue(s[4..])
  {
    FirstByte(s);
    HexValuePair(s, 4);
    HexValuePair(s, 6);
    assert s[..6] == s && s[4..6] == s[4..];
  }

  /** The first two digits are one byte. */
  lemma FirstByte(s: string)
    requires AllHex(s) && |s| >= 2
    ensures AllHex(s[..2]) && HexValue(s[..2]) == ByteValue(s[..2])
  {
    assert s[..0] == [];
    HexValueSnoc(s, 1);
    HexValueSnoc(s, 2);
  }

  /** Eight digits are the first six and one more byte. */
  lemma HexValueEight(s: string)
    requires AllHex(s) && |s| == 8
    ensures AllHex(s[..2]) && AllHex(s[2..4]) && AllHex(s[4..6]) && AllHex(s[6..])
    ensures HexValue(s) ==
      ((ByteValue(s[..2]) * 256 + ByteValue(s[2..4])) * 256 + ByteValue(s[4..6])) * 256 + ByteValue(s[6..])
  {
    FirstByte(s);
    HexValuePair(s, 4);
    HexValuePair(s, 6);
    HexValuePair(s, 8);
    assert s[..8] == s && s[6..8] == s[6..];
  }

  lemma ComponentsThree(d0: nat, d1: nat, d2: nat)
    requires d0 < 16 && d1 < 16 && d2 < 16
    ensures (d0 * 16 + d1) * 16 + d2 < Pow16(3)
    ensures Components(3, (d0 * 16 + d1) * 16 + d2) == Argb(255, d0 * 17, d1 * 17, d2 * 17)
  {
    Pow16Values();
    var v := (d0 * 16 + d1) * 16 + d2;
    DivMod256(v, d0, d1 * 16 + d2);
    DivMod16(v, d0 * 16 + d1, d2);
    DivMod16(d0 * 16 + d1, d0, d1);
  }

  lemma ComponentsSix(x: nat, y: nat, z: nat)
    requires x < 256 && y < 256 && z < 256
    ensures (x * 256 + y) * 256 + z < Pow16(6)
    ensures Components(6, (x * 256 + y) * 256 + z) == Argb(255, x, y, z)
  {
    Pow16Values();
    var v := (x * 256 + y) * 256 + z;
    DivMod256(v, x * 256 + y, z);
    DivMod256(x * 256 + y, x, y);
    DivMod65536(v, x, y * 256 + z);
  }

  lemma ComponentsEight(w: nat, x: nat, y: nat, z: nat)
    requires w < 256 && x < 256 && y < 256 && z < 256
    ensures ((w * 256 + x) * 256 + y) * 256 + z < Pow16(8)
    ensures Components(8, ((w * 256 + x) * 256 + y) * 256 + z) == Argb(w, x, y, z)
  {
    Pow16Values();
    var v := ((w * 256 + x) * 256 + y) * 256 + z;
    DivMod256(v, (w * 256 + x) * 256 + y, z);
    DivMod256((w * 256 + x) * 256 + y, w * 256 + x, y);
    DivMod256(w * 256 + x, w, x);
    DivMod65536(v, w * 256 + x, y * 256 + z);
    DivMod16777216(v, w, (x * 256 + y) * 256 + z);
  }

  /** Three digits: alpha 255, and each digit scaled by 17 (so `F` is 255). */
  lemma ColorThreeDigits(s: string)
    requires |s| == 3 && AllHex(s)
    ensures ColorFromHex(s) ==
      Argb(255, HexDigitValue(s[0]) * 17, HexDigitValue(s[1]) * 17, HexDigitValue(s[2]) * 17)
  {
    HexColor(s);
    HexValueThree(s);
    ComponentsThree(HexDigitValue(s[0]), HexDigitValue(s[1]), HexDigitValue(s[2]));
  }

  /** Six digits: alpha 255, then red, green and blue as consecutive bytes. */
  lemma ColorSixDigits(s: string)
    requires |s| == 6 && AllHex(s)
    ensures AllHex(s[..2]) && AllHex(s[2..4]) && AllHex(s[4..])
    ensures ColorFromHex(s) == Argb(255, ByteValue(s[..2]), ByteValue(s[2..4]), ByteValue(s[4..]))
  {
    HexColor(s);
    HexValueSix(s);
    ComponentsSix(ByteValue(s[..2]), ByteValue(s[2..4]), ByteValue(s[4..]));
  }

  /** Eight digits: alpha, red, green and blue as consecutive bytes. */
  lemma ColorEightDigits(s: string)
    requires |s| == 8 && AllHex(s)
    ensures AllHex(s[..2]) && AllHex(s[2..4]) && AllHex(s[4..6]) && AllHex(s[6..])
    ensures ColorFromHex(s) ==
      Argb(ByteValue(s[..2]), ByteValue(s[2..4]), ByteValue(s[4..6]), ByteValue(s[6..]))
  {
    HexColor(s);
    HexValueEight(s);
    EightBytes(ColorFromHex(s), ByteValue(s[..2]), ByteValue(s[2..4]), ByteValue(s[4..6]), ByteValue(s[6..]));
  }

  lemma EightBytes(c: Argb, w: nat, x: nat, y: nat, z: nat)
    requires w < 256 && x < 256 && y < 256 && z < 256
    requires c == Components(8, ((w * 256 + x) * 256 + y) * 256 + z)
    ensures c == Argb(w, x, y, z)
  {
    ComponentsEight(w, x, y, z);
  }

  /** Characters that are not letters or digits around the digits change nothing: `"#FF4F00"` is `"FF4F00"`. */
  lemma ColorIgnoresSurrounding(p: string, s: string, q: string)
    requires NoAlphanumeric(p) && NoAlphanumeric(q)
    requires s == [] || (IsAlphanumeric(s[0]) && IsAlphanumeric(s[|s| - 1]))
    ensures ColorFromHex(p + s + q) == ColorFromHex(s)
  {
    TrimSurrounding(p, s, q);
    TrimSurrounding([], s, []);
    assert [] + s + [] == s;
  }

  // ---------------------------------------------------------------------------
  // The palette
  // ---------------------------------------------------------------------------

  const Background := "0A0A0B"
  const Surface := "161618"
  const SurfaceElevated := "1E1E21"
  /** Electric orange. */
  const Accent := "FF4F00"
  const AccentDim := "331405"
  const TextPrimary := "FAFAFA"
  const TextSecondary := "A1A1A6"
  const Destructive := "FF453A"
  const Success := "32D74B"

  /** The accent is opaque (255, 79, 0). */
  lemma AccentComponents()
    ensures ColorFromHex(Accent) == Argb(255, 255, 79, 0)
  {
    AccentBytes();
    ColorSixDigits(Accent);
  }

  lemma AccentBytes()
    ensures AllHex(Accent[..2]) && AllHex(Accent[2..4]) && AllHex(Accent[4..])
    ensures ByteValue(Accent[..2]) == 255 && ByteValue(Accent[2..4]) == 79 && ByteValue(Accent[4..]) == 0
  {
    assert Accent[..2] == "FF" && Accent[2..4] == "4F" && Accent[4..] == "00";
  }

  /** Writing the accent as `#FF4F00` gives the same colour. */
  lemma AccentWithHash()
    ensures ColorFromHex("#" + Accent) == ColorFromHex(Accent)
  {
    ColorIgnoresSurrounding("#", Accent, "");
    assert "#" + Accent + "" == "#" + Accent;
  }

  /** The destructive red is opaque (255, 69, 58). */
  lemma DestructiveComponents()
    ensures ColorFromHex(Destructive) == Argb(255, 255, 69, 58)
  {
    DestructiveBytes();
    ColorSixDigits(Destructive);
  }

  lemma DestructiveBytes()
    ensures AllHex(Destructive[..2]) && AllHex(Destructive[2..4]) && AllHex(Destructive[4..])
    ensures ByteValue(Destructive[..2]) == 255 && ByteValue(Destructive[2..4]) == 69 && ByteValue(Destructive[4..]) == 58
  {
    assert Destructive[..2] == "FF" && Destructive[2..4] == "45" && Destructive[4..] == "3A";
  }

  /** A three-digit colour is its six-digit spelling with every digit doubled: `"FFF"` is `"FFFFFF"`. */
  lemma ShortFormDoubles(s: string)
    requires |s| == 3 && AllHex(s)
    ensures ColorFromHex(s) == ColorFromHex([s[0], s[0], s[1], s[1], s[2], s[2]])
  {
    ColorThreeDigits(s);
    DoubledColor([s[0], s[0], s[1], s[1], s[2], s[2]]);
  }

  /** Six digits in equal pairs: each component is 17 times the digit of its pair. */
  lemma DoubledColor(t: string)
    requires |t| == 6 && AllHex(t) && t[0] == t[1] && t[2] == t[3] && t[4] == t[5]
    ensures ColorFromHex(t) == Argb(255, HexDigitValue(t[0]) * 17, HexDigitValue(t[2]) * 17, HexDigitValue(t[4]) * 17)
  {
    ColorSixDigits(t);
    DoubledBytes(t);
  }

  lemma DoubledBytes(t: string)
    requires |t| == 6 && AllHex(t) && t[0] == t[1] && t[2] == t[3] && t[4] == t[5]
    ensures AllHex(t[..2]) && AllHex(t[2..4]) && AllHex(t[4..])
    ensures ByteValue(t[..2]) == HexDigitValue(t[0]) * 17
    ensures ByteValue(t[2..4]) == HexDigitValue(t[2]) * 17
    ensures ByteValue(t[4..]) == HexDigitValue(t[4]) * 17
  {
    HexValueSlice(t, 0, 2);
    HexValueSlice(t, 2, 4);
    HexValueSlice(t, 4, 6);
    assert t[4..6] == t[4..];
    assert t[..2][0] == t[0] && t[..2][1] == t[1];
    assert t[2..4][0] == t[2] && t[2..4][1] == t[3];
    assert t[4..][0] == t[4] && t[4..][1] == t[5];
  }
}
