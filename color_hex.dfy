/**
 * `Color(hex:)` up to its integer channels: trim the non-alphanumeric ends, scan a hexadecimal number
 * (an optional `0x` prefix, then the leading hex digits), and split it by the trimmed length:
 * 3 digits are 12-bit RGB, 6 are 24-bit RGB, 8 are 32-bit ARGB, anything else is opaque black.
 */
module ColorHex {
  import opened Text

  predicate IsHexDigit(c: char) {
    IsDigit(c) || 'a' <= c <= 'f' || 'A' <= c <= 'F'
  }

  function HexDigitValue(c: char): (v: nat)
    requires IsHexDigit(c)
    ensures v < 16
  {
    if IsDigit(c) then c as int - '0' as int
    else if 'a' <= c <= 'f' then c as int - 'a' as int + 10
    else c as int - 'A' as int + 10
  }

  /** The upper-case digit for `v`. */
  function HexDigitChar(v: nat): (c: char)
    requires v < 16
    ensures IsHexDigit(c) && HexDigitValue(c) == v
  {
    if v < 10 then ('0' as int + v) as char else ('A' as int + v - 10) as char
  }

  predicate NotAlphanumeric(c: char) { !IsAlphanumeric(c) }

  /** The longest prefix of hex digits. */
  function LeadingHex(s: string): (r: string)
    ensures |r| <= |s| && r == s[..|r|]
    ensures AllChars(r, IsHexDigit)
    ensures |r| < |s| ==> !IsHexDigit(s[|r|])
  {
    if s == [] || !IsHexDigit(s[0]) then [] else [s[0]] + LeadingHex(s[1..])
  }

  function Pow16(n: nat): (p: nat)
    ensures p >= 1
  {
    if n == 0 then 1 else 16 * Pow16(n - 1)
  }

  /** The number a string of hex digits denotes, most significant first. */
  function HexValue(d: string): nat
    requires AllChars(d, IsHexDigit)
  {
    if d == [] then 0 else HexValue(d[..|d| - 1]) * 16 + HexDigitValue(d[|d| - 1])
  }

  /** `scanHexInt64` skips an optional `0x`/`0X` and reads the leading hex digits (0 when there are none). */
  function HexPrefixLength(s: string): nat {
    if |s| >= 2 && s[0] == '0' && (s[1] == 'x' || s[1] == 'X') then 2 else 0
  }

  function ScannedDigits(s: string): (d: string)
    ensures |d| <= |s| && AllChars(d, IsHexDigit)
  {
    LeadingHex(s[HexPrefixLength(s)..])
  }

  function ScanHex(s: string): nat {
    HexValue(ScannedDigits(s))
  }

  datatype Argb = Argb(a: nat, r: nat, g: nat, b: nat)

  const OpaqueBlack := Argb(255, 0, 0, 0)

  /** The switch on the digit count: 12-bit RGB, 24-bit RGB, 32-bit ARGB, or opaque black. */
  function Unpack(count: nat, v: nat): Argb {
    if count == 3 then Argb(255, (v / 256) * 17, (v / 16 % 16) * 17, (v % 16) * 17)
    else if count == 6 then Argb(255, v / 65536, v / 256 % 256, v % 256)
    else if count == 8 then Argb(v / 16777216, v / 65536 % 256, v / 256 % 256, v % 256)
    else OpaqueBlack
  }

  /** The `(a, r, g, b)` tuple `init(hex:)` computes: the count is that of the trimmed string, `0x` included. */
  function Channels(hex: string): Argb {
    var h := Trim(hex, NotAlphanumeric);
    Unpack(|h|, ScanHex(h))
  }

  predicate InRange(c: Argb) {
    c.a <= 255 && c.r <= 255 && c.g <= 255 && c.b <= 255
  }

  // ---------------------------------------------------------------------------
  // Lemmas about hex values

  lemma {:induction false} HexValueBound(d: string)
    requires AllChars(d, IsHexDigit)
    ensures HexValue(d) < Pow16(|d|)
  {
    if d != [] {
      HexValueBound(d[..|d| - 1]);
    }
  }

  lemma {:induction false} Pow16Monotone(m: nat, n: nat)
    requires m <= n
    ensures Pow16(m) <= Pow16(n)
  {
    if m < n {
      Pow16Monotone(m, n - 1);
    }
  }

  lemma HexDigitsAppend(a: string, b: string)
    requires AllChars(a, IsHexDigit) && AllChars(b, IsHexDigit)
    ensures AllChars(a + b, IsHexDigit)
  {
    assert forall k | 0 <= k < |a + b| :: (a + b)[k] == if k < |a| then a[k] else b[k - |a|];
  }

  lemma {:induction false} HexValueAppend(a: string, b: string)
    requires AllChars(a, IsHexDigit) && AllChars(b, IsHexDigit)
    ensures AllChars(a + b, IsHexDigit)
    ensures HexValue(a + b) == HexValue(a) * Pow16(|b|) + HexValue(b)
  {
    HexDigitsAppend(a, b);
    if b == [] {
      assert a + b == a;
    } else {
      var b' := b[..|b| - 1];
      var d := HexDigitValue(b[|b| - 1]);
      assert HexValue(a + b) == HexValue(a + b') * 16 + d by {
        assert (a + b)[..|a + b| - 1] == a + b';
        assert (a + b)[|a + b| - 1] == b[|b| - 1];
      }
      HexValueAppend(a, b');
      Regroup(HexValue(a), Pow16(|b'|), HexValue(b'), d);
    }
  }

  lemma Regroup(x: nat, p: nat, y: nat, d: nat)
    ensures (x * p + y) * 16 + d == x * (16 * p) + (y * 16 + d)
  {
  }

  /** A string of hex digits is read whole when there is no `0x` in front. */
  lemma {:induction false} LeadingHexAll(s: string)
    requires AllChars(s, IsHexDigit)
    ensures LeadingHex(s) == s
  {
    if s != [] {
      LeadingHexAll(s[1..]);
    }
  }

  /** The scanner never reads more digits than the string holds, so the value fits in `4 * |s|` bits. */
  lemma ScanHexBound(s: string)
    ensures ScanHex(s) < Pow16(|s|)
  {
    var d := ScannedDigits(s);
    HexValueBound(d);
    Pow16Monotone(|d|, |s|);
  }

  /** For 3, 6 and 8 digits every channel lies in 0..255; every other length gives opaque black. */
  lemma ChannelsInRange(hex: string)
    ensures InRange(Channels(hex))
    ensures |Trim(hex, NotAlphanumeric)| !in {3, 6, 8} ==> Channels(hex) == OpaqueBlack
  {
    var h := Trim(hex, NotAlphanumeric);
    ScanHexBound(h);
    assert Pow16(3) == 4096 && Pow16(6) == 16777216;
    assert Pow16(8) == 4294967296;
  }

  /** Leading and trailing non-alphanumerics, such as the `#`, do not change the colour. */
  lemma DecorationIgnored(p: string, hex: string, q: string)
    requires AllChars(p, NotAlphanumeric) && AllChars(q, NotAlphanumeric)
    ensures Channels(p + hex + q) == Channels(hex)
  {
    assert Trim(p + hex + q, NotAlphanumeric) == Trim(hex, NotAlphanumeric) by {
      assert p + hex + q == p + (hex + q);
      TrimIgnoresStrippedPrefix(p, hex + q, NotAlphanumeric);
      TrimIgnoresStrippedSuffix(hex, q, NotAlphanumeric);
    }
  }

  // ---------------------------------------------------------------------------
  // What each digit count decodes to

  /** Hex digits are alphanumeric, so a `#` in front is all the trimming removes. */
  lemma HashTrimmed(digits: string)
    requires AllChars(digits, IsHexDigit)
    ensures Trim("#" + digits, NotAlphanumeric) == digits
  {
    TrimIgnoresStrippedPrefix("#", digits, NotAlphanumeric);
    TrimClean(digits, NotAlphanumeric);
  }

  /** `x` is not a hex digit, so a run of hex digits has no `0x` in front and is scanned whole. */
  lemma ScannedWhole(digits: string)
    requires AllChars(digits, IsHexDigit)
    ensures ScanHex(digits) == HexValue(digits)
  {
    if |digits| >= 2 {
      assert IsHexDigit(digits[1]);
    }
    assert HexPrefixLength(digits) == 0;
    assert digits[0..] == digits;
    LeadingHexAll(digits);
  }

  /** `#` followed by hex digits decodes the digits' value by their count. */
  lemma ParsedAsWritten(digits: string)
    requires AllChars(digits, IsHexDigit)
    ensures Channels("#" + digits) == Unpack(|digits|, HexValue(digits))
  {
    HashTrimmed(digits);
    ScannedWhole(digits);
  }

  lemma DivMod16(q: nat, r: nat)
    requires r < 16
    ensures (q * 16 + r) / 16 == q && (q * 16 + r) % 16 == r
  {
  }

  lemma DivMod256(q: nat, r: nat)
    requires r < 256
    ensures (q * 256 + r) / 256 == q && (q * 256 + r) % 256 == r
  {
  }

  lemma DivMod65536(q: nat, r: nat)
    requires r < 65536
    ensures (q * 65536 + r) / 65536 == q
  {
  }

  lemma DivMod16777216(q: nat, r: nat)
    requires r < 16777216
    ensures (q * 16777216 + r) / 16777216 == q
  {
  }

  lemma UnpackShort(r: nat, g: nat, b: nat)
    requires r < 16 && g < 16 && b < 16
    ensures Unpack(3, (r * 16 + g) * 16 + b) == Argb(255, 17 * r, 17 * g, 17 * b)
  {
    var v := (r * 16 + g) * 16 + b;
    DivMod16(r * 16 + g, b);
    DivMod16(r, g);
    assert v == r * 256 + (g * 16 + b);
    DivMod256(r, g * 16 + b);
  }

  lemma UnpackRgb(r: nat, g: nat, b: nat)
    requires r < 256 && g < 256 && b < 256
    ensures Unpack(6, (r * 256 + g) * 256 + b) == Argb(255, r, g, b)
  {
    var v := (r * 256 + g) * 256 + b;
    DivMod256(r * 256 + g, b);
    DivMod256(r, g);
    assert v == r * 65536 + (g * 256 + b);
    DivMod65536(r, g * 256 + b);
  }

  lemma UnpackArgb(a: nat, r: nat, g: nat, b: nat)
    requires a < 256 && r < 256 && g < 256 && b < 256
    ensures Unpack(8, ((a * 256 + r) * 256 + g) * 256 + b) == Argb(a, r, g, b)
  {
    var w := ((a * 256 + r) * 256 + g) * 256 + b;
    DivMod256((a * 256 + r) * 256 + g, b);
    DivMod256(a * 256 + r, g);
    DivMod256(a, r);
    assert w == (a * 256 + r) * 65536 + (g * 256 + b);
    DivMod65536(a * 256 + r, g * 256 + b);
    assert w == a * 16777216 + ((r * 256 + g) * 256 + b);
    DivMod16777216(a, (r * 256 + g) * 256 + b);
  }

  /** The value of two hex digits, one byte. */
  function Byte(d: string, i: nat): (v: nat)
    requires AllChars(d, IsHexDigit) && i + 2 <= |d|
    ensures v < 256
  {
    HexValueBound(d[i..i + 2]);
    HexValue(d[i..i + 2])
  }

  /** Appending one more byte shifts the value by eight bits. */
  lemma AppendByte(a: string, b: string)
    requires AllChars(a, IsHexDigit) && AllChars(b, IsHexDigit) && |b| == 2
    ensures AllChars(a + b, IsHexDigit)
    ensures HexValue(a + b) == HexValue(a) * 256 + HexValue(b)
  {
    HexDigitsAppend(a, b);
    var a1 := a + [b[0]];
    HexDigitsAppend(a, [b[0]]);
    var h0, h1 := HexDigitValue(b[0]), HexDigitValue(b[1]);
    assert HexValue([b[0]]) == h0 by { assert [b[0]][..0] == []; }
    assert HexValue(b) == HexValue([b[0]]) * 16 + h1 by { assert b[..1] == [b[0]]; }
    assert HexValue(a1) == HexValue(a) * 16 + h0 by { assert a1[..|a1| - 1] == a && a1[|a1| - 1] == b[0]; }
    assert HexValue(a + b) == HexValue(a1) * 16 + h1 by {
      assert (a + b)[..|a + b| - 1] == a1 && (a + b)[|a + b| - 1] == b[1];
    }
    ShiftByte(HexValue(a), h0, h1);
  }

  lemma ShiftByte(x: nat, y: nat, z: nat)
    ensures (x * 16 + y) * 16 + z == x * 256 + (y * 16 + z)
  {
  }

  /** Six digits read as the three bytes R, G, B. */
  lemma SixDigitsValue(d: string)
    requires AllChars(d, IsHexDigit) && |d| == 6
    ensures HexValue(d) == (Byte(d, 0) * 256 + Byte(d, 2)) * 256 + Byte(d, 4)
  {
    var x, y, z := d[0..2], d[2..4], d[4..6];
    assert d == x + y + z;
    AppendByte(x, y);
    AppendByte(x + y, z);
  }

  /** Three digits: each channel is its digit times 17, so `F` is 255 and `0` is 0. */
  lemma ThreeDigits(d: string)
    requires AllChars(d, IsHexDigit) && |d| == 3
    ensures Channels("#" + d) ==
      Argb(255, 17 * HexDigitValue(d[0]), 17 * HexDigitValue(d[1]), 17 * HexDigitValue(d[2]))
  {
    var r, g, b := HexDigitValue(d[0]), HexDigitValue(d[1]), HexDigitValue(d[2]);
    assert Unpack(3, HexValue(d)) == Argb(255, 17 * r, 17 * g, 17 * b) by {
      assert d[..2][..1] == [d[0]] && [d[0]][..0] == [];
      assert HexValue([d[0]]) == r;
      assert HexValue(d[..2]) == r * 16 + g;
      UnpackShort(r, g, b);
    }
    ParsedAsWritten(d);
  }

  /** Six digits: the bytes are red, green and blue, and the colour is opaque. */
  lemma SixDigits(d: string)
    requires AllChars(d, IsHexDigit) && |d| == 6
    ensures Channels("#" + d) == Argb(255, Byte(d, 0), Byte(d, 2), Byte(d, 4))
  {
    assert Unpack(6, HexValue(d)) == Argb(255, Byte(d, 0), Byte(d, 2), Byte(d, 4)) by {
      SixDigitsValue(d);
      UnpackRgb(Byte(d, 0), Byte(d, 2), Byte(d, 4));
    }
    ParsedAsWritten(d);
  }

  /** Eight digits: the first byte is alpha, then red, green and blue. */
  lemma EightDigits(d: string)
    requires AllChars(d, IsHexDigit) && |d| == 8
    ensures Channels("#" + d) == Argb(Byte(d, 0), Byte(d, 2), Byte(d, 4), Byte(d, 6))
  {
    assert Unpack(8, HexValue(d)) == Argb(Byte(d, 0), Byte(d, 2), Byte(d, 4), Byte(d, 6)) by {
      var rgb, w := d[..6], d[6..8];
      assert HexValue(d) == HexValue(rgb) * 256 + HexValue(w) by {
        assert d == rgb + w;
        AppendByte(rgb, w);
      }
      assert HexValue(rgb) == (Byte(d, 0) * 256 + Byte(d, 2)) * 256 + Byte(d, 4) by {
        SixDigitsValue(rgb);
        assert rgb[0..2] == d[0..2] && rgb[2..4] == d[2..4] && rgb[4..6] == d[4..6];
      }
      UnpackArgb(Byte(d, 0), Byte(d, 2), Byte(d, 4), Byte(d, 6));
    }
    ParsedAsWritten(d);
  }

  /** A `0x` prefix counts towards the length: `0x` and six digits has 8 characters and comes out with alpha 0. */
  lemma ZeroXPrefixIsTransparent(d: string)
    requires AllChars(d, IsHexDigit) && |d| == 6
    ensures Channels("0x" + d) == Argb(0, Byte(d, 0), Byte(d, 2), Byte(d, 4))
  {
    var h := "0x" + d;
    assert Unpack(8, HexValue(d)) == Argb(0, Byte(d, 0), Byte(d, 2), Byte(d, 4)) by {
      SixDigitsValue(d);
      UnpackArgb(0, Byte(d, 0), Byte(d, 2), Byte(d, 4));
    }
    assert Trim(h, NotAlphanumeric) == h by {
      assert h[|h| - 1] == d[5];
      TrimClean(h, NotAlphanumeric);
    }
    assert ScanHex(h) == HexValue(d) by {
      assert HexPrefixLength(h) == 2 && h[2..] == d;
      LeadingHexAll(d);
    }
  }

  // ---------------------------------------------------------------------------
  // Round trips through the written forms

  /** A byte as two upper-case hex digits. */
  function ByteHex(n: nat): (s: string)
    requires n < 256
    ensures |s| == 2 && AllChars(s, IsHexDigit)
  {
    [HexDigitChar(n / 16), HexDigitChar(n % 16)]
  }

  lemma ByteHexValue(n: nat)
    requires n < 256
    ensures HexValue(ByteHex(n)) == n
  {
    var s := ByteHex(n);
    assert s[..1] == [s[0]] && [s[0]][..0] == [];
    assert HexValue(s[..1]) == n / 16;
    assert HexValue(s) == (n / 16) * 16 + n % 16;
  }

  /** The bytes of a string of written bytes are the bytes written. */
  lemma ReadBack(d: string, i: nat, n: nat)
    requires n < 256 && AllChars(d, IsHexDigit) && i + 2 <= |d| && d[i..i + 2] == ByteHex(n)
    ensures Byte(d, i) == n
  {
    ByteHexValue(n);
  }

  /** `#RRGGBB` gives back its three bytes, fully opaque. */
  lemma RgbRoundTrip(r: nat, g: nat, b: nat)
    requires r < 256 && g < 256 && b < 256
    ensures Channels("#" + ByteHex(r) + ByteHex(g) + ByteHex(b)) == Argb(255, r, g, b)
  {
    var d := ByteHex(r) + ByteHex(g) + ByteHex(b);
    assert "#" + ByteHex(r) + ByteHex(g) + ByteHex(b) == "#" + d;
    HexDigitsAppend(ByteHex(r), ByteHex(g));
    HexDigitsAppend(ByteHex(r) + ByteHex(g), ByteHex(b));
    assert Byte(d, 0) == r && Byte(d, 2) == g && Byte(d, 4) == b by {
      assert d[0..2] == ByteHex(r) && d[2..4] == ByteHex(g) && d[4..6] == ByteHex(b);
      ReadBack(d, 0, r);
      ReadBack(d, 2, g);
      ReadBack(d, 4, b);
    }
    SixDigits(d);
  }

  /** `#AARRGGBB` gives back alpha first, then the three colour bytes. */
  lemma ArgbRoundTrip(a: nat, r: nat, g: nat, b: nat)
    requires a < 256 && r < 256 && g < 256 && b < 256
    ensures Channels("#" + ByteHex(a) + ByteHex(r) + ByteHex(g) + ByteHex(b)) == Argb(a, r, g, b)
  {
    var d := ByteHex(a) + ByteHex(r) + ByteHex(g) + ByteHex(b);
    assert "#" + ByteHex(a) + ByteHex(r) + ByteHex(g) + ByteHex(b) == "#" + d;
    HexDigitsAppend(ByteHex(a), ByteHex(r));
    HexDigitsAppend(ByteHex(a) + ByteHex(r), ByteHex(g));
    HexDigitsAppend(ByteHex(a) + ByteHex(r) + ByteHex(g), ByteHex(b));
    assert Byte(d, 0) == a && Byte(d, 2) == r && Byte(d, 4) == g && Byte(d, 6) == b by {
      assert d[0..2] == ByteHex(a) && d[2..4] == ByteHex(r) && d[4..6] == ByteHex(g) && d[6..8] == ByteHex(b);
      ReadBack(d, 0, a);
      ReadBack(d, 2, r);
      ReadBack(d, 4, g);
      ReadBack(d, 6, b);
    }
    EightDigits(d);
  }

  /** `#RGB` written from three nibbles gives back each nibble times 17. */
  lemma ShortRoundTrip(r: nat, g: nat, b: nat)
    requires r < 16 && g < 16 && b < 16
    ensures Channels("#" + [HexDigitChar(r), HexDigitChar(g), HexDigitChar(b)]) == Argb(255, 17 * r, 17 * g, 17 * b)
  {
    ThreeDigits([HexDigitChar(r), HexDigitChar(g), HexDigitChar(b)]);
  }

  /** The CSS reading of `#RRGGBBAA` does not apply: `#FF000080` is opaque, with 0x80 as its blue byte. */
  lemma EightDigitsAreArgb()
    ensures Channels("#FF000080") == Argb(255, 0, 0, 128)
  {
    var d := "FF000080";
    assert "#FF000080" == "#" + d;
    assert Byte(d, 0) == 255 && Byte(d, 2) == 0 && Byte(d, 4) == 0 && Byte(d, 6) == 128 by {
      assert d[0..2] == ByteHex(255) && d[2..4] == ByteHex(0) && d[4..6] == ByteHex(0) && d[6..8] == ByteHex(128);
      ReadBack(d, 0, 255);
      ReadBack(d, 2, 0);
      ReadBack(d, 4, 0);
      ReadBack(d, 6, 128);
    }
    EightDigits(d);
  }
}
