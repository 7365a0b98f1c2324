/** The wire encoders of include/convert_tools.h: fixed-width lower-case
    hexadecimal text of one, two and four bytes, and the packing of a scaled
    sensor magnitude into 16 bits with the sign in bit 15. */
module ConvertTools {

  import opened MachineInts
  import opened ArduinoString
  import opened Options

  // ---------------------------------------------------------------------
  // Hexadecimal text
  // ---------------------------------------------------------------------

  /** `byte2hex`: a "0" when the value is at most 0xF, then `String(v, HEX)`. */
  function Byte2Hex(v: uint8): string {
    (if v <= 0xF then "0" else "") + HexText(v)
  }

  /** `lowByte` and `highByte` of a 16-bit value. */
  function LowByte(v: uint16): uint8 { v % Two8 }
  function HighByte(v: uint16): uint8 { v / Two8 }

  /** `short2hex`: the low byte first, then the high byte. */
  function Short2Hex(v: uint16): string {
    Byte2Hex(LowByte(v)) + Byte2Hex(HighByte(v))
  }

  /** Byte k of a 32-bit value, counting from the least significant (k = 0);
      `(byte)((v & (0xFF << 8k)) >> 8k)`. */
  function ByteOf(v: uint32, k: nat): uint8
    requires k < 4
  {
    if k == 0 then v % Two8
    else if k == 1 then (v / Two8) % Two8
    else if k == 2 then (v / Two16) % Two8
    else v / 0x100_0000
  }

  /** `long2hex`: the four bytes, most significant first. */
  function Long2Hex(v: uint32): string {
    Byte2Hex(ByteOf(v, 3)) + Byte2Hex(ByteOf(v, 2)) + Byte2Hex(ByteOf(v, 1)) + Byte2Hex(ByteOf(v, 0))
  }

  /** Two hexadecimal digits, the most significant first, read back; None
      for anything else. */
  function Hex2Byte(s: string): (r: Option<uint8>)
    ensures r.Some? ==> |s| == 2
  {
    if |s| == 2 && IsDigitChar(s[0]) && IsDigitChar(s[1]) then
      Some(DigitValue(s[0]) * 16 + DigitValue(s[1]))
    else None
  }

  /** The reading of `short2hex` text: low byte first. */
  function Hex2Short(s: string): (r: Option<uint16>)
    ensures r.Some? ==> |s| == 4
  {
    if |s| != 4 then None
    else match (Hex2Byte(s[..2]), Hex2Byte(s[2..])) {
      case (Some(low), Some(high)) => Some(high * Two8 + low)
      case _ => None
    }
  }

  /** The reading of `long2hex` text: most significant byte first. */
  function Hex2Long(s: string): (r: Option<uint32>)
    ensures r.Some? ==> |s| == 8
  {
    if |s| != 8 then None
    else match (Hex2Byte(s[..2]), Hex2Byte(s[2..4]), Hex2Byte(s[4..6]), Hex2Byte(s[6..])) {
      case (Some(b3), Some(b2), Some(b1), Some(b0)) =>
        Some(((b3 * Two8 + b2) * Two8 + b1) * Two8 + b0)
      case _ => None
    }
  }

  /** `byte2hex(v)` is exactly the two lower-case digits of v, the high
      nibble first, whether or not the zero padding was needed. */
  lemma {:induction false} Byte2HexDigits(v: uint8)
    ensures Byte2Hex(v) == [DigitChar(v / 16), DigitChar(v % 16)]
    ensures |Byte2Hex(v)| == 2 && IsDigitChar(Byte2Hex(v)[0]) && IsDigitChar(Byte2Hex(v)[1])
  {
    DigitCharValue(v / 16);
    DigitCharValue(v % 16);
    if v >= 16 {
      assert HexText(v) == Digits(v / 16, 16) + [DigitChar(v % 16)];
    }
  }

  /** Reading back `byte2hex` gives the byte, and text that reads as a byte is
      exactly what `byte2hex` writes for it: encoder and decoder are inverse. */
  lemma Byte2HexRoundTrip(v: uint8, s: string)
    ensures Hex2Byte(Byte2Hex(v)) == Some(v)
    ensures Hex2Byte(s) == Some(v) ==> Byte2Hex(v) == s
  {
    Byte2HexDigits(v);
    DigitCharValue(v / 16);
    DigitCharValue(v % 16);
    if Hex2Byte(s) == Some(v) {
      DigitValueChar(s[0]);
      DigitValueChar(s[1]);
    }
  }

  /** A digit character is the character of its value. */
  lemma DigitValueChar(c: char)
    requires IsDigitChar(c)
    ensures DigitChar(DigitValue(c)) == c
  {
  }

  /** `short2hex` is four characters: the low byte's two digits, then the
      high byte's. */
  lemma Short2HexLayout(v: uint16)
    ensures |Short2Hex(v)| == 4
    ensures Short2Hex(v)[..2] == Byte2Hex(v % 256) && Short2Hex(v)[2..] == Byte2Hex(v / 256)
  {
    Byte2HexDigits(LowByte(v));
    Byte2HexDigits(HighByte(v));
  }

  /** Reading `short2hex` text low byte first recovers the value, and text
      that reads as a value is what `short2hex` writes for it. */
  lemma Short2HexRoundTrip(v: uint16, s: string)
    ensures Hex2Short(Short2Hex(v)) == Some(v)
    ensures Hex2Short(s) == Some(v) ==> Short2Hex(v) == s
  {
    Short2HexLayout(v);
    Byte2HexRoundTrip(LowByte(v), "");
    Byte2HexRoundTrip(HighByte(v), "");
    if Hex2Short(s) == Some(v) {
      var low, high := Hex2Byte(s[..2]).value, Hex2Byte(s[2..]).value;
      assert low == LowByte(v) && high == HighByte(v);
      Byte2HexRoundTrip(low, s[..2]);
      Byte2HexRoundTrip(high, s[2..]);
      assert s == s[..2] + s[2..];
    }
  }

  /** `long2hex` is eight characters: the bytes most significant first. */
  lemma Long2HexLayout(v: uint32)
    ensures |Long2Hex(v)| == 8
    ensures Long2Hex(v)[..2] == Byte2Hex(ByteOf(v, 3)) && Long2Hex(v)[2..4] == Byte2Hex(ByteOf(v, 2))
    ensures Long2Hex(v)[4..6] == Byte2Hex(ByteOf(v, 1)) && Long2Hex(v)[6..] == Byte2Hex(ByteOf(v, 0))
  {
    Byte2HexDigits(ByteOf(v, 3));
    Byte2HexDigits(ByteOf(v, 2));
    Byte2HexDigits(ByteOf(v, 1));
    Byte2HexDigits(ByteOf(v, 0));
  }

  /** The four bytes of a 32-bit value put back together give the value, and
      a value is determined by its four bytes. */
  lemma BytesOfLong(v: uint32, b3: uint8, b2: uint8, b1: uint8, b0: uint8)
    ensures ((ByteOf(v, 3) * Two8 + ByteOf(v, 2)) * Two8 + ByteOf(v, 1)) * Two8 + ByteOf(v, 0) == v
    ensures ((b3 * Two8 + b2) * Two8 + b1) * Two8 + b0 == v ==>
      b3 == ByteOf(v, 3) && b2 == ByteOf(v, 2) && b1 == ByteOf(v, 1) && b0 == ByteOf(v, 0)
  {
    var x0, q1 := v % Two8, v / Two8;
    var x1, q2 := q1 % Two8, q1 / Two8;
    var x2, x3 := q2 % Two8, q2 / Two8;
    assert q1 < 0x100_0000 && q2 < Two16 && x3 < Two8;
    assert v == ((x3 * Two8 + x2) * Two8 + x1) * Two8 + x0;
    BytesOfWord(x3, x2, x1, x0);
    if ((b3 * Two8 + b2) * Two8 + b1) * Two8 + b0 == v {
      BytesOfWord(b3, b2, b1, b0);
    }
  }

  /** Division by one, two or three bytes' worth leaves the quotient and
      remainder of any such sum. */
  lemma DivUnique(v: int, q: int, r: int, d: int)
    requires d == Two8 || d == Two16 || d == 0x100_0000
    requires 0 <= r < d && v == q * d + r
    ensures v / d == q && v % d == r
  {
  }

  /** The bytes of a word assembled from four bytes are those bytes. */
  lemma BytesOfWord(b3: uint8, b2: uint8, b1: uint8, b0: uint8)
    ensures ((b3 * Two8 + b2) * Two8 + b1) * Two8 + b0 < Two32
    ensures var v: uint32 := ((b3 * Two8 + b2) * Two8 + b1) * Two8 + b0;
      ByteOf(v, 3) == b3 && ByteOf(v, 2) == b2 && ByteOf(v, 1) == b1 && ByteOf(v, 0) == b0
  {
    var high := b3 * Two8 + b2;
    var q1 := high * Two8 + b1;
    var v := q1 * Two8 + b0;
    assert high < Two16;
    assert q1 < 0x100_0000;
    DivUnique(v, q1, b0, Two8);
    DivUnique(q1, high, b1, Two8);
    DivUnique(v, high, b1 * Two8 + b0, Two16);
    DivUnique(high, b3, b2, Two8);
    DivUnique(v, b3, (b2 * Two8 + b1) * Two8 + b0, 0x100_0000);
  }

  /** Reading `long2hex` text most significant byte first recovers the value,
      and text that reads as a value is what `long2hex` writes for it. */
  lemma Long2HexRoundTrip(v: uint32, s: string)
    ensures Hex2Long(Long2Hex(v)) == Some(v)
    ensures Hex2Long(s) == Some(v) ==> Long2Hex(v) == s
  {
    var t := Long2Hex(v);
    Long2HexLayout(v);
    Byte2HexRoundTrip(ByteOf(v, 3), "");
    Byte2HexRoundTrip(ByteOf(v, 2), "");
    Byte2HexRoundTrip(ByteOf(v, 1), "");
    Byte2HexRoundTrip(ByteOf(v, 0), "");
    BytesOfLong(v, 0, 0, 0, 0);
    if Hex2Long(s) == Some(v) {
      var b3, b2 := Hex2Byte(s[..2]).value, Hex2Byte(s[2..4]).value;
      var b1, b0 := Hex2Byte(s[4..6]).value, Hex2Byte(s[6..]).value;
      BytesOfLong(v, b3, b2, b1, b0);
      Byte2HexRoundTrip(b3, s[..2]);
      Byte2HexRoundTrip(b2, s[2..4]);
      Byte2HexRoundTrip(b1, s[4..6]);
      Byte2HexRoundTrip(b0, s[6..]);
      assert s == s[..2] + s[2..4] + s[4..6] + s[6..];
    }
  }

  /** Each encoder is injective. */
  lemma HexEncodersInjective(a: uint32, b: uint32)
    ensures a < Two8 && b < Two8 && Byte2Hex(a) == Byte2Hex(b) ==> a == b
    ensures a < Two16 && b < Two16 && Short2Hex(a) == Short2Hex(b) ==> a == b
    ensures Long2Hex(a) == Long2Hex(b) ==> a == b
  {
    if a < Two8 && b < Two8 {
      Byte2HexRoundTrip(a, "");
      Byte2HexRoundTrip(b, "");
    }
    if a < Two16 && b < Two16 {
      Short2HexRoundTrip(a, "");
      Short2HexRoundTrip(b, "");
    }
    Long2HexRoundTrip(a, "");
    Long2HexRoundTrip(b, "");
  }

  /** The examples of the documentation. */
  lemma HexExamples()
    ensures Byte2Hex(0x0A) == "0a" && Byte2Hex(0xFF) == "ff"
    ensures Short2Hex(0x1234) == "3412"
    ensures Long2Hex(0x1234_5678) == "12345678"
  {
    Byte2HexDigits(0x0A);
    Byte2HexDigits(0xFF);
    Short2HexLayout(0x1234);
    Byte2HexDigits(0x34);
    Byte2HexDigits(0x12);
    Long2HexLayout(0x1234_5678);
    Byte2HexDigits(0x56);
    Byte2HexDigits(0x78);
  }

  // ---------------------------------------------------------------------
  // Sign-and-magnitude packing
  // ---------------------------------------------------------------------

  /** A sensor value as the encoders see it once the floating-point work is
      done: whether `value < 0`, and the magnitude `|value|` truncated to
      `uint16_t` after scaling by 1, 10 and 100. */
  datatype Reading = Reading(negative: bool, units: bv16, tenths: bv16, hundredths: bv16)

  const SignBit: bv16 := 0x8000
  const MagnitudeMask: bv16 := 0x7FFF

  /** The magnitude for `decimal` digits after the point; 0 unless decimal is
      0, 1 or 2. */
  function Scaled(r: Reading, decimal: uint8): bv16 {
    if decimal == 0 then r.units
    else if decimal == 1 then r.tenths
    else if decimal == 2 then r.hundredths
    else 0
  }

  /** `float2int15`: the magnitude, with bit 15 toggled for a negative value. */
  function Float2Int15(r: Reading, decimal: uint8): bv16 {
    var converted := Scaled(r, decimal);
    if r.negative then converted ^ SignBit else converted
  }

  /** `float2uint16`: the magnitude alone. */
  function Float2Uint16(r: Reading, decimal: uint8): bv16 {
    Scaled(r, decimal)
  }

  /** The value a receiver reads from an int15 word: bit 15 is the sign and
      bits 14..0 the magnitude. */
  function DecodeInt15(w: bv16): int {
    if w & SignBit == 0 then (w & MagnitudeMask) as int else -((w & MagnitudeMask) as int)
  }

  /** Flipping bit 15 keeps bits 14..0 and inverts bit 15. */
  lemma FlipSignBit(m: bv16)
    ensures (m ^ SignBit) & MagnitudeMask == m & MagnitudeMask
    ensures (m ^ SignBit) & SignBit == 0 <==> m & SignBit != 0
    ensures m & SignBit != 0 ==> m ^ SignBit == m & MagnitudeMask
  {
  }

  /** A word below 0x8000 is its own magnitude and has bit 15 clear; with bit
      15 set its magnitude is the word less 0x8000. */
  lemma LowWord(m: bv16)
    ensures m < SignBit ==> m & MagnitudeMask == m && m & SignBit == 0
    ensures m < SignBit ==> (m ^ SignBit) & SignBit != 0
  {
  }

  /** For a negative value bit 15 of the word is the opposite of the
      magnitude's, so a magnitude of 0x8000 or more loses its top bit
      instead of keeping it. */
  lemma Float2Int15Sign(r: Reading, decimal: uint8)
    ensures r.negative ==> (Float2Int15(r, decimal) & SignBit == 0 <==> Scaled(r, decimal) & SignBit != 0)
  {
    FlipSignBit(Scaled(r, decimal));
  }

  /** The flip is not an OR: a negative reading of magnitude 0x8001 gives 1. */
  lemma Float2Int15TogglesNotSets()
    ensures Float2Int15(Reading(true, 0x8001, 0, 0), 0) == 1
    ensures (0x8001 as bv16) | SignBit != 1
  {
  }

  /** Any magnitude below 0x8000 reads back with its sign; -0 reads as 0. */
  lemma Float2Int15RoundTrip(r: Reading, decimal: uint8)
    requires Scaled(r, decimal) < SignBit
    ensures DecodeInt15(Float2Int15(r, decimal))
      == if r.negative then -(Scaled(r, decimal) as int) else Scaled(r, decimal) as int
  {
    var m := Scaled(r, decimal);
    FlipSignBit(m);
    LowWord(m);
  }

  /** A `decimal` outside {0, 1, 2} gives the magnitude 0: `float2uint16`
      returns 0, and `float2int15` returns 0 for a non-negative value and the
      bare sign bit 0x8000 for a negative one. */
  lemma UnsupportedDecimal(r: Reading, decimal: uint8)
    requires decimal > 2
    ensures Float2Uint16(r, decimal) == 0
    ensures Float2Int15(r, decimal) == if r.negative then SignBit else 0
  {
  }

  /** `float2uint16` encodes a negative value as the word `float2int15` gives
      for the non-negative one. This records the abstraction rather than
      proving the source's `aux = aux * -1` step: a `Reading` already carries
      the absolute value in its magnitudes, and `Float2Uint16` never reads
      the sign. */
  lemma Float2Uint16IgnoresSign(r: Reading, decimal: uint8)
    ensures Float2Uint16(r, decimal) == Float2Uint16(r.(negative := false), decimal)
    ensures Float2Uint16(r, decimal) == Float2Int15(r.(negative := false), decimal)
  {
  }
}
