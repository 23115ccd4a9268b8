// JUCE Colour values: four 8-bit channels, built from integers by the same
// unsigned conversions the C++ code performs.
module Colours {

  type Byte = x: int | 0 <= x < 256
  type Word = x: int | 0 <= x < 0x1_0000_0000

  datatype Colour = Colour(r: Byte, g: Byte, b: Byte, a: Byte)
  {
    /** `getFloatRed ()` and friends: the channel scaled to [0, 1]. */
    function FloatRed(): real { r as real / 255.0 }
    function FloatGreen(): real { g as real / 255.0 }
    function FloatBlue(): real { b as real / 255.0 }
    function FloatAlpha(): real { a as real / 255.0 }
  }

  /** The conversion of an `int` argument to a `uint8` parameter: reduction modulo 256. */
  function ToByte(v: int): (b: Byte)
    ensures 0 <= v < 256 ==> b == v
    ensures (b - v) % 256 == 0
  {
    v % 256
  }

  /** The conversion of an `int` to `uint32`: reduction modulo 2^32. */
  function ToWord(v: int): (w: Word)
    ensures 0 <= v < 0x1_0000_0000 ==> w == v
  {
    v % 0x1_0000_0000
  }

  /** `Colour::fromRGB (uint8 r, uint8 g, uint8 b)`: opaque. */
  function FromRGB(r: int, g: int, b: int): (c: Colour)
    ensures c.a == 255
    ensures c.r == ToByte(r) && c.g == ToByte(g) && c.b == ToByte(b)
  {
    Colour(ToByte(r), ToByte(g), ToByte(b), 255)
  }

  /** `Colour::fromRGBA (uint8 r, uint8 g, uint8 b, uint8 a)`. */
  function FromRGBA(r: int, g: int, b: int, a: int): (c: Colour)
    ensures c.r == ToByte(r) && c.g == ToByte(g) && c.b == ToByte(b) && c.a == ToByte(a)
  {
    Colour(ToByte(r), ToByte(g), ToByte(b), ToByte(a))
  }

  /** `Colour (uint32 argb)`: alpha in the top byte, then red, green, blue. */
  function FromARGB(v: int): (c: Colour)
    ensures ToWord(v) == c.a * 0x100_0000 + c.r * 0x1_0000 + c.g * 0x100 + c.b
  {
    var w := ToWord(v);
    var w1 := w / 0x100;
    var w2 := w1 / 0x100;
    assert w2 / 0x100 < 256;
    Colour(w2 % 256, w1 % 256, w % 256, w2 / 0x100)
  }

  const TransparentWhite: Colour := Colour(255, 255, 255, 0)
  const TransparentBlack: Colour := Colour(0, 0, 0, 0)
  const Black: Colour := Colour(0, 0, 0, 255)
  const White: Colour := Colour(255, 255, 255, 255)
  const Yellow: Colour := Colour(255, 255, 0, 255)
  const Red: Colour := Colour(255, 0, 0, 255)
  /** JUCE's `Colours::green` is the web colour green, 0xff008000. */
  const Green: Colour := Colour(0, 128, 0, 255)
  const Blue: Colour := Colour(0, 0, 255, 255)

  /** The value of a hexadecimal digit, or -1 for any other character. */
  function HexDigit(c: char): (d: int)
    ensures -1 <= d < 16
  {
    if '0' <= c <= '9' then c as int - '0' as int
    else if 'a' <= c <= 'f' then c as int - 'a' as int + 10
    else if 'A' <= c <= 'F' then c as int - 'A' as int + 10
    else -1
  }

  /**
   * JUCE's hexadecimal parser behind `Colour::fromString`: characters that
   * are not hex digits are skipped and the value is shifted into 32 bits.
   */
  function HexParse(s: string): (w: Word)
  {
    if |s| == 0 then 0
    else
      var prefix := HexParse(s[..|s| - 1]);
      var d := HexDigit(s[|s| - 1]);
      if d < 0 then prefix else (prefix * 16 + d) % 0x1_0000_0000
  }

  /** `Colour::fromString`: the ARGB word read as hexadecimal. */
  function FromString(s: string): Colour
  {
    FromARGB(HexParse(s))
  }

  /** The lower-case hexadecimal digit for 0..15. */
  function HexChar(d: int): (c: char)
    requires 0 <= d < 16
    ensures HexDigit(c) == d
  {
    if d < 10 then ('0' as int + d) as char else ('a' as int + d - 10) as char
  }

  /** `String::toHexString`: lower-case hexadecimal digits without leading zeros ("0" for zero). */
  function HexText(w: nat): (s: string)
    ensures |s| > 0
  {
    if w < 16 then [HexChar(w)] else HexText(w / 16) + [HexChar(w % 16)]
  }

  /** Hexadecimal text of a 32-bit word reads back as the word. */
  lemma {:induction false} HexParseOfHexText(w: Word)
    ensures HexParse(HexText(w)) == w
  {
    var s := HexText(w);
    var d := w % 16;
    if w >= 16 {
      var p := w / 16;
      assert HexParse(s) == (p * 16 + d) % 0x1_0000_0000 by {
        HexParseOfHexText(p);
        assert s == HexText(p) + [HexChar(d)];
        HexParseStep(HexText(p), HexChar(d));
      }
      assert p * 16 + d == w by {
        DivMod16(w);
      }
      WordMod(w);
    } else {
      assert s == [] + [HexChar(d)];
      HexParseStep([], HexChar(d));
    }
  }

  lemma DivMod16(w: nat)
    ensures (w / 16) * 16 + w % 16 == w
  {
  }

  lemma WordMod(x: int)
    requires 0 <= x < 0x1_0000_0000
    ensures x % 0x1_0000_0000 == x
  {
  }

  /** One more hex digit shifts the value read so far. */
  lemma HexParseStep(s: string, c: char)
    requires HexDigit(c) >= 0
    ensures HexParse(s + [c]) == (HexParse(s) * 16 + HexDigit(c)) % 0x1_0000_0000
  {
    assert (s + [c])[..|s|] == s;
  }

  /** The colour's channels in ARGB order, as `getARGB ()` packs them. */
  function ARGB(c: Colour): (w: Word)
    ensures FromARGB(w) == c
  {
    FromARGBOfChannels(c);
    c.a * 0x100_0000 + c.r * 0x1_0000 + c.g * 0x100 + c.b
  }

  /** `Colour::toString ()`: the ARGB word in hexadecimal. */
  function ColourText(c: Colour): string
  {
    HexText(ARGB(c))
  }

  /** The text of a colour parses back to the same colour. */
  lemma FromStringOfColourText(c: Colour)
    ensures FromString(ColourText(c)) == c
  {
    HexParseOfHexText(ARGB(c));
  }

  lemma {:induction false} HexParseSkipsNonDigits(s: string, c: char)
    requires HexDigit(c) < 0
    ensures HexParse(s + [c]) == HexParse(s)
  {
    assert (s + [c])[..|s + [c]| - 1] == s;
  }

  /** The ARGB word of a colour read back through `Colour (uint32)` gives the same colour. */
  lemma FromARGBOfChannels(c: Colour)
    ensures FromARGB(c.a * 0x100_0000 + c.r * 0x1_0000 + c.g * 0x100 + c.b) == c
  {
    DivModByte(c.a * 0x1_0000 + c.r * 0x100 + c.g, c.b);
    DivModByte(c.a * 0x100 + c.r, c.g);
    DivModByte(c.a, c.r);
  }

  /** Dividing `q * 256 + r` by 256 gives back `q` and `r`. */
  lemma DivModByte(q: nat, r: Byte)
    ensures (q * 0x100 + r) / 0x100 == q && (q * 0x100 + r) % 0x100 == r
  {
  }
}
