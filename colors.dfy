/**
 * RGB565 colour packing (`Arduino_GFX::color565`) and the named colour constants
 * of Arduino_GFX.h. A packed colour holds 5 bits of red in bits 15..11, 6 bits of
 * green in bits 10..5 and 5 bits of blue in bits 4..0; the low bits of each 8-bit
 * channel are dropped, not rounded.
 */
module Colors {
  import opened CTypes

  // Named colours; each comment gives the 8-bit (red, green, blue) triple the header attaches to it.
  const BLACK: uint16 := 0x0000        //   0,   0,   0
  const NAVY: uint16 := 0x000F         //   0,   0, 123
  const DARKGREEN: uint16 := 0x03E0    //   0, 125,   0
  const DARKCYAN: uint16 := 0x03EF     //   0, 125, 123
  const MAROON: uint16 := 0x7800       // 123,   0,   0
  const PURPLE: uint16 := 0x780F       // 123,   0, 123
  const OLIVE: uint16 := 0x7BE0        // 123, 125,   0
  const LIGHTGREY: uint16 := 0xC618    // 198, 195, 198
  const DARKGREY: uint16 := 0x7BEF     // 123, 125, 123
  const BLUE: uint16 := 0x001F         //   0,   0, 255
  const GREEN: uint16 := 0x07E0        //   0, 255,   0
  const CYAN: uint16 := 0x07FF         //   0, 255, 255
  const RED: uint16 := 0xF800          // 255,   0,   0
  const MAGENTA: uint16 := 0xF81F      // 255,   0, 255
  const YELLOW: uint16 := 0xFFE0       // 255, 255,   0
  const WHITE: uint16 := 0xFFFF        // 255, 255, 255
  const ORANGE: uint16 := 0xFD20       // 255, 165,   0
  const GREENYELLOW: uint16 := 0xAFE5  // 173, 255,  41
  const PINK: uint16 := 0xFC18         // 255, 130, 198

  /**
   * The packing exactly as the header writes it: `(red & 0xF8) << 8`,
   * `(green & 0xFC) << 3` and `blue >> 3`, or-ed together. In C the operands are
   * promoted to `int`; every intermediate value fits in 16 bits, so computing in
   * bv16 loses nothing.
   */
  function Color565(red: uint8, green: uint8, blue: uint8): (c: uint16)
    ensures c >> 11 == (red >> 3) as uint16
    ensures (c >> 5) & 0x3F == (green >> 2) as uint16
    ensures c & 0x1F == (blue >> 3) as uint16
  {
    ((red as uint16 & 0xF8) << 8) | ((green as uint16 & 0xFC) << 3) | (blue as uint16 >> 3)
  }

  /**
   * The '565' format read as a number: the top 5 bits of red, then the top 6 bits
   * of green, then the top 5 bits of blue, as digits in mixed radix 32 * 64 * 32.
   */
  function PackedValue(red: nat, green: nat, blue: nat): (v: nat)
    requires red < 0x100 && green < 0x100 && blue < 0x100
    ensures v < 0x10000
  {
    (red / 8) * 2048 + (green / 4) * 32 + blue / 8
  }

  /** Each channel's digit can be read back from the numeric value: bits 15..11, 10..5 and 4..0. */
  lemma PackedValueDigits(red: nat, green: nat, blue: nat)
    requires red < 0x100 && green < 0x100 && blue < 0x100
    ensures PackedValue(red, green, blue) / 2048 == red / 8
    ensures (PackedValue(red, green, blue) / 32) % 64 == green / 4
    ensures PackedValue(red, green, blue) % 32 == blue / 8
  {
    var v, r5, g6, b5 := PackedValue(red, green, blue), red / 8, green / 4, blue / 8;
    assert v == r5 * 2048 + (g6 * 32 + b5) && g6 * 32 + b5 < 2048;
    assert v == (r5 * 64 + g6) * 32 + b5 && b5 < 32;
    assert v / 32 == r5 * 64 + g6;
  }

  /** The 8-bit red level a packed colour stands for (its 5 bits, low bits zero). */
  function RedOf(c: uint16): (level: uint8) { ((c >> 11) << 3) as uint8 }

  /** The 8-bit green level a packed colour stands for (its 6 bits, low bits zero). */
  function GreenOf(c: uint16): (level: uint8) { (((c >> 5) & 0x3F) << 2) as uint8 }

  /** The 8-bit blue level a packed colour stands for (its 5 bits, low bits zero). */
  function BlueOf(c: uint16): (level: uint8) { ((c & 0x1F) << 3) as uint8 }

  /** Packing keeps exactly the high bits of each channel: unpacking gives the input with its low bits cleared. */
  lemma Color565Unpacks(red: uint8, green: uint8, blue: uint8)
    ensures RedOf(Color565(red, green, blue)) == red & 0xF8
    ensures GreenOf(Color565(red, green, blue)) == green & 0xFC
    ensures BlueOf(Color565(red, green, blue)) == blue & 0xF8
  {
  }

  /** Every 16-bit colour is the packing of the levels it stands for, so packing reaches every colour. */
  lemma Color565OfUnpacked(c: uint16)
    ensures Color565(RedOf(c), GreenOf(c), BlueOf(c)) == c
  {
  }

  /**
   * Truncation, not rounding: two triples pack to the same colour exactly when
   * they agree on the top 5 bits of red, the top 6 of green and the top 5 of blue.
   */
  lemma Color565SameIff(r1: uint8, g1: uint8, b1: uint8, r2: uint8, g2: uint8, b2: uint8)
    ensures Color565(r1, g1, b1) == Color565(r2, g2, b2)
        <==> r1 & 0xF8 == r2 & 0xF8 && g1 & 0xFC == g2 & 0xFC && b1 & 0xF8 == b2 & 0xF8
  {
    if Color565(r1, g1, b1) == Color565(r2, g2, b2) {
      Color565Unpacks(r1, g1, b1);
      Color565Unpacks(r2, g2, b2);
    }
    if r1 & 0xF8 == r2 & 0xF8 && g1 & 0xFC == g2 & 0xFC && b1 & 0xF8 == b2 & 0xF8 {
      Color565Truncates(r1, g1, b1);
      Color565Truncates(r2, g2, b2);
    }
  }

  /** Only the kept bits matter: clearing the low 3 bits of red or blue, or the low 2 of green, changes nothing. */
  lemma Color565Truncates(red: uint8, green: uint8, blue: uint8)
    ensures Color565(red, green, blue) == Color565(red & 0xF8, green & 0xFC, blue & 0xF8)
  {
  }

  /** The bit-level packing and the numeric 5-6-5 reading agree on every input. */
  lemma Color565Value(red: uint8, green: uint8, blue: uint8)
    ensures Color565(red, green, blue) as int == PackedValue(red as nat, green as nat, blue as nat)
  {
    var hi := (red & 0xF8) | (green >> 5);
    var lo := (((green >> 2) & 7) << 5) | (blue >> 3);
    Color565Halves(red, green, blue);
    BytesValue(hi, lo);
    HighByteValue(red, green);
    ShiftRight2Value(green);
    Low3Value(green >> 2);
    LowByteValue((green >> 2) & 7, blue >> 3);
    ShiftRight3Value(blue);
    MixedRadix(red as int, green as int, blue as int, hi as int, lo as int);
  }

  /** Every named colour equals `Color565` of the triple written beside it in the header. */
  lemma NamedColorsMatchTheirTriples()
    ensures BLACK == Color565(0, 0, 0)
    ensures NAVY == Color565(0, 0, 123)
    ensures DARKGREEN == Color565(0, 125, 0)
    ensures DARKCYAN == Color565(0, 125, 123)
    ensures MAROON == Color565(123, 0, 0)
    ensures PURPLE == Color565(123, 0, 123)
    ensures OLIVE == Color565(123, 125, 0)
    ensures LIGHTGREY == Color565(198, 195, 198)
    ensures DARKGREY == Color565(123, 125, 123)
    ensures BLUE == Color565(0, 0, 255)
    ensures GREEN == Color565(0, 255, 0)
    ensures CYAN == Color565(0, 255, 255)
    ensures RED == Color565(255, 0, 0)
    ensures MAGENTA == Color565(255, 0, 255)
    ensures YELLOW == Color565(255, 255, 0)
    ensures WHITE == Color565(255, 255, 255)
    ensures ORANGE == Color565(255, 165, 0)
    ensures GREENYELLOW == Color565(173, 255, 41)
    ensures PINK == Color565(255, 130, 198)
  {
  }

  // Helpers for Color565Value. The solver relates 8-bit vectors to integers
  // cheaply but not 16-bit ones, so the packed colour is taken apart into its
  // high and low byte.

  lemma Color565Halves(red: uint8, green: uint8, blue: uint8)
    ensures Color565(red, green, blue)
         == (((red & 0xF8) | (green >> 5)) as uint16 << 8) | ((((green >> 2) & 7) << 5) | (blue >> 3)) as uint16
  {
  }

  lemma BytesValue(hi: uint8, lo: uint8)
    ensures ((hi as uint16 << 8) | lo as uint16) as int == hi as int * 256 + lo as int
  {
  }

  lemma HighByteValue(red: uint8, green: uint8)
    ensures ((red & 0xF8) | (green >> 5)) as int == (red as int / 8) * 8 + green as int / 32
  {
  }

  lemma ShiftRight2Value(x: uint8)
    ensures (x >> 2) as int == x as int / 4
  {
  }

  lemma ShiftRight3Value(x: uint8)
    ensures (x >> 3) as int == x as int / 8
  {
  }

  lemma Low3Value(x: uint8)
    ensures (x & 7) as int == x as int % 8
  {
  }

  lemma LowByteValue(x: uint8, y: uint8)
    requires x < 8 && y < 32
    ensures ((x << 5) | y) as int == x as int * 32 + y as int
  {
  }

  lemma MixedRadix(red: int, green: int, blue: int, hi: int, lo: int)
    requires 0 <= green
    requires hi == (red / 8) * 8 + green / 32
    requires lo == ((green / 4) % 8) * 32 + blue / 8
    ensures hi * 256 + lo == (red / 8) * 2048 + (green / 4) * 32 + blue / 8
  {
    var q := green / 4;
    assert green / 32 == q / 8;
    assert q * 32 == (q / 8) * 256 + (q % 8) * 32;
  }
}
