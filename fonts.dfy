/**
 * Custom-font glyph lookup. A font is a read-only table: a shared bitmap byte
 * array and an array of per-glyph metrics. gfxfont.h, which declares the two
 * records, is not part of this model; the fields below are the glyph metrics the
 * text engine reads.
 */
module Fonts {
  import opened CTypes

  /** One character's metrics: where its bits start in the font bitmap, its box, its advance and its offsets. */
  datatype Glyph = Glyph(
    bitmapOffset: uint16,
    width: uint8,
    height: uint8,
    xAdvance: uint8,
    xOffset: int8,
    yOffset: int8)

  /** A font table as the drawing context references it: the glyph bitmaps and the glyph array. */
  datatype Font = Font(bitmap: seq<uint8>, glyph: seq<Glyph>)

  /**
   * `pgm_read_glyph_ptr(gfxFont, c)` on the non-AVR path: the pointer
   * `gfxFont->glyph + c`, that is, element `c` of the glyph array. The index is
   * taken as given: the caller is responsible for keeping it inside the array.
   */
  function GlyphAt(font: Font, c: uint8): (g: Glyph)
    requires c as int < |font.glyph|
    ensures g == font.glyph[c as int]
  {
    font.glyph[c]
  }
}
