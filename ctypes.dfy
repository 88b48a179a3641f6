/** Fixed-width integer types of the C++ code, and a nullable-pointer stand-in. */
module CTypes {

  /** `uint8_t`: the code masks and shifts these, so they are bit-vectors. */
  type uint8 = bv8

  /** `uint16_t`: packed RGB565 colours. */
  type uint16 = bv16

  /** `int8_t`: glyph offsets in a font table. */
  newtype int8 = x: int | -0x80 <= x < 0x80

  /** `int16_t`: coordinates, sizes and the text cursor. */
  newtype int16 = x: int | -0x8000 <= x < 0x8000

  /** A pointer that may be NULL. */
  datatype Option<+T> = None | Some(value: T)
}
