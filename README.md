# Arduino_GFX core: colour packing, helper macros and text state

A Dafny model of the self-contained logic in the public header `Arduino_GFX.h` of
Arduino_GFX, a 2D software rasteriser for small displays:

- **RGB565 colour packing** (`colors.dfy`, module `Colors`): `color565` transcribed on
  16-bit vectors, the 19 named colour constants, and an independent numeric reading of
  the 5-6-5 format. The bit-level packing is proved equal to the numeric one. It is also
  proved to keep exactly the high 5/6/5 bits of each channel: it truncates rather than
  rounds, and every 16-bit colour can be produced by it.
- **Helper macros** (`macros.dfy`, module `Macros`): `_diff`, `_ordered_in_range`,
  `_in_range`, `_swap_uint8_t` and `_swap_int16_t`.
- **Glyph lookup** (`fonts.dfy`, module `Fonts`): `pgm_read_glyph_ptr` on the non-AVR
  path, as indexing into the font's glyph array.
- **Text and drawing state** (`gfx.dfy`, module `Gfx`): the `Arduino_GFX` object's
  fields as a class `ArduinoGfx`, with its inline setters and getters. `State()` copies
  the fields into a `GfxState` value. Each setter's postcondition gives the whole new
  state as a function of the old one. Lemmas about those functions state the
  transparent-background convention, that each setter touches only its own fields, and
  that the setters keep the documented size/bound/rotation relation.

`ctypes.dfy` (module `CTypes`) holds the C integer types. `uint8_t` and `uint16_t` are
`bv8` and `bv16`, because the code masks and shifts them. `int16_t` is a range newtype.

The doc comments on the fields `textcolor` and `textbgcolor`
(Arduino_GFX.h:341-342) call the first the background colour and the second the
text colour. The setters (Arduino_GFX.h:228, 237-241) use them the other way round.
The model follows the setters: `textColor` is the foreground and `textBgColor` the
background.

## Model

| member | source | states |
|---|---|---|
| `Colors.Color565` | Arduino_GFX.h:326-329 | bits 15..11 of the result are `red >> 3`, bits 10..5 are `green >> 2`, bits 4..0 are `blue >> 3` |
| `Colors.PackedValue` | Arduino_GFX.h:316-324 | the numeric 5-6-5 value of three 8-bit channels is always below 65536 |
| `Colors.PackedValueDigits` | Arduino_GFX.h:316-324 | each channel's kept bits can be read back from the numeric value: red from bits 15..11, green from 10..5, blue from 4..0 |
| `Colors.Color565Value` | Arduino_GFX.h:326-329 | the bit-level packing, read as an integer, equals the numeric 5-6-5 value for every input |
| `Colors.Color565Unpacks` | Arduino_GFX.h:326-329 | unpacking a packed colour gives back each channel with its low bits cleared (`red & 0xF8`, `green & 0xFC`, `blue & 0xF8`) |
| `Colors.Color565OfUnpacked` | Arduino_GFX.h:326-329 | packing the levels a 16-bit colour stands for gives that colour back, so every 16-bit colour is reachable |
| `Colors.Color565Truncates` | Arduino_GFX.h:328 | changing only the low 3 bits of red or blue, or the low 2 bits of green, leaves the result unchanged |
| `Colors.Color565SameIff` | Arduino_GFX.h:328 | two triples pack to the same colour if and only if they agree on the top 5 bits of red, the top 6 of green and the top 5 of blue |
| `Colors.NamedColorsMatchTheirTriples` | Arduino_GFX.h:19-37 | each of the 19 named colours equals `color565` of the (red, green, blue) triple in its comment |
| `Macros.Diff` | Arduino_GFX.h:80-82 | `_diff(a, b)` is non-negative and equals \|a - b\|, the larger operand minus the smaller |
| `Macros.DiffSymmetric` | Arduino_GFX.h:80-82 | `_diff(a, b) == _diff(b, a)`, and it is zero exactly when `a == b` |
| `Macros.OrderedInRange` | Arduino_GFX.h:84-86 | `_ordered_in_range(v, a, b)` holds only when `a <= b`, and then only for `v` between them |
| `Macros.InRange` | Arduino_GFX.h:88-90 | `_in_range(v, a, b)` holds exactly when min(a, b) <= v <= max(a, b) |
| `Macros.InRangeSymmetric` | Arduino_GFX.h:88-90 | `_in_range(v, a, b) == _in_range(v, b, a)` |
| `Macros.InRangeAgreesWhenOrdered` | Arduino_GFX.h:84-90 | when `a <= b`, `_in_range` and `_ordered_in_range` agree; when `a > b`, `_ordered_in_range` holds for no `v` |
| `Macros.InRangeByDiff` | Arduino_GFX.h:80-90 | `v` is between `a` and `b` exactly when `_diff(a, v) + _diff(v, b) == _diff(a, b)` |
| `Macros.SwapUint8` | Arduino_GFX.h:62-69 | afterwards `a` holds the old `b` and `b` holds the old `a` |
| `Macros.SwapInt16` | Arduino_GFX.h:71-78 | afterwards `a` holds the old `b` and `b` holds the old `a` |
| `Fonts.GlyphAt` | Arduino_GFX.h:92-102 | on the non-AVR path the glyph pointer for `c` is element `c` of the font's glyph array, for `c` inside that array |
| `Gfx.TextColorIsTransparent` | Arduino_GFX.h:220-228 | one-colour `setTextColor(c)` equals `setTextColor(c, c)`, leaves foreground `c` and a transparent (equal) background |
| `Gfx.TextColorsTransparentIff` | Arduino_GFX.h:230-241 | `setTextColor(c, bg)` makes `c` the foreground and `bg` the background; the result is transparent if and only if `c == bg` |
| `Gfx.SettersChangeOnlyTheirFields` | Arduino_GFX.h:214-266 | `setCursor`, both `setTextColor`, `setTextWrap` and `cp437` change only their own fields |
| `Gfx.StepKeepsSurface` | Arduino_GFX.h:214-266 | no setter changes the size, bounds, rotation, text size or font, so none disturbs the relation width = max_x + 1, height = max_y + 1, rotation < 4 |
| `Gfx.RunKeepsSurface` | Arduino_GFX.h:214-266 | after any sequence of setter calls the size, bounds, rotation, text size and font are unchanged and the relation still holds |
| `Gfx.RunWithoutColorCalls` | Arduino_GFX.h:214-266 | a sequence of `setCursor`, `setTextWrap` and `cp437` calls leaves both text colours unchanged |
| `Gfx.RunLastColorWins` | Arduino_GFX.h:220-228 | after `setTextColor(c)` followed by any calls other than `setTextColor`, text is drawn in `c` on a transparent background, whatever came before |
| `Gfx.SettersLastCallWins` | Arduino_GFX.h:214-241 | two successive `setCursor` calls, or two successive `setTextColor` calls of either overload, leave the state the second alone would |
| `Gfx.CursorCommutesWithAttributes` | Arduino_GFX.h:214-266 | moving the cursor commutes with both `setTextColor` overloads, `setTextWrap` and `cp437` |
| `Gfx.ArduinoGfx.SetCursor` | Arduino_GFX.h:214-218 | only `cursor_x` and `cursor_y` change, to `x` and `y`; `getCursorX`/`getCursorY` then return `x` and `y` |
| `Gfx.ArduinoGfx.SetTextColor` | Arduino_GFX.h:228 | `textcolor` and `textbgcolor` both become `c` (transparent background); nothing else changes |
| `Gfx.ArduinoGfx.SetTextColorAndBackground` | Arduino_GFX.h:237-241 | `textcolor` becomes `c` and `textbgcolor` becomes `bg`; nothing else changes |
| `Gfx.ArduinoGfx.SetTextWrap` | Arduino_GFX.h:250 | only `wrap` changes, to `w` |
| `Gfx.ArduinoGfx.Cp437` | Arduino_GFX.h:266 | only `_cp437` changes, to the argument, which defaults to true |
| `Gfx.ArduinoGfx.Width` | Arduino_GFX.h:280 | returns the current width, one more than the zero-based x bound under the assumed invariant |
| `Gfx.ArduinoGfx.Height` | Arduino_GFX.h:288 | returns the current height, one more than the zero-based y bound under the assumed invariant |
| `Gfx.ArduinoGfx.GetRotation` | Arduino_GFX.h:296 | returns the rotation, which is 0 thru 3 under the assumed invariant |
| `Gfx.ArduinoGfx.GetCursorX` | Arduino_GFX.h:306 | returns the cursor's x coordinate |
| `Gfx.ArduinoGfx.GetCursorY` | Arduino_GFX.h:314 | returns the cursor's y coordinate |

## Left out

- Drawing, bitmap and text algorithms (`writeLine`, `fillCircle`, `fillTriangle`, the bitmap blits, `drawChar`, `write`, `getTextBounds`, `charBounds`, `setRotation`, `setTextSize`, `setFont`, `invertDisplay` and the rest): only declared in the header; their bodies are in a source file that is not part of this model.
- The `Arduino_GFX` constructor: declared only, so the class has no constructor here and the relation `_max_x == _width - 1`, `_max_y == _height - 1`, rotation 0 thru 3 (`Gfx.Consistent`) is an assumed invariant; the model proves only that the setters keep it.
- Macros.Diff, Macros.OrderedInRange, Macros.InRange, Macros.SwapUint8, Macros.SwapInt16: the macros substitute their argument text, while the model takes evaluated values, so it holds only for side-effect-free arguments (each macro evaluates some argument twice, so `i++` would change the result) that bind at least as tightly as the macro's own operators (`_diff` and `_ordered_in_range` do not parenthesise their parameters, so `_diff(10, 5 - 3)` is 2, not 8), whose type is the one the macro names or one C promotes to `int` (unsigned or `long` operands follow the usual arithmetic conversions instead, so `-1 > 1u` holds), and, for `_swap_uint8_t`, whose first argument fits its `uint8_t` temporary, which truncates a wider value.
- Macros.Diff: modelled on unbounded integers, so it assumes |a - b| fits in the target's `int`, as it does for `int16_t` and `uint8_t` operands on boards with a 32-bit `int`; on a 16-bit-`int` board `_diff` of `int16_t` operands more than 32767 apart overflows, which the model does not capture.
- The device contract (`begin`, `writePixelPreclipped`) and the batching calls `startWrite`, `endWrite`, `flush`: pure virtual or declared without bodies, and hardware-facing.
- AVR program-memory access (`pgm_read_byte`, `pgm_read_word`, `pgm_read_dword`, `pgm_read_pointer` and the `__AVR__` branches of the glyph and bitmap accessors): memory-space plumbing; on the modelled non-AVR path memory is read directly.
- `pgm_read_bitmap_ptr`: on the non-AVR path it returns the font's bitmap field unchanged, which is the field `Font.bitmap` itself; it has no member of its own.
- The ESP32 versus non-ESP32 split of declarations: a compile-time choice between virtual and non-virtual dispatch with no behaviour of its own.
- The `Print` and `Arduino_G` base classes and the Arduino includes: external libraries.
- gfxfont.h, which defines the font and glyph records, is not part of this model; `Fonts.Font` keeps only the glyph array and the bitmap bytes.
- In-place assignment by `_swap_uint8_t` and `_swap_int16_t`: Dafny methods cannot assign to a caller's variables, so the model returns the exchanged values and the caller assigns them.
