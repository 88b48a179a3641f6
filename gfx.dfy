/**
 * The drawing and text state that an `Arduino_GFX` object keeps, with the inline
 * setters and getters of Arduino_GFX.h. The object's fields are copied into a
 * `GfxState` value by `State()`; each setter is specified by a function on that
 * value, and the lemmas below are about those functions.
 */
module Gfx {
  import opened CTypes
  import opened Fonts

  /** A snapshot of every protected field of `Arduino_GFX`. */
  datatype GfxState = GfxState(
    width: int16,       // display width under the current rotation
    height: int16,      // display height under the current rotation
    maxX: int16,        // zero-based x bound
    maxY: int16,        // zero-based y bound
    cursorX: int16,     // where the next character is printed
    cursorY: int16,
    textColor: uint16,  // foreground colour of printed text
    textBgColor: uint16, // background colour of printed text; equal to textColor means transparent
    textSizeX: uint8,   // horizontal text magnification
    textSizeY: uint8,   // vertical text magnification
    rotation: uint8,    // 0 thru 3
    wrap: bool,         // wrap text at the right edge
    cp437: bool,        // use the corrected Code Page 437 glyph indices
    font: Option<Font>) // custom font, or None for the built-in one

  /**
   * The documented relation between the size, the zero-based bounds and the
   * rotation. The constructor and `setRotation` establish it; neither is part of
   * this model, so it is an assumed invariant that the setters here must keep.
   */
  predicate Consistent(s: GfxState)
  {
    s.maxX as int == s.width as int - 1 && s.maxY as int == s.height as int - 1 && s.rotation < 4
  }

  /** The convention for text drawn without a background: both colours are the same. */
  predicate TransparentBackground(s: GfxState)
  {
    s.textBgColor == s.textColor
  }

  /** State after `setCursor(x, y)`. */
  function WithCursor(s: GfxState, x: int16, y: int16): (t: GfxState)
  {
    s.(cursorX := x, cursorY := y)
  }

  /** State after `setTextColor(c)`: foreground and background both `c`. */
  function WithTextColor(s: GfxState, c: uint16): (t: GfxState)
  {
    s.(textColor := c, textBgColor := c)
  }

  /** State after `setTextColor(c, bg)`. */
  function WithTextColors(s: GfxState, c: uint16, bg: uint16): (t: GfxState)
  {
    s.(textColor := c, textBgColor := bg)
  }

  /** State after `setTextWrap(w)`. */
  function WithTextWrap(s: GfxState, w: bool): (t: GfxState)
  {
    s.(wrap := w)
  }

  /** State after `cp437(x)`. */
  function WithCp437(s: GfxState, x: bool): (t: GfxState)
  {
    s.(cp437 := x)
  }

  /**
   * The one-colour `setTextColor` is the two-colour one with the background set
   * to the foreground, and so always selects a transparent background.
   */
  lemma TextColorIsTransparent(s: GfxState, c: uint16)
    ensures WithTextColor(s, c) == WithTextColors(s, c, c)
    ensures TransparentBackground(WithTextColor(s, c))
    ensures WithTextColor(s, c).textColor == c
  {
  }

  /**
   * The two-colour `setTextColor` makes `c` the foreground and `bg` the
   * background, and the background is transparent exactly when the two agree.
   */
  lemma TextColorsTransparentIff(s: GfxState, c: uint16, bg: uint16)
    ensures WithTextColors(s, c, bg).textColor == c && WithTextColors(s, c, bg).textBgColor == bg
    ensures TransparentBackground(WithTextColors(s, c, bg)) <==> c == bg
  {
  }

  /** Each setter changes only its own fields: putting back the old values of those fields gives the old state. */
  lemma SettersChangeOnlyTheirFields(s: GfxState, x: int16, y: int16, c: uint16, bg: uint16, w: bool, b: bool)
    ensures WithCursor(s, x, y).(cursorX := s.cursorX, cursorY := s.cursorY) == s
    ensures WithTextColor(s, c).(textColor := s.textColor, textBgColor := s.textBgColor) == s
    ensures WithTextColors(s, c, bg).(textColor := s.textColor, textBgColor := s.textBgColor) == s
    ensures WithTextWrap(s, w).(wrap := s.wrap) == s
    ensures WithCp437(s, b).(cp437 := s.cp437) == s
  {
  }

  /** A setter overwrites: called twice, only the second call is visible. */
  lemma SettersLastCallWins(s: GfxState, x1: int16, y1: int16, x2: int16, y2: int16, c1: uint16, bg1: uint16, c2: uint16, bg2: uint16)
    ensures WithCursor(WithCursor(s, x1, y1), x2, y2) == WithCursor(s, x2, y2)
    ensures WithTextColors(WithTextColors(s, c1, bg1), c2, bg2) == WithTextColors(s, c2, bg2)
    ensures WithTextColor(WithTextColors(s, c1, bg1), c2) == WithTextColor(s, c2)
    ensures WithTextColor(WithTextColor(s, c1), c2) == WithTextColor(s, c2)
    ensures WithTextColors(WithTextColor(s, c1), c2, bg2) == WithTextColors(s, c2, bg2)
  {
  }

  /** Moving the cursor and changing the text attributes are independent: they commute. */
  lemma CursorCommutesWithAttributes(s: GfxState, x: int16, y: int16, c: uint16, bg: uint16, w: bool, b: bool)
    ensures WithCursor(WithTextColor(s, c), x, y) == WithTextColor(WithCursor(s, x, y), c)
    ensures WithCursor(WithTextColors(s, c, bg), x, y) == WithTextColors(WithCursor(s, x, y), c, bg)
    ensures WithCursor(WithTextWrap(s, w), x, y) == WithTextWrap(WithCursor(s, x, y), w)
    ensures WithCursor(WithCp437(s, b), x, y) == WithCp437(WithCursor(s, x, y), b)
  {
  }

  /** One call of an inline setter, as a sketch may issue it. */
  datatype SetterCall =
    | MoveCursor(x: int16, y: int16)       // setCursor(x, y)
    | OneColor(c: uint16)                  // setTextColor(c)
    | TwoColors(c: uint16, bg: uint16)     // setTextColor(c, bg)
    | TextWrap(w: bool)                    // setTextWrap(w)
    | CodePage437(enable: bool)            // cp437(enable)

  function Step(s: GfxState, call: SetterCall): (t: GfxState)
  {
    match call
    case MoveCursor(x, y) => WithCursor(s, x, y)
    case OneColor(c) => WithTextColor(s, c)
    case TwoColors(c, bg) => WithTextColors(s, c, bg)
    case TextWrap(w) => WithTextWrap(s, w)
    case CodePage437(enable) => WithCp437(s, enable)
  }

  /** The state after issuing `calls` in order. */
  function Run(s: GfxState, calls: seq<SetterCall>): (t: GfxState)
    decreases |calls|
  {
    if calls == [] then s else Run(Step(s, calls[0]), calls[1..])
  }

  /** The part of the state that only the constructor, `setRotation`, `setTextSize` and `setFont` may change. */
  function Surface(s: GfxState): (surface: (int16, int16, int16, int16, uint8, uint8, uint8, Option<Font>))
  {
    (s.width, s.height, s.maxX, s.maxY, s.rotation, s.textSizeX, s.textSizeY, s.font)
  }

  /**
   * However many setter calls are made, in whatever order, the surface size,
   * bounds, rotation, text size and font stay as they were, and so the assumed
   * invariant is kept.
   */
  lemma {:induction false} RunKeepsSurface(s: GfxState, calls: seq<SetterCall>)
    ensures Surface(Run(s, calls)) == Surface(s)
    ensures Consistent(s) ==> Consistent(Run(s, calls))
    decreases |calls|
  {
    if calls != [] {
      StepKeepsSurface(s, calls[0]);
      RunKeepsSurface(Step(s, calls[0]), calls[1..]);
    }
  }

  /** No setter touches the size, the bounds, the rotation, the text size or the font, so each keeps the assumed invariant. */
  lemma StepKeepsSurface(s: GfxState, call: SetterCall)
    ensures Surface(Step(s, call)) == Surface(s)
    ensures Consistent(s) ==> Consistent(Step(s, call))
  {
  }

  /**
   * Whatever came before, once `setTextColor(c)` has been called and no colour
   * call follows, text is drawn in `c` on a transparent background.
   */
  lemma {:induction false} RunLastColorWins(s: GfxState, calls: seq<SetterCall>, c: uint16, rest: seq<SetterCall>)
    requires forall k :: 0 <= k < |rest| ==> !rest[k].OneColor? && !rest[k].TwoColors?
    ensures Run(s, calls + [OneColor(c)] + rest).textColor == c
    ensures TransparentBackground(Run(s, calls + [OneColor(c)] + rest))
    decreases |calls|
  {
    if calls == [] {
      assert calls + [OneColor(c)] + rest == [OneColor(c)] + rest;
      RunWithoutColorCalls(WithTextColor(s, c), rest);
    } else {
      assert calls + [OneColor(c)] + rest == [calls[0]] + (calls[1..] + [OneColor(c)] + rest);
      RunLastColorWins(Step(s, calls[0]), calls[1..], c, rest);
    }
  }

  /** Calls other than `setTextColor` leave both text colours alone. */
  lemma {:induction false} RunWithoutColorCalls(s: GfxState, calls: seq<SetterCall>)
    requires forall k :: 0 <= k < |calls| ==> !calls[k].OneColor? && !calls[k].TwoColors?
    ensures Run(s, calls).textColor == s.textColor && Run(s, calls).textBgColor == s.textBgColor
    decreases |calls|
  {
    if calls != [] {
      RunWithoutColorCalls(Step(s, calls[0]), calls[1..]);
    }
  }

  /** The `Arduino_GFX` object: its protected fields and its inline setters and getters. */
  class ArduinoGfx {
    var width: int16
    var height: int16
    var maxX: int16
    var maxY: int16
    var cursorX: int16
    var cursorY: int16
    var textColor: uint16
    var textBgColor: uint16
    var textSizeX: uint8
    var textSizeY: uint8
    var rotation: uint8
    var wrap: bool
    var cp437: bool
    var font: Option<Font>

    /** The object's fields as a value. */
    function State(): (s: GfxState)
      reads this
    {
      GfxState(width, height, maxX, maxY, cursorX, cursorY, textColor, textBgColor,
               textSizeX, textSizeY, rotation, wrap, cp437, font)
    }

    ghost predicate Valid()
      reads this
    {
      Consistent(State())
    }

    /** `setCursor(x, y)`: moves the text cursor; the getters then report the new position. */
    method SetCursor(x: int16, y: int16)
      modifies this
      ensures State() == WithCursor(old(State()), x, y)
      ensures GetCursorX() == x && GetCursorY() == y
      ensures old(Valid()) ==> Valid()
    {
      cursorX := x;
      cursorY := y;
    }

    /** `setTextColor(c)`: text in colour `c` with a transparent background. */
    method SetTextColor(c: uint16)
      modifies this
      ensures State() == WithTextColor(old(State()), c)
      ensures textColor == c && TransparentBackground(State())
      ensures old(Valid()) ==> Valid()
    {
      textColor := c;
      textBgColor := c;
    }

    /** `setTextColor(c, bg)`: text in colour `c` on background `bg`. */
    method SetTextColorAndBackground(c: uint16, bg: uint16)
      modifies this
      ensures State() == WithTextColors(old(State()), c, bg)
      ensures textColor == c && textBgColor == bg
      ensures old(Valid()) ==> Valid()
    {
      textColor := c;
      textBgColor := bg;
    }

    /** `setTextWrap(w)`: whether long text wraps at the right edge. */
    method SetTextWrap(w: bool)
      modifies this
      ensures State() == WithTextWrap(old(State()), w)
      ensures old(Valid()) ==> Valid()
    {
      wrap := w;
    }

    /** `cp437(x)`: selects the corrected Code Page 437 indices; called without an argument it enables them. */
    method Cp437(x: bool := true)
      modifies this
      ensures State() == WithCp437(old(State()), x)
      ensures old(Valid()) ==> Valid()
    {
      cp437 := x;
    }

    /** `width()`: the width under the current rotation, one more than the zero-based x bound. */
    function Width(): (w: int16)
      reads this
      ensures w == State().width
      ensures Valid() ==> w as int == maxX as int + 1
    {
      width
    }

    /** `height()`: the height under the current rotation, one more than the zero-based y bound. */
    function Height(): (h: int16)
      reads this
      ensures h == State().height
      ensures Valid() ==> h as int == maxY as int + 1
    {
      height
    }

    /** `getRotation()`: one of the four cardinal rotations. */
    function GetRotation(): (r: uint8)
      reads this
      ensures r == State().rotation
      ensures Valid() ==> r < 4
    {
      rotation
    }

    /** `getCursorX()`: where the next character will be printed, horizontally. */
    function GetCursorX(): (x: int16)
      reads this
      ensures x == State().cursorX
    {
      cursorX
    }

    /** `getCursorY()`: where the next character will be printed, vertically. */
    function GetCursorY(): (y: int16)
      reads this
      ensures y == State().cursorY
    {
      cursorY
    }
  }
}
