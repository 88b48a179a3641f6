/**
 * The integer helper macros of Arduino_GFX.h: `_diff`, `_ordered_in_range`,
 * `_in_range` and the two `_swap_*` macros. The macros are untyped text
 * substitutions; here each is a function of its already-evaluated operands. For
 * `uint8_t` and `int16_t` operands, which C promotes to `int` before comparing or
 * subtracting, the model on unbounded integers is exact as long as the difference
 * fits in the target's `int`: always on a 32-bit `int`, but not for `int16_t`
 * operands more than 32767 apart on a board whose `int` is 16 bits wide.
 */
module Macros {
  import opened CTypes

  function Min(a: int, b: int): (m: int) { if a <= b then a else b }

  function Max(a: int, b: int): (m: int) { if a <= b then b else a }

  /** `_diff(a, b)`: the larger operand minus the smaller, so the distance |a - b|. */
  function Diff(a: int, b: int): (d: int)
    ensures d >= 0
    ensures d == a - b || d == b - a
    ensures d == Max(a, b) - Min(a, b)
  {
    if a > b then a - b else b - a
  }

  /** `_ordered_in_range(v, a, b)`: `a <= v <= b`; it assumes `a` is the lower endpoint, and holds for nothing when it is not. */
  predicate OrderedInRange(v: int, a: int, b: int): (r: bool)
    ensures r ==> a <= b
    ensures r ==> Min(a, b) <= v <= Max(a, b)
  {
    a <= v && v <= b
  }

  /**
   * `_in_range(v, a, b)`: whether `v` lies between the endpoints `a` and `b`, given in
   * either order, that is, in the closed interval from the smaller to the larger.
   */
  predicate InRange(v: int, a: int, b: int): (r: bool)
    ensures r <==> Min(a, b) <= v <= Max(a, b)
  {
    if a > b then OrderedInRange(v, b, a) else OrderedInRange(v, a, b)
  }

  /** The order of the endpoints does not matter. */
  lemma InRangeSymmetric(v: int, a: int, b: int)
    ensures InRange(v, a, b) == InRange(v, b, a)
  {
  }

  /** With the endpoints already in order, `_in_range` and `_ordered_in_range` agree; out of order, `_ordered_in_range` holds for nothing. */
  lemma InRangeAgreesWhenOrdered(v: int, a: int, b: int)
    ensures a <= b ==> (InRange(v, a, b) <==> OrderedInRange(v, a, b))
    ensures a > b ==> !OrderedInRange(v, a, b)
  {
  }

  /** `_diff` is symmetric and is zero exactly on equal operands. */
  lemma DiffSymmetric(a: int, b: int)
    ensures Diff(a, b) == Diff(b, a)
    ensures Diff(a, b) == 0 <==> a == b
  {
  }

  /**
   * The two macros agree with each other: `v` lies between `a` and `b` exactly
   * when going from `a` to `v` and on to `b` is no longer than going straight
   * from `a` to `b`.
   */
  lemma InRangeByDiff(v: int, a: int, b: int)
    ensures InRange(v, a, b) <==> Diff(a, v) + Diff(v, b) == Diff(a, b)
  {
  }

  /** `_swap_uint8_t(a, b)`: exchanges two bytes through a temporary; the new values come back as `a'` and `b'`. */
  method SwapUint8(a: uint8, b: uint8) returns (a': uint8, b': uint8)
    ensures a' == b && b' == a
  {
    var t := a;
    a' := b;
    b' := t;
  }

  /** `_swap_int16_t(a, b)`: exchanges two 16-bit signed values through a temporary. */
  method SwapInt16(a: int16, b: int16) returns (a': int16, b': int16)
    ensures a' == b && b' == a
  {
    var t := a;
    a' := b;
    b' := t;
  }
}
