// src/ranged_int.rs: an `i32` kept within fixed bounds. Adding and
// subtracting saturate at the bounds instead of overflowing; `new` and `set`
// panic on a value outside them.

module RangedInt {
  import opened Base

  type i32 = x: int | I32_MIN <= x <= I32_MAX

  datatype RangedInt = RangedInt(val: i32, min: i32, max: i32)

  /** Every value in use lies within its own bounds. */
  type Ranged = r: RangedInt | r.min <= r.val <= r.max witness RangedInt(0, 0, 0)

  function Clamp(v: int, lo: int, hi: int): (c: int)
    requires lo <= hi
    ensures lo <= c <= hi
    ensures lo <= v <= hi ==> c == v
    ensures v > hi ==> c == hi
    ensures v < lo ==> c == lo
  {
    if v > hi then hi else if v < lo then lo else v
  }

  /** `new` panics unless the bounds are in order and the value lies between them. */
  datatype Panic = OutOfRange

  function New(value: i32, min: i32, max: i32): (r: Result<Ranged, Panic>)
    ensures r.Ok? <==> min <= max && min <= value <= max
    ensures r.Ok? ==> r.value == RangedInt(value, min, max)
  {
    if min <= max && value >= min && value <= max then
      var r: Ranged := RangedInt(value, min, max);
      Ok(r)
    else Err(OutOfRange)
  }

  /** `checked_add` on `i32`. */
  function CheckedAdd(a: i32, b: i32): (r: Option<i32>)
    ensures r.Some? <==> I32_MIN <= a + b <= I32_MAX
    ensures r.Some? ==> r.value == a + b
  {
    if I32_MIN <= a + b <= I32_MAX then Some(a + b) else None
  }

  /** `add`: when the `i32` sum overflows, the sign of `other` says which bound it ran past. */
  function Add(r: Ranged, other: i32): (s: Ranged)
    ensures s.min == r.min && s.max == r.max
    ensures s.val == Clamp(r.val + other, r.min, r.max)
  {
    match CheckedAdd(r.val, other)
    case Some(v) =>
      var newVal := if v > r.max then r.max else if v < r.min then r.min else v;
      RangedInt(newVal, r.min, r.max)
    case None =>
      if other > 0 then RangedInt(r.max, r.min, r.max) else RangedInt(r.min, r.min, r.max)
  }

  /** `overflowing_neg` on `i32`: the negation, and whether it wrapped (only for `i32::MIN`, which maps to itself). */
  function OverflowingNeg(x: i32): (r: (i32, bool))
    ensures r.1 <==> x == I32_MIN
    ensures !r.1 ==> r.0 == -x
    ensures r.1 ==> r.0 == I32_MIN
  {
    if x == I32_MIN then (I32_MIN, true) else (-x, false)
  }

  /** `sub` as written: subtracting `i32::MIN` is taken to reach the maximum. */
  function SubAsWritten(r: Ranged, other: i32): (s: Ranged)
    ensures s.min == r.min && s.max == r.max
    ensures other != I32_MIN ==> s.val == Clamp(r.val - other, r.min, r.max)
    ensures other == I32_MIN ==> s.val == r.max
  {
    var (negated, overflowed) := OverflowingNeg(other);
    if overflowed then RangedInt(r.max, r.min, r.max) else Add(r, negated)
  }

  /** Subtracting `i32::MIN` from the lowest `i32` in the full `i32` range gives the maximum, though the difference
      is 0. */
  lemma SubMinOverestimates()
    ensures var r := RangedInt(I32_MIN, I32_MIN, I32_MAX);
      SubAsWritten(r, I32_MIN).val == I32_MAX && r.val - I32_MIN == 0
  {
  }

  /** `sub` as evidently intended: the difference, saturated at the bounds, for every `other`. */
  function Sub(r: Ranged, other: i32): (s: Ranged)
    ensures s.min == r.min && s.max == r.max
    ensures s.val == Clamp(r.val - other, r.min, r.max)
  {
    if other == I32_MIN then RangedInt(Clamp(r.val - other, r.min, r.max), r.min, r.max)
    else Add(r, -other)
  }

  /** The written `sub` is right except when `i32::MIN` is subtracted from a value less than `max - 2^31`. */
  lemma SubAsWrittenAgrees(r: Ranged, other: i32)
    ensures SubAsWritten(r, other) == Sub(r, other) <==> other != I32_MIN || r.val - I32_MIN >= r.max
  {
  }

  /** Subtracting is adding the negation, whenever the negation is an `i32`. */
  lemma SubIsAddNegated(r: Ranged, other: i32)
    requires other != I32_MIN
    ensures Sub(r, other) == Add(r, -other)
  {
  }

  /** Within the bounds, subtracting undoes adding. */
  lemma AddThenSub(r: Ranged, n: i32)
    requires r.min <= r.val + n <= r.max
    ensures Sub(Add(r, n), n) == r
  {
  }

  /** `deref`: always within the bounds. */
  function Deref(r: Ranged): (v: int)
    ensures r.min <= v <= r.max
  {
    r.val
  }

  /** A named place holding a `RangedInt`, for the operations that take `&mut self`. */
  class Var {
    var value: Ranged

    constructor(value: Ranged)
      ensures this.value == value
    {
      this.value := value;
    }

    /** `set` asserts that `n` is within the bounds. */
    method Set(n: i32)
      requires value.min <= n <= value.max
      modifies this
      ensures value == old(value).(val := n)
    {
      value := value.(val := n);
    }

    /** `+=` */
    method AddAssign(other: i32)
      modifies this
      ensures value == Add(old(value), other)
    {
      value := Add(value, other);
    }

    /** `-=`, with the intended `sub`. */
    method SubAssign(other: i32)
      modifies this
      ensures value == Sub(old(value), other)
    {
      value := Sub(value, other);
    }
  }
}
