/**
 * FloatRange and IntRange: serialisable min/max pairs with `+` and `-`
 * operators (Assets/Scripts/Utility/SerializableFloatRange.cs and
 * SerializableIntRange.cs). Float arithmetic is modelled on `real`; int
 * arithmetic wraps around at 32 bits as C#'s unchecked `int` does.
 */
module Ranges {

  // ----- FloatRange -----

  datatype FloatRange = FloatRange(min: real, max: real) {
    function Width(): real { max - min }
    predicate Ordered() { min <= max }
  }

  /** `range + value`. */
  function PlusValue(r: FloatRange, v: real): FloatRange
  {
    FloatRange(r.min + v, r.max + v)
  }

  /** `range - value`. */
  function MinusValue(r: FloatRange, v: real): FloatRange
  {
    FloatRange(r.min - v, r.max - v)
  }

  /** `value + range`: delegates to `range + value`. */
  function ValuePlus(v: real, r: FloatRange): FloatRange
  {
    PlusValue(r, v)
  }

  /** `range1 + range2`: mins added together, maxes added together. */
  function Plus(r1: FloatRange, r2: FloatRange): FloatRange
  {
    FloatRange(r1.min + r2.min, r1.max + r2.max)
  }

  /** Shifting by a scalar moves both ends, keeps the width and ordering, and is undone by the opposite shift. */
  lemma FloatShift(r: FloatRange, v: real)
    ensures PlusValue(r, v).min - r.min == v && PlusValue(r, v).max - r.max == v
    ensures MinusValue(PlusValue(r, v), v) == r && PlusValue(MinusValue(r, v), v) == r
    ensures PlusValue(r, v).Width() == r.Width() && MinusValue(r, v).Width() == r.Width()
    ensures PlusValue(r, v).Ordered() == r.Ordered() && MinusValue(r, v).Ordered() == r.Ordered()
    ensures ValuePlus(v, r) == PlusValue(r, v)
  {
  }

  /** Range addition is commutative and associative, with the zero range as identity. */
  lemma FloatPlusAlgebra(a: FloatRange, b: FloatRange, c: FloatRange)
    ensures Plus(a, b) == Plus(b, a)
    ensures Plus(Plus(a, b), c) == Plus(a, Plus(b, c))
    ensures Plus(a, FloatRange(0.0, 0.0)) == a
  {
  }

  /** Adding two ordered ranges gives an ordered range whose width is the sum of the widths. */
  lemma FloatPlusOrdered(a: FloatRange, b: FloatRange)
    ensures Plus(a, b).Width() == a.Width() + b.Width()
    ensures a.Ordered() && b.Ordered() ==> Plus(a, b).Ordered()
  {
  }

  // ----- IntRange -----

  const Modulus: int := 0x1_0000_0000
  const IntMin: int := -0x8000_0000
  const IntMax: int := 0x7fff_ffff

  predicate IsInt32(x: int)
  {
    IntMin <= x <= IntMax
  }

  /** C#'s unchecked 32-bit `int` result of an exact integer. */
  function Wrap(x: int): (w: int)
    ensures IsInt32(w)
  {
    (x - IntMin) % Modulus + IntMin
  }

  /** A value that already fits is left alone. */
  lemma WrapFits(x: int)
    requires IsInt32(x)
    ensures Wrap(x) == x
  {
    assert 0 <= x - IntMin < Modulus;
  }

  /** Wrapping changes a value by a multiple of 2^32. */
  lemma WrapDiffers(x: int)
    ensures (Wrap(x) - x) % Modulus == 0
  {
    var q := (x - IntMin) / Modulus;
    assert x - IntMin == Modulus * q + (x - IntMin) % Modulus;
    assert Wrap(x) - x == -(Modulus * q);
  }

  datatype IntRange = IntRange(min: int, max: int) {
    predicate Valid() { IsInt32(min) && IsInt32(max) }
    function Width(): int { max - min }
  }

  /** `range + value`, wrapping on overflow. */
  function IntPlusValue(r: IntRange, v: int): (w: IntRange)
    ensures w.Valid()
  {
    IntRange(Wrap(r.min + v), Wrap(r.max + v))
  }

  /** `range - value`, wrapping on overflow. */
  function IntMinusValue(r: IntRange, v: int): (w: IntRange)
    ensures w.Valid()
  {
    IntRange(Wrap(r.min - v), Wrap(r.max - v))
  }

  /** `value + range`: delegates to `range + value`. */
  function IntValuePlus(v: int, r: IntRange): (w: IntRange)
    ensures w.Valid()
  {
    IntPlusValue(r, v)
  }

  /** `range1 + range2`, componentwise, wrapping on overflow. */
  function IntPlus(r1: IntRange, r2: IntRange): (w: IntRange)
    ensures w.Valid()
  {
    IntRange(Wrap(r1.min + r2.min), Wrap(r1.max + r2.max))
  }

  /** Two exact integers that differ by a multiple of 2^32 wrap to the same `int`. */
  lemma WrapCongruent(x: int, y: int)
    requires (x - y) % Modulus == 0
    ensures Wrap(x) == Wrap(y)
  {
    var wx := Wrap(x);
    var wy := Wrap(y);
    WrapDiffers(x);
    WrapDiffers(y);
    assert (wx - wy) % Modulus == 0 by {
      assert wx - wy == (wx - x) + (x - y) + (y - wy);
      ModSum3(wx - x, x - y, y - wy);
    }
    assert -Modulus < wx - wy < Modulus;
    ZeroModInInterval(wx - wy);
  }

  lemma ModSum3(a: int, b: int, c: int)
    requires a % Modulus == 0 && b % Modulus == 0 && (-c) % Modulus == 0
    ensures (a + b + c) % Modulus == 0
  {
    var i := a / Modulus;
    var j := b / Modulus;
    var k := (-c) / Modulus;
    assert a == Modulus * i;
    assert b == Modulus * j;
    assert -c == Modulus * k;
    assert a + b + c == Modulus * (i + j - k);
  }

  lemma ZeroModInInterval(d: int)
    requires -Modulus < d < Modulus && d % Modulus == 0
    ensures d == 0
  {
    var q := d / Modulus;
    assert d == Modulus * q;
  }

  /** Wrapping an intermediate result does not change the final wrapped value. */
  lemma WrapInner(x: int, y: int)
    ensures Wrap(Wrap(x) + y) == Wrap(x + y)
  {
    assert (Wrap(x) + y) - (x + y) == Wrap(x) - x;
    WrapCongruent(Wrap(x) + y, x + y);
  }

  /** One end of a range: adding and then subtracting a value restores it. */
  lemma WrapShiftBack(x: int, v: int)
    requires IsInt32(x)
    ensures Wrap(Wrap(x + v) - v) == x
    ensures Wrap(Wrap(x - v) + v) == x
  {
    WrapInner(x + v, -v);
    WrapInner(x - v, v);
    assert x + v - v == x - v + v == x;
    WrapFits(x);
  }

  /** `(r + v) - v == r` for every valid range, even when `r + v` overflows. */
  lemma {:induction false} IntShiftRoundTrip(r: IntRange, v: int)
    requires r.Valid()
    ensures IntMinusValue(IntPlusValue(r, v), v) == r
    ensures IntPlusValue(IntMinusValue(r, v), v) == r
    ensures IntValuePlus(v, r) == IntPlusValue(r, v)
  {
    WrapShiftBack(r.min, v);
    WrapShiftBack(r.max, v);
  }

  /** A shift that does not overflow keeps the width. */
  lemma IntShiftWidth(r: IntRange, v: int)
    requires r.Valid() && IsInt32(r.min + v) && IsInt32(r.max + v)
    ensures IntPlusValue(r, v).Width() == r.Width()
  {
  }

  /** A value just past the top of the int range reappears at its bottom. */
  lemma WrapPastTop(x: int)
    requires IntMax < x <= IntMax + Modulus
    ensures Wrap(x) == x - Modulus
  {
    WrapFits(x - Modulus);
    WrapCongruent(x, x - Modulus);
  }

  /**
   * A forward shift that overflows the top end only wraps that end below the
   * bottom end: the shifted range comes out inverted, `max < min`, as in
   * `(0, int.MaxValue) + 1 == (1, int.MinValue)`.
   */
  lemma {:induction false} IntShiftOverflowInverts(r: IntRange, v: int)
    requires r.Valid() && IsInt32(v) && IsInt32(r.min + v) && !IsInt32(r.max + v) && v > 0
    ensures IntPlusValue(r, v).max < IntPlusValue(r, v).min
    ensures IntPlusValue(r, v).min == r.min + v && IntPlusValue(r, v).max == r.max + v - Modulus
  {
    WrapFits(r.min + v);
    WrapPastTop(r.max + v);
  }

  /** Wrapped addition of three ints does not depend on the grouping. */
  lemma WrapAssociative(x: int, y: int, z: int)
    ensures Wrap(Wrap(x + y) + z) == Wrap(x + Wrap(y + z))
  {
    WrapInner(x + y, z);
    WrapInner(y + z, x);
    assert Wrap(y + z) + x == x + Wrap(y + z);
    assert y + z + x == x + y + z;
  }

  /** Range addition is commutative and associative under wrap-around. */
  lemma {:induction false} IntPlusAlgebra(a: IntRange, b: IntRange, c: IntRange)
    ensures IntPlus(a, b) == IntPlus(b, a)
    ensures IntPlus(IntPlus(a, b), c) == IntPlus(a, IntPlus(b, c))
  {
    WrapAssociative(a.min, b.min, c.min);
    WrapAssociative(a.max, b.max, c.max);
  }
}
