/**
  The parts of Java semantics the validation handlers depend on: the width of
  `int` and `long`, the wrap-around of `int` multiplication, and the
  NullPointerException thrown when a null `Integer` is unboxed.
 */
module Java {

  const IntMin: int := -0x8000_0000
  const IntMax: int := 0x7fff_ffff
  const IntRange: int := 0x1_0000_0000

  const LongMin: int := -0x8000_0000_0000_0000
  const LongMax: int := 0x7fff_ffff_ffff_ffff

  /** A value of Java's `int` (and of a non-null `Integer`). */
  type Int32 = x: int | IntMin <= x <= IntMax

  /** A value of Java's `long` (and of a non-null `Long`). */
  type Int64 = x: int | LongMin <= x <= LongMax

  /** The result of evaluating a Java expression that may unbox a null reference. */
  datatype Checked<+T> = NullPointer | Ok(value: T)

  /** `a * b` on two Java `int`s: the mathematical product reduced into the
      32-bit two's-complement range. */
  function Mul(a: Int32, b: Int32): (r: Int32)
    ensures (r - a * b) % IntRange == 0
    ensures IntMin <= a * b <= IntMax ==> r == a * b
  {
    (a * b - IntMin) % IntRange + IntMin
  }

  /** Mul is the unique `int` congruent to the exact product. */
  lemma MulUnique(a: Int32, b: Int32, r: Int32)
    requires (r - a * b) % IntRange == 0
    ensures r == Mul(a, b)
  {
    var m := Mul(a, b);
    assert (r - m) % IntRange == 0 by {
      var p := a * b;
      assert r - m == (r - p) - (m - p);
    }
  }

}
