/** Java's 32-bit two's-complement `int` and its wrap-around arithmetic. */
module JavaInt {

  const TWO_TO_THE_32: int := 0x1_0000_0000
  const MIN_INT: int := -0x8000_0000
  const MAX_INT: int := 0x7fff_ffff

  newtype int32 = x: int | -0x8000_0000 <= x < 0x8000_0000

  /** The Java `int` that an exact integer result wraps to: the unique value
      in [MIN_INT, MAX_INT] congruent to `x` modulo 2^32. */
  function Wrap(x: int): (r: int32)
    ensures (x - r as int) % TWO_TO_THE_32 == 0
    ensures MIN_INT <= x <= MAX_INT ==> r as int == x
  {
    var m := (x - MIN_INT) % TWO_TO_THE_32;
    (m + MIN_INT) as int32
  }

  /** Wrapping ignores multiples of 2^32. */
  lemma WrapShift(x: int, k: int)
    ensures Wrap(x + k * TWO_TO_THE_32) == Wrap(x)
  {
    var z := x - MIN_INT;
    var q, m := z / TWO_TO_THE_32, z % TWO_TO_THE_32;
    assert z + k * TWO_TO_THE_32 == (q + k) * TWO_TO_THE_32 + m;
    DivModUnique(z + k * TWO_TO_THE_32, q + k, m);
  }

  /** Euclidean division by 2^32 has a unique quotient and remainder. */
  lemma DivModUnique(z: int, q: int, m: int)
    requires 0 <= m < TWO_TO_THE_32
    requires z == q * TWO_TO_THE_32 + m
    ensures z % TWO_TO_THE_32 == m
  {
  }

  /** Wrapping an intermediate result, as Java does after every operation,
      gives the same final value as wrapping once at the end:
      `a * wrap(x) + wrap(y)` and `a * x + y` wrap to the same `int`. */
  lemma {:induction false} WrapMulAdd(a: int, x: int, y: int)
    ensures Wrap(a * (Wrap(x) as int) + Wrap(y) as int) == Wrap(a * x + y)
  {
    var kx := (x - Wrap(x) as int) / TWO_TO_THE_32;
    var ky := (y - Wrap(y) as int) / TWO_TO_THE_32;
    assert Wrap(x) as int == x - kx * TWO_TO_THE_32;
    assert Wrap(y) as int == y - ky * TWO_TO_THE_32;
    calc {
      a * (Wrap(x) as int) + Wrap(y) as int;
    ==
      a * (x - kx * TWO_TO_THE_32) + (y - ky * TWO_TO_THE_32);
    ==
      (a * x + y) + (-(a * kx) - ky) * TWO_TO_THE_32;
    }
    WrapShift(a * x + y, -(a * kx) - ky);
  }
}
