/** The 64-bit arithmetic under every amount: wrapping operators and the two overflow guards. */
module Int64 {

  const MIN_INT64: int := -0x8000_0000_0000_0000
  const MAX_INT64: int := 0x7FFF_FFFF_FFFF_FFFF
  const MODULUS: int := 0x1_0000_0000_0000_0000

  predicate Fits(x: int)
  {
    MIN_INT64 <= x <= MAX_INT64
  }

  type int64 = x: int | MIN_INT64 <= x <= MAX_INT64

  /** Go's signed overflow: the mathematical result reduced modulo 2^64 into range. */
  function Wrap(x: int): (r: int64)
    ensures Fits(x) ==> r == x
    ensures MAX_INT64 < x <= 2 * MAX_INT64 + 1 ==> r == x - MODULUS
    ensures 2 * MIN_INT64 <= x < MIN_INT64 ==> r == x + MODULUS
    ensures (r - x) % MODULUS == 0
  {
    var y := x - MIN_INT64;
    assert MAX_INT64 < x <= 2 * MAX_INT64 + 1 ==> 0 <= y - MODULUS < MODULUS;
    assert 2 * MIN_INT64 <= x < MIN_INT64 ==> 0 <= y + MODULUS < MODULUS;
    y % MODULUS + MIN_INT64
  }

  /** A sum and whether it fits, decided from the sign of the already wrapped result. */
  function AddInt64(a: int64, b: int64): (r: (int64, bool))
    ensures r.1 <==> Fits(a + b)
    ensures r.0 == if Fits(a + b) then a + b else 0
  {
    var sum := Wrap(a + b);
    if (a > 0 && b > 0 && sum < 0) || (a < 0 && b < 0 && sum >= 0) then (0, false) else (sum, true)
  }

  /** A difference and whether it fits; never negates its operand, which may be the minimum. */
  function SubInt64(a: int64, b: int64): (r: (int64, bool))
    ensures r.1 <==> Fits(a - b)
    ensures r.0 == if Fits(a - b) then a - b else 0
  {
    var diff := Wrap(a - b);
    if (b < 0 && diff < a) || (b > 0 && diff > a) then (0, false) else (diff, true)
  }
}
