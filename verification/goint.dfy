/** Go's platform `int`, taken to be 64 bits wide, with the two's-complement
    wrap-around the Go language defines for signed overflow. */
module GoInt {

  const MinInt: int := -0x8000_0000_0000_0000
  const MaxInt: int := 0x7fff_ffff_ffff_ffff
  /** Number of distinct `int` values: 2^64. */
  const Modulus: int := 0x1_0000_0000_0000_0000

  type Int = x: int | MinInt <= x <= MaxInt

  /** Reference reading of Go's signed arithmetic: the unbounded result
      reduced into the 64-bit range modulo 2^64. */
  function Wrap(x: int): (r: Int)
    ensures (r - x) % Modulus == 0
    ensures MinInt <= x <= MaxInt ==> r == x
  {
    MinInt + (x - MinInt) % Modulus
  }

  /** `c += 1` on a Go `int`: one more, except that MaxInt wraps to MinInt. */
  function Inc(c: Int): (r: Int)
    ensures r == Wrap(c + 1)
  {
    if c == MaxInt then MinInt else c + 1
  }
}
