/** Fixed-width integers of the C++ implementation: a 32-bit two's complement `int`
    and a 32-bit `unsigned int`. Signed overflow is undefined behaviour in C++, so the
    models of `int` arithmetic require their results to stay in range; unsigned
    arithmetic wraps, and the models reduce it modulo 2^32 explicitly. */
module MachineInt {

  const MinInt32: int := -0x8000_0000
  const MaxInt32: int := 0x7fff_ffff
  const TwoTo32: int := 0x1_0000_0000

  predicate InInt32(x: int) {
    MinInt32 <= x <= MaxInt32
  }

  /** A value of C++ `int`. */
  type Int32 = x: int | MinInt32 <= x <= MaxInt32

  /** A value of C++ `unsigned int`. */
  type UInt32 = x: int | 0 <= x < TwoTo32

  /** Conversion of an integer value to `unsigned int` (and the result of unsigned
      arithmetic): reduction modulo 2^32. */
  function ToUInt32(x: int): (r: UInt32)
    ensures 0 <= x < TwoTo32 ==> r == x
    ensures TwoTo32 <= x < 2 * TwoTo32 ==> r == x - TwoTo32
    ensures -TwoTo32 <= x < 0 ==> r == x + TwoTo32
  {
    x % TwoTo32
  }

  /** Conversion of an `unsigned int` to `int`, two's complement (the rule C++20 fixes;
      earlier standards leave it to the implementation, which uses the same rule on
      every mainstream compiler). */
  function ToInt32(u: UInt32): (r: Int32)
    ensures ToUInt32(r) == u
    ensures u <= MaxInt32 ==> r == u
    ensures u > MaxInt32 ==> r < 0
  {
    if u <= MaxInt32 then u else u - TwoTo32
  }
}
