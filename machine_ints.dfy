/**
 * Fixed-width machine integers of the C++ harness, written out over Dafny's unbounded `int`,
 * and the two conversions into `int32_t` that the harness performs.
 */
module MachineInts {
  const TwoTo32: int := 0x1_0000_0000

  newtype byte = x: int | 0 <= x < 0x100
  newtype uint32 = x: int | 0 <= x < 0x1_0000_0000
  newtype int32 = x: int | -0x8000_0000 <= x < 0x8000_0000

  /**
   * Converting a `uint32_t` to `int32_t` keeps the bit pattern (two's complement): the result
   * is the unique int32 congruent to `u` modulo 2^32, negative exactly when the top bit is set.
   */
  function Int32FromBits(u: uint32): (r: int32)
    ensures (r as int - u as int) % TwoTo32 == 0
    ensures r < 0 <==> u >= 0x8000_0000
  {
    if u < 0x8000_0000 then u as int32 else (u as int - TwoTo32) as int32
  }

  /**
   * The doubles that `static_cast<int32_t>` converts with defined behaviour: those whose
   * truncation toward zero lies in the int32 range. NaN and the infinities are not reals and
   * have no counterpart here.
   */
  type Int32Double = x: real | -2147483649.0 < x < 2147483648.0 witness 0.0

  /** `static_cast<int32_t>(x)` on a double: truncation toward zero. */
  function TruncateToInt32(x: Int32Double): (r: int32)
    ensures 0.0 <= x ==> r as real <= x < r as real + 1.0
    ensures x < 0.0 ==> r as real - 1.0 < x <= r as real
  {
    var y: real := x;
    if y >= 0.0 then y.Floor as int32 else (-((-y).Floor)) as int32
  }
}
