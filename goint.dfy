/** Go's fixed-width `int32` and the truncating conversion `int32(x)`. */
module GoInt {

  const TwoTo31: int := 0x8000_0000
  const TwoTo32: int := 0x1_0000_0000

  newtype int32 = x: int | -0x8000_0000 <= x < 0x8000_0000

  /** Go's `int32(x)`: keeps the low 32 bits of `x`, read in two's complement. */
  function Int32Of(x: int): (r: int32)
    ensures -TwoTo31 <= x < TwoTo31 ==> r as int == x
    ensures (x - r as int) % TwoTo32 == 0
  {
    var low := x % TwoTo32;
    if low < TwoTo31 then low as int32 else (low - TwoTo32) as int32
  }
}
