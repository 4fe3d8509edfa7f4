/** Go's fixed-width integers as far as the calculators use them. */
module Ints {

  const MinInt32: int := -0x8000_0000
  const MaxInt32: int := 0x7fff_ffff

  predicate InInt32(x: int) {
    MinInt32 <= x <= MaxInt32
  }

  const MinInt64: int := -0x8000_0000_0000_0000
  const MaxInt64: int := 0x7fff_ffff_ffff_ffff

  /** A Go `int64`, the range `strconv.Atoi` accepts on 64-bit platforms. */
  type int64 = x: int | MinInt64 <= x <= MaxInt64

  /** A Go `int32`. */
  type int32 = x: int | MinInt32 <= x <= MaxInt32

  /** Two's-complement wrap-around of Go `int32` addition and subtraction. */
  function Wrap32(x: int): (r: int32)
    ensures (r - x) % 0x1_0000_0000 == 0
    ensures InInt32(x) ==> r == x
  {
    var m := (x - MinInt32) % 0x1_0000_0000;
    m + MinInt32
  }
}
