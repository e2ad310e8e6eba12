/**
 * Go's fixed-width integers over Dafny's unbounded `int`: the ranges of
 * int32, int64 and uint32, two's-complement wrap-around, and Go's integer
 * division and remainder, which truncate toward zero (Dafny's `/` and `%`
 * are Euclidean).
 */
module GoInts {

  const MinInt32: int := -0x8000_0000
  const MaxInt32: int := 0x7FFF_FFFF
  const MinInt64: int := -0x8000_0000_0000_0000
  const MaxInt64: int := 0x7FFF_FFFF_FFFF_FFFF
  const MaxUint32: int := 0xFFFF_FFFF

  type Int32 = x: int | MinInt32 <= x <= MaxInt32
  type Int64 = x: int | MinInt64 <= x <= MaxInt64
  type Uint32 = x: int | 0 <= x <= MaxUint32

  function Abs(x: int): nat { if x < 0 then -x else x }

  /** The int32 that a Go int32 operation with exact result `x` produces. */
  function Wrap32(x: int): (r: Int32)
    ensures MinInt32 <= x <= MaxInt32 ==> r == x
    ensures (x - r) % 0x1_0000_0000 == 0
  {
    (x - MinInt32) % 0x1_0000_0000 + MinInt32
  }

  /** The int64 that a Go int64 operation with exact result `x` produces. */
  function Wrap64(x: int): (r: Int64)
    ensures MinInt64 <= x <= MaxInt64 ==> r == x
    ensures (x - r) % 0x1_0000_0000_0000_0000 == 0
  {
    (x - MinInt64) % 0x1_0000_0000_0000_0000 + MinInt64
  }

  /** Go's conversion `uint32(q)` of an int32. */
  function ToUint32(q: Int32): (r: Uint32)
    ensures q >= 0 ==> r == q
    ensures q < 0 ==> r == q + 0x1_0000_0000
  {
    if q >= 0 then q else q + 0x1_0000_0000
  }

  /** Go's `a / b` for a positive divisor: the quotient truncated toward zero. */
  function TruncDiv(a: int, b: int): (q: int)
    requires b > 0
    ensures Abs(q) * b <= Abs(a) < (Abs(q) + 1) * b
    ensures a >= 0 ==> q >= 0
    ensures a <= 0 ==> q <= 0
  {
    if a >= 0 then a / b else -((-a) / b)
  }

  /** Go's `a % b` for a positive divisor: it has the sign of `a`. */
  function TruncRem(a: int, b: int): (r: int)
    requires b > 0
    ensures a == TruncDiv(a, b) * b + r
    ensures -b < r < b
    ensures a >= 0 ==> r >= 0
    ensures a <= 0 ==> r <= 0
  {
    if a >= 0 then a % b else -((-a) % b)
  }
}
