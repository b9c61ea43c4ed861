/** Go's fixed-width integers: `int` is 64 bits wide, arithmetic on it wraps around. */
module GoInt {

  const MIN_INT64: int := -0x8000_0000_0000_0000
  const MAX_INT64: int := 0x7fff_ffff_ffff_ffff
  const TWO_TO_THE_64: int := 0x1_0000_0000_0000_0000

  const MIN_INT32: int := -0x8000_0000
  const MAX_INT32: int := 0x7fff_ffff
  const TWO_TO_THE_32: int := 0x1_0000_0000

  type Int64 = i: int | MIN_INT64 <= i <= MAX_INT64
  type UInt8 = i: int | 0 <= i < 256

  predicate FitsInt64(i: int) {
    MIN_INT64 <= i <= MAX_INT64
  }

  predicate FitsInt32(i: int) {
    MIN_INT32 <= i <= MAX_INT32
  }

  /** The value a 64-bit register holds after computing `i`: congruent to `i`, and `i` itself when it fits. */
  function Wrap64(i: int): (r: Int64)
    ensures (i - r) % TWO_TO_THE_64 == 0
    ensures r == i <==> FitsInt64(i)
  {
    (i - MIN_INT64) % TWO_TO_THE_64 + MIN_INT64
  }

  /** The value left after keeping only the low 32 bits of `i`, read as a signed integer. */
  function Wrap32(i: int): (r: Int64)
    ensures FitsInt32(r)
    ensures (i - r) % TWO_TO_THE_32 == 0
    ensures r == i <==> FitsInt32(i)
  {
    (i - MIN_INT32) % TWO_TO_THE_32 + MIN_INT32
  }

  /** `time.Time.Sub` and `time.Since` clamp a difference to the range of `time.Duration`. */
  function Saturate64(i: int): (r: Int64)
    ensures r == i <==> FitsInt64(i)
    ensures i < MIN_INT64 ==> r == MIN_INT64
    ensures i > MAX_INT64 ==> r == MAX_INT64
  {
    if i < MIN_INT64 then MIN_INT64 else if i > MAX_INT64 then MAX_INT64 else i
  }

  function Max(a: int, b: int): int {
    if a < b then b else a
  }

  function Min(a: int, b: int): int {
    if a < b then a else b
  }
}
