/**
 Go's 64-bit `int` and `time.Duration`. A Duration is a count of
 nanoseconds held in an int64, and multiplying two of them wraps around
 in two's complement as Go's integer arithmetic does.
 */
module Time {

  const TwoTo63: int := 0x8000_0000_0000_0000
  const TwoTo64: int := 0x1_0000_0000_0000_0000

  newtype int64 = x: int | -0x8000_0000_0000_0000 <= x < 0x8000_0000_0000_0000

  /** time.Duration: nanoseconds. */
  type Duration = int64

  /** time.Millisecond. */
  const Millisecond: Duration := 1_000_000

  /** The largest millisecond count whose Duration does not wrap. */
  const MaxExactMillis: int := (TwoTo63 - 1) / 1_000_000

  /** Reduces a mathematical integer to the int64 Go's arithmetic would hold. */
  function Wrap64(x: int): (r: int64)
    ensures -TwoTo63 <= x < TwoTo63 ==> r as int == x
    ensures (x - r as int) % TwoTo64 == 0
  {
    ((x + TwoTo63) % TwoTo64 - TwoTo63) as int64
  }

  /** time.Duration(ms) * time.Millisecond. */
  function Millis(ms: int64): (d: Duration)
    ensures -MaxExactMillis <= ms as int <= MaxExactMillis ==> d as int == ms as int * 1_000_000
  {
    Wrap64(ms as int * Millisecond as int)
  }

  /** The first millisecond count past the exact range (about 292 years)
      wraps to a negative Duration. */
  lemma MillisWrapsPastRange()
    ensures Millis((MaxExactMillis + 1) as int64) < 0
  {
  }

  /** Wrapping is modulo 2^64, so a larger count can come back as a tiny
      positive Duration: 18446744073710 ms becomes 448384 ns, under a
      millisecond. */
  lemma MillisWrapsToTinyPositive()
    ensures Millis(18446744073710) as int == 448384
    ensures 0 < Millis(18446744073710) < Millisecond
  {
  }
}
