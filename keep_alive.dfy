/**
 * Rounding of keep-alive durations to whole seconds (`secs`).  A duration is
 * an int64 count of nanoseconds, as Go's `time.Duration`.
 */
module KeepAlive {

  const Nanosecond: int := 1
  const Second: int := 1_000_000_000

  /**
   * The largest magnitude of duration the model accepts: 2^22 seconds (about
   * 48 days).  Up to here Go's conversion through a float64 number of seconds
   * truncates to the same integer as exact arithmetic does.
   */
  const Bound: int := 4_194_304 * Second

  /**
   * The whole seconds of a duration as `int(d.Seconds())` gives them: the
   * float64 number of seconds converted to an int, which truncates toward
   * zero.  Exact division is used, which agrees with the float64 route within
   * `Bound`.
   */
  function TruncDiv(a: int, b: int): (q: int)
    requires b > 0
    ensures a >= 0 ==> q * b <= a < q * b + b
    ensures a < 0 ==> q * b - b < a <= q * b
  {
    if a >= 0 then a / b else -((-a) / b)
  }

  /**
   * `secs`: adds one second less one nanosecond, then truncates the number of
   * seconds toward zero.  For a non-negative duration this is the ceiling.
   */
  function Secs(d: int): (r: int)
    requires -Bound <= d <= Bound
    ensures d <= r * Second
    ensures 0 < d ==> (r - 1) * Second < d
    ensures d <= 0 ==> r <= 0
  {
    TruncDiv(d + Second - Nanosecond, Second)
  }

  /** A whole number of seconds is converted to exactly that number. */
  lemma SecsExact(k: nat)
    requires k * Second <= Bound
    ensures Secs(k * Second) == k
  {
  }

  /** `secs` is monotone. */
  lemma SecsMonotone(d1: int, d2: int)
    requires -Bound <= d1 <= d2 <= Bound
    ensures Secs(d1) <= Secs(d2)
  {
  }

  /** A negative whole second is rounded up to zero, not kept. */
  lemma SecsMinusOneSecond()
    ensures Secs(-Second) == 0
  {
  }
}
