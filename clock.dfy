/**
 * The client's time arithmetic: a millisecond clock reading cut down to whole
 * seconds with `Math.floor(ms / 1000)`, and whole seconds scaled to the
 * ledger's nanoseconds with `* 1_000_000_000`.
 */
module Clock {

  const MS_PER_SECOND: nat := 1000
  const NS_PER_SECOND: nat := 1_000_000_000

  /** `Math.floor(ms / 1000)`: the second that contains the instant, also before 1970. */
  function WholeSeconds(ms: int): (s: int)
    ensures s * MS_PER_SECOND <= ms < s * MS_PER_SECOND + MS_PER_SECOND
  {
    ms / MS_PER_SECOND
  }

  /**
   * The nanosecond instant of the start of the second containing `ms`: a
   * multiple of 10^9 from which that second is recovered exactly.
   */
  function SecondNanos(ms: int): (ns: int)
    ensures ns % NS_PER_SECOND == 0
    ensures ns / NS_PER_SECOND == WholeSeconds(ms)
    ensures ns <= ms * 1_000_000 < ns + NS_PER_SECOND
  {
    WholeSeconds(ms) * NS_PER_SECOND
  }
}
