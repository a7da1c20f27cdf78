/** utils/time.py: the threshold comparison behind the credential freshness policy.
    Datetimes and timedeltas are integers counting microseconds, the resolution of
    Python's datetime arithmetic. */
module TimeUtil {

  const MicrosPerHour: int := 3_600_000_000

  /** `timedelta(hours=h)` in microseconds. */
  function Hours(h: int): int
  {
    h * MicrosPerHour
  }

  /** `_exceeded(t1, t2, threshold)`: whether the gap from t1 to t2 is strictly larger
      than the threshold. A gap equal to the threshold is not exceeded, and with a
      non-negative threshold a t2 that is not after t1 never exceeds it. */
  predicate Exceeded(t1: int, t2: int, threshold: int)
    ensures t2 - t1 == threshold ==> !Exceeded(t1, t2, threshold)
    ensures threshold >= 0 && t2 <= t1 ==> !Exceeded(t1, t2, threshold)
  {
    t2 - t1 > threshold
  }

  /** Once exceeded at t2, the threshold stays exceeded at every later time. */
  lemma ExceededMonotone(t1: int, t2: int, later: int, threshold: int)
    requires Exceeded(t1, t2, threshold)
    requires t2 <= later
    ensures Exceeded(t1, later, threshold)
  {
  }

  /** A later reference time makes the gap smaller: what is not exceeded stays so. */
  lemma NotExceededAntitoneInStart(t1: int, t1': int, t2: int, threshold: int)
    requires !Exceeded(t1, t2, threshold)
    requires t1 <= t1'
    ensures !Exceeded(t1', t2, threshold)
  {
  }
}
