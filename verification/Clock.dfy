/** Time in nanoseconds. metav1.Time values are stored with second precision. */
module Clock {
  import opened Wrappers

  const SECOND: nat := 1_000_000_000
  const MINUTE: nat := 60 * SECOND

  function Truncated(t: int): int {
    t / SECOND * SECOND
  }

  function TruncatedTime(t: Option<int>): Option<int> {
    match t
    case None => None
    case Some(ns) => Some(Truncated(ns))
  }

  lemma TruncatedBounds(t: int)
    ensures Truncated(t) <= t < Truncated(t) + 1_000_000_000 && Truncated(t) % 1_000_000_000 == 0
  {
  }
}
