/** The program's arithmetic on `struct timespec`: C division truncates toward zero, so a difference in
    milliseconds is taken from parts that may have opposite signs. */
module Clocks {
  const NANOS := 1_000_000_000
  const NANOS_PER_MS := 1_000_000

  datatype Timespec = Timespec(sec: int, nsec: int)

  const ZERO := Timespec(0, 0)

  predicate Normal(t: Timespec) {
    0 <= t.nsec < NANOS
  }

  function Ns(t: Timespec): int {
    t.sec * NANOS + t.nsec
  }

  /** C's `/` and `%`. */
  function Quot(a: int, b: int): int
    requires b > 0
  {
    if a >= 0 then a / b else -(-a / b)
  }

  function Rem(a: int, b: int): int
    requires b > 0
  {
    a - Quot(a, b) * b
  }

  lemma QuotBounds(a: int, b: int)
    requires b > 0
    ensures -b < Rem(a, b) < b
    ensures a >= 0 ==> Quot(a, b) >= 0 && Rem(a, b) >= 0
    ensures a <= 0 ==> Quot(a, b) <= 0 && Rem(a, b) <= 0
  {
  }

  /** `ms_since()`, with the reading of the clock as an argument. */
  function MsSince(now: Timespec, since: Timespec): int {
    (now.sec - since.sec) * 1000 + Quot(now.nsec - since.nsec, NANOS_PER_MS)
  }

  /** The result is the elapsed time to within a millisecond, and never below the whole milliseconds. */
  lemma MsSinceBounds(now: Timespec, since: Timespec)
    ensures var ns := Ns(now) - Ns(since);
            && -NANOS_PER_MS < ns - MsSince(now, since) * NANOS_PER_MS < NANOS_PER_MS
            && (now.nsec >= since.nsec ==> MsSince(now, since) == ns / NANOS_PER_MS)
            && (now.nsec < since.nsec ==> MsSince(now, since) == (ns + NANOS_PER_MS - 1) / NANOS_PER_MS)
  {
    QuotBounds(now.nsec - since.nsec, NANOS_PER_MS);
  }

  /** Truncation does not break monotonicity: normalised parts differ by less than a second. */
  lemma MsSinceMonotone(now: Timespec, later: Timespec, since: Timespec)
    requires Normal(now) && Normal(later) && Ns(now) <= Ns(later)
    ensures MsSince(now, since) <= MsSince(later, since)
  {
    MsSinceBounds(now, since);
    MsSinceBounds(later, since);
    assert now.sec <= later.sec;
  }

  lemma MsSinceAntitone(now: Timespec, since: Timespec, earlier: Timespec)
    requires Normal(since) && Normal(earlier) && Ns(earlier) <= Ns(since)
    ensures MsSince(now, since) <= MsSince(now, earlier)
  {
    MsSinceBounds(now, since);
    MsSinceBounds(now, earlier);
    assert earlier.sec <= since.sec;
  }
}
