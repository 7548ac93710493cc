// Timestamps and diffnsec (garapon.c): the sub-second part of the time between two
// clock_gettime(CLOCK_REALTIME) readings. The clock itself is outside the model;
// its readings arrive as Stamp values.

module Clock {

  const NSEC_PER_SEC: int := 1_000_000_000

  /** One reading of the clock: whole seconds and nanoseconds. */
  datatype Stamp = Stamp(sec: int, nsec: int)

  /** The shape clock_gettime promises: tv_nsec in [0, 1e9). */
  predicate Proper(t: Stamp)
  {
    0 <= t.nsec < NSEC_PER_SEC
  }

  /** Nanoseconds from t0 to t1, whole seconds included. */
  function Elapsed(t0: Stamp, t1: Stamp): int
  {
    (t1.sec - t0.sec) * NSEC_PER_SEC + (t1.nsec - t0.nsec)
  }

  /** diffnsec's arithmetic: after - before on the nanosecond fields, borrowing one
      second when the difference is negative. */
  function SubSecond(before: int, after: int): (r: int)
    ensures 0 <= before < NSEC_PER_SEC && 0 <= after < NSEC_PER_SEC ==>
              0 <= r < NSEC_PER_SEC && r == (after - before) % NSEC_PER_SEC
  {
    if after - before < 0 then after - before + NSEC_PER_SEC else after - before
  }

  /** The whole seconds between the readings are dropped: the delta is the elapsed
      time modulo one second. */
  lemma DropsWholeSeconds(t0: Stamp, t1: Stamp)
    requires Proper(t0) && Proper(t1)
    ensures SubSecond(t0.nsec, t1.nsec) == Elapsed(t0, t1) % NSEC_PER_SEC
  {
    var d := t1.nsec - t0.nsec;
    var k := t1.sec - t0.sec;
    assert Elapsed(t0, t1) == d + k * NSEC_PER_SEC;
    ModAddMultiple(d, k);
  }

  lemma ModAddMultiple(d: int, k: int)
    ensures (d + k * NSEC_PER_SEC) % NSEC_PER_SEC == d % NSEC_PER_SEC
  {
    var q := d / NSEC_PER_SEC;
    var r := d % NSEC_PER_SEC;
    assert d + k * NSEC_PER_SEC == (q + k) * NSEC_PER_SEC + r;
  }

  /** When less than a second passes, the delta is exactly the elapsed time. */
  lemma ExactBelowOneSecond(t0: Stamp, t1: Stamp)
    requires Proper(t0) && Proper(t1)
    requires 0 <= Elapsed(t0, t1) < NSEC_PER_SEC
    ensures SubSecond(t0.nsec, t1.nsec) == Elapsed(t0, t1)
  {
    DropsWholeSeconds(t0, t1);
  }

  /** struct timespec */
  class Timespec {
    var sec: int
    var nsec: int

    constructor (t: Stamp)
      ensures sec == t.sec && nsec == t.nsec
    {
      sec, nsec := t.sec, t.nsec;
    }

    /** clock_gettime(CLOCK_REALTIME, this) returning the reading t. */
    method Load(t: Stamp)
      modifies this
      ensures sec == t.sec && nsec == t.nsec
    {
      sec, nsec := t.sec, t.nsec;
    }
  }

  /** diffnsec: returns the sub-second delta and also leaves it in after.tv_nsec. */
  method DiffNsec(before: Timespec, after: Timespec) returns (r: int)
    modifies after
    ensures r == SubSecond(old(before.nsec), old(after.nsec))
    ensures after.nsec == r && after.sec == old(after.sec)
  {
    after.nsec := after.nsec - before.nsec;
    if after.nsec < 0 {
      after.nsec := after.nsec + NSEC_PER_SEC;
    }
    r := after.nsec;
  }
}
