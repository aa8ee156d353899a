/**
 * The birthday countdown: a millisecond difference split into days, hours,
 * minutes and seconds, refreshed only while the target is still ahead.
 */
module Countdown {

  const MillisPerSecond: int := 1000
  const MillisPerMinute: int := 60000
  const MillisPerHour: int := 3600000
  const MillisPerDay: int := 86400000

  /** The target the countdown reads, whatever date and time zone it is given. */
  const Target: string := "2025-12-21T00:00:00"

  datatype TimeLeft = TimeLeft(days: int, hours: int, minutes: int, seconds: int)

  /** The zeros the countdown shows before its first positive reading. */
  const Zero: TimeLeft := TimeLeft(0, 0, 0, 0)

  /** The whole seconds a reading stands for. */
  function TotalSeconds(t: TimeLeft): int
  {
    t.days * 86400 + t.hours * 3600 + t.minutes * 60 + t.seconds
  }

  /** A reading whose hours, minutes and seconds are within a day, an hour
      and a minute. */
  predicate Normal(t: TimeLeft)
  {
    t.days >= 0 && 0 <= t.hours < 24 && 0 <= t.minutes < 60 && 0 <= t.seconds < 60
  }

  /** `calculateTimeLeft` for a positive difference: each unit is the floor
      of the difference in that unit, reduced modulo the next unit up. */
  function Decompose(difference: int): (t: TimeLeft)
    requires difference > 0
    ensures Normal(t)
    ensures t.days == difference / MillisPerDay
  {
    TimeLeft(difference / MillisPerDay,
             (difference / MillisPerHour) % 24,
             (difference / MillisPerMinute) % 60,
             (difference / MillisPerSecond) % 60)
  }

  /** The four units add back up to the whole seconds of the difference. */
  lemma DecomposeAddsUp(difference: int)
    requires difference > 0
    ensures TotalSeconds(Decompose(difference)) == difference / MillisPerSecond
  {
    var s := difference / MillisPerSecond;
    var m := s / 60;
    var h := m / 60;
    var d := h / 24;
    DivUnique(difference, MillisPerMinute, m, (s % 60) * 1000 + difference % 1000);
    DivUnique(difference, MillisPerHour, h, (m % 60) * 60000 + (s % 60) * 1000 + difference % 1000);
    DivUnique(difference, MillisPerDay, d, (h % 24) * 3600000 + (m % 60) * 60000 + (s % 60) * 1000 + difference % 1000);
  }

  /** Integer division is the unique quotient with a remainder in range. */
  lemma DivUnique(x: int, n: int, q: int, r: int)
    requires n > 0 && 0 <= r < n && x == q * n + r
    ensures x / n == q
  {
    var q', r' := x / n, x % n;
    assert (q - q') * n == r' - r;
    if q > q' {
      AtLeastOnce(q - q', n);
    } else if q < q' {
      AtLeastOnce(q' - q, n);
    }
  }

  lemma {:induction false} AtLeastOnce(k: int, n: int)
    requires k >= 1 && n > 0
    ensures k * n >= n
    decreases k
  {
    if k > 1 {
      AtLeastOnce(k - 1, n);
      assert k * n == (k - 1) * n + n;
    }
  }

  /** The split is the only normal one: any reading whose units are within
      range and whose seconds add up to the difference's is the one shown. */
  lemma DecomposeUnique(difference: int, t: TimeLeft)
    requires difference > 0 && Normal(t) && TotalSeconds(t) == difference / MillisPerSecond
    ensures t == Decompose(difference)
  {
    var u := Decompose(difference);
    DecomposeAddsUp(difference);
    assert TotalSeconds(u) == TotalSeconds(t);
    assert t.seconds == u.seconds by {
      assert t.seconds == TotalSeconds(t) % 60 && u.seconds == TotalSeconds(u) % 60;
    }
  }

  /** The countdown's state. */
  class CountdownClock {
    var timeLeft: TimeLeft

    /** Mounting: all zeros. The `targetDate` and `timezone` props are not
        read. */
    constructor(targetDate: string, timezone: string)
      ensures timeLeft == Zero
    {
      timeLeft := Zero;
    }

    /** One tick, given `target - now` in milliseconds: the reading changes
        only while that difference is positive. */
    method Tick(difference: int)
      modifies this
      ensures difference > 0 ==> timeLeft == Decompose(difference)
      ensures difference <= 0 ==> timeLeft == old(timeLeft)
    {
      if difference > 0 {
        timeLeft := Decompose(difference);
      }
    }
  }
}
