/**
 Splitting an instant into a UTC date and a time of day, and putting the two back together.
 */
module Instants {

  const MS_PER_SECOND := 1000
  const MS_PER_MINUTE := 60_000
  const MS_PER_HOUR := 3_600_000
  const MS_PER_DAY := 86_400_000

  /** `setUTCHours(0, 0, 0, 0)`. */
  function UtcMidnight(t: int): (m: int)
    ensures m <= t < m + MS_PER_DAY && m % MS_PER_DAY == 0
  {
    t - t % MS_PER_DAY
  }

  /** `getUTCHours() * 60 + getUTCMinutes()`. */
  function UtcMinuteOfDay(t: int): (m: nat)
    ensures m < 1440
  {
    (t % MS_PER_DAY) / MS_PER_HOUR * 60 + (t % MS_PER_HOUR) / MS_PER_MINUTE
  }

  /** 1 January 1970 was a Thursday. */
  function UtcWeekday(t: int): (d: nat)
    ensures d < 7
  {
    (t / MS_PER_DAY + 4) % 7
  }

  /** The first day is a Thursday and each day is followed by the next weekday, which fixes all of them. */
  lemma WeekdayAdvances(t: int)
    ensures UtcWeekday(t + MS_PER_DAY) == (UtcWeekday(t) + 1) % 7
    ensures 0 <= t < MS_PER_DAY ==> UtcWeekday(t) == 4
  {
    assert (t + MS_PER_DAY) / MS_PER_DAY == t / MS_PER_DAY + 1;
  }

  /** The nearest whole second, halves upward. */
  function NearestSecond(t: int): (r: int)
    ensures r % MS_PER_SECOND == 0 && r - 500 <= t < r + 500
  {
    (t + 500) / MS_PER_SECOND * MS_PER_SECOND
  }

  /**
   What a `Time(0)` column keeps of an instant: its time of day rounded to a second. From half a second before
   midnight on that is 24:00:00, which PostgreSQL stores as such.
   */
  function StoredTime(t: int): (s: nat)
    ensures s <= 86400
  {
    (t % MS_PER_DAY + 500) / MS_PER_SECOND
  }

  /** `setUTCHours(h, m, s, 0)` on a date, with the parts taken from a stored time of day; 24:00:00 reads as hour 0. */
  function Recompose(date: int, time: int): int {
    UtcMidnight(date) + time / 3600 % 24 * MS_PER_HOUR + time / 60 % 60 * MS_PER_MINUTE + time % 60 * MS_PER_SECOND
  }

  /** The SQL expression `date + time`. */
  function SqlTimestamp(date: int, time: int): int {
    date + time * MS_PER_SECOND
  }

  /** Re-assembling hours, minutes and seconds loses nothing but whole days. */
  lemma RecomposeIsSum(date: int, time: int)
    ensures Recompose(date, time) == UtcMidnight(date) + time % 86400 * MS_PER_SECOND
  {
    assert time / 60 == 60 * (time / 3600) + time / 60 % 60;
    assert time / 3600 == 24 * (time / 86400) + time / 3600 % 24;
  }

  /** A date part at midnight makes the recomposed instant the one the exclusion constraint sees, but for 24:00:00. */
  lemma RecomposeIsSql(date: int, time: int)
    requires date % MS_PER_DAY == 0 && 0 <= time <= 86400
    ensures Recompose(date, time) == if time == 86400 then date else SqlTimestamp(date, time)
  {
    RecomposeIsSum(date, time);
  }

  /** The stored date and time denote the nearest second, midnight of the next day included. */
  lemma StoredIsNearest(t: int)
    ensures SqlTimestamp(UtcMidnight(t), StoredTime(t)) == NearestSecond(t)
  {
    var inDay := t % MS_PER_DAY;
    assert t == MS_PER_SECOND * (86400 * (t / MS_PER_DAY)) + inDay;
    assert (t + 500) / MS_PER_SECOND == 86400 * (t / MS_PER_DAY) + (inDay + 500) / MS_PER_SECOND;
  }

  lemma WholeSecondStored(t: int)
    requires t % MS_PER_SECOND == 0
    ensures StoredTime(t) < 86400 && UtcMidnight(t) + StoredTime(t) * MS_PER_SECOND == t
  {
    var inDay := t % MS_PER_DAY;
    assert t == MS_PER_SECOND * (86400 * (t / MS_PER_DAY)) + inDay;
    assert inDay % MS_PER_SECOND == 0;
  }

  /** Splitting and recomposing gives the instant back exactly when it is a whole second. */
  lemma SplitRoundTrip(t: int)
    ensures Recompose(UtcMidnight(t), StoredTime(t)) == t <==> t % MS_PER_SECOND == 0
  {
    if t % MS_PER_SECOND == 0 {
      WholeSecondStored(t);
      RecomposeIsSum(UtcMidnight(t), StoredTime(t));
    } else {
      FractionIsLost(t, UtcMidnight(t), StoredTime(t));
    }
  }

  /** Whatever second the column keeps, an instant with a fraction of a second is never recovered. */
  lemma FractionIsLost(t: int, date: int, time: int)
    requires t % MS_PER_SECOND != 0
    ensures Recompose(date, time) != t
  {
    RecomposeIsSum(date, time);
    var m := UtcMidnight(date);
    assert m + time % 86400 * MS_PER_SECOND == MS_PER_SECOND * (86400 * (m / MS_PER_DAY) + time % 86400);
  }

  /** An appointment whose last minute is still before midnight starts and ends on one UTC day. */
  lemma SameDay(start: int, minutes: nat)
    requires UtcMinuteOfDay(start) + minutes < 1440
    ensures UtcMidnight(start + minutes * MS_PER_MINUTE) == UtcMidnight(start)
    ensures StoredTime(start + minutes * MS_PER_MINUTE) == StoredTime(start) + minutes * 60
  {
    var inDay := start % MS_PER_DAY;
    assert start == MS_PER_DAY * (start / MS_PER_DAY) + inDay;
    assert start % MS_PER_HOUR == inDay % MS_PER_HOUR by {
      assert start == MS_PER_HOUR * (24 * (start / MS_PER_DAY)) + inDay;
    }
    var end := start + minutes * MS_PER_MINUTE;
    assert inDay < (UtcMinuteOfDay(start) + 1) * MS_PER_MINUTE;
    assert inDay + minutes * MS_PER_MINUTE < MS_PER_DAY;
    assert end == MS_PER_DAY * (start / MS_PER_DAY) + (inDay + minutes * MS_PER_MINUTE);
    assert end % MS_PER_DAY == inDay + minutes * MS_PER_MINUTE;
  }

  /** Date and times of day of a one-day appointment give both instants back exactly for whole-second starts. */
  lemma AppointmentRoundTrip(start: int, minutes: nat)
    requires UtcMidnight(start + minutes * MS_PER_MINUTE) == UtcMidnight(start)
    ensures Recompose(UtcMidnight(start), StoredTime(start)) == start <==> start % MS_PER_SECOND == 0
    ensures var end := start + minutes * MS_PER_MINUTE;
      Recompose(UtcMidnight(start), StoredTime(end)) == end <==> start % MS_PER_SECOND == 0
  {
    var end := start + minutes * MS_PER_MINUTE;
    SplitRoundTrip(start);
    SplitRoundTrip(end);
    WholeSecondShift(start, minutes);
  }

  lemma WholeSecondShift(start: int, minutes: nat)
    ensures (start + minutes * MS_PER_MINUTE) % MS_PER_SECOND == start % MS_PER_SECOND
  {
    var end := start + minutes * MS_PER_MINUTE;
    assert end == MS_PER_SECOND * (start / MS_PER_SECOND + 60 * minutes) + start % MS_PER_SECOND;
  }

  /** Dropping the seconds of an instant leaves its midnight plus its minute of the day. */
  lemma MinuteFloor(t: int)
    ensures t - t % MS_PER_MINUTE == UtcMidnight(t) + UtcMinuteOfDay(t) * MS_PER_MINUTE
  {
    var inDay := t % MS_PER_DAY;
    assert t == MS_PER_DAY * (t / MS_PER_DAY) + inDay;
    assert t == MS_PER_HOUR * (24 * (t / MS_PER_DAY)) + inDay;
    assert t % MS_PER_HOUR == inDay % MS_PER_HOUR;
    assert t == MS_PER_MINUTE * (1440 * (t / MS_PER_DAY)) + inDay;
    assert t % MS_PER_MINUTE == inDay % MS_PER_MINUTE;
  }
}
