/** Cadence arithmetic (schedules/store.py). Instants are microseconds of server-local time at a fixed UTC offset. */
module Schedules {

  const SECOND := 1_000_000
  const MINUTE := 60_000_000
  const DAY := 86_400_000_000
  const EPOCH_WEEKDAY := 3 // 1970-01-01 was a Thursday; 0 is Monday
  const MIN_INTERVAL_MINUTES := 5

  datatype Cadence =
    | Daily(hour: int, minute: int)
    | Weekly(weekday: int, hour: int, minute: int)
    | Interval(everyMinutes: int)

  /** What validate_cadence accepts. */
  predicate ValidCadence(c: Cadence) {
    match c
    case Daily(h, m) => 0 <= h < 24 && 0 <= m < 60
    case Weekly(w, h, m) => 0 <= w <= 6 && 0 <= h < 24 && 0 <= m < 60
    case Interval(n) => n >= MIN_INTERVAL_MINUTES
  }

  function DayOf(t: int): int {
    t / DAY
  }

  function TimeOfDay(t: int): int {
    t % DAY
  }

  function WeekdayOf(t: int): int {
    (DayOf(t) + EPOCH_WEEKDAY) % 7
  }

  function WallClock(hour: int, minute: int): int {
    (hour * 60 + minute) * MINUTE
  }

  /** after.replace(hour=..., minute=..., second=0, microsecond=0) */
  function AtTime(after: int, hour: int, minute: int): int {
    DayOf(after) * DAY + WallClock(hour, minute)
  }

  /** compute_next_run */
  function ComputeNextRun(c: Cadence, after: int): int {
    match c
    case Interval(n) => after + n * MINUTE
    case Daily(h, m) =>
      var candidate := AtTime(after, h, m);
      if candidate <= after then candidate + DAY else candidate
    case Weekly(w, h, m) =>
      var candidate := AtTime(after, h, m) + (w - WeekdayOf(after)) % 7 * DAY;
      if candidate <= after then candidate + 7 * DAY else candidate
  }

  /** iso_utc then parse_iso_utc: the instant truncated to its second. */
  function Stored(t: int): int {
    t / SECOND * SECOND
  }

  /** A wall-clock instant at which the cadence fires, in microseconds since 1970-01-01, a Thursday. */
  predicate Matches(c: Cadence, t: int)
    requires !c.Interval?
  {
    && t % 86_400_000_000 == (c.hour * 60 + c.minute) * 60_000_000
    && (c.Weekly? ==> (t / 86_400_000_000 + 3) % 7 == c.weekday)
  }

  lemma Decompose(t: int)
    ensures t == DayOf(t) * DAY + TimeOfDay(t) && 0 <= TimeOfDay(t) < DAY
  {
  }

  lemma Compose(d: int, tod: int)
    requires 0 <= tod < DAY
    ensures DayOf(d * DAY + tod) == d && TimeOfDay(d * DAY + tod) == tod
  {
  }

  /** The next run is the least matching instant strictly after `after`. */
  lemma NextDailyIsLeast(h: int, m: int, after: int, t: int)
    requires ValidCadence(Daily(h, m))
    ensures var next := ComputeNextRun(Daily(h, m), after);
            && next > after && Matches(Daily(h, m), next)
            && (t > after && Matches(Daily(h, m), t) ==> t >= next)
  {
    var d, tod := DayOf(after), WallClock(h, m);
    Decompose(after);
    Decompose(t);
    Compose(d, tod);
    Compose(d + 1, tod);
  }

  lemma SameWeekday(a: int, b: int)
    requires (a + EPOCH_WEEKDAY) % 7 == (b + EPOCH_WEEKDAY) % 7 && a <= b
    ensures a == b || a + 7 <= b
  {
  }

  /** The day offset to the next such weekday. */
  lemma OffsetToWeekday(d: int, w: int)
    requires 0 <= w <= 6
    ensures var k := (w - (d + EPOCH_WEEKDAY) % 7) % 7; 0 <= k < 7 && (d + k + EPOCH_WEEKDAY) % 7 == w
  {
  }

  /** The candidate day of the weekly cadence: that weekday, within the seven days from the current one on. */
  lemma WeeklyCandidate(w: int, h: int, m: int, after: int) returns (d: int, next: int)
    requires ValidCadence(Weekly(w, h, m))
    ensures DayOf(after) <= d < DayOf(after) + 7 && (d + EPOCH_WEEKDAY) % 7 == w
    ensures next == ComputeNextRun(Weekly(w, h, m), after)
    ensures next == (if d * DAY + WallClock(h, m) <= after then d + 7 else d) * DAY + WallClock(h, m)
  {
    var k := (w - WeekdayOf(after)) % 7;
    OffsetToWeekday(DayOf(after), w);
    d := DayOf(after) + k;
    next := ComputeNextRun(Weekly(w, h, m), after);
  }

  lemma WeeklyMatches(w: int, h: int, m: int, d: int)
    requires ValidCadence(Weekly(w, h, m)) && (d + EPOCH_WEEKDAY) % 7 == w
    ensures Matches(Weekly(w, h, m), d * DAY + WallClock(h, m))
  {
    Compose(d, WallClock(h, m));
  }

  /** Days of one weekday, and which of them at that time of day is the first after a moment. */
  lemma FirstByDays(d: int, tod: int, fromDay: int, fromTime: int, day: int)
    requires 0 <= tod < DAY && 0 <= fromTime < DAY && fromDay <= d < fromDay + 7
    requires day == d || day >= d + 7 || day <= d - 7
    ensures var after := fromDay * DAY + fromTime;
            var next := if d * DAY + tod <= after then (d + 7) * DAY + tod else d * DAY + tod;
            next > after && (day * DAY + tod > after ==> day * DAY + tod >= next)
  {
  }

  lemma WeeklyIsLeast(w: int, h: int, m: int, after: int, t: int, d: int, next: int)
    requires ValidCadence(Weekly(w, h, m)) && Matches(Weekly(w, h, m), t) && t > after
    requires DayOf(after) <= d < DayOf(after) + 7 && (d + EPOCH_WEEKDAY) % 7 == w
    requires next == (if d * DAY + WallClock(h, m) <= after then d + 7 else d) * DAY + WallClock(h, m)
    ensures t >= next
  {
    WeeklyInstant(w, h, m, t);
    OnSameWeekday(d, 0, DayOf(t), w);
    Decompose(after);
    FirstByDays(d, WallClock(h, m), DayOf(after), TimeOfDay(after), DayOf(t));
  }

  lemma WeeklyIsLater(w: int, h: int, m: int, after: int, d: int, next: int)
    requires ValidCadence(Weekly(w, h, m)) && DayOf(after) <= d && (d + EPOCH_WEEKDAY) % 7 == w
    requires next == (if d * DAY + WallClock(h, m) <= after then d + 7 else d) * DAY + WallClock(h, m)
    ensures next > after && Matches(Weekly(w, h, m), next)
  {
    Decompose(after);
    WeeklyMatches(w, h, m, if d * DAY + WallClock(h, m) <= after then d + 7 else d);
  }

  lemma NextWeeklyIsLeast(w: int, h: int, m: int, after: int, t: int)
    requires ValidCadence(Weekly(w, h, m))
    ensures var next := ComputeNextRun(Weekly(w, h, m), after);
            && next > after && Matches(Weekly(w, h, m), next)
            && (t > after && Matches(Weekly(w, h, m), t) ==> t >= next)
  {
    var d, next := WeeklyCandidate(w, h, m, after);
    WeeklyIsLater(w, h, m, after, d, next);
    if t > after && Matches(Weekly(w, h, m), t) {
      WeeklyIsLeast(w, h, m, after, t, d, next);
    }
  }

  lemma WeeklyInstant(w: int, h: int, m: int, t: int)
    requires Matches(Weekly(w, h, m), t)
    ensures t == DayOf(t) * DAY + WallClock(h, m) && (DayOf(t) + EPOCH_WEEKDAY) % 7 == w
  {
  }

  /** A day of that weekday is the first one from day d on, a week later at least, or a week earlier at least. */
  lemma OnSameWeekday(d: int, k: int, day: int, w: int)
    requires (d + k + EPOCH_WEEKDAY) % 7 == w && (day + EPOCH_WEEKDAY) % 7 == w
    ensures day == d + k || day >= d + k + 7 || day <= d + k - 7
  {
    if day <= d + k {
      SameWeekday(day, d + k);
    } else {
      SameWeekday(d + k, day);
    }
  }

  lemma NextRunIsLeast(c: Cadence, after: int, t: int)
    requires ValidCadence(c) && !c.Interval?
    ensures var next := ComputeNextRun(c, after);
            next > after && Matches(c, next) && (t > after && Matches(c, t) ==> t >= next)
  {
    match c {
      case Daily(h, m) => NextDailyIsLeast(h, m, after, t);
      case Weekly(w, h, m) => NextWeeklyIsLeast(w, h, m, after, t);
      case Interval(_) =>
    }
  }

  lemma WholeSecond(d: int, minutes: int)
    ensures Stored(d * 86_400_000_000 + minutes * 60_000_000) == d * 86_400_000_000 + minutes * 60_000_000
  {
    var k := d * 86_400 + minutes * 60;
    assert d * 86_400_000_000 + minutes * 60_000_000 == k * 1_000_000;
    assert k * 1_000_000 / 1_000_000 == k;
  }

  /** Instants of the wall clock fall on whole seconds. */
  lemma OnTheSecond(c: Cadence, t: int)
    requires !c.Interval? && Matches(c, t)
    ensures Stored(t) == t
  {
    WholeSecond(t / 86_400_000_000, c.hour * 60 + c.minute);
  }

  lemma StoredIntervalIsLater(n: int, after: int)
    requires n >= MIN_INTERVAL_MINUTES
    ensures Stored(after + n * MINUTE) > after
  {
    var t := after + n * MINUTE;
    assert t / SECOND * SECOND > t - SECOND;
  }

  /** The stored next run stays strictly after the moment it was computed at, whatever the cadence. */
  lemma StoredNextIsLater(c: Cadence, after: int)
    requires ValidCadence(c)
    ensures Stored(ComputeNextRun(c, after)) > after
    ensures !c.Interval? ==> Stored(ComputeNextRun(c, after)) == ComputeNextRun(c, after)
  {
    if c.Interval? {
      StoredIntervalIsLater(c.everyMinutes, after);
    } else {
      NextRunIsLeast(c, after, after);
      OnTheSecond(c, ComputeNextRun(c, after));
    }
  }

  /** The stored instant is the computed one without its fraction of a second. */
  predicate InSecond(stored: int, t: int) {
    stored % 1_000_000 == 0 && stored <= t < stored + 1_000_000
  }

  /** What the stored next run means for the cadence: the first instant it names, or the interval later. */
  ghost predicate IsNextRun(c: Cadence, after: int, next: int) {
    match c
    case Interval(n) => InSecond(next, after + n * 60_000_000)
    case _ => next > after && Matches(c, next) && forall t :: t > after && Matches(c, t) ==> t >= next
  }

  lemma StoredInSecond(t: int)
    ensures InSecond(Stored(t), t)
  {
  }

  lemma StoredNextRun(c: Cadence, after: int)
    requires ValidCadence(c)
    ensures IsNextRun(c, after, Stored(ComputeNextRun(c, after)))
    ensures Stored(ComputeNextRun(c, after)) > after
  {
    StoredNextIsLater(c, after);
    StoredInSecond(ComputeNextRun(c, after));
    if !c.Interval? {
      forall t ensures t > after && Matches(c, t) ==> t >= ComputeNextRun(c, after) {
        NextRunIsLeast(c, after, t);
      }
      NextRunIsLeast(c, after, after);
    }
  }

  /** There is one such instant. */
  lemma NextRunIsUnique(c: Cadence, after: int, a: int, b: int)
    requires IsNextRun(c, after, a) && IsNextRun(c, after, b)
    ensures a == b
  {
  }

  /** 2026-07-21, 10:00, was a Tuesday morning. */
  const TUESDAY_10 := 20_655 * 86_400_000_000 + 10 * 3_600_000_000

  lemma TuesdayMorning(h: int, m: int)
    ensures WeekdayOf(TUESDAY_10) == 1
    ensures AtTime(TUESDAY_10, h, m) == TUESDAY_10 + (h - 10) * 3_600_000_000 + m * 60_000_000
  {
    Compose(20_655, 10 * 3_600_000_000);
  }

  /** From then: the Friday after, the Monday after, the same day a week on, the same day. */
  lemma WeeklyExamples()
    ensures ComputeNextRun(Weekly(4, 9, 0), TUESDAY_10) == TUESDAY_10 + 3 * 86_400_000_000 - 3_600_000_000
    ensures ComputeNextRun(Weekly(0, 9, 0), TUESDAY_10) == TUESDAY_10 + 6 * 86_400_000_000 - 3_600_000_000
    ensures ComputeNextRun(Weekly(1, 9, 0), TUESDAY_10) == TUESDAY_10 + 7 * 86_400_000_000 - 3_600_000_000
    ensures ComputeNextRun(Weekly(1, 23, 0), TUESDAY_10) == TUESDAY_10 + 13 * 3_600_000_000
    ensures ValidCadence(Weekly(6, 23, 59)) && ValidCadence(Weekly(0, 0, 0)) && !ValidCadence(Weekly(7, 0, 0))
  {
    TuesdayMorning(9, 0);
    TuesdayMorning(23, 0);
  }

  /** A time that is just now is the next day's; an interval is counted in minutes, five at least. */
  lemma DailyAndIntervalExamples()
    ensures ComputeNextRun(Daily(10, 0), TUESDAY_10) == TUESDAY_10 + 86_400_000_000
    ensures ComputeNextRun(Daily(10, 30), TUESDAY_10) == TUESDAY_10 + 1_800_000_000
    ensures ComputeNextRun(Interval(45), TUESDAY_10) == TUESDAY_10 + 2_700_000_000
    ensures ValidCadence(Daily(0, 0)) && !ValidCadence(Daily(24, 0)) && !ValidCadence(Daily(0, 60))
    ensures ValidCadence(Interval(5)) && !ValidCadence(Interval(4))
  {
    TuesdayMorning(10, 0);
    TuesdayMorning(10, 30);
  }
}
