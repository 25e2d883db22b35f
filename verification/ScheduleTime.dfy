/** Weekday masks, same-day and overnight windows, and the next run of a schedule, in a zone with a
    fixed offset. Instants count nanoseconds from 1970-01-01T00:00:00Z. */
module ScheduleTime {
  import opened Wrappers

  const MINUTE := 60_000_000_000
  const DAY := 1440 * MINUTE

  /** `offset` is None when the time zone cannot be loaded. */
  datatype Schedule = Schedule(
    id: string, enabled: bool, updatedAt: int, offset: Option<int>,
    mask: int, startMinute: int, endMinute: int)

  /** What an occurrence key spells out: the schedule, its revision and the local date. */
  datatype Key = Key(id: string, updatedAt: int, day: int)

  /** What the store accepts of a schedule's window. */
  predicate ValidWindow(s: Schedule) {
    1 <= s.mask <= 127 && 0 <= s.startMinute <= 1439 && 1 <= s.endMinute <= 1440 && s.startMinute != s.endMinute
  }

  /** The minute fields every function here needs; it allows equal start and end minutes. */
  predicate InRange(s: Schedule) {
    0 <= s.startMinute < 1440 && 0 <= s.endMinute <= 1440
  }

  // ---------- the calendar ----------

  function LocalDay(local: int): int { local / DAY }

  function LocalMinute(local: int): int { local % DAY / MINUTE }

  /** 1970-01-01 was a Thursday; Sunday is 0. */
  function Weekday(day: int): (w: nat)
    ensures w < 7
  {
    (day + 4) % 7
  }

  /** The bit test `mask & (1 << weekday) != 0`. */
  predicate WeekdayEnabled(mask: int, weekday: nat)
    decreases weekday
  {
    if weekday == 0 then mask % 2 != 0 else WeekdayEnabled(mask / 2, weekday - 1)
  }

  function Pow2(n: nat): (p: nat)
    ensures p > 0
  {
    if n == 0 then 1 else 2 * Pow2(n - 1)
  }

  /** For every mask, negative ones included, the test reads the bit of weight 2 to the weekday. */
  lemma {:induction false} WeekdayEnabledIff(mask: int, weekday: nat)
    ensures WeekdayEnabled(mask, weekday) <==> mask / Pow2(weekday) % 2 == 1
    decreases weekday
  {
    if weekday > 0 {
      WeekdayEnabledIff(mask / 2, weekday - 1);
      HalfThenRest(mask, Pow2(weekday - 1));
    }
  }

  lemma HalfThenRest(a: int, p: nat)
    requires p > 0
    ensures a / 2 / p == a / (2 * p)
  {
    var q := a / (2 * p);
    var r := a % (2 * p);
    assert a == 2 * (q * p) + r && a / 2 == q * p + r / 2 && 0 <= r / 2 < p;
    QuotientIs(a / 2, p, q, r / 2);
  }

  lemma MultipleOf(d: int, p: int)
    requires p > 0
    ensures d >= 1 ==> d * p >= p
    ensures d <= -1 ==> d * p <= -p
  {
  }

  lemma QuotientIs(a: int, p: nat, q: int, r: int)
    requires p > 0 && a == q * p + r && 0 <= r < p
    ensures a / p == q
  {
    assert (a / p - q) * p == r - a % p;
    MultipleOf(a / p - q, p);
  }

  predicate DayEnabled(s: Schedule, day: int) {
    WeekdayEnabled(s.mask, Weekday(day))
  }

  // ---------- the civil date ----------

  /** A date of the Gregorian calendar, extended to all years. */
  datatype Date = Date(year: int, month: int, day: int)

  predicate Leap(year: int) {
    year % 4 == 0 && (year % 100 == 0 ==> year % 400 == 0)
  }

  function MonthLength(year: int, month: int): int {
    if month == 2 then if Leap(year) then 29 else 28
    else if month == 4 || month == 6 || month == 9 || month == 11 then 30
    else 31
  }

  predicate IsDate(d: Date) {
    1 <= d.month <= 12 && 1 <= d.day <= MonthLength(d.year, d.month)
  }

  /** The day after. */
  function Tomorrow(d: Date): Date {
    if d.day < MonthLength(d.year, d.month) then d.(day := d.day + 1)
    else if d.month < 12 then Date(d.year, d.month + 1, 1)
    else Date(d.year + 1, 1, 1)
  }

  /** The days of the months before this one. */
  function DaysBefore(year: int, month: int): int
    requires 1 <= month <= 12
  {
    if month == 1 then 0 else DaysBefore(year, month - 1) + MonthLength(year, month - 1)
  }

  /** The local day on which the date falls. */
  function DayOf(d: Date): int
    requires IsDate(d)
  {
    var y := d.year - 1;
    365 * (d.year - 1970) + y / 4 - y / 100 + y / 400 - 477 + DaysBefore(d.year, d.month) + d.day - 1
  }

  lemma LeapDays(year: int)
    ensures year / 4 == (year - 1) / 4 + if year % 4 == 0 then 1 else 0
    ensures year / 100 == (year - 1) / 100 + if year % 100 == 0 then 1 else 0
    ensures year / 400 == (year - 1) / 400 + if year % 400 == 0 then 1 else 0
  {
  }

  lemma Hundreds(k: int)
    ensures 400 * k % 100 == 0
  {
    assert 400 * k == 100 * (4 * k);
  }

  lemma Fours(k: int)
    ensures 100 * k % 4 == 0
  {
    assert 100 * k == 4 * (25 * k);
  }

  lemma Multiples(year: int)
    ensures year % 400 == 0 ==> year % 100 == 0
    ensures year % 100 == 0 ==> year % 4 == 0
  {
    Hundreds(year / 400);
    Fours(year / 100);
  }

  lemma YearLength(year: int)
    ensures var y := year - 1;
            year / 4 - year / 100 + year / 400
            == y / 4 - y / 100 + y / 400 + if Leap(year) then 1 else 0
  {
    LeapDays(year);
    Multiples(year);
  }

  /** Local days count the dates of the calendar, one by one, from the first of January 1970. */
  lemma DaysAreDates(d: Date)
    requires IsDate(d)
    ensures DayOf(Date(1970, 1, 1)) == 0
    ensures IsDate(Tomorrow(d)) && DayOf(Tomorrow(d)) == DayOf(d) + 1
  {
    YearLength(d.year);
    MonthDays(d.year, 12);
    hide Leap;
  }

  /** The weekday of a date by Zeller's congruence, with Sunday as 0. */
  function Zeller(d: Date): int {
    var (year, month) := if d.month <= 2 then (d.year - 1, d.month + 12) else (d.year, d.month);
    (d.day + 13 * (month + 1) / 5 + year + year / 4 - year / 100 + year / 400 + 6) % 7
  }

  lemma NextWeekday(day: int)
    ensures Weekday(day + 1) == if Weekday(day) == 6 then 0 else Weekday(day) + 1
  {
  }

  /** Weekdays follow one another, and each date falls on its own. */
  lemma WeekdayIsCivil(d: Date)
    requires IsDate(d)
    ensures Weekday(DayOf(d)) == Zeller(d)
    ensures forall day :: Weekday(day + 1) == if Weekday(day) == 6 then 0 else Weekday(day) + 1
    ensures Weekday(0) == 4
  {
    WeekdayAt(d);
    forall day { NextWeekday(day); }
    hide DayOf, Zeller, IsDate;
  }

  lemma WholeWeeks(a: int, b: int, weeks: int)
    requires a == b + 7 * weeks
    ensures a % 7 == b % 7
  {
  }

  lemma WeekdayAt(d: Date)
    requires IsDate(d)
    ensures Weekday(DayOf(d)) == Zeller(d)
  {
    hide Leap, MonthLength, DaysBefore;
    MonthDays(d.year, d.month);
    var y := d.year - 1;
    if d.month <= 2 {
      var z := d.day + 13 * (d.month + 13) / 5 + y + y / 4 - y / 100 + y / 400 + 6;
      JanuaryDays(d.month);
      WholeWeeks(DayOf(d) + 4, z, 52 * y - 102743 + 4 * (d.month - 1));
    } else {
      YearLength(d.year);
      var z := d.day + 13 * (d.month + 1) / 5 + d.year + d.year / 4 - d.year / 100 + d.year / 400 + 6;
      WholeWeeks(DayOf(d) + 4, z, 52 * d.year - 102795 + 4 * d.month);
    }
  }

  lemma JanuaryDays(month: int)
    requires 1 <= month <= 2
    ensures 13 * (month + 13) / 5 == 36 + 3 * (month - 1)
  {
  }

  lemma MonthDays(year: int, month: int)
    requires 1 <= month <= 12
    ensures DaysBefore(year, month)
            == if month <= 2 then 31 * (month - 1)
               else 13 * (month + 1) / 5 + 28 * month - 35 + if Leap(year) then 1 else 0
  {
  }

  // ---------- the windows a schedule means ----------

  /** The window that opens on local day `day`: to the end minute of that day, or of the next one
      when the end is not after the start. */
  function Opens(s: Schedule, day: int): int {
    day * DAY + s.startMinute * MINUTE
  }

  function Closes(s: Schedule, day: int): int {
    (if s.endMinute > s.startMinute then day else day + 1) * DAY + s.endMinute * MINUTE
  }

  predicate InWindow(s: Schedule, day: int, local: int) {
    DayEnabled(s, day) && Opens(s, day) <= local < Closes(s, day)
  }

  /** The window that opened on `day` holds the instant `now`. */
  predicate Holds(s: Schedule, day: int, now: int) {
    s.offset.Some? && InWindow(s, day, now + s.offset.value)
  }

  // ---------- the code ----------

  function ScheduleOccurrence(s: Schedule, now: int): Option<Key> {
    if s.offset.None? then None
    else
      var local := now + s.offset.value;
      var minute := LocalMinute(local);
      var today := LocalDay(local);
      if s.endMinute > s.startMinute then
        if DayEnabled(s, today) && s.startMinute <= minute < s.endMinute
        then Some(Key(s.id, s.updatedAt, today)) else None
      else if minute >= s.startMinute then
        if DayEnabled(s, today) then Some(Key(s.id, s.updatedAt, today)) else None
      else if minute < s.endMinute then
        if DayEnabled(s, today - 1) then Some(Key(s.id, s.updatedAt, today - 1)) else None
      else None
  }

  predicate Active(s: Schedule, now: int) {
    ScheduleOccurrence(s, now).Some?
  }

  // ---------- occurrences are windows ----------

  lemma DayAndMinute(local: int) returns (clock: int)
    ensures local == LocalDay(local) * DAY + clock && 0 <= clock < DAY
    ensures LocalMinute(local) == clock / MINUTE && 0 <= LocalMinute(local) < 1440
  {
    clock := local % DAY;
  }

  lemma MinuteReached(clock: int, m: int)
    ensures clock / MINUTE >= m <==> clock >= m * MINUTE
  {
  }

  lemma WithinOneDay(today: int, clock: int, day: int, start: int, end: int)
    requires 0 <= clock < DAY && 0 <= start && end <= DAY
    ensures day * DAY + start <= today * DAY + clock < day * DAY + end <==> day == today && start <= clock < end
  {
  }

  lemma AcrossMidnight(today: int, clock: int, day: int, start: int, end: int)
    requires 0 <= clock < DAY && 0 <= end <= start <= DAY
    ensures day * DAY + start <= today * DAY + clock < (day + 1) * DAY + end
            <==> (day == today && start <= clock) || (day == today - 1 && clock < end)
  {
  }

  /** An instant is in some window of the schedule exactly when the schedule is active there, and
      the occurrence key names the day that window opened, also across midnight. */
  lemma OccurrenceIsTheWindow(s: Schedule, now: int, day: int)
    requires InRange(s) && s.offset.Some?
    ensures ScheduleOccurrence(s, now) == Some(Key(s.id, s.updatedAt, day)) <==> Holds(s, day, now)
  {
    var local := now + s.offset.value;
    var clock := DayAndMinute(local);
    MinuteReached(clock, s.startMinute);
    MinuteReached(clock, s.endMinute);
    if s.endMinute > s.startMinute {
      WithinOneDay(LocalDay(local), clock, day, s.startMinute * MINUTE, s.endMinute * MINUTE);
    } else {
      AcrossMidnight(LocalDay(local), clock, day, s.startMinute * MINUTE, s.endMinute * MINUTE);
    }
  }

  lemma ActiveIffInWindow(s: Schedule, now: int)
    requires InRange(s) && s.offset.Some?
    ensures Active(s, now) <==> exists day :: Holds(s, day, now)
  {
    if Active(s, now) {
      OccurrenceIsTheWindow(s, now, ScheduleOccurrence(s, now).value.day);
    }
    if day :| Holds(s, day, now) {
      OccurrenceIsTheWindow(s, now, day);
    }
  }

  /** Two active instants share their occurrence key exactly when one window holds both. */
  lemma SameKeyIffSameWindow(s: Schedule, t: int, u: int)
    requires InRange(s) && s.offset.Some? && Active(s, t) && Active(s, u)
    ensures ScheduleOccurrence(s, t) == ScheduleOccurrence(s, u)
            <==> exists day :: Holds(s, day, t) && Holds(s, day, u)
  {
    var k := ScheduleOccurrence(s, t).value;
    OccurrenceIsTheWindow(s, t, k.day);
    OccurrenceIsTheWindow(s, u, k.day);
    assert Holds(s, k.day, t);
    if day :| Holds(s, day, t) && Holds(s, day, u) {
      OccurrenceIsTheWindow(s, t, day);
      OccurrenceIsTheWindow(s, u, day);
    }
  }

  /** Later instants never fall back into earlier occurrences. */
  lemma OccurrencesAdvance(s: Schedule, t: int, u: int)
    requires InRange(s) && Active(s, t) && Active(s, u) && t <= u
    ensures ScheduleOccurrence(s, t).value.day <= ScheduleOccurrence(s, u).value.day
  {
    var d, e := ScheduleOccurrence(s, t).value.day, ScheduleOccurrence(s, u).value.day;
    OccurrenceIsTheWindow(s, t, d);
    OccurrenceIsTheWindow(s, u, e);
    assert Opens(s, d) < Closes(s, e);
  }

  /** A schedule for Mondays from nine to ten, in the first week: instants in nanoseconds. */
  lemma MondayMorning()
    ensures var s := Schedule("s", true, 0, Some(0), 2, 540, 600); var nine := 378_000_000_000_000;
            && ScheduleOccurrence(s, nine) == Some(Key("s", 0, 4))
            && Active(s, nine + 3_599_999_999_999) && !Active(s, nine - 1) && !Active(s, nine + 3_600_000_000_000)
            && !Active(s, nine - 86_400_000_000_000) && !Active(s, nine + 86_400_000_000_000)
  {
    assert WeekdayEnabled(1, 0) && !WeekdayEnabled(0, 0) && !WeekdayEnabled(2, 0) && !WeekdayEnabled(0, 1);
    assert WeekdayEnabled(2, 1) && !WeekdayEnabled(1, 1);
  }

  // ---------- the next run ----------

  /** Some weekday of the mask is enabled. */
  ghost predicate SomeDay(mask: int) {
    exists w: nat :: w < 7 && WeekdayEnabled(mask, w)
  }

  lemma {:induction false} SomeBit(mask: int, bits: nat) returns (w: nat)
    requires 0 < mask < Pow2(bits)
    ensures w < bits && WeekdayEnabled(mask, w)
    decreases bits
  {
    if mask % 2 != 0 {
      w := 0;
    } else {
      var v := SomeBit(mask / 2, bits - 1);
      w := v + 1;
    }
  }

  /** Every schedule the store accepts has some enabled weekday, so it has a next run. */
  lemma ValidWindowHasSomeDay(s: Schedule)
    requires ValidWindow(s)
    ensures InRange(s) && SomeDay(s.mask)
  {
    assert Pow2(7) == 128 by { assert Pow2(5) == 32; }
    var w := SomeBit(s.mask, 7);
  }

  lemma EnabledDayWithinAWeek(s: Schedule, from: int) returns (k: nat)
    requires SomeDay(s.mask)
    ensures k < 7 && DayEnabled(s, from + k)
  {
    var w: nat :| w < 7 && WeekdayEnabled(s.mask, w);
    k := (w + 7 - Weekday(from)) % 7;
    assert Weekday(from + k) == w;
  }

  /** A schedule in a known zone is active at some time exactly when some weekday is enabled. */
  lemma ActiveSometimeIff(s: Schedule)
    requires InRange(s) && s.offset.Some?
    ensures (exists t :: Active(s, t)) <==> SomeDay(s.mask)
  {
    if SomeDay(s.mask) {
      var k := EnabledDayWithinAWeek(s, 0);
      OpeningIsActive(s, Opens(s, k) - s.offset.value, k);
    }
    if t :| Active(s, t) {
      var day := ScheduleOccurrence(s, t).value.day;
      assert WeekdayEnabled(s.mask, Weekday(day));
    }
  }

  /** Nothing runs before the first enabled opening after an inactive instant. */
  lemma NothingBefore(s: Schedule, now: int, t: int, first: int)
    requires InRange(s) && s.offset.Some? && !Active(s, now)
    requires now <= t && t + s.offset.value < Opens(s, first)
    requires forall day :: day < first && DayEnabled(s, day) ==> Opens(s, day) <= now + s.offset.value
    ensures !Active(s, t)
  {
    ActiveIffInWindow(s, now);
    ActiveIffInWindow(s, t);
    if day :| Holds(s, day, t) {
      assert day < first;
      assert Holds(s, day, now);
      assert false;
    }
  }

  lemma OpeningIsActive(s: Schedule, t: int, day: int)
    requires InRange(s) && s.offset.Some? && DayEnabled(s, day) && t + s.offset.value == Opens(s, day)
    ensures Active(s, t)
  {
    OccurrenceIsTheWindow(s, t, day);
  }

  lemma OpensTomorrow(s: Schedule, local: int, k: nat)
    requires InRange(s)
    ensures Opens(s, LocalDay(local) + 1 + k) > local
  {
    var clock := DayAndMinute(local);
  }

  /** The least instant, from now on, at which an enabled schedule is active. */
  method NextScheduleRun(s: Schedule, now: int) returns (next: Option<int>)
    requires InRange(s)
    ensures next.Some? <==> s.enabled && s.offset.Some? && SomeDay(s.mask)
    ensures next.Some? ==> next.value >= now && Active(s, next.value)
    ensures next.Some? ==> forall t :: now <= t < next.value ==> !Active(s, t)
  {
    if !s.enabled { return None; }
    if Active(s, now) {
      assert SomeDay(s.mask);
      return Some(now);
    }
    if s.offset.None? { return None; }
    var local := now + s.offset.value;
    var today := LocalDay(local);
    ghost var clock := DayAndMinute(local);
    var offset := 0;
    while offset <= 7
      invariant 0 <= offset <= 8
      invariant forall day :: day < today + offset && DayEnabled(s, day) ==> Opens(s, day) <= local
    {
      var day := today + offset;
      if DayEnabled(s, day) {
        var candidate := day * DAY + s.startMinute * MINUTE;
        if candidate > local {
          assert SomeDay(s.mask);
          next := Some(candidate - s.offset.value);
          OpeningIsActive(s, next.value, day);
          forall t | now <= t < next.value ensures !Active(s, t) { NothingBefore(s, now, t, day); }
          return;
        }
      }
      offset := offset + 1;
    }
    next := None;
    if SomeDay(s.mask) {
      var k := EnabledDayWithinAWeek(s, today + 1);
      OpensTomorrow(s, local, k);
      assert false;
    }
  }
}
