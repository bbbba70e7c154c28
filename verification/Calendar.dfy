/** The proleptic Gregorian calendar in UTC. Days are numbered from 1 January of
    year 1 (day 0), minutes from that day's midnight, over all the integers. */
module Calendar {

  const MINUTES_PER_DAY := 1440

  predicate Leap(y: int) { y % 4 == 0 && (y % 100 != 0 || y % 400 == 0) }

  /** The number of 1 January of year `y`. */
  function NewYear(y: int): int {
    365 * (y - 1) + (y - 1) / 4 - (y - 1) / 100 + (y - 1) / 400
  }

  /** Each of the three leap rules adds a day exactly in its own years. */
  lemma LeapSteps(y: int)
    ensures y / 4 == (y - 1) / 4 + if y % 4 == 0 then 1 else 0
    ensures y / 100 == (y - 1) / 100 + if y % 100 == 0 then 1 else 0
    ensures y / 400 == (y - 1) / 400 + if y % 400 == 0 then 1 else 0
  {
  }

  lemma HundredsBy4(k: int)
    ensures 100 * k % 4 == 0
  {
  }

  lemma FourHundredsBy100(k: int)
    ensures 400 * k % 100 == 0
  {
  }

  lemma LeapRulesNest(y: int)
    ensures y % 400 == 0 ==> y % 100 == 0
    ensures y % 100 == 0 ==> y % 4 == 0
  {
    if y % 400 == 0 { FourHundredsBy100(y / 400); }
    if y % 100 == 0 { HundredsBy4(y / 100); }
  }

  lemma YearLength(y: int)
    ensures NewYear(y + 1) == NewYear(y) + if Leap(y) then 366 else 365
  {
    LeapSteps(y);
    LeapRulesNest(y);
  }

  lemma {:induction false} YearsAscend(y: int, z: int)
    requires y <= z
    ensures NewYear(y) + 365 * (z - y) <= NewYear(z)
    decreases z - y
  {
    if y < z {
      YearLength(y);
      YearsAscend(y + 1, z);
    }
  }

  function YearFrom(y: int, day: int): (r: int)
    requires NewYear(y) <= day
    ensures NewYear(r) <= day < NewYear(r + 1)
    decreases day - NewYear(y)
  {
    YearLength(y);
    if day < NewYear(y + 1) then y else YearFrom(y + 1, day)
  }

  /** The year a day falls in, found from the start of its 400-year cycle. */
  function YearOf(day: int): (y: int)
    ensures NewYear(y) <= day < NewYear(y + 1)
  {
    CycleStart(day / 146_097);
    YearFrom(400 * (day / 146_097) + 1, day)
  }

  lemma CycleStart(c: int)
    ensures NewYear(400 * c + 1) == 146_097 * c
  {
    assert (400 * c) / 4 == 100 * c && (400 * c) / 100 == 4 * c && (400 * c) / 400 == c;
  }

  lemma YearUnique(y: int, day: int)
    requires NewYear(y) <= day < NewYear(y + 1)
    ensures YearOf(day) == y
  {
    var z := YearOf(day);
    if z < y {
      YearsAscend(z + 1, y);
    } else if y < z {
      YearsAscend(y + 1, z);
    }
  }

  function MonthLength(y: int, m: int): (n: int)
    requires 1 <= m <= 12
    ensures 28 <= n <= 31
  {
    if m == 2 then (if Leap(y) then 29 else 28)
    else if m == 4 || m == 6 || m == 9 || m == 11 then 30
    else 31
  }

  /** Days of the year before month `m`; month 13 is the end of the year. */
  function BeforeMonth(y: int, m: int): int
    requires 1 <= m <= 13
    decreases m
  {
    if m == 1 then 0 else BeforeMonth(y, m - 1) + MonthLength(y, m - 1)
  }

  lemma MonthsFillYear(y: int)
    ensures BeforeMonth(y, 13) == if Leap(y) then 366 else 365
  {
    assert BeforeMonth(y, 3) == if Leap(y) then 60 else 59;
    assert BeforeMonth(y, 5) == BeforeMonth(y, 3) + 61;
    assert BeforeMonth(y, 7) == BeforeMonth(y, 5) + 61;
    assert BeforeMonth(y, 9) == BeforeMonth(y, 7) + 62;
    assert BeforeMonth(y, 11) == BeforeMonth(y, 9) + 61;
    assert BeforeMonth(y, 13) == BeforeMonth(y, 11) + 61;
  }

  lemma {:induction false} MonthsAscend(y: int, m: int, n: int)
    requires 1 <= m <= n <= 13
    ensures BeforeMonth(y, m) + 28 * (n - m) <= BeforeMonth(y, n)
    decreases n - m
  {
    if m < n {
      MonthsAscend(y, m, n - 1);
    }
  }

  function MonthFrom(y: int, m: int, dayOfYear: int): (r: int)
    requires 1 <= m <= 12 && BeforeMonth(y, m) <= dayOfYear < BeforeMonth(y, 13)
    ensures m <= r <= 12 && BeforeMonth(y, r) <= dayOfYear < BeforeMonth(y, r + 1)
    decreases 13 - m
  {
    if dayOfYear < BeforeMonth(y, m + 1) then m else MonthFrom(y, m + 1, dayOfYear)
  }

  function MonthOf(day: int): (m: int)
    ensures 1 <= m <= 12
    ensures var y := YearOf(day);
      NewYear(y) + BeforeMonth(y, m) <= day < NewYear(y) + BeforeMonth(y, m + 1)
  {
    var y := YearOf(day);
    YearLength(y);
    MonthsFillYear(y);
    MonthFrom(y, 1, day - NewYear(y))
  }

  function DayOf(day: int): (d: int)
    ensures 1 <= d <= MonthLength(YearOf(day), MonthOf(day))
  {
    day - NewYear(YearOf(day)) - BeforeMonth(YearOf(day), MonthOf(day)) + 1
  }

  /** 0 is Sunday. 1 January of year 1 was a Monday. */
  function Weekday(day: int): (w: int)
    ensures 0 <= w < 7
  {
    (day + 1) % 7
  }

  /** The days of the week follow one another. */
  lemma WeekdayNext(day: int)
    ensures Weekday(day + 1) == (Weekday(day) + 1) % 7
  {
  }

  /** The number of day `d` of month `m` of year `y`; a month past December
      carries into the following years, as `time.Date` normalises it. */
  function DayNumber(y: int, m: int, d: int): int {
    var y' := y + (m - 1) / 12;
    NewYear(y') + BeforeMonth(y', (m - 1) % 12 + 1) + d - 1
  }

  lemma DayNumberPlain(y: int, m: int, d: int)
    requires 1 <= m <= 12
    ensures DayNumber(y, m, d) == NewYear(y) + BeforeMonth(y, m) + d - 1
  {
    assert (m - 1) / 12 == 0 && (m - 1) % 12 == m - 1;
  }

  /** The month whose span contains a day is the day's month. */
  lemma MonthUnique(day: int, m: int)
    requires 1 <= m <= 12
    requires BeforeMonth(YearOf(day), m) <= day - NewYear(YearOf(day)) < BeforeMonth(YearOf(day), m + 1)
    ensures MonthOf(day) == m
  {
    var y, n := YearOf(day), MonthOf(day);
    if n < m {
      MonthsAscend(y, n + 1, m);
    } else if m < n {
      MonthsAscend(y, m + 1, n);
    }
  }

  /** The calendar fields of a day are the ones it was built from. */
  lemma Fields(y: int, m: int, d: int)
    requires 1 <= m <= 12 && 1 <= d <= MonthLength(y, m)
    ensures var day := DayNumber(y, m, d);
      YearOf(day) == y && MonthOf(day) == m && DayOf(day) == d
  {
    var day := DayNumber(y, m, d);
    DayNumberPlain(y, m, d);
    MonthsAscend(y, 1, m);
    MonthsAscend(y, m + 1, 13);
    MonthsFillYear(y);
    YearLength(y);
    YearUnique(y, day);
    MonthUnique(day, m);
  }

  /** A day is the one its fields name. */
  lemma DateOfDay(day: int)
    ensures day == DayNumber(YearOf(day), MonthOf(day), DayOf(day))
  {
    DayNumberPlain(YearOf(day), MonthOf(day), DayOf(day));
  }

  /** A month runs from its first day to the first day of the next one. */
  lemma MonthSpan(day: int, other: int)
    requires DayNumber(YearOf(day), MonthOf(day), 1) <= other < DayNumber(YearOf(day), MonthOf(day) + 1, 1)
    ensures YearOf(other) == YearOf(day) && MonthOf(other) == MonthOf(day)
  {
    var y, m := YearOf(day), MonthOf(day);
    NextMonthStart(y, m);
    var d := other - DayNumber(y, m, 1) + 1;
    assert other == DayNumber(y, m, d);
    Fields(y, m, d);
  }

  lemma NextMonthStart(y: int, m: int)
    requires 1 <= m <= 12
    ensures DayNumber(y, m + 1, 1) == DayNumber(y, m, 1) + MonthLength(y, m)
  {
    DayNumberPlain(y, m, 1);
    if m < 12 {
      MonthEnds(y, m);
    } else {
      DecemberEnds(y);
    }
  }

  lemma MonthEnds(y: int, m: int)
    requires 1 <= m < 12
    ensures DayNumber(y, m + 1, 1) == NewYear(y) + BeforeMonth(y, m) + MonthLength(y, m)
  {
    DayNumberPlain(y, m + 1, 1);
  }

  lemma MonthBounds(day: int)
    ensures DayNumber(YearOf(day), MonthOf(day), 1) <= day < DayNumber(YearOf(day), MonthOf(day) + 1, 1)
  {
    var y, m := YearOf(day), MonthOf(day);
    DayNumberPlain(y, m, 1);
    NextMonthStart(y, m);
  }

  lemma DecemberEnds(y: int)
    ensures DayNumber(y, 13, 1) == NewYear(y + 1) == NewYear(y) + BeforeMonth(y, 12) + 31
  {
    YearLength(y);
    MonthsFillYear(y);
    assert DayNumber(y, 13, 1) == NewYear(y + 1) + BeforeMonth(y + 1, 1);
  }

  // ------------------------------------------------------------------ minutes

  // Minutes, like all times outside this module, count from the Unix epoch. Days
  // count from the start of year 1; the two meet in `DayOfMinute` and `MinuteAt`.

  /** 1 January 1970. */
  const EPOCH_DAY := 719_162

  lemma EpochDay()
    ensures EPOCH_DAY == DayNumber(1970, 1, 1)
  {
    DayNumberPlain(1970, 1, 1);
  }

  /** The Unix epoch was a Thursday, so every day's weekday is counted from there. */
  lemma EpochThursday(day: int)
    ensures Weekday(DayNumber(1970, 1, 1)) == 4
    ensures Weekday(day) == (day - DayNumber(1970, 1, 1) + 4) % 7
  {
    EpochDay();
  }

  /** The calendar written out: where each month starts in its year, and each year after
      the one before, 29 February coming in years that divide by four but not by a
      hundred, or by four hundred. */
  lemma {:induction false} CalendarIs(y: int, m: int, d: int)
    requires 1 <= m <= 12
    ensures DayNumber(y, m, d) == DayNumber(y, m, 1) + d - 1
    ensures var leap := if y % 400 == 0 || (y % 4 == 0 && y % 100 != 0) then 1 else 0;
      && DayNumber(y, m, 1) == DayNumber(y, 1, 1) + [0, 31, 59, 90, 120, 151, 181, 212, 243, 273, 304, 334][m - 1]
           + (if m > 2 then leap else 0)
      && DayNumber(y + 1, 1, 1) == DayNumber(y, 1, 1) + 365 + leap
  {
    DayNumberPlain(y, m, d);
    DayNumberPlain(y, m, 1);
    DayNumberPlain(y, 1, 1);
    DayNumberPlain(y + 1, 1, 1);
    YearLength(y);
    LeapRulesNest(y);
    MonthStarts(y, m);
  }

  lemma {:induction false} MonthStarts(y: int, m: int)
    requires 1 <= m <= 12
    ensures BeforeMonth(y, m) == [0, 31, 59, 90, 120, 151, 181, 212, 243, 273, 304, 334][m - 1]
      + if m > 2 && Leap(y) then 1 else 0
    decreases m
  {
    if m == 1 {
    } else {
      MonthStarts(y, m - 1);
    }
  }

  function DayOfMinute(t: int): int { t / MINUTES_PER_DAY + EPOCH_DAY }

  function HourOf(t: int): (h: int)
    ensures 0 <= h < 24
  {
    t % MINUTES_PER_DAY / 60
  }

  function MinuteOf(t: int): (m: int)
    ensures 0 <= m < 60
  {
    t % 60
  }

  /** The minute at `h:m` of a day. */
  function MinuteAt(day: int, h: int, m: int): int {
    (day - EPOCH_DAY) * MINUTES_PER_DAY + h * 60 + m
  }

  lemma MinuteFields(day: int, h: int, m: int)
    requires 0 <= h < 24 && 0 <= m < 60
    ensures var t := MinuteAt(day, h, m);
      DayOfMinute(t) == day && HourOf(t) == h && MinuteOf(t) == m
  {
    var t, k := MinuteAt(day, h, m), h * 60 + m;
    var n := day - EPOCH_DAY;
    assert t == n * 1440 + k && 0 <= k < 1440;
    assert t / 1440 == n && t % 1440 == k;
    assert t == 60 * (24 * n + h) + m;
  }

  lemma TimeOfMinute(t: int)
    ensures t == MinuteAt(DayOfMinute(t), HourOf(t), MinuteOf(t))
  {
    var k := t % MINUTES_PER_DAY;
    assert k == k / 60 * 60 + k % 60 && k % 60 == t % 60;
  }
}
