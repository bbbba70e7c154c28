/** Which schedules fire at all, and which always fire within the search limit. */
module CronLiveness {
  import opened Calendar
  import opened CronSchedule

  ghost predicate HasBit(mask: Mask, low: nat, high: nat) {
    exists v: nat :: low <= v <= high && BitSet(mask, v)
  }

  /** Every field allows something in its range, as every parsed field does. */
  ghost predicate WellFormed(s: Schedule) {
    && HasBit(s.minute, 0, 59) && HasBit(s.hour, 0, 23)
    && HasBit(s.dom, 1, 31) && HasBit(s.month, 1, 12) && HasBit(s.dow, 0, 6)
  }

  /** The length of a month in a year that is not, or that is, a leap year. */
  function ShortLength(m: int): (n: int)
    requires 1 <= m <= 12
    ensures forall y :: n <= MonthLength(y, m)
  {
    if m == 2 then 28 else MonthLength(1, m)
  }

  function LongLength(m: int): (n: int)
    requires 1 <= m <= 12
    ensures forall y :: MonthLength(y, m) <= n
  {
    if m == 2 then 29 else MonthLength(1, m)
  }

  /** Some allowed (month, day) pair exists in every year. */
  ghost predicate CommonPair(s: Schedule) {
    exists m: nat, d: nat :: 1 <= m <= 12 && 1 <= d <= ShortLength(m) && BitSet(s.month, m) && BitSet(s.dom, d)
  }

  /** Some allowed (month, day) pair exists in leap years at least. */
  ghost predicate SomePair(s: Schedule) {
    exists m: nat, d: nat :: 1 <= m <= 12 && 1 <= d <= LongLength(m) && BitSet(s.month, m) && BitSet(s.dom, d)
  }

  predicate DayFires(s: Schedule, day: int) {
    BitSet(s.month, MonthOf(day)) && DayMatches(s, day)
  }

  lemma MatchesAt(s: Schedule, day: int, h: int, m: int)
    requires 0 <= h < 24 && 0 <= m < 60 && BitSet(s.hour, h) && BitSet(s.minute, m) && DayFires(s, day)
    ensures Fires(s)(MinuteAt(day, h, m))
  {
    MinuteFields(day, h, m);
  }

  /** A month and day that exist in year `y` fire there, unless the day field is
      starred and the weekday field is not. */
  lemma PairFires(s: Schedule, y: int, m: int, d: int)
    requires 1 <= m <= 12 && 1 <= d <= MonthLength(y, m) && BitSet(s.month, m)
    requires (s.domStar && s.dowStar) || (!s.domStar && BitSet(s.dom, d))
    ensures DayFires(s, DayNumber(y, m, d))
  {
    Fields(y, m, d);
  }

  /** Every month has each weekday among its first seven days. */
  lemma WeekdayFires(s: Schedule, y: int, m: int, w: int) returns (d: int)
    requires 1 <= m <= 12 && 0 <= w < 7 && BitSet(s.month, m) && BitSet(s.dow, w) && !s.dowStar
    ensures 1 <= d <= 7 && DayFires(s, DayNumber(y, m, d))
  {
    var first := DayNumber(y, m, 1);
    var k := FirstWeekday(first, w);
    d := k + 1;
    DaysInMonth(y, m, d);
    Fields(y, m, d);
  }

  lemma DaysInMonth(y: int, m: int, d: int)
    requires 1 <= m <= 12
    ensures DayNumber(y, m, d) == DayNumber(y, m, 1) + d - 1
  {
    DayNumberPlain(y, m, 1);
    DayNumberPlain(y, m, d);
  }

  lemma FirstWeekday(first: int, w: int) returns (k: int)
    requires 0 <= w < 7
    ensures 0 <= k < 7 && Weekday(first + k) == w
  {
    var a := Weekday(first);
    k := if w >= a then w - a else w - a + 7;
    WeekdayAfter(first, k);
  }

  lemma WeekdayAfter(first: int, k: int)
    requires 0 <= k < 7
    ensures Weekday(first + k) == if Weekday(first) + k < 7 then Weekday(first) + k else Weekday(first) + k - 7
  {
  }

  /** A schedule whose day rule can be met in every year is met in year `y`. */
  lemma {:induction false} FiresInYear(s: Schedule, y: int) returns (day: int)
    requires WellFormed(s) && (s.domStar || !s.dowStar || CommonPair(s))
    ensures NewYear(y) <= day < NewYear(y + 1) && DayFires(s, day)
  {
    var m: nat :| 1 <= m <= 12 && BitSet(s.month, m);
    var d := 1;
    if s.domStar && s.dowStar {
      PairFires(s, y, m, 1);
    } else if !s.dowStar {
      var w: nat :| w <= 6 && BitSet(s.dow, w);
      d := WeekdayFires(s, y, m, w);
    } else {
      var m': nat, d': nat :| 1 <= m' <= 12 && 1 <= d' <= ShortLength(m') && BitSet(s.month, m') && BitSet(s.dom, d');
      m, d := m', d';
      PairFires(s, y, m, d);
    }
    day := DayNumber(y, m, d);
    InYear(y, m, d);
  }

  lemma InYear(y: int, m: int, d: int)
    requires 1 <= m <= 12 && 1 <= d <= MonthLength(y, m)
    ensures NewYear(y) <= DayNumber(y, m, d) < NewYear(y + 1)
  {
    Fields(y, m, d);
  }

  /** The search limit always covers the whole of the next calendar year. */
  lemma WindowCoversYear(start: int, day: int)
    requires var y := YearOf(DayOfMinute(start)) + 1;
      NewYear(y) <= day < NewYear(y + 1)
    ensures start < MinuteAt(day, 0, 0) && MinuteAt(day + 1, 0, 0) < start + SEARCH_LIMIT
  {
    var today := DayOfMinute(start);
    var y := YearOf(today);
    YearLength(y);
    YearLength(y + 1);
    WindowCoversDay(start, today, day);
  }

  lemma WindowCoversDay(start: int, today: int, day: int)
    requires today == DayOfMinute(start) && today < day <= today + 731
    ensures start < MinuteAt(day, 0, 0) && MinuteAt(day + 1, 0, 0) < start + SEARCH_LIMIT
  {
  }

  lemma {:induction false} FiresInWindow(s: Schedule, start: int) returns (k: int)
    requires WellFormed(s) && (s.domStar || !s.dowStar || CommonPair(s))
    ensures start <= k < start + SEARCH_LIMIT && Fires(s)(k)
  {
    var day := FiresInYear(s, YearOf(DayOfMinute(start)) + 1);
    WindowCoversYear(start, day);
    k := FiresOnDay(s, day);
  }

  lemma {:induction false} FiresOnDay(s: Schedule, day: int) returns (k: int)
    requires WellFormed(s) && DayFires(s, day)
    ensures MinuteAt(day, 0, 0) <= k < MinuteAt(day + 1, 0, 0) && Fires(s)(k)
  {
    var h: nat :| h <= 23 && BitSet(s.hour, h);
    var m: nat :| m <= 59 && BitSet(s.minute, m);
    MatchesAt(s, day, h, m);
    k := MinuteAt(day, h, m);
  }

  /** `Next` gives up on a parsed schedule only if the weekday field is `*`, the
      day field is not, and no allowed (month, day) pair exists in a common
      year. Every other schedule fires within the search limit, from any time. */
  lemma {:induction false} GivesUpOnlyIf(s: Schedule, t: int)
    requires WellFormed(s) && s.every <= 0 && NaiveNext(s, t).None?
    ensures s.dowStar && !s.domStar && !CommonPair(s)
  {
    NextIsLeast(s, t);
    if s.domStar || !s.dowStar || CommonPair(s) {
      var k := FiresInWindow(s, t / MINUTE_MS + 1);
    }
  }

  lemma {:induction false} FiresSometime(s: Schedule) returns (k: int)
    requires WellFormed(s) && (s.domStar || !s.dowStar || SomePair(s))
    ensures Fires(s)(k)
  {
    var y, day := 4, 0;
    if s.domStar || !s.dowStar {
      day := FiresInYear(s, y);
    } else {
      var m: nat, d: nat :| 1 <= m <= 12 && 1 <= d <= LongLength(m) && BitSet(s.month, m) && BitSet(s.dom, d);
      PairFires(s, y, m, d);
      day := DayNumber(y, m, d);
    }
    k := FiresOnDay(s, day);
  }

  lemma MatchNeedsPair(s: Schedule, t: int)
    requires Fires(s)(t)
    ensures s.domStar || !s.dowStar || SomePair(s)
  {
    var day := DayOfMinute(t);
    var y, m, d := YearOf(day), MonthOf(day), DayOf(day);
    assert BitSet(s.month, m) && d <= MonthLength(y, m) <= LongLength(m);
  }

  /** A schedule fires at some time exactly when its day rule can be met in some
      year: "30 February" parses and never fires. */
  lemma {:induction false} FiresEverIff(s: Schedule)
    requires WellFormed(s)
    ensures (exists t :: Fires(s)(t)) <==> s.domStar || !s.dowStar || SomePair(s)
  {
    if s.domStar || !s.dowStar || SomePair(s) {
      var k := FiresSometime(s);
    } else {
      forall t ensures !Fires(s)(t) {
        if Fires(s)(t) { MatchNeedsPair(s, t); }
      }
    }
  }

  /** The day of the month decides, and no common year has an allowed one. */
  ghost predicate LeapDayAtMost(s: Schedule) {
    WellFormed(s) && s.every <= 0 && s.dowStar && !s.domStar && !CommonPair(s)
  }

  lemma LeapDayOnly(s: Schedule, y: int, m: nat, d: nat)
    requires LeapDayAtMost(s) && 1 <= m <= 12 && 1 <= d <= MonthLength(y, m)
    requires BitSet(s.month, m) && BitSet(s.dom, d)
    ensures m == 2 && d == 29 && Leap(y)
  {
    assert d > ShortLength(m);
  }

  /** Five years are too short a search for such a schedule across a century that
      is no leap year: from 1 March of the leap year before, `Next` gives up,
      although a schedule for 29 February fires again eight years later. */
  lemma {:induction false} LeapDayGap(s: Schedule, y: int, from: int)
    requires LeapDayAtMost(s) && Leap(y) && !Leap(y + 4) && from == DayNumber(y, 3, 1)
    ensures NaiveNext(s, MinuteAt(from, 0, 0) * MINUTE_MS).None?
    ensures SomePair(s) ==> exists k :: k > MinuteAt(from, 0, 0) && Fires(s)(k)
  {
    var first := MinuteAt(from, 0, 0);
    forall k | first < k <= first + SEARCH_LIMIT ensures !Fires(s)(k) {
      GapDays(from, k);
      NoLeapDay(s, y, DayOfMinute(k));
    }
    GivesUpOn(s, first);
    if SomePair(s) { LaterFires(s, y); }
  }

  /** A parsed schedule has a next fire from every moment exactly when its day
      rule can be met in every year. */
  lemma {:induction false} GivesUpIff(s: Schedule)
    requires WellFormed(s) && s.every <= 0
    ensures (exists t :: NaiveNext(s, t).None?) <==> s.dowStar && !s.domStar && !CommonPair(s)
  {
    if s.dowStar && !s.domStar && !CommonPair(s) {
      LeapDayGap(s, 1896, DayNumber(1896, 3, 1));
    } else {
      forall t ensures NaiveNext(s, t).Some? {
        if NaiveNext(s, t).None? { GivesUpOnlyIf(s, t); }
      }
    }
  }

  lemma GivesUpOn(s: Schedule, first: int)
    requires s.every <= 0 && forall k :: first < k <= first + SEARCH_LIMIT ==> !Fires(s)(k)
    ensures NaiveNext(s, first * MINUTE_MS).None?
  {
    NextIsLeast(s, first * MINUTE_MS);
  }

  lemma {:induction false} LaterFires(s: Schedule, y: int)
    requires LeapDayAtMost(s) && SomePair(s) && Leap(y) && !Leap(y + 4)
    ensures exists k :: k > MinuteAt(DayNumber(y, 3, 1), 0, 0) && Fires(s)(k)
  {
    var m: nat, d: nat :| 1 <= m <= 12 && 1 <= d <= LongLength(m) && BitSet(s.month, m) && BitSet(s.dom, d);
    LeapAgain(y);
    LeapDayOnly(s, y + 8, m, d);
    PairFires(s, y + 8, 2, 29);
    LaterYear(y);
    var k := FiresOnDay(s, DayNumber(y + 8, 2, 29));
  }

  lemma LeapAgain(y: int)
    requires Leap(y) && !Leap(y + 4)
    ensures Leap(y + 8)
  {
  }

  lemma GapDays(from: int, k: int)
    requires MinuteAt(from, 0, 0) < k <= MinuteAt(from, 0, 0) + SEARCH_LIMIT
    ensures from <= DayOfMinute(k) <= from + 1825
  {
  }

  lemma LaterYear(y: int)
    ensures DayNumber(y, 3, 1) < DayNumber(y + 8, 2, 29)
  {
    DayNumberPlain(y, 3, 1);
    DayNumberPlain(y + 8, 2, 29);
    YearsAscend(y, y + 8);
  }

  lemma {:induction false} NoLeapDay(s: Schedule, y: int, day: int)
    requires LeapDayAtMost(s) && Leap(y) && !Leap(y + 4)
    requires DayNumber(y, 3, 1) <= day <= DayNumber(y, 3, 1) + 1825
    ensures !DayFires(s, day)
  {
    YearInGap(y, day);
    if DayFires(s, day) {
      LeapDayOnly(s, YearOf(day), MonthOf(day), DayOf(day));
      LeapYearsApart(y, YearOf(day));
      DayNumberPlain(y, 3, 1);
    }
  }

  lemma YearInGap(y: int, day: int)
    requires DayNumber(y, 3, 1) <= day <= DayNumber(y, 3, 1) + 1825
    ensures y <= YearOf(day) <= y + 5
  {
    var z := YearOf(day);
    DayNumberPlain(y, 3, 1);
    YearsAscend(y, y + 6);
    if z < y {
      YearsAscend(z + 1, y);
    } else if z > y + 5 {
      YearsAscend(y + 6, z);
    }
  }

  lemma LeapYearsApart(y: int, z: int)
    requires Leap(y) && !Leap(y + 4) && y <= z <= y + 5 && Leap(z)
    ensures z == y
  {
    if y < z < y + 4 {
      Mod4(y, z - y);
    } else if z == y + 5 {
      Mod4(y, 4);
      Mod4(y + 4, 1);
    }
  }

  lemma Mod4(y: int, k: int)
    requires y % 4 == 0 && 0 <= k <= 4
    ensures (y + k) % 4 == k % 4
  {
  }

  // ------------------------------------------------ exactly when it gives up

  /** The least and the greatest position of a mask within a range. */
  ghost function FirstBit(mask: Mask, low: nat, high: nat): (v: nat)
    requires HasBit(mask, low, high)
    ensures low <= v <= high && BitSet(mask, v) && forall w: nat :: low <= w < v ==> !BitSet(mask, w)
    decreases high - low
  {
    if BitSet(mask, low) then low else FirstBit(mask, low + 1, high)
  }

  ghost function LastBit(mask: Mask, low: nat, high: nat): (v: nat)
    requires HasBit(mask, low, high)
    ensures low <= v <= high && BitSet(mask, v) && forall w: nat :: v < w <= high ==> !BitSet(mask, w)
    decreases high - low
  {
    if BitSet(mask, high) then high else LastBit(mask, low, high - 1)
  }

  /** The first and the last minute of 29 February of year `y` that the hour and
      minute fields allow. */
  ghost function FirstFire(s: Schedule, y: int): int
    requires WellFormed(s)
  {
    MinuteAt(DayNumber(y, 2, 29), FirstBit(s.hour, 0, 23), FirstBit(s.minute, 0, 59))
  }

  ghost function LastFire(s: Schedule, y: int): int
    requires WellFormed(s)
  {
    MinuteAt(DayNumber(y, 2, 29), LastBit(s.hour, 0, 23), LastBit(s.minute, 0, 59))
  }

  /** The search from `start` falls between two leap days eight years apart. */
  ghost predicate FallsBetween(s: Schedule, y: int, start: int)
    requires WellFormed(s)
  {
    Leap(y) && !Leap(y + 4) && LastFire(s, y) < start && start + SEARCH_LIMIT <= FirstFire(s, y + 8)
  }

  ghost predicate InLeapGap(s: Schedule, start: int)
    requires WellFormed(s)
  {
    exists y :: FallsBetween(s, y, start)
  }

  lemma MinuteOfDay(k: int)
    ensures k == MinuteAt(DayOfMinute(k), HourOf(k), MinuteOf(k))
  {
    var r := k % 1440;
    assert k == (k / 1440) * 1440 + r;
    assert k % 60 == r % 60;
  }

  /** A schedule for leap days fires on 29 February, between its edges. */
  lemma FireIsLeapDay(s: Schedule, k: int)
    requires LeapDayAtMost(s) && Fires(s)(k)
    ensures var y := YearOf(DayOfMinute(k));
      Leap(y) && DayOfMinute(k) == DayNumber(y, 2, 29) && FirstFire(s, y) <= k <= LastFire(s, y)
  {
    var day := DayOfMinute(k);
    LeapDayOnly(s, YearOf(day), MonthOf(day), DayOf(day));
    DayNumberPlain(YearOf(day), 2, 29);
    MinuteOfDay(k);
  }

  lemma EdgesFire(s: Schedule, y: int)
    requires LeapDayAtMost(s) && SomePair(s) && Leap(y)
    ensures Fires(s)(FirstFire(s, y)) && Fires(s)(LastFire(s, y))
    ensures FirstFire(s, y) <= LastFire(s, y) < FirstFire(s, y) + 1440
  {
    var m: nat, d: nat :| 1 <= m <= 12 && 1 <= d <= LongLength(m) && BitSet(s.month, m) && BitSet(s.dom, d);
    LeapDayOnly(s, y, m, d);
    PairFires(s, y, 2, 29);
    MatchesAt(s, DayNumber(y, 2, 29), FirstBit(s.hour, 0, 23), FirstBit(s.minute, 0, 59));
    MatchesAt(s, DayNumber(y, 2, 29), LastBit(s.hour, 0, 23), LastBit(s.minute, 0, 59));
  }

  lemma LeapDaysAscend(s: Schedule, y: int, z: int)
    requires WellFormed(s) && y <= z
    ensures LastFire(s, y) <= LastFire(s, z) && FirstFire(s, y) <= FirstFire(s, z)
    ensures y < z ==> LastFire(s, y) < LastFire(s, z)
  {
    DayNumberPlain(y, 2, 29);
    DayNumberPlain(z, 2, 29);
    if y < z { YearsAscend(y, z); }
  }

  lemma FourYears(s: Schedule, y: int)
    requires WellFormed(s)
    ensures FirstFire(s, y + 4) < LastFire(s, y) + SEARCH_LIMIT
  {
    DayNumberPlain(y, 2, 29);
    DayNumberPlain(y + 4, 2, 29);
    YearLength(y);
    YearLength(y + 1);
    YearLength(y + 2);
    YearLength(y + 3);
  }

  function NextLeap(y: int): int { if Leap(y + 4) then y + 4 else y + 8 }

  lemma NextLeapIsLeap(y: int)
    requires Leap(y)
    ensures Leap(NextLeap(y))
  {
    if !Leap(y + 4) { LeapAgain(y); }
  }

  lemma NoLeapBetween(y: int, z: int)
    requires Leap(y) && Leap(z) && y < z
    ensures NextLeap(y) <= z
  {
    if z < y + 4 {
      Mod4(y, z - y);
    } else if y + 4 < z < y + 8 {
      Mod4(y, 4);
      Mod4(y + 4, z - y - 4);
    }
  }

  /** The last leap day over before `start`. */
  lemma {:induction false} LastBefore(s: Schedule, start: int, y: int) returns (z: int)
    requires WellFormed(s) && Leap(y) && LastFire(s, y) < start
    ensures Leap(z) && LastFire(s, z) < start <= LastFire(s, NextLeap(z))
    decreases start - LastFire(s, y)
  {
    if start <= LastFire(s, NextLeap(y)) {
      z := y;
    } else {
      NextLeapIsLeap(y);
      LeapDaysAscend(s, y, NextLeap(y));
      z := LastBefore(s, start, NextLeap(y));
    }
  }

  lemma LeapCentury(c: int)
    ensures Leap(400 * c)
  {
    HundredsBy4(4 * c);
  }

  lemma SomeBefore(s: Schedule, start: int) returns (y: int)
    requires WellFormed(s)
    ensures Leap(y) && LastFire(s, y) < start
  {
    var today := DayOfMinute(start);
    var z := YearOf(today);
    y := 400 * ((z - 1) / 400);
    LeapCentury((z - 1) / 400);
    DayNumberPlain(y, 2, 29);
    YearsAscend(y + 1, z);
    YearLength(y);
  }

  lemma {:induction false} GapFound(s: Schedule, start: int) returns (y: int)
    requires LeapDayAtMost(s) && SomePair(s)
    requires forall k :: start <= k < start + SEARCH_LIMIT ==> !Fires(s)(k)
    ensures FallsBetween(s, y, start)
  {
    var z := SomeBefore(s, start);
    y := LastBefore(s, start, z);
    NextLeapIsLeap(y);
    EdgesFire(s, NextLeap(y));
    FourYears(s, y);
  }

  lemma {:induction false} GapHolds(s: Schedule, start: int, y: int, k: int)
    requires LeapDayAtMost(s) && FallsBetween(s, y, start) && Fires(s)(k)
    ensures k < start || start + SEARCH_LIMIT <= k
  {
    FireIsLeapDay(s, k);
    GapYears(s, start, y, YearOf(DayOfMinute(k)));
  }

  lemma GapYears(s: Schedule, start: int, y: int, z: int)
    requires WellFormed(s) && FallsBetween(s, y, start) && Leap(z)
    ensures LastFire(s, z) < start || start + SEARCH_LIMIT <= FirstFire(s, z)
  {
    if z <= y {
      LeapDaysAscend(s, z, y);
    } else {
      NoLeapBetween(y, z);
      LeapDaysAscend(s, y + 8, z);
    }
  }

  /** From one given moment: the search gives up exactly when the schedule is for
      a day no common year has, and either no year has it or the search falls
      between two leap days eight years apart. */
  lemma {:induction false} GivesUpExactly(s: Schedule, t: int)
    requires WellFormed(s) && s.every <= 0
    ensures NaiveNext(s, t).None? <==>
      LeapDayAtMost(s) && (SomePair(s) ==> InLeapGap(s, t / MINUTE_MS + 1))
  {
    var start := t / MINUTE_MS + 1;
    NextIsLeast(s, t);
    if NaiveNext(s, t).None? {
      GivesUpOnlyIf(s, t);
      if SomePair(s) { var y := GapFound(s, start); }
    } else if LeapDayAtMost(s) {
      var k := NaiveNext(s, t).value / MINUTE_MS;
      assert Fires(s)(k) && start <= k < start + SEARCH_LIMIT;
      MatchNeedsPair(s, k);
      forall y ensures !FallsBetween(s, y, start) {
        if FallsBetween(s, y, start) { GapHolds(s, start, y, k); }
      }
    }
  }
}
