/** When a parsed cron schedule fires next (internal/cron/cron.go). */
module CronSchedule {
  import opened Calendar
  import opened BrokerModel
  import Jobs

  /** A 64-bit mask, as the set of the positions of its one bits. */
  type Mask = set<nat>

  /** Each field is a mask over its legal range. `every` is positive only for an
      `@every` schedule, which bypasses the fields. */
  datatype Schedule = Schedule(
    minute: Mask, hour: Mask, dom: Mask, month: Mask, dow: Mask,
    domStar: bool, dowStar: bool, every: int)

  const MINUTE_MS := 60_000
  /** Five years of 365 days, in minutes. */
  const SEARCH_LIMIT := 5 * 365 * 24 * 60

  predicate BitSet(mask: Mask, v: nat) {
    v <= 63 && v in mask
  }

  /** The day rule: restricted day fields are OR-ed, a starred one is ignored. */
  predicate DayMatches(s: Schedule, day: int) {
    var domOK := BitSet(s.dom, DayOf(day));
    var dowOK := BitSet(s.dow, Weekday(day));
    if s.domStar && s.dowStar then true
    else if s.domStar then dowOK
    else if s.dowStar then domOK
    else domOK || dowOK
  }

  /** The schedule fires at minute `t`. */
  predicate Matches(s: Schedule, t: int) {
    var day := DayOfMinute(t);
    && BitSet(s.month, MonthOf(day)) && DayMatches(s, day)
    && BitSet(s.hour, HourOf(t)) && BitSet(s.minute, MinuteOf(t))
  }

  function Fires(s: Schedule): int -> bool {
    t => Matches(s, t)
  }

  /** The naive search: try every minute of `[t, limit)` in turn. */
  function Scan(fires: int -> bool, t: int, limit: int): Option<int>
    decreases limit - t
  {
    if t >= limit then None
    else if fires(t) then Some(t)
    else Scan(fires, t + 1, limit)
  }

  /** The scan finds the least firing minute, or there is none. */
  lemma {:induction false} ScanLeast(fires: int -> bool, t: int, limit: int)
    ensures match Scan(fires, t, limit)
      case None => forall k :: t <= k < limit ==> !fires(k)
      case Some(r) => t <= r < limit && fires(r) && forall k :: t <= k < r ==> !fires(k)
    decreases limit - t
  {
    if t < limit && !fires(t) {
      ScanLeast(fires, t + 1, limit);
    }
  }

  lemma {:induction false} ScanSkips(fires: int -> bool, t: int, u: int, limit: int)
    requires t <= u && forall k :: t <= k < u ==> !fires(k)
    ensures Scan(fires, t, limit) == Scan(fires, u, limit)
    decreases u - t
  {
    if t < u && t < limit {
      ScanSkips(fires, t + 1, u, limit);
    }
  }

  /** The next fire after time `t` (in Unix milliseconds), by the naive search. */
  function NaiveNext(s: Schedule, t: int): Option<int> {
    if s.every > 0 then Some(t + s.every) else
      var start := t / MINUTE_MS + 1;
      match Scan(Fires(s), start, start + SEARCH_LIMIT)
      case None => None
      case Some(m) => Some(m * MINUTE_MS)
  }

  /** The skipping search: over months, days, hours and minutes that cannot
      match. It terminates and finds exactly what the naive search finds. */
  method Next(s: Schedule, t: int) returns (r: Option<int>)
    ensures r == NaiveNext(s, t)
  {
    if s.every > 0 {
      return Some(t + s.every);
    }
    // The first whole minute after `t`.
    var start := t / MINUTE_MS + 1;
    var cur, limit := start, start + SEARCH_LIMIT;
    while cur < limit
      invariant Scan(Fires(s), start, limit) == Scan(Fires(s), cur, limit)
      decreases limit - cur
    {
      var next := Skip(s, cur);
      if next == cur {
        return Some(cur * MINUTE_MS);
      }
      ScanSkips(Fires(s), cur, next, limit);
      cur := next;
    }
    r := None;
  }

  /** One turn of the search: `t` itself if the schedule fires then, else the
      first minute after the month, day, hour or minute that rules `t` out. */
  method Skip(s: Schedule, t: int) returns (next: int)
    ensures Skipped(s, t, next)
  {
    var day := DayOfMinute(t);
    if !BitSet(s.month, MonthOf(day)) {
      SkipMonth(s, t);
      return NextMonth(t);
    }
    if !DayMatches(s, day) {
      SkipDay(s, t);
      return NextDay(t);
    }
    if !BitSet(s.hour, HourOf(t)) {
      SkipHour(s, t);
      return NextHour(t);
    }
    if !BitSet(s.minute, MinuteOf(t)) {
      SkipMinute(s, t);
      return t + 1;
    }
    next := t;
  }

  /** `next` is `t` if the schedule fires at `t`, else later, and nothing fires
      in between. */
  ghost predicate Skipped(s: Schedule, t: int, next: int) {
    && next >= t && (next == t <==> Fires(s)(t))
    && forall k :: t <= k < next ==> !Fires(s)(k)
  }

  /** Midnight of the first day of the month after that of `t`. */
  function NextMonth(t: int): int {
    MinuteAt(DayNumber(YearOf(DayOfMinute(t)), MonthOf(DayOfMinute(t)) + 1, 1), 0, 0)
  }

  function NextDay(t: int): int {
    MinuteAt(DayNumber(YearOf(DayOfMinute(t)), MonthOf(DayOfMinute(t)), DayOf(DayOfMinute(t)) + 1), 0, 0)
  }

  function NextHour(t: int): int {
    MinuteAt(DayOfMinute(t), HourOf(t), 0) + 60
  }

  lemma SkipMonth(s: Schedule, t: int)
    requires !BitSet(s.month, MonthOf(DayOfMinute(t)))
    ensures Skipped(s, t, NextMonth(t))
  {
    var day := DayOfMinute(t);
    var y, m := YearOf(day), MonthOf(day);
    MonthBounds(day);
    var end := DayNumber(y, m + 1, 1);
    forall k | t <= k < MinuteAt(end, 0, 0) ensures !Fires(s)(k) {
      DaysBetween(t, k, end);
      MonthSpan(day, DayOfMinute(k));
    }
    DayEnds(t);
  }

  lemma DaysBetween(t: int, k: int, end: int)
    requires t <= k < MinuteAt(end, 0, 0)
    ensures DayOfMinute(t) <= DayOfMinute(k) < end
  {
  }

  lemma DayEnds(t: int)
    ensures MinuteAt(DayOfMinute(t), 0, 0) <= t < MinuteAt(DayOfMinute(t) + 1, 0, 0)
  {
  }

  lemma Tomorrow(day: int)
    ensures DayNumber(YearOf(day), MonthOf(day), DayOf(day) + 1) == day + 1
  {
    DayNumberPlain(YearOf(day), MonthOf(day), DayOf(day) + 1);
  }

  lemma SkipDay(s: Schedule, t: int)
    requires !DayMatches(s, DayOfMinute(t))
    ensures Skipped(s, t, NextDay(t))
  {
    var day := DayOfMinute(t);
    Tomorrow(day);
    DayEnds(t);
    forall k | t <= k < MinuteAt(day + 1, 0, 0) ensures !Fires(s)(k) {
      DaysBetween(t, k, day + 1);
      assert DayOfMinute(k) == day;
    }
  }

  lemma SkipHour(s: Schedule, t: int)
    requires !BitSet(s.hour, HourOf(t))
    ensures Skipped(s, t, NextHour(t))
  {
    var start := MinuteAt(DayOfMinute(t), HourOf(t), 0);
    HourStart(t);
    forall k | t <= k < start + 60 ensures !Fires(s)(k) {
      MinuteFields(DayOfMinute(t), HourOf(t), k - start);
      assert k == MinuteAt(DayOfMinute(t), HourOf(t), k - start);
    }
  }

  lemma SkipMinute(s: Schedule, t: int)
    requires !BitSet(s.minute, MinuteOf(t))
    ensures Skipped(s, t, t + 1)
  {
    assert !Fires(s)(t);
  }

  lemma HourStart(t: int)
    ensures var start := MinuteAt(DayOfMinute(t), HourOf(t), 0);
      start <= t < start + 60
  {
  }

  /** What `Next` promises: the least whole minute strictly after `t` at which
      the schedule fires, if one lies within the search limit. */
  lemma NextIsLeast(s: Schedule, t: int)
    requires s.every <= 0
    ensures var start := t / MINUTE_MS + 1;
      match NaiveNext(s, t)
      case None => forall k :: start <= k < start + SEARCH_LIMIT ==> !Fires(s)(k)
      case Some(r) =>
        && r > t && r % MINUTE_MS == 0
        && Fires(s)(r / MINUTE_MS) && r / MINUTE_MS < start + SEARCH_LIMIT
        && forall k :: t < k * MINUTE_MS < r ==> !Fires(s)(k)
  {
    LeastAfter(Fires(s), t);
  }

  lemma LeastAfter(fires: int -> bool, t: int)
    ensures var start := t / MINUTE_MS + 1;
      match Scan(fires, start, start + SEARCH_LIMIT)
      case None => forall k :: start <= k < start + SEARCH_LIMIT ==> !fires(k)
      case Some(m) =>
        && m * MINUTE_MS > t && m * MINUTE_MS % MINUTE_MS == 0 && m * MINUTE_MS / MINUTE_MS == m
        && fires(m) && m < start + SEARCH_LIMIT
        && forall k :: t < k * MINUTE_MS < m * MINUTE_MS ==> !fires(k)
  {
    var start := t / MINUTE_MS + 1;
    ScanLeast(fires, start, start + SEARCH_LIMIT);
    var found := Scan(fires, start, start + SEARCH_LIMIT);
    if found.Some? {
      forall k | t < k * MINUTE_MS < found.value * MINUTE_MS ensures !fires(k) {
        assert start <= k < found.value;
      }
    }
  }

  /** Every schedule advances: its next fire is strictly later. */
  lemma NextAdvances(s: Schedule, t: int)
    ensures NaiveNext(s, t).Some? ==> NaiveNext(s, t).value > t
  {
    if s.every <= 0 {
      NextIsLeast(s, t);
    }
  }

  // ----------------------------------------------------- in terms of the calendar

  /** An unset time is the start of year 1. */
  lemma ZeroTime()
    ensures Jobs.ZERO_TIME == (DayNumber(1, 1, 1) - DayNumber(1970, 1, 1)) * 86_400_000
  {
    EpochDay();
  }

  /** The minute of a date and time of day, counted from the start of 1970. */
  function UnixMinute(y: int, m: int, d: int, hour: int, minute: int): int
    requires 1 <= m <= 12
  {
    (DayNumber(y, m, d) - DayNumber(1970, 1, 1)) * 1440 + hour * 60 + minute
  }

  /** There is such a date and such a time of day. */
  predicate RealDate(y: int, m: int, d: int, hour: int, minute: int) {
    1 <= m <= 12 && 1 <= d <= MonthLength(y, m) && 0 <= hour < 24 && 0 <= minute < 60
  }

  /** The schedule allows the date and time: month, hour and minute are in their
      fields, and of the day fields that are no star one fits, if there is any. The
      weekday is counted from Thursday, 1 January 1970. */
  predicate AllowsDate(s: Schedule, y: int, m: int, d: int, hour: int, minute: int)
    requires 1 <= m <= 12
  {
    && m in s.month && hour in s.hour && minute in s.minute
    && ((s.domStar && s.dowStar)
        || (!s.domStar && d in s.dom)
        || (!s.dowStar && (DayNumber(y, m, d) - DayNumber(1970, 1, 1) + 4) % 7 in s.dow))
  }

  lemma InMask(mask: Mask, v: nat)
    requires v <= 63
    ensures BitSet(mask, v) <==> v in mask
  {
  }

  /** The minutes at which a schedule fires are exactly those of the dates it allows. */
  lemma {:induction false} FiresOnDates(s: Schedule, y: int, m: int, d: int, hour: int, minute: int)
    requires RealDate(y, m, d, hour, minute)
    ensures Fires(s)(UnixMinute(y, m, d, hour, minute)) <==> AllowsDate(s, y, m, d, hour, minute)
  {
    var day := DayNumber(y, m, d);
    EpochDay();
    Fields(y, m, d);
    EpochThursday(day);
    MinuteFields(day, hour, minute);
    assert UnixMinute(y, m, d, hour, minute) == MinuteAt(day, hour, minute);
    InMask(s.dom, d);
    InMask(s.month, m);
    InMask(s.hour, hour);
    InMask(s.minute, minute);
  }

  /** Every minute is that of some date and time. */
  lemma MinuteHasDate(t: int) returns (y: int, m: int, d: int, hour: int, minute: int)
    ensures RealDate(y, m, d, hour, minute) && t == UnixMinute(y, m, d, hour, minute)
  {
    var day := DayOfMinute(t);
    y, m, d, hour, minute := YearOf(day), MonthOf(day), DayOf(day), HourOf(t), MinuteOf(t);
    DateOfDay(day);
    TimeOfMinute(t);
    EpochDay();
  }

  /** The schedule allows a date and time that lies `at` milliseconds from the epoch. */
  predicate FiresAt(s: Schedule, y: int, m: int, d: int, hour: int, minute: int, at: int) {
    && RealDate(y, m, d, hour, minute) && AllowsDate(s, y, m, d, hour, minute)
    && at == UnixMinute(y, m, d, hour, minute) * 60_000
  }

  lemma FiresIff(s: Schedule, y: int, m: int, d: int, hour: int, minute: int, at: int)
    requires FiresAt(s, y, m, d, hour, minute, at)
    ensures at % MINUTE_MS == 0 && Fires(s)(at / MINUTE_MS)
  {
    FiresOnDates(s, y, m, d, hour, minute);
    WholeMinutes(UnixMinute(y, m, d, hour, minute));
  }

  lemma WholeMinutes(k: int)
    ensures k * 60_000 % MINUTE_MS == 0 && k * 60_000 / MINUTE_MS == k
  {
  }

  /** `Next` in terms of the calendar: the first date and time after `t` that the
      schedule allows, or none within five years of 365 days. */
  lemma {:induction false} NextByDate(s: Schedule, t: int)
    requires s.every <= 0
    ensures match NaiveNext(s, t)
      case None => forall y, m, d, hour, minute, at ::
        FiresAt(s, y, m, d, hour, minute, at) ==> at <= t || at / 60_000 > t / 60_000 + 5 * 365 * 24 * 60
      case Some(r) =>
        && t < r && (exists y, m, d, hour, minute :: FiresAt(s, y, m, d, hour, minute, r))
        && forall y, m, d, hour, minute, at :: FiresAt(s, y, m, d, hour, minute, at) ==> at <= t || r <= at
  {
    NextIsLeast(s, t);
    var next := NaiveNext(s, t);
    if next.Some? {
      var y, m, d, hour, minute := MinuteHasDate(next.value / MINUTE_MS);
      FiresOnDates(s, y, m, d, hour, minute);
      assert FiresAt(s, y, m, d, hour, minute, next.value);
    }
    forall y, m, d, hour, minute, at | FiresAt(s, y, m, d, hour, minute, at)
      ensures next.Some? ==> at <= t || next.value <= at
      ensures next.None? ==> at <= t || at / 60_000 > t / 60_000 + 5 * 365 * 24 * 60
    {
      FiresIff(s, y, m, d, hour, minute, at);
      NoneBetween(Fires(s), t, at, next);
    }
  }

  lemma NoneBetween(fires: int -> bool, t: int, at: int, next: Option<int>)
    requires at % MINUTE_MS == 0 && fires(at / MINUTE_MS)
    requires match next
      case None => forall k :: t / MINUTE_MS + 1 <= k < t / MINUTE_MS + 1 + SEARCH_LIMIT ==> !fires(k)
      case Some(r) => forall k :: t < k * MINUTE_MS < r ==> !fires(k)
    ensures next.Some? ==> at <= t || next.value <= at
    ensures next.None? ==> at <= t || at / MINUTE_MS > t / MINUTE_MS + SEARCH_LIMIT
  {
    var k := at / MINUTE_MS;
    assert at == k * MINUTE_MS;
  }

  /** A schedule for one day of the week fires on that day: `w` days after a Sunday, the
      epoch being a Thursday. */
  lemma {:induction false} NextOnWeekday(s: Schedule, t: int, w: nat)
    requires s.every <= 0 && s.domStar && !s.dowStar && s.dow == {w} && NaiveNext(s, t).Some?
    ensures (NaiveNext(s, t).value / 86_400_000 + 4) % 7 == w
  {
    NextByDate(s, t);
    var r := NaiveNext(s, t).value;
    var y, m, d, hour, minute :| FiresAt(s, y, m, d, hour, minute, r);
    OnWeekday(s, y, m, d, hour, minute, r, w);
  }

  lemma OnWeekday(s: Schedule, y: int, m: int, d: int, hour: int, minute: int, at: int, w: nat)
    requires s.domStar && !s.dowStar && s.dow == {w} && FiresAt(s, y, m, d, hour, minute, at)
    ensures (at / 86_400_000 + 4) % 7 == w
  {
    DayOfTime(DayNumber(y, m, d) - DayNumber(1970, 1, 1), hour, minute);
  }

  lemma DayOfTime(n: int, hour: int, minute: int)
    requires 0 <= hour < 24 && 0 <= minute < 60
    ensures (n * 1440 + hour * 60 + minute) * 60_000 / 86_400_000 == n
  {
  }

  /** The `k`-th fire after `t`. */
  function NthFire(s: Schedule, t: int, k: nat): Option<int> {
    if k == 0 then Some(t) else
      match NthFire(s, t, k - 1)
      case None => None
      case Some(r) => NaiveNext(s, r)
  }

  /** An `@every` schedule fires at whole multiples of its period from where it starts. */
  lemma {:induction false} EveryFires(s: Schedule, t: int, k: nat)
    requires s.every > 0
    ensures NthFire(s, t, k) == Some(t + k * s.every)
  {
    if k == 0 {
    } else {
      EveryFires(s, t, k - 1);
      assert (k - 1) * s.every + s.every == k * s.every;
    }
  }
}
