/**
 * Cron occurrences in a zone and the two pruned searches for them
 * (`nextCronRun`, `prevCronRun` in server/src/assistant-cron.ts).
 *
 * Civil dates are day numbers; a calendar gives the month, the day of the month
 * and the weekday of each.
 */
module Cron {
  import opened Options
  import opened TimeZones

  datatype Date = Date(month: int, dayOfMonth: int, weekday: int)

  /** The calendar the searches step through, one date a day number. */
  type Calendar = int -> Date

  /** Months, days of the month and weekdays as they are numbered. */
  ghost predicate ValidCalendar(cal: Calendar) {
    forall day :: 1 <= cal(day).month <= 12 && 1 <= cal(day).dayOfMonth <= 31 && 0 <= cal(day).weekday <= 6
  }

  /** A parsed five-field expression; the bit vectors are indexed as in the source. */
  datatype CronSpec = CronSpec(
    minutes: seq<bool>,
    hours: seq<bool>,
    daysOfMonth: seq<bool>,
    months: seq<bool>,
    daysOfWeek: seq<bool>,
    dayOr: bool)

  /** What the parser guarantees of the vectors' lengths. */
  predicate WellFormed(spec: CronSpec) {
    |spec.minutes| == 60 && |spec.hours| == 24
  }

  predicate Bit(bits: seq<bool>, i: int) {
    0 <= i < |bits| && bits[i]
  }

  /** A day matches both day fields, except that either is enough when neither field is a star. */
  predicate DayMatches(spec: CronSpec, cal: Calendar, day: int) {
    var date := cal(day);
    var domOk := Bit(spec.daysOfMonth, date.dayOfMonth);
    var dowOk := Bit(spec.daysOfWeek, date.weekday);
    Bit(spec.months, date.month) && (if spec.dayOr then domOk || dowOk else domOk && dowOk)
  }

  /** A minute of a civil day. */
  datatype Slot = Slot(day: int, hour: int, minute: int)

  function LocalOf(s: Slot): int {
    s.day * DAY + s.hour * HOUR + s.minute * MINUTE
  }

  predicate Matches(spec: CronSpec, cal: Calendar, s: Slot) {
    DayMatches(spec, cal, s.day) && Bit(spec.hours, s.hour) && Bit(spec.minutes, s.minute)
  }

  /** Slot `s` is scheduled and fires at instant `t`. */
  ghost predicate FiresAt(spec: CronSpec, cal: Calendar, z: Zone, s: Slot, t: int) {
    Matches(spec, cal, s) && FirstReaching(z, LocalOf(s), t)
  }

  /** The unpruned definition: `t` is an occurrence of the expression in the zone. */
  ghost predicate Occurrence(spec: CronSpec, cal: Calendar, z: Zone, t: int) {
    exists s :: FiresAt(spec, cal, z, s, t)
  }

  /** How far a search looks before giving up. */
  const SEARCH_DAYS := 366 * 30

  /** The civil day and the hour the wall clock shows at an instant. */
  function DayAt(z: Zone, t: int): int {
    Local(z, t) / DAY
  }

  function HourAt(z: Zone, t: int): int {
    Local(z, t) % DAY / HOUR
  }

  lemma ClockSplit(z: Zone, t: int)
    ensures 0 <= HourAt(z, t) < 24
    ensures var hour := DayAt(z, t) * DAY + HourAt(z, t) * HOUR; hour <= Local(z, t) < hour + HOUR
  {
    var rest := Local(z, t) % DAY;
    assert Local(z, t) == DayAt(z, t) * DAY + rest;
    assert rest == HourAt(z, t) * HOUR + rest % HOUR;
  }

  lemma SlotOrder(s: Slot, s': Slot)
    requires 0 <= s.hour < 24 && 0 <= s'.hour < 24 && 0 <= s.minute < 60 && 0 <= s'.minute < 60
    ensures s.day < s'.day ==> LocalOf(s) < LocalOf(s')
    ensures s.day == s'.day && s.hour < s'.hour ==> LocalOf(s) < LocalOf(s')
    ensures s.day == s'.day && s.hour == s'.hour && s.minute < s'.minute ==> LocalOf(s) < LocalOf(s')
  {
    assert 0 <= s.hour * HOUR + s.minute * MINUTE < DAY;
    assert 0 <= s'.hour * HOUR + s'.minute * MINUTE < DAY;
    if s.day < s'.day {
      assert s'.day * DAY >= s.day * DAY + DAY;
    }
  }

  /** Of two scheduled slots the later one never fires earlier. */
  lemma FiresInOrder(spec: CronSpec, cal: Calendar, z: Zone, s: Slot, t: int, s': Slot, t': int)
    requires FiresAt(spec, cal, z, s, t) && FiresAt(spec, cal, z, s', t')
    requires LocalOf(s) <= LocalOf(s')
    ensures t <= t'
  {
    FirstReachingMonotone(z, LocalOf(s), t, LocalOf(s'), t');
  }

  // -------------------------------------------------------------------------
  // What an expression means

  /** The vectors as the parser makes them: days of the month and months leave index 0 unused. */
  predicate FullLength(spec: CronSpec) {
    WellFormed(spec) && |spec.daysOfMonth| == 32 && |spec.months| == 13 && |spec.daysOfWeek| == 7
  }

  /** The expression with a star for the weekday. */
  function OnMonthDays(spec: CronSpec): CronSpec {
    spec.(daysOfWeek := seq(7, d => true), dayOr := false)
  }

  /** The expression with a star for the day of the month. */
  function OnWeekdays(spec: CronSpec): CronSpec {
    spec.(daysOfMonth := seq(32, d => true), dayOr := false)
  }

  /** With both day fields restricted, the occurrences are those of the one together with those of the other. */
  lemma EitherDayField(spec: CronSpec, cal: Calendar, z: Zone, t: int)
    requires FullLength(spec) && ValidCalendar(cal) && spec.dayOr
    ensures Occurrence(spec, cal, z, t) <==>
            Occurrence(OnMonthDays(spec), cal, z, t) || Occurrence(OnWeekdays(spec), cal, z, t)
  {
    var byDate, byWeekday := OnMonthDays(spec), OnWeekdays(spec);
    assert forall s ::
      FiresAt(spec, cal, z, s, t) <==> FiresAt(byDate, cal, z, s, t) || FiresAt(byWeekday, cal, z, s, t);
  }

  /**
   * Otherwise a slot fires exactly at the first instant that reaches it, when its
   * minute, its hour, its month, its day of the month and its weekday are all set.
   */
  lemma BothDayFields(spec: CronSpec, cal: Calendar, z: Zone, s: Slot, t: int)
    requires FullLength(spec) && ValidCalendar(cal) && !spec.dayOr
    ensures FiresAt(spec, cal, z, s, t) <==>
            && 0 <= s.minute < 60 && spec.minutes[s.minute] && 0 <= s.hour < 24 && spec.hours[s.hour]
            && spec.months[cal(s.day).month]
            && spec.daysOfMonth[cal(s.day).dayOfMonth] && spec.daysOfWeek[cal(s.day).weekday]
            && FirstReaching(z, (s.day * 24 + s.hour) * 3_600_000 + s.minute * 60_000, t)
  {
    assert LocalOf(s) == (s.day * 24 + s.hour) * 3_600_000 + s.minute * 60_000;
  }

  /** So a job for one weekday fires on that weekday only, and on each of them the months allow. */
  lemma WeekdayOnly(minute: nat, hour: nat, weekday: nat, months: seq<bool>, cal: Calendar, z: Zone, t: int)
    requires minute < 60 && hour < 24 && weekday < 7 && |months| == 13 && ValidCalendar(cal)
    ensures var spec := CronSpec(seq(60, m => m == minute), seq(24, h => h == hour), seq(32, d => true), months,
                                 seq(7, d => d == weekday), false);
            Occurrence(spec, cal, z, t) <==>
            exists day ::
              && cal(day).weekday == weekday && months[cal(day).month]
              && FirstReaching(z, LocalOf(Slot(day, hour, minute)), t)
  {
    var spec := CronSpec(seq(60, m => m == minute), seq(24, h => h == hour), seq(32, d => true), months,
                         seq(7, d => d == weekday), false);
    if s :| FiresAt(spec, cal, z, s, t) {
      BothDayFields(spec, cal, z, s, t);
      assert s == Slot(s.day, hour, minute);
    }
    if day :|
      && cal(day).weekday == weekday && months[cal(day).month]
      && FirstReaching(z, LocalOf(Slot(day, hour, minute)), t)
    {
      BothDayFields(spec, cal, z, Slot(day, hour, minute), t);
      assert FiresAt(spec, cal, z, Slot(day, hour, minute), t);
    }
  }

  // -------------------------------------------------------------------------
  // The slots each search looks at

  /** `nextCronRun` starts the day before, and skips hours more than two behind the clock. */
  ghost predicate NextVisits(z: Zone, after: int, s: Slot) {
    var d0 := DayAt(z, after);
    && d0 - 1 <= s.day <= d0 - 1 + SEARCH_DAYS
    && (s.day == d0 - 1 ==> s.hour >= 22)
    && (s.day == d0 ==> s.hour >= HourAt(z, after) - 2)
  }

  /** `prevCronRun` starts the day after, and skips hours more than two ahead of the clock. */
  ghost predicate PrevVisits(z: Zone, at: int, s: Slot) {
    var d0 := DayAt(z, at);
    && d0 + 1 - SEARCH_DAYS <= s.day <= d0 + 1
    && (s.day == d0 + 1 ==> s.hour <= 1)
    && (s.day == d0 ==> s.hour <= HourAt(z, at) + 2)
  }

  /** What `nextCronRun` returns, whatever the zone: the least visited occurrence after `after`. */
  ghost predicate IsNextRun(spec: CronSpec, cal: Calendar, z: Zone, after: int, r: Option<int>) {
    && (r.Some? ==> r.value > after && exists s :: NextVisits(z, after, s) && FiresAt(spec, cal, z, s, r.value))
    && (forall s, t :: FiresAt(spec, cal, z, s, t) && NextVisits(z, after, s) && t > after ==>
          r.Some? && r.value <= t)
  }

  /** What `prevCronRun` returns, whatever the zone: the greatest visited occurrence up to `at`. */
  ghost predicate IsPrevRun(spec: CronSpec, cal: Calendar, z: Zone, at: int, r: Option<int>) {
    && (r.Some? ==> r.value <= at && exists s :: PrevVisits(z, at, s) && FiresAt(spec, cal, z, s, r.value))
    && (forall s, t :: FiresAt(spec, cal, z, s, t) && PrevVisits(z, at, s) && t <= at ==>
          r.Some? && t <= r.value)
  }

  // -------------------------------------------------------------------------
  // The searches

  /** `out` lists the set bits in increasing order. */
  ghost predicate Lists(out: seq<int>, bits: seq<bool>) {
    && (forall i, j :: 0 <= i < j < |out| ==> out[i] < out[j])
    && (forall v :: v in out <==> Bit(bits, v))
  }

  lemma ListedBefore(out: seq<int>, bits: seq<bool>, i: int, v: int)
    requires Lists(out, bits) && 0 <= i < |out|
    ensures Bit(bits, out[i])
    ensures Bit(bits, v) && v < out[i] ==> v in out[..i]
    ensures Bit(bits, v) && v > out[i] ==> v in out[i + 1..]
    ensures out[..i + 1] == out[..i] + [out[i]]
    ensures out[i..] == [out[i]] + out[i + 1..]
  {
    assert out[i] in out;
    if Bit(bits, v) {
      assert v in out;
    }
  }

  /** `hoursOf` and `minutesOf`. */
  method SetBits(bits: seq<bool>) returns (out: seq<int>)
    ensures Lists(out, bits)
  {
    out := [];
    for h := 0 to |bits|
      invariant forall v :: v in out <==> 0 <= v < h && bits[v]
      invariant forall i :: 0 <= i < |out| ==> out[i] < h
      invariant forall i, j :: 0 <= i < j < |out| ==> out[i] < out[j]
    {
      if bits[h] {
        out := out + [h];
      }
    }
  }

  /** One day of `nextCronRun`: its first slot from `minHour` on that fires after `after`. */
  method FirstOnDay(spec: CronSpec, cal: Calendar, z: Zone, after: int, day: int, minHour: int, hours: seq<int>,
                    minutes: seq<int>)
    returns (r: Option<int>, ghost at: Slot)
    requires Admissible(z) && WellFormed(spec) && DayMatches(spec, cal, day)
    requires Lists(hours, spec.hours) && Lists(minutes, spec.minutes)
    ensures r.Some? ==> r.value > after && at.day == day && at.hour >= minHour && FiresAt(spec, cal, z, at, r.value)
    ensures forall s, t :: FiresAt(spec, cal, z, s, t) && s.day == day && s.hour >= minHour && t > after ==>
              r.Some? && r.value <= t
  {
    at := Slot(day, 0, 0);
    r := None;
    for i := 0 to |hours|
      invariant r == None
      invariant forall s, t ::
                  FiresAt(spec, cal, z, s, t) && s.day == day && s.hour >= minHour && s.hour in hours[..i] ==>
                    t <= after
    {
      var h := hours[i];
      ListedBefore(hours, spec.hours, i, h);
      if h < minHour {
        continue;
      }
      for j := 0 to |minutes|
        invariant r == None
        invariant forall s, t ::
                    FiresAt(spec, cal, z, s, t) && s.day == day && s.hour == h && s.minute in minutes[..j] ==>
                      t <= after
      {
        var here := Slot(day, h, minutes[j]);
        ListedBefore(minutes, spec.minutes, j, minutes[j]);
        SlotSecond(here);
        var fire := ZonedToUtc(z, LocalOf(here));
        if fire > after {
          r, at := Some(fire), here;
          forall s, t | FiresAt(spec, cal, z, s, t) && s.day == day && s.hour >= minHour && t > after
            ensures fire <= t
          {
            ListedBefore(hours, spec.hours, i, s.hour);
            ListedBefore(minutes, spec.minutes, j, s.minute);
            SlotOrder(here, s);
            FiresInOrder(spec, cal, z, here, fire, s, t);
          }
          return;
        }
        forall t | FiresAt(spec, cal, z, here, t)
          ensures t <= after
        {
          FirstReachingUnique(z, LocalOf(here), t, fire);
        }
      }
      assert minutes[..|minutes|] == minutes;
    }
    assert hours[..|hours|] == hours;
  }

  /** The first occurrence strictly after `after`, searched day by day. */
  method NextCronRun(spec: CronSpec, cal: Calendar, z: Zone, after: int) returns (r: Option<int>)
    requires Admissible(z) && WellFormed(spec)
    ensures IsNextRun(spec, cal, z, after, r) && LeastAfter(spec, cal, z, after, r)
  {
    var hours := SetBits(spec.hours);
    var minutes := SetBits(spec.minutes);
    var day := DayAt(z, after) - 1;
    for i := 0 to SEARCH_DAYS + 1
      invariant day == DayAt(z, after) - 1 + i
      invariant forall s, t :: FiresAt(spec, cal, z, s, t) && NextVisits(z, after, s) && s.day < day ==> t <= after
    {
      if DayMatches(spec, cal, day) {
        var minHour := if i == 1 then HourAt(z, after) - 2 else if i == 0 then 22 else -1;
        ghost var at;
        r, at := FirstOnDay(spec, cal, z, after, day, minHour, hours, minutes);
        if r.Some? {
          forall s, t | FiresAt(spec, cal, z, s, t) && NextVisits(z, after, s) && t > after
            ensures r.value <= t
          {
            if s.day > day {
              SlotOrder(at, s);
              FiresInOrder(spec, cal, z, at, r.value, s, t);
            }
          }
          NextIsLeast(spec, cal, z, after, r);
          return;
        }
      }
      day := day + 1;
    }
    r := None;
    NextIsLeast(spec, cal, z, after, r);
  }

  /** One day of `prevCronRun`: its last slot up to `maxHour` that fires at or before `at`. */
  method LastOnDay(spec: CronSpec, cal: Calendar, z: Zone, at: int, day: int, maxHour: int, hours: seq<int>,
                   minutes: seq<int>)
    returns (r: Option<int>, ghost slot: Slot)
    requires Admissible(z) && WellFormed(spec) && DayMatches(spec, cal, day)
    requires Lists(hours, spec.hours) && Lists(minutes, spec.minutes)
    ensures r.Some? ==> r.value <= at && slot.day == day && slot.hour <= maxHour && FiresAt(spec, cal, z, slot, r.value)
    ensures forall s, t :: FiresAt(spec, cal, z, s, t) && s.day == day && s.hour <= maxHour && t <= at ==>
              r.Some? && t <= r.value
  {
    slot := Slot(day, 0, 0);
    r := None;
    for i := |hours| downto 0
      invariant r == None
      invariant forall s, t ::
                  FiresAt(spec, cal, z, s, t) && s.day == day && s.hour <= maxHour && s.hour in hours[i..] ==> t > at
    {
      var h := hours[i];
      ListedBefore(hours, spec.hours, i, h);
      if h > maxHour {
        continue;
      }
      for j := |minutes| downto 0
        invariant r == None
        invariant forall s, t ::
                    FiresAt(spec, cal, z, s, t) && s.day == day && s.hour == h && s.minute in minutes[j..] ==> t > at
      {
        var here := Slot(day, h, minutes[j]);
        ListedBefore(minutes, spec.minutes, j, minutes[j]);
        SlotSecond(here);
        var fire := ZonedToUtc(z, LocalOf(here));
        if fire <= at {
          r, slot := Some(fire), here;
          forall s, t | FiresAt(spec, cal, z, s, t) && s.day == day && s.hour <= maxHour && t <= at
            ensures t <= fire
          {
            ListedBefore(hours, spec.hours, i, s.hour);
            ListedBefore(minutes, spec.minutes, j, s.minute);
            SlotOrder(s, here);
            FiresInOrder(spec, cal, z, s, t, here, fire);
          }
          return;
        }
        forall t | FiresAt(spec, cal, z, here, t)
          ensures t > at
        {
          FirstReachingUnique(z, LocalOf(here), t, fire);
        }
      }
    }
  }

  /** Back from `at` day by day, to the latest occurrence that is visited. */
  method PrevCronRun(spec: CronSpec, cal: Calendar, z: Zone, at: int) returns (r: Option<int>)
    requires Admissible(z) && WellFormed(spec)
    ensures IsPrevRun(spec, cal, z, at, r)
    ensures ClockNeverAhead(z, at) ==> GreatestUpTo(spec, cal, z, at, r)
  {
    var hours := SetBits(spec.hours);
    var minutes := SetBits(spec.minutes);
    var day := DayAt(z, at) + 1;
    for i := 0 to SEARCH_DAYS + 1
      invariant day == DayAt(z, at) + 1 - i
      invariant forall s, t :: FiresAt(spec, cal, z, s, t) && PrevVisits(z, at, s) && s.day > day ==> t > at
    {
      if DayMatches(spec, cal, day) {
        var maxHour := if i == 1 then HourAt(z, at) + 2 else if i == 0 then 1 else 24;
        ghost var slot;
        r, slot := LastOnDay(spec, cal, z, at, day, maxHour, hours, minutes);
        if r.Some? {
          forall s, t | FiresAt(spec, cal, z, s, t) && PrevVisits(z, at, s) && t <= at
            ensures t <= r.value
          {
            if s.day < day {
              SlotOrder(s, slot);
              FiresInOrder(spec, cal, z, s, t, slot, r.value);
            }
          }
          if ClockNeverAhead(z, at) {
            PrevIsGreatest(spec, cal, z, at, r);
          }
          return;
        }
      }
      day := day - 1;
    }
    r := None;
    if ClockNeverAhead(z, at) {
      PrevIsGreatest(spec, cal, z, at, r);
    }
  }

  lemma SlotSecond(s: Slot)
    ensures LocalOf(s) % 1000 == 0
  {
    assert LocalOf(s) == 1000 * (s.day * 86_400 + s.hour * 3_600 + s.minute * 60);
  }

  // -------------------------------------------------------------------------
  // The forward search is exact in every zone

  /** A slot the clock has reached by `after` never fires later: the pruning drops nothing. */
  lemma ReachedHasFired(spec: CronSpec, cal: Calendar, z: Zone, s: Slot, t: int, after: int)
    requires FiresAt(spec, cal, z, s, t)
    requires LocalOf(s) <= Local(z, after)
    ensures t <= after
  {
  }

  lemma NextSkipsOnlyFired(spec: CronSpec, cal: Calendar, z: Zone, s: Slot, t: int, after: int)
    requires WellFormed(spec) && FiresAt(spec, cal, z, s, t)
    requires s.day <= DayAt(z, after) - 1 + SEARCH_DAYS && !NextVisits(z, after, s)
    ensures t <= after
  {
    ClockSplit(z, after);
    var clock := Slot(DayAt(z, after), HourAt(z, after), 0);
    SlotOrder(s, clock);
    ReachedHasFired(spec, cal, z, s, t, after);
  }

  /** `r` is the least occurrence strictly after `after`, or there is none within the horizon. */
  ghost predicate LeastAfter(spec: CronSpec, cal: Calendar, z: Zone, after: int, r: Option<int>) {
    && (r.Some? ==> r.value > after && Occurrence(spec, cal, z, r.value))
    && (forall t :: r.Some? && Occurrence(spec, cal, z, t) && t > after ==> r.value <= t)
    && (r.None? <==> forall s, t :: FiresAt(spec, cal, z, s, t) && t > after ==>
        s.day > DayAt(z, after) - 1 + SEARCH_DAYS)
  }

  /**
   * `nextCronRun` returns the least occurrence strictly after its argument, of all
   * there are; null means that none of the days up to the horizon has one.
   */
  lemma NextIsLeast(spec: CronSpec, cal: Calendar, z: Zone, after: int, r: Option<int>)
    requires WellFormed(spec) && IsNextRun(spec, cal, z, after, r)
    ensures LeastAfter(spec, cal, z, after, r)
  {
    forall s, t | FiresAt(spec, cal, z, s, t) && t > after
      ensures r.None? ==> s.day > DayAt(z, after) - 1 + SEARCH_DAYS
      ensures r.Some? ==> r.value <= t
    {
      if s.day <= DayAt(z, after) - 1 + SEARCH_DAYS {
        if !NextVisits(z, after, s) {
          NextSkipsOnlyFired(spec, cal, z, s, t, after);
        }
      } else if r.Some? {
        var at :| NextVisits(z, after, at) && FiresAt(spec, cal, z, at, r.value);
        SlotOrder(at, s);
        FiresInOrder(spec, cal, z, at, r.value, s, t);
      }
    }
  }

  // -------------------------------------------------------------------------
  // The backward search is exact exactly when the clock was never this far ahead

  /** The first local time `prevCronRun` does not look at. */
  function PrunedFrom(z: Zone, at: int): Slot {
    if HourAt(z, at) <= 20 then Slot(DayAt(z, at), HourAt(z, at) + 3, 0) else Slot(DayAt(z, at) + 1, 2, 0)
  }

  /** Up to `at` the clock never showed a time from the first pruned one on. */
  ghost predicate ClockNeverAhead(z: Zone, at: int) {
    forall u :: u <= at ==> Local(z, u) < LocalOf(PrunedFrom(z, at))
  }

  lemma PrevSkipsOnlyFuture(spec: CronSpec, cal: Calendar, z: Zone, s: Slot, t: int, at: int)
    requires WellFormed(spec) && FiresAt(spec, cal, z, s, t)
    requires s.day >= DayAt(z, at) + 1 - SEARCH_DAYS && !PrevVisits(z, at, s)
    requires ClockNeverAhead(z, at)
    ensures t > at
  {
    ClockSplit(z, at);
    SlotOrder(PrunedFrom(z, at), s);
    assert LocalOf(PrunedFrom(z, at)) <= LocalOf(s) <= Local(z, t);
  }

  /** `r` is the greatest occurrence at or before `at`, or there is none within the horizon. */
  ghost predicate GreatestUpTo(spec: CronSpec, cal: Calendar, z: Zone, at: int, r: Option<int>) {
    && (r.Some? ==> r.value <= at && Occurrence(spec, cal, z, r.value))
    && (forall t :: r.Some? && Occurrence(spec, cal, z, t) && t <= at ==> t <= r.value)
    && (r.None? <==> forall s, t :: FiresAt(spec, cal, z, s, t) && t <= at ==> s.day < DayAt(z, at) + 1 - SEARCH_DAYS)
  }

  /** Where the clock was never that far ahead, `prevCronRun` returns the greatest occurrence. */
  lemma PrevIsGreatest(spec: CronSpec, cal: Calendar, z: Zone, at: int, r: Option<int>)
    requires WellFormed(spec) && IsPrevRun(spec, cal, z, at, r)
    requires ClockNeverAhead(z, at)
    ensures GreatestUpTo(spec, cal, z, at, r)
  {
    forall s, t | FiresAt(spec, cal, z, s, t) && t <= at
      ensures r.None? ==> s.day < DayAt(z, at) + 1 - SEARCH_DAYS
      ensures r.Some? ==> t <= r.value
    {
      if s.day >= DayAt(z, at) + 1 - SEARCH_DAYS {
        if !PrevVisits(z, at, s) {
          PrevSkipsOnlyFuture(spec, cal, z, s, t, at);
        }
      } else if r.Some? {
        var slot :| PrevVisits(z, at, slot) && FiresAt(spec, cal, z, slot, r.value);
        SlotOrder(s, slot);
        FiresInOrder(spec, cal, z, s, t, slot, r.value);
      }
    }
  }

  /** Where it was, some expression makes `prevCronRun` miss the greatest occurrence. */
  lemma PrevMissesOtherwise(cal: Calendar, z: Zone, at: int) returns (spec: CronSpec)
    requires Admissible(z) && ValidCalendar(cal)
    requires !ClockNeverAhead(z, at)
    ensures WellFormed(spec)
    ensures forall r :: IsPrevRun(spec, cal, z, at, r) ==> !GreatestUpTo(spec, cal, z, at, r)
  {
    ClockSplit(z, at);
    var pruned := PrunedFrom(z, at);
    var local := LocalOf(pruned);
    spec := DailyAt(pruned.hour);
    var u :| u <= at && Local(z, u) >= local;
    var fire := ReachedBy(z, local, u);
    assert Matches(spec, cal, pruned) by { DailyMatches(pruned.hour, cal, pruned.day); }
    assert FiresAt(spec, cal, z, pruned, fire);
    SlotOrder(Slot(DayAt(z, at), HourAt(z, at), 59), pruned);
    NoJumpOnto(z, local, fire, at);
    forall r | IsPrevRun(spec, cal, z, at, r)
      ensures !GreatestUpTo(spec, cal, z, at, r)
    {
      assert Occurrence(spec, cal, z, fire);
      if r.Some? {
        var s :| PrevVisits(z, at, s) && FiresAt(spec, cal, z, s, r.value);
        assert s.hour == pruned.hour && s.minute == 0 && s.day < pruned.day;
        assert LocalOf(s) <= local - 1;
      }
    }
  }

  /** `0 <hour> * * *` */
  function DailyAt(hour: int): CronSpec {
    CronSpec(seq(60, m => m == 0), seq(24, h => h == hour), seq(32, d => d >= 1), seq(13, m => m >= 1),
             seq(7, d => true), false)
  }

  lemma DailyMatches(hour: int, cal: Calendar, day: int)
    requires ValidCalendar(cal) && 0 <= hour < 24
    ensures WellFormed(DailyAt(hour))
    ensures forall s :: Matches(DailyAt(hour), cal, s) <==> s.hour == hour && s.minute == 0
  {
  }

  /** A local time the clock reaches is first reached at some instant. */
  lemma ReachedBy(z: Zone, local: int, u: int) returns (t: int)
    requires Admissible(z) && Local(z, u) >= local
    ensures t <= u && FirstReaching(z, local, t)
    decreases u - (local - DAY)
  {
    if v :| v < u && Local(z, v) >= local {
      assert z(v) < DAY;
      t := ReachedBy(z, local, v);
    } else {
      t := u;
    }
  }

  /**
   * When the clock is behind `local` again within the two days after reaching it, a
   * fall-back came in between, so there was no jump onto `local` as well.
   */
  lemma NoJumpOnto(z: Zone, local: int, t: int, at: int)
    requires Admissible(z) && FirstReaching(z, local, t)
    requires t <= at && Local(z, at) < local
    ensures Local(z, t - 1) == local - 1
  {
    assert Local(z, t - 1) < local;
    assert z(t) < DAY && z(at) > -DAY;
    assert t - 1 <= t <= at <= t - 1 + 2 * DAY;
    assert z(t) == z(t - 1) || z(t) == z(at);
  }

  /** No transition in the two days before `at` sets the clock back by more than two hours. */
  ghost predicate FallBackAtMostTwoHours(z: Zone, at: int) {
    forall t :: at - 2 * DAY < t <= at ==> z(t - 1) - z(t) <= 2 * HOUR
  }

  /** Then the clock was never ahead by more than the pruning allows for, whatever the zone did before. */
  lemma SmallFallBackSuffices(z: Zone, at: int)
    requires Admissible(z) && FallBackAtMostTwoHours(z, at)
    ensures ClockNeverAhead(z, at)
  {
    ClockSplit(z, at);
    SlotOrder(Slot(DayAt(z, at), HourAt(z, at), 59), PrunedFrom(z, at));
    forall u | u <= at
      ensures Local(z, u) <= Local(z, at) + 2 * HOUR
    {
      assert z(u) < DAY && z(at) > -DAY;
      if at - u <= 2 * DAY {
        DropBounded(z, u, at, at);
      }
    }
  }

  lemma DropBounded(z: Zone, u: int, v: int, at: int)
    requires Admissible(z) && FallBackAtMostTwoHours(z, at)
    requires at - 2 * DAY <= u <= v <= at
    ensures z(u) - z(v) <= 2 * HOUR
    decreases v - u
  {
    if u < v {
      DropBounded(z, u, v - 1, at);
      assert z(v - 1) == z(u) || z(v - 1) == z(v);
      assert z(v - 1) - z(v) <= 2 * HOUR;
    }
  }

  /** The first occurrence after the latest one up to `at` is after `at`. */
  lemma NextAfterPrev(spec: CronSpec, cal: Calendar, z: Zone, at: int, prev: Option<int>, next: Option<int>)
    requires WellFormed(spec) && ClockNeverAhead(z, at)
    requires IsPrevRun(spec, cal, z, at, prev) && prev.Some?
    requires IsNextRun(spec, cal, z, prev.value, next) && next.Some?
    ensures next.value > at
  {
    PrevIsGreatest(spec, cal, z, at, prev);
    NextIsLeast(spec, cal, z, prev.value, next);
  }
}
