/**
 * The pure next-run planner and the run log it reads (`planJob`, `RunLog` in
 * server/src/assistant-schedule.ts).
 */
module Planner {
  import opened Options
  import opened TimeZones
  import opened Cron

  /** A one-shot's date-time: whole seconds of local time, milliseconds, explicit offset. */
  datatype ParsedAt = ParsedAt(local: int, millisecond: int, offset: Option<int>)

  datatype TimeSpec = Recurring(cron: CronSpec) | Once(at: ParsedAt) | Immediately

  datatype ValidJob = ValidJob(enabled: bool, time: TimeSpec)

  /** A line of the run log; `None` when `Date.parse` does not read its `scheduledFor`. */
  datatype RunEntry = RunEntry(scheduledFor: Option<int>)

  datatype Plan =
    | Disabled
    | Done
    | Never
    | Waiting(next: int)
    | Due(next: int, scheduledFor: int)
    | Missed(next: int, scheduledFor: int)
  {
    /** The plan makes the scheduler write a run entry. */
    predicate Accounts() {
      Due? || Missed?
    }
  }

  predicate WellFormedJob(job: ValidJob) {
    match job.time
    case Recurring(cron) => WellFormed(cron)
    case Once(at) => at.local % 1000 == 0
    case Immediately => true
  }

  /** Fire inside the grace window, skip outside it. */
  function FireOrSkip(t: int, now: int, graceMs: int): Plan {
    if t >= now - graceMs then Due(t, t) else Missed(t, t)
  }

  /** `base` is what a recurring job counts from: the newest of its runs and `since`, else now. */
  ghost predicate IsBase(runs: seq<RunEntry>, since: Option<int>, now: int, base: int) {
    && (forall r <- runs :: r.scheduledFor.Some? ==> r.scheduledFor.value <= base)
    && (since.Some? ==> since.value <= base)
    && (|| (exists r <- runs :: r.scheduledFor == Some(base))
        || since == Some(base)
        || (base == now && since.None? && forall r <- runs :: r.scheduledFor.None?))
  }

  ghost predicate IsInstant(at: ParsedAt, z: Zone, t: int) {
    match at.offset
    case Some(offset) => t == at.local + at.millisecond - offset
    case None => FirstReaching(z, at.local, t - at.millisecond)
  }

  /** What the planner answers, in terms of the two occurrence searches. */
  ghost predicate IsPlan(job: ValidJob, cal: Calendar, z: Zone, runs: seq<RunEntry>, now: int, graceMs: int,
                         since: Option<int>, plan: Plan) {
    if !job.enabled then plan == Disabled
    else match job.time
      case Recurring(cron) =>
        PlansRecurring(cron, cal, z, runs, now, graceMs, since, plan)
      case Once(at) =>
        if |runs| > 0 then plan == Done
        else exists t :: IsInstant(at, z, t) && plan == if t > now then Waiting(t) else FireOrSkip(t, now, graceMs)
      case Immediately =>
        if |runs| > 0 then plan == Done
        else plan == Due(now, if since.Some? then since.value else now)
  }

  ghost predicate PlansRecurring(cron: CronSpec, cal: Calendar, z: Zone, runs: seq<RunEntry>, now: int, graceMs: int,
                                 since: Option<int>, plan: Plan) {
    exists base, first, prev :: IsRecurringPlan(cron, cal, z, runs, now, graceMs, since, plan, base, first, prev)
  }

  ghost predicate IsRecurringPlan(cron: CronSpec, cal: Calendar, z: Zone, runs: seq<RunEntry>, now: int, graceMs: int,
                                  since: Option<int>,
                                  plan: Plan, base: int, first: Option<int>, prev: Option<int>) {
    && IsBase(runs, since, now, base)
    && IsNextRun(cron, cal, z, base, first)
    && (first.None? ==> plan == Never)
    && (first.Some? && first.value > now ==> plan == Waiting(first.value))
    && (first.Some? && first.value <= now ==>
          && IsPrevRun(cron, cal, z, now, prev)
          && plan == FireOrSkip(if prev.Some? then prev.value else first.value, now, graceMs))
  }

  method AtToInstant(at: ParsedAt, z: Zone) returns (t: int)
    requires Admissible(z) && at.local % 1000 == 0
    ensures IsInstant(at, z, t)
  {
    if at.offset.Some? {
      return at.local + at.millisecond - at.offset.value;
    }
    var u := ZonedToUtc(z, at.local);
    t := u + at.millisecond;
  }

  /** The newest accounted occurrence. */
  method BaseOf(runs: seq<RunEntry>, since: Option<int>, now: int) returns (base: int)
    ensures IsBase(runs, since, now, base)
  {
    var newest: Option<int> := None;
    for i := 0 to |runs|
      invariant newest.None? ==> forall k :: 0 <= k < i ==> runs[k].scheduledFor.None?
      invariant newest.Some? ==> exists k :: 0 <= k < i && runs[k].scheduledFor == newest
      invariant newest.Some? ==> forall k :: 0 <= k < i && runs[k].scheduledFor.Some? ==>
                runs[k].scheduledFor.value <= newest.value
    {
      var t := runs[i].scheduledFor;
      if t.Some? && (newest.None? || t.value > newest.value) {
        newest := t;
      }
    }
    if since.Some? && (newest.None? || since.value > newest.value) {
      newest := since;
    }
    base := if newest.None? then now else newest.value;
  }

  method PlanRecurring(cron: CronSpec, cal: Calendar, z: Zone, runs: seq<RunEntry>, now: int, graceMs: int,
                       since: Option<int>)
    returns (plan: Plan)
    requires Admissible(z) && WellFormed(cron)
    ensures PlansRecurring(cron, cal, z, runs, now, graceMs, since, plan)
  {
    var base := BaseOf(runs, since, now);
    var first := NextCronRun(cron, cal, z, base);
    if first.None? {
      plan := Never;
      assert IsRecurringPlan(cron, cal, z, runs, now, graceMs, since, plan, base, first, None);
      return;
    }
    if first.value > now {
      plan := Waiting(first.value);
      assert IsRecurringPlan(cron, cal, z, runs, now, graceMs, since, plan, base, first, None);
      return;
    }
    var prev := PrevCronRun(cron, cal, z, now);
    plan := FireOrSkip(if prev.Some? then prev.value else first.value, now, graceMs);
    assert IsRecurringPlan(cron, cal, z, runs, now, graceMs, since, plan, base, first, prev);
  }

  /** Where a job stands; what it accounts for is later than every run logged. */
  method PlanJob(job: ValidJob, cal: Calendar, z: Zone, runs: seq<RunEntry>, now: int, graceMs: int, since: Option<int>)
    returns (plan: Plan)
    requires Admissible(z) && WellFormedJob(job)
    ensures IsPlan(job, cal, z, runs, now, graceMs, since, plan)
    ensures plan.Accounts() && (job.time.Recurring? ==> ClockNeverAhead(z, now)) ==> Newer(plan.scheduledFor, runs)
  {
    if !job.enabled {
      return Disabled;
    }
    match job.time {
      case Once(at) =>
        if |runs| > 0 {
          return Done;
        }
        var t := AtToInstant(at, z);
        return if t > now then Waiting(t) else FireOrSkip(t, now, graceMs);
      case Immediately =>
        if |runs| > 0 {
          return Done;
        }
        return Due(now, if since.Some? then since.value else now);
      case Recurring(cron) =>
        plan := PlanRecurring(cron, cal, z, runs, now, graceMs, since);
        if ClockNeverAhead(z, now) && plan.Accounts() {
          AccountedIsNew(job, cal, z, runs, now, graceMs, since, plan);
        }
    }
  }

  // -------------------------------------------------------------------------
  // Nothing fires twice

  /** `t` is later than every occurrence in the log. */
  ghost predicate Newer(t: int, runs: seq<RunEntry>) {
    forall r <- runs :: r.scheduledFor.Some? ==> r.scheduledFor.value < t
  }

  /** What an accounting plan found: a due occurrence after the base, and the latest one. */
  lemma Found(cron: CronSpec, cal: Calendar, z: Zone, runs: seq<RunEntry>, now: int, graceMs: int, since: Option<int>,
              plan: Plan)
    returns (base: int, first: int, prev: Option<int>)
    requires WellFormed(cron) && PlansRecurring(cron, cal, z, runs, now, graceMs, since, plan) && plan.Accounts()
    ensures IsBase(runs, since, now, base)
    ensures IsNextRun(cron, cal, z, base, Some(first)) && base < first <= now
    ensures IsPrevRun(cron, cal, z, now, prev)
    ensures plan.scheduledFor == if prev.Some? then prev.value else first
  {
    var next: Option<int>;
    base, next, prev :| IsRecurringPlan(cron, cal, z, runs, now, graceMs, since, plan, base, next, prev);
    first := next.value;
  }

  lemma FirstIsOccurrence(cron: CronSpec, cal: Calendar, z: Zone, base: int, first: int)
    requires IsNextRun(cron, cal, z, base, Some(first))
    ensures Occurrence(cron, cal, z, first)
  {
  }

  /**
   * An accounted occurrence is later than everything in the log, whatever zones the
   * log was written in, is not in the future, and is the latest one there is.
   */
  lemma AccountedIsNew(job: ValidJob, cal: Calendar, z: Zone, runs: seq<RunEntry>, now: int, graceMs: int,
                       since: Option<int>, plan: Plan)
    requires WellFormedJob(job) && job.time.Recurring? && ClockNeverAhead(z, now)
    requires IsPlan(job, cal, z, runs, now, graceMs, since, plan) && plan.Accounts()
    ensures Newer(plan.scheduledFor, runs)
    ensures since.Some? ==> since.value < plan.scheduledFor
    ensures plan.scheduledFor <= now
    ensures Occurrence(job.time.cron, cal, z, plan.scheduledFor)
    ensures forall s, t ::
              FiresAt(job.time.cron, cal, z, s, t) && s.day >= DayAt(z, now) + 1 - SEARCH_DAYS && t <= now ==>
                t <= plan.scheduledFor
  {
    var cron := job.time.cron;
    var base, first, prev := Found(cron, cal, z, runs, now, graceMs, since, plan);
    FirstIsOccurrence(cron, cal, z, base, first);
    PrevIsGreatest(cron, cal, z, now, prev);
    LatestAfterBase(cron, cal, z, now, base, first, prev);
  }

  lemma LatestAfterBase(cron: CronSpec, cal: Calendar, z: Zone, now: int, base: int, first: int, prev: Option<int>)
    requires GreatestUpTo(cron, cal, z, now, prev)
    requires Occurrence(cron, cal, z, first) && base < first <= now
    ensures var latest := if prev.Some? then prev.value else first;
            base < latest <= now && Occurrence(cron, cal, z, latest)
            && forall s, t :: FiresAt(cron, cal, z, s, t) && s.day >= DayAt(z, now) + 1 - SEARCH_DAYS && t <= now ==>
               t <= latest
  {
    forall s, t | FiresAt(cron, cal, z, s, t) && t <= now
      ensures prev.Some? ==> t <= prev.value
    {
      assert Occurrence(cron, cal, z, t);
    }
  }

  /** An occurrence fires less than two days of civil time from its instant. */
  lemma FiringDay(cron: CronSpec, cal: Calendar, z: Zone, s: Slot, t: int)
    requires Admissible(z) && WellFormed(cron) && FiresAt(cron, cal, z, s, t)
    ensures t / DAY - 3 <= s.day
  {
    assert Local(z, t - 1) < LocalOf(s);
    assert z(t - 1) > -DAY;
    SlotOrder(s, Slot(s.day + 1, 0, 0));
    assert t - 1 - DAY < (s.day + 1) * DAY;
  }

  /** Every base of these runs lies within the backward search of `now`. */
  ghost predicate WithinHorizon(runs: seq<RunEntry>, since: Option<int>, now: int) {
    forall base :: IsBase(runs, since, now, base) ==> base >= now - (SEARCH_DAYS - 8) * DAY
  }

  lemma PrevFound(cron: CronSpec, cal: Calendar, z: Zone, base: int, first: int, now: int, prev: Option<int>)
    requires Admissible(z) && WellFormed(cron) && GreatestUpTo(cron, cal, z, now, prev)
    requires IsNextRun(cron, cal, z, base, Some(first)) && first <= now
    requires base >= now - (SEARCH_DAYS - 8) * DAY
    ensures prev.Some?
  {
    var s :| NextVisits(z, base, s) && FiresAt(cron, cal, z, s, first);
    FiringDay(cron, cal, z, s, first);
    assert z(now) < DAY;
  }

  /**
   * Once the occurrence is in the log, a plan made again at the same instant waits:
   * an outage is caught up at most once. The last account must lie within the
   * search horizon.
   */
  lemma AccountedOnce(job: ValidJob, cal: Calendar, z: Zone, runs: seq<RunEntry>, now: int, graceMs: int,
                      since: Option<int>, plan: Plan, since': Option<int>, plan': Plan)
    requires Admissible(z) && WellFormedJob(job) && job.time.Recurring? && ClockNeverAhead(z, now)
    requires IsPlan(job, cal, z, runs, now, graceMs, since, plan) && plan.Accounts()
    requires WithinHorizon(runs, since, now)
    requires IsPlan(job, cal, z, runs + [RunEntry(Some(plan.scheduledFor))], now, graceMs, since', plan')
    ensures (plan'.Waiting? && plan'.next > now) || plan'.Never?
  {
    var cron := job.time.cron;
    var base, first, prev := Found(cron, cal, z, runs, now, graceMs, since, plan);
    PrevIsGreatest(cron, cal, z, now, prev);
    PrevFound(cron, cal, z, base, first, now, prev);
    NothingLeft(cron, cal, z, runs, now, graceMs, prev.value, since', plan');
  }

  /** With the latest occurrence in the log the planner finds none that is due. */
  lemma NothingLeft(cron: CronSpec, cal: Calendar, z: Zone, runs: seq<RunEntry>, now: int, graceMs: int, latest: int,
                    since: Option<int>, plan: Plan)
    requires WellFormed(cron) && GreatestUpTo(cron, cal, z, now, Some(latest))
    requires PlansRecurring(cron, cal, z, runs + [RunEntry(Some(latest))], now, graceMs, since, plan)
    ensures (plan.Waiting? && plan.next > now) || plan.Never?
  {
    var logged := RunEntry(Some(latest));
    assert logged in runs + [logged];
    if plan.Accounts() {
      var base, first, prev := Found(cron, cal, z, runs + [logged], now, graceMs, since, plan);
      FirstIsOccurrence(cron, cal, z, base, first);
    }
  }

  /** A one-shot with any entry in the log is done. */
  lemma OneShotOnce(job: ValidJob, cal: Calendar, z: Zone, runs: seq<RunEntry>, now: int, graceMs: int,
                    since: Option<int>, plan: Plan)
    requires job.enabled && !job.time.Recurring?
    requires IsPlan(job, cal, z, runs, now, graceMs, since, plan)
    ensures plan.Done? <==> |runs| > 0
    ensures plan.Accounts() && job.time.Once? ==>
            plan.scheduledFor <= now && IsInstant(job.time.at, z, plan.scheduledFor)
  {
  }

  /** One look at a job as the schedule has it by then: in whatever zone, and with whatever `since`. */
  datatype Look = Look(job: ValidJob, z: Zone, now: int, since: Option<int>, plan: Plan)

  /** A run log grown by looking at one job over and over, every accounted occurrence written down. */
  ghost predicate GrownBy(cal: Calendar, graceMs: int, looks: seq<Look>, runs: seq<RunEntry>)
    decreases |looks|
  {
    if |looks| == 0 then runs == []
    else
      var look := looks[|looks| - 1];
      var before := if look.plan.Accounts() && |runs| > 0 then runs[..|runs| - 1] else runs;
      && GrownBy(cal, graceMs, looks[..|looks| - 1], before)
      && IsPlan(look.job, cal, look.z, before, look.now, graceMs, look.since, look.plan)
      && runs == before + (if look.plan.Accounts() then [RunEntry(Some(look.plan.scheduledFor))] else [])
  }

  /** A look the planner's promise covers. */
  ghost predicate Covered(look: Look) {
    WellFormedJob(look.job) && (look.job.time.Recurring? ==> ClockNeverAhead(look.z, look.now))
  }

  lemma LookIsNew(look: Look, cal: Calendar, graceMs: int, runs: seq<RunEntry>)
    requires Covered(look) && look.plan.Accounts()
    requires IsPlan(look.job, cal, look.z, runs, look.now, graceMs, look.since, look.plan)
    ensures Newer(look.plan.scheduledFor, runs)
  {
    if look.job.time.Recurring? {
      AccountedIsNew(look.job, cal, look.z, runs, look.now, graceMs, look.since, look.plan);
    } else {
      OneShotNeedsNoRuns(look.job, cal, look.z, runs, look.now, graceMs, look.since, look.plan);
    }
  }

  /** Every entry names its occurrence, each a later one. */
  predicate Increasing(runs: seq<RunEntry>) {
    && (forall k :: 0 <= k < |runs| ==> runs[k].scheduledFor.Some?)
    && (forall i, j :: 0 <= i < j < |runs| ==> runs[i].scheduledFor.value < runs[j].scheduledFor.value)
  }

  lemma NewerLast(runs: seq<RunEntry>, t: int)
    requires Increasing(runs) && Newer(t, runs)
    ensures Increasing(runs + [RunEntry(Some(t))])
  {
    forall i | 0 <= i < |runs|
      ensures runs[i].scheduledFor.value < t
    {
      assert runs[i] in runs;
    }
  }

  /**
   * Over any sequence of looks, across zone changes, clock changes and edits of the job
   * (another expression, another kind, disabled and enabled again), the accounted
   * occurrences strictly increase: none fires twice.
   */
  lemma {:induction false} NeverTwice(cal: Calendar, graceMs: int, looks: seq<Look>, runs: seq<RunEntry>)
    requires forall look <- looks :: Covered(look)
    requires GrownBy(cal, graceMs, looks, runs)
    ensures Increasing(runs)
    decreases |looks|
  {
    if |looks| > 0 {
      var look := looks[|looks| - 1];
      assert look in looks;
      var before := if look.plan.Accounts() && |runs| > 0 then runs[..|runs| - 1] else runs;
      NeverTwice(cal, graceMs, looks[..|looks| - 1], before);
      if look.plan.Accounts() {
        LookIsNew(look, cal, graceMs, before);
        NewerLast(before, look.plan.scheduledFor);
      }
    }
  }

  lemma OneShotNeedsNoRuns(job: ValidJob, cal: Calendar, z: Zone, runs: seq<RunEntry>, now: int, graceMs: int,
                           since: Option<int>, plan: Plan)
    requires !job.time.Recurring? && plan.Accounts()
    requires IsPlan(job, cal, z, runs, now, graceMs, since, plan)
    ensures |runs| == 0
  {
  }

  /** Over any sequence of looks a one-shot is accounted for at most once, also when it is edited. */
  lemma {:induction false} OneShotAtMostOnce(cal: Calendar, graceMs: int, looks: seq<Look>, runs: seq<RunEntry>)
    requires forall look <- looks :: !look.job.time.Recurring?
    requires GrownBy(cal, graceMs, looks, runs)
    ensures |runs| <= 1
    decreases |looks|
  {
    if |looks| > 0 {
      var look := looks[|looks| - 1];
      assert look in looks;
      var before := if look.plan.Accounts() && |runs| > 0 then runs[..|runs| - 1] else runs;
      OneShotAtMostOnce(cal, graceMs, looks[..|looks| - 1], before);
      if look.plan.Accounts() {
        OneShotNeedsNoRuns(look.job, cal, look.z, before, look.now, graceMs, look.since, look.plan);
      }
    }
  }

  // -------------------------------------------------------------------------
  // What a plan says of the occurrences

  lemma OneBase(runs: seq<RunEntry>, since: Option<int>, now: int, a: int, b: int)
    requires IsBase(runs, since, now, a) && IsBase(runs, since, now, b)
    ensures a == b
  {
  }

  /** An occurrence up to now is within the forward search of a base within the horizon. */
  lemma WithinSearch(cron: CronSpec, cal: Calendar, z: Zone, s: Slot, t: int, base: int, now: int)
    requires Admissible(z) && WellFormed(cron) && FiresAt(cron, cal, z, s, t) && t <= now
    requires base >= now - (SEARCH_DAYS - 8) * DAY
    ensures s.day <= DayAt(z, base) - 1 + SEARCH_DAYS
  {
    assert z(t) < DAY && z(base) > -DAY;
    assert s.day * DAY <= LocalOf(s);
  }

  ghost predicate TellsWhere(cron: CronSpec, cal: Calendar, z: Zone, base: int, now: int, graceMs: int, plan: Plan) {
    match plan
    case Due(next, t) => next == t && LatestBetween(cron, cal, z, base, now, t) && t >= now - graceMs
    case Missed(next, t) => next == t && LatestBetween(cron, cal, z, base, now, t) && t < now - graceMs
    case Waiting(next) => next > now && LeastAfter(cron, cal, z, base, Some(next))
    case Never => LeastAfter(cron, cal, z, base, None)
    case _ => false
  }

  ghost predicate Passed(cron: CronSpec, cal: Calendar, z: Zone, base: int, now: int) {
    exists t :: base < t <= now && Occurrence(cron, cal, z, t)
  }

  ghost predicate LatestBetween(cron: CronSpec, cal: Calendar, z: Zone, base: int, now: int, t: int) {
    && base < t <= now && Occurrence(cron, cal, z, t)
    && forall u :: Occurrence(cron, cal, z, u) && u <= now ==> u <= t
  }

  lemma PassedExactly(cron: CronSpec, cal: Calendar, z: Zone, base: int, now: int, first: Option<int>)
    requires Admissible(z) && WellFormed(cron) && LeastAfter(cron, cal, z, base, first)
    requires base >= now - (SEARCH_DAYS - 8) * DAY
    ensures first.Some? && first.value <= now <==> Passed(cron, cal, z, base, now)
  {
    forall s, t | FiresAt(cron, cal, z, s, t) && base < t <= now
      ensures first.Some? && first.value <= now
    {
      WithinSearch(cron, cal, z, s, t, base, now);
      assert Occurrence(cron, cal, z, t);
    }
  }

  lemma FirstTells(cron: CronSpec, cal: Calendar, z: Zone, base: int, now: int, first: Option<int>)
    requires Admissible(z) && WellFormed(cron) && IsNextRun(cron, cal, z, base, first)
    requires base >= now - (SEARCH_DAYS - 8) * DAY
    ensures LeastAfter(cron, cal, z, base, first)
    ensures first.Some? && first.value <= now <==> Passed(cron, cal, z, base, now)
  {
    NextIsLeast(cron, cal, z, base, first);
    PassedExactly(cron, cal, z, base, now, first);
  }

  lemma PrevTells(cron: CronSpec, cal: Calendar, z: Zone, base: int, now: int, first: int, prev: Option<int>)
    requires Admissible(z) && WellFormed(cron) && ClockNeverAhead(z, now)
    requires IsNextRun(cron, cal, z, base, Some(first)) && IsPrevRun(cron, cal, z, now, prev) && first <= now
    requires base >= now - (SEARCH_DAYS - 8) * DAY
    ensures prev.Some? && LatestBetween(cron, cal, z, base, now, prev.value)
  {
    NextIsLeast(cron, cal, z, base, Some(first));
    PrevIsGreatest(cron, cal, z, now, prev);
    PrevFound(cron, cal, z, base, first, now, prev);
    PrevIsLatest(cron, cal, z, base, now, first, prev.value);
  }

  lemma PrevIsLatest(cron: CronSpec, cal: Calendar, z: Zone, base: int, now: int, first: int, prev: int)
    requires LeastAfter(cron, cal, z, base, Some(first)) && GreatestUpTo(cron, cal, z, now, Some(prev)) && first <= now
    ensures LatestBetween(cron, cal, z, base, now, prev)
  {
    assert Occurrence(cron, cal, z, first);
  }

  /** The plan in terms of the first occurrence after the base and the latest up to now. */
  lemma Searched(cron: CronSpec, cal: Calendar, z: Zone, runs: seq<RunEntry>, now: int, graceMs: int,
                 since: Option<int>, plan: Plan, base: int)
    returns (first: Option<int>, latest: int)
    requires Admissible(z) && WellFormed(cron) && ClockNeverAhead(z, now)
    requires IsBase(runs, since, now, base) && base >= now - (SEARCH_DAYS - 8) * DAY
    requires PlansRecurring(cron, cal, z, runs, now, graceMs, since, plan)
    ensures LeastAfter(cron, cal, z, base, first)
    ensures first.Some? && first.value <= now <==> Passed(cron, cal, z, base, now)
    ensures if first.None? then plan == Never
            else if first.value > now then plan == Waiting(first.value)
            else LatestBetween(cron, cal, z, base, now, latest) && plan == FireOrSkip(latest, now, graceMs)
  {
    var b, next, prev :| IsRecurringPlan(cron, cal, z, runs, now, graceMs, since, plan, b, next, prev);
    first, latest := next, 0;
    OneBase(runs, since, now, base, b);
    FirstTells(cron, cal, z, base, now, first);
    if first.Some? && first.value <= now {
      PrevTells(cron, cal, z, base, now, first.value, prev);
      latest := prev.value;
    }
  }

  lemma FoundTells(cron: CronSpec, cal: Calendar, z: Zone, base: int, now: int, graceMs: int, plan: Plan,
                   first: Option<int>, latest: int)
    requires LeastAfter(cron, cal, z, base, first)
    requires if first.None? then plan == Never
             else if first.value > now then plan == Waiting(first.value)
             else LatestBetween(cron, cal, z, base, now, latest) && plan == FireOrSkip(latest, now, graceMs)
    ensures TellsWhere(cron, cal, z, base, now, graceMs, plan)
    ensures plan.Accounts() <==> first.Some? && first.value <= now
  {
  }

  /**
   * A recurring job accounts for something exactly when an occurrence has passed since
   * its base, and then for the latest, which is due within the grace and missed
   * outside it. Otherwise it waits for the first one to come, or there is none
   * within the search horizon.
   */
  lemma RecurringExactly(cron: CronSpec, cal: Calendar, z: Zone, runs: seq<RunEntry>, now: int, graceMs: int,
                         since: Option<int>, plan: Plan, base: int)
    requires Admissible(z) && WellFormed(cron) && ClockNeverAhead(z, now)
    requires IsBase(runs, since, now, base) && base >= now - (SEARCH_DAYS - 8) * DAY
    requires PlansRecurring(cron, cal, z, runs, now, graceMs, since, plan)
    ensures plan.Accounts() <==> Passed(cron, cal, z, base, now)
    ensures TellsWhere(cron, cal, z, base, now, graceMs, plan)
  {
    var first, latest := Searched(cron, cal, z, runs, now, graceMs, since, plan, base);
    FoundTells(cron, cal, z, base, now, graceMs, plan, first, latest);
  }

  /** The zone a one-shot's time is read in. */
  function ZoneFor(at: ParsedAt, z: Zone): Zone {
    if at.offset.Some? then _ => at.offset.value else z
  }

  /** An offset written out means what it means as a zone: the first instant showing the time. */
  lemma OffsetIsZone(at: ParsedAt, z: Zone, t: int)
    ensures IsInstant(at, z, t) <==> FirstReaching(ZoneFor(at, z), at.local, t - at.millisecond)
  {
    if at.offset.Some? {
      var zone, u := ZoneFor(at, z), t - at.millisecond;
      assert Local(zone, u) == u + at.offset.value && Local(zone, u - 1) == u - 1 + at.offset.value;
      if FirstReaching(zone, at.local, u) {
        assert Local(zone, u - 1) < at.local;
      }
    }
  }

  /**
   * A one-shot with no run waits while its instant is to come, is due within the grace
   * after it, and missed from then on; an immediate one is due.
   */
  lemma OneShotExactly(at: ParsedAt, cal: Calendar, z: Zone, now: int, graceMs: int, since: Option<int>, plan: Plan,
                       t: int)
    requires FirstReaching(ZoneFor(at, z), at.local, t - at.millisecond)
    requires IsPlan(ValidJob(true, Once(at)), cal, z, [], now, graceMs, since, plan)
    ensures plan == Waiting(t) <==> t > now
    ensures plan == Due(t, t) <==> now - graceMs <= t <= now
    ensures plan == Missed(t, t) <==> t <= now && t < now - graceMs
  {
    var u :| IsInstant(at, z, u) && plan == if u > now then Waiting(u) else FireOrSkip(u, now, graceMs);
    OffsetIsZone(at, z, u);
    assert t == u;
  }

  // -------------------------------------------------------------------------
  // Where the clock was further ahead, an occurrence does fire twice

  /** The run log's newest occurrence. */
  ghost predicate NewestIs(runs: seq<RunEntry>, t: int) {
    RunEntry(Some(t)) in runs && forall r <- runs :: r.scheduledFor.Some? ==> r.scheduledFor.value <= t
  }

  /** The daily slot the pruning wrongly skips, the same a day before, and when the two fire. */
  ghost predicate MissedSlot(cal: Calendar, z: Zone, now: int, slot: Slot, before: int, fire: int) {
    && 0 <= slot.hour < 24 && slot == PrunedFrom(z, now)
    && FirstReaching(z, LocalOf(slot), fire) && FirstReaching(z, LocalOf(slot) - DAY, before)
    && before < fire <= now
  }

  lemma FindMissedSlot(cal: Calendar, z: Zone, now: int) returns (slot: Slot, before: int, fire: int)
    requires Admissible(z) && !ClockNeverAhead(z, now)
    ensures MissedSlot(cal, z, now, slot, before, fire)
  {
    ClockSplit(z, now);
    slot := PrunedFrom(z, now);
    var local := LocalOf(slot);
    var u :| u <= now && Local(z, u) >= local;
    fire := ReachedBy(z, local, u);
    SlotOrder(Slot(DayAt(z, now), HourAt(z, now), 59), slot);
    NoJumpOnto(z, local, fire, now);
    before := ReachedBy(z, local - DAY, fire - 1);
  }

  /** Of the daily slots the backward search looks at, the one of the day before is the last. */
  lemma PrevIsDayBefore(cal: Calendar, z: Zone, now: int, slot: Slot, before: int, fire: int, r: Option<int>)
    requires ValidCalendar(cal) && MissedSlot(cal, z, now, slot, before, fire)
    ensures IsPrevRun(DailyAt(slot.hour), cal, z, now, r) <==> r == Some(before)
  {
    var spec, dayBefore := DailyAt(slot.hour), Slot(slot.day - 1, slot.hour, 0);
    ClockSplit(z, now);
    DailyMatches(slot.hour, cal, slot.day);
    assert LocalOf(dayBefore) == LocalOf(slot) - DAY;
    assert PrevVisits(z, now, dayBefore) && FiresAt(spec, cal, z, dayBefore, before);
    forall s, t | FiresAt(spec, cal, z, s, t) && PrevVisits(z, now, s)
      ensures t <= before
    {
      SlotOrder(s, dayBefore);
      FiresInOrder(spec, cal, z, s, t, dayBefore, before);
    }
  }

  /** And the forward search from there finds the slot that was skipped. */
  lemma NextIsMissed(cal: Calendar, z: Zone, now: int, slot: Slot, before: int, fire: int, r: Option<int>)
    requires ValidCalendar(cal) && MissedSlot(cal, z, now, slot, before, fire)
    ensures IsNextRun(DailyAt(slot.hour), cal, z, before, r) <==> r == Some(fire)
  {
    var spec, dayBefore := DailyAt(slot.hour), Slot(slot.day - 1, slot.hour, 0);
    ClockSplit(z, before);
    DailyMatches(slot.hour, cal, slot.day);
    SlotOrder(Slot(DayAt(z, before), HourAt(z, before), 59), dayBefore);
    assert FiresAt(spec, cal, z, slot, fire) && FiresAt(spec, cal, z, dayBefore, before);
    if !NextVisits(z, before, slot) {
      NextSkipsOnlyFired(spec, cal, z, slot, fire, before);
    }
    forall s, t | FiresAt(spec, cal, z, s, t) && t > before
      ensures fire <= t
    {
      SlotOrder(s, dayBefore);
      SlotOrder(slot, s);
      if LocalOf(s) <= LocalOf(dayBefore) {
        FiresInOrder(spec, cal, z, s, t, dayBefore, before);
      } else {
        FiresInOrder(spec, cal, z, slot, fire, s, t);
      }
    }
  }

  /**
   * At every instant at which the clock was ahead by more than the pruning allows for,
   * some daily job has an occurrence that, once it is the newest in the run log, every
   * plan accounts for again.
   */
  lemma RefiresWhenAhead(cal: Calendar, z: Zone, now: int) returns (cron: CronSpec, logged: int)
    requires Admissible(z) && ValidCalendar(cal) && !ClockNeverAhead(z, now)
    ensures WellFormed(cron) && Occurrence(cron, cal, z, logged) && logged <= now
    ensures forall runs, graceMs, plan :: NewestIs(runs, logged) ==>
              (PlansRecurring(cron, cal, z, runs, now, graceMs, None, plan) <==>
               plan == FireOrSkip(logged, now, graceMs))
  {
    var slot, before, fire := FindMissedSlot(cal, z, now);
    cron, logged := DailyAt(slot.hour), before;
    DailyMatches(slot.hour, cal, slot.day);
    assert FiresAt(cron, cal, z, Slot(slot.day - 1, slot.hour, 0), before);
    forall runs, graceMs, plan | NewestIs(runs, logged)
      ensures PlansRecurring(cron, cal, z, runs, now, graceMs, None, plan) <==> plan == FireOrSkip(logged, now, graceMs)
    {
      AgainIsPlan(cal, z, now, slot, before, fire, runs, graceMs);
      if PlansRecurring(cron, cal, z, runs, now, graceMs, None, plan) {
        PlanIsAgain(cal, z, now, slot, before, fire, runs, graceMs, plan);
      }
    }
  }

  lemma NewestIsBase(runs: seq<RunEntry>, t: int, now: int, base: int)
    requires NewestIs(runs, t)
    ensures IsBase(runs, None, now, base) <==> base == t
  {
    assert RunEntry(Some(t)).scheduledFor.Some?;
  }

  /** With the base and both searches' answers known there is only one plan. */
  lemma OnePlan(cron: CronSpec, cal: Calendar, z: Zone, runs: seq<RunEntry>, now: int, graceMs: int, plan: Plan,
                base: int, first: int, prev: int)
    requires PlansRecurring(cron, cal, z, runs, now, graceMs, None, plan) && first <= now
    requires forall b :: IsBase(runs, None, now, b) ==> b == base
    requires forall r :: IsNextRun(cron, cal, z, base, r) ==> r == Some(first)
    requires forall r :: IsPrevRun(cron, cal, z, now, r) ==> r == Some(prev)
    ensures plan == FireOrSkip(prev, now, graceMs)
  {
  }

  lemma PlanIsAgain(cal: Calendar, z: Zone, now: int, slot: Slot, before: int, fire: int,
                    runs: seq<RunEntry>, graceMs: int, plan: Plan)
    requires ValidCalendar(cal) && MissedSlot(cal, z, now, slot, before, fire) && NewestIs(runs, before)
    requires PlansRecurring(DailyAt(slot.hour), cal, z, runs, now, graceMs, None, plan)
    ensures plan == FireOrSkip(before, now, graceMs)
  {
    var cron := DailyAt(slot.hour);
    forall b | IsBase(runs, None, now, b)
      ensures b == before
    {
      NewestIsBase(runs, before, now, b);
    }
    forall r | IsNextRun(cron, cal, z, before, r)
      ensures r == Some(fire)
    {
      NextIsMissed(cal, z, now, slot, before, fire, r);
    }
    forall r | IsPrevRun(cron, cal, z, now, r)
      ensures r == Some(before)
    {
      PrevIsDayBefore(cal, z, now, slot, before, fire, r);
    }
    OnePlan(cron, cal, z, runs, now, graceMs, plan, before, fire, before);
  }

  lemma AgainIsPlan(cal: Calendar, z: Zone, now: int, slot: Slot, before: int, fire: int, runs: seq<RunEntry>,
                    graceMs: int)
    requires ValidCalendar(cal) && MissedSlot(cal, z, now, slot, before, fire) && NewestIs(runs, before)
    ensures PlansRecurring(DailyAt(slot.hour), cal, z, runs, now, graceMs, None, FireOrSkip(before, now, graceMs))
  {
    var cron, plan := DailyAt(slot.hour), FireOrSkip(before, now, graceMs);
    NextIsMissed(cal, z, now, slot, before, fire, Some(fire));
    PrevIsDayBefore(cal, z, now, slot, before, fire, Some(before));
    NewestIsBase(runs, before, now, before);
    assert IsRecurringPlan(cron, cal, z, runs, now, graceMs, None, plan, before, Some(fire), Some(before));
  }

  /** What a plan made now accounts for is later than the whole run log, whatever the job and the log. */
  ghost predicate AlwaysNew(cal: Calendar, z: Zone, now: int) {
    forall cron, runs, graceMs, since, plan ::
      WellFormed(cron) && PlansRecurring(cron, cal, z, runs, now, graceMs, since, plan) && plan.Accounts() ==>
        Newer(plan.scheduledFor, runs)
  }

  /** The planner never goes back exactly when the clock was never ahead by more than the pruning allows for. */
  lemma AlwaysNewExactly(cal: Calendar, z: Zone, now: int)
    requires Admissible(z) && ValidCalendar(cal)
    ensures AlwaysNew(cal, z, now) <==> ClockNeverAhead(z, now)
  {
    if ClockNeverAhead(z, now) {
      forall cron, runs, graceMs, since, plan |
        WellFormed(cron) && PlansRecurring(cron, cal, z, runs, now, graceMs, since, plan) && plan.Accounts()
        ensures Newer(plan.scheduledFor, runs)
      {
        AccountedIsNew(ValidJob(true, Recurring(cron)), cal, z, runs, now, graceMs, since, plan);
      }
    } else {
      var cron, logged := RefiresWhenAhead(cal, z, now);
      var runs := [RunEntry(Some(logged))];
      var plan := FireOrSkip(logged, now, 0);
      assert NewestIs(runs, logged);
      assert PlansRecurring(cron, cal, z, runs, now, 0, None, plan) && plan.Accounts() && runs[0] in runs;
    }
  }

  // -------------------------------------------------------------------------
  // An instance: a zone that went back a day

  /** Eleven hours ahead until instant 0, twelve hours behind from then on (the Kwajalein change of 1969). */
  function DateLineChange(): Zone {
    t => if t < 0 then 11 * HOUR else -12 * HOUR
  }

  /** `0 4,5 * * *` */
  function FourAndFive(): CronSpec {
    DailyAt(4).(hours := seq(24, h => h == 4 || h == 5))
  }

  /**
   * An hour after the change, with the 4:00 run of the repeated day in the log and
   * the 5:00 run missed, the planner accounts for a run older than the one logged,
   * and does so again however often that is written down.
   */
  lemma OversizedFallBackRefires(cal: Calendar, graceMs: int, runs: seq<RunEntry>, plan: Plan)
    requires ValidCalendar(cal)
    requires RunEntry(Some(-7 * HOUR)) in runs
    requires forall r <- runs :: r.scheduledFor.Some? ==> r.scheduledFor.value <= -7 * HOUR
    requires PlansRecurring(FourAndFive(), cal, DateLineChange(), runs, HOUR, graceMs, None, plan)
    ensures plan.Accounts() && plan.scheduledFor == -30 * HOUR
  {
    var z, cron := DateLineChange(), FourAndFive();
    var base, first, prev :| IsRecurringPlan(cron, cal, z, runs, HOUR, graceMs, None, plan, base, first, prev);
    BaseIsLogged(runs, base);
    NextFindsMissed(cal, first);
    PrevGoesBack(cal, prev);
  }

  /** The zone and the expression are ones the planner may be given. */
  lemma WholeSecond(s: int, t: int)
    requires s % 1000 == 0 && s <= t < s + 1000
    ensures DateLineChange()(t) == DateLineChange()(s)
  {
    assert s < 0 ==> s <= -1000;
  }

  lemma OneSwitch(a: int, b: int, c: int)
    requires a <= b <= c
    ensures DateLineChange()(b) == DateLineChange()(a) || DateLineChange()(b) == DateLineChange()(c)
  {
  }

  lemma OffsetOf(t: int)
    ensures -DAY < DateLineChange()(t) < DAY && DateLineChange()(t) % 1000 == 0
  {
  }

  lemma DateLineZone()
    ensures Admissible(DateLineChange())
  {
    var z := DateLineChange();
    forall t: int
      ensures -DAY < z(t) < DAY && z(t) % 1000 == 0
    {
      OffsetOf(t);
    }
    forall s, t | s % 1000 == 0 && s <= t < s + 1000
      ensures z(t) == z(s)
    {
      WholeSecond(s, t);
    }
    forall a, b, c | a <= b <= c <= a + 2 * DAY
      ensures z(b) == z(a) || z(b) == z(c)
    {
      OneSwitch(a, b, c);
    }
  }

  lemma DateLineChangeAdmissible()
    ensures Admissible(DateLineChange()) && WellFormed(FourAndFive())
    ensures !ClockNeverAhead(DateLineChange(), HOUR)
  {
    DateLineZone();
    assert Local(DateLineChange(), -1) >= LocalOf(PrunedFrom(DateLineChange(), HOUR));
  }

  lemma BaseIsLogged(runs: seq<RunEntry>, base: int)
    requires RunEntry(Some(-7 * HOUR)) in runs
    requires forall r <- runs :: r.scheduledFor.Some? ==> r.scheduledFor.value <= -7 * HOUR
    requires IsBase(runs, None, HOUR, base)
    ensures base == -7 * HOUR
  {
    assert RunEntry(Some(-7 * HOUR)).scheduledFor.Some?;
  }

  lemma NextFindsMissed(cal: Calendar, first: Option<int>)
    requires ValidCalendar(cal)
    requires IsNextRun(FourAndFive(), cal, DateLineChange(), -7 * HOUR, first)
    ensures first.Some? && first.value <= -6 * HOUR
  {
    MissedFires(cal);
    assert NextVisits(DateLineChange(), -7 * HOUR, Slot(0, 5, 0));
  }

  lemma MissedFires(cal: Calendar)
    requires ValidCalendar(cal)
    ensures FiresAt(FourAndFive(), cal, DateLineChange(), Slot(0, 5, 0), -6 * HOUR)
    ensures FiresAt(FourAndFive(), cal, DateLineChange(), Slot(-1, 5, 0), -30 * HOUR)
  {
  }

  lemma PrevGoesBack(cal: Calendar, prev: Option<int>)
    requires ValidCalendar(cal)
    requires IsPrevRun(FourAndFive(), cal, DateLineChange(), HOUR, prev)
    ensures prev == Some(-30 * HOUR)
  {
    var z, cron, dayBefore := DateLineChange(), FourAndFive(), Slot(-1, 5, 0);
    MissedFires(cal);
    assert PrevVisits(z, HOUR, dayBefore);
    var s :| PrevVisits(z, HOUR, s) && FiresAt(cron, cal, z, s, prev.value);
    assert 4 <= s.hour <= 5 && s.minute == 0 && s.day <= -1;
    SlotOrder(s, dayBefore);
    FiresInOrder(cron, cal, z, s, prev.value, dayBefore, -30 * HOUR);
  }
}
