/**
 * What holds of every run of the scheduler: a job is queued at most once and never
 * planned while it is in flight, sends to one session are kept apart, and no
 * occurrence of a job fires twice, restarts of the server included.
 */
module SchedulerRuns {
  import opened Options
  import opened Sequences
  import opened TimeZones
  import opened Cron
  import opened Planner
  import opened Scheduler

  // -------------------------------------------------------------------------
  // What the log says

  /** A send or a start sets a session's mark, a release clears it, a restart clears all. */
  function MarkStep(mark: Option<RunMark>, n: Note, file: File): Option<RunMark> {
    match n
    case InlineSent(_, f, at) => if f == file then Some(RunMark(at, false)) else mark
    case Began(f, at) => if f == file then Some(RunMark(at, true)) else mark
    case Released(f, _) => if f == file then None else mark
    case Restarted => None
    case _ => mark
  }

  function MarkOf(log: seq<Note>, file: File): Option<RunMark> {
    if |log| == 0 then None else MarkStep(MarkOf(log[..|log| - 1], file), log[|log| - 1], file)
  }

  /**
   * A job is in flight for an occurrence from when it is queued or started until it is
   * sent, created, dropped or lost.
   */
  function FlightStep(flight: Option<int>, n: Note, jobId: string): Option<int> {
    match n
    case Queued(j, t) => if j == jobId then Some(t) else flight
    case Starting(j, t) => if j == jobId then Some(t) else flight
    case Unqueued(j) => if j == jobId then None else flight
    case InlineSent(j, _, _) => if j == jobId then None else flight
    case Created(j) => if j == jobId then None else flight
    case Restarted => None
    case _ => flight
  }

  function FlightOf(log: seq<Note>, jobId: string): Option<int> {
    if |log| == 0 then None else FlightStep(FlightOf(log[..|log| - 1], jobId), log[|log| - 1], jobId)
  }

  /** Every occurrence recorded of the job is before `t`. */
  predicate AllBefore(log: seq<Note>, jobId: string, t: int) {
    forall k :: 0 <= k < |log| && log[k].Recorded? && log[k].jobId == jobId ==> log[k].scheduledFor < t
  }

  predicate WasFired(log: seq<Note>, jobId: string, t: int) {
    Recorded(jobId, t, Fired) in log
  }

  /** When a session's mark may be set or released. */
  predicate MarksAllow(log: seq<Note>, n: Note) {
    match n
    case InlineSent(_, f, _) => MarkOf(log, f).None?
    case Released(f, cause) =>
      cause.StartTimedOut? ==>
        MarkOf(log, f).Some? && !MarkOf(log, f).value.started
            && cause.now - MarkOf(log, f).value.at > CLI_START_TIMEOUT_MS
    case _ => true
  }

  /** When a job may be planned, queued or started, and when an occurrence may fire. */
  predicate FlightsAllow(log: seq<Note>, n: Note) {
    match n
    case Planned(j) => FlightOf(log, j).None?
    case Queued(j, _) => FlightOf(log, j).None?
    case Starting(j, _) => FlightOf(log, j).None?
    case Recorded(j, t, outcome) => outcome.Fired? ==> AllBefore(log, j, t)
    case _ => true
  }

  predicate GoodMarks(log: seq<Note>) {
    forall k :: 0 <= k < |log| ==> MarksAllow(log[..k], log[k])
  }

  predicate GoodFlights(log: seq<Note>) {
    forall k :: 0 <= k < |log| ==> FlightsAllow(log[..k], log[k])
  }

  lemma PrefixesMore(log: seq<Note>, n: Note)
    ensures forall k :: 0 <= k <= |log| ==> (log + [n])[..k] == log[..k]
    ensures log[..|log|] == log
  {
  }

  lemma GoodMore(log: seq<Note>, n: Note)
    ensures GoodMarks(log) && MarksAllow(log, n) ==> GoodMarks(log + [n])
    ensures GoodFlights(log) && FlightsAllow(log, n) ==> GoodFlights(log + [n])
  {
    PrefixesMore(log, n);
  }

  lemma MarkMore(log: seq<Note>, n: Note, file: File)
    ensures MarkOf(log + [n], file) == MarkStep(MarkOf(log, file), n, file)
  {
    assert (log + [n])[..|log|] == log;
  }

  // -------------------------------------------------------------------------
  // The invariant

  function PendingFor(pending: seq<Entry>, jobId: string): Option<int> {
    if |pending| == 0 then None
    else if pending[0].jobId == jobId then Some(pending[0].scheduledFor)
    else PendingFor(pending[1..], jobId)
  }

  function InFlightFor(s: Scheduling, jobId: string): Option<int> {
    if jobId in s.starting then Some(s.starting[jobId]) else PendingFor(s.pending, jobId)
  }

  function MarkIn(s: Scheduling, file: File): Option<RunMark> {
    if file in s.runs then Some(s.runs[file]) else None
  }

  predicate OnePending(s: Scheduling) {
    && (forall i, j :: 0 <= i < j < |s.pending| ==> s.pending[i].jobId != s.pending[j].jobId)
    && (forall i :: 0 <= i < |s.pending| ==> s.pending[i].jobId !in s.starting)
  }

  ghost predicate MarksMirror(s: Scheduling) {
    forall f :: MarkOf(s.log, f) == MarkIn(s, f)
  }

  ghost predicate FlightsMirror(s: Scheduling) {
    forall j :: FlightOf(s.log, j) == InFlightFor(s, j)
  }

  ghost predicate FlightsNew(s: Scheduling) {
    forall j :: InFlightFor(s, j).Some? ==> AllBefore(s.log, j, InFlightFor(s, j).value)
  }

  /** The head a drain waits with is still the head of the queue. */
  predicate AwaitedIsHead(s: Scheduling) {
    s.awaiting.Some? ==> |s.pending| > 0 && s.pending[0] == s.awaiting.value
  }

  ghost predicate FlightInv(s: Scheduling) {
    GoodFlights(s.log) && FlightsMirror(s) && FlightsNew(s) && AwaitedIsHead(s)
  }

  /** The invariant of every run, and with `plausible` of the plausible ones. */
  ghost predicate Inv(s: Scheduling, plausible: bool) {
    OnePending(s) && GoodMarks(s.log) && MarksMirror(s) && (plausible ==> FlightInv(s))
  }

  /** A planner only answers with occurrences later than every recorded one. */
  ghost predicate PlansNew(planFor: PlanFor) {
    forall job, log :: planFor(job, log).Accounts() ==> AllBefore(log, job.id, planFor(job, log).scheduledFor)
  }

  lemma {:induction false} PendingIff(pending: seq<Entry>, jobId: string)
    ensures PendingFor(pending, jobId).Some? <==> IsPending(pending, jobId)
  {
    if |pending| > 0 {
      PendingIff(pending[1..], jobId);
      if IsPending(pending, jobId) {
        var k :| 0 <= k < |pending| && pending[k].jobId == jobId;
        assert k > 0 ==> pending[1..][k - 1] == pending[k];
      }
    }
  }

  lemma InFlightIff(s: Scheduling, jobId: string)
    ensures InFlightFor(s, jobId).Some? <==> InFlight(s, jobId)
  {
    PendingIff(s.pending, jobId);
  }

  // -------------------------------------------------------------------------
  // Each step

  /** A step that notes `n` and does to the marks what `n` says. */
  ghost predicate StepsBy(s: Scheduling, t: Scheduling, n: Note) {
    t.log == s.log + [n] && forall f :: MarkIn(t, f) == MarkStep(MarkIn(s, f), n, f)
  }

  ghost predicate FliesBy(s: Scheduling, t: Scheduling, n: Note) {
    forall j :: InFlightFor(t, j) == FlightStep(InFlightFor(s, j), n, j)
  }

  /** What the flights ask of a note. */
  predicate MayNote(s: Scheduling, n: Note) {
    && FlightsAllow(s.log, n)
    && (n.Queued? || n.Starting? ==> AllBefore(s.log, n.jobId, n.scheduledFor))
    && (n.Recorded? ==> InFlightFor(s, n.jobId).None? || WasFired(s.log, n.jobId, n.scheduledFor))
  }

  lemma StepKeeps(s: Scheduling, t: Scheduling, n: Note, plausible: bool)
    requires Inv(s, plausible) && MarksAllow(s.log, n) && StepsBy(s, t, n) && OnePending(t)
    requires plausible ==> MayNote(s, n) && FliesBy(s, t, n) && AwaitedIsHead(t)
    ensures Inv(t, plausible)
  {
    GoodMore(s.log, n);
    forall f
      ensures MarkOf(t.log, f) == MarkIn(t, f)
    {
      MarkMore(s.log, n, f);
    }
    if plausible {
    }
  }

  lemma RecordKeeps(s: Scheduling, jobId: string, t: int, outcome: Outcome, plausible: bool)
    requires Inv(s, plausible) && (plausible ==> MayNote(s, Recorded(jobId, t, outcome)))
    ensures Inv(Noted(s, Recorded(jobId, t, outcome)), plausible)
  {
    StepKeeps(s, Noted(s, Recorded(jobId, t, outcome)), Recorded(jobId, t, outcome), plausible);
  }

  lemma PlannedKeeps(s: Scheduling, jobId: string, plausible: bool)
    requires Inv(s, plausible) && !InFlight(s, jobId)
    ensures Inv(Noted(s, Planned(jobId)), plausible)
  {
    InFlightIff(s, jobId);
    StepKeeps(s, Noted(s, Planned(jobId)), Planned(jobId), plausible);
  }

  lemma ReleaseKeeps(s: Scheduling, file: File, cause: Cause, plausible: bool)
    requires Inv(s, plausible) && MarksAllow(s.log, Released(file, cause))
    ensures Inv(Release(s, file, cause), plausible)
  {
    StepKeeps(s, Release(s, file, cause), Released(file, cause), plausible);
  }

  lemma BeganKeeps(s: Scheduling, file: File, now: int, plausible: bool)
    requires Inv(s, plausible)
    ensures Inv(Noted(s.(runs := s.runs[file := RunMark(now, true)]), Began(file, now)), plausible)
  {
    StepKeeps(s, Noted(s.(runs := s.runs[file := RunMark(now, true)]), Began(file, now)), Began(file, now), plausible);
  }

  lemma {:induction false} PendingMore(pending: seq<Entry>, e: Entry, jobId: string)
    ensures PendingFor(pending + [e], jobId) ==
            if PendingFor(pending, jobId).Some? then PendingFor(pending, jobId)
            else if e.jobId == jobId then Some(e.scheduledFor) else None
  {
    if |pending| == 0 {
      assert pending + [e] == [e] && [e][1..] == [];
    } else {
      assert (pending + [e])[1..] == pending[1..] + [e];
      PendingMore(pending[1..], e, jobId);
    }
  }

  lemma QueueKeeps(s: Scheduling, e: Entry, plausible: bool)
    requires Inv(s, plausible) && !InFlight(s, e.jobId) && (plausible ==> AllBefore(s.log, e.jobId, e.scheduledFor))
    ensures Inv(Noted(s.(pending := s.pending + [e]), Queued(e.jobId, e.scheduledFor)), plausible)
  {
    var n, t := Queued(e.jobId, e.scheduledFor), Noted(s.(pending := s.pending + [e]), Queued(e.jobId, e.scheduledFor));
    InFlightIff(s, e.jobId);
    forall j
      ensures InFlightFor(t, j) == FlightStep(InFlightFor(s, j), n, j)
    {
      PendingMore(s.pending, e, j);
      PendingIff(s.pending, j);
    }
    StepKeeps(s, t, n, plausible);
  }

  lemma StartKeeps(s: Scheduling, jobId: string, t: int, plausible: bool)
    requires Inv(s, plausible) && !InFlight(s, jobId) && (plausible ==> AllBefore(s.log, jobId, t))
    ensures Inv(Noted(s.(starting := s.starting[jobId := t]), Starting(jobId, t)), plausible)
  {
    InFlightIff(s, jobId);
    StepKeeps(s, Noted(s.(starting := s.starting[jobId := t]), Starting(jobId, t)), Starting(jobId, t), plausible);
  }

  lemma VisitKeeps(s: Scheduling, job: Job, planFor: PlanFor, plausible: bool)
    requires Inv(s, plausible) && (plausible ==> PlansNew(planFor))
    ensures Inv(Visit(s, job, planFor), plausible)
  {
    if !InFlight(s, job.id) {
      InFlightIff(s, job.id);
      var t := Noted(s, Planned(job.id));
      PlannedKeeps(s, job.id, plausible);
      match planFor(job, t.log)
      case Due(_, scheduledFor) =>
        if job.shell {
          RecordKeeps(t, job.id, scheduledFor, Refused, plausible);
        } else if job.mode.Inline? {
          QueueKeeps(t, Entry(job.id, scheduledFor), plausible);
        } else {
          StartKeeps(t, job.id, scheduledFor, plausible);
        }
      case Missed(_, scheduledFor) => RecordKeeps(t, job.id, scheduledFor, Skipped, plausible);
      case _ =>
    }
  }

  lemma {:induction false} VisitAllKeeps(s: Scheduling, jobs: seq<Job>, n: nat, planFor: PlanFor, plausible: bool)
    requires n <= |jobs| && Inv(s, plausible) && (plausible ==> PlansNew(planFor))
    ensures Inv(VisitAll(s, jobs, n, planFor), plausible) && VisitAll(s, jobs, n, planFor).awaiting == s.awaiting
  {
    if n > 0 {
      VisitAllKeeps(s, jobs, n - 1, planFor, plausible);
      VisitKeeps(VisitAll(s, jobs, n - 1, planFor), jobs[n - 1], planFor, plausible);
    }
  }

  lemma {:induction false} PendingConcat(a: seq<Entry>, b: seq<Entry>, jobId: string)
    ensures PendingFor(a + b, jobId) == if PendingFor(a, jobId).Some? then PendingFor(a, jobId)
                                        else PendingFor(b, jobId)
  {
    if |a| == 0 {
      assert a + b == b;
    } else {
      assert (a + b)[1..] == a[1..] + b;
      PendingConcat(a[1..], b, jobId);
    }
  }

  /** Taking the entry at `k` out of the queue ends that job's flight and no other's. */
  lemma TakenOut(s: Scheduling, k: nat, jobId: string)
    requires OnePending(s) && k < |s.pending|
    ensures PendingFor(s.pending[..k] + s.pending[k + 1..], jobId) ==
            if jobId == s.pending[k].jobId then None else PendingFor(s.pending, jobId)
    ensures PendingFor(s.pending, s.pending[k].jobId) == Some(s.pending[k].scheduledFor)
  {
    var a, e, b := s.pending[..k], s.pending[k], s.pending[k + 1..];
    assert s.pending == a + ([e] + b);
    PendingConcat(a, [e] + b, jobId);
    PendingConcat([e], b, jobId);
    PendingConcat(a, b, jobId);
    PendingConcat(a, [e] + b, e.jobId);
    PendingConcat([e], b, e.jobId);
    PendingIff(a, e.jobId);
    PendingIff(b, e.jobId);
    assert [e][1..] == [];
  }

  lemma UnqueueKeeps(s: Scheduling, k: nat, plausible: bool)
    requires Inv(s, plausible) && k < |s.pending| && (plausible && k == 0 ==> s.awaiting.None?)
    ensures var t := Noted(s.(pending := s.pending[..k] + s.pending[k + 1..]), Unqueued(s.pending[k].jobId));
            Inv(t, plausible) && InFlightFor(t, s.pending[k].jobId).None?
  {
    var n := Unqueued(s.pending[k].jobId);
    var t := Noted(s.(pending := s.pending[..k] + s.pending[k + 1..]), n);
    forall j
      ensures InFlightFor(t, j) == FlightStep(InFlightFor(s, j), n, j)
    {
      TakenOut(s, k, j);
    }
    StepKeeps(s, t, n, plausible);
  }

  lemma {:induction false} FilterKeeps(s: Scheduling, kept: seq<Entry>, rest: seq<Entry>, keep: set<string>,
                                       plausible: bool)
    requires Inv(s, plausible) && s.pending == kept + rest
    requires plausible && s.awaiting.Some? ==> s.awaiting.value.jobId in keep
    ensures Inv(s.(pending := kept + KeepOnly(rest, keep), log := s.log + Drops(rest, keep)), plausible)
    decreases |rest|
  {
    if |rest| == 0 {
      assert kept + [] == s.pending && s.log + [] == s.log;
    } else {
      var e, more := rest[0], rest[1..];
      assert rest == [e] + more;
      if e.jobId in keep {
        Regroup(kept, [e], more);
        Regroup(kept, [e], KeepOnly(more, keep));
        FilterKeeps(s, kept + [e], more, keep, plausible);
      } else {
        assert s.pending[|kept|] == e;
        UnqueueKeeps(s, |kept|, plausible);
        assert s.pending[..|kept|] == kept && s.pending[|kept| + 1..] == more;
        Regroup(s.log, [Unqueued(e.jobId)], Drops(more, keep));
        FilterKeeps(Noted(s.(pending := kept + more), Unqueued(e.jobId)), kept, more, keep, plausible);
      }
    }
  }

  lemma FilteredKeeps(s: Scheduling, keep: set<string>, plausible: bool)
    requires Inv(s, plausible) && (plausible && s.awaiting.Some? ==> s.awaiting.value.jobId in keep)
    ensures Inv(Filtered(s, keep), plausible)
  {
    assert [] + s.pending == s.pending && [] + KeepOnly(s.pending, keep) == KeepOnly(s.pending, keep);
    FilterKeeps(s, [], s.pending, keep, plausible);
  }

  /** A session found idle carries no mark. */
  lemma CheckIdleKeeps(s: Scheduling, file: File, pool: Pool, now: int, plausible: bool)
    requires Inv(s, plausible)
    ensures var (t, idle) := CheckIdle(s, file, pool, now);
            Inv(t, plausible) && t.pending == s.pending && t.awaiting == s.awaiting && (idle ==> file !in t.runs)
  {
    var session := pool(file);
    assert MarkOf(s.log, file) == MarkIn(s, file);
    if session.None? {
      ReleaseKeeps(s, file, Evicted, plausible);
    } else if !session.value.streaming && file in s.runs {
      var mark := s.runs[file];
      if session.value.cli && !mark.started && now - mark.at > CLI_START_TIMEOUT_MS {
        ReleaseKeeps(s, file, StartTimedOut(now), plausible);
      }
    }
  }

  /** A head taken out for `n`, which ends its flight. */
  lemma ShiftKeeps(s: Scheduling, t: Scheduling, head: Entry, n: Note, plausible: bool)
    requires Inv(s, plausible) && s.awaiting.None? && MarksAllow(s.log, n) && StepsBy(s, t, n)
    requires (n.Unqueued? || n.InlineSent?) && n.jobId == head.jobId
    requires t.pending == Shifted(s).pending && t.starting == s.starting && t.awaiting.None?
    requires plausible ==> |s.pending| > 0 && s.pending[0] == head
    ensures Inv(t, plausible)
    ensures plausible ==> AllBefore(s.log, head.jobId, head.scheduledFor) && InFlightFor(t, head.jobId).None?
  {
    if plausible {
      assert s.pending[..0] + s.pending[1..] == s.pending[1..];
      forall j
        ensures InFlightFor(t, j) == FlightStep(InFlightFor(s, j), n, j)
      {
        TakenOut(s, 0, j);
      }
      TakenOut(s, 0, head.jobId);
      assert InFlightFor(s, head.jobId) == Some(head.scheduledFor);
    }
    StepKeeps(s, t, n, plausible);
  }

  lemma SendHeadKeeps(s: Scheduling, head: Entry, file: File, now: int, plausible: bool)
    requires Inv(s, plausible) && s.awaiting.None? && file !in s.runs
    requires plausible ==> |s.pending| > 0 && s.pending[0] == head
    ensures Inv(SendHead(s, head, file, now), plausible)
  {
    var t := Noted(Shifted(s).(runs := s.runs[file := RunMark(now, false)]), InlineSent(head.jobId, file, now));
    assert MarkOf(s.log, file) == MarkIn(s, file);
    ShiftKeeps(s, t, head, InlineSent(head.jobId, file, now), plausible);
    RecordKeeps(t, head.jobId, head.scheduledFor, Fired, plausible);
  }

  lemma FailHeadKeeps(s: Scheduling, head: Entry, plausible: bool)
    requires Inv(s, plausible) && s.awaiting.None?
    requires plausible ==> |s.pending| > 0 && s.pending[0] == head
    ensures Inv(FailHead(s, head), plausible)
  {
    var t := Noted(Shifted(s), Unqueued(head.jobId));
    ShiftKeeps(s, t, head, Unqueued(head.jobId), plausible);
    RecordKeeps(t, head.jobId, head.scheduledFor, Failed, plausible);
  }

  lemma {:induction false} LookedKeeps(s: Scheduling, a: Answers, plausible: bool)
    requires Inv(s, plausible) && s.awaiting.None?
    ensures Inv(Looked(s, a), plausible)
    decreases |s.pending|
  {
    if |s.pending| > 0 {
      var head := s.pending[0];
      var job := FindJob(s.valid, head.jobId);
      if job.None? || !job.value.enabled {
        ShiftKeeps(s, Unqueue(s), head, Unqueued(head.jobId), plausible);
        LookedKeeps(Unqueue(s), a, plausible);
      } else if a.current.Some? {
        CheckIdleKeeps(s, a.current.value, a.pool, a.now, plausible);
        AwaitKeeps(CheckIdle(s, a.current.value, a.pool, a.now).0, plausible);
      } else {
        AwaitKeeps(s, plausible);
      }
    }
  }

  lemma AwaitKeeps(s: Scheduling, plausible: bool)
    requires Inv(s, plausible) && |s.pending| > 0
    ensures Inv(s.(awaiting := Some(s.pending[0])), plausible)
  {
  }

  lemma DrainedKeeps(s: Scheduling, a: Answers, plausible: bool)
    requires Inv(s, plausible)
    ensures Inv(Drained(s, a), plausible)
  {
    if s.awaiting.None? {
      LookedKeeps(s, a, plausible);
    }
  }

  lemma ResumedKeeps(s: Scheduling, ensured: Option<File>, a: Answers, plausible: bool)
    requires Inv(s, plausible) && s.awaiting.Some?
    ensures Inv(Resumed(s, ensured, a), plausible)
  {
    var head, t := s.awaiting.value, s.(awaiting := None);
    if ensured.None? {
      FailHeadKeeps(t, head, plausible);
      LookedKeeps(FailHead(t, head), a, plausible);
    } else {
      CheckIdleKeeps(t, ensured.value, a.pool, a.now, plausible);
      var (u, ready) := CheckIdle(t, ensured.value, a.pool, a.now);
      if ready {
        SendHeadKeeps(u, head, ensured.value, a.now, plausible);
      }
    }
  }

  lemma CreatedKeeps(s: Scheduling, jobId: string, outcome: Outcome, plausible: bool)
    requires Inv(s, plausible) && jobId in s.starting
    ensures Inv(Noted(Noted(s.(starting := s.starting - {jobId}), Created(jobId)),
                      Recorded(jobId, s.starting[jobId], outcome)), plausible)
  {
    var t := Noted(s.(starting := s.starting - {jobId}), Created(jobId));
    assert InFlightFor(s, jobId) == Some(s.starting[jobId]);
    PendingIff(s.pending, jobId);
    StepKeeps(s, t, Created(jobId), plausible);
    RecordKeeps(t, jobId, s.starting[jobId], outcome, plausible);
  }

  lemma RestartKeeps(s: Scheduling, plausible: bool)
    requires Inv(s, plausible)
    ensures Inv(Loaded(s.log), plausible)
  {
    StepKeeps(s, Loaded(s.log), Restarted, plausible);
  }

  /** A failure is reported for an occurrence that was fired, and the planner plans only new ones. */
  ghost predicate Honest(s: Scheduling, e: Event) {
    match e
    case Tick(_, planFor, _) => PlansNew(planFor)
    case InlineFailed(jobId, t, _, _) => WasFired(s.log, jobId, t)
    case IsolatedFailed(jobId, t) => WasFired(s.log, jobId, t)
    case _ => true
  }

  /** The job a drain waits with is not removed, and its entry in the file stays valid. */
  predicate KeepsAwaited(s: Scheduling, e: Event) {
    s.awaiting.Some? ==>
      match e
      case Tick(read, _, _) => s.awaiting.value.jobId in Ids(read)
      case JobRemoved(id) => s.awaiting.value.jobId != id
      case _ => true
  }

  ghost predicate Plausible(s: Scheduling, e: Event) {
    Honest(s, e) && KeepsAwaited(s, e)
  }

  lemma TickedKeeps(s: Scheduling, read: seq<Job>, planFor: PlanFor, a: Answers, plausible: bool)
    requires Inv(s, plausible) && (plausible ==> Plausible(s, Tick(read, planFor, a)))
    ensures Inv(Ticked(s, read, planFor, a), plausible)
  {
    var t := s.(valid := read);
    VisitAllKeeps(t, read, |read|, planFor, plausible);
    var u := VisitAll(t, read, |read|, planFor);
    FilteredKeeps(u, Ids(read), plausible);
    DrainedKeeps(Filtered(u, Ids(read)), a, plausible);
  }

  lemma RemovedKeeps(s: Scheduling, id: string, plausible: bool)
    requires Inv(s, plausible) && (plausible ==> Plausible(s, JobRemoved(id)))
    ensures Inv(Happened(s, JobRemoved(id)), plausible)
  {
    FilteredKeeps(s, (set p <- s.pending :: p.jobId) - {id}, plausible);
  }

  lemma ReleasedKeeps(s: Scheduling, file: File, cause: Cause, a: Answers, plausible: bool)
    requires Inv(s, plausible) && !cause.StartTimedOut?
    ensures Inv(Drained(Release(s, file, cause), a), plausible)
  {
    ReleaseKeeps(s, file, cause, plausible);
    DrainedKeeps(Release(s, file, cause), a, plausible);
  }

  lemma HappenedKeeps(s: Scheduling, e: Event, plausible: bool)
    requires Inv(s, plausible) && (plausible ==> Plausible(s, e))
    ensures Inv(Happened(s, e), plausible)
  {
    match e
    case Tick(read, planFor, a) => TickedKeeps(s, read, planFor, a, plausible);
    case JobRemoved(id) => RemovedKeeps(s, id, plausible);
    case AgentStart(file, now) => BeganKeeps(s, file, now, plausible);
    case AgentSettled(file, a) => ReleasedKeeps(s, file, Settled, a, plausible);
    case AgentEnd(file, _, a) => ReleasedKeeps(s, file, EndedWithoutSettle, a, plausible);
    case InlineDone(file, _, a) => ReleasedKeeps(s, file, SendDone, a, plausible);
    case InlineFailed(jobId, t, file, a) =>
      RecordKeeps(s, jobId, t, Failed, plausible);
      ReleasedKeeps(Noted(s, Recorded(jobId, t, Failed)), file, SendFailed, a, plausible);
    case IsolatedCreated(jobId, created) =>
      if jobId in s.starting {
        CreatedKeeps(s, jobId, if created then Fired else Failed, plausible);
      }
    case IsolatedFailed(jobId, t) => RecordKeeps(s, jobId, t, Failed, plausible);
    case Ensured(ensured, a) =>
      if s.awaiting.Some? {
        ResumedKeeps(s, ensured, a, plausible);
      }
    case Restart => RestartKeeps(s, plausible);
  }

  const START := Loaded([])

  function Run(events: seq<Event>): Scheduling {
    if |events| == 0 then START else Happened(Run(events[..|events| - 1]), events[|events| - 1])
  }

  ghost predicate PlausibleRun(events: seq<Event>) {
    forall k :: 0 <= k < |events| ==> Plausible(Run(events[..k]), events[k])
  }

  lemma {:induction false} RunKeeps(events: seq<Event>, plausible: bool)
    requires plausible ==> PlausibleRun(events)
    ensures Inv(Run(events), plausible)
  {
    if |events| > 0 {
      var before := events[..|events| - 1];
      assert forall k :: 0 <= k < |before| ==> before[..k] == events[..k];
      RunKeeps(before, plausible);
      HappenedKeeps(Run(before), events[|events| - 1], plausible);
    } else {
      assert forall f :: MarkOf([], f) == None;
      RestartKeeps(Scheduling([], [], map[], map[], None, []), plausible);
    }
  }

  // -------------------------------------------------------------------------
  // Main results

  /** In every reachable state a job waits at most once, and not while it is being started. */
  lemma JobWaitsOnce(events: seq<Event>)
    ensures OnePending(Run(events))
  {
    RunKeeps(events, false);
  }

  predicate Frees(n: Note, file: File) {
    (n.Released? && n.file == file) || n.Restarted?
  }

  lemma {:induction false} MarkHeld(log: seq<Note>, i: nat, j: nat, file: File)
    requires i < j <= |log| && log[i].InlineSent? && log[i].file == file
    requires forall k :: i < k < j ==> !Frees(log[k], file)
    ensures MarkOf(log[..j], file).Some?
    decreases j
  {
    assert log[..j][..j - 1] == log[..j - 1] && log[..j][j - 1] == log[j - 1];
    if j > i + 1 {
      MarkHeld(log, i, j - 1, file);
    }
  }

  /**
   * Between two inline sends to one session there was a settle, the end of a run of a
   * session that reports no settle, the end or failure of a send, an eviction, a start
   * that timed out, or a restart of the server.
   */
  lemma SendsApart(events: seq<Event>, i: nat, j: nat, file: File)
    requires var log := Run(events).log;
             i < j < |log| && log[i].InlineSent? && log[j].InlineSent? && log[i].file == log[j].file == file
    ensures var log := Run(events).log; exists k :: i < k < j && Frees(log[k], file)
  {
    var log := Run(events).log;
    RunKeeps(events, false);
    assert MarksAllow(log[..j], log[j]);
    if forall k :: i < k < j ==> !Frees(log[k], file) {
      MarkHeld(log, i, j, file);
    }
  }

  predicate Lands(n: Note, jobId: string) {
    ((n.Unqueued? || n.InlineSent? || n.Created?) && n.jobId == jobId) || n.Restarted?
  }

  lemma {:induction false} FlightHeld(log: seq<Note>, i: nat, j: nat, jobId: string)
    requires i < j <= |log| && (log[i].Queued? || log[i].Starting?) && log[i].jobId == jobId
    requires forall k :: i < k < j ==> !Lands(log[k], jobId)
    ensures FlightOf(log[..j], jobId).Some?
    decreases j
  {
    assert log[..j][..j - 1] == log[..j - 1] && log[..j][j - 1] == log[j - 1];
    if j > i + 1 {
      FlightHeld(log, i, j - 1, jobId);
    }
  }

  /**
   * Once queued or started, a job is not planned again until it was sent, created or
   * dropped, or the server restarts.
   */
  lemma NotPlannedInFlight(events: seq<Event>, i: nat, j: nat, jobId: string)
    requires PlausibleRun(events)
    requires var log := Run(events).log;
             i < j < |log| && (log[i].Queued? || log[i].Starting?) && log[i].jobId == jobId && log[j] == Planned(jobId)
    ensures var log := Run(events).log; exists k :: i < k < j && Lands(log[k], jobId)
  {
    var log := Run(events).log;
    RunKeeps(events, true);
    assert FlightsAllow(log[..j], log[j]);
    if forall k :: i < k < j ==> !Lands(log[k], jobId) {
      FlightHeld(log, i, j, jobId);
    }
  }

  /**
   * No occurrence of a job fires twice, whatever restarts lie between: each run is for
   * a later one than every run recorded before.
   */
  lemma FiresOnce(events: seq<Event>, i: nat, j: nat)
    requires PlausibleRun(events)
    requires var log := Run(events).log;
             i < j < |log| && log[i].Recorded? && log[j].Recorded? && log[i].jobId == log[j].jobId
                 && log[j].outcome.Fired?
    ensures var log := Run(events).log; log[i].scheduledFor < log[j].scheduledFor
  {
    var log := Run(events).log;
    RunKeeps(events, true);
    assert FlightsAllow(log[..j], log[j]);
    assert log[..j][i] == log[i];
  }

  /** A start only times out when no `agent_start` followed the mark, which is more than a minute old. */
  lemma TimeoutIsOverdue(events: seq<Event>, k: nat)
    requires var log := Run(events).log; k < |log| && log[k].Released? && log[k].cause.StartTimedOut?
    ensures var log := Run(events).log;
            exists i :: 0 <= i < k && log[i].InlineSent? && log[i].file == log[k].file
              && log[k].cause.now - log[i].at > CLI_START_TIMEOUT_MS
              && forall m :: i < m < k ==> !(log[m].Began? && log[m].file == log[k].file) && !log[m].Restarted?
  {
    var log := Run(events).log;
    RunKeeps(events, false);
    assert MarksAllow(log[..k], log[k]);
    MarkedBySend(log, k, log[k].file);
  }

  lemma {:induction false} MarkedBySend(log: seq<Note>, k: nat, file: File)
    requires k <= |log| && MarkOf(log[..k], file).Some? && !MarkOf(log[..k], file).value.started
    ensures exists i ::
              && 0 <= i < k && log[i].InlineSent? && log[i].file == file
              && log[i].at == MarkOf(log[..k], file).value.at
              && forall m :: i < m < k ==> !(log[m].Began? && log[m].file == file) && !log[m].Restarted?
    decreases k
  {
    if k > 0 {
      assert log[..k][..k - 1] == log[..k - 1] && log[..k][k - 1] == log[k - 1];
      if log[k - 1].InlineSent? && log[k - 1].file == file {
        assert log[k - 1].at == MarkOf(log[..k], file).value.at;
      } else {
        MarkedBySend(log, k - 1, file);
      }
    }
  }

  // -------------------------------------------------------------------------
  // The wait for the current session

  lemma {:induction false} KeptOnly(pending: seq<Entry>, keep: set<string>)
    ensures forall e <- KeepOnly(pending, keep) :: e.jobId in keep
  {
    if |pending| > 0 {
      KeptOnly(pending[1..], keep);
    }
  }

  /** A run of a job is for a later occurrence than every one recorded for it before. */
  predicate FiresNewer(log: seq<Note>) {
    forall i, k :: 0 <= i < k < |log| && log[i].Recorded? && log[k].Recorded? ==>
        log[i].jobId == log[k].jobId && log[k].outcome.Fired? ==> log[i].scheduledFor < log[k].scheduledFor
  }

  lemma GoodFiresNewer(log: seq<Note>)
    requires GoodFlights(log)
    ensures FiresNewer(log)
  {
    forall i, k | 0 <= i < k < |log| && log[i].Recorded? && log[k].Recorded?
      ensures log[i].jobId == log[k].jobId && log[k].outcome.Fired? ==> log[i].scheduledFor < log[k].scheduledFor
    {
      assert FlightsAllow(log[..k], log[k]) && log[..k][i] == log[i];
    }
  }

  /** The state after `s` and these events. */
  function RunFrom(s: Scheduling, events: seq<Event>): Scheduling
    decreases |events|
  {
    if |events| == 0 then s else RunFrom(Happened(s, events[0]), events[1..])
  }

  ghost predicate PlausibleFrom(s: Scheduling, events: seq<Event>)
    decreases |events|
  {
    |events| > 0 ==> Plausible(s, events[0]) && PlausibleFrom(Happened(s, events[0]), events[1..])
  }

  /** However it goes on, no occurrence fires twice. */
  ghost predicate SafeFrom(s: Scheduling) {
    forall events :: PlausibleFrom(s, events) ==> FiresNewer(RunFrom(s, events).log)
  }

  lemma {:induction false} FromKeeps(s: Scheduling, events: seq<Event>)
    requires Inv(s, true) && PlausibleFrom(s, events)
    ensures Inv(RunFrom(s, events), true)
    decreases |events|
  {
    if |events| > 0 {
      HappenedKeeps(s, events[0], true);
      FromKeeps(Happened(s, events[0]), events[1..]);
    }
  }

  lemma InvIsSafe(s: Scheduling)
    requires Inv(s, true)
    ensures SafeFrom(s)
  {
    forall events | PlausibleFrom(s, events)
      ensures FiresNewer(RunFrom(s, events).log)
    {
      FromKeeps(s, events);
      GoodFiresNewer(RunFrom(s, events).log);
    }
  }

  // -------------------------------------------------------------------------
  // A step that drops the awaited head

  function JobsOf(n: Note): set<string> {
    match n
    case Planned(j) => {j}
    case Queued(j, _) => {j}
    case Unqueued(j) => {j}
    case Starting(j, _) => {j}
    case Created(j) => {j}
    case Recorded(j, _, _) => {j}
    case InlineSent(j, _, _) => {j}
    case _ => {}
  }

  predicate Unmentioned(log: seq<Note>, jobId: string) {
    forall n <- log :: jobId !in JobsOf(n)
  }

  lemma VisitOther(s: Scheduling, job: Job, planFor: PlanFor, jobId: string, t: int)
    requires job.id != jobId && AllBefore(s.log, jobId, t)
    ensures var r := Visit(s, job, planFor);
            AllBefore(r.log, jobId, t) && (jobId in r.starting <==> jobId in s.starting)
  {
  }

  /** A tick records nothing of a job it does not visit, and starts it no more. */
  lemma {:induction false} VisitOthers(s: Scheduling, jobs: seq<Job>, n: nat, planFor: PlanFor, jobId: string, t: int)
    requires n <= |jobs| && jobId !in Ids(jobs) && AllBefore(s.log, jobId, t)
    ensures var r := VisitAll(s, jobs, n, planFor);
            AllBefore(r.log, jobId, t) && (jobId in r.starting <==> jobId in s.starting)
  {
    if n > 0 {
      VisitOthers(s, jobs, n - 1, planFor, jobId, t);
      assert jobs[n - 1].id in Ids(jobs);
      VisitOther(VisitAll(s, jobs, n - 1, planFor), jobs[n - 1], planFor, jobId, t);
    }
  }

  lemma {:induction false} DropsUnqueue(pending: seq<Entry>, keep: set<string>)
    ensures forall n <- Drops(pending, keep) :: n.Unqueued? && n.jobId !in keep && IsPending(pending, n.jobId)
  {
    if |pending| > 0 {
      DropsUnqueue(pending[1..], keep);
      assert forall k :: 0 <= k < |pending| - 1 ==> pending[1..][k] == pending[k + 1];
    }
  }

  /** The awaited job is out of the queue, with nothing as late recorded for it. */
  predicate Dropped(s: Scheduling) {
    s.awaiting.Some? && !InFlight(s, s.awaiting.value.jobId)
        && AllBefore(s.log, s.awaiting.value.jobId, s.awaiting.value.scheduledFor)
  }

  lemma AwaitedIsNew(s: Scheduling)
    requires Inv(s, true) && s.awaiting.Some?
    ensures var e := s.awaiting.value;
            e.jobId !in s.starting && AllBefore(s.log, e.jobId, e.scheduledFor)
  {
    assert InFlightFor(s, s.awaiting.value.jobId) == Some(s.awaiting.value.scheduledFor);
  }

  lemma FilteredDrops(s: Scheduling, keep: set<string>)
    requires s.awaiting.Some? && s.awaiting.value.jobId !in keep && s.awaiting.value.jobId !in s.starting
    requires AllBefore(s.log, s.awaiting.value.jobId, s.awaiting.value.scheduledFor)
    ensures Dropped(Filtered(s, keep))
  {
    KeptOnly(s.pending, keep);
    DropsUnqueue(s.pending, keep);
  }

  lemma DropsAwaited(s: Scheduling, e: Event)
    requires Inv(s, true) && Honest(s, e) && !KeepsAwaited(s, e)
    ensures Dropped(Happened(s, e)) && Happened(s, e).awaiting == s.awaiting
  {
    AwaitedIsNew(s);
    match e
    case Tick(read, planFor, _) =>
      var head := s.awaiting.value;
      VisitAllKeeps(s.(valid := read), read, |read|, planFor, true);
      VisitOthers(s.(valid := read), read, |read|, planFor, head.jobId, head.scheduledFor);
      FilteredDrops(VisitAll(s.(valid := read), read, |read|, planFor), Ids(read));
    case JobRemoved(id) => FilteredDrops(s, (set p <- s.pending :: p.jobId) - {id});
  }

  // -------------------------------------------------------------------------
  // How an occurrence fires twice from there on

  /** A planner that has every job due at `t` which it does not have recorded for `t` or later. */
  function DueAt(t: int): PlanFor {
    (job: Job, log: seq<Note>) => if AllBefore(log, job.id, t) then Due(t, t) else Done
  }

  function InlineJob(id: string): Job {
    Job(id, true, Inline, false)
  }

  /** A session that is not resident, and none current. */
  const NOTHING_RESIDENT := Answers(None, file => None, 0)

  /** The job is back in the file, due again, behind another; then it is sent, settles, and is drained. */
  function ComesBack(jobId: string, other: string, t: int, file: File): seq<Event> {
    [Tick([InlineJob(other), InlineJob(jobId)], DueAt(t), NOTHING_RESIDENT),
     Ensured(Some(file), NOTHING_RESIDENT),
     AgentSettled(file, NOTHING_RESIDENT),
     Ensured(Some(file), NOTHING_RESIDENT)]
  }

  lemma VisitTwo(s: Scheduling, job: Job, other: Job, planFor: PlanFor)
    ensures VisitAll(s, [job, other], 2, planFor) == Visit(Visit(s, job, planFor), other, planFor)
  {
    assert VisitAll(s, [job, other], 1, planFor) == Visit(VisitAll(s, [job, other], 0, planFor), job, planFor);
  }

  lemma IdsOf(job: Job, other: Job)
    ensures Ids([job, other]) == {job.id, other.id}
  {
    assert [job, other][0] == job && [job, other][1] == other;
  }

  lemma QueuesDue(s: Scheduling, id: string, t: int)
    requires !InFlight(s, id) && AllBefore(s.log, id, t)
    ensures Visit(s, InlineJob(id), DueAt(t)) ==
            s.(pending := s.pending + [Entry(id, t)], log := s.log + [Planned(id)] + [Queued(id, t)])
  {
  }

  lemma QueuesBoth(s: Scheduling, jobId: string, other: string, t: int)
    requires jobId != other
    requires !InFlight(s, jobId) && AllBefore(s.log, jobId, t) && !InFlight(s, other) && AllBefore(s.log, other, t)
    ensures VisitAll(s, [InlineJob(other), InlineJob(jobId)], 2, DueAt(t)) ==
            s.(pending := s.pending + [Entry(other, t), Entry(jobId, t)],
               log := s.log + [Planned(other), Queued(other, t), Planned(jobId), Queued(jobId, t)])
  {
    VisitTwo(s, InlineJob(other), InlineJob(jobId), DueAt(t));
    QueuesDue(s, other, t);
    var u := Visit(s, InlineJob(other), DueAt(t));
    assert !InFlight(u, jobId);
    QueuesDue(u, jobId, t);
    assert u.pending + [Entry(jobId, t)] == s.pending + [Entry(other, t), Entry(jobId, t)];
    assert u.log + [Planned(jobId)] + [Queued(jobId, t)] ==
           s.log + [Planned(other), Queued(other, t), Planned(jobId), Queued(jobId, t)];
  }

  lemma {:induction false} AllKept(pending: seq<Entry>, keep: set<string>)
    requires forall e <- pending :: e.jobId in keep
    ensures KeepOnly(pending, keep) == pending && Drops(pending, keep) == []
  {
    if |pending| > 0 {
      assert pending[0] in pending && forall e <- pending[1..] :: e in pending;
      AllKept(pending[1..], keep);
    }
  }

  lemma {:induction false} OnlyNewKept(pending: seq<Entry>, more: seq<Entry>, keep: set<string>)
    requires forall e <- pending :: e.jobId !in keep
    requires forall e <- more :: e.jobId in keep
    ensures KeepOnly(pending + more, keep) == more && Drops(pending + more, keep) == Drops(pending, keep)
  {
    if |pending| == 0 {
      assert pending + more == more;
      AllKept(more, keep);
    } else {
      assert (pending + more)[1..] == pending[1..] + more;
      OnlyNewKept(pending[1..], more, keep);
    }
  }

  /** What the tick notes. */
  function RequeueNotes(pending: seq<Entry>, jobId: string, other: string, t: int): seq<Note> {
    [Planned(other), Queued(other, t), Planned(jobId), Queued(jobId, t)] + Drops(pending, {other, jobId})
  }

  /** The job is queued again, behind the other, while the drain waits on. */
  lemma TickRequeues(s: Scheduling, jobId: string, other: string, t: int)
    requires s.awaiting.Some? && jobId != other
    requires !InFlight(s, jobId) && AllBefore(s.log, jobId, t) && !InFlight(s, other) && AllBefore(s.log, other, t)
    ensures Happened(s, Tick([InlineJob(other), InlineJob(jobId)], DueAt(t), NOTHING_RESIDENT)) ==
            s.(valid := [InlineJob(other), InlineJob(jobId)], pending := [Entry(other, t), Entry(jobId, t)],
               log := s.log + RequeueNotes(s.pending, jobId, other, t))
  {
    var keep, more := {other, jobId}, [Entry(other, t), Entry(jobId, t)];
    var v := s.(valid := [InlineJob(other), InlineJob(jobId)]);
    var w := VisitAll(v, v.valid, 2, DueAt(t));
    QueuesBoth(v, jobId, other, t);
    IdsOf(InlineJob(other), InlineJob(jobId));
    assert forall e <- s.pending :: IsPending(s.pending, e.jobId);
    OnlyNewKept(s.pending, more, keep);
    assert Filtered(w, keep).pending == more;
    Regroup(s.log, [Planned(other), Queued(other, t), Planned(jobId), Queued(jobId, t)], Drops(s.pending, keep));
  }

  /** What a send, a settle and another send note. */
  function SendsNote(jobId: string, t: int, file: File): seq<Note> {
    [Released(file, Evicted), InlineSent(jobId, file, 0), Recorded(jobId, t, Fired), Released(file, Settled),
     Released(file, Evicted), InlineSent(jobId, file, 0), Recorded(jobId, t, Fired)]
  }

  lemma FoundSecond(job: Job, other: Job)
    requires job.id != other.id
    ensures FindJob([job, other], other.id) == Some(other)
  {
    assert [job, other][1..] == [other];
  }

  lemma SendsTwice(s: Scheduling, jobId: string, other: string, t: int, file: File)
    requires jobId != other && s.awaiting == Some(Entry(jobId, t))
    requires s.pending == [Entry(other, t), Entry(jobId, t)] && s.valid == [InlineJob(other), InlineJob(jobId)]
    ensures var s1 := Happened(s, Ensured(Some(file), NOTHING_RESIDENT));
            var s2 := Happened(s1, AgentSettled(file, NOTHING_RESIDENT));
            var s3 := Happened(s2, Ensured(Some(file), NOTHING_RESIDENT));
            s3.log == s.log + SendsNote(jobId, t, file) && s3.pending == []
  {
    var s1 := Happened(s, Ensured(Some(file), NOTHING_RESIDENT));
    assert s1.pending == [Entry(jobId, t)] && s1.awaiting.None?;
    FoundSecond(InlineJob(other), InlineJob(jobId));
    var s2 := Happened(s1, AgentSettled(file, NOTHING_RESIDENT));
    assert s2.awaiting == Some(Entry(jobId, t)) && s2.pending == s1.pending;
  }

  lemma {:induction false} LongerThanAll(ids: set<string>) returns (n: nat)
    ensures forall id <- ids :: |id| < n
    decreases |ids|
  {
    if ids == {} {
      n := 0;
    } else {
      var id :| id in ids;
      n := LongerThanAll(ids - {id});
      n := n + |id| + 1;
    }
  }

  /** An id that nothing waits or is started under, and that the log does not mention. */
  lemma FreshId(s: Scheduling, taken: string) returns (id: string)
    ensures id != taken && !InFlight(s, id) && Unmentioned(s.log, id)
  {
    var ids := {taken} + s.starting.Keys + (set e <- s.pending :: e.jobId) +
        (set n, j | n in s.log && j in JobsOf(n) :: j);
    var longer := LongerThanAll(ids);
    id := seq(longer, _ => 'x');
    assert id !in ids;
    assert IsPending(s.pending, id) ==> id in ids;
  }

  lemma FromFirst(s: Scheduling, e: Event, rest: seq<Event>)
    ensures RunFrom(s, [e] + rest) == RunFrom(Happened(s, e), rest)
    ensures PlausibleFrom(s, [e] + rest) <==> Plausible(s, e) && PlausibleFrom(Happened(s, e), rest)
  {
    assert ([e] + rest)[1..] == rest;
  }

  /** The four steps lead to the second fire, and are plausible. */
  lemma ComesBackRun(s: Scheduling, jobId: string, other: string, t: int, file: File)
    requires Dropped(s) && s.awaiting.value == Entry(jobId, t)
    requires jobId != other && !InFlight(s, other) && AllBefore(s.log, other, t)
    ensures var events := ComesBack(jobId, other, t, file);
            var u := RunFrom(s, events);
            && PlausibleFrom(s, events) && u.pending == []
            && u.log == s.log + RequeueNotes(s.pending, jobId, other, t) + SendsNote(jobId, t, file)
  {
    var tick, send := Tick([InlineJob(other), InlineJob(jobId)], DueAt(t), NOTHING_RESIDENT),
        Ensured(Some(file), NOTHING_RESIDENT);
    var settle := AgentSettled(file, NOTHING_RESIDENT);
    TickRequeues(s, jobId, other, t);
    IdsOf(InlineJob(other), InlineJob(jobId));
    var s1 := Happened(s, tick);
    SendsTwice(s1, jobId, other, t, file);
    var s2 := Happened(s1, send);
    var s3 := Happened(s2, settle);
    FromFirst(s, tick, [send, settle, send]);
    FromFirst(s1, send, [settle, send]);
    FromFirst(s2, settle, [send]);
    FromFirst(s3, send, []);
    assert ComesBack(jobId, other, t, file) == [tick] + [send, settle, send];
    assert [send, settle, send] == [send] + [settle, send] && [settle, send] == [settle] + [send]
           && [send] + [] == [send];
    assert PlansNew(DueAt(t));
  }

  lemma TwiceInLog(before: seq<Note>, pending: seq<Entry>, jobId: string, other: string, t: int, file: File)
    requires Unmentioned(before, other) && jobId != other
    ensures var log := before + RequeueNotes(pending, jobId, other, t) + SendsNote(jobId, t, file);
            && 7 <= |log| && log[|log| - 5] == log[|log| - 1] == Recorded(jobId, t, Fired)
            && Queued(other, t) in log
            && forall n <- log :: (n.InlineSent? || n.Unqueued?) ==> n.jobId != other
  {
    DropsUnqueue(pending, {other, jobId});
    var notes := RequeueNotes(pending, jobId, other, t);
    assert notes[1] == Queued(other, t);
    forall n | n in before && (n.InlineSent? || n.Unqueued?)
      ensures n.jobId != other
    {
      assert other !in JobsOf(n);
    }
  }

  /**
   * After any step that drops the awaited head, its job can fire twice for the
   * occurrence it waited with, and another job's entry be lost: queued, but neither
   * sent nor dropped nor in the queue.
   */
  lemma DroppedHeadFiresTwice(s: Scheduling, e: Event, file: File) returns (events: seq<Event>, other: string)
    requires Inv(s, true) && Honest(s, e) && !KeepsAwaited(s, e)
    ensures var u, head := RunFrom(Happened(s, e), events), s.awaiting.value;
            && PlausibleFrom(Happened(s, e), events)
            && (exists i, k ::
                  0 <= i < k < |u.log| && u.log[i] == u.log[k] == Recorded(head.jobId, head.scheduledFor, Fired))
            && Queued(other, head.scheduledFor) in u.log && u.pending == []
            && forall n <- u.log :: (n.InlineSent? || n.Unqueued?) ==> n.jobId != other
  {
    var head, v := s.awaiting.value, Happened(s, e);
    DropsAwaited(s, e);
    other := FreshId(v, head.jobId);
    events := ComesBack(head.jobId, other, head.scheduledFor, file);
    UnmentionedIsBefore(v.log, other, head.scheduledFor);
    ComesBackRun(v, head.jobId, other, head.scheduledFor, file);
    TwiceInLog(v.log, v.pending, head.jobId, other, head.scheduledFor, file);
  }

  lemma UnmentionedIsBefore(log: seq<Note>, jobId: string, t: int)
    requires Unmentioned(log, jobId)
    ensures AllBefore(log, jobId, t)
  {
    forall k | 0 <= k < |log| && log[k].Recorded?
      ensures log[k].jobId != jobId
    {
      assert jobId !in JobsOf(log[k]);
    }
  }

  /**
   * A step leaves it impossible that an occurrence fires twice, however it goes on,
   * exactly when it does not take out the job a drain waits with.
   */
  lemma SafeExactly(s: Scheduling, e: Event)
    requires Inv(s, true) && Honest(s, e)
    ensures KeepsAwaited(s, e) <==> SafeFrom(Happened(s, e))
  {
    if KeepsAwaited(s, e) {
      HappenedKeeps(s, e, true);
      InvIsSafe(Happened(s, e));
    } else {
      var events, other := DroppedHeadFiresTwice(s, e, "");
      assert !FiresNewer(RunFrom(Happened(s, e), events).log);
    }
  }

  /** So after every run: an occurrence may come to fire twice from the first event on that drops the awaited head. */
  lemma FiresOnceExactly(before: seq<Event>, e: Event)
    requires PlausibleRun(before) && Honest(Run(before), e)
    ensures FiresNewer(Run(before).log)
    ensures KeepsAwaited(Run(before), e) <==> SafeFrom(Happened(Run(before), e))
  {
    RunKeeps(before, true);
    GoodFiresNewer(Run(before).log);
    SafeExactly(Run(before), e);
  }

  // -------------------------------------------------------------------------
  // The planner

  /** The job's lines of the run log. */
  function RunsOf(log: seq<Note>, jobId: string): seq<RunEntry> {
    if |log| == 0 then []
    else
      var n := log[|log| - 1];
      RunsOf(log[..|log| - 1], jobId) + if n.Recorded? && n.jobId == jobId then [RunEntry(Some(n.scheduledFor))] else []
  }

  lemma {:induction false} RecordedIsRun(log: seq<Note>, jobId: string, k: nat)
    requires k < |log| && log[k].Recorded? && log[k].jobId == jobId
    ensures RunEntry(Some(log[k].scheduledFor)) in RunsOf(log, jobId)
  {
    if k < |log| - 1 {
      RecordedIsRun(log[..|log| - 1], jobId, k);
    }
  }

  lemma {:induction false} UnrecordedHasNoRuns(log: seq<Note>, jobId: string)
    requires forall n <- log :: n.Recorded? ==> n.jobId != jobId
    ensures RunsOf(log, jobId) == []
  {
    if |log| > 0 {
      assert log[|log| - 1] in log && forall n <- log[..|log| - 1] :: n in log;
      UnrecordedHasNoRuns(log[..|log| - 1], jobId);
    }
  }

  /** `DueAt` answers as `planJob` does of a one-shot job within its grace, which has no line of an earlier time. */
  lemma DueAtIsPlan(job: Job, entry: ValidJob, cal: Calendar, z: Zone, log: seq<Note>, t: int, now: int, graceMs: int,
                    since: Option<int>)
    requires entry.enabled && entry.time.Once? && IsInstant(entry.time.at, z, t) && t <= now <= t + graceMs
    requires forall n <- log :: n.Recorded? && n.jobId == job.id ==> n.scheduledFor >= t
    ensures IsPlan(entry, cal, z, RunsOf(log, job.id), now, graceMs, since, DueAt(t)(job, log))
  {
    if AllBefore(log, job.id, t) {
      UnrecordedHasNoRuns(log, job.id);
    } else {
      var k :| 0 <= k < |log| && log[k].Recorded? && log[k].jobId == job.id;
      RecordedIsRun(log, job.id, k);
    }
  }

  /** `planJob` answers as the scheduler relies on: what it accounts for is later than all that is recorded. */
  lemma PlannerPlansNew(job: ValidJob, cal: Calendar, z: Zone, log: seq<Note>, jobId: string, now: int, graceMs: int,
                        since: Option<int>, plan: Plan)
    requires WellFormedJob(job) && (job.time.Recurring? ==> ClockNeverAhead(z, now))
    requires IsPlan(job, cal, z, RunsOf(log, jobId), now, graceMs, since, plan) && plan.Accounts()
    ensures AllBefore(log, jobId, plan.scheduledFor)
  {
    var runs := RunsOf(log, jobId);
    if job.time.Recurring? {
      AccountedIsNew(job, cal, z, runs, now, graceMs, since, plan);
    } else {
      OneShotOnce(job, cal, z, runs, now, graceMs, since, plan);
    }
    forall k | 0 <= k < |log| && log[k].Recorded? && log[k].jobId == jobId
      ensures log[k].scheduledFor < plan.scheduledFor
    {
      RecordedIsRun(log, jobId, k);
    }
  }
}
