/**
 * What the scheduler does at each step, said of the log and of the pool's and the
 * planner's answers: when a job is sent and to whom, when a drain waits, what a tick
 * queues, starts, refuses or skips, and which ends free a session.
 */
module SchedulerSteps {
  import opened Options
  import opened Scheduler
  import opened SchedulerRuns
  import opened Planner

  /** What was noted after `before`. */
  predicate NotedSince(before: seq<Note>, after: seq<Note>, n: Note) {
    |before| <= |after| && n in after[|before|..]
  }

  // -------------------------------------------------------------------------
  // Sends

  /** The last that happened to the session is an inline send, over a minute ago, and no run began. */
  predicate StartOverdue(mark: RunMark, now: int) {
    !mark.started && now - mark.at > 60_000
  }

  /**
   * The session takes a job: the pool does not have it, or it is between turns with
   * nothing queued, and no send or start is left open in the log but that of a
   * terminal session that never began.
   */
  predicate TakesJob(log: seq<Note>, answer: Option<Session>, file: File, now: int) {
    match answer
    case None => true
    case Some(session) =>
      && !session.streaming && (session.queued == None || session.queued == Some(0))
      && var mark := MarkOf(log, file);
         mark == None || (session.cli && StartOverdue(mark.value, now))
  }

  predicate SentTo(before: seq<Note>, after: seq<Note>, file: File) {
    |before| <= |after| && exists n :: n in after[|before|..] && n.InlineSent? && n.file == file
  }

  lemma EndOfTwo(log: seq<Note>, some: seq<Note>)
    ensures log <= log + some && (log + some)[|log|..] == some
  {
  }

  lemma SinceTwice(a: seq<Note>, b: seq<Note>, c: seq<Note>)
    requires a <= b <= c
    ensures c[|a|..] == b[|a|..] + c[|b|..]
  {
  }

  /** A drain drops entries and forgets marks. */
  predicate DrainNote(n: Note) {
    n.Unqueued? || (n.Released? && (n.cause.Evicted? || n.cause.StartTimedOut?))
  }

  lemma CheckNotes(s: Scheduling, file: File, pool: Pool, now: int)
    ensures var t := CheckIdle(s, file, pool, now).0;
            s.log <= t.log && forall n <- t.log[|s.log|..] :: DrainNote(n)
  {
    EndOfTwo(s.log, []);
    EndOfTwo(s.log, [Released(file, Evicted)]);
    EndOfTwo(s.log, [Released(file, StartTimedOut(now))]);
  }

  lemma IdleSaysTakes(s: Scheduling, file: File, pool: Pool, now: int)
    requires Inv(s, false)
    ensures CheckIdle(s, file, pool, now).1 <==> TakesJob(s.log, pool(file), file, now)
  {
    assert MarkOf(s.log, file) == MarkIn(s, file);
  }

  /**
   * After any run, the current session is sent a job at the end of a drain's wait
   * exactly when a drain waits and the session takes one.
   */
  lemma SendsExactly(events: seq<Event>, file: File, a: Answers)
    ensures var s := Run(events);
            SentTo(s.log, Happened(s, Ensured(Some(file), a)).log, file) <==>
            s.awaiting.Some? && TakesJob(s.log, a.pool(file), file, a.now)
  {
    var s := Run(events);
    RunKeeps(events, false);
    if s.awaiting.Some? {
      var t := s.(awaiting := None);
      assert Inv(t, false);
      IdleSaysTakes(t, file, a.pool, a.now);
      SentOrNot(t, s.awaiting.value, file, a);
    } else {
      assert s.log[|s.log|..] == [];
    }
  }

  lemma SentOrNot(t: Scheduling, head: Entry, file: File, a: Answers)
    requires Inv(t, false) && t.awaiting.None?
    ensures var (u, ready) := CheckIdle(t, file, a.pool, a.now);
            SentTo(t.log, (if ready then SendHead(u, head, file, a.now) else u).log, file) <==> ready
  {
    var (u, ready) := CheckIdle(t, file, a.pool, a.now);
    CheckNotes(t, file, a.pool, a.now);
    if ready {
      var sent := InlineSent(head.jobId, file, a.now);
      var notes := [sent, Recorded(head.jobId, head.scheduledFor, Fired)];
      var v := SendHead(u, head, file, a.now);
      assert v.log == u.log + notes;
      EndOfTwo(u.log, notes);
      SinceTwice(t.log, u.log, v.log);
      assert notes[0] == sent;
    }
  }

  /** It is the job the drain waited with, for its occurrence, and the send is what the log ends with. */
  lemma SendsWhatWaited(events: seq<Event>, file: File, a: Answers)
    requires var s := Run(events); s.awaiting.Some? && TakesJob(s.log, a.pool(file), file, a.now)
    ensures var s, t := Run(events), Happened(Run(events), Ensured(Some(file), a));
            var head := s.awaiting.value;
            && |t.log| >= 2 && t.log[|t.log| - 2] == InlineSent(head.jobId, file, a.now)
            && t.log[|t.log| - 1] == Recorded(head.jobId, head.scheduledFor, Fired)
  {
    var s := Run(events);
    RunKeeps(events, false);
    assert Inv(s.(awaiting := None), false);
    IdleSaysTakes(s.(awaiting := None), file, a.pool, a.now);
    SendEnds(CheckIdle(s.(awaiting := None), file, a.pool, a.now).0, s.awaiting.value, file, a.now);
  }

  lemma SendEnds(s: Scheduling, head: Entry, file: File, now: int)
    ensures var log := SendHead(s, head, file, now).log;
            && |log| >= 2 && log[|log| - 2] == InlineSent(head.jobId, file, now)
            && log[|log| - 1] == Recorded(head.jobId, head.scheduledFor, Fired)
  {
  }

  // -------------------------------------------------------------------------
  // Waits

  /** The file has the job of the entry, enabled. */
  predicate Live(valid: seq<Job>, e: Entry) {
    exists k :: 0 <= k < |valid| && valid[k].id == e.jobId && valid[k].enabled
                && forall j :: 0 <= j < k ==> valid[j].id != e.jobId
  }

  lemma {:induction false} FoundLive(valid: seq<Job>, e: Entry)
    ensures var job := FindJob(valid, e.jobId); job.Some? && job.value.enabled <==> Live(valid, e)
  {
    if |valid| > 0 {
      FoundLive(valid[1..], e);
      var rest := valid[1..];
      assert forall k :: 0 <= k < |rest| ==> rest[k] == valid[k + 1];
      if valid[0].id != e.jobId {
        if Live(rest, e) {
          var k :| 0 <= k < |rest| && rest[k].id == e.jobId && rest[k].enabled
                   && forall j :: 0 <= j < k ==> rest[j].id != e.jobId;
          assert valid[k + 1].id == e.jobId && forall j :: 0 <= j < k + 1 ==> valid[j].id != e.jobId;
        }
        if Live(valid, e) {
          var k :| 0 <= k < |valid| && valid[k].id == e.jobId && valid[k].enabled
                   && forall j :: 0 <= j < k ==> valid[j].id != e.jobId;
          assert rest[k - 1].id == e.jobId && forall j :: 0 <= j < k - 1 ==> rest[j].id == valid[j + 1].id;
        }
      }
    }
  }

  /** The oldest entry of an enabled job. */
  predicate OldestLive(s: Scheduling, e: Entry) {
    exists k :: 0 <= k < |s.pending| && s.pending[k] == e && Live(s.valid, e)
                && forall j :: 0 <= j < k ==> !Live(s.valid, s.pending[j])
  }

  predicate CurrentFree(s: Scheduling, a: Answers) {
    a.current.Some? ==> TakesJob(s.log, a.pool(a.current.value), a.current.value, a.now)
  }

  /**
   * A drain comes to wait exactly with the oldest entry of an enabled job, when the
   * current session, if any, takes one.
   */
  lemma {:induction false} DrainWaitsExactly(s: Scheduling, a: Answers, e: Entry)
    requires Inv(s, false) && s.awaiting.None?
    ensures Drained(s, a).awaiting == Some(e) <==> OldestLive(s, e) && CurrentFree(s, a)
    decreases |s.pending|
  {
    if |s.pending| > 0 {
      var head := s.pending[0];
      FoundLive(s.valid, head);
      if Live(s.valid, head) {
        if a.current.Some? {
          IdleSaysTakes(s, a.current.value, a.pool, a.now);
        }
        assert OldestLive(s, e) <==> e == head;
      } else {
        var t := Unqueue(s);
        ShiftKeeps(s, t, head, Unqueued(head.jobId), false);
        DrainWaitsExactly(t, a, e);
        OldestOfRest(s, t, e);
        if a.current.Some? {
          MarkMore(s.log, Unqueued(head.jobId), a.current.value);
        }
      }
    }
  }

  lemma OldestOfRest(s: Scheduling, t: Scheduling, e: Entry)
    requires |s.pending| > 0 && !Live(s.valid, s.pending[0]) && t.pending == s.pending[1..] && t.valid == s.valid
    ensures OldestLive(s, e) <==> OldestLive(t, e)
  {
    if OldestLive(s, e) {
      var k :| 0 <= k < |s.pending| && s.pending[k] == e && Live(s.valid, e)
               && forall j :: 0 <= j < k ==> !Live(s.valid, s.pending[j]);
      assert t.pending[k - 1] == e && forall j :: 0 <= j < k - 1 ==> t.pending[j] == s.pending[j + 1];
    }
    if OldestLive(t, e) {
      var k :| 0 <= k < |t.pending| && t.pending[k] == e && Live(t.valid, e)
               && forall j :: 0 <= j < k ==> !Live(t.valid, t.pending[j]);
      assert s.pending[k + 1] == e && forall j :: 0 < j < k + 1 ==> s.pending[j] == t.pending[j - 1];
    }
  }

  // -------------------------------------------------------------------------
  // Ticks

  /** What the scheduler notes of a job that the planner answers is due or missed. */
  predicate Accounts(n: Note, job: Job, plan: Plan) {
    match plan
    case Due(_, t) =>
      if job.shell then n == Recorded(job.id, t, Refused)
      else if job.mode == Inline then n == Queued(job.id, t)
      else n == Starting(job.id, t)
    case Missed(_, t) => n == Recorded(job.id, t, Skipped)
    case _ => false
  }

  lemma VisitNotes(s: Scheduling, job: Job, planFor: PlanFor) returns (n: Note)
    requires !InFlight(s, job.id)
    ensures var log := s.log + [Planned(job.id)];
            var plan := planFor(job, log);
            Visit(s, job, planFor).log == (if plan.Accounts() then log + [n] else log)
            && (plan.Accounts() ==> Accounts(n, job, plan))
  {
    n := Visit(s, job, planFor).log[|Visit(s, job, planFor).log| - 1];
  }

  lemma VisitGrows(s: Scheduling, job: Job, planFor: PlanFor)
    ensures s.log <= Visit(s, job, planFor).log
  {
    if !InFlight(s, job.id) {
      var n := VisitNotes(s, job, planFor);
    }
  }

  lemma {:induction false} VisitsGrow(s: Scheduling, jobs: seq<Job>, k: nat, n: nat, planFor: PlanFor)
    requires k <= n <= |jobs|
    ensures VisitAll(s, jobs, k, planFor).log <= VisitAll(s, jobs, n, planFor).log
  {
    if k < n {
      VisitsGrow(s, jobs, k, n - 1, planFor);
      VisitGrows(VisitAll(s, jobs, n - 1, planFor), jobs[n - 1], planFor);
    }
  }

  lemma {:induction false} LookedNotes(s: Scheduling, a: Answers)
    ensures s.log <= Looked(s, a).log && forall n <- Looked(s, a).log[|s.log|..] :: DrainNote(n)
    decreases |s.pending|
  {
    if |s.pending| > 0 {
      var job := FindJob(s.valid, s.pending[0].jobId);
      if job.None? || !job.value.enabled {
        var t := Unqueue(s);
        LookedNotes(t, a);
        EndOfTwo(s.log, [Unqueued(s.pending[0].jobId)]);
        SinceTwice(s.log, t.log, Looked(t, a).log);
      } else if a.current.Some? {
        CheckNotes(s, a.current.value, a.pool, a.now);
      }
    }
  }

  lemma DrainedNotes(s: Scheduling, a: Answers)
    ensures s.log <= Drained(s, a).log
    ensures forall n <- Drained(s, a).log[|s.log|..] :: DrainNote(n)
  {
    LookedNotes(s, a);
  }

  /** What a tick notes besides its visits. */
  lemma TickNotes(s: Scheduling, read: seq<Job>, planFor: PlanFor, a: Answers)
    ensures var u, t := VisitAll(s.(valid := read), read, |read|, planFor), Ticked(s, read, planFor, a);
            && s.log <= u.log <= t.log
            && forall n <- t.log[|u.log|..] :: n.Unqueued? || n.Released?
  {
    var u := VisitAll(s.(valid := read), read, |read|, planFor);
    var v := Filtered(u, Ids(read));
    VisitsGrow(s.(valid := read), read, 0, |read|, planFor);
    DropsUnqueue(u.pending, Ids(read));
    DrainedNotes(v, a);
    assert v.log[|u.log|..] == Drops(u.pending, Ids(read));
    assert Drained(v, a).log[|u.log|..] == Drops(u.pending, Ids(read)) + Drained(v, a).log[|v.log|..];
  }

  /**
   * A job of the file that is not in flight when its turn comes is planned, and what is
   * due or missed is accounted for.
   */
  lemma DueIsAccounted(s: Scheduling, read: seq<Job>, planFor: PlanFor, a: Answers, k: nat) returns (n: Note)
    requires k < |read| && !InFlight(VisitAll(s.(valid := read), read, k, planFor), read[k].id)
    ensures var log := VisitAll(s.(valid := read), read, k, planFor).log + [Planned(read[k].id)];
            var plan := planFor(read[k], log);
            && log <= Ticked(s, read, planFor, a).log
            && (plan.Accounts() ==> Accounts(n, read[k], plan) && log + [n] <= Ticked(s, read, planFor, a).log)
  {
    var v := s.(valid := read);
    var u := VisitAll(v, read, k, planFor);
    VisitsGrow(v, read, k + 1, |read|, planFor);
    TickNotes(s, read, planFor, a);
    n := VisitNotes(u, read[k], planFor);
  }

  predicate Accounting(n: Note) {
    n.Queued? || n.Starting? || n.Recorded?
  }

  lemma VisitAccounts(s: Scheduling, job: Job, planFor: PlanFor, n: Note)
    requires s.log <= Visit(s, job, planFor).log && n in Visit(s, job, planFor).log[|s.log|..] && Accounting(n)
    ensures Accounts(n, job, planFor(job, s.log + [Planned(job.id)]))
  {
    EndOfTwo(s.log, []);
    EndOfTwo(s.log, [Planned(job.id)]);
    if !InFlight(s, job.id) {
      var m := VisitNotes(s, job, planFor);
      EndOfTwo(s.log, [Planned(job.id)] + [m]);
      assert s.log + [Planned(job.id)] + [m] == s.log + ([Planned(job.id)] + [m]);
    }
  }

  /** A job of the file has a plan that says to note it. */
  ghost predicate Called(n: Note, jobs: seq<Job>, planFor: PlanFor) {
    exists job, log :: job in jobs && Accounts(n, job, planFor(job, log))
  }

  lemma VisitCalled(s: Scheduling, jobs: seq<Job>, job: Job, planFor: PlanFor)
    requires job in jobs
    ensures var t := Visit(s, job, planFor);
            s.log <= t.log && forall n <- t.log[|s.log|..] :: Accounting(n) ==> Called(n, jobs, planFor)
  {
    VisitGrows(s, job, planFor);
    forall n | n in Visit(s, job, planFor).log[|s.log|..] && Accounting(n)
      ensures Called(n, jobs, planFor)
    {
      VisitAccounts(s, job, planFor, n);
    }
  }

  lemma {:induction false} VisitOnlyDue(s: Scheduling, jobs: seq<Job>, k: nat, planFor: PlanFor)
    requires k <= |jobs|
    ensures s.log <= VisitAll(s, jobs, k, planFor).log
    ensures forall n <- VisitAll(s, jobs, k, planFor).log[|s.log|..] :: Accounting(n) ==> Called(n, jobs, planFor)
  {
    if k == 0 {
      EndOfTwo(s.log, []);
    } else {
      var u, t := VisitAll(s, jobs, k - 1, planFor), VisitAll(s, jobs, k, planFor);
      VisitOnlyDue(s, jobs, k - 1, planFor);
      VisitCalled(u, jobs, jobs[k - 1], planFor);
      SinceTwice(s.log, u.log, t.log);
    }
  }

  /** Queueing, starting, refusing and skipping happen in a tick only to a job of the file whose plan says so. */
  lemma OnlyDueIsAccounted(s: Scheduling, read: seq<Job>, planFor: PlanFor, a: Answers, n: Note)
    requires NotedSince(s.log, Ticked(s, read, planFor, a).log, n) && Accounting(n)
    ensures Called(n, read, planFor)
  {
    var u := VisitAll(s.(valid := read), read, |read|, planFor);
    TickNotes(s, read, planFor, a);
    SinceTwice(s.log, u.log, Ticked(s, read, planFor, a).log);
    VisitOnlyDue(s.(valid := read), read, |read|, planFor);
  }

  // -------------------------------------------------------------------------
  // Ends

  /** The end of a run frees a session exactly when it is a terminal's that reports no settle. */
  lemma EndFreesExactly(s: Scheduling, file: File, session: Option<Session>, a: Answers)
    ensures NotedSince(s.log, Happened(s, AgentEnd(file, session, a)).log, Released(file, EndedWithoutSettle)) <==>
            session.Some? && session.value.cli && !session.value.settles
  {
    FreedNotes(s, file, EndedWithoutSettle, a);
    assert s.log[|s.log|..] == [];
  }

  /** The end of a send frees a session exactly when the server runs it and is not in a turn of it. */
  lemma DoneFreesExactly(s: Scheduling, file: File, session: Option<Session>, a: Answers)
    ensures NotedSince(s.log, Happened(s, InlineDone(file, session, a)).log, Released(file, SendDone)) <==>
            session.Some? && !session.value.cli && !session.value.streaming
  {
    FreedNotes(s, file, SendDone, a);
    assert s.log[|s.log|..] == [];
  }

  /** A settle, and the failure of a send, always do. */
  lemma SettleFrees(s: Scheduling, file: File, a: Answers, jobId: string, t: int)
    ensures NotedSince(s.log, Happened(s, AgentSettled(file, a)).log, Released(file, Settled))
    ensures NotedSince(s.log, Happened(s, InlineFailed(jobId, t, file, a)).log, Released(file, SendFailed))
    ensures NotedSince(s.log, Happened(s, InlineFailed(jobId, t, file, a)).log, Recorded(jobId, t, Failed))
  {
    FreedNotes(s, file, Settled, a);
    var u := Noted(s, Recorded(jobId, t, Failed));
    FreedNotes(u, file, SendFailed, a);
    var v := Happened(s, InlineFailed(jobId, t, file, a));
    assert v.log[|s.log|..] == [Recorded(jobId, t, Failed)] + v.log[|u.log|..];
  }

  lemma FreedNotes(s: Scheduling, file: File, cause: Cause, a: Answers)
    ensures var t := Drained(Release(s, file, cause), a);
            && |t.log| > |s.log| && s.log <= t.log
            && t.log[|s.log|..] == [Released(file, cause)] + t.log[|s.log| + 1..]
  {
    DrainedNotes(Release(s, file, cause), a);
  }

  /**
   * A job being started in a session of its own is recorded for the occurrence it was
   * started for, as fired or failed, when that session is there, and is then no longer
   * being started; when its send fails later, that is recorded too.
   */
  lemma StartIsRecorded(s: Scheduling, jobId: string, created: bool, t: int)
    ensures var u := Happened(s, IsolatedCreated(jobId, created));
            && u.starting.Keys == s.starting.Keys - {jobId} && u.pending == s.pending && u.runs == s.runs
            && (jobId in s.starting ==>
                  && |u.log| > |s.log|
                  && u.log[|u.log| - 1] == Recorded(jobId, s.starting[jobId], if created then Fired else Failed))
            && (jobId !in s.starting ==> u == s)
    ensures var u := Happened(s, IsolatedFailed(jobId, t));
            u.(log := s.log) == s && u.log == s.log + [Recorded(jobId, t, Failed)]
  {
    if jobId !in s.starting {
      assert s.starting.Keys == s.starting.Keys - {jobId};
    }
  }
}
