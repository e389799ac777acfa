/**
 * The assistant scheduler's firing loop (server/src/assistant-scheduler.ts): due
 * inline jobs queue up for the current session and go out one settle at a time,
 * isolated jobs start at once. The pool, the controller and the planner answer as
 * they like. Anything may happen while `drainInline` awaits the current session.
 */
module Scheduler {
  import opened Options
  import opened Planner

  /** A session, by its file. */
  type File = string

  datatype Mode = Inline | Isolated

  /** `shell`: the prompt starts with an exclamation mark. */
  datatype Job = Job(id: string, enabled: bool, mode: Mode, shell: bool)

  /** A due inline job waiting for the session to settle. */
  datatype Entry = Entry(jobId: string, scheduledFor: int)

  /** `started`: an `agent_start` was seen. */
  datatype RunMark = RunMark(at: int, started: bool)

  datatype Outcome = Fired | Skipped | Failed | Refused

  /** Why a session counts as free again. */
  datatype Cause = Settled | EndedWithoutSettle | SendDone | SendFailed | Evicted | StartTimedOut(now: int)

  /** What the scheduler did, in order. `Recorded` is a line of the run log. */
  datatype Note =
    | Planned(jobId: string)
    | Queued(jobId: string, scheduledFor: int)
    | Unqueued(jobId: string)
    | Starting(jobId: string, scheduledFor: int)
    | Created(jobId: string)
    | Recorded(jobId: string, scheduledFor: int, outcome: Outcome)
    | InlineSent(jobId: string, file: File, at: int)
    | Began(file: File, at: int)
    | Released(file: File, cause: Cause)
    | Restarted

  /**
   * `starting` maps an isolated job being started to the occurrence it is started for.
   * `awaiting` is the head a drain chose and awaits the current session for.
   */
  datatype Scheduling = Scheduling(
    valid: seq<Job>,
    pending: seq<Entry>,
    starting: map<string, int>,
    runs: map<File, RunMark>,
    awaiting: Option<Entry>,
    log: seq<Note>)

  const CLI_START_TIMEOUT_MS := 60_000

  /** What the pool says of a resident session. `settles`: it forwards `agent_settled`. */
  datatype Session = Session(cli: bool, streaming: bool, queued: Option<nat>, settles: bool)

  type Pool = File -> Option<Session>

  /** What a drain is told up to its wait: the current session, the pool and the time. */
  datatype Answers = Answers(current: Option<File>, pool: Pool, now: int)

  /** The planner's answer for a job, given what is recorded so far. */
  type PlanFor = (Job, seq<Note>) -> Plan

  // -------------------------------------------------------------------------
  // Steps

  predicate IsPending(pending: seq<Entry>, jobId: string) {
    exists k :: 0 <= k < |pending| && pending[k].jobId == jobId
  }

  predicate InFlight(s: Scheduling, jobId: string) {
    jobId in s.starting || IsPending(s.pending, jobId)
  }

  /** A scheduler made when the server starts: of what was done before, only the run log is left. */
  function Loaded(log: seq<Note>): Scheduling {
    Scheduling([], [], map[], map[], None, log + [Restarted])
  }

  function Noted(s: Scheduling, n: Note): Scheduling {
    s.(log := s.log + [n])
  }

  function Release(s: Scheduling, file: File, cause: Cause): Scheduling {
    Noted(s.(runs := s.runs - {file}), Released(file, cause))
  }

  function FireJob(s: Scheduling, job: Job, scheduledFor: int): Scheduling {
    if job.shell then Noted(s, Recorded(job.id, scheduledFor, Refused))
    else if job.mode.Inline?
         then Noted(s.(pending := s.pending + [Entry(job.id, scheduledFor)]), Queued(job.id, scheduledFor))
    else Noted(s.(starting := s.starting[job.id := scheduledFor]), Starting(job.id, scheduledFor))
  }

  function Visit(s: Scheduling, job: Job, planFor: PlanFor): Scheduling {
    if InFlight(s, job.id) then s
    else
      var t := Noted(s, Planned(job.id));
      match planFor(job, t.log)
      case Due(_, scheduledFor) => FireJob(t, job, scheduledFor)
      case Missed(_, scheduledFor) => Noted(t, Recorded(job.id, scheduledFor, Skipped))
      case _ => t
  }

  function VisitAll(s: Scheduling, jobs: seq<Job>, n: nat, planFor: PlanFor): Scheduling
    requires n <= |jobs|
  {
    if n == 0 then s else Visit(VisitAll(s, jobs, n - 1, planFor), jobs[n - 1], planFor)
  }

  function KeepOnly(pending: seq<Entry>, keep: set<string>): seq<Entry> {
    if |pending| == 0 then []
    else if pending[0].jobId in keep then [pending[0]] + KeepOnly(pending[1..], keep)
    else KeepOnly(pending[1..], keep)
  }

  function Drops(pending: seq<Entry>, keep: set<string>): seq<Note> {
    if |pending| == 0 then []
    else if pending[0].jobId in keep then Drops(pending[1..], keep)
    else [Unqueued(pending[0].jobId)] + Drops(pending[1..], keep)
  }

  function Filtered(s: Scheduling, keep: set<string>): Scheduling {
    s.(pending := KeepOnly(s.pending, keep), log := s.log + Drops(s.pending, keep))
  }

  function Ids(jobs: seq<Job>): set<string> {
    set k | 0 <= k < |jobs| :: jobs[k].id
  }

  /** The job with this id, if the file still has it. */
  function FindJob(jobs: seq<Job>, id: string): (job: Option<Job>)
    ensures job.Some? ==> job.value.id == id
  {
    if |jobs| == 0 then None else if jobs[0].id == id then Some(jobs[0]) else FindJob(jobs[1..], id)
  }

  /** A count the server cannot read passes for none. */
  predicate NothingQueued(session: Session) {
    session.queued.None? || session.queued.value == 0
  }

  /** Settled with nothing queued; forgets the mark of a session that is gone or never started. */
  function CheckIdle(s: Scheduling, file: File, pool: Pool, now: int): (Scheduling, bool) {
    match pool(file)
    case None => (Release(s, file, Evicted), true)
    case Some(session) =>
      if session.streaming then (s, false)
      else if file in s.runs then
        var mark := s.runs[file];
        if session.cli && !mark.started && now - mark.at > CLI_START_TIMEOUT_MS
        then (Release(s, file, StartTimedOut(now)), NothingQueued(session))
        else (s, false)
      else (s, NothingQueued(session))
  }

  function Unqueue(s: Scheduling): Scheduling
    requires |s.pending| > 0
  {
    Noted(s.(pending := s.pending[1..]), Unqueued(s.pending[0].jobId))
  }

  /** The queue loses its head, whichever that is. */
  function Shifted(s: Scheduling): Scheduling {
    if |s.pending| > 0 then s.(pending := s.pending[1..]) else s
  }

  function SendHead(s: Scheduling, head: Entry, file: File, now: int): Scheduling {
    Noted(Noted(Shifted(s).(runs := s.runs[file := RunMark(now, false)]), InlineSent(head.jobId, file, now)),
          Recorded(head.jobId, head.scheduledFor, Fired))
  }

  function FailHead(s: Scheduling, head: Entry): Scheduling {
    Noted(Noted(Shifted(s), Unqueued(head.jobId)), Recorded(head.jobId, head.scheduledFor, Failed))
  }

  /** The drain up to its wait: removed and disabled jobs go, a head that may be sent awaits the current session. */
  function Looked(s: Scheduling, a: Answers): Scheduling
    decreases |s.pending|
  {
    if |s.pending| == 0 then s
    else
      var head := s.pending[0];
      var job := FindJob(s.valid, head.jobId);
      if job.None? || !job.value.enabled then Looked(Unqueue(s), a)
      else
        var (t, idle) := if a.current.Some? then CheckIdle(s, a.current.value, a.pool, a.now) else (s, true);
        if idle then t.(awaiting := Some(head)) else t
  }

  /** A drain does nothing while another one waits. */
  function Drained(s: Scheduling, a: Answers): Scheduling {
    if s.awaiting.Some? then s else Looked(s, a)
  }

  /** The drain after its wait, with the session that was ensured, if that succeeded. */
  function Resumed(s: Scheduling, ensured: Option<File>, a: Answers): Scheduling
    requires s.awaiting.Some?
  {
    var head, t := s.awaiting.value, s.(awaiting := None);
    match ensured
    case None => Looked(FailHead(t, head), a)
    case Some(file) =>
      var (u, ready) := CheckIdle(t, file, a.pool, a.now);
      if ready then SendHead(u, head, file, a.now) else u
  }

  function Ticked(s: Scheduling, read: seq<Job>, planFor: PlanFor, a: Answers): Scheduling {
    Drained(Filtered(VisitAll(s.(valid := read), read, |read|, planFor), Ids(read)), a)
  }

  /** Everything that happens to the scheduler. */
  datatype Event =
    | Tick(read: seq<Job>, planFor: PlanFor, a: Answers)
    | JobRemoved(id: string)
    | AgentStart(file: File, now: int)
    | AgentSettled(file: File, a: Answers)
    | AgentEnd(file: File, session: Option<Session>, a: Answers)
    | InlineDone(file: File, session: Option<Session>, a: Answers)
    | InlineFailed(jobId: string, scheduledFor: int, file: File, a: Answers)
    | IsolatedCreated(jobId: string, created: bool)
    | IsolatedFailed(jobId: string, scheduledFor: int)
    | Ensured(ensured: Option<File>, a: Answers)
    | Restart

  function Happened(s: Scheduling, e: Event): Scheduling {
    match e
    case Tick(read, planFor, a) => Ticked(s, read, planFor, a)
    case JobRemoved(id) => Filtered(s, (set p <- s.pending :: p.jobId) - {id})
    case AgentStart(file, now) => Noted(s.(runs := s.runs[file := RunMark(now, true)]), Began(file, now))
    case AgentSettled(file, a) => Drained(Release(s, file, Settled), a)
    case AgentEnd(file, session, a) =>
      if session.Some? && session.value.cli && !session.value.settles
      then Drained(Release(s, file, EndedWithoutSettle), a) else s
    case InlineDone(file, session, a) =>
      if session.Some? && !session.value.cli && !session.value.streaming then Drained(Release(s, file, SendDone), a)
      else s
    case InlineFailed(jobId, scheduledFor, file, a) =>
      Drained(Release(Noted(s, Recorded(jobId, scheduledFor, Failed)), file, SendFailed), a)
    case IsolatedCreated(jobId, created) =>
      if jobId in s.starting
      then Noted(Noted(s.(starting := s.starting - {jobId}), Created(jobId)),
                 Recorded(jobId, s.starting[jobId], if created then Fired else Failed))
      else s
    case IsolatedFailed(jobId, scheduledFor) => Noted(s, Recorded(jobId, scheduledFor, Failed))
    case Ensured(ensured, a) => if s.awaiting.Some? then Resumed(s, ensured, a) else s
    case Restart => Loaded(s.log)
  }

  // -------------------------------------------------------------------------
  // The class

  class AssistantScheduler {
    var lastRead: seq<Job>
    var pendingInline: seq<Entry>
    var startingIsolated: map<string, int>
    var runs: map<File, RunMark>
    /** The source's `draining`, with the head its drain chose. */
    var awaiting: Option<Entry>
    /** The run log's lines, among everything else that was done. */
    var log: seq<Note>

    ghost function State(): Scheduling
      reads this
    {
      Scheduling(lastRead, pendingInline, startingIsolated, runs, awaiting, log)
    }

    /** `done`: what was done before the server started. */
    constructor (done: seq<Note>)
      ensures State() == Loaded(done)
    {
      lastRead, pendingInline, startingIsolated, runs, awaiting, log := [], [], map[], map[], None, done + [Restarted];
    }

    method Fire(job: Job, scheduledFor: int)
      modifies this
      ensures State() == FireJob(old(State()), job, scheduledFor)
    {
      if job.shell {
        log := log + [Recorded(job.id, scheduledFor, Refused)];
        return;
      }
      if job.mode.Inline? {
        pendingInline := pendingInline + [Entry(job.id, scheduledFor)];
        log := log + [Queued(job.id, scheduledFor)];
        return;
      }
      startingIsolated := startingIsolated[job.id := scheduledFor];
      log := log + [Starting(job.id, scheduledFor)];
    }

    /** One pass over the schedule; the run log answers through `planFor`. */
    method TickNow(read: seq<Job>, planFor: PlanFor, a: Answers)
      modifies this
      ensures State() == Ticked(old(State()), read, planFor, a)
    {
      lastRead := read;
      ghost var s := State();
      for i := 0 to |read|
        invariant State() == VisitAll(s, read, i, planFor)
      {
        var job := read[i];
        if !(job.id in startingIsolated || IsPending(pendingInline, job.id)) {
          log := log + [Planned(job.id)];
          match planFor(job, log)
          case Due(_, scheduledFor) => Fire(job, scheduledFor);
          case Missed(_, scheduledFor) => log := log + [Recorded(job.id, scheduledFor, Skipped)];
          case _ =>
        }
      }
      log := log + Drops(pendingInline, Ids(read));
      pendingInline := KeepOnly(pendingInline, Ids(read));
      DrainInline(a);
    }

    method IsIdle(file: File, pool: Pool, now: int) returns (idle: bool)
      modifies this
      ensures (State(), idle) == CheckIdle(old(State()), file, pool, now)
    {
      var session := pool(file);
      if session.None? {
        runs := runs - {file};
        log := log + [Released(file, Evicted)];
        return true;
      }
      if session.value.streaming {
        return false;
      }
      if file in runs {
        var mark := runs[file];
        var stale := session.value.cli && !mark.started && now - mark.at > CLI_START_TIMEOUT_MS;
        if !stale {
          return false;
        }
        runs := runs - {file};
        log := log + [Released(file, StartTimedOut(now))];
      }
      idle := NothingQueued(session.value);
    }

    /** One drain as far as its wait: drops jobs that are gone, and chooses the head that may go out. */
    method DrainInline(a: Answers)
      modifies this
      ensures State() == Drained(old(State()), a)
    {
      if awaiting.Some? {
        return;
      }
      ghost var s := State();
      while |pendingInline| > 0
        invariant awaiting.None? && Looked(State(), a) == Looked(s, a)
        decreases |pendingInline|
      {
        var head := pendingInline[0];
        var job := FindJob(lastRead, head.jobId);
        if job.None? || !job.value.enabled {
          pendingInline := pendingInline[1..];
          log := log + [Unqueued(head.jobId)];
          continue;
        }
        if a.current.Some? {
          var idle := IsIdle(a.current.value, a.pool, a.now);
          if !idle {
            return;
          }
        }
        awaiting := Some(head);
        return;
      }
    }

    /** The rest of the drain, once the current session is ensured or failed to be. */
    method EnsuredCurrent(session: Option<File>, a: Answers)
      modifies this
      ensures State() == Happened(old(State()), Ensured(session, a))
    {
      if awaiting.None? {
        return;
      }
      var head := awaiting.value;
      awaiting := None;
      if session.None? {
        pendingInline := if |pendingInline| > 0 then pendingInline[1..] else pendingInline;
        log := log + [Unqueued(head.jobId)] + [Recorded(head.jobId, head.scheduledFor, Failed)];
        DrainInline(a);
        return;
      }
      var ready := IsIdle(session.value, a.pool, a.now);
      if ready {
        pendingInline := if |pendingInline| > 0 then pendingInline[1..] else pendingInline;
        runs := runs[session.value := RunMark(a.now, false)];
        log := log + [InlineSent(head.jobId, session.value, a.now)] + [Recorded(head.jobId, head.scheduledFor, Fired)];
      }
    }

    method RemoveJob(id: string)
      modifies this
      ensures State() == Happened(old(State()), JobRemoved(id))
    {
      var keep := (set p <- pendingInline :: p.jobId) - {id};
      log := log + Drops(pendingInline, keep);
      pendingInline := KeepOnly(pendingInline, keep);
    }

    method HandleAgentStart(file: File, now: int)
      modifies this
      ensures State() == Happened(old(State()), AgentStart(file, now))
    {
      runs := runs[file := RunMark(now, true)];
      log := log + [Began(file, now)];
    }

    method HandleAgentSettled(file: File, a: Answers)
      modifies this
      ensures State() == Happened(old(State()), AgentSettled(file, a))
    {
      runs := runs - {file};
      log := log + [Released(file, Settled)];
      DrainInline(a);
    }

    /** The end of a run stands in for its settle where none is reported. */
    method HandleAgentEnd(file: File, session: Option<Session>, a: Answers)
      modifies this
      ensures State() == Happened(old(State()), AgentEnd(file, session, a))
    {
      if session.None? || !session.value.cli || session.value.settles {
        return;
      }
      runs := runs - {file};
      log := log + [Released(file, EndedWithoutSettle)];
      DrainInline(a);
    }

    method InlineSendDone(file: File, session: Option<Session>, a: Answers)
      modifies this
      ensures State() == Happened(old(State()), InlineDone(file, session, a))
    {
      if session.Some? && !session.value.cli && !session.value.streaming {
        runs := runs - {file};
        log := log + [Released(file, SendDone)];
        DrainInline(a);
      }
    }

    method InlineSendFailed(jobId: string, scheduledFor: int, file: File, a: Answers)
      modifies this
      ensures State() == Happened(old(State()), InlineFailed(jobId, scheduledFor, file, a))
    {
      log := log + [Recorded(jobId, scheduledFor, Failed)];
      runs := runs - {file};
      log := log + [Released(file, SendFailed)];
      DrainInline(a);
    }

    method IsolatedSessionCreated(jobId: string, created: bool)
      modifies this
      ensures State() == Happened(old(State()), IsolatedCreated(jobId, created))
    {
      if jobId in startingIsolated {
        var scheduledFor := startingIsolated[jobId];
        startingIsolated := startingIsolated - {jobId};
        log := log + [Created(jobId)];
        log := log + [Recorded(jobId, scheduledFor, if created then Fired else Failed)];
      }
    }

    method IsolatedSendFailed(jobId: string, scheduledFor: int)
      modifies this
      ensures State() == Happened(old(State()), IsolatedFailed(jobId, scheduledFor))
    {
      log := log + [Recorded(jobId, scheduledFor, Failed)];
    }
  }
}
