/**
 * Which session the client shows (`joinSession`, `switchSession`, `createSession`,
 * `leaveSession`, `abandonPendingLoad`, `onOpen`, `onClose`, and the
 * `session_created` and `message_history` cases in client/src/client.ts): the state
 * as a value, its steps, and the class that updates it in place. The runs of this
 * client against late replies are in SessionRuns.dfy.
 */
module SessionSelection {
  import opened Options

  /** A session is asked for by its file or by its id; the reply carries both. */
  datatype Name = File(session: nat) | Id(session: nat)

  datatype Request = Load(name: Name) | Create

  datatype ClientState = ClientState(
    open: bool,
    pendingLoad: Option<Name>,
    abandoned: set<Name>,
    queued: Option<Request>,
    resume: Option<nat>,       // resumeSessionFile
    shown: Option<nat>,        // sessionId and activeSessionFile, which are set and cleared together
    authoritative: bool,       // historyAuthoritative
    painted: Option<nat>,      // the session whose messages are on screen
    creating: bool,
    loading: bool,
    resyncing: bool)

  function Blank(): ClientState {
    ClientState(false, None, {}, None, None, None, false, None, false, false, false)
  }

  /** The request goes out, or waits for the next open socket. */
  function Requested(c: ClientState, r: Request): (ClientState, Option<Request>) {
    if c.open then (c.(queued := None), Some(r)) else (c.(queued := Some(r)), None)
  }

  /** What is being moved away from is remembered, so that its late replies are dropped. */
  function Abandoning(c: ClientState, next: Option<Name>, keepShown: bool): ClientState {
    var load := if c.pendingLoad.Some? && c.pendingLoad != next then {c.pendingLoad.value} else {};
    var history :=
      if !keepShown && c.shown.Some? && !c.authoritative && next != Some(File(c.shown.value))
          && next != Some(Id(c.shown.value))
      then {Id(c.shown.value)} else {};
    c.(abandoned := c.abandoned + load + history - (if next.Some? then {next.value} else {}))
  }

  function Joined(c: ClientState, name: Name): (ClientState, Option<Request>) {
    Requested(Abandoning(c.(loading := true), Some(name), false).(pendingLoad := Some(name)), Load(name))
  }

  /** Tapping the session on screen changes nothing. */
  predicate AlreadyThere(c: ClientState, name: Name) {
    c.shown.Some? && name == File(c.shown.value) && !c.loading && !c.resyncing
  }

  function Cleared(c: ClientState): ClientState {
    c.(shown := None, painted := None, creating := false, resyncing := false, resume := None)
  }

  function Switched(c: ClientState, name: Name): (ClientState, Option<Request>) {
    if AlreadyThere(c, name) then (c, None)
    else Requested(Cleared(Abandoning(c, Some(name), false)).(loading := true, pendingLoad := Some(name)), Load(name))
  }

  function Creating(c: ClientState): (ClientState, Option<Request>) {
    Requested(Abandoning(c.(creating := true, loading := false), None, true).(pendingLoad := None, resume := None),
              Create)
  }

  function Left(c: ClientState): ClientState {
    var d := Abandoning(c.(queued := None), None, false);
    if c.shown.None? && c.pendingLoad.None? && c.resume.None? then d.(creating := false)
    else Cleared(d).(loading := false, pendingLoad := None)
  }

  /** The session the next socket rejoins when no request waits for it. */
  function RejoinTarget(c: ClientState): Option<nat> {
    if c.resume.Some? then c.resume else c.shown
  }

  function Opened(c: ClientState): (ClientState, Option<Request>) {
    var target := RejoinTarget(c);
    var d := c.(open := true, abandoned := {}, queued := None, resume := None);
    if c.queued.Some? && !(target.Some? && c.queued == Some(Load(File(target.value)))) then
      match c.queued.value
      case Load(name) => (d.(loading := true, resyncing := false, pendingLoad := Some(name)), c.queued)
      case Create => (d.(creating := true, loading := false, resyncing := false, pendingLoad := None), c.queued)
    else if target.Some? then
      (d.(resyncing := true, authoritative := false, pendingLoad := Some(File(target.value))),
       Some(Load(File(target.value))))
    else (d.(resyncing := false), None)
  }

  /** The socket closed; `suspended` when the page gave it up itself. */
  function Closed(c: ClientState, suspended: bool): ClientState {
    c.(open := false, creating := false, loading := false,
       resyncing := if suspended then c.resyncing else c.shown.Some? || c.resyncing,
       resume := if suspended && c.shown.Some? then c.shown else c.resume)
  }

  predicate MatchesPending(c: ClientState, session: nat) {
    c.pendingLoad.Some? && c.pendingLoad.value.session == session
  }

  predicate Abandoned(c: ClientState, session: nat) {
    File(session) in c.abandoned || Id(session) in c.abandoned
  }

  /** `session_created` is taken for the reply the client waits for. */
  predicate Accepts(c: ClientState, session: nat) {
    MatchesPending(c, session) || (c.pendingLoad.None? && c.creating && !Abandoned(c, session))
  }

  function CreatedHandled(c: ClientState, session: nat): ClientState {
    if Accepts(c, session) then
      c.(abandoned := c.abandoned - {File(session), Id(session)}, pendingLoad := None, shown := Some(session),
         authoritative := false, creating := false)
    else if c.shown != Some(session) then c.(abandoned := c.abandoned + {Id(session)})
    else c
  }

  /** `message_history` is painted. */
  predicate Paints(c: ClientState, session: nat) {
    (c.shown.Some? ==> c.shown == Some(session)) && Id(session) !in c.abandoned
  }

  function HistoryHandled(c: ClientState, session: nat): ClientState {
    if Paints(c, session) then c.(painted := Some(session), authoritative := true, loading := false, resyncing := false)
    else c
  }

  /** `session_error` */
  function ErrorHandled(c: ClientState): ClientState {
    c.(creating := false, loading := false, resyncing := false)
  }

  function LoadTimedOut(c: ClientState): ClientState {
    c.(queued := if c.queued.Some? && c.queued.value.Load? then None else c.queued, loading := false,
       resyncing := false)
  }

  function CreateTimedOut(c: ClientState): ClientState {
    c.(queued := if c.queued == Some(Create) then None else c.queued, creating := false)
  }

  class SessionClient {
    var open: bool
    var pendingLoad: Option<Name>
    var abandoned: set<Name>
    var queued: Option<Request>
    var resume: Option<nat>
    var shown: Option<nat>
    var authoritative: bool
    var painted: Option<nat>
    var creating: bool
    var loading: bool
    var resyncing: bool

    ghost function State(): ClientState
      reads this
    {
      ClientState(open, pendingLoad, abandoned, queued, resume, shown, authoritative, painted, creating, loading,
                  resyncing)
    }

    constructor ()
      ensures State() == Blank()
    {
      open, pendingLoad, abandoned, queued, resume, shown := false, None, {}, None, None, None;
      authoritative, painted, creating, loading, resyncing := false, None, false, false, false;
    }

    method AbandonPendingLoad(next: Option<Name>, keepShown: bool)
      modifies this`abandoned
      ensures State() == Abandoning(old(State()), next, keepShown)
    {
      if pendingLoad.Some? && pendingLoad != next {
        abandoned := abandoned + {pendingLoad.value};
      }
      if !keepShown && shown.Some? && !authoritative && next != Some(File(shown.value))
          && next != Some(Id(shown.value)) {
        abandoned := abandoned + {Id(shown.value)};
      }
      if next.Some? {
        abandoned := abandoned - {next.value};
      }
    }

    /** `sendSessionLoad`, and the sending half of `createSession`. */
    method SendOrQueue(r: Request) returns (sent: Option<Request>)
      modifies this`queued
      ensures (State(), sent) == Requested(old(State()), r)
    {
      if open {
        queued := None;
        sent := Some(r);
      } else {
        queued := Some(r);
        sent := None;
      }
    }

    method JoinSession(name: Name) returns (sent: Option<Request>)
      modifies this
      ensures (State(), sent) == Joined(old(State()), name)
    {
      loading := true;
      AbandonPendingLoad(Some(name), false);
      pendingLoad := Some(name);
      sent := SendOrQueue(Load(name));
    }

    /** The old conversation goes off screen and the new load is the one waited for. */
    method ShowLoading(name: Name)
      modifies this
      ensures State() == Cleared(old(State())).(loading := true, pendingLoad := Some(name))
    {
      shown, painted := None, None;
      creating, resyncing, loading := false, false, true;
      resume := None;
      pendingLoad := Some(name);
    }

    method SwitchSession(name: Name) returns (sent: Option<Request>)
      modifies this
      ensures (State(), sent) == Switched(old(State()), name)
    {
      if shown.Some? && name == File(shown.value) && !loading && !resyncing {
        return None;
      }
      AbandonPendingLoad(Some(name), false);
      ShowLoading(name);
      sent := SendOrQueue(Load(name));
    }

    method CreateSession() returns (sent: Option<Request>)
      modifies this
      ensures (State(), sent) == Creating(old(State()))
    {
      creating, loading := true, false;
      AbandonPendingLoad(None, true);
      pendingLoad := None;
      resume := None;
      sent := SendOrQueue(Create);
    }

    /** The conversation goes off screen and nothing is waited for any more. */
    method ClearSession()
      modifies this
      ensures State() == Cleared(old(State())).(loading := false, pendingLoad := None)
    {
      shown, painted := None, None;
      creating, loading, resyncing := false, false, false;
      pendingLoad := None;
      resume := None;
    }

    method LeaveSession()
      modifies this
      ensures State() == Left(old(State()))
    {
      queued := None;
      AbandonPendingLoad(None, false);
      if shown.None? && pendingLoad.None? && resume.None? {
        creating := false;
      } else {
        ClearSession();
      }
    }

    method OnOpen() returns (sent: Option<Request>)
      modifies this
      ensures (State(), sent) == Opened(old(State()))
    {
      open := true;
      abandoned := {};
      var request := queued;
      queued := None;
      var rejoin := if resume.Some? then resume else shown;
      if request.Some? && request.value.Load? && rejoin.Some? && request.value.name == File(rejoin.value) {
        request := None;
      }
      resume := None;
      if request.Some? {
        match request.value {
          case Load(name) =>
            loading, resyncing := true, false;
            pendingLoad := Some(name);
          case Create =>
            creating, loading, resyncing := true, false, false;
            pendingLoad := None;
        }
        return request;
      }
      if rejoin.Some? {
        resyncing, authoritative := true, false;
        pendingLoad := Some(File(rejoin.value));
        return Some(Load(File(rejoin.value)));
      }
      resyncing := false;
      sent := None;
    }

    method OnClose(suspended: bool)
      modifies this
      ensures State() == Closed(old(State()), suspended)
    {
      if suspended {
        if shown.Some? {
          resume := shown;
        }
      } else if shown.Some? {
        resyncing := true;
      }
      open, creating, loading := false, false, false;
    }

    method SessionCreated(session: nat)
      modifies this
      ensures State() == CreatedHandled(old(State()), session)
    {
      var matchesPendingLoad := pendingLoad.Some?
          && (File(session) == pendingLoad.value || Id(session) == pendingLoad.value);
      var isRequestedCreate := pendingLoad.None? && creating;
      var isAbandoned := File(session) in abandoned || Id(session) in abandoned;
      if !matchesPendingLoad && (!isRequestedCreate || isAbandoned) {
        if shown != Some(session) {
          abandoned := abandoned + {Id(session)};
        }
        return;
      }
      abandoned := abandoned - {File(session)};
      abandoned := abandoned - {Id(session)};
      pendingLoad := None;
      shown := Some(session);
      authoritative := false;
      creating := false;
    }

    method MessageHistory(session: nat)
      modifies this
      ensures State() == HistoryHandled(old(State()), session)
    {
      if shown.Some? && shown != Some(session) {
        return;
      }
      if Id(session) in abandoned {
        return;
      }
      painted := Some(session);
      authoritative := true;
      loading := false;
      resyncing := false;
    }
  }
}
