/**
 * The client of SessionSelection.dfy against a server whose replies arrive late: for
 * one load the `session_created` before the history, across loads in any order, and
 * nothing across sockets. At most one load of a session and one create are
 * unanswered on a socket.
 */
module SessionRuns {
  import opened Options
  import opened SessionSelection

  /** What the user, or the rejoin of the session they were in, asked for last. */
  datatype Choice = Nothing | Session(session: nat) | NewSession

  datatype System = System(
    client: ClientState,
    loads: set<nat>,       // loads whose session_created is on the wire
    create: bool,          // a create whose session_created is on the wire
    histories: set<nat>,   // histories on the wire
    known: set<nat>,       // sessions named so far
    choice: Choice)

  datatype Event =
    | Join(name: Name)
    | Switch(name: Name)
    | MakeNew
    | Leave
    | Open
    | Close(suspended: bool)
    | LoadReply(session: nat)
    | CreateReply(session: nat)
    | History(session: nat)
    | LoadError(session: nat)
    | CreateError
    | LoadTimeout
    | CreateTimeout

  function Init(): System {
    System(Blank(), {}, false, {}, {}, Nothing)
  }

  predicate Unanswered(s: System, session: nat) {
    session in s.loads || session in s.histories
  }

  predicate Enabled(s: System, e: Event) {
    match e
    case Join(name) => !Unanswered(s, name.session)
    case Switch(name) => AlreadyThere(s.client, name) || !Unanswered(s, name.session)
    case MakeNew => !s.create
    case Leave => true
    case Open => !s.client.open
    case Close(_) => true
    case LoadReply(session) => session in s.loads
    case CreateReply(session) => s.create && session !in s.known
    case History(session) => session in s.histories
    case LoadError(session) => session in s.loads
    case CreateError => s.create
    case LoadTimeout => true
    case CreateTimeout => true
  }

  /** A request reaches the server, if it was sent. */
  function Ask(s: System, next: (ClientState, Option<Request>)): System {
    match next.1
    case None => s.(client := next.0)
    case Some(Load(name)) => s.(client := next.0, loads := s.loads + {name.session})
    case Some(Create) => s.(client := next.0, create := true)
  }

  function Step(s: System, e: Event): System
    requires Enabled(s, e)
  {
    match e
    case Join(name) =>
      Ask(s, Joined(s.client, name)).(choice := Session(name.session), known := s.known + {name.session})
    case Switch(name) =>
      var t := Ask(s, Switched(s.client, name));
      if AlreadyThere(s.client, name) then t
      else t.(choice := Session(name.session), known := s.known + {name.session})
    case MakeNew => Ask(s, Creating(s.client)).(choice := NewSession)
    case Leave => s.(client := Left(s.client), choice := Nothing)
    case Open =>
      var sent := Opened(s.client).1;
      Ask(s, Opened(s.client)).(choice :=
        match sent
        case None => s.choice
        case Some(Load(name)) => Session(name.session)
        case Some(Create) => NewSession)
    case Close(suspended) => s.(client := Closed(s.client, suspended), loads := {}, create := false, histories := {})
    case LoadReply(session) =>
      s.(client := CreatedHandled(s.client, session), loads := s.loads - {session},
         histories := s.histories + {session})
    case CreateReply(session) =>
      s.(client := CreatedHandled(s.client, session), create := false, histories := s.histories + {session},
         known := s.known + {session},
         choice := if Accepts(s.client, session) then Session(session) else s.choice)
    case History(session) => s.(client := HistoryHandled(s.client, session), histories := s.histories - {session})
    case LoadError(session) => s.(client := ErrorHandled(s.client), loads := s.loads - {session})
    case CreateError => s.(client := ErrorHandled(s.client), create := false)
    case LoadTimeout => s.(client := LoadTimedOut(s.client))
    case CreateTimeout => s.(client := CreateTimedOut(s.client))
  }

  // -------------------------------------------------------------------------
  // The invariant

  /** Every unanswered load is either the one waited for or an abandoned one. */
  predicate LoadsAccounted(s: System) {
    forall session <- s.loads :: MatchesPending(s.client, session) || Abandoned(s.client, session)
  }

  /** What is waited for is the latest choice, and a create is waited for only while one is unanswered. */
  predicate WaitsForChoice(s: System) {
    && (s.client.pendingLoad.Some? ==> s.choice == Session(s.client.pendingLoad.value.session))
    && (s.client.pendingLoad.None? && s.client.creating ==>
          s.choice == NewSession && (if s.client.open then s.create else s.client.queued == Some(Create)))
    && (s.choice.Session? && s.choice.session in s.loads ==> MatchesPending(s.client, s.choice.session))
    && (s.client.queued.Some? ==>
          !s.client.open &&
          match s.client.queued.value
          case Load(name) => s.client.pendingLoad == Some(name)
          case Create => s.client.pendingLoad.None? && s.choice == NewSession)
  }

  /** What is shown is the latest choice, unless a newer one was made since. */
  predicate ShowsChoice(s: System) {
    s.client.shown.Some? ==>
        s.choice == Session(s.client.shown.value) || s.client.pendingLoad.Some? || s.choice == NewSession
  }

  predicate NamesKnown(s: System) {
    && (forall name <- s.client.abandoned :: name.session in s.known)
    && (s.client.pendingLoad.Some? ==> s.client.pendingLoad.value.session in s.known - s.histories)
    && (s.client.shown.Some? ==> s.client.shown.value in s.known)
    && (s.client.resume.Some? ==> s.client.resume.value in s.known)
    && s.loads <= s.known && s.histories <= s.known
    && s.loads !! s.histories
  }

  predicate Inv(s: System) {
    && LoadsAccounted(s) && WaitsForChoice(s) && ShowsChoice(s) && NamesKnown(s)
    && (!s.client.open ==> s.loads == {} && !s.create && s.histories == {})
    && (s.client.open ==> s.client.resume.None?)
    && (s.client.resume.Some? ==> s.client.shown == s.client.resume)
  }

  lemma UserStepKeeps(s: System, e: Event)
    requires Inv(s) && Enabled(s, e)
    requires e.Join? || e.Switch? || e.MakeNew? || e.Leave?
    ensures Inv(Step(s, e))
  {
  }

  lemma SocketStepKeeps(s: System, e: Event)
    requires Inv(s) && Enabled(s, e)
    requires e.Open? || e.Close? || e.LoadTimeout? || e.CreateTimeout?
    ensures Inv(Step(s, e))
  {
  }

  lemma ReplyStepKeeps(s: System, e: Event)
    requires Inv(s) && Enabled(s, e)
    requires e.LoadReply? || e.CreateReply? || e.History? || e.LoadError? || e.CreateError?
    ensures Inv(Step(s, e))
  {
  }

  lemma StepKeepsInv(s: System, e: Event)
    requires Inv(s) && Enabled(s, e)
    ensures Inv(Step(s, e))
  {
    match e
    case Join(_) => UserStepKeeps(s, e);
    case Switch(_) => UserStepKeeps(s, e);
    case MakeNew => UserStepKeeps(s, e);
    case Leave => UserStepKeeps(s, e);
    case LoadReply(_) => ReplyStepKeeps(s, e);
    case CreateReply(_) => ReplyStepKeeps(s, e);
    case History(_) => ReplyStepKeeps(s, e);
    case LoadError(_) => ReplyStepKeeps(s, e);
    case CreateError => ReplyStepKeeps(s, e);
    case _ => SocketStepKeeps(s, e);
  }

  /** The state after a run of enabled events. */
  ghost predicate Runs(s: System, events: seq<Event>, s': System)
    decreases |events|
  {
    if events == [] then s' == s
    else Enabled(s, events[0]) && Runs(Step(s, events[0]), events[1..], s')
  }

  lemma {:induction false} RunKeepsInv(s: System, events: seq<Event>, s': System)
    requires Inv(s) && Runs(s, events, s')
    ensures Inv(s')
    decreases |events|
  {
    if events != [] {
      StepKeepsInv(s, events[0]);
      RunKeepsInv(Step(s, events[0]), events[1..], s');
    }
  }

  // -------------------------------------------------------------------------
  // The session accepted

  /**
   * After any interleaving, a `session_created` is accepted exactly when it answers
   * the latest choice: a load's reply is never taken for a create's. (A create whose
   * wait has ended, by an error or its timeout, is not answered any more.)
   */
  lemma AcceptedIsLatestChoice(events: seq<Event>, s: System, session: nat)
    requires Runs(Init(), events, s)
    ensures session in s.loads ==> (Accepts(s.client, session) <==> s.choice == Session(session))
    ensures s.create && session !in s.known ==>
              (Accepts(s.client, session) <==> s.choice == NewSession && s.client.creating)
  {
    RunKeepsInv(Init(), events, s);
    assert s.client.pendingLoad.Some? ==> s.client.pendingLoad.value.session in s.known;
  }

  /** The create waited for, or whose wait has ended, is unanswered and still the latest choice. */
  predicate AskedForNew(s: System) {
    s.create && s.choice == NewSession
  }

  /**
   * While it is, a step ends the wait exactly when it is an error of a load or the
   * create's own timeout, and no step takes it up again.
   */
  lemma WaitEndsExactly(s: System, e: Event)
    requires Inv(s) && Enabled(s, e) && AskedForNew(s) && AskedForNew(Step(s, e))
    ensures Step(s, e).client.creating <==> s.client.creating && !e.LoadError? && !e.CreateTimeout?
  {
  }

  /** A run over which it stays so. */
  ghost predicate StaysAsked(s: System, events: seq<Event>)
    decreases |events|
  {
    AskedForNew(s) && (events != [] && Enabled(s, events[0]) ==> StaysAsked(Step(s, events[0]), events[1..]))
  }

  lemma {:induction false} WaitsOn(s: System, events: seq<Event>, s': System)
    requires Inv(s) && Runs(s, events, s') && StaysAsked(s, events)
    ensures s'.create && s'.choice == NewSession
    ensures s'.client.creating <==> s.client.creating && forall e <- events :: !e.LoadError? && !e.CreateTimeout?
    decreases |events|
  {
    if events != [] {
      StepKeepsInv(s, events[0]);
      WaitEndsExactly(s, events[0]);
      WaitsOn(Step(s, events[0]), events[1..], s');
      assert forall e :: e in events <==> e == events[0] || e in events[1..];
    }
  }

  /**
   * So over every such run from the create on: its reply, whenever it comes, is
   * accepted exactly when no load has failed and the create has not timed out since.
   */
  lemma CreateAcceptedExactly(s: System, events: seq<Event>, s': System, session: nat)
    requires Inv(s) && s.client.creating && Runs(s, events, s') && StaysAsked(s, events) && session !in s'.known
    ensures Accepts(s'.client, session) <==> forall e <- events :: !e.LoadError? && !e.CreateTimeout?
  {
    WaitsOn(s, events, s');
    RunKeepsInv(s, events, s');
  }

  /** What is on screen is the latest choice, or a newer choice is still waited for. */
  lemma ShownIsChosen(events: seq<Event>, s: System)
    requires Runs(Init(), events, s)
    ensures s.client.shown.Some? && s.client.pendingLoad.None? && s.choice != NewSession ==>
            s.choice == Session(s.client.shown.value)
    ensures s.client.pendingLoad.Some? ==> s.choice == Session(s.client.pendingLoad.value.session)
    ensures s.choice == Nothing ==> s.client.shown.None?
  {
    RunKeepsInv(Init(), events, s);
  }

  // -------------------------------------------------------------------------
  // The history painted

  /** No history on the wire would be painted for a session that is not the one shown. */
  predicate Guarded(s: System) {
    forall session <- s.histories :: Paints(s.client, session) ==> s.client.shown == Some(session)
  }

  /** The client goes to an empty screen: a leave, or a switch to another session. */
  predicate ClearsScreen(s: System, e: Event) {
    match e
    case Leave => true
    case Switch(name) => !AlreadyThere(s.client, name)
    case _ => false
  }

  /** The history was not abandoned before, and clearing the screen does not abandon it. */
  predicate StaysWelcome(c: ClientState, session: nat) {
    Id(session) !in c.abandoned && (c.shown != Some(session) || c.authoritative)
  }

  /**
   * Clearing the screen of a session takes away the guard of the session shown while a
   * history that nothing has abandoned is on the wire.
   */
  predicate Exposes(s: System, e: Event) {
    ClearsScreen(s, e) && s.client.shown.Some? && exists session <- s.histories :: StaysWelcome(s.client, session)
  }

  lemma ExposedIsPainted(s: System, e: Event)
    requires Inv(s) && Enabled(s, e) && Exposes(s, e)
    ensures !Guarded(Step(s, e))
  {
    var session :| session in s.histories && StaysWelcome(s.client, session);
    assert session in Step(s, e).histories && Paints(Step(s, e).client, session);
  }

  lemma OthersStayGuarded(s: System, e: Event)
    requires Inv(s) && Enabled(s, e) && Guarded(s) && !Exposes(s, e)
    ensures Guarded(Step(s, e))
  {
    forall session | session in Step(s, e).histories && Paints(Step(s, e).client, session)
      ensures Step(s, e).client.shown == Some(session)
    {
      assert session in s.histories && s.client.shown.Some? && ClearsScreen(s, e) ==> !StaysWelcome(s.client, session);
    }
  }

  /** A step lets a history of another session than the one shown be painted exactly when it exposes one. */
  lemma GuardExact(s: System, e: Event)
    requires Inv(s) && Enabled(s, e) && Guarded(s)
    ensures Guarded(Step(s, e)) <==> !Exposes(s, e)
  {
    if Exposes(s, e) {
      ExposedIsPainted(s, e);
    } else {
      OthersStayGuarded(s, e);
    }
  }

  /** A run none of whose steps exposes a history. */
  ghost predicate KeepsGuard(s: System, events: seq<Event>)
    decreases |events|
  {
    events != [] && Enabled(s, events[0]) ==> !Exposes(s, events[0]) && KeepsGuard(Step(s, events[0]), events[1..])
  }

  lemma {:induction false} RunKeepsGuard(s: System, events: seq<Event>, s': System)
    requires Inv(s) && Guarded(s) && Runs(s, events, s') && KeepsGuard(s, events)
    ensures Inv(s') && Guarded(s')
    decreases |events|
  {
    if events != [] {
      StepKeepsInv(s, events[0]);
      GuardExact(s, events[0]);
      RunKeepsGuard(Step(s, events[0]), events[1..], s');
    }
  }

  /**
   * In such a run a history changes anything only for the session shown, and then it is
   * painted; that is the latest choice, or what stays on screen while a newer one is
   * waited for.
   */
  lemma PaintedIsShown(events: seq<Event>, s: System, session: nat)
    requires Runs(Init(), events, s) && KeepsGuard(Init(), events)
    requires session in s.histories
    ensures Paints(s.client, session) ==> s.client.shown == Some(session)
    ensures Paints(s.client, session) && s.client.pendingLoad.None? && s.choice != NewSession ==>
            s.choice == Session(session)
    ensures Step(s, History(session)).client != s.client ==>
              Paints(s.client, session) && Step(s, History(session)).client.painted == Some(session)
  {
    RunKeepsGuard(Init(), events, s);
  }

  /** And a step that does expose one can be followed at once by its being painted on an empty screen. */
  lemma ExposedReachesScreen(events: seq<Event>, s: System, e: Event) returns (session: nat)
    requires Runs(Init(), events, s) && Enabled(s, e) && Exposes(s, e)
    ensures var t := Step(s, e);
            && Enabled(t, History(session)) && t.client.shown.None?
            && Step(t, History(session)).client.painted == Some(session)
  {
    RunKeepsInv(Init(), events, s);
    session :| session in s.histories && StaysWelcome(s.client, session);
  }

  lemma {:induction false} RunThen(s: System, events: seq<Event>, s': System, e: Event)
    requires Runs(s, events, s') && Enabled(s', e)
    ensures Runs(s, events + [e], Step(s', e))
    decreases |events|
  {
    if events == [] {
      assert Runs(Step(s, e), [e][1..], Step(s, e));
    } else {
      RunThen(Step(s, events[0]), events[1..], s', e);
      assert (events + [e])[1..] == events[1..] + [e];
    }
  }

  /**
   * Where a step does expose one: a create made while session 0's history is still
   * arriving, accepted, and left again, after which that history is painted although
   * the user is in no session.
   */
  lemma LateHistoryPaints() returns (events: seq<Event>, s: System)
    ensures Runs(Init(), events, s)
    ensures s.choice == Nothing && s.client.shown.None?
    ensures Enabled(s, History(0)) && Step(s, History(0)).client.painted == Some(0)
  {
    events, s := LoadedThenNew();
    RunThen(Init(), events, s, CreateReply(1));
    events, s := events + [CreateReply(1)], Step(s, CreateReply(1));
    RunThen(Init(), events, s, Leave);
    events, s := events + [Leave], Step(s, Leave);
  }

  /** A session loaded, its history on the wire, and a create asked for over it. */
  lemma LoadedThenNew() returns (events: seq<Event>, s: System)
    ensures Runs(Init(), events, s)
    ensures s == System(Blank().(open := true, shown := Some(0), creating := true), {}, true, {0}, {0}, NewSession)
  {
    events, s := [], Init();
    RunThen(Init(), events, s, Open);
    events, s := events + [Open], Step(s, Open);
    RunThen(Init(), events, s, Join(File(0)));
    events, s := events + [Join(File(0))], Step(s, Join(File(0)));
    RunThen(Init(), events, s, LoadReply(0));
    events, s := events + [LoadReply(0)], Step(s, LoadReply(0));
    RunThen(Init(), events, s, MakeNew);
    events, s := events + [MakeNew], Step(s, MakeNew);
  }

  /**
   * The error of an abandoned load ends the wait for the create made after it: the
   * create's own reply is then dropped, although it is the latest choice.
   */
  lemma LateErrorLosesCreate() returns (events: seq<Event>, s: System)
    ensures Runs(Init(), events, s)
    ensures s.choice == NewSession && s.create && 1 !in s.known && !Accepts(s.client, 1)
  {
    events, s := [], Init();
    RunThen(Init(), events, s, Open);
    events, s := events + [Open], Step(s, Open);
    RunThen(Init(), events, s, Join(File(0)));
    events, s := events + [Join(File(0))], Step(s, Join(File(0)));
    RunThen(Init(), events, s, MakeNew);
    events, s := events + [MakeNew], Step(s, MakeNew);
    RunThen(Init(), events, s, LoadError(0));
    events, s := events + [LoadError(0)], Step(s, LoadError(0));
  }

  // -------------------------------------------------------------------------
  // The chosen session's history reaches the screen

  /** The session chosen and shown is not an abandoned one. */
  predicate WelcomesChosen(s: System) {
    s.client.shown.Some? && s.client.pendingLoad.None? && s.choice == Session(s.client.shown.value) ==>
      Id(s.client.shown.value) !in s.client.abandoned
  }

  lemma StepKeepsWelcome(s: System, e: Event)
    requires Inv(s) && WelcomesChosen(s) && Enabled(s, e)
    ensures WelcomesChosen(Step(s, e))
  {
  }

  lemma {:induction false} RunKeepsWelcome(s: System, events: seq<Event>, s': System)
    requires Inv(s) && WelcomesChosen(s) && Runs(s, events, s')
    ensures Inv(s') && WelcomesChosen(s')
    decreases |events|
  {
    if events != [] {
      StepKeepsInv(s, events[0]);
      StepKeepsWelcome(s, events[0]);
      RunKeepsWelcome(Step(s, events[0]), events[1..], s');
    }
  }

  /**
   * After any run, the history of the session chosen and shown is painted when it
   * comes, and ends the loading; nothing else about what is shown changes.
   */
  lemma ChosenIsPainted(events: seq<Event>, s: System, session: nat)
    requires Runs(Init(), events, s) && session in s.histories
    requires s.choice == Session(session) && s.client.shown == Some(session) && s.client.pendingLoad.None?
    ensures var c := Step(s, History(session)).client;
            c.painted == Some(session) && c.shown == Some(session) && c.authoritative && !c.loading && !c.resyncing
  {
    RunKeepsWelcome(Init(), events, s);
  }

  /**
   * And so it does after the reply to the load or the create that was chosen last: the
   * two replies show it, whatever came before.
   */
  lemma ReplyThenHistory(events: seq<Event>, s: System, e: Event, session: nat)
    requires Runs(Init(), events, s) && Enabled(s, e) && (e == LoadReply(session) || e == CreateReply(session))
    requires Accepts(s.client, session)
    ensures var t := Step(s, e);
            && Enabled(t, History(session)) && t.choice == Session(session)
            && Step(t, History(session)).client.painted == Some(session) && !Step(t, History(session)).client.loading
  {
    AcceptedIsLatestChoice(events, s, session);
    RunKeepsWelcome(Init(), events, s);
    RunThen(Init(), events, s, e);
    ChosenIsPainted(events + [e], Step(s, e), session);
  }

  // -------------------------------------------------------------------------
  // What a new socket asks for

  predicate CreatesOnly(c: ClientState) {
    c.creating && c.pendingLoad.None? && !c.loading && !c.resyncing
  }

  /** The session is the choice waited for: loading anew, or shown and being brought up to date. */
  predicate LoadsNow(t: System, session: nat) {
    && t.choice == Session(session) && MatchesPending(t.client, session)
    && (t.client.loading || t.client.resyncing)
    && (t.client.shown == Some(session) && t.client.resyncing ==> !t.client.authoritative)
  }

  /** A new socket asks for what was asked for while there was none, else for the session shown, if any. */
  predicate AsksOnce(s: System, t: System) {
    var shown := s.client.shown;
    match s.client.queued
    case Some(Create) => t.loads == {} && t.create && t.choice == NewSession && CreatesOnly(t.client)
    case Some(Load(name)) => t.loads == {name.session} && !t.create && LoadsNow(t, name.session)
    case None =>
      && !t.create
      && if shown.Some? then t.loads == {shown.value} && LoadsNow(t, shown.value)
         else t.loads == {} && t.choice == s.choice && !t.client.loading && !t.client.resyncing
  }

  /** After any run it asks for exactly one thing, or nothing, and changes neither what is shown nor the screen. */
  lemma OpenAsks(events: seq<Event>, s: System)
    requires Runs(Init(), events, s) && !s.client.open
    ensures var t := Step(s, Open);
            && AsksOnce(s, t) && t.client.open && t.client.queued.None? && t.client.abandoned == {}
            && t.client.shown == s.client.shown && t.client.painted == s.client.painted
  {
    RunKeepsInv(Init(), events, s);
    RunKeepsEnding(Init(), events, s);
    RunKeepsResync(Init(), events, s);
    OpenStep(s);
  }

  lemma OpenStep(s: System)
    requires Inv(s) && LoadingEnds(s) && ResyncsShown(s) && !s.client.open
    ensures AsksOnce(s, Step(s, Open))
  {
  }

  // -------------------------------------------------------------------------
  // Loading comes to an end

  /** Something that ends the loading is on its way: the reply waited for, the history shown, or the next socket. */
  predicate LoadingEnds(s: System) {
    s.client.loading ==>
      if !s.client.open then s.client.queued.Some? && s.client.queued.value.Load?
      else if s.client.pendingLoad.Some? then s.client.pendingLoad.value.session in s.loads
      else s.client.shown.Some? && s.client.shown.value in s.histories && s.choice == Session(s.client.shown.value)
  }

  lemma StepKeepsEnding(s: System, e: Event)
    requires Inv(s) && WelcomesChosen(s) && LoadingEnds(s) && Enabled(s, e)
    ensures LoadingEnds(Step(s, e))
  {
  }

  lemma {:induction false} RunKeepsEnding(s: System, events: seq<Event>, s': System)
    requires Inv(s) && WelcomesChosen(s) && LoadingEnds(s) && Runs(s, events, s')
    ensures LoadingEnds(s')
    decreases |events|
  {
    if events != [] {
      StepKeepsInv(s, events[0]);
      StepKeepsWelcome(s, events[0]);
      StepKeepsEnding(s, events[0]);
      RunKeepsEnding(Step(s, events[0]), events[1..], s');
    }
  }

  /**
   * After any run in which the client is loading on an open socket, what it loads is
   * the session chosen last, and its replies are on the wire: they paint it and end
   * the loading.
   */
  lemma LoadingIsAnswered(events: seq<Event>, s: System)
    requires Runs(Init(), events, s) && s.client.loading && s.client.open
    ensures s.choice.Session?
    ensures var session := s.choice.session;
            var t := if session in s.loads then Step(s, LoadReply(session)) else s;
            && Enabled(t, History(session))
            && Step(t, History(session)).client.painted == Some(session) && !Step(t, History(session)).client.loading
  {
    RunKeepsInv(Init(), events, s);
    RunKeepsEnding(Init(), events, s);
    var session := s.choice.session;
    if session in s.loads {
      ReplyThenHistory(events, s, LoadReply(session), session);
    } else {
      ChosenIsPainted(events, s, session);
    }
  }

  // -------------------------------------------------------------------------
  // What each choice does

  /**
   * A tap on the session on screen changes nothing. Any other choice of a session is
   * loading at once, asked for or waiting for the next socket; a tap empties the
   * screen first, and a join leaves it.
   */
  lemma ChosenIsAsked(s: System, e: Event)
    requires Inv(s) && Enabled(s, e) && (e.Join? || e.Switch?)
    ensures var c, t, name := s.client, Step(s, e), e.name;
            if e.Switch? && name.File? && c.shown == Some(name.session) && !c.loading && !c.resyncing then t == s
            else
              && t.choice == Session(name.session) && t.client.loading && t.client.pendingLoad == Some(name)
              && name !in t.client.abandoned
              && (if c.open then t.loads == s.loads + {name.session} && t.client.queued == c.queued
                  else t.loads == s.loads && t.client.queued == Some(Load(name)))
              && (if e.Switch? then t.client.shown.None? && t.client.painted.None? && !t.client.resyncing
                  else t.client.shown == c.shown && t.client.painted == c.painted)
              && t.create == s.create && t.histories == s.histories
  {
  }

  /** A new session is asked for in the same way, over the one on screen. */
  lemma NewIsAsked(s: System)
    requires Inv(s) && Enabled(s, MakeNew)
    ensures var c, t := s.client, Step(s, MakeNew);
            && t.choice == NewSession && t.client.creating && !t.client.loading && t.client.pendingLoad.None?
            && (if c.open then t.create && t.client.queued == c.queued
                else !t.create && t.client.queued == Some(Create))
            && t.client.shown == c.shown && t.client.painted == c.painted && t.client.resume.None?
            && t.loads == s.loads && t.histories == s.histories
  {
  }

  /** Something is shown to be brought up to date. */
  predicate ResyncsShown(s: System) {
    s.client.resyncing ==> s.client.shown.Some?
  }

  lemma {:induction false} RunKeepsResync(s: System, events: seq<Event>, s': System)
    requires Inv(s) && ResyncsShown(s) && Runs(s, events, s')
    ensures ResyncsShown(s')
    decreases |events|
  {
    if events != [] {
      StepKeepsInv(s, events[0]);
      RunKeepsResync(Step(s, events[0]), events[1..], s');
    }
  }

  /** After any run, leaving leaves nothing shown, waited for, queued or in progress. */
  lemma LeaveIdles(events: seq<Event>, s: System)
    requires Runs(Init(), events, s)
    ensures var c := Step(s, Leave).client;
            && c.shown.None? && c.resume.None? && c.pendingLoad.None? && c.queued.None?
            && !c.creating && !c.loading && !c.resyncing && c.open == s.client.open
  {
    RunKeepsInv(Init(), events, s);
    RunKeepsEnding(Init(), events, s);
    RunKeepsResync(Init(), events, s);
  }

  /**
   * A request that timed out before there was a socket is not sent by the next one: it
   * only rejoins what is shown.
   */
  lemma TimedOutIsNotAsked(events: seq<Event>, s: System, e: Event)
    requires Runs(Init(), events, s) && !s.client.open
    requires match s.client.queued
             case Some(Load(_)) => e == LoadTimeout
             case Some(Create) => e == CreateTimeout
             case None => false
    ensures var t := Step(Step(s, e), Open);
            && !t.create && t.loads == if s.client.shown.Some? then {s.client.shown.value} else {}
  {
    RunThen(Init(), events, s, e);
    OpenAsks(events + [e], Step(s, e));
  }

  /** The other timeout keeps what is queued, and each ends what it is the timeout of. */
  lemma TimeoutKeepsOther(s: System)
    ensures s.client.queued == Some(Create) ==> Step(s, LoadTimeout).client.queued == Some(Create)
    ensures s.client.queued.Some? && s.client.queued.value.Load? ==>
              Step(s, CreateTimeout).client.queued == s.client.queued
    ensures var c := Step(s, LoadTimeout).client;
            !c.loading && !c.resyncing && c.creating == s.client.creating && c.shown == s.client.shown
    ensures var c := Step(s, CreateTimeout).client;
            && !c.creating && c.loading == s.client.loading && c.resyncing == s.client.resyncing
            && c.shown == s.client.shown
  {
  }

  /** An error ends everything in progress, and touches neither the selection nor the screen. */
  lemma ErrorEnds(s: System, e: Event)
    requires Enabled(s, e) && (e.LoadError? || e.CreateError?)
    ensures Step(s, e).client == s.client.(creating := false, loading := false, resyncing := false)
  {
  }

  /**
   * A lost socket keeps the selection and the screen, and what waits for the next one;
   * a session shown is to be brought up to date, unless the page gave the socket up.
   */
  lemma CloseKeeps(s: System, suspended: bool)
    requires Inv(s)
    ensures var c, t := s.client, Step(s, Close(suspended));
            && t.client.shown == c.shown && t.client.painted == c.painted && t.client.queued == c.queued
            && t.choice == s.choice && !t.client.open && !t.client.loading && !t.client.creating
            && (t.client.resyncing <==> c.resyncing || (!suspended && c.shown.Some?))
            && t.client.resume == (if suspended && c.shown.Some? then c.shown else c.resume)
  {
  }

  /** No reply takes the welcome away from the session on screen. */
  lemma RepliesKeepShown(s: System, e: Event, session: nat)
    requires Inv(s) && Enabled(s, e) && (e.LoadReply? || e.CreateReply? || e.History?)
    requires s.client.shown == Some(session) == Step(s, e).client.shown && Id(session) !in s.client.abandoned
    ensures Id(session) !in Step(s, e).client.abandoned
    ensures e.LoadReply? || e.CreateReply? ==>
              Step(s, e).client.loading == s.client.loading && Step(s, e).client.resyncing == s.client.resyncing
  {
  }

  // -------------------------------------------------------------------------
  // What the screen says

  /** What counts as up to date is the history of the session shown. */
  predicate UpToDate(s: System) {
    s.client.authoritative && s.client.shown.Some? ==> s.client.painted == s.client.shown
  }

  predicate AwaitsLoad(s: System) {
    s.client.open && s.choice.Session? && s.choice.session in s.loads
  }

  predicate Marked(s: System) {
    s.client.loading || s.client.resyncing
  }

  /** An error or the timeout, or a history painted meanwhile for the session still on screen. */
  predicate EndsMark(s: System, e: Event)
    requires Enabled(s, e)
  {
    e.LoadError? || e.CreateError? || e.LoadTimeout? || (e.History? && Step(s, e).client != s.client)
  }

  /**
   * A load chosen is marked as in progress once it is on the wire, and while it stays
   * there, chosen or chosen anew, a step ends the mark exactly when it is one of these.
   */
  lemma MarkEndsExactly(s: System, e: Event)
    requires Inv(s) && Enabled(s, e) && AwaitsLoad(Step(s, e))
    ensures !AwaitsLoad(s) ==> Marked(Step(s, e))
    ensures AwaitsLoad(s) && Marked(s) ==> (Marked(Step(s, e)) <==> !EndsMark(s, e))
  {
  }

  ghost predicate KeepsMark(s: System, events: seq<Event>)
    decreases |events|
  {
    events != [] && Enabled(s, events[0]) ==> !EndsMark(s, events[0]) && KeepsMark(Step(s, events[0]), events[1..])
  }

  lemma {:induction false} RunKeepsScreen(s: System, events: seq<Event>, s': System)
    requires Inv(s) && Runs(s, events, s')
    ensures UpToDate(s) ==> UpToDate(s')
    ensures KeepsMark(s, events) && (AwaitsLoad(s) ==> Marked(s)) ==> (AwaitsLoad(s') ==> Marked(s'))
    ensures Guarded(s) && KeepsGuard(s, events) && (s.client.shown.None? ==> s.client.painted.None?) ==>
              (s'.client.shown.None? ==> s'.client.painted.None?)
    decreases |events|
  {
    if events != [] {
      var e := events[0];
      var t := Step(s, e);
      StepKeepsInv(s, e);
      StepKeepsScreen(s, e);
      if Guarded(s) {
        GuardExact(s, e);
      }
      RunKeepsScreen(t, events[1..], s');
    }
  }

  lemma StepKeepsScreen(s: System, e: Event)
    requires Inv(s) && Enabled(s, e)
    ensures UpToDate(s) ==> UpToDate(Step(s, e))
    ensures !EndsMark(s, e) && (AwaitsLoad(s) ==> Marked(s)) ==> (AwaitsLoad(Step(s, e)) ==> Marked(Step(s, e)))
    ensures Guarded(s) && (s.client.shown.None? ==> s.client.painted.None?) ==>
              (Step(s, e).client.shown.None? ==> Step(s, e).client.painted.None?)
  {
    if AwaitsLoad(Step(s, e)) {
      MarkEndsExactly(s, e);
    }
  }

  /**
   * After any run: what counts as up to date is on screen; if no step ended the mark,
   * the session chosen is marked as in progress until it is answered; and if none
   * exposed a history, nothing is on screen with no session.
   */
  lemma ScreenTells(events: seq<Event>, s: System)
    requires Runs(Init(), events, s)
    ensures UpToDate(s)
    ensures KeepsMark(Init(), events) && AwaitsLoad(s) ==> Marked(s)
    ensures KeepsGuard(Init(), events) && s.client.shown.None? ==> s.client.painted.None?
  {
    RunKeepsScreen(Init(), events, s);
  }
}
