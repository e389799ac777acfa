/**
 * Runs of the routing queues beside an agent that decides on its own about the sends
 * it was given: which it starts, queues, defers or drops depends on what it did before,
 * never on what the routing queues hold. Sends of one mode become queued in the order
 * they were made, and a send it deferred before a settle is not decided after it.
 */
module AgentRuns {
  import opened Options
  import opened Sequences
  import opened ReplyRouting
  import opened RoutingRuns

  /** The agent's side of the sends: the mode of each, those undecided, and the latest one queued of each mode. */
  datatype Sends = Sends(modes: map<nat, Mode>, waiting: set<nat>, deferred: set<nat>, lastSteer: int,
                         lastFollowUp: int)

  datatype World = World(sys: System, sends: Sends)

  predicate Undecided(sends: Sends, ticket: nat) {
    ticket in sends.waiting || ticket in sends.deferred
  }

  function LastQueued(sends: Sends, mode: Mode): int {
    if mode.PromptOrSteer? then sends.lastSteer else sends.lastFollowUp
  }

  predicate HasMode(sends: Sends, ticket: nat, mode: Mode) {
    ticket in sends.modes && sends.modes[ticket] == mode
  }

  /** What the agent may do next. */
  predicate Allowed(w: World, e: Event) {
    match e
    case Send(_, _) => true
    case Starts(ticket) => Undecided(w.sends, ticket)
    case Queues(ticket, mode) =>
      Undecided(w.sends, ticket) && HasMode(w.sends, ticket, mode) && LastQueued(w.sends, mode) < ticket
    case Defers(ticket) => ticket in w.sends.waiting
    case Drops(ticket) => Undecided(w.sends, ticket)
    case Delivers => w.sys.agent != Agent([], [], [])
    case Loses(source) => Holds(w.sys.agent, source)
    case Clears => true
    case Settles => w.sys.agent.started == []
  }

  function Decided(sends: Sends, ticket: nat): Sends {
    sends.(waiting := sends.waiting - {ticket}, deferred := sends.deferred - {ticket})
  }

  /** The agent's side after a step; `next` is the ticket a send gets. */
  function SendsAfter(sends: Sends, e: Event, next: nat): Sends {
    match e
    case Send(_, mode) => sends.(modes := sends.modes[next := mode], waiting := sends.waiting + {next})
    case Starts(ticket) => Decided(sends, ticket)
    case Queues(ticket, mode) =>
      if mode.PromptOrSteer? then Decided(sends, ticket).(lastSteer := ticket)
      else Decided(sends, ticket).(lastFollowUp := ticket)
    case Defers(ticket) => sends.(waiting := sends.waiting - {ticket}, deferred := sends.deferred + {ticket})
    case Drops(ticket) => Decided(sends, ticket)
    case Settles => sends.(deferred := {})
    case _ => sends
  }

  function After(w: World, e: Event): World
    requires Allowed(w, e)
  {
    World(Step(w.sys, e), SendsAfter(w.sends, e, w.sys.tickets))
  }

  function Start(): World {
    World(Init(), Sends(map[], {}, {}, -1, -1))
  }

  // -------------------------------------------------------------------------
  // The routing queues track the agent's sends

  /** Entries not started are in the order of their tickets. */
  predicate Ascending(q: seq<Recorded>) {
    forall i, j :: 0 <= i < j < |q| && !IsStarted(q[i]) ==> q[i].ticket < q[j].ticket
  }

  /** The entry is of a send in the state the agent has it in. */
  predicate TracksEntry(e: Recorded, mode: Mode, sends: Sends) {
    && (!IsStarted(e) ==> HasMode(sends, e.ticket, mode))
    && (e.state.Pending? <==> e.ticket in sends.waiting)
    && (e.state.Deferred? <==> e.ticket in sends.deferred)
    && (InPi(e) ==> e.ticket <= LastQueued(sends, mode))
  }

  predicate Tracks(q: seq<Recorded>, mode: Mode, sends: Sends) {
    Ascending(q) && forall e <- q :: TracksEntry(e, mode, sends)
  }

  function QueueOf(r: Routing, mode: Mode): seq<Recorded> {
    if mode.PromptOrSteer? then r.promptOrSteer else r.followUp
  }

  predicate Listed(q: seq<Recorded>, ticket: nat) {
    exists e :: e in q && e.ticket == ticket
  }

  /** Every undecided send has its entry. */
  ghost predicate ListsUndecided(r: Routing, sends: Sends) {
    forall ticket :: Undecided(sends, ticket) ==>
        ticket in sends.modes && Listed(QueueOf(r, sends.modes[ticket]), ticket)
  }

  ghost predicate TracksSends(r: Routing, sends: Sends, tickets: nat) {
    && Tracks(r.promptOrSteer, PromptOrSteer, sends)
    && Tracks(r.followUp, FollowUp, sends)
    && ListsUndecided(r, sends)
    && (forall ticket <- sends.modes.Keys :: ticket < tickets)
  }

  ghost predicate Tracked(w: World) {
    TracksSends(w.sys.routing, w.sends, w.sys.tickets)
  }

  lemma UndecidedAwaits(w: World, ticket: nat)
    requires Shape(w.sys) && Tracked(w) && Undecided(w.sends, ticket)
    ensures ticket in w.sends.modes && AwaitsIn(QueueOf(w.sys.routing, w.sends.modes[ticket]), ticket)
    ensures Has(w.sys.routing.promptOrSteer, ticket) <==> w.sends.modes[ticket].PromptOrSteer?
    ensures Has(w.sys.routing.followUp, ticket) <==> w.sends.modes[ticket].FollowUp?
  {
    var q := QueueOf(w.sys.routing, w.sends.modes[ticket]);
    var e :| e in q && e.ticket == ticket;
  }

  lemma QueuedInOrder(q: seq<Recorded>, mode: Mode, sends: Sends, ticket: nat)
    requires Tracks(q, mode, sends) && AwaitsIn(q, ticket) && LastQueued(sends, mode) < ticket
    ensures InOrder(q, ticket)
  {
    var i := PositionOf(q, ticket);
    forall k | i < k < |q|
      ensures !InPi(q[k])
    {
      assert q[k] in q;
    }
  }

  /** What the agent may do is always of a send that the routing queues hold. */
  lemma AllowedFits(w: World, e: Event)
    requires Shape(w.sys) && Tracked(w) && Allowed(w, e)
    ensures Fits(w.sys, e)
  {
    match e
    case Starts(ticket) => UndecidedAwaits(w, ticket);
    case Queues(ticket, mode) =>
      UndecidedAwaits(w, ticket);
      QueuedInOrder(QueueOf(w.sys.routing, mode), mode, w.sends, ticket);
    case Defers(ticket) => UndecidedAwaits(w, ticket);
    case Drops(ticket) => UndecidedAwaits(w, ticket);
    case _ =>
  }

  // -------------------------------------------------------------------------
  // Every step keeps track

  /** The agent thinks the same of the send before and after. */
  predicate SameOf(before: Sends, after: Sends, ticket: nat) {
    && (ticket in before.modes ==> ticket in after.modes && after.modes[ticket] == before.modes[ticket])
    && (ticket in after.waiting <==> ticket in before.waiting)
    && (ticket in after.deferred <==> ticket in before.deferred)
  }

  /** Entries left of a tracked queue, in its order, are tracked when nothing changed for them. */
  lemma PartTracked(q: seq<Recorded>, part: seq<Recorded>, mode: Mode, before: Sends, after: Sends)
    requires Tracks(q, mode, before) && Ascending(part)
    requires forall e <- part :: e in q && SameOf(before, after, e.ticket)
    requires LastQueued(before, mode) <= LastQueued(after, mode)
    ensures Tracks(part, mode, after)
  {
    forall e | e in part
      ensures TracksEntry(e, mode, after)
    {
      assert TracksEntry(e, mode, before);
    }
  }

  lemma WithoutTicket(q: seq<Recorded>, ticket: nat)
    requires Unique(q)
    ensures forall e <- q :: e.ticket != ticket ==> e in Without(q, PositionOf(q, ticket))
    ensures forall e <- Without(q, PositionOf(q, ticket)) :: e in q && e.ticket != ticket
  {
    var i := PositionOf(q, ticket);
    if i < |q| {
      WithoutShape(q, i);
    } else {
      assert forall e <- q :: e.ticket != ticket;
    }
  }

  /** A queue without the entry of a send, which need not have one. */
  lemma DecidedTracked(q: seq<Recorded>, ticket: nat, mode: Mode, sends: Sends)
    requires Tracks(q, mode, sends) && Unique(q)
    ensures Tracks(Without(q, PositionOf(q, ticket)), mode, Decided(sends, ticket))
    ensures forall e <- q :: e.ticket != ticket ==> e in Without(q, PositionOf(q, ticket))
    ensures forall e <- Without(q, PositionOf(q, ticket)) :: e.ticket != ticket
  {
    var rest := Without(q, PositionOf(q, ticket));
    WithoutTicket(q, ticket);
    PartTracked(q, rest, mode, sends, Decided(sends, ticket));
  }

  lemma RemovedTracked(w: World, ticket: nat)
    requires Shape(w.sys) && Tracked(w)
    ensures Tracked(World(w.sys.(routing := Removed(w.sys.routing, ticket).0), Decided(w.sends, ticket)))
  {
    var r := w.sys.routing;
    DecidedTracked(r.promptOrSteer, ticket, PromptOrSteer, w.sends);
    DecidedTracked(r.followUp, ticket, FollowUp, w.sends);
  }

  lemma InsertedTracked(q: seq<Recorded>, e: Recorded, sends: Sends)
    requires Tracks(q, PromptOrSteer, sends) && StartedFirst(q) && IsStarted(e) && !Undecided(sends, e.ticket)
    ensures Tracks(InsertStarted(q, e), PromptOrSteer, sends)
    ensures forall x <- q :: x in InsertStarted(q, e)
  {
    InsertStartedFirst(q, e);
  }

  lemma StartsTracked(w: World, ticket: nat)
    requires Shape(w.sys) && Tracked(w) && Allowed(w, Starts(ticket))
    ensures Tracked(After(w, Starts(ticket)))
  {
    AllowedFits(w, Starts(ticket));
    OnlyOneQueue(w.sys, ticket);
    RemovedTracked(w, ticket);
    RemovedShape(w.sys.routing, ticket);
    var (rest, found) := Removed(w.sys.routing, ticket);
    var e, after := found.value.(state := Started), Decided(w.sends, ticket);
    InsertedTracked(rest.promptOrSteer, e, after);
  }

  lemma SnocTracked(q: seq<Recorded>, e: Recorded, mode: Mode, sends: Sends)
    requires Tracks(q, mode, sends) && (forall x <- q :: x.ticket < e.ticket) && TracksEntry(e, mode, sends)
    ensures Tracks(q + [e], mode, sends)
  {
  }

  /** A send gets a ticket neither the agent nor a queue knows. */
  lemma NewTicket(w: World)
    requires Shape(w.sys) && Tracked(w)
    ensures !Undecided(w.sends, w.sys.tickets) && w.sys.tickets !in w.sends.modes
    ensures forall e <- w.sys.routing.promptOrSteer :: e.ticket < w.sys.tickets
    ensures forall e <- w.sys.routing.followUp :: e.ticket < w.sys.tickets
  {
    assert forall e <- w.sys.routing.promptOrSteer :: Issued(e, w.sys);
    assert forall e <- w.sys.routing.followUp :: Issued(e, w.sys);
  }

  lemma SendTracked(w: World, origin: Origin, mode: Mode)
    requires Shape(w.sys) && Tracked(w)
    ensures Tracked(After(w, Send(origin, mode)))
  {
    NewTicket(w);
    var r, w' := w.sys.routing, After(w, Send(origin, mode));
    var e := Recorded(w.sys.tickets, origin, Pending);
    PartTracked(r.promptOrSteer, r.promptOrSteer, PromptOrSteer, w.sends, w'.sends);
    PartTracked(r.followUp, r.followUp, FollowUp, w.sends, w'.sends);
    SnocTracked(QueueOf(r, mode), e, mode, w'.sends);
  }

  /** One entry changed in place, the others as before. */
  lemma ChangedTracked(q: seq<Recorded>, ticket: nat, state: EntryState, mode: Mode, before: Sends, after: Sends)
    requires Tracks(q, mode, before) && Unique(q) && !state.Started?
    requires AwaitsIn(q, ticket) || !Has(q, ticket)
    requires forall e <- q :: e.ticket != ticket ==> SameOf(before, after, e.ticket)
    requires LastQueued(before, mode) <= LastQueued(after, mode)
    requires forall e <- q :: e.ticket == ticket ==> TracksEntry(e.(state := state), mode, after)
    ensures Tracks(WithState(q, ticket, state), mode, after)
    ensures forall e <- q :: Listed(WithState(q, ticket, state), e.ticket)
  {
    var r := WithState(q, ticket, state);
    WithStateShape(q, ticket, state);
    forall k | 0 <= k < |q|
      ensures TracksEntry(r[k], mode, after) && Listed(r, q[k].ticket)
    {
      assert TracksEntry(q[k], mode, before);
      assert r[k] in r && q[k] in q;
      if q[k].ticket == ticket {
        assert k == PositionOf(q, ticket);
      }
    }
  }

  lemma ChangedInMode(q: seq<Recorded>, ticket: nat, state: EntryState, mode: Mode, before: Sends, after: Sends)
    requires Tracks(q, mode, before) && Unique(q) && Undecided(before, ticket) && !state.Started?
    requires after.modes == before.modes && LastQueued(before, mode) <= LastQueued(after, mode)
    requires forall t: nat :: t != ticket ==> SameOf(before, after, t)
    requires state.Deferred? <==> ticket in after.deferred
    requires state.Pending? <==> ticket in after.waiting
    requires state.Queued? || state.Relayed? ==>
             ticket in after.modes && ticket <= LastQueued(after, after.modes[ticket])
    ensures Tracks(WithState(q, ticket, state), mode, after)
    ensures forall e <- q :: Listed(WithState(q, ticket, state), e.ticket)
  {
    AwaitingMode(q, ticket, mode, before);
    ChangedTracked(q, ticket, state, mode, before, after);
  }

  lemma ChangeTracked(w: World, ticket: nat, state: EntryState, after: Sends)
    requires Shape(w.sys) && Tracked(w) && Undecided(w.sends, ticket) && !state.Started?
    requires after.modes == w.sends.modes
    requires forall t: nat :: t != ticket ==> SameOf(w.sends, after, t)
    requires LastQueued(w.sends, PromptOrSteer) <= LastQueued(after, PromptOrSteer)
    requires LastQueued(w.sends, FollowUp) <= LastQueued(after, FollowUp)
    requires state.Deferred? <==> ticket in after.deferred
    requires state.Pending? <==> ticket in after.waiting
    requires state.Queued? || state.Relayed? ==>
             ticket in after.modes && ticket <= LastQueued(after, after.modes[ticket])
    ensures TracksSends(SetState(w.sys.routing, ticket, state), after, w.sys.tickets)
  {
    var r := w.sys.routing;
    ChangedInMode(r.promptOrSteer, ticket, state, PromptOrSteer, w.sends, after);
    ChangedInMode(r.followUp, ticket, state, FollowUp, w.sends, after);
    forall t: nat | Undecided(after, t)
      ensures Undecided(w.sends, t)
    {
      assert t != ticket ==> SameOf(w.sends, after, t);
    }
  }

  /** The entry of an undecided send is not started, so it stands in the queue of its mode. */
  lemma AwaitingMode(q: seq<Recorded>, ticket: nat, mode: Mode, sends: Sends)
    requires Tracks(q, mode, sends) && Undecided(sends, ticket)
    ensures forall e <- q :: e.ticket == ticket ==> HasMode(sends, ticket, mode)
    ensures Has(q, ticket) ==> AwaitsIn(q, ticket)
  {
    forall e | e in q && e.ticket == ticket
      ensures HasMode(sends, ticket, mode)
    {
      assert TracksEntry(e, mode, sends);
    }
    if Has(q, ticket) {
      assert TracksEntry(q[PositionOf(q, ticket)], mode, sends);
    }
  }

  lemma QueuesTracked(w: World, ticket: nat, mode: Mode)
    requires Shape(w.sys) && Tracked(w) && Allowed(w, Queues(ticket, mode))
    ensures Tracked(After(w, Queues(ticket, mode)))
  {
    var after := SendsAfter(w.sends, Queues(ticket, mode), w.sys.tickets);
    ChangeTracked(w, ticket, Queued, after);
  }

  /** A waiting send's entry is pending, so the deferral applies. */
  lemma DefersTracked(w: World, ticket: nat)
    requires Shape(w.sys) && Tracked(w) && Allowed(w, Defers(ticket))
    ensures Tracked(After(w, Defers(ticket)))
  {
    var r := w.sys.routing;
    UndecidedAwaits(w, ticket);
    var q := QueueOf(r, w.sends.modes[ticket]);
    assert TracksEntry(q[PositionOf(q, ticket)], w.sends.modes[ticket], w.sends);
    assert DeferredSend(r, ticket) == SetState(r, ticket, Deferred);
    WaitsOnce(w, ticket);
    ChangeTracked(w, ticket, Deferred, SendsAfter(w.sends, Defers(ticket), w.sys.tickets));
  }

  lemma WaitsOnce(w: World, ticket: nat)
    requires Shape(w.sys) && Tracked(w) && Undecided(w.sends, ticket)
    ensures ticket in w.sends.waiting <==> ticket !in w.sends.deferred
  {
    UndecidedAwaits(w, ticket);
    var q := QueueOf(w.sys.routing, w.sends.modes[ticket]);
    assert TracksEntry(q[PositionOf(q, ticket)], w.sends.modes[ticket], w.sends);
  }

  /** What the agent has in its queues is decided: taking it out leaves the undecided listed. */
  lemma TakenTracked(q: seq<Recorded>, i: nat, mode: Mode, sends: Sends)
    requires Tracks(q, mode, sends) && (i < |q| ==> Known(q[i]))
    ensures Tracks(Without(q, i), mode, sends)
    ensures forall e <- q :: Undecided(sends, e.ticket) ==> Listed(Without(q, i), e.ticket)
  {
    PartTracked(q, Without(q, i), mode, sends, sends);
    assert i < |q| ==> TracksEntry(q[i], mode, sends);
  }

  /** A user message takes an entry the agent has, when it has one. */
  lemma TakesKnown(r: Routing)
    requires View(r) != Agent([], [], [])
    ensures var (i, j) := (FirstIndex(r.promptOrSteer, Known), FirstIndex(r.followUp, Known));
            if i < |r.promptOrSteer| then Taken(r).0 == r.(promptOrSteer := Without(r.promptOrSteer, i))
            else j < |r.followUp| && Taken(r).0 == r.(followUp := Without(r.followUp, j))
  {
    var i, j := FirstIndex(r.promptOrSteer, Known), FirstIndex(r.followUp, Known);
    if i == |r.promptOrSteer| && j == |r.followUp| {
      FilterNone(r.promptOrSteer, IsStarted);
      FilterNone(r.promptOrSteer, InPi);
      FilterNone(r.followUp, InPi);
      assert false;
    }
  }

  lemma DeliversTracked(w: World)
    requires Shape(w.sys) && Drifts(w.sys) && Tracked(w) && Allowed(w, Delivers)
    ensures Tracked(After(w, Delivers))
  {
    var r := w.sys.routing;
    LeftOfNonempty(w.sys);
    TakesKnown(r);
    var i, j := FirstIndex(r.promptOrSteer, Known), FirstIndex(r.followUp, Known);
    TakenTracked(r.promptOrSteer, i, PromptOrSteer, w.sends);
    TakenTracked(r.followUp, j, FollowUp, w.sends);
  }

  lemma {:induction false} FilterAscending(q: seq<Recorded>, p: Recorded -> bool)
    requires Ascending(q)
    ensures Ascending(Filter(q, p))
  {
    if q != [] {
      assert forall k :: 0 < k < |q| ==> q[k] == q[1..][k - 1];
      FilterAscending(q[1..], p);
      FilterMembers(q[1..], p);
      assert !IsStarted(q[0]) ==> forall e <- q[1..] :: q[0].ticket < e.ticket;
    }
  }

  lemma FilteredTracked(q: seq<Recorded>, p: Recorded -> bool, mode: Mode, before: Sends, after: Sends)
    requires Tracks(q, mode, before)
    requires forall e <- q :: p(e) ==> SameOf(before, after, e.ticket)
    requires forall e <- q :: Undecided(after, e.ticket) ==> p(e)
    requires LastQueued(before, mode) <= LastQueued(after, mode)
    ensures Tracks(Filter(q, p), mode, after)
    ensures forall e <- q :: Undecided(after, e.ticket) ==> Listed(Filter(q, p), e.ticket)
  {
    FilterAscending(q, p);
    FilterMembers(q, p);
    PartTracked(q, Filter(q, p), mode, before, after);
  }

  lemma UndecidedOutOfPi(q: seq<Recorded>, mode: Mode, sends: Sends)
    requires Tracks(q, mode, sends)
    ensures forall e <- q :: Undecided(sends, e.ticket) ==> OutOfPi(e)
  {
    forall e | e in q && Undecided(sends, e.ticket)
      ensures OutOfPi(e)
    {
      assert TracksEntry(e, mode, sends);
    }
  }

  lemma ClearsTracked(w: World)
    requires Shape(w.sys) && Tracked(w)
    ensures Tracked(After(w, Clears))
  {
    var r := w.sys.routing;
    UndecidedOutOfPi(r.promptOrSteer, PromptOrSteer, w.sends);
    UndecidedOutOfPi(r.followUp, FollowUp, w.sends);
    FilteredTracked(r.promptOrSteer, OutOfPi, PromptOrSteer, w.sends, w.sends);
    FilteredTracked(r.followUp, OutOfPi, FollowUp, w.sends, w.sends);
  }

  /** A trim keeps the waiting and forgets the deferred, as the agent does. */
  lemma TrimmedTracked(q: seq<Recorded>, n: nat, mode: Mode, sends: Sends)
    requires Tracks(q, mode, sends)
    ensures Tracks(Trimmed(q, n), mode, sends.(deferred := {}))
    ensures forall e <- q :: Undecided(sends.(deferred := {}), e.ticket) ==> Listed(Trimmed(q, n), e.ticket)
  {
    var keep := Newest(Filter(q, InPi), n);
    FilterMembers(q, InPi);
    assert forall e <- keep :: e in Filter(q, InPi);
    assert forall e <- q :: TracksEntry(e, mode, sends);
    FilteredTracked(q, Kept(keep), mode, sends, sends.(deferred := {}));
  }

  lemma SettlesTracked(w: World)
    requires Shape(w.sys) && Tracked(w) && Allowed(w, Settles)
    ensures Tracked(After(w, Settles))
  {
    var r, after := w.sys.routing, w.sends.(deferred := {});
    TrimmedTracked(r.promptOrSteer, |w.sys.agent.steers|, PromptOrSteer, w.sends);
    TrimmedTracked(r.followUp, |w.sys.agent.followUps|, FollowUp, w.sends);
  }

  lemma StepKeepsTracked(w: World, e: Event)
    requires Shape(w.sys) && Drifts(w.sys) && Tracked(w) && Allowed(w, e)
    ensures Tracked(After(w, e))
  {
    match e
    case Send(origin, mode) => SendTracked(w, origin, mode);
    case Starts(ticket) => StartsTracked(w, ticket);
    case Queues(ticket, mode) => QueuesTracked(w, ticket, mode);
    case Defers(ticket) => DefersTracked(w, ticket);
    case Drops(ticket) => RemovedTracked(w, ticket);
    case Delivers => DeliversTracked(w);
    case Loses(_) =>
    case Clears => ClearsTracked(w);
    case Settles => SettlesTracked(w);
  }

  // -------------------------------------------------------------------------
  // Over every run

  predicate Runs(w: World, events: seq<Event>, w': World)
    decreases |events|
  {
    if events == [] then w' == w else Allowed(w, events[0]) && Runs(After(w, events[0]), events[1..], w')
  }

  ghost predicate Inv(w: World) {
    Shape(w.sys) && Drifts(w.sys) && Tracked(w)
  }

  lemma StepKeeps(w: World, e: Event)
    requires Inv(w) && Allowed(w, e)
    ensures Inv(After(w, e))
    ensures Mirrors(w.sys) && !e.Loses? ==> Mirrors(After(w, e).sys)
    ensures e.Settles? ==> Mirrors(After(w, e).sys)
  {
    AllowedFits(w, e);
    StepKeepsDrift(w.sys, e);
    StepKeepsTracked(w, e);
  }

  lemma {:induction false} RunKeeps(w: World, events: seq<Event>, w': World)
    requires Inv(w) && Runs(w, events, w')
    ensures Inv(w')
    ensures Mirrors(w.sys) && (forall e <- events :: !e.Loses?) ==> Mirrors(w'.sys)
    decreases |events|
  {
    if events != [] {
      StepKeeps(w, events[0]);
      assert events[0] in events;
      assert forall e <- events[1..] :: e in events;
      RunKeeps(After(w, events[0]), events[1..], w');
    }
  }

  lemma StartsMirrored()
    ensures Inv(Start()) && Mirrors(Start().sys)
  {
  }

  /**
   * While the agent loses nothing, the entries it has mirror its own queues, and the
   * user message it delivers next makes the origin recorded for it the destination.
   */
  lemma DeliveredToOwnOrigin(events: seq<Event>, w: World)
    requires Runs(Start(), events, w) && (forall e <- events :: !e.Loses?)
    ensures View(w.sys.routing) == w.sys.agent
    ensures AttributesNext(w.sys)
  {
    StartsMirrored();
    RunKeeps(Start(), events, w);
    MirroredAttributes(w.sys);
  }

  /** What the agent decides about is always a send whose entry is there to be started, queued or deferred. */
  lemma UndecidedHasEntry(events: seq<Event>, w: World, ticket: nat)
    requires Runs(Start(), events, w) && Undecided(w.sends, ticket)
    ensures Awaits(w.sys.routing, ticket)
  {
    StartsMirrored();
    RunKeeps(Start(), events, w);
    UndecidedAwaits(w, ticket);
  }

  /**
   * Whatever the agent lost, a settle makes the two mirror each other again: the trim
   * drops only entries the agent no longer has, and keeps every pending send.
   */
  lemma SettleMirrors(events: seq<Event>, w: World)
    requires Runs(Start(), events, w) && w.sys.agent.started == []
    ensures var s' := Step(w.sys, Settles);
            && View(s'.routing) == w.sys.agent
            && Filter(s'.routing.promptOrSteer, IsPending) == Filter(w.sys.routing.promptOrSteer, IsPending)
            && Filter(s'.routing.followUp, IsPending) == Filter(w.sys.routing.followUp, IsPending)
  {
    StartsMirrored();
    RunKeeps(Start(), events, w);
    StepKeeps(w, Settles);
    TrimKeepsPending(w.sys.routing.promptOrSteer, |w.sys.agent.steers|);
    TrimKeepsPending(w.sys.routing.followUp, |w.sys.agent.followUps|);
  }

  /** From a settle on, attribution is right again for as long as nothing more is lost. */
  lemma AttributedAfterSettle(events: seq<Event>, w: World, more: seq<Event>, w': World)
    requires Runs(Start(), events, w) && Allowed(w, Settles)
    requires Runs(After(w, Settles), more, w') && (forall e <- more :: !e.Loses?)
    ensures AttributesNext(w'.sys)
  {
    StartsMirrored();
    RunKeeps(Start(), events, w);
    StepKeeps(w, Settles);
    RunKeeps(After(w, Settles), more, w');
    MirroredAttributes(w'.sys);
  }

  /**
   * A settle forgets the sends still deferred. Were the agent to start one after it,
   * the start would find no entry and the queues would no longer mirror each other.
   */
  lemma LateStartUnrecorded(events: seq<Event>, w: World, ticket: nat)
    requires Runs(Start(), events, w) && Allowed(w, Settles) && ticket in w.sends.deferred
    ensures var s := After(w, Settles).sys;
            && !Awaits(s.routing, ticket) && Step(s, Starts(ticket)).routing == s.routing
            && Mirrors(s) && !Mirrors(Step(s, Starts(ticket)))
  {
    StartsMirrored();
    RunKeeps(Start(), events, w);
    StepKeeps(w, Settles);
    ForgottenByBoth(w, ticket);
    UnknownStart(After(w, Settles).sys, ticket);
  }

  lemma ForgottenByBoth(w: World, ticket: nat)
    requires Inv(w) && Allowed(w, Settles) && ticket in w.sends.deferred
    ensures var r := After(w, Settles).sys.routing; !Has(r.promptOrSteer, ticket) && !Has(r.followUp, ticket)
  {
    WaitsOnce(w, ticket);
    ForgottenTrimmed(w.sys.routing.promptOrSteer, |w.sys.agent.steers|, PromptOrSteer, w.sends, ticket);
    ForgottenTrimmed(w.sys.routing.followUp, |w.sys.agent.followUps|, FollowUp, w.sends, ticket);
  }

  /** Starting a send without an entry changes the agent's side alone. */
  lemma UnknownStart(s: System, ticket: nat)
    requires !Has(s.routing.promptOrSteer, ticket) && !Has(s.routing.followUp, ticket)
    ensures !Awaits(s.routing, ticket) && Step(s, Starts(ticket)).routing == s.routing
    ensures Mirrors(s) ==> !Mirrors(Step(s, Starts(ticket)))
  {
  }

  lemma ForgottenTrimmed(q: seq<Recorded>, n: nat, mode: Mode, sends: Sends, ticket: nat)
    requires Tracks(q, mode, sends) && ticket in sends.deferred && ticket !in sends.waiting
    ensures !Has(Trimmed(q, n), ticket)
  {
    TrimKeepsPending(q, n);
    forall e | e in Trimmed(q, n)
      ensures e.ticket != ticket
    {
      assert TracksEntry(e, mode, sends);
    }
  }

  /** Clearing the agent's queues reports the origins of exactly what it held there, oldest first. */
  lemma ClearReports(events: seq<Event>, w: World)
    requires Runs(Start(), events, w) && (forall e <- events :: !e.Loses?)
    ensures Origins(Filter(w.sys.routing.promptOrSteer, InPi)) == OriginsOf(w.sys.agent.steers, w.sys)
    ensures Origins(Filter(w.sys.routing.followUp, InPi)) == OriginsOf(w.sys.agent.followUps, w.sys)
  {
    StartsMirrored();
    RunKeeps(Start(), events, w);
    FilterMembers(w.sys.routing.promptOrSteer, InPi);
    FilterMembers(w.sys.routing.followUp, InPi);
    OriginsAgree(Filter(w.sys.routing.promptOrSteer, InPi), w.sys);
    OriginsAgree(Filter(w.sys.routing.followUp, InPi), w.sys);
  }
}
