/**
 * The routing queues of ReplyRouting.dfy beside the agent's own: the agent empties its
 * started prompts before its steers and those before its follow-ups, each in order; it
 * may also lose the oldest of a queue without a user message. What every step keeps
 * of the two, as long as the routing queues know the send the agent decides about,
 * which AgentRuns.dfy shows of every run.
 */
module RoutingRuns {
  import opened Options
  import opened Sequences
  import opened ReplyRouting

  /** The tickets of the sends the agent holds. */
  datatype Agent = Agent(started: seq<nat>, steers: seq<nat>, followUps: seq<nat>)

  datatype System = System(routing: Routing, agent: Agent, tickets: nat, origins: map<nat, Origin>)

  datatype Source = FromStarted | FromSteers | FromFollowUps

  datatype Event =
    | Send(origin: Origin, mode: Mode)
    | Starts(ticket: nat)
    | Queues(ticket: nat, mode: Mode)
    | Defers(ticket: nat)
    | Drops(ticket: nat)
    | Delivers
    | Loses(source: Source)
    | Clears
    | Settles

  function Init(): System {
    System(Empty(), Agent([], [], []), 0, map[])
  }

  predicate AwaitsIn(q: seq<Recorded>, ticket: nat) {
    Has(q, ticket) && Awaiting(q[PositionOf(q, ticket)])
  }

  predicate Awaits(r: Routing, ticket: nat) {
    AwaitsIn(r.promptOrSteer, ticket) || AwaitsIn(r.followUp, ticket)
  }

  /** No later send of the same mode is queued already. */
  predicate InOrder(q: seq<Recorded>, ticket: nat) {
    var i := PositionOf(q, ticket);
    i < |q| ==> forall k :: i < k < |q| ==> !InPi(q[k])
  }

  predicate Holds(agent: Agent, source: Source) {
    match source
    case FromStarted => agent.started != []
    case FromSteers => agent.steers != []
    case FromFollowUps => agent.followUps != []
  }

  /** The event is one of a send the routing queues hold where it may happen, or of what the agent holds. */
  predicate Fits(s: System, e: Event) {
    match e
    case Send(_, _) => true
    case Starts(ticket) => Awaits(s.routing, ticket)
    case Queues(ticket, mode) =>
      && Awaits(s.routing, ticket) && (Has(s.routing.promptOrSteer, ticket) <==> mode.PromptOrSteer?)
      && InOrder(s.routing.promptOrSteer, ticket) && InOrder(s.routing.followUp, ticket)
    case Defers(ticket) => Awaits(s.routing, ticket)
    case Drops(ticket) => Awaits(s.routing, ticket)
    case Delivers => s.agent != Agent([], [], [])
    case Loses(source) => Holds(s.agent, source)
    case Clears => true
    case Settles => s.agent.started == []
  }

  function Next(agent: Agent): Source {
    if agent.started != [] then FromStarted else if agent.steers != [] then FromSteers else FromFollowUps
  }

  /** The agent gives up the oldest of a queue. */
  function Without1(agent: Agent, source: Source): Agent
    requires Holds(agent, source)
  {
    match source
    case FromStarted => agent.(started := agent.started[1..])
    case FromSteers => agent.(steers := agent.steers[1..])
    case FromFollowUps => agent.(followUps := agent.followUps[1..])
  }

  function Head(agent: Agent, source: Source): nat
    requires Holds(agent, source)
  {
    match source
    case FromStarted => agent.started[0]
    case FromSteers => agent.steers[0]
    case FromFollowUps => agent.followUps[0]
  }

  /** The agent has what the event takes from it. */
  predicate AgentCan(agent: Agent, e: Event) {
    (e.Delivers? ==> agent != Agent([], [], [])) && (e.Loses? ==> Holds(agent, e.source))
  }

  function Step(s: System, e: Event): System
    requires AgentCan(s.agent, e)
  {
    match e
    case Send(origin, mode) =>
      s.(routing := RecordSend(s.routing, s.tickets, origin, mode), tickets := s.tickets + 1,
         origins := s.origins[s.tickets := origin])
    case Starts(ticket) =>
      s.(routing := StartedSend(s.routing, ticket), agent := s.agent.(started := s.agent.started + [ticket]))
    case Queues(ticket, mode) =>
      s.(routing := SetState(s.routing, ticket, Queued),
         agent := if mode.PromptOrSteer? then s.agent.(steers := s.agent.steers + [ticket])
                  else s.agent.(followUps := s.agent.followUps + [ticket]))
    case Defers(ticket) => s.(routing := DeferredSend(s.routing, ticket))
    case Drops(ticket) => s.(routing := Removed(s.routing, ticket).0)
    case Delivers => s.(routing := TakenForUserMessage(s.routing), agent := Without1(s.agent, Next(s.agent)))
    case Loses(source) => s.(agent := Without1(s.agent, source))
    case Clears => s.(routing := ClearedOfPi(s.routing), agent := s.agent.(steers := [], followUps := []))
    case Settles => s.(routing := TrimmedToPi(s.routing, |s.agent.steers|, |s.agent.followUps|))
  }

  // -------------------------------------------------------------------------
  // The coupling

  function Tickets(q: seq<Recorded>): seq<nat> {
    if q == [] then [] else [q[0].ticket] + Tickets(q[1..])
  }

  /** The started entries come first. */
  predicate StartedFirst(q: seq<Recorded>) {
    forall i, j :: 0 <= i < j < |q| && IsStarted(q[j]) ==> IsStarted(q[i])
  }

  predicate SuffixOf(a: seq<nat>, b: seq<nat>) {
    |a| <= |b| && a == b[|b| - |a|..]
  }

  /** Tickets are given out once, with the origin recorded for each. */
  predicate Issued(e: Recorded, s: System) {
    e.ticket < s.tickets && e.ticket in s.origins && s.origins[e.ticket] == e.origin
  }

  predicate Unique(q: seq<Recorded>) {
    forall i, j :: 0 <= i < j < |q| ==> q[i].ticket != q[j].ticket
  }

  predicate Shape(s: System) {
    && (forall e <- s.routing.promptOrSteer :: Issued(e, s))
    && (forall e <- s.routing.followUp :: Issued(e, s))
    && Unique(s.routing.promptOrSteer) && Unique(s.routing.followUp)
    && (forall e, f :: e in s.routing.promptOrSteer && f in s.routing.followUp ==> e.ticket != f.ticket)
    && StartedFirst(s.routing.promptOrSteer)
    && (forall e <- s.routing.followUp :: !IsStarted(e))
  }

  /** What the routing queues say the agent holds. */
  function View(r: Routing): Agent {
    Agent(Tickets(Filter(r.promptOrSteer, IsStarted)), Tickets(Filter(r.promptOrSteer, InPi)),
          Tickets(Filter(r.followUp, InPi)))
  }

  /** The entries the agent has are the agent's queues. */
  predicate Mirrors(s: System) {
    View(s.routing) == s.agent
  }

  /** The agent's queues are what is left of them: older entries may be stale. */
  predicate Drifts(s: System) {
    LeftOf(s.agent, View(s.routing))
  }

  predicate LeftOf(agent: Agent, view: Agent) {
    && SuffixOf(agent.started, view.started)
    && SuffixOf(agent.steers, view.steers)
    && SuffixOf(agent.followUps, view.followUps)
  }

  // -------------------------------------------------------------------------
  // Filtering

  lemma FilterStep(q: seq<Recorded>, p: Recorded -> bool, e: Recorded, rest: seq<Recorded>)
    requires q == [e] + rest
    ensures Filter(q, p) == (if p(e) then [e] else []) + Filter(rest, p)
  {
    assert q[1..] == rest;
  }

  lemma {:induction false} FilterConcat(a: seq<Recorded>, b: seq<Recorded>, p: Recorded -> bool)
    ensures Filter(a + b, p) == Filter(a, p) + Filter(b, p)
  {
    if a == [] {
      assert a + b == b && [] + Filter(b, p) == Filter(b, p);
    } else {
      var e, rest := a[0], a[1..];
      FilterConcat(rest, b, p);
      assert a == [e] + rest && a + b == [e] + (rest + b);
      FilterStep(a, p, e, rest);
      FilterStep(a + b, p, e, rest + b);
      Regroup(if p(e) then [e] else [], Filter(rest, p), Filter(b, p));
    }
  }

  lemma FilterOne(e: Recorded, p: Recorded -> bool)
    ensures Filter([e], p) == if p(e) then [e] else []
  {
    assert [e][1..] == [];
  }

  lemma FilterBetween(a: seq<Recorded>, e: Recorded, b: seq<Recorded>, p: Recorded -> bool)
    ensures Filter(a + [e] + b, p) == Filter(a, p) + (if p(e) then [e] else []) + Filter(b, p)
  {
    FilterConcat(a + [e], b, p);
    FilterConcat(a, [e], p);
    FilterOne(e, p);
  }

  /** Around one entry: the queue, the queue without it, and the queue with it replaced. */
  lemma FilterAround(q: seq<Recorded>, i: nat, e: Recorded, p: Recorded -> bool)
    requires i < |q|
    ensures Filter(q, p) == Filter(q[..i], p) + (if p(q[i]) then [q[i]] else []) + Filter(q[i + 1..], p)
    ensures Filter(Without(q, i), p) == Filter(q[..i], p) + Filter(q[i + 1..], p)
    ensures Filter(q[i := e], p) == Filter(q[..i], p) + (if p(e) then [e] else []) + Filter(q[i + 1..], p)
  {
    var a, b := q[..i], q[i + 1..];
    assert q == a + [q[i]] + b;
    assert q[i := e] == a + [e] + b;
    FilterBetween(a, q[i], b, p);
    FilterBetween(a, e, b, p);
    FilterConcat(a, b, p);
  }

  lemma {:induction false} FilterNone(q: seq<Recorded>, p: Recorded -> bool)
    requires forall e <- q :: !p(e)
    ensures Filter(q, p) == []
  {
    if q != [] {
      assert q[0] in q;
      assert forall e <- q[1..] :: e in q;
      FilterNone(q[1..], p);
    }
  }

  lemma {:induction false} FilterMembers(q: seq<Recorded>, p: Recorded -> bool)
    ensures forall e :: e in Filter(q, p) <==> e in q && p(e)
  {
    if q != [] {
      FilterMembers(q[1..], p);
      assert q == [q[0]] + q[1..];
    }
  }

  lemma {:induction false} TicketsConcat(a: seq<Recorded>, b: seq<Recorded>)
    ensures Tickets(a + b) == Tickets(a) + Tickets(b)
    ensures |Tickets(a)| == |a|
  {
    if a == [] {
      assert a + b == b;
    } else {
      assert (a + b)[1..] == a[1..] + b;
      TicketsConcat(a[1..], b);
    }
  }

  lemma TicketsOne(e: Recorded)
    ensures Tickets([e]) == [e.ticket]
  {
    assert [e][1..] == [];
  }

  /** The first entry the filter keeps is the first one it satisfies. */
  lemma {:induction false} FilterHead(q: seq<Recorded>, p: Recorded -> bool)
    ensures Filter(q, p) == [] <==> FirstIndex(q, p) == |q|
    ensures FirstIndex(q, p) < |q| ==> Filter(q, p)[0] == q[FirstIndex(q, p)]
    ensures FirstIndex(q, p) < |q| ==> Filter(Without(q, FirstIndex(q, p)), p) == Filter(q, p)[1..]
  {
    var i := FirstIndex(q, p);
    if i < |q| {
      FilterAround(q, i, q[i], p);
      FilterNone(q[..i], p);
    } else {
      FilterNone(q, p);
    }
  }

  // -------------------------------------------------------------------------
  // What each operation does to the view

  lemma NothingBetween(a: seq<Recorded>, e: Recorded, b: seq<Recorded>)
    ensures a + [] + b == a + b && a + [e] + [] == a + [] + [e]
  {
  }

  lemma UnseenBy(q: seq<Recorded>, i: nat, e: Recorded, p: Recorded -> bool)
    requires i < |q| && !p(q[i]) && !p(e)
    ensures Filter(Without(q, i), p) == Filter(q, p) == Filter(q[i := e], p)
  {
    FilterAround(q, i, e, p);
    NothingBetween(Filter(q[..i], p), e, Filter(q[i + 1..], p));
  }

  /** Taking out, or changing between pending and deferred, an entry the agent does not have. */
  lemma AwaitingUnseen(q: seq<Recorded>, i: nat, e: Recorded)
    requires i < |q| && Awaiting(q[i]) && Awaiting(e)
    ensures Filter(Without(q, i), IsStarted) == Filter(q, IsStarted) == Filter(q[i := e], IsStarted)
    ensures Filter(Without(q, i), InPi) == Filter(q, InPi) == Filter(q[i := e], InPi)
  {
    UnseenBy(q, i, e, IsStarted);
    UnseenBy(q, i, e, InPi);
  }

  lemma KeptBetween(a: seq<Recorded>, e: Recorded, b: seq<Recorded>, p: Recorded -> bool)
    requires p(e) && Filter(b, p) == []
    ensures Filter(a + [e] + b, p) == Filter(a + b, p) + [e]
  {
    FilterConcat(a, b, p);
    FilterBetween(a, e, b, p);
    NothingBetween(Filter(a, p), e, []);
  }

  lemma DroppedBetween(a: seq<Recorded>, e: Recorded, b: seq<Recorded>, p: Recorded -> bool)
    requires !p(e)
    ensures Filter(a + [e] + b, p) == Filter(a + b, p)
  {
    FilterConcat(a, b, p);
    FilterBetween(a, e, b, p);
    NothingBetween(Filter(a, p), e, Filter(b, p));
  }

  lemma InsertStartedSeen(q: seq<Recorded>, e: Recorded)
    requires StartedFirst(q) && IsStarted(e)
    ensures Filter(InsertStarted(q, e), IsStarted) == Filter(q, IsStarted) + [e]
    ensures Filter(InsertStarted(q, e), InPi) == Filter(q, InPi)
  {
    var at := FirstIndex(q, (x: Recorded) => !IsStarted(x));
    FilterNone(q[at..], IsStarted);
    assert q == q[..at] + q[at..];
    KeptBetween(q[..at], e, q[at..], IsStarted);
    DroppedBetween(q[..at], e, q[at..], InPi);
  }

  lemma InsertStartedFirst(q: seq<Recorded>, e: Recorded)
    requires StartedFirst(q) && IsStarted(e)
    ensures StartedFirst(InsertStarted(q, e))
    ensures forall x :: x in InsertStarted(q, e) <==> x == e || x in q
  {
    var at := FirstIndex(q, (x: Recorded) => !IsStarted(x));
    assert q == q[..at] + q[at..];
  }

  lemma QueuedSeen(q: seq<Recorded>, ticket: nat)
    requires AwaitsIn(q, ticket) && InOrder(q, ticket)
    ensures Tickets(Filter(WithState(q, ticket, Queued), InPi)) == Tickets(Filter(q, InPi)) + [ticket]
    ensures Filter(WithState(q, ticket, Queued), IsStarted) == Filter(q, IsStarted)
  {
    var i := PositionOf(q, ticket);
    var e := q[i].(state := Queued);
    FilterAround(q, i, e, InPi);
    FilterAround(q, i, e, IsStarted);
    FilterNone(q[i + 1..], InPi);
    assert Filter(q[i := e], InPi) == Filter(q, InPi) + [e];
    TicketsConcat(Filter(q, InPi), [e]);
    TicketsOne(e);
  }

  lemma FilterSnoc(q: seq<Recorded>, e: Recorded, p: Recorded -> bool)
    ensures Filter(q + [e], p) == if p(e) then Filter(q, p) + [e] else Filter(q, p)
  {
    FilterConcat(q, [e], p);
    FilterOne(e, p);
  }

  lemma SendSeen(r: Routing, ticket: nat, origin: Origin, mode: Mode)
    ensures View(RecordSend(r, ticket, origin, mode)) == View(r)
  {
    var e := Recorded(ticket, origin, Pending);
    FilterSnoc(r.promptOrSteer, e, IsStarted);
    FilterSnoc(r.promptOrSteer, e, InPi);
    FilterSnoc(r.followUp, e, InPi);
  }

  lemma WithoutShape(q: seq<Recorded>, i: nat)
    requires i < |q|
    ensures forall e :: e in Without(q, i) ==> e in q
    ensures Unique(q) ==> Unique(Without(q, i)) && forall e <- Without(q, i) :: e.ticket != q[i].ticket
    ensures StartedFirst(q) ==> StartedFirst(Without(q, i))
  {
    var r := Without(q, i);
    assert forall k :: 0 <= k < |r| ==> r[k] == if k < i then q[k] else q[k + 1];
  }

  /** The view after an operation on an entry the agent does not have. */
  lemma RemovedSeen(r: Routing, ticket: nat)
    requires Awaits(r, ticket) && (Has(r.promptOrSteer, ticket) ==> AwaitsIn(r.promptOrSteer, ticket))
    ensures View(Removed(r, ticket).0) == View(r)
    ensures Removed(r, ticket).1.Some? && Removed(r, ticket).1.value.ticket == ticket
  {
    var i, j := PositionOf(r.promptOrSteer, ticket), PositionOf(r.followUp, ticket);
    if i < |r.promptOrSteer| {
      AwaitingUnseen(r.promptOrSteer, i, r.promptOrSteer[i]);
    } else {
      AwaitingUnseen(r.followUp, j, r.followUp[j]);
    }
  }

  lemma RemovedShape(r: Routing, ticket: nat)
    ensures forall e :: e in Removed(r, ticket).0.promptOrSteer ==> e in r.promptOrSteer
    ensures forall e :: e in Removed(r, ticket).0.followUp ==> e in r.followUp
    ensures Unique(r.promptOrSteer) ==> Unique(Removed(r, ticket).0.promptOrSteer)
    ensures Unique(r.followUp) ==> Unique(Removed(r, ticket).0.followUp)
    ensures StartedFirst(r.promptOrSteer) ==> StartedFirst(Removed(r, ticket).0.promptOrSteer)
    ensures Removed(r, ticket).1.Some? ==> var e := Removed(r, ticket).1.value; e in r.promptOrSteer || e in r.followUp
  {
    var i, j := PositionOf(r.promptOrSteer, ticket), PositionOf(r.followUp, ticket);
    if i < |r.promptOrSteer| {
      WithoutShape(r.promptOrSteer, i);
    } else if j < |r.followUp| {
      WithoutShape(r.followUp, j);
    }
  }

  lemma StartedSeen(r: Routing, ticket: nat)
    requires Awaits(r, ticket) && (Has(r.promptOrSteer, ticket) ==> AwaitsIn(r.promptOrSteer, ticket))
    requires StartedFirst(r.promptOrSteer)
    ensures View(StartedSend(r, ticket)) == View(r).(started := View(r).started + [ticket])
  {
    RemovedSeen(r, ticket);
    RemovedShape(r, ticket);
    var (rest, found) := Removed(r, ticket);
    var e := found.value.(state := Started);
    InsertStartedSeen(rest.promptOrSteer, e);
    TicketsConcat(Filter(rest.promptOrSteer, IsStarted), [e]);
    TicketsOne(e);
  }

  lemma QueuesSeen(r: Routing, ticket: nat)
    requires Awaits(r, ticket) && InOrder(r.promptOrSteer, ticket) && InOrder(r.followUp, ticket)
    requires Has(r.promptOrSteer, ticket) <==> !Has(r.followUp, ticket)
    ensures View(SetState(r, ticket, Queued)) ==
              if Has(r.promptOrSteer, ticket) then View(r).(steers := View(r).steers + [ticket])
              else View(r).(followUps := View(r).followUps + [ticket])
  {
    if Has(r.promptOrSteer, ticket) {
      QueuedSeen(r.promptOrSteer, ticket);
    } else {
      QueuedSeen(r.followUp, ticket);
    }
  }

  lemma DeferredSeen(r: Routing, ticket: nat)
    requires Awaits(r, ticket) && (Has(r.promptOrSteer, ticket) <==> !Has(r.followUp, ticket))
    ensures View(DeferredSend(r, ticket)) == View(r)
  {
    var i, j := PositionOf(r.promptOrSteer, ticket), PositionOf(r.followUp, ticket);
    if i < |r.promptOrSteer| {
      AwaitingUnseen(r.promptOrSteer, i, r.promptOrSteer[i].(state := Deferred));
    } else {
      AwaitingUnseen(r.followUp, j, r.followUp[j].(state := Deferred));
    }
  }

  lemma FirstIndexAgrees(q: seq<Recorded>, p: Recorded -> bool, p': Recorded -> bool)
    requires forall e <- q :: p(e) <==> p'(e)
    ensures FirstIndex(q, p) == FirstIndex(q, p')
  {
    var i, j := FirstIndex(q, p), FirstIndex(q, p');
    assert i < |q| ==> q[i] in q;
    assert j < |q| ==> q[j] in q;
  }

  lemma StartedHead(q: seq<Recorded>)
    requires StartedFirst(q) && Filter(q, IsStarted) != []
    ensures |q| > 0 && FirstIndex(q, Known) == 0 && q[0] == Filter(q, IsStarted)[0]
    ensures Filter(Without(q, 0), IsStarted) == Filter(q, IsStarted)[1..]
    ensures Filter(Without(q, 0), InPi) == Filter(q, InPi)
  {
    FilterHead(q, IsStarted);
    assert FirstIndex(q, IsStarted) == 0;
    FilterAround(q, 0, q[0], InPi);
  }

  lemma QueuedHead(q: seq<Recorded>)
    requires Filter(q, IsStarted) == []
    ensures var i := FirstIndex(q, Known);
            if Filter(q, InPi) == [] then i == |q|
            else
              && i < |q| && q[i] == Filter(q, InPi)[0]
              && Filter(Without(q, i), InPi) == Filter(q, InPi)[1..] && Filter(Without(q, i), IsStarted) == []
  {
    FilterMembers(q, IsStarted);
    FirstIndexAgrees(q, Known, InPi);
    FilterHead(q, InPi);
    var i := FirstIndex(q, Known);
    if i < |q| {
      WithoutShape(q, i);
      FilterNone(Without(q, i), IsStarted);
    }
  }

  /** The head of one queue, when started entries come first. */
  lemma HeadSeen(q: seq<Recorded>)
    requires StartedFirst(q)
    ensures var i := FirstIndex(q, Known);
            var started, inPi := Filter(q, IsStarted), Filter(q, InPi);
            if started != [] then
              i < |q| && q[i] == started[0] && Filter(Without(q, i), IsStarted) == started[1..]
                  && Filter(Without(q, i), InPi) == inPi
            else if inPi != [] then
              i < |q| && q[i] == inPi[0] && Filter(Without(q, i), InPi) == inPi[1..]
                  && Filter(Without(q, i), IsStarted) == []
            else i == |q|
  {
    if Filter(q, IsStarted) != [] {
      StartedHead(q);
    } else {
      QueuedHead(q);
    }
  }

  lemma TicketsTail(q: seq<Recorded>)
    requires q != []
    ensures Tickets(q)[0] == q[0].ticket && Tickets(q)[1..] == Tickets(q[1..])
  {
  }

  /** A user message takes the head of what the agent holds. */
  lemma DeliveredSeen(r: Routing)
    requires StartedFirst(r.promptOrSteer) && (forall e <- r.followUp :: !IsStarted(e))
    requires View(r) != Agent([], [], [])
    ensures Taken(r).1.Some? && Taken(r).1.value.ticket == Head(View(r), Next(View(r)))
    ensures View(Taken(r).0) == Without1(View(r), Next(View(r)))
    ensures var e := Taken(r).1.value; e in r.promptOrSteer || e in r.followUp
  {
    HeadSeen(r.promptOrSteer);
    if Filter(r.promptOrSteer, IsStarted) != [] {
      TicketsTail(Filter(r.promptOrSteer, IsStarted));
    } else if Filter(r.promptOrSteer, InPi) != [] {
      TicketsTail(Filter(r.promptOrSteer, InPi));
    } else {
      HeadSeen(r.followUp);
      FilterNone(r.followUp, IsStarted);
      TicketsTail(Filter(r.followUp, InPi));
    }
  }

  // -------------------------------------------------------------------------
  // The settle

  lemma {:induction false} FilterTwice(q: seq<Recorded>, p: Recorded -> bool, p': Recorded -> bool,
                                       both: Recorded -> bool)
    requires forall e <- q :: both(e) <==> p(e) && p'(e)
    ensures Filter(Filter(q, p), p') == Filter(q, both)
  {
    if q != [] {
      assert q[0] in q;
      assert forall e <- q[1..] :: e in q;
      FilterTwice(q[1..], p, p', both);
      FilterConcat(if p(q[0]) then [q[0]] else [], Filter(q[1..], p), p');
      FilterOne(q[0], p');
      assert Filter([], p') == [];
    }
  }

  lemma {:induction false} FilterAll(q: seq<Recorded>, p: Recorded -> bool)
    requires forall e <- q :: p(e)
    ensures Filter(q, p) == q
  {
    if q != [] {
      assert q[0] in q;
      assert forall e <- q[1..] :: e in q;
      FilterAll(q[1..], p);
    }
  }

  lemma {:induction false} FilterUnique(q: seq<Recorded>, p: Recorded -> bool)
    requires Unique(q)
    ensures Unique(Filter(q, p))
  {
    if q != [] {
      FilterUnique(q[1..], p);
      FilterMembers(q[1..], p);
      assert forall k :: 0 < k < |q| ==> q[k] == q[1..][k - 1];
      assert forall e <- q[1..] :: e.ticket != q[0].ticket;
    }
  }

  /** Keeping the members of a suffix of a list without repeats keeps that suffix. */
  lemma KeepSuffix(q: seq<Recorded>, n: nat)
    requires Unique(q) && n <= |q|
    ensures Filter(q, Kept(q[n..])) == Filter(q[..n], IsPending) + q[n..]
  {
    var keep := q[n..];
    assert q == q[..n] + keep;
    FilterConcat(q[..n], keep, Kept(keep));
    FilterAll(keep, Kept(keep));
    FilterSame(q[..n], Kept(keep), IsPending);
  }

  lemma {:induction false} FilterSame(q: seq<Recorded>, p: Recorded -> bool, p': Recorded -> bool)
    requires forall e <- q :: p(e) <==> p'(e)
    ensures Filter(q, p) == Filter(q, p')
  {
    if q != [] {
      assert q[0] in q;
      assert forall e <- q[1..] :: e in q;
      FilterSame(q[1..], p, p');
    }
  }

  /** Filters commute. */
  lemma FilterSwap(q: seq<Recorded>, p: Recorded -> bool, p': Recorded -> bool)
    ensures Filter(Filter(q, p), p') == Filter(Filter(q, p'), p)
  {
    var both := (e: Recorded) => p(e) && p'(e);
    FilterTwice(q, p, p', both);
    FilterTwice(q, p', p, both);
  }

  /** Keeping the newest of the agent's queue keeps exactly those of it. */
  lemma KeptInPi(q: seq<Recorded>, keep: seq<Recorded>, n: nat)
    requires Unique(q) && n <= |Filter(q, InPi)| && keep == Filter(q, InPi)[n..]
    ensures Filter(Filter(q, Kept(keep)), InPi) == keep
  {
    FilterSwap(q, Kept(keep), InPi);
    FilterUnique(q, InPi);
    KeepSuffix(Filter(q, InPi), n);
    FilterMembers(q, InPi);
    assert forall e <- Filter(q, InPi)[..n] :: e in Filter(q, InPi);
    FilterNone(Filter(q, InPi)[..n], IsPending);
  }

  lemma KeptPending(q: seq<Recorded>, keep: seq<Recorded>)
    ensures Filter(Filter(q, Kept(keep)), IsPending) == Filter(q, IsPending)
    ensures forall e <- Filter(q, Kept(keep)) :: e in q && (e.state.Pending? || e in keep)
  {
    FilterTwice(q, Kept(keep), IsPending, IsPending);
    FilterMembers(q, Kept(keep));
  }

  /** A trim keeps of the entries in the agent's queue exactly the newest `n`. */
  lemma TrimKeepsNewest(q: seq<Recorded>, n: nat)
    requires Unique(q) && n <= |Filter(q, InPi)|
    ensures Filter(Trimmed(q, n), InPi) == Filter(q, InPi)[|Filter(q, InPi)| - n..]
  {
    KeptInPi(q, Filter(q, InPi)[|Filter(q, InPi)| - n..], |Filter(q, InPi)| - n);
  }

  /** It keeps every send still awaiting its preflight, in order, and nothing started or deferred. */
  lemma TrimKeepsPending(q: seq<Recorded>, n: nat)
    ensures Filter(Trimmed(q, n), IsPending) == Filter(q, IsPending)
    ensures forall e <- Trimmed(q, n) :: e in q && (e.state.Pending? || InPi(e))
  {
    var inPi := Filter(q, InPi);
    KeptPending(q, Newest(inPi, n));
    FilterMembers(q, InPi);
  }

  lemma {:induction false} TicketsLength(q: seq<Recorded>)
    ensures |Tickets(q)| == |q|
  {
    if q != [] {
      TicketsLength(q[1..]);
    }
  }

  lemma SuffixOfConcat(x: seq<nat>, y: seq<nat>, held: seq<nat>)
    requires |held| == |y| && SuffixOf(held, x + y)
    ensures held == y
  {
  }

  lemma SuffixTickets(a: seq<Recorded>, b: seq<Recorded>, held: seq<nat>)
    requires |held| == |b| && SuffixOf(held, Tickets(a + b))
    ensures Tickets(b) == held
  {
    TicketsConcat(a, b);
    TicketsLength(b);
    SuffixOfConcat(Tickets(a), Tickets(b), held);
  }

  lemma TrimTickets(q: seq<Recorded>, held: seq<nat>)
    requires Unique(q) && SuffixOf(held, Tickets(Filter(q, InPi)))
    ensures Tickets(Filter(Trimmed(q, |held|), InPi)) == held
  {
    var inPi := Filter(q, InPi);
    TicketsLength(inPi);
    var n := |inPi| - |held|;
    assert inPi == inPi[..n] + inPi[n..];
    SuffixTickets(inPi[..n], inPi[n..], held);
    TrimKeepsNewest(q, |held|);
  }

  lemma TrimDropsStarted(q: seq<Recorded>, n: nat)
    ensures Filter(Trimmed(q, n), IsStarted) == []
  {
    TrimKeepsPending(q, n);
    FilterNone(Trimmed(q, n), IsStarted);
  }

  /** At a settle the trim makes the routing queues the agent's again. */
  lemma SettleSeen(r: Routing, steers: seq<nat>, followUps: seq<nat>)
    requires Unique(r.promptOrSteer) && Unique(r.followUp)
    requires SuffixOf(steers, Tickets(Filter(r.promptOrSteer, InPi)))
    requires SuffixOf(followUps, Tickets(Filter(r.followUp, InPi)))
    ensures View(TrimmedToPi(r, |steers|, |followUps|)) == Agent([], steers, followUps)
  {
    TrimTickets(r.promptOrSteer, steers);
    TrimTickets(r.followUp, followUps);
    TrimDropsStarted(r.promptOrSteer, |steers|);
  }

  lemma ClearSeen(r: Routing)
    ensures View(ClearedOfPi(r)) == View(r).(steers := [], followUps := [])
  {
    FilterMembers(r.promptOrSteer, OutOfPi);
    FilterMembers(r.followUp, OutOfPi);
    FilterNone(Filter(r.promptOrSteer, OutOfPi), InPi);
    FilterNone(Filter(r.followUp, OutOfPi), InPi);
    FilterTwice(r.promptOrSteer, OutOfPi, IsStarted, IsStarted);
  }

  // -------------------------------------------------------------------------
  // Every step keeps the shape

  lemma OnlyOneQueue(s: System, ticket: nat)
    requires Shape(s)
    ensures Has(s.routing.promptOrSteer, ticket) ==> !Has(s.routing.followUp, ticket)
    ensures Awaits(s.routing, ticket) ==> (Has(s.routing.promptOrSteer, ticket) <==> !Has(s.routing.followUp, ticket))
    ensures Awaits(s.routing, ticket) ==>
            (Has(s.routing.promptOrSteer, ticket) ==> AwaitsIn(s.routing.promptOrSteer, ticket))
  {
    var i, j := PositionOf(s.routing.promptOrSteer, ticket), PositionOf(s.routing.followUp, ticket);
    assert i < |s.routing.promptOrSteer| ==> s.routing.promptOrSteer[i] in s.routing.promptOrSteer;
    assert j < |s.routing.followUp| ==> s.routing.followUp[j] in s.routing.followUp;
  }

  lemma SnocShape(q: seq<Recorded>, e: Recorded)
    requires Unique(q) && (forall x <- q :: x.ticket != e.ticket) && !IsStarted(e)
    ensures Unique(q + [e]) && (StartedFirst(q) ==> StartedFirst(q + [e]))
    ensures forall x <- q + [e] :: x == e || x in q
  {
  }

  /** An entry recorded with the next ticket. */
  lemma NextTicketNew(s: System, q: seq<Recorded>)
    requires forall e <- q :: Issued(e, s)
    ensures forall e <- q :: e.ticket != s.tickets
  {
  }

  lemma SendShape(s: System, e: Event)
    requires Shape(s) && e.Send?
    ensures Shape(Step(s, e))
  {
    var entry := Recorded(s.tickets, e.origin, Pending);
    NextTicketNew(s, s.routing.promptOrSteer);
    NextTicketNew(s, s.routing.followUp);
    SnocShape(s.routing.promptOrSteer, entry);
    SnocShape(s.routing.followUp, entry);
    assert forall x :: Issued(x, s) ==> Issued(x, Step(s, e));
  }

  lemma StartedShape(s: System, rest: Routing, e: Recorded)
    requires Shape(s.(routing := rest)) && Issued(e, s) && IsStarted(e)
    requires (forall x <- rest.promptOrSteer :: x.ticket != e.ticket)
             && (forall x <- rest.followUp :: x.ticket != e.ticket)
    ensures Shape(s.(routing := rest.(promptOrSteer := InsertStarted(rest.promptOrSteer, e))))
  {
    InsertStartedFirst(rest.promptOrSteer, e);
    InsertUnique(rest.promptOrSteer, e);
  }

  lemma RemovedKeepsShape(s: System, ticket: nat)
    requires Shape(s)
    ensures Shape(s.(routing := Removed(s.routing, ticket).0))
  {
    RemovedShape(s.routing, ticket);
    PartShape(s, Removed(s.routing, ticket).0);
  }

  lemma StartsShape(s: System, ticket: nat)
    requires Shape(s) && Awaits(s.routing, ticket)
    ensures Shape(Step(s, Starts(ticket)))
  {
    var (rest, found) := Removed(s.routing, ticket);
    OnlyOneQueue(s, ticket);
    assert found.Some?;
    RemovedKeepsShape(s, ticket);
    RemovedElsewhere(s, ticket);
    StartedShape(s, rest, found.value.(state := Started));
    AgentFree(s.(routing := StartedSend(s.routing, ticket)), Step(s, Starts(ticket)).agent);
  }

  /** The shape is the routing queues' own. */
  lemma AgentFree(s: System, agent: Agent)
    requires Shape(s)
    ensures Shape(s.(agent := agent))
  {
    assert forall e :: Issued(e, s) ==> Issued(e, s.(agent := agent));
  }

  /** The ticket taken out is gone from both queues. */
  lemma RemovedElsewhere(s: System, ticket: nat)
    requires Shape(s) && Removed(s.routing, ticket).1.Some?
    ensures var (rest, found) := Removed(s.routing, ticket);
            && Issued(found.value, s)
            && (forall e <- rest.promptOrSteer :: e.ticket != found.value.ticket)
            && (forall e <- rest.followUp :: e.ticket != found.value.ticket)
  {
    var i, j := PositionOf(s.routing.promptOrSteer, ticket), PositionOf(s.routing.followUp, ticket);
    if i < |s.routing.promptOrSteer| {
      WithoutShape(s.routing.promptOrSteer, i);
    } else {
      WithoutShape(s.routing.followUp, j);
    }
  }

  lemma InsertUnique(q: seq<Recorded>, e: Recorded)
    requires Unique(q) && forall x <- q :: x.ticket != e.ticket
    ensures Unique(InsertStarted(q, e))
  {
    var at := FirstIndex(q, (x: Recorded) => !IsStarted(x));
    var r := InsertStarted(q, e);
    assert forall k :: 0 <= k < |r| ==> r[k] == if k < at then q[k] else if k == at then e else q[k - 1];
  }

  lemma WithStateShape(q: seq<Recorded>, ticket: nat, state: EntryState)
    requires AwaitsIn(q, ticket) || !Has(q, ticket)
    requires !state.Started?
    ensures |WithState(q, ticket, state)| == |q|
    ensures forall k :: 0 <= k < |q| ==>
            WithState(q, ticket, state)[k].ticket == q[k].ticket && WithState(q, ticket, state)[k].origin == q[k].origin
    ensures forall k :: 0 <= k < |q| ==> (IsStarted(WithState(q, ticket, state)[k]) <==> IsStarted(q[k]))
  {
  }

  lemma StateShape(s: System, ticket: nat, state: EntryState)
    requires Shape(s) && Awaits(s.routing, ticket) && !state.Started?
    ensures Shape(s.(routing := SetState(s.routing, ticket, state)))
  {
    OnlyOneQueue(s, ticket);
    WithStateShape(s.routing.promptOrSteer, ticket, state);
    WithStateShape(s.routing.followUp, ticket, state);
    SameTicketsShape(s, SetState(s.routing, ticket, state));
  }

  lemma SameTicketsShape(s: System, r: Routing)
    requires Shape(s)
    requires |r.promptOrSteer| == |s.routing.promptOrSteer| && |r.followUp| == |s.routing.followUp|
    requires forall k :: 0 <= k < |r.promptOrSteer| ==>
               var (a, b) := (r.promptOrSteer[k], s.routing.promptOrSteer[k]);
                   a.ticket == b.ticket && a.origin == b.origin && (IsStarted(a) <==> IsStarted(b))
    requires forall k :: 0 <= k < |r.followUp| ==>
               var (a, b) := (r.followUp[k], s.routing.followUp[k]);
                   a.ticket == b.ticket && a.origin == b.origin && (IsStarted(a) <==> IsStarted(b))
    ensures Shape(s.(routing := r))
  {
    forall k | 0 <= k < |r.promptOrSteer|
      ensures Issued(r.promptOrSteer[k], s)
    {
      assert Issued(s.routing.promptOrSteer[k], s);
    }
    forall k | 0 <= k < |r.followUp|
      ensures Issued(r.followUp[k], s)
    {
      assert Issued(s.routing.followUp[k], s);
    }
    forall i, j | 0 <= i < |r.promptOrSteer| && 0 <= j < |r.followUp|
      ensures r.promptOrSteer[i].ticket != r.followUp[j].ticket
    {
      assert s.routing.promptOrSteer[i] in s.routing.promptOrSteer && s.routing.followUp[j] in s.routing.followUp;
    }
  }

  /** Queues made of entries of the old ones, in their order. */
  lemma PartShape(s: System, r: Routing)
    requires Shape(s)
    requires forall e <- r.promptOrSteer :: e in s.routing.promptOrSteer
    requires forall e <- r.followUp :: e in s.routing.followUp
    requires Unique(r.promptOrSteer) && Unique(r.followUp) && StartedFirst(r.promptOrSteer)
    ensures Shape(s.(routing := r))
  {
  }

  lemma TakenShape(s: System)
    requires Shape(s)
    ensures Shape(s.(routing := TakenForUserMessage(s.routing)))
  {
    var r := s.routing;
    var any := (e: Recorded) => true;
    var a, b := FirstIndex(r.promptOrSteer, Known), FirstIndex(r.followUp, Known);
    var c, d := FirstIndex(r.promptOrSteer, any), FirstIndex(r.followUp, any);
    if a < |r.promptOrSteer| {
      WithoutShape(r.promptOrSteer, a);
    } else if b < |r.followUp| {
      WithoutShape(r.followUp, b);
    } else if c < |r.promptOrSteer| {
      WithoutShape(r.promptOrSteer, c);
    } else if d < |r.followUp| {
      WithoutShape(r.followUp, d);
    }
    PartShape(s, TakenForUserMessage(r));
  }

  lemma {:induction false} FilterStartedFirst(q: seq<Recorded>, p: Recorded -> bool)
    requires StartedFirst(q)
    ensures StartedFirst(Filter(q, p))
  {
    if q != [] {
      assert forall k :: 0 <= k < |q| - 1 ==> q[1..][k] == q[k + 1];
      FilterStartedFirst(q[1..], p);
      FilterMembers(q[1..], p);
      if !IsStarted(q[0]) {
        assert forall e <- q[1..] :: !IsStarted(e);
      }
    }
  }

  lemma FilteredShape(s: System, p: Recorded -> bool, p': Recorded -> bool)
    requires Shape(s)
    ensures Shape(s.(routing := s.routing.(promptOrSteer := Filter(s.routing.promptOrSteer, p),
                                           followUp := Filter(s.routing.followUp, p'))))
  {
    FilterMembers(s.routing.promptOrSteer, p);
    FilterMembers(s.routing.followUp, p');
    FilterUnique(s.routing.promptOrSteer, p);
    FilterUnique(s.routing.followUp, p');
    FilterStartedFirst(s.routing.promptOrSteer, p);
    PartShape(s, s.routing.(promptOrSteer := Filter(s.routing.promptOrSteer, p),
                            followUp := Filter(s.routing.followUp, p')));
  }

  lemma StepKeepsShape(s: System, e: Event)
    requires Shape(s) && Fits(s, e)
    ensures Shape(Step(s, e))
  {
    match e
    case Send(_, _) => SendShape(s, e);
    case Starts(ticket) => StartsShape(s, ticket);
    case Queues(ticket, _) => StateShape(s, ticket, Queued);
    case Defers(ticket) => StateShape(s, ticket, Deferred);
    case Drops(ticket) => RemovedKeepsShape(s, ticket);
    case Delivers => TakenShape(s);
    case Loses(_) =>
    case Clears => FilteredShape(s, OutOfPi, OutOfPi);
    case Settles =>
      FilteredShape(s, Kept(Newest(Filter(s.routing.promptOrSteer, InPi), |s.agent.steers|)),
                    Kept(Newest(Filter(s.routing.followUp, InPi), |s.agent.followUps|)));
  }

  // -------------------------------------------------------------------------
  // Every step keeps the coupling

  /** The agent after a step. */
  function AgentAfter(agent: Agent, e: Event): Agent
    requires AgentCan(agent, e)
  {
    match e
    case Starts(ticket) => agent.(started := agent.started + [ticket])
    case Queues(ticket, mode) =>
      if mode.PromptOrSteer? then agent.(steers := agent.steers + [ticket])
      else agent.(followUps := agent.followUps + [ticket])
    case Delivers => Without1(agent, Next(agent))
    case Loses(source) => Without1(agent, source)
    case Clears => agent.(steers := [], followUps := [])
    case _ => agent
  }

  /** The view after a step: what the agent does, but it sees no loss, and a settle rights it. */
  function ViewAfter(view: Agent, agent: Agent, e: Event): Agent
    requires e.Delivers? ==> view != Agent([], [], [])
  {
    if e.Loses? then view else if e.Settles? then agent else AgentAfter(view, e)
  }

  lemma AgentStep(s: System, e: Event)
    requires Fits(s, e)
    ensures Step(s, e).agent == AgentAfter(s.agent, e)
  {
  }

  lemma LeftOfNonempty(s: System)
    requires Drifts(s) && s.agent != Agent([], [], [])
    ensures View(s.routing) != Agent([], [], [])
  {
  }

  predicate NamesTicket(e: Event) {
    e.Starts? || e.Queues? || e.Defers? || e.Drops?
  }

  lemma TicketStepSeen(s: System, e: Event)
    requires Shape(s) && Fits(s, e) && NamesTicket(e)
    ensures View(Step(s, e).routing) == ViewAfter(View(s.routing), s.agent, e)
  {
    OnlyOneQueue(s, e.ticket);
    match e
    case Starts(ticket) => StartedSeen(s.routing, ticket);
    case Queues(ticket, _) => QueuesSeen(s.routing, ticket);
    case Defers(ticket) => DeferredSeen(s.routing, ticket);
    case Drops(ticket) => RemovedSeen(s.routing, ticket);
  }

  lemma DeliversSeen(s: System)
    requires Shape(s) && View(s.routing) != Agent([], [], [])
    ensures View(TakenForUserMessage(s.routing)) == Without1(View(s.routing), Next(View(s.routing)))
  {
    DeliveredSeen(s.routing);
  }

  lemma SettlesSeen(s: System)
    requires Shape(s) && Drifts(s) && s.agent.started == []
    ensures View(TrimmedToPi(s.routing, |s.agent.steers|, |s.agent.followUps|)) == s.agent
  {
    SettleSeen(s.routing, s.agent.steers, s.agent.followUps);
  }

  lemma AgentStepSeen(s: System, e: Event)
    requires Shape(s) && Drifts(s) && Fits(s, e) && !NamesTicket(e)
    requires e.Delivers? ==> View(s.routing) != Agent([], [], [])
    ensures View(Step(s, e).routing) == ViewAfter(View(s.routing), s.agent, e)
  {
    match e
    case Send(origin, mode) => SendSeen(s.routing, s.tickets, origin, mode);
    case Delivers => DeliversSeen(s);
    case Loses(_) =>
    case Clears => ClearSeen(s.routing);
    case Settles => SettlesSeen(s);
  }

  lemma StepSeen(s: System, e: Event)
    requires Shape(s) && Drifts(s) && Fits(s, e)
    requires e.Delivers? ==> View(s.routing) != Agent([], [], [])
    ensures View(Step(s, e).routing) == ViewAfter(View(s.routing), s.agent, e)
  {
    if NamesTicket(e) {
      TicketStepSeen(s, e);
    } else {
      AgentStepSeen(s, e);
    }
  }

  lemma SuffixTail(a: seq<nat>, b: seq<nat>)
    requires SuffixOf(a, b)
    ensures a != [] ==> SuffixOf(a[1..], b) && SuffixOf(a[1..], b[1..])
    ensures b != [] && |a| < |b| ==> SuffixOf(a, b[1..])
    ensures SuffixOf([], b)
  {
  }

  /** Delivering takes the oldest of both, or a stale entry of the view. */
  lemma DeliverLeavesLeft(agent: Agent, view: Agent)
    requires LeftOf(agent, view) && agent != Agent([], [], []) && view != Agent([], [], [])
    ensures LeftOf(Without1(agent, Next(agent)), Without1(view, Next(view)))
  {
    SuffixTail(agent.started, view.started);
    SuffixTail(agent.steers, view.steers);
    SuffixTail(agent.followUps, view.followUps);
  }

  lemma SuffixSnoc(a: seq<nat>, b: seq<nat>, ticket: nat)
    requires SuffixOf(a, b)
    ensures SuffixOf(a + [ticket], b + [ticket])
  {
  }

  lemma LoseLeavesLeft(agent: Agent, view: Agent, source: Source)
    requires LeftOf(agent, view) && Holds(agent, source)
    ensures LeftOf(Without1(agent, source), view)
  {
    match source
    case FromStarted => SuffixTail(agent.started, view.started);
    case FromSteers => SuffixTail(agent.steers, view.steers);
    case FromFollowUps => SuffixTail(agent.followUps, view.followUps);
  }

  lemma AddLeavesLeft(agent: Agent, view: Agent, ticket: nat)
    requires LeftOf(agent, view)
    ensures LeftOf(agent.(started := agent.started + [ticket]), view.(started := view.started + [ticket]))
    ensures LeftOf(agent.(steers := agent.steers + [ticket]), view.(steers := view.steers + [ticket]))
    ensures LeftOf(agent.(followUps := agent.followUps + [ticket]), view.(followUps := view.followUps + [ticket]))
  {
    SuffixSnoc(agent.started, view.started, ticket);
    SuffixSnoc(agent.steers, view.steers, ticket);
    SuffixSnoc(agent.followUps, view.followUps, ticket);
  }

  lemma ClearLeavesLeft(agent: Agent, view: Agent)
    requires LeftOf(agent, view)
    ensures LeftOf(agent.(steers := [], followUps := []), view.(steers := [], followUps := []))
    ensures LeftOf(agent, agent)
  {
  }

  lemma StaysLeft(agent: Agent, view: Agent, e: Event)
    requires LeftOf(agent, view)
    requires e.Delivers? ==> agent != Agent([], [], []) && view != Agent([], [], [])
    requires e.Loses? ==> Holds(agent, e.source)
    ensures LeftOf(AgentAfter(agent, e), ViewAfter(view, agent, e))
  {
    match e
    case Starts(ticket) => AddLeavesLeft(agent, view, ticket);
    case Queues(ticket, _) => AddLeavesLeft(agent, view, ticket);
    case Delivers => DeliverLeavesLeft(agent, view);
    case Loses(source) => LoseLeavesLeft(agent, view, source);
    case Clears => ClearLeavesLeft(agent, view);
    case Settles => ClearLeavesLeft(agent, view);
    case _ =>
  }

  lemma StepKeepsDrift(s: System, e: Event)
    requires Shape(s) && Drifts(s) && Fits(s, e)
    ensures Shape(Step(s, e)) && Drifts(Step(s, e))
    ensures Mirrors(s) && !e.Loses? ==> Mirrors(Step(s, e))
    ensures e.Settles? ==> Mirrors(Step(s, e))
  {
    StepKeepsShape(s, e);
    if e.Delivers? {
      LeftOfNonempty(s);
    }
    StepSeen(s, e);
    AgentStep(s, e);
    StaysLeft(s.agent, View(s.routing), e);
  }

  /** The user message delivered next makes the origin recorded for it the destination. */
  predicate AttributesNext(s: System) {
    s.agent != Agent([], [], []) ==>
      var ticket := Head(s.agent, Next(s.agent));
      ticket in s.origins && Step(s, Delivers).routing.current == Some(s.origins[ticket])
  }

  lemma MirroredAttributes(s: System)
    requires Shape(s) && Mirrors(s)
    ensures AttributesNext(s)
  {
    if s.agent != Agent([], [], []) {
      DeliveredSeen(s.routing);
      assert Issued(Taken(s.routing).1.value, s);
    }
  }

  function OriginsOf(tickets: seq<nat>, s: System): seq<Origin> {
    seq(|tickets|, i requires 0 <= i < |tickets| => if tickets[i] in s.origins then s.origins[tickets[i]] else "")
  }

  lemma {:induction false} TicketAt(q: seq<Recorded>, i: nat)
    requires i < |q|
    ensures |Tickets(q)| == |q| && Tickets(q)[i] == q[i].ticket
  {
    TicketsLength(q);
    if i > 0 {
      TicketAt(q[1..], i - 1);
    }
  }

  lemma OriginsAgree(q: seq<Recorded>, s: System)
    requires forall e <- q :: Issued(e, s)
    ensures Origins(q) == OriginsOf(Tickets(q), s)
  {
    TicketsLength(q);
    forall i | 0 <= i < |q|
      ensures Origins(q)[i] == OriginsOf(Tickets(q), s)[i]
    {
      TicketAt(q, i);
      assert q[i] in q;
    }
  }
}
