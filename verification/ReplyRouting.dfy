/**
 * Per-user-message reply routing of one session (`ReplyRouting` in
 * server/src/reply-routing.ts): the two queues as values with their operations, and
 * the class that splices the queues and changes the entries in place. The runs
 * against the agent's own queues are in RoutingRuns.dfy.
 */
module ReplyRouting {
  import opened Options
  import opened Sequences

  type Origin = string

  datatype Mode = PromptOrSteer | FollowUp

  datatype EntryState = Pending | Started | Queued | Deferred | Relayed

  /** One recorded send; the ticket stands for the entry's identity. */
  datatype Recorded = Recorded(ticket: nat, origin: Origin, state: EntryState)

  datatype Routing = Routing(promptOrSteer: seq<Recorded>, followUp: seq<Recorded>, current: Option<Origin>)

  predicate IsStarted(e: Recorded) {
    e.state.Started?
  }

  /** In the agent's steer or follow-up queue. */
  predicate InPi(e: Recorded) {
    e.state.Queued? || e.state.Relayed?
  }

  predicate IsPending(e: Recorded) {
    e.state.Pending?
  }

  predicate OutOfPi(e: Recorded) {
    !InPi(e)
  }

  /** The agent has it: it goes before one still awaiting its preflight. */
  predicate Known(e: Recorded) {
    !e.state.Pending? && !e.state.Deferred?
  }

  predicate Awaiting(e: Recorded) {
    !Known(e)
  }

  // -------------------------------------------------------------------------
  // Queues

  function Filter(q: seq<Recorded>, p: Recorded -> bool): seq<Recorded> {
    if q == [] then [] else (if p(q[0]) then [q[0]] else []) + Filter(q[1..], p)
  }

  function PositionOf(q: seq<Recorded>, ticket: nat): nat {
    FirstIndex(q, (e: Recorded) => e.ticket == ticket)
  }

  predicate Has(q: seq<Recorded>, ticket: nat) {
    PositionOf(q, ticket) < |q|
  }

  function WithState(q: seq<Recorded>, ticket: nat, state: EntryState): seq<Recorded> {
    var i := PositionOf(q, ticket);
    if i < |q| then q[i := q[i].(state := state)] else q
  }

  /** Behind the started entries still waiting for their `message_end`. */
  function InsertStarted(q: seq<Recorded>, e: Recorded): seq<Recorded> {
    var at := FirstIndex(q, (x: Recorded) => !IsStarted(x));
    q[..at] + [e] + q[at..]
  }

  /** Only sends still awaiting their preflight and the newest `piLength` of those in the agent's queue stay. */
  function Trimmed(q: seq<Recorded>, piLength: nat): seq<Recorded> {
    Filter(q, Kept(Newest(Filter(q, InPi), piLength)))
  }

  function Newest(q: seq<Recorded>, n: nat): seq<Recorded> {
    if n < |q| then q[|q| - n..] else q
  }

  function Kept(keep: seq<Recorded>): Recorded -> bool {
    (e: Recorded) => e.state.Pending? || e in keep
  }

  // -------------------------------------------------------------------------
  // Operations

  function Empty(): Routing {
    Routing([], [], None)
  }

  function RecordSend(r: Routing, ticket: nat, origin: Origin, mode: Mode): Routing {
    var e := Recorded(ticket, origin, Pending);
    match mode
    case PromptOrSteer => r.(promptOrSteer := r.promptOrSteer + [e])
    case FollowUp => r.(followUp := r.followUp + [e])
  }

  /** The entry goes, from whichever queue has it. */
  function Removed(r: Routing, ticket: nat): (Routing, Option<Recorded>) {
    var i, j := PositionOf(r.promptOrSteer, ticket), PositionOf(r.followUp, ticket);
    if i < |r.promptOrSteer| then (r.(promptOrSteer := Without(r.promptOrSteer, i)), Some(r.promptOrSteer[i]))
    else if j < |r.followUp| then (r.(followUp := Without(r.followUp, j)), Some(r.followUp[j]))
    else (r, None)
  }

  function StartedSend(r: Routing, ticket: nat): Routing {
    var (rest, found) := Removed(r, ticket);
    match found
    case None => r
    case Some(e) => rest.(promptOrSteer := InsertStarted(rest.promptOrSteer, e.(state := Started)))
  }

  function SetState(r: Routing, ticket: nat, state: EntryState): Routing {
    r.(promptOrSteer := WithState(r.promptOrSteer, ticket, state), followUp := WithState(r.followUp, ticket, state))
  }

  function DeferredSend(r: Routing, ticket: nat): Routing {
    var i, j := PositionOf(r.promptOrSteer, ticket), PositionOf(r.followUp, ticket);
    if (i < |r.promptOrSteer| && r.promptOrSteer[i].state.Pending?)
        || (j < |r.followUp| && r.followUp[j].state.Pending?)
    then SetState(r, ticket, Deferred) else r
  }

  /** The head of the queues: entries the agent has first, prompts and steers before follow-ups. */
  function Taken(r: Routing): (Routing, Option<Recorded>) {
    var any := (e: Recorded) => true;
    var a, b := FirstIndex(r.promptOrSteer, Known), FirstIndex(r.followUp, Known);
    var c, d := FirstIndex(r.promptOrSteer, any), FirstIndex(r.followUp, any);
    if a < |r.promptOrSteer| then (r.(promptOrSteer := Without(r.promptOrSteer, a)), Some(r.promptOrSteer[a]))
    else if b < |r.followUp| then (r.(followUp := Without(r.followUp, b)), Some(r.followUp[b]))
    else if c < |r.promptOrSteer| then (r.(promptOrSteer := Without(r.promptOrSteer, c)), Some(r.promptOrSteer[c]))
    else if d < |r.followUp| then (r.(followUp := Without(r.followUp, d)), Some(r.followUp[d]))
    else (r, None)
  }

  function TakenForUserMessage(r: Routing): Routing {
    var (rest, found) := Taken(r);
    rest.(current := match found case None => None case Some(e) => Some(e.origin))
  }

  function TrimmedToPi(r: Routing, steering: nat, followUp: nat): Routing {
    r.(promptOrSteer := Trimmed(r.promptOrSteer, steering), followUp := Trimmed(r.followUp, followUp))
  }

  function ClearedOfPi(r: Routing): Routing {
    r.(promptOrSteer := Filter(r.promptOrSteer, OutOfPi), followUp := Filter(r.followUp, OutOfPi))
  }

  function Origins(q: seq<Recorded>): seq<Origin> {
    seq(|q|, i requires 0 <= i < |q| => q[i].origin)
  }

  // -------------------------------------------------------------------------
  // The object

  class ReplyRouting {
    var promptOrSteer: seq<Recorded>
    var followUp: seq<Recorded>
    var current: Option<Origin>

    ghost function State(): Routing
      reads this
    {
      Routing(promptOrSteer, followUp, current)
    }

    constructor ()
      ensures State() == Empty()
    {
      promptOrSteer, followUp, current := [], [], None;
    }

    method Record(ticket: nat, origin: Origin, mode: Mode)
      modifies this
      ensures State() == RecordSend(old(State()), ticket, origin, mode)
    {
      var entry := Recorded(ticket, origin, Pending);
      if mode.FollowUp? {
        followUp := followUp + [entry];
      } else {
        promptOrSteer := promptOrSteer + [entry];
      }
    }

    /** `remove` */
    method Remove(ticket: nat) returns (entry: Option<Recorded>)
      modifies this`promptOrSteer, this`followUp
      ensures (State(), entry) == Removed(old(State()), ticket)
    {
      var i := PositionOf(promptOrSteer, ticket);
      if i != |promptOrSteer| {
        entry := Some(promptOrSteer[i]);
        promptOrSteer := promptOrSteer[..i] + promptOrSteer[i + 1..];
        return;
      }
      i := PositionOf(followUp, ticket);
      if i != |followUp| {
        entry := Some(followUp[i]);
        followUp := followUp[..i] + followUp[i + 1..];
        return;
      }
      entry := None;
    }

    method Start(ticket: nat)
      modifies this
      ensures State() == StartedSend(old(State()), ticket)
    {
      var entry := Remove(ticket);
      if entry.None? {
        return;
      }
      var at := FirstIndex(promptOrSteer, (e: Recorded) => !IsStarted(e));
      promptOrSteer := promptOrSteer[..at] + [entry.value.(state := Started)] + promptOrSteer[at..];
    }

    method ChangeState(ticket: nat, state: EntryState)
      modifies this
      ensures State() == SetState(old(State()), ticket, state)
    {
      var i, j := PositionOf(promptOrSteer, ticket), PositionOf(followUp, ticket);
      if i < |promptOrSteer| {
        promptOrSteer := promptOrSteer[i := promptOrSteer[i].(state := state)];
      }
      if j < |followUp| {
        followUp := followUp[j := followUp[j].(state := state)];
      }
    }

    method Defer(ticket: nat)
      modifies this
      ensures State() == DeferredSend(old(State()), ticket)
    {
      var i, j := PositionOf(promptOrSteer, ticket), PositionOf(followUp, ticket);
      if (i < |promptOrSteer| && promptOrSteer[i].state == Pending)
          || (j < |followUp| && followUp[j].state == Pending) {
        ChangeState(ticket, Deferred);
      }
    }

    method Drop(ticket: nat)
      modifies this
      ensures State() == Removed(old(State()), ticket).0
    {
      var _ := Remove(ticket);
    }

    /** `takeFirst` of one queue */
    method TakeFirst(steers: bool, p: Recorded -> bool) returns (entry: Option<Recorded>)
      modifies this`promptOrSteer, this`followUp
      ensures var q := if steers then old(promptOrSteer) else old(followUp);
              var i := FirstIndex(q, p);
              && entry == (if i < |q| then Some(q[i]) else None)
              && promptOrSteer == (if steers then Without(q, i) else old(promptOrSteer))
              && followUp == (if steers then old(followUp) else Without(q, i))
    {
      var q := if steers then promptOrSteer else followUp;
      var i := FirstIndex(q, p);
      if i == |q| {
        return None;
      }
      if steers {
        promptOrSteer := q[..i] + q[i + 1..];
      } else {
        followUp := q[..i] + q[i + 1..];
      }
      entry := Some(q[i]);
    }

    method TakeForUserMessage() returns (destination: Option<Origin>)
      modifies this
      ensures State() == TakenForUserMessage(old(State())) && destination == current
    {
      var any := (e: Recorded) => true;
      ghost var before := State();
      var entry := TakeFirst(true, Known);
      if entry.None? {
        assert State() == before;
        entry := TakeFirst(false, Known);
      }
      if entry.None? {
        assert State() == before;
        entry := TakeFirst(true, any);
      }
      if entry.None? {
        entry := TakeFirst(false, any);
      }
      current := if entry.Some? then Some(entry.value.origin) else None;
      destination := current;
    }

    method TrimToPiQueues(steeringLength: nat, followUpLength: nat)
      modifies this
      ensures State() == TrimmedToPi(old(State()), steeringLength, followUpLength)
    {
      promptOrSteer := Trimmed(promptOrSteer, steeringLength);
      followUp := Trimmed(followUp, followUpLength);
    }

    /** `clear`: the origins dropped, oldest first, one list a queue. */
    method Clear() returns (steers: seq<Origin>, followUps: seq<Origin>)
      modifies this
      ensures State() == ClearedOfPi(old(State()))
      ensures steers == Origins(Filter(old(promptOrSteer), InPi)) && followUps == Origins(Filter(old(followUp), InPi))
    {
      steers, followUps := Origins(Filter(promptOrSteer, InPi)), Origins(Filter(followUp, InPi));
      promptOrSteer, followUp := Filter(promptOrSteer, OutOfPi), Filter(followUp, OutOfPi);
    }
  }

  // -------------------------------------------------------------------------
  // Which entry a user message takes

  /** Neither awaiting its preflight nor deferred: with the agent. */
  predicate WithAgent(e: Recorded) {
    e.state == Started || e.state == Queued || e.state == Relayed
  }

  function QueueOf(r: Routing, mode: Mode): seq<Recorded> {
    if mode.PromptOrSteer? then r.promptOrSteer else r.followUp
  }

  function WithQueue(r: Routing, mode: Mode, q: seq<Recorded>): Routing {
    if mode.PromptOrSteer? then r.(promptOrSteer := q) else r.(followUp := q)
  }

  /**
   * The entry at `i` is the one to take: the oldest with the agent, prompts and steers
   * before follow-ups; and when the agent has none, the oldest of all in that order.
   */
  ghost predicate ToTake(r: Routing, mode: Mode, i: nat) {
    var q := QueueOf(r, mode);
    && i < |q|
    && if WithAgent(q[i]) then
         (forall k :: 0 <= k < i ==> !WithAgent(q[k]))
         && (mode.FollowUp? ==> forall e <- r.promptOrSteer :: !WithAgent(e))
       else
         (forall e <- r.promptOrSteer + r.followUp :: !WithAgent(e))
         && i == 0 && (mode.FollowUp? ==> r.promptOrSteer == [])
  }

  lemma OneToTake(r: Routing, mode: Mode, i: nat, mode': Mode, i': nat)
    requires ToTake(r, mode, i) && ToTake(r, mode', i')
    ensures mode == mode' && i == i'
  {
    assert QueueOf(r, mode)[i] in r.promptOrSteer + r.followUp;
    assert QueueOf(r, mode')[i'] in r.promptOrSteer + r.followUp;
  }

  /** One of the four searches finds it, and the others before it nothing. */
  lemma SearchFinds(r: Routing) returns (mode: Mode, i: nat)
    requires r.promptOrSteer != [] || r.followUp != []
    ensures ToTake(r, mode, i)
    ensures Taken(r) == (WithQueue(r, mode, Without(QueueOf(r, mode), i)), Some(QueueOf(r, mode)[i]))
  {
    var a, b := FirstIndex(r.promptOrSteer, Known), FirstIndex(r.followUp, Known);
    if a < |r.promptOrSteer| {
      mode, i := PromptOrSteer, a;
    } else if b < |r.followUp| {
      mode, i := FollowUp, b;
    } else {
      mode, i := if r.promptOrSteer != [] then PromptOrSteer else FollowUp, 0;
    }
  }

  /**
   * A user message takes that entry and leaves the others as they are; its reply goes to
   * where the entry came from, and nowhere when there is none.
   */
  lemma TakesWhich(r: Routing, mode: Mode, i: nat)
    ensures var t := TakenForUserMessage(r);
            && (ToTake(r, mode, i) ==>
                  && t.current == Some(QueueOf(r, mode)[i].origin)
                  && t.(current := r.current) == WithQueue(r, mode, Without(QueueOf(r, mode), i)))
            && (t.current.None? <==> r.promptOrSteer == [] && r.followUp == [])
            && (t.current.None? ==> t == r.(current := None))
  {
    if r.promptOrSteer != [] || r.followUp != [] {
      var found, at := SearchFinds(r);
      if ToTake(r, mode, i) {
        OneToTake(r, mode, i, found, at);
      }
    }
  }
}
