/**
 * Merging streamed deltas into fewer frames (server/src/delta-coalescer.ts), and the
 * client reducers they are replayed through (client/src/client.ts).
 */
module DeltaCoalescer {
  import opened Options
  import opened Sequences

  datatype Msg =
    | MessageUpdate(sessionId: string, delta: string)
    | ThinkingUpdate(sessionId: string, delta: string)
    | ToolUpdate(sessionId: string, toolName: string, delta: string)
    | OtherFrame(body: string)

  const NUL := "\0"

  predicate IsDelta(m: Msg) {
    !m.OtherFrame?
  }

  function KeyOf(m: Msg): string
    requires IsDelta(m)
  {
    match m
    case MessageUpdate(sessionId, _) => "message_update" + (NUL + sessionId)
    case ThinkingUpdate(sessionId, _) => "thinking_update" + (NUL + sessionId)
    case ToolUpdate(sessionId, toolName, _) => "tool_update" + (NUL + (sessionId + (NUL + toolName)))
  }

  /** The two deltas append to the same thing: same kind, session and tool. */
  predicate SameTarget(a: Msg, b: Msg) {
    match a
    case MessageUpdate(s, _) => b.MessageUpdate? && b.sessionId == s
    case ThinkingUpdate(s, _) => b.ThinkingUpdate? && b.sessionId == s
    case ToolUpdate(s, t, _) => b.ToolUpdate? && b.sessionId == s && b.toolName == t
    case OtherFrame(_) => false
  }

  /** A session id holds no NUL, so the key's parts can be told apart. */
  predicate PlainId(m: Msg) {
    IsDelta(m) ==> '\0' !in m.sessionId
  }

  lemma TailsEqual(p: string, a: string, b: string)
    requires p + a == p + b
    ensures a == b
  {
    assert (p + a)[|p|..] == a && (p + b)[|p|..] == b;
  }

  lemma HeadsEqual(a: string, b: string, t: string, u: string)
    requires '\0' !in a && '\0' !in b && a + (NUL + t) == b + (NUL + u)
    ensures a == b && t == u
  {
    IndexOfSplit(a, '\0', t);
    IndexOfSplit(b, '\0', u);
    assert a == (a + (NUL + t))[..|a|] == b;
    TailsEqual(a, NUL + t, NUL + u);
    TailsEqual(NUL, t, u);
  }

  /** Two deltas have the same key exactly when they append to the same thing. */
  lemma KeyTellsTarget(a: Msg, b: Msg)
    requires IsDelta(a) && IsDelta(b) && PlainId(a) && PlainId(b)
    ensures KeyOf(a) == KeyOf(b) <==> SameTarget(a, b)
  {
    var k, l := KeyOf(a), KeyOf(b);
    assert k[0] == (if a.MessageUpdate? then 'm' else 't') && l[0] == if b.MessageUpdate? then 'm' else 't';
    assert k[1] == (if a.MessageUpdate? then 'e' else if a.ThinkingUpdate? then 'h' else 'o');
    assert l[1] == (if b.MessageUpdate? then 'e' else if b.ThinkingUpdate? then 'h' else 'o');
    if k == l {
      match a
      case MessageUpdate(s, _) =>
        TailsEqual("message_update", NUL + s, NUL + b.sessionId);
        TailsEqual(NUL, s, b.sessionId);
      case ThinkingUpdate(s, _) =>
        TailsEqual("thinking_update", NUL + s, NUL + b.sessionId);
        TailsEqual(NUL, s, b.sessionId);
      case ToolUpdate(s, t, _) =>
        TailsEqual("tool_update", NUL + (s + (NUL + t)), NUL + (b.sessionId + (NUL + b.toolName)));
        TailsEqual(NUL, s + (NUL + t), b.sessionId + (NUL + b.toolName));
        HeadsEqual(s, b.sessionId, t, b.toolName);
    }
  }

  // -------------------------------------------------------------------------
  // The coalescer

  datatype Coalescing = Coalescing(held: Option<Msg>, heldKey: string, heldSince: int, armed: bool, written: seq<Msg>)

  datatype Limits = Limits(maxChars: nat, maxHoldMs: int)

  predicate HoldsDelta(s: Coalescing) {
    s.held.Some? ==> IsDelta(s.held.value)
  }

  function HeldOf(s: Coalescing): seq<Msg> {
    if s.held.Some? then [s.held.value] else []
  }

  function Longer(m: Msg, delta: string): Msg
    requires IsDelta(m)
  {
    m.(delta := m.delta + delta)
  }

  function Flushed(s: Coalescing): Coalescing {
    s.(armed := false, held := None, heldKey := "", written := s.written + HeldOf(s))
  }

  function Taken(s: Coalescing, m: Msg, now: int): Coalescing
    requires IsDelta(m) && HoldsDelta(s)
  {
    if s.held.Some? && s.heldKey == KeyOf(m) then s.(held := Some(Longer(s.held.value, m.delta)))
    else Flushed(s).(held := Some(m), heldKey := KeyOf(m), heldSince := now, armed := true)
  }

  function Sent(s: Coalescing, m: Msg, now: int, limits: Limits): Coalescing
    requires HoldsDelta(s)
  {
    if !IsDelta(m) then Flushed(s).(written := Flushed(s).written + [m])
    else
      var t := Taken(s, m, now);
      if |t.held.value.delta| >= limits.maxChars then Flushed(t) else t
  }

  function Fired(s: Coalescing, backedUp: bool, now: int, limits: Limits): Coalescing {
    if s.held.None? then s.(armed := false)
    else if backedUp && now - s.heldSince < limits.maxHoldMs then s
    else Flushed(s)
  }

  class Coalescer {
    var held: Option<Msg>
    var heldKey: string
    var heldSince: int
    var armed: bool
    /** What was handed to the socket. */
    var written: seq<Msg>
    const limits: Limits

    ghost function State(): Coalescing
      reads this
    {
      Coalescing(held, heldKey, heldSince, armed, written)
    }

    ghost predicate Valid()
      reads this
    {
      HoldsDelta(State())
    }

    constructor (limits: Limits)
      ensures Valid() && State() == Coalescing(None, "", 0, false, []) && this.limits == limits
    {
      held, heldKey, heldSince, armed, written, this.limits := None, "", 0, false, [], limits;
    }

    method Send(m: Msg, now: int)
      requires Valid()
      modifies this
      ensures Valid() && State() == Sent(old(State()), m, now, limits)
    {
      if !IsDelta(m) {
        Flush();
        written := written + [m];
        return;
      }
      var key := KeyOf(m);
      if held.Some? && heldKey == key {
        held := Some(Longer(held.value, m.delta));
      } else {
        Flush();
        held := Some(m);
        heldKey := key;
        heldSince := now;
        armed := true;
      }
      if |held.value.delta| >= limits.maxChars {
        Flush();
      }
    }

    method Flush()
      modifies this
      ensures Valid() && State() == Flushed(old(State()))
    {
      if armed {
        armed := false;
      }
      var was := held;
      held := None;
      heldKey := "";
      if was.Some? {
        written := written + [was.value];
      }
    }

    /** The socket is gone: what is held is forgotten. */
    method Dispose()
      modifies this
      ensures Valid() && State() == old(State()).(held := None, heldKey := "", armed := false)
    {
      armed := false;
      held := None;
      heldKey := "";
    }

    /** The timer's callback. */
    method TimerFired(backedUp: bool, now: int)
      requires Valid() && armed
      modifies this
      ensures Valid() && State() == Fired(old(State()), backedUp, now, limits)
    {
      armed := false;
      if held.None? {
        return;
      }
      if backedUp && now - heldSince < limits.maxHoldMs {
        armed := true;
        return;
      }
      Flush();
    }
  }

  // -------------------------------------------------------------------------
  // Merging preserves meaning

  /** Append one message, merging it into the last one when both are deltas to the same thing. */
  function Appended(msgs: seq<Msg>, m: Msg): (r: seq<Msg>)
    ensures |r| > 0
  {
    if |msgs| > 0 && SameTarget(msgs[|msgs| - 1], m) then msgs[..|msgs| - 1] + [Longer(msgs[|msgs| - 1], m.delta)]
    else msgs + [m]
  }

  /** The messages with every run of adjacent deltas to the same thing merged into one. */
  function Normal(msgs: seq<Msg>): seq<Msg> {
    if |msgs| == 0 then [] else Appended(Normal(msgs[..|msgs| - 1]), msgs[|msgs| - 1])
  }

  lemma MergeTwice(acc: seq<Msg>, h: Msg, m: Msg)
    requires SameTarget(h, m)
    ensures Appended(Appended(acc, h), m) == Appended(acc, Longer(h, m.delta))
  {
    if |acc| > 0 && SameTarget(acc[|acc| - 1], h) {
      var l := acc[|acc| - 1];
      assert l.delta + h.delta + m.delta == l.delta + (h.delta + m.delta);
      assert (acc[..|acc| - 1] + [Longer(l, h.delta)])[..|acc| - 1] == acc[..|acc| - 1];
    } else {
      assert (acc + [h])[..|acc|] == acc;
    }
  }

  datatype Event =
    | Send(msg: Msg, now: int)
    | Flush
    | Timer(backedUp: bool, now: int)

  /** The timer fires only while it is armed. */
  function Step(s: Coalescing, e: Event, limits: Limits): (t: Coalescing)
    requires HoldsDelta(s)
    ensures HoldsDelta(t)
  {
    match e
    case Send(m, now) => Sent(s, m, now, limits)
    case Flush => Flushed(s)
    case Timer(backedUp, now) => if s.armed then Fired(s, backedUp, now, limits) else s
  }

  function Out(s: Coalescing): seq<Msg> {
    s.written + HeldOf(s)
  }

  /**
   * What was written and is held is what was sent, up to merging; the timer is armed
   * exactly while something is held, which is always shorter than the limit.
   */
  ghost predicate Inv(s: Coalescing, sent: seq<Msg>, limits: Limits) {
    && Normal(Out(s)) == Normal(sent) && |Out(s)| <= |sent|
    && (s.armed <==> s.held.Some?)
    && (s.held.Some? ==>
          && IsDelta(s.held.value) && PlainId(s.held.value)
          && s.heldKey == KeyOf(s.held.value) && |s.held.value.delta| < limits.maxChars)
  }

  lemma OutFlushed(s: Coalescing)
    ensures Out(Flushed(s)) == Out(s) && Flushed(s).written == Out(s)
  {
  }

  /** What holds once a delta is taken, before it is checked against the limit. */
  ghost predicate Holding(t: Coalescing, sent: seq<Msg>) {
    && Normal(Out(t)) == Normal(sent) && |Out(t)| <= |sent|
    && t.armed && t.held.Some?
    && IsDelta(t.held.value) && PlainId(t.held.value) && t.heldKey == KeyOf(t.held.value)
  }

  lemma TakenMerged(s: Coalescing, h: Msg, m: Msg, now: int, sent: seq<Msg>, limits: Limits)
    requires Inv(s, sent, limits) && IsDelta(m) && PlainId(m) && s.held == Some(h) && s.heldKey == KeyOf(m)
    ensures Holding(Taken(s, m, now), sent + [m])
  {
    KeyTellsTarget(h, m);
    MergeTwice(Normal(s.written), h, m);
  }

  lemma TakenKeeps(s: Coalescing, m: Msg, now: int, sent: seq<Msg>, limits: Limits)
    requires Inv(s, sent, limits) && IsDelta(m) && PlainId(m)
    ensures Holding(Taken(s, m, now), sent + [m])
  {
    if s.held.Some? && s.heldKey == KeyOf(m) {
      TakenMerged(s, s.held.value, m, now, sent, limits);
    } else {
      assert Out(Taken(s, m, now)) == Out(s) + [m];
    }
  }

  lemma StepKeeps(s: Coalescing, e: Event, sent: seq<Msg>, limits: Limits)
    requires Inv(s, sent, limits) && (e.Send? ==> PlainId(e.msg))
    ensures Inv(Step(s, e, limits), if e.Send? then sent + [e.msg] else sent, limits)
  {
    OutFlushed(s);
    if e.Send? {
      if IsDelta(e.msg) {
        var t := Taken(s, e.msg, e.now);
        TakenKeeps(s, e.msg, e.now, sent, limits);
        OutFlushed(t);
      } else {
        assert Out(Step(s, e, limits)) == Out(s) + [e.msg];
      }
    }
  }

  function SentIn(events: seq<Event>): seq<Msg> {
    if |events| == 0 then []
    else SentIn(events[..|events| - 1]) + if events[|events| - 1].Send? then [events[|events| - 1].msg] else []
  }

  predicate PlainIds(events: seq<Event>) {
    forall e <- events :: e.Send? ==> PlainId(e.msg)
  }

  const START := Coalescing(None, "", 0, false, [])

  /** The state after a run. */
  function Run(events: seq<Event>, limits: Limits): (s: Coalescing)
    ensures HoldsDelta(s)
    decreases |events|
  {
    if |events| == 0 then START else Step(Run(events[..|events| - 1], limits), events[|events| - 1], limits)
  }

  /** Every run keeps the invariant, whatever the sends, timer firings and backpressure answers. */
  lemma {:induction false} RunKeeps(events: seq<Event>, limits: Limits)
    requires PlainIds(events)
    ensures Inv(Run(events, limits), SentIn(events), limits)
    decreases |events|
  {
    if |events| > 0 {
      var before, e := events[..|events| - 1], events[|events| - 1];
      RunKeeps(before, limits);
      StepKeeps(Run(before, limits), e, SentIn(before), limits);
      assert SentIn(before) + [] == SentIn(before);
    }
  }

  /**
   * After any run, a delta to what is held for is merged into it and writes nothing
   * short of the limit, at which the merged delta goes out as one frame; any other
   * message writes what was held first, and only a delta short of the limit waits.
   */
  lemma SendWrites(events: seq<Event>, limits: Limits, m: Msg, now: int)
    requires PlainIds(events) && PlainId(m)
    ensures var s, t := Run(events, limits), Run(events + [Send(m, now)], limits);
            if s.held.Some? && SameTarget(s.held.value, m) then
              var merged := s.held.value.(delta := s.held.value.delta + m.delta);
              if |merged.delta| < limits.maxChars then t.held == Some(merged) && t.written == s.written
              else t.held == None && t.written == s.written + [merged]
            else if IsDelta(m) && |m.delta| < limits.maxChars then
              t.held == Some(m) && t.written == s.written + HeldOf(s)
            else t.held == None && t.written == s.written + HeldOf(s) + [m]
  {
    var more := events + [Send(m, now)];
    assert more[..|events|] == events;
    RunKeeps(events, limits);
    var s := Run(events, limits);
    if s.held.Some? && IsDelta(m) {
      KeyTellsTarget(s.held.value, m);
    }
  }

  // -------------------------------------------------------------------------
  // When a held delta goes out

  /**
   * What is held began with the send at `k`: whatever was held before it is written,
   * and nothing has been written since.
   */
  ghost predicate BeganAt(events: seq<Event>, limits: Limits, k: nat) {
    && k < |events| && events[k].Send? && IsDelta(events[k].msg)
    && Run(events, limits).written == Out(Run(events[..k], limits))
    && forall j :: k < j <= |events| ==> HoldsSince(events[..j], limits, Run(events, limits).written)
  }

  predicate HoldsSince(events: seq<Event>, limits: Limits, written: seq<Msg>) {
    Run(events, limits).held.Some? && Run(events, limits).written == written
  }

  lemma StillBegan(events: seq<Event>, e: Event, limits: Limits, k: nat)
    requires BeganAt(events, limits, k)
    requires HoldsSince(events + [e], limits, Run(events, limits).written)
    ensures BeganAt(events + [e], limits, k)
  {
    var more := events + [e];
    assert more[..k] == events[..k];
    forall j | k < j <= |more|
      ensures HoldsSince(more[..j], limits, Run(more, limits).written)
    {
      assert more[..j] == if j <= |events| then events[..j] else more;
    }
  }

  lemma BeginsNow(events: seq<Event>, e: Event, limits: Limits)
    requires e.Send? && IsDelta(e.msg) && HoldsSince(events + [e], limits, Out(Run(events, limits)))
    ensures BeganAt(events + [e], limits, |events|)
  {
    var more := events + [e];
    assert more[..|events|] == events && more[..|more|] == more;
    forall j | |events| < j <= |more|
      ensures HoldsSince(more[..j], limits, Run(more, limits).written)
    {
      assert j == |more|;
    }
  }

  /** What is held has a beginning among the sends, and its age is counted from there. */
  lemma {:induction false} HeldBegan(events: seq<Event>, limits: Limits) returns (k: nat)
    requires PlainIds(events) && Run(events, limits).held.Some?
    ensures BeganAt(events, limits, k) && Run(events, limits).heldSince == events[k].now
    decreases |events|
  {
    var before, e := events[..|events| - 1], events[|events| - 1];
    assert events == before + [e];
    var s := Run(before, limits);
    if e.Send? && !(s.held.Some? && IsDelta(e.msg) && s.heldKey == KeyOf(e.msg)) {
      BeginsNow(before, e, limits);
      k := |before|;
    } else {
      k := HeldBegan(before, limits);
      StillBegan(before, e, limits, k);
    }
  }

  /** What is held began less than the limit ago, and all that was sent before is written. */
  ghost predicate HeldFor(events: seq<Event>, limits: Limits, now: int) {
    exists k: nat ::
      && BeganAt(events, limits, k) && now - events[k].now < limits.maxHoldMs
      && Normal(Run(events, limits).written) == Normal(SentIn(events[..k]))
  }

  /**
   * After any run, the timer firing keeps a delta back only while the socket is backed
   * up and less than the limit has passed since the send it began with, and then
   * writes nothing; in every other case all that was sent is written.
   */
  lemma FiringWritesAll(events: seq<Event>, limits: Limits, backedUp: bool, now: int)
    requires PlainIds(events)
    ensures var s, t := Run(events, limits), Run(events + [Timer(backedUp, now)], limits);
            if t.held.None? then Normal(t.written) == Normal(SentIn(events)) && !t.armed
            else backedUp && t.written == s.written && HeldFor(events, limits, now)
  {
    var more := events + [Timer(backedUp, now)];
    assert more[..|events|] == events;
    RunKeeps(events, limits);
    var s, t := Run(events, limits), Run(more, limits);
    if t.held.Some? {
      var k := HeldBegan(events, limits);
      PlainPrefix(events, k);
      RunKeeps(events[..k], limits);
    } else {
      OutFlushed(s);
      assert t.written == Out(s);
    }
  }

  lemma PlainPrefix(events: seq<Event>, k: nat)
    requires PlainIds(events) && k <= |events|
    ensures PlainIds(events[..k])
  {
    assert forall e <- events[..k] :: e in events;
  }

  lemma OneBeginning(events: seq<Event>, limits: Limits, b: nat, k: nat)
    requires BeganAt(events, limits, b) && BeganAt(events, limits, k)
    ensures b == k
  {
  }

  /** And it does keep it back then. */
  lemma FiringHoldsOn(events: seq<Event>, limits: Limits, now: int, k: nat)
    requires PlainIds(events) && Run(events, limits).held.Some? && BeganAt(events, limits, k)
    requires now - events[k].now < limits.maxHoldMs
    ensures Run(events + [Timer(true, now)], limits) == Run(events, limits)
  {
    var more := events + [Timer(true, now)];
    assert more[..|events|] == events;
    RunKeeps(events, limits);
    var b := HeldBegan(events, limits);
    OneBeginning(events, limits, b, k);
  }

  // -------------------------------------------------------------------------
  // The client's reducers

  datatype ChatRole = UserChat | AssistantChat | ThinkingChat | ToolChat

  datatype Chat = Chat(role: ChatRole, content: string, isStreaming: bool, toolName: string, toolOutput: string)

  /** The message list, and whatever else the client keeps. */
  datatype Store<R> = Store(messages: seq<Chat>, rest: R)

  /** How the client handles any other frame. */
  type OtherHandler<!R> = (Store<R>, string) -> Store<R>

  predicate Targets(m: Msg, c: Chat) {
    c.isStreaming
    && match m
       case MessageUpdate(_, _) => c.role.AssistantChat?
       case ThinkingUpdate(_, _) => c.role.ThinkingChat?
       case ToolUpdate(_, toolName, _) => c.role.ToolChat? && c.toolName == toolName
       case OtherFrame(_) => false
  }

  /** One past the last streaming message, among the first `n`, that the delta is for; or 0. */
  function LastBelow(messages: seq<Chat>, m: Msg, n: nat): (last: nat)
    requires n <= |messages|
    ensures last <= n
  {
    if n == 0 || Targets(m, messages[n - 1]) then n else LastBelow(messages, m, n - 1)
  }

  function LastTarget(messages: seq<Chat>, m: Msg): (last: nat)
    ensures last <= |messages|
  {
    LastBelow(messages, m, |messages|)
  }

  function WithOutput(content: string, delta: string): string {
    if '\n' in content then content + delta else content + ("\n" + delta)
  }

  function Grown(c: Chat, m: Msg): Chat
    requires IsDelta(m)
  {
    if m.ToolUpdate? then c.(content := WithOutput(c.content, m.delta), toolOutput := c.toolOutput + m.delta)
    else c.(content := c.content + m.delta, isStreaming := true)
  }

  function NewChats(m: Msg): seq<Chat>
    requires IsDelta(m)
  {
    match m
    case MessageUpdate(_, delta) => [Chat(AssistantChat, delta, true, "", "")]
    case ThinkingUpdate(_, delta) => [Chat(ThinkingChat, delta, true, "", "")]
    case ToolUpdate(_, _, _) => []
  }

  function ReduceDelta(messages: seq<Chat>, m: Msg): seq<Chat>
    requires IsDelta(m)
  {
    var n := LastTarget(messages, m);
    if n == 0 then messages + NewChats(m) else messages[n - 1 := Grown(messages[n - 1], m)]
  }

  function Reduce<R>(s: Store<R>, m: Msg, other: OtherHandler<R>): Store<R> {
    if IsDelta(m) then s.(messages := ReduceDelta(s.messages, m)) else other(s, m.body)
  }

  function Replay<R>(s: Store<R>, msgs: seq<Msg>, other: OtherHandler<R>): Store<R> {
    if |msgs| == 0 then s else Reduce(Replay(s, msgs[..|msgs| - 1], other), msgs[|msgs| - 1], other)
  }

  lemma GrownTwice(c: Chat, h: Msg, m: Msg)
    requires SameTarget(h, m) && Targets(h, c)
    ensures Grown(Grown(c, h), m) == Grown(c, Longer(h, m.delta)) && Targets(m, Grown(c, h))
  {
    var d := Longer(h, m.delta);
    assert c.content + h.delta + m.delta == c.content + d.delta;
    if h.ToolUpdate? {
      assert c.toolOutput + h.delta + m.delta == c.toolOutput + d.delta;
      assert c.content + ("\n" + h.delta) + m.delta == c.content + ("\n" + d.delta);
      assert (c.content + ("\n" + h.delta))[|c.content|] == '\n';
      assert '\n' in c.content ==> '\n' in c.content + h.delta;
    }
  }

  predicate SameTargets(a: Msg, b: Msg) {
    match a
    case MessageUpdate(_, _) => b.MessageUpdate?
    case ThinkingUpdate(_, _) => b.ThinkingUpdate?
    case ToolUpdate(_, t, _) => b.ToolUpdate? && b.toolName == t
    case OtherFrame(_) => false
  }

  lemma {:induction false} SameBelow(messages: seq<Chat>, a: Msg, b: Msg, n: nat)
    requires SameTargets(a, b) && n <= |messages|
    ensures LastBelow(messages, a, n) == LastBelow(messages, b, n)
  {
    if n > 0 {
      SameBelow(messages, a, b, n - 1);
    }
  }

  lemma {:induction false} TargetBelow(messages: seq<Chat>, m: Msg, n: nat)
    requires n <= |messages|
    ensures var last := LastBelow(messages, m, n); last > 0 ==> Targets(m, messages[last - 1])
  {
    if n > 0 {
      TargetBelow(messages, m, n - 1);
    }
  }

  /** Putting another message the delta is for in place of the last one leaves that the last one. */
  lemma {:induction false} StillLast(messages: seq<Chat>, m: Msg, n: nat, last: nat, c: Chat)
    requires n <= |messages| && last == LastBelow(messages, m, n) && last > 0 && Targets(m, c)
    ensures LastBelow(messages[last - 1 := c], m, n) == last
  {
    if n > last {
      StillLast(messages, m, n - 1, last, c);
    }
  }

  lemma FoundTwice(messages: seq<Chat>, h: Msg, m: Msg, n: nat)
    requires SameTarget(h, m) && n == LastTarget(messages, h) && n > 0
    ensures ReduceDelta(ReduceDelta(messages, h), m) == ReduceDelta(messages, Longer(h, m.delta))
  {
    var d, was := Longer(h, m.delta), messages[n - 1];
    var c := Grown(was, h);
    var once := messages[n - 1 := c];
    TargetBelow(messages, h, |messages|);
    GrownTwice(was, h, m);
    SameBelow(messages, h, d, |messages|);
    SameBelow(messages, h, m, |messages|);
    StillLast(messages, m, |messages|, n, c);
    assert once[n - 1 := Grown(c, m)] == messages[n - 1 := Grown(was, d)];
  }

  lemma NewTwice(messages: seq<Chat>, h: Msg, m: Msg)
    requires SameTarget(h, m) && LastTarget(messages, h) == 0
    ensures ReduceDelta(ReduceDelta(messages, h), m) == ReduceDelta(messages, Longer(h, m.delta))
  {
    var d := Longer(h, m.delta);
    SameBelow(messages, h, d, |messages|);
    SameBelow(messages, h, m, |messages|);
    if h.ToolUpdate? {
      assert messages + [] == messages;
    } else {
      var once := messages + NewChats(h);
      assert once[|once| - 1 := Grown(NewChats(h)[0], m)] == messages + NewChats(d);
    }
  }

  /** Two deltas to the same thing do what the merged one does. */
  lemma ReduceTwice(messages: seq<Chat>, h: Msg, m: Msg)
    requires SameTarget(h, m)
    ensures ReduceDelta(ReduceDelta(messages, h), m) == ReduceDelta(messages, Longer(h, m.delta))
  {
    if LastTarget(messages, h) > 0 {
      FoundTwice(messages, h, m, LastTarget(messages, h));
    } else {
      NewTwice(messages, h, m);
    }
  }

  lemma ReplayAppended<R>(s: Store<R>, msgs: seq<Msg>, m: Msg, other: OtherHandler<R>)
    ensures Replay(s, Appended(msgs, m), other) == Reduce(Replay(s, msgs, other), m, other)
  {
    if |msgs| > 0 && SameTarget(msgs[|msgs| - 1], m) {
      var init, h := msgs[..|msgs| - 1], msgs[|msgs| - 1];
      ReduceTwice(Replay(s, init, other).messages, h, m);
    } else {
    }
  }

  /** Merging does not change what the client shows. */
  lemma {:induction false} ReplayNormal<R>(s: Store<R>, msgs: seq<Msg>, other: OtherHandler<R>)
    ensures Replay(s, Normal(msgs), other) == Replay(s, msgs, other)
  {
    if |msgs| > 0 {
      var init, m := msgs[..|msgs| - 1], msgs[|msgs| - 1];
      ReplayNormal(s, init, other);
      ReplayAppended(s, Normal(init), m, other);
    }
  }

  /**
   * Whatever a client shows and however it handles other frames, after every run
   * the frames written and the one held give it the same store as the messages sent.
   */
  lemma SameStore<R>(events: seq<Event>, limits: Limits, store: Store<R>, other: OtherHandler<R>)
    requires PlainIds(events)
    ensures Replay(store, Out(Run(events, limits)), other) == Replay(store, SentIn(events), other)
  {
    RunKeeps(events, limits);
    ReplayNormal(store, Out(Run(events, limits)), other);
    ReplayNormal(store, SentIn(events), other);
  }

  // -------------------------------------------------------------------------
  // What the client shows of a stream

  predicate StreamOf(c: Chat, role: ChatRole, toolName: string) {
    c.isStreaming && c.role == role && (role.ToolChat? ==> c.toolName == toolName)
  }

  /** The message a stream of this kind is appended to. */
  ghost predicate LastStream(messages: seq<Chat>, role: ChatRole, toolName: string, k: nat) {
    && k < |messages| && StreamOf(messages[k], role, toolName)
    && forall j :: k < j < |messages| ==> !StreamOf(messages[j], role, toolName)
  }

  predicate IsFor(m: Msg, role: ChatRole, toolName: string) {
    match m
    case MessageUpdate(_, _) => role.AssistantChat?
    case ThinkingUpdate(_, _) => role.ThinkingChat?
    case ToolUpdate(_, t, _) => role.ToolChat? && t == toolName
    case OtherFrame(_) => false
  }

  /** The deltas of one kind, joined. */
  function TextFor(msgs: seq<Msg>, role: ChatRole, toolName: string): string {
    if |msgs| == 0 then ""
    else
      var m := msgs[|msgs| - 1];
      TextFor(msgs[..|msgs| - 1], role, toolName) + if IsFor(m, role, toolName) then m.delta else ""
  }

  /** The text joined to a message: a tool's output starts on a line of its own. */
  function Joined(c: Chat, text: string): Chat {
    if !c.role.ToolChat? then c.(content := c.content + text)
    else c.(toolOutput := c.toolOutput + text,
            content := c.content + (if '\n' in c.content then "" else "\n") + text)
  }

  lemma {:induction false} LastBelowIs(messages: seq<Chat>, m: Msg, n: nat, k: nat)
    requires k < n <= |messages| && Targets(m, messages[k])
    requires forall j :: k < j < n ==> !Targets(m, messages[j])
    ensures LastBelow(messages, m, n) == k + 1
  {
    if n > k + 1 {
      LastBelowIs(messages, m, n - 1, k);
    }
  }

  lemma {:induction false} NoneBelow(messages: seq<Chat>, m: Msg, n: nat)
    requires n <= |messages| && forall j :: 0 <= j < n ==> !Targets(m, messages[j])
    ensures LastBelow(messages, m, n) == 0
  {
    if n > 0 {
      NoneBelow(messages, m, n - 1);
    }
  }

  /** A delta is joined to the last streaming message of its kind, and changes no other. */
  lemma StreamGrows(messages: seq<Chat>, m: Msg, role: ChatRole, toolName: string, k: nat)
    requires IsFor(m, role, toolName) && LastStream(messages, role, toolName, k)
    ensures ReduceDelta(messages, m) == messages[k := Joined(messages[k], m.delta)]
  {
    LastBelowIs(messages, m, |messages|, k);
    var c := messages[k];
    if '\n' in c.content {
      assert c.content + "" == c.content;
    } else {
      assert c.content + "\n" + m.delta == c.content + ("\n" + m.delta);
    }
  }

  /** Without one, it starts a message after all others, unless it is a tool's. */
  lemma StreamStarts(messages: seq<Chat>, m: Msg, role: ChatRole, toolName: string)
    requires IsFor(m, role, toolName) && forall c <- messages :: !StreamOf(c, role, toolName)
    ensures ReduceDelta(messages, m)
         == if role.ToolChat? then messages else messages + [Chat(role, m.delta, true, "", "")]
  {
    assert forall j :: 0 <= j < |messages| ==> messages[j] in messages;
    NoneBelow(messages, m, |messages|);
    assert messages + [] == messages;
  }

  /** A delta of another kind leaves the stream where and as it is. */
  lemma StreamStays(messages: seq<Chat>, m: Msg, role: ChatRole, toolName: string, k: nat)
    requires IsDelta(m) && !IsFor(m, role, toolName) && LastStream(messages, role, toolName, k)
    ensures LastStream(ReduceDelta(messages, m), role, toolName, k) && ReduceDelta(messages, m)[k] == messages[k]
  {
    TargetBelow(messages, m, |messages|);
  }

  /**
   * Of any deltas, in any order of kinds, the streaming message shows exactly those of
   * its own kind, joined in order behind what it showed before.
   */
  lemma {:induction false} ReplayShows<R>(s: Store<R>, msgs: seq<Msg>, other: OtherHandler<R>,
                                          role: ChatRole, toolName: string, k: nat)
    requires (forall m <- msgs :: IsDelta(m)) && LastStream(s.messages, role, toolName, k)
    ensures var t := Replay(s, msgs, other).messages;
            && LastStream(t, role, toolName, k)
            && t[k] == if exists m <- msgs :: IsFor(m, role, toolName)
                       then Joined(s.messages[k], TextFor(msgs, role, toolName)) else s.messages[k]
  {
    if |msgs| > 0 {
      var init, m := msgs[..|msgs| - 1], msgs[|msgs| - 1];
      assert msgs == init + [m];
      ReplayShows(s, init, other, role, toolName, k);
      var before := Replay(s, init, other).messages;
      if IsFor(m, role, toolName) {
        StreamGrows(before, m, role, toolName, k);
        JoinedTwice(s.messages[k], init, m, role, toolName);
      } else {
        StreamStays(before, m, role, toolName, k);
        assert TextFor(msgs, role, toolName) == TextFor(init, role, toolName);
      }
    }
  }

  lemma {:induction false} NoText(msgs: seq<Msg>, role: ChatRole, toolName: string)
    requires forall m <- msgs :: !IsFor(m, role, toolName)
    ensures TextFor(msgs, role, toolName) == ""
  {
    if |msgs| > 0 {
      NoText(msgs[..|msgs| - 1], role, toolName);
    }
  }

  lemma JoinedTwice(c: Chat, init: seq<Msg>, m: Msg, role: ChatRole, toolName: string)
    requires IsFor(m, role, toolName) && StreamOf(c, role, toolName)
    ensures var before := if exists h <- init :: IsFor(h, role, toolName)
                          then Joined(c, TextFor(init, role, toolName)) else c;
            Joined(before, m.delta) == Joined(c, TextFor(init, role, toolName) + m.delta)
  {
    var text := TextFor(init, role, toolName);
    if exists h <- init :: IsFor(h, role, toolName) {
      JoinedJoins(c, text, m.delta);
    } else {
      NoText(init, role, toolName);
    }
  }

  lemma JoinedJoins(c: Chat, a: string, b: string)
    ensures Joined(Joined(c, a), b) == Joined(c, a + b)
  {
    assert c.content + a + b == c.content + (a + b);
    assert c.toolOutput + a + b == c.toolOutput + (a + b);
    var open := c.content + if '\n' in c.content then "" else "\n";
    assert '\n' in open by {
      assert '\n' !in c.content ==> open[|c.content|] == '\n';
    }
    assert open + a + "" + b == open + (a + b);
  }
}
