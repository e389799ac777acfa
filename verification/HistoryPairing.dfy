/**
 * Painting a history window: every tool call in place, filled by its result
 * (`mapHistory` in client/src/client.ts). The client keeps the open calls in two
 * index maps, by tool name and by call id; here that is proved against one ordered
 * list of open calls, and the pairing's properties are proved of the list.
 */
module HistoryPairing {
  import opened Options
  import opened History
  import opened Sequences

  datatype ChatRole = UserChat | AssistantChat | ThinkingChat | ToolChat

  datatype Chat = Chat(
    role: ChatRole,
    content: string,
    timestamp: int,
    toolName: string,
    toolArgs: string,
    toolOutput: string,
    isStreaming: bool,
    isError: bool,
    interrupted: bool,
    images: seq<string>,
    startedAt: Option<int>,
    endedAt: Option<int>,
    entryId: Option<string>,
    forceCommand: bool)

  /** A call without a result yet: where it was painted, its tool, and its id if it has one. */
  datatype OpenCall = OpenCall(index: nat, name: string, id: Option<string>)

  /** Whether an errored result's text ends in "aborted". */
  type AbortTest = string -> bool

  predicate IsCall(m: HistoryMessage) {
    m.role.ToolCall?
  }

  predicate IsResult(m: HistoryMessage) {
    m.role.ToolResult?
  }

  function IdOf(m: HistoryMessage): Option<string> {
    if m.toolCallId == Some("") then None else m.toolCallId
  }

  function Heading(name: string, arguments: string): string {
    if arguments == "" then "$ " + name else "$ " + name + " " + arguments
  }

  function CallChat(m: HistoryMessage): Chat {
    var name := NameOr(m.toolName);
    Chat(ToolChat, Heading(name, m.content), m.timestamp, name, m.content, "", false, false, false, [],
         Some(m.timestamp), None, None, m.forceCommand)
  }

  function Filled(call: Chat, m: HistoryMessage, aborted: AbortTest): Chat {
    call.(content := Heading(NameOr(m.toolName), call.toolArgs) + "\n" + m.content,
          isStreaming := false,
          toolOutput := m.content,
          images := if m.images == [] then call.images else m.images,
          isError := m.isError && !aborted(m.content),
          interrupted := m.isError && aborted(m.content),
          timestamp := m.timestamp,
          endedAt := if call.startedAt.Some? && m.timestamp >= call.startedAt.value then Some(m.timestamp)
                     else call.endedAt)
  }

  function OrphanChat(m: HistoryMessage, aborted: AbortTest): Chat {
    var name := NameOr(m.toolName);
    Chat(ToolChat, "$ " + name + "\n" + m.content, m.timestamp, name, "", m.content, false,
         m.isError && !aborted(m.content),
         m.isError && aborted(m.content), m.images, None, None, None, false)
  }

  function PlainChat(m: HistoryMessage): Chat {
    var role := match m.role case User => UserChat case Thinking => ThinkingChat case _ => AssistantChat;
    Chat(role, m.content, m.timestamp, m.toolName, "", "", false, false, false, [], None, None,
         if m.entryId == Some("") then None else m.entryId, false)
  }

  // -------------------------------------------------------------------------
  // The reference: one ordered list of open calls

  /** `pairs` lists which result, by its position in the history, filled which entry. */
  datatype Pairing = Pairing(mapped: seq<Chat>, open: seq<OpenCall>, pairs: seq<(nat, nat)>)

  function ById(id: string): OpenCall -> bool {
    (c: OpenCall) => c.id == Some(id)
  }

  function ByName(name: string): OpenCall -> bool {
    (c: OpenCall) => c.name == name
  }

  /** The call a result fills: its own if that is open, else the oldest open one of its tool. */
  function Pick(open: seq<OpenCall>, m: HistoryMessage): (k: nat)
    ensures k <= |open|
  {
    var own := if IdOf(m).Some? then FirstIndex(open, ById(IdOf(m).value)) else |open|;
    if own < |open| then own else FirstIndex(open, ByName(NameOr(m.toolName)))
  }

  /** Open calls are painted, in order, and none of them is filled; no entry is filled twice. */
  predicate Indexed(p: Pairing) {
    InOrder(p.open, |p.mapped|) && OncePaired(p.pairs, |p.mapped|) && Unfilled(p.open, p.pairs)
  }

  predicate InOrder(open: seq<OpenCall>, n: nat) {
    && (forall k :: 0 <= k < |open| ==> open[k].index < n)
    && (forall j, k :: 0 <= j < k < |open| ==> open[j].index < open[k].index)
  }

  predicate OncePaired(pairs: seq<(nat, nat)>, n: nat) {
    && (forall k :: 0 <= k < |pairs| ==> pairs[k].1 < n)
    && (forall j, k :: 0 <= j < k < |pairs| ==> pairs[j].0 < pairs[k].0 && pairs[j].1 != pairs[k].1)
  }

  predicate Unfilled(open: seq<OpenCall>, pairs: seq<(nat, nat)>) {
    forall j, k :: 0 <= j < |open| && 0 <= k < |pairs| ==> pairs[k].1 != open[j].index
  }

  predicate PairedBefore(p: Pairing, at: nat) {
    forall k :: 0 <= k < |p.pairs| ==> p.pairs[k].0 < at
  }

  predicate InRange(p: Pairing) {
    forall k :: 0 <= k < |p.open| ==> p.open[k].index < |p.mapped|
  }

  lemma LeftOpen(open: seq<OpenCall>, k: nat, n: nat, pairs: seq<(nat, nat)>)
    requires InOrder(open, n) && Unfilled(open, pairs) && k < |open|
    ensures var rest := open[..k] + open[k + 1..];
            InOrder(rest, n) && Unfilled(rest, pairs) && forall j :: 0 <= j < |rest| ==> rest[j].index != open[k].index
  {
    var rest := open[..k] + open[k + 1..];
    assert forall j :: 0 <= j < |rest| ==> rest[j] == if j < k then open[j] else open[j + 1];
  }

  lemma FillKeepsIndexed(p: Pairing, k: nat, at: nat)
    requires Indexed(p) && PairedBefore(p, at) && k < |p.open|
    ensures var open, pairs := p.open[..k] + p.open[k + 1..], p.pairs + [(at, p.open[k].index)];
            InOrder(open, |p.mapped|) && OncePaired(pairs, |p.mapped|) && Unfilled(open, pairs)
  {
    LeftOpen(p.open, k, |p.mapped|, p.pairs);
  }

  function PairCall(p: Pairing, m: HistoryMessage): (q: Pairing)
    requires InRange(p)
    ensures InRange(q)
  {
    p.(mapped := p.mapped + [CallChat(m)], open := p.open + [OpenCall(|p.mapped|, NameOr(m.toolName), IdOf(m))])
  }

  function PairResult(p: Pairing, m: HistoryMessage, at: nat, aborted: AbortTest): (q: Pairing)
    requires InRange(p)
    ensures InRange(q)
  {
    var k := Pick(p.open, m);
    if k < |p.open| then
      var i := p.open[k].index;
      Pairing(p.mapped[i := Filled(p.mapped[i], m, aborted)], Without(p.open, k), p.pairs + [(at, i)])
    else p.(mapped := p.mapped + [OrphanChat(m, aborted)])
  }

  function Pair(p: Pairing, m: HistoryMessage, at: nat, aborted: AbortTest): (q: Pairing)
    requires InRange(p)
    ensures InRange(q)
  {
    match m.role
    case ToolCall => PairCall(p, m)
    case ToolResult => PairResult(p, m, at, aborted)
    case _ => p.(mapped := p.mapped + [PlainChat(m)])
  }

  const START := Pairing([], [], [])

  /** `ps[n]` is the pairing of the first `n` messages; the next one places message `n`. */
  predicate IsNext(ps: seq<Pairing>, raw: seq<HistoryMessage>, n: nat, aborted: AbortTest)
    requires n < |raw| && n + 1 < |ps|
  {
    InRange(ps[n]) && ps[n + 1] == Pair(ps[n], raw[n], n, aborted)
  }

  predicate PairsUpTo(ps: seq<Pairing>, raw: seq<HistoryMessage>, n: nat, aborted: AbortTest)
    requires n <= |raw|
  {
    |ps| == n + 1 && ps[0] == START && forall k {:trigger IsNext(ps, raw, k, aborted)} :: 0 <= k < n ==>
        IsNext(ps, raw, k, aborted)
  }

  /** The pairings of all the window's beginnings, the last one that of the whole window. */
  predicate Pairs(ps: seq<Pairing>, raw: seq<HistoryMessage>, aborted: AbortTest) {
    PairsUpTo(ps, raw, |raw|, aborted)
  }

  lemma InRangeAt(ps: seq<Pairing>, raw: seq<HistoryMessage>, n: nat, aborted: AbortTest, k: nat)
    requires n <= |raw| && PairsUpTo(ps, raw, n, aborted) && k <= n
    ensures InRange(ps[k])
  {
    if k > 0 {
      assert IsNext(ps, raw, k - 1, aborted);
    }
  }

  lemma PairsMore(ps: seq<Pairing>, raw: seq<HistoryMessage>, n: nat, aborted: AbortTest)
    requires n < |raw| && PairsUpTo(ps, raw, n, aborted)
    ensures InRange(ps[n]) && PairsUpTo(ps + [Pair(ps[n], raw[n], n, aborted)], raw, n + 1, aborted)
  {
    InRangeAt(ps, raw, n, aborted, n);
    var more := ps + [Pair(ps[n], raw[n], n, aborted)];
    forall k | 0 <= k < n + 1
      ensures IsNext(more, raw, k, aborted)
    {
      assert k < n ==> IsNext(ps, raw, k, aborted);
    }
  }

  /** There is only one way to pair a window. */
  lemma {:induction false} PairsUnique(ps: seq<Pairing>, qs: seq<Pairing>, raw: seq<HistoryMessage>, aborted: AbortTest,
                                       n: nat)
    requires Pairs(ps, raw, aborted) && Pairs(qs, raw, aborted) && n <= |raw|
    ensures ps[n] == qs[n]
  {
    if n > 0 {
      PairsUnique(ps, qs, raw, aborted, n - 1);
      assert IsNext(ps, raw, n - 1, aborted) && IsNext(qs, raw, n - 1, aborted);
    }
  }

  lemma ResultIndexed(p: Pairing, m: HistoryMessage, at: nat, aborted: AbortTest)
    requires Indexed(p) && PairedBefore(p, at)
    ensures Indexed(PairResult(p, m, at, aborted)) && PairedBefore(PairResult(p, m, at, aborted), at + 1)
  {
    var k, q := Pick(p.open, m), PairResult(p, m, at, aborted);
    if k < |p.open| {
      FillKeepsIndexed(p, k, at);
      assert q.open == p.open[..k] + p.open[k + 1..];
    }
  }

  lemma PairIndexed(p: Pairing, q: Pairing, m: HistoryMessage, at: nat, aborted: AbortTest)
    requires Indexed(p) && PairedBefore(p, at) && q == Pair(p, m, at, aborted)
    ensures Indexed(q) && PairedBefore(q, at + 1)
  {
    if IsResult(m) {
      ResultIndexed(p, m, at, aborted);
    }
  }

  lemma IndexedNext(ps: seq<Pairing>, raw: seq<HistoryMessage>, n: nat, aborted: AbortTest, k: nat)
    requires n <= |raw| && PairsUpTo(ps, raw, n, aborted) && k < n
    requires Indexed(ps[k]) && PairedBefore(ps[k], k)
    ensures Indexed(ps[k + 1]) && PairedBefore(ps[k + 1], k + 1)
  {
    assert IsNext(ps, raw, k, aborted);
    PairIndexed(ps[k], ps[k + 1], raw[k], k, aborted);
  }

  lemma {:induction false} IndexedAt(ps: seq<Pairing>, raw: seq<HistoryMessage>, n: nat, aborted: AbortTest, k: nat)
    requires n <= |raw| && PairsUpTo(ps, raw, n, aborted) && k <= n
    ensures Indexed(ps[k]) && PairedBefore(ps[k], k)
  {
    if k > 0 {
      IndexedAt(ps, raw, n, aborted, k - 1);
      IndexedNext(ps, raw, n, aborted, k - 1);
    }
  }

  predicate IsOpen(open: seq<OpenCall>, i: nat) {
    exists k :: 0 <= k < |open| && open[k].index == i
  }

  /** At the end an unfilled call is interrupted, but in the live tail the latest one still runs. */
  function MarkedAt(p: Pairing, tail: bool, i: nat): Chat
    requires i < |p.mapped|
  {
    var c := p.mapped[i];
    if tail && |p.open| > 0 && i == p.open[|p.open| - 1].index then c.(isStreaming := true)
    else if IsOpen(p.open, i) then c.(interrupted := true)
    else c
  }

  predicate Streams(c: Chat) {
    c.role.AssistantChat? || c.role.ThinkingChat?
  }

  /** In the live tail a last assistant or thinking message still streams, too. */
  function FinishedAt(p: Pairing, tail: bool, i: nat): Chat
    requires i < |p.mapped|
  {
    var c := MarkedAt(p, tail, i);
    if tail && i == |p.mapped| - 1 && Streams(c) then c.(isStreaming := true) else c
  }

  function Finished(p: Pairing, tail: bool): seq<Chat> {
    seq(|p.mapped|, i requires 0 <= i < |p.mapped| => FinishedAt(p, tail, i))
  }

  // -------------------------------------------------------------------------
  // The two index maps

  /** Call ids are distinct, and a result names the tool of the call whose id it carries. */
  ghost predicate WellNamed(raw: seq<HistoryMessage>) {
    && (forall i, j :: 0 <= i < j < |raw| && IsCall(raw[i]) && IsCall(raw[j]) && IdOf(raw[i]).Some? ==>
        IdOf(raw[i]) != IdOf(raw[j]))
    && (forall i, j :: 0 <= i < |raw| && 0 <= j < |raw| && IsCall(raw[i]) && IsResult(raw[j]) ==>
          IdOf(raw[i]).Some? && IdOf(raw[i]) == IdOf(raw[j]) ==> NameOr(raw[i].toolName) == NameOr(raw[j].toolName))
  }

  function HeadOf(c: OpenCall, name: string): seq<nat> {
    if c.name == name then [c.index] else []
  }

  /** The entries of the open calls of one tool, oldest first. */
  function Named(open: seq<OpenCall>, name: string): seq<nat> {
    if |open| == 0 then [] else HeadOf(open[0], name) + Named(open[1..], name)
  }

  function Queue(openCalls: map<string, seq<nat>>, name: string): seq<nat> {
    if name in openCalls then openCalls[name] else []
  }

  ghost predicate NamesLinked(open: seq<OpenCall>, openCalls: map<string, seq<nat>>) {
    forall name :: Queue(openCalls, name) == Named(open, name)
  }

  ghost predicate IdsLinked(open: seq<OpenCall>, openById: map<string, nat>) {
    && (forall k :: 0 <= k < |open| && open[k].id.Some? ==>
        open[k].id.value in openById && openById[open[k].id.value] == open[k].index)
    && (forall id <- openById :: exists k :: 0 <= k < |open| && open[k].id == Some(id))
  }

  /** Every open call was made by one of the first `n` messages. */
  ghost predicate MadeBy(open: seq<OpenCall>, raw: seq<HistoryMessage>, n: nat)
    requires n <= |raw|
  {
    forall k :: 0 <= k < |open| && open[k].id.Some? ==>
      exists i :: 0 <= i < n && IsCall(raw[i]) && IdOf(raw[i]) == open[k].id && NameOr(raw[i].toolName) == open[k].name
  }

  predicate DistinctIds(open: seq<OpenCall>) {
    forall j, k :: 0 <= j < k < |open| && open[j].id.Some? ==> open[j].id != open[k].id
  }

  lemma NamedStep(open: seq<OpenCall>, name: string, c: OpenCall, rest: seq<OpenCall>)
    requires open == [c] + rest
    ensures Named(open, name) == HeadOf(c, name) + Named(rest, name)
  {
    assert open[1..] == rest;
  }

  lemma {:induction false} NamedConcat(a: seq<OpenCall>, b: seq<OpenCall>, name: string)
    ensures Named(a + b, name) == Named(a, name) + Named(b, name)
  {
    if |a| == 0 {
      assert a + b == b && [] + Named(b, name) == Named(b, name);
    } else {
      var c, rest := a[0], a[1..];
      NamedConcat(rest, b, name);
      assert a == [c] + rest && a + b == [c] + (rest + b);
      NamedStep(a, name, c, rest);
      NamedStep(a + b, name, c, rest + b);
      Regroup(HeadOf(c, name), Named(rest, name), Named(b, name));
    }
  }

  lemma NamedOne(c: OpenCall, name: string)
    ensures Named([c], name) == if c.name == name then [c.index] else []
  {
    assert [c][1..] == [];
  }

  lemma NamedAround(open: seq<OpenCall>, k: nat, name: string)
    requires k < |open|
    ensures Named(open, name) == Named(open[..k], name) + (HeadOf(open[k], name) + Named(open[k + 1..], name))
    ensures Named(Without(open, k), name) == Named(open[..k], name) + Named(open[k + 1..], name)
  {
    assert open == open[..k] + open[k..] && open[k..][1..] == open[k + 1..];
    NamedConcat(open[..k], open[k..], name);
    NamedStep(open[k..], name, open[k], open[k + 1..]);
    NamedConcat(open[..k], open[k + 1..], name);
  }

  lemma {:induction false} NamedMember(open: seq<OpenCall>, name: string, i: nat)
    ensures i in Named(open, name) <==> exists k :: 0 <= k < |open| && open[k].name == name && open[k].index == i
  {
    if |open| > 0 {
      NamedMember(open[1..], name, i);
      if k :| 0 <= k < |open| && open[k].name == name && open[k].index == i {
        assert k > 0 ==> open[1..][k - 1] == open[k];
      }
    }
  }

  lemma WithoutTail(open: seq<OpenCall>, k: nat)
    requires 0 < k < |open|
    ensures Without(open, k)[0] == open[0] && Without(open, k)[1..] == Without(open[1..], k - 1)
  {
  }

  lemma NamedSkip(open: seq<OpenCall>, name: string)
    requires |open| > 0 && open[0].name != name
    ensures Named(open, name) == Named(open[1..], name)
  {
    assert [] + Named(open[1..], name) == Named(open[1..], name);
  }

  /** The oldest open call of a tool heads that tool's queue. */
  lemma {:induction false} OldestHeads(open: seq<OpenCall>, name: string)
    ensures var k := FirstIndex(open, ByName(name));
            if k < |open| then Named(open, name) == [open[k].index] + Named(Without(open, k), name)
            else Named(open, name) == []
  {
    var k := FirstIndex(open, ByName(name));
    if |open| > 0 && k == 0 {
      assert Without(open, 0) == open[1..];
    } else if |open| > 0 {
      var tail := open[1..];
      OldestHeads(tail, name);
      NamedSkip(open, name);
      if k < |open| {
        WithoutTail(open, k);
        NamedSkip(Without(open, k), name);
        assert open[k] == tail[k - 1];
      }
    }
  }

  lemma CutOut(q: seq<nat>, a: seq<nat>, x: nat, b: seq<nat>)
    requires x !in a && q == a + ([x] + b)
    ensures var at := IndexOf(q, x); at < |q| && q[..at] + q[at + 1..] == a + b
  {
    IndexOfSplit(a, x, b);
    assert q[..|a|] == a && q[|a| + 1..] == b;
  }

  /** `removeFromNameQueue`: drop a resolved call from its tool's queue. */
  function RemovedFrom(openCalls: map<string, seq<nat>>, name: string, i: nat): map<string, seq<nat>> {
    if name in openCalls then
      var q := openCalls[name];
      var at := IndexOf(q, i);
      if at < |q| then openCalls[name := q[..at] + q[at + 1..]] else openCalls
    else openCalls
  }

  function WithoutIndex(openById: map<string, nat>, i: nat): map<string, nat> {
    map id | id in openById && openById[id] != i :: openById[id]
  }

  ghost predicate Linked(open: seq<OpenCall>, openCalls: map<string, seq<nat>>, openById: map<string, nat>) {
    NamesLinked(open, openCalls) && IdsLinked(open, openById) && DistinctIds(open)
  }

  lemma WithoutAt(open: seq<OpenCall>, k: nat, j: nat)
    requires k < |open| && j < |open| - 1
    ensures Without(open, k)[j] == if j < k then open[j] else open[j + 1]
  {
  }

  /** Taking a call out of its tool's queue leaves the queue of the remaining calls. */
  lemma RemovedQueue(open: seq<OpenCall>, openCalls: map<string, seq<nat>>, k: nat, n: nat)
    requires k < |open| && InOrder(open, n) && NamesLinked(open, openCalls)
    ensures Queue(RemovedFrom(openCalls, open[k].name, open[k].index), open[k].name) ==
            Named(Without(open, k), open[k].name)
  {
    var name, x := open[k].name, open[k].index;
    var a, b := Named(open[..k], name), Named(open[k + 1..], name);
    NamedAround(open, k, name);
    NamedMember(open[..k], name, x);
    assert Queue(openCalls, name) == Named(open, name);
    CutOut(Queue(openCalls, name), a, x, b);
  }

  lemma OtherQueue(open: seq<OpenCall>, openCalls: map<string, seq<nat>>, k: nat, name: string)
    requires k < |open| && NamesLinked(open, openCalls) && name != open[k].name
    ensures Queue(RemovedFrom(openCalls, open[k].name, open[k].index), name) == Named(Without(open, k), name)
  {
    NamedAround(open, k, name);
    assert [] + Named(open[k + 1..], name) == Named(open[k + 1..], name);
    assert Queue(openCalls, name) == Named(open, name);
  }

  lemma RemovedNames(open: seq<OpenCall>, openCalls: map<string, seq<nat>>, k: nat, n: nat)
    requires k < |open| && InOrder(open, n) && NamesLinked(open, openCalls)
    ensures NamesLinked(Without(open, k), RemovedFrom(openCalls, open[k].name, open[k].index))
  {
    var after := RemovedFrom(openCalls, open[k].name, open[k].index);
    RemovedQueue(open, openCalls, k, n);
    forall name | name != open[k].name
      ensures Queue(after, name) == Named(Without(open, k), name)
    {
      OtherQueue(open, openCalls, k, name);
    }
  }

  /** A result taken by its id leaves its call in the queues exactly when it names another tool than the call. */
  lemma StaysQueuedIfMisnamed(open: seq<OpenCall>, openCalls: map<string, seq<nat>>, k: nat, n: nat, name: string)
    requires k < |open| && InOrder(open, n) && NamesLinked(open, openCalls)
    ensures open[k].index in Queue(RemovedFrom(openCalls, name, open[k].index), open[k].name) <==> name != open[k].name
  {
    var c := open[k];
    assert Queue(openCalls, c.name) == Named(open, c.name);
    NamedMember(open, c.name, c.index);
    if name == c.name {
      RemovedQueue(open, openCalls, k, n);
      NamedMember(Without(open, k), c.name, c.index);
      assert forall j :: 0 <= j < |open| - 1 ==> Without(open, k)[j] == if j < k then open[j] else open[j + 1];
    }
  }

  lemma WithoutDistinct(open: seq<OpenCall>, k: nat)
    requires k < |open| && DistinctIds(open)
    ensures DistinctIds(Without(open, k))
  {
    var rest := Without(open, k);
    assert forall j :: 0 <= j < |rest| ==> rest[j] == if j < k then open[j] else open[j + 1];
  }

  lemma WithoutMadeBy(open: seq<OpenCall>, k: nat, raw: seq<HistoryMessage>, n: nat)
    requires k < |open| && n <= |raw| && MadeBy(open, raw, n)
    ensures MadeBy(Without(open, k), raw, n)
  {
    var rest := Without(open, k);
    assert forall j :: 0 <= j < |rest| ==> rest[j] == if j < k then open[j] else open[j + 1];
  }

  /** Only the call's own id names its entry. */
  lemma OwnIdOnly(open: seq<OpenCall>, openById: map<string, nat>, k: nat, n: nat)
    requires k < |open| && InOrder(open, n) && IdsLinked(open, openById)
    ensures open[k].id.None? ==> WithoutIndex(openById, open[k].index) == openById
    ensures open[k].id.Some? ==> WithoutIndex(openById, open[k].index) == openById - {open[k].id.value}
  {
    forall id | id in openById && openById[id] == open[k].index
      ensures open[k].id == Some(id)
    {
      var j :| 0 <= j < |open| && open[j].id == Some(id);
      assert open[j].index == open[k].index;
      assert j == k;
    }
  }

  /** The index of ids keeps the calls left open, and only those. */
  lemma RemovedIds(open: seq<OpenCall>, openById: map<string, nat>, k: nat, n: nat)
    requires k < |open| && InOrder(open, n) && IdsLinked(open, openById) && DistinctIds(open)
    ensures IdsLinked(Without(open, k), WithoutIndex(openById, open[k].index))
  {
    var rest, after := Without(open, k), WithoutIndex(openById, open[k].index);
    OwnIdOnly(open, openById, k, n);
    forall j | 0 <= j < |rest| && rest[j].id.Some?
      ensures rest[j].id.value in after && after[rest[j].id.value] == rest[j].index
    {
      WithoutAt(open, k, j);
    }
    forall id | id in after
      ensures exists j :: 0 <= j < |rest| && rest[j].id == Some(id)
    {
      var j :| 0 <= j < |open| && open[j].id == Some(id);
      StillNamed(open, k, j);
    }
  }

  lemma StillNamed(open: seq<OpenCall>, k: nat, j: nat)
    requires k < |open| && j < |open| && j != k
    ensures exists i :: 0 <= i < |Without(open, k)| && Without(open, k)[i].id == open[j].id
  {
    var i := if j < k then j else j - 1;
    WithoutAt(open, k, i);
    assert Without(open, k)[i].id == open[j].id;
  }

  lemma CallLinked(open: seq<OpenCall>, openCalls: map<string, seq<nat>>, openById: map<string, nat>, c: OpenCall)
    requires Linked(open, openCalls, openById)
    requires c.id.Some? ==> forall k :: 0 <= k < |open| ==> open[k].id != c.id
    ensures NamesLinked(open + [c], openCalls[c.name := Queue(openCalls, c.name) + [c.index]])
    ensures IdsLinked(open + [c], if c.id.Some? then openById[c.id.value := c.index] else openById)
    ensures DistinctIds(open + [c])
  {
    forall name
      ensures Queue(openCalls[c.name := Queue(openCalls, c.name) + [c.index]], name) == Named(open + [c], name)
    {
      NamedConcat(open, [c], name);
      NamedOne(c, name);
      assert Queue(openCalls, name) == Named(open, name);
    }
    CallIds(open, openById, c);
  }

  lemma CallIds(open: seq<OpenCall>, openById: map<string, nat>, c: OpenCall)
    requires IdsLinked(open, openById)
    requires c.id.Some? ==> forall k :: 0 <= k < |open| ==> open[k].id != c.id
    ensures IdsLinked(open + [c], if c.id.Some? then openById[c.id.value := c.index] else openById)
  {
    var more, after := open + [c], if c.id.Some? then openById[c.id.value := c.index] else openById;
    forall id | id in after
      ensures exists k :: 0 <= k < |more| && more[k].id == Some(id)
    {
      if id in openById {
        var k :| 0 <= k < |open| && open[k].id == Some(id);
        assert more[k] == open[k];
      } else {
        assert more[|open|] == c;
      }
    }
  }

  /** The id index finds a result's own call exactly when that is open. */
  lemma OwnCall(open: seq<OpenCall>, openById: map<string, nat>, id: string)
    requires IdsLinked(open, openById) && DistinctIds(open)
    ensures var k := FirstIndex(open, ById(id));
            if id in openById then k < |open| && open[k].index == openById[id] else k == |open|
  {
  }

  // -------------------------------------------------------------------------
  // mapHistory

  ghost predicate Bounded(openCalls: map<string, seq<nat>>, openById: map<string, nat>, n: nat) {
    && (forall name, j :: name in openCalls && 0 <= j < |openCalls[name]| ==> openCalls[name][j] < n)
    && (forall id :: id in openById ==> openById[id] < n)
  }

  /** The open call with the result's id, if any, is one of the result's tool. */
  ghost predicate OwnName(open: seq<OpenCall>, m: HistoryMessage) {
    forall k :: 0 <= k < |open| && open[k].id.Some? && open[k].id == IdOf(m) ==> open[k].name == NameOr(m.toolName)
  }

  ghost predicate TookPick(open: seq<OpenCall>, m: HistoryMessage, i: Option<nat>, openCalls: map<string, seq<nat>>,
                           openById: map<string, nat>) {
    var k := Pick(open, m);
    if k < |open| then i == Some(open[k].index) && Linked(Without(open, k), openCalls, openById)
    else i == None && Linked(open, openCalls, openById)
  }

  lemma TakenLinked(open: seq<OpenCall>, openCalls: map<string, seq<nat>>, openById: map<string, nat>, k: nat, n: nat)
    requires Linked(open, openCalls, openById) && InOrder(open, n) && k < |open|
    ensures Linked(Without(open, k), RemovedFrom(openCalls, open[k].name, open[k].index),
                   WithoutIndex(openById, open[k].index))
  {
    RemovedNames(open, openCalls, k, n);
    RemovedIds(open, openById, k, n);
    WithoutDistinct(open, k);
  }

  lemma TakenById(open: seq<OpenCall>, m: HistoryMessage, openCalls: map<string, seq<nat>>, openById: map<string, nat>,
                  id: string, n: nat)
    requires Linked(open, openCalls, openById) && InOrder(open, n) && OwnName(open, m)
    requires IdOf(m) == Some(id) && id in openById
    ensures TookPick(open, m, Some(openById[id]), RemovedFrom(openCalls, NameOr(m.toolName), openById[id]),
                     openById - {id})
  {
    var k := FirstIndex(open, ById(id));
    OwnCall(open, openById, id);
    assert open[k].id == Some(id);
    TakenLinked(open, openCalls, openById, k, n);
    OwnIdOnly(open, openById, k, n);
  }

  lemma TakenByName(open: seq<OpenCall>, m: HistoryMessage, openCalls: map<string, seq<nat>>,
                    openById: map<string, nat>, n: nat)
    requires Linked(open, openCalls, openById) && InOrder(open, n)
    requires IdOf(m).Some? ==> IdOf(m).value !in openById
    ensures var name := NameOr(m.toolName);
            var q := Queue(openCalls, name);
            if |q| > 0 then name in openCalls
                && TookPick(open, m, Some(q[0]), openCalls[name := q[1..]], WithoutIndex(openById, q[0]))
            else TookPick(open, m, None, openCalls, openById)
  {
    var name := NameOr(m.toolName);
    var q := Queue(openCalls, name);
    if IdOf(m).Some? {
      OwnCall(open, openById, IdOf(m).value);
    }
    var k := FirstIndex(open, ByName(name));
    OldestHeads(open, name);
    assert q == Named(open, name);
    if k < |open| {
      TakenLinked(open, openCalls, openById, k, n);
      assert open[k].name == name && IndexOf(q, q[0]) == 0;
      assert q[..0] + q[1..] == q[1..];
    }
  }

  lemma TakenBounded(openCalls: map<string, seq<nat>>, openById: map<string, nat>, n: nat, name: string, id: string,
                     i: nat)
    requires Bounded(openCalls, openById, n)
    ensures Bounded(RemovedFrom(openCalls, name, i), openById - {id}, n)
    ensures name in openCalls && |openCalls[name]| > 0 ==>
            Bounded(openCalls[name := openCalls[name][1..]], WithoutIndex(openById, i), n)
  {
  }

  /** Find the call a result fills, and take it out of both maps. */
  method TakeCall(m: HistoryMessage, openCalls: map<string, seq<nat>>, openById: map<string, nat>, n: nat,
                  ghost open: seq<OpenCall>)
      returns (i: Option<nat>, openCalls': map<string, seq<nat>>, openById': map<string, nat>)
    requires Bounded(openCalls, openById, n)
    ensures Bounded(openCalls', openById', n) && (i.Some? ==> i.value < n)
    ensures Linked(open, openCalls, openById) && InOrder(open, n) && OwnName(open, m) ==>
            TookPick(open, m, i, openCalls', openById')
  {
    i, openCalls', openById' := None, openCalls, openById;
    var name := NameOr(m.toolName);
    var id := IdOf(m);
    if id.Some? && id.value in openById {
      i := Some(openById[id.value]);
      TakenBounded(openCalls, openById, n, name, id.value, i.value);
      openById' := openById - {id.value};
      openCalls' := RemovedFrom(openCalls, name, i.value);
      if Linked(open, openCalls, openById) && InOrder(open, n) && OwnName(open, m) {
        TakenById(open, m, openCalls, openById, id.value, n);
      }
    } else {
      if name in openCalls && |openCalls[name]| > 0 {
        var q := openCalls[name];
        i := Some(q[0]);
        TakenBounded(openCalls, openById, n, name, "", q[0]);
        openCalls' := openCalls[name := q[1..]];
        openById' := WithoutIndex(openById, q[0]);
      }
      if Linked(open, openCalls, openById) && InOrder(open, n) {
        TakenByName(open, m, openCalls, openById, n);
      }
    }
  }

  /** The entries of every call still in a queue. */
  method OpenEntries(openCalls: map<string, seq<nat>>) returns (all: set<nat>)
    ensures forall i :: i in all <==> exists name :: name in openCalls && i in openCalls[name]
  {
    all := {};
    var names := openCalls.Keys;
    while names != {}
      invariant names <= openCalls.Keys
      invariant forall i :: i in all <==> exists name :: name in openCalls && name !in names && i in openCalls[name]
    {
      var name :| name in names;
      all := all + set i | i in openCalls[name];
      names := names - {name};
    }
  }

  ghost predicate Mirrors(raw: seq<HistoryMessage>, n: nat, p: Pairing, mapped: seq<Chat>,
                          openCalls: map<string, seq<nat>>, openById: map<string, nat>)
    requires n <= |raw|
  {
    mapped == p.mapped && Linked(p.open, openCalls, openById) && MadeBy(p.open, raw, n)
  }

  lemma NewIdFresh(raw: seq<HistoryMessage>, n: nat, open: seq<OpenCall>, c: OpenCall)
    requires WellNamed(raw) && n < |raw| && IsCall(raw[n]) && MadeBy(open, raw, n) && c.id == IdOf(raw[n])
    ensures c.id.Some? ==> forall k :: 0 <= k < |open| ==> open[k].id != c.id
  {
    forall k | 0 <= k < |open| && open[k].id.Some? && c.id.Some?
      ensures open[k].id != c.id
    {
      var i :| 0 <= i < n && IsCall(raw[i]) && IdOf(raw[i]) == open[k].id;
    }
  }

  lemma MirrorsCall(raw: seq<HistoryMessage>, n: nat, p: Pairing, mapped: seq<Chat>, openCalls: map<string, seq<nat>>,
                    openById: map<string, nat>, aborted: AbortTest)
    requires WellNamed(raw) && n < |raw| && IsCall(raw[n])
    requires InRange(p) && Mirrors(raw, n, p, mapped, openCalls, openById)
    ensures var m := raw[n];
            var name := NameOr(m.toolName);
            Mirrors(raw, n + 1, Pair(p, m, n, aborted), mapped + [CallChat(m)],
                    openCalls[name := Queue(openCalls, name) + [|mapped|]],
                    if IdOf(m).Some? then openById[IdOf(m).value := |mapped|] else openById)
  {
    var c := OpenCall(|mapped|, NameOr(raw[n].toolName), IdOf(raw[n]));
    NewIdFresh(raw, n, p.open, c);
    CallLinked(p.open, openCalls, openById, c);
    MadeByCall(p.open, raw, n, c);
  }

  lemma MadeByCall(open: seq<OpenCall>, raw: seq<HistoryMessage>, n: nat, c: OpenCall)
    requires n < |raw| && IsCall(raw[n]) && MadeBy(open, raw, n)
    requires c.name == NameOr(raw[n].toolName) && c.id == IdOf(raw[n])
    ensures MadeBy(open + [c], raw, n + 1)
  {
  }

  lemma MirrorsResult(raw: seq<HistoryMessage>, n: nat, p: Pairing, mapped: seq<Chat>, openCalls: map<string, seq<nat>>,
                      openById: map<string, nat>, aborted: AbortTest,
                      i: Option<nat>, openCalls': map<string, seq<nat>>, openById': map<string, nat>)
    requires n < |raw| && IsResult(raw[n])
    requires InRange(p) && Mirrors(raw, n, p, mapped, openCalls, openById)
    requires TookPick(p.open, raw[n], i, openCalls', openById')
    ensures i.Some? ==> i.value < |mapped|
    ensures Mirrors(raw, n + 1, Pair(p, raw[n], n, aborted),
                    if i.Some? then mapped[i.value := Filled(mapped[i.value], raw[n], aborted)]
                    else mapped + [OrphanChat(raw[n], aborted)],
                    openCalls', openById')
  {
    var k, q := Pick(p.open, raw[n]), PairResult(p, raw[n], n, aborted);
    if k < |p.open| {
      WithoutMadeBy(p.open, k, raw, n);
      assert q.open == Without(p.open, k);
    }
    MadeByMore(q.open, raw, n);
  }

  lemma MadeByMore(open: seq<OpenCall>, raw: seq<HistoryMessage>, n: nat)
    requires n < |raw| && MadeBy(open, raw, n)
    ensures MadeBy(open, raw, n + 1)
  {
  }

  lemma MirrorsPlain(raw: seq<HistoryMessage>, n: nat, p: Pairing, mapped: seq<Chat>, openCalls: map<string, seq<nat>>,
                     openById: map<string, nat>, aborted: AbortTest)
    requires n < |raw| && !IsCall(raw[n]) && !IsResult(raw[n])
    requires InRange(p) && Mirrors(raw, n, p, mapped, openCalls, openById)
    ensures Mirrors(raw, n + 1, Pair(p, raw[n], n, aborted), mapped + [PlainChat(raw[n])], openCalls, openById)
  {
    MadeByMore(p.open, raw, n);
  }

  lemma OwnNameHolds(raw: seq<HistoryMessage>, n: nat, open: seq<OpenCall>)
    requires WellNamed(raw) && n < |raw| && IsResult(raw[n]) && MadeBy(open, raw, n)
    ensures OwnName(open, raw[n])
  {
    forall k | 0 <= k < |open| && open[k].id.Some? && open[k].id == IdOf(raw[n])
      ensures open[k].name == NameOr(raw[n].toolName)
    {
      var i :| 0 <= i < n && IsCall(raw[i]) && IdOf(raw[i]) == open[k].id && NameOr(raw[i].toolName) == open[k].name;
    }
  }

  /** A call is painted, and both maps point to it. */
  method PlaceCall(raw: seq<HistoryMessage>, n: nat, mapped: seq<Chat>, openCalls: map<string, seq<nat>>,
                   openById: map<string, nat>,
                   ghost p: Pairing, ghost aborted: AbortTest)
      returns (mapped': seq<Chat>, openCalls': map<string, seq<nat>>, openById': map<string, nat>)
    requires n < |raw| && IsCall(raw[n]) && Bounded(openCalls, openById, |mapped|) && InRange(p)
    ensures Bounded(openCalls', openById', |mapped'|)
    ensures WellNamed(raw) && Mirrors(raw, n, p, mapped, openCalls, openById) ==>
              Mirrors(raw, n + 1, Pair(p, raw[n], n, aborted), mapped', openCalls', openById')
  {
    if WellNamed(raw) && Mirrors(raw, n, p, mapped, openCalls, openById) {
      MirrorsCall(raw, n, p, mapped, openCalls, openById, aborted);
    }
    var m := raw[n];
    var name, at := NameOr(m.toolName), |mapped|;
    mapped' := mapped + [CallChat(m)];
    openCalls' := openCalls[name := Queue(openCalls, name) + [at]];
    openById' := if IdOf(m).Some? then openById[IdOf(m).value := at] else openById;
  }

  /** A result fills its call in place, or is painted on its own. */
  method PlaceResult(raw: seq<HistoryMessage>, n: nat, mapped: seq<Chat>, openCalls: map<string, seq<nat>>,
                     openById: map<string, nat>,
                     ghost p: Pairing, aborted: AbortTest)
      returns (mapped': seq<Chat>, openCalls': map<string, seq<nat>>, openById': map<string, nat>)
    requires n < |raw| && IsResult(raw[n]) && Bounded(openCalls, openById, |mapped|) && InRange(p) && Indexed(p)
    ensures Bounded(openCalls', openById', |mapped'|)
    ensures WellNamed(raw) && Mirrors(raw, n, p, mapped, openCalls, openById) ==>
              Mirrors(raw, n + 1, Pair(p, raw[n], n, aborted), mapped', openCalls', openById')
  {
    var m := raw[n];
    ghost var linked := WellNamed(raw) && Mirrors(raw, n, p, mapped, openCalls, openById);
    if linked {
      OwnNameHolds(raw, n, p.open);
    }
    var i;
    i, openCalls', openById' := TakeCall(m, openCalls, openById, |mapped|, p.open);
    if linked {
      MirrorsResult(raw, n, p, mapped, openCalls, openById, aborted, i, openCalls', openById');
    }
    if i.Some? {
      mapped' := mapped[i.value := Filled(mapped[i.value], m, aborted)];
    } else {
      mapped' := mapped + [OrphanChat(m, aborted)];
    }
  }

  /** The loop over the messages, with its two index maps. */
  method PairAll(raw: seq<HistoryMessage>, aborted: AbortTest)
    returns (mapped: seq<Chat>, openCalls: map<string, seq<nat>>, ghost ps: seq<Pairing>)
    ensures forall name, j :: name in openCalls && 0 <= j < |openCalls[name]| ==> openCalls[name][j] < |mapped|
    ensures Pairs(ps, raw, aborted)
    ensures WellNamed(raw) ==> mapped == ps[|raw|].mapped && NamesLinked(ps[|raw|].open, openCalls)
  {
    mapped, openCalls, ps := [], map[], [START];
    var openById: map<string, nat> := map[];
    for n := 0 to |raw|
      invariant Bounded(openCalls, openById, |mapped|)
      invariant PairsUpTo(ps, raw, n, aborted)
      invariant WellNamed(raw) ==> Mirrors(raw, n, ps[n], mapped, openCalls, openById)
    {
      var m := raw[n];
      ghost var p := ps[n];
      PairsMore(ps, raw, n, aborted);
      IndexedAt(ps, raw, n, aborted, n);
      if m.role.ToolCall? {
        mapped, openCalls, openById := PlaceCall(raw, n, mapped, openCalls, openById, p, aborted);
      } else if m.role.ToolResult? {
        mapped, openCalls, openById := PlaceResult(raw, n, mapped, openCalls, openById, p, aborted);
      } else {
        if WellNamed(raw) {
          MirrorsPlain(raw, n, p, mapped, openCalls, openById, aborted);
        }
        mapped := mapped + [PlainChat(m)];
      }
      ps := ps + [Pair(p, m, n, aborted)];
    }
  }

  lemma QueuedIsOpen(open: seq<OpenCall>, openCalls: map<string, seq<nat>>, i: nat)
    requires NamesLinked(open, openCalls)
    ensures (exists name :: name in openCalls && i in openCalls[name]) <==> IsOpen(open, i)
  {
    if name :| name in openCalls && i in openCalls[name] {
      assert Queue(openCalls, name) == Named(open, name);
      NamedMember(open, name, i);
    }
    if IsOpen(open, i) {
      var k :| 0 <= k < |open| && open[k].index == i;
      assert Queue(openCalls, open[k].name) == Named(open, open[k].name);
      NamedMember(open, open[k].name, i);
    }
  }

  /** The latest member of `all`, or -1. */
  method LatestOf(all: set<nat>, n: nat) returns (last: int)
    requires forall i :: i in all ==> i < n
    ensures all == {} ==> last == -1
    ensures all != {} ==> last in all
    ensures forall i :: i in all ==> i <= last
  {
    last := -1;
    for i := 0 to n
      invariant last == -1 || (last in all && last < i)
      invariant forall j :: j in all && j < i ==> j <= last
    {
      if i in all {
        last := i;
      }
    }
    assert all == {} || exists i :: i in all;
  }

  function Marked(c: Chat, running: bool): Chat {
    if running then c.(isStreaming := true) else c.(interrupted := true)
  }

  /** Mark the calls left open: interrupted, but the one at `last` running. */
  method MarkOpen(mapped: seq<Chat>, all: set<nat>, last: int) returns (marked: seq<Chat>)
    ensures |marked| == |mapped|
    ensures forall j :: 0 <= j < |marked| ==> marked[j] == if j in all then Marked(mapped[j], j == last) else mapped[j]
  {
    marked := mapped;
    for i := 0 to |mapped|
      invariant |marked| == |mapped|
      invariant forall j :: 0 <= j < i ==> marked[j] == if j in all then Marked(mapped[j], j == last) else mapped[j]
      invariant forall j :: i <= j < |mapped| ==> marked[j] == mapped[j]
    {
      if i in all {
        marked := marked[i := Marked(marked[i], i == last)];
      }
    }
  }

  function StreamLast(marked: seq<Chat>, tail: bool): seq<Chat> {
    if tail && |marked| > 0 && Streams(marked[|marked| - 1])
    then marked[|marked| - 1 := marked[|marked| - 1].(isStreaming := true)] else marked
  }

  lemma StreamedIsFinished(p: Pairing, tail: bool, marked: seq<Chat>)
    requires |marked| == |p.mapped| && forall j :: 0 <= j < |marked| ==> marked[j] == MarkedAt(p, tail, j)
    ensures StreamLast(marked, tail) == Finished(p, tail)
  {
    forall j | 0 <= j < |marked|
      ensures StreamLast(marked, tail)[j] == Finished(p, tail)[j]
    {
      assert marked[j] == MarkedAt(p, tail, j);
    }
  }

  /** What becomes of the calls left open, and of a last message, once all is paired. */
  method FinishAll(mapped: seq<Chat>, openCalls: map<string, seq<nat>>, tail: bool, ghost p: Pairing)
    returns (finished: seq<Chat>)
    requires forall name, j :: name in openCalls && 0 <= j < |openCalls[name]| ==> openCalls[name][j] < |mapped|
    ensures mapped == p.mapped && Indexed(p) && NamesLinked(p.open, openCalls) ==> finished == Finished(p, tail)
  {
    var all := OpenEntries(openCalls);
    var latest := LatestOf(all, |mapped|);
    finished := MarkOpen(mapped, all, if tail then latest else -1);
    if mapped == p.mapped && Indexed(p) && NamesLinked(p.open, openCalls) {
      MarkedAll(p, openCalls, all, latest, tail, finished);
      StreamedIsFinished(p, tail, finished);
    }
    if tail && |finished| > 0 {
      var lastIndex := |finished| - 1;
      if Streams(finished[lastIndex]) {
        finished := finished[lastIndex := finished[lastIndex].(isStreaming := true)];
      }
    }
  }

  /** The painted history, whatever the window holds; of a well-named window it is the reference's. */
  method MapHistory(raw: seq<HistoryMessage>, tail: bool, aborted: AbortTest)
    returns (mapped: seq<Chat>, ghost ps: seq<Pairing>)
    ensures Pairs(ps, raw, aborted)
    ensures WellNamed(raw) ==> mapped == Finished(ps[|raw|], tail)
  {
    var openCalls;
    mapped, openCalls, ps := PairAll(raw, aborted);
    IndexedAt(ps, raw, |raw|, aborted, |raw|);
    mapped := FinishAll(mapped, openCalls, tail, ps[|raw|]);
  }

  lemma MarkedAll(p: Pairing, openCalls: map<string, seq<nat>>, all: set<nat>, latest: int, tail: bool,
                  marked: seq<Chat>)
    requires Indexed(p) && NamesLinked(p.open, openCalls)
    requires forall i :: i in all <==> exists name :: name in openCalls && i in openCalls[name]
    requires all != {} ==> latest in all
    requires forall i :: i in all ==> i <= latest
    requires |marked| == |p.mapped|
    requires forall j :: 0 <= j < |marked| ==>
               marked[j] == if j in all then Marked(p.mapped[j], j == if tail then latest else -1) else p.mapped[j]
    ensures forall j :: 0 <= j < |marked| ==> marked[j] == MarkedAt(p, tail, j)
  {
    forall i: nat
      ensures i in all <==> IsOpen(p.open, i)
    {
      QueuedIsOpen(p.open, openCalls, i);
    }
    if |p.open| > 0 {
      var end := p.open[|p.open| - 1].index;
      assert IsOpen(p.open, end) && end in all;
      var k :| 0 <= k < |p.open| && p.open[k].index == latest;
      assert latest <= end;
    }
  }

  // -------------------------------------------------------------------------
  // What the pairing promises

  function Calls(raw: seq<HistoryMessage>, n: nat): nat
    requires n <= |raw|
  {
    if n == 0 then 0 else Calls(raw, n - 1) + if IsCall(raw[n - 1]) then 1 else 0
  }

  function Results(raw: seq<HistoryMessage>, n: nat): nat
    requires n <= |raw|
  {
    if n == 0 then 0 else Results(raw, n - 1) + if IsResult(raw[n - 1]) then 1 else 0
  }

  lemma PairCounts(p: Pairing, m: HistoryMessage, at: nat, aborted: AbortTest)
    requires InRange(p)
    ensures var q := Pair(p, m, at, aborted);
            && |q.mapped| + |q.pairs| == |p.mapped| + |p.pairs| + 1
            && |q.open| + |q.pairs| == |p.open| + |p.pairs| + (if IsCall(m) then 1 else 0)
            && |q.pairs| <= |p.pairs| + if IsResult(m) then 1 else 0
  {
  }

  predicate Counts(p: Pairing, n: nat, calls: nat, results: nat) {
    |p.mapped| + |p.pairs| == n && |p.open| + |p.pairs| == calls && |p.pairs| <= results
  }

  lemma CountStep(p: Pairing, q: Pairing, m: HistoryMessage, at: nat, aborted: AbortTest, calls: nat, results: nat)
    requires InRange(p) && q == Pair(p, m, at, aborted) && Counts(p, at, calls, results)
    ensures Counts(q, at + 1, calls + (if IsCall(m) then 1 else 0), results + if IsResult(m) then 1 else 0)
  {
    PairCounts(p, m, at, aborted);
  }

  lemma CountNext(ps: seq<Pairing>, raw: seq<HistoryMessage>, aborted: AbortTest, n: nat, calls: nat, results: nat)
    requires Pairs(ps, raw, aborted) && n < |raw| && Counts(ps[n], n, calls, results)
    ensures Counts(ps[n + 1], n + 1, calls + (if IsCall(raw[n]) then 1 else 0),
                   results + if IsResult(raw[n]) then 1 else 0)
  {
    assert IsNext(ps, raw, n, aborted);
    CountStep(ps[n], ps[n + 1], raw[n], n, aborted, calls, results);
  }

  lemma {:induction false} Counted(ps: seq<Pairing>, raw: seq<HistoryMessage>, aborted: AbortTest, n: nat)
    requires Pairs(ps, raw, aborted) && n <= |raw|
    ensures Counts(ps[n], n, Calls(raw, n), Results(raw, n))
  {
    if n > 0 {
      Counted(ps, raw, aborted, n - 1);
      CountNext(ps, raw, aborted, n - 1, Calls(raw, n - 1), Results(raw, n - 1));
    }
  }

  /**
   * One entry for each message that is not a result and one for each result that filled
   * no call; every call is filled or open.
   */
  lemma EveryMessageOnce(ps: seq<Pairing>, raw: seq<HistoryMessage>, aborted: AbortTest, n: nat)
    requires Pairs(ps, raw, aborted) && n <= |raw|
    ensures var p := ps[n];
            && |p.mapped| == (n - Results(raw, n)) + (Results(raw, n) - |p.pairs|)
            && |p.pairs| <= Results(raw, n)
            && |p.open| == Calls(raw, n) - |p.pairs|
  {
    Counted(ps, raw, aborted, n);
  }

  /** The entry of message `j`. */
  function EntryOf(ps: seq<Pairing>, j: nat): nat
    requires j < |ps|
  {
    |ps[j].mapped|
  }

  /** The call is where it was issued, and without a result. */
  predicate OpenIn(p: Pairing, c: OpenCall, call: Chat) {
    c in p.open && c.index < |p.mapped| && p.mapped[c.index] == call
  }

  /** The call is where it was issued, and the `r`-th message, a later result, filled it. */
  predicate FilledIn(p: Pairing, i: nat, call: Chat, raw: seq<HistoryMessage>, j: nat, r: nat, aborted: AbortTest) {
    && j < r < |raw| && IsResult(raw[r]) && (r, i) in p.pairs
    && i < |p.mapped| && p.mapped[i] == Filled(call, raw[r], aborted)
  }

  ghost predicate PlacedIn(p: Pairing, c: OpenCall, call: Chat, raw: seq<HistoryMessage>, j: nat, aborted: AbortTest) {
    OpenIn(p, c, call) || exists r: nat :: FilledIn(p, c.index, call, raw, j, r, aborted)
  }

  /** Placing one more result leaves an open call as it is, or fills it. */
  lemma ResultKeepsCall(p: Pairing, m: HistoryMessage, at: nat, aborted: AbortTest, c: OpenCall, call: Chat)
    requires InRange(p) && OpenIn(p, c, call)
    ensures var q := PairResult(p, m, at, aborted);
            OpenIn(q, c, call) || ((at, c.index) in q.pairs && c.index < |q.mapped|
                                   && q.mapped[c.index] == Filled(call, m, aborted))
  {
    var q := PairResult(p, m, at, aborted);
    var k :| 0 <= k < |p.open| && p.open[k] == c;
    var pick := Pick(p.open, m);
    if pick < |p.open| && pick != k {
      WithoutAt(p.open, pick, if k < pick then k else k - 1);
      assert Without(p.open, pick)[if k < pick then k else k - 1] == c;
    } else if pick == k {
      assert q.pairs[|q.pairs| - 1] == (at, c.index);
    }
  }

  lemma PairKeepsOpen(p: Pairing, raw: seq<HistoryMessage>, at: nat, aborted: AbortTest, c: OpenCall, call: Chat,
                      j: nat)
    requires j < at < |raw| && InRange(p) && OpenIn(p, c, call)
    ensures PlacedIn(Pair(p, raw[at], at, aborted), c, call, raw, j, aborted)
  {
    var q := Pair(p, raw[at], at, aborted);
    if IsResult(raw[at]) {
      ResultKeepsCall(p, raw[at], at, aborted, c, call);
      assert OpenIn(q, c, call) || FilledIn(q, c.index, call, raw, j, at, aborted);
    } else {
      assert OpenIn(q, c, call);
    }
  }

  lemma PairKeepsFilled(p: Pairing, q: Pairing, raw: seq<HistoryMessage>, at: nat, aborted: AbortTest, i: nat,
                        call: Chat, j: nat, r: nat)
    requires at < |raw| && Indexed(p) && q == Pair(p, raw[at], at, aborted) && FilledIn(p, i, call, raw, j, r, aborted)
    ensures FilledIn(q, i, call, raw, j, r, aborted)
  {
    var k :| 0 <= k < |p.pairs| && p.pairs[k] == (r, i);
    assert q.pairs[k] == (r, i);
  }

  lemma PairKeepsPlaced(p: Pairing, q: Pairing, raw: seq<HistoryMessage>, at: nat, aborted: AbortTest, c: OpenCall,
                        call: Chat, j: nat)
    requires j < at < |raw| && Indexed(p) && PlacedIn(p, c, call, raw, j, aborted)
    requires q == Pair(p, raw[at], at, aborted)
    ensures PlacedIn(q, c, call, raw, j, aborted)
  {
    if OpenIn(p, c, call) {
      PairKeepsOpen(p, raw, at, aborted, c, call, j);
    } else {
      var r: nat :| FilledIn(p, c.index, call, raw, j, r, aborted);
      PairKeepsFilled(p, q, raw, at, aborted, c.index, call, j, r);
    }
  }

  function CallOf(ps: seq<Pairing>, raw: seq<HistoryMessage>, j: nat): OpenCall
    requires j < |raw| && j < |ps|
  {
    OpenCall(EntryOf(ps, j), NameOr(raw[j].toolName), IdOf(raw[j]))
  }

  lemma CallPlaced(p: Pairing, m: HistoryMessage)
    requires InRange(p)
    ensures OpenIn(PairCall(p, m), OpenCall(|p.mapped|, NameOr(m.toolName), IdOf(m)), CallChat(m))
  {
    assert PairCall(p, m).open[|p.open|] == OpenCall(|p.mapped|, NameOr(m.toolName), IdOf(m));
  }

  /** A call keeps its position: it is open there as issued, or filled there by one later result. */
  lemma {:induction false} CallStays(ps: seq<Pairing>, raw: seq<HistoryMessage>, aborted: AbortTest, j: nat, n: nat)
    requires Pairs(ps, raw, aborted) && j < n <= |raw| && IsCall(raw[j])
    ensures PlacedIn(ps[n], CallOf(ps, raw, j), CallChat(raw[j]), raw, j, aborted)
    decreases n
  {
    assert IsNext(ps, raw, n - 1, aborted);
    if n == j + 1 {
      CallPlaced(ps[j], raw[j]);
    } else {
      CallStays(ps, raw, aborted, j, n - 1);
      IndexedAt(ps, raw, |raw|, aborted, n - 1);
      PairKeepsPlaced(ps[n - 1], ps[n], raw, n - 1, aborted, CallOf(ps, raw, j), CallChat(raw[j]), j);
    }
  }

  lemma OpenIffUnfilled(p: Pairing, c: OpenCall, call: Chat, raw: seq<HistoryMessage>, j: nat, aborted: AbortTest)
    requires Indexed(p) && PlacedIn(p, c, call, raw, j, aborted)
    ensures IsOpen(p.open, c.index) ==> OpenIn(p, c, call)
    ensures !IsOpen(p.open, c.index) ==> exists r: nat :: FilledIn(p, c.index, call, raw, j, r, aborted)
  {
    if r: nat :| FilledIn(p, c.index, call, raw, j, r, aborted) {
      var k :| 0 <= k < |p.pairs| && p.pairs[k] == (r, c.index);
    }
    if OpenIn(p, c, call) {
      var k :| 0 <= k < |p.open| && p.open[k] == c;
    }
  }

  /** The latest open call, if any, sits at the greatest open entry. */
  predicate IsLatest(open: seq<OpenCall>, i: nat) {
    IsOpen(open, i) && forall k :: 0 <= k < |open| ==> open[k].index <= i
  }

  lemma LatestIsLast(open: seq<OpenCall>, n: nat, i: nat)
    requires InOrder(open, n)
    ensures IsLatest(open, i) <==> |open| > 0 && i == open[|open| - 1].index
  {
    if |open| > 0 {
      assert open[|open| - 1].index <= i || !IsLatest(open, i);
    }
  }

  lemma Fate(p: Pairing, tail: bool, c: OpenCall, call: Chat, raw: seq<HistoryMessage>, j: nat, aborted: AbortTest)
    requires Indexed(p) && PlacedIn(p, c, call, raw, j, aborted) && call.role.ToolChat?
    ensures c.index < |p.mapped|
    ensures var f := FinishedAt(p, tail, c.index);
            if !IsOpen(p.open, c.index)
            then exists r: nat :: FilledIn(p, c.index, call, raw, j, r, aborted) && f == Filled(call, raw[r], aborted)
            else if tail && IsLatest(p.open, c.index) then f == call.(isStreaming := true)
            else f == call.(interrupted := true)
  {
    OpenIffUnfilled(p, c, call, raw, j, aborted);
    LatestIsLast(p.open, |p.mapped|, c.index);
  }

  /**
   * What the painted history shows of a call, at its own position: the result that
   * filled it; or still running, if it is the latest one open in the live tail;
   * or interrupted.
   */
  lemma CallFate(ps: seq<Pairing>, raw: seq<HistoryMessage>, tail: bool, aborted: AbortTest, j: nat)
    requires Pairs(ps, raw, aborted) && j < |raw| && IsCall(raw[j])
    ensures var p, i, shown := ps[|raw|], EntryOf(ps, j), Finished(ps[|raw|], tail);
            && i < |shown|
            && if !IsOpen(p.open, i) then
                 exists r: nat :: FilledIn(p, i, CallChat(raw[j]), raw, j, r, aborted)
                     && shown[i] == Filled(CallChat(raw[j]), raw[r], aborted)
               else if tail && IsLatest(p.open, i) then shown[i] == CallChat(raw[j]).(isStreaming := true)
               else shown[i] == CallChat(raw[j]).(interrupted := true)
  {
    IndexedAt(ps, raw, |raw|, aborted, |raw|);
    CallStays(ps, raw, aborted, j, |raw|);
    Fate(ps[|raw|], tail, CallOf(ps, raw, j), CallChat(raw[j]), raw, j, aborted);
  }

  /** Pairing is injective: no two results fill one entry, and no result fills two. */
  lemma PairsInjective(ps: seq<Pairing>, raw: seq<HistoryMessage>, aborted: AbortTest, n: nat, a: nat, b: nat)
    requires Pairs(ps, raw, aborted) && n <= |raw| && a < b < |ps[n].pairs|
    ensures ps[n].pairs[a].0 != ps[n].pairs[b].0 && ps[n].pairs[a].1 != ps[n].pairs[b].1
  {
    IndexedAt(ps, raw, |raw|, aborted, n);
  }

  lemma OldestIs(open: seq<OpenCall>, p: OpenCall -> bool, k: nat)
    requires k < |open| && p(open[k]) && forall j :: 0 <= j < k ==> !p(open[j])
    ensures FirstIndex(open, p) == k
  {
  }

  lemma FillsPick(p: Pairing, q: Pairing, raw: seq<HistoryMessage>, r: nat, aborted: AbortTest, k: nat, call: Chat,
                  j: nat)
    requires j < r < |raw| && IsResult(raw[r]) && InRange(p) && q == Pair(p, raw[r], r, aborted)
    requires k < |p.open| && Pick(p.open, raw[r]) == k && OpenIn(p, p.open[k], call)
    ensures FilledIn(q, p.open[k].index, call, raw, j, r, aborted)
  {
    assert q.pairs[|p.pairs|] == (r, p.open[k].index);
  }

  /** The open call a result picks: its own, or if that is not open the oldest of its tool. */
  ghost predicate Picked(open: seq<OpenCall>, m: HistoryMessage, c: OpenCall) {
    if IdOf(m).Some? && exists k :: 0 <= k < |open| && open[k].id == IdOf(m) then c.id == IdOf(m)
    else c.name == NameOr(m.toolName) && forall k :: 0 <= k < |open| && open[k].name == c.name ==>
        c.index <= open[k].index
  }

  lemma PickedIs(open: seq<OpenCall>, n: nat, m: HistoryMessage, k: nat)
    requires InOrder(open, n) && DistinctIds(open) && k < |open| && Picked(open, m, open[k])
    ensures Pick(open, m) == k
  {
    if IdOf(m).Some? && exists k :: 0 <= k < |open| && open[k].id == IdOf(m) {
      OldestIs(open, ById(IdOf(m).value), k);
    } else {
      OldestIs(open, ByName(NameOr(m.toolName)), k);
    }
  }

  lemma PickedFilled(p: Pairing, q: Pairing, raw: seq<HistoryMessage>, r: nat, aborted: AbortTest, c: OpenCall,
                     call: Chat, j: nat)
    requires j < r < |raw| && IsResult(raw[r]) && Indexed(p) && q == Pair(p, raw[r], r, aborted)
    requires PlacedIn(p, c, call, raw, j, aborted) && IsOpen(p.open, c.index) && DistinctIds(p.open)
             && Picked(p.open, raw[r], c)
    ensures FilledIn(q, c.index, call, raw, j, r, aborted)
  {
    OpenIffUnfilled(p, c, call, raw, j, aborted);
    var k :| 0 <= k < |p.open| && p.open[k] == c;
    PickedIs(p.open, |p.mapped|, raw[r], k);
    FillsPick(p, q, raw, r, aborted, k, call, j);
  }

  lemma DistinctStep(p: Pairing, q: Pairing, raw: seq<HistoryMessage>, n: nat, aborted: AbortTest)
    requires WellNamed(raw) && n < |raw| && InRange(p) && q == Pair(p, raw[n], n, aborted)
    requires DistinctIds(p.open) && MadeBy(p.open, raw, n)
    ensures DistinctIds(q.open) && MadeBy(q.open, raw, n + 1)
  {
    if IsCall(raw[n]) {
      var c := OpenCall(|p.mapped|, NameOr(raw[n].toolName), IdOf(raw[n]));
      NewIdFresh(raw, n, p.open, c);
      MadeByCall(p.open, raw, n, c);
    } else {
      if IsResult(raw[n]) && Pick(p.open, raw[n]) < |p.open| {
        WithoutDistinct(p.open, Pick(p.open, raw[n]));
        WithoutMadeBy(p.open, Pick(p.open, raw[n]), raw, n);
      }
      MadeByMore(q.open, raw, n);
    }
  }

  lemma {:induction false} DistinctOpen(ps: seq<Pairing>, raw: seq<HistoryMessage>, aborted: AbortTest, n: nat)
    requires Pairs(ps, raw, aborted) && WellNamed(raw) && n <= |raw|
    ensures DistinctIds(ps[n].open) && MadeBy(ps[n].open, raw, n)
  {
    if n > 0 {
      DistinctOpen(ps, raw, aborted, n - 1);
      assert IsNext(ps, raw, n - 1, aborted);
      DistinctStep(ps[n - 1], ps[n], raw, n - 1, aborted);
    }
  }

  /**
   * A result fills its own call if that is open, and otherwise the open call of its
   * tool that was issued first; the call keeps what it was issued with.
   */
  lemma ResultFills(ps: seq<Pairing>, raw: seq<HistoryMessage>, aborted: AbortTest, r: nat, j: nat)
    requires Pairs(ps, raw, aborted) && WellNamed(raw) && j < r < |raw| && IsCall(raw[j]) && IsResult(raw[r])
    requires IsOpen(ps[r].open, EntryOf(ps, j)) && Picked(ps[r].open, raw[r], CallOf(ps, raw, j))
    ensures FilledIn(ps[r + 1], EntryOf(ps, j), CallChat(raw[j]), raw, j, r, aborted)
  {
    CallStays(ps, raw, aborted, j, r);
    DistinctOpen(ps, raw, aborted, r);
    IndexedAt(ps, raw, |raw|, aborted, r);
    assert IsNext(ps, raw, r, aborted);
    PickedFilled(ps[r], ps[r + 1], raw, r, aborted, CallOf(ps, raw, j), CallChat(raw[j]), j);
  }

  lemma OpenCallIn(ps: seq<Pairing>, raw: seq<HistoryMessage>, aborted: AbortTest, r: nat, j: nat)
    requires Pairs(ps, raw, aborted) && j < r < |raw| && IsCall(raw[j]) && IsOpen(ps[r].open, EntryOf(ps, j))
    ensures CallOf(ps, raw, j) in ps[r].open
  {
    CallStays(ps, raw, aborted, j, r);
    IndexedAt(ps, raw, |raw|, aborted, r);
    OpenIffUnfilled(ps[r], CallOf(ps, raw, j), CallChat(raw[j]), raw, j, aborted);
  }

  /** A result with the id of a call that is open fills that call, whatever else is open. */
  lemma ResultFillsOwn(ps: seq<Pairing>, raw: seq<HistoryMessage>, aborted: AbortTest, r: nat, j: nat)
    requires Pairs(ps, raw, aborted) && WellNamed(raw) && j < r < |raw| && IsCall(raw[j]) && IsResult(raw[r])
    requires raw[j].toolCallId == raw[r].toolCallId && raw[r].toolCallId.Some? && raw[r].toolCallId.value != ""
    requires IsOpen(ps[r].open, EntryOf(ps, j))
    ensures FilledIn(ps[r + 1], EntryOf(ps, j), CallChat(raw[j]), raw, j, r, aborted)
  {
    OpenCallIn(ps, raw, aborted, r, j);
    var k :| 0 <= k < |ps[r].open| && ps[r].open[k] == CallOf(ps, raw, j);
    assert ps[r].open[k].id == IdOf(raw[r]);
    ResultFills(ps, raw, aborted, r, j);
  }

  /** One without an id, or with an empty one, fills the open call of its tool that was issued first. */
  lemma ResultFillsOldest(ps: seq<Pairing>, raw: seq<HistoryMessage>, aborted: AbortTest, r: nat, j: nat)
    requires Pairs(ps, raw, aborted) && WellNamed(raw) && j < r < |raw| && IsCall(raw[j]) && IsResult(raw[r])
    requires raw[r].toolCallId.None? || raw[r].toolCallId.value == ""
    requires IsOpen(ps[r].open, EntryOf(ps, j)) && NameOr(raw[j].toolName) == NameOr(raw[r].toolName)
    requires forall c <- ps[r].open :: c.name == NameOr(raw[r].toolName) ==> EntryOf(ps, j) <= c.index
    ensures FilledIn(ps[r + 1], EntryOf(ps, j), CallChat(raw[j]), raw, j, r, aborted)
  {
    assert Picked(ps[r].open, raw[r], CallOf(ps, raw, j));
    ResultFills(ps, raw, aborted, r, j);
  }

  lemma FillingNext(ps: seq<Pairing>, raw: seq<HistoryMessage>, aborted: AbortTest, j: nat, r: nat, n: nat, i: nat,
                    call: Chat)
    requires Pairs(ps, raw, aborted) && n < |raw| && FilledIn(ps[n], i, call, raw, j, r, aborted)
    ensures FilledIn(ps[n + 1], i, call, raw, j, r, aborted)
  {
    IndexedAt(ps, raw, |raw|, aborted, n);
    assert IsNext(ps, raw, n, aborted);
    PairKeepsFilled(ps[n], ps[n + 1], raw, n, aborted, i, call, j, r);
  }

  /** Later messages never undo a filling. */
  lemma {:induction false} FillingStays(ps: seq<Pairing>, raw: seq<HistoryMessage>, aborted: AbortTest, j: nat, r: nat,
                                        n: nat, i: nat, call: Chat)
    requires Pairs(ps, raw, aborted) && r < n <= |raw| && FilledIn(ps[r + 1], i, call, raw, j, r, aborted)
    ensures FilledIn(ps[n], i, call, raw, j, r, aborted)
    decreases n
  {
    if n > r + 1 {
      FillingStays(ps, raw, aborted, j, r, n - 1, i, call);
      FillingNext(ps, raw, aborted, j, r, n - 1, i, call);
    }
  }

  // -------------------------------------------------------------------------
  // What is painted of each message

  /** The entry is painted as it will stay. */
  predicate SettledAt(p: Pairing, i: nat, c: Chat) {
    i < |p.mapped| && p.mapped[i] == c && !IsOpen(p.open, i)
  }

  lemma PairKeepsSettled(p: Pairing, m: HistoryMessage, at: nat, aborted: AbortTest, i: nat, c: Chat)
    requires InRange(p) && SettledAt(p, i, c)
    ensures SettledAt(Pair(p, m, at, aborted), i, c)
  {
    var q := Pair(p, m, at, aborted);
    if k :| 0 <= k < |q.open| && q.open[k].index == i && IsResult(m) {
      var pick := Pick(p.open, m);
      if pick < |p.open| {
        WithoutAt(p.open, pick, k);
      }
    }
  }

  lemma {:induction false} SettledStays(ps: seq<Pairing>, raw: seq<HistoryMessage>, aborted: AbortTest, n: nat, n': nat,
                                        i: nat, c: Chat)
    requires Pairs(ps, raw, aborted) && n <= n' <= |raw| && SettledAt(ps[n], i, c)
    ensures SettledAt(ps[n'], i, c)
    decreases n'
  {
    if n < n' {
      SettledStays(ps, raw, aborted, n, n' - 1, i, c);
      assert IsNext(ps, raw, n' - 1, aborted);
      PairKeepsSettled(ps[n' - 1], raw[n' - 1], n' - 1, aborted, i, c);
    }
  }

  predicate NotEnded(c: Chat) {
    c.role.ToolChat? && c.endedAt.None?
  }

  /** Only tool calls are open, and none of them has ended. */
  predicate ToolsOpen(p: Pairing) {
    forall k :: 0 <= k < |p.open| ==> p.open[k].index < |p.mapped| && NotEnded(p.mapped[p.open[k].index])
  }

  lemma FillKeepsTools(mapped: seq<Chat>, open: seq<OpenCall>, k: nat, filled: Chat, j: nat)
    requires InOrder(open, |mapped|) && k < |open| && j < |open| - 1
    requires forall i :: 0 <= i < |open| ==> NotEnded(mapped[open[i].index])
    ensures Without(open, k)[j].index < |mapped| && NotEnded(mapped[open[k].index := filled][Without(open, k)[j].index])
  {
    WithoutAt(open, k, j);
  }

  lemma PairKeepsTools(p: Pairing, m: HistoryMessage, at: nat, aborted: AbortTest)
    requires InRange(p) && ToolsOpen(p) && Indexed(p)
    ensures ToolsOpen(Pair(p, m, at, aborted))
  {
    var q, pick := Pair(p, m, at, aborted), Pick(p.open, m);
    if IsResult(m) && pick < |p.open| {
      forall k | 0 <= k < |q.open|
        ensures NotEnded(q.mapped[q.open[k].index])
      {
        FillKeepsTools(p.mapped, p.open, pick, Filled(p.mapped[p.open[pick].index], m, aborted), k);
      }
    }
  }

  lemma {:induction false} ToolsOpenAt(ps: seq<Pairing>, raw: seq<HistoryMessage>, aborted: AbortTest, n: nat)
    requires Pairs(ps, raw, aborted) && n <= |raw|
    ensures ToolsOpen(ps[n])
  {
    if n > 0 {
      ToolsOpenAt(ps, raw, aborted, n - 1);
      assert IsNext(ps, raw, n - 1, aborted);
      IndexedAt(ps, raw, |raw|, aborted, n - 1);
      PairKeepsTools(ps[n - 1], raw[n - 1], n - 1, aborted);
    }
  }

  /** An entry that shows the result: its text, its images, and whether it failed or was stopped. */
  predicate ShowsResult(c: Chat, m: HistoryMessage, aborted: AbortTest) {
    && c.role.ToolChat? && !c.isStreaming && c.toolOutput == m.content && c.timestamp == m.timestamp
    && (c.isError <==> m.isError && !aborted(m.content))
    && (c.interrupted <==> m.isError && aborted(m.content))
    && (m.images != [] ==> c.images == m.images)
    && |c.content| > |m.content| && c.content[|c.content| - |m.content| - 1..] == "\n" + m.content
    && c.endedAt == if c.startedAt.Some? && c.startedAt.value <= m.timestamp then Some(m.timestamp) else None
  }

  /** An entry that shows the call: its tool, its arguments and when it started. */
  predicate ShowsCall(c: Chat, m: HistoryMessage) {
    && c.role.ToolChat? && c.toolName == (if m.toolName == "" then "unknown" else m.toolName)
    && c.toolArgs == m.content && c.startedAt == Some(m.timestamp) && c.forceCommand == m.forceCommand
  }

  /** An entry that shows a message that is neither. */
  predicate ShowsMessage(c: Chat, m: HistoryMessage) {
    && c.content == m.content && c.timestamp == m.timestamp
    && (c.role.UserChat? <==> m.role.User?) && (c.role.ThinkingChat? <==> m.role.Thinking?)
    && (c.role.AssistantChat? <==> m.role.Assistant?)
    && c.entryId == (if m.entryId == Some("") then None else m.entryId)
    && !c.isError && !c.interrupted && c.images == []
  }

  lemma FilledShows(call: Chat, m: HistoryMessage, aborted: AbortTest)
    requires NotEnded(call)
    ensures ShowsResult(Filled(call, m, aborted), m, aborted)
  {
    var heading := Heading(NameOr(m.toolName), call.toolArgs);
    assert (heading + "\n" + m.content)[|heading|..] == "\n" + m.content;
  }

  lemma OrphanShows(m: HistoryMessage, aborted: AbortTest)
    ensures ShowsResult(OrphanChat(m, aborted), m, aborted)
  {
    var heading := "$ " + NameOr(m.toolName);
    assert (heading + "\n" + m.content)[|heading|..] == "\n" + m.content;
  }

  /** A result settles the entry it fills, or its own. */
  lemma ResultSettles(p: Pairing, m: HistoryMessage, at: nat, aborted: AbortTest) returns (i: nat, c: Chat)
    requires Indexed(p) && ToolsOpen(p) && PairedBefore(p, at) && IsResult(m)
    ensures SettledAt(Pair(p, m, at, aborted), i, c) && ShowsResult(c, m, aborted)
  {
    var k := Pick(p.open, m);
    if k < |p.open| {
      i := p.open[k].index;
      c := Filled(p.mapped[i], m, aborted);
      LeftOpen(p.open, k, |p.mapped|, p.pairs);
      FilledShows(p.mapped[i], m, aborted);
    } else {
      i, c := |p.mapped|, OrphanChat(m, aborted);
      OrphanShows(m, aborted);
    }
  }

  lemma SettledIsShown(p: Pairing, tail: bool, i: nat, c: Chat)
    requires SettledAt(p, i, c)
    ensures Finished(p, tail)[i] == c.(isStreaming := c.isStreaming || (tail && i == |p.mapped| - 1 && Streams(c)))
  {
    if |p.open| > 0 {
      assert IsOpen(p.open, p.open[|p.open| - 1].index);
    }
  }

  /** Every result is shown: its text, its images, whether it failed or was stopped, and when it ended. */
  lemma ResultIsShown(ps: seq<Pairing>, raw: seq<HistoryMessage>, tail: bool, aborted: AbortTest, r: nat)
    returns (i: nat)
    requires Pairs(ps, raw, aborted) && r < |raw| && IsResult(raw[r])
    ensures i < |Finished(ps[|raw|], tail)| && ShowsResult(Finished(ps[|raw|], tail)[i], raw[r], aborted)
  {
    var c;
    assert IsNext(ps, raw, r, aborted);
    IndexedAt(ps, raw, |raw|, aborted, r);
    ToolsOpenAt(ps, raw, aborted, r);
    i, c := ResultSettles(ps[r], raw[r], r, aborted);
    SettledStays(ps, raw, aborted, r + 1, |raw|, i, c);
    SettledIsShown(ps[|raw|], tail, i, c);
  }

  /** Every other message is shown at its own place, the last one as streaming in a live tail. */
  lemma MessageIsShown(ps: seq<Pairing>, raw: seq<HistoryMessage>, tail: bool, aborted: AbortTest, j: nat)
    requires Pairs(ps, raw, aborted) && j < |raw| && !IsCall(raw[j]) && !IsResult(raw[j])
    ensures var i, shown := EntryOf(ps, j), Finished(ps[|raw|], tail);
            && i < |shown| && ShowsMessage(shown[i], raw[j])
            && (shown[i].isStreaming <==> tail && i == |shown| - 1 && !raw[j].role.User?)
  {
    var i, c := EntryOf(ps, j), PlainChat(raw[j]);
    assert IsNext(ps, raw, j, aborted);
    IndexedAt(ps, raw, |raw|, aborted, j);
    assert SettledAt(ps[j + 1], i, c);
    SettledStays(ps, raw, aborted, j + 1, |raw|, i, c);
    SettledIsShown(ps[|raw|], tail, i, c);
  }

  /** And every call, at its own place: what it was issued with, and while it has no result nothing else. */
  lemma CallIsShown(ps: seq<Pairing>, raw: seq<HistoryMessage>, tail: bool, aborted: AbortTest, j: nat)
    requires Pairs(ps, raw, aborted) && j < |raw| && IsCall(raw[j])
    ensures var i, shown := EntryOf(ps, j), Finished(ps[|raw|], tail);
            && i < |shown| && ShowsCall(shown[i], raw[j])
            && (IsOpen(ps[|raw|].open, i) ==>
                  && shown[i].toolOutput == "" && shown[i].images == [] && !shown[i].isError && shown[i].endedAt.None?
                  && shown[i].content == "$ " + shown[i].toolName + (if raw[j].content == "" then "" else " ")
                                         + raw[j].content)
  {
    CallFate(ps, raw, tail, aborted, j);
    var name := NameOr(raw[j].toolName);
    assert "$ " + name + "" + "" == "$ " + name;
  }
}
