/**
 * The chunked line reader of a transcript (`forEachJsonlLine` in
 * server/src/session-transcript.ts), proved against splitting the whole file.
 *
 * A handler is a pair of callbacks over a state of its own; taking the list of calls
 * made so far as that state gives the sequence of calls.
 */
module JsonlReader {
  import opened Options
  import opened Sequences

  type Byte = bv8

  const NEWLINE: Byte := 0x0a
  const PROBE_HEAD_BYTES := 512

  /** `skip` claims a line from its head; `line` answers whether to go on. */
  datatype Handler<!S> = Handler(
    hasSkip: bool,
    skip: (S, seq<Byte>) -> (S, bool),
    line: (S, seq<Byte>) -> (S, bool))

  /** The first newline from `from` on, or the length. */
  function FindNewline(s: seq<Byte>, from: nat): (i: nat)
    requires from <= |s|
    ensures from <= i <= |s|
    ensures i < |s| ==> s[i] == NEWLINE
    ensures forall k :: from <= k < i ==> s[k] != NEWLINE
    decreases |s| - from
  {
    if from == |s| || s[from] == NEWLINE then from else FindNewline(s, from + 1)
  }

  /** No newline in it. */
  ghost predicate Unbroken(s: seq<Byte>) {
    forall k :: 0 <= k < |s| ==> s[k] != NEWLINE
  }

  function Head(line: seq<Byte>): seq<Byte> {
    if |line| < PROBE_HEAD_BYTES then line else line[..PROBE_HEAD_BYTES]
  }

  /** Classifying a line from its head, when the handler has a `skip`. */
  function Probe<S>(h: Handler<S>, head: seq<Byte>, s: S): (S, bool) {
    if h.hasSkip then h.skip(s, head) else (s, false)
  }

  /** Handing over a classified line, unless it was claimed or is empty. */
  function Deliver<S>(h: Handler<S>, line: seq<Byte>, probed: (S, bool)): (S, bool) {
    if probed.1 || line == [] then (probed.0, true) else h.line(probed.0, line)
  }

  /** One whole line: the probe of its head, then the line itself. */
  function OneLine<S>(h: Handler<S>, line: seq<Byte>, s: S): (S, bool) {
    Deliver(h, line, Probe(h, Head(line), s))
  }

  /** The whole file split on newlines; a final line needs no newline, and a stop ends it. */
  function Naive<S>(h: Handler<S>, content: seq<Byte>, s: S): S
    decreases |content|, 1
  {
    if |content| == 0 then s else FromLine(h, content, FindNewline(content, 0), s)
  }

  /** The line up to `nl`, then the rest of the file. */
  function FromLine<S>(h: Handler<S>, content: seq<Byte>, nl: nat, s: S): S
    requires nl <= |content| && |content| > 0
    decreases |content|, 0
  {
    var (next, more) := OneLine(h, content[..nl], s);
    if nl == |content| || !more then next else Naive(h, content[nl + 1..], next)
  }

  lemma {:induction false} FindsFirst(s: seq<Byte>, from: nat, i: nat)
    requires from <= i <= |s| && (forall k :: from <= k < i ==> s[k] != NEWLINE) && (i < |s| ==> s[i] == NEWLINE)
    ensures FindNewline(s, from) == i
    decreases i - from
  {
    if from < i {
      FindsFirst(s, from + 1, i);
    }
  }

  /** The next line of `a + rest`, when `a` holds no newline and `rest` starts with one. */
  lemma NaiveAtNewline<S>(h: Handler<S>, a: seq<Byte>, rest: seq<Byte>, s: S)
    requires Unbroken(a) && rest != [] && rest[0] == NEWLINE
    ensures var (next, more) := OneLine(h, a, s);
            Naive(h, a + rest, s) == if more then Naive(h, rest[1..], next) else next
  {
    var content := a + rest;
    FindsFirst(content, 0, |a|);
    assert content[..|a|] == a && content[|a| + 1..] == rest[1..];
  }

  lemma NaiveAtEnd<S>(h: Handler<S>, a: seq<Byte>, s: S)
    requires Unbroken(a) && a != []
    ensures Naive(h, a, s) == OneLine(h, a, s).0
  {
    FindsFirst(a, 0, |a|);
    assert a[..|a|] == a;
  }

  /** The line being assembled across chunks. */
  class LineAssembler<S> {
    const handler: Handler<S>
    var pieces: seq<seq<Byte>>
    var piecesLen: nat
    var head: seq<Byte>           // its first bytes, for the probe
    var skipping: Option<bool>
    var stopped: bool
    var state: S
    ghost var partial: seq<Byte>  // the bytes of the line read so far
    ghost var before: S           // the handler's state before that line

    ghost predicate Valid()
      reads this
    {
      && head == Head(partial)
      && Unbroken(partial)
      && var probed := Probe(handler, Head(partial), before);
      && (if handler.hasSkip && |head| < PROBE_HEAD_BYTES then skipping == None && state == before
          else skipping == Some(probed.1) && state == probed.0)
      && Flatten(pieces) == (if skipping == Some(true) then [] else partial)
      && piecesLen == |Flatten(pieces)|
      && (pieces == [] <==> piecesLen == 0)
    }

    constructor (h: Handler<S>, s: S)
      ensures Valid() && handler == h && partial == [] && before == s && !stopped
    {
      handler := h;
      pieces, piecesLen, head, stopped := [], 0, [], false;
      skipping := if h.hasSkip then None else Some(false);
      state, partial, before := s, [], s;
    }

    method Classify()
      requires head == Head(partial)
      requires match skipping
               case None => handler.hasSkip && state == before
               case Some(skips) =>
                 (state, skips) == Probe(handler, Head(partial), before) && (skips ==> pieces == [] && piecesLen == 0)
      modifies this`skipping, this`state, this`pieces, this`piecesLen
      ensures var probed := Probe(handler, Head(partial), before);
              && skipping == Some(probed.1) && state == probed.0
              && pieces == (if probed.1 then [] else old(pieces))
                 && piecesLen == (if probed.1 then 0 else old(piecesLen))
    {
      if skipping.Some? || !handler.hasSkip {
        return;
      }
      var probed := handler.skip(state, head);
      state, skipping := probed.0, Some(probed.1);
      if probed.1 {
        pieces, piecesLen := [], 0;
      }
    }

    method ResetLine()
      modifies this`pieces, this`piecesLen, this`head, this`skipping, this`partial, this`before
      ensures Valid() && partial == [] && before == state
    {
      pieces, piecesLen, head := [], 0, [];
      skipping := if handler.hasSkip then None else Some(false);
      partial, before := [], state;
    }

    /** Take bytes into the line being assembled. */
    method AddSegment(segment: seq<Byte>)
      requires Valid() && Unbroken(segment)
      modifies this`pieces, this`piecesLen, this`head, this`skipping, this`state, this`partial
      ensures Valid() && partial == old(partial) + segment
    {
      ghost var was := partial;
      partial := was + segment;
      if skipping == Some(true) || |segment| == 0 {
        HeadStable(was, segment);
        return;
      }
      if |head| < PROBE_HEAD_BYTES {
        var n := if PROBE_HEAD_BYTES - |head| < |segment| then PROBE_HEAD_BYTES - |head| else |segment|;
        head := head + segment[..n];
        HeadGrows(was, segment);
        if |head| >= PROBE_HEAD_BYTES {
          Classify();
          if skipping == Some(true) {
            return;
          }
        }
      }
      FlattenAppend(pieces, segment);
      pieces := pieces + [segment];
      piecesLen := piecesLen + |segment|;
    }

    /** The end of a line that came in segments: the handler gets it, if it did not claim it by its head. */
    method FinishLine()
      requires Valid() && !stopped
      modifies this
      ensures Valid() && partial == [] && before == state
      ensures OneLine(handler, old(partial), old(before)) == (state, !stopped)
    {
      Classify();
      if skipping == Some(false) && piecesLen > 0 {
        var handed := handler.line(state, Concat(pieces));
        state := handed.0;
        if !handed.1 {
          stopped := true;
        }
      }
      ResetLine();
    }
  }

  function Concat(pieces: seq<seq<Byte>>): (line: seq<Byte>)
    ensures line == Flatten(pieces)
  {
    if |pieces| == 1 then pieces[0] else Flatten(pieces)
  }

  lemma HeadStable(a: seq<Byte>, b: seq<Byte>)
    ensures |a| >= PROBE_HEAD_BYTES || b == [] ==> Head(a + b) == Head(a)
  {
    assert b == [] ==> a + b == a;
  }

  lemma HeadGrows(a: seq<Byte>, b: seq<Byte>)
    requires |a| < PROBE_HEAD_BYTES
    ensures Head(a + b) == a + b[..if PROBE_HEAD_BYTES - |a| < |b| then PROBE_HEAD_BYTES - |a| else |b|]
  {
  }

  /**
   * Reads the chunks one after another. Whatever the chunks and whatever the handler,
   * its callbacks are called exactly as for the file split as a whole.
   */
  method ForEachJsonlLine<S>(chunks: seq<seq<Byte>>, h: Handler<S>, initial: S) returns (s: S)
    requires forall c <- chunks :: c != []
    ensures s == Naive(h, Flatten(chunks), initial)
  {
    var a := new LineAssembler(h, initial);
    assert chunks[0..] == chunks && a.partial + Flatten(chunks) == Flatten(chunks);
    for i := 0 to |chunks|
      invariant a.Valid() && a.handler == h && !a.stopped && fresh(a)
      invariant Naive(h, Flatten(chunks), initial) == Naive(h, a.partial + Flatten(chunks[i..]), a.before)
    {
      ghost var rest := Flatten(chunks[i + 1..]);
      assert Flatten(chunks[i..]) == chunks[i] + rest;
      ReadChunk(a, chunks[i], rest);
      if a.stopped {
        return a.state;
      }
    }
    if a.piecesLen > 0 || |a.head| > 0 {
      NaiveAtEnd(h, a.partial, a.before);
      assert a.partial + [] == a.partial;
      a.FinishLine();
    }
    s := a.state;
  }

  /** A line that lies whole in the chunk is classified and handed over in place. */
  method FastLine<S>(a: LineAssembler<S>, view: seq<Byte>, start: nat, nl: nat)
    requires a.Valid() && !a.stopped && |a.pieces| == 0 && |a.head| == 0
    requires start <= nl < |view| && Unbroken(view[start..nl])
    modifies a
    ensures a.Valid() && a.partial == [] && a.before == a.state
    ensures OneLine(a.handler, old(a.partial) + view[start..nl], old(a.before)) == (a.state, !a.stopped)
  {
    assert a.partial == [] && a.partial + view[start..nl] == view[start..nl];
    if a.handler.hasSkip {
      var headEnd := if nl < start + PROBE_HEAD_BYTES then nl else start + PROBE_HEAD_BYTES;
      assert view[start..headEnd] == Head(view[start..nl]);
      var probed := a.handler.skip(a.state, view[start..headEnd]);
      a.state, a.skipping := probed.0, Some(probed.1);
    }
    if a.skipping == Some(false) && nl > start {
      var handed := a.handler.line(a.state, view[start..nl]);
      a.state := handed.0;
      if !handed.1 {
        a.stopped := true;
      }
    }
    a.ResetLine();
  }

  /** A line that ends in this chunk, at `nl`. */
  method EndLine<S>(a: LineAssembler<S>, view: seq<Byte>, start: nat, nl: nat)
    requires a.Valid() && !a.stopped
    requires start <= nl < |view| && Unbroken(view[start..nl])
    modifies a
    ensures a.Valid() && a.partial == [] && a.before == a.state
    ensures OneLine(a.handler, old(a.partial) + view[start..nl], old(a.before)) == (a.state, !a.stopped)
  {
    if |a.pieces| == 0 && |a.head| == 0 {
      FastLine(a, view, start, nl);
    } else {
      a.AddSegment(view[start..nl]);
      a.FinishLine();
    }
  }

  lemma ChunkStep<S>(h: Handler<S>, partial: seq<Byte>, view: seq<Byte>, start: nat, nl: nat, rest: seq<Byte>, s: S)
    requires Unbroken(partial) && start <= nl < |view| && view[nl] == NEWLINE && Unbroken(view[start..nl])
    ensures var (next, more) := OneLine(h, partial + view[start..nl], s);
            Naive(h, partial + (view[start..] + rest), s) == if more then Naive(h, [] + (view[nl + 1..] + rest), next)
                else next
  {
    var line, after := partial + view[start..nl], view[nl..] + rest;
    CutAtNewline(partial, view, start, nl, rest);
    NaiveAtNewline(h, line, after, s);
  }

  lemma CutAtNewline(partial: seq<Byte>, view: seq<Byte>, start: nat, nl: nat, rest: seq<Byte>)
    requires start <= nl < |view| && view[nl] == NEWLINE
    ensures var after := view[nl..] + rest;
            && partial + (view[start..] + rest) == (partial + view[start..nl]) + after
            && after[0] == NEWLINE && after[1..] == [] + (view[nl + 1..] + rest)
  {
  }

  /** `nl` is the first newline of the chunk from `start` on, or its end. */
  ghost predicate NextNewline(view: seq<Byte>, start: nat, nl: nat) {
    && start <= nl <= |view|
    && (nl < |view| ==> view[nl] == NEWLINE)
    && forall k :: start <= k < nl ==> view[k] != NEWLINE
  }

  method IndexOfNewline(view: seq<Byte>, start: nat) returns (nl: nat)
    requires start <= |view|
    ensures NextNewline(view, start, nl)
  {
    nl := FindNewline(view, start);
  }

  /** The handler's final state, when `start` is where the chunk is read from next. */
  ghost function Outcome<S>(a: LineAssembler<S>, view: seq<Byte>, start: nat, rest: seq<Byte>): S
    requires start <= |view|
    reads a
  {
    Naive(a.handler, a.partial + (view[start..] + rest), a.before)
  }

  /** The next line, if it ends in this chunk: `next` is where to read on, `ended` whether there was one. */
  method EndNext<S>(a: LineAssembler<S>, view: seq<Byte>, start: nat, ghost rest: seq<Byte>)
    returns (next: nat, ended: bool)
    requires a.Valid() && !a.stopped && start <= |view|
    modifies a
    ensures start <= next <= |view| && (ended ==> start < next)
    ensures a.Valid()
    ensures !ended ==> !a.stopped && next == start && NextNewline(view, start, |view|)
    ensures if a.stopped then a.state == old(Outcome(a, view, start, rest))
            else Outcome(a, view, next, rest) == old(Outcome(a, view, start, rest))
  {
    var nl := IndexOfNewline(view, start);
    if nl == |view| {
      return start, false;
    }
    ChunkStep(a.handler, a.partial, view, start, nl, rest, a.before);
    EndLine(a, view, start, nl);
    return nl + 1, true;
  }

  /** The lines that end in this chunk; `rest` is what the reads after it will bring. */
  method EndLines<S>(a: LineAssembler<S>, view: seq<Byte>, ghost rest: seq<Byte>) returns (start: nat)
    requires a.Valid() && !a.stopped
    modifies a
    ensures start <= |view|
    ensures !a.stopped ==> a.Valid() && NextNewline(view, start, |view|)
    ensures if a.stopped then a.state == old(Outcome(a, view, 0, rest))
            else Outcome(a, view, start, rest) == old(Outcome(a, view, 0, rest))
  {
    ghost var result := Outcome(a, view, 0, rest);
    start := 0;
    var ended := true;
    while ended && !a.stopped
      invariant start <= |view| && a.Valid()
      invariant if a.stopped then a.state == result else Outcome(a, view, start, rest) == result
      invariant !ended ==> a.stopped || NextNewline(view, start, |view|)
      decreases |view| - start, ended
    {
      start, ended := EndNext(a, view, start, rest);
    }
  }

  /** One chunk: its complete lines, then what is left of it. */
  method ReadChunk<S>(a: LineAssembler<S>, view: seq<Byte>, ghost rest: seq<Byte>)
    requires a.Valid() && !a.stopped
    modifies a
    ensures !a.stopped ==>
              && a.Valid()
              && Naive(a.handler, a.partial + rest, a.before) ==
                 old(Naive(a.handler, a.partial + (view + rest), a.before))
    ensures a.stopped ==> a.state == old(Naive(a.handler, a.partial + (view + rest), a.before))
  {
    assert view[0..] == view;
    var start := EndLines(a, view, rest);
    if a.stopped {
      return;
    }
    assert a.partial + (view[start..] + rest) == a.partial + view[start..] + rest;
    if start < |view| {
      a.AddSegment(view[start..]);
    } else {
      assert a.partial + view[start..] == a.partial;
    }
  }
}
