/**
 * Reading one window of a transcript's history in two streaming passes
 * (`scanTranscript`, `readTranscriptWindow` in server/src/session-transcript.ts),
 * proved against loading everything and slicing.
 */
module TranscriptWindow {
  import opened Options
  import opened Sequences
  import opened JsonlReader
  import opened History

  type Line = seq<Byte>

  datatype LineType = MessageLine | ModelChangeLine | OtherLine

  /** The probes of a line's head, and the parse of a whole line. */
  datatype Format = Format(
    blank: Line -> bool,
    lineType: Line -> Option<LineType>,
    isToolResult: Line -> bool,
    parse: Line -> Option<Entry>)

  /**
   * What the probes promise of one line: if its head is blank it does not parse, if
   * its head probes as a tool result it parses as one, and if its head probes as
   * neither a message nor a model change it is neither.
   */
  predicate FaithfulLine(f: Format, line: Line) {
    && (f.blank(Head(line)) ==> f.parse(line).None?)
    && (f.lineType(Head(line)) == Some(MessageLine) && f.isToolResult(Head(line)) ==>
          f.parse(line).Some? && f.parse(line).value.MessageEntry? && f.parse(line).value.message.ResultMessage?)
    && (f.lineType(Head(line)) == Some(OtherLine) && f.parse(line).Some? ==>
          !f.parse(line).value.MessageEntry? && !f.parse(line).value.ModelChange?)
  }

  /** The lines of a file keep what the probes promise; the empty head is blank. */
  predicate Faithful(f: Format, lines: seq<Line>) {
    f.blank([]) && forall line <- lines :: FaithfulLine(f, line)
  }

  datatype Scan = Scan(header: Option<string>, model: string, total: nat, messages: seq<HistoryMessage>,
                       sawHeader: bool)

  const START := Scan(None, "", 0, [], false)

  // -------------------------------------------------------------------------
  // The callbacks of one pass

  /** `total` is behind the window; no bound means that everything is. */
  predicate Behind(total: nat, from: Option<nat>) {
    from.None? || total < from.value
  }

  /** The window is full. */
  predicate Full(total: nat, until: Option<nat>) {
    until.Some? && total >= until.value
  }

  function Skip(f: Format, from: Option<nat>, s: Scan, head: Line): (Scan, bool) {
    if f.blank(head) then (s, true)
    else if !s.sawHeader then (s, false)
    else
      match f.lineType(head)
      case None => (s, false)
      case Some(ModelChangeLine) => (s, false)
      case Some(OtherLine) => (s, true)
      case Some(MessageLine) =>
        if f.isToolResult(head) && Behind(s.total, from) then (s.(total := s.total + 1), true) else (s, false)
  }

  /** One message: kept when it falls into the window, counted in any case. */
  function KeepOne(s: Scan, m: HistoryMessage, from: Option<nat>, until: Option<nat>): Scan {
    s.(messages := s.messages + InWindow(m, s.total, from, until), total := s.total + 1)
  }

  function InWindow(m: HistoryMessage, index: nat, from: Option<nat>, until: Option<nat>): seq<HistoryMessage> {
    if !Behind(index, from) && !Full(index, until) then [m] else []
  }

  function Keep(s: Scan, ms: seq<HistoryMessage>, from: Option<nat>, until: Option<nat>): Scan
    decreases |ms|
  {
    if |ms| == 0 then s else Keep(KeepOne(s, ms[0], from, until), ms[1..], from, until)
  }

  function OnLine(f: Format, from: Option<nat>, until: Option<nat>, s: Scan, line: Line): (Scan, bool) {
    var entry := f.parse(line);
    if !s.sawHeader then
      if entry.Some? && entry.value.SessionEntry? then (s.(sawHeader := true, header := Some(entry.value.header)), true)
      else (s.(sawHeader := true), false)
    else if entry.None? then (s, true)
    else if entry.value.ModelChange? then
      (if entry.value.model.Some? then s.(model := entry.value.model.value) else s, true)
    else if !entry.value.MessageEntry? then (s, true)
    else
      var kept := Keep(s, MapEntry(entry.value), from, until);
      (kept, !Full(kept.total, until))
  }

  function Reader(f: Format, from: Option<nat>, until: Option<nat>): Handler<Scan> {
    Handler(true, (s: Scan, head: Line) => Skip(f, from, s, head),
            (s: Scan, line: Line) => OnLine(f, from, until, s, line))
  }

  /** `scanTranscript`: the file arrives in the given chunks. */
  method ScanTranscript(f: Format, chunks: seq<Line>, from: Option<nat>, until: Option<nat>) returns (s: Scan)
    requires forall c <- chunks :: c != []
    ensures s == Naive(Reader(f, from, until), Flatten(chunks), START)
  {
    s := ForEachJsonlLine(chunks, Reader(f, from, until), START);
  }

  // -------------------------------------------------------------------------
  // The reference: load everything, then slice

  /** The file split on newlines; a final line needs no newline. */
  function Lines(content: Line): seq<Line>
    decreases |content|, 1
  {
    if |content| == 0 then [] else LinesFrom(content, FindNewline(content, 0))
  }

  function LinesFrom(content: Line, nl: nat): seq<Line>
    requires nl <= |content| && |content| > 0
    decreases |content|, 0
  {
    [content[..nl]] + if nl == |content| then [] else Lines(content[nl + 1..])
  }

  function HistoryOf(f: Format, line: Line): seq<HistoryMessage> {
    match f.parse(line)
    case None => []
    case Some(e) => MapEntry(e)
  }

  /** Every history message of the lines, in order. */
  function Flat(f: Format, lines: seq<Line>): seq<HistoryMessage> {
    if |lines| == 0 then [] else HistoryOf(f, lines[0]) + Flat(f, lines[1..])
  }

  /** A line that counts as nothing before the header. */
  predicate Passed(f: Format, line: Line) {
    line == [] || f.blank(Head(line))
  }

  /** The lines after the header, when the first line that counts is one. */
  function Body(f: Format, lines: seq<Line>): Option<seq<Line>> {
    if |lines| == 0 then None
    else if Passed(f, lines[0]) then Body(f, lines[1..])
    else if f.parse(lines[0]).Some? && f.parse(lines[0]).value.SessionEntry? then Some(lines[1..])
    else None
  }

  /** The whole history of a file. */
  function AllHistory(f: Format, content: Line): seq<HistoryMessage> {
    match Body(f, Lines(content))
    case None => []
    case Some(body) => Flat(f, body)
  }

  function Clamp(x: int, hi: nat): nat {
    if x < 0 then 0 else if x > hi then hi else x
  }

  datatype Windowed = Windowed(header: Option<string>, model: string, messages: seq<HistoryMessage>, totalCount: nat,
                               offset: nat)

  /** The header of the file and the last model it names. */
  function HeaderOf(f: Format, lines: seq<Line>): Option<string> {
    if |lines| == 0 then None
    else if Passed(f, lines[0]) then HeaderOf(f, lines[1..])
    else if f.parse(lines[0]).Some? && f.parse(lines[0]).value.SessionEntry? then Some(f.parse(lines[0]).value.header)
    else None
  }

  function ModelAfter(f: Format, line: Line, model: string): string {
    var entry := f.parse(line);
    if entry.Some? && entry.value.ModelChange? && entry.value.model.Some? then entry.value.model.value else model
  }

  function LastModel(f: Format, lines: seq<Line>, model: string): string {
    if |lines| == 0 then model else LastModel(f, lines[1..], ModelAfter(f, lines[0], model))
  }

  function ModelOf(f: Format, content: Line): string {
    match Body(f, Lines(content))
    case None => ""
    case Some(body) => LastModel(f, body, "")
  }

  /** The window `all.slice()` gives: the last `limit` messages, or the `limit` ones before `before`. */
  function Sliced(f: Format, content: Line, limit: int, before: Option<int>): Windowed {
    var all := AllHistory(f, content);
    var end := if before.None? then |all| else Clamp(before.value, |all|);
    var start := if limit <= 0 || |all| == 0 then end else Clamp(end - limit, end);
    Windowed(HeaderOf(f, Lines(content)), ModelOf(f, content), all[start..end], |all|, start)
  }

  // -------------------------------------------------------------------------
  // One pass over the lines

  function Feed<S>(h: Handler<S>, lines: seq<Line>, s: S): S
    decreases |lines|
  {
    if |lines| == 0 then s
    else
      var (next, more) := OneLine(h, lines[0], s);
      if more then Feed(h, lines[1..], next) else next
  }

  lemma {:induction false} NaiveIsFeed<S>(h: Handler<S>, content: Line, s: S)
    ensures Naive(h, content, s) == Feed(h, Lines(content), s)
    decreases |content|
  {
    if |content| > 0 {
      var nl := FindNewline(content, 0);
      var (next, more) := OneLine(h, content[..nl], s);
      assert Naive(h, content, s) == FromLine(h, content, nl, s);
      assert Lines(content) == LinesFrom(content, nl);
      if nl < |content| {
        NaiveIsFeed(h, content[nl + 1..], next);
        assert Lines(content)[1..] == Lines(content[nl + 1..]);
      }
    }
  }

  /** The messages whose index, counted from `base`, falls into the window. */
  function Window(ms: seq<HistoryMessage>, base: nat, from: Option<nat>, until: Option<nat>): seq<HistoryMessage> {
    if |ms| == 0 then []
    else InWindow(ms[0], base, from, until) + Window(ms[1..], base + 1, from, until)
  }

  lemma {:induction false} KeepIsWindow(s: Scan, ms: seq<HistoryMessage>, from: Option<nat>, until: Option<nat>)
    ensures Keep(s, ms, from, until) ==
            s.(total := s.total + |ms|, messages := s.messages + Window(ms, s.total, from, until))
    decreases |ms|
  {
    if |ms| > 0 {
      KeepIsWindow(KeepOne(s, ms[0], from, until), ms[1..], from, until);
      Regroup(s.messages, InWindow(ms[0], s.total, from, until), Window(ms[1..], s.total + 1, from, until));
    } else {
      Regroup(s.messages, [], []);
    }
  }

  lemma {:induction false} WindowConcat(a: seq<HistoryMessage>, b: seq<HistoryMessage>, base: nat, from: Option<nat>,
                                        until: Option<nat>)
    ensures Window(a + b, base, from, until) == Window(a, base, from, until) + Window(b, base + |a|, from, until)
    decreases |a|
  {
    if |a| == 0 {
      assert a + b == b;
    } else {
      assert (a + b)[1..] == a[1..] + b;
      WindowConcat(a[1..], b, base + 1, from, until);
    }
  }

  lemma {:induction false} WindowPastEnd(ms: seq<HistoryMessage>, base: nat, from: Option<nat>, until: Option<nat>)
    requires Full(base, until) || from.None?
    ensures Window(ms, base, from, until) == []
    decreases |ms|
  {
    if |ms| > 0 {
      WindowPastEnd(ms[1..], base + 1, from, until);
    }
  }

  /** One message in front of the slice of the rest. */
  lemma JoinSlice(ms: seq<HistoryMessage>, base: nat, from: nat, until: nat, tail: seq<HistoryMessage>)
    requires |ms| > 0 && base < until && from <= until <= base + |ms|
    requires tail == if until <= base + 1 then [] else ms[1..][Clamp(from - (base + 1), |ms| - 1)..until - (base + 1)]
    ensures InWindow(ms[0], base, Some(from), Some(until)) + tail == ms[Clamp(from - base, |ms|)..until - base]
  {
    if from <= base {
      assert ms[0..until - base] == [ms[0]] + ms[1..][..until - base - 1];
    }
  }

  lemma {:induction false} WindowIsSlice(ms: seq<HistoryMessage>, base: nat, from: nat, until: nat)
    requires from <= until <= base + |ms|
    ensures Window(ms, base, Some(from), Some(until)) == if until <= base then []
                                                         else ms[Clamp(from - base, |ms|)..until - base]
    decreases |ms|
  {
    if |ms| > 0 {
      if until <= base {
        WindowPastEnd(ms, base, Some(from), Some(until));
      } else {
        WindowIsSlice(ms[1..], base + 1, from, until);
        JoinSlice(ms, base, from, until, Window(ms[1..], base + 1, Some(from), Some(until)));
      }
    }
  }

  /** What one line adds to the pass, once the header is read. */
  ghost predicate Adds(f: Format, from: Option<nat>, until: Option<nat>, s: Scan, line: Line, s': Scan, more: bool) {
    var ms := HistoryOf(f, line);
    && s' == s.(total := s.total + |ms|, messages := s.messages + Window(ms, s.total, from, until),
                model := ModelAfter(f, line, s.model))
    && (!more ==> Full(s'.total, until))
  }

  lemma LineAdds(f: Format, from: Option<nat>, until: Option<nat>, s: Scan, line: Line)
    requires f.blank([]) && FaithfulLine(f, line) && s.sawHeader
    ensures var (s', more) := OneLine(Reader(f, from, until), line, s); Adds(f, from, until, s, line, s', more)
  {
    var h := Reader(f, from, until);
    var probed := Probe(h, Head(line), s);
    var ms := HistoryOf(f, line);
    assert probed == Skip(f, from, s, Head(line));
    assert line == [] ==> Head(line) == [];
    if probed.1 {
      SkippedAdds(f, from, until, s, line);
    } else {
      assert line != [];
      assert OneLine(h, line, s) == OnLine(f, from, until, s, line);
      KeepIsWindow(s, ms, from, until);
    }
    assert s.messages + [] == s.messages;
  }

  /** A line skipped from its head contributes nothing, or is a tool result behind the window. */
  lemma SkippedAdds(f: Format, from: Option<nat>, until: Option<nat>, s: Scan, line: Line)
    requires FaithfulLine(f, line) && s.sawHeader && Skip(f, from, s, Head(line)).1
    ensures Adds(f, from, until, s, line, Skip(f, from, s, Head(line)).0, true)
  {
    var ms := HistoryOf(f, line);
    if |ms| > 0 {
      assert Window(ms, s.total, from, until) == [] by {
        assert ms[1..] == [];
      }
    }
    assert s.messages + [] == s.messages;
  }

  lemma {:induction false} FeedBody(f: Format, from: Option<nat>, until: Option<nat>, lines: seq<Line>, s: Scan)
    requires Faithful(f, lines) && s.sawHeader
    ensures Feed(Reader(f, from, until), lines, s).messages == s.messages + Window(Flat(f, lines), s.total, from, until)
    decreases |lines|
  {
    if |lines| == 0 {
      Regroup(s.messages, [], []);
    } else {
      var (next, more) := OneLine(Reader(f, from, until), lines[0], s);
      var ms, rest := HistoryOf(f, lines[0]), Flat(f, lines[1..]);
      LineAdds(f, from, until, s, lines[0]);
      assert Window(Flat(f, lines), s.total, from, until) ==
             Window(ms, s.total, from, until) + Window(rest, next.total, from, until) by {
        WindowConcat(ms, rest, s.total, from, until);
      }
      Regroup(s.messages, Window(ms, s.total, from, until), Window(rest, next.total, from, until));
      if more {
        FeedBody(f, from, until, lines[1..], next);
      } else {
        WindowPastEnd(rest, next.total, from, until);
        Regroup(next.messages, [], []);
      }
    }
  }

  /** An unbounded pass counts every message and sees the last model. */
  lemma {:induction false} FeedCounts(f: Format, from: Option<nat>, lines: seq<Line>, s: Scan)
    requires Faithful(f, lines) && s.sawHeader
    ensures var r := Feed(Reader(f, from, None), lines, s);
            r.total == s.total + |Flat(f, lines)| && r.model == LastModel(f, lines, s.model) && r.header == s.header
    decreases |lines|
  {
    if |lines| > 0 {
      LineAdds(f, from, None, s, lines[0]);
      FeedCounts(f, from, lines[1..], OneLine(Reader(f, from, None), lines[0], s).0);
    }
  }

  // -------------------------------------------------------------------------
  // A whole pass

  /** Before the header, a line counts for nothing, is the header, or ends the pass. */
  lemma LineBeforeHeader(f: Format, from: Option<nat>, until: Option<nat>, line: Line)
    requires f.blank([])
    ensures var r := OneLine(Reader(f, from, until), line, START);
            if Passed(f, line) then r == (START, true)
            else if f.parse(line).Some? && f.parse(line).value.SessionEntry?
            then r == (START.(sawHeader := true, header := Some(f.parse(line).value.header)), true)
            else r == (START.(sawHeader := true), false)
  {
    var h := Reader(f, from, until);
    assert line == [] ==> Head(line) == [];
    assert Probe(h, Head(line), START) == Skip(f, from, START, Head(line));
    if !Passed(f, line) {
      assert OneLine(h, line, START) == OnLine(f, from, until, START, line);
    }
  }

  lemma {:induction false} FeedFile(f: Format, from: Option<nat>, until: Option<nat>, lines: seq<Line>)
    requires Faithful(f, lines)
    ensures var r := Feed(Reader(f, from, until), lines, START);
            && r.messages == (match Body(f, lines)
                              case None => []
                              case Some(body) => Window(Flat(f, body), 0, from, until))
            && (until.None? ==>
                  && r.header == HeaderOf(f, lines)
                  && r.total == (match Body(f, lines) case None => 0 case Some(body) => |Flat(f, body)|)
                  && r.model == (match Body(f, lines) case None => "" case Some(body) => LastModel(f, body, "")))
    decreases |lines|
  {
    if |lines| > 0 {
      LineBeforeHeader(f, from, until, lines[0]);
      if Passed(f, lines[0]) {
        FeedFile(f, from, until, lines[1..]);
      } else if f.parse(lines[0]).Some? && f.parse(lines[0]).value.SessionEntry? {
        var seen := START.(sawHeader := true, header := Some(f.parse(lines[0]).value.header));
        FeedBody(f, from, until, lines[1..], seen);
        FeedCounts(f, from, lines[1..], seen);
        assert [] + Window(Flat(f, lines[1..]), 0, from, until) == Window(Flat(f, lines[1..]), 0, from, until);
      }
    }
  }

  /** One pass gives the window of the whole history, and unbounded also its size, header and model. */
  lemma ScanIsWindow(f: Format, from: Option<nat>, until: Option<nat>, content: Line)
    requires Faithful(f, Lines(content))
    ensures var r := Naive(Reader(f, from, until), content, START);
            && r.messages == Window(AllHistory(f, content), 0, from, until)
            && (until.None? ==>
                  && r.header == HeaderOf(f, Lines(content))
                  && r.total == |AllHistory(f, content)|
                  && r.model == ModelOf(f, content))
  {
    NaiveIsFeed(Reader(f, from, until), content, START);
    FeedFile(f, from, until, Lines(content));
  }

  // -------------------------------------------------------------------------
  // An append between the passes

  /** The part of a file after its last newline: a line still being written. */
  function Torn(content: Line): Line {
    if |content| == 0 || content[|content| - 1] == NEWLINE then []
    else Torn(content[..|content| - 1]) + [content[|content| - 1]]
  }

  /** What was there stays, and the line that was still being written, if any, did not parse. */
  ghost predicate Grown(f: Format, before: Line, after: Line) {
    before == after || (before <= after && (Torn(before) == [] || f.parse(Torn(before)).None?))
  }

  lemma {:induction false} TornSplit(content: Line) returns (whole: Line)
    ensures content == whole + Torn(content) && NEWLINE !in Torn(content)
    ensures |whole| > 0 ==> whole[|whole| - 1] == NEWLINE
    decreases |content|
  {
    if |content| == 0 || content[|content| - 1] == NEWLINE {
      whole := content;
    } else {
      whole := TornSplit(content[..|content| - 1]);
    }
  }

  lemma LinesOfTorn(torn: Line)
    requires NEWLINE !in torn
    ensures Lines(torn) == if torn == [] then [] else [torn]
  {
    FindsFirst(torn, 0, |torn|);
    if torn != [] {
      assert Lines(torn) == LinesFrom(torn, |torn|) && torn[..|torn|] == torn;
    }
  }

  lemma LinesCut(s: Line, nl: nat)
    requires FindNewline(s, 0) == nl && nl < |s|
    ensures Lines(s) == [s[..nl]] + Lines(s[nl + 1..])
  {
    assert Lines(s) == LinesFrom(s, nl);
  }

  lemma CutInFirst(a: Line, b: Line, nl: nat)
    requires FindNewline(a, 0) == nl && nl < |a|
    ensures FindNewline(a + b, 0) == nl
    ensures (a + b)[..nl] == a[..nl] && (a + b)[nl + 1..] == a[nl + 1..] + b
  {
    FindsFirst(a + b, 0, nl);
  }

  lemma {:induction false} LinesConcat(a: Line, b: Line)
    requires |a| > 0 ==> a[|a| - 1] == NEWLINE
    ensures Lines(a + b) == Lines(a) + Lines(b)
    decreases |a|
  {
    if |a| == 0 {
      assert a + b == b;
    } else {
      var nl := FindNewline(a, 0);
      var rest := a[nl + 1..];
      CutInFirst(a, b, nl);
      LinesCut(a, nl);
      LinesCut(a + b, nl);
      LinesConcat(rest, b);
      Regroup([a[..nl]], Lines(rest), Lines(b));
    }
  }

  lemma {:induction false} BodyConcat(f: Format, a: seq<Line>, b: seq<Line>)
    requires Body(f, a).Some?
    ensures Body(f, a + b) == Some(Body(f, a).value + b)
    decreases |a|
  {
    assert (a + b)[1..] == a[1..] + b;
    if Passed(f, a[0]) {
      BodyConcat(f, a[1..], b);
    }
  }

  lemma {:induction false} FlatConcat(f: Format, a: seq<Line>, b: seq<Line>)
    ensures Flat(f, a + b) == Flat(f, a) + Flat(f, b)
    decreases |a|
  {
    if |a| == 0 {
      assert a + b == b;
    } else {
      assert (a + b)[1..] == a[1..] + b;
      FlatConcat(f, a[1..], b);
    }
  }

  /** A last line that does not parse adds nothing to the history. */
  lemma {:induction false} UnparsedAddsNothing(f: Format, lines: seq<Line>, torn: Line)
    requires f.parse(torn).None? && Body(f, lines + [torn]).Some?
    ensures Body(f, lines).Some? && Flat(f, Body(f, lines + [torn]).value) == Flat(f, Body(f, lines).value)
    decreases |lines|
  {
    if |lines| == 0 {
      assert (lines + [torn])[1..] == [];
    } else {
      assert (lines + [torn])[1..] == lines[1..] + [torn];
      if Passed(f, lines[0]) {
        UnparsedAddsNothing(f, lines[1..], torn);
      } else {
        FlatConcat(f, lines[1..], [torn]);
        assert [torn][1..] == [];
      }
    }
  }

  /** The whole lines of a file hold all its history, when the line still being written does not parse. */
  lemma TornAddsNothing(f: Format, whole: Line, torn: Line)
    requires NEWLINE !in torn && (torn == [] || f.parse(torn).None?)
    requires |whole| > 0 ==> whole[|whole| - 1] == NEWLINE
    requires |AllHistory(f, whole + torn)| > 0
    ensures AllHistory(f, whole) == AllHistory(f, whole + torn)
  {
    LinesConcat(whole, torn);
    LinesOfTorn(torn);
    if torn == [] {
      assert Lines(whole) + [] == Lines(whole);
    } else {
      UnparsedAddsNothing(f, Lines(whole), torn);
    }
  }

  /** Appending whole lines leaves the messages there were where they were. */
  lemma WholeLinesKeepHistory(f: Format, whole: Line, extra: Line)
    requires |whole| > 0 ==> whole[|whole| - 1] == NEWLINE
    requires |AllHistory(f, whole)| > 0
    ensures AllHistory(f, whole) <= AllHistory(f, whole + extra)
  {
    LinesConcat(whole, extra);
    BodyConcat(f, Lines(whole), Lines(extra));
    FlatConcat(f, Body(f, Lines(whole)).value, Lines(extra));
  }

  /** So does finishing a line that did not parse yet, and appending to that. */
  lemma AppendKeepsHistory(f: Format, before: Line, after: Line)
    requires Grown(f, before, after) && |AllHistory(f, before)| > 0
    ensures AllHistory(f, before) <= AllHistory(f, after)
  {
    if before != after {
      var whole := TornSplit(before);
      var extra := Torn(before) + after[|before|..];
      TornAddsNothing(f, whole, Torn(before));
      Regroup(whole, Torn(before), after[|before|..]);
      assert after == whole + extra;
      WholeLinesKeepHistory(f, whole, extra);
    }
  }

  /** Without an end the pass reads on to the last line once it has the header. */
  lemma {:induction false} FeedLast(f: Format, lines: seq<Line>, last: Line, s: Scan)
    requires s.sawHeader
    ensures var h := Reader(f, None, None);
            Feed(h, lines, s).sawHeader && Feed(h, lines + [last], s) == OneLine(h, last, Feed(h, lines, s)).0
    decreases |lines|
  {
    var h := Reader(f, None, None);
    if |lines| == 0 {
      assert lines + [last] == [last] && [last][1..] == [];
    } else {
      var (next, more) := OneLine(h, lines[0], s);
      OneLineReadsOn(f, lines[0], s);
      assert (lines + [last])[1..] == lines[1..] + [last];
      FeedLast(f, lines[1..], last, next);
    }
  }

  lemma OneLineReadsOn(f: Format, line: Line, s: Scan)
    requires s.sawHeader
    ensures var (next, more) := OneLine(Reader(f, None, None), line, s); more && next.sawHeader
  {
    var entry := f.parse(line);
    if entry.Some? && entry.value.MessageEntry? {
      KeepIsWindow(s, MapEntry(entry.value), None, None);
    }
  }

  lemma {:induction false} FeedFileLast(f: Format, lines: seq<Line>, last: Line)
    requires f.blank([]) && Body(f, lines).Some?
    ensures var h := Reader(f, None, None);
            Feed(h, lines, START).sawHeader
                && Feed(h, lines + [last], START) == OneLine(h, last, Feed(h, lines, START)).0
    decreases |lines|
  {
    assert (lines + [last])[1..] == lines[1..] + [last];
    LineBeforeHeader(f, None, None, lines[0]);
    if Passed(f, lines[0]) {
      FeedFileLast(f, lines[1..], last);
    } else {
      FeedLast(f, lines[1..], last, START.(sawHeader := true, header := Some(f.parse(lines[0]).value.header)));
    }
  }

  /** The head of a line is counted as a tool result without reading the line. */
  predicate CountsFromHead(f: Format, line: Line) {
    !f.blank(Head(line)) && f.lineType(Head(line)) == Some(MessageLine) && f.isToolResult(Head(line))
  }

  /**
   * A line still being written, which does not parse yet: the counting pass has the
   * size of the history exactly when the line's head is not that of a tool result.
   */
  lemma TornLineCount(f: Format, whole: Line, torn: Line)
    requires Faithful(f, Lines(whole)) && Body(f, Lines(whole)).Some?
    requires |whole| > 0 ==> whole[|whole| - 1] == NEWLINE
    requires torn != [] && NEWLINE !in torn && f.parse(torn).None?
    ensures Naive(Reader(f, None, None), whole + torn, START).total == |AllHistory(f, whole + torn)| <==>
            !CountsFromHead(f, torn)
  {
    var h := Reader(f, None, None);
    NaiveIsFeed(h, whole + torn, START);
    LinesConcat(whole, torn);
    LinesOfTorn(torn);
    FeedFile(f, None, None, Lines(whole));
    FeedFileLast(f, Lines(whole), torn);
    UnparsedCount(f, torn, Feed(h, Lines(whole), START));
    BodyConcat(f, Lines(whole), [torn]);
    UnparsedAddsNothing(f, Lines(whole), torn);
  }

  lemma UnparsedCount(f: Format, line: Line, s: Scan)
    requires f.parse(line).None? && s.sawHeader
    ensures OneLine(Reader(f, None, None), line, s).0.total == s.total + if CountsFromHead(f, line) then 1 else 0
  {
    assert Probe(Reader(f, None, None), Head(line), s) == Skip(f, None, s, Head(line));
  }

  lemma WindowOfPrefix(some: seq<HistoryMessage>, all: seq<HistoryMessage>, start: nat, end: nat)
    requires some <= all && start <= end <= |some|
    ensures Window(all, 0, Some(start), Some(end)) == some[start..end]
  {
    WindowIsSlice(all, 0, start, end);
  }

  /** Once the size is known, the second pass reads exactly the slice. */
  lemma SecondPass(f: Format, before: Line, after: Line, start: nat, end: nat)
    requires Faithful(f, Lines(after)) && Grown(f, before, after) && |AllHistory(f, before)| > 0
    requires start <= end <= |AllHistory(f, before)|
    ensures Naive(Reader(f, Some(start), Some(end)), after, START).messages == AllHistory(f, before)[start..end]
  {
    ScanIsWindow(f, Some(start), Some(end), after);
    AppendKeepsHistory(f, before, after);
    WindowOfPrefix(AllHistory(f, before), AllHistory(f, after), start, end);
  }

  /**
   * `readTranscriptWindow`. The two passes may read the file in different chunks; between
   * them the line still being written may be finished and more be appended.
   */
  method ReadTranscriptWindow(f: Format, limit: int, before: Option<int>, first: seq<Line>, second: seq<Line>)
    returns (w: Windowed)
    requires Faithful(f, Lines(Flatten(first))) && Faithful(f, Lines(Flatten(second)))
    requires (forall c <- first :: c != []) && (forall c <- second :: c != [])
    requires Grown(f, Flatten(first), Flatten(second))
    ensures w == Sliced(f, Flatten(first), limit, before)
  {
    var counted := ScanTranscript(f, first, None, None);
    ScanIsWindow(f, None, None, Flatten(first));
    var totalCount := counted.total;
    if limit <= 0 || totalCount == 0 {
      var end := if before.None? then totalCount else before.value;
      return Windowed(counted.header, counted.model, [], totalCount, Clamp(end, totalCount));
    }
    var end := if before.None? then totalCount else Clamp(before.value, totalCount);
    var start := if end - limit > 0 then end - limit else 0;
    var read := ScanTranscript(f, second, Some(start), Some(end));
    SecondPass(f, Flatten(first), Flatten(second), start, end);
    w := Windowed(counted.header, counted.model, read.messages, totalCount, start);
  }
}
