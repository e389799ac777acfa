/**
 * Progress frames from `git clone --progress` (`GitProgressParser` in
 * server/src/restore-jobs.ts). The timestamps of the frames are left out.
 */
module GitProgress {
  import opened Options
  import opened Sequences

  datatype Phase = Starting | Enumerating | Counting | Compressing | Receiving | Resolving | CheckingOut | Filtering

  datatype Frame = Frame(phase: Phase, scope: string, percent: Option<nat>, indeterminate: bool, text: string)

  const REPOSITORY_SCOPE := "repository"

  /** The scope of a path git is cloning into, relative to the clone's target. */
  type ScopeFor = string -> string

  // -------------------------------------------------------------------------
  // One line

  predicate IsSpace(c: char) {
    c in " \t\n\r\U{B}\U{C}\U{A0}\U{1680}\U{2028}\U{2029}\U{202F}\U{205F}\U{3000}\U{FEFF}"
        || '\U{2000}' <= c <= '\U{200A}'
  }

  function TrimStart(s: string): string {
    if |s| > 0 && IsSpace(s[0]) then TrimStart(s[1..]) else s
  }

  function TrimEnd(s: string): string {
    if |s| > 0 && IsSpace(s[|s| - 1]) then TrimEnd(s[..|s| - 1]) else s
  }

  /** The line without `remote:` in front and without white space at its ends. */
  function Stripped(raw: string): string {
    TrimEnd(TrimStart(if "remote:" <= raw then raw[|"remote:"|..] else raw))
  }

  predicate IsDigit(c: char) {
    '0' <= c <= '9'
  }

  predicate AllDigits(s: string) {
    forall k :: 0 <= k < |s| ==> IsDigit(s[k])
  }

  function Value(digits: string): nat
    requires AllDigits(digits)
  {
    if |digits| == 0 then 0 else Value(digits[..|digits| - 1]) * 10 + (digits[|digits| - 1] as int - '0' as int)
  }

  /** Where the at most three digits before `line[k]` start. */
  function DigitsStart(line: string, k: nat): (i: nat)
    requires 0 < k <= |line| && IsDigit(line[k - 1])
    ensures i < k <= i + 3 && AllDigits(line[i..k])
  {
    if k < 2 || !IsDigit(line[k - 2]) then k - 1
    else if k < 3 || !IsDigit(line[k - 3]) then k - 2
    else k - 3
  }

  /** The number before the first percent sign that follows a digit, at most 100. */
  function PercentFrom(line: string, k: nat): (p: Option<nat>)
    ensures p.Some? ==> p.value <= 100
    decreases |line| - k
  {
    if k >= |line| then None
    else if line[k] == '%' && 0 < k && IsDigit(line[k - 1]) then
      var v := Value(line[DigitsStart(line, k)..k]);
      Some(if v > 100 then 100 else v)
    else PercentFrom(line, k + 1)
  }

  predicate InLine(s: string) {
    forall k :: 0 <= k < |s| ==> s[k] !in "\n\r\U{2028}\U{2029}"
  }

  const CLONING := "Cloning into '"
  const CLONING_END := "'..."

  /** The path git says it is cloning into. */
  function CloningInto(line: string): Option<string> {
    if |line| > |CLONING| + |CLONING_END| && CLONING <= line && line[|line| - |CLONING_END|..] == CLONING_END
       && InLine(line[|CLONING|..|line| - |CLONING_END|])
    then Some(line[|CLONING|..|line| - |CLONING_END|]) else None
  }

  function PhaseOf(line: string): Option<Phase> {
    if "Enumerating objects:" <= line then Some(Enumerating)
    else if "Counting objects:" <= line then Some(Counting)
    else if "Compressing objects:" <= line then Some(Compressing)
    else if "Receiving objects:" <= line then Some(Receiving)
    else if "Resolving deltas:" <= line then Some(Resolving)
    else if "Updating files:" <= line || "Checking out files:" <= line then Some(CheckingOut)
    else if "Filtering content:" <= line then Some(Filtering)
    else None
  }

  /** The scope after a complete line, and the frames it yields: one or none. */
  function LineRead(scope: string, raw: string, scopeFor: ScopeFor): (string, seq<Frame>) {
    var line := Stripped(raw);
    if line == "" then (scope, [])
    else if CloningInto(line).Some? then
      var inner := scopeFor(CloningInto(line).value);
      (inner, [Frame(Starting, inner, None, true, line)])
    else if PhaseOf(line).Some? then
      var percent := PercentFrom(line, 0);
      (scope, [Frame(PhaseOf(line).value, scope, percent, percent.None?, line)])
    else (scope, [])
  }

  /** How a complete line is read: the scope after it, and the frames it yields. */
  type LineReader = (string, string) -> (string, seq<Frame>)

  function ReaderOf(scopeFor: ScopeFor): LineReader {
    (scope: string, raw: string) => LineRead(scope, raw, scopeFor)
  }

  /** A blank line changes nothing. */
  ghost predicate SkipsBlank(read: LineReader) {
    forall scope :: read(scope, "") == (scope, [])
  }

  lemma ReaderSkipsBlank(scopeFor: ScopeFor)
    ensures SkipsBlank(ReaderOf(scopeFor))
  {
  }

  // -------------------------------------------------------------------------
  // Lines

  predicate IsBreak(c: char) {
    c == '\r' || c == '\n'
  }

  /** Where the first carriage return or line feed is, or the length. */
  function BreakAt(s: string): (i: nat)
    ensures i <= |s| && (i < |s| ==> IsBreak(s[i]))
    ensures forall k :: 0 <= k < i ==> !IsBreak(s[k])
  {
    if |s| == 0 || IsBreak(s[0]) then 0 else 1 + BreakAt(s[1..])
  }

  /** Where the separator at `i` ends: a carriage return and line feed are one. */
  function BreakEnd(s: string, i: nat): (e: nat)
    requires i < |s|
    ensures i < e <= |s|
  {
    if s[i] == '\r' && i + 1 < |s| && s[i + 1] == '\n' then i + 2 else i + 1
  }

  /** `split(/\r\n|[\r\n]/)`: the complete lines, and what follows the last separator. */
  function Split(s: string): (seq<string>, string)
    decreases |s|
  {
    var i := BreakAt(s);
    if i == |s| then ([], s)
    else
      var (lines, rest) := Split(s[BreakEnd(s, i)..]);
      ([s[..i]] + lines, rest)
  }

  /** What the lines, in order, make of the scope, and the frames they yield. */
  function LinesRead(scope: string, lines: seq<string>, read: LineReader): (string, seq<Frame>)
    decreases |lines|
  {
    if |lines| == 0 then (scope, [])
    else
      var (next, frames) := read(scope, lines[0]);
      var (last, more) := LinesRead(next, lines[1..], read);
      (last, frames + more)
  }

  datatype Parsing = Parsing(buffer: string, scope: string)

  function Pushed(p: Parsing, chunk: string, read: LineReader): (Parsing, seq<Frame>) {
    var (lines, rest) := Split(p.buffer + chunk);
    var (scope, frames) := LinesRead(p.scope, lines, read);
    (Parsing(rest, scope), frames)
  }

  class GitProgressParser {
    var buffer: string
    var scope: string
    const scopeFor: ScopeFor

    ghost function State(): Parsing
      reads this
    {
      Parsing(buffer, scope)
    }

    constructor (scopeFor: ScopeFor)
      ensures State() == Parsing("", REPOSITORY_SCOPE) && this.scopeFor == scopeFor
    {
      buffer, scope, this.scopeFor := "", REPOSITORY_SCOPE, scopeFor;
    }

    method ParseLine(raw: string) returns (frames: seq<Frame>)
      modifies this`scope
      ensures (scope, frames) == LineRead(old(scope), raw, scopeFor)
    {
      var line := Stripped(raw);
      if line == "" {
        return [];
      }
      var into := CloningInto(line);
      if into.Some? {
        scope := scopeFor(into.value);
        return [Frame(Starting, scope, None, true, line)];
      }
      var phase := PhaseOf(line);
      if phase.Some? {
        var percent := PercentFrom(line, 0);
        return [Frame(phase.value, scope, percent, percent.None?, line)];
      }
      return [];
    }

    method ReadLines(lines: seq<string>, ghost read: LineReader) returns (out: seq<Frame>)
      requires read == ReaderOf(scopeFor)
      modifies this`scope
      ensures (scope, out) == LinesRead(old(scope), lines, read)
    {
      out := [];
      ghost var was := scope;
      assert lines[0..] == lines && [] + LinesRead(was, lines, read).1 == LinesRead(was, lines, read).1;
      for i := 0 to |lines|
        invariant LinesRead(was, lines, read) == Before(out, LinesRead(scope, lines[i..], read))
      {
        ghost var s := scope;
        var frames := ParseLine(lines[i]);
        Regroup(out, frames, LinesRead(scope, lines[i + 1..], read).1);
        out := out + frames;
      }
      assert out + [] == out;
    }

    /** More output: the lines that are complete by now are read, and their frames are returned. */
    method Push(chunk: string) returns (out: seq<Frame>)
      modifies this
      ensures (State(), out) == Pushed(old(State()), chunk, ReaderOf(scopeFor))
    {
      buffer := buffer + chunk;
      var (lines, rest) := Split(buffer);
      buffer := rest;
      out := ReadLines(lines, ReaderOf(scopeFor));
    }
  }

  function Before(out: seq<Frame>, read: (string, seq<Frame>)): (string, seq<Frame>) {
    (read.0, out + read.1)
  }

  // -------------------------------------------------------------------------
  // However the output is cut

  /** One character at a time: every carriage return and every line feed ends a line. */
  function Stepped(p: Parsing, c: char, read: LineReader): (Parsing, seq<Frame>) {
    if IsBreak(c) then
      var (scope, frames) := read(p.scope, p.buffer);
      (Parsing("", scope), frames)
    else (Parsing(p.buffer + [c], p.scope), [])
  }

  function Fed(p: Parsing, text: string, read: LineReader): (Parsing, seq<Frame>)
    decreases |text|
  {
    if |text| == 0 then (p, [])
    else
      var (next, frames) := Stepped(p, text[0], read);
      var (last, more) := Fed(next, text[1..], read);
      (last, frames + more)
  }

  lemma {:induction false} FedConcat(p: Parsing, a: string, b: string, read: LineReader)
    ensures var (q, frames) := Fed(p, a, read);
            Fed(p, a + b, read) == (Fed(q, b, read).0, frames + Fed(q, b, read).1)
    decreases |a|
  {
    if |a| == 0 {
      assert a + b == b && [] + Fed(p, b, read).1 == Fed(p, b, read).1;
    } else {
      var (next, frames) := Stepped(p, a[0], read);
      FedConcat(next, a[1..], b, read);
      assert (a + b)[0] == a[0] && (a + b)[1..] == a[1..] + b;
      var (q, more) := Fed(next, a[1..], read);
      Regroup(frames, more, Fed(q, b, read).1);
    }
  }

  predicate Unbroken(s: string) {
    forall k :: 0 <= k < |s| ==> !IsBreak(s[k])
  }

  /** Text without a separator only fills the buffer: a partial line is never reported. */
  lemma {:induction false} FedUnbroken(p: Parsing, s: string, read: LineReader)
    requires Unbroken(s)
    ensures Fed(p, s, read) == (Parsing(p.buffer + s, p.scope), [])
    decreases |s|
  {
    if |s| > 0 {
      var next := Parsing(p.buffer + [s[0]], p.scope);
      assert !IsBreak(s[0]) && Stepped(p, s[0], read) == (next, []);
      FedUnbroken(next, s[1..], read);
      assert p.buffer + [s[0]] + s[1..] == p.buffer + s && [] + Fed(next, s[1..], read).1 == [];
    } else {
      assert p.buffer + s == p.buffer;
    }
  }

  lemma FedBreak(scope: string, c: char, read: LineReader, line: string)
    requires IsBreak(c)
    ensures Fed(Parsing(line, scope), [c], read) == (Parsing("", read(scope, line).0), read(scope, line).1)
  {
    var frames := read(scope, line).1;
    assert [c][1..] == "" && frames + [] == frames;
  }

  lemma FedEnded(scope: string, line: string, c: char, read: LineReader)
    requires Unbroken(line) && IsBreak(c)
    ensures Fed(Parsing("", scope), line + [c], read) == (Parsing("", read(scope, line).0), read(scope, line).1)
  {
    FedUnbroken(Parsing("", scope), line, read);
    assert "" + line == line;
    FedConcat(Parsing("", scope), line, [c], read);
    FedBreak(scope, c, read, line);
    assert [] + read(scope, line).1 == read(scope, line).1;
  }

  lemma FedBlank(scope: string, line: string, c: char, read: LineReader, next: string, frames: seq<Frame>)
    requires SkipsBlank(read) && IsBreak(c) && Fed(Parsing("", scope), line, read) == (Parsing("", next), frames)
    ensures Fed(Parsing("", scope), line + [c], read) == (Parsing("", next), frames)
  {
    FedConcat(Parsing("", scope), line, [c], read);
    FedBreak(next, c, read, "");
    assert frames + [] == frames;
  }

  /** A line and its separator, also when that is a carriage return and a line feed. */
  lemma FedLine(scope: string, s: string, i: nat, e: nat, read: LineReader)
    requires SkipsBlank(read)
    requires i < e <= |s| && Unbroken(s[..i]) && IsBreak(s[i]) && (e == i + 1 || (e == i + 2 && IsBreak(s[i + 1])))
    ensures Fed(Parsing("", scope), s[..e], read) == (Parsing("", read(scope, s[..i]).0), read(scope, s[..i]).1)
  {
    FedEnded(scope, s[..i], s[i], read);
    assert s[..i + 1] == s[..i] + [s[i]];
    if e == i + 2 {
      assert s[..e] == s[..i + 1] + [s[i + 1]];
      FedBlank(scope, s[..i + 1], s[i + 1], read, read(scope, s[..i]).0, read(scope, s[..i]).1);
    }
  }

  /** Splitting into lines and reading them is reading one character at a time. */
  lemma {:induction false} SplitIsFed(scope: string, s: string, read: LineReader)
    requires SkipsBlank(read)
    ensures var (lines, rest) := Split(s);
            Fed(Parsing("", scope), s, read) ==
                (Parsing(rest, LinesRead(scope, lines, read).0), LinesRead(scope, lines, read).1)
            && Unbroken(rest)
    decreases |s|
  {
    var i := BreakAt(s);
    if i == |s| {
      FedUnbroken(Parsing("", scope), s, read);
      assert "" + s == s;
    } else {
      var e := BreakEnd(s, i);
      var (next, frames) := read(scope, s[..i]);
      FedLine(scope, s, i, e, read);
      SplitIsFed(next, s[e..], read);
      FedConcat(Parsing("", scope), s[..e], s[e..], read);
      assert s == s[..e] + s[e..];
      var (lines, rest) := Split(s[e..]);
      assert ([s[..i]] + lines)[1..] == lines;
    }
  }

  lemma PushIsFed(p: Parsing, chunk: string, read: LineReader)
    requires SkipsBlank(read)
    requires Unbroken(p.buffer)
    ensures Pushed(p, chunk, read) == Fed(p, chunk, read) && Unbroken(Pushed(p, chunk, read).0.buffer)
  {
    var s := p.buffer + chunk;
    SplitIsFed(p.scope, s, read);
    FedConcat(Parsing("", p.scope), p.buffer, chunk, read);
    FedUnbroken(Parsing("", p.scope), p.buffer, read);
    assert "" + p.buffer == p.buffer && [] + Fed(p, chunk, read).1 == Fed(p, chunk, read).1;
  }

  /** Pushing the chunks one after another. */
  function PushedAll(p: Parsing, chunks: seq<string>, read: LineReader): (Parsing, seq<Frame>)
    decreases |chunks|
  {
    if |chunks| == 0 then (p, [])
    else
      var (next, frames) := Pushed(p, chunks[0], read);
      var (last, more) := PushedAll(next, chunks[1..], read);
      (last, frames + more)
  }

  lemma {:induction false} ChunksFed(p: Parsing, chunks: seq<string>, read: LineReader)
    requires SkipsBlank(read)
    requires Unbroken(p.buffer)
    ensures PushedAll(p, chunks, read) == Fed(p, Flatten(chunks), read)
    decreases |chunks|
  {
    if |chunks| > 0 {
      var (next, frames) := Pushed(p, chunks[0], read);
      PushIsFed(p, chunks[0], read);
      ChunksFed(next, chunks[1..], read);
      FedConcat(p, chunks[0], Flatten(chunks[1..]), read);
    }
  }

  /**
   * However git's output is cut into chunks, also between a carriage return and its
   * line feed, the frames, the scope and what is buffered are those of one push.
   */
  lemma ChunksDoNotMatter(p: Parsing, chunks: seq<string>, read: LineReader)
    requires SkipsBlank(read)
    requires Unbroken(p.buffer)
    ensures PushedAll(p, chunks, read) == Pushed(p, Flatten(chunks), read)
  {
    ChunksFed(p, chunks, read);
    PushIsFed(p, Flatten(chunks), read);
  }

  /** A carriage return, a line feed, or both in that order. */
  predicate EndsLine(sep: string) {
    sep == "\r" || sep == "\n" || sep == "\r\n"
  }

  /** A line that any of them ends is read, together with what was buffered of it, and nothing stays buffered. */
  lemma LineIsRead(p: Parsing, line: string, sep: string, read: LineReader)
    requires SkipsBlank(read) && Unbroken(p.buffer) && EndsLine(sep) && '\r' !in line && '\n' !in line
    ensures Pushed(p, line + sep, read) ==
            (Parsing("", read(p.scope, p.buffer + line).0), read(p.scope, p.buffer + line).1)
  {
    var whole := p.buffer + line;
    var s := whole + sep;
    assert p.buffer + (line + sep) == s;
    FedLine(p.scope, s, |whole|, |s|, read);
    assert s[..|whole|] == whole && s[..|s|] == s;
    SplitIsFed(p.scope, s, read);
  }

  /** A trailing partial line is never reported, whatever it holds; it waits in the buffer. */
  lemma PartialNeverReported(p: Parsing, text: string, partial: string, read: LineReader)
    requires SkipsBlank(read)
    requires Unbroken(p.buffer) && Unbroken(partial)
    ensures var (q, frames) := Pushed(p, text, read);
            Pushed(p, text + partial, read) == (Parsing(q.buffer + partial, q.scope), frames)
  {
    PushIsFed(p, text, read);
    PushIsFed(p, text + partial, read);
    FedConcat(p, text, partial, read);
    var (q, frames) := Fed(p, text, read);
    FedUnbroken(q, partial, read);
    assert frames + [] == frames;
  }

  /** A chunk never leaves a separator in the buffer, so the above holds of every run. */
  lemma BufferUnbroken(p: Parsing, chunk: string, read: LineReader)
    requires SkipsBlank(read)
    ensures Unbroken(Pushed(p, chunk, read).0.buffer)
  {
    SplitIsFed(p.scope, p.buffer + chunk, read);
  }

  predicate FrameSound(f: Frame) {
    (f.indeterminate <==> f.percent.None?) && (f.percent.Some? ==> f.percent.value <= 100)
  }

  /** Every frame's percentage is at most 100, and missing exactly when the frame says so. */
  lemma {:induction false} FramesSound(scope: string, lines: seq<string>, scopeFor: ScopeFor)
    ensures forall f <- LinesRead(scope, lines, ReaderOf(scopeFor)).1 :: FrameSound(f)
    decreases |lines|
  {
    if |lines| > 0 {
      FramesSound(LineRead(scope, lines[0], scopeFor).0, lines[1..], scopeFor);
    }
  }

  // -------------------------------------------------------------------------
  // What the lines git writes say

  predicate Blank(s: string) {
    forall k :: 0 <= k < |s| ==> IsSpace(s[k])
  }

  /** Something to read, not led or followed by white space. */
  predicate Trimmed(s: string) {
    |s| > 0 && !IsSpace(s[0]) && !IsSpace(s[|s| - 1])
  }

  lemma {:induction false} TrimsStart(lead: string, s: string)
    requires Blank(lead) && |s| > 0 && !IsSpace(s[0])
    ensures TrimStart(lead + s) == s
  {
    if |lead| == 0 {
      assert lead + s == s;
    } else {
      assert (lead + s)[1..] == lead[1..] + s;
      TrimsStart(lead[1..], s);
    }
  }

  lemma {:induction false} TrimsEnd(s: string, tail: string)
    requires Blank(tail) && |s| > 0 && !IsSpace(s[|s| - 1])
    ensures TrimEnd(s + tail) == s
  {
    if |tail| == 0 {
      assert s + tail == s;
    } else {
      var init := tail[..|tail| - 1];
      assert (s + tail)[..|s + tail| - 1] == s + init;
      TrimsEnd(s, init);
    }
  }

  /** How git and its remote end write a line: white space around it, and a prefix for the remote's. */
  function Written(remote: bool, lead: string, line: string, tail: string): string {
    (if remote then "remote:" else "") + (lead + (line + tail))
  }

  lemma Unprefixed(remote: bool, rest: string, first: char)
    requires |rest| > 0 && rest[0] == first && first != 'r'
    ensures var raw := (if remote then "remote:" else "") + rest;
            rest == if "remote:" <= raw then raw[|"remote:"|..] else raw
  {
    var raw := (if remote then "remote:" else "") + rest;
    if remote {
      assert raw[..|"remote:"|] == "remote:";
    } else {
      assert raw == rest;
    }
  }

  lemma StrippedIs(remote: bool, lead: string, line: string, tail: string)
    requires Blank(lead) && Blank(tail) && Trimmed(line) && line[0] != 'r'
    ensures Stripped(Written(remote, lead, line, tail)) == line
  {
    Unprefixed(remote, lead + (line + tail), if |lead| > 0 then lead[0] else line[0]);
    TrimsStart(lead, line + tail);
    TrimsEnd(line, tail);
  }

  lemma SpacesAreBlank(s: string)
    requires forall k :: 0 <= k < |s| ==> s[k] == ' ' || s[k] == '\t'
    ensures Blank(s)
  {
  }

  /** What git calls its phases. */
  predicate Names(name: string, phase: Phase) {
    match phase
    case Starting => false
    case Enumerating => name == "Enumerating objects:"
    case Counting => name == "Counting objects:"
    case Compressing => name == "Compressing objects:"
    case Receiving => name == "Receiving objects:"
    case Resolving => name == "Resolving deltas:"
    case CheckingOut => name == "Updating files:" || name == "Checking out files:"
    case Filtering => name == "Filtering content:"
  }

  /** Two names that differ in their first or third letter do not start one line. */
  lemma Unlike(name: string, other: string, line: string)
    requires name <= line && |name| > 2 && |other| > 2 && (name[0] != other[0] || name[2] != other[2])
    ensures !(other <= line)
  {
    assert line[0] == name[0] && line[2] == name[2];
  }

  /** The first and third letters, which tell the names apart. */
  predicate Letters(name: string, first: char, third: char) {
    |name| > 2 && name[0] == first && name[2] == third
  }

  lemma NameLetters(name: string, phase: Phase)
    requires Names(name, phase)
    ensures match phase
            case Starting => false
            case Enumerating => Letters(name, 'E', 'u')
            case Counting => Letters(name, 'C', 'u')
            case Compressing => Letters(name, 'C', 'm')
            case Receiving => Letters(name, 'R', 'c')
            case Resolving => Letters(name, 'R', 's')
            case CheckingOut => Letters(name, 'U', 'd') || Letters(name, 'C', 'e')
            case Filtering => Letters(name, 'F', 'l')
  {
  }

  /** Letters of a name, a space and a colon at the end: no percent sign. */
  predicate NameShaped(name: string) {
    && |name| > 2 && 'A' <= name[0] <= 'Z' && name[|name| - 1] == ':'
    && forall k :: 0 <= k < |name| ==> name[k] != '%'
  }

  lemma NameShape(name: string, phase: Phase)
    requires Names(name, phase)
    ensures NameShaped(name)
  {
    match phase
    case Enumerating => assert NameShaped("Enumerating objects:");
    case Counting => assert NameShaped("Counting objects:");
    case Compressing => assert NameShaped("Compressing objects:");
    case Receiving => assert NameShaped("Receiving objects:");
    case Resolving => assert NameShaped("Resolving deltas:");
    case CheckingOut =>
      assert NameShaped("Updating files:");
      assert NameShaped("Checking out files:");
    case Filtering => assert NameShaped("Filtering content:");
  }

  lemma NamedPhase(name: string, phase: Phase, more: string)
    requires Names(name, phase)
    ensures PhaseOf(name + more) == Some(phase) && CloningInto(name + more).None?
  {
    var line := name + more;
    NameLetters(name, phase);
    assert name <= line;
    Unlike(name, CLONING, line);
    if !phase.Enumerating? { Unlike(name, "Enumerating objects:", line); }
    if !phase.Counting? { Unlike(name, "Counting objects:", line); }
    if !phase.Compressing? { Unlike(name, "Compressing objects:", line); }
    if !phase.Receiving? { Unlike(name, "Receiving objects:", line); }
    if !phase.Resolving? { Unlike(name, "Resolving deltas:", line); }
    if !phase.CheckingOut? { Unlike(name, "Updating files:", line); Unlike(name, "Checking out files:", line); }
    if !phase.Filtering? { Unlike(name, "Filtering content:", line); }
  }

  function Digit(d: nat): char
    requires d < 10
  {
    ('0' as int + d) as char
  }

  function Decimal(n: nat): (s: string)
    ensures |s| > 0 && AllDigits(s)
  {
    if n < 10 then [Digit(n)] else Decimal(n / 10) + [Digit(n % 10)]
  }

  lemma {:induction false} DecimalValue(n: nat)
    ensures Value(Decimal(n)) == n
    ensures n < 1000 ==> |Decimal(n)| <= 3
  {
    var s := Decimal(n);
    if n < 10 {
      assert s[..0] == "";
    } else {
      DecimalValue(n / 10);
      assert s[..|s| - 1] == Decimal(n / 10) && s[|s| - 1] == Digit(n % 10);
      assert n / 10 < 10 ==> |Decimal(n / 10)| == 1;
      assert n < 1000 ==> n / 10 < 100;
      if 10 <= n / 10 < 100 {
        assert Decimal(n / 10) == Decimal(n / 100) + [Digit(n / 10 % 10)] && |Decimal(n / 100)| == 1;
      }
    }
  }

  lemma {:induction false} PercentSkips(line: string, k: nat, i: nat)
    requires k <= i <= |line| && forall j :: k <= j < i ==> line[j] != '%'
    ensures PercentFrom(line, k) == PercentFrom(line, i)
    decreases i - k
  {
    if k < i {
      PercentSkips(line, k + 1, i);
    }
  }

  lemma PercentIs(front: string, n: nat, rest: string)
    requires n < 1000 && '%' !in front && |front| > 0 && !IsDigit(front[|front| - 1])
    ensures PercentFrom(front + Decimal(n) + "%" + rest, 0) == Some(if n > 100 then 100 else n)
  {
    var digits := Decimal(n);
    var line, i := front + digits + "%" + rest, |front + digits|;
    DecimalValue(n);
    forall j | 0 <= j < i
      ensures line[j] != '%'
    {
      assert line[j] == if j < |front| then front[j] else digits[j - |front|];
      assert j < |front| ==> front[j] in front;
    }
    PercentSkips(line, 0, i);
    assert line[i] == '%' && line[i - 1] == digits[|digits| - 1];
    DigitsAre(line, front, digits, i);
  }

  lemma DigitsAre(line: string, front: string, digits: string, i: nat)
    requires |front| > 0 && !IsDigit(front[|front| - 1]) && AllDigits(digits) && 0 < |digits| <= 3
    requires i == |front| + |digits| && front + digits <= line
    ensures IsDigit(line[i - 1]) && line[DigitsStart(line, i)..i] == digits
  {
    assert line[|front|..i] == digits;
    assert forall j :: 0 <= j < |digits| ==> line[|front| + j] == digits[j];
    assert line[|front| - 1] == front[|front| - 1];
  }

  lemma PhaseLine(scope: string, remote: bool, lead: string, name: string, phase: Phase, more: string, tail: string,
                  scopeFor: ScopeFor)
    requires Names(name, phase) && Blank(lead) && Blank(tail) && Trimmed(name + more)
    ensures var line := name + more;
            LineRead(scope, Written(remote, lead, line, tail), scopeFor) ==
            (scope, [Frame(phase, scope, PercentFrom(line, 0), PercentFrom(line, 0).None?, line)])
  {
    NamedPhase(name, phase, more);
    NameShape(name, phase);
    assert (name + more)[0] == name[0];
    StrippedIs(remote, lead, name + more, tail);
  }

  lemma CountedLine(name: string, mid: string, n: nat, rest: string)
    requires NameShaped(name) && (rest == "" || !IsSpace(rest[|rest| - 1]))
    requires n < 1000 && '%' !in mid && (mid == "" || !IsDigit(mid[|mid| - 1]))
    ensures var line := name + (mid + Decimal(n) + "%" + rest);
            Trimmed(line) && PercentFrom(line, 0) == Some(if n > 100 then 100 else n)
  {
    var line, front := name + (mid + Decimal(n) + "%" + rest), name + mid;
    assert line[0] == name[0];
    assert line[|line| - 1] == if rest == "" then '%' else rest[|rest| - 1];
    assert front[|front| - 1] == if mid == "" then name[|name| - 1] else mid[|mid| - 1];
    PercentIs(front, n, rest);
    assert line == front + Decimal(n) + "%" + rest;
  }

  /**
   * A line of a phase with a percentage up to three digits long, behind anything that
   * has none, is a frame of that phase in the present scope, at most at 100.
   */
  lemma ProgressLine(scope: string, remote: bool, lead: string, name: string, phase: Phase, mid: string, n: nat,
                     rest: string, tail: string, scopeFor: ScopeFor)
    requires Names(name, phase) && Blank(lead) && Blank(tail) && (rest == "" || !IsSpace(rest[|rest| - 1]))
    requires n < 1000 && '%' !in mid && (mid == "" || !IsDigit(mid[|mid| - 1]))
    ensures var line := name + (mid + Decimal(n) + "%" + rest);
            LineRead(scope, Written(remote, lead, line, tail), scopeFor) ==
            (scope, [Frame(phase, scope, Some(if n > 100 then 100 else n), false, line)])
  {
    var more := mid + Decimal(n) + "%" + rest;
    NameShape(name, phase);
    CountedLine(name, mid, n, rest);
    PhaseLine(scope, remote, lead, name, phase, more, tail, scopeFor);
  }

  /** Without a percent sign its frame has no percentage. */
  lemma UncountedLine(scope: string, remote: bool, lead: string, name: string, phase: Phase, more: string, tail: string,
                      scopeFor: ScopeFor)
    requires Names(name, phase) && Blank(lead) && Blank(tail) && Trimmed(name + more) && '%' !in more
    ensures LineRead(scope, Written(remote, lead, name + more, tail), scopeFor) ==
            (scope, [Frame(phase, scope, None, true, name + more)])
  {
    var line := name + more;
    NameShape(name, phase);
    assert forall j :: 0 <= j < |line| ==> line[j] in name || line[j] in more;
    PercentSkips(line, 0, |line|);
    PhaseLine(scope, remote, lead, name, phase, more, tail, scopeFor);
  }

  /** A new clone, also a submodule's, changes the scope before its own frame. */
  lemma CloningLine(scope: string, remote: bool, lead: string, path: string, tail: string, scopeFor: ScopeFor)
    requires Blank(lead) && Blank(tail) && path != "" && InLine(path)
    ensures var line := "Cloning into '" + path + "'...";
            LineRead(scope, Written(remote, lead, line, tail), scopeFor) ==
            (scopeFor(path), [Frame(Starting, scopeFor(path), None, true, line)])
  {
    var line := "Cloning into '" + path + "'...";
    StrippedIs(remote, lead, line, tail);
    assert line[..|CLONING|] == CLONING;
    assert line[|line| - |CLONING_END|..] == CLONING_END;
    assert line[|CLONING|..|line| - |CLONING_END|] == path;
  }

  lemma NameIn(line: string, phase: Phase) returns (name: string)
    requires PhaseOf(line) == Some(phase)
    ensures Names(name, phase) && name <= line
  {
    match phase
    case Enumerating => name := "Enumerating objects:";
    case Counting => name := "Counting objects:";
    case Compressing => name := "Compressing objects:";
    case Receiving => name := "Receiving objects:";
    case Resolving => name := "Resolving deltas:";
    case CheckingOut => name := if "Updating files:" <= line then "Updating files:" else "Checking out files:";
    case Filtering => name := "Filtering content:";
  }

  /** Any other line is passed over. */
  lemma OtherLine(scope: string, raw: string, scopeFor: ScopeFor)
    requires !(CLONING <= Stripped(raw))
    requires forall name, phase :: Names(name, phase) ==> !(name <= Stripped(raw))
    ensures LineRead(scope, raw, scopeFor) == (scope, [])
  {
    var line := Stripped(raw);
    if PhaseOf(line).Some? {
      var name := NameIn(line, PhaseOf(line).value);
    }
  }
}
