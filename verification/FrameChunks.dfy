/**
 * Frame chunking: the server splits a large frame (server/src/frame-chunks.ts) and
 * the client reassembles it (client/src/frame-chunks.ts). Text is a sequence of
 * UTF-16 code units, given as integers.
 */
module FrameChunks {
  import opened Options
  import opened Sequences

  type Text = seq<int>

  const MARK := 1
  const SPACE := 0x20
  const NEWLINE := 0x0A
  const DIGIT_0 := 0x30

  predicate IsHigh(c: int) {
    0xD800 <= c <= 0xDBFF
  }

  predicate IsLow(c: int) {
    0xDC00 <= c <= 0xDFFF
  }

  // -------------------------------------------------------------------------
  // splitFrame

  /** Where the piece that starts at `at` ends. */
  function EndOf(json: Text, at: nat, maxChars: nat): (end: nat)
    requires at < |json| && maxChars >= 1
    ensures at < end <= |json|
  {
    var end := if at + maxChars < |json| then at + maxChars else |json|;
    if end < |json| && IsHigh(json[end - 1]) then (if end - 1 > at then end - 1 else end + 1) else end
  }

  /** The pieces of the text from `at` on. */
  function Pieces(json: Text, at: nat, maxChars: nat): seq<Text>
    requires at <= |json| && maxChars >= 1
    decreases |json| - at
  {
    if at == |json| then []
    else [json[at..EndOf(json, at, maxChars)]] + Pieces(json, EndOf(json, at, maxChars), maxChars)
  }

  function Digits(n: nat): (d: Text)
    ensures |d| > 0 && forall k :: 0 <= k < |d| ==> DIGIT_0 <= d[k] < DIGIT_0 + 10
  {
    if n < 10 then [DIGIT_0 + n] else Digits(n / 10) + [DIGIT_0 + n % 10]
  }

  function Header(id: nat, index: nat, count: nat): Text {
    Digits(id) + ([SPACE] + (Digits(index) + ([SPACE] + Digits(count))))
  }

  function ChunkFrame(id: nat, index: nat, count: nat, data: Text): Text {
    [MARK] + (Header(id, index, count) + ([NEWLINE] + data))
  }

  function ChunkFrames(pieces: seq<Text>, id: nat): seq<Text> {
    seq(|pieces|, k requires 0 <= k < |pieces| => ChunkFrame(id, k, |pieces|, pieces[k]))
  }

  function SplitFrames(json: Text, id: nat, maxChars: nat): seq<Text>
    requires maxChars >= 1
  {
    if |json| <= maxChars then [json] else ChunkFrames(Pieces(json, 0, maxChars), id)
  }

  /** The frames a text goes out as: its chunks, or itself when it is short enough. */
  method SplitFrame(json: Text, id: nat, maxChars: nat) returns (frames: seq<Text>)
    requires maxChars >= 1
    ensures frames == SplitFrames(json, id, maxChars)
  {
    if |json| <= maxChars {
      return [json];
    }
    var pieces: seq<Text> := [];
    var at := 0;
    while at < |json|
      invariant at <= |json|
      invariant pieces + Pieces(json, at, maxChars) == Pieces(json, 0, maxChars)
    {
      var end := if at + maxChars < |json| then at + maxChars else |json|;
      if end < |json| {
        var c := json[end - 1];
        if 0xD800 <= c <= 0xDBFF {
          end := if end - 1 > at then end - 1 else end + 1;
        }
      }
      assert end == EndOf(json, at, maxChars);
      Regroup(pieces, [json[at..end]], Pieces(json, end, maxChars));
      pieces := pieces + [json[at..end]];
      at := end;
    }
    frames := seq(|pieces|, k requires 0 <= k < |pieces| => ChunkFrame(id, k, |pieces|, pieces[k]));
  }

  /** A cut at `at` falls between the two halves of a surrogate pair. */
  predicate CutsPair(json: Text, at: nat) {
    0 < at < |json| && IsHigh(json[at - 1]) && IsLow(json[at])
  }

  /** Where the `k`-th piece starts. */
  function StartOf(pieces: seq<Text>, k: nat): nat
    requires k <= |pieces|
  {
    if k == 0 then 0 else StartOf(pieces, k - 1) + |pieces[k - 1]|
  }

  lemma {:induction false} PiecesJoin(json: Text, at: nat, maxChars: nat)
    requires at <= |json| && maxChars >= 1
    ensures Flatten(Pieces(json, at, maxChars)) == json[at..]
    decreases |json| - at
  {
    if at < |json| {
      var end := EndOf(json, at, maxChars);
      PiecesJoin(json, end, maxChars);
      assert json[at..] == json[at..end] + json[end..];
    }
  }

  lemma {:induction false} PiecesSized(json: Text, at: nat, maxChars: nat, k: nat)
    requires at <= |json| && maxChars >= 1 && k < |Pieces(json, at, maxChars)|
    ensures 0 < |Pieces(json, at, maxChars)[k]| <= if maxChars == 1 then 2 else maxChars
    decreases k
  {
    if k > 0 {
      PiecesSized(json, EndOf(json, at, maxChars), maxChars, k - 1);
    }
  }

  /** With room for two no cut is between the halves of a pair. */
  lemma {:induction false} CutsWhole(json: Text, at: nat, maxChars: nat, k: nat)
    requires at <= |json| && maxChars >= 2 && k <= |Pieces(json, at, maxChars)|
    requires !CutsPair(json, at)
    ensures var start := at + StartOf(Pieces(json, at, maxChars), k); start <= |json| && !CutsPair(json, start)
    decreases k
  {
    if k > 0 {
      var end, pieces := EndOf(json, at, maxChars), Pieces(json, at, maxChars);
      assert !CutsPair(json, end);
      CutsWhole(json, end, maxChars, k - 1);
      StartShifts(pieces, k);
      assert pieces[1..] == Pieces(json, end, maxChars);
    }
  }

  lemma {:induction false} StartShifts(pieces: seq<Text>, k: nat)
    requires 0 < k <= |pieces|
    ensures StartOf(pieces, k) == |pieces[0]| + StartOf(pieces[1..], k - 1)
  {
    if k > 1 {
      StartShifts(pieces, k - 1);
      assert pieces[1..][k - 2] == pieces[k - 1];
    }
  }

  /**
   * The pieces of any text: they concatenate to it, none is empty or longer than
   * allowed, and none starts inside a surrogate pair.
   */
  lemma PiecesSound(json: Text, maxChars: nat, k: nat)
    requires maxChars >= 2 && k < |Pieces(json, 0, maxChars)|
    ensures var pieces := Pieces(json, 0, maxChars);
            && Flatten(pieces) == json
            && 0 < |pieces[k]| <= maxChars
            && !CutsPair(json, StartOf(pieces, k))
  {
    PiecesJoin(json, 0, maxChars);
    PiecesSized(json, 0, maxChars, k);
    CutsWhole(json, 0, maxChars, k);
    assert json[0..] == json;
  }

  // With a budget of one unit

  /** The length of the run of high halves that ends before `at`. */
  function HighsBefore(json: Text, at: nat): nat
    requires at <= |json|
  {
    if at == 0 || !IsHigh(json[at - 1]) then 0 else 1 + HighsBefore(json, at - 1)
  }

  predicate EvenBefore(json: Text, at: nat)
    requires at <= |json|
  {
    HighsBefore(json, at) % 2 == 0
  }

  /** Every low half directly after a high one ends an odd run of high halves. */
  predicate OddRuns(json: Text) {
    forall at :: 0 <= at <= |json| && CutsPair(json, at) ==> !EvenBefore(json, at)
  }

  lemma EvenAtEnd(json: Text, at: nat)
    requires at < |json| && EvenBefore(json, at)
    ensures var end := EndOf(json, at, 1); end < |json| ==> EvenBefore(json, end)
  {
    assert HighsBefore(json, at + 1) == if IsHigh(json[at]) then HighsBefore(json, at) + 1 else 0;
  }

  /** A piece starts only where an even run of high halves ends. */
  lemma {:induction false} StartsEven(json: Text, at: nat, k: nat)
    requires at < |json| && EvenBefore(json, at) && k < |Pieces(json, at, 1)|
    ensures var start := at + StartOf(Pieces(json, at, 1), k); start < |json| && EvenBefore(json, start)
    decreases k
  {
    if k > 0 {
      var end, pieces := EndOf(json, at, 1), Pieces(json, at, 1);
      EvenAtEnd(json, at);
      StartsEven(json, end, k - 1);
      StartShifts(pieces, k);
      assert pieces[1..] == Pieces(json, end, 1);
    }
  }

  /** And wherever one does, a piece starts. */
  lemma {:induction false} EvenStarts(json: Text, at: nat, p: nat) returns (k: nat)
    requires at <= p < |json| && EvenBefore(json, at) && EvenBefore(json, p)
    ensures k < |Pieces(json, at, 1)| && at + StartOf(Pieces(json, at, 1), k) == p
    decreases p - at
  {
    if at == p {
      k := 0;
    } else {
      var end, pieces := EndOf(json, at, 1), Pieces(json, at, 1);
      EvenAtEnd(json, at);
      assert HighsBefore(json, at + 1) == if IsHigh(json[at]) then HighsBefore(json, at) + 1 else 0;
      var rest := EvenStarts(json, end, p);
      k := rest + 1;
      assert pieces[1..] == Pieces(json, end, 1);
      StartShifts(pieces, k);
    }
  }

  /** No piece starts inside a surrogate pair. */
  predicate PairsWhole(json: Text, pieces: seq<Text>) {
    forall k :: 0 <= k < |pieces| ==> !CutsPair(json, StartOf(pieces, k))
  }

  /** The split keeps every pair whole exactly with a budget of two, or when the pairs end odd runs. */
  lemma PairsWholeExactly(json: Text, maxChars: nat)
    requires maxChars >= 1
    ensures PairsWhole(json, Pieces(json, 0, maxChars)) <==> maxChars >= 2 || OddRuns(json)
  {
    var pieces := Pieces(json, 0, maxChars);
    if maxChars >= 2 {
      forall k | 0 <= k < |pieces|
        ensures !CutsPair(json, StartOf(pieces, k))
      {
        CutsWhole(json, 0, maxChars, k);
      }
    } else {
      forall k | 0 <= k < |pieces|
        ensures StartOf(pieces, k) <= |json| && EvenBefore(json, StartOf(pieces, k))
      {
        StartsEven(json, 0, k);
      }
      if at :| 0 <= at <= |json| && CutsPair(json, at) && EvenBefore(json, at) {
        var k := EvenStarts(json, 0, at);
        assert CutsPair(json, StartOf(pieces, k));
      }
    }
  }

  /** Every high half is followed by a low one, and every low half preceded by a high one. */
  predicate WellPaired(json: Text) {
    forall k :: 0 <= k < |json| ==>
      && (IsHigh(json[k]) ==> k + 1 < |json| && IsLow(json[k + 1]))
      && (IsLow(json[k]) ==> 0 < k && IsHigh(json[k - 1]))
  }

  /** Text without an unpaired half keeps its pairs whole with any budget. */
  lemma WellPairedWhole(json: Text, maxChars: nat)
    requires maxChars >= 1 && WellPaired(json)
    ensures PairsWhole(json, Pieces(json, 0, maxChars))
  {
    forall at | 0 <= at <= |json| && CutsPair(json, at)
      ensures HighsBefore(json, at) == 1
    {
      assert at >= 2 ==> !IsHigh(json[at - 2]);
      assert HighsBefore(json, at) == 1 + HighsBefore(json, at - 1);
    }
    PairsWholeExactly(json, maxChars);
  }

  /** With a budget of one unit an unpaired half makes a piece too long, and the next cut falls inside a pair. */
  lemma OneUnitCutsPair()
    ensures var json := [0xD800, 0xD800, 0xDC00];
            var pieces := Pieces(json, 0, 1);
            |pieces| == 2 && |pieces[0]| == 2 && CutsPair(json, StartOf(pieces, 1))
  {
    var json := [0xD800, 0xD800, 0xDC00];
    assert EndOf(json, 0, 1) == 2 && EndOf(json, 2, 1) == 3;
    assert Pieces(json, 3, 1) == [];
    assert Pieces(json, 2, 1) == [json[2..3]];
    var pieces := Pieces(json, 0, 1);
    assert pieces == [json[0..2]] + [json[2..3]];
    assert StartOf(pieces, 1) == StartOf(pieces, 0) + |pieces[0]|;
  }

  // -------------------------------------------------------------------------
  // Characters

  /** A character of Unicode: any code point but the surrogates. */
  predicate IsCharacter(c: int) {
    0 <= c < 0x11_0000 && !(0xD800 <= c < 0xE000)
  }

  /** A character in UTF-16: one unit, or the two halves of a pair (section 2.1 of RFC 2781). */
  function Units(c: int): Text
    requires IsCharacter(c)
  {
    if c < 0x1_0000 then [c] else [0xD800 + (c - 0x1_0000) / 0x400, 0xDC00 + (c - 0x1_0000) % 0x400]
  }

  /** The units that start a pair are the high halves, and those that end one the low halves. */
  lemma HalvesExactly(u: int)
    ensures IsHigh(u) <==> exists c :: IsCharacter(c) && |Units(c)| == 2 && Units(c)[0] == u
    ensures IsLow(u) <==> exists c :: IsCharacter(c) && |Units(c)| == 2 && Units(c)[1] == u
  {
    if IsHigh(u) {
      assert |Units(0x1_0000 + (u - 0xD800) * 0x400)| == 2 && Units(0x1_0000 + (u - 0xD800) * 0x400)[0] == u;
    }
    if IsLow(u) {
      assert |Units(0x1_0000 + (u - 0xDC00))| == 2 && Units(0x1_0000 + (u - 0xDC00))[1] == u;
    }
  }

  predicate AreCharacters(chars: seq<int>) {
    forall k :: 0 <= k < |chars| ==> IsCharacter(chars[k])
  }

  function Utf16(chars: seq<int>): Text
    requires AreCharacters(chars)
  {
    if |chars| == 0 then [] else Utf16(chars[..|chars| - 1]) + Units(chars[|chars| - 1])
  }

  lemma {:induction false} CharactersPaired(chars: seq<int>)
    requires AreCharacters(chars)
    ensures WellPaired(Utf16(chars))
  {
    if |chars| > 0 {
      CharactersPaired(chars[..|chars| - 1]);
    }
  }

  /** A cut that is not inside a pair is between two characters. */
  lemma {:induction false} BetweenCharacters(chars: seq<int>, at: nat) returns (k: nat)
    requires AreCharacters(chars) && at <= |Utf16(chars)| && !CutsPair(Utf16(chars), at)
    ensures k <= |chars| && Utf16(chars[..k]) == Utf16(chars)[..at]
  {
    var text := Utf16(chars);
    if at == |text| {
      assert chars[..|chars|] == chars && text[..at] == text;
      k := |chars|;
    } else {
      var init := chars[..|chars| - 1];
      var front := Utf16(init);
      assert |text| == |front| + 2 ==> CutsPair(text, |front| + 1);
      assert forall j :: 0 <= j < |front| ==> text[j] == front[j];
      k := BetweenCharacters(init, at);
      assert init[..k] == chars[..k] && front[..at] == text[..at];
    }
  }

  lemma {:induction false} StartsWithin(json: Text, at: nat, maxChars: nat, k: nat)
    requires at <= |json| && maxChars >= 1 && k < |Pieces(json, at, maxChars)|
    ensures at + StartOf(Pieces(json, at, maxChars), k) < |json|
    decreases k
  {
    if k > 0 {
      var end, pieces := EndOf(json, at, maxChars), Pieces(json, at, maxChars);
      assert pieces[1..] == Pieces(json, end, maxChars);
      StartsWithin(json, end, maxChars, k - 1);
      StartShifts(pieces, k);
    }
  }

  /** So the pieces of a text of whole characters, with any budget, start between characters. */
  lemma CharactersWhole(chars: seq<int>, maxChars: nat, p: nat) returns (k: nat)
    requires AreCharacters(chars) && maxChars >= 1 && p < |Pieces(Utf16(chars), 0, maxChars)|
    ensures var start := StartOf(Pieces(Utf16(chars), 0, maxChars), p);
            k <= |chars| && start <= |Utf16(chars)| && Utf16(chars[..k]) == Utf16(chars)[..start]
  {
    var json := Utf16(chars);
    var pieces := Pieces(json, 0, maxChars);
    CharactersPaired(chars);
    WellPairedWhole(json, maxChars);
    StartsWithin(json, 0, maxChars, p);
    k := BetweenCharacters(chars, StartOf(pieces, p));
  }

  // -------------------------------------------------------------------------
  // FrameReassembler

  /** `Number` of a header field, when that is an integer. */
  type Numbers = Text -> Option<int>

  /** `Number` reads back what a template string prints of a natural number up to `top`. */
  ghost predicate ReadsDigits(num: Numbers, top: nat) {
    forall n: nat :: n <= top ==> num(Digits(n)) == Some(n)
  }

  datatype ChunkResult = Frame(text: Text) | Partial(received: nat, count: nat) | Invalid

  datatype Chunk = Chunk(id: Text, index: nat, count: nat, data: Text)

  datatype Progress = Progress(id: Option<Text>, count: nat, parts: seq<Text>)

  const IDLE := Progress(None, 0, [])

  predicate IsChunk(text: Text) {
    |text| > 0 && text[0] == MARK
  }

  /** `split(' ')`. */
  function Fields(h: Text): (f: seq<Text>)
    ensures |f| > 0
    decreases |h|
  {
    var at := IndexOf(h, SPACE);
    if at == |h| then [h] else [h[..at]] + Fields(h[at + 1..])
  }

  function FieldNumber(f: seq<Text>, k: nat, num: Numbers): Option<int> {
    if k < |f| then num(f[k]) else None
  }

  /** The chunk a marked text holds, if it is well formed. */
  function Parse(text: Text, num: Numbers): Option<Chunk>
    requires IsChunk(text)
  {
    var nl := IndexOf(text, NEWLINE);
    if nl == |text| then None
    else
      var f := Fields(text[1..nl]);
      var index, count := FieldNumber(f, 1, num), FieldNumber(f, 2, num);
      if f[0] == [] || index.None? || count.None? || count.value < 1 || index.value < 0 || index.value >= count.value
      then None
      else Some(Chunk(f[0], index.value, count.value, text[nl + 1..]))
  }

  function Accepted(s: Progress, c: Chunk): (Progress, ChunkResult) {
    if c.index != 0 && s.id != Some(c.id) then (IDLE, Invalid)
    else
      var t := if c.index == 0 then Progress(Some(c.id), c.count, []) else s;
      if c.index != |t.parts| || c.count != t.count then (IDLE, Invalid)
      else
        var parts := t.parts + [c.data];
        if |parts| < t.count then (t.(parts := parts), Partial(|parts|, t.count)) else (IDLE, Frame(Flatten(parts)))
  }

  function Pushed(s: Progress, text: Text, num: Numbers): (Progress, ChunkResult) {
    if !IsChunk(text) then (s, Frame(text))
    else
      match Parse(text, num)
      case None => (s, Invalid)
      case Some(c) => Accepted(s, c)
  }

  class FrameReassembler {
    var id: Option<Text>
    var count: nat
    var parts: seq<Text>
    const num: Numbers

    ghost function State(): Progress
      reads this
    {
      Progress(id, count, parts)
    }

    constructor (num: Numbers)
      ensures State() == IDLE && this.num == num
    {
      id, count, parts, this.num := None, 0, [], num;
    }

    method Reset()
      modifies this
      ensures State() == IDLE
    {
      id, count, parts := None, 0, [];
    }

    /** Feed one text frame. A frame that is no chunk is passed straight through. */
    method Push(text: Text) returns (r: ChunkResult)
      modifies this
      ensures (State(), r) == Pushed(old(State()), text, num)
    {
      if !IsChunk(text) {
        return Frame(text);
      }
      var parsed := Parse(text, num);
      if parsed.None? {
        return Invalid;
      }
      var c := parsed.value;
      if c.index == 0 || Some(c.id) != id {
        if c.index != 0 {
          Reset();
          return Invalid;
        }
        id, count, parts := Some(c.id), c.count, [];
      }
      if c.index != |parts| || c.count != count {
        Reset();
        return Invalid;
      }
      parts := parts + [c.data];
      if |parts| < count {
        return Partial(|parts|, count);
      }
      r := Frame(Flatten(parts));
      Reset();
    }
  }

  // -------------------------------------------------------------------------
  // Reading a header back

  lemma FieldsStep(a: Text, h: Text)
    requires SPACE !in a
    ensures Fields(a + ([SPACE] + h)) == [a] + Fields(h)
  {
    var q := a + ([SPACE] + h);
    IndexOfSplit(a, SPACE, h);
    assert q[..|a|] == a && q[|a| + 1..] == h;
  }

  lemma HeaderFields(id: nat, index: nat, count: nat)
    ensures NEWLINE !in Header(id, index, count)
    ensures Fields(Header(id, index, count)) == [Digits(id), Digits(index), Digits(count)]
  {
    FieldsStep(Digits(id), Digits(index) + ([SPACE] + Digits(count)));
    FieldsStep(Digits(index), Digits(count));
    IndexOfNone(Digits(count), SPACE);
  }

  lemma BodyFound(h: Text, data: Text)
    requires NEWLINE !in h
    ensures var text := [MARK] + (h + ([NEWLINE] + data));
            var nl := IndexOf(text, NEWLINE);
            nl == |h| + 1 < |text| && text[1..nl] == h && text[nl + 1..] == data
  {
    var text := [MARK] + (h + ([NEWLINE] + data));
    Regroup([MARK], h, [NEWLINE] + data);
    IndexOfSplit([MARK] + h, NEWLINE, data);
    assert text[1..|h| + 1] == h && text[|h| + 2..] == data;
  }

  lemma ParsesAs(text: Text, nl: nat, id: Text, second: Text, third: Text, index: nat, count: nat, num: Numbers)
    requires IsChunk(text) && nl == IndexOf(text, NEWLINE) && 0 < nl < |text|
    requires Fields(text[1..nl]) == [id, second, third] && id != []
    requires num(second) == Some(index) && num(third) == Some(count) && index < count
    ensures Parse(text, num) == Some(Chunk(id, index, count, text[nl + 1..]))
  {
  }

  lemma FrameHeader(id: nat, index: nat, count: nat, data: Text)
    ensures var text := ChunkFrame(id, index, count, data);
            var nl := IndexOf(text, NEWLINE);
            && IsChunk(text) && 0 < nl < |text| && text[nl + 1..] == data
            && Fields(text[1..nl]) == [Digits(id), Digits(index), Digits(count)]
  {
    HeaderFields(id, index, count);
    BodyFound(Header(id, index, count), data);
  }

  lemma ParsesBack(id: nat, index: nat, count: nat, data: Text, num: Numbers)
    requires index < count && ReadsDigits(num, count)
    ensures IsChunk(ChunkFrame(id, index, count, data))
    ensures Parse(ChunkFrame(id, index, count, data), num) == Some(Chunk(Digits(id), index, count, data))
  {
    var text := ChunkFrame(id, index, count, data);
    FrameHeader(id, index, count, data);
    ParsesAs(text, IndexOf(text, NEWLINE), Digits(id), Digits(index), Digits(count), index, count, num);
  }

  predicate Plain(t: Text) {
    SPACE !in t && NEWLINE !in t
  }

  function Spaced(first: Text, second: Text, third: Text): Text {
    first + ([SPACE] + (second + ([SPACE] + third)))
  }

  lemma SpacedFields(first: Text, second: Text, third: Text)
    requires Plain(first) && Plain(second) && Plain(third)
    ensures Fields(Spaced(first, second, third)) == [first, second, third]
  {
    FieldsStep(first, second + ([SPACE] + third));
    FieldsStep(second, third);
    IndexOfNone(third, SPACE);
  }

  lemma SpacedUnbroken(first: Text, second: Text, third: Text)
    requires Plain(first) && Plain(second) && Plain(third)
    ensures NEWLINE !in Spaced(first, second, third)
  {
  }

  /** A chunk's header is valid exactly with an id and an index below the count. */
  lemma ParsesExactly(first: Text, second: Text, third: Text, data: Text, num: Numbers)
    requires Plain(first) && Plain(second) && Plain(third)
    ensures var text := [MARK] + (Spaced(first, second, third) + ([NEWLINE] + data));
            if first != [] && num(second).Some? && num(third).Some? && 0 <= num(second).value < num(third).value
            then Parse(text, num) == Some(Chunk(first, num(second).value, num(third).value, data))
            else Parse(text, num).None?
  {
    SpacedFields(first, second, third);
    SpacedUnbroken(first, second, third);
    BodyFound(Spaced(first, second, third), data);
  }

  /** Without a header line there is no chunk, and an invalid frame leaves the progress alone. */
  lemma InvalidLeaves(s: Progress, text: Text, num: Numbers)
    requires IsChunk(text)
    ensures NEWLINE !in text ==> Parse(text, num).None?
    ensures Parse(text, num).None? ==> Pushed(s, text, num) == (s, Invalid)
  {
    if NEWLINE !in text {
      IndexOfNone(text, NEWLINE);
    }
  }

  /** A later chunk that is not the next one of the message in progress drops that message. */
  lemma OutOfStepDrops(s: Progress, text: Text, num: Numbers)
    requires IsChunk(text) && Parse(text, num).Some?
    ensures var c := Parse(text, num).value;
            c.index > 0 && !(s.id == Some(c.id) && c.index == |s.parts| && c.count == s.count) ==>
              Pushed(s, text, num) == (IDLE, Invalid)
  {
  }

  // -------------------------------------------------------------------------
  // The frames a text goes out as

  /** What the frames hold of the text. */
  function DataOf(frames: seq<Text>, num: Numbers): seq<Text>
    requires forall f <- frames :: IsChunk(f)
  {
    seq(|frames|, k requires 0 <= k < |frames| =>
          match Parse(frames[k], num)
          case None => []
          case Some(c) => c.data)
  }

  /** No piece but the last is more than one unit short of the budget, and that only to keep a pair whole. */
  lemma {:induction false} PiecesFull(json: Text, at: nat, maxChars: nat, k: nat)
    requires at <= |json| && maxChars >= 2 && k < |Pieces(json, at, maxChars)| - 1
    ensures var pieces := Pieces(json, at, maxChars);
            var end := at + StartOf(pieces, k + 1);
            && end < |json| && maxChars - 1 <= |pieces[k]|
            && (|pieces[k]| == maxChars - 1 ==> IsHigh(json[end]))
    decreases k
  {
    var end, pieces := EndOf(json, at, maxChars), Pieces(json, at, maxChars);
    StartShifts(pieces, k + 1);
    assert pieces[1..] == Pieces(json, end, maxChars);
    if k > 0 {
      PiecesFull(json, end, maxChars, k - 1);
    } else {
      assert end < |json|;
    }
  }

  lemma SplitData(json: Text, id: nat, maxChars: nat, num: Numbers)
    requires 1 <= maxChars < |json| && ReadsDigits(num, |SplitFrames(json, id, maxChars)|)
    ensures var frames := SplitFrames(json, id, maxChars);
            && |frames| == |Pieces(json, 0, maxChars)|
            && (forall k :: 0 <= k < |frames| ==>
                  && IsChunk(frames[k])
                  && Parse(frames[k], num) == Some(Chunk(Digits(id), k, |frames|, Pieces(json, 0, maxChars)[k])))
            && DataOf(frames, num) == Pieces(json, 0, maxChars)
  {
    var pieces, frames := Pieces(json, 0, maxChars), SplitFrames(json, id, maxChars);
    forall k | 0 <= k < |frames|
      ensures IsChunk(frames[k]) && Parse(frames[k], num) == Some(Chunk(Digits(id), k, |frames|, pieces[k]))
    {
      ParsesBack(id, k, |pieces|, pieces[k], num);
    }
  }

  /** More than a budget makes more than one piece. */
  lemma SplitsInTwo(json: Text, maxChars: nat)
    requires 2 <= maxChars < |json|
    ensures |Pieces(json, 0, maxChars)| >= 2
  {
    assert EndOf(json, 0, maxChars) < |json|;
  }

  /** A text that fits goes out as it is, and no other does. */
  lemma OnlyFittingWhole(json: Text, id: nat, maxChars: nat)
    requires maxChars >= 2
    ensures SplitFrames(json, id, maxChars) == [json] <==> |json| <= maxChars
  {
    if |json| > maxChars {
      SplitsInTwo(json, maxChars);
    }
  }

  /**
   * Any other goes out as numbered chunks that hold it in order: each is within the
   * budget and all but the last use it up, to one unit, and none starts inside a pair.
   */
  lemma SplitSound(json: Text, id: nat, maxChars: nat, num: Numbers, k: nat)
    requires 2 <= maxChars < |json| && ReadsDigits(num, |SplitFrames(json, id, maxChars)|)
    requires k < |SplitFrames(json, id, maxChars)|
    ensures var frames := SplitFrames(json, id, maxChars);
            && (forall f <- frames :: IsChunk(f)) && Parse(frames[k], num).Some?
            && var c, data := Parse(frames[k], num).value, DataOf(frames, num);
               && c.id == Digits(id) && c.index == k && c.count == |frames| && c.data == data[k]
               && 0 < |data[k]| <= maxChars && (k < |frames| - 1 ==> |data[k]| >= maxChars - 1)
               && Flatten(data) == json && !CutsPair(json, StartOf(data, k))
  {
    SplitData(json, id, maxChars, num);
    PiecesSound(json, maxChars, k);
    if k < |Pieces(json, 0, maxChars)| - 1 {
      PiecesFull(json, 0, maxChars, k);
    }
  }

  // -------------------------------------------------------------------------
  // Round trip

  /** The frames the reassembler hands on, for the texts pushed one after another. */
  function Emitted(s: Progress, texts: seq<Text>, num: Numbers): seq<Text>
    decreases |texts|
  {
    if |texts| == 0 then []
    else
      var (next, r) := Pushed(s, texts[0], num);
      (if r.Frame? then [r.text] else []) + Emitted(next, texts[1..], num)
  }

  /** The progress once `k` of the pieces are in. */
  function Midway(pieces: seq<Text>, id: Text, k: nat): Progress
    requires k <= |pieces|
  {
    Progress(Some(id), |pieces|, pieces[..k])
  }

  function PieceOutcome(pieces: seq<Text>, id: Text, k: nat): (Progress, ChunkResult)
    requires k < |pieces|
  {
    if k + 1 < |pieces| then (Midway(pieces, id, k + 1), Partial(k + 1, |pieces|)) else (IDLE, Frame(Flatten(pieces)))
  }

  lemma AcceptPiece(s: Progress, pieces: seq<Text>, id: Text, k: nat)
    requires k < |pieces| && (k > 0 ==> s == Midway(pieces, id, k))
    ensures Accepted(s, Chunk(id, k, |pieces|, pieces[k])) == PieceOutcome(pieces, id, k)
  {
    assert pieces[..k] + [pieces[k]] == pieces[..k + 1];
    assert k + 1 == |pieces| ==> pieces[..k + 1] == pieces;
    assert pieces[..0] == [];
  }

  lemma PushPiece(s: Progress, pieces: seq<Text>, id: nat, k: nat, num: Numbers)
    requires ReadsDigits(num, |pieces|) && k < |pieces| && (k > 0 ==> s == Midway(pieces, Digits(id), k))
    ensures Pushed(s, ChunkFrame(id, k, |pieces|, pieces[k]), num) == PieceOutcome(pieces, Digits(id), k)
  {
    ParsesBack(id, k, |pieces|, pieces[k], num);
    AcceptPiece(s, pieces, Digits(id), k);
  }

  lemma FramesTail(pieces: seq<Text>, id: nat, k: nat, rest: seq<Text>)
    requires k < |pieces|
    ensures var texts := ChunkFrames(pieces, id)[k..] + rest;
            texts[0] == ChunkFrame(id, k, |pieces|, pieces[k]) && texts[1..] == ChunkFrames(pieces, id)[k + 1..] + rest
  {
  }

  lemma {:induction false} EmitsMessage(s: Progress, pieces: seq<Text>, id: nat, k: nat, rest: seq<Text>, num: Numbers)
    requires ReadsDigits(num, |pieces|) && k < |pieces| && (k > 0 ==> s == Midway(pieces, Digits(id), k))
    ensures Emitted(s, ChunkFrames(pieces, id)[k..] + rest, num) == [Flatten(pieces)] + Emitted(IDLE, rest, num)
    decreases |pieces| - k
  {
    var (next, r) := PieceOutcome(pieces, Digits(id), k);
    var more := ChunkFrames(pieces, id)[k + 1..] + rest;
    PushPiece(s, pieces, id, k, num);
    FramesTail(pieces, id, k, rest);
    if k + 1 < |pieces| {
      EmitsMessage(next, pieces, id, k + 1, rest, num);
    } else {
      assert more == rest;
    }
  }

  /** What the server puts on the socket for a list of texts. */
  function Wire(texts: seq<Text>, ids: seq<nat>, maxChars: nat): seq<Text>
    requires |ids| == |texts| && maxChars >= 1
    decreases |texts|
  {
    if |texts| == 0 then [] else SplitFrames(texts[0], ids[0], maxChars) + Wire(texts[1..], ids[1..], maxChars)
  }

  lemma EmitsSplit(s: Progress, text: Text, id: nat, maxChars: nat, rest: seq<Text>, num: Numbers)
    returns (after: Progress)
    requires maxChars >= 1 && ReadsDigits(num, |Pieces(text, 0, maxChars)|) && !IsChunk(text)
    ensures Emitted(s, SplitFrames(text, id, maxChars) + rest, num) == [text] + Emitted(after, rest, num)
  {
    if |text| <= maxChars {
      after := s;
      assert ([text] + rest)[0] == text && ([text] + rest)[1..] == rest;
    } else {
      after := IDLE;
      var pieces := Pieces(text, 0, maxChars);
      PiecesJoin(text, 0, maxChars);
      assert text[0..] == text;
      EmitsMessage(s, pieces, id, 0, rest, num);
      assert ChunkFrames(pieces, id)[0..] == ChunkFrames(pieces, id);
    }
  }

  /** `Number` reads back the chunk counts of these texts, and the positions below them. */
  ghost predicate ReadsCounts(num: Numbers, texts: seq<Text>, maxChars: nat)
    requires maxChars >= 1
  {
    forall k :: 0 <= k < |texts| ==> ReadsDigits(num, |Pieces(texts[k], 0, maxChars)|)
  }

  /** Whatever was in progress, the split texts come out whole and in order. */
  lemma {:induction false} WireRoundTrip(s: Progress, texts: seq<Text>, ids: seq<nat>, maxChars: nat, num: Numbers)
    requires |ids| == |texts| && maxChars >= 1 && ReadsCounts(num, texts, maxChars)
    requires forall k :: 0 <= k < |texts| ==> !IsChunk(texts[k])
    ensures Emitted(s, Wire(texts, ids, maxChars), num) == texts
    decreases |texts|
  {
    if |texts| > 0 {
      var rest := Wire(texts[1..], ids[1..], maxChars);
      var after := EmitsSplit(s, texts[0], ids[0], maxChars, rest, num);
      WireRoundTrip(after, texts[1..], ids[1..], maxChars, num);
    }
  }

  /** What arrives on the socket: the split texts' frames, and other frames between any two of them. */
  datatype Arrival = Sent(text: Text) | Other(text: Text)

  function SentOf(arrivals: seq<Arrival>): seq<Text> {
    if |arrivals| == 0 then [] else (if arrivals[0].Sent? then [arrivals[0].text] else []) + SentOf(arrivals[1..])
  }

  function OthersOf(arrivals: seq<Arrival>): seq<Text> {
    if |arrivals| == 0 then [] else (if arrivals[0].Other? then [arrivals[0].text] else []) + OthersOf(arrivals[1..])
  }

  /** What is handed on, marked with whether a split text's frame or another one brought it. */
  function Delivered(s: Progress, arrivals: seq<Arrival>, num: Numbers): seq<Arrival>
    decreases |arrivals|
  {
    if |arrivals| == 0 then []
    else
      var (next, r) := Pushed(s, arrivals[0].text, num);
      (if !r.Frame? then [] else if arrivals[0].Sent? then [Sent(r.text)] else [Other(r.text)]) +
          Delivered(next, arrivals[1..], num)
  }

  lemma {:induction false} DeliveredApart(s: Progress, arrivals: seq<Arrival>, num: Numbers)
    requires forall a <- arrivals :: a.Other? ==> !IsChunk(a.text)
    ensures SentOf(Delivered(s, arrivals, num)) == Emitted(s, SentOf(arrivals), num)
    ensures OthersOf(Delivered(s, arrivals, num)) == OthersOf(arrivals)
    decreases |arrivals|
  {
    if |arrivals| > 0 {
      var a, rest := arrivals[0], arrivals[1..];
      var (next, r) := Pushed(s, a.text, num);
      DeliveredApart(next, rest, num);
      var tail := Delivered(next, rest, num);
      assert SentOf(arrivals) == if a.Sent? then [a.text] + SentOf(rest) else SentOf(rest);
      assert a.Sent? ==> ([a.text] + SentOf(rest))[1..] == SentOf(rest);
      if r.Frame? {
        var d := if a.Sent? then Sent(r.text) else Other(r.text);
        assert Delivered(s, arrivals, num) == [d] + tail;
        assert ([d] + tail)[1..] == tail;
      } else {
        assert Delivered(s, arrivals, num) == tail;
      }
    }
  }

  /**
   * Splitting any texts and reassembling the frames gives back exactly the texts in
   * order, from any state and with other frames arriving anywhere in between; and
   * those pass through untouched.
   */
  lemma RoundTrip(s: Progress, texts: seq<Text>, ids: seq<nat>, maxChars: nat, num: Numbers, arrivals: seq<Arrival>)
    requires |ids| == |texts| && maxChars >= 1 && ReadsCounts(num, texts, maxChars)
    requires forall k :: 0 <= k < |texts| ==> !IsChunk(texts[k])
    requires SentOf(arrivals) == Wire(texts, ids, maxChars)
    requires forall a <- arrivals :: a.Other? ==> !IsChunk(a.text)
    ensures SentOf(Delivered(s, arrivals, num)) == texts
    ensures OthersOf(Delivered(s, arrivals, num)) == OthersOf(arrivals)
  {
    DeliveredApart(s, arrivals, num);
    WireRoundTrip(s, texts, ids, maxChars, num);
  }

  // -------------------------------------------------------------------------
  // Only whole messages

  function After(texts: seq<Text>, num: Numbers): Progress {
    if |texts| == 0 then IDLE else Pushed(After(texts[..|texts| - 1], num), texts[|texts| - 1], num).0
  }

  function ChunkIn(text: Text, num: Numbers): seq<Chunk> {
    if !IsChunk(text) then [] else match Parse(text, num) case None => [] case Some(c) => [c]
  }

  /** The well-formed chunks among the texts. */
  function Chunks(texts: seq<Text>, num: Numbers): seq<Chunk> {
    if |texts| == 0 then [] else Chunks(texts[..|texts| - 1], num) + ChunkIn(texts[|texts| - 1], num)
  }

  /** The last `n` chunks are the first `n` of one message of `count`. */
  predicate EndsWith(chunks: seq<Chunk>, id: Text, count: nat, parts: seq<Text>) {
    |parts| <= |chunks| && forall k :: 0 <= k < |parts| ==>
        chunks[|chunks| - |parts| + k] == Chunk(id, k, count, parts[k])
  }

  predicate InProgress(s: Progress, chunks: seq<Chunk>) {
    s == IDLE || (s.id.Some? && 0 < |s.parts| < s.count && EndsWith(chunks, s.id.value, s.count, s.parts))
  }

  /** `text` is the concatenation of the last chunks, which are all those of one message, in order. */
  ghost predicate IsWhole(chunks: seq<Chunk>, text: Text) {
    exists id, parts: seq<Text> :: |parts| >= 1 && EndsWith(chunks, id, |parts|, parts) && text == Flatten(parts)
  }

  lemma AcceptedWhole(s: Progress, c: Chunk, chunks: seq<Chunk>)
    requires InProgress(s, chunks) && c.index < c.count
    ensures InProgress(Accepted(s, c).0, chunks + [c])
    ensures Accepted(s, c).1.Frame? ==> IsWhole(chunks + [c], Accepted(s, c).1.text)
  {
    var t := if c.index == 0 then Progress(Some(c.id), c.count, []) else s;
    var parts := t.parts + [c.data];
    if c.index == |t.parts| && c.count == t.count && t.id == Some(c.id) {
      var more := chunks + [c];
      assert EndsWith(more, c.id, c.count, parts);
    }
  }

  lemma {:induction false} AfterInProgress(texts: seq<Text>, num: Numbers)
    ensures InProgress(After(texts, num), Chunks(texts, num))
  {
    if |texts| > 0 {
      var before, text := texts[..|texts| - 1], texts[|texts| - 1];
      AfterInProgress(before, num);
      assert Chunks(before, num) + [] == Chunks(before, num);
      if IsChunk(text) && Parse(text, num).Some? {
        AcceptedWhole(After(before, num), Parse(text, num).value, Chunks(before, num));
      }
    }
  }

  /**
   * Whatever texts came before, a chunk makes the reassembler hand on a frame only
   * when the last chunks are 0 to count - 1 of one message, none missing and none
   * of another message, and the frame is their concatenation.
   */
  lemma OnlyWholeFrames(texts: seq<Text>, text: Text, num: Numbers)
    requires IsChunk(text) && Pushed(After(texts, num), text, num).1.Frame?
    ensures IsWhole(Chunks(texts + [text], num), Pushed(After(texts, num), text, num).1.text)
  {
    var all := texts + [text];
    assert all[..|all| - 1] == texts;
    AfterInProgress(texts, num);
    AcceptedWhole(After(texts, num), Parse(text, num).value, Chunks(texts, num));
  }

  /** A count reported on the way is that of the chunks of one message that came last, from its first on. */
  lemma PartialCounts(texts: seq<Text>, text: Text, num: Numbers)
    requires IsChunk(text) && Pushed(After(texts, num), text, num).1.Partial?
    ensures var r := Pushed(After(texts, num), text, num).1;
            exists id, parts: seq<Text> ::
              0 < |parts| == r.received < r.count && EndsWith(Chunks(texts + [text], num), id, r.count, parts)
  {
    var all := texts + [text];
    assert all[..|all| - 1] == texts;
    AfterInProgress(texts, num);
    AcceptedWhole(After(texts, num), Parse(text, num).value, Chunks(texts, num));
    var s := Pushed(After(texts, num), text, num).0;
    assert EndsWith(Chunks(all, num), s.id.value, s.count, s.parts);
  }
}
