/**
 * How fast an upload goes: the rate it measures, the window that allows, and that the
 * window is used (`uploadWindow` and `pumpUpload` in client/src/client.ts).
 */
module UploadPacing {
  import opened Options
  import opened Upload
  import opened UploadProtocol

  /** Two seconds' worth in whole bytes, but no less than 64 KiB and no more than 1 MiB. */
  lemma WindowIsTwoSeconds(perMs: real)
    ensures var w, worth := Window(Some(perMs)), 2000.0 * perMs;
            if worth < 65536.0 then w == 65536
            else if worth >= 1048576.0 then w == 1048576
            else w as real <= worth < w as real + 1.0
  {
    assert perMs * 1000.0 * 2.0 == 2000.0 * perMs;
  }

  /** A new measurement moves the rate three tenths of the way towards it. */
  lemma RateFollows(rate: real, sample: real)
    ensures Blend(None, sample) == Some(sample)
    ensures Blend(Some(rate), sample) == Some(rate + (sample - rate) * 0.3)
  {
    assert rate * 0.7 + sample * 0.3 == rate + (sample - rate) * 0.3;
  }

  predicate Between(rate: Option<real>, low: real, high: real) {
    rate.Some? ==> low <= rate.value <= high
  }

  lemma BlendBetween(rate: Option<real>, sample: real, low: real, high: real)
    requires Between(rate, low, high) && low <= sample <= high
    ensures Between(Blend(rate, sample), low, high)
  {
    if rate.Some? {
      RateFollows(rate.value, sample);
    }
  }

  predicate SamplesBetween(events: seq<Event>, low: real, high: real) {
    forall e <- events :: e.ClientReads? ==> low <= e.sample <= high
  }

  lemma StepKeepsRate(s: System, e: Event, source: seq<Byte>, low: real, high: real)
    requires Enabled(s, e) && Between(s.upload.rate, low, high) && (e.ClientReads? ==> low <= e.sample <= high)
    ensures Between(Step(s, e, source).upload.rate, low, high)
  {
    if e.ClientReads? {
      BlendBetween(s.upload.rate, e.sample, low, high);
    }
  }

  /** Over every run the rate stays within what was measured. */
  lemma {:induction false} RateWithinMeasured(s: System, events: seq<Event>, s': System, source: seq<Byte>, low: real,
                                              high: real)
    requires Runs(s, events, s', source) && SamplesBetween(events, low, high) && Between(s.upload.rate, low, high)
    ensures Between(s'.upload.rate, low, high)
    decreases |events|
  {
    if events != [] {
      assert events[0] in events && forall e <- events[1..] :: e in events;
      StepKeepsRate(s, events[0], source, low, high);
      RateWithinMeasured(Step(s, events[0], source), events[1..], s', source, low, high);
    }
  }

  /** The answer to the oldest chunk in flight: the server has all of it. */
  predicate InStep(s: System) {
    && s.upload.outcome.Pending? && s.upload.OnWire(s.ws) && !s.upload.awaitingBegin && !s.upload.realigning
    && s.upload.inFlight != [] && s.toClient != []
    && s.toClient[0] == Offset(s.upload.inFlight[0].offset + s.upload.inFlight[0].length)
    && s.upload.inFlight[0].offset + s.upload.inFlight[0].length <= s.upload.size
  }

  /** Exactly such answers are measured, and nothing else changes the rate. */
  lemma MeasuresExactly(s: System, e: Event, source: seq<Byte>)
    requires Enabled(s, e)
    ensures Step(s, e, source).upload.rate ==
            if e.ClientReads? && InStep(s) then Blend(s.upload.rate, e.sample) else s.upload.rate
  {
    match e
    case ClientReads(sample) => AnswerMeasures(s, sample);
    case ReadDone =>
      var read := s.upload.reading.value;
      ReadKeepsRate(s.upload, s.ws, s.open, Slice(source, read.offset, read.length));
    case ReadShort(bytes) => ReadKeepsRate(s.upload, s.ws, s.open, bytes);
    case _ =>
  }

  lemma AnswerMeasures(s: System, sample: real)
    requires s.toClient != []
    ensures Receive(s.upload, s.toClient[0], s.ws, s.open, sample).0.rate ==
            if InStep(s) then Blend(s.upload.rate, sample) else s.upload.rate
  {
  }

  lemma ReadKeepsRate(u: UploadState, ws: Option<nat>, open: bool, bytes: seq<Byte>)
    requires u.reading.Some?
    ensures ReadHandled(u, ws, open, bytes).0.rate == u.rate
  {
  }

  // -------------------------------------------------------------------------
  // Chunks

  /** The next chunk: as much as is left of the source, a quarter of a MiB, and the window allow. */
  function FullLength(u: UploadState): int {
    var most := if Window(u.rate) < 262144 then Window(u.rate) else 262144;
    if u.size - u.nextOffset < most then u.size - u.nextOffset else most
  }

  /** Nothing in flight or being read is empty, or longer than a chunk may be. */
  predicate ChunksSized(u: UploadState) {
    && (forall c <- u.inFlight :: 0 < c.length <= 262144)
    && (u.reading.Some? ==> 0 < u.reading.value.length <= 262144)
  }

  /** Nothing to wait for but the server: the finish is not due, and no further chunk fits the window. */
  predicate Saturated(s: System) {
    var u := s.upload;
    s.open && u.outcome.Pending? && u.OnWire(s.ws) && u.reading.None? && !u.awaitingBegin && !u.realigning
        && !u.finishing ==>
      && !(u.acked == u.size && u.inFlight == [])
      && (u.nextOffset >= u.size || Bytes(u.inFlight) + FullLength(u) > Window(u.rate))
  }

  lemma PumpedPaces(u: UploadState, ws: Option<nat>, open: bool)
    ensures var v := Pumped(u, ws, open).0;
            && (ChunksSized(u) ==> ChunksSized(v))
            && (open && v.outcome.Pending? && v.OnWire(ws) && v.reading.None? && !v.awaitingBegin && !v.realigning
                && !v.finishing ==>
                  && !(v.acked == v.size && v.inFlight == [])
                  && (v.nextOffset >= v.size || Bytes(v.inFlight) + FullLength(v) > Window(v.rate)))
  {
  }

  lemma AckedSized(u: UploadState, offset: nat, sample: real)
    requires ChunksSized(u) && (u.awaitingBegin || u.inFlight != [])
    ensures ChunksSized(Acked(u, offset, sample)) && Acked(u, offset, sample).reading == u.reading
  {
    assert u.inFlight != [] ==> forall c <- u.inFlight[1..] :: c in u.inFlight;
  }

  lemma ReceivePaces(s: System, r: Reply, sample: real)
    requires ChunksSized(s.upload) && Saturated(s)
    ensures ChunksSized(Receive(s.upload, r, s.ws, s.open, sample).0)
    ensures Saturated(s.(upload := Receive(s.upload, r, s.ws, s.open, sample).0))
  {
    var u := s.upload;
    if r.Offset? && u.outcome.Pending? && u.OnWire(s.ws) && 0 <= r.offset <= u.size
       && (u.awaitingBegin || u.inFlight != [])
    {
      AckedSized(u, r.offset, sample);
      PumpedPaces(Acked(u, r.offset, sample), s.ws, s.open);
    }
  }

  lemma ReadPaces(s: System, bytes: seq<Byte>)
    requires ChunksSized(s.upload) && Saturated(s) && s.upload.reading.Some?
    ensures ChunksSized(ReadHandled(s.upload, s.ws, s.open, bytes).0)
    ensures Saturated(s.(upload := ReadHandled(s.upload, s.ws, s.open, bytes).0))
  {
    var u, read := s.upload, s.upload.reading.value;
    var v := u.(reading := None);
    var sent := v.(inFlight := u.inFlight + [Chunk(read.offset, read.length)], nextOffset := read.offset + read.length);
    assert ChunksSized(sent);
    PumpedPaces(v, s.ws, s.open);
    PumpedPaces(sent, s.ws, s.open);
  }

  lemma StepPaces(s: System, e: Event, source: seq<Byte>)
    requires Inv(s, source) && Enabled(s, e) && ChunksSized(s.upload) && Saturated(s)
    ensures ChunksSized(Step(s, e, source).upload) && Saturated(Step(s, e, source))
  {
    match e
    case ClientReads(sample) => ReceivePaces(s, s.toClient[0], sample);
    case ReadDone => ReadPaces(s, Slice(source, s.upload.reading.value.offset, s.upload.reading.value.length));
    case ReadShort(bytes) => ReadPaces(s, bytes);
    case _ =>
  }

  lemma {:induction false} RunPaces(s: System, events: seq<Event>, s': System, source: seq<Byte>)
    requires Inv(s, source) && Runs(s, events, s', source) && ChunksSized(s.upload) && Saturated(s)
    ensures ChunksSized(s'.upload) && Saturated(s')
    decreases |events|
  {
    if events != [] {
      StepKeepsInv(s, events[0], source);
      StepPaces(s, events[0], source);
      RunPaces(Step(s, events[0], source), events[1..], s', source);
    }
  }

  /**
   * After any run, every chunk in flight or being read has between 1 byte and 256 KiB;
   * and when nothing is being read, nothing but the end of the source or the window
   * keeps the next chunk back.
   */
  lemma WindowIsUsed(source: seq<Byte>, events: seq<Event>, s: System)
    requires Runs(Init(|source|), events, s, source)
    ensures ChunksSized(s.upload) && Saturated(s)
  {
    InitInv(source);
    RunPaces(Init(|source|), events, s, source);
  }

  predicate ReadsNext(u: UploadState, was: Option<Read>, ws: Option<nat>) {
    u.reading.Some? && u.reading != was ==>
      && u.OnWire(ws) && u.reading.value.offset == u.nextOffset && u.reading.value.length == FullLength(u)
      && u.reading.value.gen == u.readGen && Some(u.reading.value.socket) == ws
  }

  lemma PumpedReads(u: UploadState, ws: Option<nat>, open: bool, was: Option<Read>)
    requires u.reading.None? || u.reading == was
    ensures ReadsNext(Pumped(u, ws, open).0, was, ws)
  {
  }

  lemma AckedReads(u: UploadState, offset: nat, sample: real)
    requires u.awaitingBegin || u.inFlight != []
    ensures Acked(u, offset, sample).reading == u.reading
  {
  }

  lemma ReceiveReads(s: System, r: Reply, sample: real)
    ensures ReadsNext(Receive(s.upload, r, s.ws, s.open, sample).0, s.upload.reading, s.ws)
  {
    var u := s.upload;
    if r.Offset? && u.outcome.Pending? && u.OnWire(s.ws) && 0 <= r.offset <= u.size
       && (u.awaitingBegin || u.inFlight != [])
    {
      AckedReads(u, r.offset, sample);
      PumpedReads(Acked(u, r.offset, sample), s.ws, s.open, u.reading);
    }
  }

  lemma DoneReads(s: System, bytes: seq<Byte>)
    requires s.upload.reading.Some?
    ensures ReadsNext(ReadHandled(s.upload, s.ws, s.open, bytes).0, s.upload.reading, s.ws)
  {
    var u, read := s.upload, s.upload.reading.value;
    var v := u.(reading := None);
    var sent := v.(inFlight := u.inFlight + [Chunk(read.offset, read.length)], nextOffset := read.offset + read.length);
    PumpedReads(v, s.ws, s.open, u.reading);
    PumpedReads(sent, s.ws, s.open, u.reading);
  }

  /** A read that a step starts is of exactly the next chunk, for the socket and the alignment of that moment. */
  lemma ReadIsNextChunk(s: System, e: Event, source: seq<Byte>)
    requires Enabled(s, e)
    ensures ReadsNext(Step(s, e, source).upload, s.upload.reading, s.ws)
  {
    match e
    case ClientReads(sample) => ReceiveReads(s, s.toClient[0], sample);
    case ReadDone => DoneReads(s, Slice(source, s.upload.reading.value.offset, s.upload.reading.value.length));
    case ReadShort(bytes) => DoneReads(s, bytes);
    case _ =>
  }

  /** The upload is finishing only from a step on that sends the finish. */
  lemma FinishIsSent(s: System, e: Event, source: seq<Byte>)
    requires Enabled(s, e) && !s.upload.finishing && Step(s, e, source).upload.finishing
    ensures s.open && Step(s, e, source).toServer != []
    ensures var sent := Step(s, e, source).toServer; sent[|sent| - 1] == Finish
  {
  }
}
