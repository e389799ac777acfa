/**
 * The chunked upload as a distributed protocol: one client upload, the server
 * staging its bytes, the socket between them, and the sockets already given up,
 * whose frames the server may still read (client/src/client.ts,
 * server/src/protocol.ts).
 */
module UploadProtocol {
  import opened Options
  import opened Upload

  /** What the server answers; `Refused` is `file_upload_error`. */
  datatype Reply = Offset(offset: int) | Done | Uploaded | Refused

  /** The staging area: it appends at its true offset only. */
  datatype Server = Server(staged: seq<Byte>, finished: bool)

  datatype System = System(
    upload: UploadState,
    ws: Option<nat>,       // the client's socket
    open: bool,            // it still takes frames
    sockets: nat,          // sockets opened so far
    toServer: seq<Frame>,
    toClient: seq<Reply>,
    stale: seq<seq<Frame>>,  // frames on the sockets lost before
    server: Server)

  datatype Event =
    | Connect
    | Start
    | Close
    | Lose
    | ServerReads
    | ServerReadsStale(socket: nat)
    | ClientReads(sample: real)
    | ReadDone
    | ReadShort(bytes: seq<Byte>)
    | Fail

  function Init(size: nat): System {
    System(Fresh(size), None, false, 0, [], [], [], Server([], false))
  }

  /** The server reads one frame: its new staging area and its answer. */
  function Serve(server: Server, f: Frame, size: nat): (Server, Reply) {
    match f
    case Begin => (server, if server.finished then Done else Offset(|server.staged|))
    case Data(offset, payload) =>
      if server.finished then (server, Done)
      else
        var staged := if offset == |server.staged| then server.staged + payload else server.staged;
        (server.(staged := staged), Offset(|staged|))
    case Finish =>
      if |server.staged| == size then (server.(finished := true), Uploaded) else (server, Refused)
  }

  function Receive(u: UploadState, r: Reply, ws: Option<nat>, open: bool, sample: real): (UploadState, seq<Frame>) {
    match r
    case Offset(offset) => OffsetHandled(u, ws, open, offset, sample)
    case Done => (if u.outcome.Pending? && u.OnWire(ws) then u.(acked := u.size, outcome := Completed) else u, [])
    case Uploaded => (if u.outcome.Pending? then u.(acked := u.size, outcome := Completed) else u, [])
    case Refused => (if u.outcome.Pending? then u.(outcome := Failed) else u, [])
  }

  predicate Enabled(s: System, e: Event) {
    match e
    case Connect => s.ws.None?
    case Start => s.ws.Some? && s.open && s.upload.outcome.Pending? && !s.upload.OnWire(s.ws)
    case Close => s.ws.Some?
    case Lose => s.ws.Some?
    case ServerReads => s.toServer != []
    case ServerReadsStale(i) => i < |s.stale| && s.stale[i] != []
    case ClientReads(_) => s.ws.Some? && s.toClient != []
    case ReadDone => s.upload.reading.Some?
    case ReadShort(bytes) => s.upload.reading.Some? && |bytes| != s.upload.reading.value.length
    case Fail => s.upload.outcome.Pending?
  }

  /** The bytes a read of the source yields. */
  function Slice(source: seq<Byte>, offset: nat, length: nat): seq<Byte> {
    if offset + length <= |source| then source[offset..offset + length] else []
  }

  function WithClient(s: System, next: (UploadState, seq<Frame>)): System {
    s.(upload := next.0, toServer := s.toServer + next.1)
  }

  function Step(s: System, e: Event, source: seq<Byte>): System
    requires Enabled(s, e)
  {
    match e
    case Connect => s.(ws := Some(s.sockets), open := true, sockets := s.sockets + 1, toServer := [], toClient := [])
    case Start => WithClient(s, (Begun(s.upload, s.ws.value), [Begin]))
    case Close => s.(open := false)
    case Lose =>
      s.(ws := None, open := false, upload := LostSocket(s.upload), stale := s.stale + [s.toServer], toServer := [],
         toClient := [])
    case ServerReads =>
      var (server, reply) := Serve(s.server, s.toServer[0], |source|);
      s.(server := server, toServer := s.toServer[1..], toClient := s.toClient + [reply])
    case ServerReadsStale(i) =>
      var (server, reply) := Serve(s.server, s.stale[i][0], |source|);
      s.(server := server, stale := s.stale[i := s.stale[i][1..]])
    case ClientReads(sample) =>
      WithClient(s.(toClient := s.toClient[1..]), Receive(s.upload, s.toClient[0], s.ws, s.open, sample))
    case ReadDone =>
      var read := s.upload.reading.value;
      WithClient(s, ReadHandled(s.upload, s.ws, s.open, Slice(source, read.offset, read.length)))
    case ReadShort(bytes) => WithClient(s, ReadHandled(s.upload, s.ws, s.open, bytes))
    case Fail => s.(upload := s.upload.(outcome := Failed))
  }

  // -------------------------------------------------------------------------
  // The invariant

  /** The chunks follow one another from `from` to `to`. */
  predicate Contiguous(chunks: seq<Chunk>, from: nat, to: nat) {
    if chunks == [] then from == to
    else chunks[0].offset == from && Contiguous(chunks[1..], from + chunks[0].length, to)
  }

  /** A read whose bytes will be sent if nothing changes before it is done. */
  predicate LiveRead(u: UploadState, ws: Option<nat>) {
    u.reading.Some? && u.reading.value.gen == u.readGen && Some(u.reading.value.socket) == ws && u.OnWire(ws)
  }

  predicate GoodRead(u: UploadState, ws: Option<nat>) {
    LiveRead(u, ws) ==>
      var read := u.reading.value;
      && 0 < read.length && read.offset == u.nextOffset && read.offset + read.length <= u.size
      && !u.awaitingBegin && !u.realigning && !u.finishing
      && Bytes(u.inFlight) + read.length <= WINDOW_MAX
      && (u.rate.None? ==> Bytes(u.inFlight) + read.length <= WINDOW_MIN)
  }

  /**
   * Chunks in flight are contiguous and end at `nextOffset` unless realigning; their
   * bytes are bounded; only a begin, chunks, or the finish await an answer at a time.
   */
  predicate Aligned(u: UploadState) {
    && u.nextOffset <= u.size && u.acked <= u.size
    && (forall c <- u.inFlight :: c.offset + c.length <= u.size)
    && (u.awaitingBegin ==> u.inFlight == [] && !u.realigning && !u.finishing)
    && (u.finishing ==> u.inFlight == [] && !u.realigning)
    && (u.realigning ==> u.inFlight != [])
    && (u.sentOn.Some? && !u.awaitingBegin && !u.realigning ==> Contiguous(u.inFlight, u.acked, u.nextOffset))
    && Bytes(u.inFlight) <= WINDOW_MAX
    && (u.rate.None? ==> Bytes(u.inFlight) <= WINDOW_MIN)
    && (u.reading.Some? ==> u.reading.value.gen <= u.readGen)
  }

  /** On an open socket something is always awaited: an answer, or a read. */
  predicate Moving(u: UploadState, ws: Option<nat>, open: bool) {
    open && u.OnWire(ws) && u.outcome.Pending? ==>
      u.awaitingBegin || u.inFlight != [] || u.finishing || u.reading.Some?
  }

  function DataFrames(chunks: seq<Chunk>, source: seq<Byte>): seq<Frame> {
    if chunks == [] then []
    else [Data(chunks[0].offset, Slice(source, chunks[0].offset, chunks[0].length))] + DataFrames(chunks[1..], source)
  }

  /** The frames of this socket the client awaits an answer to, oldest first. */
  function Outstanding(u: UploadState, source: seq<Byte>): seq<Frame> {
    (if u.awaitingBegin then [Begin] else []) + DataFrames(u.inFlight, source) + (if u.finishing then [Finish] else [])
  }

  predicate Answers(f: Frame, r: Reply) {
    if f.Finish? then r.Uploaded? else r.Offset? || r.Done?
  }

  /** Each awaited frame is either still on its way or answered, in order. */
  predicate Coupled(s: System, source: seq<Byte>) {
    s.upload.outcome.Pending? ==>
      if s.upload.OnWire(s.ws) then
        var awaited := Outstanding(s.upload, source);
        && |s.toClient| <= |awaited| && s.toServer == awaited[|s.toClient|..]
        && forall i :: 0 <= i < |s.toClient| ==> Answers(awaited[i], s.toClient[i])
      else s.upload.sentOn.None? && s.toServer == [] && s.toClient == []
           && !s.upload.awaitingBegin && s.upload.inFlight == [] && !s.upload.finishing
  }

  predicate GoodFrame(f: Frame, server: Server, source: seq<Byte>) {
    match f
    case Begin => true
    case Data(offset, payload) => offset + |payload| <= |source| && payload == source[offset..offset + |payload|]
    case Finish => server.staged == source
  }

  predicate GoodReply(r: Reply, server: Server) {
    match r
    case Offset(offset) => 0 <= offset <= |server.staged|
    case Done => server.finished
    case Uploaded => server.finished
    case Refused => false
  }

  /** The staged bytes are a prefix of the source, and nobody claims more than is staged. */
  predicate Safe(s: System, source: seq<Byte>) {
    && s.upload.size == |source|
    && s.server.staged <= source
    && (s.server.finished ==> s.server.staged == source)
    && (forall f <- s.toServer :: GoodFrame(f, s.server, source))
    && (forall i, f :: 0 <= i < |s.stale| && f in s.stale[i] ==> GoodFrame(f, s.server, source))
    && (forall r <- s.toClient :: GoodReply(r, s.server))
    && (s.upload.outcome.Pending? ==> s.upload.acked <= |s.server.staged|)
    && (s.upload.finishing ==> s.server.staged == source)
    && (s.upload.outcome.Completed? ==> s.server.finished)
  }

  predicate Inv(s: System, source: seq<Byte>) {
    && Safe(s, source)
    && (s.upload.outcome.Pending? ==> Aligned(s.upload) && GoodRead(s.upload, s.ws) && Moving(s.upload, s.ws, s.open))
    && Coupled(s, source)
    && (s.ws.None? ==> !s.open)
    && (s.upload.sentOn.Some? ==> s.upload.sentOn == s.ws)
  }

  // -------------------------------------------------------------------------
  // Small facts

  lemma BytesAppend(a: seq<Chunk>, c: Chunk)
    ensures Bytes(a + [c]) == Bytes(a) + c.length
  {
    if a != [] {
      assert (a + [c])[1..] == a[1..] + [c];
      BytesAppend(a[1..], c);
    }
  }

  lemma ContiguousAppend(a: seq<Chunk>, from: nat, to: nat, length: nat)
    requires Contiguous(a, from, to)
    ensures Contiguous(a + [Chunk(to, length)], from, to + length)
  {
    if a != [] {
      assert (a + [Chunk(to, length)])[1..] == a[1..] + [Chunk(to, length)];
      ContiguousAppend(a[1..], from + a[0].length, to, length);
    } else {
      assert (a + [Chunk(to, length)])[1..] == [];
    }
  }

  lemma DataFramesAppend(a: seq<Chunk>, c: Chunk, source: seq<Byte>)
    ensures DataFrames(a + [c], source) == DataFrames(a, source) + [Data(c.offset, Slice(source, c.offset, c.length))]
  {
    if a != [] {
      assert (a + [c])[1..] == a[1..] + [c];
      DataFramesAppend(a[1..], c, source);
    } else {
      assert (a + [c])[1..] == [];
    }
  }

  lemma DataFramesShape(chunks: seq<Chunk>, source: seq<Byte>)
    ensures |DataFrames(chunks, source)| == |chunks|
    ensures forall f <- DataFrames(chunks, source) :: f.Data?
  {
  }

  lemma ServeKeeps(server: Server, f: Frame, source: seq<Byte>)
    requires server.staged <= source && (server.finished ==> server.staged == source)
    requires GoodFrame(f, server, source)
    ensures var (server', reply) := Serve(server, f, |source|);
            && server.staged <= server'.staged <= source
            && (server'.finished ==> server'.staged == source) && (server.finished ==> server'.finished)
            && GoodReply(reply, server') && Answers(f, reply)
            && (forall g :: GoodFrame(g, server, source) ==> GoodFrame(g, server', source))
            && (forall r :: GoodReply(r, server) ==> GoodReply(r, server'))
  {
    if f.Data? && !server.finished && f.offset == |server.staged| {
      assert source[..f.offset] + source[f.offset..f.offset + |f.payload|] == source[..f.offset + |f.payload|];
    }
  }

  // -------------------------------------------------------------------------
  // What the client's own steps keep

  /** An answer takes the oldest awaited frame, and leaves the rest aligned. */
  lemma AckedKeeps(u: UploadState, ws: Option<nat>, offset: nat, sample: real, source: seq<Byte>)
    requires Aligned(u) && GoodRead(u, ws) && u.OnWire(ws)
    requires u.awaitingBegin || u.inFlight != []
    requires offset <= u.size
    ensures var v := Acked(u, offset, sample);
            && Aligned(v) && GoodRead(v, ws) && v.acked == offset && !v.finishing
            && Outstanding(v, source) == Outstanding(u, source)[1..]
            && !Outstanding(u, source)[0].Finish?
  {
    DataFramesShape(u.inFlight, source);
  }

  /** Pumping adds what it sends to the awaited frames, and leaves the upload moving. */
  lemma PumpedKeeps(u: UploadState, ws: Option<nat>, open: bool, source: seq<Byte>)
    requires Aligned(u) && GoodRead(u, ws) && (u.sentOn.Some? ==> u.OnWire(ws))
    ensures var (v, sent) := Pumped(u, ws, open);
            && Aligned(v) && GoodRead(v, ws) && Moving(v, ws, open)
            && Outstanding(v, source) == Outstanding(u, source) + sent
            && (forall f <- sent :: f == Finish && u.acked == u.size)
            && (v.finishing && !u.finishing ==> u.acked == u.size)
            && v.acked == u.acked && v.size == u.size && v.sentOn == u.sentOn && v.outcome == u.outcome
            && v.awaitingBegin == u.awaitingBegin && v.inFlight == u.inFlight
  {
  }

  /** The upload once the chunk just read is in flight. */
  function Sent(u: UploadState): UploadState
    requires u.reading.Some?
  {
    var read := u.reading.value;
    u.(reading := None, inFlight := u.inFlight + [Chunk(read.offset, read.length)],
       nextOffset := read.offset + read.length)
  }

  /** A read that is still wanted is sent and joins the chunks in flight. */
  lemma SentKeeps(u: UploadState, ws: Option<nat>, source: seq<Byte>)
    requires Aligned(u) && GoodRead(u, ws) && LiveRead(u, ws) && u.size == |source|
    ensures var read := u.reading.value;
            && Aligned(Sent(u)) && GoodRead(Sent(u), ws)
            && Outstanding(Sent(u), source) ==
               Outstanding(u, source) + [Data(read.offset, Slice(source, read.offset, read.length))]
  {
    var read := u.reading.value;
    BytesAppend(u.inFlight, Chunk(read.offset, read.length));
    ContiguousAppend(u.inFlight, u.acked, u.nextOffset, read.length);
    DataFramesAppend(u.inFlight, Chunk(read.offset, read.length), source);
  }

  /** What a finished read leaves, given the frames it sends. */
  predicate ReadResult(u: UploadState, ws: Option<nat>, open: bool, source: seq<Byte>, v: UploadState,
                       sent: seq<Frame>) {
    && v.size == u.size && v.sentOn == u.sentOn && v.acked == u.acked && !v.outcome.Completed?
    && (v.outcome.Pending? ==>
          && Aligned(v) && GoodRead(v, ws) && Moving(v, ws, open)
          && Outstanding(v, source) == Outstanding(u, source) + sent)
    && (forall f <- sent :: f.Data? ==>
        f.offset + |f.payload| <= |source| && f.payload == source[f.offset..f.offset + |f.payload|])
    && (Finish in sent || (v.finishing && !u.finishing) ==> u.acked == u.size)
    && (!u.OnWire(ws) ==> sent == [])
  }

  lemma StaleReadKeeps(u: UploadState, ws: Option<nat>, open: bool, bytes: seq<Byte>, source: seq<Byte>)
    requires u.outcome.Pending? && u.reading.Some? && !LiveRead(u, ws)
    requires Aligned(u) && (u.sentOn.Some? ==> u.OnWire(ws))
    ensures var (v, sent) := ReadHandled(u, ws, open, bytes); ReadResult(u, ws, open, source, v, sent)
  {
    PumpedKeeps(u.(reading := None), ws, open, source);
  }

  /** What pumping adds after a chunk was sent. */
  lemma SentAndPumped(u: UploadState, w: UploadState, data: Frame, ws: Option<nat>, source: seq<Byte>)
    requires u.outcome.Pending? && w.outcome.Pending? && Aligned(w) && GoodRead(w, ws) && w.OnWire(ws) && u.OnWire(ws)
    requires w.size == u.size && w.sentOn == u.sentOn && w.acked == u.acked && !w.finishing
    requires Outstanding(w, source) == Outstanding(u, source) + [data]
    requires data.Data? && data.offset + |data.payload| <= |source|
             && data.payload == source[data.offset..data.offset + |data.payload|]
    ensures var (v, more) := Pumped(w, ws, true); ReadResult(u, ws, true, source, v, [data] + more)
  {
    PumpedKeeps(w, ws, true, source);
    var more := Pumped(w, ws, true).1;
    assert Outstanding(u, source) + [data] + more == Outstanding(u, source) + ([data] + more);
  }

  lemma LiveReadSends(u: UploadState, ws: Option<nat>, bytes: seq<Byte>)
    requires u.outcome.Pending? && LiveRead(u, ws) && |bytes| == u.reading.value.length
    ensures var (v, more) := Pumped(Sent(u), ws, true);
            ReadHandled(u, ws, true, bytes) == (v, [Data(u.reading.value.offset, bytes)] + more)
  {
  }

  lemma LiveReadKeeps(u: UploadState, ws: Option<nat>, source: seq<Byte>)
    requires u.outcome.Pending? && LiveRead(u, ws) && u.size == |source|
    requires Aligned(u) && GoodRead(u, ws)
    ensures var read := u.reading.value;
            var (v, sent) := ReadHandled(u, ws, true, Slice(source, read.offset, read.length));
            ReadResult(u, ws, true, source, v, sent)
  {
    var read := u.reading.value;
    var bytes := Slice(source, read.offset, read.length);
    SentKeeps(u, ws, source);
    LiveReadSends(u, ws, bytes);
    SentAndPumped(u, Sent(u), Data(read.offset, bytes), ws, source);
  }

  /** A finished read keeps the upload aligned and moving, whether its bytes are sent or dropped. */
  lemma ReadKeeps(u: UploadState, ws: Option<nat>, open: bool, bytes: seq<Byte>, source: seq<Byte>)
    requires u.outcome.Pending? && u.reading.Some? && u.size == |source|
    requires Aligned(u) && GoodRead(u, ws) && (u.sentOn.Some? ==> u.OnWire(ws))
    requires bytes == Slice(source, u.reading.value.offset, u.reading.value.length) || |bytes| != u.reading.value.length
    ensures var (v, sent) := ReadHandled(u, ws, open, bytes); ReadResult(u, ws, open, source, v, sent)
  {
    if !LiveRead(u, ws) {
      StaleReadKeeps(u, ws, open, bytes, source);
    } else if |bytes| == u.reading.value.length {
      if open {
        LiveReadKeeps(u, ws, source);
      } else {
        var v := u.(reading := None);
        assert Aligned(v) && Outstanding(v, source) == Outstanding(u, source) + [];
      }
    }
  }

  // -------------------------------------------------------------------------
  // Every step keeps the invariant

  lemma InitInv(source: seq<Byte>)
    ensures Inv(Init(|source|), source)
  {
  }

  lemma SocketStepKeeps(s: System, e: Event, source: seq<Byte>)
    requires Inv(s, source) && Enabled(s, e)
    requires e.Connect? || e.Start? || e.Close? || e.Lose? || e.Fail?
    ensures Inv(Step(s, e, source), source)
  {
    if e.Start? {
      assert Outstanding(Begun(s.upload, s.ws.value), source) == [Begin];
    }
  }

  lemma ServerStepKeeps(s: System, source: seq<Byte>)
    requires Inv(s, source) && s.toServer != []
    ensures Inv(Step(s, ServerReads, source), source)
  {
    assert s.toServer[0] in s.toServer;
    ServeKeeps(s.server, s.toServer[0], source);
    var s' := Step(s, ServerReads, source);
    forall f | f in s'.toServer
      ensures GoodFrame(f, s'.server, source)
    {
      assert f in s.toServer;
    }
  }

  lemma StaleStepKeeps(s: System, i: nat, source: seq<Byte>)
    requires Inv(s, source) && i < |s.stale| && s.stale[i] != []
    ensures Inv(Step(s, ServerReadsStale(i), source), source)
  {
    assert s.stale[i][0] in s.stale[i];
    ServeKeeps(s.server, s.stale[i][0], source);
    var s' := Step(s, ServerReadsStale(i), source);
    forall j, f | 0 <= j < |s'.stale| && f in s'.stale[j]
      ensures GoodFrame(f, s'.server, source)
    {
      assert f in s.stale[j];
    }
  }

  /** The client consumes `answered` answers, becomes `v` and sends `sent`. */
  lemma ClientMoves(s: System, answered: nat, v: UploadState, sent: seq<Frame>, source: seq<Byte>)
    requires Inv(s, source) && s.upload.outcome.Pending? && answered <= |s.toClient|
    requires v.size == s.upload.size && v.sentOn == s.upload.sentOn && !v.outcome.Completed?
    requires v.outcome.Pending? ==> Aligned(v) && GoodRead(v, s.ws) && Moving(v, s.ws, s.open)
    requires answered <= |Outstanding(s.upload, source)|
    requires v.outcome.Pending? ==> Outstanding(v, source) == Outstanding(s.upload, source)[answered..] + sent
    requires !s.upload.OnWire(s.ws) ==> sent == []
    requires forall f <- sent :: GoodFrame(f, s.server, source)
    requires v.acked <= |s.server.staged| && (v.finishing ==> s.server.staged == source)
    ensures Inv(s.(upload := v, toServer := s.toServer + sent, toClient := s.toClient[answered..]), source)
  {
    var s' := s.(upload := v, toServer := s.toServer + sent, toClient := s.toClient[answered..]);
    assert Safe(s', source);
    if v.outcome.Pending? && v.OnWire(s.ws) {
      var awaited := Outstanding(s.upload, source);
      assert (awaited[answered..] + sent)[|s'.toClient|..] == awaited[|s.toClient|..] + sent;
      forall i | 0 <= i < |s'.toClient|
        ensures Answers(Outstanding(v, source)[i], s'.toClient[i])
      {
        assert Answers(awaited[i + answered], s.toClient[i + answered]);
      }
    }
  }

  lemma OffsetKeeps(u: UploadState, ws: Option<nat>, open: bool, offset: nat, sample: real, source: seq<Byte>)
    requires Aligned(u) && GoodRead(u, ws) && u.OnWire(ws) && u.outcome.Pending?
    requires u.awaitingBegin || u.inFlight != []
    requires offset <= u.size
    ensures var (v, sent) := OffsetHandled(u, ws, open, offset, sample);
            && v.size == u.size && v.sentOn == u.sentOn && v.outcome.Pending? && v.acked == offset
            && Aligned(v) && GoodRead(v, ws) && Moving(v, ws, open)
            && Outstanding(u, source) != []
            && Outstanding(v, source) == Outstanding(u, source)[1..] + sent
            && (forall f <- sent :: f == Finish && offset == u.size)
            && (v.finishing ==> offset == u.size)
  {
    AckedKeeps(u, ws, offset, sample, source);
    PumpedKeeps(Acked(u, offset, sample), ws, open, source);
  }

  lemma OffsetStepKeeps(s: System, sample: real, source: seq<Byte>)
    requires Inv(s, source) && s.upload.outcome.Pending? && s.toClient != [] && s.toClient[0].Offset?
    ensures Inv(Step(s, ClientReads(sample), source), source)
  {
    assert GoodReply(s.toClient[0], s.server);
    var offset: nat := s.toClient[0].offset;
    assert Answers(Outstanding(s.upload, source)[0], s.toClient[0]);
    OffsetKeeps(s.upload, s.ws, s.open, offset, sample, source);
    var (v, sent) := OffsetHandled(s.upload, s.ws, s.open, offset, sample);
    FinishGood(offset, sent, s.server, source);
    ClientMoves(s, 1, v, sent, source);
  }

  lemma FinishGood(acked: nat, sent: seq<Frame>, server: Server, source: seq<Byte>)
    requires server.staged <= source && acked <= |server.staged|
    ensures acked == |source| ==> server.staged == source
    ensures acked == |source| ==> GoodFrame(Finish, server, source)
  {
  }

  lemma ClientStepKeeps(s: System, sample: real, source: seq<Byte>)
    requires Inv(s, source) && Enabled(s, ClientReads(sample))
    ensures Inv(Step(s, ClientReads(sample), source), source)
  {
    assert s.toClient[0] in s.toClient;
    if s.upload.outcome.Pending? && s.toClient[0].Offset? {
      OffsetStepKeeps(s, sample, source);
    }
  }

  lemma ReadMoves(s: System, v: UploadState, sent: seq<Frame>, source: seq<Byte>)
    requires Inv(s, source) && s.upload.outcome.Pending? && ReadResult(s.upload, s.ws, s.open, source, v, sent)
    ensures Inv(s.(upload := v, toServer := s.toServer + sent), source)
  {
    FinishGood(s.upload.acked, sent, s.server, source);
    ClientMoves(s, 0, v, sent, source);
    assert s.toClient[0..] == s.toClient;
  }

  lemma ReadStepKeeps(s: System, e: Event, source: seq<Byte>)
    requires Inv(s, source) && Enabled(s, e) && (e.ReadDone? || e.ReadShort?)
    ensures Inv(Step(s, e, source), source)
  {
    if s.upload.outcome.Pending? {
      var read := s.upload.reading.value;
      var bytes := if e.ReadDone? then Slice(source, read.offset, read.length) else e.bytes;
      ReadKeeps(s.upload, s.ws, s.open, bytes, source);
      var (v, sent) := ReadHandled(s.upload, s.ws, s.open, bytes);
      ReadMoves(s, v, sent, source);
    }
  }

  lemma StepKeepsInv(s: System, e: Event, source: seq<Byte>)
    requires Inv(s, source) && Enabled(s, e)
    ensures Inv(Step(s, e, source), source)
  {
    match e
    case ServerReads => ServerStepKeeps(s, source);
    case ServerReadsStale(i) => StaleStepKeeps(s, i, source);
    case ClientReads(sample) => ClientStepKeeps(s, sample, source);
    case ReadDone => ReadStepKeeps(s, e, source);
    case ReadShort(_) => ReadStepKeeps(s, e, source);
    case _ => SocketStepKeeps(s, e, source);
  }

  // -------------------------------------------------------------------------
  // Over every run

  /** The state after a run of enabled events. */
  ghost predicate Runs(s: System, events: seq<Event>, s': System, source: seq<Byte>)
    decreases |events|
  {
    if events == [] then s' == s
    else Enabled(s, events[0]) && Runs(Step(s, events[0], source), events[1..], s', source)
  }

  lemma {:induction false} RunKeepsInv(s: System, events: seq<Event>, s': System, source: seq<Byte>)
    requires Inv(s, source) && Runs(s, events, s', source)
    ensures Inv(s', source)
    decreases |events|
  {
    if events != [] {
      StepKeepsInv(s, events[0], source);
      RunKeepsInv(Step(s, events[0], source), events[1..], s', source);
    }
  }

  /**
   * Whatever sockets are lost and whatever the server still reads from them: the
   * staged bytes are a prefix of the source; a finish is on its way only when the
   * whole source is staged; and a completed upload is one the server finished.
   */
  lemma StagedIsPrefix(source: seq<Byte>, events: seq<Event>, s: System)
    requires Runs(Init(|source|), events, s, source)
    ensures s.server.staged <= source
    ensures Finish in s.toServer ==> s.server.staged == source
    ensures forall queue <- s.stale :: Finish in queue ==> s.server.staged == source
    ensures s.server.finished || s.upload.outcome.Completed? ==> s.server.staged == source && s.server.finished
  {
    InitInv(source);
    RunKeepsInv(Init(|source|), events, s, source);
    forall queue | queue in s.stale && Finish in queue
      ensures s.server.staged == source
    {
      var i :| 0 <= i < |s.stale| && s.stale[i] == queue;
      assert GoodFrame(Finish, s.server, source);
    }
  }

  /** The server never has a reason to refuse the finish, so no run fails on its answer. */
  lemma NeverRefused(source: seq<Byte>, events: seq<Event>, s: System)
    requires Runs(Init(|source|), events, s, source)
    ensures Refused !in s.toClient
  {
    InitInv(source);
    RunKeepsInv(Init(|source|), events, s, source);
  }

  /**
   * On a live socket the chunks in flight are contiguous up to `nextOffset` unless
   * realigning, and never more than 1 MiB, or 64 KiB before an ack has been timed.
   */
  lemma WindowHeld(source: seq<Byte>, events: seq<Event>, s: System)
    requires Runs(Init(|source|), events, s, source)
    requires s.upload.outcome.Pending? && s.upload.OnWire(s.ws)
    ensures !s.upload.awaitingBegin && !s.upload.realigning ==>
            Contiguous(s.upload.inFlight, s.upload.acked, s.upload.nextOffset)
    ensures Bytes(s.upload.inFlight) <= 1024 * 1024
    ensures s.upload.rate.None? ==> Bytes(s.upload.inFlight) <= 64 * 1024
  {
    InitInv(source);
    RunKeepsInv(Init(|source|), events, s, source);
  }

  /**
   * The upload never deadlocks: on an open socket, while it is not done, either a
   * read is under way, or the server has a frame of it to read, or the client an
   * answer. With nothing in flight and nothing awaited, `nextOffset` is the server's offset.
   */
  lemma NeverStuck(source: seq<Byte>, events: seq<Event>, s: System)
    requires Runs(Init(|source|), events, s, source)
    requires s.upload.outcome.Pending? && s.upload.OnWire(s.ws) && s.open
    ensures s.upload.reading.Some? || s.toServer != [] || s.toClient != []
    ensures !s.upload.awaitingBegin && s.upload.inFlight == [] ==>
              s.upload.nextOffset == s.upload.acked && (s.upload.reading.Some? || s.upload.finishing)
  {
    InitInv(source);
    RunKeepsInv(Init(|source|), events, s, source);
    DataFramesShape(s.upload.inFlight, source);
  }
}
