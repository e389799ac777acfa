/**
 * An upload comes to its end: from any reachable state, with nothing lost, closed or
 * failed any more and no frame read from a socket given up, only so many steps are
 * left, and a run that cannot go on has completed the upload.
 */
module UploadEnds {
  import opened Options
  import opened Sequences
  import opened Upload
  import opened UploadProtocol

  /** A step of an undisturbed transfer. */
  predicate Quiet(e: Event) {
    e.ServerReads? || e.ClientReads? || e.ReadDone?
  }

  /** The upload is on an open socket and not done. */
  predicate Transferring(s: System) {
    s.upload.outcome.Pending? && s.upload.OnWire(s.ws) && s.open
  }

  // -------------------------------------------------------------------------
  // How often the client may still have to realign

  /** Where the next chunk unanswered by the server starts. */
  function NextUnanswered(s: System): nat {
    if |s.toClient| < |s.upload.inFlight| then s.upload.inFlight[|s.toClient|].offset else s.upload.nextOffset
  }

  /** Every answer to come is the one the client expects. */
  predicate Synced(s: System) {
    && !s.upload.awaitingBegin && !s.upload.realigning
    && |s.toClient| <= |s.upload.inFlight|
    && (forall i :: 0 <= i < |s.toClient| ==>
          s.toClient[i].Done? || s.toClient[i] == Offset(s.upload.inFlight[i].offset + s.upload.inFlight[i].length))
    && (s.server.finished || NextUnanswered(s) == |s.server.staged|)
  }

  /** The last answer the client gets, or got, tells how much is staged now. */
  predicate Current(s: System) {
    if s.toClient == [] then s.upload.acked == |s.server.staged|
    else s.toClient[|s.toClient| - 1].Done? || s.toClient[|s.toClient| - 1] == Offset(|s.server.staged|)
  }

  function Rank(s: System): nat {
    if s.upload.finishing || Synced(s) then 0
    else if s.toServer != [] || Current(s) then 1
    else if !s.upload.awaitingBegin && s.upload.inFlight == [] then 2
    else 3
  }

  // -------------------------------------------------------------------------
  // The steps left

  /** What the frames, answers and the read on their way are worth. */
  function Load(s: System): nat {
    var u := s.upload;
    4 * |s.toServer| + 2 * |s.toClient| + (if u.finishing then 0 else 8)
    + if u.reading.None? then 0 else if LiveRead(u, s.ws) then 1 else 2
  }

  function Budget(s: System): int {
    Rank(s) * (16 * s.upload.size + 16) + 16 * (s.upload.size - s.upload.nextOffset) + Load(s)
  }

  lemma BudgetFalls(s: System, t: System)
    requires t.upload.size == s.upload.size
    requires s.upload.nextOffset <= s.upload.size && t.upload.nextOffset <= t.upload.size
    requires Load(t) < Load(s) + 16
    requires || Rank(t) < Rank(s)
             || (Rank(t) == Rank(s) && t.upload.nextOffset > s.upload.nextOffset)
             || (Rank(t) == Rank(s) && t.upload.nextOffset == s.upload.nextOffset && Load(t) < Load(s))
    ensures Budget(t) < Budget(s)
  {
    var size := s.upload.size;
    if Rank(t) < Rank(s) {
      assert Rank(t) * (16 * size + 16) + (16 * size + 16) <= Rank(s) * (16 * size + 16);
    } else {
      assert Rank(t) * (16 * size + 16) == Rank(s) * (16 * size + 16);
    }
  }

  // -------------------------------------------------------------------------
  // The server reads a frame

  lemma {:induction false} ContiguousAt(chunks: seq<Chunk>, from: nat, to: nat, k: nat)
    requires Contiguous(chunks, from, to) && k < |chunks|
    ensures chunks[k].offset + chunks[k].length == if k + 1 < |chunks| then chunks[k + 1].offset else to
    decreases k
  {
    if k > 0 {
      ContiguousAt(chunks[1..], from + chunks[0].length, to, k - 1);
    } else if |chunks| > 1 {
      assert chunks[1..][0] == chunks[1];
    }
  }

  lemma {:induction false} DataFrameAt(chunks: seq<Chunk>, source: seq<Byte>, k: nat)
    requires k < |chunks|
    ensures |DataFrames(chunks, source)| == |chunks|
    ensures DataFrames(chunks, source)[k] == Data(chunks[k].offset, Slice(source, chunks[k].offset, chunks[k].length))
    decreases |chunks|
  {
    DataFramesShape(chunks, source);
    if k > 0 {
      DataFrameAt(chunks[1..], source, k - 1);
    }
  }

  /** The frame read next, when chunks are in flight. */
  lemma NextFrame(s: System, source: seq<Byte>)
    requires Inv(s, source) && Transferring(s) && s.toServer != [] && !s.upload.awaitingBegin && !s.upload.finishing
    ensures var k := |s.toClient|;
            k < |s.upload.inFlight|
            && var c := s.upload.inFlight[k];
               s.toServer[0].Data? && s.toServer[0].offset == c.offset && |s.toServer[0].payload| == c.length
  {
    var awaited := Outstanding(s.upload, source);
    DataFramesShape(s.upload.inFlight, source);
    assert awaited == DataFrames(s.upload.inFlight, source);
    assert s.toServer[0] == awaited[|s.toClient|];
    DataFrameAt(s.upload.inFlight, source, |s.toClient|);
    assert s.upload.inFlight[|s.toClient|] in s.upload.inFlight;
  }

  /** What the server answers to the next chunk when it is in step. */
  lemma AnswersNext(s: System, source: seq<Byte>)
    requires Inv(s, source) && Transferring(s) && s.toServer != [] && !s.upload.finishing && Synced(s)
    ensures |s.toClient| < |s.upload.inFlight|
    ensures var (server, reply) := Serve(s.server, s.toServer[0], |source|);
            var c := s.upload.inFlight[|s.toClient|];
            if s.server.finished then server.finished && reply == Done
            else reply == Offset(c.offset + c.length) && |server.staged| == c.offset + c.length
  {
    NextFrame(s, source);
  }

  lemma ServedStaysSynced(s: System, source: seq<Byte>)
    requires Inv(s, source) && Transferring(s) && s.toServer != [] && !s.upload.finishing && Synced(s)
    ensures Synced(Step(s, ServerReads, source))
  {
    AnswersNext(s, source);
    ContiguousAt(s.upload.inFlight, s.upload.acked, s.upload.nextOffset, |s.toClient|);
    var t := Step(s, ServerReads, source);
    assert forall i :: 0 <= i < |s.toClient| ==> t.toClient[i] == s.toClient[i];
  }

  lemma ServedIsCurrent(s: System, source: seq<Byte>)
    requires Inv(s, source) && Transferring(s) && s.toServer != [] && !s.upload.finishing
    ensures Current(Step(s, ServerReads, source))
  {
    if s.upload.awaitingBegin {
      assert Outstanding(s.upload, source) == [Begin];
    } else {
      NextFrame(s, source);
    }
  }

  lemma ServerQuiet(s: System, source: seq<Byte>)
    requires Inv(s, source) && Transferring(s) && s.toServer != []
    ensures var t := Step(s, ServerReads, source); Transferring(t) && Budget(t) < Budget(s)
  {
    var t := Step(s, ServerReads, source);
    if !s.upload.finishing {
      ServedIsCurrent(s, source);
      if Synced(s) {
        ServedStaysSynced(s, source);
      }
    }
    BudgetFalls(s, t);
  }

  // -------------------------------------------------------------------------
  // The client reads an answer

  /** The answer is taken, and nothing sent yet. */
  function Taken(s: System, offset: nat, sample: real): System
    requires s.toClient != [] && (s.upload.awaitingBegin || s.upload.inFlight != [])
  {
    s.(upload := Acked(s.upload, offset, sample), toClient := s.toClient[1..])
  }

  /** What the next answer is about, when it is an offset. */
  lemma NextAnswer(s: System, source: seq<Byte>)
    requires Inv(s, source) && Transferring(s) && s.toClient != [] && s.toClient[0].Offset?
    ensures !s.upload.finishing && (s.upload.awaitingBegin || s.upload.inFlight != [])
    ensures 0 <= s.toClient[0].offset <= s.upload.size
    ensures |s.toClient| + |s.toServer| == if s.upload.awaitingBegin then 1 else |s.upload.inFlight|
  {
    DataFramesShape(s.upload.inFlight, source);
    assert Answers(Outstanding(s.upload, source)[0], s.toClient[0]);
    assert GoodReply(s.toClient[0], s.server);
  }

  lemma TakenStaysSynced(s: System, sample: real, source: seq<Byte>)
    requires Inv(s, source) && Transferring(s) && s.toClient != [] && s.toClient[0].Offset? && Synced(s)
    ensures s.upload.inFlight != [] && s.toClient[0].offset >= 0
    ensures var t := Taken(s, s.toClient[0].offset, sample); Synced(t) && t.upload.nextOffset == s.upload.nextOffset
  {
    NextAnswer(s, source);
    assert s.toClient[0] == Offset(s.upload.inFlight[0].offset + s.upload.inFlight[0].length);
    var t := Taken(s, s.toClient[0].offset, sample);
    assert forall i :: 0 <= i < |t.toClient| ==>
             t.toClient[i] == s.toClient[i + 1] && t.upload.inFlight[i] == s.upload.inFlight[i + 1];
  }

  /** Taking an answer never raises the rank, and lowers it when the client starts anew at another offset. */
  lemma TakenRank(s: System, sample: real, source: seq<Byte>)
    requires Inv(s, source) && Transferring(s) && s.toClient != [] && s.toClient[0].Offset?
    ensures s.toClient[0].offset >= 0 && (s.upload.awaitingBegin || s.upload.inFlight != [])
    ensures var t := Taken(s, s.toClient[0].offset, sample);
            Rank(t) <= Rank(s) && (t.upload.nextOffset != s.upload.nextOffset ==> Rank(t) < Rank(s))
  {
    NextAnswer(s, source);
    if Synced(s) {
      TakenStaysSynced(s, sample, source);
    }
  }

  /** Pumping starts a read or sends the finish. */
  lemma PumpedRank(s: System)
    requires Transferring(s)
    ensures var t := WithClient(s, Pumped(s.upload, s.ws, s.open));
            && Transferring(t) && t.upload.size == s.upload.size && t.upload.nextOffset == s.upload.nextOffset
            && Rank(t) <= Rank(s) && Load(t) <= Load(s) + (if s.upload.reading.None? then 1 else 0)
  {
    assert s.toServer + [] == s.toServer;
  }

  lemma TakenLoad(s: System, offset: nat, sample: real)
    requires s.toClient != [] && (s.upload.awaitingBegin || s.upload.inFlight != []) && !s.upload.finishing
    ensures Load(Taken(s, offset, sample)) <= Load(s) - if s.upload.reading.None? then 2 else 1
  {
  }

  lemma OffsetIs(s: System, sample: real, source: seq<Byte>)
    requires Inv(s, source) && Transferring(s) && s.toClient != [] && s.toClient[0].Offset?
    ensures s.toClient[0].offset >= 0 && (s.upload.awaitingBegin || s.upload.inFlight != [])
    ensures var m := Taken(s, s.toClient[0].offset, sample);
            Step(s, ClientReads(sample), source) == WithClient(m, Pumped(m.upload, m.ws, m.open)) && Transferring(m)
  {
    NextAnswer(s, source);
  }

  lemma OffsetQuiet(s: System, sample: real, source: seq<Byte>)
    requires Inv(s, source) && Transferring(s) && s.toClient != [] && s.toClient[0].Offset?
    ensures var t := Step(s, ClientReads(sample), source); Transferring(t) && Budget(t) < Budget(s)
  {
    OffsetIs(s, sample, source);
    NextAnswer(s, source);
    TakenRank(s, sample, source);
    TakenLoad(s, s.toClient[0].offset, sample);
    var m := Taken(s, s.toClient[0].offset, sample);
    PumpedRank(m);
    BudgetFalls(s, WithClient(m, Pumped(m.upload, m.ws, m.open)));
  }

  lemma ClientQuiet(s: System, sample: real, source: seq<Byte>)
    requires Inv(s, source) && Transferring(s) && s.toClient != []
    ensures var t := Step(s, ClientReads(sample), source);
            if s.toClient[0].Offset? then Transferring(t) && Budget(t) < Budget(s) else t.upload.outcome.Completed?
  {
    assert s.toClient[0] in s.toClient;
    if s.toClient[0].Offset? {
      OffsetQuiet(s, sample, source);
    }
  }

  // -------------------------------------------------------------------------
  // A read is done

  /** The chunk read is in flight. */
  function Shipped(s: System, source: seq<Byte>): System
    requires s.upload.reading.Some?
  {
    var read := s.upload.reading.value;
    s.(upload := Sent(s.upload), toServer := s.toServer + [Data(read.offset, Slice(source, read.offset, read.length))])
  }

  lemma ShippedRank(s: System, source: seq<Byte>)
    requires Inv(s, source) && Transferring(s) && LiveRead(s.upload, s.ws)
    ensures Rank(Shipped(s, source)) <= Rank(s)
  {
    var t := Shipped(s, source);
    if Synced(s) {
      assert forall i :: 0 <= i < |s.toClient| ==> t.upload.inFlight[i] == s.upload.inFlight[i];
      assert Synced(t);
    }
  }

  lemma LiveReadIs(s: System, source: seq<Byte>)
    requires Inv(s, source) && Transferring(s) && LiveRead(s.upload, s.ws)
    ensures var m := Shipped(s, source); Step(s, ReadDone, source) == WithClient(m, Pumped(m.upload, m.ws, m.open))
  {
    var read := s.upload.reading.value;
    var bytes := Slice(source, read.offset, read.length);
    var m := Shipped(s, source);
    LiveReadSends(s.upload, s.ws, bytes);
    Regroup(s.toServer, [Data(read.offset, bytes)], Pumped(m.upload, m.ws, m.open).1);
  }

  lemma LiveReadQuiet(s: System, source: seq<Byte>)
    requires Inv(s, source) && Transferring(s) && LiveRead(s.upload, s.ws)
    ensures var t := Step(s, ReadDone, source); Transferring(t) && Budget(t) < Budget(s)
  {
    var m := Shipped(s, source);
    LiveReadIs(s, source);
    ShippedRank(s, source);
    PumpedRank(m);
    assert Load(m) == Load(s) + 3;
    BudgetFalls(s, WithClient(m, Pumped(m.upload, m.ws, m.open)));
  }

  /** A read that is not wanted any more is dropped. */
  function WithoutRead(s: System): System {
    s.(upload := s.upload.(reading := None))
  }

  lemma StaleReadIs(s: System, source: seq<Byte>)
    requires Transferring(s) && s.upload.reading.Some? && !LiveRead(s.upload, s.ws)
    ensures var m := WithoutRead(s);
            && Step(s, ReadDone, source) == WithClient(m, Pumped(m.upload, m.ws, m.open))
            && Transferring(m) && Rank(m) == Rank(s) && Load(m) == Load(s) - 2
  {
  }

  lemma StaleReadQuiet(s: System, source: seq<Byte>)
    requires Inv(s, source) && Transferring(s) && s.upload.reading.Some? && !LiveRead(s.upload, s.ws)
    ensures var t := Step(s, ReadDone, source); Transferring(t) && Budget(t) < Budget(s)
  {
    var m := WithoutRead(s);
    StaleReadIs(s, source);
    PumpedRank(m);
    BudgetFalls(s, WithClient(m, Pumped(m.upload, m.ws, m.open)));
  }

  lemma ReadQuiet(s: System, source: seq<Byte>)
    requires Inv(s, source) && Transferring(s) && s.upload.reading.Some?
    ensures var t := Step(s, ReadDone, source); Transferring(t) && Budget(t) < Budget(s)
  {
    if LiveRead(s.upload, s.ws) {
      LiveReadQuiet(s, source);
    } else {
      StaleReadQuiet(s, source);
    }
  }

  // -------------------------------------------------------------------------
  // Over every undisturbed run

  /** While the upload is not done, nothing but the transfer goes on. */
  ghost predicate Undisturbed(s: System, events: seq<Event>, source: seq<Byte>)
    decreases |events|
  {
    events != [] && Enabled(s, events[0]) ==>
      Transferring(s) && Quiet(events[0]) && Undisturbed(Step(s, events[0], source), events[1..], source)
  }

  /** A step leads to a smaller budget, or to the end. */
  predicate Nearer(s: System, t: System) {
    if Transferring(t) then Budget(t) < Budget(s) else t.upload.outcome.Completed?
  }

  lemma QuietNearer(s: System, e: Event, source: seq<Byte>)
    requires Inv(s, source) && Transferring(s) && Quiet(e) && Enabled(s, e)
    ensures Nearer(s, Step(s, e, source))
  {
    match e
    case ServerReads => ServerQuiet(s, source);
    case ClientReads(sample) => ClientQuiet(s, sample, source);
    case ReadDone => ReadQuiet(s, source);
  }

  lemma QuietStep(s: System, e: Event, source: seq<Byte>)
    requires Inv(s, source) && Transferring(s) && Quiet(e) && Enabled(s, e)
    ensures Inv(Step(s, e, source), source) && Nearer(s, Step(s, e, source)) && Budget(s) > 0
  {
    StepKeepsInv(s, e, source);
    QuietNearer(s, e, source);
    BudgetPositive(s, e);
  }

  lemma BudgetPositive(s: System, e: Event)
    requires Transferring(s) && Quiet(e) && Enabled(s, e) && s.upload.nextOffset <= s.upload.size
    ensures Budget(s) > 0
  {
    assert Rank(s) * (16 * s.upload.size + 16) >= 0;
  }

  lemma {:induction false} BudgetBounds(s: System, events: seq<Event>, s': System, source: seq<Byte>)
    requires Inv(s, source) && Transferring(s) && Runs(s, events, s', source) && Undisturbed(s, events, source)
    ensures Inv(s', source) && |events| <= Budget(s)
    ensures Transferring(s') || s'.upload.outcome.Completed?
    decreases |events|
  {
    if events == [] {
      assert s.upload.nextOffset <= s.upload.size;
    } else {
      QuietStep(s, events[0], source);
      var t := Step(s, events[0], source);
      if Transferring(t) {
        BudgetBounds(t, events[1..], s', source);
      } else {
        assert events[1..] == [];
      }
    }
  }

  /** Something of the transfer can happen as long as it is not done. */
  lemma SomethingQuiet(s: System, source: seq<Byte>) returns (e: Event)
    requires Inv(s, source) && Transferring(s)
    ensures Quiet(e) && Enabled(s, e)
  {
    DataFramesShape(s.upload.inFlight, source);
    e := if s.toServer != [] then ServerReads else if s.toClient != [] then ClientReads(0.0) else ReadDone;
  }

  /**
   * After any run that leaves the upload on an open socket, an undisturbed run has at
   * most `Budget` steps; one that cannot go on has completed the upload, with the
   * whole source staged and finished at the server.
   */
  lemma UndisturbedCompletes(source: seq<Byte>, before: seq<Event>, s: System, events: seq<Event>, s': System)
    requires Runs(UploadProtocol.Init(|source|), before, s, source) && Transferring(s)
    requires Runs(s, events, s', source) && Undisturbed(s, events, source)
    ensures |events| <= Budget(s)
    ensures s'.upload.outcome.Completed? || exists e :: Quiet(e) && Enabled(s', e)
    ensures s'.upload.outcome.Completed? ==> s'.server.finished && s'.server.staged == source
  {
    InitInv(source);
    RunKeepsInv(UploadProtocol.Init(|source|), before, s, source);
    BudgetBounds(s, events, s', source);
    if Transferring(s') {
      var e := SomethingQuiet(s', source);
    }
  }

  /** And there is such a run from everywhere. */
  lemma {:induction false} CanComplete(s: System, source: seq<Byte>) returns (events: seq<Event>, s': System)
    requires Inv(s, source) && Transferring(s)
    ensures Runs(s, events, s', source) && Undisturbed(s, events, source) && s'.upload.outcome.Completed?
    decreases Budget(s)
  {
    var e := SomethingQuiet(s, source);
    QuietStep(s, e, source);
    var t := Step(s, e, source);
    if Transferring(t) {
      var more;
      more, s' := CanComplete(t, source);
      events := [e] + more;
      assert events[1..] == more;
    } else {
      events, s' := [e], t;
      assert events[1..] == [];
    }
  }
}
