/**
 * One resumable chunked upload of the client (`upload.v1` in client/src/client.ts):
 * the state a `PendingUpload` goes through, as functions of its value, and the class
 * whose methods update it in place. The protocol it takes part in is in
 * UploadProtocol.dfy.
 */
module Upload {
  import opened Options

  type Byte = b: int | 0 <= b < 256

  const WINDOW_MIN := 64 * 1024
  const WINDOW_MAX := 1024 * 1024
  const CHUNK_MAX := 256 * 1024

  /** Bytes sent and not yet acked. */
  datatype Chunk = Chunk(offset: nat, length: nat)

  /** A source read under way, with the alignment and socket it was started for. */
  datatype Read = Read(offset: nat, length: nat, gen: nat, socket: nat)

  datatype Frame = Begin | Data(offset: nat, payload: seq<Byte>) | Finish

  datatype Outcome = Pending | Completed | Failed

  datatype UploadState = UploadState(
    size: nat,
    sentOn: Option<nat>,
    awaitingBegin: bool,
    inFlight: seq<Chunk>,
    nextOffset: nat,
    acked: nat,
    realigning: bool,
    finishing: bool,
    reading: Option<Read>,
    readGen: nat,
    rate: Option<real>,
    outcome: Outcome)
  {
    predicate OnWire(ws: Option<nat>) {
      sentOn.Some? && sentOn == ws
    }
  }

  function Min(a: int, b: int): int {
    if a < b then a else b
  }

  function Max(a: int, b: int): int {
    if a < b then b else a
  }

  function Bytes(chunks: seq<Chunk>): nat {
    if chunks == [] then 0 else chunks[0].length + Bytes(chunks[1..])
  }

  /** The bytes allowed in flight: two seconds' worth at the measured rate, clamped. */
  function Window(rate: Option<real>): (w: int)
    ensures WINDOW_MIN <= w <= WINDOW_MAX
    ensures rate.None? ==> w == WINDOW_MIN
  {
    match rate
    case None => WINDOW_MIN
    case Some(r) => Min(WINDOW_MAX, Max(WINDOW_MIN, (r * 1000.0 * 2.0).Floor))
  }

  /** The moving average of the measured throughput. */
  function Blend(rate: Option<real>, sample: real): Option<real> {
    match rate
    case None => Some(sample)
    case Some(r) => Some(r * 0.7 + sample * 0.3)
  }

  function Fresh(size: nat): UploadState {
    UploadState(size, None, false, [], 0, 0, false, false, None, 0, None, Pending)
  }

  /** (Re)starting on socket `ws`: whatever was in flight is forgotten. */
  function Begun(u: UploadState, ws: nat): UploadState {
    u.(sentOn := Some(ws), awaitingBegin := true, inFlight := [], realigning := false, finishing := false,
       readGen := u.readGen + 1)
  }

  function LostSocket(u: UploadState): UploadState {
    u.(sentOn := None, awaitingBegin := false, inFlight := [], realigning := false, finishing := false,
       readGen := u.readGen + 1)
  }

  /** The server's offset `offset` answers the begin, or the oldest chunk in flight. */
  function Acked(u: UploadState, offset: nat, sample: real): UploadState
    requires u.awaitingBegin || u.inFlight != []
  {
    if u.awaitingBegin then
      u.(awaitingBegin := false, nextOffset := offset, acked := offset)
    else
      var chunk, rest := u.inFlight[0], u.inFlight[1..];
      if !u.realigning && offset == chunk.offset + chunk.length then
        u.(inFlight := rest, rate := Blend(u.rate, sample), acked := offset)
      else
        var gen := if u.realigning then u.readGen else u.readGen + 1;
        if rest == [] then
          u.(inFlight := rest, realigning := false, readGen := gen, nextOffset := offset, acked := offset)
        else
          u.(inFlight := rest, realigning := true, readGen := gen, acked := offset)
  }

  /** Nothing stands in the way of sending: not a read, an answer, a realignment or the finish. */
  predicate Idle(u: UploadState, ws: Option<nat>) {
    u.outcome.Pending? && u.reading.None? && !u.awaitingBegin && !u.realigning && !u.finishing && u.OnWire(ws)
  }

  function NextLength(u: UploadState): int {
    Min(Min(Window(u.rate), CHUNK_MAX), u.size - u.nextOffset)
  }

  /** The finish is sent once every byte is acked; else the next read starts if the window allows it. */
  function Pumped(u: UploadState, ws: Option<nat>, open: bool): (UploadState, seq<Frame>) {
    if !Idle(u, ws) then (u, [])
    else if u.acked == u.size && u.inFlight == [] then
      if open then (u.(finishing := true), [Finish]) else (u, [])
    else if u.nextOffset >= u.size || Bytes(u.inFlight) + NextLength(u) > Window(u.rate) then (u, [])
    else (u.(reading := Some(Read(u.nextOffset, NextLength(u), u.readGen, ws.value))), [])
  }

  /** `upload_offset` arrives. */
  function OffsetHandled(u: UploadState, ws: Option<nat>, open: bool, offset: int,
                         sample: real): (UploadState, seq<Frame>) {
    if !u.outcome.Pending? || !u.OnWire(ws) || offset < 0 || offset > u.size then (u, [])
    else if !u.awaitingBegin && u.inFlight == [] then (u, [])
    else Pumped(Acked(u, offset, sample), ws, open)
  }

  /** The read under way yields `bytes`. */
  function ReadHandled(u: UploadState, ws: Option<nat>, open: bool, bytes: seq<Byte>): (UploadState, seq<Frame>)
    requires u.reading.Some?
  {
    var read := u.reading.value;
    var v := u.(reading := None);
    if !u.outcome.Pending? then (u, [])
    else if read.gen != u.readGen || Some(read.socket) != ws || !u.OnWire(ws) then Pumped(v, ws, open)
    else if |bytes| != read.length then (v.(outcome := Failed), [])
    else if !open then (v, [])
    else
      var sent := v.(inFlight := u.inFlight + [Chunk(read.offset, read.length)],
                     nextOffset := read.offset + read.length);
      var (w, more) := Pumped(sent, ws, open);
      (w, [Data(read.offset, bytes)] + more)
  }

  class PendingUpload {
    const size: nat
    var sentOn: Option<nat>
    var awaitingBegin: bool
    var inFlight: seq<Chunk>
    var nextOffset: nat
    var acked: nat
    var realigning: bool
    var finishing: bool
    var reading: Option<Read>
    var readGen: nat
    var rate: Option<real>
    var outcome: Outcome

    ghost function State(): UploadState
      reads this
    {
      UploadState(size, sentOn, awaitingBegin, inFlight, nextOffset, acked, realigning, finishing, reading, readGen,
                  rate, outcome)
    }

    constructor (size: nat)
      ensures State() == Fresh(size)
    {
      this.size := size;
      sentOn, reading, rate := None, None, None;
      awaitingBegin, realigning, finishing := false, false, false;
      inFlight, nextOffset, acked, readGen := [], 0, 0, 0;
      outcome := Pending;
    }

    /** `beginChunkedUpload`: nothing changes unless the socket takes the frame. */
    method BeginChunked(ws: nat, open: bool) returns (sent: seq<Frame>)
      modifies this
      ensures State() == if open then Begun(old(State()), ws) else old(State())
      ensures sent == if open then [Begin] else []
    {
      if !open {
        return [];
      }
      sentOn := Some(ws);
      awaitingBegin := true;
      inFlight := [];
      realigning := false;
      finishing := false;
      readGen := readGen + 1;
      sent := [Begin];
    }

    /** `uploadsLostSocket`, for this upload. */
    method LoseSocket()
      modifies this
      ensures State() == LostSocket(old(State()))
    {
      sentOn := None;
      awaitingBegin := false;
      inFlight := [];
      realigning := false;
      finishing := false;
      readGen := readGen + 1;
    }

    method InFlightBytes() returns (n: nat)
      ensures n == Bytes(inFlight)
    {
      n := 0;
      for i := 0 to |inFlight|
        invariant n + Bytes(inFlight[i..]) == Bytes(inFlight)
      {
        n := n + inFlight[i].length;
        assert inFlight[i..][1..] == inFlight[i + 1..];
      }
    }

    /** `pumpUpload` */
    method Pump(ws: Option<nat>, open: bool) returns (sent: seq<Frame>)
      modifies this
      ensures (State(), sent) == Pumped(old(State()), ws, open)
    {
      sent := [];
      if outcome != Pending || reading.Some? || awaitingBegin || realigning || finishing {
        return;
      }
      if sentOn.None? || sentOn != ws {
        return;
      }
      if acked == size && |inFlight| == 0 {
        if !open {
          return;
        }
        finishing := true;
        return [Finish];
      }
      if nextOffset >= size {
        return;
      }
      var window := Window(rate);
      var length := Min(Min(window, CHUNK_MAX), size - nextOffset);
      var inFlightBytes := InFlightBytes();
      if inFlightBytes + length > window {
        return;
      }
      reading := Some(Read(nextOffset, length, readGen, ws.value));
    }

    /** `handleUploadOffset`, for an offset that is not a `done`. */
    method HandleOffset(ws: Option<nat>, open: bool, offset: int, sample: real) returns (sent: seq<Frame>)
      modifies this
      ensures (State(), sent) == OffsetHandled(old(State()), ws, open, offset, sample)
    {
      sent := [];
      if outcome != Pending || sentOn.None? || sentOn != ws {
        return;
      }
      if offset < 0 || offset > size {
        return;
      }
      if awaitingBegin {
        awaitingBegin := false;
        nextOffset := offset;
      } else {
        if |inFlight| == 0 {
          return;
        }
        var chunk := inFlight[0];
        inFlight := inFlight[1..];
        if !realigning && offset == chunk.offset + chunk.length {
          rate := if rate.None? then Some(sample) else Some(rate.value * 0.7 + sample * 0.3);
        } else if !realigning {
          realigning := true;
          readGen := readGen + 1;
        }
        if realigning && |inFlight| == 0 {
          realigning := false;
          nextOffset := offset;
        }
      }
      acked := offset;
      assert State() == Acked(old(State()), offset, sample);
      sent := Pump(ws, open);
    }

    /** The read's promise resolves with `bytes`. */
    method HandleRead(ws: Option<nat>, open: bool, bytes: seq<Byte>) returns (sent: seq<Frame>)
      requires reading.Some?
      modifies this
      ensures (State(), sent) == ReadHandled(old(State()), ws, open, bytes)
    {
      sent := [];
      if outcome != Pending {
        return;
      }
      var read := reading.value;
      reading := None;
      if read.gen != readGen || Some(read.socket) != ws || sentOn.None? || sentOn != ws {
        sent := Pump(ws, open);
        return;
      }
      if |bytes| != read.length {
        outcome := Failed;
        return;
      }
      if !open {
        return;
      }
      inFlight := inFlight + [Chunk(read.offset, read.length)];
      nextOffset := read.offset + read.length;
      var more := Pump(ws, open);
      sent := [Data(read.offset, bytes)] + more;
    }

    /** `completeUpload` (a `done` offset or `file_uploaded`). */
    method Complete()
      modifies this
      ensures State() == if old(outcome) == Pending then old(State()).(acked := size, outcome := Completed)
                         else old(State())
    {
      if outcome == Pending {
        acked := size;
        outcome := Completed;
      }
    }

    /** `failUpload` */
    method Fail()
      modifies this
      ensures State() == if old(outcome) == Pending then old(State()).(outcome := Failed) else old(State())
    {
      if outcome == Pending {
        outcome := Failed;
      }
    }
  }
}
