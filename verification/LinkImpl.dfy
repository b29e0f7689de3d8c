/** Link as the object it is: fixed-size send and receive buffers updated in
    place, flags and queues updated by its handlers, and loops over a stream that
    takes and yields as many bytes as it likes. Every handler is proved equal to
    its function in LinkSpec. */
module LinkImpl {
  import opened Bytes
  import opened Frames
  import opened LinkSpec
  import opened LinkReading
  import LinkInvariants
  import Statistics

  /** The byte stream under a link. It takes and yields bytes in order and in pieces
      of its own choosing; it refuses only when it has no room, and yields nothing
      only when nothing has arrived. */
  class Stream {
    var incoming: seq<byte>  // bytes that have arrived and are not read yet
    var outgoing: seq<byte>  // bytes taken so far
    var room: nat            // bytes it will still take

    constructor (input: seq<byte>, space: nat)
      ensures incoming == input && outgoing == [] && room == space
    {
      incoming, outgoing, room := input, [], space;
    }

    method Read(space: nat) returns (chunk: seq<byte>)
      modifies this`incoming
      ensures |chunk| <= space && old(incoming) == chunk + incoming
      ensures chunk == [] ==> space == 0 || incoming == []
    {
      var most := if space < |incoming| then space else |incoming|;
      var k: nat :| k <= most && (k == 0 ==> most == 0) by { assert most <= most; }
      chunk := incoming[..k];
      incoming := incoming[k..];
    }

    method Write(data: seq<byte>) returns (n: nat)
      modifies this`outgoing, this`room
      ensures n <= |data| && outgoing == old(outgoing) + data[..n] && room + n == old(room)
      ensures n == 0 ==> data == [] || room == 0
    {
      var most := if room < |data| then room else |data|;
      n :| n <= most && (n == 0 ==> most == 0) by { assert most <= most; }
      outgoing := outgoing + data[..n];
      room := room - n;
    }
  }

  /** memmove of the tail of a buffer to its start (Buffer::delete_start). */
  method DeleteStart(a: array<byte>, end: nat, actual: nat)
    requires end <= actual <= a.Length
    modifies a
    ensures a[..actual - end] == old(a[end..actual])
  {
    var i := 0;
    while i < actual - end
      invariant i <= actual - end
      invariant forall k :: 0 <= k < i ==> a[k] == old(a[end + k])
      invariant forall k :: i <= k < a.Length ==> a[k] == old(a[k])
    {
      a[i] := a[end + i];
      i := i + 1;
    }
  }

  /** memcpy of data into a at offset `at` (Buffer::copy_to). */
  method CopyInto(a: array<byte>, at: nat, data: seq<byte>)
    requires at + |data| <= a.Length
    modifies a
    ensures a[at..at + |data|] == data && a[..at] == old(a[..at])
  {
    var i := 0;
    while i < |data|
      invariant i <= |data|
      invariant a[at..at + i] == data[..i] && a[..at] == old(a[..at])
    {
      a[at + i] := data[i];
      i := i + 1;
    }
  }

  class Link {
    const sendBuffer: array<byte>
    var sendStart: nat            // send_buffer_current, as a range of sendBuffer
    var sendSize: nat
    const recvBuffer: array<byte>
    var recvPos: nat
    var waiting: Option<Payload>
    var edge: bool
    var bloat: bool
    var timedOut: bool
    var aborted: bool
    var lastPing: u64
    var pongTime: u64
    var pongSeq: u64
    var lastSeqSent: u64
    var ackSeq: u64
    var rtt: int
    var inflight: seq<InFlight>
    var inflightBytes: int
    const bandwidth: Statistics.BandwidthEstimator
    ghost var st: LinkState       // the value this object stands for, with its history

    ghost function SendBuf(): (s: seq<byte>)
      reads this`sendStart, this`sendSize, sendBuffer
      requires sendStart + sendSize <= sendBuffer.Length
      ensures |s| == sendSize
    {
      sendBuffer[sendStart..sendStart + sendSize]
    }

    ghost function RecvBuf(): (s: seq<byte>)
      reads this`recvPos, recvBuffer
      requires recvPos <= recvBuffer.Length
      ensures |s| == recvPos
    {
      recvBuffer[..recvPos]
    }

    ghost predicate Shape()
      reads this`sendStart, this`sendSize, this`recvPos
    {
      && sendBuffer != recvBuffer
      && sendBuffer.Length == LINK_MTU && recvBuffer.Length == LINK_MTU
      && sendStart + sendSize <= LINK_MTU && recvPos <= LINK_MTU
    }

    ghost predicate SendSide()
      reads this, sendBuffer
      requires Shape()
    {
      && st.sendBuf == SendBuf() && st.edge == edge && st.lastPing == lastPing
      && st.pongTime == pongTime && st.pongSeq == pongSeq && st.lastSeqSent == lastSeqSent
    }

    ghost predicate RecvSide()
      reads this, recvBuffer
      requires Shape()
    {
      st.recvBuf == RecvBuf() && st.waiting == waiting && st.aborted == aborted
    }

    ghost predicate AckSide()
      reads this
    {
      && st.bloat == bloat && st.timedOut == timedOut && st.ackSeq == ackSeq && st.rtt == rtt
      && st.inflight == inflight && st.inflightBytes == inflightBytes
    }

    ghost predicate Valid()
      reads this, sendBuffer, recvBuffer
    {
      Shape() && SendSide() && RecvSide() && AckSide()
    }

    constructor ()
      ensures Valid() && fresh(sendBuffer) && fresh(recvBuffer)
      ensures st == Fresh
      ensures fresh(bandwidth) && fresh(bandwidth.overall) && bandwidth.Valid() && bandwidth.transmitted == []
    {
      bandwidth := new Statistics.BandwidthEstimator();
      sendBuffer, recvBuffer := new byte[LINK_MTU], new byte[LINK_MTU];
      sendStart, sendSize, recvPos, waiting := 0, 0, 0, None;
      edge, bloat, timedOut, aborted := true, false, false, false;
      lastPing, pongTime, pongSeq, lastSeqSent, ackSeq := 0, 0, 0, 0, 0;
      rtt, inflight, inflightBytes := 5_000_000, [], 0;
      st := Fresh;
    }

    /** format_send_packet: lay the frame out in the send buffer. */
    method FormatSendPacket(f: Frame)
      requires Shape() && Fits(f)
      modifies this`sendStart, this`sendSize, sendBuffer
      ensures Shape() && SendBuf() == Encode(f)
    {
      var body := Body(f);
      var len := |body| + HEADER_SIZE;
      CopyInto(sendBuffer, HEADER_SIZE, body);
      sendBuffer[0], sendBuffer[1], sendBuffer[2] := len / 256, len % 256, Kind(f);
      sendStart, sendSize := 0, len;
      Extend(sendBuffer[..], 0, HEADER_SIZE, len);
      assert sendBuffer[..HEADER_SIZE] == [len / 256, len % 256, Kind(f)];
    }

    /** raw_send_packet: format the frame, then schedule the write. */
    method RawSendPacket(f: Frame)
      requires Valid() && sendSize == 0 && Fits(f)
      modifies this`sendStart, this`sendSize, this`st, sendBuffer
      ensures Valid() && st == QueueFrame(old(st), f)
    {
      hide Encode, SendBuf, RecvBuf;
      FormatSendPacket(f);
      st := QueueFrame(st, f);
    }

    method SendPong()
      requires Valid() && sendSize == 0
      modifies this`sendStart, this`sendSize, this`pongTime, this`pongSeq, this`st, sendBuffer
      ensures Valid() && sendSize != 0
      ensures st == QueueFrame(old(st), Pong(old(pongTime), old(pongSeq))).(pongTime := 0, pongSeq := 0)
    {
      hide Encode, SendBuf, RecvBuf;
      RawSendPacket(Pong(pongTime, pongSeq));
      pongTime, pongSeq := 0, 0;
      st := st.(pongTime := 0, pongSeq := 0);
    }

    method SendPing(now: u64)
      requires Valid() && sendSize == 0
      modifies this`sendStart, this`sendSize, this`lastPing, this`st, sendBuffer
      ensures Valid() && sendSize != 0
      ensures st == QueueFrame(old(st), Ping(now, lastSeqSent)).(lastPing := now)
    {
      hide Encode, SendBuf, RecvBuf;
      RawSendPacket(Ping(now, lastSeqSent));
      lastPing := now;
      st := st.(lastPing := now);
    }

    method SendAux(now: u64) returns (busy: bool)
      requires Valid()
      modifies this`sendStart, this`sendSize, this`pongTime, this`pongSeq, this`lastPing, this`st, sendBuffer
      ensures Valid() && st == LinkSpec.SendAux(old(st), now)
      ensures busy == Busy(old(st), now) == (sendSize != 0)
    {
      hide QueueFrame, Sub64, SendBuf, RecvBuf;
      if sendSize != 0 {
        busy := true;
      } else if pongTime != 0 {
        SendPong();
        busy := true;
      } else if Sub64(now, lastPing) > PING_INTERVAL {
        SendPing(now);
        busy := true;
      } else {
        busy := false;
      }
    }

    /** Link::send. */
    method Send(seqno: u64, data: Payload, now: u64) returns (ok: bool)
      requires Valid() && lastSeqSent < seqno && |data| <= MULTILINK_MTU
      modifies this, sendBuffer
      ensures Valid() && st == SendData(old(st), seqno, data, now)
      ensures ok == SendAccepts(old(st), now)
    {
      hide SendBuf, RecvBuf, QueueFrame, Busy, LinkSpec.SendAux;
      if timedOut || bloat {
        return false;
      }
      var busy := SendAux(now);
      if busy {
        return false;
      }
      IdleAux(old(st), now);
      AcceptData(seqno, data, now);
      return true;
    }

    /** The part of Link::send that follows an idle send_aux. */
    method AcceptData(seqno: u64, data: Payload, now: u64)
      requires Valid() && sendSize == 0 && |data| <= MULTILINK_MTU && SendAccepts(st, now)
      modifies this, sendBuffer
      ensures Valid() && st == SendData(old(st), seqno, data, now)
    {
      hide SendBuf, RecvBuf, QueueFrame, SendData, Busy;
      AcceptEffect(st, seqno, data, now);
      RawSendPacket(Data(data));
      lastSeqSent := seqno;
      inflightBytes := inflightBytes + |data|;
      inflight := inflight + [InFlight(seqno, data, now)];
      st := st.(lastSeqSent := seqno, inflightBytes := inflightBytes, inflight := inflight);
    }

    /** The write loop: ends with an empty send buffer or a refusing stream. */
    method WriteLoop(stream: Stream)
      requires Shape()
      modifies this`sendStart, this`sendSize, stream`outgoing, stream`room
      ensures old(sendStart) <= sendStart && sendStart + sendSize == old(sendStart + sendSize)
      ensures stream.outgoing == old(stream.outgoing) + sendBuffer[old(sendStart)..sendStart]
      ensures sendSize == 0 || stream.room == 0
    {
      while sendSize != 0
        invariant old(sendStart) <= sendStart && sendStart + sendSize == old(sendStart + sendSize)
        invariant stream.outgoing == old(stream.outgoing) + sendBuffer[old(sendStart)..sendStart]
        decreases sendSize
      {
        var current := sendBuffer[sendStart..sendStart + sendSize];
        var bytes := stream.Write(current);
        if bytes == 0 {
          return;
        }
        Extend(sendBuffer[..], old(sendStart), sendStart, sendStart + bytes);
        assert current[..bytes] == sendBuffer[sendStart..sendStart + bytes];
        sendStart, sendSize := sendStart + bytes, sendSize - bytes;
      }
    }

    method PushOut(stream: Stream)
      requires Shape()
      modifies this`sendStart, this`sendSize, stream`outgoing, stream`room
      ensures Shape() && sendSize <= old(sendSize)
      ensures SendBuf() == old(SendBuf())[old(sendSize) - sendSize..]
      ensures stream.outgoing == old(stream.outgoing) + old(SendBuf())[..old(sendSize) - sendSize]
      ensures sendSize == 0 || stream.room == 0
    {
      WriteLoop(stream);
      SliceOfSlice(sendBuffer[..], old(sendStart), sendStart, sendStart + sendSize);
    }

    /** transport_write_ready: hand the stream as much as it takes, raise the edge
        callback if everything went, and tell the bandwidth estimator: a stream that
        refuses starts a burst, a link with nothing to write ends one. */
    method TransportWriteReady(stream: Stream, now: u64)
      requires Valid() && bandwidth.Valid() && (timedOut || Statistics.Defined(bandwidth.Value(), now))
      modifies this`sendStart, this`sendSize, this`edge, this`st, stream`outgoing, stream`room, bandwidth, bandwidth.overall
      ensures Valid() && bandwidth.Valid() && sendSize <= old(sendSize)
      ensures st == LinkSpec.Write(old(st), old(sendSize) - sendSize)
      ensures stream.outgoing == old(stream.outgoing) + old(st.sendBuf)[..old(sendSize) - sendSize]
      ensures if timedOut then sendSize == old(sendSize) else sendSize == 0 || stream.room == 0
      ensures bandwidth.Value() ==
              if timedOut then old(bandwidth.Value())
              else Statistics.Measured(old(bandwidth.Value()), now, old(sendSize) - sendSize, sendSize)
      ensures !timedOut ==>
                && bandwidth.burstRunning == (sendSize != 0 || (old(bandwidth.burstRunning) && old(sendSize) != 0))
                && bandwidth.burstEndsAt ==
                   if old(bandwidth.burstRunning) && old(sendSize) == 0 then now + 60_000 else old(bandwidth.burstEndsAt)
    {
      hide RecvBuf, SendBuf, LinkSpec.Write, Statistics.Measured, Statistics.Defined;
      var start := sendSize;
      if timedOut {
        WriteNothing(st);
      } else {
        LiveWrite(stream);
        Measure(start - sendSize, now);
      }
    }

    /** The end of transport_write_ready, after `bytes` were written. */
    method Measure(bytes: nat, now: u64)
      requires bandwidth.Valid() && Statistics.Defined(bandwidth.Value(), now)
      modifies bandwidth, bandwidth.overall
      ensures bandwidth.Valid()
      ensures bandwidth.Value() == Statistics.Measured(old(bandwidth.Value()), now, bytes, sendSize)
      ensures bandwidth.burstRunning == (sendSize != 0 || (old(bandwidth.burstRunning) && bytes != 0))
      ensures bandwidth.burstEndsAt ==
              if old(bandwidth.burstRunning) && sendSize == 0 && bytes == 0 then now + 60_000 else old(bandwidth.burstEndsAt)
    {
      bandwidth.DataWritten(now, bytes);
      if sendSize != 0 {
        bandwidth.OutputQueueFull();
      } else if bytes == 0 {
        bandwidth.InputQueueEmpty(now);
      }
    }

    method LiveWrite(stream: Stream)
      requires Valid() && !timedOut
      modifies this`sendStart, this`sendSize, this`edge, this`st, stream`outgoing, stream`room
      ensures Valid() && sendSize <= old(sendSize)
      ensures st == LinkSpec.Write(old(st), old(sendSize) - sendSize)
      ensures stream.outgoing == old(stream.outgoing) + old(st.sendBuf)[..old(sendSize) - sendSize]
      ensures sendSize == 0 || stream.room == 0
    {
      hide RecvBuf, SendBuf, LinkSpec.Write;
      PushOut(stream);
      WriteEffect(st, old(sendSize) - sendSize);
      st := LinkSpec.Write(st, old(sendSize) - sendSize);
      if sendSize == 0 && edge {
        edge := false;
      }
    }

    /** on_send_ready_edge_fn; idle asks the owner for a data packet. */
    method OnSendReadyEdge(now: u64) returns (idle: bool)
      requires Valid()
      modifies this, sendBuffer
      ensures Valid() && st == LinkSpec.SendAux(old(st).(edge := true), now)
      ensures idle == !Busy(old(st), now)
    {
      hide SendBuf, RecvBuf, LinkSpec.SendAux, Sub64;
      edge := true;
      st := st.(edge := true);
      var busy := SendAux(now);
      idle := !busy;
    }

    /** flush_in_flight_queue. */
    method FlushInFlightQueue()
      modifies this`inflight, this`inflightBytes
      ensures var q := old(inflight);
              var k := FlushCount(q, ackSeq);
              inflight == q[k..] && inflightBytes == old(inflightBytes) - TotalSize(q[..k])
    {
      hide TotalSize;
      ghost var q, k := inflight, 0;
      TotalSizeNone();
      while inflight != [] && inflight[0].seqno <= ackSeq
        invariant k <= |q| && inflight == q[k..]
        invariant inflightBytes == old(inflightBytes) - TotalSize(q[..k])
        invariant FlushCount(q, ackSeq) == k + FlushCount(inflight, ackSeq)
      {
        LinkInvariants.TotalSizeSnoc(q[..k], q[k]);
        assert q[..k + 1] == q[..k] + [q[k]];
        inflightBytes := inflightBytes - |inflight[0].payload|;
        inflight := inflight[1..];
        k := k + 1;
      }
    }

    method BufferbloatCheck()
      requires AckSide()
      modifies this`bloat, this`st
      ensures AckSide() && st == BloatCheck(old(st))
    {
      var current := Sub64(rtt, 0);
      st := BloatCheck(st);
      if bloat {
        if current < BUFFERBLOAT_LOW_MARK {
          bloat := false;
        }
      } else if current > BUFFERBLOAT_HIGH_MARK {
        bloat := true;
      }
    }

    /** The pong branch of parse_recv_packet. */
    method TakePong(time: u64, seqno: u64, now: u64)
      requires AckSide() && st.waiting.None?
      modifies this`rtt, this`ackSeq, this`bloat, this`inflight, this`inflightBytes, this`st
      ensures AckSide() && st == Handle(old(st), Pong(time, seqno), now)
    {
      hide Sub64, Signed32, FlushCount, TotalSize, BloatCheck;
      rtt := Signed32(Sub64(now, time));
      ackSeq := seqno;
      st := st.(rtt := rtt, ackSeq := seqno);
      BufferbloatCheck();
      FlushInFlightQueue();
      st := Flush(st);
    }

    /** Link::recv. */
    method Recv() returns (packet: Option<Payload>)
      requires Valid()
      modifies this`waiting, this`st
      ensures Valid()
      ensures packet == if timedOut then None else old(waiting)
      ensures st == if packet.Some? then Take(old(st)) else old(st)
    {
      hide SendBuf, RecvBuf;
      if timedOut {
        return None;
      }
      packet, waiting := waiting, None;
      if packet.Some? {
        st := Take(st);
      }
    }

    /** maybe_retransmit; the front of the queue exists unless bufferbloat
        avoidance is on over an empty queue. */
    method MaybeRetransmit(now: u64)
      requires AckSide() && RetransmitDefined(st)
      modifies this`timedOut, this`st
      ensures AckSide() && st == LinkSpec.MaybeRetransmit(old(st), now)
    {
      st := LinkSpec.MaybeRetransmit(st, now);
      if timedOut || (inflight == [] && !bloat) {
        return;
      }
      if Sub64(now, inflight[0].time) > RETRANSMISSION_TIMEOUT {
        timedOut := true;
      }
    }

    method TimerCallback(now: u64)
      requires Valid() && RetransmitDefined(st)
      modifies this, sendBuffer
      ensures Valid() && st == Tick(old(st), now)
    {
      hide LinkSpec.SendAux, SendBuf, RecvBuf, Sub64;
      if timedOut {
        return;
      }
      SendAuxInFlight(st, now);
      var _ := SendAux(now);
      MaybeRetransmit(now);
    }

    /** get_packets_to_retransmit: the payloads in flight, oldest first. */
    method GetPacketsToRetransmit() returns (result: seq<Payload>)
      requires Valid() && timedOut
      ensures |result| == |st.inflight|
      ensures forall i :: 0 <= i < |result| ==> result[i] == st.inflight[i].payload
    {
      hide SendBuf, RecvBuf;
      result := [];
      for i := 0 to |inflight|
        invariant |result| == i && forall k :: 0 <= k < i ==> result[k] == inflight[k].payload
      {
        result := result + [inflight[i].payload];
      }
    }

    // ------------------------------------------------------------- receiving

    /** Drop the first frame from the receive buffer. */
    method DropFrame(len: nat)
      requires Shape() && len <= recvPos
      modifies this`recvPos, recvBuffer
      ensures Shape() && RecvBuf() == old(RecvBuf())[len..]
    {
      DeleteStart(recvBuffer, len, recvPos);
      recvPos := recvPos - len;
    }

    /** parse_recv_packet on the first len bytes of the buffer; false when one of
        its assertions fails. */
    method ParseRecvPacket(data: seq<byte>, now: u64) returns (ok: bool)
      requires Valid() && data != [] && waiting.None?
      modifies this`waiting, this`pongTime, this`pongSeq, this`rtt, this`ackSeq, this`bloat, this`inflight, this`inflightBytes, this`st
      ensures ok == !ParseFrame(data, []).Fault?
      ensures Valid()
      ensures st == match ParseFrame(data, [])
                    case Parsed(f, _) => Handle(old(st).(got := old(st).got + [f]), f, now)
                    case _ => old(st)
    {
      hide SendBuf, RecvBuf, Handle, DecodeU64;
      if |data| < HEADER_SIZE {
        return false;
      }
      var kind := data[2];
      if kind == 0 {
        TakeData(data[HEADER_SIZE..], now);
      } else if kind == 1 || kind == 2 {
        if |data| < HEADER_SIZE + 2 * WORD {
          return false;
        }
        var time := DecodeU64(data, HEADER_SIZE);
        var seqno := DecodeU64(data, HEADER_SIZE + WORD);
        if kind == 1 {
          TakePing(time, seqno, now);
        } else {
          st := st.(got := st.got + [Pong(time, seqno)]);
          TakePong(time, seqno, now);
          HandleSides(old(st).(got := old(st).got + [Pong(time, seqno)]), Pong(time, seqno), now);
        }
      }
      return true;
    }

    /** The length field of the buffered frame. */
    method ExpectedLength() returns (len: nat)
      requires Valid() && recvPos >= 2
      ensures |st.recvBuf| == recvPos && len == FrameLength(st.recvBuf)
    {
      var high: nat, low: nat := recvBuffer[0], recvBuffer[1];
      len := high * 256 + low;
    }

    /** try_parse_recv_packet. */
    method TryParseRecvPacket(now: u64) returns (again: bool)
      requires Valid() && waiting.None? && !aborted
      modifies this, recvBuffer
      ensures Valid() && again == (CanParse(old(st)) && !aborted) && timedOut == old(timedOut)
      ensures st == if CanParse(old(st)) then ParseStep(old(st), now) else old(st)
    {
      hide SendBuf, RecvBuf, CanParse, ParseStep, ParseFrame, Handle, FrameLength;
      if recvPos < 2 {
        ShortWaits(st);
        return false;
      }
      var len := ExpectedLength();
      if len == 0 {
        ZeroFaults(st, now);
        aborted, st := true, st.(aborted := true);
        return false;
      }
      if recvPos < len {
        ShortWaits(st);
        return false;
      }
      ParseStepCut(st, len, now);
      again := ParseWhole(len, now);
    }

    method FirstBytes(len: nat) returns (data: seq<byte>)
      requires Valid() && len <= recvPos
      ensures len <= |st.recvBuf| && data == st.recvBuf[..len]
    {
      data := recvBuffer[..len];
    }

    method CutFrame(len: nat)
      requires Valid() && len <= recvPos
      modifies this`recvPos, this`st, recvBuffer
      ensures Valid() && len <= |old(st).recvBuf| && st == old(st).(recvBuf := old(st).recvBuf[len..])
    {
      hide SendBuf, RecvBuf;
      DropFrame(len);
      st := st.(recvBuf := st.recvBuf[len..]);
    }

    /** A whole frame is buffered: parse it, then drop it. */
    method ParseWhole(len: nat, now: u64) returns (ok: bool)
      requires Valid() && waiting.None? && !aborted && 0 < len <= recvPos
      modifies this, recvBuffer
      ensures Valid() && ok == !aborted && timedOut == old(timedOut)
      ensures var s := old(st);
              st == match ParseFrame(s.recvBuf[..len], [])
                    case Parsed(f, _) => Handle(s.(got := s.got + [f]), f, now).(recvBuf := s.recvBuf[len..])
                    case Dropped(_) => s.(recvBuf := s.recvBuf[len..])
                    case _ => s.(aborted := true)
    {
      hide SendBuf, RecvBuf, ParseFrame, Handle;
      var data := FirstBytes(len);
      ParseFrameRest(data, [], []);
      ok := ParseRecvPacket(data, now);
      if ok {
        CutFrame(len);
      } else {
        aborted, st := true, st.(aborted := true);
      }
    }

    /** The inner loop of transport_read_ready. */
    method ParseLoop(now: u64)
      requires Valid() && !aborted
      modifies this, recvBuffer
      ensures Valid() && st == ParseAll(old(st), now) && timedOut == old(timedOut)
    {
      hide SendBuf, RecvBuf, ParseStep, TryParse;
      var again := true;
      while waiting.None? && again
        invariant Valid() && timedOut == old(timedOut) && (again ==> !aborted)
        invariant ParseAll(st, now) == ParseAll(old(st), now)
        invariant !again ==> !CanParse(st)
        decreases again, |st.recvBuf|
      {
        again := TryParseRecvPacket(now);
      }
    }

    /** One turn of the read loop. */
    method ReadTurn(stream: Stream, now: u64) returns (chunk: seq<byte>)
      requires Valid() && !aborted
      modifies this, recvBuffer, stream`incoming
      ensures Valid() && timedOut == old(timedOut)
      ensures old(stream.incoming) == chunk + stream.incoming
      ensures chunk == [] <== |old(st).recvBuf| == LINK_MTU
      ensures chunk == [] ==> stream.incoming == [] || |old(st).recvBuf| == LINK_MTU
      ensures st == ParseAll(Receive(old(st), chunk), now)
    {
      hide SendBuf, ParseAll;
      chunk := stream.Read(LINK_MTU - recvPos);
      CopyInto(recvBuffer, recvPos, chunk);
      Extend(recvBuffer[..], 0, recvPos, recvPos + |chunk|);
      recvPos := recvPos + |chunk|;
      st := Receive(st, chunk);
      ParseLoop(now);
    }

    /** transport_read_ready: whatever pieces the stream yields, the link ends as
        if it had read them all at once. It stops early, with room in the buffer and
        bytes in the stream, exactly when the buffer was full on entry and held a
        frame it could parse: then it parses without reading. */
    method TransportReadReady(stream: Stream, now: u64) returns (ghost got: seq<byte>)
      requires Valid() && !aborted
      modifies this, recvBuffer, stream`incoming
      ensures Valid() && st == LinkSpec.Read(old(st), got, now)
      ensures old(stream.incoming) == got + stream.incoming
      ensures |old(st).recvBuf| == LINK_MTU ==> got == []
      ensures !timedOut && !aborted ==>
                (stream.incoming != [] && |st.recvBuf| < LINK_MTU
                 <==> old(stream.incoming) != [] && |old(st).recvBuf| == LINK_MTU && CanParse(old(st)))
    {
      hide SendBuf, RecvBuf, ParseAll, Receive, CanParse;
      if timedOut {
        return [];
      }
      ReadNothing(st, now);
      ParseAllShrinks(st, now);
      var chunk := ReadTurn(stream, now);
      got := chunk;
      while chunk != [] && !aborted
        invariant Valid() && timedOut == old(timedOut)
        invariant |old(st).recvBuf| == LINK_MTU ==> chunk == got == []
        invariant |old(st).recvBuf| == LINK_MTU && CanParse(old(st)) && !aborted ==> |st.recvBuf| < LINK_MTU
        invariant chunk == [] ==> stream.incoming == [] || |st.recvBuf| == LINK_MTU ||
                                  (|old(st).recvBuf| == LINK_MTU && CanParse(old(st)))
        invariant st == ParseAll(Receive(old(st), got), now)
        invariant old(stream.incoming) == got + stream.incoming
        decreases |stream.incoming| + |chunk|
      {
        ReadNothing(st, now);
        chunk := ReadTurn(stream, now);
        ReadJoins(old(st), got, chunk, now);
        got := got + chunk;
      }
    }

    method TakeData(payload: Payload, now: u64)
      requires Valid() && waiting.None?
      modifies this`waiting, this`st
      ensures Valid() && st == Handle(old(st).(got := old(st).got + [Data(payload)]), Data(payload), now)
    {
      hide SendBuf, RecvBuf;
      waiting := Some(payload);
      st := Handle(st.(got := st.got + [Data(payload)]), Data(payload), now);
    }

    method TakePing(time: u64, seqno: u64, now: u64)
      requires Valid() && waiting.None?
      modifies this`pongTime, this`pongSeq, this`st
      ensures Valid() && st == Handle(old(st).(got := old(st).got + [Ping(time, seqno)]), Ping(time, seqno), now)
    {
      hide SendBuf, RecvBuf;
      pongTime, pongSeq := time, seqno;
      st := Handle(st.(got := st.got + [Ping(time, seqno)]), Ping(time, seqno), now);
    }
  }

  lemma {:induction false} ParseAllNoLonger(st: LinkState, now: u64)
    ensures |ParseAll(st, now).recvBuf| <= |st.recvBuf| || ParseAll(st, now).aborted
    decreases !st.aborted, |st.recvBuf|
  {
    hide ParseStep, TryParse;
    if CanParse(st) {
      ParseAllNoLonger(ParseStep(st, now), now);
    }
  }

  /** Parsing makes room. */
  lemma ParseAllShrinks(st: LinkState, now: u64)
    requires !st.aborted
    ensures CanParse(st) ==> ParseAll(st, now).aborted || |ParseAll(st, now).recvBuf| < |st.recvBuf|
  {
    hide ParseStep, TryParse;
    if CanParse(st) {
      ParseAllNoLonger(ParseStep(st, now), now);
    }
  }

  lemma ReadNothing(st: LinkState, now: u64)
    ensures Receive(st, []) == st
    ensures !CanParse(st) ==> ParseAll(st, now) == st
  {
    assert st.recvBuf + [] == st.recvBuf && st.consumed + [] == st.consumed;
  }

  lemma ParseStepCut(st: LinkState, len: nat, now: u64)
    requires st.waiting.None? && !st.aborted && 2 <= |st.recvBuf| && len == FrameLength(st.recvBuf) && 0 < len <= |st.recvBuf|
    ensures CanParse(st)
    ensures ParseStep(st, now) ==
            match ParseFrame(st.recvBuf[..len], [])
            case Parsed(f, _) => Handle(st.(got := st.got + [f]), f, now).(recvBuf := st.recvBuf[len..])
            case Dropped(_) => st.(recvBuf := st.recvBuf[len..])
            case _ => st.(aborted := true)
  {
    hide ParseFrame, Handle;
    var rest := st.recvBuf[len..];
    ParseFrameRest(st.recvBuf[..len], [], rest);
    assert [] + rest == rest;
    var p := ParseFrame(st.recvBuf[..len], []);
    if p.Parsed? {
      HandleCut(st.(got := st.got + [p.frame]), p.frame, now, rest);
    }
  }

  lemma HandleCut(st: LinkState, f: Frame, now: u64, rest: seq<byte>)
    requires st.waiting.None?
    ensures Handle(st.(recvBuf := rest), f, now) == Handle(st, f, now).(recvBuf := rest)
  {
    hide Sub64, Signed32, BloatCheck, Flush;
    if f.Pong? {
      var p := st.(rtt := Signed32(Sub64(now, f.time)), ackSeq := f.seqno);
      assert st.(recvBuf := rest).(rtt := p.rtt, ackSeq := p.ackSeq) == p.(recvBuf := rest);
      BloatCut(p, rest);
      FlushCut(BloatCheck(p), rest);
    }
  }

  lemma BloatCut(st: LinkState, rest: seq<byte>)
    ensures BloatCheck(st.(recvBuf := rest)) == BloatCheck(st).(recvBuf := rest)
  {
    hide Sub64;
  }

  lemma FlushCut(st: LinkState, rest: seq<byte>)
    ensures Flush(st.(recvBuf := rest)) == Flush(st).(recvBuf := rest)
  {
    hide FlushCount, TotalSize;
  }

  lemma ShortWaits(st: LinkState)
    requires |st.recvBuf| < 2 || (0 < FrameLength(st.recvBuf) && |st.recvBuf| < FrameLength(st.recvBuf))
    ensures !CanParse(st)
  {
  }

  lemma ZeroFaults(st: LinkState, now: u64)
    requires st.waiting.None? && !st.aborted && 2 <= |st.recvBuf| && FrameLength(st.recvBuf) == 0
    ensures CanParse(st) && ParseStep(st, now) == st.(aborted := true)
  {
  }

  /** A pong leaves both buffers and the sending fields alone. */
  lemma HandleSides(st: LinkState, f: Frame, now: u64)
    requires st.waiting.None? && f.Pong?
    ensures var r := Handle(st, f, now);
            && r.sendBuf == st.sendBuf && r.edge == st.edge && r.lastPing == st.lastPing
            && r.pongTime == st.pongTime && r.pongSeq == st.pongSeq && r.lastSeqSent == st.lastSeqSent
            && r.recvBuf == st.recvBuf && r.waiting == st.waiting && r.aborted == st.aborted
  {
    hide Sub64, Signed32, FlushCount, TotalSize;
  }

  lemma WriteEffect(st: LinkState, n: nat)
    requires n <= |st.sendBuf| && !st.timedOut
    ensures var r := LinkSpec.Write(st, n);
            && r.sendBuf == st.sendBuf[n..] && r.edge == (st.edge && n < |st.sendBuf|)
            && r == st.(sendBuf := r.sendBuf, edge := r.edge, written := r.written, blocked := r.blocked, pending := r.pending)
  {
  }

  lemma AcceptEffect(st: LinkState, seqno: u64, data: Payload, now: u64)
    requires |data| <= MULTILINK_MTU && SendAccepts(st, now)
    ensures var q := QueueFrame(st, Data(data));
            SendData(st, seqno, data, now) ==
            q.(lastSeqSent := seqno, inflightBytes := q.inflightBytes + |data|,
               inflight := q.inflight + [InFlight(seqno, data, now)])
  {
    hide Encode;
  }

  lemma WriteNothing(st: LinkState)
    requires st.timedOut
    ensures LinkSpec.Write(st, 0) == st
  {
  }

  lemma IdleAux(st: LinkState, now: u64)
    requires !Busy(st, now)
    ensures LinkSpec.SendAux(st, now) == st
  {
  }

  lemma SliceOfSlice<T>(s: seq<T>, i: nat, j: nat, k: nat)
    requires i <= j <= k <= |s|
    ensures s[i..k][..j - i] == s[i..j] && s[i..k][j - i..] == s[j..k]
  {
  }

  lemma Extend<T>(s: seq<T>, i: nat, j: nat, k: nat)
    requires i <= j <= k <= |s|
    ensures s[i..k] == s[i..j] + s[j..k]
  {
  }

  lemma TotalSizeNone()
    ensures TotalSize([]) == 0
  {
  }

  lemma SendAuxInFlight(st: LinkState, now: u64)
    ensures RetransmitDefined(LinkSpec.SendAux(st, now)) == RetransmitDefined(st)
  {
    hide Encode, Sub64;
  }

}
