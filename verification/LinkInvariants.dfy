/** What every step of one link end keeps, whatever its peer sends. */
module LinkInvariants {
  import opened Bytes
  import opened Frames
  import opened LinkSpec

  function Payloads(q: seq<InFlight>): (ps: seq<Payload>)
    ensures |ps| == |q|
  {
    seq(|q|, i requires 0 <= i < |q| => q[i].payload)
  }

  /** The bytes the stream took, followed by the unsent tail, are exactly the
      frames formatted: no frame is overwritten while it is partly written. */
  ghost predicate FramingInv(st: LinkState) {
    AllFit(st.sent) && st.written + st.sendBuf == EncodeAll(st.sent)
  }

  /** The edge flag is down exactly when one edge callback is scheduled. */
  ghost predicate EdgeInv(st: LinkState) {
    st.pending[EdgeCallback] == if st.edge then 0 else 1
  }

  /** Unsent bytes wait for a scheduled write or for a stream that refused some. */
  ghost predicate WriteInv(st: LinkState) {
    st.sendBuf != [] && !st.timedOut ==> WriteCallback in st.pending || st.blocked
  }

  /** A buffered frame that could be parsed has a read scheduled for it. */
  ghost predicate ProgressInv(st: LinkState) {
    !st.timedOut && CanParse(st) ==> ReadCallback in st.pending
  }

  ghost predicate Ordered(q: seq<InFlight>) {
    forall i, j :: 0 <= i < j < |q| ==> q[i].seqno < q[j].seqno && q[i].time <= q[j].time
  }

  ghost predicate InFlightInv(st: LinkState) {
    && Ordered(st.Log())
    && (forall i :: 0 <= i < |st.Log()| ==> st.Log()[i].seqno <= st.lastSeqSent && st.Log()[i].time <= st.clock)
    && st.inflightBytes == TotalSize(st.inflight)
  }

  /** Data frames formatted are the packets in flight or acknowledged; data frames
      parsed are the packets returned by recv or the one waiting for it. */
  ghost predicate LedgerInv(st: LinkState) {
    && Payloads(st.Log()) == Datas(st.sent)
    && Datas(st.got) == st.returned + st.WaitingSeq()
    && |st.recvBuf| <= LINK_MTU
  }

  /** What holds even between two turns of the parse loop. */
  ghost predicate CoreInv(st: LinkState) {
    FramingInv(st) && EdgeInv(st) && WriteInv(st) && InFlightInv(st) && LedgerInv(st)
  }

  ghost predicate LinkInv(st: LinkState) {
    CoreInv(st) && ProgressInv(st)
  }

  lemma FreshInv()
    ensures LinkInv(Fresh)
  {
    hide Encode, EncodeAll, TryParse;
    EncodeNothing();
    ParseEmptyWaits();
  }

  // ------------------------------------------------------------ small facts

  lemma {:induction false} TotalSizeSplit(q: seq<InFlight>, k: nat)
    requires k <= |q|
    ensures TotalSize(q) == TotalSize(q[..k]) + TotalSize(q[k..])
  {
    if k > 0 {
      TotalSizeSplit(q[1..], k - 1);
      assert q[..k][1..] == q[1..][..k - 1];
      assert q[k..] == q[1..][k - 1..];
    } else {
      assert q[k..] == q;
    }
  }

  lemma TotalSizeSnoc(q: seq<InFlight>, p: InFlight)
    ensures TotalSize(q + [p]) == TotalSize(q) + |p.payload|
  {
    TotalSizeSplit(q + [p], |q|);
    assert (q + [p])[..|q|] == q && (q + [p])[|q|..] == [p];
    assert TotalSize([p]) == |p.payload| + TotalSize([p][1..]);
  }

  /** The flushed prefix is exactly the packets numbered up to the acknowledgement. */
  lemma {:induction false} FlushCountMeaning(q: seq<InFlight>, ack: u64)
    requires Ordered(q)
    ensures forall i :: 0 <= i < |q| ==> (i < FlushCount(q, ack) <==> q[i].seqno <= ack)
  {
    if q != [] && q[0].seqno <= ack {
      FlushCountMeaning(q[1..], ack);
      assert forall i :: 1 <= i < |q| ==> q[i] == q[1..][i - 1];
    }
  }

  /** Wherever the code is defined, testing the front is testing every packet: a link
      times out exactly when some packet has been in flight for too long. */
  lemma FrontIsOldest(st: LinkState, now: u64)
    requires InFlightInv(st) && st.clock <= now && RetransmitDefined(st)
    ensures MaybeRetransmit(st, now).timedOut <==>
            st.timedOut || exists p :: p in st.inflight && now - p.time > RETRANSMISSION_TIMEOUT
  {
    if st.inflight == [] {
      return;
    }
    var front := st.inflight[0];
    assert front == st.Log()[|st.flushed|];
    assert Sub64(now, front.time) == now - front.time;
    forall p | p in st.inflight
      ensures front.time <= p.time
    {
      var j :| 0 <= j < |st.inflight| && st.inflight[j] == p;
      assert p == st.Log()[|st.flushed| + j];
    }
    assert front in st.inflight;
  }

  // -------------------------------------------------------------- each step

  lemma QueueFrameKeeps(st: LinkState, f: Frame)
    requires LinkInv(st) && st.sendBuf == [] && Fits(f) && !f.Data?
    ensures LinkInv(QueueFrame(st, f))
  {
    hide Encode, EncodeAll, TryParse, Datas;
    EncodeAllSnoc(st.sent, f);
    DatasSnoc(st.sent, f);
    assert st.written + st.sendBuf == st.written;
  }

  lemma SendAuxKeeps(st: LinkState, now: u64)
    requires LinkInv(st)
    ensures LinkInv(SendAux(st, now))
  {
    hide Encode, EncodeAll, TryParse, Datas, QueueFrame;
    if st.sendBuf == [] {
      if st.pongTime != 0 {
        QueueFrameKeeps(st, Pong(st.pongTime, st.pongSeq));
      } else if ShouldPing(st, now) {
        QueueFrameKeeps(st, Ping(now, st.lastSeqSent));
      }
    }
  }

  lemma SubmitFraming(st: LinkState, f: Frame)
    requires FramingInv(st) && st.sendBuf == [] && Fits(f)
    ensures FramingInv(QueueFrame(st, f))
  {
    hide Encode, EncodeAll;
    EncodeAllSnoc(st.sent, f);
    assert st.written + st.sendBuf == st.written;
  }

  lemma SendDataKeeps(st: LinkState, seqno: u64, payload: Payload, now: u64)
    requires LinkInv(st) && st.lastSeqSent < seqno && |payload| <= MULTILINK_MTU && st.clock == now
    ensures LinkInv(SendData(st, seqno, payload, now))
  {
    hide Encode, EncodeAll, TryParse, Datas, TotalSize;
    SendAuxKeeps(st, now);
    if SendAccepts(st, now) {
      var r := SendData(st, seqno, payload, now);
      var p := InFlight(seqno, payload, now);
      SubmitFraming(st, Data(payload));
      DatasSnoc(st.sent, Data(payload));
      TotalSizeSnoc(st.inflight, p);
      assert r.Log() == st.Log() + [p];
      assert Payloads(r.Log()) == Payloads(st.Log()) + [payload];
    }
  }

  lemma WriteKeeps(st: LinkState, n: nat)
    requires LinkInv(st.(blocked := true)) && n <= |st.sendBuf|
    ensures LinkInv(Write(st, n)) || st.timedOut
    ensures st.timedOut ==> LinkInv(st)
  {
    hide Encode, EncodeAll, TryParse, Datas;
    assert st.written + st.sendBuf[..n] + st.sendBuf[n..] == st.written + st.sendBuf;
  }

  /** Flushing moves the acknowledged prefix of the queue and keeps the log. */
  lemma FlushSplits(st: LinkState)
    requires InFlightInv(st)
    ensures Flush(st).Log() == st.Log()
    ensures TotalSize(Flush(st).inflight) == Flush(st).inflightBytes
  {
    hide Ordered;
    var k := FlushCount(st.inflight, st.ackSeq);
    TotalSizeSplit(st.inflight, k);
    Rejoin(st.flushed, st.inflight, k);
  }

  lemma Rejoin<T>(p: seq<T>, q: seq<T>, k: nat)
    requires k <= |q|
    ensures (p + q[..k]) + q[k..] == p + q
  {
  }

  lemma FlushKeeps(st: LinkState)
    requires CoreInv(st)
    ensures CoreInv(Flush(st))
  {
    hide Encode, EncodeAll, TryParse, Datas;
    FlushSplits(st);
  }

  lemma BloatCheckKeeps(st: LinkState)
    requires CoreInv(st)
    ensures CoreInv(BloatCheck(st))
  {
    hide Encode, EncodeAll, TryParse, Datas, TotalSize, Sub64;
  }

  lemma HandleKeeps(st: LinkState, f: Frame, now: u64)
    requires CoreInv(st) && st.waiting.None?
    ensures CoreInv(Handle(st.(got := st.got + [f]), f, now))
  {
    hide Encode, EncodeAll, TryParse, Datas, TotalSize, Flush, BloatCheck, Payloads, Ordered, Fits;
    DatasSnoc(st.got, f);
    var s := st.(got := st.got + [f]);
    if f.Pong? {
      var p := s.(rtt := Signed32(Sub64(now, f.time)), ackSeq := f.seqno);
      BloatCheckKeeps(p);
      FlushKeeps(BloatCheck(p));
    }
  }

  lemma ParseStepKeeps(st: LinkState, now: u64)
    requires CoreInv(st) && CanParse(st)
    ensures CoreInv(ParseStep(st, now))
  {
    hide Encode, EncodeAll, TryParse, Datas, TotalSize, Handle, Payloads;
    var r := TryParse(st.recvBuf);
    if r.Parsed? {
      HandleKeeps(st.(recvBuf := r.rest), r.frame, now);
    }
  }

  lemma {:induction false} ParseAllKeeps(st: LinkState, now: u64)
    requires CoreInv(st)
    ensures LinkInv(ParseAll(st, now))
    decreases !st.aborted, |st.recvBuf|
  {
    hide CoreInv, ParseStep;
    if CanParse(st) {
      ParseStepKeeps(st, now);
      ParseAllKeeps(ParseStep(st, now), now);
    }
  }

  lemma ReadKeeps(st: LinkState, chunk: seq<byte>, now: u64)
    requires CoreInv(st) && |st.recvBuf| + |chunk| <= LINK_MTU
    ensures st.timedOut || LinkInv(Read(st, chunk, now))
  {
    hide ParseAll, CanParse, Encode, EncodeAll, Datas, TotalSize, Payloads;
    if !st.timedOut {
      ParseAllKeeps(Receive(st, chunk), now);
    }
  }

  lemma TickKeeps(st: LinkState, now: u64)
    requires LinkInv(st) && RetransmitDefined(st)
    ensures LinkInv(Tick(st, now))
  {
    hide SendAux, CanParse, Encode, EncodeAll, Datas, TotalSize, Payloads;
    SendAuxKeeps(st, now);
  }

  lemma TakeKeeps(st: LinkState)
    requires LinkInv(st) && st.waiting.Some? && !st.timedOut
    ensures LinkInv(Take(st))
  {
    hide CanParse, Encode, EncodeAll, Datas, TotalSize, Payloads;
  }

  /** Running a callback other than the edge callback keeps the rest in place. */
  lemma RanKeeps(st: LinkState, cb: Callback)
    requires LinkInv(st) && cb != EdgeCallback
    ensures cb != ReadCallback ==> LinkInv(Ran(st, cb).(blocked := true))
    ensures cb != WriteCallback ==> CoreInv(Ran(st, cb))
    ensures cb != ReadCallback ==> ProgressInv(Ran(st, cb))
  {
    hide Encode, EncodeAll, Datas, TotalSize, Payloads, TryParse;
  }

  lemma RanEdgeKeeps(st: LinkState)
    requires LinkInv(st) && EdgeCallback in st.pending
    ensures LinkInv(Ran(st, EdgeCallback).(edge := true))
  {
    hide Encode, EncodeAll, Datas, TotalSize, Payloads, TryParse;
  }

  lemma AtKeeps(st: LinkState, now: u64)
    requires LinkInv(st) && st.clock <= now
    ensures LinkInv(At(st, now))
  {
    hide Encode, EncodeAll, Datas, TotalSize, Payloads, TryParse;
  }

  /** Every step of a link end keeps its invariant. */
  lemma StepKeeps(st: LinkState, e: Event, now: u64)
    requires LinkInv(st) && Enabled(st, e, now)
    ensures LinkInv(Next(st, e, now))
  {
    hide CoreInv, ProgressInv, Tick, SendAux, SendData, Write, Read, Take;
    AtKeeps(st, now);
    var s := At(st, now);
    match e {
      case Timer => TickKeeps(s, now);
      case RunEdge =>
        RanEdgeKeeps(s);
        SendAuxKeeps(Ran(s, EdgeCallback).(edge := true), now);
      case RunWrite(n) =>
        RanKeeps(s, WriteCallback);
        WriteStep(Ran(s, WriteCallback), n);
      case Writable(n) =>
        UnblockedKeeps(s);
        WriteStep(s, n);
      case RunAux =>
        RanKeeps(s, AuxCallback);
        SendAuxKeeps(Ran(s, AuxCallback), now);
      case RunRead(chunk) =>
        RanKeeps(s, ReadCallback);
        ReadStep(Ran(s, ReadCallback), chunk, now);
      case Readable(chunk) => ReadStep(s, chunk, now);
      case RunNotify(cb) => RanKeeps(s, cb);
      case Submit(seqno, payload) => SendDataKeeps(s, seqno, payload, now);
      case TakePacket => TakeKeeps(s);
    }
  }

  lemma UnblockedKeeps(st: LinkState)
    requires LinkInv(st)
    ensures LinkInv(st.(blocked := true))
  {
    hide Encode, EncodeAll, Datas, TotalSize, Payloads, TryParse;
  }

  lemma ReadStep(st: LinkState, chunk: seq<byte>, now: u64)
    requires CoreInv(st) && |st.recvBuf| + |chunk| <= LINK_MTU
    ensures LinkInv(Read(st, chunk, now))
  {
    hide CoreInv;
    ReadKeeps(st, chunk, now);
  }

  lemma WriteStep(st: LinkState, n: nat)
    requires LinkInv(st.(blocked := true)) && n <= |st.sendBuf|
    ensures LinkInv(Write(st, n))
  {
    hide Encode, EncodeAll, Datas, TotalSize, Payloads, TryParse;
    WriteKeeps(st, n);
  }

  // ------------------------------------------------- what a step leaves alone

  /** Packets sent, packets returned and the last number used are as they were. */
  predicate SameTraffic(st: LinkState, r: LinkState) {
    r.Log() == st.Log() && r.returned == st.returned && r.lastSeqSent == st.lastSeqSent
  }

  lemma SendAuxTraffic(st: LinkState, now: u64)
    ensures SameTraffic(st, SendAux(st, now))
  {
    hide Encode, ShouldPing;
  }

  lemma HandleTraffic(st: LinkState, f: Frame, now: u64)
    requires st.waiting.None?
    ensures SameTraffic(st, Handle(st, f, now))
  {
    hide Sub64, Signed32, FlushCount, TotalSize;
    if f.Pong? {
      var s := BloatCheck(st.(rtt := Signed32(Sub64(now, f.time)), ackSeq := f.seqno));
      Rejoin(s.flushed, s.inflight, FlushCount(s.inflight, s.ackSeq));
    }
  }

  lemma {:induction false} ParseAllTraffic(st: LinkState, now: u64)
    ensures SameTraffic(st, ParseAll(st, now))
    decreases !st.aborted, |st.recvBuf|
  {
    hide TryParse, Handle;
    if CanParse(st) {
      var p := TryParse(st.recvBuf);
      if p.Parsed? {
        HandleTraffic(st.(recvBuf := p.rest, got := st.got + [p.frame]), p.frame, now);
      }
      ParseAllTraffic(ParseStep(st, now), now);
    }
  }

  lemma WriteTraffic(st: LinkState, n: nat)
    requires n <= |st.sendBuf|
    ensures SameTraffic(st, Write(st, n))
  {
  }

  lemma TickTraffic(st: LinkState, now: u64)
    requires RetransmitDefined(st)
    ensures SameTraffic(st, Tick(st, now))
  {
    hide SendAux, Sub64;
    SendAuxTraffic(st, now);
  }

  /** Only Link::send and Link::recv change the traffic of a link end. */
  lemma InternalTraffic(st: LinkState, e: Event, now: u64)
    requires Enabled(st, e, now) && !e.Submit? && !e.TakePacket?
    ensures SameTraffic(st, Next(st, e, now))
  {
    hide SendAux, ParseAll, Tick, TryParse, Write;
    var s := At(st, now);
    match e {
      case Timer => TickTraffic(s, now);
      case RunEdge => SendAuxTraffic(Ran(s, EdgeCallback).(edge := true), now);
      case RunWrite(n) => WriteTraffic(Ran(s, WriteCallback), n);
      case Writable(n) => WriteTraffic(s, n);
      case RunAux => SendAuxTraffic(Ran(s, AuxCallback), now);
      case RunRead(chunk) => ParseAllTraffic(Receive(Ran(s, ReadCallback), chunk), now);
      case Readable(chunk) => ParseAllTraffic(Receive(s, chunk), now);
      case RunNotify(cb) =>
    }
  }

  lemma SubmitTraffic(st: LinkState, seqno: u64, payload: Payload, now: u64)
    requires Enabled(st, Submit(seqno, payload), now)
    ensures var r := Next(st, Submit(seqno, payload), now);
            && r.returned == st.returned
            && r.lastSeqSent == (if SendAccepts(st, now) then seqno else st.lastSeqSent)
            && r.Log() == (if SendAccepts(st, now) then st.Log() + [InFlight(seqno, payload, now)] else st.Log())
  {
    hide SendAux, Sub64, Encode;
    var s := At(st, now);
    SendAuxTraffic(s, now);
    assert SendAccepts(s, now) == SendAccepts(st, now);
  }

  lemma PayloadsAppend(p: seq<InFlight>, q: seq<InFlight>)
    ensures Payloads(p + q) == Payloads(p) + Payloads(q)
  {
  }
}
