/** A complete run: a packet read from a target on one side is forwarded to the
    target on the other. The safety results are not about an empty set of runs. */
module Witness {
  import opened Bytes
  import opened Frames
  import opened LinkSpec
  import opened LinkPair
  import opened LinkReading
  import opened TransportSpec
  import opened Scheduling
  import opened SystemSpec

  /** One more step of a run. */
  lemma OneMore(states: seq<System>, side: Side, a: Action) returns (longer: seq<System>)
    requires Run(states) && states != [] && CanStep(states[|states| - 1], side, a)
    ensures longer == states + [Step(states[|states| - 1], side, a)]
    ensures Run(longer) && longer != []
  {
    hide CanStep, Step;
    var n := |states|;
    longer := states + [Step(states[n - 1], side, a)];
    forall k | 0 <= k < |longer| - 1
      ensures Follows(longer[k], longer[k + 1])
    {
      if k < n - 1 {
        assert Follows(states[k], states[k + 1]);
      }
    }
  }

  /** The cable at hand, after the others. */
  function Wired(others: seq<Cable>, left: Endpoint, lp: Port, right: Endpoint, rp: Port): System {
    System(left, right, others + [Cable(lp, rp)])
  }

  const UpPort: Port := Port(Up, [], Fresh)

  /** A new cable comes into being and both ends add it. */
  lemma Plugged(states: seq<System>, left: Endpoint, right: Endpoint) returns (longer: seq<System>)
    requires Run(states) && states != [] && !left.aborted && !right.aborted
    requires states[|states| - 1] == System(left, right, states[|states| - 1].cables)
    ensures Run(longer) && longer != []
    ensures longer[|longer| - 1] == Wired(states[|states| - 1].cables, left, UpPort, right, UpPort)
  {
    hide Run;
    var others := states[|states| - 1].cables;
    var n := |others|;
    longer := OneMore(states, Left, NewCable);
    assert longer[|longer| - 1] == Wired(others, left, FreshPort, right, FreshPort);
    longer := OneMore(longer, Left, AddLink(n));
    assert longer[|longer| - 1] == Wired(others, left, UpPort, right, FreshPort);
    longer := OneMore(longer, Right, AddLink(n));
    assert longer[|longer| - 1] == Wired(others, left, UpPort, right, UpPort);
  }

  lemma FirstCable() returns (states: seq<System>)
    ensures Run(states) && states != [] && states[|states| - 1] == Wired([], FreshEndpoint, UpPort, FreshEndpoint, UpPort)
  {
    states := Plugged([Initial], FreshEndpoint, FreshEndpoint);
  }

  /** Left takes a turn of Transport. */
  lemma TurnTaken(states: seq<System>, others: seq<Cable>, e: Endpoint, lp: Port, f: Endpoint, rp: Port, turn: Turn)
    returns (longer: seq<System>)
    requires Run(states) && states != [] && states[|states| - 1] == Wired(others, e, lp, f, rp)
    requires !e.aborted && CanTurn(e, turn)
    ensures Run(longer) && longer != [] && longer[|longer| - 1] == Wired(others, AfterTurn(e, turn), lp, f, rp)
  {
    hide Run, CanTurn, AfterTurn;
    longer := OneMore(states, Left, AtTransport(turn));
  }

  /** Right takes a turn of Transport. */
  lemma RightTurn(states: seq<System>, others: seq<Cable>, e: Endpoint, lp: Port, f: Endpoint, rp: Port, turn: Turn)
    returns (longer: seq<System>)
    requires Run(states) && states != [] && states[|states| - 1] == Wired(others, e, lp, f, rp)
    requires !f.aborted && CanTurn(f, turn)
    ensures Run(longer) && longer != [] && longer[|longer| - 1] == Wired(others, e, lp, AfterTurn(f, turn), rp)
  {
    hide Run, CanTurn, AfterTurn;
    longer := OneMore(states, Right, AtTransport(turn));
  }

  // -------------------------------------------------------------- a sending side

  function PacketsOf(c: u64, log: seq<Payload>): seq<Payload>
    requires |log| <= TWO63
  {
    seq(|log|, i requires 0 <= i < |log| => EncodePacket(c, i, log[i]))
  }

  /** The endpoint whose one channel has read the packets `log`. */
  function Sender(c: u64, log: seq<Payload>, queue: seq<Payload>, lastSeq: u64): Endpoint
    requires |log| <= TWO63
  {
    FreshEndpoint.(children := map[c := FreshChild.(target := Open, lastSent := |log|)], queue := queue, lastSeq := lastSeq,
                   accepted := PacketsOf(c, log), log := if log == [] then map[] else map[c := log])
  }

  /** The left side opens a channel. */
  lemma Opened(c: u64) returns (states: seq<System>)
    ensures Run(states) && states != [] && states[|states| - 1] == Wired([], Sender(c, [], [], 0), UpPort, FreshEndpoint, UpPort)
  {
    hide Run;
    states := FirstCable();
    states := TurnTaken(states, [], FreshEndpoint, UpPort, FreshEndpoint, UpPort, AddTarget(c));
    var e := AfterTurn(FreshEndpoint, AddTarget(c));
    states := TurnTaken(states, [], e, UpPort, FreshEndpoint, UpPort, OpenTarget(c));
    assert AfterTurn(e, OpenTarget(c)).children == Sender(c, [], [], 0).children;
  }

  lemma ReadsNext(c: u64, log: seq<Payload>, lastSeq: u64, data: Payload)
    requires |log| < TWO63 && |data| <= MAX_DATA
    ensures var e := Sender(c, log, [], lastSeq);
            && CanTurn(e, ReadFrom(c, data))
            && AfterTurn(e, ReadFrom(c, data)) == Sender(c, log + [data], [EncodePacket(c, |log|, data)], lastSeq)
  {
    hide EncodePacket;
    var e := Sender(c, log, [], lastSeq);
    var f := AfterRead(e, c, data);
    assert LogOf(e, c) == log;
    assert f.log == map[c := log + [data]];
    assert PacketsOf(c, log) + [EncodePacket(c, |log|, data)] == PacketsOf(c, log + [data]);
    assert f.children == Sender(c, log + [data], [], 0).children;
  }

  // ------------------------------------------------------------- single steps

  /** With these bandwidths the link l, which has nothing assigned, has the least key;
      all links are up. */
  ghost predicate Cheapest(others: seq<Cable>, l: LinkState, mbps: seq<real>) {
    && |mbps| == |others| + 1 && (forall j :: 0 <= j < |mbps| ==> mbps[j] >= MIN_MBPS)
    && (forall j :: 0 <= j < |others| ==>
          && others[j].left.status.Up?
          && Key(LinkView(l.rtt as real, mbps[|others|]), Backlog(Port(Up, [], l)))
             <= Key(LinkView(others[j].left.link.rtt as real, mbps[j]), Backlog(others[j].left)))
  }

  lemma OnlyOne(l: LinkState)
    ensures Cheapest([], l, [MIN_MBPS])
  {
  }

  lemma CanAssignOne(others: seq<Cable>, e: Endpoint, p: Payload, l: LinkState, f: Endpoint, rp: Port, mbps: seq<real>)
    requires e.queue == [p] && Cheapest(others, l, mbps)
    ensures var n := |others|;
            CanAssign(Wired(others, e, Port(Up, [], l), f, rp), Left, n, seq(n + 1, i requires 0 <= i <= n => i), mbps, [n])
  {
    hide Key, Backlog;
    var n := |others|;
    var s, live := Wired(others, e, Port(Up, [], l), f, rp), seq(n + 1, i requires 0 <= i <= n => i);
    assert forall i: nat :: HasUp(s, Left, i) ==> live[i] == i;
    var views, base := Views(s, Left, live, mbps), Bases(s, Left, live);
    assert [n][..0] == [];
    assert forall j :: 0 <= j < |views| ==> Load(base, [p], [], j) == base[j];
    assert BestChoice(views, base, [p], [n], 0);
  }

  /** Left assigns its one packet to the link. */
  lemma Assigns(states: seq<System>, others: seq<Cable>, e: Endpoint, p: Payload, l: LinkState, f: Endpoint, rp: Port, mbps: seq<real>)
    returns (longer: seq<System>)
    requires Run(states) && states != [] && states[|states| - 1] == Wired(others, e, Port(Up, [], l), f, rp)
    requires !e.aborted && e.queue == [p] && Cheapest(others, l, mbps)
    ensures Run(longer) && longer != []
    ensures longer[|longer| - 1] == Wired(others, e.(queue := []), Port(Up, [p], l), f, rp)
  {
    hide Run, CanAssign, Cheapest;
    var n, s := |others|, states[|states| - 1];
    var live := seq(n + 1, i requires 0 <= i <= n => i);
    CanAssignOne(others, e, p, l, f, rp, mbps);
    longer := OneMore(states, Left, Assign(n, live, mbps, [n]));
    assert Targets(live, [n]) == [n];
    SpreadOne(others, e, p, l, f, rp);
  }

  lemma SpreadOne(others: seq<Cable>, e: Endpoint, p: Payload, l: LinkState, f: Endpoint, rp: Port)
    requires e.queue == [p]
    ensures Spread(Wired(others, e, Port(Up, [], l), f, rp), Left, [|others|]) == Wired(others, e.(queue := []), Port(Up, [p], l), f, rp)
  {
    var s := Wired(others, e, Port(Up, [], l), f, rp);
    assert [|others|][..0] == [];
    assert Spread(s, Left, []) == s;
    var t := GiveFront(s, Left, |others|);
    assert Port(Up, [], l).own + [p] == [p];
    assert t.left == e.(queue := []);
    assert t.cables == others + [Cable(Port(Up, [p], l), rp)];
  }

  /** Left hands its one assigned packet to the link. */
  lemma Submits(states: seq<System>, others: seq<Cable>, e: Endpoint, p: Payload, l: LinkState, f: Endpoint, rp: Port, now: u64)
    returns (longer: seq<System>)
    requires Run(states) && states != [] && states[|states| - 1] == Wired(others, e, Port(Up, [p], l), f, rp)
    requires !e.aborted && e.lastSeq + 1 < TWO64 && Enabled(l, Submit(e.lastSeq + 1, p), now) && SendAccepts(l, now)
    ensures Run(longer) && longer != []
    ensures longer[|longer| - 1] ==
            Wired(others, e.(lastSeq := e.lastSeq + 1), Port(Up, [], Next(l, Submit(e.lastSeq + 1, p), now)), f, rp)
  {
    hide Run, Next, Enabled, SendAccepts;
    longer := OneMore(states, Left, SendOne(|others|, now));
    assert longer[|longer| - 1].cables == others + [Cable(Port(Up, [], Next(l, Submit(e.lastSeq + 1, p), now)), rp)];
  }

  /** A handler of the left link runs. */
  lemma LeftMoves(states: seq<System>, others: seq<Cable>, e: Endpoint, l: LinkState, f: Endpoint, rp: Port, event: Event, now: u64)
    returns (longer: seq<System>)
    requires Run(states) && states != [] && states[|states| - 1] == Wired(others, e, Port(Up, [], l), f, rp)
    requires !e.aborted && !event.Submit? && !event.TakePacket? && PairEnabled(l, rp.link, event, now)
    ensures Run(longer) && longer != []
    ensures longer[|longer| - 1] == Wired(others, e, Port(Up, [], Next(l, event, now)), f, rp)
  {
    hide Run, Next, Enabled;
    longer := OneMore(states, Left, LinkEvent(|others|, event, now));
    assert longer[|longer| - 1].cables == others + [Cable(Port(Up, [], Next(l, event, now)), rp)];
  }

  /** A handler of the right link runs. */
  lemma RightMoves(states: seq<System>, others: seq<Cable>, e: Endpoint, lp: Port, f: Endpoint, m: LinkState, event: Event, now: u64)
    returns (longer: seq<System>)
    requires Run(states) && states != [] && states[|states| - 1] == Wired(others, e, lp, f, Port(Up, [], m))
    requires !f.aborted && !event.Submit? && !event.TakePacket? && PairEnabled(m, lp.link, event, now)
    ensures Run(longer) && longer != []
    ensures longer[|longer| - 1] == Wired(others, e, lp, f, Port(Up, [], Next(m, event, now)))
  {
    hide Run, Next, Enabled;
    longer := OneMore(states, Right, LinkEvent(|others|, event, now));
    assert longer[|longer| - 1].cables == others + [Cable(lp, Port(Up, [], Next(m, event, now)))];
  }

  /** Right takes the waiting packet and dispatches it. */
  lemma RightDelivers(states: seq<System>, others: seq<Cable>, e: Endpoint, lp: Port, f: Endpoint, m: LinkState, p: Payload, now: u64)
    returns (longer: seq<System>)
    requires Run(states) && states != [] && states[|states| - 1] == Wired(others, e, lp, f, Port(Up, [], m))
    requires !f.aborted && Enabled(m, TakePacket, now) && m.waiting == Some(p) && |p| >= TRANSPORT_HEADER
    ensures Run(longer) && longer != []
    ensures longer[|longer| - 1] == Wired(others, e, lp, Dispatch(f, p), Port(Up, [], Next(m, TakePacket, now)))
  {
    hide Run, Next, Dispatch;
    longer := OneMore(states, Right, Deliver(|others|, now));
    assert longer[|longer| - 1].cables == others + [Cable(lp, Port(Up, [], Next(m, TakePacket, now)))];
  }

  // ------------------------------------------------------- one packet crosses

  /** Everything l wrote has been read and handled by m, and the other way round; l
      would take a packet. */
  ghost predicate Calm(l: LinkState, m: LinkState, now: u64) {
    && l.sendBuf == [] && l.pongTime == 0 && !l.bloat && !l.timedOut && !l.aborted && l.clock <= now && !ShouldPing(l, now)
    && m.sendBuf == [] && m.pongTime == 0 && !m.timedOut && !m.aborted && m.clock <= now
    && m.recvBuf == [] && m.waiting.None? && m.consumed == l.written
    && l.recvBuf == [] && l.waiting.None? && l.consumed == m.written
  }

  lemma FreshCalm()
    ensures Calm(Fresh, Fresh, 0) && Fresh.inflight == [] && Fresh.lastPing == 0 && Fresh.lastSeqSent == 0
  {
  }

  /** What does not change while l sends. */
  predicate SameInput(l: LinkState, k: LinkState) {
    && k.recvBuf == l.recvBuf && k.waiting == l.waiting && k.consumed == l.consumed
    && k.flushed == l.flushed && k.ackSeq == l.ackSeq && k.rtt == l.rtt
  }

  /** The stream takes the whole send buffer. */
  lemma WritesOut(l: LinkState, now: u64) returns (r: LinkState)
    requires WriteCallback in l.pending && !l.timedOut && !l.aborted && l.clock == now
    ensures Enabled(l, RunWrite(|l.sendBuf|), now) && r == Next(l, RunWrite(|l.sendBuf|), now)
    ensures r == l.(sendBuf := [], written := l.written + l.sendBuf, edge := r.edge, pending := r.pending, blocked := false)
  {
    assert l.sendBuf[..|l.sendBuf|] == l.sendBuf;
    r := Next(l, RunWrite(|l.sendBuf|), now);
  }

  /** l takes a packet and the stream takes all its bytes. */
  lemma LinkSends(l: LinkState, m: LinkState, seqno: u64, p: Payload, now: u64) returns (l1: LinkState, l2: LinkState)
    requires Calm(l, m, now) && l.lastSeqSent < seqno && |p| <= MULTILINK_MTU
    ensures Enabled(l, Submit(seqno, p), now) && SendAccepts(l, now) && l1 == Next(l, Submit(seqno, p), now)
    ensures l1.rtt == l.rtt && l1.inflightBytes == l.inflightBytes + |p|
    ensures var n := |Encode(Data(p))|; Enabled(l1, RunWrite(n), now) && l2 == Next(l1, RunWrite(n), now)
    ensures l2.written == l.written + Encode(Data(p)) && SameInput(l, l2) && l2.inflightBytes == l.inflightBytes + |p|
    ensures l2.inflight == l.inflight + [InFlight(seqno, p, now)] && l2.lastSeqSent == seqno && l2.lastPing == l.lastPing
    ensures Calm(l2, m.(consumed := l2.written), now)
  {
    hide Encode, Write;
    l1 := Next(l, Submit(seqno, p), now);
    assert l1.sendBuf == Encode(Data(p));
    l2 := WritesOut(l1, now);
  }

  /** m reads the packet's frame and recv returns it. */
  lemma LinkReceives(l: LinkState, m: LinkState, p: Payload, now: u64) returns (m1: LinkState, m2: LinkState)
    requires |p| <= MULTILINK_MTU && Calm(l, m.(consumed := l.written), now) && l.written == m.consumed + Encode(Data(p))
    ensures PairEnabled(m, l, Readable(Encode(Data(p))), now) && m1 == Next(m, Readable(Encode(Data(p))), now)
    ensures Enabled(m1, TakePacket, now) && m1.waiting == Some(p) && m2 == Next(m1, TakePacket, now)
    ensures Calm(l, m2, now)
  {
    hide Encode, ParseAll;
    ReadOneFrame(At(m, now), Data(p), now);
    m1 := Next(m, Readable(Encode(Data(p))), now);
    m2 := Next(m1, TakePacket, now);
  }

  /** Left assigns its one packet, hands it to the link, and the bytes go out. */
  lemma Transmitted(states: seq<System>, others: seq<Cable>, e: Endpoint, p: Payload, l: LinkState, f: Endpoint, rp: Port,
                    m: LinkState, mbps: seq<real>, now: u64)
    returns (longer: seq<System>, l2: LinkState)
    requires Run(states) && states != [] && states[|states| - 1] == Wired(others, e, Port(Up, [], l), f, rp)
    requires Calm(l, m, now) && Cheapest(others, l, mbps) && l.lastSeqSent <= e.lastSeq < TWO64 - 1
    requires !e.aborted && e.queue == [p] && |p| <= MULTILINK_MTU
    ensures Run(longer) && longer != []
    ensures longer[|longer| - 1] == Wired(others, e.(queue := [], lastSeq := e.lastSeq + 1), Port(Up, [], l2), f, rp)
    ensures l2.written == l.written + Encode(Data(p)) && l2.lastSeqSent == e.lastSeq + 1 && l2.lastPing == l.lastPing
    ensures l2.inflight == l.inflight + [InFlight(e.lastSeq + 1, p, now)] && l2.inflightBytes == l.inflightBytes + |p|
    ensures l2.rtt == l.rtt && Calm(l2, m.(consumed := l2.written), now)
  {
    hide Run, Next, Enabled, SendAccepts, Calm, Cheapest, Encode, Wired;
    var l1;
    var e1, e2 := e.(queue := []), e.(queue := [], lastSeq := e.lastSeq + 1);
    l1, l2 := LinkSends(l, m, e2.lastSeq, p, now);
    longer := Assigns(states, others, e, p, l, f, rp, mbps);
    longer := Submits(longer, others, e1, p, l, f, rp, now);
    longer := LeftMoves(longer, others, e2, l1, f, rp, RunWrite(|Encode(Data(p))|), now);
  }

  /** The packet crosses and is dispatched. */
  lemma Shipped(states: seq<System>, others: seq<Cable>, e: Endpoint, p: Payload, l: LinkState, f: Endpoint, m: LinkState,
                mbps: seq<real>, now: u64)
    returns (longer: seq<System>, l2: LinkState, m2: LinkState)
    requires Run(states) && states != []
    requires states[|states| - 1] == Wired(others, e, Port(Up, [], l), f, Port(Up, [], m))
    requires Calm(l, m, now) && Cheapest(others, l, mbps) && l.lastSeqSent <= e.lastSeq < TWO64 - 1
    requires !e.aborted && !f.aborted && e.queue == [p] && TRANSPORT_HEADER <= |p| <= MULTILINK_MTU
    ensures Run(longer) && longer != []
    ensures longer[|longer| - 1] ==
            Wired(others, e.(queue := [], lastSeq := e.lastSeq + 1), Port(Up, [], l2), Dispatch(f, p), Port(Up, [], m2))
    ensures Calm(l2, m2, now) && l2.lastSeqSent == e.lastSeq + 1 && l2.lastPing == l.lastPing && l2.rtt == l.rtt
    ensures l2.inflight == l.inflight + [InFlight(e.lastSeq + 1, p, now)] && l2.inflightBytes == l.inflightBytes + |p|
  {
    hide Run, Next, Enabled, Dispatch, Calm, Cheapest, Encode, Wired;
    var m1;
    var e2, bytes := e.(queue := [], lastSeq := e.lastSeq + 1), Encode(Data(p));
    longer, l2 := Transmitted(states, others, e, p, l, f, Port(Up, [], m), m, mbps, now);
    Crossing(l, l2, m, bytes, now);
    m1, m2 := LinkReceives(l2, m, p, now);
    longer := RightMoves(longer, others, e2, Port(Up, [], l2), f, m, Readable(bytes), now);
    longer := RightDelivers(longer, others, e2, Port(Up, [], l2), f, m1, p, now);
  }

  /** A packet is read from the target, crosses and is dispatched. */
  lemma Carried(states: seq<System>, others: seq<Cable>, c: u64, log: seq<Payload>, lastSeq: u64, data: Payload,
                l: LinkState, f: Endpoint, m: LinkState, mbps: seq<real>, now: u64)
    returns (longer: seq<System>, l2: LinkState, m2: LinkState)
    requires Run(states) && states != [] && |log| < TWO63 && |data| <= MAX_DATA
    requires states[|states| - 1] == Wired(others, Sender(c, log, [], lastSeq), Port(Up, [], l), f, Port(Up, [], m))
    requires Calm(l, m, now) && Cheapest(others, l, mbps) && l.lastSeqSent <= lastSeq < TWO64 - 1 && !f.aborted
    ensures Run(longer) && longer != []
    ensures longer[|longer| - 1] ==
            Wired(others, Sender(c, log + [data], [], lastSeq + 1), Port(Up, [], l2),
                  Dispatch(f, EncodePacket(c, |log|, data)), Port(Up, [], m2))
    ensures Calm(l2, m2, now) && l2.lastSeqSent == lastSeq + 1 && l2.lastPing == l.lastPing && l2.rtt == l.rtt
    ensures l2.inflight == l.inflight + [InFlight(lastSeq + 1, EncodePacket(c, |log|, data), now)]
    ensures l2.inflightBytes == l.inflightBytes + TRANSPORT_HEADER + |data|
  {
    hide Run, EncodePacket, Dispatch, Calm, Cheapest, Wired, CanTurn, AfterTurn, PacketsOf;
    var e, p := Sender(c, log, [], lastSeq), EncodePacket(c, |log|, data);
    ReadsNext(c, log, lastSeq, data);
    longer := TurnTaken(states, others, e, Port(Up, [], l), f, Port(Up, [], m), ReadFrom(c, data));
    longer, l2, m2 := Shipped(longer, others, Sender(c, log + [data], [p], lastSeq), p, l, f, m, mbps, now);
  }

  lemma Crossing(l: LinkState, l2: LinkState, m: LinkState, bytes: seq<byte>, now: u64)
    requires Calm(l, m, now) && l2.written == l.written + bytes
    ensures l2.written == m.consumed + bytes
  {
  }

  // ------------------------------------------------------------- ping and pong

  const PingTime: u64 := 300_000

  /** l pings and the stream takes the ping. */
  lemma LinkPings(l: LinkState, m: LinkState) returns (l1: LinkState, l2: LinkState)
    requires Calm(l, m, 0) && l.lastPing == 0 && (l.inflight != [] ==> l.inflight[0].time == 0)
    ensures Enabled(l, Timer, PingTime) && l1 == Next(l, Timer, PingTime)
    ensures var n := |Encode(Ping(PingTime, l.lastSeqSent))|;
            Enabled(l1, RunWrite(n), PingTime) && l2 == Next(l1, RunWrite(n), PingTime)
    ensures l2.written == l.written + Encode(Ping(PingTime, l.lastSeqSent)) && SameInput(l, l2) && l2.clock == PingTime
    ensures l2.inflight == l.inflight && l2.lastSeqSent == l.lastSeqSent && l2.lastPing == PingTime
    ensures Calm(l2, m.(consumed := l2.written), PingTime) && l2.inflightBytes == l.inflightBytes
  {
    hide Encode, Write;
    l1 := Next(l, Timer, PingTime);
    assert l1.sendBuf == Encode(Ping(PingTime, l.lastSeqSent));
    l2 := WritesOut(l1, PingTime);
  }

  /** m reads the ping, answers it, and the stream takes the pong. */
  lemma LinkPongs(l: LinkState, m: LinkState, seqno: u64) returns (m1: LinkState, m2: LinkState, m3: LinkState)
    requires Calm(l, m.(consumed := l.written), PingTime) && l.written == m.consumed + Encode(Ping(PingTime, seqno))
    ensures var bytes := Encode(Ping(PingTime, seqno));
            PairEnabled(m, l, Readable(bytes), PingTime) && m1 == Next(m, Readable(bytes), PingTime)
    ensures Enabled(m1, RunAux, PingTime) && m2 == Next(m1, RunAux, PingTime)
    ensures var n := |Encode(Pong(PingTime, seqno))|; Enabled(m2, RunWrite(n), PingTime) && m3 == Next(m2, RunWrite(n), PingTime)
    ensures m3.written == m.written + Encode(Pong(PingTime, seqno))
    ensures Calm(l.(consumed := m3.written), m3, PingTime)
  {
    hide Encode, ParseAll, Write;
    ReadOneFrame(At(m, PingTime), Ping(PingTime, seqno), PingTime);
    m1 := Next(m, Readable(Encode(Ping(PingTime, seqno))), PingTime);
    m2 := Next(m1, RunAux, PingTime);
    assert m2.sendBuf == Encode(Pong(PingTime, seqno));
    m3 := WritesOut(m2, PingTime);
  }

  /** l reads the pong at time `late`. */
  lemma LinkHears(l: LinkState, m: LinkState, seqno: u64, late: u64) returns (l1: LinkState)
    requires !l.aborted && !l.timedOut && l.clock <= late && l.recvBuf == [] && l.waiting.None?
    requires m.written == l.consumed + Encode(Pong(PingTime, seqno))
    ensures var bytes := Encode(Pong(PingTime, seqno));
            && PairEnabled(l, m, Readable(bytes), late) && l1 == Next(l, Readable(bytes), late)
            && l1 == Handle(At(l, late).(consumed := l.consumed + bytes, got := l.got + [Pong(PingTime, seqno)]),
                            Pong(PingTime, seqno), late)
  {
    hide Encode, ParseAll, Handle;
    ReadOneFrame(At(l, late), Pong(PingTime, seqno), late);
    l1 := Next(l, Readable(Encode(Pong(PingTime, seqno))), late);
  }

  /** Left pings and Right answers. */
  lemma PongOut(states: seq<System>, others: seq<Cable>, e: Endpoint, l: LinkState, f: Endpoint, m: LinkState)
    returns (longer: seq<System>, l1: LinkState, m2: LinkState)
    requires Run(states) && states != []
    requires states[|states| - 1] == Wired(others, e, Port(Up, [], l), f, Port(Up, [], m))
    requires Calm(l, m, 0) && !e.aborted && !f.aborted
    requires l.lastPing == 0 && (l.inflight != [] ==> l.inflight[0].time == 0)
    ensures Run(longer) && longer != []
    ensures longer[|longer| - 1] == Wired(others, e, Port(Up, [], l1), f, Port(Up, [], m2))
    ensures Waits(l, l1) && m2.written == l1.consumed + Encode(Pong(PingTime, l.lastSeqSent))
    ensures Calm(l1.(consumed := m2.written), m2, PingTime)
  {
    hide Run, Next, Enabled, Calm, Encode, Wired;
    var k := l.lastSeqSent;
    var ping, pong := Encode(Ping(PingTime, k)), Encode(Pong(PingTime, k));
    var l0, m0, m1;
    l0, l1 := LinkPings(l, m);
    Crossing(l, l1, m, ping, 0);
    m0, m1, m2 := LinkPongs(l1, m, k);
    Answered(l, l1, m, m2, pong);
    longer := LeftMoves(states, others, e, l, f, Port(Up, [], m), Timer, PingTime);
    longer := LeftMoves(longer, others, e, l0, f, Port(Up, [], m), RunWrite(|ping|), PingTime);
    longer := RightMoves(longer, others, e, Port(Up, [], l1), f, m, Readable(ping), PingTime);
    longer := RightMoves(longer, others, e, Port(Up, [], l1), f, m0, RunAux, PingTime);
    longer := RightMoves(longer, others, e, Port(Up, [], l1), f, m1, RunWrite(|pong|), PingTime);
  }

  /** r is l waiting for the answer to its ping. */
  predicate Waits(l: LinkState, r: LinkState) {
    && r.inflight == l.inflight && r.inflightBytes == l.inflightBytes && r.lastSeqSent == l.lastSeqSent
    && r.lastPing == PingTime && r.clock == PingTime && r.recvBuf == [] && r.waiting.None?
    && !r.bloat && !r.timedOut && !r.aborted
  }

  lemma Answered(l: LinkState, l1: LinkState, m: LinkState, m2: LinkState, pong: seq<byte>)
    requires Calm(l, m, 0) && Calm(l1, m.(consumed := l1.written), PingTime) && m2.written == m.written + pong
    ensures !l1.aborted && !l1.timedOut && l1.recvBuf == [] && l1.waiting.None? && !l1.bloat
    ensures m2.written == l1.consumed + pong
  {
  }

  /** Left pings, Right answers, and Left reads the answer. */
  lemma Pinged(states: seq<System>, others: seq<Cable>, e: Endpoint, l: LinkState, f: Endpoint, m: LinkState, late: u64)
    returns (longer: seq<System>, before: LinkState, l2: LinkState, m2: LinkState)
    requires Run(states) && states != []
    requires states[|states| - 1] == Wired(others, e, Port(Up, [], l), f, Port(Up, [], m))
    requires Calm(l, m, 0) && !e.aborted && !f.aborted && PingTime <= late
    requires l.lastPing == 0 && (l.inflight != [] ==> l.inflight[0].time == 0)
    ensures Run(longer) && longer != []
    ensures longer[|longer| - 1] == Wired(others, e, Port(Up, [], l2), f, Port(Up, [], m2))
    ensures Waits(l, before.(clock := PingTime)) && before.clock == late
    ensures Calm(before.(clock := PingTime), m2, PingTime)
    ensures l2 == Handle(before, Pong(PingTime, l.lastSeqSent), late)
  {
    hide Run, Next, Enabled, Calm, Handle, Encode, Wired;
    var k := l.lastSeqSent;
    var pong := Encode(Pong(PingTime, k));
    var l1;
    longer, l1, m2 := PongOut(states, others, e, l, f, m);
    l2 := LinkHears(l1, m2, k, late);
    before := At(l1, late).(consumed := l1.consumed + pong, got := l1.got + [Pong(PingTime, k)]);
    StillCalm(l1.(consumed := m2.written), m2, before.got);
    longer := LeftMoves(longer, others, e, l1, f, Port(Up, [], m2), Readable(pong), late);
  }

  lemma StillCalm(l: LinkState, m: LinkState, got: seq<Frame>)
    requires Calm(l, m, PingTime)
    ensures Calm(l.(got := got), m, PingTime)
  {
  }

  lemma {:induction false} AllFlushed(q: seq<InFlight>, ack: u64)
    requires forall i :: 0 <= i < |q| ==> q[i].seqno <= ack
    ensures FlushCount(q, ack) == |q|
  {
    if q != [] {
      AllFlushed(q[1..], ack);
    }
  }

  /** A pong at once: everything in flight is acknowledged and the round trip time is
      zero. */
  lemma PromptPong(l: LinkState, m: LinkState, seqno: u64)
    requires Calm(l, m, PingTime) && l.clock == PingTime && forall i :: 0 <= i < |l.inflight| ==> l.inflight[i].seqno <= seqno
    ensures var r := Handle(l, Pong(PingTime, seqno), PingTime);
            && Calm(r, m, PingTime) && r.inflight == [] && r.rtt == 0 && r.lastPing == l.lastPing
            && r.lastSeqSent == l.lastSeqSent && r.inflightBytes == l.inflightBytes - TotalSize(l.inflight)
  {
    hide TotalSize;
    AllFlushed(l.inflight, seqno);
    assert l.inflight[..|l.inflight|] == l.inflight;
    assert Signed32(Sub64(PingTime, PingTime)) == 0;
  }

  // ---------------------------------------------------------- a packet arrives

  /** The right endpoint once the packet is in its reorder buffer. */
  function HasPlaced(c: u64, data: Payload, target: Target): Endpoint {
    FreshEndpoint.(children := map[c := FreshChild.(target := target, buffer := [Some(data)])])
  }

  lemma DispatchPlaces(c: u64, data: Payload)
    requires c != CLOSE_CHANNEL
    ensures Dispatch(FreshEndpoint, EncodePacket(c, 0, data)) == HasPlaced(c, data, Pending)
  {
    hide EncodePacket, PacketId, PacketSeq, PacketData;
    PacketRoundTrip(c, 0, data);
    assert RelSeq(0, 0) == 0;
    assert Padded([], 1)[0 := Some(data)] == [Some(data)];
    assert Dispatch(FreshEndpoint, EncodePacket(c, 0, data)).children == HasPlaced(c, data, Pending).children;
  }

  /** The first packet of a channel has crossed. */
  lemma FirstPacket(c: u64, data: Payload) returns (states: seq<System>, l: LinkState, m: LinkState)
    requires |data| <= MAX_DATA && c != CLOSE_CHANNEL
    ensures Run(states) && states != []
    ensures states[|states| - 1] ==
            Wired([], Sender(c, [data], [], 1), Port(Up, [], l), HasPlaced(c, data, Pending), Port(Up, [], m))
    ensures Calm(l, m, 0) && l.lastSeqSent == 1 && l.lastPing == 0
    ensures l.inflight == [InFlight(1, EncodePacket(c, 0, data), 0)]
  {
    hide Run, EncodePacket, Dispatch, Calm, Cheapest, Wired, PacketsOf;
    states := Opened(c);
    FreshCalm();
    OnlyOne(Fresh);
    states, l, m := Carried(states, [], c, [], 0, data, Fresh, FreshEndpoint, Fresh, [MIN_MBPS], 0);
    DispatchPlaces(c, data);
    assert [] + [data] == [data];
  }

  lemma ForwardsPlaced(c: u64, data: Payload)
    ensures var e := HasPlaced(c, data, Pending);
            && CanTurn(e, OpenTarget(c)) && AfterTurn(e, OpenTarget(c)) == HasPlaced(c, data, Open)
            && CanTurn(HasPlaced(c, data, Open), ForwardTo(c))
            && var f := AfterTurn(HasPlaced(c, data, Open), ForwardTo(c));
               && c in f.children && f.children[c].forwarded == [data] && f.children[c].buffer == []
               && !f.aborted && f.orphans == []
  {
    assert AfterTurn(HasPlaced(c, data, Pending), OpenTarget(c)).children == HasPlaced(c, data, Open).children;
  }

  /** For every channel and every packet there is a run that delivers it. */
  lemma PacketArrives(c: u64, data: Payload) returns (states: seq<System>)
    requires |data| <= MAX_DATA && c != CLOSE_CHANNEL
    ensures Run(states) && states != []
    ensures Delivered(states[|states| - 1], Right, c) == [data] == Sent(states[|states| - 1], Left, c)
  {
    hide Run, EncodePacket, Calm, CanTurn, AfterTurn, PacketsOf;
    var l, m;
    states, l, m := FirstPacket(c, data);
    var e := Sender(c, [data], [], 1);
    ForwardsPlaced(c, data);
    states := RightTurn(states, [], e, Port(Up, [], l), HasPlaced(c, data, Pending), Port(Up, [], m), OpenTarget(c));
    states := RightTurn(states, [], e, Port(Up, [], l), HasPlaced(c, data, Open), Port(Up, [], m), ForwardTo(c));
  }
}
