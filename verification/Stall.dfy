/** A run in which transport_read_ready stops with room in its buffer and bytes in
    the stream, and nothing is scheduled that would read them. */
module Stall {
  import opened Bytes
  import opened Frames
  import opened LinkSpec
  import opened LinkReading
  import opened TransportSpec
  import opened Scheduling
  import opened SystemSpec
  import opened Witness

  // ------------------------------------------------------------- the left link

  /** The second packet goes out after the first and the ping. */
  lemma SecondOut(states: seq<System>, c: u64, x: Payload, y: Payload, l: LinkState, m: LinkState)
    returns (longer: seq<System>, l2: LinkState)
    requires Run(states) && states != [] && |x| <= MAX_DATA && |y| <= MAX_DATA
    requires states[|states| - 1] == Wired([], Sender(c, [x], [], 1), Port(Up, [], l), FreshEndpoint, UpPort)
    requires Calm(l, m, PingTime) && l.lastSeqSent == 1
    ensures Run(longer) && longer != []
    ensures longer[|longer| - 1] == Wired([], Sender(c, [x, y], [], 2), Port(Up, [], l2), FreshEndpoint, UpPort)
    ensures l2.written == l.written + Encode(Data(EncodePacket(c, 1, y)))
  {
    hide Run, EncodePacket, Encode, Calm, Wired, CanTurn, AfterTurn, PacketsOf, Cheapest;
    var q := EncodePacket(c, 1, y);
    ReadsNext(c, [x], 1, y);
    assert [x] + [y] == [x, y];
    OnlyOne(l);
    longer := TurnTaken(states, [], Sender(c, [x], [], 1), Port(Up, [], l), FreshEndpoint, UpPort, ReadFrom(c, y));
    longer, l2 := Transmitted(longer, [], Sender(c, [x, y], [q], 1), q, l, FreshEndpoint, UpPort, m, [MIN_MBPS], PingTime);
  }

  /** The first packet and a ping are in the stream. */
  lemma PacketAndPing(c: u64, x: Payload) returns (states: seq<System>, l: LinkState, m: LinkState)
    requires |x| <= MAX_DATA
    ensures Run(states) && states != []
    ensures states[|states| - 1] == Wired([], Sender(c, [x], [], 1), Port(Up, [], l), FreshEndpoint, UpPort)
    ensures l.written == Encode(Data(EncodePacket(c, 0, x))) + Encode(Ping(PingTime, 1))
    ensures Calm(l, m, PingTime) && l.lastSeqSent == 1
  {
    hide Run, EncodePacket, Encode, Calm, Next, Enabled, Wired, CanTurn, AfterTurn, PacketsOf, Cheapest;
    var p, l0, l1 := EncodePacket(c, 0, x), Fresh, Fresh;
    states := Opened(c);
    FreshCalm();
    OnlyOne(Fresh);
    ReadsNext(c, [], 0, x);
    assert [] + [x] == [x];
    states := TurnTaken(states, [], Sender(c, [], [], 0), UpPort, FreshEndpoint, UpPort, ReadFrom(c, x));
    states, l0 := Transmitted(states, [], Sender(c, [x], [p], 0), p, Fresh, FreshEndpoint, UpPort, Fresh, [MIN_MBPS], 0);
    assert Fresh.written + Encode(Data(p)) == Encode(Data(p));
    m := Fresh.(consumed := l0.written);
    l1, l := LinkPings(l0, m);
    m := m.(consumed := l.written);
    var e := Sender(c, [x], [], 1);
    states := LeftMoves(states, [], e, l0, FreshEndpoint, UpPort, Timer, PingTime);
    states := LeftMoves(states, [], e, l1, FreshEndpoint, UpPort, RunWrite(|Encode(Ping(PingTime, 1))|), PingTime);
  }

  // ------------------------------------------------------------ the right link

  /** The buffer is full while a packet waits. */
  lemma FullBuffer(p: Payload, chunk: seq<byte>) returns (m1: LinkState, m2: LinkState)
    requires |p| <= MULTILINK_MTU && |chunk| == LINK_MTU
    ensures Enabled(Fresh, Readable(Encode(Data(p))), 0) && m1 == Next(Fresh, Readable(Encode(Data(p))), 0)
    ensures Enabled(m1, Readable(chunk), 0) && m2 == Next(m1, Readable(chunk), 0)
    ensures m1.consumed == Encode(Data(p)) && m2.consumed == Encode(Data(p)) + chunk
    ensures m2.recvBuf == chunk && m2.waiting == Some(p) && m2.pending == multiset{RecvReady} && m2.clock == 0
    ensures !m2.aborted && !m2.timedOut
  {
    hide Encode, TryParse;
    ReadOneFrame(At(Fresh, 0), Data(p), 0);
    m1 := Next(Fresh, Readable(Encode(Data(p))), 0);
    m2 := Next(m1, Readable(chunk), 0);
  }

  /** The packet is taken and the scheduled read finds a ping and part of a frame. */
  lemma ReadEnds(m: LinkState, part: seq<byte>, f: Frame) returns (m1: LinkState, m2: LinkState)
    requires m.waiting.Some? && m.pending == multiset{RecvReady} && m.clock == 0 && !m.aborted && !m.timedOut
    requires Fits(f) && part < Encode(f) && m.recvBuf == Encode(Ping(PingTime, 1)) + part && |m.recvBuf| == LINK_MTU
    ensures Enabled(m, TakePacket, 0) && m1 == Next(m, TakePacket, 0)
    ensures Enabled(m1, RunRead([]), 0) && m2 == Next(m1, RunRead([]), 0) && m1.consumed == m.consumed
    ensures m2.recvBuf == part && m2.waiting.None? && ReadCallback !in m2.pending && m2.consumed == m.consumed
    ensures !m2.aborted && !m2.timedOut
  {
    hide Encode, TryParse;
    m1 := Next(m, TakePacket, 0);
    m2 := Next(m1, RunRead([]), 0);
    var s := Ran(m1, ReadCallback);
    assert s.recvBuf + [] == s.recvBuf && s.consumed + [] == s.consumed;
    assert Receive(s, []) == s;
    ParseEncoded(Ping(PingTime, 1), part);
    ParsePrefixWaits(f, part);
    assert !CanParse(ParseStep(s, 0));
    assert ParseAll(ParseStep(s, 0), 0) == ParseStep(s, 0);
  }

  // ------------------------------------------------------------------ the run

  /** Right reads the first packet and, while that waits, a buffer full of bytes. */
  lemma ReadAhead(states: seq<System>, e: Endpoint, l: LinkState, p: Payload, chunk: seq<byte>)
    returns (longer: seq<System>, m: LinkState)
    requires Run(states) && states != [] && states[|states| - 1] == Wired([], e, Port(Up, [], l), FreshEndpoint, UpPort)
    requires |p| <= MULTILINK_MTU && |chunk| == LINK_MTU && Encode(Data(p)) + chunk <= l.written
    ensures Run(longer) && longer != []
    ensures longer[|longer| - 1] == Wired([], e, Port(Up, [], l), FreshEndpoint, Port(Up, [], m))
    ensures m.consumed == Encode(Data(p)) + chunk && m.recvBuf == chunk && m.waiting == Some(p)
    ensures m.pending == multiset{RecvReady} && m.clock == 0 && !m.aborted && !m.timedOut
  {
    hide Run, Encode, Next, Enabled;
    var m1;
    m1, m := FullBuffer(p, chunk);
    assert Fresh.consumed + Encode(Data(p)) == Encode(Data(p)) <= l.written;
    longer := RightMoves(states, [], e, Port(Up, [], l), FreshEndpoint, Fresh, Readable(Encode(Data(p))), 0);
    longer := RightMoves(longer, [], e, Port(Up, [], l), FreshEndpoint, m1, Readable(chunk), 0);
  }

  /** The packet is delivered and the scheduled read takes place. */
  lemma TakenAndRead(states: seq<System>, e: Endpoint, l: LinkState, c: u64, x: Payload, m: LinkState, part: seq<byte>, f: Frame)
    returns (longer: seq<System>, m2: LinkState)
    requires Run(states) && states != [] && states[|states| - 1] == Wired([], e, Port(Up, [], l), FreshEndpoint, Port(Up, [], m))
    requires m.waiting == Some(EncodePacket(c, 0, x)) && c != CLOSE_CHANNEL && m.consumed <= l.written
    requires m.pending == multiset{RecvReady} && m.clock == 0 && !m.aborted && !m.timedOut
    requires Fits(f) && part < Encode(f) && m.recvBuf == Encode(Ping(PingTime, 1)) + part && |m.recvBuf| == LINK_MTU
    ensures Run(longer) && longer != []
    ensures longer[|longer| - 1] == Wired([], e, Port(Up, [], l), HasPlaced(c, x, Pending), Port(Up, [], m2))
    ensures m2.recvBuf == part && m2.waiting.None? && ReadCallback !in m2.pending && m2.consumed == m.consumed
    ensures !m2.aborted && !m2.timedOut
  {
    hide Run, EncodePacket, Encode, Next, Enabled, Dispatch;
    var m1;
    m1, m2 := ReadEnds(m, part, f);
    DispatchPlaces(c, x);
    var placed := HasPlaced(c, x, Pending);
    longer := RightDelivers(states, [], e, Port(Up, [], l), FreshEndpoint, m, EncodePacket(c, 0, x), 0);
    assert m1.consumed + [] == m1.consumed;
    longer := RightMoves(longer, [], e, Port(Up, [], l), placed, m1, RunRead([]), 0);
  }

  /** For every channel and every packet of the largest size, after any first packet:
      a run to a state in which the right link waits for nothing, has room, no read
      is scheduled, and the left end has written bytes that it has not read. */
  lemma ReadingStalls(c: u64, x: Payload, y: Payload) returns (states: seq<System>)
    requires |x| <= MAX_DATA && |y| == MAX_DATA && c != CLOSE_CHANNEL
    ensures Run(states) && states != []
    ensures var s := states[|states| - 1];
            && |s.cables| == 1 && HasUp(s, Left, 0) && HasUp(s, Right, 0)
            && var l, m := s.cables[0].left.link, s.cables[0].right.link;
               && !m.timedOut && !m.aborted && m.waiting.None? && |m.recvBuf| < LINK_MTU
               && ReadCallback !in m.pending && m.consumed < l.written
  {
    hide Run, EncodePacket, Encode, Calm, PacketsOf;
    var l, m;
    var p, q := EncodePacket(c, 0, x), EncodePacket(c, 1, y);
    var e := Sender(c, [x, y], [], 2);
    states, l, m := PacketAndPing(c, x);
    states, l := SecondOut(states, c, x, y, l, m);
    var chunk, part := CutStream(p, q);
    states, m := ReadAhead(states, e, l, p, chunk);
    states, m := TakenAndRead(states, e, l, c, x, m, part, Data(q));
  }

  /** The largest read after the first frame ends within the last. */
  lemma CutStream(p: Payload, q: Payload) returns (chunk: seq<byte>, part: seq<byte>)
    requires |p| <= MULTILINK_MTU && |q| == MULTILINK_MTU
    ensures |chunk| == LINK_MTU && chunk == Encode(Ping(PingTime, 1)) + part && part < Encode(Data(q))
    ensures |part| < LINK_MTU
    ensures Encode(Data(p)) + chunk < Encode(Data(p)) + Encode(Ping(PingTime, 1)) + Encode(Data(q))
  {
    var ping, data := Encode(Ping(PingTime, 1)), Encode(Data(q));
    EncodedSizes(q);
    part := data[..LINK_MTU - |ping|];
    chunk := ping + part;
    assert ping + data == chunk + data[LINK_MTU - |ping|..];
    assert Encode(Data(p)) + ping + data == Encode(Data(p)) + chunk + data[LINK_MTU - |ping|..];
  }

  lemma EncodedSizes(q: Payload)
    requires |q| == MULTILINK_MTU
    ensures |Encode(Ping(PingTime, 1))| == HEADER_SIZE + 2 * WORD && |Encode(Data(q))| == LINK_MTU
  {
  }
}
