/** Where the code departs from its intent, each with an input or a run that shows it. */
module Findings {
  import opened Bytes
  import opened Frames
  import opened LinkSpec
  import opened TransportSpec
  import opened Scheduling
  import opened SystemSpec
  import opened Witness
  import Checksum
  import IpPacket

  // -------------------------------- maybe_retransmit on an idle link with high latency

  const LatePongTime: u64 := PingTime + 3_000_001

  lemma LatePong(st: LinkState)
    requires st.waiting.None? && st.inflight == [] && !st.bloat && !st.timedOut
    ensures var r := Handle(st, Pong(PingTime, 0), LatePongTime);
            r.inflight == [] && r.bloat && !r.timedOut && r.aborted == st.aborted
  {
    hide Sub64, Signed32, Flush;
    LateRtt();
    var p := st.(rtt := Signed32(Sub64(LatePongTime, PingTime)), ackSeq := 0);
    assert BloatCheck(p) == p.(bloat := true);
    NothingToFlush(BloatCheck(p));
  }

  lemma NothingToFlush(st: LinkState)
    requires st.inflight == []
    ensures var r := Flush(st); r.inflight == [] && r.bloat == st.bloat && r.timedOut == st.timedOut && r.aborted == st.aborted
  {
    hide TotalSize;
  }

  lemma LateRtt()
    ensures Sub64(Signed32(Sub64(LatePongTime, PingTime)), 0) > BUFFERBLOAT_HIGH_MARK
  {
  }

  /** A run to a state in which a live link, which has exchanged nothing but one slow
      ping, is about to read the front of an empty queue: its next timer callback
      is undefined. */
  lemma IdleLinkTurnsUndefined() returns (states: seq<System>)
    ensures Run(states) && states != []
    ensures var s := states[|states| - 1];
            && HasUp(s, Left, 0) && !s.left.aborted
            && var l := s.cables[0].left.link; !l.aborted && !l.timedOut && l.inflight == [] && l.bloat && !RetransmitDefined(l)
  {
    hide Run, Calm, Handle;
    states := FirstCable();
    FreshCalm();
    var before, l, m;
    states, before, l, m := Pinged(states, [], FreshEndpoint, Fresh, FreshEndpoint, Fresh, LatePongTime);
    LatePong(before);
  }

  // ------------------------------------------------- place_packet beyond its window

  /** n packets without data. */
  function NoData(n: nat): seq<Payload> {
    seq(n, _ => [])
  }

  /** Packet 0 is with the first link, whose stream takes none of its bytes; a second
      link comes up. */
  lemma FirstStuck(c: u64) returns (states: seq<System>, slow: LinkState)
    ensures Run(states) && states != []
    ensures states[|states| - 1] ==
            Wired([Cable(Port(Up, [], slow), UpPort)], Sender(c, NoData(1), [], 1), UpPort, FreshEndpoint, UpPort)
    ensures slow.rtt == 5_000_000 && slow.inflightBytes == TRANSPORT_HEADER
  {
    hide Run, EncodePacket, CanTurn, AfterTurn, Calm, Cheapest, Next, Enabled, SendAccepts, PacketsOf;
    var p, l2 := EncodePacket(c, 0, []), Fresh;
    states := Opened(c);
    ReadsNext(c, [], 0, []);
    assert [] + [[]] == NoData(1);
    FreshCalm();
    OnlyOne(Fresh);
    slow, l2 := LinkSends(Fresh, Fresh, 1, p, 0);
    states := TurnTaken(states, [], Sender(c, [], [], 0), UpPort, FreshEndpoint, UpPort, ReadFrom(c, []));
    states := Assigns(states, [], Sender(c, NoData(1), [p], 0), p, Fresh, FreshEndpoint, UpPort, [MIN_MBPS]);
    states := Submits(states, [], Sender(c, NoData(1), [], 0), p, Fresh, FreshEndpoint, UpPort, 0);
    var e := Sender(c, NoData(1), [], 1);
    assert states[|states| - 1].cables == [Cable(Port(Up, [], slow), UpPort)];
    states := Plugged(states, e, FreshEndpoint);
  }

  /** The first link keeps its large initial round trip time, the second has measured
      none, and both estimate the least bandwidth: the second stays the cheaper one. */
  lemma SecondCheaper(slow: LinkState, l: LinkState)
    requires slow.rtt == 5_000_000 && slow.inflightBytes == TRANSPORT_HEADER
    requires l.rtt == 0 && 0 <= l.inflightBytes <= TRANSPORT_HEADER * MAX_BUFFER_PACKETS
    ensures Cheapest([Cable(Port(Up, [], slow), UpPort)], l, [MIN_MBPS, MIN_MBPS])
  {
    var x := l.inflightBytes as real / MIN_MBPS;
    assert x == 10.0 * l.inflightBytes as real;
    assert Key(LinkView(0.0, MIN_MBPS), l.inflightBytes) <= 10 * TRANSPORT_HEADER * MAX_BUFFER_PACKETS;
    assert Key(LinkView(5_000_000.0, MIN_MBPS), TRANSPORT_HEADER) >= 10_000_000;
  }

  /** Packet 0 is missing and the next n are there. */
  function Holed(n: nat): seq<Option<Payload>> {
    [None] + seq(n, _ => Some([]))
  }

  /** The right endpoint in that state. */
  function Waiting(c: u64, n: nat): Endpoint {
    if n == 0 then FreshEndpoint
    else FreshEndpoint.(children := map[c := FreshChild.(buffer := Holed(n))])
  }

  lemma BuffersNext(c: u64, n: nat)
    requires c != CLOSE_CHANNEL && n + 1 < MAX_BUFFER_PACKETS
    ensures Dispatch(Waiting(c, n), EncodePacket(c, n + 1, [])) == Waiting(c, n + 1)
  {
    hide EncodePacket, PacketId, PacketSeq, PacketData;
    PacketRoundTrip(c, n + 1, []);
    assert RelSeq(n + 1, 0) == n + 1;
    var g := GetChild(Waiting(c, n), c);
    var buf := Padded(g.children[c].buffer, n + 2);
    assert buf[n + 1].None?;
    assert buf[n + 1 := Some([])] == Holed(n + 1);
    assert Dispatch(Waiting(c, n), EncodePacket(c, n + 1, [])).children == Waiting(c, n + 1).children;
  }

  lemma BeyondWindow(c: u64)
    requires c != CLOSE_CHANNEL
    ensures Dispatch(Waiting(c, MAX_BUFFER_PACKETS - 1), EncodePacket(c, MAX_BUFFER_PACKETS, [])).aborted
  {
    hide EncodePacket, PacketId, PacketSeq, PacketData;
    PacketRoundTrip(c, MAX_BUFFER_PACKETS, []);
    assert RelSeq(MAX_BUFFER_PACKETS, 0) == MAX_BUFFER_PACKETS;
  }

  /** What is known of the second link after n packets, one a microsecond. */
  ghost predicate Ahead(l: LinkState, m: LinkState, n: nat) {
    && n <= MAX_BUFFER_PACKETS && Calm(l, m, PingTime + n) && l.lastPing == PingTime
    && l.rtt == 0 && l.inflightBytes == TRANSPORT_HEADER * n && l.lastSeqSent <= n + 1
  }

  lemma Later(l: LinkState, m: LinkState, n: nat)
    requires Ahead(l, m, n) && n < MAX_BUFFER_PACKETS
    ensures Calm(l, m, PingTime + n + 1)
  {
  }

  /** The second link has pinged and heard the answer at once. */
  lemma NoneAhead(c: u64) returns (states: seq<System>, slow: LinkState, l: LinkState, m: LinkState)
    ensures Run(states) && states != [] && slow.rtt == 5_000_000 && slow.inflightBytes == TRANSPORT_HEADER
    ensures states[|states| - 1] ==
            Wired([Cable(Port(Up, [], slow), UpPort)], Sender(c, NoData(1), [], 1), Port(Up, [], l), FreshEndpoint, Port(Up, [], m))
    ensures Ahead(l, m, 0)
  {
    hide Run, Calm, Handle, PacketsOf;
    var before;
    states, slow := FirstStuck(c);
    FreshCalm();
    states, before, l, m :=
      Pinged(states, [Cable(Port(Up, [], slow), UpPort)], Sender(c, NoData(1), [], 1), Fresh, FreshEndpoint, Fresh, PingTime);
    assert before.(clock := PingTime) == before;
    PromptPong(before, m, 0);
  }

  /** Packets 1 to n go by the second link, one by one, and are received. */
  lemma {:induction false} SecondAhead(c: u64, n: nat) returns (states: seq<System>, slow: LinkState, l: LinkState, m: LinkState)
    requires c != CLOSE_CHANNEL && n < MAX_BUFFER_PACKETS
    ensures Run(states) && states != [] && slow.rtt == 5_000_000 && slow.inflightBytes == TRANSPORT_HEADER
    ensures states[|states| - 1] ==
            Wired([Cable(Port(Up, [], slow), UpPort)], Sender(c, NoData(n + 1), [], n + 1), Port(Up, [], l),
                  Waiting(c, n), Port(Up, [], m))
    ensures Ahead(l, m, n)
  {
    hide Run, EncodePacket, Dispatch, Calm, Cheapest, PacketsOf, Wired, Waiting, Ahead;
    if n == 0 {
      states, slow, l, m := NoneAhead(c);
      assert Waiting(c, 0) == FreshEndpoint by { NothingWaiting(c); }
    } else {
      states, slow, l, m := SecondAhead(c, n - 1);
      states, l, m := OneAhead(states, c, n - 1, slow, l, m);
      BuffersNext(c, n - 1);
    }
  }

  lemma NothingWaiting(c: u64)
    ensures Waiting(c, 0) == FreshEndpoint
  {
  }

  /** One more packet goes by the second link. */
  lemma OneAhead(states: seq<System>, c: u64, n: nat, slow: LinkState, l: LinkState, m: LinkState)
    returns (longer: seq<System>, l2: LinkState, m2: LinkState)
    requires Run(states) && states != [] && slow.rtt == 5_000_000 && slow.inflightBytes == TRANSPORT_HEADER
    requires n < MAX_BUFFER_PACKETS && Ahead(l, m, n)
    requires states[|states| - 1] ==
             Wired([Cable(Port(Up, [], slow), UpPort)], Sender(c, NoData(n + 1), [], n + 1), Port(Up, [], l),
                   Waiting(c, n), Port(Up, [], m))
    ensures Run(longer) && longer != []
    ensures longer[|longer| - 1] ==
            Wired([Cable(Port(Up, [], slow), UpPort)], Sender(c, NoData(n + 2), [], n + 2), Port(Up, [], l2),
                  Dispatch(Waiting(c, n), EncodePacket(c, n + 1, [])), Port(Up, [], m2))
    ensures Ahead(l2, m2, n + 1)
  {
    hide Run, EncodePacket, Dispatch, Calm, Cheapest, PacketsOf, Wired;
    var others := [Cable(Port(Up, [], slow), UpPort)];
    Later(l, m, n);
    SecondCheaper(slow, l);
    assert NoData(n + 1) + [[]] == NoData(n + 2);
    longer, l2, m2 :=
      Carried(states, others, c, NoData(n + 1), n + 1, [], l, Waiting(c, n), m, [MIN_MBPS, MIN_MBPS], PingTime + n + 1);
  }

  /** On every channel, a run in which one link gets ahead of another by the window and
      the receiving process aborts. */
  lemma WindowOverrun(c: u64) returns (states: seq<System>)
    requires c != CLOSE_CHANNEL
    ensures Run(states) && states != [] && states[|states| - 1].right.aborted
  {
    hide Run, EncodePacket, Dispatch, PacketsOf, Waiting, Ahead;
    var slow, l, m;
    states, slow, l, m := SecondAhead(c, MAX_BUFFER_PACKETS - 1);
    states, l, m := OneAhead(states, c, MAX_BUFFER_PACKETS - 1, slow, l, m);
    BeyondWindow(c);
  }

  // ------------------------------------------------------------- UDP checksums

  /** Words past the last nonzero byte add nothing. */
  lemma {:induction false} ZeroWords(s: seq<byte>, from: nat, n: nat, big: bool)
    requires from <= n && forall i :: 2 * from <= i < |s| && i < 2 * n ==> s[i] == 0
    ensures Checksum.SumWords(s, n, big) == Checksum.SumWords(s, from, big)
    decreases n
  {
    if from < n {
      ZeroWords(s, from, n - 1, big);
      assert Checksum.Word(s, n - 1, big) == 0;
    }
  }

  /** A UDP packet whose header is only 12 bytes long. */
  const ShortHeader: seq<byte> := [0x43, 0, 0, 0, 0, 0, 0, 0, 0, IpPacket.UDP] + seq(22, _ => 0)

  /** The packet udp4_fill_checksum is given. */
  lemma BeforeFill(p: seq<byte>) returns (f: seq<byte>)
    requires |p| == 32 && p[0] == 0x43 && p[9] == IpPacket.UDP && forall i :: 12 <= i < 32 ==> p[i] == 0
    ensures IpPacket.HasHeader(p) && IpPacket.HasHeader(f) && IpPacket.HeaderLength(f) == 12 && |f| == 32
    ensures IpPacket.Rewritten(p, true, [10, 0, 0, 1]) == IpPacket.UdpFilled(f)
    ensures f[12..16] == [10, 0, 0, 1] && forall i :: 16 <= i < 32 ==> f[i] == 0
  {
    hide IpPacket.UdpFilled, IpPacket.IpFilled;
    var q := IpPacket.SetAddress(p, true, [10, 0, 0, 1]);
    IpPacket.IpFilledHeader(q);
    f := IpPacket.IpFilled(q);
  }

  lemma OverlapSummed(f: seq<byte>) returns (s: seq<byte>)
    requires |f| == 32 && IpPacket.HasHeader(f) && IpPacket.HeaderLength(f) == 12
    requires f[12..16] == [10, 0, 0, 1] && forall i :: 16 <= i < 32 ==> f[i] == 0
    ensures IpPacket.LongSegment(f) && s == IpPacket.Summed(IpPacket.Zeroed(f)) && |s| == 32
    ensures s[..12] == [10, 0, 0, 1, 0, 0, 0, 0, 0, 17, 0, 20]
    ensures s[12..16] == [10, 0, 0, 1] && forall i :: 16 <= i < 32 ==> s[i] == 0
  {
    var z := IpPacket.Zeroed(f);
    s := IpPacket.Summed(z);
    assert z[12..20] == f[12..16] + [0, 0, 0, 0];
    assert s[..12] == IpPacket.Pseudo(z);
    assert s[12..] == z[12..];
    assert s[12..16] == z[12..16] == f[12..16];
    assert forall i :: 16 <= i < 32 ==> s[i] == s[12..][i - 12] == z[i];
  }

  lemma OverlapSum(s: seq<byte>)
    requires |s| == 32 && s[..12] == [10, 0, 0, 1, 0, 0, 0, 0, 0, 17, 0, 20] && s[12..16] == [10, 0, 0, 1]
    requires forall i :: 16 <= i < 32 ==> s[i] == 0
    ensures Checksum.Sum(s, false) == 10004
  {
    assert forall i :: 0 <= i < 12 ==> s[i] == s[..12][i];
    assert forall i :: 12 <= i < 16 ==> s[i] == s[12..16][i - 12];
    assert Checksum.SumWords(s, 2, false) == Checksum.Word(s, 0, false) + Checksum.Word(s, 1, false) == 266;
    assert Checksum.SumWords(s, 6, false) == 266 + Checksum.Word(s, 4, false) + Checksum.Word(s, 5, false) by {
      assert Checksum.Word(s, 2, false) == 0 && Checksum.Word(s, 3, false) == 0;
      assert Checksum.SumWords(s, 4, false) == 266;
    }
    assert Checksum.SumWords(s, 8, false) == 10004 by {
      assert Checksum.Word(s, 6, false) == 10 && Checksum.Word(s, 7, false) == 256;
    }
    ZeroWords(s, 8, 16, false);
  }

  /** A header length of 12 puts the checksum field among the addresses: the rewritten
      packet does not verify. */
  lemma OverlappingFieldFails()
    ensures IpPacket.HasHeader(ShortHeader) && ShortHeader[9] == IpPacket.UDP
    ensures var r := IpPacket.Rewritten(ShortHeader, true, [10, 0, 0, 1]);
            IpPacket.HasHeader(r) && !IpPacket.UdpVerifies(r)
  {
    hide Checksum.Sum, Checksum.FoldAll, IpPacket.UdpFilled, IpPacket.Rewritten, IpPacket.Summed, IpPacket.Zeroed;
    var f := BeforeFill(ShortHeader);
    var s := OverlapSummed(f);
    OverlapSum(s);
    IpPacket.UdpFilledVerifies(f);
  }

  /** An eight-byte datagram between zero addresses, with the checksum they need. */
  const ShortDatagram: seq<byte> :=
    [0x45, 0, 0, 0, 0, 0, 0, 0, 0, 17, 0, 0, 0, 0, 0, 0, 0, 0, 0, 0, 0, 0, 0, 0, 0, 0, 0xFF, 0xE6]

  lemma DatagramVerifies(p: seq<byte>)
    requires |p| == 28 && p[0] == 0x45 && p[26] == 0xFF && p[27] == 0xE6 && forall i :: 12 <= i < 26 ==> p[i] == 0
    ensures IpPacket.HasHeader(p) && IpPacket.UdpVerifies(p)
  {
    hide Checksum.Sum, Checksum.FoldAll, IpPacket.Summed;
    IpPacket.SummedBytes(p);
    var s := IpPacket.Summed(p);
    assert forall i :: 12 <= i < 20 ==> s[i] == s[12..][i - 12] == p[20..][i - 12] == p[8 + i];
    DatagramSum(s);
    Checksum.AllOnesIff(Checksum.Sum(s, true));
  }

  /** It verifies, and after the rewrite it does not. */
  lemma ShortDatagramFails()
    ensures IpPacket.HasHeader(ShortDatagram) && IpPacket.UdpVerifies(ShortDatagram)
    ensures var r := IpPacket.Rewritten(ShortDatagram, true, [10, 0, 0, 1]);
            IpPacket.HasHeader(r) && !IpPacket.UdpVerifies(r)
  {
    hide Checksum.Sum, IpPacket.UdpVerifies, IpPacket.Rewritten, IpPacket.Exposed, IpPacket.ExposedLater;
    DatagramVerifies(ShortDatagram);
    IpPacket.SkippedSegment(ShortDatagram, true, [10, 0, 0, 1]);
    AddressSums(ShortDatagram[12..20], IpPacket.SetAddress(ShortDatagram, true, [10, 0, 0, 1])[12..20]);
  }

  lemma DatagramSum(s: seq<byte>)
    requires |s| == 20 && s[9] == 17 && s[11] == 8 && s[18] == 0xFF && s[19] == 0xE6
    requires forall i :: 0 <= i < 18 && i != 9 && i != 11 ==> s[i] == 0
    ensures Checksum.Sum(s, true) == 0xFFFF
  {
    ZeroWords(s, 0, 4, true);
    ZeroWords(s, 6, 9, true);
    assert Checksum.SumWords(s, 6, true) == Checksum.SumWords(s, 4, true) + Checksum.Word(s, 4, true) + Checksum.Word(s, 5, true);
    assert Checksum.SumWords(s, 10, true) == Checksum.SumWords(s, 9, true) + Checksum.Word(s, 9, true);
  }

  lemma AddressSums(before: seq<byte>, after: seq<byte>)
    requires before == [0, 0, 0, 0, 0, 0, 0, 0] && after == [10, 0, 0, 1, 0, 0, 0, 0]
    ensures Checksum.Sum(before, true) == 0 && Checksum.Sum(after, true) == 2561
  {
    ZeroWords(before, 0, 4, true);
    ZeroWords(after, 2, 4, true);
    assert Checksum.SumWords(after, 2, true) == Checksum.Word(after, 0, true) + Checksum.Word(after, 1, true);
  }
}
