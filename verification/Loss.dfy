/** Runs that lose a packet because an id is given away: by the sender, while its first
    channel is open, so that both channels send under the same numbers; and by the
    receiver, after it has received. */
module Loss {
  import opened Bytes
  import opened Frames
  import opened LinkSpec
  import opened TransportSpec
  import opened Scheduling
  import opened SystemSpec
  import EndToEnd
  import opened Witness

  /** Two open channels under one id: the replaced one has sent n, the other m. */
  function Twice(c: u64, n: u64, m: u64): Endpoint {
    FreshEndpoint.(children := map[c := FreshChild.(target := Open, lastSent := m)],
                   orphans := [Orphan(c, FreshChild.(target := Open, lastSent := n))],
                   restarted := {c})
  }

  lemma OpenedTwice(c: u64) returns (states: seq<System>)
    ensures Run(states) && states != []
    ensures states[|states| - 1] == Wired([], Twice(c, 0, 0), UpPort, FreshEndpoint, UpPort)
  {
    hide Run;
    var e := Sender(c, [], [], 0);
    states := Opened(c);
    states := TurnTaken(states, [], e, UpPort, FreshEndpoint, UpPort, AddTarget(c));
    var f := AfterTurn(e, AddTarget(c));
    states := TurnTaken(states, [], f, UpPort, FreshEndpoint, UpPort, OpenTarget(c));
    assert AfterTurn(f, OpenTarget(c)).children == Twice(c, 0, 0).children;
    assert AfterTurn(f, OpenTarget(c)) == Twice(c, 0, 0);
  }

  /** The endpoint once the replaced channel has sent a packet. */
  function OldSent(c: u64, x: Payload, queue: seq<Payload>, lastSeq: u64): Endpoint {
    Twice(c, 1, 0).(queue := queue, lastSeq := lastSeq, log := map[c := [x]], accepted := [EncodePacket(c, 0, x)])
  }

  /** And once both have. */
  function BothSent(c: u64, x: Payload, y: Payload, queue: seq<Payload>, lastSeq: u64): Endpoint {
    Twice(c, 1, 1).(queue := queue, lastSeq := lastSeq, log := map[c := [x, y]],
                    accepted := [EncodePacket(c, 0, x), EncodePacket(c, 0, y)])
  }

  lemma OldReads(c: u64, x: Payload)
    requires |x| <= MAX_DATA
    ensures CanTurn(Twice(c, 0, 0), ReadOrphan(0, x))
    ensures AfterTurn(Twice(c, 0, 0), ReadOrphan(0, x)) == OldSent(c, x, [EncodePacket(c, 0, x)], 0)
  {
    hide EncodePacket;
    var e := AfterOrphanRead(Twice(c, 0, 0), 0, x);
    assert e.log == map[c := [x]] by { assert LogOf(Twice(c, 0, 0), c) + [x] == [x]; }
  }

  lemma NewReads(c: u64, x: Payload, y: Payload)
    requires |y| <= MAX_DATA
    ensures CanTurn(OldSent(c, x, [], 1), ReadFrom(c, y))
    ensures AfterTurn(OldSent(c, x, [], 1), ReadFrom(c, y)) == BothSent(c, x, y, [EncodePacket(c, 0, y)], 1)
  {
    hide EncodePacket;
    var e := OldSent(c, x, [], 1);
    var f := AfterRead(e, c, y);
    assert f.log == map[c := [x, y]] by { assert LogOf(e, c) + [y] == [x, y]; }
    assert f.children == Twice(c, 1, 1).children;
  }

  /** The second packet is taken for a duplicate of the first. */
  lemma SecondDropped(c: u64, x: Payload, y: Payload)
    requires c != CLOSE_CHANNEL
    ensures Dispatch(HasPlaced(c, x, Pending), EncodePacket(c, 0, y)) == HasPlaced(c, x, Pending)
  {
    hide EncodePacket, PacketId, PacketSeq, PacketData;
    PacketRoundTrip(c, 0, y);
    assert RelSeq(0, 0) == 0;
    var e := HasPlaced(c, x, Pending);
    assert Place(e.children[c], 0, y) == Some(e.children[c]);
    assert Dispatch(e, EncodePacket(c, 0, y)).children == e.children;
  }

  /** The replaced channel's packet crosses. */
  lemma OldCrosses(c: u64, x: Payload) returns (states: seq<System>, l: LinkState, m: LinkState)
    requires |x| <= MAX_DATA && c != CLOSE_CHANNEL
    ensures Run(states) && states != []
    ensures states[|states| - 1] == Wired([], OldSent(c, x, [], 1), Port(Up, [], l), HasPlaced(c, x, Pending), Port(Up, [], m))
    ensures Calm(l, m, 0) && l.lastSeqSent == 1 && l.lastPing == 0
    ensures l.inflight == [InFlight(1, EncodePacket(c, 0, x), 0)]
  {
    hide Run, EncodePacket, Dispatch, Calm, Cheapest, Wired, CanTurn, AfterTurn;
    var p := EncodePacket(c, 0, x);
    states := OpenedTwice(c);
    OldReads(c, x);
    states := TurnTaken(states, [], Twice(c, 0, 0), UpPort, FreshEndpoint, UpPort, ReadOrphan(0, x));
    FreshCalm();
    OnlyOne(Fresh);
    states, l, m := Shipped(states, [], OldSent(c, x, [p], 0), p, Fresh, FreshEndpoint, Fresh, [MIN_MBPS], 0);
    DispatchPlaces(c, x);
  }

  /** The new channel's packet crosses too, and both are acknowledged. */
  lemma BothAcknowledged(c: u64, x: Payload, y: Payload) returns (states: seq<System>, l: LinkState, m: LinkState)
    requires |x| <= MAX_DATA && |y| <= MAX_DATA && c != CLOSE_CHANNEL
    ensures Run(states) && states != []
    ensures states[|states| - 1] == Wired([], BothSent(c, x, y, [], 2), Port(Up, [], l), HasPlaced(c, x, Pending), Port(Up, [], m))
    ensures l.inflight == []
  {
    hide Run, EncodePacket, Dispatch, Calm, Handle, Cheapest, Wired, CanTurn, AfterTurn;
    var p, q, placed := EncodePacket(c, 0, x), EncodePacket(c, 0, y), HasPlaced(c, x, Pending);
    states, l, m := OldCrosses(c, x);
    NewReads(c, x, y);
    states := TurnTaken(states, [], OldSent(c, x, [], 1), Port(Up, [], l), placed, Port(Up, [], m), ReadFrom(c, y));
    OnlyOne(l);
    states, l, m := Shipped(states, [], BothSent(c, x, y, [q], 1), q, l, placed, m, [MIN_MBPS], 0);
    SecondDropped(c, x, y);
    var before;
    states, before, l, m := Pinged(states, [], BothSent(c, x, y, [], 2), l, placed, m, PingTime);
    assert before.inflight == [InFlight(1, p, 0), InFlight(2, q, 0)];
    assert before.(clock := PingTime) == before;
    PromptPong(before, m, 2);
  }

  /** For any two packets there is a run in which both are read under one id, both are
      accepted and acknowledged, nothing is left to send, and only the first is
      ever delivered: the second is neither forwarded nor buffered. */
  lemma PacketLost(c: u64, x: Payload, y: Payload) returns (states: seq<System>)
    requires |x| <= MAX_DATA && |y| <= MAX_DATA && c != CLOSE_CHANNEL
    ensures Run(states) && states != []
    ensures var s := states[|states| - 1];
            && Sent(s, Left, c) == [x, y] && EndToEnd.Quiescent(s, Left) && !s.left.aborted && !s.right.aborted
            && Delivered(s, Right, c) == [x] && s.right.children[c].buffer == [] && s.right.orphans == []
  {
    hide Run, EncodePacket, CanTurn, AfterTurn;
    var l, m;
    var e := BothSent(c, x, y, [], 2);
    states, l, m := BothAcknowledged(c, x, y);
    ForwardsPlaced(c, x);
    states := RightTurn(states, [], e, Port(Up, [], l), HasPlaced(c, x, Pending), Port(Up, [], m), OpenTarget(c));
    states := RightTurn(states, [], e, Port(Up, [], l), HasPlaced(c, x, Open), Port(Up, [], m), ForwardTo(c));
  }

  // ------------------------------------------------------------ a receiver forgets

  /** The receiving side gives the id away after it has received and acknowledged a
      packet: nothing is left to send, and the channel that has the id now is without
      the packet. */
  lemma PacketForgotten(c: u64, x: Payload) returns (states: seq<System>)
    requires |x| <= MAX_DATA && c != CLOSE_CHANNEL
    ensures Run(states) && states != []
    ensures var s := states[|states| - 1];
            && Sent(s, Left, c) == [x] && EndToEnd.Quiescent(s, Left) && !s.left.aborted && !s.right.aborted
            && c !in s.left.restarted && !EndToEnd.Complete(s.right, c, Sent(s, Left, c))
  {
    hide Run, EncodePacket, Calm, Handle;
    var l, m;
    var e, placed := Sender(c, [x], [], 1), HasPlaced(c, x, Pending);
    states, l, m := FirstPacket(c, x);
    var before;
    states, before, l, m := Pinged(states, [], e, l, placed, m, PingTime);
    assert before.(clock := PingTime) == before;
    PromptPong(before, m, 1);
    states := RightTurn(states, [], e, Port(Up, [], l), placed, Port(Up, [], m), AddTarget(c));
    assert AfterTurn(placed, AddTarget(c)).children[c] == FreshChild;
  }
}
