/** What the whole stack promises its users, in every run. */
module EndToEnd {
  import opened Bytes
  import opened Frames
  import opened LinkSpec
  import opened LinkInvariants
  import opened LinkPair
  import opened TransportSpec
  import opened SystemSpec
  import opened SystemInvariant

  lemma {:induction false} RunInv(states: seq<System>, k: nat)
    requires Run(states) && k < |states|
    ensures Inv(states[k])
  {
    hide Inv, CanStep, Step;
    if k == 0 {
      InitialInv();
    } else {
      RunInv(states, k - 1);
      assert Follows(states[k - 1], states[k - 1 + 1]);
      var side, a :| CanStep(states[k - 1], side, a) && states[k] == Step(states[k - 1], side, a);
      StepKeepsInv(states[k - 1], side, a);
    }
  }

  // ------------------------------------------------------------------ safety

  lemma DeliveredPrefix(s: System, side: Side, c: u64)
    requires Inv(s) && c !in s.End(Other(side)).restarted
    ensures Delivered(s, side, c) <= Sent(s, Other(side), c)
  {
    hide CustodyInv, CablesInv, OriginInv, SenderInv, LogOf;
    var me := s.End(side);
    if c in me.children {
      var ch, log := me.children[c], LogOf(s.End(Other(side)), c);
      assert SideInv(s, side);
      assert Agrees(ch, Expected(s.End(Other(side)), c));
      forall n | 0 <= n < |ch.forwarded|
        ensures n < |log| && ch.forwarded[n] == log[n]
      {
        assert Has(ch, n) && ValueAt(ch, n) == ch.forwarded[n];
      }
      if ch.forwarded != [] {
        assert Has(ch, |ch.forwarded| - 1);
      }
    }
  }

  /** End-to-end safety: in every state of every run, over any number of links
      that time out, retransmit, duplicate and reorder, what has been forwarded
      to a channel's target is a prefix of what was read from its peer, unless
      add_target gave the peer's id away while its channel was in use. */
  lemma InOrderExactlyOnce(states: seq<System>, k: nat, side: Side, c: u64)
    requires Run(states) && k < |states| && c !in states[k].End(Other(side)).restarted
    ensures Delivered(states[k], side, c) <= Sent(states[k], Other(side), c)
  {
    hide Run, Inv, Delivered, Sent, LogOf;
    RunInv(states, k);
    DeliveredPrefix(states[k], side, c);
  }

  predicate ChannelGrows(e: Endpoint, f: Endpoint, c: u64) {
    && LogOf(e, c) <= LogOf(f, c)
    && e.forgotten <= f.forgotten
    && (c !in f.forgotten ==> ForwardedBy(e, c) <= ForwardedBy(f, c))
  }

  lemma DispatchMonotone(e: Endpoint, p: Payload, c: u64)
    requires |p| >= TRANSPORT_HEADER
    ensures ChannelGrows(e, Dispatch(e, p), c)
  {
    hide PacketId, PacketSeq, PacketData, RelSeq, Padded;
  }

  lemma SendMonotone(e: Endpoint, g: Endpoint, id: u64, n: u64, data: Payload, c: u64)
    requires |g.queue| < QUEUE_SIZE && |data| <= MAX_DATA
    requires g.log == e.log && g.forgotten == e.forgotten && ForwardedBy(g, c) == ForwardedBy(e, c)
    ensures ChannelGrows(e, SendNumbered(g, id, n, data), c)
  {
    hide EncodePacket;
  }

  lemma TurnMonotone(e: Endpoint, turn: Turn, c: u64)
    requires CanTurn(e, turn)
    ensures ChannelGrows(e, AfterTurn(e, turn), c)
  {
    hide EncodePacket, SendNumbered;
    match turn {
      case ReadFrom(d, data) =>
        SendMonotone(e, SetChild(e, d, CountSent(e.children[d])), d, e.children[d].lastSent, data, c);
      case ReadOrphan(k, data) =>
        var o := e.orphans[k];
        SendMonotone(e, SetOrphan(e, k, CountSent(o.child)), o.id, o.child.lastSent, data, c);
      case _ =>
    }
  }

  /** Nothing forwarded is ever taken back or changed by a step. */
  lemma StepMonotone(s: System, side: Side, a: Action, me: Side, c: u64)
    requires CanStep(s, side, a)
    ensures ChannelGrows(s.End(me), Step(s, side, a).End(me), c)
  {
    hide CanAssign, Dispatch, PairEnabled, Next, Payloads, SendAccepts, AfterTurn, CanTurn;
    match a {
      case Deliver(i, _) => DispatchMonotone(s.End(side), s.cables[i].At(side).link.waiting.value, c);
      case AtTransport(turn) => TurnMonotone(s.End(side), turn, c);
      case _ =>
    }
  }

  lemma {:induction false} RunMonotone(states: seq<System>, j: nat, k: nat, side: Side, c: u64)
    requires Run(states) && j <= k < |states|
    ensures Sent(states[j], side, c) <= Sent(states[k], side, c)
    ensures states[j].End(side).forgotten <= states[k].End(side).forgotten
    ensures c !in states[k].End(side).forgotten ==> Delivered(states[j], side, c) <= Delivered(states[k], side, c)
    decreases k
  {
    hide CanStep, Step, LogOf;
    if j < k {
      RunMonotone(states, j, k - 1, side, c);
      assert Follows(states[k - 1], states[k - 1 + 1]);
      var who, a :| CanStep(states[k - 1], who, a) && states[k] == Step(states[k - 1], who, a);
      StepMonotone(states[k - 1], who, a, side, c);
    }
  }

  // ----------------------------------------------------------------- no loss

  /** p waits in the sender: in the shared queue, or in an own queue or the
      in-flight queue of a link that has not been removed. */
  ghost predicate StillHeld(s: System, side: Side, p: Payload) {
    p in s.End(side).queue ||
    exists i :: 0 <= i < |s.cables| && HeldBy(s.cables[i].At(side), p)
  }

  predicate HeldBy(port: Port, p: Payload) {
    port.status.Up? && (p in port.own || p in Payloads(port.link.inflight))
  }

  /** recv of one of the links of `side` has returned p. */
  ghost predicate Arrived(cables: seq<Cable>, side: Side, p: Payload) {
    exists i :: 0 <= i < |cables| && p in cables[i].At(side).link.returned
  }

  /** What a port answers for is held by it or has been returned to the peer. */
  lemma HeldOrReturned(s: System, side: Side, i: nat, p: Payload)
    requires Inv(s) && i < |s.cables| && p in Held(s.cables[i].At(side))
    ensures HeldBy(s.cables[i].At(side), p) || p in s.cables[i].At(Other(side)).link.returned
  {
    hide PairInv, PortInv, CustodyInv, SenderInv, ReceiverInv, OriginInv, Held, HeldBy;
    var mine, theirs := s.cables[i].At(side), s.cables[i].At(Other(side));
    assert SideInv(s, side);
    HeldSplit(mine, p);
    if p in Payloads(mine.link.flushed) {
      var k :| 0 <= k < |mine.link.flushed| && Payloads(mine.link.flushed)[k] == p;
      AckSound(mine.link, theirs.link);
      assert p == theirs.link.returned[k];
    }
  }

  lemma HeldSplit(port: Port, p: Payload)
    requires p in Held(port)
    ensures HeldBy(port, p) || p in Payloads(port.link.flushed)
  {
    hide Payloads;
    PayloadsAppend(port.link.flushed, port.link.inflight);
  }

  lemma HeldOrArrived(s: System, side: Side, p: Payload)
    requires Inv(s) && p in s.End(side).accepted
    ensures StillHeld(s, side, p) || Arrived(s.cables, Other(side), p)
  {
    hide CablesInv, OriginInv, SenderInv, ReceiverInv, Custody, Held, HeldBy;
    assert SideInv(s, side);
    assert p in multiset(s.End(side).accepted);
    if p !in s.End(side).queue {
      assert p in Custody(s.cables, side);
      CustodyMember(s.cables, side, p);
      var i :| 0 <= i < |s.cables| && p in Held(s.cables[i].At(side));
      HeldOrReturned(s, side, i, p);
    }
  }

  lemma ArrivedPlaced(s: System, side: Side, p: Payload)
    requires Inv(s) && !s.End(side).aborted && Arrived(s.cables, side, p)
    ensures Placed(s.End(side), p)
  {
    hide CustodyInv, OriginInv, SenderInv, ReceiverInv, Placed, PairInv, Payloads;
    assert SideInv(s, side);
  }

  /** p is a packet of an ordinary channel whose received packets e has not forgotten. */
  predicate Lasting(e: Endpoint, p: Payload) {
    |p| >= TRANSPORT_HEADER && PacketId(p) != CLOSE_CHANNEL && PacketId(p) !in e.forgotten
  }

  /** No loss: the packets accepted are, with multiplicity, those queued plus those
      assigned, in flight or acknowledged; each of them, a close packet too, is still
      held by the sender or has come out of a link at the receiver, and that puts
      it in its channel. */
  lemma NoLoss(s: System, side: Side)
    requires Inv(s)
    ensures multiset(s.End(side).accepted) == multiset(s.End(side).queue) + Custody(s.cables, side)
    ensures forall p :: p in s.End(side).accepted ==> StillHeld(s, side, p) || Arrived(s.cables, Other(side), p)
    ensures !s.End(Other(side)).aborted ==>
              forall p :: p in s.End(side).accepted && Lasting(s.End(Other(side)), p) ==>
                StillHeld(s, side, p) || HasNumber(s.End(Other(side)), PacketId(p), PacketSeq(p))
  {
    hide CablesInv, OriginInv, SenderInv, ReceiverInv, Custody, Arrived, StillHeld, HasNumber;
    assert SideInv(s, side);
    forall p | p in s.End(side).accepted
      ensures StillHeld(s, side, p) || Arrived(s.cables, Other(side), p)
      ensures !s.End(Other(side)).aborted && Lasting(s.End(Other(side)), p) ==>
                StillHeld(s, side, p) || HasNumber(s.End(Other(side)), PacketId(p), PacketSeq(p))
    {
      HeldOrArrived(s, side, p);
      if !s.End(Other(side)).aborted && Arrived(s.cables, Other(side), p) {
        ArrivedPlaced(s, Other(side), p);
      }
    }
  }

  // ------------------------------------------------------------ completeness

  /** Nothing is left to send: all queues of `side` are empty. */
  ghost predicate Quiescent(s: System, side: Side) {
    && s.End(side).queue == []
    && forall i :: 0 <= i < |s.cables| && s.cables[i].At(side).status.Up? ==>
         s.cables[i].At(side).own == [] && s.cables[i].At(side).link.inflight == []
  }

  function Values(buffer: seq<Option<Payload>>): seq<Payload>
    requires forall i :: 0 <= i < |buffer| ==> buffer[i].Some?
  {
    seq(|buffer|, i requires 0 <= i < |buffer| => buffer[i].value)
  }

  /** The whole of `log` has been received, in order and without a hole. */
  ghost predicate Complete(e: Endpoint, c: u64, log: seq<Payload>) {
    && c in e.children
    && (forall i :: 0 <= i < |e.children[c].buffer| ==> e.children[c].buffer[i].Some?)
    && e.children[c].forwarded + Values(e.children[c].buffer) == log
  }

  lemma QuiescentPlaced(s: System, side: Side, p: Payload)
    requires Inv(s) && Quiescent(s, side) && !s.End(Other(side)).aborted && p in s.End(side).accepted
    ensures Placed(s.End(Other(side)), p)
  {
    hide Inv, Placed, Arrived;
    HeldOrArrived(s, side, p);
    if Arrived(s.cables, Other(side), p) {
      ArrivedPlaced(s, Other(side), p);
    }
    assert forall i :: 0 <= i < |s.cables| ==> !HeldBy(s.cables[i].At(side), p);
  }

  lemma QuiescentHas(s: System, side: Side, c: u64, n: nat)
    requires Inv(s) && Quiescent(s, side) && !s.End(Other(side)).aborted && c != CLOSE_CHANNEL
    requires Intact(s, side, c) && n < |Sent(s, side, c)|
    ensures HasNumber(s.End(Other(side)), c, n)
  {
    hide CustodyInv, CablesInv, OriginInv, ReceiverInv, Quiescent, EncodePacket, Genuine, LogOf;
    var me := s.End(side);
    assert SideInv(s, side);
    assert Numbered(me, c);
    var p := EncodePacket(c, n, Sent(s, side, c)[n]);
    QuiescentPlaced(s, side, p);
    PacketRoundTrip(c, n, Sent(s, side, c)[n]);
  }

  /** Quiescent completeness: once a sender's queues are empty, the receiver has
      the whole of every channel, with no hole in its reorder buffer. */
  lemma QuiescentComplete(s: System, side: Side, c: u64)
    requires Inv(s) && Quiescent(s, side) && !s.End(Other(side)).aborted && c != CLOSE_CHANNEL
    requires Intact(s, side, c) && Sent(s, side, c) != []
    ensures Complete(s.End(Other(side)), c, Sent(s, side, c))
  {
    hide CustodyInv, CablesInv, OriginInv, SenderInv, Quiescent, LogOf, Has;
    var peer, log := s.End(Other(side)), Sent(s, side, c);
    assert SideInv(s, Other(side));
    QuiescentHas(s, side, c, 0);
    forall n: nat | n < |log|
      ensures Has(peer.children[c], n)
    {
      QuiescentHas(s, side, c, n);
    }
    assert Agrees(peer.children[c], Expected(s.End(side), c));
    HasAll(peer.children[c], log);
  }

  /** A child that agrees with a log and has all its numbers holds exactly the log. */
  lemma HasAll(ch: Child, log: seq<Payload>)
    requires Agrees(ch, Some(log)) && forall n: nat :: n < |log| ==> Has(ch, n)
    ensures forall i :: 0 <= i < |ch.buffer| ==> ch.buffer[i].Some?
    ensures ch.forwarded + Values(ch.buffer) == log
  {
    hide BufferInv;
    HasAllLength(ch, log);
    var f := |ch.forwarded|;
    forall i | 0 <= i < |ch.buffer|
      ensures ch.buffer[i].Some? && ch.buffer[i].value == log[f + i]
    {
      assert Has(ch, f + i) && ValueAt(ch, f + i) == log[f + i];
    }
    forall n | 0 <= n < f
      ensures ch.forwarded[n] == log[n]
    {
      assert Has(ch, n) && ValueAt(ch, n) == log[n];
    }
    var all := ch.forwarded + Values(ch.buffer);
    assert |all| == |log| && forall n :: 0 <= n < |log| ==> all[n] == log[n];
  }

  lemma HasAllLength(ch: Child, log: seq<Payload>)
    requires Agrees(ch, Some(log)) && forall n: nat :: n < |log| ==> Has(ch, n)
    ensures |ch.forwarded| + |ch.buffer| == |log|
  {
    hide ValueAt;
    var total := |ch.forwarded| + |ch.buffer|;
    if total > 0 {
      assert Has(ch, total - 1);
    }
    if |log| > 0 {
      assert Has(ch, |log| - 1);
    }
  }

  /** Something was read on c, an ordinary channel whose id was not given away in use. */
  predicate InUse(s: System, side: Side, c: u64) {
    c != CLOSE_CHANNEL && Intact(s, side, c) && Sent(s, side, c) != []
  }

  /** The same results for every state of every run. */
  lemma NothingLostInRuns(states: seq<System>, k: nat, side: Side)
    requires Run(states) && k < |states|
    ensures var s := states[k];
            && multiset(s.End(side).accepted) == multiset(s.End(side).queue) + Custody(s.cables, side)
            && (forall p :: p in s.End(side).accepted ==> StillHeld(s, side, p) || Arrived(s.cables, Other(side), p))
            && (!s.End(Other(side)).aborted ==>
                  && (forall p :: p in s.End(side).accepted && Lasting(s.End(Other(side)), p) ==>
                        StillHeld(s, side, p) || HasNumber(s.End(Other(side)), PacketId(p), PacketSeq(p)))
                  && (forall c: u64 :: Quiescent(s, side) && InUse(s, side, c) ==>
                        Complete(s.End(Other(side)), c, Sent(s, side, c))))
  {
    hide Run, Inv, StillHeld, Arrived, HasNumber, Quiescent, Complete, Custody, Intact, Sent;
    var s := states[k];
    RunInv(states, k);
    NoLoss(s, side);
    forall c: u64 | !s.End(Other(side)).aborted && Quiescent(s, side) && InUse(s, side, c)
      ensures Complete(s.End(Other(side)), c, Sent(s, side, c))
    {
      QuiescentComplete(s, side, c);
    }
  }

  // -------------------------------------------------------------- filled slots

  lemma ReturnedPlaced(s: System, side: Side, i: nat, c: u64, n: nat)
    requires Inv(s) && i < |s.cables| && Returned(s.cables[i].At(side).link, c, n)
    requires !s.End(side).aborted && c != CLOSE_CHANNEL && c !in s.End(side).forgotten
    ensures HasNumber(s.End(side), c, n)
  {
    hide PairInv, Payloads, HasNumber, CustodyInv, OriginInv, SenderInv, ReceiverInv;
    assert SideInv(s, side);
    var q :| q in s.cables[i].At(side).link.returned && IsPacket(q, c, n);
    assert Placed(s.End(side), q);
  }

  lemma FilledIff(s: System, side: Side, c: u64, n: nat)
    requires Inv(s) && c != CLOSE_CHANNEL && !s.End(side).aborted && c !in s.End(side).forgotten
    ensures HasNumber(s.End(side), c, n) <==> CameIn(s.cables, side, c, n)
  {
    hide CustodyInv, CablesInv, SenderInv, ReceiverInv, HasNumber, Returned;
    assert SideInv(s, side);
    if CameIn(s.cables, side, c, n) {
      var i :| 0 <= i < |s.cables| && Returned(s.cables[i].At(side).link, c, n);
      ReturnedPlaced(s, side, i, c, n);
    }
  }

  /** Filled exactly when received, in every run: a channel has packet n, in its
      reorder buffer or forwarded, if and only if recv of one of its endpoint's
      links has returned it. */
  lemma FilledIffReceived(states: seq<System>, k: nat, side: Side, c: u64, n: nat)
    requires Run(states) && k < |states| && c != CLOSE_CHANNEL
    requires !states[k].End(side).aborted && c !in states[k].End(side).forgotten
    ensures HasNumber(states[k].End(side), c, n) <==> CameIn(states[k].cables, side, c, n)
  {
    hide Run, Inv, HasNumber, CameIn;
    RunInv(states, k);
    FilledIff(states[k], side, c, n);
  }

  // ---------------------------------------------------------- no assertion fails

  /** What the assertions of Link::send, of the frame parser and of the packet reader
      ask for. */
  predicate AssertionsMet(e: Endpoint, p: Port) {
    && !p.link.aborted
    && p.link.lastSeqSent < e.lastSeq + 1
    && (p.own != [] ==> |p.own[0]| <= MULTILINK_MTU)
    && (p.link.waiting.Some? ==> |p.link.waiting.value| >= TRANSPORT_HEADER)
  }

  lemma InvMeetsAssertions(s: System, side: Side, i: nat)
    requires Inv(s) && HasUp(s, side, i)
    ensures AssertionsMet(s.End(side), s.cables[i].At(side))
  {
    hide OriginInv, Custody, LinkInv, StreamInv, AckInv, ReceiverInv, Payloads, Numbered, Placed, PacketId, PacketSeq;
    assert SideInv(s, side);
    var p := s.cables[i].At(side);
    if p.link.waiting.Some? {
      WaitingGenuine(s, side, i);
    }
    if p.own != [] {
      assert p.own[0] in s.End(side).accepted;
    }
  }

  /** They never fail, in any run. (That of place_packet can; the reactor's limit on
      scheduled functions is not modelled.) */
  lemma AssertionsHold(states: seq<System>, k: nat, side: Side, i: nat)
    requires Run(states) && k < |states| && HasUp(states[k], side, i)
    ensures AssertionsMet(states[k].End(side), states[k].cables[i].At(side))
  {
    hide Run, Inv, AssertionsMet;
    RunInv(states, k);
    InvMeetsAssertions(states[k], side, i);
  }

  // ------------------------------------------------------- links in every run

  /** Byte and frame refinement of every cable in every state of every run: what
      one end wrote and still holds are its frames, what the other end consumed is
      a prefix of the bytes, what it parsed a prefix of the frames, and what its
      recv returned a prefix of the packets. */
  lemma LinksRefine(states: seq<System>, k: nat, side: Side, i: nat)
    requires Run(states) && k < |states| && i < |states[k].cables|
    ensures var a, b := states[k].cables[i].At(side).link, states[k].cables[i].At(Other(side)).link;
            && AllFit(a.sent) && a.written + a.sendBuf == EncodeAll(a.sent)
            && b.consumed <= a.written && b.got <= a.sent && b.consumed == EncodeAll(b.got) + b.recvBuf
            && b.returned + b.WaitingSeq() <= Payloads(a.Log())
  {
    hide OriginInv, Run, EncodeAll, AckInv, Payloads, Datas, CustodyInv, PortInv, SenderInv, ReceiverInv;
    RunInv(states, k);
    assert SideInv(states[k], side);
    InOrder(states[k].cables[i].At(side).link, states[k].cables[i].At(Other(side)).link);
  }

  /** Acknowledgements in every run: only packets the peer has returned are dropped,
      and all that is in flight lies above the acknowledgement. */
  lemma AcksSoundInRuns(states: seq<System>, k: nat, side: Side, i: nat)
    requires Run(states) && k < |states| && i < |states[k].cables|
    ensures var a, b := states[k].cables[i].At(side).link, states[k].cables[i].At(Other(side)).link;
            && |a.flushed| <= |b.returned|
            && (forall n :: 0 <= n < |a.flushed| ==> b.returned[n] == a.flushed[n].payload)
            && (forall n :: 0 <= n < |a.inflight| ==> a.inflight[n].seqno > a.ackSeq)
            && a.ackSeq <= a.lastSeqSent
  {
    hide OriginInv, Run, PairInv, CustodyInv, PortInv, SenderInv, ReceiverInv;
    RunInv(states, k);
    assert SideInv(states[k], side);
    AckSound(states[k].cables[i].At(side).link, states[k].cables[i].At(Other(side)).link);
  }

  function AckOf(s: System, side: Side, i: nat): u64
    requires i < |s.cables|
  {
    s.cables[i].At(side).link.ackSeq
  }

  /** The step a link takes under the actions that involve one. */
  lemma LinkAck(s: System, who: Side, k: nat, e: Event, now: u64)
    requires Inv(s) && k < |s.cables|
    requires PairEnabled(s.cables[k].At(who).link, s.cables[k].At(Other(who)).link, e, now)
    ensures AckOf(s, who, k) <= Next(s.cables[k].At(who).link, e, now).ackSeq
  {
    hide OriginInv, PairInv, CustodyInv, PortInv, SenderInv, ReceiverInv, Next, Enabled;
    assert SideInv(s, who);
    PairStep(s.cables[k].At(who).link, s.cables[k].At(Other(who)).link, e, now);
  }

  lemma StepAck(s: System, who: Side, a: Action, side: Side, i: nat)
    requires Inv(s) && CanStep(s, who, a) && i < |s.cables|
    ensures i < |Step(s, who, a).cables| && AckOf(s, side, i) <= AckOf(Step(s, who, a), side, i)
  {
    hide CanAssign, Inv, Next, Enabled, Dispatch, Payloads, SendAccepts, AfterTurn, CanTurn;
    match a {
      case LinkEvent(k, e, now) => LinkAck(s, who, k, e, now);
      case SendOne(k, now) =>
        LinkAck(s, who, k, Submit(s.End(who).lastSeq + 1, s.cables[k].At(who).own[0]), now);
      case Deliver(k, now) => LinkAck(s, who, k, TakePacket, now);
      case _ =>
    }
  }

  /** Acknowledged numbers never decrease along a run. */
  lemma {:induction false} AcksNeverDecrease(states: seq<System>, j: nat, k: nat, side: Side, i: nat)
    requires Run(states) && j <= k < |states| && i < |states[j].cables|
    ensures i < |states[k].cables| && AckOf(states[j], side, i) <= AckOf(states[k], side, i)
    decreases k
  {
    hide CanStep, Step, Inv, AckOf;
    if j < k {
      AcksNeverDecrease(states, j, k - 1, side, i);
      RunInv(states, k - 1);
      assert Follows(states[k - 1], states[k - 1 + 1]);
      var who, a :| CanStep(states[k - 1], who, a) && states[k] == Step(states[k - 1], who, a);
      StepAck(states[k - 1], who, a, side, i);
    }
  }

  /** In every run the packets a link has sent are ordered by number and time. */
  lemma FlightOrdered(states: seq<System>, k: nat, side: Side, i: nat)
    requires Run(states) && k < |states| && i < |states[k].cables|
    ensures Ordered(states[k].cables[i].At(side).link.Log())
  {
    hide Run, StreamInv, AckInv, CustodyInv, PortInv, SenderInv, ReceiverInv, OriginInv, Ordered;
    hide FramingInv, LedgerInv, ProgressInv, TotalSize;
    RunInv(states, k);
    assert SideInv(states[k], side);
  }

  /** Wakeups in every run: the edge flag and the edge callback agree, unsent bytes
      wait for a write or a refusing stream, and a buffered frame that could be
      parsed has a read scheduled. */
  lemma WakeupsInRuns(states: seq<System>, k: nat, side: Side, i: nat)
    requires Run(states) && k < |states| && i < |states[k].cables|
    ensures var a := states[k].cables[i].At(side).link;
            && a.pending[EdgeCallback] == (if a.edge then 0 else 1)
            && (a.sendBuf != [] && !a.timedOut ==> WriteCallback in a.pending || a.blocked)
            && (CanParse(a) && !a.timedOut ==> ReadCallback in a.pending)
            && (|a.recvBuf| == LINK_MTU ==> TryParse(a.recvBuf) != NeedMore)
  {
    hide OriginInv, Run, EncodeAll, AckInv, Payloads, Datas, TryParse, TotalSize, CustodyInv, PortInv, SenderInv, ReceiverInv;
    RunInv(states, k);
    assert SideInv(states[k], side);
    var a, b := states[k].cables[i].At(side).link, states[k].cables[i].At(Other(side)).link;
    if |a.recvBuf| == LINK_MTU {
      FullBufferParses(a, b);
    }
  }
}
