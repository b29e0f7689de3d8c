/** The laws of the links in every run, and what becomes of closed channels. */
module RunLaws {
  import opened Bytes
  import opened Frames
  import opened LinkSpec
  import opened LinkInvariants
  import opened LinkLaws
  import opened LinkPair
  import opened TransportSpec
  import opened Scheduling
  import opened SystemSpec
  import opened SystemInvariant
  import EndToEnd

  // ------------------------------------------------------------- links in runs

  /** A removed link has timed out. */
  ghost predicate PortLaw(p: Port) {
    LawInv(p.link) && (p.status.Removed? ==> p.link.timedOut)
  }

  ghost predicate Laws(s: System) {
    forall i, side: Side :: 0 <= i < |s.cables| ==> PortLaw(s.cables[i].At(side))
  }

  lemma PortEdge(s: System, side: Side, i: nat)
    requires Inv(s) && i < |s.cables|
    ensures EdgeInv(s.cables[i].At(side).link) && InFlightInv(s.cables[i].At(side).link)
  {
    hide StreamInv, AckInv, CustodyInv, OriginInv, PortInv, SenderInv, ReceiverInv, ProgressInv, FramingInv, LedgerInv;
    assert SideInv(s, side);
  }

  lemma OnePort(s: System, side: Side, i: nat, p: Port, e: Endpoint)
    requires Laws(s) && i < |s.cables| && PortLaw(p)
    ensures Laws(s.WithPort(side, i, p)) && Laws(s.WithEnd(side, e).WithPort(side, i, p))
  {
    hide PortLaw;
    forall j, who: Side | 0 <= j < |s.cables|
      ensures PortLaw(s.WithPort(side, i, p).cables[j].At(who))
    {
      assert PortLaw(s.cables[j].At(who));
    }
    assert s.WithEnd(side, e).WithPort(side, i, p).cables == s.WithPort(side, i, p).cables;
  }

  lemma EventKeepsLaws(s: System, side: Side, i: nat, e: Event, now: u64)
    requires Inv(s) && Laws(s) && HasUp(s, side, i) && Enabled(s.cables[i].At(side).link, e, now)
    ensures LawInv(Next(s.cables[i].At(side).link, e, now))
  {
    hide Inv, LawInv, EdgeInv, InFlightInv, Next, Enabled;
    PortEdge(s, side, i);
    assert PortLaw(s.cables[i].At(side));
    EventLaw(s.cables[i].At(side).link, e, now);
  }

  lemma NewCableLaws(s: System)
    requires Laws(s)
    ensures Laws(s.(cables := s.cables + [Cable(FreshPort, FreshPort)]))
  {
    hide LawInv;
    FreshLaw();
  }

  lemma SpreadLaws(s: System, t: System, side: Side)
    requires Laws(s) && SameButOwn(s.cables, t.cables, side)
    ensures Laws(t)
  {
    hide LawInv;
    forall i, who: Side | 0 <= i < |t.cables|
      ensures PortLaw(t.cables[i].At(who))
    {
      assert PortLaw(s.cables[i].At(who));
    }
  }

  lemma StepLaws(s: System, who: Side, a: Action)
    requires Inv(s) && Laws(s) && CanStep(s, who, a)
    ensures Laws(Step(s, who, a))
  {
    hide Inv, LawInv, Next, Enabled, CanAssign, Dispatch, AfterTurn, CanTurn, Payloads, SendAccepts;
    match a {
      case NewCable => NewCableLaws(s);
      case AddLink(i) =>
        assert PortLaw(s.cables[i].At(who));
        OnePort(s, who, i, s.cables[i].At(who).(status := Up), s.End(who));
      case LinkEvent(i, e, now) =>
        var p := s.cables[i].At(who);
        EventKeepsLaws(s, who, i, e, now);
        OnePort(s, who, i, p.(link := Next(p.link, e, now)), s.End(who));
      case Assign(_, _, _, _) => SpreadLaws(s, Step(s, who, a), who);
      case SendOne(i, now) => SendOneLaws(s, who, i, now);
      case RemoveLink(i) =>
        var p := s.cables[i].At(who);
        assert PortLaw(p);
        OnePort(s, who, i, p.(status := Removed, own := []), Step(s, who, a).End(who));
      case Deliver(i, now) =>
        var p := s.cables[i].At(who);
        EventKeepsLaws(s, who, i, TakePacket, now);
        OnePort(s, who, i, p.(link := Next(p.link, TakePacket, now)), Step(s, who, a).End(who));
      case AtTransport(_) =>
    }
  }

  lemma SendOneLaws(s: System, who: Side, i: nat, now: u64)
    requires Inv(s) && Laws(s) && CanStep(s, who, SendOne(i, now))
    ensures Laws(Step(s, who, SendOne(i, now)))
  {
    hide Inv, LawInv, Next, Enabled, SendAccepts;
    var p, seqno := s.cables[i].At(who), s.End(who).lastSeq + 1;
    EventKeepsLaws(s, who, i, Submit(seqno, p.own[0]), now);
    OnePort(s, who, i, p.(own := if SendAccepts(p.link, now) then p.own[1..] else p.own,
                          link := Next(p.link, Submit(seqno, p.own[0]), now)), s.End(who).(lastSeq := seqno));
  }

  lemma {:induction false} RunLaw(states: seq<System>, k: nat)
    requires Run(states) && k < |states|
    ensures Laws(states[k])
  {
    hide Inv, CanStep, Step, Laws;
    if k == 0 {
      NoLaws();
    } else {
      RunLaw(states, k - 1);
      EndToEnd.RunInv(states, k - 1);
      assert Follows(states[k - 1], states[k - 1 + 1]);
      var who, a :| CanStep(states[k - 1], who, a) && states[k] == Step(states[k - 1], who, a);
      StepLaws(states[k - 1], who, a);
    }
  }

  lemma NoLaws()
    ensures Laws(Initial)
  {
  }

  lemma LinkLaw(states: seq<System>, k: nat, side: Side, i: nat)
    requires Run(states) && k < |states| && i < |states[k].cables|
    ensures var p := states[k].cables[i].At(side);
            LawInv(p.link) && EdgeInv(p.link) && InFlightInv(p.link) && (p.status.Removed? ==> p.link.timedOut)
  {
    hide Run, Inv, LawInv, EdgeInv, InFlightInv;
    RunLaw(states, k);
    EndToEnd.RunInv(states, k);
    PortEdge(states[k], side, i);
    assert PortLaw(states[k].cables[i].At(side));
  }

  // -------------------------------------------------------------- what follows

  /** Timeouts in every run. Wherever the timer callback is defined, it times a live link
      out exactly when some packet has been in flight for more than eight seconds; no
      other event does; the owner is told; and only timed-out links are removed. */
  lemma TimeoutsInRuns(states: seq<System>, k: nat, side: Side, i: nat, e: Event, now: u64)
    requires Run(states) && k < |states| && i < |states[k].cables|
    requires Enabled(states[k].cables[i].At(side).link, e, now)
    ensures var p := states[k].cables[i].At(side);
            var a, r := p.link, Next(p.link, e, now);
            && (p.status.Removed? ==> a.timedOut)
            && (!e.Timer? ==> r.timedOut == a.timedOut)
            && (e.Timer? ==>
                  && (r.timedOut <==> a.timedOut || exists q :: q in a.inflight && now - q.time > 8_000_000)
                  && (r.timedOut && !a.timedOut ==> SendReady in r.pending))
  {
    hide Run, LawInv, EdgeInv, InFlightInv, Next, Enabled, MeasuredBy;
    LinkLaw(states, k, side, i);
    var a := states[k].cables[i].At(side).link;
    EventLaw(a, e, now);
    if e.Timer? {
      TimerTimesOut(a, now);
    }
  }

  /** Whoever waits is told, in every run: of a packet that came in, and of the end of
      bufferbloat avoidance. */
  lemma OwnersTold(states: seq<System>, k: nat, side: Side, i: nat, e: Event, now: u64)
    requires Run(states) && k < |states| && i < |states[k].cables|
    requires Enabled(states[k].cables[i].At(side).link, e, now)
    ensures var a := states[k].cables[i].At(side).link;
            var r := Next(a, e, now);
            && (a.waiting.None? && r.waiting.Some? ==> RecvReady in r.pending)
            && (a.bloat && !r.bloat ==> SendReady in r.pending)
  {
    hide Run, LawInv, EdgeInv, InFlightInv, Next, Enabled, MeasuredBy;
    LinkLaw(states, k, side, i);
    EventLaw(states[k].cables[i].At(side).link, e, now);
  }

  /** The round trip time in every run: it changes only to the age of a ping of this
      link, read on this link's clock, so that it is not negative unless the answer
      took 2^31 microseconds. */
  lemma RoundTripsMeasured(states: seq<System>, k: nat, side: Side, i: nat, e: Event, now: u64)
    requires Run(states) && k < |states| && i < |states[k].cables|
    requires CanStep(states[k], side, LinkEvent(i, e, now))
    ensures var a := states[k].cables[i].At(side).link;
            var r := Next(a, e, now);
            r.rtt != a.rtt ==>
              exists f :: f in a.sent && f.Ping? && f.time <= a.clock <= now && r.rtt == Signed32(now - f.time)
                          && (now - f.time < 0x8000_0000 ==> r.rtt == now - f.time)
  {
    hide Run, Inv, LawInv, EdgeInv, InFlightInv, Next, CanStep;
    var a, b := states[k].cables[i].At(side).link, states[k].cables[i].At(Other(side)).link;
    LinkLaw(states, k, side, i);
    LinkLaw(states, k, Other(side), i);
    EndToEnd.RunInv(states, k);
    StepEnabled(states[k], side, i, e, now);
    EventLaw(a, e, now);
    GotBefore(states[k], side, i, e, now);
    if Next(a, e, now).rtt != a.rtt {
      PongAnswersPing(a, b, Next(a, e, now), now);
    }
  }

  lemma StepEnabled(s: System, side: Side, i: nat, e: Event, now: u64)
    requires CanStep(s, side, LinkEvent(i, e, now))
    ensures i < |s.cables| && Enabled(s.cables[i].At(side).link, e, now) && s.cables[i].At(side).link.clock <= now
  {
  }

  /** What a link has parsed after the event, its peer had formatted before. */
  lemma GotBefore(s: System, side: Side, i: nat, e: Event, now: u64)
    requires Inv(s) && CanStep(s, side, LinkEvent(i, e, now)) && i < |s.cables|
    requires Enabled(s.cables[i].At(side).link, e, now)
    ensures var a, b := s.cables[i].At(side).link, s.cables[i].At(Other(side)).link;
            Next(a, e, now).got <= b.sent && b.got <= a.sent
  {
    hide LinkInv, AckInv, CustodyInv, OriginInv, PortInv, SenderInv, ReceiverInv, Next, Enabled, EncodeAll;
    assert SideInv(s, side);
    PairStep(s.cables[i].At(side).link, s.cables[i].At(Other(side)).link, e, now);
  }

  lemma PongAnswersPing(a: LinkState, b: LinkState, r: LinkState, now: u64)
    requires LawInv(a) && LawInv(b) && r.got <= b.sent && b.got <= a.sent && a.clock <= now && MeasuredBy(r, now)
    ensures exists f :: f in a.sent && f.Ping? && f.time <= a.clock <= now && r.rtt == Signed32(now - f.time)
                        && (now - f.time < 0x8000_0000 ==> r.rtt == now - f.time)
  {
    hide LawInv, Sub64, Signed32;
    var g :| g in r.got && g.Pong? && r.rtt == Signed32(Sub64(now, g.time));
    assert g in b.sent;
    var f := Ping(g.time, g.seqno);
    PongEchoes(b, g);
    assert f in a.sent;
    PingTimed(a, f);
    AgeOf(now, f.time);
  }

  lemma PongEchoes(b: LinkState, g: Frame)
    requires LawInv(b) && g in b.sent && g.Pong?
    ensures Ping(g.time, g.seqno) in b.got
  {
  }

  lemma PingTimed(a: LinkState, f: Frame)
    requires LawInv(a) && f in a.sent && f.Ping?
    ensures f.time <= a.clock
  {
  }

  lemma AgeOf(now: u64, t: u64)
    requires t <= now
    ensures Signed32(Sub64(now, t)) == Signed32(now - t)
    ensures now - t < 0x8000_0000 ==> Signed32(now - t) == now - t
  {
  }

  /** Answers in every run: pings carry the link's own clock; a pong carries back what a
      ping of the peer carried; and a pong that is owed is not forgotten. */
  lemma AnswersInRuns(states: seq<System>, k: nat, side: Side, i: nat)
    requires Run(states) && k < |states| && i < |states[k].cables|
    ensures var a, b := states[k].cables[i].At(side).link, states[k].cables[i].At(Other(side)).link;
            && (forall f :: f in a.sent && f.Ping? ==> f.time <= a.clock)
            && (forall f :: f in a.sent && f.Pong? ==> Ping(f.time, f.seqno) in b.sent)
            && (a.pongTime != 0 ==> Ping(a.pongTime, a.pongSeq) in b.sent)
            && (a.pongTime != 0 ==> a.sendBuf != [] || AuxCallback in a.pending || EdgeCallback in a.pending)
  {
    hide Run, EdgeInv, InFlightInv;
    LinkLaw(states, k, side, i);
    EndToEnd.LinksRefine(states, k, Other(side), i);
    assert forall f :: f in states[k].cables[i].At(side).link.got ==> f in states[k].cables[i].At(Other(side)).link.sent;
  }

  /** Sending in every run: exactly when a link takes a packet, and when it pings. */
  lemma SendingInRuns(states: seq<System>, k: nat, side: Side, i: nat, seqno: u64, p: Payload, now: u64)
    requires Run(states) && k < |states| && i < |states[k].cables| && |p| <= MULTILINK_MTU
    requires states[k].cables[i].At(side).link.clock <= now
    ensures var a := states[k].cables[i].At(side).link;
            && SendData(a, seqno, p, now).inflight == a.inflight +
                 (if !a.timedOut && !a.bloat && a.sendBuf == [] && a.pongTime == 0 && now - a.lastPing <= 250_000
                  then [InFlight(seqno, p, now)] else [])
            && (Enabled(a, Timer, now) && !a.timedOut && a.sendBuf == [] && a.pongTime == 0 ==>
                  Next(a, Timer, now).sent ==
                  a.sent + (if now - a.lastPing > 250_000 then [Ping(now, a.lastSeqSent)] else []))
  {
    hide Run, EdgeInv, InFlightInv, SendData, SendAux, Next, Enabled;
    var a := states[k].cables[i].At(side).link;
    LinkLaw(states, k, side, i);
    SendTakes(a, seqno, p, now);
    if Enabled(a, Timer, now) && !a.timedOut {
      TimerSends(a, now);
      AuxSends(At(a, now), now);
    }
  }

  /** What an assignment counts as a link's load, in every run: the bytes of the packets
      in flight and of those assigned. */
  lemma LoadsInRuns(states: seq<System>, k: nat, side: Side, live: seq<nat>, mbps: seq<real>, j: nat)
    requires Run(states) && k < |states| && Lists(states[k], side, live) && |mbps| == |live| && j < |live|
    ensures var p := states[k].cables[live[j]].At(side);
            && Bases(states[k], side, live)[j] == TotalSize(p.link.inflight) + TotalBytes(p.own)
            && Views(states[k], side, live, mbps)[j] == LinkView(p.link.rtt as real, mbps[j])
  {
    hide Run, LawInv, EdgeInv, TotalSize, TotalBytes, Ordered;
    LinkLaw(states, k, side, live[j]);
  }

  /** A link that has been removed rests: nothing its endpoint does changes it. */
  lemma RemovedRests(s: System, who: Side, a: Action, side: Side, i: nat)
    requires CanStep(s, who, a) && i < |s.cables| && s.cables[i].At(side).status.Removed?
    ensures i < |Step(s, who, a).cables| && Step(s, who, a).cables[i].At(side) == s.cables[i].At(side)
  {
    hide Next, PairEnabled, Enabled, Dispatch, AfterTurn, CanTurn, Payloads, SendAccepts, Greedy, Spread;
    if a.Assign? {
      AssignTargets(s, who, a.live, a.mbps, a.choice);
      SpreadRests(s, who, Targets(a.live, a.choice), side, i);
    }
  }

  lemma {:induction false} SpreadRests(s: System, who: Side, targets: seq<nat>, side: Side, i: nat)
    requires |targets| <= |s.End(who).queue| && forall k :: 0 <= k < |targets| ==> HasUp(s, who, targets[k])
    requires i < |s.cables| && s.cables[i].At(side).status.Removed?
    ensures Spread(s, who, targets).cables[i].At(side) == s.cables[i].At(side)
    decreases |targets|
  {
    if targets != [] {
      var n := |targets| - 1;
      SpreadRests(s, who, targets[..n], side, i);
      assert HasUp(s, who, targets[n]);
    }
  }

  /** A removed link gives back what is in flight, oldest first, and then what it had
      been assigned. */
  lemma RemovedGivesBack(s: System, side: Side, i: nat, k: nat)
    requires CanStep(s, side, RemoveLink(i))
    ensures var p, q, r := s.cables[i].At(side), s.End(side).queue, Step(s, side, RemoveLink(i)).End(side).queue;
            && |r| == |q| + |p.link.inflight| + |p.own| && r[..|q|] == q
            && (k < |p.link.inflight| ==> r[|q| + k] == p.link.inflight[k].payload)
            && (k < |p.own| ==> r[|q| + |p.link.inflight| + k] == p.own[k])
  {
  }

  /** A request for packets drains the shared queue to nothing, or a queue of 26 or more
      to its last half. */
  lemma AssignDrains(s: System, side: Side, a: Action)
    requires CanStep(s, side, a) && a.Assign?
    ensures HasUp(s, side, a.asker) && s.cables[a.asker].At(side).own == [] && s.End(side).queue != []
    ensures var q, r := s.End(side).queue, Step(s, side, a).End(side).queue;
            r == q[if |q| <= 25 then |q| else |q| - |q| / 2..]
  {
    hide Greedy, Spread, Lists;
    AssignTargets(s, side, a.live, a.mbps, a.choice);
  }

  // ------------------------------------------------------------------- targets

  /** Some channel of id c, present or replaced, has an open target. */
  ghost predicate HasOpen(e: Endpoint, c: u64) {
    (c in e.children && e.children[c].target.Open?) || exists o :: o in e.orphans && o.id == c && o.child.target.Open?
  }

  /** Packets are read only from open targets, one at a time, and forwarded only to the
      open target that has the id, the next in order, one at a time. */
  lemma OnlyOpenTargets(e: Endpoint, turn: Turn, c: u64)
    requires CanTurn(e, turn) && turn != AddTarget(c)
    ensures var f := AfterTurn(e, turn);
            && (LogOf(f, c) != LogOf(e, c) ==> HasOpen(e, c) && |LogOf(f, c)| == |LogOf(e, c)| + 1 && LogOf(e, c) <= LogOf(f, c))
            && (ForwardedBy(f, c) != ForwardedBy(e, c) ==>
                  && c in e.children && e.children[c].target.Open? && e.children[c].buffer != []
                  && e.children[c].buffer[0].Some?
                  && ForwardedBy(f, c) == ForwardedBy(e, c) + [e.children[c].buffer[0].value])
  {
    hide EncodePacket;
    if turn.ReadOrphan? {
      assert e.orphans[turn.k] in e.orphans;
    }
  }

  /** A replaced channel opens and forwards like any other. */
  lemma ReplacedGoesOn(e: Endpoint, turn: Turn)
    requires CanTurn(e, turn) && (turn.OpenOrphan? || turn.ForwardOrphan?)
    ensures var f, was := AfterTurn(e, turn), e.orphans[turn.k].child;
            && f == e.(orphans := f.orphans) && |f.orphans| == |e.orphans| && f.orphans[turn.k].id == e.orphans[turn.k].id
            && (turn.OpenOrphan? ==> was.target.Pending? && f.orphans[turn.k].child.target.Open?)
            && (turn.ForwardOrphan? ==>
                  was.target.Open? && was.buffer != [] && was.buffer[0].Some?
                  && f.orphans[turn.k].child.forwarded == was.forwarded + [was.buffer[0].value]
                  && f.orphans[turn.k].child.buffer == was.buffer[1..])
  {
  }

  // -------------------------------------------------------------- closed channels

  /** The end of channel c waits to be announced, or has been. */
  predicate Announced(e: Endpoint, c: u64) {
    c in e.specials || EncodePacket(CLOSE_CHANNEL, c, []) in e.accepted
  }

  /** target_error: the target is gone and the end of its channel will be announced. */
  lemma FailureAnnounced(e: Endpoint, turn: Turn)
    requires CanTurn(e, turn) && (turn.FailTarget? || turn.FailOrphan?)
    ensures var f := AfterTurn(e, turn);
            if turn.FailTarget? then Announced(f, turn.c) && turn.c in f.children && f.children[turn.c].target.Closed?
            else Announced(f, e.orphans[turn.k].id) && f.orphans[turn.k].child.target.Closed?
  {
    hide EncodePacket;
    if turn.FailTarget? {
      assert turn.c in e.specials + [turn.c];
    } else {
      assert e.orphans[turn.k].id in e.specials + [e.orphans[turn.k].id];
    }
  }

  lemma TurnAnnounces(e: Endpoint, turn: Turn, c: u64)
    requires CanTurn(e, turn) && Announced(e, c)
    ensures Announced(AfterTurn(e, turn), c)
  {
    hide EncodePacket, LogOf;
    if turn.SendSpecial? && e.specials[0] == c {
      var p := EncodePacket(CLOSE_CHANNEL, c, []);
      assert p in e.accepted + [p];
    } else if turn.SendSpecial? && c in e.specials {
      assert e.specials == [e.specials[0]] + e.specials[1..];
    }
  }

  lemma DispatchAnnounces(e: Endpoint, p: Payload)
    requires |p| >= TRANSPORT_HEADER
    ensures Dispatch(e, p).specials == e.specials && Dispatch(e, p).accepted == e.accepted
  {
    hide Place, PacketId, PacketSeq, PacketData;
  }

  lemma StepAnnounces(s: System, who: Side, a: Action, side: Side, c: u64)
    requires CanStep(s, who, a) && Announced(s.End(side), c)
    ensures Announced(Step(s, who, a).End(side), c)
  {
    hide Dispatch, Next, Payloads, SendAccepts, AfterTurn, CanTurn, CanAssign, Spread, Announced;
    match a {
      case Deliver(i, _) =>
        DispatchAnnounces(s.End(who), s.cables[i].At(who).link.waiting.value);
        SameAnnounced(s.End(who), Step(s, who, a).End(who), c);
      case AtTransport(turn) =>
        if who == side {
          TurnAnnounces(s.End(who), turn, c);
        }
      case _ => SameAnnounced(s.End(side), Step(s, who, a).End(side), c);
    }
  }

  lemma SameAnnounced(e: Endpoint, f: Endpoint, c: u64)
    requires e.specials == f.specials && e.accepted == f.accepted
    ensures Announced(e, c) == Announced(f, c)
  {
  }

  /** Once a target has failed, in every run: the announcement waits or has been accepted,
      and an accepted packet is never lost. */
  lemma {:induction false} ClosesAnnounced(states: seq<System>, j: nat, k: nat, side: Side, c: u64)
    requires Run(states) && j <= k < |states| && Announced(states[j].End(side), c)
    ensures Announced(states[k].End(side), c)
    decreases k
  {
    hide CanStep, Step, Announced;
    if j < k {
      ClosesAnnounced(states, j, k - 1, side, c);
      assert Follows(states[k - 1], states[k - 1 + 1]);
      var who, a :| CanStep(states[k - 1], who, a) && states[k] == Step(states[k - 1], who, a);
      StepAnnounces(states[k - 1], who, a, side, c);
    }
  }

  /** The announcement closes the channel it names, and changes nothing else. */
  lemma CloseArrives(e: Endpoint, c: u64)
    ensures CLOSE_CHANNEL == 0xFFFF_FFFF_FFFF_FFFD
    ensures var f := Dispatch(e, EncodePacket(CLOSE_CHANNEL, c, []));
            && f == e.(children := f.children) && f.children.Keys == e.children.Keys + {c}
            && (forall d :: d in e.children && d != c ==> f.children[d] == e.children[d])
            && var was := if c in e.children then e.children[c] else FreshChild;
               f.children[c] == was.(target := if was.target.Open? then Closed else was.target)
  {
    hide EncodePacket, PacketId, PacketSeq, PacketData;
    PacketRoundTrip(CLOSE_CHANNEL, c, []);
  }
}
