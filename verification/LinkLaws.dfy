/** What the handlers of a link do, event by event, said without their definitions:
    when a link times out, what a pong measures, what goes out and when, and who is
    woken. */
module LinkLaws {
  import opened Bytes
  import opened Frames
  import opened LinkSpec
  import opened LinkInvariants

  // ------------------------------------------------------------ frames received

  /** A pong answered within 2^31 microseconds sets the round trip time to its age, and
      with it bufferbloat avoidance, which has two marks. */
  lemma PongMeasures(st: LinkState, t: u64, s: u64, now: u64)
    requires st.waiting.None? && t <= now < t + 0x8000_0000
    ensures var r := Handle(st, Pong(t, s), now);
            && r.rtt == now - t && r.ackSeq == s
            && r.bloat == (now - t > 3_000_000 || (st.bloat && now - t >= 2_000_000))
            && (st.bloat && !r.bloat ==> SendReady in r.pending)
  {
    hide Flush, BloatCheck, Signed32, Sub64;
    var p := st.(rtt := now - t, ackSeq := s);
    SmallAge(now, t);
    TwoMarks(p);
    BloatShape(p);
    FlushShape(BloatCheck(p));
  }

  lemma SmallAge(now: u64, t: u64)
    requires t <= now < t + 0x8000_0000
    ensures Signed32(Sub64(now, t)) == now - t
  {
  }

  lemma TwoMarks(st: LinkState)
    requires 0 <= st.rtt < 0x8000_0000
    ensures BloatCheck(st).bloat == (st.rtt > 3_000_000 || (st.bloat && st.rtt >= 2_000_000))
  {
    assert Sub64(st.rtt, 0) == st.rtt;
  }

  lemma PingHeardLater(st: LinkState, t: u64, s: u64, now: u64)
    requires st.waiting.None?
    ensures var r := Handle(st, Ping(t, s), now);
            r.pongTime == t && r.pongSeq == s && AuxCallback in r.pending && r.rtt == st.rtt && r.bloat == st.bloat
  {
  }

  // ---------------------------------------------------------------- frames sent

  /** send_aux: nothing while a frame is being written; else the pong that is owed; else
      a ping if the last one is more than a quarter of a second old. */
  lemma AuxSends(st: LinkState, now: u64)
    requires st.lastPing <= now
    ensures var r := SendAux(st, now);
            && (st.sendBuf != [] ==> r == st)
            && (st.sendBuf == [] ==>
                  && r.sent == st.sent + (if st.pongTime != 0 then [Pong(st.pongTime, st.pongSeq)]
                                          else if now - st.lastPing > 250_000 then [Ping(now, st.lastSeqSent)] else [])
                  && r.pongTime == 0
                  && r.lastPing == (if st.pongTime == 0 && now - st.lastPing > 250_000 then now else st.lastPing)
                  && (r.sent != st.sent ==> WriteCallback in r.pending && r.sendBuf == Encode(r.sent[|st.sent|])))
  {
    hide Encode, SendAux;
    if st.sendBuf != [] || (st.pongTime == 0 && now - st.lastPing <= 250_000) {
      AuxIdle(st, now);
    } else if st.pongTime != 0 {
      AuxPong(st, now);
    } else {
      AuxPing(st, now);
    }
    assert st.sent + [] == st.sent;
  }

  /** Link::send takes a packet exactly when the link is up, avoidance is off, and there
      is nothing to write, to answer or to ask first. */
  lemma SendTakes(st: LinkState, seqno: u64, p: Payload, now: u64)
    requires st.lastPing <= now && |p| <= MULTILINK_MTU
    ensures var r := SendData(st, seqno, p, now);
            r.inflight == st.inflight +
              (if !st.timedOut && !st.bloat && st.sendBuf == [] && st.pongTime == 0 && now - st.lastPing <= 250_000
               then [InFlight(seqno, p, now)] else [])
  {
    hide Encode, SendData;
    assert st.inflight + [] == st.inflight;
  }

  /** When the stream has taken everything, the link will ask for more. */
  lemma WrittenAsks(st: LinkState, n: nat)
    requires EdgeInv(st) && n <= |st.sendBuf| && !st.timedOut
    ensures var r := Write(st, n);
            && (n == |st.sendBuf| ==> EdgeCallback in r.pending && !r.edge)
            && r.written == st.written + st.sendBuf[..n] && r.sendBuf == st.sendBuf[n..]
  {
  }

  // -------------------------------------------------------------------- timeouts

  /** The timer callback times a live link out exactly when some packet has been in
      flight for more than eight seconds, and then its owner is told. */
  lemma TimerTimesOut(st: LinkState, now: u64)
    requires InFlightInv(st) && Enabled(st, Timer, now)
    ensures var r := Next(st, Timer, now);
            && (r.timedOut <==> st.timedOut || exists p :: p in st.inflight && now - p.time > 8_000_000)
            && (r.timedOut && !st.timedOut ==> SendReady in r.pending)
  {
    hide Encode, ShouldPing, Ordered, TotalSize, MaybeRetransmit;
    var s := SendAux(At(st, now), now);
    AuxKeepsFlight(At(st, now), now);
    if !st.timedOut {
      FrontIsOldest(s, now);
      TimeoutTold(s, now);
    }
  }

  lemma AuxKeepsFlight(st: LinkState, now: u64)
    ensures var r := SendAux(st, now);
            && r.inflight == st.inflight && r.flushed == st.flushed && r.inflightBytes == st.inflightBytes
            && r.lastSeqSent == st.lastSeqSent && r.clock == st.clock && r.timedOut == st.timedOut && r.bloat == st.bloat
            && r.rtt == st.rtt && r.waiting == st.waiting && r.got == st.got
  {
    hide SendAux;
    AuxShape(st, now);
  }

  lemma AuxShape(st: LinkState, now: u64)
    ensures var r := SendAux(st, now);
            r == st.(sendBuf := r.sendBuf, sent := r.sent, pending := r.pending,
                     pongTime := r.pongTime, pongSeq := r.pongSeq, lastPing := r.lastPing)
  {
    hide Encode, ShouldPing, SendAux;
    if st.sendBuf != [] || (st.pongTime == 0 && !ShouldPing(st, now)) {
      AuxIdle(st, now);
    } else if st.pongTime != 0 {
      AuxPong(st, now);
    } else {
      AuxPing(st, now);
    }
  }

  lemma AuxIdle(st: LinkState, now: u64)
    requires st.sendBuf != [] || (st.pongTime == 0 && !ShouldPing(st, now))
    ensures SendAux(st, now) == st
  {
  }

  lemma AuxPong(st: LinkState, now: u64)
    requires st.sendBuf == [] && st.pongTime != 0
    ensures var f := Pong(st.pongTime, st.pongSeq);
            SendAux(st, now) == st.(sendBuf := Encode(f), sent := st.sent + [f], pending := st.pending + multiset{WriteCallback},
                                    pongTime := 0, pongSeq := 0)
  {
    hide Encode;
  }

  lemma AuxPing(st: LinkState, now: u64)
    requires st.sendBuf == [] && st.pongTime == 0 && ShouldPing(st, now)
    ensures var f := Ping(now, st.lastSeqSent);
            SendAux(st, now) == st.(sendBuf := Encode(f), sent := st.sent + [f], pending := st.pending + multiset{WriteCallback},
                                    lastPing := now)
  {
    hide Encode;
  }

  lemma TimeoutTold(st: LinkState, now: u64)
    requires RetransmitDefined(st)
    ensures var r := MaybeRetransmit(st, now); r.timedOut && !st.timedOut ==> SendReady in r.pending
  {
  }

  /** Besides, the timer callback sends what send_aux sends. */
  lemma TimerSends(st: LinkState, now: u64)
    requires Enabled(st, Timer, now) && !st.timedOut
    ensures Next(st, Timer, now).sent == SendAux(At(st, now), now).sent
    ensures Next(st, Timer, now).sendBuf == SendAux(At(st, now), now).sendBuf
  {
    hide SendAux;
    AuxKeepsFlight(At(st, now), now);
  }

  // --------------------------------------------------------------- whole events

  /** From st to r, no handler has unset what it set: the owner is told of a packet that
      waits and of avoidance that ended, and r's round trip time is that of st or of a
      pong parsed since. */
  ghost predicate Told(st: LinkState, r: LinkState, now: u64) {
    && st.pending <= r.pending && st.got <= r.got
    && r.timedOut == st.timedOut && r.clock == st.clock && r.sent == st.sent && r.sendBuf == st.sendBuf
    && r.lastPing == st.lastPing && r.edge == st.edge
    && (st.waiting.None? && r.waiting.Some? ==> RecvReady in r.pending)
    && (st.bloat && !r.bloat ==> SendReady in r.pending)
    && (r.rtt == st.rtt || MeasuredBy(r, now))
  }

  ghost predicate MeasuredBy(r: LinkState, now: u64) {
    exists f :: f in r.got && f.Pong? && r.rtt == Signed32(Sub64(now, f.time))
  }

  /** Every pong, sent or owed, answers a ping that was heard. */
  ghost predicate Echoes(st: LinkState) {
    && (forall f :: f in st.sent && f.Pong? ==> Ping(f.time, f.seqno) in st.got)
    && (st.pongTime != 0 ==> Ping(st.pongTime, st.pongSeq) in st.got)
  }

  /** Something scheduled, or the end of the present write, will send the pong owed. */
  predicate PongComes(st: LinkState) {
    st.pongTime != 0 ==> st.sendBuf != [] || AuxCallback in st.pending || EdgeCallback in st.pending
  }

  ghost predicate PongInv(st: LinkState) {
    Echoes(st) && PongComes(st)
  }

  /** Pings carry readings of the link's own clock. */
  ghost predicate PingInv(st: LinkState) {
    && st.lastPing <= st.clock
    && (forall f :: f in st.sent && f.Ping? ==> f.time <= st.clock)
  }

  lemma HandleTold(st: LinkState, f: Frame, now: u64)
    requires st.waiting.None? && PongInv(st)
    ensures var s := st.(got := st.got + [f]);
            Told(st, Handle(s, f, now), now) && PongInv(Handle(s, f, now))
  {
    hide Told, PongInv, Handle;
    match f {
      case Data(p) => DataTold(st, p, now);
      case Ping(t, k) => PingTold(st, t, k, now);
      case Pong(t, k) => PongTold(st, t, k, now);
    }
  }

  lemma DataTold(st: LinkState, p: Payload, now: u64)
    requires st.waiting.None? && PongInv(st)
    ensures var r := Handle(st.(got := st.got + [Data(p)]), Data(p), now); Told(st, r, now) && PongInv(r)
  {
    hide Sub64, Signed32;
  }

  lemma PingTold(st: LinkState, t: u64, k: u64, now: u64)
    requires st.waiting.None? && PongInv(st)
    ensures var r := Handle(st.(got := st.got + [Ping(t, k)]), Ping(t, k), now); Told(st, r, now) && PongInv(r)
  {
    hide Sub64, Signed32;
    assert Ping(t, k) in st.got + [Ping(t, k)];
  }

  lemma PongTold(st: LinkState, t: u64, k: u64, now: u64)
    requires st.waiting.None? && PongInv(st)
    ensures var r := Handle(st.(got := st.got + [Pong(t, k)]), Pong(t, k), now); Told(st, r, now) && PongInv(r)
  {
    hide Sub64, Signed32, BloatCheck, Flush;
    var s := st.(got := st.got + [Pong(t, k)]);
    assert Pong(t, k) in s.got;
    var p := s.(rtt := Signed32(Sub64(now, t)), ackSeq := k);
    BloatShape(p);
    FlushShape(BloatCheck(p));
  }

  lemma BloatShape(st: LinkState)
    ensures var r := BloatCheck(st);
            && r == st.(bloat := r.bloat, pending := r.pending) && st.pending <= r.pending
            && (st.bloat && !r.bloat ==> SendReady in r.pending)
  {
    hide Sub64;
  }

  lemma FlushShape(st: LinkState)
    ensures var r := Flush(st); r == st.(inflight := r.inflight, flushed := r.flushed, inflightBytes := r.inflightBytes)
  {
    hide FlushCount, TotalSize;
  }

  lemma ParseStepTold(st: LinkState, now: u64)
    requires CanParse(st) && PongInv(st)
    ensures Told(st, ParseStep(st, now), now) && PongInv(ParseStep(st, now))
  {
    hide TryParse, Handle, Sub64, Signed32;
    var p := TryParse(st.recvBuf);
    if p.Parsed? {
      HandleTold(st.(recvBuf := p.rest), p.frame, now);
    }
  }

  lemma ToldTwice(st: LinkState, s: LinkState, r: LinkState, now: u64)
    requires Told(st, s, now) && Told(s, r, now)
    requires s.waiting.Some? ==> r == s
    ensures Told(st, r, now)
  {
    hide Sub64, Signed32;
    if r.rtt != st.rtt && r.rtt == s.rtt {
      var f :| f in s.got && f.Pong? && s.rtt == Signed32(Sub64(now, f.time));
      assert f in r.got;
    }
  }

  lemma {:induction false} ParseAllTold(st: LinkState, now: u64)
    requires PongInv(st)
    ensures Told(st, ParseAll(st, now), now) && PongInv(ParseAll(st, now))
    decreases !st.aborted, |st.recvBuf|
  {
    hide ParseStep, TryParse, PongInv, Told;
    if CanParse(st) {
      var s := ParseStep(st, now);
      ParseStepTold(st, now);
      ParseAllTold(s, now);
      ToldTwice(st, s, ParseAll(st, now), now);
    } else {
      NothingTold(st, now);
    }
  }

  lemma NothingTold(st: LinkState, now: u64)
    ensures Told(st, st, now)
  {
    hide Sub64, Signed32;
  }

  // ------------------------------------------------------------------ every event

  ghost predicate LawInv(st: LinkState) {
    PongInv(st) && PingInv(st)
  }

  /** What an event may change of what others rely on. */
  ghost predicate Fair(st: LinkState, e: Event, r: LinkState, now: u64) {
    && (!e.Timer? ==> r.timedOut == st.timedOut)
    && (st.waiting.None? && r.waiting.Some? ==> RecvReady in r.pending)
    && (st.bloat && !r.bloat ==> SendReady in r.pending)
    && (r.rtt == st.rtt || MeasuredBy(r, now))
  }

  lemma AuxLaw(st: LinkState, now: u64)
    requires Echoes(st) && PingInv(st) && st.clock == now
    ensures var r := SendAux(st, now); Echoes(r) && PingInv(r) && (r.sendBuf != [] || r.pongTime == 0)
  {
    hide Encode, SendAux, ShouldPing;
    if st.sendBuf != [] || (st.pongTime == 0 && !ShouldPing(st, now)) {
      AuxIdle(st, now);
    } else if st.pongTime != 0 {
      AuxPong(st, now);
    } else {
      AuxPing(st, now);
    }
  }

  lemma AuxFair(st: LinkState, e: Event, now: u64)
    ensures Fair(st, e, SendAux(st, now), now)
  {
    hide SendAux, MeasuredBy;
    AuxKeepsFlight(st, now);
  }

  lemma RetransmitLaw(st: LinkState, now: u64)
    requires LawInv(st) && RetransmitDefined(st)
    ensures LawInv(MaybeRetransmit(st, now)) && Fair(st, Timer, MaybeRetransmit(st, now), now)
  {
    hide MeasuredBy;
  }

  lemma TimerLaw(st: LinkState, now: u64)
    requires LawInv(st) && Enabled(st, Timer, now)
    ensures LawInv(Next(st, Timer, now)) && Fair(st, Timer, Next(st, Timer, now), now)
  {
    hide SendAux, MaybeRetransmit, MeasuredBy, Encode;
    var s := At(st, now);
    if !st.timedOut {
      AuxLaw(s, now);
      AuxKeepsFlight(s, now);
      RetransmitLaw(SendAux(s, now), now);
    }
  }

  lemma CallbackLaw(st: LinkState, e: Event, now: u64)
    requires LawInv(st) && Enabled(st, e, now) && (e.RunEdge? || e.RunAux?)
    ensures LawInv(Next(st, e, now)) && Fair(st, e, Next(st, e, now), now)
  {
    hide SendAux, MeasuredBy;
    var s := if e.RunEdge? then Ran(At(st, now), EdgeCallback).(edge := true) else Ran(At(st, now), AuxCallback);
    AuxLaw(s, now);
    AuxFair(s, e, now);
  }

  lemma WriteLaw(st: LinkState, e: Event, now: u64)
    requires LawInv(st) && EdgeInv(st) && Enabled(st, e, now) && (e.RunWrite? || e.Writable?)
    ensures LawInv(Next(st, e, now)) && Fair(st, e, Next(st, e, now), now)
  {
    hide MeasuredBy, Write;
    var s := if e.RunWrite? then Ran(At(st, now), WriteCallback) else At(st, now);
    WriteShape(s, e.n);
    if !st.timedOut {
      WrittenAsks(s, e.n);
    }
  }

  lemma WriteShape(st: LinkState, n: nat)
    requires n <= |st.sendBuf|
    ensures var r := Write(st, n);
            && r == st.(sendBuf := r.sendBuf, written := r.written, blocked := r.blocked, edge := r.edge, pending := r.pending)
            && st.pending <= r.pending && (st.timedOut ==> r == st)
  {
  }

  lemma ReadLaw(st: LinkState, e: Event, now: u64)
    requires LawInv(st) && Enabled(st, e, now) && (e.RunRead? || e.Readable?)
    ensures LawInv(Next(st, e, now)) && Fair(st, e, Next(st, e, now), now)
    ensures st.got <= Next(st, e, now).got && Next(st, e, now).sent == st.sent
  {
    hide MeasuredBy, ParseAll;
    var s := if e.RunRead? then Ran(At(st, now), ReadCallback) else At(st, now);
    if !st.timedOut {
      ParseAllTold(Receive(s, e.chunk), now);
    }
  }

  lemma SubmitLaw(st: LinkState, e: Event, now: u64)
    requires LawInv(st) && Enabled(st, e, now) && e.Submit?
    ensures LawInv(Next(st, e, now)) && Fair(st, e, Next(st, e, now), now)
  {
    hide MeasuredBy, SendAux, Busy, Encode;
    var s := At(st, now);
    AuxLaw(s, now);
    AuxFair(s, e, now);
  }

  /** Every event keeps the laws and is fair. */
  lemma EventLaw(st: LinkState, e: Event, now: u64)
    requires LawInv(st) && EdgeInv(st) && Enabled(st, e, now)
    ensures LawInv(Next(st, e, now)) && Fair(st, e, Next(st, e, now), now)
  {
    hide LawInv, Fair, EdgeInv, Next, Enabled;
    match e {
      case Timer => TimerLaw(st, now);
      case RunEdge => CallbackLaw(st, e, now);
      case RunWrite(_) => WriteLaw(st, e, now);
      case Writable(_) => WriteLaw(st, e, now);
      case RunAux => CallbackLaw(st, e, now);
      case RunRead(_) => ReadLaw(st, e, now);
      case Readable(_) => ReadLaw(st, e, now);
      case RunNotify(_) => RestLaw(st, e, now);
      case Submit(_, _) => SubmitLaw(st, e, now);
      case TakePacket => RestLaw(st, e, now);
    }
  }

  lemma RestLaw(st: LinkState, e: Event, now: u64)
    requires LawInv(st) && Enabled(st, e, now) && (e.RunNotify? || e.TakePacket?)
    ensures LawInv(Next(st, e, now)) && Fair(st, e, Next(st, e, now), now)
  {
    hide MeasuredBy;
  }

  lemma FreshLaw()
    ensures LawInv(Fresh)
  {
  }
}
