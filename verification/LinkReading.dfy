/** How the stream cuts its bytes into reads does not matter: reading in two
    parts leaves the link as reading them at once. */
module LinkReading {
  import opened Bytes
  import opened Frames
  import opened LinkSpec

  /** A parse that does not wait is not changed by bytes that follow. */
  lemma ParseStable(buf: seq<byte>, more: seq<byte>)
    requires TryParse(buf) != NeedMore
    ensures TryParse(buf + more) ==
            match TryParse(buf)
            case NeedMore => NeedMore
            case Fault => Fault
            case Dropped(rest) => Dropped(rest + more)
            case Parsed(f, rest) => Parsed(f, rest + more)
  {
    hide ParseFrame;
    var len := FrameLength(buf);
    assert FrameLength(buf + more) == len;
    if len != 0 {
      assert (buf + more)[..len] == buf[..len];
      assert (buf + more)[len..] == buf[len..] + more;
      ParseFrameRest(buf[..len], buf[len..], more);
    }
  }

  lemma ParseFrameRest(data: seq<byte>, rest: seq<byte>, more: seq<byte>)
    requires data != []
    ensures ParseFrame(data, rest) != NeedMore
    ensures ParseFrame(data, rest + more) ==
            match ParseFrame(data, rest)
            case NeedMore => NeedMore
            case Fault => Fault
            case Dropped(r) => Dropped(r + more)
            case Parsed(f, r) => Parsed(f, r + more)
  {
    hide DecodeU64;
  }

  lemma HandleReceive(st: LinkState, f: Frame, now: u64, more: seq<byte>)
    requires st.waiting.None?
    ensures Handle(Receive(st, more), f, now) == Receive(Handle(st, f, now), more)
  {
    hide Sub64, Signed32, BloatCheck, Flush;
    if f.Pong? {
      var p := st.(rtt := Signed32(Sub64(now, f.time)), ackSeq := f.seqno);
      assert Receive(st, more).(rtt := p.rtt, ackSeq := p.ackSeq) == Receive(p, more);
      BloatReceive(p, more);
      FlushReceive(BloatCheck(p), more);
    }
  }

  lemma BloatReceive(st: LinkState, more: seq<byte>)
    ensures BloatCheck(Receive(st, more)) == Receive(BloatCheck(st), more)
  {
    hide Sub64;
  }

  lemma FlushReceive(st: LinkState, more: seq<byte>)
    ensures Flush(Receive(st, more)) == Receive(Flush(st), more)
  {
    hide FlushCount, TotalSize;
  }

  /** Receiving more bytes commutes with a parse step that could already be taken. */
  lemma StepReceive(st: LinkState, now: u64, more: seq<byte>)
    requires CanParse(st)
    ensures CanParse(Receive(st, more))
    ensures ParseStep(Receive(st, more), now) == Receive(ParseStep(st, now), more)
  {
    hide TryParse, Handle;
    ParseStable(st.recvBuf, more);
    var p := TryParse(st.recvBuf);
    if p.Parsed? {
      var cut := st.(recvBuf := p.rest, got := st.got + [p.frame]);
      HandleReceive(cut, p.frame, now, more);
      assert Receive(st, more).(recvBuf := p.rest + more, got := st.got + [p.frame]) == Receive(cut, more);
    }
  }

  lemma {:induction false} ParseReceive(st: LinkState, now: u64, more: seq<byte>)
    ensures ParseAll(Receive(ParseAll(st, now), more), now) == ParseAll(Receive(st, more), now)
    decreases !st.aborted, |st.recvBuf|
  {
    hide TryParse, ParseStep, Receive;
    if CanParse(st) {
      StepReceive(st, now, more);
      ParseReceive(ParseStep(st, now), now, more);
    }
  }

  lemma ReceiveTwice(st: LinkState, first: seq<byte>, more: seq<byte>)
    ensures Receive(Receive(st, first), more) == Receive(st, first + more)
  {
    assert st.recvBuf + first + more == st.recvBuf + (first + more);
    assert st.consumed + first + more == st.consumed + (first + more);
  }

  /** Two reads in a row are one read of the joined bytes. */
  lemma ReadJoins(st: LinkState, first: seq<byte>, more: seq<byte>, now: u64)
    requires !st.timedOut
    ensures ParseAll(Receive(ParseAll(Receive(st, first), now), more), now) == Read(st, first + more, now)
  {
    hide ParseAll, Receive;
    ParseReceive(Receive(st, first), now, more);
    ReceiveTwice(st, first, more);
  }

  lemma HandleKeepsBuffer(st: LinkState, f: Frame, now: u64)
    requires st.waiting.None?
    ensures Handle(st, f, now).recvBuf == st.recvBuf
  {
    hide Sub64, Signed32, BloatCheck, Flush;
    if f.Pong? {
      SameBuffer(st.(rtt := Signed32(Sub64(now, f.time)), ackSeq := f.seqno));
    }
  }

  lemma SameBuffer(st: LinkState)
    ensures Flush(BloatCheck(st)).recvBuf == st.recvBuf
  {
    hide Sub64, FlushCount, TotalSize;
  }

  /** Reading one whole frame into an empty buffer is handling that frame. */
  lemma ReadOneFrame(st: LinkState, f: Frame, now: u64)
    requires st.recvBuf == [] && st.waiting.None? && !st.aborted && !st.timedOut && Fits(f)
    ensures Read(st, Encode(f), now) ==
            Handle(st.(consumed := st.consumed + Encode(f), got := st.got + [f]), f, now)
  {
    hide Encode, TryParse, Handle;
    var s := Receive(st, Encode(f));
    var cut := st.(consumed := st.consumed + Encode(f), got := st.got + [f]);
    assert s.recvBuf == Encode(f) + [];
    ParseEncoded(f, []);
    ParseEmptyWaits();
    assert s.(recvBuf := [], got := st.got + [f]) == cut;
    HandleKeepsBuffer(cut, f, now);
    var next := ParseStep(s, now);
    assert next == Handle(cut, f, now);
    assert !CanParse(next);
    assert ParseAll(next, now) == next;
  }
}
