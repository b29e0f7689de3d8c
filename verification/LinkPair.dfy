/** Two link ends joined by a pair of FIFO byte streams. Every run of the two
    keeps the byte-level refinement (the receiver parses exactly the frames the
    sender formatted, in order) and the soundness of acknowledgements, although
    data frames carry no sequence number. */
module LinkPair {
  import opened Bytes
  import opened Frames
  import opened LinkSpec
  import opened LinkInvariants

  // ------------------------------------------------------------- invariants

  /** The stream from a to b is FIFO and b has parsed a prefix of a's frames. */
  ghost predicate StreamInv(a: LinkState, b: LinkState) {
    && AllFit(a.sent)
    && b.consumed <= a.written
    && b.got <= a.sent
    && b.consumed == EncodeAll(b.got) + b.recvBuf
  }

  /** The frames of a that b has not parsed yet. */
  function Unparsed(a: LinkState, b: LinkState): seq<Frame>
    requires |b.got| <= |a.sent|
  {
    a.sent[|b.got|..]
  }

  /** Sequence numbers carried by the pongs (or pings) of a run of frames. */
  function Seqnos(fs: seq<Frame>, pongs: bool): (r: seq<u64>) {
    if fs == [] then [] else One(fs[0], pongs) + Seqnos(fs[1..], pongs)
  }

  function One(f: Frame, pongs: bool): (r: seq<u64>) {
    if f.Data? || f.Pong? != pongs then [] else [f.seqno]
  }

  function PongWanted(b: LinkState): seq<u64> {
    if b.pongTime != 0 then [b.pongSeq] else []
  }

  /** Numbers b has read from pings of a, in the order they reach a: the one a
      knows, those in pongs on the way, the one b is about to echo. */
  function Confirmed(a: LinkState, b: LinkState): seq<u64>
    requires |a.got| <= |b.sent|
  {
    [a.ackSeq] + Seqnos(Unparsed(b, a), true) + PongWanted(b)
  }

  /** Numbers still to be read by b: pings on the way, the last number used. */
  function Outstanding(a: LinkState, b: LinkState): seq<u64>
    requires |b.got| <= |a.sent|
  {
    Seqnos(Unparsed(a, b), false) + [a.lastSeqSent]
  }

  ghost predicate NonDecreasing(s: seq<u64>) {
    forall i, j :: 0 <= i <= j < |s| ==> s[i] <= s[j]
  }

  /** Only the first n packets of the log are numbered s or less. */
  ghost predicate Covers(log: seq<InFlight>, s: u64, n: nat) {
    forall i :: 0 <= i < |log| && log[i].seqno <= s ==> i < n
  }

  ghost predicate ConfirmedInv(a: LinkState, b: LinkState)
    requires |a.got| <= |b.sent|
  {
    forall k :: 0 <= k < |Confirmed(a, b)| ==> Covers(a.Log(), Confirmed(a, b)[k], |b.returned|)
  }

  ghost predicate PingInv(a: LinkState, b: LinkState) {
    forall i :: |b.got| <= i < |a.sent| && a.sent[i].Ping? ==>
      Covers(a.Log(), a.sent[i].seqno, |Datas(a.sent[..i])|)
  }

  ghost predicate WindowInv(a: LinkState) {
    && (forall i :: 0 <= i < |a.flushed| ==> a.flushed[i].seqno <= a.ackSeq)
    && (forall i :: 0 <= i < |a.inflight| ==> a.inflight[i].seqno > a.ackSeq)
  }

  /** Acknowledgement numbers form one sorted pipeline from a through b and back,
      and none of them claims a packet that b has not handed to its reader. */
  ghost predicate AckInv(a: LinkState, b: LinkState)
    requires |a.got| <= |b.sent| && |b.got| <= |a.sent|
  {
    && NonDecreasing(Confirmed(a, b) + Outstanding(a, b))
    && ConfirmedInv(a, b)
    && PingInv(a, b)
    && WindowInv(a)
  }

  ghost predicate Joint(a: LinkState, b: LinkState) {
    && !a.aborted && !b.aborted
    && StreamInv(a, b) && StreamInv(b, a)
    && AckInv(a, b) && AckInv(b, a)
  }

  ghost predicate PairInv(a: LinkState, b: LinkState) {
    LinkInv(a) && LinkInv(b) && Joint(a, b)
  }

  /** A step of a: reads yield the next bytes the peer's stream accepted. */
  ghost predicate PairEnabled(a: LinkState, b: LinkState, e: Event, now: u64) {
    && Enabled(a, e, now)
    && (e.RunRead? || e.Readable? ==> a.consumed + e.chunk <= b.written)
  }

  lemma FreshPair()
    ensures PairInv(Fresh, Fresh)
  {
    hide Encode, EncodeAll, TryParse, CoreInv, ProgressInv;
    EncodeNothing();
    FreshInv();
    assert Confirmed(Fresh, Fresh) + Outstanding(Fresh, Fresh) == [0, 0];
  }

  // ------------------------------------------------------------ small facts

  lemma {:induction false} SeqnosSnoc(fs: seq<Frame>, f: Frame, pongs: bool)
    ensures Seqnos(fs + [f], pongs) == Seqnos(fs, pongs) + One(f, pongs)
  {
    hide One;
    if fs == [] {
      assert fs + [f] == [f];
      assert Seqnos([f], pongs) == One(f, pongs) + Seqnos([f][1..], pongs);
    } else {
      SeqnosSnoc(fs[1..], f, pongs);
      assert (fs + [f])[1..] == fs[1..] + [f];
      Regroup(One(fs[0], pongs), Seqnos(fs[1..], pongs), One(f, pongs));
    }
  }

  lemma UnparsedSnoc(a: LinkState, b: LinkState, f: Frame, pongs: bool)
    requires |b.got| <= |a.sent|
    ensures (a.sent + [f])[|b.got|..] == Unparsed(a, b) + [f]
    ensures Seqnos((a.sent + [f])[|b.got|..], pongs) == Seqnos(Unparsed(a, b), pongs) + One(f, pongs)
  {
    assert (a.sent + [f])[|b.got|..] == Unparsed(a, b) + [f];
    SeqnosSnoc(Unparsed(a, b), f, pongs);
  }

  lemma UnparsedTail(a: LinkState, k: nat, pongs: bool)
    requires k < |a.sent|
    ensures Seqnos(a.sent[k..], pongs) == One(a.sent[k], pongs) + Seqnos(a.sent[k + 1..], pongs)
  {
    assert a.sent[k..][1..] == a.sent[k + 1..];
  }

  // ------------------------------------------------------ formatting a frame

  /** a formats a pong: it moves from `about to echo` to `on the way`. */
  lemma PongQueued(a: LinkState, b: LinkState)
    requires Joint(a, b) && a.sendBuf == [] && a.pongTime != 0
    ensures var r := QueueFrame(a, Pong(a.pongTime, a.pongSeq)).(pongTime := 0, pongSeq := 0);
            AckInv(r, b) && AckInv(b, r)
  {
    hide Encode, EncodeAll, Datas, Seqnos;
    var f := Pong(a.pongTime, a.pongSeq);
    var r := QueueFrame(a, f).(pongTime := 0, pongSeq := 0);
    UnparsedSnoc(a, b, f, true);
    UnparsedSnoc(a, b, f, false);
    assert Confirmed(b, r) == Confirmed(b, a);
    assert Outstanding(r, b) == Outstanding(a, b);
    assert forall i :: 0 <= i < |a.sent| ==> r.sent[..i] == a.sent[..i];
  }

  /** Nothing that matters to b's acknowledgements has changed. */
  lemma AckFrame(b: LinkState, a: LinkState, r: LinkState)
    requires |a.got| <= |b.sent| && |b.got| <= |a.sent| && AckInv(b, a)
    requires r.got == a.got && |r.sent| >= |a.sent| && |r.returned| >= |a.returned|
    requires Confirmed(b, r) == Confirmed(b, a)
    ensures AckInv(b, r)
  {
    hide Datas, Seqnos, Confirmed;
    assert Outstanding(b, r) == Outstanding(b, a);
  }

  /** Pings already on the way keep their cover when frames and packets with
      higher numbers follow. */
  lemma PingsKept(a: LinkState, b: LinkState, r: LinkState, f: Frame)
    requires PingInv(a, b) && r.sent == a.sent + [f] && a.Log() <= r.Log()
    requires forall i :: |b.got| <= i < |a.sent| && a.sent[i].Ping? ==> a.sent[i].seqno <= a.lastSeqSent
    requires forall i :: |a.Log()| <= i < |r.Log()| ==> r.Log()[i].seqno > a.lastSeqSent
    requires f.Ping? ==> |r.Log()| <= |Datas(a.sent)|
    ensures PingInv(r, b)
  {
    hide Datas, LinkState.Log;
    assert forall i :: 0 <= i < |a.sent| ==> r.sent[..i] == a.sent[..i];
    assert r.sent[..|a.sent|] == a.sent;
  }

  /** a formats a ping: the last number used is announced, and every packet
      numbered so far precedes the ping in the stream. */
  lemma PingQueued(a: LinkState, b: LinkState, now: u64)
    requires Joint(a, b) && CoreInv(a) && a.sendBuf == []
    ensures var r := QueueFrame(a, Ping(now, a.lastSeqSent)).(lastPing := now);
            AckInv(r, b) && AckInv(b, r)
  {
    hide Encode, EncodeAll, Datas, Seqnos, TotalSize;
    var f := Ping(now, a.lastSeqSent);
    var r := QueueFrame(a, f).(lastPing := now);
    UnparsedSnoc(a, b, f, true);
    UnparsedSnoc(a, b, f, false);
    AckFrame(b, a, r);
    PingsBelow(a, b);
    PingsKept(a, b, r, f);
    PingChain(a, b, r);
  }

  lemma PingChain(a: LinkState, b: LinkState, r: LinkState)
    requires |a.got| <= |b.sent| && |b.got| <= |a.sent| <= |r.sent| && r.got == a.got
    requires NonDecreasing(Confirmed(a, b) + Outstanding(a, b))
    requires Confirmed(r, b) == Confirmed(a, b) && Outstanding(r, b) == Outstanding(a, b) + [a.lastSeqSent]
    ensures NonDecreasing(Confirmed(r, b) + Outstanding(r, b))
  {
    hide Seqnos, Confirmed;
    var chain := Confirmed(a, b) + Outstanding(a, b);
    assert Confirmed(r, b) + Outstanding(r, b) == chain + [a.lastSeqSent];
    assert chain[|chain| - 1] == a.lastSeqSent;
  }

  /** a formats a data frame under a number above all earlier ones. */
  lemma DataQueued(a: LinkState, b: LinkState, seqno: u64, payload: Payload, now: u64)
    requires Joint(a, b) && SendAccepts(a, now) && a.lastSeqSent < seqno && |payload| <= MULTILINK_MTU
    ensures var r := SendData(a, seqno, payload, now);
            AckInv(r, b) && AckInv(b, r)
  {
    hide Encode, EncodeAll, Datas, Seqnos, TotalSize;
    var f := Data(payload);
    var r := SendData(a, seqno, payload, now);
    UnparsedSnoc(a, b, f, true);
    UnparsedSnoc(a, b, f, false);
    AckFrame(b, a, r);
    PingsBelow(a, b);
    assert r.Log() == a.Log() + [InFlight(seqno, payload, now)];
    PingsKept(a, b, r, f);
    DataChain(a, b, r, InFlight(seqno, payload, now));
  }

  lemma DataChain(a: LinkState, b: LinkState, r: LinkState, p: InFlight)
    requires |a.got| <= |b.sent| && |b.got| <= |a.sent| <= |r.sent| && r.got == a.got
    requires NonDecreasing(Confirmed(a, b) + Outstanding(a, b)) && ConfirmedInv(a, b) && WindowInv(a)
    requires Confirmed(r, b) == Confirmed(a, b) && r.ackSeq == a.ackSeq
    requires Outstanding(r, b) == Outstanding(a, b)[|Outstanding(a, b)| - 1 := p.seqno]
    requires a.lastSeqSent < p.seqno && r.flushed == a.flushed && r.inflight == a.inflight + [p]
    ensures NonDecreasing(Confirmed(r, b) + Outstanding(r, b)) && ConfirmedInv(r, b) && WindowInv(r)
  {
    hide Seqnos;
    var chain := Confirmed(a, b) + Outstanding(a, b);
    var last := |chain| - 1;
    assert chain[last] == a.lastSeqSent;
    assert Confirmed(r, b) + Outstanding(r, b) == chain[last := p.seqno];
    assert forall k :: 0 <= k < |Confirmed(a, b)| ==> Confirmed(a, b)[k] == chain[k] <= a.lastSeqSent;
    assert Confirmed(a, b)[0] == a.ackSeq;
    assert r.Log() == a.Log() + [p];
  }

  /** No ping on the way announces a number that has not been used. */
  lemma PingsBelow(a: LinkState, b: LinkState)
    requires Joint(a, b)
    ensures forall i :: |b.got| <= i < |a.sent| && a.sent[i].Ping? ==> a.sent[i].seqno <= a.lastSeqSent
  {
    hide Encode, EncodeAll, Datas, Seqnos;
    var chain := Confirmed(a, b) + Outstanding(a, b);
    forall i | |b.got| <= i < |a.sent| && a.sent[i].Ping?
      ensures a.sent[i].seqno <= a.lastSeqSent
    {
      assert a.sent[i] == Unparsed(a, b)[i - |b.got|];
      PingListed(Unparsed(a, b), i - |b.got|);
      var k :| 0 <= k < |Seqnos(Unparsed(a, b), false)| && Seqnos(Unparsed(a, b), false)[k] == a.sent[i].seqno;
      assert chain[|Confirmed(a, b)| + k] == a.sent[i].seqno && chain[|chain| - 1] == a.lastSeqSent;
    }
  }

  lemma {:induction false} PingListed(fs: seq<Frame>, i: nat)
    requires i < |fs| && fs[i].Ping?
    ensures fs[i].seqno in Seqnos(fs, false)
  {
    if i > 0 {
      PingListed(fs[1..], i - 1);
    }
  }

  /** Formatting any frame leaves both byte streams refined. */
  lemma QueuedStreams(a: LinkState, b: LinkState, f: Frame)
    requires StreamInv(a, b) && StreamInv(b, a) && a.sendBuf == [] && Fits(f)
    ensures StreamInv(QueueFrame(a, f), b) && StreamInv(b, QueueFrame(a, f))
  {
    hide Encode, EncodeAll;
    EncodeAllSnoc(a.sent, f);
  }

  lemma SendAuxJoint(a: LinkState, b: LinkState, now: u64)
    requires Joint(a, b) && CoreInv(a)
    ensures Joint(SendAux(a, now), b)
  {
    hide Encode, EncodeAll, AckInv, CoreInv;
    if a.sendBuf == [] {
      if a.pongTime != 0 {
        PongQueued(a, b);
        QueuedStreams(a, b, Pong(a.pongTime, a.pongSeq));
      } else if ShouldPing(a, now) {
        PingQueued(a, b, now);
        QueuedStreams(a, b, Ping(now, a.lastSeqSent));
      }
    }
  }

  lemma SendDataJoint(a: LinkState, b: LinkState, seqno: u64, payload: Payload, now: u64)
    requires Joint(a, b) && CoreInv(a) && a.lastSeqSent < seqno && |payload| <= MULTILINK_MTU
    ensures Joint(SendData(a, seqno, payload, now), b)
  {
    hide Encode, EncodeAll, AckInv, CoreInv, SendAux;
    SendAuxJoint(a, b, now);
    if SendAccepts(a, now) {
      DataQueued(a, b, seqno, payload, now);
      QueuedStreams(a, b, Data(payload));
    }
  }

  // ---------------------------------------------------------- parsing frames

  /** What a has buffered and what is still to come encode the unparsed frames. */
  lemma BytesToCome(a: LinkState, b: LinkState)
    requires StreamInv(b, a) && FramingInv(b)
    ensures a.recvBuf + (b.written[|a.consumed|..] + b.sendBuf) == EncodeAll(Unparsed(b, a))
  {
    hide Encode, EncodeAll;
    var rest := b.written[|a.consumed|..] + b.sendBuf;
    assert b.sent == a.got + Unparsed(b, a);
    EncodeAllAppend(a.got, Unparsed(b, a));
    assert a.consumed + rest == EncodeAll(b.sent);
    assert EncodeAll(a.got) + (a.recvBuf + rest) == EncodeAll(a.got) + EncodeAll(Unparsed(b, a));
    Cancel(EncodeAll(a.got), a.recvBuf + rest, EncodeAll(Unparsed(b, a)));
  }

  lemma Cancel(p: seq<byte>, x: seq<byte>, y: seq<byte>)
    requires p + x == p + y
    ensures x == y
  {
    assert (p + x)[|p|..] == x && (p + y)[|p|..] == y;
  }

  /** The parser of a takes exactly the next frame of b; no assertion fails. */
  lemma NextFrame(a: LinkState, b: LinkState)
    requires StreamInv(b, a) && FramingInv(b) && CanParse(a)
    ensures |a.got| < |b.sent|
    ensures TryParse(a.recvBuf).Parsed? && TryParse(a.recvBuf).frame == b.sent[|a.got|]
    ensures a.recvBuf == Encode(b.sent[|a.got|]) + TryParse(a.recvBuf).rest
  {
    hide Encode, TryParse;
    var todo := Unparsed(b, a);
    var future := b.written[|a.consumed|..] + b.sendBuf;
    BytesToCome(a, b);
    ParseCut(a.recvBuf, future, todo);
    var rest := TryParse(a.recvBuf).rest;
    Strip(Encode(todo[0]), a.recvBuf, rest, future, EncodeAll(todo[1..]));
  }

  lemma Strip(s: seq<byte>, buf: seq<byte>, rest: seq<byte>, future: seq<byte>, tail: seq<byte>)
    requires buf + future == s + tail && rest + future == tail
    ensures buf == s + rest
  {
    assert (s + rest) + future == buf + future;
    assert |buf| == |s + rest|;
    assert buf == (buf + future)[..|buf|];
    assert s + rest == ((s + rest) + future)[..|buf|];
  }

  /** a with the next frame cut from its buffer. */
  function Cut(a: LinkState, f: Frame, rest: seq<byte>): LinkState {
    a.(recvBuf := rest, got := a.got + [f])
  }

  lemma CutStreams(a: LinkState, b: LinkState)
    requires StreamInv(a, b) && StreamInv(b, a) && FramingInv(b) && CanParse(a)
    ensures TryParse(a.recvBuf).Parsed?
    ensures var p := TryParse(a.recvBuf);
            StreamInv(Cut(a, p.frame, p.rest), b) && StreamInv(b, Cut(a, p.frame, p.rest))
  {
    hide Encode, EncodeAll, TryParse, CanParse;
    NextFrame(a, b);
    CutBytes(a, b, TryParse(a.recvBuf).frame, TryParse(a.recvBuf).rest);
  }

  lemma CutBytes(a: LinkState, b: LinkState, f: Frame, rest: seq<byte>)
    requires StreamInv(a, b) && StreamInv(b, a) && |a.got| < |b.sent| && f == b.sent[|a.got|]
    requires Fits(f) && a.recvBuf == Encode(f) + rest
    ensures StreamInv(Cut(a, f, rest), b) && StreamInv(b, Cut(a, f, rest))
  {
    hide Encode, EncodeAll, AllFit;
    OneMoreFrame(a.got, b.sent);
    Regroup(EncodeAll(a.got), Encode(f), rest);
  }

  lemma OneMoreFrame(got: seq<Frame>, sent: seq<Frame>)
    requires AllFit(sent) && got <= sent && |got| < |sent|
    ensures AllFit(got) && Fits(sent[|got|]) && got + [sent[|got|]] <= sent
    ensures AllFit(got + [sent[|got|]]) && EncodeAll(got + [sent[|got|]]) == EncodeAll(got) + Encode(sent[|got|])
  {
    hide Encode, EncodeAll, AllFit;
    PrefixSnoc(got, sent);
    PrefixFits(got, sent);
    EncodeAllSnoc(got, sent[|got|]);
  }

  lemma PrefixFits(got: seq<Frame>, sent: seq<Frame>)
    requires AllFit(sent) && got <= sent
    ensures AllFit(got) && (|got| < |sent| ==> Fits(sent[|got|]))
  {
    hide Fits;
    assert forall i :: 0 <= i < |got| ==> got[i] == sent[i];
  }

  lemma PrefixSnoc<T>(a: seq<T>, b: seq<T>)
    requires a <= b && |a| < |b|
    ensures a + [b[|a|]] <= b
  {
    assert a + [b[|a|]] == b[..|a| + 1];
  }

  /** Parsing a frame that is not a pong leaves a's own acknowledgements alone. */
  lemma OtherParsed(a: LinkState, b: LinkState, r: LinkState)
    requires |a.got| < |b.sent| && |b.got| <= |a.sent| && AckInv(a, b)
    requires !b.sent[|a.got|].Pong? && r.got == a.got + [b.sent[|a.got|]]
    requires r.sent == a.sent && r.ackSeq == a.ackSeq && r.lastSeqSent == a.lastSeqSent
    requires r.flushed == a.flushed && r.inflight == a.inflight
    ensures AckInv(r, b)
  {
    hide Datas, Seqnos;
    UnparsedTail(b, |a.got|, true);
    assert Confirmed(r, b) == Confirmed(a, b);
    assert Outstanding(r, b) == Outstanding(a, b);
  }

  /** Parsing a pong advances the acknowledgement along the sorted pipeline and
      drops from the queue only packets the peer has handed to its reader. */
  lemma PongParsed(a: LinkState, b: LinkState, r: LinkState)
    requires |a.got| < |b.sent| && |b.got| <= |a.sent| && AckInv(a, b) && InFlightInv(a)
    requires b.sent[|a.got|].Pong? && r.got == a.got + [b.sent[|a.got|]]
    requires r.sent == a.sent && r.lastSeqSent == a.lastSeqSent && r.ackSeq == b.sent[|a.got|].seqno
    requires var k := FlushCount(a.inflight, r.ackSeq);
             r.flushed == a.flushed + a.inflight[..k] && r.inflight == a.inflight[k..]
    ensures AckInv(r, b) && a.ackSeq <= r.ackSeq
  {
    hide Datas, Seqnos, Covers;
    UnparsedTail(b, |a.got|, true);
    assert Confirmed(r, b) == Confirmed(a, b)[1..];
    assert Outstanding(r, b) == Outstanding(a, b);
    var chain := Confirmed(a, b) + Outstanding(a, b);
    assert Confirmed(r, b) + Outstanding(r, b) == chain[1..];
    assert chain[0] == a.ackSeq && chain[1] == r.ackSeq;
    FlushWindow(a, r);
  }

  lemma FlushWindow(a: LinkState, r: LinkState)
    requires Ordered(a.Log()) && WindowInv(a) && a.ackSeq <= r.ackSeq
    requires var k := FlushCount(a.inflight, r.ackSeq);
             r.flushed == a.flushed + a.inflight[..k] && r.inflight == a.inflight[k..]
    ensures WindowInv(r) && r.Log() == a.Log()
  {
    hide FlushCount, Ordered;
    var k := FlushCount(a.inflight, r.ackSeq);
    OrderedTail(a);
    FlushCountMeaning(a.inflight, r.ackSeq);
    Rejoin(a.flushed, a.inflight, k);
  }

  lemma OrderedTail(a: LinkState)
    requires Ordered(a.Log())
    ensures Ordered(a.inflight)
  {
    assert forall i :: 0 <= i < |a.inflight| ==> a.inflight[i] == a.Log()[|a.flushed| + i];
  }

  /** Parsing a frame that is not a ping leaves what a owes b alone. */
  lemma OtherHeard(a: LinkState, b: LinkState, r: LinkState)
    requires |a.got| < |b.sent| && |b.got| <= |a.sent| && AckInv(b, a)
    requires !b.sent[|a.got|].Ping? && r.got == a.got + [b.sent[|a.got|]]
    requires r.sent == a.sent && r.pongTime == a.pongTime && r.pongSeq == a.pongSeq && r.returned == a.returned
    ensures AckInv(b, r)
  {
    hide Datas, Seqnos;
    UnparsedTail(b, |a.got|, false);
    assert Confirmed(b, r) == Confirmed(b, a);
    assert Outstanding(b, r) == Outstanding(b, a);
  }

  /** Parsing a ping: everything sent before it has been parsed and, since the
      parser stops at an untaken packet, has been returned by recv. */
  lemma PingHeard(a: LinkState, b: LinkState, r: LinkState)
    requires |a.got| < |b.sent| && |b.got| <= |a.sent| && AckInv(b, a) && a.got <= b.sent
    requires Datas(a.got) == a.returned
    requires b.sent[|a.got|].Ping? && r.got == a.got + [b.sent[|a.got|]]
    requires r.sent == a.sent && r.returned == a.returned
    requires r.pongTime == b.sent[|a.got|].time && r.pongSeq == b.sent[|a.got|].seqno
    ensures AckInv(b, r)
  {
    hide Datas, Seqnos;
    var f := b.sent[|a.got|];
    UnparsedTail(b, |a.got|, false);
    assert b.sent[..|a.got|] == a.got;
    assert Covers(b.Log(), f.seqno, |a.returned|);
    var x := [b.ackSeq] + Seqnos(Unparsed(a, b), true);
    assert Outstanding(b, a) == [f.seqno] + Outstanding(b, r);
    assert Confirmed(b, a) == x + PongWanted(a) && Confirmed(b, r) == x + PongWanted(r);
    PingHeardChain(x, PongWanted(a), f.seqno, Outstanding(b, r), PongWanted(r));
    assert forall k :: 0 <= k < |x| ==> Confirmed(b, r)[k] == Confirmed(b, a)[k];
  }

  lemma PingHeardChain(x: seq<u64>, w: seq<u64>, s: u64, y: seq<u64>, w': seq<u64>)
    requires NonDecreasing(x + w + ([s] + y)) && (w' == [s] || w' == [])
    ensures NonDecreasing(x + w' + y)
  {
    var c, c' := x + w + ([s] + y), x + w' + y;
    var d := |c| - |c'|;
    forall i, j | 0 <= i <= j < |c'|
      ensures c'[i] <= c'[j]
    {
      var i0 := if i < |x| then i else i + d;
      var j0 := if j < |x| then j else j + d;
      assert c'[i] == c[i0] && c'[j] == c[j0];
    }
  }

  /** One turn of the parse loop. */
  lemma ParseStepJoint(a: LinkState, b: LinkState, now: u64)
    requires Joint(a, b) && CoreInv(a) && FramingInv(b) && CanParse(a)
    ensures Joint(ParseStep(a, now), b)
    ensures a.ackSeq <= ParseStep(a, now).ackSeq
  {
    hide Encode, EncodeAll, TryParse, Datas, AckInv, TotalSize, Payloads, Ordered, AllFit, Fits, Signed32, Sub64;
    NextFrame(a, b);
    CutStreams(a, b);
    var p := TryParse(a.recvBuf);
    var r := ParseStep(a, now);
    match p.frame {
      case Data(_) => OtherParsed(a, b, r); OtherHeard(a, b, r);
      case Ping(_, _) => OtherParsed(a, b, r); PingHeard(a, b, r);
      case Pong(_, _) => PongParsed(a, b, r); OtherHeard(a, b, r);
    }
  }

  lemma {:induction false} ParseAllJoint(a: LinkState, b: LinkState, now: u64)
    requires Joint(a, b) && CoreInv(a) && FramingInv(b)
    ensures Joint(ParseAll(a, now), b)
    ensures a.ackSeq <= ParseAll(a, now).ackSeq
    decreases !a.aborted, |a.recvBuf|
  {
    hide Joint, CoreInv, FramingInv, ParseStep, TryParse;
    if CanParse(a) {
      ParseStepKeeps(a, now);
      ParseStepJoint(a, b, now);
      ParseAllJoint(ParseStep(a, now), b, now);
    }
  }

  // -------------------------------------------------------------- every step

  /** r differs from a in nothing the acknowledgements depend on, except that
      more packets may have been returned. */
  predicate SameAcks(a: LinkState, r: LinkState) {
    && r.sent == a.sent && r.got == a.got && |r.returned| >= |a.returned|
    && r.ackSeq == a.ackSeq && r.lastSeqSent == a.lastSeqSent
    && r.pongTime == a.pongTime && r.pongSeq == a.pongSeq
    && r.flushed == a.flushed && r.inflight == a.inflight
  }

  lemma SameAcksKeep(a: LinkState, b: LinkState, r: LinkState)
    requires |a.got| <= |b.sent| && |b.got| <= |a.sent| && AckInv(a, b) && AckInv(b, a) && SameAcks(a, r)
    ensures AckInv(r, b) && AckInv(b, r)
  {
    hide Datas, Seqnos;
    assert Confirmed(r, b) == Confirmed(a, b) && Outstanding(r, b) == Outstanding(a, b);
    AckFrame(b, a, r);
  }

  /** Steps that neither format nor parse a frame. */
  lemma QuietJoint(a: LinkState, b: LinkState, r: LinkState)
    requires Joint(a, b) && SameAcks(a, r) && r.aborted == a.aborted && a.written <= r.written
    requires (r.consumed == a.consumed && r.recvBuf == a.recvBuf) ||
             exists chunk :: r.consumed == a.consumed + chunk && r.recvBuf == a.recvBuf + chunk && r.consumed <= b.written
    ensures Joint(r, b)
  {
    hide EncodeAll, AckInv;
    SameAcksKeep(a, b, r);
  }

  lemma WriteJoint(a: LinkState, b: LinkState, n: nat)
    requires Joint(a, b) && n <= |a.sendBuf|
    ensures Joint(Write(a, n), b)
  {
    hide Joint;
    QuietJoint(a, b, Write(a, n));
  }

  lemma ReadJoint(a: LinkState, b: LinkState, chunk: seq<byte>, now: u64)
    requires Joint(a, b) && CoreInv(a) && FramingInv(b) && |a.recvBuf| + |chunk| <= LINK_MTU
    requires a.consumed + chunk <= b.written
    ensures Joint(Read(a, chunk, now), b)
    ensures a.ackSeq <= Read(a, chunk, now).ackSeq
  {
    hide Joint, FramingInv, CoreInv, ParseAll;
    if !a.timedOut {
      var r := Receive(a, chunk);
      QuietJoint(a, b, r);
      ReceiveKeeps(a, chunk);
      ParseAllJoint(r, b, now);
    }
  }

  lemma ReceiveKeeps(a: LinkState, chunk: seq<byte>)
    requires CoreInv(a) && |a.recvBuf| + |chunk| <= LINK_MTU
    ensures CoreInv(Receive(a, chunk))
  {
    hide EncodeAll, Datas, TotalSize, Payloads;
  }

  lemma TickJoint(a: LinkState, b: LinkState, now: u64)
    requires Joint(a, b) && CoreInv(a) && RetransmitDefined(a)
    ensures Joint(Tick(a, now), b) && Tick(a, now).ackSeq == a.ackSeq
  {
    hide Joint, CoreInv, Encode, Sub64, MaybeRetransmit;
    if !a.timedOut {
      var s := SendAux(a, now);
      SendAuxJoint(a, b, now);
      RetransmitJoint(s, b, now);
    }
  }

  lemma RetransmitJoint(s: LinkState, b: LinkState, now: u64)
    requires Joint(s, b) && RetransmitDefined(s)
    ensures Joint(MaybeRetransmit(s, now), b) && MaybeRetransmit(s, now).ackSeq == s.ackSeq
  {
    hide Joint, Sub64;
    QuietJoint(s, b, MaybeRetransmit(s, now));
  }

  /** Preparing a step (clock, callback bookkeeping, edge flag) is quiet. */
  lemma PrepareJoint(a: LinkState, b: LinkState, now: u64, cb: Callback, edge: bool)
    requires PairInv(a, b) && a.clock <= now
    ensures var s := At(a, now);
            && Joint(s, b) && CoreInv(s)
            && Joint(Ran(s, cb), b) && Joint(Ran(s, cb).(edge := edge), b)
            && (cb != EdgeCallback && cb != WriteCallback ==> CoreInv(Ran(s, cb)))
            && (EdgeCallback in a.pending ==> CoreInv(Ran(s, EdgeCallback).(edge := true)))
  {
    hide Joint, CoreInv, ProgressInv;
    var s := At(a, now);
    AtKeeps(a, now);
    QuietJoint(a, b, s);
    QuietJoint(s, b, Ran(s, cb));
    QuietJoint(s, b, Ran(s, cb).(edge := edge));
    if cb != EdgeCallback { RanKeeps(s, cb); }
    if EdgeCallback in a.pending { RanEdgeKeeps(s); }
  }

  lemma SendingStepJoint(a: LinkState, b: LinkState, e: Event, now: u64)
    requires PairInv(a, b) && PairEnabled(a, b, e, now) && (e.Timer? || e.RunEdge? || e.RunAux? || e.Submit?)
    ensures Joint(Next(a, e, now), b) && a.ackSeq == Next(a, e, now).ackSeq
  {
    hide Joint, CoreInv, ProgressInv, Tick, SendAux, SendData, PairInv, SendAccepts, Busy;
    var s := At(a, now);
    match e {
      case Timer =>
        PrepareJoint(a, b, now, RecvReady, true);
        TickJoint(s, b, now);
      case RunEdge =>
        PrepareJoint(a, b, now, EdgeCallback, true);
        SendAuxJoint(Ran(s, EdgeCallback).(edge := true), b, now);
        SendAuxAck(Ran(s, EdgeCallback).(edge := true), now);
      case RunAux =>
        PrepareJoint(a, b, now, AuxCallback, true);
        SendAuxJoint(Ran(s, AuxCallback), b, now);
        SendAuxAck(Ran(s, AuxCallback), now);
      case Submit(seqno, payload) =>
        PrepareJoint(a, b, now, RecvReady, true);
        SendDataJoint(s, b, seqno, payload, now);
        SendDataAck(s, seqno, payload, now);
    }
  }

  lemma ReadingStepJoint(a: LinkState, b: LinkState, e: Event, now: u64)
    requires PairInv(a, b) && PairEnabled(a, b, e, now) && (e.RunRead? || e.Readable?)
    ensures Joint(Next(a, e, now), b) && a.ackSeq <= Next(a, e, now).ackSeq
  {
    hide Joint, CoreInv, ProgressInv, FramingInv, Read, PairInv;
    PairFraming(a, b);
    PrepareJoint(a, b, now, ReadCallback, true);
    var s := At(a, now);
    if e.RunRead? {
      ReadJoint(Ran(s, ReadCallback), b, e.chunk, now);
    } else {
      ReadJoint(s, b, e.chunk, now);
    }
  }

  lemma QuietStepJoint(a: LinkState, b: LinkState, e: Event, now: u64)
    requires PairInv(a, b) && PairEnabled(a, b, e, now) && (e.RunWrite? || e.Writable? || e.RunNotify? || e.TakePacket?)
    ensures Joint(Next(a, e, now), b) && a.ackSeq == Next(a, e, now).ackSeq
  {
    hide Joint, CoreInv, ProgressInv, PairInv;
    var s := At(a, now);
    match e {
      case RunWrite(n) =>
        PrepareJoint(a, b, now, WriteCallback, true);
        WriteJoint(Ran(s, WriteCallback), b, n);
      case Writable(n) =>
        PrepareJoint(a, b, now, RecvReady, true);
        WriteJoint(s, b, n);
      case RunNotify(cb) =>
        PrepareJoint(a, b, now, cb, true);
      case TakePacket =>
        PrepareJoint(a, b, now, RecvReady, true);
        QuietJoint(s, b, Take(s));
    }
  }

  lemma StepJoint(a: LinkState, b: LinkState, e: Event, now: u64)
    requires PairInv(a, b) && PairEnabled(a, b, e, now)
    ensures Joint(Next(a, e, now), b) && a.ackSeq <= Next(a, e, now).ackSeq
  {
    hide Joint, PairInv, Next;
    if e.RunRead? || e.Readable? {
      ReadingStepJoint(a, b, e, now);
    } else if e.Timer? || e.RunEdge? || e.RunAux? || e.Submit? {
      SendingStepJoint(a, b, e, now);
    } else {
      QuietStepJoint(a, b, e, now);
    }
  }

  lemma PairFraming(a: LinkState, b: LinkState)
    requires PairInv(a, b)
    ensures FramingInv(a) && FramingInv(b)
  {
  }

  lemma SendAuxAck(a: LinkState, now: u64)
    ensures SendAux(a, now).ackSeq == a.ackSeq
  {
  }

  lemma SendDataAck(a: LinkState, seqno: u64, payload: Payload, now: u64)
    requires |payload| <= MULTILINK_MTU
    ensures SendData(a, seqno, payload, now).ackSeq == a.ackSeq
  {
  }

  /** The pair invariant is kept by every step of either end: in every run, the
      parser never faults, frames arrive complete and in order, and every
      acknowledgement is sound. */
  lemma PairStep(a: LinkState, b: LinkState, e: Event, now: u64)
    requires PairInv(a, b) && PairEnabled(a, b, e, now)
    ensures PairInv(Next(a, e, now), b) && PairInv(b, Next(a, e, now))
    ensures a.ackSeq <= Next(a, e, now).ackSeq
  {
    hide LinkInv, AckInv, StreamInv, Next;
    StepKeeps(a, e, now);
    StepJoint(a, b, e, now);
  }

  // ------------------------------------------------------------ consequences

  /** recv returns the sender's packets in order, each exactly once. */
  lemma InOrder(a: LinkState, b: LinkState)
    requires PairInv(a, b)
    ensures b.returned + b.WaitingSeq() <= Payloads(a.Log())
  {
    hide EncodeAll, Payloads, TotalSize, AckInv, Datas;
    DatasPrefix(b.got, a.sent);
  }

  /** Whatever flush_in_flight_queue has dropped, the peer's recv has returned;
      acknowledgements never run ahead of what was sent. */
  lemma AckSound(a: LinkState, b: LinkState)
    requires PairInv(a, b)
    ensures |a.flushed| <= |b.returned|
    ensures forall i :: 0 <= i < |a.flushed| ==> b.returned[i] == a.flushed[i].payload
    ensures forall i :: 0 <= i < |a.inflight| ==> a.inflight[i].seqno > a.ackSeq
    ensures a.ackSeq <= a.lastSeqSent
  {
    hide EncodeAll, TotalSize, Datas, Seqnos;
    InOrder(a, b);
    var chain := Confirmed(a, b) + Outstanding(a, b);
    assert chain[0] == Confirmed(a, b)[0] == a.ackSeq && chain[|chain| - 1] == a.lastSeqSent;
    assert Covers(a.Log(), a.ackSeq, |b.returned|);
    assert forall i :: 0 <= i < |a.flushed| ==> a.Log()[i] == a.flushed[i];
    if |a.flushed| > 0 {
      var last := |a.flushed| - 1;
      assert a.Log()[last].seqno <= a.ackSeq;
    }
    var arrived := b.returned + b.WaitingSeq();
    assert forall i :: 0 <= i < |b.returned| ==> b.returned[i] == arrived[i] == Payloads(a.Log())[i];
  }

  /** A full receive buffer always holds a whole frame: reading never wedges. */
  lemma FullBufferParses(a: LinkState, b: LinkState)
    requires PairInv(a, b) && |a.recvBuf| == LINK_MTU
    ensures TryParse(a.recvBuf) != NeedMore
    ensures a.waiting.None? && !a.timedOut ==> ReadCallback in a.pending
  {
    hide EncodeAll, TryParse, Datas, AckInv, TotalSize, Payloads;
    BytesToCome(a, b);
    var future := b.written[|a.consumed|..] + b.sendBuf;
    ParseCut(a.recvBuf, future, Unparsed(b, a));
    if Unparsed(b, a) == [] {
      EncodeNothing();
    }
  }
}
