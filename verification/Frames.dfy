/** The byte format of one link: a big-endian length, a type byte and a body
    (multilink_link.cpp, format_send_packet and try_parse_recv_packet). */
module Frames {
  import opened Bytes

  const LINK_MTU: nat := 16384
  const HEADER_SIZE: nat := 3
  const MULTILINK_MTU: nat := LINK_MTU - HEADER_SIZE

  type Payload = seq<byte>

  datatype Frame =
    | Data(payload: Payload)
    | Ping(time: u64, seqno: u64)
    | Pong(time: u64, seqno: u64)

  function Kind(f: Frame): (k: byte) {
    match f
    case Data(_) => 0
    case Ping(_, _) => 1
    case Pong(_, _) => 2
  }

  function Body(f: Frame): (b: seq<byte>)
    ensures !f.Data? ==> |b| == 2 * WORD
  {
    match f
    case Data(p) => p
    case Ping(t, s) => EncodeU64(t) + EncodeU64(s)
    case Pong(t, s) => EncodeU64(t) + EncodeU64(s)
  }

  /** The frames that fit the MTU-sized send buffer. */
  predicate Fits(f: Frame) {
    f.Data? ==> |f.payload| <= MULTILINK_MTU
  }

  function Encode(f: Frame): (s: seq<byte>)
    requires Fits(f)
    ensures HEADER_SIZE <= |s| == HEADER_SIZE + |Body(f)| <= LINK_MTU
  {
    var len := |Body(f)| + HEADER_SIZE;
    [len / 256, len % 256, Kind(f)] + Body(f)
  }

  /** On the wire: the whole length, most significant byte first; the type; then the
      packet, or a clock reading and a number of eight bytes each. */
  lemma FrameLayout(f: Frame)
    requires Fits(f)
    ensures var s := Encode(f);
            && 256 * (s[0] as nat) + s[1] == |s| && s[2] == (if f.Data? then 0 else if f.Ping? then 1 else 2)
            && (f.Data? ==> s[3..] == f.payload)
            && (!f.Data? ==> |s| == 19 && DecodeU64(s, 3) == f.time && DecodeU64(s, 11) == f.seqno)
  {
    hide EncodeU64, DecodeU64;
    if !f.Data? {
      var s := Encode(f);
      var head := [s[0], s[1], s[2]];
      U64RoundTrip(head, f.time, EncodeU64(f.seqno));
      assert s == head + EncodeU64(f.time) + EncodeU64(f.seqno);
      U64RoundTrip(head + EncodeU64(f.time), f.seqno, []);
      assert s == (head + EncodeU64(f.time)) + EncodeU64(f.seqno) + [];
    }
  }

  predicate AllFit(fs: seq<Frame>) {
    forall i :: 0 <= i < |fs| ==> Fits(fs[i])
  }

  function EncodeAll(fs: seq<Frame>): (s: seq<byte>)
    requires AllFit(fs)
  {
    if fs == [] then [] else Encode(fs[0]) + EncodeAll(fs[1..])
  }

  lemma EncodeNothing()
    ensures EncodeAll([]) == []
  {
  }

  lemma EncodeAllCons(f: Frame, fs: seq<Frame>)
    requires Fits(f) && AllFit(fs)
    ensures AllFit([f] + fs) && EncodeAll([f] + fs) == Encode(f) + EncodeAll(fs)
  {
    hide Encode, Fits;
    assert ([f] + fs)[1..] == fs;
  }

  lemma {:induction false} EncodeAllAppend(fs: seq<Frame>, gs: seq<Frame>)
    requires AllFit(fs) && AllFit(gs)
    ensures AllFit(fs + gs)
    ensures EncodeAll(fs + gs) == EncodeAll(fs) + EncodeAll(gs)
  {
    hide Encode, EncodeAll, Fits;
    EncodeNothing();
    if fs == [] {
      assert fs + gs == gs;
    } else {
      var f, rest := fs[0], fs[1..];
      EncodeAllAppend(rest, gs);
      EncodeAllCons(f, rest);
      EncodeAllCons(f, rest + gs);
      assert fs == [f] + rest && fs + gs == [f] + (rest + gs);
    }
  }

  lemma EncodeAllSnoc(fs: seq<Frame>, f: Frame)
    requires AllFit(fs) && Fits(f)
    ensures AllFit(fs + [f])
    ensures EncodeAll(fs + [f]) == EncodeAll(fs) + Encode(f)
  {
    EncodeAllAppend(fs, [f]);
    assert EncodeAll([f]) == Encode(f) + EncodeAll([]);
  }

  /** What one attempt to parse the receive buffer does: wait for more bytes,
      fail an assertion, drop a frame of unknown type, or take a frame. */
  datatype ParseResult =
    | NeedMore
    | Fault
    | Dropped(rest: seq<byte>)
    | Parsed(frame: Frame, rest: seq<byte>)

  function FrameLength(buf: seq<byte>): (n: u16)
    requires |buf| >= 2
  {
    var high: nat, low: nat := buf[0], buf[1];
    high * 256 + low
  }

  function TryParse(buf: seq<byte>): (r: ParseResult)
    ensures r.Parsed? ==> |r.rest| < |buf|
    ensures r.Dropped? ==> |r.rest| < |buf|
  {
    if |buf| < 2 then NeedMore
    else
      var len := FrameLength(buf);
      if len == 0 then Fault
      else if |buf| < len then NeedMore
      else ParseFrame(buf[..len], buf[len..])
  }

  function ParseFrame(data: seq<byte>, rest: seq<byte>): (r: ParseResult)
    requires data != []
    ensures r.Parsed? || r.Dropped? ==> r.rest == rest
  {
    if |data| < HEADER_SIZE then Fault
    else if data[2] == 0 then Parsed(Data(data[HEADER_SIZE..]), rest)
    else if data[2] == 1 || data[2] == 2 then
      if |data| < HEADER_SIZE + 2 * WORD then Fault
      else
        var time := DecodeU64(data, HEADER_SIZE);
        var seqno := DecodeU64(data, HEADER_SIZE + WORD);
        Parsed(if data[2] == 1 then Ping(time, seqno) else Pong(time, seqno), rest)
    else Dropped(rest)
  }

  lemma ParseFrameEncoded(f: Frame, rest: seq<byte>)
    requires Fits(f)
    ensures ParseFrame(Encode(f), rest) == Parsed(f, rest)
  {
    var data := Encode(f);
    if f.Data? {
      assert data[HEADER_SIZE..] == f.payload;
    } else {
      var head := data[..HEADER_SIZE];
      assert data == head + EncodeU64(f.time) + EncodeU64(f.seqno);
      U64RoundTrip(head, f.time, EncodeU64(f.seqno));
      assert data == (head + EncodeU64(f.time)) + EncodeU64(f.seqno) + [];
      U64RoundTrip(head + EncodeU64(f.time), f.seqno, []);
    }
  }

  /** The parser inverts the formatter, whatever follows the frame. */
  lemma ParseEncoded(f: Frame, rest: seq<byte>)
    requires Fits(f)
    ensures TryParse(Encode(f) + rest) == Parsed(f, rest)
  {
    var buf := Encode(f) + rest;
    var len := |Encode(f)|;
    assert FrameLength(buf) == len;
    assert buf[..len] == Encode(f) && buf[len..] == rest;
    ParseFrameEncoded(f, rest);
  }

  /** A strict prefix of a frame makes the parser wait. */
  lemma ParsePrefixWaits(f: Frame, buf: seq<byte>)
    requires Fits(f) && buf < Encode(f)
    ensures TryParse(buf) == NeedMore
  {
    var s := Encode(f);
    if |buf| >= 2 {
      assert buf[0] == s[0] && buf[1] == s[1];
      assert FrameLength(buf) == |s|;
    }
  }

  lemma ParseEmptyWaits()
    ensures TryParse([]) == NeedMore
  {
  }

  lemma ParseCutFirst(buf: seq<byte>, future: seq<byte>, f: Frame, tail: seq<byte>)
    requires Fits(f) && buf + future == Encode(f) + tail
    ensures |buf| < |Encode(f)| ==> TryParse(buf) == NeedMore
    ensures |buf| >= |Encode(f)| ==>
              TryParse(buf) == Parsed(f, buf[|Encode(f)|..]) && buf[|Encode(f)|..] + future == tail
  {
    hide Encode, TryParse;
    var s := Encode(f);
    var all := s + tail;
    if |buf| < |s| {
      assert buf == all[..|buf|] == s[..|buf|];
      ParsePrefixWaits(f, buf);
    } else {
      var rest := buf[|s|..];
      assert s == all[..|s|] == buf[..|s|];
      assert buf == s + rest;
      ParseEncoded(f, rest);
      assert rest + future == all[|s|..];
    }
  }

  /** However the stream has been cut, a receive buffer that starts an encoded
      run of frames either waits or yields exactly the first frame. */
  lemma ParseCut(buf: seq<byte>, future: seq<byte>, fs: seq<Frame>)
    requires AllFit(fs) && buf + future == EncodeAll(fs)
    ensures TryParse(buf) == NeedMore ||
            (fs != [] && TryParse(buf).Parsed? && TryParse(buf).frame == fs[0] &&
             TryParse(buf).rest + future == EncodeAll(fs[1..]))
    ensures TryParse(buf) == NeedMore <==> fs == [] || |buf| < |Encode(fs[0])|
  {
    hide Encode, TryParse;
    if fs == [] {
      assert buf == [];
      ParseEmptyWaits();
    } else {
      ParseCutFirst(buf, future, fs[0], EncodeAll(fs[1..]));
    }
  }

  /** The payloads of the data frames, in order. */
  function Datas(fs: seq<Frame>): (ps: seq<Payload>) {
    if fs == [] then []
    else Datas(fs[..|fs| - 1]) + (if fs[|fs| - 1].Data? then [fs[|fs| - 1].payload] else [])
  }

  lemma DatasSnoc(fs: seq<Frame>, f: Frame)
    ensures Datas(fs + [f]) == Datas(fs) + (if f.Data? then [f.payload] else [])
  {
    assert (fs + [f])[..|fs|] == fs;
  }

  lemma {:induction false} DatasPrefix(fs: seq<Frame>, gs: seq<Frame>)
    requires fs <= gs
    ensures Datas(fs) <= Datas(gs)
    decreases |gs|
  {
    if fs != gs {
      var init := gs[..|gs| - 1];
      assert fs <= init;
      DatasPrefix(fs, init);
    } else {
      assert fs == gs;
    }
  }
}
