/** Numbering, reordering and deduplication of the packets of one channel
    (transport.cpp, ChildStream), as functions on values. */
module TransportSpec {
  import opened Bytes
  import opened Frames

  const TRANSPORT_HEADER: nat := 2 * WORD
  const MAX_DATA: nat := MULTILINK_MTU - TRANSPORT_HEADER
  const MAX_BUFFER_PACKETS: nat := 16384
  const CLOSE_CHANNEL: u64 := TWO64 - 3

  // --------------------------------------------------------- packet format

  function EncodePacket(id: u64, seqno: u64, data: Payload): (p: Payload)
    ensures |p| == TRANSPORT_HEADER + |data|
  {
    EncodeU64(id) + EncodeU64(seqno) + data
  }

  function PacketId(p: Payload): u64
    requires |p| >= TRANSPORT_HEADER
  {
    DecodeU64(p, 0)
  }

  function PacketSeq(p: Payload): u64
    requires |p| >= TRANSPORT_HEADER
  {
    DecodeU64(p, WORD)
  }

  function PacketData(p: Payload): Payload
    requires |p| >= TRANSPORT_HEADER
  {
    p[TRANSPORT_HEADER..]
  }

  lemma PacketRoundTrip(id: u64, seqno: u64, data: Payload)
    ensures var p := EncodePacket(id, seqno, data);
            PacketId(p) == id && PacketSeq(p) == seqno && PacketData(p) == data
  {
    hide EncodeU64, DecodeU64;
    var p := EncodePacket(id, seqno, data);
    assert p == [] + EncodeU64(id) + (EncodeU64(seqno) + data);
    U64RoundTrip([], id, EncodeU64(seqno) + data);
    U64RoundTrip(EncodeU64(id), seqno, data);
  }

  /** On the wire: channel, number, data. */
  lemma PacketLayout(id: u64, seqno: u64, data: Payload)
    ensures var p := EncodePacket(id, seqno, data);
            |p| == 16 + |data| && DecodeU64(p, 0) == id && DecodeU64(p, 8) == seqno && p[16..] == data
  {
    PacketRoundTrip(id, seqno, data);
  }

  // -------------------------------------------------------------- channels

  /** The stream a channel talks to: not resolved yet, usable, or gone. */
  datatype Target = Pending | Open | Closed

  datatype Child = Child(
    target: Target,
    lastForwarded: u64,
    buffer: seq<Option<Payload>>, // slot i stands for number lastForwarded + i
    lastSent: u64,
    // history
    forwarded: seq<Payload>)      // packets sent to the target

  const FreshChild: Child := Child(Pending, 0, [], 0, [])

  /** int64_t(seq) - last_forwarded_packet, computed modulo 2^64. */
  function RelSeq(seqno: u64, lastForwarded: u64): (r: int) {
    Signed64(Sub64(seqno, lastForwarded))
  }

  function Padded(buffer: seq<Option<Payload>>, n: nat): (r: seq<Option<Payload>>)
    ensures |r| == if |buffer| < n then n else |buffer|
    ensures buffer <= r
    ensures forall i :: |buffer| <= i < |r| ==> r[i].None?
  {
    if |buffer| < n then buffer + seq(n - |buffer|, _ => None) else buffer
  }

  /** place_packet; None when its window assertion fails. */
  function Place(ch: Child, seqno: u64, data: Payload): (r: Option<Child>) {
    var rel := RelSeq(seqno, ch.lastForwarded);
    if rel < 0 then Some(ch)
    else if rel >= MAX_BUFFER_PACKETS then None
    else
      var buf := Padded(ch.buffer, rel + 1);
      if buf[rel].Some? then Some(ch.(buffer := buf))
      else Some(ch.(buffer := buf[rel := Some(data)]))
  }

  predicate CanForward(ch: Child) {
    ch.buffer != [] && ch.buffer[0].Some?
  }

  /** One turn of the loop of target_send_ready. */
  function Forward(ch: Child): (r: Child)
    requires CanForward(ch)
  {
    ch.(forwarded := ch.forwarded + [ch.buffer[0].value], buffer := ch.buffer[1..],
        lastForwarded := (ch.lastForwarded + 1) % TWO64)
  }

  /** target_recv_ready_once counts the packet it read. */
  function CountSent(ch: Child): (r: Child) {
    ch.(lastSent := (ch.lastSent + 1) % TWO64)
  }

  /** Nothing has been sent under this channel's numbers, and nothing will be. */
  predicate Silent(ch: Child) {
    ch.target.Closed? && ch.lastSent == 0
  }

  /** Nothing has been received. */
  predicate Blank(ch: Child) {
    ch.forwarded == [] && ch.buffer == []
  }

  // --------------------------------------------------------------- meaning

  /** Number n has been received (and perhaps forwarded). */
  ghost predicate Has(ch: Child, n: nat) {
    n < |ch.forwarded| ||
    (n - |ch.forwarded| < |ch.buffer| && ch.buffer[n - |ch.forwarded|].Some?)
  }

  function ValueAt(ch: Child, n: nat): Payload
    requires Has(ch, n)
  {
    if n < |ch.forwarded| then ch.forwarded[n] else ch.buffer[n - |ch.forwarded|].value
  }

  ghost predicate BufferInv(ch: Child) {
    && ch.lastForwarded == |ch.forwarded| <= TWO63
    && |ch.buffer| <= MAX_BUFFER_PACKETS
    && (ch.buffer != [] ==> ch.buffer[|ch.buffer| - 1].Some?)
  }

  /** The wrapped difference is the true one exactly when that fits 64 signed bits. */
  lemma RelSeqExact(seqno: u64, lastForwarded: u64)
    ensures RelSeq(seqno, lastForwarded) == seqno - lastForwarded <==>
            -(TWO63 as int) <= seqno - lastForwarded < TWO63
  {
  }

  /** The reorder buffer refines the set of received numbers: placing number n
      fails exactly beyond the window, otherwise adds n and nothing else, and a
      duplicate changes nothing. */
  lemma PlaceRefines(ch: Child, n: u64, data: Payload)
    requires BufferInv(ch) && n < TWO63
    ensures Place(ch, n, data).None? <==> n >= |ch.forwarded| + 16384
    ensures Place(ch, n, data).Some? ==>
              var r := Place(ch, n, data).value;
              && BufferInv(r) && Has(r, n)
              && r.forwarded == ch.forwarded && r.lastSent == ch.lastSent && r.target == ch.target
              && (Has(ch, n) ==> r == ch)
              && (!Has(ch, n) ==> ValueAt(r, n) == data)
              && (forall m: nat :: m != n ==> (Has(r, m) <==> Has(ch, m)))
              && (forall m: nat :: Has(ch, m) ==> ValueAt(r, m) == ValueAt(ch, m))
  {
    RelSeqExact(n, ch.lastForwarded);
    var rel := n - |ch.forwarded|;
    if 0 <= rel < MAX_BUFFER_PACKETS {
      var r := Place(ch, n, data).value;
      if Has(ch, n) {
        assert r.buffer == ch.buffer;
      }
    }
  }

  /** Forwarding changes what has been forwarded, never what has been received. */
  lemma ForwardRefines(ch: Child)
    requires BufferInv(ch) && CanForward(ch) && |ch.forwarded| < TWO63
    ensures var r := Forward(ch);
            && BufferInv(r)
            && (forall m: nat :: Has(r, m) <==> Has(ch, m))
            && (forall m: nat :: Has(ch, m) ==> ValueAt(r, m) == ValueAt(ch, m))
  {
  }
}
