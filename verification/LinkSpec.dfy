/** One end of a link as a value: the fields of Link, the callbacks it has left
    with the reactor, and the history of what it sent and received. The
    functions are the handlers of multilink_link.cpp; `now` is the clock reading
    a handler works with. */
module LinkSpec {
  import opened Bytes
  import opened Frames

  const PING_INTERVAL: nat := 250_000
  const BUFFERBLOAT_LOW_MARK: nat := 2_000_000
  const BUFFERBLOAT_HIGH_MARK: nat := 3_000_000
  const RETRANSMISSION_TIMEOUT: nat := 8_000_000

  /** A callback handed to reactor.schedule and not run yet. */
  datatype Callback =
    | EdgeCallback   // on_send_ready_edge_fn
    | WriteCallback  // transport_write_ready(false)
    | ReadCallback   // transport_read_ready
    | AuxCallback    // send_aux
    | RecvReady      // on_recv_ready
    | SendReady      // on_send_ready

  datatype InFlight = InFlight(seqno: u64, payload: Payload, time: u64)

  datatype LinkState = LinkState(
    sendBuf: seq<byte>,          // send_buffer_current
    edge: bool,                  // send_buffer_edge
    bloat: bool,                 // bufferbloat_avoidance
    timedOut: bool,
    aborted: bool,               // an assertion of the parser failed
    lastPing: u64,
    pongTime: u64,               // last_pong_request_time
    pongSeq: u64,                // last_pong_request_seq
    lastSeqSent: u64,
    ackSeq: u64,                 // last_pong_recv_seq
    rtt: int,                    // mean of the one-value window rtt
    inflight: seq<InFlight>,
    inflightBytes: int,
    recvBuf: seq<byte>,          // recv_buffer[..recv_buffer_pos]
    waiting: Option<Payload>,    // waiting_recv_packet
    pending: multiset<Callback>, // scheduled and not yet run
    clock: u64,                  // latest clock reading
    // history
    blocked: bool,               // the last write was cut short by the stream
    written: seq<byte>,          // bytes the stream accepted
    consumed: seq<byte>,         // bytes read from the stream
    sent: seq<Frame>,            // frames formatted
    got: seq<Frame>,             // frames parsed
    returned: seq<Payload>,      // packets returned by recv
    flushed: seq<InFlight>)      // packets dropped as acknowledged
  {
    /** Every data packet sent, acknowledged ones first. */
    function Log(): seq<InFlight> {
      flushed + inflight
    }

    function WaitingSeq(): seq<Payload> {
      if waiting.Some? then [waiting.value] else []
    }
  }

  /** A fresh link; the constructor schedules timer_callback, which the timer
      steps below stand for, and starts with a very large round trip time. */
  const Fresh: LinkState :=
    LinkState([], true, false, false, false, 0, 0, 0, 0, 0, 5_000_000, [], 0, [], None,
              multiset{}, 0, false, [], [], [], [], [], [])

  // ---------------------------------------------------------------- sending

  /** format_send_packet followed by scheduling the write. */
  function QueueFrame(st: LinkState, f: Frame): (r: LinkState)
    requires st.sendBuf == [] && Fits(f)
  {
    st.(sendBuf := Encode(f), sent := st.sent + [f], pending := st.pending + multiset{WriteCallback})
  }

  predicate ShouldPing(st: LinkState, now: u64) {
    Sub64(now, st.lastPing) > PING_INTERVAL
  }

  /** send_aux; Busy says its result, that the send buffer is not empty after it. */
  predicate Busy(st: LinkState, now: u64) {
    st.sendBuf != [] || st.pongTime != 0 || ShouldPing(st, now)
  }

  function SendAux(st: LinkState, now: u64): (r: LinkState)
    ensures Busy(st, now) <==> r.sendBuf != []
  {
    if st.sendBuf != [] then st
    else if st.pongTime != 0 then
      QueueFrame(st, Pong(st.pongTime, st.pongSeq)).(pongTime := 0, pongSeq := 0)
    else if ShouldPing(st, now) then
      QueueFrame(st, Ping(now, st.lastSeqSent)).(lastPing := now)
    else st
  }

  predicate SendAccepts(st: LinkState, now: u64) {
    !st.timedOut && !st.bloat && !Busy(st, now)
  }

  /** Link::send. */
  function SendData(st: LinkState, seqno: u64, payload: Payload, now: u64): (r: LinkState)
    requires |payload| <= MULTILINK_MTU
    ensures SendAccepts(st, now) ==>
              && r.inflight == st.inflight + [InFlight(seqno, payload, now)] && r.lastSeqSent == seqno
              && r.inflightBytes == st.inflightBytes + |payload|
              && r.sendBuf == Encode(Data(payload)) && r.sent == st.sent + [Data(payload)]
    ensures !SendAccepts(st, now) ==>
              && r.inflight == st.inflight && r.lastSeqSent == st.lastSeqSent && r.inflightBytes == st.inflightBytes
              && (st.sendBuf != [] ==> r.sendBuf == st.sendBuf && r.sent == st.sent)
  {
    if st.timedOut || st.bloat then st
    else if Busy(st, now) then SendAux(st, now)
    else
      QueueFrame(st, Data(payload)).(
        lastSeqSent := seqno,
        inflightBytes := st.inflightBytes + |payload|,
        inflight := st.inflight + [InFlight(seqno, payload, now)])
  }

  /** transport_write_ready when the stream takes n bytes in all. */
  function Write(st: LinkState, n: nat): (r: LinkState)
    requires n <= |st.sendBuf|
  {
    if st.timedOut then st
    else
      var rest := st.sendBuf[n..];
      var w := st.(sendBuf := rest, written := st.written + st.sendBuf[..n], blocked := rest != []);
      if rest == [] && st.edge
      then w.(edge := false, pending := st.pending + multiset{EdgeCallback})
      else w
  }

  // -------------------------------------------------------- acknowledgement

  function FlushCount(q: seq<InFlight>, ack: u64): (k: nat)
    ensures k <= |q|
  {
    if q == [] || q[0].seqno > ack then 0 else 1 + FlushCount(q[1..], ack)
  }

  function TotalSize(q: seq<InFlight>): (n: nat) {
    if q == [] then 0 else |q[0].payload| + TotalSize(q[1..])
  }

  /** flush_in_flight_queue. */
  function Flush(st: LinkState): (r: LinkState) {
    var k := FlushCount(st.inflight, st.ackSeq);
    st.(inflight := st.inflight[k..], flushed := st.flushed + st.inflight[..k],
        inflightBytes := st.inflightBytes - TotalSize(st.inflight[..k]))
  }

  /** bufferbloat_check: the int round trip time is compared as uint64_t. */
  function BloatCheck(st: LinkState): (r: LinkState) {
    var rtt := Sub64(st.rtt, 0);
    if st.bloat then
      if rtt < BUFFERBLOAT_LOW_MARK
      then st.(bloat := false, pending := st.pending + multiset{SendReady})
      else st
    else st.(bloat := rtt > BUFFERBLOAT_HIGH_MARK)
  }

  // -------------------------------------------------------------- receiving

  /** parse_recv_packet on a frame that has been cut from the buffer. */
  function Handle(st: LinkState, f: Frame, now: u64): (r: LinkState)
    requires st.waiting.None?
  {
    match f
    case Data(p) =>
      st.(waiting := Some(p), pending := st.pending + multiset{RecvReady})
    case Ping(t, s) =>
      st.(pongTime := t, pongSeq := s, pending := st.pending + multiset{AuxCallback})
    case Pong(t, s) =>
      Flush(BloatCheck(st.(rtt := Signed32(Sub64(now, t)), ackSeq := s)))
  }

  /** A whole frame is buffered and no packet waits for recv. */
  predicate CanParse(st: LinkState) {
    st.waiting.None? && !st.aborted && TryParse(st.recvBuf) != NeedMore
  }

  /** try_parse_recv_packet when it returns true (or fails an assertion). */
  function ParseStep(st: LinkState, now: u64): (r: LinkState)
    requires CanParse(st)
    ensures r.aborted || |r.recvBuf| < |st.recvBuf|
  {
    match TryParse(st.recvBuf)
    case Fault => st.(aborted := true)
    case Dropped(rest) => st.(recvBuf := rest)
    case Parsed(f, rest) => Handle(st.(recvBuf := rest, got := st.got + [f]), f, now)
  }

  /** The inner loop of transport_read_ready. */
  function ParseAll(st: LinkState, now: u64): (r: LinkState)
    ensures !CanParse(r)
    decreases !st.aborted, |st.recvBuf|
  {
    if CanParse(st) then ParseAll(ParseStep(st, now), now) else st
  }

  function Receive(st: LinkState, chunk: seq<byte>): (r: LinkState) {
    st.(recvBuf := st.recvBuf + chunk, consumed := st.consumed + chunk)
  }

  /** transport_read_ready when the stream yields the bytes `chunk`. */
  function Read(st: LinkState, chunk: seq<byte>, now: u64): (r: LinkState) {
    if st.timedOut then st else ParseAll(Receive(st, chunk), now)
  }

  /** Link::recv when it returns a packet. */
  function Take(st: LinkState): (r: LinkState)
    requires st.waiting.Some? && !st.timedOut
  {
    st.(waiting := None, returned := st.returned + [st.waiting.value],
        pending := st.pending + multiset{ReadCallback})
  }

  // ---------------------------------------------------------------- timeouts

  /** maybe_retransmit reads the front of the in-flight queue without knowing
      that there is one. */
  predicate RetransmitDefined(st: LinkState) {
    st.timedOut || st.inflight != [] || !st.bloat
  }

  function MaybeRetransmit(st: LinkState, now: u64): (r: LinkState)
    requires RetransmitDefined(st)
  {
    if st.timedOut || st.inflight == [] then st
    else if Sub64(now, st.inflight[0].time) > RETRANSMISSION_TIMEOUT
    then st.(timedOut := true, pending := st.pending + multiset{SendReady})
    else st
  }

  /** timer_callback. */
  function Tick(st: LinkState, now: u64): (r: LinkState)
    requires RetransmitDefined(st)
  {
    if st.timedOut then st else MaybeRetransmit(SendAux(st, now), now)
  }

  // ------------------------------------------------------------------- steps

  datatype Event =
    | Timer
    | RunEdge                                 // a scheduled edge callback
    | RunWrite(n: nat)                        // a scheduled write
    | Writable(n: nat)                        // on_write_ready of the stream
    | RunAux
    | RunRead(chunk: seq<byte>)               // a scheduled read
    | Readable(chunk: seq<byte>)              // on_read_ready, or a further turn of the read loop
    | RunNotify(cb: Callback)                 // RecvReady or SendReady leaves the link's code
    | Submit(seqno: u64, payload: Payload)    // Link::send
    | TakePacket                              // Link::recv

  predicate Enabled(st: LinkState, e: Event, now: u64) {
    && st.clock <= now
    && !st.aborted
    && match e
       case Timer => RetransmitDefined(st)
       case RunEdge => EdgeCallback in st.pending
       case RunWrite(n) => WriteCallback in st.pending && n <= |st.sendBuf|
       case Writable(n) => n <= |st.sendBuf|
       case RunAux => AuxCallback in st.pending
       case RunRead(chunk) => ReadCallback in st.pending && |st.recvBuf| + |chunk| <= LINK_MTU
       case Readable(chunk) => |st.recvBuf| + |chunk| <= LINK_MTU
       case RunNotify(cb) => cb in st.pending && (cb == RecvReady || cb == SendReady)
       case Submit(seqno, payload) => st.lastSeqSent < seqno && |payload| <= MULTILINK_MTU
       case TakePacket => st.waiting.Some? && !st.timedOut
  }

  function Ran(st: LinkState, cb: Callback): (r: LinkState) {
    st.(pending := st.pending - multiset{cb})
  }

  function At(st: LinkState, now: u64): (r: LinkState) {
    st.(clock := now)
  }

  function Next(st: LinkState, e: Event, now: u64): (r: LinkState)
    requires Enabled(st, e, now)
  {
    var s := At(st, now);
    match e
    case Timer => Tick(s, now)
    case RunEdge => SendAux(Ran(s, EdgeCallback).(edge := true), now)
    case RunWrite(n) => Write(Ran(s, WriteCallback), n)
    case Writable(n) => Write(s, n)
    case RunAux => SendAux(Ran(s, AuxCallback), now)
    case RunRead(chunk) => Read(Ran(s, ReadCallback), chunk, now)
    case Readable(chunk) => Read(s, chunk, now)
    case RunNotify(cb) => Ran(s, cb)
    case Submit(seqno, payload) => SendData(s, seqno, payload, now)
    case TakePacket => Take(s)
  }
}
