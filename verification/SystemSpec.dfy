/** Two endpoints joined by any number of cables, each cable two link ends and
    the byte streams between them. The steps are the turns of the handlers of
    transport.cpp, multilink.cpp and multilink_link.cpp; handlers made of a loop
    are sequences of these steps. */
module SystemSpec {
  import opened Bytes
  import opened Frames
  import opened LinkSpec
  import opened LinkInvariants
  import opened LinkPair
  import opened TransportSpec
  import opened Scheduling

  const QUEUE_SIZE: nat := 40

  /** How many packets assign_links_until leaves in a queue of n. */
  function DrainTo(n: nat): nat {
    if n < QUEUE_SIZE * 2 / 3 then 0 else n / 2
  }

  datatype Side = Left | Right

  function Other(side: Side): Side {
    if side == Left then Right else Left
  }

  /** A channel that add_target has replaced in `children`. Its target's callbacks
      still hold it, so it goes on reading and forwarding under its id. */
  datatype Orphan = Orphan(id: u64, child: Child)

  /** Transport and Multilink of one process. */
  datatype Endpoint = Endpoint(
    children: map<u64, Child>,
    orphans: seq<Orphan>,
    specials: seq<u64>,       // special_packet_queue: channels to announce as closed
    queue: seq<Payload>,
    lastSeq: u64,
    aborted: bool,            // the window assertion of place_packet failed
    // history
    accepted: seq<Payload>,   // packets given to Multilink::send
    log: map<u64, seq<Payload>>, // packets read under each id, from whichever target
    restarted: set<u64>,      // ids replaced although the old channel had sent or still could
    forgotten: set<u64>)      // ids replaced although the old channel had received

  /** A link of one endpoint: not added yet, in `links`, or removed from it. */
  datatype Status = Absent | Up | Removed

  datatype Port = Port(status: Status, own: seq<Payload>, link: LinkState)

  datatype Cable = Cable(left: Port, right: Port) {
    function At(side: Side): Port {
      if side == Left then left else right
    }

    function With(side: Side, p: Port): Cable {
      if side == Left then this.(left := p) else this.(right := p)
    }
  }

  datatype System = System(left: Endpoint, right: Endpoint, cables: seq<Cable>) {
    function End(side: Side): Endpoint {
      if side == Left then left else right
    }

    function WithEnd(side: Side, e: Endpoint): System {
      if side == Left then this.(left := e) else this.(right := e)
    }

    function WithPort(side: Side, i: nat, p: Port): System
      requires i < |cables|
    {
      this.(cables := cables[i := cables[i].With(side, p)])
    }
  }

  const FreshEndpoint: Endpoint := Endpoint(map[], [], [], [], 0, false, [], map[], {}, {})
  const FreshPort: Port := Port(Absent, [], Fresh)
  const Initial: System := System(FreshEndpoint, FreshEndpoint, [])

  // ------------------------------------------------------ endpoint functions

  /** Multilink::send_with_offset. */
  function Accept(e: Endpoint, p: Payload): (r: Endpoint)
    requires |e.queue| < QUEUE_SIZE && |p| <= MULTILINK_MTU
  {
    e.(queue := e.queue + [p], accepted := e.accepted + [p])
  }

  /** get_child_stream. */
  function GetChild(e: Endpoint, c: u64): (r: Endpoint)
    ensures c in r.children
  {
    if c in e.children then e else e.(children := e.children[c := FreshChild])
  }

  function SetChild(e: Endpoint, c: u64, ch: Child): (r: Endpoint) {
    e.(children := e.children[c := ch])
  }

  function CloseChannel(e: Endpoint, c: u64): (r: Endpoint) {
    var g := GetChild(e, c);
    var ch := g.children[c];
    SetChild(g, c, if ch.target.Open? then ch.(target := Closed) else ch)
  }

  function LogOf(e: Endpoint, c: u64): seq<Payload> {
    if c in e.log then e.log[c] else []
  }

  /** A packet read from a target of channel c goes out under number n. */
  function SendNumbered(e: Endpoint, c: u64, n: u64, data: Payload): (f: Endpoint)
    requires |e.queue| < QUEUE_SIZE && |data| <= MAX_DATA
  {
    Accept(e.(log := e.log[c := LogOf(e, c) + [data]]), EncodePacket(c, n, data))
  }

  /** target_recv_ready_once on channel c, when its target has the packet `data`. */
  function AfterRead(e: Endpoint, c: u64, data: Payload): (f: Endpoint)
    requires c in e.children && |e.queue| < QUEUE_SIZE && |data| <= MAX_DATA
  {
    SendNumbered(SetChild(e, c, CountSent(e.children[c])), c, e.children[c].lastSent, data)
  }

  /** The same on a replaced channel. */
  function AfterOrphanRead(e: Endpoint, k: nat, data: Payload): (f: Endpoint)
    requires k < |e.orphans| && |e.queue| < QUEUE_SIZE && |data| <= MAX_DATA
  {
    var o := e.orphans[k];
    SendNumbered(SetOrphan(e, k, CountSent(o.child)), o.id, o.child.lastSent, data)
  }

  function SetOrphan(e: Endpoint, k: nat, ch: Child): (f: Endpoint)
    requires k < |e.orphans|
  {
    e.(orphans := e.orphans[k := e.orphans[k].(child := ch)])
  }

  /** send_special_packet when it sends: the first closed channel is announced. */
  function AfterSpecial(e: Endpoint): (f: Endpoint)
    requires e.specials != [] && |e.queue| < QUEUE_SIZE
  {
    Accept(e.(specials := e.specials[1..]), EncodePacket(CLOSE_CHANNEL, e.specials[0], []))
  }

  /** add_target: a new channel takes the id, whatever had it before. */
  function Replaced(e: Endpoint, c: u64): (f: Endpoint) {
    var f := SetChild(e, c, FreshChild);
    if c !in e.children then f
    else
      var was := e.children[c];
      f.(orphans := e.orphans + [Orphan(c, was)],
         restarted := if Silent(was) then e.restarted else e.restarted + {c},
         forgotten := if Blank(was) then e.forgotten else e.forgotten + {c})
  }

  /** One turn of network_recv_ready on the packet p. */
  function Dispatch(e: Endpoint, p: Payload): (r: Endpoint)
    requires |p| >= TRANSPORT_HEADER
  {
    if PacketId(p) == CLOSE_CHANNEL then CloseChannel(e, PacketSeq(p))
    else
      var g := GetChild(e, PacketId(p));
      var placed := Place(g.children[PacketId(p)], PacketSeq(p), PacketData(p));
      if placed.Some? then SetChild(g, PacketId(p), placed.value) else g.(aborted := true)
  }

  // ------------------------------------------------------------------- steps

  /** What a Transport does by itself, on its channels and on replaced ones. */
  datatype Turn =
    | AddTarget(c: u64)
    | OpenTarget(c: u64)                        // the target future resolves
    | FailTarget(c: u64)                        // target_error
    | ReadFrom(c: u64, data: Payload)           // target_recv_ready_once
    | SendSpecial
    | ForwardTo(c: u64)                         // one turn of target_send_ready
    | OpenOrphan(k: nat)                        // the same four on a replaced channel
    | FailOrphan(k: nat)
    | ReadOrphan(k: nat, data: Payload)
    | ForwardOrphan(k: nat)

  predicate CanTurn(e: Endpoint, turn: Turn) {
    match turn
    case AddTarget(c) => true
    case OpenTarget(c) => c in e.children && e.children[c].target.Pending?
    case FailTarget(c) => c in e.children
    case ReadFrom(c, data) =>
      && c in e.children && e.children[c].target.Open? && |e.queue| < QUEUE_SIZE
      && |data| <= MAX_DATA && e.children[c].lastSent < TWO63
    case SendSpecial => e.specials != [] && |e.queue| < QUEUE_SIZE
    case ForwardTo(c) =>
      c in e.children && e.children[c].target.Open? && CanForward(e.children[c])
    case OpenOrphan(k) => k < |e.orphans| && e.orphans[k].child.target.Pending?
    case FailOrphan(k) => k < |e.orphans|
    case ReadOrphan(k, data) =>
      && k < |e.orphans| && e.orphans[k].child.target.Open? && |e.queue| < QUEUE_SIZE
      && |data| <= MAX_DATA && e.orphans[k].child.lastSent < TWO63
    case ForwardOrphan(k) =>
      k < |e.orphans| && e.orphans[k].child.target.Open? && CanForward(e.orphans[k].child)
  }

  function AfterTurn(e: Endpoint, turn: Turn): (r: Endpoint)
    requires CanTurn(e, turn)
  {
    match turn
    case AddTarget(c) => Replaced(e, c)
    case OpenTarget(c) => SetChild(e, c, e.children[c].(target := Open))
    case FailTarget(c) => SetChild(e, c, e.children[c].(target := Closed)).(specials := e.specials + [c])
    case ReadFrom(c, data) => AfterRead(e, c, data)
    case SendSpecial => AfterSpecial(e)
    case ForwardTo(c) => SetChild(e, c, Forward(e.children[c]))
    case OpenOrphan(k) => SetOrphan(e, k, e.orphans[k].child.(target := Open))
    case FailOrphan(k) =>
      SetOrphan(e, k, e.orphans[k].child.(target := Closed)).(specials := e.specials + [e.orphans[k].id])
    case ReadOrphan(k, data) => AfterOrphanRead(e, k, data)
    case ForwardOrphan(k) => SetOrphan(e, k, Forward(e.orphans[k].child))
  }

  datatype Action =
    | NewCable                                  // a stream pair comes into being
    | AddLink(i: nat)
    | LinkEvent(i: nat, e: Event, now: u64)     // a handler inside the link
    | Assign(asker: nat, live: seq<nat>, mbps: seq<real>, choice: seq<nat>) // assign_links_until
    | SendOne(i: nat, now: u64)                 // link->send(++last_seq, own_queue.front())
    | RemoveLink(i: nat)                        // link_send_ready on a timed-out link
    | Deliver(i: nat, now: u64)                 // recv from link i, then dispatch
    | AtTransport(turn: Turn)

  predicate HasUp(s: System, side: Side, i: nat) {
    i < |s.cables| && s.cables[i].At(side).status.Up?
  }

  /** `links` of Multilink: every live port once, in any order (the code shuffles them). */
  ghost predicate Lists(s: System, side: Side, live: seq<nat>) {
    && (forall k :: 0 <= k < |live| ==> HasUp(s, side, live[k]))
    && (forall i: nat :: HasUp(s, side, i) ==> i in live)
    && (forall a, b :: 0 <= a < b < |live| ==> live[a] != live[b])
  }

  /** What the scheduler sees of them; each estimates its bandwidth by itself. */
  function Views(s: System, side: Side, live: seq<nat>, mbps: seq<real>): (r: seq<LinkView>)
    requires |mbps| == |live| && forall k :: 0 <= k < |live| ==> live[k] < |s.cables|
    ensures |r| == |live|
  {
    seq(|live|, k requires 0 <= k < |live| => LinkView(s.cables[live[k]].At(side).link.rtt as real, mbps[k]))
  }

  /** Bytes in flight (never negative in a run) and assigned. */
  function Backlog(p: Port): nat {
    (if p.link.inflightBytes < 0 then 0 else p.link.inflightBytes) + TotalBytes(p.own)
  }

  function Bases(s: System, side: Side, live: seq<nat>): (r: seq<nat>)
    requires forall k :: 0 <= k < |live| ==> live[k] < |s.cables|
    ensures |r| == |live|
  {
    seq(|live|, k requires 0 <= k < |live| => Backlog(s.cables[live[k]].At(side)))
  }

  /** request_packets: `asker` has no packet of its own, the queue has some, and they
      are drained to the links greedily. */
  ghost predicate CanAssign(s: System, side: Side, asker: nat, live: seq<nat>, mbps: seq<real>, choice: seq<nat>) {
    var q := s.End(side).queue;
    && HasUp(s, side, asker) && s.cables[asker].At(side).own == [] && q != []
    && Lists(s, side, live) && |mbps| == |live| && (forall k :: 0 <= k < |mbps| ==> mbps[k] >= MIN_MBPS)
    && |choice| == |q| - DrainTo(|q|)
    && Greedy(Views(s, side, live, mbps), Bases(s, side, live), q, choice)
  }

  /** One turn of the loop of assign_links_until: the front packet goes to link i. */
  function GiveFront(s: System, side: Side, i: nat): (r: System)
    requires HasUp(s, side, i) && s.End(side).queue != []
  {
    var e, p := s.End(side), s.cables[i].At(side);
    s.WithEnd(side, e.(queue := e.queue[1..])).WithPort(side, i, p.(own := p.own + [e.queue[0]]))
  }

  /** t differs from s in own queues only. */
  predicate SameButOwn(s: seq<Cable>, t: seq<Cable>, side: Side) {
    && |t| == |s|
    && forall i :: 0 <= i < |s| ==>
         && t[i].At(side) == s[i].At(side).(own := t[i].At(side).own)
         && t[i].At(Other(side)) == s[i].At(Other(side))
  }

  /** The whole loop: the first packets go to the links `targets`, in order. */
  function Spread(s: System, side: Side, targets: seq<nat>): (r: System)
    requires |targets| <= |s.End(side).queue| && forall k :: 0 <= k < |targets| ==> HasUp(s, side, targets[k])
    ensures r.End(side) == s.End(side).(queue := s.End(side).queue[|targets|..])
    ensures r.End(Other(side)) == s.End(Other(side)) && SameButOwn(s.cables, r.cables, side)
    decreases |targets|
  {
    if targets == [] then s
    else
      var n := |targets| - 1;
      var t := Spread(s, side, targets[..n]);
      assert HasUp(s, side, targets[n]);
      GiveFront(t, side, targets[n])
  }

  /** The cables at the chosen positions of `live`. */
  function Targets(live: seq<nat>, choice: seq<nat>): (r: seq<nat>)
    requires forall k :: 0 <= k < |choice| ==> choice[k] < |live|
    ensures |r| == |choice|
  {
    seq(|choice|, k requires 0 <= k < |choice| => live[choice[k]])
  }

  ghost predicate CanStep(s: System, side: Side, a: Action) {
    var me := s.End(side);
    && !me.aborted
    && match a
       case NewCable => true
       case AddLink(i) => i < |s.cables| && s.cables[i].At(side).status.Absent?
       case LinkEvent(i, e, now) =>
         && HasUp(s, side, i) && !e.Submit? && !e.TakePacket?
         && PairEnabled(s.cables[i].At(side).link, s.cables[i].At(Other(side)).link, e, now)
       case Assign(asker, live, mbps, choice) => CanAssign(s, side, asker, live, mbps, choice)
       case SendOne(i, now) =>
         && HasUp(s, side, i) && s.cables[i].At(side).own != [] && me.lastSeq + 1 < TWO64
         && Enabled(s.cables[i].At(side).link, Submit(me.lastSeq + 1, s.cables[i].At(side).own[0]), now)
       case RemoveLink(i) => HasUp(s, side, i) && s.cables[i].At(side).link.timedOut
       case Deliver(i, now) =>
         && HasUp(s, side, i)
         && Enabled(s.cables[i].At(side).link, TakePacket, now)
         && |s.cables[i].At(side).link.waiting.value| >= TRANSPORT_HEADER
       case AtTransport(turn) => CanTurn(me, turn)
  }

  lemma AssignTargets(s: System, side: Side, live: seq<nat>, mbps: seq<real>, choice: seq<nat>)
    requires exists asker :: CanAssign(s, side, asker, live, mbps, choice)
    ensures forall k :: 0 <= k < |choice| ==> choice[k] < |live| && HasUp(s, side, live[choice[k]])
    ensures |choice| <= |s.End(side).queue|
  {
    var asker :| CanAssign(s, side, asker, live, mbps, choice);
    forall k | 0 <= k < |choice|
      ensures choice[k] < |live| && HasUp(s, side, live[choice[k]])
    {
      assert BestChoice(Views(s, side, live, mbps), Bases(s, side, live), s.End(side).queue, choice, k);
    }
  }

  function Step(s: System, side: Side, a: Action): (r: System)
    requires CanStep(s, side, a)
  {
    var me := s.End(side);
    match a
    case NewCable => s.(cables := s.cables + [Cable(FreshPort, FreshPort)])
    case AddLink(i) => s.WithPort(side, i, s.cables[i].At(side).(status := Up))
    case LinkEvent(i, e, now) =>
      var p := s.cables[i].At(side);
      s.WithPort(side, i, p.(link := Next(p.link, e, now)))
    case Assign(_, live, mbps, choice) =>
      AssignTargets(s, side, live, mbps, choice);
      Spread(s, side, Targets(live, choice))
    case SendOne(i, now) =>
      var p := s.cables[i].At(side);
      var seqno := me.lastSeq + 1;
      s.WithEnd(side, me.(lastSeq := seqno))
       .WithPort(side, i, p.(
          own := if SendAccepts(p.link, now) then p.own[1..] else p.own,
          link := Next(p.link, Submit(seqno, p.own[0]), now)))
    case RemoveLink(i) =>
      var p := s.cables[i].At(side);
      s.WithEnd(side, me.(queue := me.queue + Payloads(p.link.inflight) + p.own))
       .WithPort(side, i, p.(status := Removed, own := []))
    case Deliver(i, now) =>
      var p := s.cables[i].At(side);
      s.WithEnd(side, Dispatch(me, p.link.waiting.value))
       .WithPort(side, i, p.(link := Next(p.link, TakePacket, now)))
    case AtTransport(turn) => s.WithEnd(side, AfterTurn(me, turn))
  }

  /** A run from the initial state. */
  ghost predicate Run(states: seq<System>) {
    && states != [] && states[0] == Initial
    && forall k :: 0 <= k < |states| - 1 ==> Follows(states[k], states[k + 1])
  }

  ghost predicate Follows(s: System, t: System) {
    exists side: Side, a: Action :: CanStep(s, side, a) && t == Step(s, side, a)
  }

  // -------------------------------------------------------------- observation

  /** What `side` has read from its targets under the id c. */
  function Sent(s: System, side: Side, c: u64): seq<Payload> {
    LogOf(s.End(side), c)
  }

  /** What `side` has forwarded to the target that has the id c. */
  function Delivered(s: System, side: Side, c: u64): seq<Payload> {
    ForwardedBy(s.End(side), c)
  }

  function ForwardedBy(e: Endpoint, c: u64): seq<Payload> {
    if c in e.children then e.children[c].forwarded else []
  }

  /** The direction of channel c that starts at `side` has not been cut: no add_target
      replaced a channel of that id that had sent, or still could, at `side`, or
      that had received at the other side. */
  predicate Intact(s: System, side: Side, c: u64) {
    c !in s.End(side).restarted && c !in s.End(Other(side)).forgotten
  }

  /** The packets a port answers for: acknowledged, in flight or assigned. */
  function Held(p: Port): (m: multiset<Payload>) {
    match p.status
    case Absent => multiset{}
    case Up => multiset(Payloads(p.link.Log())) + multiset(p.own)
    case Removed => multiset(Payloads(p.link.flushed))
  }

  function Custody(cables: seq<Cable>, side: Side): (m: multiset<Payload>) {
    if cables == [] then multiset{}
    else Custody(cables[..|cables| - 1], side) + Held(cables[|cables| - 1].At(side))
  }
}
