/** Transport as the object it is: a map of channels and a queue of special
    packets, pumped between targets and the network stream by its loops. */
module TransportImpl {
  import opened Bytes
  import opened Frames
  import opened TransportSpec
  import opened SystemSpec
  import opened SystemInvariant
  import MultilinkImpl
  import RunLaws

  /** n turns of the loop of target_send_ready. */
  function ForwardMany(ch: Child, n: nat): (r: Child)
    requires CanForwardMany(ch, n)
    ensures r.buffer == ch.buffer[n..]
    decreases n
  {
    if n == 0 then ch else Forward(ForwardMany(ch, n - 1))
  }

  predicate CanForwardMany(ch: Child, n: nat) {
    n <= |ch.buffer| && forall i :: 0 <= i < n ==> ch.buffer[i].Some?
  }

  lemma {:induction false} ForwardManyMeaning(ch: Child, n: nat)
    requires CanForwardMany(ch, n)
    ensures |ForwardMany(ch, n).forwarded| == |ch.forwarded| + n
    ensures ForwardMany(ch, n).forwarded[..|ch.forwarded|] == ch.forwarded
    ensures forall i :: 0 <= i < n ==> ForwardMany(ch, n).forwarded[|ch.forwarded| + i] == ch.buffer[i].value
  {
    if n > 0 {
      ForwardManyMeaning(ch, n - 1);
    }
  }

  /** What the target of channel c would return from recv(), in order. */
  function At(inbox: map<u64, seq<Payload>>, c: u64): seq<Payload> {
    if c in inbox then inbox[c] else []
  }

  /** Every channel has a number left for each packet its target may still yield, and
      none of these is too large. */
  ghost predicate Numbers(children: map<u64, Child>, inbox: map<u64, seq<Payload>>) {
    forall c :: c in children ==>
      && children[c].lastSent + |At(inbox, c)| <= TWO63
      && forall i :: 0 <= i < |At(inbox, c)| ==> |At(inbox, c)[i]| <= MAX_DATA
  }

  lemma BoxesMatch(orphans: seq<Orphan>, boxes: seq<seq<Payload>>)
    requires OrphanNumbers(orphans, boxes)
    ensures |boxes| == |orphans|
  {
  }

  lemma NumbersAfterRead(children: map<u64, Child>, inbox: map<u64, seq<Payload>>, c: u64)
    requires Numbers(children, inbox) && c in children && At(inbox, c) != []
    ensures children[c].lastSent < TWO63 && |inbox[c][0]| <= MAX_DATA
    ensures Numbers(children[c := CountSent(children[c])], inbox[c := inbox[c][1..]])
  {
  }

  lemma NumbersAfterAdding(children: map<u64, Child>, inbox: map<u64, seq<Payload>>, c: u64)
    requires Numbers(children, inbox)
    ensures Numbers(children[c := FreshChild], inbox - {c})
  {
  }

  /** The same of replaced channels and their targets. */
  ghost predicate OrphanNumbers(orphans: seq<Orphan>, boxes: seq<seq<Payload>>) {
    && |boxes| == |orphans|
    && forall k :: 0 <= k < |boxes| ==>
         && orphans[k].child.lastSent + |boxes[k]| <= TWO63
         && forall i :: 0 <= i < |boxes[k]| ==> |boxes[k][i]| <= MAX_DATA
  }

  lemma OrphanNumbersAfterRead(orphans: seq<Orphan>, boxes: seq<seq<Payload>>, k: nat)
    requires OrphanNumbers(orphans, boxes) && k < |orphans| && boxes[k] != []
    ensures orphans[k].child.lastSent < TWO63 && |boxes[k][0]| <= MAX_DATA
    ensures OrphanNumbers(orphans[k := orphans[k].(child := CountSent(orphans[k].child))], boxes[k := boxes[k][1..]])
  {
  }

  lemma OrphanNumbersAfterAdding(children: map<u64, Child>, inbox: map<u64, seq<Payload>>,
                                 orphans: seq<Orphan>, boxes: seq<seq<Payload>>, c: u64)
    requires Numbers(children, inbox) && OrphanNumbers(orphans, boxes) && c in children
    ensures OrphanNumbers(orphans + [Orphan(c, children[c])], boxes + [At(inbox, c)])
  {
  }

  /** The packets that joined the queue are those accepted since, in order. */
  ghost predicate Joined(accepted: seq<Payload>, queue: seq<Payload>, accepted': seq<Payload>, queue': seq<Payload>) {
    accepted <= accepted' && queue' == queue + accepted'[|accepted|..]
  }

  /** What has been accepted stays accepted. */
  lemma AcceptedStays(e: Endpoint, f: Endpoint, q: seq<Payload>, q': seq<Payload>)
    requires Joined(e.accepted, q, f.accepted, q') && f.specials == e.specials
    ensures forall c: u64 :: RunLaws.Announced(e, c) ==> RunLaws.Announced(f, c)
  {
    hide EncodePacket;
    assert forall p :: p in e.accepted ==> p in f.accepted;
  }

  lemma JoinedNone(accepted: seq<Payload>, queue: seq<Payload>)
    ensures Joined(accepted, queue, accepted, queue)
  {
  }

  lemma JoinedOne(accepted: seq<Payload>, queue: seq<Payload>, p: Payload)
    ensures Joined(accepted, queue, accepted + [p], queue + [p])
  {
  }

  lemma JoinedMore(a: seq<Payload>, q: seq<Payload>, a1: seq<Payload>, q1: seq<Payload>, a2: seq<Payload>, q2: seq<Payload>)
    requires Joined(a, q, a1, q1) && Joined(a1, q1, a2, q2)
    ensures Joined(a, q, a2, q2)
  {
    assert a2[|a|..] == a1[|a|..] + a2[|a1|..];
  }

  class Transport {
    const network: MultilinkImpl.Multilink
    var children: map<u64, Child>
    var orphans: seq<Orphan>           // replaced channels, kept by their targets' callbacks
    var specials: seq<u64>
    var inbox: map<u64, seq<Payload>>  // what each target's recv() would return
    var boxes: seq<seq<Payload>>       // the same for the targets of replaced channels
    var room: map<u64, nat>            // how many packets each target still takes
    var aborted: bool
    ghost var accepted: seq<Payload>
    ghost var log: map<u64, seq<Payload>>
    ghost var restarted: set<u64>
    ghost var forgotten: set<u64>

    constructor (net: MultilinkImpl.Multilink)
      ensures network == net && inbox == map[] && boxes == [] && room == map[]
      ensures State() == FreshEndpoint.(queue := net.queue, lastSeq := net.lastSeq)
    {
      network, children, orphans, specials, inbox, room, aborted := net, map[], [], [], map[], map[], false;
      boxes, accepted, log, restarted, forgotten := [], [], map[], {}, {};
    }

    ghost function State(): Endpoint
      reads this, network
    {
      Endpoint(children, orphans, specials, network.queue, network.lastSeq, aborted, accepted, log, restarted, forgotten)
    }

    function Inbox(c: u64): seq<Payload>
      reads this
    {
      At(inbox, c)
    }

    /** is_send_ready of the target holds while this is positive. */
    function Room(c: u64): nat
      reads this
    {
      if c in room then room[c] else 0
    }

    /** Nothing can be read from channel c. */
    predicate Dry(c: u64)
      reads this
    {
      c in children && children[c].target.Open? ==> Inbox(c) == []
    }

    ghost predicate Valid()
      reads this, network
    {
      network.Valid() && Numbers(children, inbox) && OrphanNumbers(orphans, boxes)
    }

    /** add_target: the id goes to a new channel without a target; the channel that
        had it lives on beside the map. */
    method AddTarget(c: u64)
      requires Valid()
      modifies this`children, this`orphans, this`inbox, this`boxes, this`room, this`restarted, this`forgotten
      ensures Valid() && State() == Replaced(old(State()), c)
      ensures children == old(children)[c := Child(Pending, 0, [], 0, [])]
      ensures orphans == old(orphans) + (if c in old(children) then [Orphan(c, old(children)[c])] else [])
      ensures inbox == old(inbox) - {c} && room == old(room) - {c}
      ensures boxes == if c in old(children) then old(boxes) + [old(Inbox(c))] else old(boxes)
    {
      hide MultilinkImpl.Multilink.Valid, Numbers, OrphanNumbers;
      NumbersAfterAdding(children, inbox, c);
      ghost var f := Replaced(State(), c);
      restarted, forgotten := f.restarted, f.forgotten;
      if c in children {
        OrphanNumbersAfterAdding(children, inbox, orphans, boxes, c);
        boxes := boxes + [Inbox(c)];
        orphans := orphans + [Orphan(c, children[c])];
      }
      children := children[c := FreshChild];
      inbox, room := inbox - {c}, room - {c};
    }

    // ------------------------------------------------------ towards the network

    /** target_recv_ready_once, called only when the network stream is ready. */
    method TargetRecvReadyOnce(c: u64) returns (sent: bool)
      requires Valid() && c in children && network.IsSendReady()
      modifies this`children, this`inbox, this`accepted, this`log, network`queue
      ensures Valid() && children.Keys == old(children.Keys)
      ensures sent == !old(Dry(c))
      ensures !sent ==> State() == old(State()) && inbox == old(inbox)
      ensures sent ==> State() == AfterRead(old(State()), c, old(Inbox(c))[0])
      ensures sent ==> network.queue == old(network.queue) + [EncodePacket(c, old(children[c].lastSent), old(Inbox(c))[0])]
      ensures sent ==> children[c].lastSent == old(children[c].lastSent) + 1
      ensures sent ==> inbox == old(inbox)[c := old(Inbox(c))[1..]]
    {
      hide AfterRead, MultilinkImpl.Multilink.Valid, Numbers, EncodePacket;
      if !children[c].target.Open? || Inbox(c) == [] {
        return false;
      }
      NumberAndSend(c);
      return true;
    }

    /** The packet the target has goes out under the next number. */
    method NumberAndSend(c: u64)
      requires Valid() && c in children && network.IsSendReady() && !Dry(c)
      modifies this`children, this`inbox, this`accepted, this`log, network`queue
      ensures Valid() && children.Keys == old(children.Keys)
      ensures State() == AfterRead(old(State()), c, old(Inbox(c))[0])
      ensures network.queue == old(network.queue) + [EncodePacket(c, old(children[c].lastSent), old(Inbox(c))[0])]
      ensures children[c].lastSent == old(children[c].lastSent) + 1
      ensures inbox == old(inbox)[c := old(Inbox(c))[1..]]
    {
      hide EncodePacket, MultilinkImpl.Multilink.Valid, Numbers;
      NumbersAfterRead(children, inbox, c);
      var ch := children[c];
      var data := inbox[c][0];
      inbox := inbox[c := inbox[c][1..]];
      ghost var f := AfterRead(State(), c, data);
      var packet := EncodePacket(c, ch.lastSent, data);
      children := children[c := CountSent(ch)];
      accepted, log := f.accepted, f.log;
      network.SendWithOffset(packet);
    }

    /** send_special_packet. */
    method SendSpecialPacket() returns (sent: bool)
      requires Valid()
      modifies this`specials, this`accepted, network`queue
      ensures Valid() && sent == old(network.IsSendReady() && specials != [])
      ensures State() == if sent then AfterSpecial(old(State())) else old(State())
      ensures sent ==> network.queue == old(network.queue) + [EncodePacket(CLOSE_CHANNEL, old(specials)[0], [])]
      ensures sent ==> specials == old(specials)[1..]
    {
      hide EncodePacket;
      if !network.IsSendReady() || specials == [] {
        return false;
      }
      var packet := EncodePacket(CLOSE_CHANNEL, specials[0], []);
      specials := specials[1..];
      network.SendWithOffset(packet);
      accepted := accepted + [packet];
      return true;
    }

    /** Every packet of channel c is either still at its target or has been read,
        in the same order. */
    ghost function Stream(c: u64): seq<Payload>
      reads this
    {
      (if c in log then log[c] else []) + Inbox(c)
    }

    /** One pass over the channels, each read at most once. */
    method ReadEachOnce() returns (anything: bool)
      requires Valid() && SenderInv(State())
      modifies this`children, this`inbox, this`accepted, this`log, network`queue
      ensures Valid() && SenderInv(State()) && children.Keys == old(children.Keys)
      ensures forall c :: c in children ==> Stream(c) == old(Stream(c))
      ensures |network.queue| <= |old(network.queue)| || |network.queue| <= QUEUE_SIZE
      ensures anything ==> |network.queue| > |old(network.queue)|
      ensures !anything ==> State() == old(State()) && inbox == old(inbox)
      ensures !anything && network.IsSendReady() ==> forall c :: c in children ==> Dry(c)
      ensures Joined(old(accepted), old(network.queue), accepted, network.queue)
    {
      hide SenderInv, AfterRead, Joined;
      JoinedNone(accepted, network.queue);
      anything := false;
      var todo := children.Keys;
      while todo != {}
        invariant Valid() && SenderInv(State()) && children.Keys == old(children.Keys) && todo <= children.Keys
        invariant forall c :: c in children ==> Stream(c) == old(Stream(c))
        invariant |network.queue| <= |old(network.queue)| || |network.queue| <= QUEUE_SIZE
        invariant anything ==> |network.queue| > |old(network.queue)|
        invariant !anything ==> State() == old(State()) && inbox == old(inbox)
        invariant !anything ==> forall c :: c in children && c !in todo ==> Dry(c)
        invariant Joined(old(accepted), old(network.queue), accepted, network.queue)
        decreases todo
      {
        if !network.IsSendReady() {
          return;
        }
        var c :| c in todo;
        todo := todo - {c};
        ghost var a, q := accepted, network.queue;
        var sent := ReadOne(c);
        JoinedMore(old(accepted), old(network.queue), a, q, accepted, network.queue);
        anything := anything || sent;
      }
    }

    /** target_recv_ready_once, with what it keeps. */
    method ReadOne(c: u64) returns (sent: bool)
      requires Valid() && SenderInv(State()) && c in children && network.IsSendReady()
      modifies this`children, this`inbox, this`accepted, this`log, network`queue
      ensures Valid() && SenderInv(State()) && children.Keys == old(children.Keys)
      ensures forall d :: d in children ==> Stream(d) == old(Stream(d))
      ensures sent == !old(Dry(c))
      ensures forall d :: d in children && d != c ==> children[d] == old(children)[d] && Inbox(d) == old(Inbox(d))
      ensures sent ==> |network.queue| == |old(network.queue)| + 1
      ensures !sent ==> State() == old(State()) && inbox == old(inbox)
      ensures Joined(old(accepted), old(network.queue), accepted, network.queue)
    {
      hide SenderInv, EncodePacket, MultilinkImpl.Multilink.Valid, Numbers;
      if !Dry(c) {
        NumbersAfterRead(children, inbox, c);
        ReadKeepsSender(State(), c, Inbox(c)[0]);
      }
      sent := TargetRecvReadyOnce(c);
      if sent {
        assert old(Inbox(c)) == [old(Inbox(c))[0]] + Inbox(c);
        assert forall d :: d in children && d != c ==> Stream(d) == old(Stream(d));
        JoinedOne(old(accepted), old(network.queue), EncodePacket(c, old(children[c].lastSent), old(Inbox(c))[0]));
      }
    }

    /** target_recv_ready: read one channel until the network stream is full or its
        target has nothing more. */
    method TargetRecvReady(c: u64)
      requires Valid() && SenderInv(State()) && c in children
      modifies this`children, this`inbox, this`accepted, this`log, network`queue
      ensures Valid() && SenderInv(State()) && children.Keys == old(children.Keys)
      ensures forall d :: d in children ==> Stream(d) == old(Stream(d))
      ensures forall d :: d in children && d != c ==> children[d] == old(children)[d] && Inbox(d) == old(Inbox(d))
      ensures |network.queue| <= |old(network.queue)| || |network.queue| <= QUEUE_SIZE
      ensures !network.IsSendReady() || Dry(c)
      ensures Joined(old(accepted), old(network.queue), accepted, network.queue)
    {
      hide SenderInv, Joined;
      JoinedNone(accepted, network.queue);
      while network.IsSendReady()
        invariant Valid() && SenderInv(State()) && children.Keys == old(children.Keys)
        invariant forall d :: d in children ==> Stream(d) == old(Stream(d))
        invariant forall d :: d in children && d != c ==> children[d] == old(children)[d] && Inbox(d) == old(Inbox(d))
        invariant |network.queue| <= |old(network.queue)| || |network.queue| <= QUEUE_SIZE
        invariant Joined(old(accepted), old(network.queue), accepted, network.queue)
        decreases QUEUE_SIZE - |network.queue|
      {
        ghost var a, q := accepted, network.queue;
        var sent := ReadOne(c);
        JoinedMore(old(accepted), old(network.queue), a, q, accepted, network.queue);
        if !sent {
          break;
        }
      }
    }

    // --------------------------------------------------------- replaced channels

    /** Nothing can be read from replaced channel k. */
    predicate OrphanDry(k: nat)
      reads this
      requires k < |orphans| && |boxes| == |orphans|
    {
      orphans[k].child.target.Open? ==> boxes[k] == []
    }

    /** target_recv_ready_once on a replaced channel. */
    method OrphanRecvReadyOnce(k: nat) returns (sent: bool)
      requires Valid() && SenderInv(State()) && k < |orphans| && network.IsSendReady()
      modifies this`orphans, this`boxes, this`accepted, this`log, network`queue
      ensures Valid() && SenderInv(State()) && |orphans| == |old(orphans)|
      ensures sent == !old(OrphanDry(k))
      ensures !sent ==> State() == old(State()) && boxes == old(boxes)
      ensures sent ==> State() == AfterOrphanRead(old(State()), k, old(boxes)[k][0])
      ensures sent ==> var o := old(orphans)[k];
                       && network.queue == old(network.queue) + [EncodePacket(o.id, o.child.lastSent, old(boxes)[k][0])]
                       && orphans[k].child.lastSent == o.child.lastSent + 1
      ensures sent ==> boxes == old(boxes)[k := old(boxes)[k][1..]]
    {
      hide MultilinkImpl.Multilink.Valid, Numbers, OrphanNumbers, SenderInv, EncodePacket;
      BoxesMatch(orphans, boxes);
      var child := orphans[k].child;
      if !child.target.Open? || boxes[k] == [] {
        return false;
      }
      var data := boxes[k][0];
      OrphanNumbersAfterRead(orphans, boxes, k);
      OrphanReadKeepsSender(State(), k, data);
      ghost var f := AfterOrphanRead(State(), k, data);
      var packet := EncodePacket(orphans[k].id, child.lastSent, data);
      boxes := boxes[k := boxes[k][1..]];
      orphans := orphans[k := orphans[k].(child := CountSent(child))];
      accepted, log := f.accepted, f.log;
      network.SendWithOffset(packet);
      return true;
    }

    /** target_recv_ready on a replaced channel: what it reads joins the log of its id,
        in order, and it stops only when the network stream is full or its target
        has nothing more. */
    method OrphanRecvReady(k: nat) returns (n: nat)
      requires Valid() && SenderInv(State()) && k < |orphans|
      modifies this`orphans, this`boxes, this`accepted, this`log, network`queue
      ensures Valid() && SenderInv(State()) && |orphans| == |old(orphans)| && orphans[k].id == old(orphans[k].id)
      ensures n <= |old(boxes)[k]| && boxes == old(boxes)[k := old(boxes)[k][n..]]
      ensures var c := orphans[k].id; LogOf(State(), c) == LogOf(old(State()), c) + old(boxes)[k][..n]
      ensures |network.queue| == |old(network.queue)| + n && (n > 0 ==> |network.queue| <= QUEUE_SIZE)
      ensures !network.IsSendReady() || OrphanDry(k)
    {
      hide MultilinkImpl.Multilink.Valid, Numbers, OrphanNumbers, SenderInv, EncodePacket;
      BoxesMatch(orphans, boxes);
      n := 0;
      ghost var c := orphans[k].id;
      while network.IsSendReady()
        invariant Valid() && SenderInv(State()) && |orphans| == |old(orphans)| && orphans[k].id == c
        invariant |boxes| == |old(boxes)| == |orphans| && n <= |old(boxes)[k]| && boxes == old(boxes)[k := old(boxes)[k][n..]]
        invariant LogOf(State(), c) == LogOf(old(State()), c) + old(boxes)[k][..n]
        invariant |network.queue| == |old(network.queue)| + n && (n > 0 ==> |network.queue| <= QUEUE_SIZE)
        decreases QUEUE_SIZE - |network.queue|
      {
        ghost var box := boxes[k];
        var sent := OrphanRecvReadyOnce(k);
        if !sent {
          break;
        }
        assert old(boxes)[k][..n + 1] == old(boxes)[k][..n] + [box[0]];
        n := n + 1;
      }
    }

    /** network_send_ready: pump until the network stream is full or there is nothing
        left to send. Every send is guarded, so the queue never exceeds its size
        by this method's doing, and the free space bounds the number of turns. */
    method NetworkSendReady()
      requires Valid() && SenderInv(State())
      modifies this`children, this`inbox, this`accepted, this`log, this`specials, network`queue
      ensures Valid() && SenderInv(State()) && children.Keys == old(children.Keys)
      ensures forall c :: c in children ==> Stream(c) == old(Stream(c))
      ensures |network.queue| <= |old(network.queue)| || |network.queue| <= QUEUE_SIZE
      ensures network.IsSendReady() ==> specials == [] && forall c :: c in children ==> Dry(c)
      ensures Joined(old(accepted), old(network.queue), accepted, network.queue)
      ensures forall c: u64 :: RunLaws.Announced(old(State()), c) ==> RunLaws.Announced(State(), c)
    {
      hide SenderInv, AfterSpecial, Genuine, Joined, RunLaws.Announced;
      JoinedNone(accepted, network.queue);
      while true
        invariant Valid() && SenderInv(State()) && children.Keys == old(children.Keys)
        invariant forall c :: c in children ==> Stream(c) == old(Stream(c))
        invariant |network.queue| <= |old(network.queue)| || |network.queue| <= QUEUE_SIZE
        invariant Joined(old(accepted), old(network.queue), accepted, network.queue)
        invariant forall c: u64 :: RunLaws.Announced(old(State()), c) ==> RunLaws.Announced(State(), c)
        decreases QUEUE_SIZE - |network.queue|
      {
        if !network.IsSendReady() {
          return;
        }
        ghost var a, q := accepted, network.queue;
        if specials != [] {
          PumpSpecial();
          JoinedMore(old(accepted), old(network.queue), a, q, accepted, network.queue);
        } else {
          ghost var before := State();
          var anything := ReadEachOnce();
          AcceptedStays(before, State(), q, network.queue);
          JoinedMore(old(accepted), old(network.queue), a, q, accepted, network.queue);
          if !network.IsSendReady() || !anything {
            return;
          }
        }
      }
    }

    method PumpSpecial()
      requires Valid() && SenderInv(State()) && network.IsSendReady() && specials != []
      modifies this`specials, this`accepted, network`queue
      ensures Valid() && SenderInv(State()) && |network.queue| == |old(network.queue)| + 1
      ensures Joined(old(accepted), old(network.queue), accepted, network.queue)
      ensures forall c: u64 :: RunLaws.Announced(old(State()), c) ==> RunLaws.Announced(State(), c)
    {
      hide SenderInv, EncodePacket, RunLaws.Announced;
      SpecialKeepsSender(State());
      forall c: u64 | RunLaws.Announced(State(), c)
        ensures RunLaws.Announced(AfterTurn(State(), SendSpecial), c)
      {
        RunLaws.TurnAnnounces(State(), SendSpecial, c);
      }
      JoinedOne(accepted, network.queue, EncodePacket(CLOSE_CHANNEL, specials[0], []));
      var _ := SendSpecialPacket();
    }

    // ---------------------------------------------------------- towards targets

    /** target_send_ready: forward while the next packet is there and the target
        takes it; it stops for no other reason. */
    method TargetSendReady(c: u64) returns (n: nat)
      requires c in children
      modifies this`children, this`room
      ensures CanForwardMany(old(children)[c], n)
      ensures children == old(children)[c := ForwardMany(old(children)[c], n)]
      ensures n <= old(Room(c)) && (n > 0 ==> old(children)[c].target.Open?)
      ensures n > 0 ==> room == old(room)[c := old(Room(c)) - n]
      ensures n == 0 ==> room == old(room)
      ensures !CanForward(children[c]) || !children[c].target.Open? || Room(c) == 0
    {
      ghost var start := children[c];
      n := 0;
      while CanForward(children[c]) && children[c].target.Open? && Room(c) > 0
        invariant c in children && CanForwardMany(start, n) && n <= |start.buffer|
        invariant children == old(children)[c := ForwardMany(start, n)]
        invariant children[c].target == start.target && children[c].buffer == start.buffer[n..]
        invariant n <= old(Room(c)) && (n > 0 ==> start.target.Open?)
        invariant n > 0 ==> room == old(room)[c := old(Room(c)) - n]
        invariant n == 0 ==> room == old(room)
        invariant Room(c) + n == old(Room(c))
        decreases |children[c].buffer|
      {
        assert start.buffer[n] == children[c].buffer[0];
        assert CanForwardMany(start, n + 1);
        children := children[c := Forward(children[c])];
        room := room[c := room[c] - 1];
        n := n + 1;
      }
    }

    /** place_packet up to its last statement; `first` when the packet was stored as
        the next one to forward. */
    method StorePacket(c: u64, seqno: u64, data: Payload) returns (first: bool)
      modifies this`children, this`aborted
      ensures var g := GetChild(old(State()), c);
              var placed := Place(g.children[c], seqno, data);
              && State() == (if placed.None? then g.(aborted := true) else SetChild(g, c, placed.value))
              && (first <==> RelSeq(seqno, g.children[c].lastForwarded) == 0 && !CanForward(g.children[c]))
              && (first ==> placed.Some?)
    {
      hide RelSeq;
      first := false;
      if c !in children {
        children := children[c := FreshChild];
      }
      var ch := children[c];
      assert children == children[c := ch];
      var rel := RelSeq(seqno, ch.lastForwarded);
      if rel < 0 {
        return;
      }
      if rel >= MAX_BUFFER_PACKETS {
        aborted := true;
        return;
      }
      var buf := Padded(ch.buffer, rel + 1);
      if buf[rel].None? {
        buf := buf[rel := Some(data)];
        first := rel == 0;
      }
      children := children[c := ch.(buffer := buf)];
    }

    /** place_packet, and the forwarding it triggers. */
    method PlacePacket(c: u64, seqno: u64, data: Payload) returns (n: nat)
      modifies this`children, this`room, this`aborted
      ensures CanForward(GetChild(old(State()), c).children[c]) ==> n == 0
      ensures var g := GetChild(old(State()), c);
              var placed := Place(g.children[c], seqno, data);
              if placed.None? then n == 0 && State() == g.(aborted := true)
              else && CanForwardMany(placed.value, n)
                   && State() == SetChild(g, c, ForwardMany(placed.value, n))
                   && (n > 0 ==> RelSeq(seqno, g.children[c].lastForwarded) == 0)
                   && (RelSeq(seqno, g.children[c].lastForwarded) == 0 && !CanForward(g.children[c]) ==>
                         var r := children[c]; !CanForward(r) || !r.target.Open? || Room(c) == 0)
    {
      hide RelSeq, Place;
      n := 0;
      var first := StorePacket(c, seqno, data);
      if first {
        n := TargetSendReady(c);
      }
    }
  }
}
