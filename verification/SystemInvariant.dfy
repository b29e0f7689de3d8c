/** The invariant of the whole system and the proof that every step keeps it. */
module SystemInvariant {
  import opened Bytes
  import opened Frames
  import opened LinkSpec
  import opened LinkInvariants
  import opened LinkPair
  import opened TransportSpec
  import opened Scheduling
  import opened SystemSpec

  // -------------------------------------------------------------- invariant

  /** p is the packet that was read on its channel under its number; of a restarted
      channel nothing is known. */
  ghost predicate Genuine(e: Endpoint, p: Payload) {
    && TRANSPORT_HEADER <= |p| <= MULTILINK_MTU
    && (PacketId(p) == CLOSE_CHANNEL ||
        (PacketSeq(p) < TWO63 && (PacketId(p) in e.restarted || InLog(LogOf(e, PacketId(p)), p))))
  }

  predicate InLog(log: seq<Payload>, p: Payload)
    requires |p| >= TRANSPORT_HEADER
  {
    PacketSeq(p) < |log| && PacketData(p) == log[PacketSeq(p)]
  }

  /** Everything read on channel c was accepted under its position, and the next
      number is the next position. */
  ghost predicate Numbered(e: Endpoint, c: u64) {
    && |LogOf(e, c)| <= TWO63
    && (forall n: nat :: n < |LogOf(e, c)| ==> EncodePacket(c, n, LogOf(e, c)[n]) in e.accepted)
    && (if c in e.children then e.children[c].lastSent == |LogOf(e, c)| else LogOf(e, c) == [])
  }

  ghost predicate SenderInv(e: Endpoint) {
    && (forall p :: p in e.accepted ==> Genuine(e, p))
    && (forall c: u64 :: c !in e.restarted ==> Numbered(e, c))
    && (forall o :: o in e.orphans && o.id !in e.restarted ==> o.child.target.Closed?)
    && (forall p :: p in e.queue ==> p in e.accepted)
  }

  /** What the child holds agrees with the sender's log, if that is known. */
  ghost predicate Agrees(ch: Child, log: Option<seq<Payload>>) {
    && BufferInv(ch)
    && (forall n: nat :: Has(ch, n) ==>
          n < TWO63 && (log.Some? ==> n < |log.value| && ValueAt(ch, n) == log.value[n]))
  }

  function Expected(peer: Endpoint, c: u64): Option<seq<Payload>> {
    if c in peer.restarted then None else Some(LogOf(peer, c))
  }

  ghost predicate ReceiverInv(me: Endpoint, peer: Endpoint) {
    forall c :: c in me.children ==> Agrees(me.children[c], Expected(peer, c))
  }

  ghost predicate HasNumber(e: Endpoint, c: u64, n: nat) {
    c in e.children && Has(e.children[c], n)
  }

  /** Packet p, returned by recv, has reached its channel (which may since have been
      replaced). */
  ghost predicate Placed(e: Endpoint, p: Payload) {
    && |p| >= TRANSPORT_HEADER
    && (PacketId(p) == CLOSE_CHANNEL || PacketId(p) in e.forgotten || HasNumber(e, PacketId(p), PacketSeq(p)))
  }

  ghost predicate PortInv(e: Endpoint, p: Port) {
    && (p.status.Absent? ==> p.link == Fresh)
    && (!p.status.Up? ==> p.own == [])
    && (forall q :: q in Payloads(p.link.Log()) ==> q in e.accepted)
    && (forall q :: q in p.own ==> q in e.accepted)
    && (!e.aborted ==> forall q :: q in p.link.returned ==> Placed(e, q))
    && p.link.lastSeqSent <= e.lastSeq
  }

  ghost predicate CustodyInv(s: System, side: Side) {
    multiset(s.End(side).accepted) == multiset(s.End(side).queue) + Custody(s.cables, side)
  }

  ghost predicate CablesInv(s: System, side: Side) {
    forall i :: 0 <= i < |s.cables| ==>
      && PairInv(s.cables[i].At(side).link, s.cables[i].At(Other(side)).link)
      && PortInv(s.End(side), s.cables[i].At(side))
  }

  /** recv of this link has returned packet n of channel c. */
  ghost predicate Returned(link: LinkState, c: u64, n: nat) {
    exists q :: q in link.returned && IsPacket(q, c, n)
  }

  predicate IsPacket(p: Payload, c: u64, n: nat) {
    |p| >= TRANSPORT_HEADER && PacketId(p) == c && PacketSeq(p) == n
  }

  /** Packet n of channel c has come out of one of the links. */
  ghost predicate CameIn(cables: seq<Cable>, side: Side, c: u64, n: nat) {
    exists i :: 0 <= i < |cables| && Returned(cables[i].At(side).link, c, n)
  }

  /** Whatever is in a reorder buffer, or has left it, came out of a link. */
  ghost predicate OriginInv(s: System, side: Side) {
    forall c: u64, n: nat :: HasNumber(s.End(side), c, n) ==> CameIn(s.cables, side, c, n)
  }

  ghost predicate SideInv(s: System, side: Side) {
    && CustodyInv(s, side) && CablesInv(s, side) && OriginInv(s, side)
    && SenderInv(s.End(side)) && ReceiverInv(s.End(side), s.End(Other(side)))
  }

  ghost predicate Inv(s: System) {
    SideInv(s, Left) && SideInv(s, Right)
  }

  // ----------------------------------------------------------------- custody

  lemma {:induction false} CustodyUpdate(cables: seq<Cable>, side: Side, i: nat, p: Port)
    requires i < |cables|
    ensures Custody(cables[i := cables[i].With(side, p)], side) + Held(cables[i].At(side))
         == Custody(cables, side) + Held(p)
    ensures Custody(cables[i := cables[i].With(side, p)], Other(side)) == Custody(cables, Other(side))
  {
    hide Held;
    var n := |cables| - 1;
    var u := cables[i := cables[i].With(side, p)];
    if i == n {
      assert u[..n] == cables[..n];
    } else {
      CustodyUpdate(cables[..n], side, i, p);
      assert u[..n] == cables[..n][i := cables[i].With(side, p)];
      Balance(Custody(u[..n], side), Held(cables[i].At(side)), Custody(cables[..n], side), Held(p),
              Held(cables[n].At(side)));
    }
  }

  lemma Balance<T>(a: multiset<T>, b: multiset<T>, c: multiset<T>, d: multiset<T>, h: multiset<T>)
    requires a + b == c + d
    ensures (a + h) + b == (c + h) + d
  {
    assert (a + h) + b == (a + b) + h;
  }

  /** If accepted == queue + rest before, and both sides move together, it holds after. */
  lemma Rebalance<T>(accepted: multiset<T>, queue: multiset<T>, rest: multiset<T>, held: multiset<T>,
                     accepted': multiset<T>, queue': multiset<T>, rest': multiset<T>, held': multiset<T>)
    requires accepted == queue + rest
    requires rest' + held == rest + held'
    requires accepted' + queue + held == accepted + queue' + held'
    ensures accepted' == queue' + rest'
  {
    forall x: T
      ensures accepted'[x] == (queue' + rest')[x]
    {
      assert accepted[x] == queue[x] + rest[x];
      assert rest'[x] + held[x] == (rest' + held)[x] == rest[x] + held'[x];
      assert accepted'[x] + queue[x] + held[x] == (accepted' + queue + held)[x] == accepted[x] + queue'[x] + held'[x];
    }
  }

  lemma CustodySnoc(cables: seq<Cable>, c: Cable, side: Side)
    ensures Custody(cables + [c], side) == Custody(cables, side) + Held(c.At(side))
  {
    assert (cables + [c])[..|cables|] == cables;
  }

  lemma {:induction false} CustodyMember(cables: seq<Cable>, side: Side, q: Payload)
    requires q in Custody(cables, side)
    ensures exists i :: 0 <= i < |cables| && q in Held(cables[i].At(side))
  {
    hide Held;
    var n := |cables| - 1;
    if q !in Held(cables[n].At(side)) {
      CustodyMember(cables[..n], side, q);
      var i :| 0 <= i < n && q in Held(cables[..n][i].At(side));
      assert q in Held(cables[i].At(side));
    }
  }

  // ----------------------------------------------------------- preservation

  /** e only gains: what was accepted, read or received stays. */
  ghost predicate Grows(e: Endpoint, f: Endpoint) {
    && (forall p :: p in e.accepted ==> p in f.accepted)
    && e.lastSeq <= f.lastSeq && (e.aborted ==> f.aborted)
    && e.restarted <= f.restarted && e.forgotten <= f.forgotten
    && (forall c: u64 :: LogOf(e, c) <= LogOf(f, c))
    && (forall c: u64, n: nat :: HasNumber(e, c, n) && c !in f.forgotten ==> HasNumber(f, c, n))
  }

  /** f has received no more than e. */
  ghost predicate NothingNew(e: Endpoint, f: Endpoint) {
    forall c: u64, n: nat :: HasNumber(f, c, n) ==> HasNumber(e, c, n)
  }

  lemma PortGrows(e: Endpoint, f: Endpoint, p: Port)
    requires PortInv(e, p) && Grows(e, f)
    ensures PortInv(f, p)
  {
    hide Payloads, HasNumber, LogOf;
  }

  lemma ReceiverGrows(me: Endpoint, e: Endpoint, f: Endpoint)
    requires ReceiverInv(me, e) && Grows(e, f)
    ensures ReceiverInv(me, f)
  {
    hide BufferInv, Has, HasNumber, LogOf;
  }

  /** The cables still have what they had returned. */
  ghost predicate CablesGrow(before: seq<Cable>, after: seq<Cable>, side: Side) {
    && |before| <= |after|
    && forall i :: 0 <= i < |before| ==>
         forall c: u64, n: nat :: Returned(before[i].At(side).link, c, n) ==> Returned(after[i].At(side).link, c, n)
  }

  lemma CameInGrows(before: seq<Cable>, after: seq<Cable>, side: Side, c: u64, n: nat)
    requires CablesGrow(before, after, side) && CameIn(before, side, c, n)
    ensures CameIn(after, side, c, n)
  {
    hide Returned;
    var i :| 0 <= i < |before| && Returned(before[i].At(side).link, c, n);
    assert Returned(after[i].At(side).link, c, n);
  }

  lemma OriginGrows(s: System, t: System, side: Side)
    requires OriginInv(s, side) && CablesGrow(s.cables, t.cables, side)
    requires forall c: u64, n: nat :: HasNumber(t.End(side), c, n) ==>
               HasNumber(s.End(side), c, n) || CameIn(t.cables, side, c, n)
    ensures OriginInv(t, side)
  {
    hide CablesGrow, CameIn, HasNumber;
    forall c: u64, n: nat | HasNumber(t.End(side), c, n)
      ensures CameIn(t.cables, side, c, n)
    {
      if HasNumber(s.End(side), c, n) {
        CameInGrows(s.cables, t.cables, side, c, n);
      }
    }
  }

  /** A step of one endpoint that leaves the cables alone. */
  lemma EndStep(s: System, side: Side, f: Endpoint)
    requires Inv(s)
    requires var e := s.End(side);
             && Grows(e, f) && NothingNew(e, f) && SenderInv(f) && ReceiverInv(f, s.End(Other(side)))
             && multiset(f.accepted) + multiset(e.queue) == multiset(e.accepted) + multiset(f.queue)
    ensures Inv(s.WithEnd(side, f))
  {
    hide PairInv, PortInv, SenderInv, ReceiverInv, Grows, Custody, HasNumber, CameIn, Returned;
    var e, t := s.End(side), s.WithEnd(side, f);
    assert SideInv(s, side) && SideInv(s, Other(side));
    forall i | 0 <= i < |s.cables|
      ensures PortInv(f, s.cables[i].At(side))
    {
      PortGrows(e, f, s.cables[i].At(side));
    }
    ReceiverGrows(s.End(Other(side)), e, f);
    var c := Custody(s.cables, side);
    Rebalance(multiset(e.accepted), multiset(e.queue), c, multiset{}, multiset(f.accepted), multiset(f.queue), c, multiset{});
    OriginGrows(s, t, side);
    OriginGrows(s, t, Other(side));
    assert SideInv(t, side);
    assert SideInv(t, Other(side));
  }

  /** recv of the new link has returned at least as much. */
  ghost predicate LinkGrows(l: LinkState, m: LinkState) {
    forall q :: q in l.returned ==> q in m.returned
  }

  /** f has received no more than e and what link m has returned. */
  ghost predicate NewFrom(e: Endpoint, f: Endpoint, m: LinkState) {
    forall c: u64, n: nat :: HasNumber(f, c, n) ==> HasNumber(e, c, n) || Returned(m, c, n)
  }

  lemma PortOrigin(s: System, t: System, side: Side, f: Endpoint, i: nat, p: Port)
    requires OriginInv(s, side) && OriginInv(s, Other(side)) && i < |s.cables|
    requires LinkGrows(s.cables[i].At(side).link, p.link) && NewFrom(s.End(side), f, p.link)
    requires t == s.WithEnd(side, f).WithPort(side, i, p)
    ensures OriginInv(t, side) && OriginInv(t, Other(side))
  {
    hide HasNumber, IsPacket;
    assert t.cables[i].At(side) == p;
    forall c: u64, n: nat | HasNumber(f, c, n) && !HasNumber(s.End(side), c, n)
      ensures CameIn(t.cables, side, c, n)
    {
      assert Returned(t.cables[i].At(side).link, c, n);
    }
    OriginGrows(s, t, side);
    OriginGrows(s, t, Other(side));
  }

  /** A step of one endpoint and one of its ports. */
  lemma PortStep(s: System, side: Side, f: Endpoint, i: nat, p: Port)
    requires Inv(s) && i < |s.cables|
    requires var e, old_p := s.End(side), s.cables[i].At(side);
             && Grows(e, f) && SenderInv(f) && ReceiverInv(f, s.End(Other(side)))
             && multiset(f.accepted) + multiset(e.queue) + Held(old_p)
             == multiset(e.accepted) + multiset(f.queue) + Held(p)
             && PortInv(f, p) && LinkGrows(old_p.link, p.link) && NewFrom(e, f, p.link)
             && PairInv(p.link, s.cables[i].At(Other(side)).link)
             && PairInv(s.cables[i].At(Other(side)).link, p.link)
    ensures Inv(s.WithEnd(side, f).WithPort(side, i, p))
  {
    hide PairInv, PortInv, SenderInv, ReceiverInv, Grows, Custody, Held, LinkGrows, NewFrom, OriginInv;
    var e, t := s.End(side), s.WithEnd(side, f).WithPort(side, i, p);
    assert SideInv(s, side) && SideInv(s, Other(side));
    forall k | 0 <= k < |s.cables|
      ensures PortInv(f, s.cables[k].At(side))
    {
      PortGrows(e, f, s.cables[k].At(side));
    }
    ReceiverGrows(s.End(Other(side)), e, f);
    CustodyUpdate(s.cables, side, i, p);
    Rebalance(multiset(e.accepted), multiset(e.queue), Custody(s.cables, side), Held(s.cables[i].At(side)),
              multiset(f.accepted), multiset(f.queue), Custody(t.cables, side), Held(p));
    PortOrigin(s, t, side, f, i, p);
    assert SideInv(t, side);
    assert SideInv(t, Other(side));
  }

  // ------------------------------------------------------------- each action

  lemma LinkEventKeeps(s: System, side: Side, i: nat, e: Event, now: u64)
    requires Inv(s) && CanStep(s, side, LinkEvent(i, e, now))
    ensures Inv(Step(s, side, LinkEvent(i, e, now)))
  {
    hide PairInv, SenderInv, ReceiverInv, Custody, Next, Enabled, Placed, OriginInv, Grows, NewFrom;
    var me, p, q := s.End(side), s.cables[i].At(side), s.cables[i].At(Other(side));
    assert SideInv(s, side) && SideInv(s, Other(side));
    InternalTraffic(p.link, e, now);
    PairStep(p.link, q.link, e, now);
    NoChange(me, Next(p.link, e, now));
    PortStep(s, side, me, i, p.(link := Next(p.link, e, now)));
  }

  lemma AddLinkKeeps(s: System, side: Side, i: nat)
    requires Inv(s) && CanStep(s, side, AddLink(i))
    ensures Inv(Step(s, side, AddLink(i)))
  {
    hide PairInv, SenderInv, ReceiverInv, Custody, Placed, OriginInv, Grows, NewFrom;
    var me, p := s.End(side), s.cables[i].At(side);
    assert SideInv(s, side) && SideInv(s, Other(side));
    assert Payloads(Fresh.Log()) == [];
    PairSymmetric(p.link, s.cables[i].At(Other(side)).link);
    NoChange(me, p.link);
    PortStep(s, side, me, i, p.(status := Up));
  }

  lemma NoChange(e: Endpoint, link: LinkState)
    ensures Grows(e, e) && NewFrom(e, e, link)
  {
    hide LogOf, HasNumber;
  }

  lemma PairSymmetric(a: LinkState, b: LinkState)
    requires PairInv(a, b)
    ensures PairInv(b, a)
  {
    hide LinkInv, StreamInv, AckInv;
  }

  /** An endpoint that differs only in its queue and its last number. */
  predicate SameButQueue(e: Endpoint, f: Endpoint) {
    f == e.(queue := f.queue, lastSeq := f.lastSeq) && e.lastSeq <= f.lastSeq
  }

  lemma SameButQueueKeeps(e: Endpoint, f: Endpoint, peer: Endpoint)
    requires SenderInv(e) && ReceiverInv(e, peer) && SameButQueue(e, f)
    requires forall p :: p in f.queue ==> p in e.accepted
    ensures SenderInv(f) && ReceiverInv(f, peer) && Grows(e, f)
    ensures forall l :: NewFrom(e, f, l)
  {
    hide EncodePacket, PacketId, PacketSeq, PacketData, Agrees, Has, Returned;
    assert forall c: u64 :: LogOf(f, c) == LogOf(e, c);
    SameLog(e, f);
  }

  predicate SameNumber(e: Endpoint, f: Endpoint, c: u64) {
    (c in e.children <==> c in f.children) && (c in e.children ==> e.children[c].lastSent == f.children[c].lastSent)
  }

  /** What SenderInv says of the log does not depend on the rest. */
  lemma SameLog(e: Endpoint, f: Endpoint)
    requires forall c: u64 :: LogOf(e, c) == LogOf(f, c)
    requires e.restarted <= f.restarted && (forall p :: p in e.accepted ==> p in f.accepted)
    ensures forall p :: Genuine(e, p) ==> Genuine(f, p)
    ensures forall c: u64 | Numbered(e, c) && SameNumber(e, f, c) :: Numbered(f, c)
  {
    hide EncodePacket, PacketId, PacketSeq, PacketData, LogOf;
  }

  lemma QueueAccepted(e: Endpoint)
    requires SenderInv(e)
    ensures forall p :: p in e.queue ==> p in e.accepted
  {
  }

  lemma PortAssign(f: Endpoint, p: Port, q: Payload)
    requires PortInv(f, p) && p.status.Up? && q in f.accepted
    ensures PortInv(f, p.(own := p.own + [q]))
    ensures Held(p.(own := p.own + [q])) == Held(p) + multiset{q}
  {
    hide Placed, Payloads;
  }

  lemma GiveFrontKeeps(s: System, side: Side, i: nat)
    requires Inv(s) && HasUp(s, side, i) && s.End(side).queue != []
    ensures Inv(GiveFront(s, side, i))
  {
    hide OriginInv, NewFrom, PairInv, SenderInv, ReceiverInv, PortInv, Custody, Grows, Held;
    var me, p := s.End(side), s.cables[i].At(side);
    assert SideInv(s, side) && SideInv(s, Other(side));
    var f := me.(queue := me.queue[1..]);
    assert me.queue == [me.queue[0]] + f.queue;
    QueueAccepted(me);
    SameButQueueKeeps(me, f, s.End(Other(side)));
    PortGrows(me, f, p);
    PortAssign(f, p, me.queue[0]);
    PairSymmetric(p.link, s.cables[i].At(Other(side)).link);
    PortStep(s, side, f, i, p.(own := p.own + [me.queue[0]]));
  }

  lemma {:induction false} SpreadKeeps(s: System, side: Side, targets: seq<nat>)
    requires |targets| <= |s.End(side).queue| && forall k :: 0 <= k < |targets| ==> HasUp(s, side, targets[k])
    requires Inv(s)
    ensures Inv(Spread(s, side, targets))
    decreases |targets|
  {
    hide Inv, GiveFront;
    if targets != [] {
      var n := |targets| - 1;
      SpreadKeeps(s, side, targets[..n]);
      assert HasUp(s, side, targets[n]);
      GiveFrontKeeps(Spread(s, side, targets[..n]), side, targets[n]);
    }
  }

  lemma AssignKeeps(s: System, side: Side, a: Action)
    requires Inv(s) && CanStep(s, side, a) && a.Assign?
    ensures Inv(Step(s, side, a))
  {
    hide Inv, Greedy, Spread;
    AssignTargets(s, side, a.live, a.mbps, a.choice);
    SpreadKeeps(s, side, Targets(a.live, a.choice));
  }

  /** Where the packets go: the link at position k of `live` gets, in queue order, those
      chosen for it, which is what assign_links_until does to assigned_packets. */
  lemma {:induction false} SpreadMeaning(s: System, side: Side, live: seq<nat>, choice: seq<nat>, k: nat)
    requires Lists(s, side, live) && k < |live| && |choice| <= |s.End(side).queue|
    requires forall j :: 0 <= j < |choice| ==> choice[j] < |live|
    ensures live[k] < |Spread(s, side, Targets(live, choice)).cables|
    ensures Spread(s, side, Targets(live, choice)).cables[live[k]].At(side).own ==
            s.cables[live[k]].At(side).own + Picked(s.End(side).queue, choice, k)
    decreases |choice|
  {
    hide Picked, Spread;
    var e, own := s.End(side), s.cables[live[k]].At(side).own;
    if choice == [] {
      PickedNone(e.queue);
      SpreadNone(s, side);
    } else {
      var n := |choice| - 1;
      var before, targets := choice[..n], Targets(live, choice);
      SpreadMeaning(s, side, live, before, k);
      assert targets[..n] == Targets(live, before);
      assert choice == before + [choice[n]];
      PickedSnoc(e.queue, before, choice[n], k);
      Regroup(own, Picked(e.queue, before, k), if choice[n] == k then [e.queue[n]] else []);
      SpreadStep(s, side, targets, live[k]);
    }
  }

  lemma SpreadNone(s: System, side: Side)
    ensures Spread(s, side, []) == s
  {
  }

  /** What the last turn of the loop adds to the own queue of link j. */
  lemma SpreadStep(s: System, side: Side, targets: seq<nat>, j: nat)
    requires 0 < |targets| <= |s.End(side).queue| && forall k :: 0 <= k < |targets| ==> HasUp(s, side, targets[k])
    requires j < |s.cables|
    ensures var n := |targets| - 1;
            && j < |Spread(s, side, targets).cables| && j < |Spread(s, side, targets[..n]).cables|
            && Spread(s, side, targets).cables[j].At(side).own ==
               Spread(s, side, targets[..n]).cables[j].At(side).own + (if targets[n] == j then [s.End(side).queue[n]] else [])
  {
    hide GiveFront;
    var n := |targets| - 1;
    assert HasUp(s, side, targets[n]);
    GiveFrontOwn(Spread(s, side, targets[..n]), side, targets[n], j);
  }

  lemma GiveFrontOwn(s: System, side: Side, i: nat, j: nat)
    requires HasUp(s, side, i) && s.End(side).queue != [] && j < |s.cables|
    ensures j < |GiveFront(s, side, i).cables|
    ensures GiveFront(s, side, i).cables[j].At(side).own ==
            s.cables[j].At(side).own + (if i == j then [s.End(side).queue[0]] else [])
  {
  }

  /** Sending moves the first packet of the own queue to the link's log. */
  lemma PortSend(f: Endpoint, p: Port, now: u64)
    requires PortInv(f, p) && p.status.Up? && p.own != []
    requires Enabled(p.link, Submit(f.lastSeq, p.own[0]), now)
    ensures var r := p.(own := if SendAccepts(p.link, now) then p.own[1..] else p.own,
                        link := Next(p.link, Submit(f.lastSeq, p.own[0]), now));
            PortInv(f, r) && Held(r) == Held(p) && r.link.returned == p.link.returned
  {
    hide Placed, Next, Enabled, Busy, SendAccepts;
    var link := Next(p.link, Submit(f.lastSeq, p.own[0]), now);
    SubmitTraffic(p.link, f.lastSeq, p.own[0], now);
    if SendAccepts(p.link, now) {
      var sent := [InFlight(f.lastSeq, p.own[0], now)];
      assert p.own == [p.own[0]] + p.own[1..];
      PayloadsAppend(p.link.Log(), sent);
      assert Payloads(sent) == [p.own[0]];
    }
  }

  lemma SendOneKeeps(s: System, side: Side, i: nat, now: u64)
    requires Inv(s) && CanStep(s, side, SendOne(i, now))
    ensures Inv(Step(s, side, SendOne(i, now)))
  {
    hide SendAccepts, Dispatch, AfterTurn, CanTurn, OriginInv, NewFrom, PairInv, SenderInv, ReceiverInv, PortInv;
    hide Custody, Grows, Held, Next, Enabled;
    var me, p, q := s.End(side), s.cables[i].At(side), s.cables[i].At(Other(side));
    assert SideInv(s, side) && SideInv(s, Other(side));
    var f := me.(lastSeq := me.lastSeq + 1);
    QueueAccepted(me);
    SameButQueueKeeps(me, f, s.End(Other(side)));
    PortGrows(me, f, p);
    PortSend(f, p, now);
    PairStep(p.link, q.link, Submit(f.lastSeq, p.own[0]), now);
    PortStep(s, side, f, i, p.(own := if SendAccepts(p.link, now) then p.own[1..] else p.own,
                               link := Next(p.link, Submit(f.lastSeq, p.own[0]), now)));
  }

  lemma PortRemove(f: Endpoint, p: Port)
    requires PortInv(f, p) && p.status.Up?
    ensures PortInv(f, p.(status := Removed, own := []))
    ensures Held(p) == Held(p.(status := Removed, own := [])) + multiset(Payloads(p.link.inflight)) + multiset(p.own)
    ensures forall q :: q in Payloads(p.link.inflight) || q in p.own ==> q in f.accepted
  {
    hide Placed, Payloads;
    PayloadsAppend(p.link.flushed, p.link.inflight);
    assert forall q :: q in Payloads(p.link.inflight) ==> q in Payloads(p.link.Log());
  }

  lemma RemoveLinkKeeps(s: System, side: Side, i: nat)
    requires Inv(s) && CanStep(s, side, RemoveLink(i))
    ensures Inv(Step(s, side, RemoveLink(i)))
  {
    hide OriginInv, NewFrom, PairInv, SenderInv, ReceiverInv, PortInv, Custody, Grows, Held, Payloads;
    var me, p := s.End(side), s.cables[i].At(side);
    assert SideInv(s, side) && SideInv(s, Other(side));
    var f := me.(queue := me.queue + Payloads(p.link.inflight) + p.own);
    QueueAccepted(me);
    PortRemove(me, p);
    SameButQueueKeeps(me, f, s.End(Other(side)));
    PortGrows(me, f, p);
    PortRemove(f, p);
    PairSymmetric(p.link, s.cables[i].At(Other(side)).link);
    PortStep(s, side, f, i, p.(status := Removed, own := []));
  }

  // ------------------------------------------------- changes to one channel

  /** Replacing (or creating) one channel without reading or accepting anything. */
  lemma ChildStep(e: Endpoint, peer: Endpoint, c: u64, ch: Child)
    requires SenderInv(e) && ReceiverInv(e, peer)
    requires Agrees(ch, Expected(peer, c))
    requires ch.lastSent == if c in e.children then e.children[c].lastSent else 0
    requires c in e.children ==> forall n: nat :: Has(e.children[c], n) ==> Has(ch, n)
    ensures SenderInv(SetChild(e, c, ch)) && ReceiverInv(SetChild(e, c, ch), peer)
    ensures Grows(e, SetChild(e, c, ch))
  {
    hide EncodePacket, PacketId, PacketSeq, PacketData, Agrees, Has, Expected;
    var f := SetChild(e, c, ch);
    assert forall d: u64 :: LogOf(f, d) == LogOf(e, d);
    SameLog(e, f);
    assert forall d: u64 :: Numbered(e, d) ==> Numbered(f, d);
  }

  lemma FreshAgrees(log: Option<seq<Payload>>)
    ensures Agrees(FreshChild, log)
  {
  }

  lemma GetChildKeeps(e: Endpoint, peer: Endpoint, c: u64)
    requires SenderInv(e) && ReceiverInv(e, peer)
    ensures var f := GetChild(e, c);
            SenderInv(f) && ReceiverInv(f, peer) && Grows(e, f) && NothingNew(e, f)
  {
    hide SenderInv, ReceiverInv;
    if c !in e.children {
      FreshAgrees(Expected(peer, c));
      ChildStep(e, peer, c, FreshChild);
    }
  }

  lemma GrowsTransitive(e: Endpoint, f: Endpoint, g: Endpoint)
    requires Grows(e, f) && Grows(f, g)
    ensures Grows(e, g)
  {
    hide Has;
  }

  lemma ChildAgrees(e: Endpoint, peer: Endpoint, c: u64)
    requires ReceiverInv(e, peer) && c in e.children
    ensures Agrees(e.children[c], Expected(peer, c))
  {
  }

  lemma RetargetAgrees(ch: Child, t: Target, log: Option<seq<Payload>>)
    requires Agrees(ch, log)
    ensures Agrees(ch.(target := t), log)
  {
    var r := ch.(target := t);
    assert forall n: nat :: Has(r, n) ==> Has(ch, n) && ValueAt(r, n) == ValueAt(ch, n);
  }

  /** Only the target changes. */
  lemma RetargetKeeps(e: Endpoint, peer: Endpoint, c: u64, t: Target)
    requires SenderInv(e) && ReceiverInv(e, peer) && c in e.children
    ensures var f := SetChild(e, c, e.children[c].(target := t));
            SenderInv(f) && ReceiverInv(f, peer) && Grows(e, f) && NothingNew(e, f)
  {
    hide SenderInv, ReceiverInv, Grows;
    ChildAgrees(e, peer, c);
    RetargetAgrees(e.children[c], t, Expected(peer, c));
    ChildStep(e, peer, c, e.children[c].(target := t));
  }

  lemma CloseChannelKeeps(e: Endpoint, peer: Endpoint, c: u64)
    requires SenderInv(e) && ReceiverInv(e, peer)
    ensures var f := CloseChannel(e, c);
            SenderInv(f) && ReceiverInv(f, peer) && Grows(e, f) && NothingNew(e, f)
  {
    hide SenderInv, ReceiverInv, Grows, HasNumber;
    var g := GetChild(e, c);
    GetChildKeeps(e, peer, c);
    RetargetKeeps(g, peer, c, if g.children[c].target.Open? then Closed else g.children[c].target);
    GrowsTransitive(e, g, CloseChannel(e, c));
  }

  /** A genuine packet is placed where the sender's log has it, or is beyond the
      window and aborts the process. */
  lemma PlaceKeeps(e: Endpoint, peer: Endpoint, c: u64, n: u64, data: Payload)
    requires SenderInv(e) && ReceiverInv(e, peer) && c in e.children && n < TWO63
    requires var log := Expected(peer, c); log.Some? ==> n < |log.value| && log.value[n] == data
    requires Place(e.children[c], n, data).Some?
    ensures var f := SetChild(e, c, Place(e.children[c], n, data).value);
            && SenderInv(f) && ReceiverInv(f, peer) && Grows(e, f) && HasNumber(f, c, n)
            && (forall d: u64, m: nat :: HasNumber(f, d, m) ==> HasNumber(e, d, m) || (d == c && m == n))
  {
    hide SenderInv, ReceiverInv, Grows, Place, Expected;
    var ch := e.children[c];
    ChildAgrees(e, peer, c);
    PlaceRefines(ch, n, data);
    var r := Place(ch, n, data).value;
    PlacedAgrees(ch, r, Expected(peer, c), n);
    ChildStep(e, peer, c, r);
  }

  lemma PlacedAgrees(ch: Child, r: Child, log: Option<seq<Payload>>, n: nat)
    requires Agrees(ch, log) && BufferInv(r) && Has(r, n) && n < TWO63
    requires log.Some? ==> n < |log.value| && (!Has(ch, n) ==> ValueAt(r, n) == log.value[n])
    requires forall m: nat :: m != n ==> (Has(r, m) <==> Has(ch, m))
    requires forall m: nat :: Has(ch, m) ==> Has(r, m) && ValueAt(r, m) == ValueAt(ch, m)
    ensures Agrees(r, log)
  {
    hide Has, ValueAt, BufferInv;
  }

  lemma GenuineLog(peer: Endpoint, p: Payload)
    requires Genuine(peer, p) && PacketId(p) != CLOSE_CHANNEL
    ensures var log := Expected(peer, PacketId(p));
            PacketSeq(p) < TWO63 && (log.Some? ==> InLog(log.value, p))
  {
    hide PacketId, PacketSeq, PacketData;
  }

  lemma DispatchKeeps(e: Endpoint, peer: Endpoint, p: Payload)
    requires SenderInv(e) && ReceiverInv(e, peer) && Genuine(peer, p)
    ensures var f := Dispatch(e, p);
            && SenderInv(f) && ReceiverInv(f, peer) && Grows(e, f)
            && (!f.aborted ==> Placed(f, p))
            && (forall d: u64, m: nat :: HasNumber(f, d, m) ==> HasNumber(e, d, m) || IsPacket(p, d, m))
            && f == e.(children := f.children, aborted := f.aborted)
  {
    hide SenderInv, ReceiverInv, Grows, Genuine, Place, Has, PacketId, PacketSeq, PacketData, Expected;
    PacketLong(peer, p);
    var f := Dispatch(e, p);
    if PacketId(p) == CLOSE_CHANNEL {
      CloseChannelKeeps(e, peer, PacketSeq(p));
    } else {
      var c := PacketId(p);
      var g := GetChild(e, c);
      GetChildKeeps(e, peer, c);
      GenuineLog(peer, p);
      if Place(g.children[c], PacketSeq(p), PacketData(p)).Some? {
        PlaceKeeps(g, peer, c, PacketSeq(p), PacketData(p));
        GrowsTransitive(e, g, f);
      } else {
        AbortKeeps(e, g, peer);
      }
    }
  }

  lemma PacketLong(e: Endpoint, p: Payload)
    requires Genuine(e, p)
    ensures TRANSPORT_HEADER <= |p| <= MULTILINK_MTU
  {
  }

  lemma AbortKeeps(e: Endpoint, g: Endpoint, peer: Endpoint)
    requires SenderInv(g) && ReceiverInv(g, peer) && Grows(e, g)
    ensures var f := g.(aborted := true);
            SenderInv(f) && ReceiverInv(f, peer) && Grows(e, f) && NothingNew(g, f)
  {
    hide EncodePacket, PacketId, PacketSeq, PacketData, Agrees, Has, Genuine, Numbered;
    var f := g.(aborted := true);
    assert forall c: u64 :: LogOf(f, c) == LogOf(g, c);
    SameLog(g, f);
  }

  // ---------------------------------------------------------------- delivery

  /** A packet waiting at a link end was accepted by the peer, so it is genuine. */
  lemma WaitingGenuine(s: System, side: Side, i: nat)
    requires Inv(s) && i < |s.cables| && s.cables[i].At(side).link.waiting.Some?
    ensures Genuine(s.End(Other(side)), s.cables[i].At(side).link.waiting.value)
  {
    hide PairInv, Payloads, Genuine, Numbered, ReceiverInv, Custody, Placed;
    var a, b := s.cables[i].At(Other(side)).link, s.cables[i].At(side).link;
    assert SideInv(s, Other(side));
    InOrder(a, b);
    var arrived := b.returned + b.WaitingSeq();
    assert b.waiting.value == arrived[|b.returned|] == Payloads(a.Log())[|b.returned|];
    assert b.waiting.value in s.End(Other(side)).accepted;
  }

  lemma PortTake(f: Endpoint, p: Port, now: u64)
    requires PortInv(f, p) && p.status.Up? && Enabled(p.link, TakePacket, now)
    requires !f.aborted ==> Placed(f, p.link.waiting.value)
    ensures var r := p.(link := Next(p.link, TakePacket, now));
            && PortInv(f, r) && Held(r) == Held(p)
            && r.link.returned == p.link.returned + [p.link.waiting.value]
  {
    hide Placed, Payloads;
  }

  lemma FromPacket(e: Endpoint, f: Endpoint, link: LinkState, p: Payload)
    requires forall c: u64, n: nat :: HasNumber(f, c, n) ==> HasNumber(e, c, n) || IsPacket(p, c, n)
    requires p in link.returned
    ensures NewFrom(e, f, link)
  {
    hide HasNumber, IsPacket;
  }

  lemma DeliverKeeps(s: System, side: Side, i: nat, now: u64)
    requires Inv(s) && CanStep(s, side, Deliver(i, now))
    ensures Inv(Step(s, side, Deliver(i, now)))
  {
    hide OriginInv, NewFrom, PairInv, SenderInv, ReceiverInv, PortInv, Custody, Grows, Held, Dispatch, Next, Genuine, Placed;
    var me, p, q := s.End(side), s.cables[i].At(side), s.cables[i].At(Other(side));
    assert SideInv(s, side) && SideInv(s, Other(side));
    WaitingGenuine(s, side, i);
    DispatchKeeps(me, s.End(Other(side)), p.link.waiting.value);
    var f := Dispatch(me, p.link.waiting.value);
    PortGrows(me, f, p);
    PortTake(f, p, now);
    PairStep(p.link, q.link, TakePacket, now);
    FromPacket(me, f, Next(p.link, TakePacket, now), p.link.waiting.value);
    PortStep(s, side, f, i, p.(link := Next(p.link, TakePacket, now)));
  }

  // ---------------------------------------------------------- other actions

  /** Anything accepted is genuine and leaves the channels' other facts alone. */
  lemma AcceptKeeps(e: Endpoint, p: Payload)
    requires SenderInv(e) && Genuine(e, p) && |e.queue| < QUEUE_SIZE
    ensures var f := Accept(e, p);
            && SenderInv(f)
            && multiset(f.accepted) + multiset(e.queue) == multiset(e.accepted) + multiset(f.queue)
  {
    hide EncodePacket, PacketId, PacketSeq, PacketData, Genuine, Numbered;
    PacketLong(e, p);
    var f := Accept(e, p);
    assert forall c: u64 :: LogOf(f, c) == LogOf(e, c);
    SameLog(e, f);
    assert multiset(f.accepted) == multiset(e.accepted) + multiset{p};
    assert multiset(f.queue) == multiset(e.queue) + multiset{p};
  }

  lemma SpecialKeepsSender(e: Endpoint)
    requires SenderInv(e) && e.specials != [] && |e.queue| < QUEUE_SIZE
    ensures var f := AfterSpecial(e);
            && SenderInv(f)
            && multiset(f.accepted) + multiset(e.queue) == multiset(e.accepted) + multiset(f.queue)
  {
    hide SenderInv, Genuine, EncodePacket, Accept;
    var g := e.(specials := e.specials[1..]);
    SpecialsOnly(e, g);
    ClosePacketGenuine(g, e.specials[0]);
    AcceptKeeps(g, EncodePacket(CLOSE_CHANNEL, e.specials[0], []));
  }

  /** Nothing of what e has received or read changes. */
  lemma SameChildrenKeep(e: Endpoint, f: Endpoint, peer: Endpoint)
    requires ReceiverInv(e, peer) && f.children == e.children && e.accepted <= f.accepted && f.log == e.log
    requires f.lastSeq == e.lastSeq && f.aborted == e.aborted
    requires f.restarted == e.restarted && f.forgotten == e.forgotten
    ensures ReceiverInv(f, peer) && Grows(e, f) && NothingNew(e, f)
  {
    hide Agrees, Has;
  }

  lemma SpecialsOnly(e: Endpoint, g: Endpoint)
    requires SenderInv(e) && g == e.(specials := g.specials)
    ensures SenderInv(g)
  {
    hide EncodePacket, PacketId, PacketSeq, PacketData, Genuine, Numbered;
    assert forall c: u64 :: LogOf(g, c) == LogOf(e, c);
    SameLog(e, g);
  }

  lemma ClosePacketGenuine(e: Endpoint, c: u64)
    ensures Genuine(e, EncodePacket(CLOSE_CHANNEL, c, []))
  {
    PacketRoundTrip(CLOSE_CHANNEL, c, []);
  }

  // ------------------------------------------------------------------ reading

  /** The channels of f are those of e, but for channel c, which has counted one
      more packet or was restarted before. */
  ghost predicate Counted(e: Endpoint, f: Endpoint, c: u64, n: u64) {
    && f == e.(children := f.children, orphans := f.orphans)
    && f.children.Keys == e.children.Keys
    && (forall d :: d in e.children && d != c ==> f.children[d].lastSent == e.children[d].lastSent)
    && (forall o :: o in f.orphans && o.id !in f.restarted ==> o.child.target.Closed?)
    && (c !in e.restarted ==> c in e.children && n == e.children[c].lastSent && f.children[c].lastSent == n + 1)
  }

  lemma LogUnchanged(e: Endpoint, g: Endpoint)
    requires g.log == e.log
    ensures forall d: u64 :: LogOf(g, d) == LogOf(e, d)
  {
  }

  lemma LogGrows(e: Endpoint, c: u64, n: u64, data: Payload)
    requires |e.queue| < QUEUE_SIZE && |data| <= MAX_DATA
    ensures var f := SendNumbered(e, c, n, data);
            && LogOf(f, c) == LogOf(e, c) + [data]
            && (forall d: u64 :: d != c ==> LogOf(f, d) == LogOf(e, d))
  {
    hide EncodePacket;
  }

  /** Reading a packet from a target and accepting it under the next number. */
  lemma SendKeepsSender(e: Endpoint, g: Endpoint, c: u64, n: u64, data: Payload)
    requires SenderInv(e) && Counted(e, g, c, n)
    requires |e.queue| < QUEUE_SIZE && |data| <= MAX_DATA && n < TWO63
    ensures var f := SendNumbered(g, c, n, data);
            && SenderInv(f)
            && multiset(f.accepted) + multiset(e.queue) == multiset(e.accepted) + multiset(f.queue)
  {
    hide EncodePacket, PacketId, PacketSeq, PacketData, LogOf;
    var p := EncodePacket(c, n, data);
    var f := SendNumbered(g, c, n, data);
    LogGrows(g, c, n, data);
    LogUnchanged(e, g);
    PacketRoundTrip(c, n, data);
    assert c !in e.restarted ==> Numbered(e, c);
    assert forall q :: Genuine(e, q) ==> Genuine(f, q);
    assert Genuine(f, p);
    assert forall d: u64 :: d != c && Numbered(e, d) ==> Numbered(f, d);
    assert c !in e.restarted ==> Numbered(f, c);
    assert multiset(f.accepted) == multiset(e.accepted) + multiset{p};
    assert multiset(f.queue) == multiset(e.queue) + multiset{p};
  }

  lemma ReadKeepsSender(e: Endpoint, c: u64, data: Payload)
    requires SenderInv(e) && c in e.children
    requires |e.queue| < QUEUE_SIZE && |data| <= MAX_DATA && e.children[c].lastSent < TWO63
    ensures var f := AfterRead(e, c, data);
            && SenderInv(f)
            && multiset(f.accepted) + multiset(e.queue) == multiset(e.accepted) + multiset(f.queue)
  {
    hide EncodePacket, Genuine, Numbered, SendNumbered;
    SendKeepsSender(e, SetChild(e, c, CountSent(e.children[c])), c, e.children[c].lastSent, data);
  }

  /** Only a restarted channel has a replaced target that still reads. */
  lemma OrphanReadKeepsSender(e: Endpoint, k: nat, data: Payload)
    requires SenderInv(e) && k < |e.orphans| && e.orphans[k].child.target.Open?
    requires |e.queue| < QUEUE_SIZE && |data| <= MAX_DATA && e.orphans[k].child.lastSent < TWO63
    ensures var f := AfterOrphanRead(e, k, data);
            && SenderInv(f)
            && multiset(f.accepted) + multiset(e.queue) == multiset(e.accepted) + multiset(f.queue)
  {
    hide EncodePacket, Genuine, Numbered, SendNumbered;
    var o := e.orphans[k];
    assert o in e.orphans;
    SendKeepsSender(e, SetOrphan(e, k, CountSent(o.child)), o.id, o.child.lastSent, data);
  }

  lemma SendKeepsReceiver(e: Endpoint, g: Endpoint, peer: Endpoint, c: u64, n: u64, data: Payload)
    requires ReceiverInv(e, peer) && |e.queue| < QUEUE_SIZE && |data| <= MAX_DATA
    requires g == e.(children := g.children, orphans := g.orphans) && g.children.Keys == e.children.Keys
    requires forall d :: d in e.children ==> g.children[d] == e.children[d].(lastSent := g.children[d].lastSent)
    ensures var f := SendNumbered(g, c, n, data);
            ReceiverInv(f, peer) && Grows(e, f) && NothingNew(e, f)
  {
    hide EncodePacket, LogOf;
    LogGrows(g, c, n, data);
    LogUnchanged(e, g);
    forall d | d in e.children
      ensures Agrees(g.children[d], Expected(peer, d))
    {
      assert Agrees(e.children[d], Expected(peer, d));
      CountAgrees(e.children[d], g.children[d].lastSent, Expected(peer, d));
    }
  }

  lemma CountAgrees(ch: Child, n: u64, log: Option<seq<Payload>>)
    requires Agrees(ch, log)
    ensures Agrees(ch.(lastSent := n), log)
  {
    var r := ch.(lastSent := n);
    assert forall n: nat :: Has(r, n) ==> Has(ch, n) && ValueAt(r, n) == ValueAt(ch, n);
  }

  // --------------------------------------------------- forwarding and targets

  lemma ForwardKeepsEnd(e: Endpoint, peer: Endpoint, c: u64)
    requires SenderInv(e) && ReceiverInv(e, peer) && c in e.children && CanForward(e.children[c])
    ensures var f := SetChild(e, c, Forward(e.children[c]));
            SenderInv(f) && ReceiverInv(f, peer) && Grows(e, f) && NothingNew(e, f)
  {
    hide SenderInv, ReceiverInv, Grows, Expected;
    var ch := e.children[c];
    ChildAgrees(e, peer, c);
    assert Has(ch, |ch.forwarded|);
    ForwardRefines(ch);
    ForwardAgrees(ch, Expected(peer, c));
    ChildStep(e, peer, c, Forward(ch));
  }

  lemma ForwardAgrees(ch: Child, log: Option<seq<Payload>>)
    requires Agrees(ch, log) && CanForward(ch) && BufferInv(Forward(ch))
    requires forall m: nat :: Has(Forward(ch), m) <==> Has(ch, m)
    requires forall m: nat :: Has(ch, m) ==> ValueAt(Forward(ch), m) == ValueAt(ch, m)
    ensures Agrees(Forward(ch), log)
  {
    hide Has, ValueAt, BufferInv;
  }

  /** Replacing a channel keeps what is known of all channels, and marks the ones of
      which less is known from now on. */
  lemma ReplaceKeepsSender(e: Endpoint, c: u64)
    requires SenderInv(e)
    ensures SenderInv(Replaced(e, c))
  {
    hide EncodePacket, Genuine, LogOf;
    var f := Replaced(e, c);
    LogUnchanged(e, f);
    SameLog(e, f);
    assert forall d: u64 :: d !in f.restarted && Numbered(e, d) ==> Numbered(f, d);
  }

  lemma ReplaceKeepsReceiver(e: Endpoint, peer: Endpoint, c: u64)
    requires ReceiverInv(e, peer)
    ensures var f := Replaced(e, c);
            ReceiverInv(f, peer) && Grows(e, f) && NothingNew(e, f)
  {
    hide Expected, Agrees, LogOf;
    var f := Replaced(e, c);
    FreshAgrees(Expected(peer, c));
    LogUnchanged(e, f);
  }

  /** Steps of a replaced channel that read nothing. */
  lemma OrphanKeeps(e: Endpoint, peer: Endpoint, f: Endpoint)
    requires SenderInv(e) && ReceiverInv(e, peer)
    requires f == e.(orphans := f.orphans, specials := f.specials)
    requires forall o :: o in f.orphans && o.id !in f.restarted ==> o.child.target.Closed?
    ensures SenderInv(f) && ReceiverInv(f, peer) && Grows(e, f) && NothingNew(e, f)
  {
    hide EncodePacket, Agrees, Genuine, Numbered, Has, LogOf;
    LogUnchanged(e, f);
    SameLog(e, f);
  }

  /** A channel that is not restarted has only closed ones before it. */
  lemma OrphanClosed(e: Endpoint, k: nat, ch: Child)
    requires SenderInv(e) && k < |e.orphans|
    requires var was := e.orphans[k].child.target; was.Pending? || ch.target == was || ch.target.Closed?
    ensures forall o :: o in SetOrphan(e, k, ch).orphans && o.id !in e.restarted ==> o.child.target.Closed?
  {
    hide Genuine, Numbered;
    assert e.orphans[k] in e.orphans;
  }

  /** What a turn of Transport keeps. */
  ghost predicate KeepsEnd(e: Endpoint, f: Endpoint, peer: Endpoint) {
    && SenderInv(f) && ReceiverInv(f, peer) && Grows(e, f) && NothingNew(e, f)
    && multiset(f.accepted) + multiset(e.queue) == multiset(e.accepted) + multiset(f.queue)
  }

  lemma SpecialTurn(e: Endpoint, peer: Endpoint)
    requires SenderInv(e) && ReceiverInv(e, peer) && CanTurn(e, SendSpecial)
    ensures KeepsEnd(e, AfterSpecial(e), peer)
  {
    hide SenderInv, ReceiverInv, Grows, NothingNew, EncodePacket;
    SpecialKeepsSender(e);
    SameChildrenKeep(e, AfterSpecial(e), peer);
  }

  lemma ReadTurn(e: Endpoint, peer: Endpoint, c: u64, data: Payload)
    requires SenderInv(e) && ReceiverInv(e, peer) && CanTurn(e, ReadFrom(c, data))
    ensures KeepsEnd(e, AfterRead(e, c, data), peer)
  {
    hide SenderInv, ReceiverInv, Grows, NothingNew, SendNumbered;
    ReadKeepsSender(e, c, data);
    SendKeepsReceiver(e, SetChild(e, c, CountSent(e.children[c])), peer, c, e.children[c].lastSent, data);
  }

  lemma OrphanReadTurn(e: Endpoint, peer: Endpoint, k: nat, data: Payload)
    requires SenderInv(e) && ReceiverInv(e, peer) && CanTurn(e, ReadOrphan(k, data))
    ensures KeepsEnd(e, AfterOrphanRead(e, k, data), peer)
  {
    hide SenderInv, ReceiverInv, Grows, NothingNew, SendNumbered;
    var o := e.orphans[k];
    OrphanReadKeepsSender(e, k, data);
    SendKeepsReceiver(e, SetOrphan(e, k, CountSent(o.child)), peer, o.id, o.child.lastSent, data);
  }

  lemma FailTurn(e: Endpoint, peer: Endpoint, c: u64)
    requires SenderInv(e) && ReceiverInv(e, peer) && c in e.children
    ensures KeepsEnd(e, AfterTurn(e, FailTarget(c)), peer)
  {
    hide SenderInv, ReceiverInv, Grows, NothingNew;
    var g := SetChild(e, c, e.children[c].(target := Closed));
    var f := g.(specials := e.specials + [c]);
    RetargetKeeps(e, peer, c, Closed);
    SpecialsOnly(g, f);
    SameChildrenKeep(g, f, peer);
    GrowsTransitive(e, g, f);
    NothingNewTransitive(e, g, f);
  }

  lemma OrphanTurn(e: Endpoint, peer: Endpoint, turn: Turn)
    requires SenderInv(e) && ReceiverInv(e, peer) && CanTurn(e, turn)
    requires turn.OpenOrphan? || turn.FailOrphan? || turn.ForwardOrphan?
    ensures KeepsEnd(e, AfterTurn(e, turn), peer)
  {
    hide SenderInv, ReceiverInv, Grows, NothingNew;
    var f := AfterTurn(e, turn);
    OrphanClosed(e, turn.k, f.orphans[turn.k].child);
    OrphanKeeps(e, peer, f);
  }

  /** Every turn of Transport keeps what is known of its endpoint. */
  lemma TurnKeepsEnd(e: Endpoint, peer: Endpoint, turn: Turn)
    requires SenderInv(e) && ReceiverInv(e, peer) && CanTurn(e, turn)
    ensures KeepsEnd(e, AfterTurn(e, turn), peer)
  {
    hide SenderInv, ReceiverInv, Grows, NothingNew, AfterSpecial, SendNumbered;
    match turn {
      case AddTarget(c) =>
        ReplaceKeepsSender(e, c);
        ReplaceKeepsReceiver(e, peer, c);
      case OpenTarget(c) => RetargetKeeps(e, peer, c, Open);
      case FailTarget(c) => FailTurn(e, peer, c);
      case ReadFrom(c, data) => ReadTurn(e, peer, c, data);
      case SendSpecial => SpecialTurn(e, peer);
      case ForwardTo(c) => ForwardKeepsEnd(e, peer, c);
      case ReadOrphan(k, data) => OrphanReadTurn(e, peer, k, data);
      case _ => OrphanTurn(e, peer, turn);
    }
  }

  lemma TurnKeeps(s: System, side: Side, turn: Turn)
    requires Inv(s) && CanStep(s, side, AtTransport(turn))
    ensures Inv(Step(s, side, AtTransport(turn)))
  {
    hide SenderInv, ReceiverInv, Grows, NothingNew, AfterTurn, CanTurn, CustodyInv, CablesInv, OriginInv;
    assert SideInv(s, side);
    TurnKeepsEnd(s.End(side), s.End(Other(side)), turn);
    EndStep(s, side, AfterTurn(s.End(side), turn));
  }

  lemma NothingNewTransitive(e: Endpoint, f: Endpoint, g: Endpoint)
    requires NothingNew(e, f) && NothingNew(f, g)
    ensures NothingNew(e, g)
  {
    hide HasNumber;
  }

  lemma NewCableKeeps(s: System)
    requires Inv(s)
    ensures Inv(s.(cables := s.cables + [Cable(FreshPort, FreshPort)]))
  {
    hide PairInv, SenderInv, ReceiverInv, Custody, Placed, HasNumber, Returned, CameIn;
    var t := s.(cables := s.cables + [Cable(FreshPort, FreshPort)]);
    assert SideInv(s, Left) && SideInv(s, Right);
    FreshPair();
    assert Payloads(Fresh.Log()) == [];
    CustodySnoc(s.cables, Cable(FreshPort, FreshPort), Left);
    CustodySnoc(s.cables, Cable(FreshPort, FreshPort), Right);
    OriginGrows(s, t, Left);
    OriginGrows(s, t, Right);
    assert SideInv(t, Left) && SideInv(t, Right);
  }

  // ------------------------------------------------------------------ result

  lemma InitialInv()
    ensures Inv(Initial)
  {
  }

  /** Every step of either endpoint keeps the system invariant. */
  lemma StepKeepsInv(s: System, side: Side, a: Action)
    requires Inv(s) && CanStep(s, side, a)
    ensures Inv(Step(s, side, a))
  {
    hide Inv, CanStep, Step;
    match a {
      case NewCable => NewCableStep(s, side);
      case AddLink(i) => AddLinkKeeps(s, side, i);
      case LinkEvent(i, e, now) => LinkEventKeeps(s, side, i, e, now);
      case Assign(_, _, _, _) => AssignKeeps(s, side, a);
      case SendOne(i, now) => SendOneKeeps(s, side, i, now);
      case RemoveLink(i) => RemoveLinkKeeps(s, side, i);
      case Deliver(i, now) => DeliverKeeps(s, side, i, now);
      case AtTransport(turn) => TurnKeeps(s, side, turn);
    }
  }

  lemma NewCableStep(s: System, side: Side)
    requires Inv(s) && CanStep(s, side, NewCable)
    ensures Inv(Step(s, side, NewCable))
  {
    NewCableKeeps(s);
  }
}
