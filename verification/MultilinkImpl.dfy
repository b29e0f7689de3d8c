/** Multilink as the object it is: a shared queue, one own queue per link, and the
    loops that assign packets to links and hand them over. Its links appear as
    the values that LinkImpl.Link is proved to implement. */
module MultilinkImpl {
  import opened Bytes
  import opened Frames
  import opened LinkSpec
  import opened LinkInvariants
  import opened Scheduling
  import opened Heap
  import SystemSpec

  const QUEUE_SIZE: nat := SystemSpec.QUEUE_SIZE

  // ------------------------------------------------------------ the scheduler

  /** The scheduler's vectors after the choices made so far. */
  ghost predicate SchedInv(views: seq<LinkView>, base: seq<nat>, q: seq<Payload>, choice: seq<nat>,
                           est: seq<nat>, keys: seq<int>, L: seq<nat>)
  {
    && Usable(views) && |base| == |views| == |est| == |keys| && |choice| <= |q|
    && (forall i :: 0 <= i < |views| ==> est[i] == Load(base, q, choice, i) && keys[i] == Key(views[i], est[i]))
    && IsPerm(L, |keys|) && IsHeap(L, |keys|, keys)
    && Greedy(views, base, q, choice)
  }

  /** The key of the popped link may change: the heap before it does not see it. */
  lemma RekeyPopped(L: seq<nat>, keys: seq<int>, link: nat, k: int)
    requires IsPerm(L, |keys|) && |L| >= 1 && link == L[|L| - 1] && IsHeap(L, |L| - 1, keys)
    ensures IsHeap(L, |L| - 1, keys[link := k])
  {
    var m, rekeyed := |L| - 1, keys[link := k];
    forall i | 0 < i < m
      ensures InOrder(L, rekeyed, i)
    {
      assert InOrder(L, keys, i);
    }
  }

  lemma TopIsBest(L: seq<nat>, keys: seq<int>, j: nat)
    requires IsPerm(L, |keys|) && IsHeap(L, |keys|, keys) && j < |keys|
    ensures keys[L[0]] <= keys[j]
  {
    assert j in L;
    var i :| 0 <= i < |L| && L[i] == j;
    TopIsLeast(L, |keys|, keys, i);
  }

  lemma ScheduleStep(views: seq<LinkView>, base: seq<nat>, q: seq<Payload>, choice: seq<nat>,
                     est: seq<nat>, keys: seq<int>, L: seq<nat>, link: nat)
    requires SchedInv(views, base, q, choice, est, keys, L)
    requires |choice| < |q| && |views| > 0 && link == L[0]
    ensures link < |views|
    ensures var load := est[link] + |q[|choice|]|;
            && (forall i :: 0 <= i < |views| ==>
                  && est[link := load][i] == Load(base, q, choice + [link], i)
                  && keys[link := Key(views[link], load)][i] == Key(views[i], est[link := load][i]))
            && Greedy(views, base, q, choice + [link])
  {
    hide Load, Key, IsHeap;
    forall j | 0 <= j < |views|
      ensures Key(views[link], Load(base, q, choice, link)) <= Key(views[j], Load(base, q, choice, j))
    {
      TopIsBest(L, keys, j);
    }
    GreedySnoc(views, base, q, choice, link);
    forall i | 0 <= i < |views|
      ensures Load(base, q, choice + [link], i) == est[i] + (if link == i then |q[|choice|]| else 0)
    {
      LoadSnoc(base, q, choice, link, i);
    }
  }

  /** Pop the best link, charge it with the next packet, push it back. */
  method NextLink(views: seq<LinkView>, ghost base: seq<nat>, q: seq<Payload>, choice: seq<nat>,
                  est: seq<nat>, keys: seq<int>, L: seq<nat>)
    returns (link: nat, est': seq<nat>, keys': seq<int>, L': seq<nat>)
    requires SchedInv(views, base, q, choice, est, keys, L)
    requires |choice| < |q| && |views| > 0
    ensures link < |views| && SchedInv(views, base, q, choice + [link], est', keys', L')
  {
    hide Load, Key, Greedy, InOrder;
    link := L[0];
    ScheduleStep(views, base, q, choice, est, keys, L, link);
    L' := PopHeap(L, keys);
    est' := est[link := est[link] + |q[|choice|]|];
    RekeyPopped(L', keys, link, Key(views[link], est'[link]));
    keys' := keys[link := Key(views[link], est'[link])];
    L' := SiftUp(L', |L'|, keys');
  }

  /** The vectors the scheduler starts from. */
  method StartSchedule(views: seq<LinkView>, base: seq<nat>, ghost q: seq<Payload>) returns (keys: seq<int>, L: seq<nat>)
    requires Usable(views) && |base| == |views|
    ensures SchedInv(views, base, q, [], base, keys, L)
  {
    hide Key;
    keys := [];
    for i := 0 to |views|
      invariant |keys| == i && forall k :: 0 <= k < i ==> keys[k] == Key(views[k], base[k])
    {
      keys := keys + [Key(views[i], base[i])];
    }
    L := MakeHeap(keys);
  }

  ghost predicate AllSmall(ps: seq<Payload>) {
    forall i :: 0 <= i < |ps| ==> |ps[i]| <= MULTILINK_MTU
  }

  /** What asking the layer above, and then the scheduler, makes of the queue, of what
      the layer above has, and of the own queue of link i. */
  ghost predicate Filled(queue: seq<Payload>, up: seq<Payload>, own: seq<Payload>, i: nat, n: nat, choice: seq<nat>,
                         queue': seq<Payload>, up': seq<Payload>, own': seq<Payload>)
  {
    && n == (if |queue| >= 30 then 0 else if |up| <= 40 - |queue| then |up| else 40 - |queue|)
    && var all := queue + up[..n];
       && |choice| == (if own != [] then 0 else Drained(|all|))
       && queue' == all[|choice|..] && up' == up[n..] && own' == own + Picked(all, choice, i)
  }

  /** The queue once n packets have joined it. */
  function Joined(queue: seq<Payload>, up: seq<Payload>, n: nat): seq<Payload>
    requires n <= |up|
  {
    queue + up[..n]
  }

  /** What link_send_ready makes of them, and of the last number used: if the link
      accepts and has, or is assigned, a packet, its first one is sent and a second
      turn follows, which uses a number more if it has a packet to be refused. */
  ghost predicate TwoTurns(queue: seq<Payload>, up: seq<Payload>, own: seq<Payload>, lastSeq: nat, accepts: bool, i: nat,
                           n: nat, choice: seq<nat>, m: nat, later: seq<nat>, sent: seq<Payload>,
                           queue': seq<Payload>, up': seq<Payload>, own': seq<Payload>, lastSeq': nat)
  {
    && n == (if |queue| >= 30 then 0 else if |up| <= 40 - |queue| then |up| else 40 - |queue|)
    && var all := Joined(queue, up, n);
       && |choice| == (if own != [] then 0 else Drained(|all|))
       && var mine := own + Picked(all, choice, i);
          if mine != [] && accepts
          then && sent == [mine[0]] && Filled(all[|choice|..], up[n..], mine[1..], i, m, later, queue', up', own')
               && lastSeq' == lastSeq + (if own' == [] then 1 else 2)
          else && sent == [] && queue' == all[|choice|..] && up' == up[n..] && own' == mine
               && lastSeq' == lastSeq + (if mine == [] then 0 else 1)
  }

  /** How many packets of a queue of n are assigned at once. */
  function Drained(n: nat): (k: nat)
    ensures k <= n && (n > 0 ==> k > 0)
  {
    n - SystemSpec.DrainTo(n)
  }

  /** Exactly one packet joined the log. */
  predicate SentOne(before: LinkState, after: LinkState) {
    |after.Log()| == |before.Log()| + 1 && before.Log() <= after.Log()
  }

  class Multilink {
    var queue: seq<Payload>
    var own: seq<seq<Payload>>   // assigned_packets, by position in links
    var links: seq<LinkState>
    var mbps: seq<real>          // bandwidth_mbps() of each link
    var lastSeq: u64
    var upstream: seq<Payload>   // what the layer above would send when asked

    ghost predicate Valid()
      reads this
    {
      && |own| == |links| == |mbps|
      && (forall i :: 0 <= i < |links| ==>
            mbps[i] >= MIN_MBPS && links[i].inflightBytes >= 0 && links[i].lastSeqSent <= lastSeq && AllSmall(own[i]))
      && AllSmall(queue) && AllSmall(upstream)
    }

    /** Everything waiting on this side of the links, with multiplicity. */
    ghost function Backlog(): multiset<Payload>
      reads this
    {
      multiset(upstream) + multiset(queue) + Bag(own)
    }

    function Views(): (vs: seq<LinkView>)
      reads this
      requires Valid()
      ensures |vs| == |links| && Usable(vs)
    {
      seq(|links|, i requires 0 <= i < |links| reads this requires Valid() =>
        LinkView(links[i].rtt as real, mbps[i]))
    }

    ghost function Base(): (b: seq<nat>)
      reads this
      requires Valid()
      ensures |b| == |links|
    {
      seq(|links|, i requires 0 <= i < |links| reads this requires Valid() =>
        links[i].inflightBytes + TotalBytes(own[i]))
    }

    constructor ()
      ensures Valid() && queue == [] && links == [] && lastSeq == 0 && upstream == []
    {
      queue, own, links, mbps, lastSeq, upstream := [], [], [], [], 0, [];
    }

    predicate IsSendReady()
      reads this
    {
      |queue| < QUEUE_SIZE
    }

    /** send_with_offset; its two assertions are the preconditions. */
    method SendWithOffset(data: Payload)
      requires Valid() && IsSendReady() && |data| <= MULTILINK_MTU
      modifies this`queue
      ensures Valid() && queue == old(queue) + [data]
    {
      queue := queue + [data];
    }

    /** The bytes each link already has to send. */
    method EstimateSizes() returns (base: seq<nat>)
      requires Valid()
      ensures base == Base()
      ensures forall i :: 0 <= i < |links| ==> base[i] == links[i].inflightBytes + TotalBytes(own[i])
    {
      base := [];
      for i := 0 to |links|
        invariant |base| == i && forall k :: 0 <= k < i ==> base[k] == links[k].inflightBytes + TotalBytes(own[k])
      {
        var size: nat := links[i].inflightBytes;
        for k := 0 to |own[i]|
          invariant size == links[i].inflightBytes + TotalBytes(own[i][..k])
        {
          assert own[i][..k + 1] == own[i][..k] + [own[i][k]];
          TotalBytesSnoc(own[i][..k], own[i][k]);
          size := size + |own[i][k]|;
        }
        assert own[i][..|own[i]|] == own[i];
        base := base + [size];
      }
    }

    /** assign_links_until: drain the queue to the links, each packet to a link of
        least key, keeping queue order within every own queue. */
    method AssignLinksUntil() returns (choice: seq<nat>)
      requires Valid()
      modifies this`queue, this`own
      ensures Valid()
      ensures |choice| == if links == [] then 0 else Drained(|old(queue)|)
      ensures queue == old(queue)[|choice|..]
      ensures links != [] ==> |queue| == if |old(queue)| <= 25 then 0 else |old(queue)| / 2
      ensures forall k :: 0 <= k < |choice| ==> choice[k] < |links|
      ensures forall i :: 0 <= i < |links| ==> own[i] == old(own)[i] + Picked(old(queue), choice, i)
      ensures Greedy(old(Views()), old(Base()), old(queue), choice)
      ensures Backlog() == old(Backlog())
    {
      hide Greedy, Load, IsPerm, IsHeap, Bag, Key, AllSmall, Picked, Backlog, Views, Base;
      choice := [];
      PickedNone(queue);
      if links == [] {
        GreedyNone(Views(), Base(), queue);
        return;
      }
      var q, views := queue, Views();
      var est := EstimateSizes();
      ghost var base := est;
      var keys, L := StartSchedule(views, est, q);
      var drainTo := SystemSpec.DrainTo(|queue|);
      while |queue| > drainTo
        invariant Valid() && |links| == |views| > 0 && |own| == |old(own)|
        invariant |choice| <= |q| && queue == q[|choice|..] && |queue| >= drainTo
        invariant SchedInv(views, base, q, choice, est, keys, L)
        invariant forall i :: 0 <= i < |own| ==> own[i] == old(own)[i] + Picked(q, choice, i)
        invariant Backlog() == old(Backlog())
        invariant forall k :: 0 <= k < |choice| ==> choice[k] < |links|
      {
        var link;
        link, est, keys, L := NextLink(views, base, q, choice, est, keys, L);
        MovePacket(link);
        AssignStep(old(own), q, choice, link);
        choice := choice + [link];
      }
    }

    /** on_send_ready of the layer above: it sends while the queue takes packets. */
    method OnSendReady() returns (ghost n: nat)
      requires Valid()
      modifies this`queue, this`upstream
      ensures Valid() && Backlog() == old(Backlog())
      ensures n == if |old(queue)| >= 40 then 0
                   else if |old(upstream)| <= 40 - |old(queue)| then |old(upstream)| else 40 - |old(queue)|
      ensures queue == old(queue) + old(upstream)[..n] && upstream == old(upstream)[n..]
    {
      hide Bag, Backlog, AllSmall;
      n := 0;
      while upstream != [] && IsSendReady()
        invariant Valid() && Backlog() == old(Backlog())
        invariant n <= |old(upstream)| && queue == old(queue) + old(upstream)[..n] && upstream == old(upstream)[n..]
        invariant n > 0 ==> |queue| <= QUEUE_SIZE
        decreases |upstream|
      {
        assert old(upstream)[..n + 1] == old(upstream)[..n] + [upstream[0]];
        SendNext();
        n := n + 1;
      }
    }

    /** The layer above sends its next packet. */
    method SendNext()
      requires Valid() && upstream != [] && IsSendReady()
      modifies this`queue, this`upstream
      ensures Valid() && Backlog() == old(Backlog())
      ensures queue == old(queue) + [old(upstream)[0]] && upstream == old(upstream)[1..]
    {
      hide Bag;
      var p := upstream[0];
      assert upstream == [p] + upstream[1..];
      upstream := upstream[1..];
      SendWithOffset(p);
    }

    /** request_packets. */
    method RequestPackets() returns (ghost choice: seq<nat>)
      requires Valid()
      modifies this`queue, this`own
      ensures Valid() && Backlog() == old(Backlog())
      ensures |choice| == if links == [] then 0 else Drained(|old(queue)|)
      ensures queue == old(queue)[|choice|..] && forall k :: 0 <= k < |choice| ==> choice[k] < |links|
      ensures forall k :: 0 <= k < |links| ==> own[k] == old(own)[k] + Picked(old(queue), choice, k)
      ensures Greedy(old(Views()), old(Base()), old(queue), choice)
    {
      hide Greedy, Picked, Bag, AllSmall;
      choice := [];
      if queue != [] {
        choice := AssignLinksUntil();
      } else {
        PickedNone(queue);
        GreedyNone(Views(), Base(), queue);
      }
    }

    /** Ask the layer above for packets, and the scheduler if link i has none. A queue
        below 30 takes what the layer above has, up to 40; what is then assigned is
        the front of the queue and of what joined it. */
    method FillOwn(i: nat) returns (ghost n: nat, ghost choice: seq<nat>)
      requires Valid() && i < |own|
      modifies this`queue, this`own, this`upstream
      ensures Valid() && Backlog() == old(Backlog())
      ensures n == if |old(queue)| >= 30 then 0
                   else if |old(upstream)| <= 40 - |old(queue)| then |old(upstream)| else 40 - |old(queue)|
      ensures upstream == old(upstream)[n..]
      ensures var all := old(queue) + old(upstream)[..n];
              && |choice| == (if old(own)[i] != [] then 0 else Drained(|all|)) && queue == all[|choice|..]
              && (forall k :: 0 <= k < |choice| ==> choice[k] < |links|)
              && (forall k :: 0 <= k < |own| ==> own[k] == old(own)[k] + Picked(all, choice, k))
              && Greedy(old(Views()), old(Base()), all, choice)
    {
      hide Bag, Greedy, Picked, AllSmall, Drained;
      n := 0;
      ghost var views, base := Views(), Base();
      if |queue| < QUEUE_SIZE * 3 / 4 {
        n := OnSendReady();
      }
      ghost var all := queue;
      assert all == old(queue) + old(upstream)[..n];
      assert Views() == views && Base() == base;
      if own[i] == [] {
        choice := RequestPackets();
      } else {
        choice := [];
        PickedNone(all);
        GreedyNone(views, base, all);
      }
    }

    /** The timed-out branch of link_send_ready: what is in flight and what is
        assigned to link i goes back to the shared queue, oldest first. */
    method RemoveLink(i: nat)
      requires Valid() && i < |links| && links[i].timedOut
      requires AllSmall(Payloads(links[i].inflight))
      modifies this`queue, this`own, this`links, this`mbps
      ensures Valid() && |links| == |old(links)| - 1
      ensures queue == old(queue) + Payloads(old(links)[i].inflight) + old(own)[i]
      ensures links == old(links)[..i] + old(links)[i + 1..]
      ensures Backlog() == old(Backlog()) + multiset(Payloads(old(links)[i].inflight))
    {
      hide Bag;
      BagRemove(own, i);
      queue := queue + Payloads(links[i].inflight);
      queue := queue + own[i];
      own := own[..i] + own[i + 1..];
      links := links[..i] + links[i + 1..];
      mbps := mbps[..i] + mbps[i + 1..];
    }

    /** The live branch of link_send_ready: hand packets to link i until it does not
        take one. The first turn takes n packets from the layer above and makes the
        choices `choice`; if the link takes a packet, `sent`, a second turn does the
        same with m and `later`, and finds nothing or is refused, because the packet
        fills the link's send buffer. Every other packet stays where it is accounted
        for; a lone idle link sends the next packet of the layer above. */
    method LinkSendReady(i: nat, now: u64)
      returns (ghost sent: seq<Payload>, ghost n: nat, ghost choice: seq<nat>, ghost m: nat, ghost later: seq<nat>)
      requires Valid() && i < |links| && lastSeq + 2 < TWO64
      modifies this`queue, this`own, this`links, this`lastSeq, this`upstream
      ensures Valid() && |links| == |old(links)|
      ensures forall k :: 0 <= k < |links| && k != i ==> links[k] == old(links)[k]
      ensures TwoTurns(old(queue), old(upstream), old(own)[i], old(lastSeq), SendAccepts(old(links)[i], now), i,
                       n, choice, m, later, sent, queue, upstream, own[i], lastSeq)
      ensures Greedy(old(Views()), old(Base()), Joined(old(queue), old(upstream), n), choice)
      ensures forall k :: 0 <= k < |choice| ==> choice[k] < |links|
      ensures links[i].Log() == old(links)[i].Log() + (if sent == [] then [] else [InFlight(old(lastSeq) + 1, sent[0], now)])
      ensures own[i] == [] || !SendAccepts(links[i], now)
      ensures Backlog() + multiset(Payloads(links[i].Log())) == old(Backlog() + multiset(Payloads(links[i].Log())))
      ensures |sent| <= 1 && |upstream| <= |old(upstream)| && upstream == old(upstream)[|old(upstream)| - |upstream|..]
      ensures |links| == 1 && old(own)[0] == [] && old(queue) == [] && old(upstream) != [] && SendAccepts(old(links)[0], now) ==>
                sent == [old(upstream)[0]]
    {
      hide Bag, Payloads, SendAccepts, Greedy, Picked, AllSmall, SentOne, Backlog, Drained, Views, Base, Filled, TwoTurns, Joined;
      sent, n, choice, m, later := AllTurns(i, now);
      TurnsTake(old(queue), old(upstream), old(own)[i], old(lastSeq), SendAccepts(old(links)[i], now), i,
                n, choice, m, later, sent, queue, upstream, own[i], lastSeq);
    }

    method AllTurns(i: nat, now: u64)
      returns (ghost sent: seq<Payload>, ghost n: nat, ghost choice: seq<nat>, ghost m: nat, ghost later: seq<nat>)
      requires Valid() && i < |links| && lastSeq + 2 < TWO64
      modifies this`queue, this`own, this`links, this`lastSeq, this`upstream
      ensures Valid() && |links| == |old(links)|
      ensures forall k :: 0 <= k < |links| && k != i ==> links[k] == old(links)[k]
      ensures TwoTurns(old(queue), old(upstream), old(own)[i], old(lastSeq), SendAccepts(old(links)[i], now), i,
                       n, choice, m, later, sent, queue, upstream, own[i], lastSeq)
      ensures Greedy(old(Views()), old(Base()), Joined(old(queue), old(upstream), n), choice)
      ensures forall k :: 0 <= k < |choice| ==> choice[k] < |links|
      ensures links[i].Log() == old(links)[i].Log() + (if sent == [] then [] else [InFlight(old(lastSeq) + 1, sent[0], now)])
      ensures own[i] == [] || !SendAccepts(links[i], now)
      ensures Backlog() + multiset(Payloads(links[i].Log())) == old(Backlog() + multiset(Payloads(links[i].Log())))
    {
      hide Bag, Payloads, SendAccepts, Greedy, Picked, AllSmall, SentOne, Backlog, Drained, Views, Base, Filled;
      var again;
      again, n, choice := SendTurn(i, now);
      m, later := 0, [];
      sent := if again then (old(own)[i] + Picked(Joined(old(queue), old(upstream), n), choice, i))[..1] else [];
      if again {
        m, later := LaterTurns(i, now);
      }
    }

    /** The turns after a packet was taken: the link takes no other. */
    method LaterTurns(i: nat, now: u64) returns (ghost m: nat, ghost later: seq<nat>)
      requires Valid() && i < |links| && lastSeq + 1 < TWO64 && !SendAccepts(links[i], now)
      modifies this`queue, this`own, this`links, this`lastSeq, this`upstream
      ensures Valid() && |links| == |old(links)|
      ensures forall k :: 0 <= k < |links| && k != i ==> links[k] == old(links)[k]
      ensures links[i].Log() == old(links)[i].Log()
      ensures Backlog() + multiset(Payloads(links[i].Log())) == old(Backlog() + multiset(Payloads(links[i].Log())))
      ensures own[i] == [] || !SendAccepts(links[i], now)
      ensures Filled(old(queue), old(upstream), old(own)[i], i, m, later, queue, upstream, own[i])
      ensures lastSeq == old(lastSeq) + (if own[i] == [] then 0 else 1)
    {
      hide Bag, Payloads, SendAccepts, Greedy, Picked, AllSmall, SentOne, Backlog, Drained, Views, Base;
      m, later := 0, [];
      var again := true;
      while again
        invariant Valid() && |links| == |old(links)|
        invariant forall k :: 0 <= k < |links| && k != i ==> links[k] == old(links)[k]
        invariant links[i].Log() == old(links)[i].Log()
        invariant Backlog() + multiset(Payloads(links[i].Log())) == old(Backlog() + multiset(Payloads(links[i].Log())))
        invariant if again
                  then && lastSeq == old(lastSeq) && links == old(links)
                       && queue == old(queue) && upstream == old(upstream) && own == old(own)
                  else && (own[i] == [] || !SendAccepts(links[i], now))
                       && Filled(old(queue), old(upstream), old(own)[i], i, m, later, queue, upstream, own[i])
                       && lastSeq == old(lastSeq) + (if own[i] == [] then 0 else 1)
        decreases again
      {
        again, m, later := SendTurn(i, now);
      }
    }

    /** One turn of the loop of link_send_ready. */
    method SendTurn(i: nat, now: u64) returns (again: bool, ghost n: nat, ghost choice: seq<nat>)
      requires Valid() && i < |links| && lastSeq + 1 < TWO64
      modifies this`queue, this`own, this`links, this`lastSeq, this`upstream
      ensures Valid() && |links| == |old(links)| && lastSeq == old(lastSeq) + (if own[i] == [] && !again then 0 else 1)
      ensures forall k :: 0 <= k < |links| && k != i ==> links[k] == old(links)[k]
      ensures Backlog() + multiset(Payloads(links[i].Log())) == old(Backlog() + multiset(Payloads(links[i].Log())))
      ensures again == SentOne(old(links)[i], links[i]) && (!again ==> links[i].Log() == old(links)[i].Log())
      ensures again ==> SendAccepts(old(links)[i], now)
      ensures if again then !SendAccepts(links[i], now) else own[i] == [] || !SendAccepts(links[i], now)
      ensures n == if |old(queue)| >= 30 then 0
                   else if |old(upstream)| <= 40 - |old(queue)| then |old(upstream)| else 40 - |old(queue)|
      ensures upstream == old(upstream)[n..]
      ensures var all := old(queue) + old(upstream)[..n];
              && |choice| == (if old(own)[i] != [] then 0 else Drained(|all|)) && queue == all[|choice|..]
              && (forall k :: 0 <= k < |choice| ==> choice[k] < |links|)
              && Greedy(old(Views()), old(Base()), all, choice)
              && var mine := old(own)[i] + Picked(all, choice, i);
                 && again == (mine != [] && SendAccepts(old(links)[i], now))
                 && own[i] == (if again then mine[1..] else mine)
                 && (again ==> links[i].Log() == old(links)[i].Log() + [InFlight(old(lastSeq) + 1, mine[0], now)])
    {
      hide Bag, Payloads, SendAccepts, SendData, AllSmall, SentOne, Backlog, Greedy, Picked, Drained, Views, Base;
      n, choice := FillOwn(i);
      NoneSent(links[i]);
      if own[i] == [] {
        again := false;
        return;
      }
      again := HandOver(i, now);
    }

    /** link->send(++last_seq, own_queue.front()), popping the packet if it went. */
    method HandOver(i: nat, now: u64) returns (ok: bool)
      requires Valid() && i < |links| && own[i] != [] && lastSeq + 1 < TWO64
      modifies this`own, this`links, this`lastSeq
      ensures Valid() && |links| == |old(links)| && lastSeq == old(lastSeq) + 1
      ensures own == if ok then old(own)[i := old(own)[i][1..]] else old(own)
      ensures ok == SendAccepts(old(links)[i], now) && !SendAccepts(links[i], now)
      ensures links == old(links)[i := SendData(old(links)[i], lastSeq, old(own)[i][0], now)]
      ensures links[i].Log() == if ok then old(links)[i].Log() + [InFlight(lastSeq, old(own)[i][0], now)] else old(links)[i].Log()
      ensures ok == SentOne(old(links)[i], links[i])
      ensures Backlog() + multiset(Payloads(links[i].Log())) == old(Backlog() + multiset(Payloads(links[i].Log())))
    {
      hide Bag, Payloads, SendAccepts, SendData;
      lastSeq := lastSeq + 1;
      var p := own[i][0];
      ok := SendAccepts(links[i], now);
      HandOverEffect(links[i], lastSeq, p, now);
      links := links[i := SendData(links[i], lastSeq, p, now)];
      if ok {
        LogSnoc(old(links)[i].Log(), InFlight(lastSeq, p, now));
        OwnFront(own, i);
        own := own[i := own[i][1..]];
      }
    }

    /** The front packet moves from the shared queue to the own queue of a link. */
    method MovePacket(link: nat)
      requires Valid() && link < |own| && queue != []
      modifies this`queue, this`own
      ensures Valid() && queue == old(queue)[1..]
      ensures own == old(own)[link := old(own)[link] + [old(queue)[0]]]
      ensures Backlog() == old(Backlog())
    {
      hide Bag;
      BagAppend(own, link, queue[0]);
      assert queue == [queue[0]] + queue[1..];
      own := own[link := own[link] + [queue[0]]];
      queue := queue[1..];
    }
  }

  lemma GreedyNone(views: seq<LinkView>, base: seq<nat>, q: seq<Payload>)
    requires Usable(views) && |base| == |views|
    ensures Greedy(views, base, q, [])
  {
  }

  lemma AssignStep(before: seq<seq<Payload>>, q: seq<Payload>, choice: seq<nat>, link: nat)
    requires |choice| < |q|
    ensures forall i :: 0 <= i < |before| ==>
              before[i] + Picked(q, choice + [link], i) ==
              before[i] + Picked(q, choice, i) + (if i == link then [q[|choice|]] else [])
  {
    hide Picked;
    forall i | 0 <= i < |before|
      ensures before[i] + Picked(q, choice + [link], i)
           == before[i] + Picked(q, choice, i) + (if i == link then [q[|choice|]] else [])
    {
      PickedSnoc(q, choice, link, i);
      Regroup(before[i], Picked(q, choice, i), if i == link then [q[|choice|]] else []);
    }
  }

  /** What Link::send does to a link, seen from its owner. */
  lemma HandOverEffect(st: LinkState, seqno: u64, p: Payload, now: u64)
    requires |p| <= MULTILINK_MTU && st.lastSeqSent < seqno && st.inflightBytes >= 0
    ensures var r := SendData(st, seqno, p, now);
            && r.lastSeqSent <= seqno && r.inflightBytes >= 0 && !SendAccepts(r, now)
            && r.Log() == (if SendAccepts(st, now) then st.Log() + [InFlight(seqno, p, now)] else st.Log())
  {
    hide Sub64, Encode;
    SendAuxTraffic(st, now);
  }

  /** With one link every packet drained goes to it, in order. */
  lemma {:induction false} LoneLink(q: seq<Payload>, choice: seq<nat>)
    requires |choice| <= |q|
    ensures (forall k :: 0 <= k < |choice| ==> choice[k] < 1) ==> Picked(q, choice, 0) == q[..|choice|]
  {
    if choice != [] {
      LoneLink(q, choice[..|choice| - 1]);
    }
  }

  /** What leaves the layer above is the front of what it had, and a lone idle link is
      given the first of it. */
  lemma TurnsTake(queue: seq<Payload>, up: seq<Payload>, own: seq<Payload>, lastSeq: nat, accepts: bool, i: nat,
                  n: nat, choice: seq<nat>, m: nat, later: seq<nat>, sent: seq<Payload>,
                  queue': seq<Payload>, up': seq<Payload>, own': seq<Payload>, lastSeq': nat)
    requires TwoTurns(queue, up, own, lastSeq, accepts, i, n, choice, m, later, sent, queue', up', own', lastSeq')
    ensures |sent| <= 1 && |up'| <= |up| && up' == up[|up| - |up'|..]
    ensures i == 0 && (forall k :: 0 <= k < |choice| ==> choice[k] < 1) && own == [] && queue == [] && up != [] && accepts ==>
              sent == [up[0]]
  {
    hide Picked, Drained;
    if (forall k :: 0 <= k < |choice| ==> choice[k] < 1) && own == [] && queue == [] && up != [] {
      LoneLink(Joined(queue, up, n), choice);
    }
  }

  lemma NoneSent(st: LinkState)
    ensures !SentOne(st, st)
  {
  }

  lemma LogSnoc(log: seq<InFlight>, p: InFlight)
    ensures multiset(Payloads(log + [p])) == multiset(Payloads(log)) + multiset{p.payload}
  {
    PayloadsAppend(log, [p]);
    assert Payloads([p]) == [p.payload];
  }

  lemma OwnFront(own: seq<seq<Payload>>, i: nat)
    requires i < |own| && own[i] != []
    ensures Bag(own[i := own[i][1..]]) + multiset{own[i][0]} == Bag(own)
  {
    hide Bag;
    var rest := own[i := own[i][1..]];
    BagUpdate(own, i, own[i][1..]);
    assert own[i] == [own[i][0]] + own[i][1..];
    assert multiset(own[i]) == multiset{own[i][0]} + multiset(own[i][1..]);
    CancelBag(Bag(rest) + multiset{own[i][0]}, multiset(own[i][1..]), Bag(own));
  }

  /** Two idle links, the second far away, and one packet in the queue. */
  method TwoIdleLinks(p: Payload) returns (net: Multilink)
    requires |p| < 2000
    ensures fresh(net) && net.Valid() && net.Views() == NearAndFar && net.Base() == [0, 0]
    ensures net.queue == [p] && net.own == [[], []] && |net.links| == 2
  {
    net := new Multilink();
    net.links, net.mbps, net.own := [Fresh.(rtt := 0), Fresh.(rtt := 1000)], [1.0, 1.0], [[], []];
    net.queue := [p];
  }

  /** assign_links_until on behalf of the second link assigns it nothing. */
  method AskerStarves(p: Payload) returns (net: Multilink)
    requires |p| < 2000
    ensures fresh(net) && net.queue == [] && net.own == [[p], []]
  {
    hide Greedy, Picked, Key, Bag, NearAndFar, Multilink.Views, Multilink.Base, AllSmall;
    net := TwoIdleLinks(p);
    var choice := net.AssignLinksUntil();
    AskerGetsNothing(p, choice);
    assert |net.own| == 2 && net.own[0] == [p] && net.own[1] == [];
    assert net.own == [net.own[0], net.own[1]];
  }

  /** Two links at hand with a thousand bytes in flight each, the second ten times as
      fast, and one packet in the queue. */
  method TwoLoadedLinks(p: Payload) returns (net: Multilink)
    requires |p| <= MULTILINK_MTU
    ensures fresh(net) && net.Valid() && net.Views() == SlowAndFast && net.Base() == [1000, 1000]
    ensures net.queue == [p] && net.own == [[], []] && |net.links| == 2
  {
    net := new Multilink();
    var loaded := Fresh.(rtt := 0, inflightBytes := 1000);
    net.links, net.mbps, net.own := [loaded, loaded], [1.0, 10.0], [[], []];
    net.queue := [p];
  }

  /** assign_links_until gives the packet to the fast one. */
  method FastServed(p: Payload) returns (net: Multilink)
    requires |p| <= MULTILINK_MTU
    ensures fresh(net) && net.queue == [] && net.own == [[], [p]]
  {
    hide Greedy, Picked, Key, Bag, SlowAndFast, Multilink.Views, Multilink.Base, AllSmall;
    net := TwoLoadedLinks(p);
    var choice := net.AssignLinksUntil();
    FastGetsPacket(p, choice);
    assert |net.own| == 2 && net.own[0] == [] && net.own[1] == [p];
    assert net.own == [net.own[0], net.own[1]];
  }
}
