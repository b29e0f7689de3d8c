/** The greedy assignment of queued packets to links (multilink.cpp,
    assign_links_until), as a property of the sequence of links chosen. */
module Scheduling {
  import opened Frames

  /** What the scheduler sees of a link. */
  datatype LinkView = LinkView(rtt: real, mbps: real)

  const WEIGHT: real := 2.0

  /** bandwidth_mbps never reports less than this. */
  const MIN_MBPS: real := 0.1

  ghost predicate Usable(views: seq<LinkView>) {
    forall i :: 0 <= i < |views| ==> views[i].mbps >= MIN_MBPS
  }

  /** Estimated completion time of a link that has `estimated` bytes to send. */
  function Key(v: LinkView, estimated: nat): (k: int)
    requires v.mbps >= MIN_MBPS
  {
    (v.rtt * WEIGHT + estimated as real / v.mbps).Floor
  }

  lemma DivMonotone(x: real, y: real, m: real)
    requires x <= y && m > 0.0
    ensures x / m <= y / m
  {
    assert (y - x) / m >= 0.0;
    assert y / m == x / m + (y - x) / m;
  }

  lemma KeyMonotone(v: LinkView, less: nat, more: nat)
    requires v.mbps >= MIN_MBPS && less <= more
    ensures Key(v, less) <= Key(v, more)
  {
    DivMonotone(less as real, more as real, v.mbps);
  }

  /** The key is twice the round trip time plus the bytes over the bandwidth, rounded
      down; said without the division. */
  lemma KeyBounds(v: LinkView, n: nat)
    requires v.mbps >= MIN_MBPS
    ensures Key(v, n) as real * v.mbps <= 2.0 * v.rtt * v.mbps + n as real < (Key(v, n) + 1) as real * v.mbps
  {
    var t := n as real / v.mbps;
    assert Times(t, v.mbps) == n as real;
    Between(Key(v, n) as real, 2.0 * v.rtt, t, (Key(v, n) + 1) as real, v.mbps);
    assert Times(Key(v, n) as real, v.mbps) == Key(v, n) as real * v.mbps;
    assert Times((Key(v, n) + 1) as real, v.mbps) == (Key(v, n) + 1) as real * v.mbps;
    assert Times(2.0 * v.rtt, v.mbps) == 2.0 * v.rtt * v.mbps;
  }

  function Times(x: real, m: real): real {
    x * m
  }

  lemma Between(low: real, r: real, t: real, high: real, m: real)
    requires low <= r + t < high && m > 0.0
    ensures Times(low, m) <= Times(r, m) + Times(t, m) < Times(high, m)
  {
    TimesMonotone(low, r + t, m);
    TimesStrict(r + t, high, m);
    TimesSum(r, t, m);
  }

  lemma TimesSum(x: real, y: real, m: real)
    ensures (x + y) * m == x * m + y * m
  {
  }

  lemma TimesStrict(x: real, y: real, m: real)
    requires x < y && m > 0.0
    ensures x * m < y * m
  {
    assert (y - x) * m > 0.0;
    assert (y - x) * m == y * m - x * m;
  }

  lemma TimesMonotone(x: real, y: real, m: real)
    requires x <= y && m > 0.0
    ensures x * m <= y * m
  {
    assert (y - x) * m >= 0.0;
    assert (y - x) * m == y * m - x * m;
  }

  /** More bandwidth never raises a key. */
  lemma FasterNeverDearer(v: LinkView, w: LinkView, n: nat)
    requires v.rtt == w.rtt && MIN_MBPS <= v.mbps <= w.mbps
    ensures Key(w, n) <= Key(v, n)
  {
    var x, y := n as real / v.mbps, n as real / w.mbps;
    assert x * v.mbps == n as real == y * w.mbps;
    assert x * (w.mbps - v.mbps) >= 0.0;
    assert (x - y) * w.mbps == x * (w.mbps - v.mbps);
    SignOfFactor(x - y, w.mbps);
  }

  lemma SignOfFactor(d: real, m: real)
    requires m > 0.0 && d * m >= 0.0
    ensures d >= 0.0
  {
    assert (d * m) / m >= 0.0;
    assert (d * m) / m == d;
  }

  /** With as many bytes to send over the same distance, a faster link has the lower key
      as soon as the bandwidths make a difference of one. */
  lemma FasterCheaper(v: LinkView, w: LinkView, n: nat)
    requires v.rtt == w.rtt && MIN_MBPS <= v.mbps <= w.mbps
    requires n as real * (w.mbps - v.mbps) >= v.mbps * w.mbps
    ensures Key(w, n) < Key(v, n)
  {
    var x, y := n as real / v.mbps, n as real / w.mbps;
    CrossMultiplied(n as real, v.mbps, w.mbps, x, y);
    SignOfFactor(x - y - 1.0, v.mbps * w.mbps);
  }

  lemma CrossMultiplied(n: real, a: real, b: real, x: real, y: real)
    requires a > 0.0 && b > 0.0 && x * a == n && y * b == n && n * (b - a) >= a * b
    ensures a * b > 0.0 && (x - y - 1.0) * (a * b) >= 0.0
  {
    assert x * (a * b) == n * b;
    assert y * (a * b) == n * a;
    assert (x - y - 1.0) * (a * b) == x * (a * b) - y * (a * b) - a * b;
  }

  /** The packets of q that went to link i when packet k went to choice[k]. */
  function Picked(q: seq<Payload>, choice: seq<nat>, i: nat): (r: seq<Payload>)
    requires |choice| <= |q|
  {
    if choice == [] then []
    else
      var n := |choice| - 1;
      Picked(q, choice[..n], i) + (if choice[n] == i then [q[n]] else [])
  }

  function TotalBytes(ps: seq<Payload>): (n: nat) {
    if ps == [] then 0 else TotalBytes(ps[..|ps| - 1]) + |ps[|ps| - 1]|
  }

  lemma TotalBytesSnoc(ps: seq<Payload>, p: Payload)
    ensures TotalBytes(ps + [p]) == TotalBytes(ps) + |p|
  {
    assert (ps + [p])[..|ps|] == ps;
  }

  /** Bytes of link i after the choices made so far, from `base` on. */
  function Load(base: seq<nat>, q: seq<Payload>, choice: seq<nat>, i: nat): (n: nat)
    requires |choice| <= |q| && i < |base|
  {
    base[i] + TotalBytes(Picked(q, choice, i))
  }

  /** Packet k of q went to a link of least key, given the earlier choices. */
  ghost predicate BestChoice(views: seq<LinkView>, base: seq<nat>, q: seq<Payload>, choice: seq<nat>, k: nat)
    requires Usable(views) && |base| == |views| && k < |choice| <= |q|
  {
    choice[k] < |views| &&
    forall j :: 0 <= j < |views| ==>
      Key(views[choice[k]], Load(base, q, choice[..k], choice[k])) <= Key(views[j], Load(base, q, choice[..k], j))
  }

  ghost predicate Greedy(views: seq<LinkView>, base: seq<nat>, q: seq<Payload>, choice: seq<nat>)
    requires Usable(views) && |base| == |views| && |choice| <= |q|
  {
    forall k :: 0 <= k < |choice| ==> BestChoice(views, base, q, choice, k)
  }

  lemma PickedNone(q: seq<Payload>)
    ensures forall i: nat :: Picked(q, [], i) == []
  {
  }

  lemma PickedSnoc(q: seq<Payload>, choice: seq<nat>, c: nat, i: nat)
    requires |choice| < |q|
    ensures Picked(q, choice + [c], i) == Picked(q, choice, i) + (if c == i then [q[|choice|]] else [])
  {
    assert (choice + [c])[..|choice|] == choice;
  }

  lemma LoadSnoc(base: seq<nat>, q: seq<Payload>, choice: seq<nat>, c: nat, i: nat)
    requires |choice| < |q| && i < |base|
    ensures Load(base, q, choice + [c], i) == Load(base, q, choice, i) + (if c == i then |q[|choice|]| else 0)
  {
    hide Picked;
    PickedSnoc(q, choice, c, i);
    if c == i {
      TotalBytesSnoc(Picked(q, choice, i), q[|choice|]);
    } else {
      assert Picked(q, choice, i) + [] == Picked(q, choice, i);
    }
  }

  lemma GreedyPrefix(views: seq<LinkView>, base: seq<nat>, q: seq<Payload>, choice: seq<nat>, n: nat)
    requires Usable(views) && |base| == |views| && n <= |choice| <= |q| && Greedy(views, base, q, choice)
    ensures Greedy(views, base, q, choice[..n])
  {
    hide Load, Key;
    forall k | 0 <= k < n
      ensures BestChoice(views, base, q, choice[..n], k)
    {
      assert BestChoice(views, base, q, choice, k);
      assert choice[..n][..k] == choice[..k];
    }
  }

  lemma GreedySnoc(views: seq<LinkView>, base: seq<nat>, q: seq<Payload>, choice: seq<nat>, c: nat)
    requires Usable(views) && |base| == |views| && |choice| < |q| && c < |views| && Greedy(views, base, q, choice)
    requires forall j :: 0 <= j < |views| ==>
               Key(views[c], Load(base, q, choice, c)) <= Key(views[j], Load(base, q, choice, j))
    ensures Greedy(views, base, q, choice + [c])
  {
    hide Load, Key;
    var longer := choice + [c];
    forall k | 0 <= k < |longer|
      ensures BestChoice(views, base, q, longer, k)
    {
      assert longer[..k] == choice[..k];
      if k < |choice| {
        assert BestChoice(views, base, q, choice, k);
      } else {
        assert choice[..k] == choice;
      }
    }
  }

  /** Greedy bound: for every link that received a packet, its final key without
      its last packet is at most every link's final key. */
  lemma {:induction false} GreedyBound(views: seq<LinkView>, base: seq<nat>, q: seq<Payload>, choice: seq<nat>, i: nat, j: nat)
    requires Usable(views) && |base| == |views| && |choice| <= |q| && Greedy(views, base, q, choice)
    requires i < |views| && j < |views| && i in choice
    ensures var mine := Picked(q, choice, i);
            && mine != [] && Load(base, q, choice, i) >= |mine[|mine| - 1]|
            && Key(views[i], Load(base, q, choice, i) - |mine[|mine| - 1]|) <= Key(views[j], Load(base, q, choice, j))
  {
    hide Key, Load, Picked;
    var n := |choice| - 1;
    var before := choice[..n];
    assert choice == before + [choice[n]];
    PickedSnoc(q, before, choice[n], i);
    LoadSnoc(base, q, before, choice[n], i);
    LoadSnoc(base, q, before, choice[n], j);
    KeyMonotone(views[j], Load(base, q, before, j), Load(base, q, choice, j));
    if choice[n] == i {
      assert BestChoice(views, base, q, choice, n);
    } else {
      GreedyPrefix(views, base, q, choice, n);
      GreedyBound(views, base, q, before, i, j);
    }
  }

  /** A link whose present key exceeds the key that another ends with gets nothing. */
  lemma {:induction false} AlwaysOutbid(views: seq<LinkView>, base: seq<nat>, q: seq<Payload>, choice: seq<nat>, i: nat, j: nat)
    requires Usable(views) && |base| == |views| && |choice| <= |q| && Greedy(views, base, q, choice)
    requires i < |views| && j < |views|
    requires Key(views[j], Load(base, q, choice, j)) < Key(views[i], base[i])
    ensures Picked(q, choice, i) == []
  {
    hide Key, Load;
    if choice != [] {
      var n := |choice| - 1;
      var before := choice[..n];
      assert choice == before + [choice[n]];
      PickedSnoc(q, before, choice[n], i);
      LoadSnoc(base, q, before, choice[n], j);
      KeyMonotone(views[j], Load(base, q, before, j), Load(base, q, choice, j));
      GreedyPrefix(views, base, q, choice, n);
      AlwaysOutbid(views, base, q, before, i, j);
      assert BestChoice(views, base, q, choice, n);
      LoadNone(base, q, before, i);
    }
  }

  lemma {:induction false} LoadBounded(base: seq<nat>, q: seq<Payload>, choice: seq<nat>, i: nat)
    requires |choice| <= |q| && i < |base|
    ensures Load(base, q, choice, i) <= base[i] + TotalBytes(q[..|choice|])
  {
    hide Load;
    if choice == [] {
      LoadNone(base, q, choice, i);
    } else {
      var n := |choice| - 1;
      assert choice == choice[..n] + [choice[n]];
      LoadBounded(base, q, choice[..n], i);
      LoadSnoc(base, q, choice[..n], choice[n], i);
      assert q[..n + 1] == q[..n] + [q[n]];
      TotalBytesSnoc(q[..n], q[n]);
    }
  }

  /** A link whose present key exceeds what another link's key would be with all
      the drained packets gets none of them, whichever link asked for packets. */
  lemma OutbidGetsNothing(views: seq<LinkView>, base: seq<nat>, q: seq<Payload>, choice: seq<nat>, i: nat, j: nat)
    requires Usable(views) && |base| == |views| && |choice| <= |q| && Greedy(views, base, q, choice)
    requires i < |views| && j < |views|
    requires Key(views[j], base[j] + TotalBytes(q[..|choice|])) < Key(views[i], base[i])
    ensures Picked(q, choice, i) == []
  {
    hide Key, Load, Greedy, Picked, TotalBytes;
    LoadBounded(base, q, choice, j);
    KeyMonotone(views[j], Load(base, q, choice, j), base[j] + TotalBytes(q[..|choice|]));
    AlwaysOutbid(views, base, q, choice, i, j);
  }

  /** Link i has the least key when packet k is assigned; `strict` if no other link
      has the same. */
  ghost predicate Leads(views: seq<LinkView>, base: seq<nat>, q: seq<Payload>, choice: seq<nat>, k: nat, i: nat, strict: bool)
    requires Usable(views) && |base| == |views| && k < |choice| <= |q| && i < |views|
  {
    forall j :: 0 <= j < |views| && j != i ==>
      var mine, other := Key(views[i], Load(base, q, choice[..k], i)), Key(views[j], Load(base, q, choice[..k], j));
      mine < other || (mine == other && !strict)
  }

  /** The other side, exact up to ties: the link of strictly least key gets the packet,
      and the link that gets it has the least key. */
  lemma LeaderGetsPacket(views: seq<LinkView>, base: seq<nat>, q: seq<Payload>, choice: seq<nat>, k: nat, i: nat)
    requires Usable(views) && |base| == |views| && k < |choice| <= |q| && Greedy(views, base, q, choice) && i < |views|
    ensures Leads(views, base, q, choice, k, i, true) ==> choice[k] == i
    ensures choice[k] == i ==> Leads(views, base, q, choice, k, i, false)
    ensures choice[k] == i ==> q[k] in Picked(q, choice, i)
  {
    hide Key, Load;
    assert BestChoice(views, base, q, choice, k);
    var taken := choice[k];
    if taken == i {
      PickedMember(q, choice, k);
    } else {
      assert Key(views[taken], Load(base, q, choice[..k], taken)) <= Key(views[i], Load(base, q, choice[..k], i));
    }
  }

  /** Of two links of equal distance and load the slower gets a packet only at a tie, and
      not once the bandwidths make a difference. */
  lemma FasterPreferred(views: seq<LinkView>, base: seq<nat>, q: seq<Payload>, choice: seq<nat>, k: nat, fast: nat, slow: nat)
    requires Usable(views) && |base| == |views| && k < |choice| <= |q| && Greedy(views, base, q, choice)
    requires fast < |views| && slow < |views|
    requires views[fast].rtt == views[slow].rtt && views[slow].mbps <= views[fast].mbps
    requires Load(base, q, choice[..k], fast) == Load(base, q, choice[..k], slow)
    ensures var n := Load(base, q, choice[..k], slow);
            choice[k] == slow ==>
              && Key(views[fast], n) == Key(views[slow], n)
              && n as real * (views[fast].mbps - views[slow].mbps) < views[slow].mbps * views[fast].mbps
  {
    hide Key, Load;
    assert BestChoice(views, base, q, choice, k);
    var n := Load(base, q, choice[..k], slow);
    FasterNeverDearer(views[slow], views[fast], n);
    if n as real * (views[fast].mbps - views[slow].mbps) >= views[slow].mbps * views[fast].mbps {
      FasterCheaper(views[slow], views[fast], n);
    }
  }

  lemma {:induction false} PickedMember(q: seq<Payload>, choice: seq<nat>, k: nat)
    requires k < |choice| <= |q|
    ensures q[k] in Picked(q, choice, choice[k])
  {
    var n := |choice| - 1;
    if k < n {
      PickedMember(q, choice[..n], k);
    }
  }

  /** A near and a far link of equal bandwidth, both idle. */
  const NearAndFar: seq<LinkView> := [LinkView(0.0, 1.0), LinkView(1000.0, 1.0)]

  /** The far link asks, and the only packet goes to the near one. */
  lemma AskerGetsNothing(p: Payload, choice: seq<nat>)
    requires |p| < 2000 && |choice| == 1 && Usable(NearAndFar) && Greedy(NearAndFar, [0, 0], [p], choice)
    ensures choice == [0] && Picked([p], choice, 0) == [p] && Picked([p], choice, 1) == []
  {
    hide Load;
    TotalBytesSnoc([], p);
    assert [] + [p] == [p] && [p][..1] == [p];
    assert |p| as real / 1.0 == |p| as real && (|p| as real).Floor == |p|;
    assert Key(NearAndFar[0], 0 + TotalBytes([p][..1])) == |p|;
    assert Key(NearAndFar[1], 0) == 2000;
    OutbidGetsNothing(NearAndFar, [0, 0], [p], choice, 1, 0);
    assert BestChoice(NearAndFar, [0, 0], [p], choice, 0);
    PickedMember([p], choice, 0);
  }

  lemma LoadNone(base: seq<nat>, q: seq<Payload>, choice: seq<nat>, i: nat)
    requires |choice| <= |q| && i < |base| && Picked(q, choice, i) == []
    ensures Load(base, q, choice, i) == base[i]
  {
  }

  lemma {:induction false} LeastLink(views: seq<LinkView>, load: seq<nat>) returns (c: nat)
    requires Usable(views) && |load| == |views| > 0
    ensures c < |views| && forall j :: 0 <= j < |views| ==> Key(views[c], load[c]) <= Key(views[j], load[j])
    decreases |views|
  {
    hide Key;
    var n := |views| - 1;
    c := n;
    if n > 0 {
      var d := LeastLink(views[..n], load[..n]);
      assert forall j :: 0 <= j < n ==> Key(views[d], load[d]) <= Key(views[..n][j], load[..n][j]);
      if Key(views[d], load[d]) <= Key(views[n], load[n]) {
        c := d;
      }
    }
  }

  /** There are greedy choices for any number of packets, as long as there is a link. */
  lemma {:induction false} GreedyExists(views: seq<LinkView>, base: seq<nat>, q: seq<Payload>, n: nat) returns (choice: seq<nat>)
    requires Usable(views) && |base| == |views| > 0 && n <= |q|
    ensures |choice| == n && Greedy(views, base, q, choice)
    decreases n
  {
    hide Key, Load;
    choice := [];
    if n > 0 {
      choice := GreedyExists(views, base, q, n - 1);
      var load := seq(|views|, i requires 0 <= i < |views| => Load(base, q, choice, i));
      var c := LeastLink(views, load);
      GreedySnoc(views, base, q, choice, c);
      choice := choice + [c];
    }
  }

  /** A slow and a fast link, both at hand. */
  const SlowAndFast: seq<LinkView> := [LinkView(0.0, 1.0), LinkView(0.0, 10.0)]

  /** With a thousand bytes in flight on each, the next packet goes to the fast one. */
  lemma FastGetsPacket(p: Payload, choice: seq<nat>)
    requires |choice| == 1 && Usable(SlowAndFast) && Greedy(SlowAndFast, [1000, 1000], [p], choice)
    ensures choice == [1] && Picked([p], choice, 0) == [] && Picked([p], choice, 1) == [p]
  {
    hide Key;
    var base := [1000, 1000];
    assert choice[..0] == [];
    assert Load(base, [p], [], 0) == Load(base, [p], [], 1) == 1000;
    assert BestChoice(SlowAndFast, base, [p], choice, 0);
    FasterPreferred(SlowAndFast, base, [p], choice, 0, 1, 0);
  }

  // ------------------------------------------------------- a partition in order

  /** All packets in a family of queues, with multiplicity. */
  function Bag(qs: seq<seq<Payload>>): (m: multiset<Payload>) {
    if qs == [] then multiset{} else Bag(qs[..|qs| - 1]) + multiset(qs[|qs| - 1])
  }

  lemma {:induction false} BagUpdate(qs: seq<seq<Payload>>, i: nat, v: seq<Payload>)
    requires i < |qs|
    ensures Bag(qs[i := v]) + multiset(qs[i]) == Bag(qs) + multiset(v)
  {
    var n := |qs| - 1;
    if i == n {
      assert qs[i := v][..n] == qs[..n];
    } else {
      BagUpdate(qs[..n], i, v);
      assert qs[i := v][..n] == qs[..n][i := v];
      assert Bag(qs[i := v]) + multiset(qs[i])
          == (Bag(qs[..n][i := v]) + multiset(qs[..n][i])) + multiset(qs[n]);
    }
  }

  lemma BagAppend(qs: seq<seq<Payload>>, i: nat, p: Payload)
    requires i < |qs|
    ensures Bag(qs[i := qs[i] + [p]]) == Bag(qs) + multiset{p}
  {
    hide Bag;
    BagUpdate(qs, i, qs[i] + [p]);
    CancelBag(Bag(qs[i := qs[i] + [p]]), multiset(qs[i]), Bag(qs) + multiset{p});
  }

  lemma CancelBag<T>(a: multiset<T>, b: multiset<T>, c: multiset<T>)
    requires a + b == c + b
    ensures a == c
  {
    forall x: T
      ensures a[x] == c[x]
    {
      assert a[x] + b[x] == (a + b)[x] == c[x] + b[x];
    }
  }

  lemma BagSnoc(qs: seq<seq<Payload>>, q: seq<Payload>)
    ensures Bag(qs + [q]) == Bag(qs) + multiset(q)
  {
    assert (qs + [q])[..|qs|] == qs;
  }

  lemma BagNone()
    ensures Bag([]) == multiset{}
  {
  }

  lemma {:induction false} BagConcat(a: seq<seq<Payload>>, b: seq<seq<Payload>>)
    ensures Bag(a + b) == Bag(a) + Bag(b)
  {
    hide Bag;
    BagNone();
    if b == [] {
      assert a + b == a;
    } else {
      var n := |b| - 1;
      var init, last := b[..n], b[n];
      BagConcat(a, init);
      BagSnoc(init, last);
      BagSnoc(a + init, last);
      assert b == init + [last] && a + b == (a + init) + [last];
    }
  }

  lemma BagRemove(qs: seq<seq<Payload>>, i: nat)
    requires i < |qs|
    ensures Bag(qs[..i] + qs[i + 1..]) + multiset(qs[i]) == Bag(qs)
  {
    hide Bag;
    BagConcat(qs[..i], qs[i + 1..]);
    BagConcat(qs[..i] + [qs[i]], qs[i + 1..]);
    BagConcat(qs[..i], [qs[i]]);
    BagOne(qs[i]);
    assert qs == qs[..i] + [qs[i]] + qs[i + 1..];
  }

  lemma BagOne(q: seq<Payload>)
    ensures Bag([q]) == multiset(q)
  {
    assert [q][..0] == [];
  }

  /** The additions to the n links. */
  function Additions(q: seq<Payload>, choice: seq<nat>, n: nat): (r: seq<seq<Payload>>)
    requires |choice| <= |q|
    ensures |r| == n
  {
    seq(n, i requires 0 <= i < n => Picked(q, choice, i))
  }

  lemma {:induction false} BagOfEmpties(n: nat)
    ensures Bag(seq(n, _ => [])) == multiset{}
  {
    if n > 0 {
      BagOfEmpties(n - 1);
      var none: seq<seq<Payload>> := seq(n, _ => []);
      assert none[..n - 1] == seq(n - 1, _ => []);
    }
  }

  /** The drained prefix of the queue is exactly divided among the links. */
  lemma {:induction false} AdditionsPartition(q: seq<Payload>, choice: seq<nat>, n: nat)
    requires |choice| <= |q| && forall k :: 0 <= k < |choice| ==> choice[k] < n
    ensures Bag(Additions(q, choice, n)) == multiset(q[..|choice|])
  {
    hide Bag, Picked;
    if choice == [] {
      AdditionsNone(q, n);
    } else {
      var m := |choice| - 1;
      var before, c := choice[..m], choice[m];
      assert choice == before + [c];
      AdditionsPartition(q, before, n);
      var adds := Additions(q, before, n);
      AdditionsSnoc(q, before, c, n);
      BagAppend(adds, c, q[m]);
      assert q[..m + 1] == q[..m] + [q[m]];
    }
  }

  lemma AdditionsNone(q: seq<Payload>, n: nat)
    ensures Bag(Additions(q, [], n)) == multiset{}
  {
    assert Additions(q, [], n) == seq(n, _ => []);
    BagOfEmpties(n);
  }

  lemma AdditionsSnoc(q: seq<Payload>, choice: seq<nat>, c: nat, n: nat)
    requires |choice| < |q| && c < n
    ensures Additions(q, choice + [c], n)
         == Additions(q, choice, n)[c := Picked(q, choice, c) + [q[|choice|]]]
  {
    forall i | 0 <= i < n
      ensures Picked(q, choice + [c], i) == if i == c then Picked(q, choice, c) + [q[|choice|]] else Picked(q, choice, i)
    {
      PickedSnoc(q, choice, c, i);
    }
  }
}
