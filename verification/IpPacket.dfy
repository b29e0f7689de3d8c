/** Packets on their way to the tun device: the address rewrite and the in-place
    checksum fills of ippacket.cpp. */
module IpPacket {
  import opened Bytes
  import opened Checksum

  const UDP: byte := 17

  // ----------------------------------------------------------- what they compute

  function HeaderLength(p: seq<byte>): (n: nat)
    requires |p| > 0
  {
    p[0] % 16 * 4
  }

  function SetPair(p: seq<byte>, i: nat, first: byte, second: byte): (r: seq<byte>)
    requires i + 2 <= |p|
    ensures |r| == |p| && r[i] == first && r[i + 1] == second
    ensures forall k :: 0 <= k < |p| && k != i && k != i + 1 ==> r[k] == p[k]
  {
    p[i := first][i + 1 := second]
  }

  /** The packets ip4_fill_checksum does not abort on. */
  predicate HasHeader(p: seq<byte>) {
    |p| >= 20 && HeaderLength(p) <= |p|
  }

  /** The packet after ip4_fill_checksum. */
  function IpFilled(p: seq<byte>): (r: seq<byte>)
    requires HasHeader(p)
    ensures |r| == |p|
  {
    var z := SetPair(p, 10, 0, 0);
    var x := ALL_ONES - FoldAll(Sum(z[..HeaderLength(p)], true));
    SetPair(z, 10, x / 256, x % 256)
  }

  /** Pseudo header of the Checksum field of RFC 768, with the length the code uses. */
  function Pseudo(p: seq<byte>): (r: seq<byte>)
    requires HasHeader(p)
    ensures |r| == 12
  {
    var size := (|p| - HeaderLength(p)) % 0x1_0000;
    p[12..20] + [0, UDP, size / 256, size % 256]
  }

  /** What a receiver sums: pseudo header and segment. */
  function Summed(p: seq<byte>): (r: seq<byte>)
    requires HasHeader(p)
    ensures |r| == 12 + |p| - HeaderLength(p)
  {
    Pseudo(p) + p[HeaderLength(p)..]
  }

  predicate UdpVerifies(p: seq<byte>)
    requires HasHeader(p)
  {
    FoldAll(Sum(Summed(p), true)) == ALL_ONES
  }

  predicate HeaderVerifies(p: seq<byte>)
    requires HasHeader(p)
  {
    FoldAll(Sum(p[..HeaderLength(p)], true)) == ALL_ONES
  }

  /** Segments the code fills; it leaves shorter ones alone. */
  predicate LongSegment(p: seq<byte>)
    requires HasHeader(p)
  {
    |p| - HeaderLength(p) >= 16
  }

  /** The packet with a zero checksum field. */
  function Zeroed(p: seq<byte>): (r: seq<byte>)
    requires HasHeader(p) && LongSegment(p)
    ensures |r| == |p| && HasHeader(r) && HeaderLength(r) == HeaderLength(p)
  {
    SetPair(p, HeaderLength(p) + 6, 0, 0)
  }

  /** The packet after udp4_fill_checksum. */
  function UdpFilled(p: seq<byte>): (r: seq<byte>)
    requires HasHeader(p)
    ensures |r| == |p|
  {
    if !LongSegment(p) then p
    else
      var z := Zeroed(p);
      var at := HeaderLength(p) + 6;
      var c := FoldAll(Sum(Summed(z), false));
      var x := ALL_ONES - (if c == ALL_ONES then 0 else c);
      SetPair(z, at, x % 256, x / 256)
  }

  // ------------------------------------------------------------------- the code

  /** One turn of a checksum loop. */
  lemma AddWord(s: seq<byte>, k: nat, c: nat, big: bool)
    requires c == FoldAll(SumWords(s, k, big))
    ensures Carry(c + Word(s, k, big)) == FoldAll(SumWords(s, k + 1, big))
  {
    hide Word, FoldAll, Carry;
    StepExact(SumWords(s, k, big), c, Word(s, k, big));
  }

  lemma PairIsWord(s: seq<byte>, i: nat, big: bool)
    requires i % 2 == 0 && i + 1 < |s|
    ensures Word(s, i / 2, big) == if big then 256 * (s[i] as nat) + s[i + 1] else (s[i] as nat) + 256 * (s[i + 1] as nat)
  {
  }

  method Ip4Checksum(b: array<byte>, at: nat, len: nat) returns (x: nat)
    requires at + len <= b.Length && len % 2 == 0
    ensures x == ALL_ONES - FoldAll(Sum(b[at..at + len], true))
  {
    hide Word, FoldAll, Carry, SumWords;
    ghost var s := b[at..at + len];
    NoWords(s, true);
    var c: nat := 0;
    var i := 0;
    while i < len
      invariant i <= len && i % 2 == 0
      invariant c == FoldAll(SumWords(s, i / 2, true))
    {
      AddWord(s, i / 2, c, true);
      PairIsWord(s, i, true);
      var first: nat, second: nat := b[at + i], b[at + i + 1];
      c := Carry(c + (256 * first + second));
      i := i + 2;
    }
    x := ALL_ONES - c;
  }

  lemma NoWords(s: seq<byte>, big: bool)
    ensures FoldAll(SumWords(s, 0, big)) == 0
  {
  }

  method Ip4FillChecksum(b: array<byte>, at: nat)
    requires at <= b.Length && HasHeader(b[at..])
    modifies b
    ensures b[..at] == old(b[..at]) && b[at..] == IpFilled(old(b[at..]))
  {
    hide FoldAll, Sum;
    ghost var p := b[at..];
    var headerLength := b[at] % 16 * 4;
    b[at + 10], b[at + 11] := 0, 0;
    assert b[at..] == SetPair(p, 10, 0, 0);
    assert b[at..at + headerLength] == b[at..][..headerLength];
    var x := Ip4Checksum(b, at, headerLength);
    b[at + 10], b[at + 11] := x / 256, x % 256;
    assert b[at..] == IpFilled(p);
  }

  /** The accumulator of udp4_fill_checksum: addresses, protocol, length, segment,
      all read in host order. */
  method UdpSum(b: array<byte>, at: nat) returns (c: nat)
    requires at <= b.Length && HasHeader(b[at..]) && LongSegment(b[at..])
    ensures c == FoldAll(Sum(Summed(b[at..]), false))
  {
    hide Word, FoldAll, Carry, SumWords, Pseudo, Summed;
    ghost var p := b[at..];
    ghost var w := Summed(p);
    var headerLength := b[at] % 16 * 4;
    var start, size := at + headerLength, b.Length - at - headerLength;
    SummedBytes(p);
    NoWords(w, false);
    c := 0;
    var i := 12;
    while i < 20
      invariant 12 <= i <= 20 && i % 2 == 0
      invariant c == FoldAll(SumWords(w, (i - 12) / 2, false))
    {
      AddWord(w, (i - 12) / 2, c, false);
      PairIsWord(w, i - 12, false);
      var first: nat, second: nat := b[at + i], b[at + i + 1];
      c := Carry(c + (first + 256 * second));
      i := i + 2;
    }
    AddWord(w, 4, c, false);
    PairIsWord(w, 8, false);
    c := Carry(c + 256 * UDP);
    var len := size % 0x1_0000;
    AddWord(w, 5, c, false);
    PairIsWord(w, 10, false);
    c := Carry(c + (len / 256 + 256 * (len % 256)));
    c := AddSegment(b, start, c, w);
  }

  /** The segment loop and the odd byte after it. */
  method AddSegment(b: array<byte>, start: nat, c0: nat, ghost w: seq<byte>) returns (c: nat)
    requires start < b.Length && |w| == 12 + b.Length - start && w[12..] == b[start..]
    requires c0 == FoldAll(SumWords(w, 6, false))
    ensures c == FoldAll(Sum(w, false))
  {
    hide Word, FoldAll, Carry, SumWords;
    var size := b.Length - start;
    c := c0;
    var i := 0;
    while i < size - 1
      invariant 0 <= i <= size && i % 2 == 0
      invariant c == FoldAll(SumWords(w, 6 + i / 2, false))
    {
      assert w[12 + i] == w[12..][i] && w[13 + i] == w[12..][i + 1];
      AddWord(w, 6 + i / 2, c, false);
      PairIsWord(w, 12 + i, false);
      var first: nat, second: nat := b[start + i], b[start + i + 1];
      c := Carry(c + (first + 256 * second));
      i := i + 2;
    }
    if size % 2 == 1 {
      assert w[11 + size] == w[12..][size - 1];
      AddWord(w, 6 + i / 2, c, false);
      LastByteIsWord(w);
      c := Carry(c + b[start + size - 1]);
    }
  }

  lemma LastByteIsWord(s: seq<byte>)
    requires |s| % 2 == 1
    ensures Word(s, |s| / 2, false) == s[|s| - 1]
  {
  }

  lemma SummedBytes(p: seq<byte>)
    requires HasHeader(p)
    ensures var w := Summed(p);
            && w[12..] == p[HeaderLength(p)..]
            && (forall i :: 0 <= i < 8 ==> w[i] == p[12 + i])
            && w[8] == 0 && w[9] == UDP
            && var size := (|p| - HeaderLength(p)) % 0x1_0000; w[10] == size / 256 && w[11] == size % 256
  {
  }

  method Udp4FillChecksum(b: array<byte>, at: nat)
    requires at <= b.Length && HasHeader(b[at..])
    modifies b
    ensures b[..at] == old(b[..at]) && b[at..] == UdpFilled(old(b[at..]))
  {
    hide FoldAll, Sum, Summed;
    ghost var p := b[at..];
    var field := at + b[at] % 16 * 4 + 6;
    if b.Length - (field - 6) < 16 {
      return;
    }
    b[field], b[field + 1] := 0, 0;
    assert b[at..] == Zeroed(p);
    var c := UdpSum(b, at);
    if c == ALL_ONES {
      c := 0;
    }
    var x := ALL_ONES - c;
    b[field], b[field + 1] := x % 256, x / 256;
    assert b[at..] == UdpFilled(p);
  }

  // ------------------------------------------------------------ header checksum

  lemma IpFilledHeader(p: seq<byte>)
    requires HasHeader(p)
    ensures HasHeader(IpFilled(p)) && HeaderLength(IpFilled(p)) == HeaderLength(p)
    ensures forall i :: 0 <= i < |p| && i != 10 && i != 11 ==> IpFilled(p)[i] == p[i]
  {
    hide FoldAll, Sum;
  }

  /** After ip4_fill_checksum the header sums to all ones exactly when it is long
      enough to contain the field, or happened to sum to a multiple of 0xFFFF. */
  lemma IpFilledVerifies(p: seq<byte>)
    requires HasHeader(p)
    ensures HasHeader(IpFilled(p))
    ensures var s := Sum(p[..HeaderLength(p)], true);
            HeaderVerifies(IpFilled(p)) <==> HeaderLength(p) >= 12 || (s > 0 && s % 0xFFFF == 0)
  {
    hide FoldAll, SumWords, Word;
    IpFilledHeader(p);
    var n, r := HeaderLength(p), IpFilled(p);
    if n >= 12 {
      var z := SetPair(p, 10, 0, 0);
      var sum := Sum(z[..n], true);
      SumChange(z[..n], r[..n], 5, n / 2, true);
      FieldWords(z[..n], r[..n], ALL_ONES - FoldAll(sum));
      ComplementVerifies(sum);
    } else {
      assert r[..n] == p[..n];
      AllOnesIff(Sum(p[..n], true));
    }
  }

  lemma FieldWords(z: seq<byte>, r: seq<byte>, x: nat)
    requires |z| >= 12 && |r| == |z| && x <= ALL_ONES
    requires z[10] == 0 && z[11] == 0 && r[10] == x / 256 && r[11] == x % 256
    ensures Word(z, 5, true) == 0 && Word(r, 5, true) == x
  {
  }

  // --------------------------------------------------------------- UDP checksum

  /** The checksum field lies among the addresses the pseudo header repeats. */
  predicate FieldInAddresses(p: seq<byte>)
    requires |p| > 0
  {
    HeaderLength(p) == 8 || HeaderLength(p) == 12
  }

  lemma UdpFilledFrame(p: seq<byte>)
    requires HasHeader(p)
    ensures HasHeader(UdpFilled(p)) && HeaderLength(UdpFilled(p)) == HeaderLength(p)
    ensures forall i :: 0 <= i < |p| && i != HeaderLength(p) + 6 && i != HeaderLength(p) + 7 ==> UdpFilled(p)[i] == p[i]
    ensures !LongSegment(p) ==> UdpFilled(p) == p
  {
    hide FoldAll, Sum, Summed;
  }

  /** The stored word is never zero and cancels the sum it was computed from. */
  lemma StoredWord(sum: nat, c: nat, x: nat)
    requires c == FoldAll(sum) && x == ALL_ONES - (if c == ALL_ONES then 0 else c)
    ensures 0 < x <= ALL_ONES
    ensures FoldAll(sum + x) == ALL_ONES
    ensures (sum + x) % 0xFFFF == 0
  {
    hide FoldAll;
    FoldAllCongruent(sum);
    AllOnesIff(sum);
    AllOnesIff(sum + x);
    if c == ALL_ONES {
      ModAdd(sum, 1);
    } else {
      ComplementVerifies(sum);
    }
  }

  /** Filling the field adds the stored word once to what a receiver sums, or twice
      when the field also lies among the addresses. */
  lemma FilledSum(p: seq<byte>, z: seq<byte>, r: seq<byte>, x: nat)
    requires HasHeader(p) && LongSegment(p) && z == Zeroed(p) && x <= ALL_ONES
    requires r == SetPair(z, HeaderLength(p) + 6, x % 256, x / 256)
    requires HasHeader(r) && HeaderLength(r) == HeaderLength(p)
    ensures Sum(Summed(r), false) == Sum(Summed(z), false) + x + (if FieldInAddresses(p) then x else 0)
  {
    hide Word, SumWords, Pseudo;
    var n := HeaderLength(p);
    var segZ, segR := z[n..], r[n..];
    SumConcat(Pseudo(z), segZ, Words(segZ), false);
    SumConcat(Pseudo(r), segR, Words(segR), false);
    SumChange(segZ, segR, 3, Words(segZ), false);
    WordOfPair(segZ, segR, 3, x);
    PseudoSum(p, z, r, x);
  }

  lemma WordOfPair(z: seq<byte>, r: seq<byte>, k: nat, x: nat)
    requires 2 * k + 2 <= |z| == |r| && x <= ALL_ONES
    requires z[2 * k] == 0 && z[2 * k + 1] == 0 && r[2 * k] == x % 256 && r[2 * k + 1] == x / 256
    ensures Word(z, k, false) == 0 && Word(r, k, false) == x
  {
  }

  lemma PseudoSum(p: seq<byte>, z: seq<byte>, r: seq<byte>, x: nat)
    requires HasHeader(p) && LongSegment(p) && z == Zeroed(p) && x <= ALL_ONES
    requires r == SetPair(z, HeaderLength(p) + 6, x % 256, x / 256)
    requires HasHeader(r) && HeaderLength(r) == HeaderLength(p)
    ensures Sum(Pseudo(r), false) == Sum(Pseudo(z), false) + (if FieldInAddresses(p) then x else 0)
  {
    hide Word, SumWords;
    var n := HeaderLength(p);
    if FieldInAddresses(p) {
      var k := (n + 6 - 12) / 2;
      SumChange(Pseudo(z), Pseudo(r), k, 6, false);
      WordOfPair(Pseudo(z), Pseudo(r), k, x);
    } else {
      assert r[12..20] == z[12..20];
      assert Pseudo(r) == Pseudo(z);
    }
  }

  /** After udp4_fill_checksum a receiver summing in network byte order gets all
      ones, although the code summed in host order, and the field is never zero:
      always, except when the header length puts the field among the addresses
      and the rest does not sum to a multiple of 0xFFFF. */
  lemma UdpFilledVerifies(p: seq<byte>)
    requires HasHeader(p) && |p| - HeaderLength(p) >= 16
    ensures var r, n := UdpFilled(p), HeaderLength(p);
            && HasHeader(r)
            && (r[n + 6] != 0 || r[n + 7] != 0)
            && (UdpVerifies(r) <==> !FieldInAddresses(p) || Sum(Summed(Zeroed(p)), false) % 0xFFFF == 0)
  {
    hide FoldAll, Sum, Summed;
    UdpFilledFrame(p);
    var z, r := Zeroed(p), UdpFilled(p);
    var sum := Sum(Summed(z), false);
    var c := FoldAll(sum);
    var x := ALL_ONES - (if c == ALL_ONES then 0 else c);
    StoredWord(sum, c, x);
    FilledSum(p, z, r, x);
    VerifiesEitherOrder(Summed(r));
    AllOnesIff(Sum(Summed(r), false));
    Twice(sum, x);
  }

  lemma Twice(sum: nat, x: nat)
    requires (sum + x) % 0xFFFF == 0
    ensures (sum + x + x) % 0xFFFF == 0 <==> sum % 0xFFFF == 0
  {
    assert (sum + x + x) % 0xFFFF == x % 0xFFFF by { CongruentPlus(sum + x, 0, x); }
    assert x % 0xFFFF == 0 <==> sum % 0xFFFF == 0 by { Opposite(sum, x); }
  }

  lemma Opposite(a: nat, b: nat)
    requires (a + b) % 0xFFFF == 0
    ensures a % 0xFFFF == 0 <==> b % 0xFFFF == 0
  {
  }

  lemma SameResidue(a: nat, b: nat, rest: nat)
    requires (a + rest) % 0xFFFF == 0
    ensures (b + rest) % 0xFFFF == 0 <==> b % 0xFFFF == a % 0xFFFF
  {
  }

  lemma {:induction false} SumPositive(s: seq<byte>, k: nat, n: nat)
    requires k < n && Word(s, k, true) > 0
    ensures SumWords(s, n, true) > 0
    decreases n
  {
    if k < n - 1 {
      SumPositive(s, k, n - 1);
    }
  }

  // ----------------------------------------------------------- the whole rewrite

  function SetAddress(p: seq<byte>, isServer: bool, addr: seq<byte>): (r: seq<byte>)
    requires |p| >= 20 && |addr| == 4
    ensures |r| == |p|
    ensures var at := if isServer then 12 else 16;
            forall i :: 0 <= i < |p| ==> r[i] == if at <= i < at + 4 then addr[i - at] else p[i]
  {
    var at := if isServer then 12 else 16;
    p[..at] + addr + p[at + 4..]
  }

  /** An IPv4 packet after prepare_tun_packet. */
  function Rewritten(p: seq<byte>, isServer: bool, addr: seq<byte>): (r: seq<byte>)
    requires HasHeader(p) && |addr| == 4
    ensures |r| == |p|
  {
    var filled := IpFilled(SetAddress(p, isServer, addr));
    if p[9] == UDP then (IpFilledHeader(SetAddress(p, isServer, addr)); UdpFilled(filled)) else filled
  }

  // ---------------------------------------------------------- skipped segments

  /** Of what a receiver sums, the bytes a rewrite may change: the addresses, and again
      those header bytes that a short header length makes part of the segment. */
  function Exposed(p: seq<byte>): (r: seq<byte>)
    requires HasHeader(p)
    ensures |r| % 2 == 0
  {
    p[12..20] + (if HeaderLength(p) < 20 then p[HeaderLength(p)..20] else [])
  }

  /** And the bytes it does not change. */
  function Settled(p: seq<byte>): (r: seq<byte>)
    requires HasHeader(p)
  {
    Pseudo(p)[8..] + (if HeaderLength(p) < 20 then p[20..] else p[HeaderLength(p)..])
  }

  lemma SumTwo(s: seq<byte>, t: seq<byte>)
    requires |s| % 2 == 0
    ensures Sum(s + t, true) == Sum(s, true) + Sum(t, true)
  {
    hide SumWords;
    SumConcat(s, t, Words(t), true);
  }

  lemma ExposedAndSettled(p: seq<byte>)
    requires HasHeader(p)
    ensures Sum(Summed(p), true) == Sum(Exposed(p), true) + Sum(Settled(p), true) && Sum(Settled(p), true) > 0
  {
    hide Sum;
    var n := HeaderLength(p);
    var a, b := p[12..20], Pseudo(p)[8..];
    var c, d := if n < 20 then p[n..20] else [], if n < 20 then p[20..] else p[n..];
    assert p[n..] == c + d;
    assert Summed(p) == a + (b + (c + d));
    SumFour(a, b, c, d);
    SettledPositive(p);
  }

  lemma SumFour(a: seq<byte>, b: seq<byte>, c: seq<byte>, d: seq<byte>)
    requires |a| % 2 == 0 && |b| % 2 == 0 && |c| % 2 == 0
    ensures Sum(a + (b + (c + d)), true) == Sum(a + c, true) + Sum(b + d, true)
  {
    hide Sum;
    SumTwo(a, b + (c + d));
    SumTwo(b, c + d);
    SumTwo(c, d);
    SumTwo(a, c);
    SumTwo(b, d);
  }

  lemma SettledPositive(p: seq<byte>)
    requires HasHeader(p)
    ensures Sum(Settled(p), true) > 0
  {
    hide SumWords;
    assert Settled(p)[0] == 0 && Settled(p)[1] == UDP;
    SumPositive(Settled(p), 0, Words(Settled(p)));
  }

  /** The exposed bytes after the rewrite, without the rewrite: with a header length of
      12 or more the header checksum is not among them. */
  function ExposedLater(p: seq<byte>, isServer: bool, addr: seq<byte>): (r: seq<byte>)
    requires HasHeader(p) && |addr| == 4
  {
    var q := SetAddress(p, isServer, addr);
    if HeaderLength(p) >= 12 then Exposed(q) else (IpFilledHeader(q); Exposed(IpFilled(q)))
  }

  lemma SkippedBytes(p: seq<byte>, isServer: bool, addr: seq<byte>)
    requires HasHeader(p) && p[9] == UDP && !LongSegment(p) && |addr| == 4
    ensures var r := Rewritten(p, isServer, addr);
            HasHeader(r) && Settled(r) == Settled(p) && Exposed(r) == ExposedLater(p, isServer, addr)
  {
    hide IpFilled, UdpFilled;
    var q := SetAddress(p, isServer, addr);
    IpFilledHeader(q);
    UdpFilledFrame(IpFilled(q));
    var r := IpFilled(q);
    assert Rewritten(p, isServer, addr) == r;
    var n := HeaderLength(p);
    assert r[20..] == p[20..] && (n >= 20 ==> r[n..] == p[n..]);
    assert r[12..20] == q[12..20];
    assert 12 <= n < 20 ==> r[n..20] == q[n..20];
  }

  /** A segment that udp4_fill_checksum skips keeps its old checksum: if that was
      right before the rewrite, it is right afterwards exactly when the exposed bytes
      have the same sum modulo 0xFFFF; with a legal header those are the addresses. */
  lemma SkippedSegment(p: seq<byte>, isServer: bool, addr: seq<byte>)
    requires HasHeader(p) && p[9] == 17 && |p| - HeaderLength(p) < 16 && UdpVerifies(p) && |addr| == 4
    ensures var r := Rewritten(p, isServer, addr);
            && HasHeader(r)
            && (UdpVerifies(r) <==> Sum(ExposedLater(p, isServer, addr), true) % 0xFFFF == Sum(Exposed(p), true) % 0xFFFF)
    ensures HeaderLength(p) >= 20 ==>
              Exposed(p) == p[12..20] && ExposedLater(p, isServer, addr) == SetAddress(p, isServer, addr)[12..20]
  {
    hide FoldAll, Sum, Summed, Settled, Rewritten, IpFilled;
    var r := Rewritten(p, isServer, addr);
    SkippedBytes(p, isServer, addr);
    ExposedAndSettled(p);
    ExposedAndSettled(r);
    var rest := Sum(Settled(p), true);
    AllOnesIff(Sum(Exposed(p), true) + rest);
    AllOnesIff(Sum(Exposed(r), true) + rest);
    SameResidue(Sum(Exposed(p), true), Sum(Exposed(r), true), rest);
  }

  // -------------------------------------------------------- prepare_tun_packet

  /** prepare_tun_packet on a buffer whose first four bytes are the tun header. The
      source aborts on a buffer without room for that header and on an IPv4
      header length beyond the packet. */
  method PrepareTunPacket(b: array<byte>, isServer: bool, addr: seq<byte>) returns (ok: bool)
    requires b.Length >= 4 && |addr| == 4
    requires b.Length >= 24 && b[4] / 16 == 4 ==> HasHeader(b[4..])
    modifies b
    ensures b[0] == 1 && b[1] == 0
    ensures ok == (b.Length >= 24 && (old(b[4]) / 16 == 4 || old(b[4]) / 16 == 6))
    ensures !ok ==> b[2..] == old(b[2..])
    ensures ok && old(b[4]) / 16 == 6 ==> b[2..] == [0x86, 0xDD] + old(b[4..])
    ensures ok && old(b[4]) / 16 == 4 ==> b[2..] == [0x08, 0x00] + Rewritten(old(b[4..]), isServer, addr)
  {
    hide IpFilled, UdpFilled;
    b[0], b[1] := 1, 0;
    if b.Length - 4 < 20 {
      return false;
    }
    var version := b[4] / 16;
    if version == 4 {
      RewriteInPlace(b, isServer, addr);
      b[2], b[3] := 0x08, 0x00;
      assert b[2..] == [0x08, 0x00] + b[4..];
      return true;
    } else if version == 6 {
      b[2], b[3] := 0x86, 0xDD;
      assert b[2..] == [0x86, 0xDD] + b[4..];
      return true;
    } else {
      return false;
    }
  }

  method RewriteInPlace(b: array<byte>, isServer: bool, addr: seq<byte>)
    requires b.Length >= 24 && |addr| == 4 && HasHeader(b[4..])
    modifies b
    ensures b[..4] == old(b[..4]) && b[4..] == Rewritten(old(b[4..]), isServer, addr)
  {
    hide IpFilled, UdpFilled;
    ghost var p := b[4..];
    var at := if isServer then 16 else 20;
    b[at], b[at + 1], b[at + 2], b[at + 3] := addr[0], addr[1], addr[2], addr[3];
    ghost var q := SetAddress(p, isServer, addr);
    forall i | 0 <= i < |p|
      ensures b[4..][i] == q[i]
    {
      assert p[i] == old(b[4 + i]);
    }
    assert b[4..] == q;
    IpFilledHeader(SetAddress(p, isServer, addr));
    Ip4FillChecksum(b, 4);
    assert b[13] == b[4..][9];
    if b[13] == UDP {
      Udp4FillChecksum(b, 4);
    }
  }

  /** The rewrite up to the UDP fill. */
  lemma BeforeUdpFill(p: seq<byte>, isServer: bool, addr: seq<byte>)
    requires HasHeader(p) && HeaderLength(p) >= 20 && |addr| == 4
    ensures var f, at := IpFilled(SetAddress(p, isServer, addr)), if isServer then 12 else 16;
            && HasHeader(f) && HeaderLength(f) == HeaderLength(p) && HeaderVerifies(f)
            && (forall i :: at <= i < at + 4 ==> f[i] == addr[i - at])
            && (forall i :: 0 <= i < |p| && !(at <= i < at + 4) && i != 10 && i != 11 ==> f[i] == p[i])
  {
    hide IpFilled, FoldAll, Sum;
    var q := SetAddress(p, isServer, addr);
    IpFilledHeader(q);
    IpFilledVerifies(q);
  }

  /** The UDP fill leaves the header as it is. */
  lemma UdpFillKeepsHeader(f: seq<byte>)
    requires HasHeader(f)
    ensures HasHeader(UdpFilled(f)) && HeaderVerifies(UdpFilled(f)) == HeaderVerifies(f)
  {
    hide UdpFilled, FoldAll, Sum;
    UdpFilledFrame(f);
    var n := HeaderLength(f);
    assert UdpFilled(f)[..n] == f[..n];
  }

  /** The rewrite in full: the header verifies, also after the UDP fill; a filled UDP
      segment verifies and carries a checksum; the new address is in place; and
      nothing but the address and the two checksum fields has changed. */
  lemma RewrittenCorrect(p: seq<byte>, isServer: bool, addr: seq<byte>)
    requires HasHeader(p) && HeaderLength(p) >= 20 && |addr| == 4
    ensures var r, n, at := Rewritten(p, isServer, addr), HeaderLength(p), if isServer then 12 else 16;
            var filled := p[9] == 17 && |p| - HeaderLength(p) >= 16;
            && HasHeader(r) && HeaderLength(r) == n && HeaderVerifies(r)
            && (forall i :: at <= i < at + 4 ==> r[i] == addr[i - at])
            && (filled ==> UdpVerifies(r) && (r[n + 6] != 0 || r[n + 7] != 0))
            && (forall i :: 0 <= i < |p| && !(at <= i < at + 4) && i != 10 && i != 11 && !(filled && n + 6 <= i <= n + 7) ==>
                  r[i] == p[i])
  {
    hide IpFilled, UdpFilled, HeaderVerifies, UdpVerifies, SetAddress, Summed, Sum;
    BeforeUdpFill(p, isServer, addr);
    var f := IpFilled(SetAddress(p, isServer, addr));
    UdpFilledFrame(f);
    UdpFillKeepsHeader(f);
    if LongSegment(p) {
      UdpFilledVerifies(f);
    }
  }
}
