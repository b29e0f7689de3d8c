/** One's-complement sums: the per-step carry the code uses, the deferred carries
    of section 1 of RFC 1071, and their independence of byte order. */
module Checksum {
  import opened Bytes

  const ALL_ONES: nat := 0xFFFF

  /** checksum_carry. */
  function Carry(c: nat): (r: nat) {
    c % 0x1_0000 + c / 0x1_0000
  }

  /** The verifier of RFC 1071: add everything up, then fold until 16 bits are left. */
  function FoldAll(n: nat): (r: nat)
    ensures r <= ALL_ONES
  {
    if n <= ALL_ONES then n else FoldAll(Carry(n))
  }

  /** Whatever order the carries are folded in, the result is the one number of 16
      bits that is congruent to the sum, and zero only for a zero sum. */
  lemma {:induction false} FoldAllUnique(n: nat, r: nat)
    requires r <= ALL_ONES && r % 0xFFFF == n % 0xFFFF && (r == 0 <==> n == 0)
    ensures FoldAll(n) == r
  {
    if n <= ALL_ONES {
      SmallUnique(n, r);
    } else {
      CarryCongruent(n);
      FoldAllUnique(Carry(n), r);
    }
  }

  lemma SmallUnique(n: nat, r: nat)
    requires n <= ALL_ONES && r <= ALL_ONES && r % 0xFFFF == n % 0xFFFF && (r == 0 <==> n == 0)
    ensures n == r
  {
  }

  lemma CarryCongruent(n: nat)
    ensures Carry(n) % 0xFFFF == n % 0xFFFF && (Carry(n) == 0 <==> n == 0)
    ensures n > ALL_ONES ==> Carry(n) < n
  {
    var q := n / 0x1_0000;
    assert n == Carry(n) + q * 0xFFFF;
    ModAdd(Carry(n), q);
  }

  lemma {:induction false} ModAdd(x: nat, q: nat)
    ensures (x + q * 0xFFFF) % 0xFFFF == x % 0xFFFF
  {
    if q > 0 {
      ModAdd(x, q - 1);
      assert x + q * 0xFFFF == (x + (q - 1) * 0xFFFF) + 0xFFFF;
    }
  }

  lemma {:induction false} FoldAllCongruent(n: nat)
    ensures FoldAll(n) % 0xFFFF == n % 0xFFFF && (FoldAll(n) == 0 <==> n == 0)
  {
    if n > ALL_ONES {
      CarryCongruent(n);
      FoldAllCongruent(Carry(n));
    }
  }

  /** Adding one 16-bit word and folding once keeps the accumulator exact. */
  lemma StepExact(sum: nat, c: nat, w: u16)
    requires c == FoldAll(sum)
    ensures Carry(c + w) == FoldAll(sum + w) <= ALL_ONES
  {
    FoldAllCongruent(sum);
    CarryCongruent(c + w);
    CongruentPlus(c, sum, w);
    FoldAllUnique(sum + w, Carry(c + w));
  }

  lemma CongruentPlus(a: nat, b: nat, w: nat)
    requires a % 0xFFFF == b % 0xFFFF
    ensures (a + w) % 0xFFFF == (b + w) % 0xFFFF
  {
  }

  /** Storing the complement makes the sum all ones. */
  lemma ComplementVerifies(sum: nat)
    ensures FoldAll(sum + (ALL_ONES - FoldAll(sum))) == ALL_ONES
  {
    FoldAllCongruent(sum);
    CongruentPlus(FoldAll(sum), sum, ALL_ONES - FoldAll(sum));
    FoldAllUnique(sum + (ALL_ONES - FoldAll(sum)), ALL_ONES);
  }

  lemma AllOnesIff(sum: nat)
    ensures FoldAll(sum) == ALL_ONES <==> sum > 0 && sum % 0xFFFF == 0
  {
    FoldAllCongruent(sum);
    if sum > 0 && sum % 0xFFFF == 0 {
      FoldAllUnique(sum, ALL_ONES);
    }
  }

  // ------------------------------------------------------------ sums of words

  /** Byte i, or the zero that pads an odd length. */
  function ByteAt(s: seq<byte>, i: nat): byte {
    if i < |s| then s[i] else 0
  }

  /** Word k in network order (big) or in the order of the host (little). */
  function Word(s: seq<byte>, k: nat, big: bool): (w: u16) {
    var a: nat, b: nat := ByteAt(s, 2 * k), ByteAt(s, 2 * k + 1);
    if big then 256 * a + b else a + 256 * b
  }

  function Words(s: seq<byte>): nat {
    (|s| + 1) / 2
  }

  /** The sum of the first n words. */
  function SumWords(s: seq<byte>, n: nat, big: bool): (r: nat)
    decreases n
  {
    if n == 0 then 0 else SumWords(s, n - 1, big) + Word(s, n - 1, big)
  }

  function Sum(s: seq<byte>, big: bool): (r: nat) {
    SumWords(s, Words(s), big)
  }

  /** Byte-order independence: swapping the bytes of every word swaps the sum. */
  lemma {:induction false} ByteOrder(s: seq<byte>, n: nat)
    ensures SumWords(s, n, true) % 0xFFFF == (256 * SumWords(s, n, false)) % 0xFFFF
    ensures SumWords(s, n, true) == 0 <==> SumWords(s, n, false) == 0
    decreases n
  {
    if n > 0 {
      ByteOrder(s, n - 1);
      var be, le := SumWords(s, n - 1, true), 256 * SumWords(s, n - 1, false);
      var a: nat, b: nat := ByteAt(s, 2 * n - 2), ByteAt(s, 2 * n - 1);
      assert Word(s, n - 1, true) == 256 * a + b && Word(s, n - 1, false) == a + 256 * b;
      CongruentPlus(be, le, 256 * a + b);
      ModAdd(le + (256 * a + b), b);
      assert le + 256 * (a + 256 * b) == le + (256 * a + b) + b * 0xFFFF;
    }
  }

  /** A sum is all ones in one byte order exactly when it is in the other. */
  lemma VerifiesEitherOrder(s: seq<byte>)
    ensures FoldAll(Sum(s, true)) == ALL_ONES <==> FoldAll(Sum(s, false)) == ALL_ONES
  {
    var be, le := Sum(s, true), Sum(s, false);
    ByteOrder(s, Words(s));
    AllOnesIff(be);
    AllOnesIff(le);
    Scale(le);
  }

  lemma Scale(n: nat)
    ensures (256 * n) % 0xFFFF == 0 <==> n % 0xFFFF == 0
  {
    var q, r := n / 0xFFFF, n % 0xFFFF;
    ModAdd(256 * r, 256 * q);
    assert 256 * n == 256 * r + (256 * q) * 0xFFFF;
    ScaleSmall(r);
  }

  lemma ScaleSmall(r: nat)
    requires r < 0xFFFF
    ensures (256 * r) % 0xFFFF == 0 <==> r == 0
  {
    if (256 * r) % 0xFFFF == 0 {
      var k := (256 * r) / 0xFFFF;
      assert 256 * r == k * 0xFFFF && k < 256;
      assert 256 * (256 * k - r) == k;
    }
  }

  /** Two strings that differ in word k only. */
  lemma {:induction false} SumChange(s: seq<byte>, t: seq<byte>, k: nat, n: nat, big: bool)
    requires |s| == |t| && forall i :: 0 <= i < |s| && i != 2 * k && i != 2 * k + 1 ==> s[i] == t[i]
    ensures SumWords(t, n, big) + (if k < n then Word(s, k, big) else 0)
         == SumWords(s, n, big) + (if k < n then Word(t, k, big) else 0)
    decreases n
  {
    if n > 0 {
      SumChange(s, t, k, n - 1, big);
    }
  }

  /** The words of s + t are those of s, then those of t, when s has even length. */
  lemma {:induction false} SumConcat(s: seq<byte>, t: seq<byte>, n: nat, big: bool)
    requires |s| % 2 == 0
    ensures SumWords(s + t, |s| / 2 + n, big) == Sum(s, big) + SumWords(t, n, big)
    decreases n
  {
    if n == 0 {
      SumPrefix(s, t, |s| / 2, big);
    } else {
      SumConcat(s, t, n - 1, big);
      assert Word(s + t, |s| / 2 + n - 1, big) == Word(t, n - 1, big);
    }
  }

  lemma {:induction false} SumPrefix(s: seq<byte>, t: seq<byte>, n: nat, big: bool)
    requires 2 * n <= |s|
    ensures SumWords(s + t, n, big) == SumWords(s, n, big)
    decreases n
  {
    if n > 0 {
      SumPrefix(s, t, n - 1, big);
    }
  }
}
