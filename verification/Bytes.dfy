/** Bytes, fixed-width unsigned integers and the byte orders the wire formats use. */
module Bytes {
  type byte = n: nat | n < 256
  type u16 = n: nat | n < 0x1_0000
  type u64 = n: nat | n < TWO64

  const TWO63: nat := 0x8000_0000_0000_0000
  const TWO64: nat := 0x1_0000_0000_0000_0000
  const WORD: nat := 8

  datatype Option<+T> = None | Some(value: T)

  /** Subtraction of uint64_t values: it wraps. */
  function Sub64(a: int, b: int): (r: u64) {
    (a - b) % TWO64
  }

  /** Conversion of a uint64_t to a signed 64-bit integer: two's complement. */
  function Signed64(a: u64): (r: int)
    ensures -(TWO63 as int) <= r < TWO63
    ensures (r - a) % TWO64 == 0
  {
    if a < TWO63 then a else a - TWO64
  }

  /** Conversion of a uint64_t to a 32-bit int: the low half, two's complement. */
  function Signed32(a: u64): (r: int)
    ensures -0x8000_0000 <= r < 0x8000_0000
    ensures (r - a) % 0x1_0000_0000 == 0
  {
    var low := a % 0x1_0000_0000;
    if low < 0x8000_0000 then low else low - 0x1_0000_0000
  }

  function Pow256(k: nat): (r: nat)
    ensures r > 0
  {
    if k == 0 then 1 else 256 * Pow256(k - 1)
  }

  lemma Pow256Word()
    ensures Pow256(WORD) == TWO64
  {
    assert Pow256(3) == 0x100_0000;
    assert Pow256(6) == 0x1_0000_0000_0000;
  }

  /** The k low bytes of n, least significant first: how memcpy stores an
      integer on the little-endian hosts the program targets. */
  function ToLE(n: nat, k: nat): (s: seq<byte>)
    ensures |s| == k
    decreases k
  {
    if k == 0 then [] else [n % 256] + ToLE(n / 256, k - 1)
  }

  function FromLE(s: seq<byte>): (n: nat)
    ensures n < Pow256(|s|)
  {
    if s == [] then 0 else s[0] + 256 * FromLE(s[1..])
  }

  lemma {:induction false} LERoundTrip(n: nat, k: nat)
    requires n < Pow256(k)
    ensures FromLE(ToLE(n, k)) == n
    decreases k
  {
    if k > 0 {
      LERoundTrip(n / 256, k - 1);
      assert ToLE(n, k)[1..] == ToLE(n / 256, k - 1);
    }
  }

  lemma {:induction false} LERoundTripBack(s: seq<byte>)
    ensures ToLE(FromLE(s), |s|) == s
  {
    if s != [] {
      LERoundTripBack(s[1..]);
      assert FromLE(s) / 256 == FromLE(s[1..]);
    }
  }

  function EncodeU64(n: u64): (s: seq<byte>)
    ensures |s| == WORD
  {
    ToLE(n, WORD)
  }

  /** buffer.convert<uint64_t>(at) */
  function DecodeU64(s: seq<byte>, at: nat): (n: u64)
    requires at + WORD <= |s|
  {
    Pow256Word();
    FromLE(s[at..at + WORD])
  }

  lemma U64RoundTrip(before: seq<byte>, n: u64, after: seq<byte>)
    ensures DecodeU64(before + EncodeU64(n) + after, |before|) == n
  {
    var s := before + EncodeU64(n) + after;
    assert s[|before|..|before| + WORD] == EncodeU64(n);
    Pow256Word();
    LERoundTrip(n, WORD);
  }

  /** A stored 64-bit field starts with its least significant byte. */
  lemma LittleEndian(s: seq<byte>, at: nat)
    requires at + 8 <= |s|
    ensures DecodeU64(s, at) == (s[at] as nat) + 0x100 * (s[at + 1] as nat)
                                + 0x1_0000 * (s[at + 2] as nat) + 0x100_0000 * (s[at + 3] as nat)
                                + 0x1_0000_0000 * (s[at + 4] as nat) + 0x100_0000_0000 * (s[at + 5] as nat)
                                + 0x1_0000_0000_0000 * (s[at + 6] as nat) + 0x100_0000_0000_0000 * (s[at + 7] as nat)
  {
    var t := s[at..at + 8];
    FourBytes(t);
    FourBytes(t[4..]);
    assert FromLE(t[4..][4..]) == 0;
    assert forall k :: 0 <= k < 8 ==> t[k] == s[at + k];
  }

  lemma FourBytes(t: seq<byte>)
    requires |t| >= 4
    ensures FromLE(t) == (t[0] as nat) + 0x100 * (t[1] as nat) + 0x1_0000 * (t[2] as nat)
                         + 0x100_0000 * (t[3] as nat) + 0x1_0000_0000 * FromLE(t[4..])
  {
    assert t[1..][1..] == t[2..] && t[2..][1..] == t[3..] && t[3..][1..] == t[4..];
    assert FromLE(t) == t[0] + 256 * FromLE(t[1..]);
    assert FromLE(t[1..]) == t[1] + 256 * FromLE(t[2..]);
    assert FromLE(t[2..]) == t[2] + 256 * FromLE(t[3..]);
    assert FromLE(t[3..]) == t[3] + 256 * FromLE(t[4..]);
  }

  lemma Regroup<T>(a: seq<T>, b: seq<T>, c: seq<T>)
    ensures a + (b + c) == (a + b) + c
  {
  }
}
