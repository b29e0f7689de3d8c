/** The delaying byte pipe (throttled.cpp, DelayedStream). */
module Delay {
  import opened Bytes
  import LinkImpl

  /** A byte and the time it was accepted, or passed on. */
  datatype Stamped = Stamped(value: byte, time: nat)

  function Stamp(bytes: seq<byte>, time: nat): (r: seq<Stamped>)
    ensures |r| == |bytes|
  {
    seq(|bytes|, i requires 0 <= i < |bytes| => Stamped(bytes[i], time))
  }

  function Values(s: seq<Stamped>): (r: seq<byte>)
    ensures |r| == |s|
  {
    seq(|s|, i requires 0 <= i < |s| => s[i].value)
  }

  /** One accepted piece: its bytes and when write was called. */
  datatype Piece = Piece(bytes: seq<byte>, accepted: nat)

  /** Every buffered byte in order, with its acceptance time. */
  function Flatten(ps: seq<Piece>): (r: seq<Stamped>) {
    if ps == [] then [] else Stamp(ps[0].bytes, ps[0].accepted) + Flatten(ps[1..])
  }

  function TotalLength(ps: seq<Piece>): (n: nat) {
    if ps == [] then 0 else |ps[0].bytes| + TotalLength(ps[1..])
  }

  lemma {:induction false} FlattenSnoc(ps: seq<Piece>, p: Piece)
    ensures Flatten(ps + [p]) == Flatten(ps) + Stamp(p.bytes, p.accepted)
    ensures TotalLength(ps + [p]) == TotalLength(ps) + |p.bytes|
  {
    if ps == [] {
      assert ps + [p] == [p];
      assert Flatten([p]) == Stamp(p.bytes, p.accepted) + Flatten([p][1..]);
      assert TotalLength([p]) == |p.bytes| + TotalLength([p][1..]);
    } else {
      FlattenSnoc(ps[1..], p);
      assert (ps + [p])[1..] == ps[1..] + [p];
    }
  }

  lemma NoLength()
    ensures TotalLength([]) == 0
  {
  }

  lemma FlattenFront(ps: seq<Piece>)
    requires ps != []
    ensures Flatten(ps) == Stamp(ps[0].bytes, ps[0].accepted) + Flatten(ps[1..])
    ensures TotalLength(ps) == |ps[0].bytes| + TotalLength(ps[1..])
    ensures |Flatten(ps)| >= |ps[0].bytes|
  {
  }

  /** The k-th byte out is the k-th byte in, at least `delay` later. */
  ghost predicate InOrderAndLate(inbound: seq<Stamped>, outbound: seq<Stamped>, delay: nat) {
    && |outbound| <= |inbound|
    && forall k :: 0 <= k < |outbound| ==>
         outbound[k].value == inbound[k].value && outbound[k].time >= inbound[k].time + delay
  }

  class DelayedStream {
    const stream: LinkImpl.Stream
    const delay: nat
    const capacity: nat
    var buffers: seq<Piece>
    var waiting: nat
    var frontPointer: nat
    var buffsize: nat
    ghost var timers: seq<nat>         // deadlines of after_delay_fn, earliest first
    ghost var clock: nat
    ghost var inbound: seq<Stamped>    // bytes accepted by write
    ghost var outbound: seq<Stamped>   // bytes passed downstream

    /** Buffers, timers and free space account for each other. */
    ghost predicate Shape()
      reads this
    {
      && waiting + |timers| == |buffers|
      && (forall i :: 0 <= i < |timers| ==> timers[i] == buffers[waiting + i].accepted + delay)
      && (forall i :: 0 <= i < waiting ==> buffers[i].accepted + delay <= clock)
      && (forall i :: 0 <= i < |buffers| ==> buffers[i].bytes != [] && buffers[i].accepted <= clock)
      && (forall i, j :: 0 <= i < j < |buffers| ==> buffers[i].accepted <= buffers[j].accepted)
      && (frontPointer != 0 ==> waiting > 0 && frontPointer < |buffers[0].bytes|)
      && buffsize + TotalLength(buffers) == capacity
    }

    /** Bytes passed on, then bytes buffered, are the bytes accepted. */
    ghost predicate Flow()
      reads this
    {
      && InOrderAndLate(inbound, outbound, delay)
      && frontPointer <= |Flatten(buffers)|
      && inbound[|outbound|..] == Flatten(buffers)[frontPointer..]
    }

    ghost predicate Valid()
      reads this
    {
      Shape() && Flow()
    }

    constructor (s: LinkImpl.Stream, size: nat, wait: nat)
      ensures Valid() && stream == s && delay == wait && capacity == size && buffsize == size
      ensures inbound == [] && outbound == [] && timers == []
    {
      stream, delay, capacity := s, wait, size;
      buffers, waiting, frontPointer, buffsize := [], 0, 0, size;
      timers, clock, inbound, outbound := [], 0, [], [];
    }

    /** write: accept what fits and start its timer. */
    method Write(data: seq<byte>, now: nat) returns (wrote: nat)
      requires Valid() && data != [] && clock <= now
      modifies this
      ensures Valid() && clock == now
      ensures wrote == if |data| < old(buffsize) then |data| else old(buffsize)
      ensures inbound == old(inbound) + Stamp(data[..wrote], now) && outbound == old(outbound)
      ensures buffsize == old(buffsize) - wrote
      ensures timers == if wrote == 0 then old(timers) else old(timers) + [now + delay]
    {
      hide Flatten, TotalLength, InOrderAndLate;
      clock := now;
      wrote := if |data| < buffsize then |data| else buffsize;
      if wrote == 0 {
        return;
      }
      var piece := Piece(data[..wrote], now);
      FlattenSnoc(buffers, piece);
      AcceptedMore(inbound, outbound, delay, Flatten(buffers), frontPointer, Stamp(piece.bytes, now));
      buffsize := buffsize - wrote;
      buffers := buffers + [piece];
      timers := timers + [now + delay];
      inbound := inbound + Stamp(piece.bytes, now);
    }

    /** after_delay_fn: a timer whose deadline has come makes one more piece ready. */
    method AfterDelay(now: nat) returns (notify: bool)
      requires Valid() && timers != [] && timers[0] <= now && clock <= now
      modifies this, stream
      ensures Valid() && clock == now && timers == old(timers)[1..]
      ensures inbound == old(inbound) && old(outbound) <= outbound
      ensures stream.outgoing == old(stream.outgoing) + Values(outbound[|old(outbound)|..])
      ensures waiting == 0 || stream.room == 0
      ensures notify <==> buffsize != 0
      ensures !notify && capacity > 0 ==> timers != [] || (waiting > 0 && stream.room == 0)
    {
      hide Flatten, TotalLength, Values;
      clock := now;
      waiting := waiting + 1;
      timers := timers[1..];
      notify := WriteReady(now);
    }

    /** write_ready: pass ready pieces on until the stream refuses; notify stands for
        on_write_ready. A writer that is not notified will be: a timer or the
        stream calls again. */
    method WriteReady(now: nat) returns (notify: bool)
      requires Valid() && clock <= now
      modifies this, stream
      ensures Valid() && clock == now && timers == old(timers)
      ensures inbound == old(inbound) && old(outbound) <= outbound
      ensures stream.outgoing == old(stream.outgoing) + Values(outbound[|old(outbound)|..])
      ensures waiting == 0 || stream.room == 0
      ensures notify <==> buffsize != 0
      ensures !notify && capacity > 0 ==> timers != [] || (waiting > 0 && stream.room == 0)
    {
      hide Flatten, TotalLength, Values;
      clock := now;
      var refused := false;
      assert Values(outbound[|old(outbound)|..]) == [] by { NoValues(outbound); }
      while waiting > 0 && !refused
        invariant Valid() && clock == now && timers == old(timers)
        invariant inbound == old(inbound) && old(outbound) <= outbound
        invariant stream.outgoing == old(stream.outgoing) + Values(outbound[|old(outbound)|..])
        invariant refused ==> stream.room == 0
        decreases !refused, |inbound| - |outbound|
      {
        ghost var before := outbound;
        refused := PassSome(now);
        ValuesGrow(old(outbound), before, outbound);
      }
      notify := buffsize != 0;
      NoLength();
    }

    /** One turn of the loop: offer the rest of the front piece. */
    method PassSome(now: nat) returns (refused: bool)
      requires Valid() && waiting > 0 && clock == now
      modifies this, stream
      ensures Valid() && clock == now && timers == old(timers) && inbound == old(inbound)
      ensures old(outbound) <= outbound
      ensures stream.outgoing == old(stream.outgoing) + Values(outbound[|old(outbound)|..])
      ensures refused <==> |outbound| == |old(outbound)|
      ensures refused ==> stream.room == 0
    {
      hide Flatten, TotalLength, InOrderAndLate;
      var buff := buffers[0].bytes;
      var wrote := stream.Write(buff[frontPointer..]);
      if wrote == 0 {
        NoValues(outbound);
        return true;
      }
      FlattenFront(buffers);
      ghost var passed := Stamp(buff[frontPointer..frontPointer + wrote], now);
      PassedOn(inbound, outbound, delay, buffers[0], frontPointer, wrote, now, Flatten(buffers));
      outbound := outbound + passed;
      assert outbound[|old(outbound)|..] == passed;
      assert Values(passed) == buff[frontPointer..][..wrote];
      if wrote + frontPointer == |buff| {
        buffsize := buffsize + |buff|;
        buffers := buffers[1..];
        waiting := waiting - 1;
        frontPointer := 0;
      } else {
        frontPointer := frontPointer + wrote;
      }
      return false;
    }
  }

  lemma NoValues(s: seq<Stamped>)
    ensures Values(s[|s|..]) == []
  {
  }

  lemma AcceptedMore(inbound: seq<Stamped>, outbound: seq<Stamped>, delay: nat, all: seq<Stamped>, from: nat, more: seq<Stamped>)
    requires InOrderAndLate(inbound, outbound, delay) && from <= |all|
    requires inbound[|outbound|..] == all[from..]
    ensures InOrderAndLate(inbound + more, outbound, delay)
    ensures (inbound + more)[|outbound|..] == (all + more)[from..]
  {
    assert (inbound + more)[|outbound|..] == inbound[|outbound|..] + more;
    assert (all + more)[from..] == all[from..] + more;
  }

  lemma ValuesGrow(a: seq<Stamped>, b: seq<Stamped>, c: seq<Stamped>)
    requires a <= b <= c
    ensures Values(c[|a|..]) == Values(b[|a|..]) + Values(c[|b|..])
  {
  }

  lemma PassedOn(inbound: seq<Stamped>, outbound: seq<Stamped>, delay: nat,
                 piece: Piece, from: nat, wrote: nat, now: nat, all: seq<Stamped>)
    requires InOrderAndLate(inbound, outbound, delay) && piece.accepted + delay <= now
    requires from + wrote <= |piece.bytes| <= |all| && inbound[|outbound|..] == all[from..]
    requires all[..|piece.bytes|] == Stamp(piece.bytes, piece.accepted)
    ensures var longer := outbound + Stamp(piece.bytes[from..from + wrote], now);
            && InOrderAndLate(inbound, longer, delay)
            && inbound[|longer|..] == all[from + wrote..]
  {
    var longer := outbound + Stamp(piece.bytes[from..from + wrote], now);
    var left := inbound[|outbound|..];
    assert inbound[|longer|..] == left[wrote..];
    forall k | |outbound| <= k < |longer|
      ensures longer[k].value == inbound[k].value && longer[k].time >= inbound[k].time + delay
    {
      var i := k - |outbound|;
      assert inbound[k] == left[i] == all[from..][i] == all[from + i] == all[..|piece.bytes|][from + i];
    }
  }
}
