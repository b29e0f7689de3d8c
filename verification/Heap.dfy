/** The heap operations the scheduler takes from the C++ library, on a vector of
    link indices ordered by a key per link (least key on top). */
module Heap {
  /** L holds every index below n exactly once. */
  ghost predicate IsPerm(L: seq<nat>, n: nat) {
    && |L| == n
    && (forall i :: 0 <= i < n ==> L[i] < n)
    && (forall i, j :: 0 <= i < j < n ==> L[i] != L[j])
    && (forall j: nat :: j < n ==> j in L)
  }

  function Parent(i: nat): nat
    requires i > 0
  {
    (i - 1) / 2
  }

  /** Entry i is no smaller than its parent. */
  ghost predicate InOrder(L: seq<nat>, key: seq<int>, i: nat)
    requires IsPerm(L, |key|) && 0 < i < |L|
  {
    key[L[Parent(i)]] <= key[L[i]]
  }

  /** The first m entries form a heap. */
  ghost predicate IsHeap(L: seq<nat>, m: nat, key: seq<int>)
    requires IsPerm(L, |key|) && m <= |L|
  {
    forall i :: 0 < i < m ==> InOrder(L, key, i)
  }

  /** As IsHeap, except that entry pos may be smaller than its parent. */
  ghost predicate Rising(L: seq<nat>, m: nat, key: seq<int>, pos: nat)
    requires IsPerm(L, |key|) && pos < m <= |L|
  {
    && (forall i :: 0 < i < m && i != pos ==> InOrder(L, key, i))
    && (pos > 0 ==> forall i :: 0 < i < m && Parent(i) == pos ==> key[L[Parent(pos)]] <= key[L[i]])
  }

  /** As IsHeap, except that entry pos may be larger than its children. */
  ghost predicate Sinking(L: seq<nat>, m: nat, key: seq<int>, pos: nat)
    requires IsPerm(L, |key|) && pos < |L| && m <= |L|
  {
    && (forall i :: 0 < i < m && Parent(i) != pos ==> InOrder(L, key, i))
    && (pos > 0 ==> forall i :: 0 < i < m && Parent(i) == pos ==> key[L[Parent(pos)]] <= key[L[i]])
  }

  lemma {:induction false} TopIsLeast(L: seq<nat>, m: nat, key: seq<int>, i: nat)
    requires IsPerm(L, |key|) && i < m <= |L| && IsHeap(L, m, key)
    ensures key[L[0]] <= key[L[i]]
  {
    hide IsPerm;
    if i > 0 {
      assert InOrder(L, key, i);
      TopIsLeast(L, m, key, Parent(i));
    }
  }

  function Swap(L: seq<nat>, i: nat, j: nat): (r: seq<nat>)
    requires i < |L| && j < |L|
    ensures |r| == |L| && r[i] == L[j] && r[j] == L[i]
    ensures forall k :: 0 <= k < |L| && k != i && k != j ==> r[k] == L[k]
  {
    L[i := L[j]][j := L[i]]
  }

  lemma SwapKeeps(L: seq<nat>, n: nat, i: nat, j: nat)
    requires IsPerm(L, n) && i < n && j < n
    ensures IsPerm(Swap(L, i, j), n)
  {
    var r := Swap(L, i, j);
    forall x: nat | x < n
      ensures x in r
    {
      assert x in L;
      var k :| 0 <= k < n && L[k] == x;
      assert r[if k == i then j else if k == j then i else k] == x;
    }
  }

  lemma RiseStep(L: seq<nat>, m: nat, key: seq<int>, pos: nat)
    requires IsPerm(L, |key|) && 0 < pos < m <= |L| && Rising(L, m, key, pos)
    requires key[L[pos]] < key[L[Parent(pos)]]
    ensures IsPerm(Swap(L, pos, Parent(pos)), |key|)
    ensures Rising(Swap(L, pos, Parent(pos)), m, key, Parent(pos))
  {
    var up := Parent(pos);
    var r := Swap(L, pos, up);
    SwapKeeps(L, |key|, pos, up);
    forall i | 0 < i < m && i != up
      ensures InOrder(r, key, i)
    {
      if i != pos { assert InOrder(L, key, i); }
    }
    if up > 0 {
      assert InOrder(L, key, up);
      forall i | 0 < i < m && Parent(i) == up
        ensures key[r[Parent(up)]] <= key[r[i]]
      {
        if i != pos { assert InOrder(L, key, i); }
      }
    }
  }

  /** Insert entry m - 1 into the heap before it (std::push_heap). */
  method SiftUp(L0: seq<nat>, m: nat, key: seq<int>) returns (L: seq<nat>)
    requires IsPerm(L0, |key|) && 1 <= m <= |L0| && IsHeap(L0, m - 1, key)
    ensures IsPerm(L, |key|) && IsHeap(L, m, key)
    ensures L[m..] == L0[m..]
  {
    L := L0;
    var pos := m - 1;
    while pos > 0 && key[L[pos]] < key[L[Parent(pos)]]
      invariant IsPerm(L, |key|) && 0 <= pos < m && L[m..] == L0[m..]
      invariant Rising(L, m, key, pos)
    {
      RiseStep(L, m, key, pos);
      L, pos := Swap(L, pos, Parent(pos)), Parent(pos);
    }
  }

  lemma SinkStep(L: seq<nat>, m: nat, key: seq<int>, pos: nat, child: nat)
    requires IsPerm(L, |key|) && pos < child < m <= |L| && Parent(child) == pos && Sinking(L, m, key, pos)
    requires key[L[child]] < key[L[pos]]
    requires forall i :: 0 < i < m && Parent(i) == pos ==> key[L[child]] <= key[L[i]]
    ensures IsPerm(Swap(L, pos, child), |key|)
    ensures Sinking(Swap(L, pos, child), m, key, child)
  {
    var r := Swap(L, pos, child);
    SwapKeeps(L, |key|, pos, child);
    forall i | 0 < i < m && Parent(i) != child
      ensures InOrder(r, key, i)
    {
      if Parent(i) != pos { assert InOrder(L, key, i); }
    }
    forall i | 0 < i < m && Parent(i) == child
      ensures key[r[Parent(child)]] <= key[r[i]]
    {
      assert InOrder(L, key, i);
    }
  }

  /** Move the top to the end and restore the heap before it (std::pop_heap). */
  method PopHeap(L0: seq<nat>, key: seq<int>) returns (L: seq<nat>)
    requires IsPerm(L0, |key|) && |L0| >= 1 && IsHeap(L0, |L0|, key)
    ensures IsPerm(L, |key|) && IsHeap(L, |L| - 1, key) && L[|L| - 1] == L0[0]
  {
    var m := |L0| - 1;
    SwapKeeps(L0, |key|, 0, m);
    L := Swap(L0, 0, m);
    assert forall i :: 0 < i < m && Parent(i) != 0 && InOrder(L0, key, i) ==> InOrder(L, key, i);
    L := SiftDown(L, m, key);
  }

  /** The entry at the top of the first m may be too large: let it sink. */
  method SiftDown(L0: seq<nat>, m: nat, key: seq<int>) returns (L: seq<nat>)
    requires IsPerm(L0, |key|) && m < |L0| && Sinking(L0, m, key, 0)
    ensures IsPerm(L, |key|) && IsHeap(L, m, key) && L[m..] == L0[m..]
  {
    L := L0;
    var pos := 0;
    while 2 * pos + 1 < m
      invariant IsPerm(L, |key|) && 0 <= pos < |L| && L[m..] == L0[m..]
      invariant Sinking(L, m, key, pos)
      decreases m - pos
    {
      var child := LesserChild(L, m, key, pos);
      if key[L[pos]] <= key[L[child]] {
        Settled(L, m, key, pos);
        return;
      }
      SinkStep(L, m, key, pos, child);
      L, pos := Swap(L, pos, child), child;
    }
    Settled(L, m, key, pos);
  }

  method LesserChild(L: seq<nat>, m: nat, key: seq<int>, pos: nat) returns (child: nat)
    requires IsPerm(L, |key|) && 2 * pos + 1 < m <= |L|
    ensures pos < child < m && Parent(child) == pos
    ensures forall i :: 0 < i < m && Parent(i) == pos ==> key[L[child]] <= key[L[i]]
  {
    child := 2 * pos + 1;
    if child + 1 < m && key[L[child + 1]] < key[L[child]] {
      child := child + 1;
    }
    LeastChild(L, m, key, pos, child);
  }

  lemma Settled(L: seq<nat>, m: nat, key: seq<int>, pos: nat)
    requires IsPerm(L, |key|) && pos < |L| && m <= |L| && Sinking(L, m, key, pos)
    requires forall i :: 0 < i < m && Parent(i) == pos ==> key[L[pos]] <= key[L[i]]
    ensures IsHeap(L, m, key)
  {
    hide IsPerm;
  }

  lemma LeastChild(L: seq<nat>, m: nat, key: seq<int>, pos: nat, child: nat)
    requires IsPerm(L, |key|) && child < m <= |L| && (child == 2 * pos + 1 || child == 2 * pos + 2)
    requires child == 2 * pos + 1 ==> child + 1 < m ==> key[L[child]] <= key[L[child + 1]]
    requires child == 2 * pos + 2 ==> key[L[child]] <= key[L[child - 1]]
    ensures forall i :: 0 < i < m && Parent(i) == pos ==> key[L[child]] <= key[L[i]]
  {
  }

  lemma IdentityPerm(L: seq<nat>, n: nat)
    requires |L| == n && forall i :: 0 <= i < n ==> L[i] == i
    ensures IsPerm(L, n)
  {
    forall j: nat | j < n
      ensures j in L
    {
      assert L[j] == j;
    }
  }

  /** std::make_heap on the vector 0, 1, ..., n - 1. */
  method MakeHeap(key: seq<int>) returns (L: seq<nat>)
    ensures IsPerm(L, |key|) && IsHeap(L, |key|, key)
  {
    L := seq(|key|, i requires 0 <= i < |key| => i);
    IdentityPerm(L, |key|);
    for m := 0 to |key|
      invariant IsPerm(L, |key|) && IsHeap(L, m, key)
    {
      L := SiftUp(L, m + 1, key);
    }
  }
}
