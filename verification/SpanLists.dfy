/**
 SpanList (utilis.h): circular doubly linked lists threaded through the spans themselves,
 each with a sentinel. The link fields of all spans are two maps from address to address.
 */
module SpanListing {
  import opened PageModel

  // The node after position i of the ring h, l[0], ..., l[|l| - 1], and the node before it.
  ghost function After(h: Ptr, l: seq<Ptr>, i: int): Ptr
    requires -1 <= i < |l|
  {
    if i + 1 < |l| then l[i + 1] else h
  }

  ghost function Before(h: Ptr, l: seq<Ptr>, i: int): Ptr
    requires 0 <= i <= |l|
  {
    if i == 0 then h else l[i - 1]
  }

  /** Following next_ from the sentinel visits l and returns; prev_ is the way back. */
  ghost predicate Ring(next: map<Ptr, Ptr>, prev: map<Ptr, Ptr>, h: Ptr, l: seq<Ptr>) {
    && NoDup(l) && h !in l
    && h in next && next[h] == After(h, l, -1)
    && h in prev && prev[h] == Before(h, l, |l|)
    && (forall i {:trigger next[l[i]]} {:trigger prev[l[i]]} {:trigger After(h, l, i)} {:trigger Before(h, l, i)} ::
          0 <= i < |l| ==>
          && l[i] in next && next[l[i]] == After(h, l, i)
          && l[i] in prev && prev[l[i]] == Before(h, l, i))
  }

  /** Inserting before the first node of a ring. */
  lemma PushFrontRing(next: map<Ptr, Ptr>, prev: map<Ptr, Ptr>, h: Ptr, l: seq<Ptr>, q: Ptr)
    requires Ring(next, prev, h, l) && q !in l && q != h
    ensures next[h] in prev && prev[next[h]] == h
    ensures Ring(next[h := q][q := next[h]], prev[q := h][next[h] := q], h, [q] + l)
  {
  }

  lemma EraseNoDup(l: seq<Ptr>, k: nat)
    requires NoDup(l) && k < |l|
    ensures NoDup(l[..k] + l[k + 1..]) && l[k] !in l[..k] + l[k + 1..]
    ensures forall x :: x in l[..k] + l[k + 1..] ==> x in l
  {
  }

  /** Unlinking the node at position k. */
  lemma EraseRing(next: map<Ptr, Ptr>, prev: map<Ptr, Ptr>, h: Ptr, l: seq<Ptr>, k: nat)
    requires Ring(next, prev, h, l) && k < |l|
    ensures var p, n := Before(h, l, k), After(h, l, k);
      && l[k] in next && next[l[k]] == n && l[k] in prev && prev[l[k]] == p
      && Ring(next[p := n], prev[n := p], h, l[..k] + l[k + 1..])
  {
    EraseNoDup(l, k);
    var l' := l[..k] + l[k + 1..];
    var p, n := Before(h, l, k), After(h, l, k);
    var next', prev' := next[p := n], prev[n := p];
    forall i | 0 <= i < |l'| ensures l'[i] in next' && next'[l'[i]] == After(h, l', i) {
      var j := if i < k then i else i + 1;
      assert l'[i] == l[j] && (j != k - 1 ==> After(h, l', i) == After(h, l, j));
    }
    forall i | 0 <= i < |l'| ensures l'[i] in prev' && prev'[l'[i]] == Before(h, l', i) {
      var j := if i < k then i else i + 1;
      assert l'[i] == l[j] && (j != k + 1 ==> Before(h, l', i) == Before(h, l, j));
    }
  }

  lemma RingFrame(next: map<Ptr, Ptr>, prev: map<Ptr, Ptr>, next': map<Ptr, Ptr>, prev': map<Ptr, Ptr>, h: Ptr,
        l: seq<Ptr>)
    requires Ring(next, prev, h, l)
    requires forall p :: p in next && (p in l || p == h) ==> p in next' && next'[p] == next[p]
    requires forall p :: p in prev && (p in l || p == h) ==> p in prev' && prev'[p] == prev[p]
    ensures Ring(next', prev', h, l)
  {
  }

  // Erasing the element at k behind the first one.
  lemma EraseBehind(l: seq<Ptr>, k: nat)
    requires 0 < k < |l|
    ensures [l[0]] + (l[1..][..k - 1] + l[1..][k..]) == l[..k] + l[k + 1..]
  {
    assert l[1..][k..] == l[k + 1..];
    assert l[..k] == [l[0]] + l[1..][..k - 1];
  }

  lemma FirstIsOther(l: seq<Ptr>, k: nat)
    requires NoDup(l) && 0 < k < |l|
    ensures l[0] != l[k] && l[1..][k - 1] == l[k] && NoDup(l[1..])
  {
  }

  lemma {:induction false} WithoutIsErase(l: seq<Ptr>, k: nat)
    requires NoDup(l) && k < |l|
    ensures Without(l, l[k]) == l[..k] + l[k + 1..]
  {
    hide NoDup;
    if k > 0 {
      FirstIsOther(l, k);
      WithoutIsErase(l[1..], k - 1);
      EraseBehind(l, k);
    } else {
      assert l[..0] + l[1..] == l[1..];
    }
  }

  /** One ring per sentinel; `home` says which ring a node is in, so no node is in two. */
  ghost predicate Rings(next: map<Ptr, Ptr>, prev: map<Ptr, Ptr>, head: seq<Ptr>, lists: Lists, home: map<Ptr, nat>) {
    && |lists| == |head|
    && (forall i :: 0 <= i < |head| ==> Ring(next, prev, head[i], lists[i]))
    && (forall i :: 0 <= i < |head| ==> head[i] in home && home[head[i]] == i)
    && (forall i, q :: 0 <= i < |head| && q in lists[i] ==> q in home && home[q] == i)
  }

  // Only nodes of ring i have been relinked.
  ghost predicate SameOutside(m: map<Ptr, Ptr>, m': map<Ptr, Ptr>, home: map<Ptr, nat>, i: nat) {
    forall p :: p in m && p in home && home[p] != i ==> p in m' && m'[p] == m[p]
  }

  lemma OtherRings(next: map<Ptr, Ptr>, prev: map<Ptr, Ptr>, next': map<Ptr, Ptr>, prev': map<Ptr, Ptr>,
                   head: seq<Ptr>, lists: Lists, home: map<Ptr, nat>, i: nat)
    requires Rings(next, prev, head, lists, home)
    requires SameOutside(next, next', home, i) && SameOutside(prev, prev', home, i)
    ensures forall j :: 0 <= j < |head| && j != i ==> Ring(next', prev', head[j], lists[j])
  {
    hide Ring;
    forall j | 0 <= j < |head| && j != i ensures Ring(next', prev', head[j], lists[j]) {
      assert Ring(next, prev, head[j], lists[j]) && home[head[j]] == j;
      RingFrame(next, prev, next', prev', head[j], lists[j]);
    }
  }

  lemma PushFrontRings(next: map<Ptr, Ptr>, prev: map<Ptr, Ptr>, head: seq<Ptr>, lists: Lists, home: map<Ptr, nat>,
        i: nat, q: Ptr)
    requires Rings(next, prev, head, lists, home) && i < |head|
    requires q !in head && forall j :: 0 <= j < |head| ==> q !in lists[j]
    ensures head[i] in next && next[head[i]] in prev && prev[next[head[i]]] == head[i]
    ensures var h := head[i];
      Rings(next[h := q][q := next[h]], prev[q := h][next[h] := q], head, lists[i := [q] + lists[i]], home[q := i])
  {
    var h := head[i];
    assert Ring(next, prev, h, lists[i]);
    PushFrontRing(next, prev, h, lists[i], q);
    hide Ring;
    assert q in home ==> home[q] != i || home[q] == i;
    var next', prev' := next[h := q][q := next[h]], prev[q := h][next[h] := q];
    forall j | 0 <= j < |head| && j != i ensures Ring(next', prev', head[j], lists[j]) {
      assert Ring(next, prev, head[j], lists[j]) && home[head[j]] == j && home[h] == i;
      assert next[h] in lists[i] || next[h] == h by { PushFrontNext(next, prev, h, lists[i]); }
      RingFrame(next, prev, next', prev', head[j], lists[j]);
    }
  }

  lemma PushFrontNext(next: map<Ptr, Ptr>, prev: map<Ptr, Ptr>, h: Ptr, l: seq<Ptr>)
    requires Ring(next, prev, h, l)
    ensures h in next && (next[h] in l || next[h] == h)
  {
  }

  lemma EraseRings(next: map<Ptr, Ptr>, prev: map<Ptr, Ptr>, head: seq<Ptr>, lists: Lists, home: map<Ptr, nat>,
        i: nat, k: nat)
    requires Rings(next, prev, head, lists, home) && i < |head| && k < |lists[i]|
    ensures var l := lists[i]; var q := l[k];
      && q in next && q in prev
      && Rings(next[prev[q] := next[q]], prev[next[q] := prev[q]], head, lists[i := l[..k] + l[k + 1..]], home)
  {
    var l := lists[i];
    assert Ring(next, prev, head[i], l) && l[k] in l && home[head[i]] == i;
    var p, n := Before(head[i], l, k), After(head[i], l, k);
    assert home[p] == i && home[n] == i;
    EraseRing(next, prev, head[i], l, k);
    EraseNoDup(l, k);
    hide Ring;
    OtherRings(next, prev, next[p := n], prev[n := p], head, lists, home, i);
  }

  /** The span lists of one cache: n sentinels, and the link fields of all spans. */
  class SpanLists {
    const head: seq<Ptr>
    var next: map<Ptr, Ptr>
    var prev: map<Ptr, Ptr>
    ghost var lists: Lists
    ghost var home: map<Ptr, nat>

    ghost predicate Valid()
      reads this
    {
      Rings(next, prev, head, lists, home)
    }

    constructor (sentinels: seq<Ptr>)
      requires NoDup(sentinels)
      ensures Valid() && head == sentinels && lists == seq(|sentinels|, _ => [])
    {
      head := sentinels;
      next := map p | p in sentinels :: p;
      prev := map p | p in sentinels :: p;
      lists := seq(|sentinels|, _ => []);
      home := Positions(sentinels);
    }

    static ghost function Positions(l: seq<Ptr>): (m: map<Ptr, nat>)
      requires NoDup(l)
      ensures forall i :: 0 <= i < |l| ==> l[i] in m && m[l[i]] == i
    {
      map p | p in l :: var i :| 0 <= i < |l| && l[i] == p; i
    }

    method Empty(i: nat) returns (r: bool)
      requires Valid() && i < |head|
      ensures r == (lists[i] == [])
    {
      assert Ring(next, prev, head[i], lists[i]);
      r := head[i] == next[head[i]];
    }

    method Insert(pos: Ptr, newspan: Ptr)
      requires pos in prev
      modifies this`next, this`prev
      ensures next == old(next)[old(prev)[pos] := newspan][newspan := pos]
      ensures prev == old(prev)[newspan := old(prev)[pos]][pos := newspan]
    {
      var p := prev[pos];
      next := next[p := newspan];
      prev := prev[newspan := p];
      next := next[newspan := pos];
      prev := prev[pos := newspan];
    }

    method PushFront(i: nat, q: Ptr)
      requires Valid() && i < |head| && q !in head && forall j :: 0 <= j < |head| ==> q !in lists[j]
      modifies this
      ensures Valid() && lists == old(lists)[i := [q] + old(lists)[i]]
    {
      PushFrontRings(next, prev, head, lists, home, i, q);
      Insert(next[head[i]], q);
      lists := lists[i := [q] + lists[i]];
      home := home[q := i];
    }

    /** erase looks at the span alone; i is the list it is in. */
    method Erase(pos: Ptr, ghost i: nat)
      requires Valid() && i < |head| && pos in lists[i]
      modifies this
      ensures Valid() && lists == old(lists)[i := Without(old(lists)[i], pos)]
    {
      ghost var k :| 0 <= k < |lists[i]| && lists[i][k] == pos;
      assert Ring(next, prev, head[i], lists[i]);
      WithoutIsErase(lists[i], k);
      EraseRings(next, prev, head, lists, home, i, k);
      hide Rings, Without;
      var p, n := prev[pos], next[pos];
      next := next[p := n];
      prev := prev[n := p];
      lists := lists[i := Without(lists[i], pos)];
    }

    method PopFront(i: nat) returns (q: Ptr)
      requires Valid() && i < |head| && lists[i] != []
      modifies this
      ensures Valid() && q == old(lists)[i][0] && lists == old(lists)[i := Without(old(lists)[i], q)]
    {
      assert Ring(next, prev, head[i], lists[i]) && lists[i][0] in lists[i];
      q := next[head[i]];
      Erase(q, i);
    }
  }
}
