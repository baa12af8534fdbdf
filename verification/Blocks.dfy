/**
 Blocks and the free lists threaded through them: nextObj, FreeList (utilis.h) and the
 carving, fetching and releasing loops of CentralCache (centralcache.cc).

 The first 8 bytes of a free block hold the address of the next one. Memory is a map from
 word addresses to words; 0 is the null pointer.
 */
module Blocks {
  import opened SizeClasses
  import opened PageModel

  type Addr = nat
  type Words = map<Addr, Addr>

  // nextObj(p)
  function Word(m: Words, a: Addr): Addr {
    if a in m then m[a] else 0
  }

  function Head(s: seq<Addr>): Addr {
    if s == [] then 0 else s[0]
  }

  /** The list that starts at head visits exactly s and ends in null. */
  ghost predicate Chain(m: Words, head: Addr, s: seq<Addr>)
    decreases |s|
  {
    if s == [] then head == 0
    else head == s[0] && head != 0 && Chain(m, Word(m, head), s[1..])
  }

  /** A write outside the blocks of a list leaves the list alone. */
  lemma {:induction false} ChainFrame(m: Words, head: Addr, s: seq<Addr>, a: Addr, v: Addr)
    requires Chain(m, head, s) && a !in s
    ensures Chain(m[a := v], head, s)
    decreases |s|
  {
    if s != [] {
      ChainFrame(m, Word(m, head), s[1..], a, v);
    }
  }

  lemma {:induction false} ChainSame(m: Words, m': Words, head: Addr, s: seq<Addr>)
    requires Chain(m, head, s) && forall a :: a in s ==> Word(m', a) == Word(m, a)
    ensures Chain(m', head, s)
    decreases |s|
  {
    if s != [] {
      assert s[0] in s && forall a :: a in s[1..] ==> a in s;
      ChainSame(m, m', Word(m, head), s[1..]);
    }
  }

  lemma {:induction false} ChainIsUnique(m: Words, head: Addr, s: seq<Addr>, s': seq<Addr>)
    requires Chain(m, head, s) && Chain(m, head, s')
    ensures s == s'
    decreases |s|
  {
    if s != [] {
      ChainIsUnique(m, Word(m, head), s[1..], s'[1..]);
    }
  }

  // Two lists of blocks that have no block in common.
  ghost predicate Disjoint(s: seq<Addr>, t: seq<Addr>) {
    forall a :: a in s ==> a !in t
  }

  lemma AppendNoDup(s: seq<Addr>, t: seq<Addr>)
    requires NoDup(s) && NoDup(t) && Disjoint(s, t)
    ensures NoDup(s + t)
  {
    forall i, j | 0 <= i < j < |s + t| ensures (s + t)[i] != (s + t)[j] {
      if i < |s| <= j { assert s[i] in s && t[j - |s|] in t; }
    }
  }

  /** Cutting a list after its first part s and splicing the list t onto it. */
  lemma {:induction false} Relink(m: Words, head: Addr, s: seq<Addr>, rest: seq<Addr>, tail: Addr, t: seq<Addr>)
    requires s != [] && Chain(m, head, s + rest) && NoDup(s + rest)
    requires Chain(m, tail, t) && Disjoint(s, t)
    ensures var last := s[|s| - 1]; Chain(m, Word(m, last), rest) && Chain(m[last := tail], head, s + t)
    decreases |s|
  {
    var last := s[|s| - 1];
    assert (s + rest)[0] == s[0] && (s + rest)[1..] == s[1..] + rest;
    assert (s + t)[0] == s[0] && (s + t)[1..] == s[1..] + t;
    if |s| == 1 {
      assert s[1..] + rest == rest && s[1..] + t == t;
      ChainFrame(m, tail, t, last, tail);
    } else {
      assert forall a :: a in s[1..] ==> a in s;
      assert (s + rest)[|s| - 1] == last;
      assert NoDup((s + rest)[1..]);
      Relink(m, Word(m, head), s[1..], rest, tail, t);
    }
  }

  /** Pushing a block that is not in the list. */
  lemma PushChain(m: Words, head: Addr, s: seq<Addr>, a: Addr)
    requires Chain(m, head, s) && a !in s && a != 0
    ensures Chain(m[a := head], a, [a] + s)
  {
    ChainFrame(m, head, s, a, head);
    assert ([a] + s)[1..] == s;
  }

  // ---------- carving ----------

  /** The starts of the blocks of `size` bytes cut from [a, end). */
  function Carved(a: Addr, end: Addr, size: nat): seq<Addr>
    requires size > 0
    decreases end - a
  {
    if a >= end then [] else [a] + Carved(a + size, end, size)
  }

  lemma {:induction false} CarvedBounds(a: Addr, end: Addr, size: nat)
    requires size > 0
    ensures forall x :: x in Carved(a, end, size) ==> a <= x < end
    ensures NoDup(Carved(a, end, size))
    decreases end - a
  {
    if a < end {
      var rest := Carved(a + size, end, size);
      CarvedBounds(a + size, end, size);
      assert Carved(a, end, size) == [a] + rest;
      assert forall i :: 0 <= i < |rest| ==> rest[i] in rest;
    }
  }

  /** Block i starts at a + i * size, and there are ceil((end - a) / size) blocks. */
  lemma {:induction false} CarvedAt(a: Addr, end: Addr, size: nat)
    requires size > 0 && a < end
    ensures var n := |Carved(a, end, size)|; n >= 1 && (n - 1) * size < end - a <= n * size
    ensures forall i :: 0 <= i < |Carved(a, end, size)| ==> Carved(a, end, size)[i] == a + i * size
    decreases end - a
  {
    var rest := Carved(a + size, end, size);
    assert Carved(a, end, size) == [a] + rest;
    if a + size < end {
      CarvedAt(a + size, end, size);
      forall i | 1 <= i < |rest| + 1 ensures Carved(a, end, size)[i] == a + i * size {
        assert rest[i - 1] == a + size + (i - 1) * size;
        assert (i - 1) * size == i * size - size;
      }
      assert (|rest| - 1) * size == |rest| * size - size && (|rest| + 1) * size == |rest| * size + size;
    } else {
      assert 0 * size == 0 && 1 * size == size;
    }
  }

  /** Every link word lies inside the carved region. */
  lemma {:induction false} LinkWordsFit(a: Addr, end: Addr, size: nat)
    requires size > 0 && size % 8 == 0 && a % 8 == 0 && end % 8 == 0
    ensures forall x :: x in Carved(a, end, size) ==> x % 8 == 0 && x + 8 <= end
    decreases end - a
  {
    if a < end {
      assert (a + size) % 8 == 0;
      LinkWordsFit(a + size, end, size);
      assert Carved(a, end, size) == [a] + Carved(a + size, end, size);
    }
  }

  /** Blocks are at least `size` apart. */
  lemma {:induction false} BlocksAreSpaced(a: Addr, end: Addr, size: nat, x: Addr, y: Addr)
    requires size > 0 && x in Carved(a, end, size) && y in Carved(a, end, size) && x < y
    ensures x + size <= y
    decreases end - a
  {
    var rest := Carved(a + size, end, size);
    assert Carved(a, end, size) == [a] + rest;
    CarvedBounds(a + size, end, size);
    if x == a {
      assert y in rest;
    } else {
      assert x in rest && y in rest;
      BlocksAreSpaced(a + size, end, size, x, y);
    }
  }

  /** All blocks lie entirely inside the region exactly when the size divides its length;
      otherwise the last block reaches past the end. */
  lemma BlocksFitIffDivides(a: Addr, end: Addr, size: nat)
    requires size > 0 && a < end
    ensures (forall x :: x in Carved(a, end, size) ==> x + size <= end) <==> (end - a) % size == 0
  {
    CarvedAt(a, end, size);
    CarvedBounds(a, end, size);
    var blocks := Carved(a, end, size);
    var n := |blocks|;
    var last := blocks[n - 1];
    assert last == a + (n - 1) * size && (n - 1) * size == n * size - size;
    assert last in blocks && last + size == a + n * size;
    MultipleIff(end - a, n, size);
    forall x | x in blocks && last + size == end ensures x + size <= end {
      if x < last { BlocksAreSpaced(a, end, size, x, last); }
      else if last < x { BlocksAreSpaced(a, end, size, last, x); }
    }
  }

  // A length just short of n * d is a multiple of d only if it is n * d.
  lemma MultipleIff(len: nat, n: nat, d: nat)
    requires d > 0 && n >= 1 && (n - 1) * d < len <= n * d
    ensures len % d == 0 <==> len == n * d
  {
    var q := len / d;
    assert len == q * d + len % d;
    assert (n + 1) * d == n * d + d && (q + 1) * d == q * d + d;
    if q < n {
      MulMono(q, n - 1, d);
      MulMono(q + 1, n, d);
    } else {
      MulMono(n, q, d);
      if q > n { MulMono(n + 1, q, d); }
    }
  }
}
