/**
 The loops that build, split and extend free lists in memory: FreeList (utilis.h) and the
 carving and fetching loops of CentralCache (centralcache.cc).
 */
module FreeLists {
  import opened SizeClasses
  import opened PageModel
  import opened Blocks

  // Link words pointing from each block to the following one, and null at the end.
  lemma {:induction false} LinksMakeChain(m: Words, s: seq<Addr>)
    requires s != [] && forall a :: a in s ==> a != 0
    requires forall i :: 0 <= i < |s| - 1 ==> Word(m, s[i]) == s[i + 1]
    requires Word(m, s[|s| - 1]) == 0
    ensures Chain(m, s[0], s)
    decreases |s|
  {
    assert s[0] in s;
    if |s| > 1 {
      forall i | 0 <= i < |s[1..]| - 1 ensures Word(m, s[1..][i]) == s[1..][i + 1] {
        assert Word(m, s[i + 1]) == s[i + 2];
      }
      assert s[1..][|s[1..]| - 1] == s[|s| - 1];
      assert forall a :: a in s[1..] ==> a in s;
      assert Word(m, s[0]) == s[1];
      LinksMakeChain(m, s[1..]);
    } else {
      assert s[1..] == [];
    }
  }

  lemma CarvedDone(a: Addr, end: Addr, size: nat)
    requires size > 0 && a >= end
    ensures Carved(a, end, size) == []
  {
  }

  // The first k blocks are linked up to the k-th.
  ghost predicate LinkedUpTo(m: Words, blocks: seq<Addr>, k: nat) {
    1 <= k <= |blocks| && forall i :: 0 <= i < k - 1 ==> Word(m, blocks[i]) == blocks[i + 1]
  }

  ghost predicate SameOutside(m: Words, m': Words, blocks: seq<Addr>) {
    forall a :: a !in blocks ==> Word(m', a) == Word(m, a)
  }

  lemma CarvedStart(a: Addr, end: Addr, size: nat)
    requires size > 0 && a < end
    ensures var s := Carved(a, end, size); s != [] && s[0] == a && s[1..] == Carved(a + size, end, size)
  {
  }

  lemma DropNext(s: seq<Addr>, k: nat, t: seq<Addr>)
    requires k <= |s| && s[k..] == t && t != []
    ensures k < |s| && s[k] == t[0] && s[k + 1..] == t[1..]
  {
  }

  lemma LinkFirst(m: Words, blocks: seq<Addr>)
    requires blocks != []
    ensures LinkedUpTo(m, blocks, 1) && SameOutside(m, m, blocks)
  {
  }

  lemma LinkNext(m0: Words, m: Words, blocks: seq<Addr>, k: nat, start: Addr)
    requires NoDup(blocks) && LinkedUpTo(m, blocks, k) && k < |blocks| && start == blocks[k]
    requires SameOutside(m0, m, blocks)
    ensures var m' := m[blocks[k - 1] := start]; LinkedUpTo(m', blocks, k + 1) && SameOutside(m0, m', blocks)
  {
  }

  lemma LinkLast(m0: Words, m: Words, blocks: seq<Addr>)
    requires NoDup(blocks) && LinkedUpTo(m, blocks, |blocks|) && forall a :: a in blocks ==> a != 0
    requires SameOutside(m0, m, blocks)
    ensures var m' := m[blocks[|blocks| - 1] := 0]; Chain(m', blocks[0], blocks) && SameOutside(m0, m', blocks)
  {
    var m' := m[blocks[|blocks| - 1] := 0];
    forall i | 0 <= i < |blocks| - 1 ensures Word(m', blocks[i]) == blocks[i + 1] {}
    LinksMakeChain(m', blocks);
  }

  // One step along a list, from position k.
  lemma ChainStep(m: Words, p: Addr, s: seq<Addr>, k: nat)
    requires k <= |s| && Chain(m, p, s[k..]) && (p != 0 || k < |s|)
    ensures k < |s| && p == s[k] && Chain(m, Word(m, p), s[k + 1..])
  {
    assert s[k..] != [] ==> s[k..][1..] == s[k + 1..];
  }

  lemma ChainStop(m: Words, p: Addr, s: seq<Addr>, k: nat)
    requires k <= |s| && Chain(m, p, s[k..])
    ensures p == 0 <==> k == |s|
  {
  }

  // Ending a list after its first k blocks.
  lemma Detach(m: Words, head: Addr, s: seq<Addr>, k: nat)
    requires Chain(m, head, s) && NoDup(s) && 1 <= k <= |s|
    ensures var m' := m[s[k - 1] := 0];
      Chain(m', head, s[..k]) && Chain(m', Word(m, s[k - 1]), s[k..])
  {
    assert s == s[..k] + s[k..] && s[..k] + [] == s[..k];
    Relink(m, head, s[..k], s[k..], 0, []);
    forall a | a in s[k..] ensures a != s[k - 1] {}
    ChainFrame(m, Word(m, s[k - 1]), s[k..], s[k - 1], 0);
  }

  // How many blocks a fetch of cnt takes from a list of n; the test is on cnt - 1, which
  // wraps around for cnt == 0.
  function Taken(cnt: nat, n: nat): nat {
    if cnt == 0 || n <= cnt then n else cnt
  }

  class Memory {
    var words: Words

    /** getOneSpan: link the blocks of a fresh span, in address order. */
    method Carve(base: Addr, bytes: nat, size: nat) returns (freelist: Addr)
      requires 0 < base && 0 < bytes && 0 < size
      modifies this
      ensures Chain(words, freelist, Carved(base, base + bytes, size))
      ensures SameOutside(old(words), words, Carved(base, base + bytes, size))
    {
      hide LinkedUpTo, SameOutside, NoDup, Carved, Chain;
      ghost var blocks := Carved(base, base + bytes, size);
      CarvedBounds(base, base + bytes, size);
      CarvedStart(base, base + bytes, size);
      assert forall a :: a in blocks ==> a != 0;
      LinkFirst(words, blocks);
      var start, end := base, base + bytes;
      freelist := start;
      start := start + size;
      var tail := freelist;
      ghost var k := 1;
      while start < end
        invariant 1 <= k <= |blocks| && tail == blocks[k - 1]
        invariant blocks[k..] == Carved(start, end, size)
        invariant LinkedUpTo(words, blocks, k) && SameOutside(old(words), words, blocks)
        decreases end - start
      {
        CarvedStart(start, end, size);
        assert blocks[k..] != [];
        DropNext(blocks, k, Carved(start, end, size));
        LinkNext(old(words), words, blocks, k, start);
        words := words[tail := start];
        tail := words[tail];
        k := k + 1;
        start := start + size;
      }
      CarvedDone(start, end, size);
      LinkLast(old(words), words, blocks);
      words := words[tail := 0];
    }

    /** fetchRangeObj: detach the first blocks of a span's free list as a list of their own. */
    method FetchRange(freelist: Addr, cnt: nat, ghost s: seq<Addr>)
      returns (start: Addr, end: Addr, actual: nat, rest: Addr)
      requires Chain(words, freelist, s) && s != [] && NoDup(s) && |s| < WORD && cnt < WORD
      modifies this
      ensures actual == Taken(cnt, |s|) && 1 <= actual <= |s|
      ensures (0 < cnt < |s| ==> actual == cnt) && (cnt == 0 || |s| <= cnt ==> rest == 0)
      ensures end == s[actual - 1] && words == old(words)[end := 0]
      ensures Chain(words, start, s[..actual]) && Chain(words, rest, s[actual..])
    {
      hide Chain, NoDup, Disjoint;
      start, end, actual := freelist, freelist, 1;
      var left := cnt;
      ChainStep(words, freelist, s, 0);
      while Word(words, end) != 0 && (left + WORD - 1) % WORD != 0
        invariant 1 <= actual <= |s| && end == s[actual - 1]
        invariant Chain(words, Word(words, end), s[actual..])
        invariant left == (cnt + WORD - (actual - 1)) % WORD
        invariant (cnt != 0 ==> actual <= cnt) && words == old(words)
        decreases |s| - actual
      {
        ChainStep(words, Word(words, end), s, actual);
        end := Word(words, end);
        actual := actual + 1;
        left := (left + WORD - 1) % WORD;
      }
      ChainStop(words, Word(words, end), s, actual);
      rest := Word(words, end);
      Detach(words, freelist, s, actual);
      words := words[end := 0];
    }
  }

  /** A free list of a thread. push and pop leave size_ alone; pushRange and clear set it. */
  class FreeList {
    const mem: Memory
    var head: Addr
    var maxSize: nat
    var size: nat
    ghost var items: seq<Addr>

    ghost predicate Valid()
      reads this, mem
    {
      Chain(mem.words, head, items) && NoDup(items)
    }

    constructor (mem: Memory)
      ensures Valid() && this.mem == mem && items == [] && maxSize == 1 && size == 0
    {
      this.mem := mem;
      head, maxSize, size, items := 0, 1, 0, [];
    }

    method Push(obj: Addr)
      requires Valid() && obj != 0 && obj !in items
      modifies this`head, this`items, mem
      ensures Valid() && items == [obj] + old(items)
      ensures mem.words == old(mem.words)[obj := old(head)]
    {
      PushChain(mem.words, head, items, obj);
      mem.words := mem.words[obj := head];
      head := obj;
      items := [obj] + items;
    }

    method Pop() returns (obj: Addr)
      requires Valid() && items != []
      modifies this`head, this`items
      ensures Valid() && obj == old(items)[0] && items == old(items)[1..]
    {
      obj := head;
      head := Word(mem.words, head);
      items := items[1..];
    }

    /** Splices the list s, which ends in `end`, in front. */
    method PushRange(start: Addr, end: Addr, cnt: nat, ghost s: seq<Addr>)
      requires Valid() && s != [] && Chain(mem.words, start, s) && end == s[|s| - 1]
      requires NoDup(s) && Disjoint(s, items)
      modifies this`head, this`items, this`size, mem
      ensures Valid() && items == s + old(items) && size == old(size) + cnt
      ensures mem.words == old(mem.words)[end := old(head)]
    {
      assert s + [] == s;
      AppendNoDup(s, items);
      Relink(mem.words, start, s, [], head, items);
      mem.words := mem.words[end := head];
      head := start;
      size := size + cnt;
      items := s + items;
    }

    method Clear() returns (list: Addr)
      requires Valid()
      modifies this`head, this`items, this`size
      ensures Valid() && items == [] && size == 0 && Chain(mem.words, list, old(items))
    {
      size := 0;
      list := head;
      head := 0;
      items := [];
    }

    method Empty() returns (r: bool)
      requires Valid()
      ensures r == (items == [])
    {
      r := head == 0;
    }
  }
}
