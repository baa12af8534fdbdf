/**
 One bucket of CentralCache (centralcache.cc): its list of spans, their free lists threaded
 through memory, and the loops that search, fetch and release. The blocks given back in one
 releaseList may belong to any of the bucket's spans.
 */
module CentralCaching {
  import opened SizeClasses
  import opened PageModel
  import opened Blocks
  import FreeLists

  /** A bucket as a value; `returned` are the spans handed back to PageCache, in order. */
  datatype Bucket = Bucket(spans: seq<Ptr>, free: map<Ptr, seq<Addr>>, useCnt: map<Ptr, nat>, returned: seq<Ptr>)

  // ---------- releaseList on values ----------

  // Block a of span q may come back: q is listed and has a block outstanding.
  predicate CanTakeBack(b: Bucket, q: Ptr) {
    q in b.free && q in b.useCnt && b.useCnt[q] > 0
  }

  function TakeBack(b: Bucket, a: Addr, q: Ptr): Bucket
    requires CanTakeBack(b, q)
  {
    var n := b.useCnt[q] - 1;
    if n > 0 then b.(free := b.free[q := [a] + b.free[q]], useCnt := b.useCnt[q := n])
    else Bucket(Without(b.spans, q), b.free - {q}, b.useCnt - {q}, b.returned + [q])
  }

  /** mapToSpan answers owner[a] for each block of the chain. */
  predicate CanRelease(b: Bucket, s: seq<Addr>, owner: map<Addr, Ptr>)
    decreases |s|
  {
    s == [] || (s[0] in owner && CanTakeBack(b, owner[s[0]])
      && CanRelease(TakeBack(b, s[0], owner[s[0]]), s[1..], owner))
  }

  function Released(b: Bucket, s: seq<Addr>, owner: map<Addr, Ptr>): Bucket
    requires CanRelease(b, s, owner)
    decreases |s|
  {
    if s == [] then b else Released(TakeBack(b, s[0], owner[s[0]]), s[1..], owner)
  }

  // How many blocks of the chain belong to span q.
  function Share(s: seq<Addr>, owner: map<Addr, Ptr>, q: Ptr): nat {
    if s == [] then 0 else (if s[0] in owner && owner[s[0]] == q then 1 else 0) + Share(s[1..], owner, q)
  }

  /** releaseList may be called exactly when every listed span has at least as many blocks
      outstanding as the chain brings back. */
  lemma {:induction false} CanReleaseIff(b: Bucket, s: seq<Addr>, owner: map<Addr, Ptr>)
    requires b.free.Keys == b.useCnt.Keys
    ensures CanRelease(b, s, owner) <==>
      (forall a :: a in s ==> a in owner) && forall q :: Share(s, owner, q) > 0 ==>
          q in b.useCnt && Share(s, owner, q) <= b.useCnt[q]
    decreases |s|
  {
    if s != [] {
      SharesFirst(s, owner);
      assert forall a :: a in s <==> a == s[0] || a in s[1..];
      if s[0] in owner && CanTakeBack(b, owner[s[0]]) {
        CanReleaseIff(TakeBack(b, s[0], owner[s[0]]), s[1..], owner);
        CanReleaseStep(b, s, owner);
      }
    }
  }

  lemma SharesFirst(s: seq<Addr>, owner: map<Addr, Ptr>)
    requires s != []
    ensures s[0] in owner ==> Share(s, owner, owner[s[0]]) == 1 + Share(s[1..], owner, owner[s[0]])
    ensures forall q :: !(s[0] in owner && owner[s[0]] == q) ==> Share(s, owner, q) == Share(s[1..], owner, q)
  {
  }

  lemma CanReleaseStep(b: Bucket, s: seq<Addr>, owner: map<Addr, Ptr>)
    requires b.free.Keys == b.useCnt.Keys && s != [] && s[0] in owner && CanTakeBack(b, owner[s[0]])
    ensures var b' := TakeBack(b, s[0], owner[s[0]]);
      (forall q :: Share(s, owner, q) > 0 ==> q in b.useCnt && Share(s, owner, q) <= b.useCnt[q]) <==>
      (forall q :: Share(s[1..], owner, q) > 0 ==> q in b'.useCnt && Share(s[1..], owner, q) <= b'.useCnt[q])
  {
    SharesFirst(s, owner);
    hide Share;
    var b', p := TakeBack(b, s[0], owner[s[0]]), owner[s[0]];
    if forall q :: Share(s, owner, q) > 0 ==> q in b.useCnt && Share(s, owner, q) <= b.useCnt[q] {
      forall q | Share(s[1..], owner, q) > 0 ensures q in b'.useCnt && Share(s[1..], owner, q) <= b'.useCnt[q] {
        assert Share(s, owner, q) > 0;
      }
    }
    if forall q :: Share(s[1..], owner, q) > 0 ==> q in b'.useCnt && Share(s[1..], owner, q) <= b'.useCnt[q] {
      forall q | Share(s, owner, q) > 0 ensures q in b.useCnt && Share(s, owner, q) <= b.useCnt[q] {
        if q != p { assert Share(s[1..], owner, q) > 0; }
      }
    }
  }

  /** A released chain takes its share off each span's use count, and the span goes back to
      PageCache exactly when that share is all that was outstanding. */
  lemma {:induction false} ReleaseCounts(b: Bucket, s: seq<Addr>, owner: map<Addr, Ptr>, q: Ptr)
    requires b.free.Keys == b.useCnt.Keys && CanRelease(b, s, owner) && q in b.useCnt && b.useCnt[q] > 0
      && q !in b.returned
    ensures var b' := Released(b, s, owner);
      && (q in b'.returned <==> Share(s, owner, q) == b.useCnt[q])
      && (q in b'.useCnt <==> q !in b'.returned)
      && (q in b'.useCnt ==> b'.useCnt[q] == b.useCnt[q] - Share(s, owner, q))
    decreases |s|
  {
    if s != [] {
      var p := owner[s[0]];
      var b1 := TakeBack(b, s[0], p);
      SharesFirst(s, owner);
      if p == q && b.useCnt[q] == 1 {
        assert q in b1.returned;
        ReleasedForGood(b1, s[1..], owner, q);
        NoMoreShare(b1, s[1..], owner, q);
      } else {
        ReleaseCounts(b1, s[1..], owner, q);
      }
    }
  }

  lemma {:induction false} ReleasedForGood(b: Bucket, s: seq<Addr>, owner: map<Addr, Ptr>, q: Ptr)
    requires CanRelease(b, s, owner) && q in b.returned && q !in b.useCnt
    ensures q in Released(b, s, owner).returned && q !in Released(b, s, owner).useCnt
    decreases |s|
  {
    if s != [] {
      ReleasedForGood(TakeBack(b, s[0], owner[s[0]]), s[1..], owner, q);
    }
  }

  lemma {:induction false} NoMoreShare(b: Bucket, s: seq<Addr>, owner: map<Addr, Ptr>, q: Ptr)
    requires CanRelease(b, s, owner) && q !in b.useCnt
    ensures Share(s, owner, q) == 0
    decreases |s|
  {
    if s != [] {
      NoMoreShare(TakeBack(b, s[0], owner[s[0]]), s[1..], owner, q);
    }
  }

  // ---------- the bucket in memory ----------

  /** Each span's free list is threaded through its free blocks. */
  ghost predicate Threaded(m: Words, freelist: map<Ptr, Addr>, free: map<Ptr, seq<Addr>>) {
    forall q :: q in free ==> q in freelist && Chain(m, freelist[q], free[q]) && NoDup(free[q])
  }

  ghost predicate Apart(free: map<Ptr, seq<Addr>>) {
    forall q, r :: q in free && r in free && q != r ==> Disjoint(free[q], free[r])
  }

  /** The blocks s are on no free list. */
  ghost predicate Outside(free: map<Ptr, seq<Addr>>, s: seq<Addr>) {
    forall q :: q in free ==> Disjoint(s, free[q])
  }

  // A link word outside the free lists changes.
  lemma ThreadedFrame(m: Words, freelist: map<Ptr, Addr>, free: map<Ptr, seq<Addr>>, a: Addr, v: Addr)
    requires Threaded(m, freelist, free) && forall q :: q in free ==> a !in free[q]
    ensures Threaded(m[a := v], freelist, free)
  {
    hide Chain, NoDup;
    forall q | q in free ensures Chain(m[a := v], freelist[q], free[q]) {
      ChainFrame(m, freelist[q], free[q], a, v);
    }
  }

  lemma PushThreads(m: Words, freelist: map<Ptr, Addr>, free: map<Ptr, seq<Addr>>, q: Ptr, a: Addr)
    requires Threaded(m, freelist, free) && Apart(free) && Outside(free, [a]) && q in free && q in freelist && a != 0
    ensures Threaded(m[a := freelist[q]], freelist[q := a], free[q := [a] + free[q]])
    ensures Apart(free[q := [a] + free[q]])
  {
    hide Chain;
    assert a in [a];
    ThreadedFrame(m, freelist, free, a, freelist[q]);
    PushChain(m, freelist[q], free[q], a);
    AppendNoDup([a], free[q]);
  }

  lemma FetchThreads(m: Words, freelist: map<Ptr, Addr>, free: map<Ptr, seq<Addr>>, q: Ptr, n: nat, rest: Addr)
    requires Threaded(m, freelist, free) && Apart(free) && q in free && 1 <= n <= |free[q]|
    requires Chain(m[free[q][n - 1] := 0], rest, free[q][n..])
    ensures Threaded(m[free[q][n - 1] := 0], freelist[q := rest], free[q := free[q][n..]])
    ensures Apart(free[q := free[q][n..]]) && Outside(free[q := free[q][n..]], free[q][..n])
  {
    hide Chain;
    assert free[q][n - 1] in free[q];
    assert free[q] == free[q][..n] + free[q][n..];
    assert forall a :: a in free[q][..n] ==> a in free[q];
    assert forall a :: a in free[q][n..] ==> a in free[q];
    forall r | r in free && r != q ensures Chain(m[free[q][n - 1] := 0], freelist[r], free[r]) {
      assert Disjoint(free[q], free[r]);
      ChainFrame(m, freelist[r], free[r], free[q][n - 1], 0);
    }
  }

  lemma CarveThreads(m: Words, m': Words, freelist: map<Ptr, Addr>, free: map<Ptr, seq<Addr>>, q: Ptr, head: Addr,
        blocks: seq<Addr>)
    requires Threaded(m, freelist, free) && Apart(free) && Outside(free, blocks) && q !in free && NoDup(blocks)
    requires Chain(m', head, blocks) && FreeLists.SameOutside(m, m', blocks)
    ensures Threaded(m', freelist[q := head], free[q := blocks]) && Apart(free[q := blocks])
  {
    hide Chain, NoDup;
    forall r | r in free ensures Chain(m', freelist[r], free[r]) {
      assert Disjoint(blocks, free[r]);
      ChainSame(m, m', freelist[r], free[r]);
    }
  }

  lemma DropThreads(m: Words, freelist: map<Ptr, Addr>, free: map<Ptr, seq<Addr>>, q: Ptr)
    requires Threaded(m, freelist, free) && Apart(free)
    ensures Threaded(m, freelist - {q}, free - {q}) && Apart(free - {q})
  {
    hide Chain, NoDup;
  }

  class CentralBucket {
    const mem: FreeLists.Memory
    var spans: seq<Ptr>
    var freelist: map<Ptr, Addr>
    var useCnt: map<Ptr, nat>
    ghost var free: map<Ptr, seq<Addr>>
    ghost var returned: seq<Ptr>

    ghost function View(): Bucket
      reads this
    {
      Bucket(spans, free, useCnt, returned)
    }

    ghost predicate Valid()
      reads this, mem
    {
      && free.Keys == freelist.Keys == useCnt.Keys && (forall q :: q in spans ==> q in free)
      && Threaded(mem.words, freelist, free) && Apart(free)
    }

    constructor (mem: FreeLists.Memory)
      ensures Valid() && this.mem == mem && View() == Bucket([], map[], map[], [])
    {
      this.mem := mem;
      spans, freelist, useCnt, free, returned := [], map[], map[], map[], [];
    }

    /** getOneSpan: the first listed span whose free list is not empty. */
    method FindSpan() returns (k: nat)
      requires Valid()
      ensures k <= |spans| && (k < |spans| ==> spans[k] in free && free[spans[k]] != [])
      ensures forall j :: 0 <= j < k ==> spans[j] in free && free[spans[j]] == []
    {
      k := 0;
      while k < |spans| && freelist[spans[k]] == 0
        invariant 0 <= k <= |spans|
        invariant forall j :: 0 <= j < k ==> spans[j] in free && free[spans[j]] == []
      {
        k := k + 1;
      }
    }

    /** getOneSpan, after PageCache granted span q of `bytes` bytes at base: cut it, list it. */
    method AddSpan(q: Ptr, base: Addr, bytes: nat, size: nat)
      requires Valid() && q !in free && 0 < base && 0 < bytes && 0 < size
      requires Outside(free, Carved(base, base + bytes, size))
      modifies this, mem
      ensures Valid() && View() == Bucket([q] + old(spans), old(free)[q := Carved(base, base + bytes, size)],
          old(useCnt)[q := 0], old(returned))
    {
      hide Threaded, Apart, Outside, Chain, Carved, FreeLists.SameOutside;
      ghost var blocks := Carved(base, base + bytes, size);
      CarvedBounds(base, base + bytes, size);
      var head := mem.Carve(base, bytes, size);
      CarveThreads(old(mem.words), mem.words, freelist, free, q, head, blocks);
      freelist, useCnt, free := freelist[q := head], useCnt[q := 0], free[q := blocks];
      spans := [q] + spans;
    }

    /** fetchRangeObj on span q: up to cnt blocks leave its free list as a chain of their own,
        and the span counts them as outstanding. */
    method FetchRangeObj(q: Ptr, cnt: nat) returns (start: Addr, end: Addr, actual: nat)
      requires Valid() && q in free && free[q] != [] && |free[q]| < WORD && cnt < WORD
      modifies this`freelist, this`useCnt, this`free, mem
      ensures Valid() && actual == FreeLists.Taken(cnt, |old(free)[q]|) && 1 <= actual <= |old(free)[q]|
      ensures free == old(free)[q := old(free)[q][actual..]] && useCnt == old(useCnt)[q := old(useCnt)[q] + actual]
      ensures if 0 < cnt < |old(free)[q]| then actual == cnt else free[q] == []
      ensures Chain(mem.words, start, old(free)[q][..actual]) && end == old(free)[q][actual - 1]
      ensures Outside(free, old(free)[q][..actual])
    {
      hide Apart, Outside, Chain, NoDup;
      ghost var s := free[q];
      assert Chain(mem.words, freelist[q], s) && NoDup(s);
      hide Threaded;
      var rest;
      start, end, actual, rest := mem.FetchRange(freelist[q], cnt, s);
      FetchThreads(old(mem.words), freelist, free, q, actual, rest);
      freelist := freelist[q := rest];
      free := free[q := s[actual..]];
      useCnt := useCnt[q := useCnt[q] + actual];
    }

    // a block goes back on its span's free list
    method PushBack(a: Addr, q: Ptr)
      requires Valid() && CanTakeBack(View(), q) && a != 0 && Outside(free, [a])
      modifies this`freelist, this`free, this`useCnt, mem
      ensures Valid() && free == old(free)[q := [a] + old(free)[q]] && useCnt == old(useCnt)[q := old(useCnt)[q] - 1]
      ensures mem.words == old(mem.words)[a := old(freelist)[q]]
    {
      hide Threaded, Apart, Outside;
      PushThreads(mem.words, freelist, free, q, a);
      mem.words := mem.words[a := freelist[q]];
      freelist, free := freelist[q := a], free[q := [a] + free[q]];
      useCnt := useCnt[q := useCnt[q] - 1];
    }

    // a span leaves for PageCache
    method Unlist(q: Ptr)
      requires Valid() && NoDup(spans)
      modifies this
      ensures Valid() && NoDup(spans) && View() == Bucket(Without(old(spans), q), old(free) - {q},
          old(useCnt) - {q}, old(returned) + [q])
    {
      hide Threaded, Apart, NoDup;
      DropThreads(mem.words, freelist, free, q);
      WithoutFacts(spans, q);
      spans := Without(spans, q);
      freelist, free, useCnt := freelist - {q}, free - {q}, useCnt - {q};
      returned := returned + [q];
    }

    // releaseList, one block: push it on its span; the span leaves when it was the last.
    method TakeOne(a: Addr, q: Ptr)
      requires Valid() && CanTakeBack(View(), q) && a != 0 && Outside(free, [a]) && NoDup(spans)
      modifies this, mem
      ensures Valid() && View() == TakeBack(old(View()), a, q) && NoDup(spans)
      ensures mem.words == old(mem.words)[a := old(freelist)[q]]
    {
      hide Valid, Outside, NoDup;
      PushBack(a, q);
      if useCnt[q] == 0 {
        Unlist(q);
        assert free == old(free) - {q} && useCnt == old(useCnt) - {q};
      }
    }

    /** releaseList: walks the chain s from start, whatever spans of the bucket its blocks
        belong to; `owner` is what mapToSpan answers. */
    method ReleaseList(start: Addr, owner: map<Addr, Ptr>, ghost s: seq<Addr>)
      requires Valid() && NoDup(spans) && Chain(mem.words, start, s) && NoDup(s) && Outside(free, s)
      requires CanRelease(View(), s, owner)
      modifies this, mem
      ensures Valid() && View() == Released(old(View()), s, owner)
    {
      hide NoDup, Outside, Valid;
      var it := start;
      ghost var i := 0;
      assert s[0..] == s;
      while it != 0
        invariant 0 <= i <= |s| && Valid() && NoDup(spans)
        invariant Chain(mem.words, it, s[i..]) && NoDup(s[i..]) && Outside(free, s[i..])
        invariant CanRelease(View(), s[i..], owner)
          && Released(View(), s[i..], owner) == Released(old(View()), s, owner)
        decreases |s| - i
      {
        ghost var rest := s[i + 1..];
        assert s[i..] == [it] + rest && s[i..][1..] == rest;
        HeadApart(free, it, rest);
        var next := Word(mem.words, it);
        ghost var m, b := mem.words, View();
        TakeOne(it, owner[it]);
        ChainFrame(m, next, rest, it, mem.words[it]);
        StillOutside(b, it, owner[it], rest);
        it := next;
        i := i + 1;
      }
    }
  }

  // The first block of a chain without repetitions is apart from the rest.
  lemma HeadApart(free: map<Ptr, seq<Addr>>, a: Addr, rest: seq<Addr>)
    requires Outside(free, [a] + rest) && NoDup([a] + rest)
    ensures Outside(free, [a]) && Outside(free, rest) && NoDup(rest) && a !in rest
  {
    var s := [a] + rest;
    assert s[0] == a && forall i :: 0 <= i < |rest| ==> s[i + 1] == rest[i];
  }

  lemma StillOutside(b: Bucket, a: Addr, q: Ptr, rest: seq<Addr>)
    requires CanTakeBack(b, q) && Outside(b.free, rest) && a !in rest
    ensures Outside(TakeBack(b, a, q).free, rest)
  {
  }
}
