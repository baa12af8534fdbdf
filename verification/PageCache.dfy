/**
 PageCache (pagecache.cc) over its real parts: the span records, the intrusive bucket lists
 and the radix tree. Each method is proved against the page-heap model.
 */
module PageCaching {
  import opened MapWrites
  import opened PageModel
  import opened SpanListing
  import opened RadixTrees

  class PageCache {
    const buckets: SpanLists
    const hash: RadixTree<Ptr>
    var spans: map<Ptr, Span>
    ghost var owner: map<nat, Ptr>
    // history: the writes to the page map so far
    ghost var writes: seq<Write>

    ghost function Repr(): set<object>
      reads this, hash
    {
      {this, buckets} + hash.Repr
    }

    ghost predicate Valid()
      reads this, buckets, hash, hash.Repr
    {
      && buckets !in hash.Repr && this !in hash.Repr
      && buckets.Valid() && hash.Valid() && |buckets.head| == MAX_PAGES + 1
      && (forall q :: q in spans ==> q !in buckets.head)
    }

    ghost function View(): State
      reads this, buckets, hash
    {
      State(spans, buckets.lists, hash.M, owner)
    }

    // The address of a new span: no live span and no sentinel is there.
    ghost predicate Unused(p: Ptr)
      reads this
    {
      p !in spans && p !in buckets.head
    }

    constructor (sentinels: seq<Ptr>)
      requires NoDup(sentinels) && |sentinels| == MAX_PAGES + 1
      ensures Valid() && View() == Init() && buckets.head == sentinels && fresh(Repr()) && writes == []
    {
      buckets := new SpanLists(sentinels);
      hash := new RadixTree<Ptr>();
      spans, owner, writes := map[], map[], [];
    }

    static lemma SetRangeStep(m: map<nat, Ptr>, from: nat, i: nat, q: Ptr)
      ensures SetRange(m, from, 0, q) == m
      ensures SetRange(m, from, i + 1, q) == SetRange(m, from, i, q)[from + i := q]
    {
    }

    method MapPage(page: nat, q: Ptr)
      requires Valid() && page < PAGE_LIMIT
      modifies this`writes, hash.Repr
      ensures Valid() && fresh(hash.Repr - old(hash.Repr))
      ensures View() == old(View()).(hash := old(hash.M)[page := q]) && writes == old(writes) + [Write(page, q)]
    {
      hide RadixTree.Valid, SpanLists.Valid;
      hash.Set(page, q);
      writes := writes + [Write(page, q)];
    }

    // The loop that maps every page of a span that is about to be handed out.
    method MapPages(q: Ptr)
      requires Valid() && q in spans && spans[q].pageId + spans[q].cnt <= PAGE_LIMIT
      modifies this`writes, hash.Repr
      ensures Valid() && fresh(hash.Repr - old(hash.Repr)) && View() == MapAll(old(View()), q)
      ensures writes == old(writes) + Ranged(spans[q].pageId, spans[q].cnt, q)
    {
      hide SetRange, Valid, SpanLists.Valid, RadixTree.Valid;
      var sp := spans[q];
      ghost var s0 := View();
      SetRangeStep(s0.hash, sp.pageId, 0, q);
      assert Ranged(sp.pageId, 0, q) == [];
      var i := 0;
      while i < sp.cnt
        invariant 0 <= i <= sp.cnt
        invariant Valid() && fresh(hash.Repr - old(hash.Repr))
        invariant View() == s0.(hash := SetRange(s0.hash, sp.pageId, i, q))
        invariant writes == old(writes) + Ranged(sp.pageId, i, q)
      {
        SetRangeStep(s0.hash, sp.pageId, i, q);
        MapPage(sp.pageId + i, q);
        i := i + 1;
      }
    }

    // All that following list entries to span records takes.
    ghost predicate Consistent()
      reads this, buckets, hash, hash.Repr
    {
      Valid() && Partition(spans, owner) && Listed(spans, buckets.lists, {})
    }

    ghost predicate Linked(q: Ptr)
      reads buckets
    {
      exists j :: 0 <= j < |buckets.lists| && q in buckets.lists[j]
    }

    method PopBucket(i: nat) returns (q: Ptr)
      requires Valid() && i <= MAX_PAGES && View().lists[i] != []
      modifies buckets
      ensures Valid() && q == old(View()).lists[i][0] && View() == Unlink(old(View()), i, q)
    {
      hide Ring, RadixTree.Valid;
      q := buckets.PopFront(i);
    }

    method PushBucket(i: nat, q: Ptr)
      requires Valid() && i <= MAX_PAGES && q !in buckets.head && !Linked(q)
      modifies buckets
      ensures Valid() && View() == Link(old(View()), i, q)
    {
      hide Ring, RadixTree.Valid;
      buckets.PushFront(i, q);
    }

    // The head of a span becomes a new span at address k.
    method CutRecord(x: Ptr, n: nat, k: Ptr)
      requires Valid() && x in spans && n <= spans[x].cnt && k !in buckets.head
      modifies this`spans, this`owner
      ensures Valid() && View() == PageModel.Cut(old(View()), x, n, k)
    {
      hide SpanLists.Valid, RadixTree.Valid;
      var sp := spans[x];
      spans := spans[x := sp.(pageId := sp.pageId + n, cnt := sp.cnt - n)][k := Span(sp.pageId, n, false, 0, 0)];
      owner := SetRange(owner, sp.pageId, n, k);
    }

    // An exact fit.
    method TakeFirst(n: nat) returns (q: Ptr)
      requires Consistent() && 1 <= n <= MAX_PAGES && View().lists[n] != []
      modifies Repr()
      ensures Valid() && fresh(hash.Repr - old(hash.Repr))
      ensures Searchable(old(View()).spans, old(View()).lists)
      ensures q == old(View()).lists[n][0] && View() == TakeExact(old(View()), n)
      ensures q in old(spans) && writes == old(writes) + Ranged(old(spans)[q].pageId, old(spans)[q].cnt, q)
    {
      ListedIsSearchable(spans, buckets.lists, {});
      q := PopBucket(n);
      MapPages(q);
    }

    // Cut n pages off the first span of bucket i into a new span at k; relink the rest.
    method CutFirst(i: nat, n: nat, k: Ptr) returns (x: Ptr)
      requires Consistent() && 1 <= n < i <= MAX_PAGES && View().lists[i] != [] && Unused(k)
      modifies this`spans, this`owner, buckets
      ensures Valid() && Searchable(old(View()).spans, old(View()).lists)
      ensures x == old(View()).lists[i][0] && View() == CutAndRelink(old(View()), i, n, k)
      ensures x in spans && 1 <= spans[x].cnt && spans[x].pageId + spans[x].cnt <= PAGE_LIMIT
      ensures k in spans && spans[k].pageId + spans[k].cnt <= PAGE_LIMIT
    {
      ghost var s0 := View();
      hide Ring, NoDup, ListOk, Without, SpanLists.Valid, RadixTree.Valid, SetRange;
      ListedIsSearchable(s0.spans, s0.lists, {});
      FirstIsSkipped(s0, i);
      assert s0.spans[s0.lists[i][0]].pageId + i <= PAGE_LIMIT;
      x := PopBucket(i);
      CutRecord(x, n, k);
      PushBucket(spans[x].cnt, x);
    }

    // The same, with both parts mapped.
    method Cut(i: nat, n: nat, k: Ptr)
      requires Consistent() && 1 <= n < i <= MAX_PAGES && View().lists[i] != [] && Unused(k)
      modifies Repr()
      ensures Valid() && fresh(hash.Repr - old(hash.Repr))
      ensures Searchable(old(View()).spans, old(View()).lists)
      ensures View() == Split(old(View()), i, n, k)
      ensures FirstNonEmpty(old(View()).lists, n) == i ==> writes == old(writes) + FitWrites(old(View()), n, k)
    {
      hide Partition, Listed, Searchable, RadixTree.Valid, SpanLists.Valid, CutAndRelink, SetRange;
      CutShape(View(), i, n, k);
      var x := CutFirst(i, n, k);
      MapPage(spans[x].pageId, x);
      MapPage(spans[x].pageId + spans[x].cnt - 1, x);
      MapPages(k);
    }

    /** newSpan. Fresh pages are used only when no bucket of n pages or more has a span; the
        one recursive call then finds them. */
    method NewSpan(n: nat, e: Supply) returns (q: Ptr)
      requires Consistent() && 1 <= n && Unused(e.k)
      requires n > MAX_PAGES || FirstNonEmpty(View().lists, n) > MAX_PAGES ==>
        Unused(e.l) && e.k != e.l && SystemFits(n, e)
      modifies Repr()
      ensures Valid() && fresh(hash.Repr - old(hash.Repr))
      ensures Searchable(old(View()).spans, old(View()).lists)
      ensures n > MAX_PAGES ==> (View(), q) == (Oversize(old(View()), n, e.l, e.base), e.l)
      ensures n <= MAX_PAGES && FirstNonEmpty(old(View()).lists, n) <= MAX_PAGES ==>
        (View(), q) == Fit(old(View()), n, e.k)
      ensures n <= MAX_PAGES && FirstNonEmpty(old(View()).lists, n) > MAX_PAGES ==>
        (View(), q) == PageModel.NewSpan(old(View()), n, e)
      ensures writes == old(writes) + GrantWrites(old(View()), n, e)
      decreases if n <= MAX_PAGES && FirstNonEmpty(View().lists, n) > MAX_PAGES then 1 else 0
    {
      ghost var s0 := View();
      hide Ring, NoDup, ListOk, SpanLists.Valid, RadixTree.Valid, TakeExact, Split, SetRange;
      ListedIsSearchable(s0.spans, s0.lists, {});
      if n > MAX_PAGES {
        NewOversize(n, e);
        return e.l;
      }
      var empty := buckets.Empty(n);
      if !empty {
        q := TakeFirst(n);
        return;
      }
      var i := n + 1;
      while i <= MAX_PAGES
        invariant n < i <= MAX_PAGES + 1 && FirstNonEmpty(s0.lists, n) == FirstNonEmpty(s0.lists, i)
        invariant View() == s0 && Valid() && hash.Repr == old(hash.Repr) && writes == old(writes)
      {
        empty := buckets.Empty(i);
        if !empty {
          assert FirstNonEmpty(s0.lists, n) == i;
          Cut(i, n, e.k);
          return e.k;
        }
        i := i + 1;
      }
      Enlarge(n, e);
      q := NewSpan(n, e);
    }

    // What the system owes an allocation: fresh pages within the address space.
    ghost predicate SystemFits(n: nat, e: Supply)
      reads this
    {
      && e.base + SystemPages(n) <= PAGE_LIMIT
      && (forall p :: e.base <= p < e.base + SystemPages(n) ==> p !in owner)
    }

    method NewOversize(n: nat, e: Supply)
      requires Valid() && n > MAX_PAGES && Unused(e.l) && e.base < PAGE_LIMIT
      modifies this, hash.Repr
      ensures Valid() && fresh(hash.Repr - old(hash.Repr))
      ensures View() == Oversize(old(View()), n, e.l, e.base) && writes == old(writes) + [Write(e.base, e.l)]
    {
      hide SpanLists.Valid, RadixTree.Valid;
      spans := spans[e.l := Span(e.base, n, false, 0, 0)];
      owner := SetRange(owner, e.base, n, e.l);
      MapPage(e.base, e.l);
    }

    // 128 fresh pages go into the last bucket; they are not in the page map yet.
    method Enlarge(ghost n: nat, e: Supply)
      requires Consistent() && 1 <= n <= MAX_PAGES && Unused(e.l) && SystemFits(n, e)
      requires FirstNonEmpty(View().lists, n) > MAX_PAGES
      modifies this`spans, this`owner, buckets
      ensures Consistent() && View() == AddLarge(old(View()), e.l, e.base)
      ensures FirstNonEmpty(View().lists, n) == MAX_PAGES
    {
      ghost var s0 := View();
      hide Ring, NoDup, ListOk, SpanLists.Valid, RadixTree.Valid, SetRange;
      AddLargeFirst(s0, n, e);
      ConsistentAddLarge(s0, e);
      NotLinked(s0, e.l);
      spans := spans[e.l := Span(e.base, MAX_PAGES, false, 0, 0)];
      owner := SetRange(owner, e.base, MAX_PAGES, e.l);
      PushBucket(MAX_PAGES, e.l);
    }

    /** The critical section of both callers of newSpan: get a span and mark it in use. */
    method Allocate(n: nat, size: nat, e: Supply) returns (q: Ptr)
      requires Valid() && Inv(View()) && 1 <= n && SupplyOk(View(), n, e)
      requires e.k !in buckets.head && (NeedsSystem(View(), n) ==> e.l !in buckets.head)
      modifies Repr()
      ensures Valid() && fresh(hash.Repr - old(hash.Repr))
      ensures Searchable(old(View()).spans, old(View()).lists) && FreshSpans(old(View()), n, e)
      ensures (View(), q) == Grant(old(View()), n, size, e) && writes == old(writes) + GrantWrites(old(View()), n, e)
      ensures Inv(View()) && Granted(old(View()), View(), q, n, size, e)
    {
      hide Partition, Listed, MapOk, SpanLists.Valid, RadixTree.Valid, Fit, Oversize, AddLarge, Granted;
      GrantKeeps(View(), n, size, e);
      GrantIsGranted(View(), n, size, e);
      q := NewSpan(n, e);
      spans := spans[q := spans[q].(used := true, blockSize := size)];
    }

    /** mapToSpan: reads the page map without the lock, so possibly in the middle of a section
        of another thread; the source asserts that there is an entry. Between sections the
        entry of a page in use is its owner. */
    method MapToSpan(page: nat) returns (q: Ptr)
      requires Valid() && page in View().hash
      ensures q == View().hash[page]
      ensures Inv(View()) && PageInUse(View(), page) ==> q == owner[page] && InSpan(spans[q], page)
    {
      var r := hash.Get(page);
      q := r.value;
      if Inv(View()) && PageInUse(View(), page) {
        ghost var o := owner[page];
        assert InSpan(spans[o], page) && Mapped(hash.M, o, spans[o]);
      }
    }

    // Erase, absorb and free the neighbour r.
    method AbsorbNeighbour(q: Ptr, r: Ptr)
      requires Valid() && q in spans && r in spans && q != r && spans[r].cnt <= MAX_PAGES
      requires r in View().lists[spans[r].cnt]
      modifies this`spans, this`owner, buckets
      ensures Valid() && View() == Merge(old(View()), q, r)
    {
      hide Ring, RadixTree.Valid, SetRange;
      var sp, nb := spans[q], spans[r];
      spans := spans[q := sp.(pageId := if nb.pageId < sp.pageId then nb.pageId else sp.pageId,
          cnt := sp.cnt + nb.cnt)];
      buckets.Erase(r, nb.cnt);
      owner := SetRange(owner, nb.pageId, nb.cnt, q);
      spans := spans - {r};
    }

    // The test of a merge loop: the span recorded for a page next to q, if it is free and fits.
    method Mergeable(q: Ptr, page: nat) returns (ok: bool, r: Ptr)
      requires Valid() && Merging(View(), q)
      requires page == PrevPage(spans[q]) || page == NextPage(spans[q]) || page >= PAGE_LIMIT
      ensures ok == CanMerge(View(), q, page)
      ensures ok ==> page < PAGE_LIMIT && r == hash.M[page]
    {
      if page < PAGE_LIMIT { NeighbourLookup(View(), q, page); }
      var m := hash.Get(page);
      if m == Null || spans[m.value].used || spans[m.value].cnt + spans[q].cnt > MAX_PAGES {
        return false, 0;
      }
      return true, m.value;
    }

    // Merge with free spans that end where q starts, as long as the sum is manageable.
    method MergeDown(q: Ptr)
      requires Valid() && Merging(View(), q)
      modifies this`spans, this`owner, buckets
      ensures Valid() && View() == MergeBack(old(View()), q) && Merging(View(), q)
    {
      hide Partition, Listed, MapOk, SpanLists.Valid, RadixTree.Valid, Merge;
      while true
        invariant Valid() && Merging(View(), q)
        invariant MergeBack(View(), q) == MergeBack(old(View()), q)
        decreases |spans|
      {
        BackTestIsExact(View(), q);
        NotLinkedInUse(View(), q);
        var prevId := Decrement(spans[q].pageId);
        var ok, r := Mergeable(q, prevId);
        if !ok {
          break;
        }
        MergeKeeps(View(), q, r);
        MergeSource(View(), q, r);
        AbsorbNeighbour(q, r);
      }
    }

    method MergeUp(q: Ptr)
      requires Valid() && Merging(View(), q)
      modifies this`spans, this`owner, buckets
      ensures Valid() && View() == MergeForward(old(View()), q) && Merging(View(), q)
    {
      hide Partition, Listed, MapOk, SpanLists.Valid, RadixTree.Valid, Merge;
      while true
        invariant Valid() && Merging(View(), q)
        invariant MergeForward(View(), q) == MergeForward(old(View()), q)
        decreases |spans|
      {
        ForwardTestIsExact(View(), q);
        var ok, r := Mergeable(q, spans[q].pageId + spans[q].cnt);
        if !ok {
          break;
        }
        MergeKeeps(View(), q, r);
        MergeSource(View(), q, r);
        AbsorbNeighbour(q, r);
      }
    }

    /** revertSpanToPageCache for a span of at most 128 pages. */
    method Revert(q: Ptr)
      requires Valid() && Revertible(View(), q)
      modifies Repr()
      ensures Valid() && fresh(hash.Repr - old(hash.Repr)) && View() == PageModel.Revert(old(View()), q)
      ensures Inv(View()) && Reverted(old(View()), View(), q) && Maximal(View(), q)
      ensures writes == old(writes) + RevertWrites(old(View()), q)
    {
      hide Partition, Listed, MapOk, SpanLists.Valid, RadixTree.Valid, MergeBack, MergeForward, Reverted, Maximal;
      RevertibleIsMerging(View(), q);
      RevertKeeps(View(), q);
      MergeDown(q);
      MergeUp(q);
      FinishKeeps(View(), q);
      NotLinkedInUse(View(), q);
      PushBucket(spans[q].cnt, q);
      MapPage(spans[q].pageId, q);
      MapPage(spans[q].pageId + spans[q].cnt - 1, q);
      spans := spans[q := spans[q].(used := false)];
    }
  }

  // What is left of the span that a cut takes n pages off, and what is cut off.
  lemma CutShape(s: State, i: nat, n: nat, k: Ptr)
    requires 1 <= n < i <= MAX_PAGES && Listed(s.spans, s.lists, {}) && s.lists[i] != [] && k !in s.spans
    ensures Searchable(s.spans, s.lists)
    ensures var x := s.lists[i][0]; var t, sp := CutAndRelink(s, i, n, k).spans, s.spans[x];
      && t[x].pageId == sp.pageId + n && t[x].cnt == sp.cnt - n && sp.cnt == i
      && t[k].pageId == sp.pageId && t[k].cnt == n
  {
    hide ListOk, Without, SetRange;
    ListedIsSearchable(s.spans, s.lists, {});
  }

  // Subtracting one from an unsigned 64-bit number; page 0 has no predecessor.
  function Decrement(page: nat): (r: nat)
    requires page <= PAGE_LIMIT
    ensures if page > 0 then r == page - 1 else r >= PAGE_LIMIT
  {
    (page + 0xFFFF_FFFF_FFFF_FFFF) % 0x1_0000_0000_0000_0000
  }

  // A free span that is about to be merged is linked in the bucket of its size.
  lemma MergeSource(s: State, q: Ptr, r: Ptr)
    requires Merging(s, q) && r in s.spans && !s.spans[r].used
    ensures q != r && s.spans[r].cnt <= MAX_PAGES && r in s.lists[s.spans[r].cnt]
  {
  }

  lemma NotLinkedInUse(s: State, q: Ptr)
    requires Merging(s, q)
    ensures forall j :: 0 <= j <= MAX_PAGES ==> q !in s.lists[j]
    ensures s.spans[q].pageId + s.spans[q].cnt <= PAGE_LIMIT
  {
    NotLinked(s, q);
  }

  lemma NotLinked(s: State, q: Ptr)
    requires Listed(s.spans, s.lists, {}) && (q !in s.spans || s.spans[q].used)
    ensures forall j :: 0 <= j <= MAX_PAGES ==> q !in s.lists[j]
  {
    forall j | 0 <= j <= MAX_PAGES ensures q !in s.lists[j] {
      assert ListOk(s.spans, s.lists[j], j, {});
    }
  }

  lemma ConsistentAddLarge(s: State, e: Supply)
    requires Partition(s.spans, s.owner) && Listed(s.spans, s.lists, {})
    requires e.l !in s.spans && e.base + MAX_PAGES <= PAGE_LIMIT
    requires forall p :: e.base <= p < e.base + MAX_PAGES ==> p !in s.owner
    ensures var t := AddLarge(s, e.l, e.base); Partition(t.spans, t.owner) && Listed(t.spans, t.lists, {})
  {
    var sp := Span(e.base, MAX_PAGES, false, 0, 0);
    JoinPartition(s, e.l, sp);
    JoinListed(s, e.l, sp);
    hide Partition, SetRange;
    LinkKeeps(Obtain(s, e.l, e.base, MAX_PAGES), e.l, {e.l});
    assert {e.l} - {e.l} == {};
  }

  // The first span of a bucket is in no other bucket, nor in the rest of its own.
  lemma FirstIsSkipped(s: State, i: nat)
    requires Listed(s.spans, s.lists, {}) && i <= MAX_PAGES && s.lists[i] != []
    ensures forall j :: 0 <= j <= MAX_PAGES ==> s.lists[i][0] !in Unlink(s, i, s.lists[i][0]).lists[j]
  {
    var x := s.lists[i][0];
    UnlinkKeeps(s, i, x, {});
    forall j | 0 <= j <= MAX_PAGES ensures x !in Unlink(s, i, x).lists[j] {
      assert ListOk(s.spans, Unlink(s, i, x).lists[j], j, {} + {x});
    }
  }
}
