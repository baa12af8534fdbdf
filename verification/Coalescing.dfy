/**
 Coalescing of the whole page heap. A release leaves the span it frees maximal; whether all
 adjacent free spans stay too large to be joined depends on what allocations cut.
 */
module Coalescing {
  import opened PageModel

  /** No two adjacent free spans fit into 128 pages together. */
  ghost predicate Coalesced(s: State) {
    forall q, r :: q in s.spans && r in s.spans && !s.spans[q].used && !s.spans[r].used
      && s.spans[q].pageId + s.spans[q].cnt == s.spans[r].pageId
      ==> s.spans[q].cnt + s.spans[r].cnt > MAX_PAGES
  }

  // ---------- which span an allocation cuts ----------

  // The heap in which newSpan finds its span: with a fresh batch when no free span will do.
  ghost function Searched(s: State, n: nat, e: Supply): State
    requires |s.lists| == MAX_PAGES + 1 && n <= MAX_PAGES
  {
    if FirstNonEmpty(s.lists, n) <= MAX_PAGES then s else AddLarge(s, e.l, e.base)
  }

  // The first n pages of free span x of u are now the span in use at k, or x itself.
  ghost predicate CutOff(u: State, spans: map<Ptr, Span>, x: Ptr, n: nat, size: nat, k: Ptr) {
    && x in u.spans && !u.spans[x].used && n <= u.spans[x].cnt && k !in u.spans
    && var sp := u.spans[x];
       spans == if sp.cnt == n then u.spans[x := Span(sp.pageId, n, true, 0, size)]
         else u.spans[x := sp.(pageId := sp.pageId + n, cnt := sp.cnt - n)][k := Span(sp.pageId, n, true, 0, size)]
  }

  lemma FitShape(u: State, n: nat, k: Ptr, size: nat, x: Ptr, stale: set<Ptr>)
    requires 1 <= n <= MAX_PAGES && WeakInv(u, {}, stale) && k !in u.spans && FirstNonEmpty(u.lists, n) <= MAX_PAGES
    requires x == u.lists[FirstNonEmpty(u.lists, n)][0]
    ensures Searchable(u.spans, u.lists)
    ensures var (t, q) := Fit(u, n, k); q in t.spans && CutOff(u, Mark(t, q, size).spans, x, n, size, k)
    ensures x in u.spans && u.spans[x].cnt == FirstNonEmpty(u.lists, n)
  {
    hide Partition, Listed, MapOk, SetRange, Without, FirstNonEmpty;
    ListedIsSearchable(u.spans, u.lists, {});
    var i := FirstNonEmpty(u.lists, n);
    if i == n {
      ExactShape(u, n, size);
      FreeCount(u, x);
    } else {
      SplitShape(u, i, n, k, size);
    }
  }

  lemma FreeCount(u: State, x: Ptr)
    requires Partition(u.spans, u.owner) && x in u.spans && !u.spans[x].used
    ensures u.spans[x].useCnt == 0
  {
  }

  /** Every allocation of up to 128 pages cuts the first fitting free span, or a fresh batch. */
  lemma GrantCuts(s: State, n: nat, size: nat, e: Supply)
    requires 1 <= n <= MAX_PAGES && Inv(s) && SupplyOk(s, n, e)
    ensures Searchable(s.spans, s.lists) && FreshSpans(s, n, e)
    ensures var u := Searched(s, n, e); var i := FirstNonEmpty(s.lists, n);
      && |u.lists| == MAX_PAGES + 1
      && CutOff(u, Grant(s, n, size, e).0.spans, if i <= MAX_PAGES then s.lists[i][0] else e.l, n, size, e.k)
      && (i <= MAX_PAGES ==> u == s && s.spans[s.lists[i][0]].cnt == i)
      && (i > MAX_PAGES ==> e.l !in s.spans && u.spans == s.spans[e.l := Span(e.base, MAX_PAGES, false, 0, 0)])
  {
    ListedIsSearchable(s.spans, s.lists, {});
    if FirstNonEmpty(s.lists, n) <= MAX_PAGES {
      FitShape(s, n, e.k, size, s.lists[FirstNonEmpty(s.lists, n)][0], {});
    } else {
      AddLargeFirst(s, n, e);
      AddLargeKeeps(s, n, e);
      FitShape(AddLarge(s, e.l, e.base), n, e.k, size, e.l, {e.l});
    }
  }

  // ---------- what keeps the heap coalesced ----------

  /** The allocation cuts a span whose rest fits together with the free span right behind. */
  ghost predicate LeavesPair(s: State, n: nat, e: Supply) {
    && n <= MAX_PAGES && Searchable(s.spans, s.lists)
    && var i := FirstNonEmpty(s.lists, n);
       var (from, len) := if i <= MAX_PAGES then (s.spans[s.lists[i][0]].pageId, i) else (e.base, MAX_PAGES);
       n < len && JoinsAt(s, from + len, len - n)
  }

  // A free span starts at this page that fits together with cnt pages.
  ghost predicate JoinsAt(s: State, page: nat, cnt: nat) {
    exists r :: r in s.spans && !s.spans[r].used && s.spans[r].pageId == page && cnt + s.spans[r].cnt <= MAX_PAGES
  }

  lemma BatchCoalesced(s: State, l: Ptr, base: nat, u: State)
    requires Partition(s.spans, s.owner) && Coalesced(s) && l !in s.spans
    requires u.spans == s.spans[l := Span(base, MAX_PAGES, false, 0, 0)]
    ensures Coalesced(u)
  {
  }

  // No span ends inside another one.
  lemma NoneEndsInside(u: State, x: Ptr, r: Ptr, n: nat)
    requires Partition(u.spans, u.owner) && x in u.spans && r in u.spans && r != x && 1 <= n < u.spans[x].cnt
    ensures u.spans[r].pageId + u.spans[r].cnt != u.spans[x].pageId + n
  {
    var page := u.spans[x].pageId + n - 1;
    assert InSpan(u.spans[x], page) && u.owner[page] == x;
    assert !InSpan(u.spans[r], page);
  }

  lemma CutBreaks(u: State, t: State, x: Ptr, n: nat, size: nat, k: Ptr, r: Ptr)
    requires 1 <= n && CutOff(u, t.spans, x, n, size, k) && n < u.spans[x].cnt
    requires r in u.spans && !u.spans[r].used && u.spans[r].pageId == u.spans[x].pageId + u.spans[x].cnt
    requires r != x && u.spans[x].cnt - n + u.spans[r].cnt <= MAX_PAGES
    ensures !Coalesced(t)
  {
    assert t.spans[x].pageId + t.spans[x].cnt == t.spans[r].pageId;
  }

  lemma CutKeepsPair(u: State, t: State, x: Ptr, n: nat, size: nat, k: Ptr, q: Ptr, r: Ptr)
    requires 1 <= n && Partition(u.spans, u.owner) && Coalesced(u) && CutOff(u, t.spans, x, n, size, k)
    requires !(n < u.spans[x].cnt && JoinsAt(u, u.spans[x].pageId + u.spans[x].cnt, u.spans[x].cnt - n))
    requires q in t.spans && r in t.spans && !t.spans[q].used && !t.spans[r].used
    requires t.spans[q].pageId + t.spans[q].cnt == t.spans[r].pageId
    ensures t.spans[q].cnt + t.spans[r].cnt > MAX_PAGES
  {
    hide Partition;
    if r == x && q != x { NoneEndsInside(u, x, q, n); }
  }

  lemma CutCoalescesIff(u: State, t: State, x: Ptr, n: nat, size: nat, k: Ptr)
    requires 1 <= n && Partition(u.spans, u.owner) && Coalesced(u) && CutOff(u, t.spans, x, n, size, k)
    ensures var sp := u.spans[x];
      Coalesced(t) <==> !(n < sp.cnt && JoinsAt(u, sp.pageId + sp.cnt, sp.cnt - n))
  {
    var sp := u.spans[x];
    if n < sp.cnt && JoinsAt(u, sp.pageId + sp.cnt, sp.cnt - n) {
      var r :| r in u.spans && !u.spans[r].used && u.spans[r].pageId == sp.pageId + sp.cnt
        && sp.cnt - n + u.spans[r].cnt <= MAX_PAGES;
      hide Coalesced, Partition;
      CutBreaks(u, t, x, n, size, k, r);
    } else {
      hide CutOff, JoinsAt, Partition;
      forall q, r | q in t.spans && r in t.spans && !t.spans[q].used && !t.spans[r].used
          && t.spans[q].pageId + t.spans[q].cnt == t.spans[r].pageId
        ensures t.spans[q].cnt + t.spans[r].cnt > MAX_PAGES
      {
        CutKeepsPair(u, t, x, n, size, k, q, r);
      }
    }
  }

  // The span behind a fresh batch was there before.
  lemma BehindBatch(s: State, l: Ptr, base: nat, u: State, cnt: nat)
    requires l !in s.spans && u.spans == s.spans[l := Span(base, MAX_PAGES, false, 0, 0)]
    ensures JoinsAt(u, base + MAX_PAGES, cnt) <==> JoinsAt(s, base + MAX_PAGES, cnt)
  {
    if JoinsAt(s, base + MAX_PAGES, cnt) {
      var r :| r in s.spans && !s.spans[r].used && s.spans[r].pageId == base + MAX_PAGES
        && cnt + s.spans[r].cnt <= MAX_PAGES;
      assert r in u.spans && u.spans[r] == s.spans[r];
    }
  }

  lemma OversizeCoalesced(s: State, n: nat, size: nat, e: Supply)
    requires Coalesced(s) && n > MAX_PAGES && e.l !in s.spans
    ensures Coalesced(Mark(Oversize(s, n, e.l, e.base), e.l, size))
  {
  }

  /** In a coalesced heap an allocation keeps it so exactly when it does not cut a span whose
      rest fits together with the free span behind it. */
  lemma GrantCoalescesIff(s: State, n: nat, size: nat, e: Supply)
    requires 1 <= n && Inv(s) && SupplyOk(s, n, e) && Coalesced(s)
    ensures Searchable(s.spans, s.lists) && FreshSpans(s, n, e)
    ensures Coalesced(Grant(s, n, size, e).0) <==> !LeavesPair(s, n, e)
  {
    hide Partition, Listed, MapOk, Grant, Oversize, CutOff, Coalesced, JoinsAt, FirstNonEmpty, AddLarge;
    ListedIsSearchable(s.spans, s.lists, {});
    if n > MAX_PAGES {
      GrantOversize(s, n, size, e);
      OversizeCoalesced(s, n, size, e);
    } else {
      GrantCuts(s, n, size, e);
      var u, t, i := Searched(s, n, e), Grant(s, n, size, e).0, FirstNonEmpty(s.lists, n);
      if i <= MAX_PAGES {
        CutCoalescesIff(u, t, s.lists[i][0], n, size, e.k);
      } else {
        AddLargeKeeps(s, n, e);
        BatchCoalesced(s, e.l, e.base, u);
        CutCoalescesIff(u, t, e.l, n, size, e.k);
        BehindBatch(s, e.l, e.base, u, MAX_PAGES - n);
      }
    }
  }

  lemma GrantOversize(s: State, n: nat, size: nat, e: Supply)
    requires n > MAX_PAGES && Searchable(s.spans, s.lists) && FreshSpans(s, n, e)
    ensures Grant(s, n, size, e).0 == Mark(Oversize(s, n, e.l, e.base), e.l, size)
  {
  }

  /** A release keeps the heap coalesced. */
  lemma RevertCoalesces(s: State, q: Ptr)
    requires Revertible(s, q) && Coalesced(s)
    ensures Coalesced(Revert(s, q))
  {
    hide Revertible, Revert, Covers, Untouched, WeakInv;
    RevertKeeps(s, q);
  }

  // The backward loop keeps the end of q, the forward loop its beginning.
  lemma {:induction false} BackKeepsEnd(s: State, q: Ptr)
    requires Merging(s, q)
    ensures var t := MergeBack(s, q);
      q in t.spans && t.spans[q].pageId + t.spans[q].cnt == s.spans[q].pageId + s.spans[q].cnt
    decreases |s.spans|
  {
    hide Partition, Listed, MapOk, BackBlocked;
    BackTestIsExact(s, q);
    if CanMerge(s, q, PrevPage(s.spans[q])) {
      var r := s.hash[PrevPage(s.spans[q])];
      MergeKeeps(s, q, r);
      BackKeepsEnd(Merge(s, q, r), q);
    }
  }

  lemma {:induction false} ForwardKeepsStart(s: State, q: Ptr)
    requires Merging(s, q)
    ensures var t := MergeForward(s, q); q in t.spans && t.spans[q].pageId == s.spans[q].pageId
    decreases |s.spans|
  {
    hide Partition, Listed, MapOk, ForwardBlocked;
    ForwardTestIsExact(s, q);
    if CanMerge(s, q, NextPage(s.spans[q])) {
      var r := s.hash[NextPage(s.spans[q])];
      MergeKeeps(s, q, r);
      ForwardKeepsStart(Merge(s, q, r), q);
    }
  }

  lemma BlockedInFront(s: State, u: State, q: Ptr)
    requires Merging(s, q) && Merging(u, q) && Merged(s, u, q) && BackBlocked(u, q)
    ensures FrontBlocked(s, u.spans[q].pageId, u.spans[q].pageId + u.spans[q].cnt)
  {
    hide Listed, MapOk;
    forall r | r in s.spans && !s.spans[r].used && s.spans[r].pageId + s.spans[r].cnt == u.spans[q].pageId
      ensures r in u.spans
    {
      assert 1 <= s.spans[r].cnt;
      var page := s.spans[r].pageId + s.spans[r].cnt - 1;
      assert InSpan(s.spans[r], page) && s.owner[page] == r;
      assert !InSpan(u.spans[q], page);
    }
  }

  /** The free span of s that ends at `first` makes more than 128 pages together with those from
      there up to `end`. */
  ghost predicate FrontBlocked(s: State, first: nat, end: nat) {
    forall r :: r in s.spans && !s.spans[r].used && s.spans[r].pageId + s.spans[r].cnt == first
      ==> s.spans[r].cnt + (end - first) > MAX_PAGES
  }

  /** A release prefers the pages in front: the released span begins where what is free before
      it no longer fits together with the pages of q and those already joined, whatever is free
      behind q. */
  lemma RevertPrefersFront(s: State, q: Ptr)
    requires Revertible(s, q)
    ensures q in Revert(s, q).spans
    ensures FrontBlocked(s, Revert(s, q).spans[q].pageId, s.spans[q].pageId + s.spans[q].cnt)
  {
    hide Merging, Merged, BackBlocked, FrontBlocked, Revert, MergeBack, MergeForward;
    RevertedAt(s, q);
    assert Merging(s, q) by { RevertibleIsMerging(s, q); }
    hide Revertible;
    MergeBackKeeps(s, q);
    BackKeepsEnd(s, q);
    var u := MergeBack(s, q);
    ForwardKeepsStart(u, q);
    BlockedInFront(s, u, q);
  }

  /** Exactly which operations keep a coalesced heap coalesced. */
  lemma StepCoalescesIff(s: State, op: Op)
    requires Inv(s) && Enabled(s, op) && Coalesced(s)
    ensures Coalesced(Step(s, op)) <==> !(op.Allocate? && LeavesPair(s, op.n, op.e))
  {
    match op
    case Allocate(n, size, e) => GrantCoalescesIff(s, n, size, e);
    case Free(q) => RevertCoalesces(s, q);
  }

  // ---------- a run that leaves two joinable spans ----------

  const SIZE: nat := 8

  function Busy(page: nat, cnt: nat): Span { Span(page, cnt, true, 0, SIZE) }

  function Spare(page: nat, cnt: nat, size: nat): Span { Span(page, cnt, false, 0, size) }

  // No free span has n pages.
  lemma NoneFits(s: State, n: nat)
    requires Inv(s) && 1 <= n <= MAX_PAGES && forall r :: r in s.spans && !s.spans[r].used ==> s.spans[r].cnt < n
    ensures Searchable(s.spans, s.lists) && FirstNonEmpty(s.lists, n) > MAX_PAGES
  {
    ListedIsSearchable(s.spans, s.lists, {});
  }

  // Free span q is the only one that has n pages.
  ghost predicate OnlyFit(s: State, n: nat, q: Ptr) {
    && q in s.spans && !s.spans[q].used && n <= s.spans[q].cnt
    && forall r :: r in s.spans && !s.spans[r].used && r != q ==> s.spans[r].cnt < n
  }

  lemma OneFits(s: State, n: nat, q: Ptr)
    requires Inv(s) && 1 <= n <= MAX_PAGES && OnlyFit(s, n, q)
    ensures Searchable(s.spans, s.lists) && FirstNonEmpty(s.lists, n) == s.spans[q].cnt <= MAX_PAGES
    ensures s.lists[s.spans[q].cnt] != [] && s.lists[s.spans[q].cnt][0] == q
  {
    ListedIsSearchable(s.spans, s.lists, {});
    assert q in s.lists[s.spans[q].cnt];
    hide Partition, MapOk, Listed;
    var i := FirstNonEmpty(s.lists, n);
    assert i <= s.spans[q].cnt && s.lists[i][0] in s.spans && !s.spans[s.lists[i][0]].used;
  }

  // Only the pages of the spans are obtained.
  lemma FreshPages(s: State, base: nat)
    requires Partition(s.spans, s.owner) && forall q :: q in s.spans ==> s.spans[q].pageId + s.spans[q].cnt <= base
    ensures forall p :: base <= p ==> p !in s.owner
  {
    forall p | base <= p ensures p !in s.owner {
      assert p in s.owner ==> InSpan(s.spans[s.owner[p]], p);
    }
  }

  ghost predicate Behind(s: State, e: Supply) {
    && e.base + MAX_PAGES <= PAGE_LIMIT && e.k !in s.spans && e.l !in s.spans && e.k != e.l
    && forall q :: q in s.spans ==> s.spans[q].pageId + s.spans[q].cnt <= e.base
  }

  // An allocation from a fresh batch behind all spans.
  lemma FromBatch(s: State, n: nat, e: Supply)
    requires Inv(s) && 1 <= n <= MAX_PAGES && Behind(s, e)
    requires forall r :: r in s.spans && !s.spans[r].used ==> s.spans[r].cnt < n
    ensures Enabled(s, Allocate(n, SIZE, e)) && Inv(Step(s, Allocate(n, SIZE, e)))
    ensures Step(s, Allocate(n, SIZE, e)).spans ==
      if n == MAX_PAGES then s.spans[e.l := Busy(e.base, n)]
      else s.spans[e.l := Spare(e.base + n, MAX_PAGES - n, 0)][e.k := Busy(e.base, n)]
  {
    hide WeakInv, Partition, Grant, FirstNonEmpty, Searchable;
    NoneFits(s, n);
    assert Partition(s.spans, s.owner) by { InvPartition(s); }
    FreshPages(s, e.base);
    GrantKeeps(s, n, SIZE, e);
    GrantCuts(s, n, SIZE, e);
  }

  lemma InvPartition(s: State)
    requires Inv(s)
    ensures Partition(s.spans, s.owner)
  {
  }

  // An allocation from the only free span large enough.
  lemma FromFree(s: State, n: nat, e: Supply, q: Ptr)
    requires Inv(s) && 1 <= n <= MAX_PAGES && OnlyFit(s, n, q) && e.k !in s.spans
    ensures Enabled(s, Allocate(n, SIZE, e)) && Inv(Step(s, Allocate(n, SIZE, e)))
    ensures CutOff(s, Step(s, Allocate(n, SIZE, e)).spans, q, n, SIZE, e.k)
    ensures !LeavesPair(s, n, e) <==>
      !(n < s.spans[q].cnt && JoinsAt(s, s.spans[q].pageId + s.spans[q].cnt, s.spans[q].cnt - n))
  {
    hide Listed, MapOk, Partition, Grant, FirstNonEmpty, CutOff, JoinsAt;
    OneFits(s, n, q);
    GrantKeeps(s, n, SIZE, e);
    GrantCuts(s, n, SIZE, e);
  }

  lemma SamePages(a: Span, b: Span)
    requires 1 <= a.cnt && 1 <= b.cnt && forall p :: InSpan(a, p) <==> InSpan(b, p)
    ensures a.pageId == b.pageId && a.cnt == b.cnt
  {
    assert InSpan(a, a.pageId) && InSpan(b, b.pageId) && InSpan(a, LastPage(a)) && InSpan(b, LastPage(b));
  }

  lemma SpanPagesOwned(s: State, q: Ptr, p: nat)
    requires Partition(s.spans, s.owner) && q in s.spans
    ensures 1 <= s.spans[q].cnt && (InSpan(s.spans[q], p) <==> p in s.owner && s.owner[p] == q)
    ensures !s.spans[q].used ==> s.spans[q].cnt <= MAX_PAGES
  {
  }

  // A release that absorbs nothing leaves the span where it was.
  lemma NothingAbsorbed(s: State, q: Ptr)
    requires Revertible(s, q) && s.spans.Keys <= Revert(s, q).spans.Keys
    ensures Inv(Revert(s, q)) && Revert(s, q).spans == s.spans[q := s.spans[q].(used := false)]
  {
    hide Revertible, Revert, Untouched, Maximal, WeakInv;
    RevertKeeps(s, q);
    var t := Revert(s, q);
    assert Partition(s.spans, s.owner) && Partition(t.spans, t.owner) by { RevertPartitions(s, q); }
    hide Partition;
    forall p ensures InSpan(t.spans[q], p) <==> InSpan(s.spans[q], p) {
      SpanPagesOwned(s, q, p);
      OwnerIsSpan(s, p);
    }
    SpanPagesOwned(s, q, 0);
    SpanPagesOwned(t, q, 0);
    SamePages(s.spans[q], t.spans[q]);
  }

  lemma RevertPartitions(s: State, q: Ptr)
    requires Revertible(s, q)
    ensures Partition(s.spans, s.owner) && Partition(Revert(s, q).spans, Revert(s, q).owner)
  {
    hide Revert, Reverted, Maximal;
    RevertKeeps(s, q);
  }

  lemma OwnerIsSpan(s: State, p: nat)
    requires Partition(s.spans, s.owner)
    ensures p in s.owner ==> s.owner[p] in s.spans
  {
  }

  // A free span that does not fit together with q is not absorbed.
  lemma TooLarge(s: State, q: Ptr, r: Ptr)
    requires Revertible(s, q) && r in s.spans && !s.spans[r].used
    requires s.spans[q].pageId == s.spans[r].pageId + s.spans[r].cnt
    requires s.spans[r].cnt + s.spans[q].cnt > MAX_PAGES
    ensures r in Revert(s, q).spans
  {
    hide Revertible, Revert, Untouched, Maximal, WeakInv;
    RevertKeeps(s, q);
    RevertPartitions(s, q);
    hide Partition;
    var t := Revert(s, q);
    if r !in t.spans {
      var first, last := s.spans[r].pageId, s.spans[q].pageId + s.spans[q].cnt - 1;
      SpanPagesOwned(s, r, first);
      SpanPagesOwned(s, q, last);
      assert InSpan(t.spans[q], first) && InSpan(t.spans[q], last);
      SpanPagesOwned(t, q, first);
      assert false;
    }
  }

  lemma UsedStay(s: State, q: Ptr)
    requires Revertible(s, q)
    ensures Inv(Revert(s, q)) && forall r :: r in s.spans && s.spans[r].used ==> r in Revert(s, q).spans
  {
    hide Revertible, Revert, Untouched, Maximal, WeakInv, Covers;
    RevertKeeps(s, q);
  }

  // The heap after the third operation and later: only the first two spans change.
  function Three(a: Span, b: Span): map<Ptr, Span> {
    map[1 := a, 2 := b, 3 := Busy(157, 100)]
  }

  ghost predicate Heap(s: State, spans: map<Ptr, Span>) {
    Inv(s) && s.spans == spans
  }

  lemma FirstSpan()
    ensures Inv(Init()) && Enabled(Init(), Allocate(128, SIZE, Supply(9, 1, 1)))
    ensures Heap(Step(Init(), Allocate(128, SIZE, Supply(9, 1, 1))), map[1 := Busy(1, 128)])
  {
    hide Inv, Enabled, Step;
    InitInv();
    FromBatch(Init(), 128, Supply(9, 1, 1));
  }

  lemma SecondSpan(s: State)
    requires Heap(s, map[1 := Busy(1, 128)])
    ensures Enabled(s, Allocate(28, SIZE, Supply(2, 3, 129)))
    ensures Heap(Step(s, Allocate(28, SIZE, Supply(2, 3, 129))),
      map[1 := Busy(1, 128), 2 := Busy(129, 28), 3 := Spare(157, 100, 0)])
  {
    hide Inv, Enabled, Step;
    FromBatch(s, 28, Supply(2, 3, 129));
  }

  lemma ThirdSpan(s: State)
    requires Heap(s, map[1 := Busy(1, 128), 2 := Busy(129, 28), 3 := Spare(157, 100, 0)])
    ensures Enabled(s, Allocate(100, SIZE, Supply(4, 5, 0)))
    ensures Heap(Step(s, Allocate(100, SIZE, Supply(4, 5, 0))), Three(Busy(1, 128), Busy(129, 28)))
  {
    hide Inv, Enabled, Step;
    FromFree(s, 100, Supply(4, 5, 0), 3);
  }

  lemma FreeFirst(s: State)
    requires Heap(s, Three(Busy(1, 128), Busy(129, 28)))
    ensures Enabled(s, Free(1)) && Heap(Step(s, Free(1)), Three(Spare(1, 128, SIZE), Busy(129, 28)))
  {
    hide Inv, Revert;
    UsedStay(s, 1);
    NothingAbsorbed(s, 1);
  }

  lemma FreeSecond(s: State)
    requires Heap(s, Three(Spare(1, 128, SIZE), Busy(129, 28)))
    ensures Enabled(s, Free(2)) && Heap(Step(s, Free(2)), Three(Spare(1, 128, SIZE), Spare(129, 28, SIZE)))
  {
    hide Inv, Revert;
    UsedStay(s, 2);
    TooLarge(s, 2, 1);
    NothingAbsorbed(s, 2);
  }

  lemma LastSpan(s: State)
    requires Heap(s, Three(Spare(1, 128, SIZE), Spare(129, 28, SIZE)))
    ensures Enabled(s, Allocate(100, SIZE, Supply(4, 5, 0))) && Inv(Step(s, Allocate(100, SIZE, Supply(4, 5, 0))))
    ensures Coalesced(s) && !Coalesced(Step(s, Allocate(100, SIZE, Supply(4, 5, 0))))
  {
    hide Inv, Enabled, Step, CutOff, LeavesPair;
    assert Coalesced(s);
    hide Coalesced;
    FromFree(s, 100, Supply(4, 5, 0), 1);
    assert 2 in s.spans && s.spans[2].pageId == 129;
    assert JoinsAt(s, 129, 28);
    StepCoalescesIff(s, Allocate(100, SIZE, Supply(4, 5, 0)));
  }

  lemma RunsCons(s: State, op: Op, ops: seq<Op>, s': State)
    requires Inv(s) && Enabled(s, op) && Inv(Step(s, op)) && Runs(Step(s, op), ops, s')
    ensures Runs(s, [op] + ops, s')
  {
    hide Inv, Enabled, Step;
    assert ([op] + ops)[1..] == ops;
  }

  lemma RunsNone(s: State)
    requires Inv(s)
    ensures Runs(s, [], s)
  {
  }

  ghost predicate Reached(ops: seq<Op>, s: State) {
    InitInv();
    Runs(Init(), ops, s)
  }

  /** Six operations from the empty heap leave two adjacent free spans of 28 pages each. */
  lemma UncoalescedIsReachable()
    ensures exists ops, s :: Reached(ops, s) && !Coalesced(s)
  {
    hide Inv, Enabled, Step, Runs, Coalesced, Init, Three;
    var hundred := Allocate(100, SIZE, Supply(4, 5, 0));
    FirstSpan();
    var s1 := Step(Init(), Allocate(128, SIZE, Supply(9, 1, 1)));
    SecondSpan(s1);
    var s2 := Step(s1, Allocate(28, SIZE, Supply(2, 3, 129)));
    ThirdSpan(s2);
    var s3 := Step(s2, hundred);
    FreeFirst(s3);
    var s4 := Step(s3, Free(1));
    FreeSecond(s4);
    var s5 := Step(s4, Free(2));
    LastSpan(s5);
    var s6 := Step(s5, hundred);
    RunsNone(s6);
    RunsCons(s5, hundred, [], s6);
    RunsCons(s4, Free(2), [hundred] + [], s6);
    var o3 := [Free(2)] + ([hundred] + []);
    RunsCons(s3, Free(1), o3, s6);
    RunsCons(s2, hundred, [Free(1)] + o3, s6);
    var o1 := [hundred] + ([Free(1)] + o3);
    RunsCons(s1, Allocate(28, SIZE, Supply(2, 3, 129)), o1, s6);
    RunsCons(Init(), Allocate(128, SIZE, Supply(9, 1, 1)), [Allocate(28, SIZE, Supply(2, 3, 129))] + o1, s6);
    assert Reached([Allocate(128, SIZE, Supply(9, 1, 1))] + ([Allocate(28, SIZE, Supply(2, 3, 129))] + o1), s6);
  }
}
