/**
 The page map in the middle of PageCache's critical sections. mapToSpan takes no lock, so it
 may read the map between any two writes of newSpan or revertSpanToPageCache; every such
 section is a list of single-page writes here, and each prefix of it is a moment of reading.
 */
module PageWrites {
  import opened SizeClasses
  import opened PageModel
  import opened Blocks
  import opened MapWrites
  import opened MemoryPool
  import opened PoolTheorems

  // ---------- no write touches a page in use ----------

  ghost predicate Spares(ws: seq<Write>, s: State, but: set<Ptr>) {
    forall w :: w in ws ==> !(PageInUse(s, w.page) && s.owner[w.page] !in but)
  }

  lemma FreePage(s: State, x: Ptr, page: nat)
    requires Partition(s.spans, s.owner) && x in s.spans && !s.spans[x].used && InSpan(s.spans[x], page)
    ensures !PageInUse(s, page)
  {
  }

  // All writes of a fit go to pages of the free span it takes.
  lemma FitWritesInside(s: State, n: nat, k: Ptr)
    requires 1 <= n <= MAX_PAGES && Searchable(s.spans, s.lists) && FirstNonEmpty(s.lists, n) <= MAX_PAGES
    ensures forall w :: w in FitWrites(s, n, k) ==> InSpan(s.spans[s.lists[FirstNonEmpty(s.lists, n)][0]], w.page)
  {
    var i := FirstNonEmpty(s.lists, n);
    var x := s.lists[i][0];
    var sp := s.spans[x];
    hide Ranged, Written;
    RangedIsSetRange(s.hash, sp.pageId, sp.cnt, x);
    RangedIsSetRange(s.hash, sp.pageId, n, k);
  }

  lemma GrantSpares(s: State, n: nat, e: Supply)
    requires 1 <= n && Inv(s) && SupplyOk(s, n, e)
    ensures Searchable(s.spans, s.lists) && Spares(GrantWrites(s, n, e), s, {})
  {
    hide MapOk, FitWrites;
    ListedIsSearchable(s.spans, s.lists, {});
    var ws := GrantWrites(s, n, e);
    if n > MAX_PAGES {
    } else if FirstNonEmpty(s.lists, n) <= MAX_PAGES {
      FitWritesInside(s, n, e.k);
      forall w | w in ws ensures !PageInUse(s, w.page) {
        FreePage(s, s.lists[FirstNonEmpty(s.lists, n)][0], w.page);
      }
    } else {
      AddLargeFirst(s, n, e);
      FitWritesInside(AddLarge(s, e.l, e.base), n, e.k);
    }
  }

  lemma RevertSpares(s: State, q: Ptr)
    requires Revertible(s, q)
    ensures Spares(RevertWrites(s, q), s, {q})
  {
    hide Revertible, Revert, Inv, Untouched, OnlyAbsorbed, Covers, Maximal;
    RevertKeeps(s, q);
    RevertedSpan(s, q);
    var t := Revert(s, q);
    AbsorbedPage(s, t, q, t.spans[q].pageId);
    AbsorbedPage(s, t, q, LastPage(t.spans[q]));
  }

  // A page of the merged span was the released span's or a free span's.
  lemma AbsorbedPage(s: State, t: State, q: Ptr, page: nat)
    requires OnlyAbsorbed(s, t, q) && Covers(s, t, q) && InSpan(t.spans[q], page)
    ensures !(PageInUse(s, page) && s.owner[page] != q)
  {
  }

  // ---------- steps outside the page lock ----------

  /** The steps that take no page lock. */
  predicate Quiet(ev: Event) {
    !ev.AllocSpan? && !ev.AllocLarge? && !ev.FreeLarge? && !ev.ReturnSpan?
  }

  /** The page heap is the same apart from the use counts of spans in use. */
  ghost predicate SameButCounts(s: State, s': State) {
    && s'.lists == s.lists && s'.hash == s.hash && s'.owner == s.owner && s'.spans.Keys == s.spans.Keys
    && forall q :: q in s.spans ==>
         if s.spans[q].used then s'.spans[q] == s.spans[q].(useCnt := s'.spans[q].useCnt) else s'.spans[q] == s.spans[q]
  }

  lemma BumpCounts(s: State, q: Ptr, d: int)
    requires q in s.spans && s.spans[q].used
    ensures SameButCounts(s, Bump(s, q, d))
  {
  }

  lemma FetchPage(p: Pool, t: Tid, i: nat, q: Ptr, cnt: nat)
    requires q in p.free && p.free[q] != [] && t in p.caches && i < |p.caches[t]|
    requires q in p.page.spans && p.page.spans[q].used
    ensures SameButCounts(p.page, Fetch(p, t, i, q, cnt).page)
  {
    hide Bump, Move, SameButCounts;
    BumpCounts(p.page, q, FreeLists.Taken(cnt, |p.free[q]|));
  }

  lemma ListedPage(p: Pool, t: Tid, size: nat, cnt: nat)
    requires PoolInv(p) && Can(p, AllocListed(t, size, cnt))
    ensures SameButCounts(p.page, Next(p, AllocListed(t, size, cnt)).page)
  {
    hide PoolInv, Index, RoundUp, Fetch, SameButCounts;
    ChosenServes(p, size);
    InUse(p, Chosen(p, size));
    FetchPage(p, t, Index(size), Chosen(p, size), cnt);
  }

  lemma CarvedPage(p: Pool, t: Tid, cnt: nat)
    requires PoolInv(p) && Can(p, AllocCarved(t, cnt))
    ensures SameButCounts(p.page, Next(p, AllocCarved(t, cnt)).page)
  {
    hide PoolInv, Index, Fetch, Enlist, CanEnlist, SameButCounts;
    PrivateSize(p, t);
    CarvedReady(p, t, cnt);
    EnlistSame(p, t);
    InUse(Enlist(p, t), p.phase[t].q);
    FetchPage(Enlist(p, t), t, Index(p.phase[t].size), p.phase[t].q, cnt);
  }

  lemma EnlistSame(p: Pool, t: Tid)
    requires CanEnlist(p, t)
    ensures Enlist(p, t).page == p.page
  {
  }

  lemma ReturnedPage(p: Pool, t: Tid)
    requires PoolInv(p) && Can(p, ReturnBlock(t))
    ensures SameButCounts(p.page, Next(p, ReturnBlock(t)).page)
  {
    hide Inv, PoolOk, BlocksOf, Used, Index, Bump, Move, SameButCounts;
    ReturnBlockReady(p, t);
    InvParts(p);
    ChainHead(Used(p.page.spans), p, t);
    var q := p.place[p.phase[t].chain[0]].span;
    InUse(p, q);
    BumpCounts(p.page, q, -1);
  }

  lemma QuietPage(p: Pool, ev: Event)
    requires PoolInv(p) && Can(p, ev) && Quiet(ev)
    ensures SameButCounts(p.page, Next(p, ev).page)
  {
    hide PoolInv, Index;
    match ev
    case AllocListed(t, size, cnt) => ListedPage(p, t, size, cnt);
    case AllocCarved(t, cnt) => CarvedPage(p, t, cnt);
    case FreeSmall(t, a) => FreeSmallList(p, t, a, SpanAt(p, a));
    case ReturnBlock(t) => ReturnedPage(p, t);
    case _ =>
  }

  // ---------- the lookup, at any moment ----------

  /** What a step of the pool writes to the page map, in order. */
  ghost function SectionWrites(p: Pool, ev: Event): seq<Write>
    requires PoolInv(p) && Can(p, ev)
  {
    match ev
    case AllocSpan(t, size, e) => SpanReady(p, t, size, e); GrantWrites(p.page, NumMovePage(RoundUp(size)), e)
    case AllocLarge(t, size, e) => ObtainBigKeeps(p, size, e); GrantWrites(p.page, RoundUp(size) / PAGE_BYTES, e)
    case FreeLarge(t, a) => FreeLargeReady(p, t, a); RevertWrites(p.page, p.place[a].span)
    case ReturnSpan(t) => RevertSpanKeeps(p, t); RevertWrites(p.page, p.phase[t].q)
    case _ => []
  }

  lemma SectionIsWritten(p: Pool, ev: Event)
    requires PoolInv(p) && Can(p, ev)
    ensures Next(p, ev).page.hash == Written(p.page.hash, SectionWrites(p, ev))
  {
    hide PoolInv, RoundUp, NumMovePage, Grant, SupplyOk, Searchable, FreshSpans, GrantWrites, RevertWrites, Revert;
    match ev
    case AllocSpan(t, size, e) =>
      SpanReady(p, t, size, e);
      GrantIsWritten(p.page, NumMovePage(RoundUp(size)), RoundUp(size), e);
    case AllocLarge(t, size, e) =>
      ObtainBigKeeps(p, size, e);
      GrantIsWritten(p.page, RoundUp(size) / PAGE_BYTES, size, e);
    case FreeLarge(t, a) => FreeLargeReady(p, t, a); RevertIsWritten(p.page, p.place[a].span);
    case ReturnSpan(t) => RevertSpanKeeps(p, t); RevertIsWritten(p.page, p.phase[t].q);
    case _ => QuietWrites(p, ev);
  }

  lemma QuietWrites(p: Pool, ev: Event)
    requires PoolInv(p) && Can(p, ev) && Quiet(ev)
    ensures SectionWrites(p, ev) == [] && Next(p, ev).page.hash == Written(p.page.hash, [])
  {
    hide PoolInv, Can, Next;
    QuietPage(p, ev);
  }

  // The span that a step releases, if any.
  ghost function Releases(p: Pool, ev: Event): set<Ptr>
    requires PoolInv(p) && Can(p, ev)
  {
    match ev
    case FreeLarge(t, a) => {p.place[a].span}
    case ReturnSpan(t) => {p.phase[t].q}
    case _ => {}
  }

  lemma SectionSpares(p: Pool, ev: Event)
    requires PoolInv(p) && Can(p, ev)
    ensures Spares(SectionWrites(p, ev), p.page, Releases(p, ev))
  {
    hide PoolInv, Index, RoundUp, NumMovePage, SupplyOk, Searchable, FreshSpans, GrantWrites, RevertWrites, Spares;
    InvParts(p);
    match ev
    case AllocSpan(t, size, e) => SpanReady(p, t, size, e); GrantSpares(p.page, NumMovePage(RoundUp(size)), e);
    case AllocLarge(t, size, e) => ObtainBigKeeps(p, size, e); GrantSpares(p.page, RoundUp(size) / PAGE_BYTES, e);
    case FreeLarge(t, a) => FreeLargeReady(p, t, a); RevertSpares(p.page, p.place[a].span);
    case ReturnSpan(t) => RevertSpanKeeps(p, t); RevertSpares(p.page, p.phase[t].q);
    case _ => NoWritesSpare(p.page);
  }

  lemma NoWritesSpare(s: State)
    ensures Spares([], s, {})
  {
  }

  lemma BlockPageInUse(p: Pool, a: Addr)
    requires PoolInv(p) && a in p.place
    ensures PageInUse(p.page, PageOf(a)) && p.page.owner[PageOf(a)] == p.place[a].span
  {
    hide PoolOk, Listed, MapOk, BlocksOf;
    LookupFindsSpan(p, a);
    BlockPage(p.page.spans[p.place[a].span], a);
  }

  // The blocks of a released span are gone, except the large block being freed.
  lemma ReleasedHasNoBlocks(p: Pool, ev: Event, a: Addr)
    requires PoolInv(p) && Can(p, ev) && a in p.place && !(ev.FreeLarge? && ev.a == a)
    ensures p.place[a].span !in Releases(p, ev)
  {
    hide Inv, CentralOk, CountsOk, ListsOk, Index, IsClass, NumMovePage;
    LookupFindsSpan(p, a);
    if ev.FreeLarge? {
      FreeLargeReady(p, ev.t, ev.a);
      LookupFindsSpan(p, ev.a);
    }
  }

  /** At every moment inside a critical section, the page map, read without the lock, sends each
      block to the span it was cut from: only the large block that the section itself frees is
      excepted. */
  lemma LookupInSection(p: Pool, ev: Event, k: nat, a: Addr)
    requires PoolInv(p) && Can(p, ev) && k <= |SectionWrites(p, ev)| && a in p.place && !(ev.FreeLarge? && ev.a == a)
    ensures var h := Written(p.page.hash, SectionWrites(p, ev)[..k]);
      PageOf(a) in h && h[PageOf(a)] == p.place[a].span
  {
    hide PoolInv, Can, SectionWrites, Written;
    var ws := SectionWrites(p, ev);
    SectionSpares(p, ev);
    LookupFindsSpan(p, a);
    BlockPageInUse(p, a);
    ReleasedHasNoBlocks(p, ev, a);
    WritesSpare(p.page.hash, ws, k, PageOf(a));
  }
}
