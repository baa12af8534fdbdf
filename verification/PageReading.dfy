/**
 Reading the page map while one thread is inside a PageCache section and the others go on with
 whatever does not need the page lock: use counts, free lists, caches, even listing a span.
 */
module PageReading {
  import opened SizeClasses
  import opened PageModel
  import opened Blocks
  import opened MemoryPool
  import opened PoolTheorems
  import opened PoolSpans
  import opened MapWrites
  import opened PageWrites

  // ---------- the writes of a section do not depend on use counts ----------

  lemma SameGrant(s: State, s': State, n: nat, e: Supply)
    requires SameButCounts(s, s') && 1 <= n && Searchable(s.spans, s.lists) && SupplyOk(s, n, e)
    ensures Searchable(s'.spans, s'.lists) && SupplyOk(s', n, e)
    ensures GrantWrites(s', n, e) == GrantWrites(s, n, e)
  {
    hide Ranged, FirstNonEmpty;
    if n <= MAX_PAGES && FirstNonEmpty(s.lists, n) > MAX_PAGES {
      AddLargeFirst(s, n, e);
      AddLargeFirst(s', n, e);
    }
  }

  ghost predicate SameAt(s: State, s': State, q: Ptr) {
    SameButCounts(s, s') && q in s.spans && s'.spans[q] == s.spans[q]
  }

  lemma MergeSame(s: State, s': State, q: Ptr, r: Ptr)
    requires SameAt(s, s', q) && s.spans[q].used
    requires r in s.spans && q != r && s.spans[r].cnt < |s.lists| && !s.spans[r].used
    ensures SameAt(Merge(s, q, r), Merge(s', q, r), q)
  {
    hide Without, SetRange;
  }

  lemma CanMergeSame(s: State, s': State, q: Ptr, page: int)
    requires SameAt(s, s', q)
    ensures CanMerge(s, q, page) == CanMerge(s', q, page)
  {
  }

  lemma SameParts(s: State, s': State, q: Ptr)
    requires SameAt(s, s', q)
    ensures q in s.spans && q in s'.spans && s'.spans[q] == s.spans[q] && s'.hash == s.hash && s'.lists == s.lists
  {
  }

  lemma {:induction false} MergeBackSame(s: State, s': State, q: Ptr)
    requires SameAt(s, s', q) && q in s.spans && s.spans[q].used && |s.lists| == MAX_PAGES + 1
    ensures q in s'.spans && s'.spans[q].used && |s'.lists| == MAX_PAGES + 1
    ensures SameAt(MergeBack(s, q), MergeBack(s', q), q)
    decreases |s.spans|
  {
    hide SameAt, Merge;
    SameParts(s, s', q);
    var page := PrevPage(s.spans[q]);
    CanMergeSame(s, s', q, page);
    if CanMerge(s, q, page) {
      MergeSame(s, s', q, s.hash[page]);
      MergeBackSame(Merge(s, q, s.hash[page]), Merge(s', q, s.hash[page]), q);
    }
  }

  lemma {:induction false} MergeForwardSame(s: State, s': State, q: Ptr)
    requires SameAt(s, s', q) && q in s.spans && s.spans[q].used && |s.lists| == MAX_PAGES + 1
    ensures q in s'.spans && s'.spans[q].used && |s'.lists| == MAX_PAGES + 1
    ensures SameAt(MergeForward(s, q), MergeForward(s', q), q)
    decreases |s.spans|
  {
    hide SameAt, Merge;
    SameParts(s, s', q);
    var page := NextPage(s.spans[q]);
    CanMergeSame(s, s', q, page);
    if CanMerge(s, q, page) {
      MergeSame(s, s', q, s.hash[page]);
      MergeForwardSame(Merge(s, q, s.hash[page]), Merge(s', q, s.hash[page]), q);
    }
  }

  /** The merge loops and the writes of a release do not look at use counts. */
  lemma SameRelease(s: State, s': State, q: Ptr)
    requires Revertible(s, q) && SameAt(s, s', q) && Inv(s')
    ensures Revertible(s', q) && RevertWrites(s', q) == RevertWrites(s, q)
  {
    hide Inv, SameAt, Revert;
    SameParts(s, s', q);
    RevertedAt(s, q);
    RevertedAt(s', q);
    MergeBackSame(s, s', q);
    MergeForwardSame(MergeBack(s, q), MergeBack(s', q), q);
    SameParts(MergeForward(MergeBack(s, q), q), MergeForward(MergeBack(s', q), q), q);
  }

  // ---------- a section while others go on ----------

  // What a large block's release needs.
  lemma FreedIsLarge(p: Pool, t: Tid, a: Addr)
    requires PoolInv(p) && Can(p, FreeLarge(t, a))
    ensures LargeLive(p, a) && PageOf(a) in p.page.hash && SpanAt(p, a) == p.place[a].span
  {
    hide PoolInv;
    LookupFindsSpan(p, a);
    FreedRole(p, t, a);
  }

  lemma FreeLargeSection(p: Pool, t: Tid, a: Addr, q: Ptr)
    requires a in p.place && q == p.place[a].span && PoolInv(p) && Can(p, FreeLarge(t, a))
    ensures Revertible(p.page, q) && SectionWrites(p, FreeLarge(t, a)) == RevertWrites(p.page, q)
  {
    hide PoolInv, Revertible, RevertWrites;
    FreeLargeReady(p, t, a);
  }

  lemma ReleaseLasts(p: Pool, p': Pool, q: Ptr, sp: Span, r: Role)
    requires Kept(p, q, sp, r) && Kept(p', q, sp, r) && SameButCounts(p.page, p'.page)
    requires Revertible(p.page, q) && Inv(p'.page)
    ensures Revertible(p'.page, q) && RevertWrites(p'.page, q) == RevertWrites(p.page, q)
  {
    hide Revertible, RevertWrites, Inv, SameButCounts;
    SameRelease(p.page, p'.page, q);
  }

  lemma LargeRecord(p: Pool, a: Addr)
    requires PoolInv(p) && LargeLive(p, a)
    ensures Kept(p, p.place[a].span, p.page.spans[p.place[a].span], Big)
  {
    hide PoolInv;
    InUse(p, p.place[a].span);
  }

  lemma FreeLargeLasts(p: Pool, ev: Event, t: Tid, a: Addr)
    requires PoolInv(p) && Can(p, ev) && Quiet(ev) && Can(p, FreeLarge(t, a))
    ensures PoolInv(Next(p, ev)) && Can(Next(p, ev), FreeLarge(t, a))
    ensures SectionWrites(Next(p, ev), FreeLarge(t, a)) == SectionWrites(p, FreeLarge(t, a))
  {
    hide PoolInv, Can, Next, Revertible, SpanAt, RevertWrites, SectionWrites, Kept, SameButCounts;
    FreedIsLarge(p, t, a);
    MemoryPool.StepKeeps(p, ev);
    LargeLiveStays(p, ev, a);
    LargeCanGo(Next(p, ev), t, a);
    var q := p.place[a].span;
    FreeLargeSection(p, t, a, q);
    FreeLargeSection(Next(p, ev), t, a, q);
    LargeRecord(p, a);
    KeptStays(p, ev, q, p.page.spans[q], Big);
    QuietPage(p, ev);
    InvParts(Next(p, ev));
    ReleaseLasts(p, Next(p, ev), q, p.page.spans[q], Big);
  }

  lemma ReturnSpanSection(p: Pool, t: Tid, q: Ptr)
    requires t in p.phase && p.phase[t].Reverting? && q == p.phase[t].q && PoolInv(p)
    ensures Can(p, ReturnSpan(t)) && Revertible(p.page, q)
    ensures SectionWrites(p, ReturnSpan(t)) == RevertWrites(p.page, q)
  {
    hide PoolInv, Revertible, RevertWrites;
    RevertSpanKeeps(p, t);
  }

  lemma EmptiedRecord(p: Pool, t: Tid)
    requires PoolInv(p) && t in p.phase && p.phase[t].Reverting?
    ensures var q := p.phase[t].q; q in p.page.spans && Kept(p, q, p.page.spans[q], Emptied(t))
  {
    hide Inv, CentralOk, CountsOk, ListsOk, PlacesOk;
    UsedSpan(p.page.spans, p.phase[t].q);
  }

  lemma ReturnSpanLasts(p: Pool, ev: Event, t: Tid)
    requires PoolInv(p) && Can(p, ev) && Quiet(ev) && ev.t != t && Can(p, ReturnSpan(t))
    ensures PoolInv(Next(p, ev)) && Can(Next(p, ev), ReturnSpan(t))
    ensures SectionWrites(Next(p, ev), ReturnSpan(t)) == SectionWrites(p, ReturnSpan(t))
  {
    assert t in p.phase && p.phase[t].Reverting? by { hide PoolInv; }
    hide PoolInv, Can, Next, Revertible, RevertWrites, SectionWrites, Kept, SameButCounts;
    var q := p.phase[t].q;
    MemoryPool.StepKeeps(p, ev);
    PhasesKept(p, ev, t);
    ReturnSpanSection(p, t, q);
    ReturnSpanSection(Next(p, ev), t, q);
    EmptiedRecord(p, t);
    KeptStays(p, ev, q, p.page.spans[q], Emptied(t));
    QuietPage(p, ev);
    InvParts(Next(p, ev));
    ReleaseLasts(p, Next(p, ev), q, p.page.spans[q], Emptied(t));
  }

  lemma AllocSpanSection(p: Pool, t: Tid, size: nat, e: Supply, n: nat)
    requires CacheEmpty(p, t, size) && RoundUp(size) > 0 && n == NumMovePage(RoundUp(size)) && SupplyOk(p.page, n, e)
    requires PoolInv(p)
    ensures Can(p, AllocSpan(t, size, e)) && 1 <= n && Searchable(p.page.spans, p.page.lists)
    ensures FreshSpans(p.page, n, e) && SectionWrites(p, AllocSpan(t, size, e)) == GrantWrites(p.page, n, e)
  {
    hide PoolInv, CacheEmpty, RoundUp, NumMovePage, SupplyOk, Searchable, FreshSpans, GrantWrites;
    SpanReady(p, t, size, e);
  }

  lemma AllocSpanLasts(p: Pool, ev: Event, t: Tid, size: nat, e: Supply)
    requires PoolInv(p) && Can(p, ev) && Quiet(ev) && ev.t != t && Can(p, AllocSpan(t, size, e))
    ensures PoolInv(Next(p, ev)) && Can(Next(p, ev), AllocSpan(t, size, e))
    ensures SectionWrites(Next(p, ev), AllocSpan(t, size, e)) == SectionWrites(p, AllocSpan(t, size, e))
  {
    assert CacheEmpty(p, t, size) && RoundUp(size) > 0 && SupplyOk(p.page, NumMovePage(RoundUp(size)), e) by {
      hide PoolInv, CacheEmpty, RoundUp, NumMovePage, SupplyOk;
    }
    hide PoolInv, Can, Next, SectionWrites, GrantWrites, SameButCounts, RoundUp, NumMovePage, SupplyOk, Searchable,
      FreshSpans, SmallSize, Index;
    var n := NumMovePage(RoundUp(size));
    MemoryPool.StepKeeps(p, ev);
    PhasesKept(p, ev, t);
    CentralSizeOf(Next(p, ev));
    AllocSpanSection(p, t, size, e, n);
    QuietPage(p, ev);
    SameGrant(p.page, Next(p, ev).page, n, e);
    AllocSpanSection(Next(p, ev), t, size, e, n);
  }

  lemma AllocLargeSection(p: Pool, t: Tid, size: nat, e: Supply, n: nat)
    requires MAX_BYTES < size < WORD && n == RoundUp(size) / PAGE_BYTES && n > 0 && SupplyOk(p.page, n, e)
    requires PoolInv(p)
    ensures Can(p, AllocLarge(t, size, e)) && Searchable(p.page.spans, p.page.lists)
    ensures FreshSpans(p.page, n, e) && SectionWrites(p, AllocLarge(t, size, e)) == GrantWrites(p.page, n, e)
  {
    hide PoolInv, RoundUp, SupplyOk, Searchable, FreshSpans, GrantWrites;
    ObtainBigKeeps(p, size, e);
  }

  lemma AllocLargeLasts(p: Pool, ev: Event, t: Tid, size: nat, e: Supply)
    requires PoolInv(p) && Can(p, ev) && Quiet(ev) && Can(p, AllocLarge(t, size, e))
    ensures PoolInv(Next(p, ev)) && Can(Next(p, ev), AllocLarge(t, size, e))
    ensures SectionWrites(Next(p, ev), AllocLarge(t, size, e)) == SectionWrites(p, AllocLarge(t, size, e))
  {
    assert MAX_BYTES < size < WORD && RoundUp(size) / PAGE_BYTES > 0
      && SupplyOk(p.page, RoundUp(size) / PAGE_BYTES, e) by { hide PoolInv, RoundUp, SupplyOk; }
    hide PoolInv, Can, Next, SectionWrites, GrantWrites, SameButCounts, RoundUp, SupplyOk, Searchable, FreshSpans;
    var n := RoundUp(size) / PAGE_BYTES;
    MemoryPool.StepKeeps(p, ev);
    AllocLargeSection(p, t, size, e, n);
    QuietPage(p, ev);
    SameGrant(p.page, Next(p, ev).page, n, e);
    AllocLargeSection(Next(p, ev), t, size, e, n);
  }

  /** A step that takes no page lock leaves another thread's page section as it is: it can still
      happen, and it writes the same entries of the page map in the same order. */
  lemma SectionStays(p: Pool, quiet: Event, ev: Event)
    requires PoolInv(p) && Can(p, quiet) && Quiet(quiet) && Can(p, ev) && !Quiet(ev) && quiet.t != ev.t
    ensures PoolInv(Next(p, quiet)) && Can(Next(p, quiet), ev)
    ensures SectionWrites(Next(p, quiet), ev) == SectionWrites(p, ev) && Next(p, quiet).page.hash == p.page.hash
  {
    hide PoolInv, Can, Next, SectionWrites;
    QuietPage(p, quiet);
    match ev
    case AllocSpan(t, size, e) => AllocSpanLasts(p, quiet, t, size, e);
    case AllocLarge(t, size, e) => AllocLargeLasts(p, quiet, t, size, e);
    case FreeLarge(t, a) => FreeLargeLasts(p, quiet, t, a);
    case ReturnSpan(t) => ReturnSpanLasts(p, quiet, t);
  }

  ghost predicate QuietBesides(evs: seq<Event>, t: Tid) {
    forall i :: 0 <= i < |evs| ==> Quiet(evs[i]) && evs[i].t != t
  }

  lemma {:induction false} SectionLasts(p: Pool, evs: seq<Event>, p': Pool, ev: Event)
    requires PoolInv(p) && Interleaves(p, evs, p') && QuietBesides(evs, ev.t) && Can(p, ev) && !Quiet(ev)
    ensures PoolInv(p') && Can(p', ev)
    ensures SectionWrites(p', ev) == SectionWrites(p, ev) && p'.page.hash == p.page.hash
    decreases |evs|
  {
    hide PoolInv, Can, Next, SectionWrites, Quiet;
    if evs != [] {
      SectionStays(p, evs[0], ev);
      SectionLasts(Next(p, evs[0]), evs[1..], p', ev);
    }
  }

  /** At every moment inside every critical section of every thread, and whatever the other
      threads have done since it began, the page map read without the lock sends each block to
      the span it was cut from, blocks listed meanwhile included: only the large block that the
      section itself frees is excepted. */
  lemma LookupAtAnyMoment(p: Pool, ev: Event, k: nat, evs: seq<Event>, p': Pool, a: Addr)
    requires PoolInv(p) && Can(p, ev) && !Quiet(ev) && k <= |SectionWrites(p, ev)|
    requires Interleaves(p, evs, p') && QuietBesides(evs, ev.t)
    requires a in p'.place && !(ev.FreeLarge? && ev.a == a)
    ensures var h := Written(p.page.hash, SectionWrites(p, ev)[..k]);
      PageOf(a) in h && h[PageOf(a)] == p'.place[a].span
  {
    hide PoolInv, Can, SectionWrites, Written, Interleaves;
    SectionLasts(p, evs, p', ev);
    LookupInSection(p', ev, k, a);
  }
}
