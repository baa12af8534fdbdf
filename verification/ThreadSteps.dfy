/**
 The lists of ThreadCaching are the lists of the pool machine: what ThreadCache's methods do to
 them is what MemoryPool's steps do to those of their thread, and no other step touches them.
 */
module ThreadSteps {
  import opened SizeClasses
  import opened PageModel
  import opened Blocks
  import opened MemoryPool
  import opened PoolTheorems
  import opened PoolSpans
  import opened ThreadCaching
  import FreeLists

  /** A new thread starts with empty lists. */
  lemma StartsEmpty(p: Pool, t: Tid)
    requires PoolInv(p) && Can(p, Start(t))
    ensures t in Next(p, Start(t)).caches && Next(p, Start(t)).caches[t] == seq(BUCKETS, _ => [])
  {
    hide PoolInv;
  }

  /** An allocation from the cache is allocate on the lists of its thread. */
  lemma CachedIsAllocate(p: Pool, t: Tid, size: nat)
    requires PoolInv(p) && Can(p, AllocCached(t, size))
    ensures var p', a := Next(p, AllocCached(t, size)), Result(p, AllocCached(t, size));
      Index(size) < |p.caches[t]| && Allocated(p.caches[t], p'.caches[t], Index(size), [], a)
  {
    hide PoolInv, Index, Move;
  }

  /** So is one from a listed span, with the blocks fetched from it granted. */
  lemma ListedIsAllocate(p: Pool, t: Tid, size: nat, cnt: nat, p': Pool)
    requires PoolInv(p) && Can(p, AllocListed(t, size, cnt)) && p' == Next(p, AllocListed(t, size, cnt))
    ensures Chosen(p, size) in p.free
    ensures var blocks := p.free[Chosen(p, size)];
      && Index(size) < |p.caches[t]| && t in p'.caches
      && Allocated(p.caches[t], p'.caches[t], Index(size), blocks[..FreeLists.Taken(cnt, |blocks|)],
           Result(p, AllocListed(t, size, cnt)))
  {
    hide PoolInv, Index, Move, RoundUp;
    ChosenServes(p, size);
    var blocks := p.free[Chosen(p, size)];
    Grants(blocks, cnt);
  }

  lemma Grants(blocks: seq<Addr>, cnt: nat)
    requires blocks != []
    ensures var n := FreeLists.Taken(cnt, |blocks|);
      1 <= n <= |blocks| && blocks[..n] != [] && blocks[..n][0] == blocks[0] && blocks[..n][1..] == blocks[1..n]
    ensures blocks[1..FreeLists.Taken(cnt, |blocks|)] + [] == blocks[1..FreeLists.Taken(cnt, |blocks|)]
  {
  }

  // The list that a freed block goes on.
  ghost function ListFor(p: Pool, t: Tid, a: Addr): (i: nat)
    requires PoolInv(p) && Can(p, FreeSmall(t, a))
    ensures t in p.caches && i < |p.caches[t]|
  {
    hide PoolInv, Can, Index;
    FreeSmallTo(p, t, a);
    Index(p.page.spans[SpanAt(p, a)].blockSize)
  }

  /** Freeing a small block is deallocate without a return. */
  lemma FreeIsDeallocate(p: Pool, t: Tid, a: Addr)
    requires PoolInv(p) && Can(p, FreeSmall(t, a))
    ensures t in Next(p, FreeSmall(t, a)).caches
    ensures Deallocated(p.caches[t], Next(p, FreeSmall(t, a)).caches[t], ListFor(p, t, a), a, [])
  {
    hide PoolInv, Can, Index, Move;
    FreeSmallTo(p, t, a);
  }

  /** Freeing one and then returning its list is deallocate with a return: the whole list goes, in
      order, the block freed first. */
  lemma FreeAndReturnIsDeallocate(p: Pool, t: Tid, a: Addr, size: nat)
    requires PoolInv(p) && Can(p, FreeSmall(t, a)) && SmallSize(size) && Index(size) == ListFor(p, t, a)
    ensures PoolInv(Next(p, FreeSmall(t, a))) && Can(Next(p, FreeSmall(t, a)), ReturnList(t, Index(size), size))
    ensures var p' := Next(Next(p, FreeSmall(t, a)), ReturnList(t, Index(size), size));
      && t in p'.caches && t in p'.phase && p'.phase[t].Returning?
      && Deallocated(p.caches[t], p'.caches[t], Index(size), a, p'.phase[t].chain)
  {
    hide PoolInv, Index, Move, SpanAt, PageOf;
    MemoryPool.StepKeeps(p, FreeSmall(t, a));
    FreeSmallTo(p, t, a);
    var lists, i := p.caches[t], Index(size);
    assert lists[i := [a] + lists[i]][i := []] == lists[i := []];
  }

  /** Every other step leaves all lists of its thread as they are; and no step touches those of
      another thread. */
  lemma OtherStepsKeepLists(p: Pool, ev: Event, t: Tid)
    requires PoolInv(p) && Can(p, ev) && t in p.caches
    requires t != ev.t || ev.AllocSpan? || ev.AllocLarge? || ev.FreeLarge? || ev.ReturnBlock? || ev.ReturnSpan?
      || ev.ReturnEnd?
    ensures t in Next(p, ev).caches && Next(p, ev).caches[t] == p.caches[t]
  {
    hide PoolInv, Index, RoundUp, NumMovePage, Grant, Revert, Revertible, SupplyOk, Searchable, FreshSpans,
      Move, SpanAt;
    if t != ev.t {
      PhasesKept(p, ev, t);
    } else {
      match ev
      case AllocSpan(_, size, e) => SpanReady(p, t, size, e);
      case AllocLarge(_, size, e) => ObtainBigKeeps(p, size, e);
      case FreeLarge(_, a) => FreeLargeReady(p, t, a);
      case ReturnBlock(_) => ReturnBlockReady(p, t);
      case ReturnSpan(_) => RevertSpanKeeps(p, t);
      case _ =>
    }
  }

  ghost predicate SameLists(p: Pool, p': Pool, t: Tid) {
    t in p.caches && t in p'.caches && p'.caches[t] == p.caches[t]
  }

  // A thread that is carving leaves its cache alone, and goes on carving.
  lemma CarvingKeepsLists(p: Pool, ev: Event, t: Tid)
    requires PoolInv(p) && Can(p, ev) && t in p.phase && p.phase[t].Carving? && !(ev.AllocCarved? && ev.t == t)
    ensures PoolInv(Next(p, ev)) && t in Next(p, ev).phase && Next(p, ev).phase[t] == p.phase[t]
    ensures SameLists(p, Next(p, ev), t)
  {
    CacheOfPhase(p, t);
    hide PoolInv, Next;
    MemoryPool.StepKeeps(p, ev);
    StepSparesCarving(p, ev, t);
    OtherStepsKeepLists(p, ev, t);
  }

  lemma {:induction false} CarvingRunKeepsLists(p: Pool, evs: seq<Event>, p': Pool, t: Tid)
    requires PoolInv(p) && Interleaves(p, evs, p') && NoCarve(evs, t) && t in p.phase && p.phase[t].Carving?
    ensures SameLists(p, p', t)
    decreases |evs|
  {
    hide PoolInv, Can, Next;
    if evs == [] {
      CacheOfPhase(p, t);
    } else {
      CarvingKeepsLists(p, evs[0], t);
      CarvingRunKeepsLists(Next(p, evs[0]), evs[1..], p', t);
    }
  }

  /** In p1 thread t lists the span it has carved and fetches: allocate on these lists, with the
      blocks fetched from the span granted. */
  ghost predicate AllocatesFromCarved(p1: Pool, t: Tid, cnt: nat, lists: seq<seq<Addr>>, i: nat)
    requires PoolInv(p1) && Can(p1, AllocCarved(t, cnt)) && i < |lists|
  {
    hide PoolInv, Index, RoundUp;
    var p' := Next(p1, AllocCarved(t, cnt));
    && t in p'.caches && p1.phase[t].q in p1.page.spans
    && var blocks := BlocksOf(p1.page.spans[p1.phase[t].q]);
       Allocated(lists, p'.caches[t], i, blocks[..FreeLists.Taken(cnt, |blocks|)], Result(p1, AllocCarved(t, cnt)))
  }

  ghost predicate ServedLater(p: Pool, t: Tid, size: nat, e: Supply, evs: seq<Event>, p1: Pool)
    requires PoolInv(p) && Can(p, AllocSpan(t, size, e))
  {
    hide PoolInv, Can, Next;
    MemoryPool.StepKeeps(p, AllocSpan(t, size, e));
    NoCarve(evs, t) && Interleaves(Next(p, AllocSpan(t, size, e)), evs, p1)
  }

  // What is fetched from a span just carved goes in front of the list.
  lemma CarvedFetches(p: Pool, t: Tid, cnt: nat, lists: seq<seq<Addr>>, i: nat)
    requires PoolInv(p) && Can(p, AllocCarved(t, cnt)) && t in p.caches && p.caches[t] == lists
    requires p.phase[t].size <= MAX_BYTES && i == Index(p.phase[t].size) && i < |lists| && lists[i] == []
    ensures AllocatesFromCarved(p, t, cnt, lists, i)
  {
    hide PoolInv, Index, Move, RoundUp, BlocksOf, AddSpan;
    CarvedReady(p, t, cnt);
    PrivateSize(p, t);
    Grants(BlocksOf(p.page.spans[p.phase[t].q]), cnt);
  }

  /** And so is one from a span that PageCache had to supply, whatever the other threads do between
      the two sections that it takes: the blocks fetched from the new span are granted. */
  lemma SpanIsAllocate(p: Pool, t: Tid, size: nat, e: Supply, evs: seq<Event>, p1: Pool, cnt: nat)
    requires PoolInv(p) && Can(p, AllocSpan(t, size, e)) && ServedLater(p, t, size, e, evs, p1)
    requires PoolInv(p1) && Can(p1, AllocCarved(t, cnt))
    ensures t in p.caches && size <= MAX_BYTES && Index(size) < |p.caches[t]|
    ensures AllocatesFromCarved(p1, t, cnt, p.caches[t], Index(size))
  {
    hide PoolInv, Index, RoundUp, Next, BlocksOf, Interleaves, SupplyOk, NumMovePage;
    SpanStarts(p, t, size, e);
    OtherStepsKeepLists(p, AllocSpan(t, size, e), t);
    CarvingRunKeepsLists(Next(p, AllocSpan(t, size, e)), evs, p1, t);
    CarvingLasts(Next(p, AllocSpan(t, size, e)), evs, p1, t);
    RoundUpIsLeastClass(size, 0);
    CarvedFetches(p1, t, cnt, p.caches[t], Index(size));
  }
}
