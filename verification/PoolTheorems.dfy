/**
 What the memory pool promises its users, in every state that any interleaving reaches.
 */
module PoolTheorems {
  import opened SizeClasses
  import opened PageModel
  import opened Blocks
  import opened MemoryPool
  import FreeLists

  // ---------- use counts and the return of spans ----------

  /** The blocks of span q that are anywhere but on its own free list. */
  ghost function Outstanding(p: Pool, q: Ptr): set<Addr> {
    set a | a in p.place && p.place[a].span == q && p.place[a].at != FreeIn(q)
  }

  lemma BlocksSplit(p: Pool, q: Ptr)
    requires PoolInv(p) && q in p.role && p.role[q] == Serving
    ensures q in p.page.spans && q in p.free && NoDup(p.free[q]) && NoDup(BlocksOf(p.page.spans[q]))
    ensures Elements(BlocksOf(p.page.spans[q])) == Elements(p.free[q]) + Outstanding(p, q)
    ensures Elements(p.free[q]) !! Outstanding(p, q)
  {
    hide Inv, Roles, CentralOk, NoDup, Index;
    UsedSpan(p.page.spans, q);
    InUse(p, q);
    FreeBlocks(p, q);
    BlocksNoDup(p.page.spans[q]);
    hide BlocksOf, Used;
    assert ListAt(p.free[q], p.place, FreeIn(q));
  }

  /** useCnt_ counts exactly the outstanding blocks: those in thread caches, in transit, or
      in the hands of users. */
  lemma UseCountIsOutstanding(p: Pool, q: Ptr)
    requires PoolInv(p) && q in p.role && p.role[q] == Serving
    ensures q in p.page.spans && p.page.spans[q].useCnt == |Outstanding(p, q)|
  {
    BlocksSplit(p, q);
    NoDupCard(p.free[q]);
    NoDupCard(BlocksOf(p.page.spans[q]));
    Count(p, q);
    DisjointCard(Elements(p.free[q]), Outstanding(p, q));
  }

  lemma Count(p: Pool, q: Ptr)
    requires PoolInv(p) && q in p.role && p.role[q] == Serving
    ensures q in p.free && q in p.page.spans && |p.free[q]| + p.page.spans[q].useCnt == |BlocksOf(p.page.spans[q])|
  {
    hide Inv, Roles, CentralOk, ListsOk, PlacesOk, BlocksOf;
    InUse(p, q);
    UsedSpan(p.page.spans, q);
  }

  lemma DisjointCard<T>(s: set<T>, t: set<T>)
    requires s !! t
    ensures |s + t| == |s| + |t|
  {
  }

  /** A span starts its way back to PageCache exactly when its last outstanding block is
      given back. */
  lemma SpanReturnsWithLastBlock(p: Pool, t: Tid)
    requires PoolInv(p) && Can(p, ReturnBlock(t))
    ensures var a := p.phase[t].chain[0];
      && a in p.place && t in Next(p, ReturnBlock(t)).phase
      && (Next(p, ReturnBlock(t)).phase[t].Reverting? <==> Outstanding(p, p.place[a].span) == {a})
  {
    hide Inv, PoolOk, BlocksOf, Used, Index, Bump, Move;
    var a := p.phase[t].chain[0];
    InvParts(p);
    ChainHead(Used(p.page.spans), p, t);
    AllAtHead(p.place, a, InChain(t));
    ReturnBlockReady(p, t);
    GivenBack(p, t);
    var q := p.place[a].span;
    UseCountIsOutstanding(p, q);
    assert a in Outstanding(p, q);
    if |Outstanding(p, q)| == 1 {
      SubsetCard({a}, Outstanding(p, q));
    }
  }

  /** Every block of a listed or large span is in exactly one place: on its span's free list,
      on one list of one thread's cache, in one chain on its way back, or with a user; and
      every list of blocks holds nothing else, each block once. */
  lemma BlocksArePartitioned(p: Pool, a: Addr)
    requires PoolInv(p)
    ensures forall q :: q in p.free ==>
        NoDup(p.free[q]) && (a in p.free[q] <==> a in p.place && p.place[a].at == FreeIn(q))
    ensures forall t, i :: t in p.caches && 0 <= i < |p.caches[t]| ==>
      NoDup(p.caches[t][i]) && (a in p.caches[t][i] <==> a in p.place && p.place[a].at == InCache(t, i))
    ensures forall t :: t in p.phase ==> (a in ChainOf(p.phase[t]) <==> a in p.place && p.place[a].at == InChain(t))
    ensures a in p.place ==>
        p.place[a].span in p.role && p.place[a].span in p.page.spans && a in BlocksOf(p.page.spans[p.place[a].span])
    ensures forall q :: q in p.role && q in p.page.spans && p.role[q] == Serving && a in BlocksOf(p.page.spans[q]) ==>
      a in p.place && p.place[a].span == q
  {
    hide Inv, Roles, CentralOk, CountsOk, ListsOk, PlacesOk, ListAt, NoDup, BlocksOf;
    ListsPartition(p, a);
    if a in p.place { LookupFindsSpan(p, a); }
    forall q | q in p.role && q in p.page.spans && p.role[q] == Serving && a in BlocksOf(p.page.spans[q])
      ensures a in p.place && p.place[a].span == q
    {
      ServesClass(p, q);
      ServingBlock(p, q, a);
    }
  }

  lemma ListsPartition(p: Pool, a: Addr)
    requires PoolInv(p)
    ensures forall q :: q in p.free ==>
        NoDup(p.free[q]) && (a in p.free[q] <==> a in p.place && p.place[a].at == FreeIn(q))
    ensures forall t, i :: t in p.caches && 0 <= i < |p.caches[t]| ==>
      NoDup(p.caches[t][i]) && (a in p.caches[t][i] <==> a in p.place && p.place[a].at == InCache(t, i))
    ensures forall t :: t in p.phase ==> (a in ChainOf(p.phase[t]) <==> a in p.place && p.place[a].at == InChain(t))
  {
    hide Inv, Roles, CentralOk, CountsOk, PlacesOk, NoDup;
  }

  lemma ServingBlock(p: Pool, q: Ptr, a: Addr)
    requires PoolInv(p) && q in p.role && p.role[q] == Serving && q in p.page.spans && p.page.spans[q].used
      && a in BlocksOf(p.page.spans[q])
    ensures a in p.place && p.place[a].span == q
  {
    hide Inv, Roles, CentralOk, CountsOk, ListsOk, BlocksOf;
    UsedSpan(p.page.spans, q);
    assert a in BlocksOf(Used(p.page.spans)[q]);
  }

  lemma SpanPages(p: Pool, q: Ptr)
    requires PoolInv(p) && q in p.role
    ensures q in p.page.spans && p.page.spans[q].used && 1 <= p.page.spans[q].cnt
  {
    hide CentralOk, CountsOk, ListsOk, PlacesOk, Listed, MapOk;
    UsedSpan(p.page.spans, q);
  }

  lemma BlockOfRole(p: Pool, r: Ptr, a: Addr)
    requires PoolInv(p) && r in p.role && (p.role[r] == Serving || p.role[r] == Big)
    requires r in p.page.spans && p.page.spans[r].used && a in BlocksOf(p.page.spans[r])
    ensures a in p.place && p.place[a].span == r
  {
    hide Inv, Roles, CentralOk, CountsOk, ListsOk, BlocksOf;
    UsedSpan(p.page.spans, r);
    assert a in BlocksOf(Used(p.page.spans)[r]);
  }

  // ---------- allocation and release ----------

  ghost predicate IsAlloc(ev: Event) {
    ev.AllocCached? || ev.AllocListed? || ev.AllocCarved? || ev.AllocLarge?
  }

  /** The address an allocation step hands to its caller. */
  ghost function Result(p: Pool, ev: Event): Addr
    requires PoolInv(p) && IsAlloc(ev) && Can(p, ev)
  {
    hide PoolInv, Index, RoundUp;
    match ev
    case AllocCached(t, size) => p.caches[t][Index(size)][0]
    case AllocListed(t, size, cnt) => ChosenServes(p, size); p.free[Chosen(p, size)][0]
    case AllocCarved(t, cnt) => CarvedReady(p, t, cnt); Enlist(p, t).free[p.phase[t].q][0]
    case AllocLarge(t, size, e) =>
      ObtainBigKeeps(p, size, e);
      var (s, q) := Grant(p.page, RoundUp(size) / PAGE_BYTES, size, e);
      Base(s.spans[q])
  }

  // The class size the allocation is served from; the exact size for a large one.
  ghost function Served(p: Pool, ev: Event): nat
    requires PoolInv(p) && IsAlloc(ev) && Can(p, ev)
  {
    match ev
    case AllocCached(t, size) => RoundUp(size)
    case AllocListed(t, size, cnt) => RoundUp(size)
    case AllocCarved(t, cnt) => p.phase[t].size
    case AllocLarge(t, size, e) => size
  }

  /** A block that was not live becomes live, and liveness changes nowhere else. */
  ghost predicate HandsOut(p: Pool, p': Pool, a: Addr) {
    !IsLive(p, a) && IsLive(p', a) && forall b :: b != a ==> (IsLive(p, b) <==> IsLive(p', b))
  }

  /** The block handed out belongs to a span in use of the right block size. */
  ghost predicate Fits(p': Pool, a: Addr, size: nat) {
    && a in p'.place && p'.place[a].span in p'.page.spans
    && p'.page.spans[p'.place[a].span].used && p'.page.spans[p'.place[a].span].blockSize == size
  }

  lemma CachedHandsOut(p: Pool, t: Tid, size: nat)
    requires PoolInv(p) && Can(p, AllocCached(t, size))
    ensures var ev := AllocCached(t, size);
      HandsOut(p, Next(p, ev), Result(p, ev)) && Fits(Next(p, ev), Result(p, ev), RoundUp(size))
  {
    hide PoolInv, BlocksOf, Index, RoundUp, NoDup;
    var l := p.caches[t][Index(size)];
    assert l[0] in l && l[..1] == [l[0]];
    CacheSize(p, t);
    BlocksArePartitioned(p, l[0]);
    LookupFindsSpan(p, l[0]);
    ClassOfCached(p, t, size);
  }

  // A cached block's span has the class of its list.
  lemma ClassOfCached(p: Pool, t: Tid, size: nat)
    requires PoolInv(p) && Can(p, AllocCached(t, size))
    ensures var a := p.caches[t][Index(size)][0];
      a in p.place && p.place[a].span in p.page.spans && p.page.spans[p.place[a].span].blockSize == RoundUp(size)
  {
    hide Inv, CentralOk, CountsOk, BlocksOf, Index, RoundUp, NoDup, ClassSpan;
    var l := p.caches[t][Index(size)];
    assert ListAt(l, p.place, InCache(t, Index(size))) && l[0] in l;
    var q := p.place[l[0]].span;
    UsedSpan(p.page.spans, q);
    hide Roles;
    ClassOfSpan(p, q, size);
  }

  lemma FetchHandsOut(p: Pool, t: Tid, i: nat, q: Ptr, cnt: nat)
    requires PoolInv(p) && q in p.role && p.role[q] == Serving && q in p.free && p.free[q] != [] && t in p.caches
    requires q in p.page.spans && p.page.spans[q].blockSize <= MAX_BYTES
      && i == Index(p.page.spans[q].blockSize) < BUCKETS
    ensures i < |p.caches[t]|
    ensures var p', a := Fetch(p, t, i, q, cnt), p.free[q][0];
      HandsOut(p, p', a) && Fits(p', a, p.page.spans[q].blockSize)
  {
    hide Inv, PoolOk, BlocksOf, Index, NoDup;
    FetchKeeps(p, t, i, q, cnt);
    FreeBlocks(p, q);
    InUse(p, q);
    var s := p.free[q];
    var n := FreeLists.Taken(cnt, |s|);
    assert s[..n][0] == s[0] && s[..n][1..] == s[1..n];
    assert forall b :: b in s[..n] <==> b == s[0] || b in s[1..n];
    assert forall b :: b in s[..n] ==> b in s;
    AfterTake(p, q, n);
  }

  lemma ListedHandsOut(p: Pool, t: Tid, size: nat, cnt: nat)
    requires PoolInv(p) && Can(p, AllocListed(t, size, cnt))
    ensures var ev := AllocListed(t, size, cnt);
      HandsOut(p, Next(p, ev), Result(p, ev)) && Fits(Next(p, ev), Result(p, ev), RoundUp(size))
  {
    hide PoolInv, Index, RoundUp, HandsOut, Fits, Fetch;
    ChosenServes(p, size);
    FetchHandsOut(p, t, Index(size), Chosen(p, size), cnt);
  }

  // Listing a carved span makes no block live.
  lemma EnlistKeepsLive(p: Pool, t: Tid)
    requires PoolInv(p) && t in p.phase && p.phase[t].Carving?
    ensures CanEnlist(p, t) && forall b :: IsLive(p, b) <==> IsLive(Enlist(p, t), b)
  {
    hide Inv, PoolOk, BlocksOf, Index;
    EnlistKeeps(p, t);
    PrivateHasNoBlocks(p, t, p.phase[t].q);
  }

  lemma CarvedHandsOut(p: Pool, t: Tid, cnt: nat)
    requires PoolInv(p) && Can(p, AllocCarved(t, cnt))
    ensures var ev := AllocCarved(t, cnt);
      HandsOut(p, Next(p, ev), Result(p, ev)) && Fits(Next(p, ev), Result(p, ev), p.phase[t].size)
  {
    hide PoolInv, Index, RoundUp, Fits, Fetch, Enlist, IsLive;
    PrivateSize(p, t);
    CarvedReady(p, t, cnt);
    EnlistKeepsLive(p, t);
    FetchHandsOut(Enlist(p, t), t, Index(p.phase[t].size), p.phase[t].q, cnt);
  }

  lemma NewBlockHandsOut(p: Pool, p': Pool, a: Addr, q: Ptr)
    requires a !in p.place && p'.place == p.place[a := Block(q, Live)]
    ensures HandsOut(p, p', a)
  {
  }

  lemma LargeHandsOut(p: Pool, t: Tid, size: nat, e: Supply)
    requires PoolInv(p) && Can(p, AllocLarge(t, size, e))
    ensures var ev := AllocLarge(t, size, e);
      HandsOut(p, Next(p, ev), Result(p, ev)) && Fits(Next(p, ev), Result(p, ev), size)
  {
    hide SupplyOk, FreshSpans, Searchable, PoolInv, Inv, RoundUp, Grant, Granted, Base, HandsOut, BlocksOf;
    BigPages(size);
    ObtainBigKeeps(p, size, e);
    InvParts(p);
    var n := RoundUp(size) / PAGE_BYTES;
    GrantKeeps(p.page, n, size, e);
    GrantIsGranted(p.page, n, size, e);
    var (s, q) := Grant(p.page, n, size, e);
    GrantedSpan(p.page, s, q, n, size, e);
    LargeBlocks(s.spans[q]);
    FreshBlocks(p, s, q, n, size, e, Base(s.spans[q]));
    NewBlockHandsOut(p, ObtainBig(p, size, e), Base(s.spans[q]), q);
  }

  lemma LargeBlocks(sp: Span)
    requires sp.blockSize > MAX_BYTES
    ensures Base(sp) in BlocksOf(sp)
  {
  }

  /** Every allocation hands out a block that nobody holds, from a span whose block size is
      the rounded request; no other block changes hands. */
  lemma AllocationHandsOutFreshBlock(p: Pool, ev: Event)
    requires PoolInv(p) && IsAlloc(ev) && Can(p, ev)
    ensures HandsOut(p, Next(p, ev), Result(p, ev))
    ensures Fits(Next(p, ev), Result(p, ev), Served(p, ev))
  {
    hide HandsOut, Fits, Next, Result;
    match ev
    case AllocCached(t, size) => CachedHandsOut(p, t, size);
    case AllocListed(t, size, cnt) => ListedHandsOut(p, t, size, cnt);
    case AllocCarved(t, cnt) => CarvedHandsOut(p, t, cnt);
    case AllocLarge(t, size, e) => LargeHandsOut(p, t, size, e);
  }

  /** A large allocation is given the first address of a span of the fewest pages that hold it. */
  lemma LargeSpanIsLeast(p: Pool, t: Tid, size: nat, e: Supply)
    requires PoolInv(p) && Can(p, AllocLarge(t, size, e))
    ensures var ev := AllocLarge(t, size, e); var p', a := Next(p, ev), Result(p, ev);
      && a in p'.place && p'.place[a].span in p'.page.spans
      && var sp := p'.page.spans[p'.place[a].span];
         a == Base(sp) && sp.blockSize == size && (sp.cnt - 1) * PAGE_BYTES < size <= sp.cnt * PAGE_BYTES
  {
    hide SupplyOk, FreshSpans, Searchable, PoolInv, RoundUp, Grant, Granted, Base;
    LargePages(size);
    ObtainBigKeeps(p, size, e);
    InvParts(p);
    var n := RoundUp(size) / PAGE_BYTES;
    GrantIsGranted(p.page, n, size, e);
    var (s, q) := Grant(p.page, n, size, e);
    GrantedSpan(p.page, s, q, n, size, e);
  }

  lemma LargePages(size: nat)
    requires MAX_BYTES < size < WORD && RoundUp(size) / PAGE_BYTES > 0
    ensures var n := RoundUp(size) / PAGE_BYTES; 1 <= n && (n - 1) * PAGE_BYTES < size <= n * PAGE_BYTES
  {
    RoundsToNoPageIff(size);
    RoundUpIsLeastPages(size);
    hide RoundUp;
  }

  // ---------- an allocation over two critical sections ----------

  ghost predicate NoCarve(evs: seq<Event>, t: Tid) {
    forall i :: 0 <= i < |evs| ==> !(evs[i].AllocCarved? && evs[i].t == t)
  }

  // Only its own next section ends a thread's carving.
  lemma StepSparesCarving(p: Pool, ev: Event, t: Tid)
    requires PoolInv(p) && Can(p, ev) && t in p.phase && p.phase[t].Carving? && !(ev.AllocCarved? && ev.t == t)
    ensures t in Next(p, ev).phase && Next(p, ev).phase[t] == p.phase[t]
  {
    hide PoolInv, Index, RoundUp, NumMovePage, Move, Grant, SupplyOk, Searchable, FreshSpans;
    match ev
    case AllocSpan(_, size, e) => SpanReady(p, ev.t, size, e);
    case AllocLarge(_, size, e) => ObtainBigKeeps(p, size, e);
    case AllocListed(_, size, _) => ChosenServes(p, size);
    case AllocCarved(_, cnt) => CarvedReady(p, ev.t, cnt);
    case FreeSmall(_, a) => FreeSmallList(p, ev.t, a, SpanAt(p, a));
    case FreeLarge(_, a) => FreeLargeReady(p, ev.t, a);
    case ReturnBlock(_) => ReturnBlockReady(p, ev.t);
    case ReturnSpan(_) => RevertSpanKeeps(p, ev.t);
    case _ =>
  }

  lemma {:induction false} CarvingLasts(p: Pool, evs: seq<Event>, p': Pool, t: Tid)
    requires PoolInv(p) && Interleaves(p, evs, p') && NoCarve(evs, t) && t in p.phase && p.phase[t].Carving?
    ensures PoolInv(p') && t in p'.phase && p'.phase[t] == p.phase[t]
    decreases |evs|
  {
    hide PoolInv, Can, Next;
    if evs != [] {
      MemoryPool.StepKeeps(p, evs[0]);
      StepSparesCarving(p, evs[0], t);
      CarvingLasts(Next(p, evs[0]), evs[1..], p', t);
    }
  }

  // What the page-lock section leaves its thread with.
  lemma SpanStarts(p: Pool, t: Tid, size: nat, e: Supply)
    requires PoolInv(p) && Can(p, AllocSpan(t, size, e))
    ensures var p1 := Next(p, AllocSpan(t, size, e));
      PoolInv(p1) && t in p1.phase && p1.phase[t].Carving? && p1.phase[t].size == RoundUp(size)
  {
    hide PoolInv, Index, RoundUp, NumMovePage, Grant, SupplyOk, Searchable, FreshSpans;
    SpanReady(p, t, size, e);
  }

  /** A thread that had to ask PageCache for a span is served from it, whatever the other
      threads do between its two critical sections: the block it gets is one nobody holds, of
      a span in use whose block size is its rounded request. */
  lemma SpanServesRequest(p: Pool, t: Tid, size: nat, e: Supply, evs: seq<Event>, p': Pool, cnt: nat)
    requires PoolInv(p) && Can(p, AllocSpan(t, size, e)) && NoCarve(evs, t)
    requires (MemoryPool.StepKeeps(p, AllocSpan(t, size, e)); Interleaves(Next(p, AllocSpan(t, size, e)), evs, p'))
    ensures PoolInv(p') && Can(p', AllocCarved(t, cnt))
    ensures var ev := AllocCarved(t, cnt);
      HandsOut(p', Next(p', ev), Result(p', ev)) && Fits(Next(p', ev), Result(p', ev), RoundUp(size))
  {
    hide PoolInv, Next, RoundUp, HandsOut, Fits, Result, Interleaves, NoCarve;
    SpanStarts(p, t, size, e);
    CarvingLasts(Next(p, AllocSpan(t, size, e)), evs, p', t);
    AllocationHandsOutFreshBlock(p', AllocCarved(t, cnt));
  }

  /** A free ends the life of exactly the block freed, and the block of a listed span stays
      available: it is on the cache list of its class. */
  lemma FreeTakesBack(p: Pool, t: Tid, a: Addr, small: bool)
    requires PoolInv(p) && Can(p, if small then FreeSmall(t, a) else FreeLarge(t, a))
    ensures var p' := Next(p, if small then FreeSmall(t, a) else FreeLarge(t, a));
      && HandsOut(p', p, a)
      && (small ==> a in p'.place && p'.place[a].at.InCache? && p'.place[a].at.t == t)
  {
    hide Inv, PoolOk, BlocksOf, Index, NoDup;
    if small { FreeSmallList(p, t, a, SpanAt(p, a)); } else { FreeLargeReady(p, t, a); }
  }

  /** All other steps leave every live block live and create none. */
  lemma OtherStepsKeepLive(p: Pool, ev: Event)
    requires PoolInv(p) && Can(p, ev) && !IsAlloc(ev) && !ev.FreeSmall? && !ev.FreeLarge?
    ensures forall b :: IsLive(p, b) <==> IsLive(Next(p, ev), b)
  {
    match ev
    case Start(t) =>
    case AllocSpan(t, size, e) =>
    case ReturnList(t, i, size) => DetachKeepsLive(p, t, i, size);
    case ReturnBlock(t) => ReturnKeepsLive(p, t);
    case ReturnSpan(t) =>
    case ReturnEnd(t) =>
  }

  lemma DetachKeepsLive(p: Pool, t: Tid, i: nat, size: nat)
    requires PoolInv(p) && Can(p, ReturnList(t, i, size))
    ensures forall b :: IsLive(p, b) <==> IsLive(Detach(p, t, i, size), b)
  {
    hide Inv, Roles, CentralOk, CountsOk, PlacesOk, Index;
    ListedAt(p, t, i);
  }

  lemma ReturnKeepsLive(p: Pool, t: Tid)
    requires PoolInv(p) && Can(p, ReturnBlock(t))
    ensures forall b :: IsLive(p, b) <==> IsLive(Next(p, ReturnBlock(t)), b)
  {
    hide Inv, PoolOk, BlocksOf, Used, Index, Bump;
    var a := p.phase[t].chain[0];
    InvParts(p);
    ChainHead(Used(p.page.spans), p, t);
    AllAtHead(p.place, a, InChain(t));
    ReturnBlockReady(p, t);
    GivenBack(p, t);
    GiveBackKeeps(p, t);
    var p1, q := GiveBack(p, t), p.place[a].span;
    if p1.page.spans[q].useCnt == 0 {
      NoOutstanding(p1, q);
    }
  }

  // A span with use count zero has all its blocks at home.
  lemma NoOutstanding(p: Pool, q: Ptr)
    requires PoolInv(p) && q in p.role && p.role[q] == Serving && q in p.page.spans && p.page.spans[q].useCnt == 0
    ensures forall b :: b in p.place && p.place[b].span == q ==> p.place[b].at == FreeIn(q)
  {
    UseCountIsOutstanding(p, q);
    hide PoolInv;
    forall b | b in p.place && p.place[b].span == q ensures p.place[b].at == FreeIn(q) {
      assert b !in Outstanding(p, q);
    }
  }

  // ---------- progress ----------

  /** Who can give a live block back: a small one any thread that has a cache of its own, which
      it gets with its first small allocation, and is not in the middle of something; a large
      one every thread, unless its span has over 128 pages. */
  lemma BlockCanBeFreedIff(p: Pool, t: Tid, a: Addr)
    requires PoolInv(p) && IsLive(p, a)
    ensures p.place[a].span in p.page.spans
    ensures var sp := p.page.spans[p.place[a].span];
      Can(p, FreeSmall(t, a)) || Can(p, FreeLarge(t, a))
      <==> if sp.blockSize <= MAX_BYTES then t in p.phase && p.phase[t] == Idle else sp.cnt <= MAX_PAGES
  {
    hide PoolInv;
    LookupFindsSpan(p, a);
    if t in p.phase { CacheOfPhase(p, t); }
  }

  lemma CacheOfPhase(p: Pool, t: Tid)
    requires PoolInv(p) && t in p.phase
    ensures t in p.caches && |p.caches[t]| == BUCKETS
  {
  }

  // ---------- every interleaving ----------

  /** p is reached from the empty pool by the interleaving evs. */
  ghost predicate Reached(evs: seq<Event>, p: Pool) {
    InitPoolInv();
    Interleaves(InitPool(), evs, p)
  }

  /** In every state reached from the empty pool, by any interleaving of any threads: each
      block a user holds finds its span in the page map, and each listed span's use count is the
      number of its outstanding blocks. */
  lemma EveryReachableState(evs: seq<Event>, p: Pool)
    requires Reached(evs, p)
    ensures forall a :: IsLive(p, a) ==> PageOf(a) in p.page.hash && SpanAt(p, a) == p.place[a].span
    ensures forall q :: q in p.role && p.role[q] == Serving ==>
        q in p.page.spans && p.page.spans[q].useCnt == |Outstanding(p, q)|
  {
    InitPoolInv();
    EveryInterleaving(InitPool(), evs, p);
    hide PoolInv;
    forall a | IsLive(p, a) ensures PageOf(a) in p.page.hash && SpanAt(p, a) == p.place[a].span {
      LookupFindsSpan(p, a);
    }
    forall q | q in p.role && p.role[q] == Serving
      ensures q in p.page.spans && p.page.spans[q].useCnt == |Outstanding(p, q)|
    {
      UseCountIsOutstanding(p, q);
    }
  }
}
