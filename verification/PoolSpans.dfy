/**
 What a step of one thread leaves alone: the phases and caches of all other threads, large
 spans, and spans that one thread works on, until that thread lets go of them.
 */
module PoolSpans {
  import opened SizeClasses
  import opened PageModel
  import opened Blocks
  import opened MemoryPool
  import opened PoolTheorems

  // ---------- other threads ----------

  ghost predicate SameFor<T>(m: map<Tid, T>, m': map<Tid, T>, u: Tid) {
    (u in m <==> u in m') && (u in m ==> m'[u] == m[u])
  }

  // What a step does to the phases: nothing, or a new phase for its own thread.
  ghost predicate Phased(p: Pool, p': Pool, ev: Event) {
    var t := ev.t;
    && (p'.phase == p.phase || (t in p'.phase && p'.phase == p.phase[t := p'.phase[t]]))
    && (ev.AllocSpan? ==> t in p'.phase && p'.phase[t].Carving? && p'.phase[t].size == RoundUp(ev.size))
    && (ev.Start? || ev.AllocCarved? || ev.ReturnEnd? ==> t in p'.phase && p'.phase[t] == Idle)
    && (ev.ReturnList? ==>
          && t in p.caches && ev.i < |p.caches[t]|
          && t in p'.phase && p'.phase[t] == Returning(p.caches[t][ev.i], ev.size))
    && (ev.ReturnSpan? ==>
          && t in p.phase && p.phase[t].Reverting?
          && t in p'.phase && p'.phase[t] == Returning(p.phase[t].chain, p.phase[t].size))
    && (ev.ReturnBlock? ==>
          && t in p.phase && p.phase[t].Returning? && p.phase[t].chain != []
          && t in p'.phase && (p'.phase[t].Returning? || p'.phase[t].Reverting?)
          && p'.phase[t].chain == p.phase[t].chain[1..] && p'.phase[t].size == p.phase[t].size)
    && (ev.AllocCached? || ev.AllocListed? || ev.FreeSmall? || ev.AllocLarge? || ev.FreeLarge? ==> p'.phase == p.phase)
  }

  ghost predicate Cached(p: Pool, p': Pool, ev: Event) {
    forall u :: u != ev.t ==> SameFor(p.caches, p'.caches, u)
  }

  lemma FetchMoves(p: Pool, ev: Event)
    requires PoolInv(p) && Can(p, ev) && (ev.AllocListed? || ev.AllocCarved?)
    ensures Phased(p, Next(p, ev), ev) && Cached(p, Next(p, ev), ev)
  {
    hide PoolInv, Index, RoundUp, Move, Bump;
    match ev
    case AllocListed(_, size, _) => ChosenServes(p, size);
    case AllocCarved(_, cnt) => CarvedReady(p, ev.t, cnt);
    case _ =>
  }

  lemma GrantMoves(p: Pool, ev: Event)
    requires PoolInv(p) && Can(p, ev) && (ev.AllocSpan? || ev.AllocLarge?)
    ensures Phased(p, Next(p, ev), ev) && Cached(p, Next(p, ev), ev)
  {
    hide PoolInv, Index, RoundUp, NumMovePage, Grant, SupplyOk, Searchable, FreshSpans;
    match ev
    case AllocSpan(_, size, e) => SpanReady(p, ev.t, size, e);
    case AllocLarge(_, size, e) => ObtainBigKeeps(p, size, e);
    case _ =>
  }

  lemma ReturnBlockMoves(p: Pool, ev: Event)
    requires PoolInv(p) && Can(p, ev) && ev.ReturnBlock?
    ensures Phased(p, Next(p, ev), ev) && Cached(p, Next(p, ev), ev)
  {
    hide PoolInv, Index, Move, CanGiveBack, CanRetire, DropSpan, Bump;
    ReturnBlockReady(p, ev.t);
    GivenBack(p, ev.t);
  }

  lemma FreeMoves(p: Pool, ev: Event)
    requires PoolInv(p) && Can(p, ev) && (ev.FreeLarge? || ev.ReturnSpan?)
    ensures Phased(p, Next(p, ev), ev) && Cached(p, Next(p, ev), ev)
  {
    hide PoolInv, Move, Revert, Revertible, SpanAt;
    match ev
    case FreeLarge(_, a) => FreeLargeReady(p, ev.t, a);
    case ReturnSpan(_) => RevertSpanKeeps(p, ev.t);
    case _ =>
  }

  lemma FreeSmallMoves(p: Pool, ev: Event)
    requires PoolInv(p) && Can(p, ev) && ev.FreeSmall?
    ensures Phased(p, Next(p, ev), ev) && Cached(p, Next(p, ev), ev)
  {
    hide PoolInv, Index, Move;
    FreeSmallList(p, ev.t, ev.a, SpanAt(p, ev.a));
  }

  lemma LocalMoves(p: Pool, ev: Event)
    requires PoolInv(p) && Can(p, ev) && (ev.Start? || ev.AllocCached? || ev.ReturnList? || ev.ReturnEnd?)
    ensures Phased(p, Next(p, ev), ev) && Cached(p, Next(p, ev), ev)
  {
    hide PoolInv, Index, RoundUp, Move;
  }

  lemma StepMoves(p: Pool, ev: Event)
    requires PoolInv(p) && Can(p, ev)
    ensures Phased(p, Next(p, ev), ev) && Cached(p, Next(p, ev), ev)
  {
    hide PoolInv, Can, Next, Phased, Cached;
    match ev
    case AllocSpan(_, _, _) => GrantMoves(p, ev);
    case AllocLarge(_, _, _) => GrantMoves(p, ev);
    case AllocListed(_, _, _) => FetchMoves(p, ev);
    case AllocCarved(_, _) => FetchMoves(p, ev);
    case ReturnBlock(_) => ReturnBlockMoves(p, ev);
    case FreeSmall(_, _) => FreeSmallMoves(p, ev);
    case FreeLarge(_, _) => FreeMoves(p, ev);
    case ReturnSpan(_) => FreeMoves(p, ev);
    case _ => LocalMoves(p, ev);
  }

  lemma PhasesKept(p: Pool, ev: Event, u: Tid)
    requires PoolInv(p) && Can(p, ev) && u != ev.t
    ensures SameFor(p.phase, Next(p, ev).phase, u) && SameFor(p.caches, Next(p, ev).caches, u)
  {
    hide PoolInv, Can, Next;
    StepMoves(p, ev);
  }

  // ---------- spans that no list knows of ----------

  /** Span q has role r and record sp: a large span, or one that a thread is carving or has
      emptied. */
  ghost predicate Kept(p: Pool, q: Ptr, sp: Span, r: Role) {
    && r != Serving
    && q in p.role && p.role[q] == r && q in p.page.spans && p.page.spans[q] == sp && sp.used
  }

  lemma GrantSparesKept(p: Pool, q: Ptr, sp: Span, r: Role, s: State, q': Ptr, n: nat, size: nat, e: Supply)
    requires Kept(p, q, sp, r) && Granted(p.page, s, q', n, size, e)
    ensures q != q' && q in s.spans && s.spans[q] == sp
  {
  }

  lemma RevertSparesKept(p: Pool, q: Ptr, sp: Span, r: Role, q': Ptr)
    requires Kept(p, q, sp, r) && Revertible(p.page, q') && q != q'
    ensures q in Revert(p.page, q').spans && Revert(p.page, q').spans[q] == sp
  {
    hide Revertible, Revert, OnlyAbsorbed, Covers, Maximal;
    RevertKeeps(p.page, q');
  }

  lemma ObtainStays(p: Pool, t: Tid, c: nat, e: Supply, q: Ptr, sp: Span, r: Role)
    requires PoolInv(p) && Kept(p, q, sp, r) && c > 0 && 1 <= NumMovePage(c) && SupplyOk(p.page, NumMovePage(c), e)
    ensures Searchable(p.page.spans, p.page.lists) && FreshSpans(p.page, NumMovePage(c), e)
    ensures Kept(MemoryPool.Obtain(p, t, c, e), q, sp, r)
  {
    hide PoolInv, NumMovePage, Grant, Granted, SupplyOk, Searchable, FreshSpans;
    InvParts(p);
    GrantIsGranted(p.page, NumMovePage(c), c, e);
    var (s, q') := Grant(p.page, NumMovePage(c), c, e);
    GrantSparesKept(p, q, sp, r, s, q', NumMovePage(c), c, e);
  }

  lemma SpanGrantStays(p: Pool, t: Tid, size: nat, e: Supply, q: Ptr, sp: Span, r: Role)
    requires PoolInv(p) && Can(p, AllocSpan(t, size, e)) && Kept(p, q, sp, r)
    ensures Kept(Next(p, AllocSpan(t, size, e)), q, sp, r)
  {
    hide PoolInv, Index, RoundUp, NumMovePage, SupplyOk, Searchable, FreshSpans, MemoryPool.Obtain, Kept;
    SpanReady(p, t, size, e);
    ObtainStays(p, t, RoundUp(size), e, q, sp, r);
  }

  lemma ObtainBigStays(p: Pool, size: nat, n: nat, e: Supply, q: Ptr, sp: Span, r: Role)
    requires n == RoundUp(size) / PAGE_BYTES && 1 <= n && Kept(p, q, sp, r)
    requires Searchable(p.page.spans, p.page.lists) && FreshSpans(p.page, n, e)
    requires var (s, q') := Grant(p.page, n, size, e); Granted(p.page, s, q', n, size, e)
    ensures Kept(ObtainBig(p, size, e), q, sp, r)
  {
    hide RoundUp, Grant, Granted, Searchable, FreshSpans;
    var (s, q') := Grant(p.page, n, size, e);
    GrantSparesKept(p, q, sp, r, s, q', n, size, e);
  }

  lemma LargeGrantStays(p: Pool, t: Tid, size: nat, e: Supply, q: Ptr, sp: Span, r: Role)
    requires PoolInv(p) && Can(p, AllocLarge(t, size, e)) && Kept(p, q, sp, r)
    ensures Kept(Next(p, AllocLarge(t, size, e)), q, sp, r)
  {
    hide PoolInv, RoundUp, Grant, Granted, SupplyOk, Searchable, FreshSpans, Kept, ObtainBig;
    ObtainBigKeeps(p, size, e);
    InvParts(p);
    var n := RoundUp(size) / PAGE_BYTES;
    GrantIsGranted(p.page, n, size, e);
    ObtainBigStays(p, size, n, e, q, sp, r);
  }

  lemma FreedRole(p: Pool, t: Tid, a: Addr)
    requires PoolInv(p) && Can(p, FreeLarge(t, a))
    ensures CanFreeBig(p, a) && p.role[p.place[a].span] == Big
  {
    hide PoolInv;
    FreeLargeReady(p, t, a);
  }

  lemma RevertStays(p: Pool, ev: Event, q: Ptr, sp: Span, r: Role)
    requires PoolInv(p) && Can(p, ev) && Kept(p, q, sp, r) && (ev.FreeLarge? || ev.ReturnSpan?)
    requires ev.FreeLarge? && r == Big ==> ev.a in p.place && p.place[ev.a].span != q
    requires !(ev.ReturnSpan? && r == Emptied(ev.t))
    ensures Kept(Next(p, ev), q, sp, r)
  {
    hide PoolInv, Revert, Revertible, Index;
    if ev.FreeLarge? {
      FreeLargeReady(p, ev.t, ev.a);
      FreedRole(p, ev.t, ev.a);
      RevertSparesKept(p, q, sp, r, p.place[ev.a].span);
    } else {
      RevertSpanKeeps(p, ev.t);
      RevertsOther(p, ev.t, q);
      RevertSparesKept(p, q, sp, r, p.phase[ev.t].q);
    }
  }

  /** A large span stays until it is freed, a span being carved until its thread lists it, and an
      emptied one until its thread releases it. */
  lemma KeptStays(p: Pool, ev: Event, q: Ptr, sp: Span, r: Role)
    requires PoolInv(p) && Can(p, ev) && Kept(p, q, sp, r)
    requires ev.FreeLarge? && r == Big ==> ev.a in p.place && p.place[ev.a].span != q
    requires !(ev.AllocCarved? && r == Private(ev.t)) && !(ev.ReturnSpan? && r == Emptied(ev.t))
    ensures Kept(Next(p, ev), q, sp, r)
  {
    hide PoolInv, Can, Next, Kept;
    if ev.AllocSpan? {
      SpanGrantStays(p, ev.t, ev.size, ev.e, q, sp, r);
    } else if ev.AllocLarge? {
      LargeGrantStays(p, ev.t, ev.size, ev.e, q, sp, r);
    } else if ev.FreeLarge? || ev.ReturnSpan? {
      RevertStays(p, ev, q, sp, r);
    } else {
      CountingStays(p, ev, q, sp, r);
    }
  }

  lemma CountingStays(p: Pool, ev: Event, q: Ptr, sp: Span, r: Role)
    requires PoolInv(p) && Can(p, ev) && Kept(p, q, sp, r)
    requires !ev.AllocSpan? && !ev.AllocLarge? && !ev.FreeLarge? && !ev.ReturnSpan?
    requires !(ev.AllocCarved? && r == Private(ev.t))
    ensures Kept(Next(p, ev), q, sp, r)
  {
    hide PoolInv, Index, RoundUp, Move;
    match ev
    case AllocListed(_, size, _) => ChosenServes(p, size);
    case AllocCarved(_, cnt) => CarvedReady(p, ev.t, cnt); EnlistsOther(p, ev.t, q);
    case FreeSmall(_, a) => FreeSmallList(p, ev.t, a, SpanAt(p, a));
    case ReturnBlock(_) => ReturnBlockReady(p, ev.t); ReturnsOther(p, ev.t, q);
    case _ =>
  }

  // The span that another thread works on is a different one.
  lemma EnlistsOther(p: Pool, t: Tid, q: Ptr)
    requires PoolInv(p) && t in p.phase && p.phase[t].Carving? && q in p.role && p.role[q] != Private(t)
    ensures p.phase[t].q != q
  {
    hide Inv, CentralOk, CountsOk, ListsOk, PlacesOk;
  }

  lemma RevertsOther(p: Pool, t: Tid, q: Ptr)
    requires PoolInv(p) && t in p.phase && p.phase[t].Reverting? && q in p.role && p.role[q] != Emptied(t)
    ensures p.phase[t].q != q
  {
    hide Inv, CentralOk, CountsOk, ListsOk, PlacesOk;
  }

  lemma ReturnsOther(p: Pool, t: Tid, q: Ptr)
    requires PoolInv(p) && t in p.phase && p.phase[t].Returning? && p.phase[t].chain != []
    requires q in p.role && p.role[q] != Serving
    ensures p.phase[t].chain[0] in p.place && p.place[p.phase[t].chain[0]].span != q
  {
    hide Inv, PoolOk, BlocksOf, Used, Index;
    InvParts(p);
    ChainHead(Used(p.page.spans), p, t);
    AllAtHead(p.place, p.phase[t].chain[0], InChain(t));
  }

  // ---------- large blocks ----------

  // A large block of at most 128 pages that a user holds.
  ghost predicate LargeLive(p: Pool, a: Addr) {
    && IsLive(p, a) && p.place[a].span in p.role && p.role[p.place[a].span] == Big
    && p.place[a].span in p.page.spans && p.page.spans[p.place[a].span].cnt <= MAX_PAGES
  }

  lemma LargeLiveStays(p: Pool, ev: Event, a: Addr)
    requires PoolInv(p) && Can(p, ev) && LargeLive(p, a) && !(ev.FreeLarge? && ev.a == a)
    ensures LargeLive(Next(p, ev), a) && Next(p, ev).place[a].span == p.place[a].span
  {
    hide PoolInv, Next, BlocksOf, Index;
    LookupFindsSpan(p, a);
    var q := p.place[a].span;
    var sp := p.page.spans[q];
    if ev.FreeLarge? { OneLargeBlock(p, ev.t, ev.a, a); }
    KeptStays(p, ev, q, sp, Big);
    MemoryPool.StepKeeps(p, ev);
    BlockOfRole(Next(p, ev), q, a);
    LookupFindsSpan(Next(p, ev), a);
  }

  // A large span has one block.
  lemma OneLargeBlock(p: Pool, t: Tid, b: Addr, a: Addr)
    requires PoolInv(p) && Can(p, FreeLarge(t, b)) && LargeLive(p, a) && a != b
    ensures b in p.place && p.place[b].span != p.place[a].span
  {
    hide PoolInv;
    LookupFindsSpan(p, a);
    LookupFindsSpan(p, b);
    LargeSize(p, p.place[a].span);
  }

  lemma LargeSize(p: Pool, q: Ptr)
    requires PoolInv(p) && q in p.role && p.role[q] == Big
    ensures q in p.page.spans && p.page.spans[q].blockSize > MAX_BYTES
  {
    hide Inv, CentralOk, CountsOk, ListsOk, PlacesOk;
    UsedSpan(p.page.spans, q);
  }

  lemma LargeCanGo(p: Pool, t: Tid, a: Addr)
    requires PoolInv(p) && LargeLive(p, a)
    ensures Can(p, FreeLarge(t, a))
  {
    hide PoolInv;
    LookupFindsSpan(p, a);
    LargeSize(p, p.place[a].span);
  }
}
