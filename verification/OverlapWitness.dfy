/**
 A run from the empty pool after which two users hold blocks that overlap: five blocks of
 51200 bytes fill a span of 62 pages and 2048 bytes more, and a large block lies behind it.
 */
module OverlapWitness {
  import opened SizeClasses
  import opened PageModel
  import opened Blocks
  import opened MemoryPool
  import opened PoolTheorems
  import opened PoolOverlap
  import FreeLists

  const SIZE: nat := 51200
  const LARGE: nat := 270336
  const SUPPLY: Supply := Supply(1, 2, 1)
  const SPARE: Supply := Supply(3, 4, 0)

  function NoLists(): Lists {
    seq(MAX_PAGES + 1, _ => [])
  }

  // The span cut for the class, and what is left of the batch behind it.
  function Cut62(n: nat): Span { Span(1, 62, true, n, SIZE) }

  function Rest66(): Span { Span(63, 66, false, 0, 0) }

  function FiveBlocks(): seq<Addr> {
    [4096, 55296, 106496, 157696, 208896]
  }

  lemma Numbers()
    ensures RoundUp(SIZE) == SIZE && IsClass(SIZE) && Index(SIZE) == 169 && NumMovePage(SIZE) == 62
    ensures RoundUp(LARGE) / PAGE_BYTES == 66 && MAX_BYTES < LARGE < WORD
    ensures SmallSize(SIZE)
  {
  }

  lemma Blocks62(n: nat)
    ensures BlocksOf(Cut62(n)) == FiveBlocks() && End(Cut62(n)) == 258048
  {
    CarvedAt(4096, 258048, SIZE);
    hide Carved;
    var blocks := BlocksOf(Cut62(n));
    assert |blocks| == 5;
    assert blocks[0] == 4096 && blocks[1] == 55296 && blocks[2] == 106496 && blocks[3] == 157696 && blocks[4] == 208896;
  }

  // ---------- the page heap ----------

  lemma FreshBatch()
    ensures var u := AddLarge(Init(), 2, 1);
      && u.spans == map[2 := Span(1, MAX_PAGES, false, 0, 0)] && u.lists == NoLists()[MAX_PAGES := [2]]
      && FirstNonEmpty(u.lists, 62) == MAX_PAGES
  {
    hide SetRange;
    assert [2] + Init().lists[MAX_PAGES] == [2];
    assert FirstNonEmpty(Init().lists, 62) > MAX_PAGES;
    AddLargeFirst(Init(), 62, SUPPLY);
  }

  lemma BatchCut(u: State)
    requires u.spans == map[2 := Span(1, MAX_PAGES, false, 0, 0)] && u.lists == NoLists()[MAX_PAGES := [2]]
    ensures Searchable(u.spans, u.lists)
    ensures var c := CutAndRelink(u, MAX_PAGES, 62, 1);
      c.spans == map[1 := Span(1, 62, false, 0, 0), 2 := Rest66()] && c.lists == NoLists()[66 := [2]]
  {
    hide SetRange;
    assert Without([2], 2) == [];
    assert [2] + NoLists()[66] == [2];
  }

  /** The first grant from an empty heap takes the head of a fresh batch. */
  lemma FirstGrant()
    ensures Searchable(Init().spans, Init().lists) && SupplyOk(Init(), 62, SUPPLY) && FreshSpans(Init(), 62, SUPPLY)
    ensures var (s, q) := Grant(Init(), 62, SIZE, SUPPLY); q == 1 && Heap(s, 0)
  {
    assert FirstNonEmpty(Init().lists, 62) > MAX_PAGES;
    hide SetRange, CutAndRelink, AddLarge;
    FreshBatch();
    BatchCut(AddLarge(Init(), 2, 1));
  }

  ghost predicate Heap(s: State, n: nat) {
    s.spans == map[1 := Cut62(n), 2 := Rest66()] && s.lists == NoLists()[66 := [2]]
  }

  /** A request for 66 pages then takes exactly the rest. */
  lemma SecondGrant(s: State, n: nat)
    requires Heap(s, n)
    ensures Searchable(s.spans, s.lists) && SupplyOk(s, 66, SPARE) && FreshSpans(s, 66, SPARE)
    ensures var (t, q) := Grant(s, 66, LARGE, SPARE);
      q == 2 && 2 in t.spans && t.spans[2] == Span(63, 66, true, 0, LARGE) && 1 in t.spans && t.spans[1] == Cut62(n)
  {
    assert FirstNonEmpty(s.lists, 66) == 66;
    hide SetRange;
  }

  // ---------- the pool ----------

  /** Thread 0 has been handed the first n of the five blocks. */
  ghost predicate At(p: Pool, n: nat) {
    && PoolInv(p) && n <= 5 && Heap(p.page, n)
    && 1 in p.role && p.role[1] == Serving && p.free == map[1 := FiveBlocks()[n..]] && |p.central| == BUCKETS
      && p.central[169] == [1]
    && 0 in p.phase && p.phase[0] == Idle && 0 in p.caches && |p.caches[0]| == BUCKETS && p.caches[0][169] == []
  }

  // What fetching one block from span q does, apart from the block's place.
  lemma FetchOne(p: Pool, t: Tid, i: nat, q: Ptr)
    requires q in p.free && p.free[q] != [] && q in p.page.spans && t in p.caches && i < |p.caches[t]|
      && p.caches[t][i] == []
    ensures var p' := Fetch(p, t, i, q, 1);
      && p'.page == Bump(p.page, q, 1) && p'.free == p.free[q := p.free[q][1..]]
      && p'.central == p.central && p'.phase == p.phase && p'.caches == p.caches && p'.role == p.role
  {
    hide Move;
    var s := p.free[q];
    assert s[1..1] + p.caches[t][i] == [];
    assert p.caches[t][i := []] == p.caches[t];
  }

  lemma TakeNext(p: Pool, n: nat)
    requires At(p, n) && n < 5
    ensures PoolInv(p) && Can(p, AllocListed(0, SIZE, 1))
    ensures var p' := Next(p, AllocListed(0, SIZE, 1)); PoolInv(p') && At(p', n + 1) && IsLive(p', FiveBlocks()[n])
  {
    hide PoolInv, Index, RoundUp, NumMovePage, Fits, Fetch, IsClass;
    Numbers();
    var ev := AllocListed(0, SIZE, 1);
    ChoosesOne(p);
    MemoryPool.StepKeeps(p, ev);
    AllocationHandsOutFreshBlock(p, ev);
    ChosenServes(p, SIZE);
    FetchOne(p, 0, 169, 1);
    assert FiveBlocks()[n..][1..] == FiveBlocks()[n + 1..];
  }

  lemma ChoosesOne(p: Pool)
    requires |p.central| == BUCKETS && p.central[169] == [1] && 1 in p.free && p.free[1] != []
    ensures SmallSize(SIZE) && FirstFree(p.central[Index(SIZE)], p.free) < |p.central[Index(SIZE)]|
      && Chosen(p, SIZE) == 1
  {
    Numbers();
    hide Index, SmallSize;
    assert FirstFree([1], p.free) == 0;
  }

  lemma InterleavesCons(p: Pool, ev: Event, evs: seq<Event>, p': Pool)
    requires PoolInv(p) && Can(p, ev) && PoolInv(Next(p, ev)) && Interleaves(Next(p, ev), evs, p')
    ensures Interleaves(p, [ev] + evs, p')
  {
    hide PoolInv, Can, Next;
    assert ([ev] + evs)[1..] == evs;
  }

  lemma InterleavesNone(p: Pool)
    requires PoolInv(p)
    ensures Interleaves(p, [], p)
  {
  }

  /** Thread 0 has started, and got its span. */
  ghost predicate Begun(p: Pool) {
    && PoolInv(p) && p.page == Init() && p.free == map[] && p.central == seq(BUCKETS, _ => [])
    && p.phase == map[0 := Idle] && 0 in p.caches && p.caches[0] == seq(BUCKETS, _ => [])
  }

  ghost predicate Holding(p: Pool) {
    && PoolInv(p) && Heap(p.page, 0) && p.free == map[] && p.central == seq(BUCKETS, _ => [])
    && p.phase == map[0 := Carving(1, SIZE)] && 0 in p.caches && p.caches[0] == seq(BUCKETS, _ => [])
  }

  lemma Begin()
    ensures PoolInv(InitPool()) && Can(InitPool(), Start(0))
    ensures PoolInv(Next(InitPool(), Start(0))) && Begun(Next(InitPool(), Start(0)))
  {
    InitPoolInv();
    hide PoolInv;
    SpawnKeeps(InitPool(), 0);
  }

  lemma MayGetSpan(p: Pool)
    requires Begun(p)
    ensures PoolInv(p) && Can(p, AllocSpan(0, SIZE, SUPPLY))
  {
    hide PoolInv, Begun, CacheEmpty, Index, RoundUp, NumMovePage, SupplyOk, IsClass, Init, Heap, Grant, SmallSize;
    Numbers();
    FirstGrant();
    StartsEmpty(p);
  }

  lemma StartsEmpty(p: Pool)
    requires Begun(p)
    ensures PoolInv(p) && CacheEmpty(p, 0, SIZE) && p.page == Init()
  {
    hide PoolInv, Index, RoundUp, NumMovePage, IsClass, Init;
    Numbers();
  }

  // What the thread holds after its grant.
  lemma SpanObtained(p: Pool, p': Pool)
    requires Begun(p) && 1 <= NumMovePage(SIZE) && Searchable(p.page.spans, p.page.lists)
    requires FreshSpans(p.page, NumMovePage(SIZE), SUPPLY) && p' == MemoryPool.Obtain(p, 0, SIZE, SUPPLY) && PoolInv(p')
    ensures Holding(p')
  {
    hide PoolInv, NumMovePage, Grant, FreshSpans, Searchable, Heap, Init, RoundUp, Index, IsClass, SupplyOk;
    Numbers();
    FirstGrant();
  }

  lemma GetSpan(p: Pool)
    requires Begun(p)
    ensures PoolInv(p) && Can(p, AllocSpan(0, SIZE, SUPPLY))
    ensures PoolInv(Next(p, AllocSpan(0, SIZE, SUPPLY))) && Holding(Next(p, AllocSpan(0, SIZE, SUPPLY)))
  {
    hide PoolInv, Can, Begun, Holding, MemoryPool.Obtain, NumMovePage, RoundUp, Index, SupplyOk, FreshSpans, Searchable,
      IsClass;
    Numbers();
    MayGetSpan(p);
    SpanReady(p, 0, SIZE, SUPPLY);
    SpanObtained(p, Next(p, AllocSpan(0, SIZE, SUPPLY)));
  }

  // The span the thread holds is listed with all its blocks.
  lemma ListSpan(p: Pool)
    requires Holding(p)
    ensures CanEnlist(p, 0)
    ensures var p1 := Enlist(p, 0);
      && p1.page == p.page && p1.free == map[1 := FiveBlocks()] && p1.central == p.central[169 := [1]]
      && p1.phase == map[0 := Idle] && p1.caches == p.caches && 1 in p1.role && p1.role[1] == Serving
  {
    hide PoolInv, RoundUp, NumMovePage, IsClass, AddSpan;
    Numbers();
    CarvedReady(p, 0, 1);
    Blocks62(0);
    hide BlocksOf, Index;
    assert [1] + p.central[169] == [1];
  }

  lemma FirstBlockOut(p: Pool)
    requires Holding(p)
    ensures PoolInv(p) && Can(p, AllocCarved(0, 1))
    ensures PoolInv(Next(p, AllocCarved(0, 1))) && At(Next(p, AllocCarved(0, 1)), 1)
  {
    hide PoolInv, Index, RoundUp, NumMovePage, IsClass, Fetch, Enlist, CanEnlist;
    Numbers();
    ListSpan(p);
    CarvedReady(p, 0, 1);
    FetchOne(Enlist(p, 0), 0, 169, 1);
    MemoryPool.StepKeeps(p, AllocCarved(0, 1));
    assert FiveBlocks()[1..] == [55296, 106496, 157696, 208896];
  }

  ghost predicate Overlapping(p: Pool, a: Addr, b: Addr) {
    && IsLive(p, a) && IsLive(p, b) && p.place[a].span in p.page.spans && p.place[a].span != p.place[b].span
    && a < b < a + p.page.spans[p.place[a].span].blockSize
  }

  lemma LargeBehind(p: Pool)
    requires At(p, 5) && IsLive(p, 208896)
    ensures PoolInv(p) && Can(p, AllocLarge(0, LARGE, SPARE))
    ensures PoolInv(Next(p, AllocLarge(0, LARGE, SPARE)))
      && Overlapping(Next(p, AllocLarge(0, LARGE, SPARE)), 208896, 258048)
  {
    hide PoolInv, Index, RoundUp, NumMovePage, IsClass, Grant, SupplyOk, FreshSpans, Searchable, BlocksOf,
      HandsOut, Fits;
    var ev := AllocLarge(0, LARGE, SPARE);
    Numbers();
    SecondGrant(p.page, 5);
    MemoryPool.StepKeeps(p, ev);
    ObtainBigKeeps(p, LARGE, SPARE);
    var p' := Next(p, ev);
    assert p' == ObtainBig(p, LARGE, SPARE);
    Blocks62(5);
    assert FiveBlocks()[4] == 208896;
    BlockOfRole(p', 1, 208896);
  }

  /** Two live blocks of different spans overlap in a state that a single thread reaches from
      the empty pool with six allocations. */
  lemma OverlapIsReachable()
    ensures exists evs, p, a, b :: Reached(evs, p) && Overlapping(p, a, b)
  {
    hide PoolInv, Can, Next, At, Begun, Holding, Overlapping, Interleaves, InitPool, IsLive;
    var take := AllocListed(0, SIZE, 1);
    Begin();
    var p1 := Next(InitPool(), Start(0));
    GetSpan(p1);
    var p2 := Next(p1, AllocSpan(0, SIZE, SUPPLY));
    FirstBlockOut(p2);
    var p3 := Next(p2, AllocCarved(0, 1));
    TakeNext(p3, 1);
    var p4 := Next(p3, take);
    TakeNext(p4, 2);
    var p5 := Next(p4, take);
    TakeNext(p5, 3);
    var p6 := Next(p5, take);
    TakeNext(p6, 4);
    var p7 := Next(p6, take);
    LargeBehind(p7);
    var p8 := Next(p7, AllocLarge(0, LARGE, SPARE));
    InterleavesNone(p8);
    InterleavesCons(p7, AllocLarge(0, LARGE, SPARE), [], p8);
    InterleavesCons(p6, take, [AllocLarge(0, LARGE, SPARE)] + [], p8);
    var e6 := [take] + ([AllocLarge(0, LARGE, SPARE)] + []);
    InterleavesCons(p5, take, e6, p8);
    InterleavesCons(p4, take, [take] + e6, p8);
    InterleavesCons(p3, take, [take] + ([take] + e6), p8);
    var e3 := [take] + ([take] + ([take] + e6));
    InterleavesCons(p2, AllocCarved(0, 1), e3, p8);
    InterleavesCons(p1, AllocSpan(0, SIZE, SUPPLY), [AllocCarved(0, 1)] + e3, p8);
    var e1 := [AllocSpan(0, SIZE, SUPPLY)] + ([AllocCarved(0, 1)] + e3);
    InterleavesCons(InitPool(), Start(0), e1, p8);
    assert Reached([Start(0)] + e1, p8) && Overlapping(p8, 208896, 258048);
  }
}
