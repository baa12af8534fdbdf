/**
 A run in which a user who stays inside a live block breaks a free list: five blocks of 51200
 bytes fill a span of 62 pages and 2048 bytes more, and the pages behind it are being carved.
 */
module CarveWitness {
  import opened SizeClasses
  import opened PageModel
  import opened Blocks
  import opened MemoryPool
  import opened PoolTheorems
  import opened PoolOverlap
  import opened OverlapWitness
  import opened PoolLinks
  import opened PoolMemory
  import Coalescing

  const MORE: Supply := Supply(3, 4, 1)

  // One more action at the end of a run.
  lemma {:induction false} RunsThen(x: Machine, acts: seq<Action>, y: Machine, act: Action)
    requires MemInv(x) && PoolMemory.Runs(x, acts, y) && PoolInv(y.pool) && Allowed(y, act)
    ensures PoolMemory.Runs(x, acts + [act], NextMachine(y, act))
    decreases |acts|
  {
    hide PoolInv, NonNull, Threaded, CarvedOk, FetchOk, HandedOk, Allowed, NextMachine;
    if acts == [] {
      assert [] + [act] == [act] && [act][1..] == [];
      ActionKeeps(x, act);
    } else {
      ActionKeeps(x, acts[0]);
      assert (acts + [act])[1..] == acts[1..] + [act];
      RunsThen(NextMachine(x, acts[0]), acts[1..], y, act);
    }
  }

  lemma ReachesThen(acts: seq<Action>, x: Machine, act: Action)
    requires Reaches(map[], acts, x) && MemInv(x) && Allowed(x, act)
    ensures Reaches(map[], acts + [act], NextMachine(x, act)) && MemInv(NextMachine(x, act))
  {
    hide PoolInv, NonNull, Threaded, CarvedOk, FetchOk, HandedOk, Allowed, NextMachine, PoolMemory.Runs;
    InitThreaded(map[]);
    RunsThen(InitMachine(map[]), acts, x, act);
    ActionKeeps(x, act);
  }

  // A step of the pool other than the listing of a span.
  lemma PoolAction(acts: seq<Action>, x: Machine, ev: Event) returns (acts': seq<Action>, x': Machine)
    requires Reaches(map[], acts, x) && MemInv(x) && Can(x.pool, ev) && RealPages(ev) && !ev.AllocCarved?
    requires x.handed == map[]
    ensures Reaches(map[], acts', x') && MemInv(x') && x'.pool == Next(x.pool, ev) && x'.done == NextDone(x.done, ev)
    ensures x'.handed == NextHanded(x.pool, ev, map[])
  {
    hide PoolInv, NonNull, Threaded, CarvedOk, FetchOk, HandedOk, Can, Next, Writes, NextDone, NextHanded, Reaches;
    ReachesThen(acts, x, PoolStep(ev));
    acts', x' := acts + [PoolStep(ev)], NextMachine(x, PoolStep(ev));
  }

  // Thread 0 carves the next block.
  lemma Carves(acts: seq<Action>, x: Machine) returns (acts': seq<Action>, x': Machine)
    requires Reaches(map[], acts, x) && MemInv(x) && 0 in x.done && x.done[0] < |PrivateBlocks(x.pool, 0)|
    ensures Reaches(map[], acts', x') && MemInv(x') && x'.pool == x.pool && x'.done == x.done[0 := x.done[0] + 1]
    ensures x'.handed == x.handed
  {
    hide PoolInv, NonNull, Threaded, CarvedOk, FetchOk, HandedOk, PrivateBlocks, Reaches;
    ReachesThen(acts, x, CarveWord(0));
    acts', x' := acts + [CarveWord(0)], NextMachine(x, CarveWord(0));
  }

  // ---------- the first span ----------

  lemma Started() returns (acts: seq<Action>, x: Machine)
    ensures Reaches(map[], acts, x) && MemInv(x) && Begun(x.pool) && x.done == map[] && x.handed == map[]
  {
    hide PoolInv, Begun, InitPool, Can, Next, NonNull, Threaded, CarvedOk, FetchOk, HandedOk;
    InitThreaded(map[]);
    Begin();
    acts, x := PoolAction([], InitMachine(map[]), Start(0));
  }

  lemma Granted62() returns (acts: seq<Action>, x: Machine)
    ensures Reaches(map[], acts, x) && MemInv(x) && Holding(x.pool) && x.done == map[0 := 0] && x.handed == map[]
  {
    hide MemInv, Begun, Holding, Can, Next, Reaches;
    acts, x := Started();
    GetSpan(x.pool);
    acts, x := PoolAction(acts, x, AllocSpan(0, SIZE, SUPPLY));
  }

  lemma HeldBlocks(p: Pool)
    requires Holding(p)
    ensures PrivateBlocks(p, 0) == FiveBlocks()
  {
    hide PoolInv, BlocksOf;
    Blocks62(0);
  }

  lemma {:induction false} CarvedTo(k: nat) returns (acts: seq<Action>, x: Machine)
    requires k <= 5
    ensures Reaches(map[], acts, x) && MemInv(x) && Holding(x.pool) && x.done == map[0 := k] && x.handed == map[]
    decreases k
  {
    hide MemInv, Holding, Reaches, PrivateBlocks;
    if k == 0 {
      acts, x := Granted62();
    } else {
      acts, x := CarvedTo(k - 1);
      HeldBlocks(x.pool);
      acts, x := Carves(acts, x);
    }
  }

  // A fetch of one block leaves nothing to split.
  lemma FetchesOne(p: Pool, ev: Event, n: nat)
    requires PoolInv(p) && Can(p, ev) && At(Next(p, ev), n)
    requires ev == AllocListed(0, SIZE, 1)
      || (ev == AllocCarved(0, 1) && 0 in p.phase && p.phase[0] == Carving(1, SIZE))
    ensures NextHanded(p, ev, map[]) == map[]
  {
    hide PoolInv, Can, Next, Result, Index, Heap;
    Numbers();
    assert FetchIndex(p, ev) == 169;
  }

  lemma ListedFirst() returns (acts: seq<Action>, x: Machine)
    ensures Reaches(map[], acts, x) && MemInv(x) && At(x.pool, 1) && x.done == map[] && x.handed == map[]
  {
    hide PoolInv, NonNull, Threaded, CarvedOk, FetchOk, HandedOk, Can, Next, Writes, Reaches, Holding, At,
      PrivateBlocks, NextHanded;
    acts, x := CarvedTo(5);
    HeldBlocks(x.pool);
    FirstBlockOut(x.pool);
    var act := PoolStep(AllocCarved(0, 1));
    ReachesThen(acts, x, act);
    HeldPhase(x.pool);
    FetchesOne(x.pool, AllocCarved(0, 1), 1);
    acts, x := acts + [act], NextMachine(x, act);
  }

  lemma HeldPhase(p: Pool)
    requires Holding(p)
    ensures 0 in p.phase && p.phase[0] == Carving(1, SIZE)
  {
    hide PoolInv, Heap;
  }

  // All five blocks are handed out; the last one reaches past the span.
  lemma {:induction false} Taken(n: nat) returns (acts: seq<Action>, x: Machine)
    requires 1 <= n <= 5
    ensures Reaches(map[], acts, x) && MemInv(x) && At(x.pool, n) && x.done == map[] && x.handed == map[]
    ensures n > 1 ==> IsLive(x.pool, FiveBlocks()[n - 1])
    decreases n
  {
    hide MemInv, At, Can, Next, Reaches, IsLive, NextHanded;
    if n == 1 {
      acts, x := ListedFirst();
    } else {
      acts, x := Taken(n - 1);
      TakeNext(x.pool, n - 1);
      FetchesOne(x.pool, AllocListed(0, SIZE, 1), n);
      acts, x := PoolAction(acts, x, AllocListed(0, SIZE, 1));
    }
  }

  // ---------- the second span ----------

  function Cut63(): Span { Span(63, 62, true, 0, SIZE) }

  /** Thread 0 carves the pages behind the first span. */
  ghost predicate CarvesBehind(p: Pool) {
    && PoolInv(p) && IsLive(p, 208896) && p.place[208896].span == 1 && 1 in p.page.spans && p.page.spans[1] == Cut62(5)
    && 0 in p.phase && p.phase[0] == Carving(3, SIZE) && 3 in p.page.spans && p.page.spans[3] == Cut63()
  }

  lemma RestIsCut(s: State)
    requires Inv(s) && Heap(s, 5)
    ensures SupplyOk(s, 62, MORE) && Searchable(s.spans, s.lists) && FreshSpans(s, 62, MORE)
    ensures var (t, q) := Grant(s, 62, SIZE, MORE);
      q == 3 && 3 in t.spans && t.spans[3] == Cut63() && 1 in t.spans && t.spans[1] == Cut62(5)
  {
    assert FirstNonEmpty(s.lists, 62) == 66;
    hide SetRange, Partition, MapOk, Listed;
    Coalescing.GrantCuts(s, 62, SIZE, MORE);
  }

  lemma CacheIsEmpty(p: Pool)
    requires At(p, 5)
    ensures PoolInv(p) && Inv(p.page) && CacheEmpty(p, 0, SIZE) && Heap(p.page, 5)
  {
    hide Inv, PoolOk, Index, RoundUp, NumMovePage, IsClass, Heap;
    Numbers();
  }

  lemma MayCut(p: Pool)
    requires At(p, 5)
    ensures PoolInv(p) && Can(p, AllocSpan(0, SIZE, MORE))
  {
    hide PoolInv, At, Heap, CacheEmpty, Inv, Index, RoundUp, NumMovePage, IsClass, SupplyOk, Grant, SmallSize;
    Numbers();
    CacheIsEmpty(p);
    RestIsCut(p.page);
  }

  lemma LastBlockOfFirst(p: Pool)
    requires At(p, 5)
    ensures PoolInv(p) && 208896 in p.place && p.place[208896].span == 1
  {
    hide PoolInv, BlocksOf;
    Blocks62(5);
    assert FiveBlocks()[4] == 208896;
    BlockOfRole(p, 1, 208896);
  }

  lemma CutObtained(p: Pool, p': Pool)
    requires At(p, 5) && IsLive(p, 208896) && 1 <= NumMovePage(SIZE) && Searchable(p.page.spans, p.page.lists)
    requires FreshSpans(p.page, NumMovePage(SIZE), MORE) && p' == MemoryPool.Obtain(p, 0, SIZE, MORE) && PoolInv(p')
    ensures CarvesBehind(p')
  {
    hide PoolInv, At, Heap, Inv, NumMovePage, Grant, FreshSpans, Searchable, RoundUp, Index, IsClass, SupplyOk,
      SmallSize;
    Numbers();
    CacheIsEmpty(p);
    LastBlockOfFirst(p);
    RestIsCut(p.page);
  }

  lemma CutBehind(p: Pool)
    requires At(p, 5) && IsLive(p, 208896) && PoolInv(p) && Can(p, AllocSpan(0, SIZE, MORE))
    ensures PoolInv(Next(p, AllocSpan(0, SIZE, MORE))) && CarvesBehind(Next(p, AllocSpan(0, SIZE, MORE)))
  {
    hide PoolInv, Can, At, CarvesBehind, MemoryPool.Obtain, NumMovePage, RoundUp, Index, SupplyOk, FreshSpans,
      Searchable, IsClass, SmallSize;
    Numbers();
    SpanReady(p, 0, SIZE, MORE);
    CutObtained(p, Next(p, AllocSpan(0, SIZE, MORE)));
  }

  lemma FirstOfSecond(p: Pool)
    requires CarvesBehind(p)
    ensures PrivateBlocks(p, 0) != [] && PrivateBlocks(p, 0)[0] == 258048
    ensures Overrun(p, 208896, 258048)
  {
    hide PoolInv, Carved;
    CarvedAt(Base(Cut63()), End(Cut63()), SIZE);
  }

  lemma CarvingBehind() returns (acts: seq<Action>, x: Machine)
    ensures Reaches(map[], acts, x) && MemInv(x) && CarvesBehind(x.pool) && x.done == map[0 := 1] && x.handed == map[]
  {
    hide PoolInv, NonNull, Threaded, CarvedOk, FetchOk, HandedOk, At, Can, Next, Reaches, IsLive, CarvesBehind,
      PrivateBlocks;
    acts, x := Taken(5);
    MayCut(x.pool);
    CutBehind(x.pool);
    acts, x := PoolAction(acts, x, AllocSpan(0, SIZE, MORE));
    FirstOfSecond(x.pool);
    acts, x := Carves(acts, x);
  }

  /** From the empty pool a single thread reaches a state in which its user, writing one word
      inside a block it holds, breaks the list of the span that is being carved behind it. */
  lemma InsideWriteCanBreak()
    ensures exists acts, x, a: Addr, y: Addr, v: Addr ::
      Reaches(map[], acts, x) && Inside(x.pool, a, y) && !KeepsLists(x, y, v)
  {
    hide PoolInv, Reaches, MemInv, PrivateBlocks, KeepsLists;
    var acts, x := CarvingBehind();
    FirstOfSecond(x.pool);
    var s := PrivateBlocks(x.pool, 0);
    assert s[0] == 258048 && CarvedBlock(x.pool, 0, x.done[0], 258048);
    OverrunBreaks(x, 208896, 258048);
    assert !KeepsLists(x, 258048, Word(x.words, 258048) + 1);
  }
}
