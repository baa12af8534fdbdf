/**
 The pool in memory: steps of the pool with the words they write, threads carving spans with no
 lock held, and users writing inside their blocks at any time.
 */
module PoolMemory {
  import opened SizeClasses
  import opened PageModel
  import opened Blocks
  import opened MemoryPool
  import opened PoolTheorems
  import opened PoolOverlap
  import opened PoolSpans
  import opened PoolLinks

  // ---------- the machine ----------

  /** A fetched chain: `first` is to be given to the caller, and its link word still has to be
      read, since the blocks behind it become list i of the thread's cache. */
  datatype Handed = Handed(first: Addr, i: nat)

  /** The pool, its memory, how far each thread that is carving has got, and what each thread
      has fetched but not split. */
  datatype Machine = Machine(pool: Pool, words: Words, done: map<Tid, nat>, handed: map<Tid, Handed>)

  /** Every carving thread has linked the first done[t] blocks of its span. */
  ghost predicate CarvedOk(p: Pool, m: Words, done: map<Tid, nat>) {
    && (forall t :: t in done <==> t in p.phase && p.phase[t].Carving?)
    && (forall t :: t in done ==> LinkedTo(m, PrivateBlocks(p, t), done[t]))
  }

  // A thread that is carving has an empty list for the blocks.
  ghost predicate FetchOk(p: Pool) {
    forall t :: FetchList(p, t) == []
  }

  /** The link word of the first block names the head of the list that is to become the cache's. */
  ghost predicate HandedAt(p: Pool, m: Words, t: Tid, h: Handed) {
    && IsLive(p, h.first) && Listing(p, InCache(t, h.i)) != []
    && Word(m, h.first) == Listing(p, InCache(t, h.i))[0]
  }

  ghost predicate HandedOk(p: Pool, m: Words, handed: map<Tid, Handed>) {
    forall t :: t in handed ==> HandedAt(p, m, t, handed[t])
  }

  ghost predicate MemInv(x: Machine) {
    && ListInv(x.pool, x.words) && CarvedOk(x.pool, x.words, x.done)
    && FetchOk(x.pool) && HandedOk(x.pool, x.words, x.handed)
  }

  // ---------- carving ----------

  function NextDone(done: map<Tid, nat>, ev: Event): map<Tid, nat> {
    match ev
    case AllocSpan(t, _, _) => done[t := 0]
    case AllocCarved(t, _) => done - {t}
    case _ => done
  }

  lemma DoneKeys(p: Pool, m: Words, done: map<Tid, nat>, ev: Event, t: Tid)
    requires PoolInv(p) && Can(p, ev) && CarvedOk(p, m, done)
    ensures t in NextDone(done, ev) <==> t in Next(p, ev).phase && Next(p, ev).phase[t].Carving?
  {
    hide PoolInv, Can, Next, LinkedTo, PrivateBlocks;
    StepMoves(p, ev);
    if t in Next(p, ev).phase && Next(p, ev).phase[t].Carving? && !(ev.AllocSpan? && ev.t == t) {
      WasCarving(p, ev, t);
    }
    if t in p.phase && p.phase[t].Carving? && !(ev.AllocCarved? && ev.t == t) { PrivateStays(p, ev, t); }
  }

  lemma StepLinks(p: Pool, m: Words, n: nat, ev: Event, t: Tid)
    requires PoolInv(p) && Can(p, ev) && t in p.phase && p.phase[t].Carving? && !(ev.AllocCarved? && ev.t == t)
    requires LinkedTo(m, PrivateBlocks(p, t), n)
    ensures LinkedTo(Writes(p, ev, m), PrivateBlocks(Next(p, ev), t), n)
  {
    hide PoolInv, Can, Next, Writes, PrivateBlocks;
    PrivateStays(p, ev, t);
    var s := PrivateBlocks(p, t);
    forall j | 0 <= j < n ensures Word(Writes(p, ev, m), s[j]) == Word(m, s[j]) {
      assert s[j] in s;
      PrivateApart(p, t, s[j]);
      WritesElsewhere(p, ev, m, s[j]);
    }
  }

  lemma NoneLinked(m: Words, s: seq<Addr>)
    ensures LinkedTo(m, s, 0)
  {
  }

  lemma CarvedLink(p: Pool, m: Words, done: map<Tid, nat>, t: Tid)
    requires CarvedOk(p, m, done) && t in done
    ensures t in p.phase && p.phase[t].Carving? && LinkedTo(m, PrivateBlocks(p, t), done[t])
  {
  }

  lemma StepCarving(p: Pool, m: Words, done: map<Tid, nat>, ev: Event, t: Tid)
    requires PoolInv(p) && Can(p, ev) && CarvedOk(p, m, done) && t in NextDone(done, ev)
    ensures LinkedTo(Writes(p, ev, m), PrivateBlocks(Next(p, ev), t), NextDone(done, ev)[t])
  {
    hide PoolInv, Can, Next, Writes, PrivateBlocks, LinkedTo, CarvedOk;
    if ev.AllocSpan? && ev.t == t {
      NoneLinked(Writes(p, ev, m), PrivateBlocks(Next(p, ev), t));
    } else {
      CarvedLink(p, m, done, t);
      StepLinks(p, m, done[t], ev, t);
    }
  }

  lemma CarvedFrom(p: Pool, m: Words, done: map<Tid, nat>)
    requires forall t :: t in done <==> t in p.phase && p.phase[t].Carving?
    requires forall t :: t in done ==> LinkedTo(m, PrivateBlocks(p, t), done[t])
    ensures CarvedOk(p, m, done)
  {
  }

  lemma StepCarved(p: Pool, m: Words, done: map<Tid, nat>, ev: Event)
    requires PoolInv(p) && Can(p, ev) && CarvedOk(p, m, done)
    ensures CarvedOk(Next(p, ev), Writes(p, ev, m), NextDone(done, ev))
  {
    hide PoolInv, Can, Next, Writes, PrivateBlocks, LinkedTo, CarvedOk, NextDone;
    var p', m', done' := Next(p, ev), Writes(p, ev, m), NextDone(done, ev);
    forall t ensures t in done' <==> t in p'.phase && p'.phase[t].Carving? { DoneKeys(p, m, done, ev, t); }
    forall t | t in done' ensures LinkedTo(m', PrivateBlocks(p', t), done'[t]) { StepCarving(p, m, done, ev, t); }
    CarvedFrom(p', m', done');
  }

  // ---------- fetching ----------

  // The list of a thread's cache that a fetch is for.
  ghost function FetchIndex(p: Pool, ev: Event): nat
    requires PoolInv(p) && Can(p, ev) && (ev.AllocListed? || ev.AllocCarved?)
  {
    hide PoolInv, Index;
    match ev
    case AllocListed(_, size, _) => Index(size)
    case AllocCarved(t, _) => PrivateSize(p, t); Index(p.phase[t].size)
  }

  /** After a fetch of more than one block the thread has yet to read the first one's link. */
  ghost function NextHanded(p: Pool, ev: Event, handed: map<Tid, Handed>): map<Tid, Handed>
    requires PoolInv(p) && Can(p, ev)
  {
    hide PoolInv, Next, Result;
    if (ev.AllocListed? || ev.AllocCarved?) && Listing(Next(p, ev), InCache(ev.t, FetchIndex(p, ev))) != [] then
      handed[ev.t := Handed(Result(p, ev), FetchIndex(p, ev))]
    else handed
  }

  // What the link of the first block says when more than one is fetched.
  lemma FetchHands(p: Pool, m: Words, t: Tid, i: nat, q: Ptr, cnt: nat)
    requires PoolInv(p) && Threaded(p, m)
    requires q in p.free && p.free[q] != [] && q in p.page.spans && t in p.caches && i < |p.caches[t]|
    requires p.caches[t][i] == []
    ensures var s := p.free[q]; var l := Listing(Fetch(p, t, i, q, cnt), InCache(t, i));
      l != [] ==> Word(Ended(m, s, FreeLists.Taken(cnt, |s|)), s[0]) == l[0]
  {
    hide PoolInv, Fetch, Chain, NoDup, Ended;
    var s := p.free[q];
    assert Listing(p, FreeIn(q)) == s;
    ListingNoDup(p, FreeIn(q));
    TakeChains(m, s, FreeLists.Taken(cnt, |s|));
    FetchListing(p, t, i, q, cnt, InCache(t, i));
  }

  lemma ListedHands(p: Pool, m: Words, t: Tid, size: nat, cnt: nat)
    requires ListInv(p, m) && Can(p, AllocListed(t, size, cnt))
    ensures var ev := AllocListed(t, size, cnt); var l := Listing(Next(p, ev), InCache(t, FetchIndex(p, ev)));
      l != [] ==> Word(Writes(p, ev, m), Result(p, ev)) == l[0]
  {
    hide PoolInv, Index, RoundUp, Threaded, Fetch, Ended, Listing;
    ChosenServes(p, size);
    FetchHands(p, m, t, Index(size), Chosen(p, size), cnt);
  }

  lemma CarvedHands(p: Pool, m: Words, t: Tid, cnt: nat)
    requires ListInv(p, m) && Can(p, AllocCarved(t, cnt))
    requires LinkedTo(m, PrivateBlocks(p, t), |PrivateBlocks(p, t)|) && FetchList(p, t) == []
    ensures var ev := AllocCarved(t, cnt); var l := Listing(Next(p, ev), InCache(t, FetchIndex(p, ev)));
      l != [] ==> Word(Writes(p, ev, m), Result(p, ev)) == l[0]
  {
    hide PoolInv, Index, Threaded, Fetch, Ended, Enlist, CanEnlist, LinkedTo, PrivateBlocks, BlocksOf, ClassSpan;
    PrivateSize(p, t);
    CarvedReady(p, t, cnt);
    EnlistThreads(p, m, t);
    EnlistCaches(p, t);
    ListedBlocks(p, t);
    PrivateSpan(p, t);
    FetchHands(Enlist(p, t), m, t, Index(p.phase[t].size), p.phase[t].q, cnt);
  }

  // A live block stays live in every step but its own release.
  lemma LiveStays(p: Pool, ev: Event, a: Addr)
    requires PoolInv(p) && Can(p, ev) && IsLive(p, a) && !((ev.FreeSmall? || ev.FreeLarge?) && ev.a == a)
    ensures IsLive(Next(p, ev), a)
  {
    hide PoolInv, Can, Next, IsLive, Result, Served, Fits;
    if IsAlloc(ev) {
      AllocationHandsOutFreshBlock(p, ev);
    } else if ev.FreeSmall? {
      FreeTakesBack(p, ev.t, ev.a, true);
    } else if ev.FreeLarge? {
      FreeTakesBack(p, ev.t, ev.a, false);
    } else {
      OtherStepsKeepLive(p, ev);
    }
  }

  lemma ListingKept(p: Pool, ev: Event, t: Tid, i: nat)
    requires PoolInv(p) && Can(p, ev) && ev.t != t
    ensures Listing(Next(p, ev), InCache(t, i)) == Listing(p, InCache(t, i))
  {
    hide PoolInv, Can, Next;
    PhasesKept(p, ev, t);
  }

  // What another thread has fetched stays as it is.
  lemma HandedStays(p: Pool, m: Words, ev: Event, t: Tid, h: Handed)
    requires PoolInv(p) && Can(p, ev) && ev.t != t && HandedAt(p, m, t, h)
    requires !((ev.FreeSmall? || ev.FreeLarge?) && ev.a == h.first)
    ensures HandedAt(Next(p, ev), Writes(p, ev, m), t, h)
  {
    hide PoolInv, Can, Next, Writes, PrivateBlocks, Listing;
    LiveStays(p, ev, h.first);
    ListingKept(p, ev, t, h.i);
    if h.first in PrivateBlocks(p, ev.t) { PrivateApart(p, ev.t, h.first); }
    WritesElsewhere(p, ev, m, h.first);
  }

  lemma NewHanded(p: Pool, m: Words, ev: Event)
    requires ListInv(p, m) && Can(p, ev) && (ev.AllocListed? || ev.AllocCarved?)
    requires ev.AllocCarved? ==>
      LinkedTo(m, PrivateBlocks(p, ev.t), |PrivateBlocks(p, ev.t)|) && FetchList(p, ev.t) == []
    requires Listing(Next(p, ev), InCache(ev.t, FetchIndex(p, ev))) != []
    ensures HandedAt(Next(p, ev), Writes(p, ev, m), ev.t, Handed(Result(p, ev), FetchIndex(p, ev)))
  {
    hide PoolInv, Threaded, NonNull, Can, Next, Writes, Result, FetchIndex, Listing, LinkedTo, FetchList, IsLive, Fits,
      Served;
    AllocationHandsOutFreshBlock(p, ev);
    match ev
    case AllocListed(t, size, cnt) => ListedHands(p, m, t, size, cnt);
    case AllocCarved(t, cnt) => CarvedHands(p, m, t, cnt);
    case _ =>
  }

  lemma StepHanded(p: Pool, m: Words, handed: map<Tid, Handed>, ev: Event)
    requires ListInv(p, m) && Can(p, ev) && HandedOk(p, m, handed) && ev.t !in handed
    requires ev.AllocCarved? ==>
      LinkedTo(m, PrivateBlocks(p, ev.t), |PrivateBlocks(p, ev.t)|) && FetchList(p, ev.t) == []
    requires ev.FreeSmall? || ev.FreeLarge? ==> forall t :: t in handed ==> handed[t].first != ev.a
    ensures HandedOk(Next(p, ev), Writes(p, ev, m), NextHanded(p, ev, handed))
  {
    hide PoolInv, Threaded, NonNull, Can, Next, Writes, Result, FetchIndex, Listing, LinkedTo, FetchList, HandedAt;
    forall t | t in NextHanded(p, ev, handed)
      ensures HandedAt(Next(p, ev), Writes(p, ev, m), t, NextHanded(p, ev, handed)[t])
    {
      if t == ev.t { NewHanded(p, m, ev); } else { HandedStays(p, m, ev, t, handed[t]); }
    }
  }

  // ---------- the list a fetch is for ----------

  // A thread that is carving does nothing to its own cache.
  lemma OwnCachesStay(p: Pool, ev: Event)
    requires PoolInv(p) && Can(p, ev) && ev.t in p.phase && p.phase[ev.t].Carving? && !ev.AllocCarved?
    ensures Next(p, ev).caches == p.caches
  {
    hide PoolInv, Index, RoundUp, Grant, SupplyOk, Searchable, FreshSpans, Revert, Revertible, SpanAt;
    match ev
    case AllocLarge(_, size, e) => ObtainBigKeeps(p, size, e);
    case FreeLarge(_, a) => FreeLargeReady(p, ev.t, a);
    case _ =>
  }

  lemma FetchListStays(p: Pool, ev: Event, t: Tid)
    requires PoolInv(p) && Can(p, ev) && t in p.phase && p.phase[t].Carving? && !(ev.AllocCarved? && ev.t == t)
    ensures FetchList(Next(p, ev), t) == FetchList(p, t)
  {
    hide PoolInv, Can, Next, Index, PrivateBlocks;
    PrivateStays(p, ev, t);
    if ev.t == t { OwnCachesStay(p, ev); } else { PhasesKept(p, ev, t); }
  }

  lemma FetchListStarts(p: Pool, t: Tid, size: nat, e: Supply)
    requires PoolInv(p) && Can(p, AllocSpan(t, size, e))
    ensures FetchList(Next(p, AllocSpan(t, size, e)), t) == []
  {
    hide PoolInv, Index, RoundUp, NumMovePage, Grant, SupplyOk, Searchable, FreshSpans;
    SpanReady(p, t, size, e);
    RoundUpIsLeastClass(size, size);
    ClassIndex(RoundUp(size));
  }

  lemma StepFetch(p: Pool, ev: Event)
    requires PoolInv(p) && Can(p, ev) && FetchOk(p)
    ensures FetchOk(Next(p, ev))
  {
    hide PoolInv, Can, Next, FetchList;
    forall t ensures FetchList(Next(p, ev), t) == [] {
      if ev.AllocSpan? && ev.t == t {
        FetchListStarts(p, t, ev.size, ev.e);
      } else if FetchList(Next(p, ev), t) != [] {
        WasFetching(Next(p, ev), t);
        WasCarving(p, ev, t);
        FetchListStays(p, ev, t);
      }
    }
  }

  lemma WasFetching(p: Pool, t: Tid)
    requires FetchList(p, t) != []
    ensures t in p.phase && p.phase[t].Carving?
  {
  }

  // ---------- users ----------

  /** The word at y lies inside live block a. */
  ghost predicate Inside(p: Pool, a: Addr, y: Addr) {
    && IsLive(p, a) && p.place[a].span in p.page.spans
    && a <= y && y + 8 <= a + p.page.spans[p.place[a].span].blockSize
  }

  /** A user has the block: no thread still has to hand it over. */
  ghost predicate Given(x: Machine, a: Addr) {
    forall t :: t in x.handed ==> x.handed[t].first != a
  }

  /** The first word of b links a list: b is on one, or in the part of a span that is carved, or
      first of a chain just fetched. */
  ghost predicate LinkInUse(x: Machine, b: Addr) {
    || (b in x.pool.place && !IsLive(x.pool, b))
    || (exists t :: t in x.done && CarvedBlock(x.pool, t, x.done[t], b))
    || (b in x.pool.place && !Given(x, b))
  }

  ghost predicate CarvedBlock(p: Pool, t: Tid, n: nat, b: Addr) {
    exists j :: 0 <= j < n && j < |PrivateBlocks(p, t)| && PrivateBlocks(p, t)[j] == b
  }

  /** The link words of a span being carved that lie inside a live block's bytes are exactly
      those of the blocks that start in its overrun. */
  lemma CoversCarvingIff(p: Pool, a: Addr, t: Tid, b: Addr)
    requires PoolInv(p) && a in p.place && b in PrivateBlocks(p, t)
    ensures p.place[a].span in p.page.spans
    ensures a < b + 8 && b < a + p.page.spans[p.place[a].span].blockSize <==> Overrun(p, a, b)
  {
    hide PoolInv, BlocksOf, Base, End, ClassSpan;
    LookupFindsSpan(p, a);
    PrivateSpan(p, t);
    var q, r := p.place[a].span, p.phase[t].q;
    SpanPages(p, q);
    BlockPage(p.page.spans[q], a);
    PrivateWord(p, t, b);
    PrivateApart(p, t, b);
    if a < b { SpansInOrder(p, q, r, a, b); } else { SpansInOrder(p, r, q, b, a); }
  }

  lemma PrivateWord(p: Pool, t: Tid, b: Addr)
    requires PoolInv(p) && b in PrivateBlocks(p, t)
    ensures b % 8 == 0 && p.phase[t].q in p.page.spans && b + 8 <= End(p.page.spans[p.phase[t].q])
  {
    hide PoolInv, BlocksOf, ClassSpan, End;
    PrivateSpan(p, t);
    ClassWord(p.page.spans[p.phase[t].q], b);
  }

  lemma ClassWord(sp: Span, b: Addr)
    requires ClassSpan(sp) && b in BlocksOf(sp)
    ensures b % 8 == 0 && b + 8 <= End(sp)
  {
    hide Carved, IsClass, NumMovePage;
    ClassIndex(sp.blockSize);
    ClassIsWords(sp);
    PagesAreWords(sp.pageId);
    PagesAreWords(sp.pageId + sp.cnt);
    hide Base, End;
    LinkWordsFit(Base(sp), End(sp), sp.blockSize);
  }

  lemma PagesAreWords(page: nat)
    ensures page * PAGE_BYTES % 8 == 0
  {
    assert page * PAGE_BYTES == 8 * (page * 512);
  }

  /** Users write only inside the blocks they have. Where a block reaches past its span, they
      leave alone the words there that link a list. */
  ghost predicate MayWrite(x: Machine, a: Addr, y: Addr) {
    && Inside(x.pool, a, y) && Given(x, a)
    && forall b: Addr :: LinkInUse(x, b) && Overrun(x.pool, a, b) ==> y + 8 <= b || b + 8 <= y
  }

  /** Such a write overlaps no link word in use. */
  lemma WriteSparesLinks(x: Machine, a: Addr, y: Addr, b: Addr)
    requires PoolInv(x.pool) && MayWrite(x, a, y) && LinkInUse(x, b)
    ensures y + 8 <= b || b + 8 <= y
  {
    hide PoolInv, PrivateBlocks;
    if b in x.pool.place && (!IsLive(x.pool, b) || !Given(x, b)) {
      CoversLinksIff(x.pool, a, b);
    } else {
      var t :| t in x.done && CarvedBlock(x.pool, t, x.done[t], b);
      CoversCarvingIff(x.pool, a, t, b);
    }
  }

  lemma UserKeeps(x: Machine, a: Addr, y: Addr, v: Addr)
    requires MemInv(x) && MayWrite(x, a, y)
    ensures MemInv(x.(words := x.words[y := v]))
  {
    hide PoolInv, Chain, MayWrite, PrivateBlocks, FetchOk;
    var p, m := x.pool, x.words;
    forall w: Place ensures Chain(m[y := v], Head(Listing(p, w)), Listing(p, w)) {
      if y in Listing(p, w) { ListedAtPlace(p, w, y); WriteSparesLinks(x, a, y, y); }
      ChainFrame(m, Head(Listing(p, w)), Listing(p, w), y, v);
    }
    forall t | t in x.done ensures LinkedTo(m[y := v], PrivateBlocks(p, t), x.done[t]) {
      var s := PrivateBlocks(p, t);
      forall j | 0 <= j < x.done[t] ensures s[j] != y {
        if s[j] == y { WriteSparesLinks(x, a, y, y); }
      }
    }
    forall t | t in x.handed ensures HandedAt(p, m[y := v], t, x.handed[t]) {
      if x.handed[t].first == y { WriteSparesLinks(x, a, y, y); }
    }
  }

  // ---------- runs ----------

  /** A step of the pool; thread t writes the next link word of its private span, with no lock
      held; thread t splits what it has fetched, also with no lock held; or a user writes word v
      at y inside live block a. */
  datatype Action = PoolStep(ev: Event) | CarveWord(t: Tid) | PushRange(t: Tid) | UserWrite(a: Addr, y: Addr, v: Addr)

  /** A span is listed only when it is carved to its end, a thread goes on only when it has split
      what it fetched, and nobody gives back a block that is still to be handed over. */
  ghost predicate Allowed(x: Machine, act: Action)
    requires PoolInv(x.pool)
  {
    match act
    case PoolStep(ev) =>
      && Can(x.pool, ev) && RealPages(ev) && ev.t !in x.handed
      && (ev.AllocCarved? ==> ev.t in x.done && x.done[ev.t] == |PrivateBlocks(x.pool, ev.t)|)
      && (ev.FreeSmall? || ev.FreeLarge? ==> Given(x, ev.a))
    case CarveWord(t) => t in x.done && x.done[t] < |PrivateBlocks(x.pool, t)|
    case PushRange(t) => t in x.handed && Listing(x.pool, InCache(t, x.handed[t].i)) != []
    case UserWrite(a, y, _) => MayWrite(x, a, y)
  }

  ghost function NextMachine(x: Machine, act: Action): Machine
    requires PoolInv(x.pool) && Allowed(x, act)
  {
    match act
    case PoolStep(ev) =>
      Machine(Next(x.pool, ev), Writes(x.pool, ev, x.words), NextDone(x.done, ev), NextHanded(x.pool, ev, x.handed))
    case CarveWord(t) =>
      var s, k := PrivateBlocks(x.pool, t), x.done[t];
      x.(words := x.words[s[k] := LinkAfter(s, k)], done := x.done[t := k + 1])
    case PushRange(t) =>
      // nextObj(end) = freelist_, which is null
      var l := Listing(x.pool, InCache(t, x.handed[t].i));
      x.(words := x.words[l[|l| - 1] := 0], handed := x.handed - {t})
    case UserWrite(_, y, v) => x.(words := x.words[y := v])
  }

  /** Every step of every thread, with the words it writes, leaves every list threaded and
      every carving and every fetch where it was. */
  lemma StepThreads(x: Machine, ev: Event)
    requires MemInv(x) && Allowed(x, PoolStep(ev))
    ensures MemInv(NextMachine(x, PoolStep(ev)))
  {
    hide PoolInv, Threaded, NonNull, Can, Next, Writes, RealPages, PrivateBlocks, NextHanded, HandedOk, FetchList;
    MemoryPool.StepKeeps(x.pool, ev);
    PageZeroStays(x.pool, ev);
    if ev.AllocCarved? { assert LinkedTo(x.words, PrivateBlocks(x.pool, ev.t), x.done[ev.t]); }
    assert FetchList(x.pool, ev.t) == [];
    hide CarvedOk, LinkedTo, FetchOk;
    StepLists(x.pool, x.words, ev);
    StepCarved(x.pool, x.words, x.done, ev);
    StepFetch(x.pool, ev);
    StepHanded(x.pool, x.words, x.handed, ev);
  }

  /** Writing a link word of the span being carved concerns no list and no other carving. */
  lemma CarveKeeps(x: Machine, t: Tid)
    requires MemInv(x) && Allowed(x, CarveWord(t))
    ensures MemInv(NextMachine(x, CarveWord(t)))
  {
    hide PoolInv, Chain, PrivateBlocks, FetchOk;
    var p, m, s, k := x.pool, x.words, PrivateBlocks(x.pool, t), x.done[t];
    var m' := m[s[k] := LinkAfter(s, k)];
    assert s[k] in s;
    PrivateApart(p, t, s[k]);
    forall w: Place ensures Chain(m', Head(Listing(p, w)), Listing(p, w)) {
      Unwritten(p, w, m, s[k], LinkAfter(s, k));
    }
    PrivateNoDup(p, t);
    forall u | u in x.done ensures LinkedTo(m', PrivateBlocks(p, u), if u == t then k + 1 else x.done[u]) {
      if u != t {
        forall j | 0 <= j < x.done[u] ensures PrivateBlocks(p, u)[j] != s[k] {
          assert PrivateBlocks(p, u)[j] in PrivateBlocks(p, u);
        }
      }
    }
  }

  lemma PrivateNoDup(p: Pool, t: Tid)
    ensures NoDup(PrivateBlocks(p, t))
  {
    if PrivateBlocks(p, t) != [] { BlocksNoDup(p.page.spans[p.phase[t].q]); }
  }

  /** Splitting a fetched chain finds the list of the cache behind the first block, and writes
      only the null that ends it already. */
  lemma PushRangeKeeps(x: Machine, t: Tid)
    requires MemInv(x) && Allowed(x, PushRange(t))
    ensures Word(x.words, x.handed[t].first) == Listing(x.pool, InCache(t, x.handed[t].i))[0]
    ensures MemInv(NextMachine(x, PushRange(t)))
  {
    hide PoolInv, Chain, PrivateBlocks, FetchOk, Listing;
    var p, m, l := x.pool, x.words, Listing(x.pool, InCache(t, x.handed[t].i));
    var m' := m[l[|l| - 1] := 0];
    LastIsNull(m, Head(l), l);
    assert forall a :: Word(m', a) == Word(m, a);
    forall w: Place ensures Chain(m', Head(Listing(p, w)), Listing(p, w)) {
      ChainSame(m, m', Head(Listing(p, w)), Listing(p, w));
    }
  }

  lemma {:induction false} LastIsNull(m: Words, head: Addr, l: seq<Addr>)
    requires l != [] && Chain(m, head, l)
    ensures Word(m, l[|l| - 1]) == 0
    decreases |l|
  {
    if |l| > 1 { LastIsNull(m, Word(m, head), l[1..]); }
  }

  lemma ActionKeeps(x: Machine, act: Action)
    requires MemInv(x) && Allowed(x, act)
    ensures MemInv(NextMachine(x, act))
  {
    match act
    case PoolStep(ev) => StepThreads(x, ev);
    case CarveWord(t) => CarveKeeps(x, t);
    case PushRange(t) => PushRangeKeeps(x, t);
    case UserWrite(a, y, v) => UserKeeps(x, a, y, v);
  }

  ghost predicate Runs(x: Machine, acts: seq<Action>, x': Machine)
    requires MemInv(x)
    decreases |acts|
  {
    if acts == [] then x' == x
    else Allowed(x, acts[0]) && (ActionKeeps(x, acts[0]); Runs(NextMachine(x, acts[0]), acts[1..], x'))
  }

  lemma {:induction false} RunKeeps(x: Machine, acts: seq<Action>, x': Machine)
    requires MemInv(x) && Runs(x, acts, x')
    ensures MemInv(x')
    decreases |acts|
  {
    hide PoolInv, NonNull, Threaded, CarvedOk, FetchOk, HandedOk, Allowed, NextMachine;
    if acts != [] {
      ActionKeeps(x, acts[0]);
      RunKeeps(NextMachine(x, acts[0]), acts[1..], x');
    }
  }

  function InitMachine(m: Words): Machine {
    Machine(InitPool(), m, map[], map[])
  }

  lemma InitThreaded(m: Words)
    ensures MemInv(InitMachine(m))
  {
    InitPoolInv();
    hide PoolInv;
    assert forall w: Place :: Listing(InitPool(), w) == [];
  }

  /** x is reached from the empty pool and memory m by the actions acts. */
  ghost predicate Reaches(m: Words, acts: seq<Action>, x: Machine) {
    InitThreaded(m);
    Runs(InitMachine(m), acts, x)
  }

  /** From the empty pool, in whatever memory, after every interleaving of all threads' sections
      and carving and splitting with users' writes: every free list of every span, every list of
      every thread cache and every chain on its way back is intact in memory and holds exactly
      the blocks it should, every span being carved is linked as far as its thread has got, and
      every thread that has fetched blocks will find its list behind the first of them. */
  lemma EveryRunIsThreaded(m: Words, acts: seq<Action>, x: Machine)
    requires Reaches(m, acts, x)
    ensures PoolInv(x.pool)
    ensures forall w: Place :: Chain(x.words, Head(Listing(x.pool, w)), Listing(x.pool, w))
    ensures forall t :: t in x.pool.phase && x.pool.phase[t].Carving? ==>
        t in x.done && LinkedTo(x.words, PrivateBlocks(x.pool, t), x.done[t])
    ensures forall t :: t in x.handed ==> HandedAt(x.pool, x.words, t, x.handed[t])
  {
    InitThreaded(m);
    RunKeeps(InitMachine(m), acts, x);
    hide PoolInv, Chain, LinkedTo, FetchOk, HandedAt;
  }

  // ---------- no thread is stuck ----------

  ghost function ListedCount(p: Pool, t: Tid, size: nat, cnt: nat): nat
    requires PoolInv(p) && Can(p, AllocListed(t, size, cnt))
  {
    hide PoolInv, Index, RoundUp;
    ChosenServes(p, size);
    FreeLists.Taken(cnt, |p.free[Chosen(p, size)]|)
  }

  /** A fetch leaves its thread with a chain to split exactly if it took more than one block, and
      the first of them is the one to be handed to the caller. */
  lemma ListedIsHanded(x: Machine, t: Tid, size: nat, cnt: nat)
    requires MemInv(x) && Allowed(x, PoolStep(AllocListed(t, size, cnt)))
    ensures var handed := NextMachine(x, PoolStep(AllocListed(t, size, cnt))).handed;
      && (t in handed <==> ListedCount(x.pool, t, size, cnt) > 1)
      && (t in handed ==> handed[t].first == Result(x.pool, AllocListed(t, size, cnt)))
  {
    hide PoolInv, Threaded, CarvedOk, HandedOk, FetchOk, Index, RoundUp, Move, Bump;
    ChosenServes(x.pool, size);
  }

  lemma CarvedIsHanded(x: Machine, t: Tid, cnt: nat)
    requires MemInv(x) && Allowed(x, PoolStep(AllocCarved(t, cnt)))
    ensures var handed := NextMachine(x, PoolStep(AllocCarved(t, cnt))).handed;
      && (t in handed <==> FreeLists.Taken(cnt, |PrivateBlocks(x.pool, t)|) > 1)
      && (t in handed ==> handed[t].first == Result(x.pool, AllocCarved(t, cnt)))
  {
    hide PoolInv, Threaded, CarvedOk, HandedOk, Index, RoundUp, Move, Bump, BlocksOf, AddSpan;
    CarvedReady(x.pool, t, cnt);
    PrivateSize(x.pool, t);
    PrivateNonEmpty(x.pool, t);
    assert FetchList(x.pool, t) == [];
  }

  /** A thread that is carving can write its next link word, and so comes one block nearer to the
      end, until all are written and it can list the span. */
  lemma CarvingGoesOn(x: Machine, t: Tid, cnt: nat)
    requires MemInv(x) && t in x.pool.phase && x.pool.phase[t].Carving? && t !in x.handed
    ensures t in x.done
    ensures if x.done[t] < |PrivateBlocks(x.pool, t)| then
        Allowed(x, CarveWord(t)) && NextMachine(x, CarveWord(t)).done == x.done[t := x.done[t] + 1]
      else Allowed(x, PoolStep(AllocCarved(t, cnt)))
  {
    hide PoolInv, Threaded, HandedOk, FetchOk, PrivateBlocks;
    CarvedLink(x.pool, x.words, x.done, t);
  }

  /** A thread that has fetched a chain can split it, and then goes on. */
  lemma SplittingGoesOn(x: Machine, t: Tid)
    requires MemInv(x) && t in x.handed
    ensures Allowed(x, PushRange(t)) && NextMachine(x, PushRange(t)).handed == x.handed - {t}
  {
    hide PoolInv, Threaded, CarvedOk, FetchOk, Listing;
    assert HandedAt(x.pool, x.words, t, x.handed[t]);
  }

  // ---------- exactly when users are safe ----------

  ghost predicate KeepsLists(x: Machine, y: Addr, v: Addr) {
    MemInv(x.(words := x.words[y := v]))
  }

  /** Whoever has block a may write all of it exactly as long as no link word in use, of a list,
      of a span being carved or of a chain just fetched, is in its overrun. */
  lemma WholeBlockIsSafeIff(x: Machine, a: Addr)
    requires MemInv(x) && IsLive(x.pool, a) && x.pool.place[a].span in x.pool.page.spans && Given(x, a)
    ensures (forall y: Addr, v: Addr :: Inside(x.pool, a, y) ==> KeepsLists(x, y, v))
      <==> forall b: Addr :: LinkInUse(x, b) ==> !Overrun(x.pool, a, b)
  {
    hide PoolInv, MemInv, LinkInUse, Overrun, Given;
    if b: Addr :| LinkInUse(x, b) && Overrun(x.pool, a, b) {
      OverrunBreaks(x, a, b);
    } else {
      forall y: Addr, v: Addr | Inside(x.pool, a, y) ensures KeepsLists(x, y, v) {
        UserKeeps(x, a, y, v);
      }
    }
  }

  lemma OverrunBreaks(x: Machine, a: Addr, b: Addr)
    requires MemInv(x) && IsLive(x.pool, a) && x.pool.place[a].span in x.pool.page.spans
    requires LinkInUse(x, b) && Overrun(x.pool, a, b)
    ensures Inside(x.pool, a, b) && !KeepsLists(x, b, Word(x.words, b) + 1)
  {
    hide PoolInv, Chain, Overrun, PrivateBlocks, FetchOk;
    var p, v := x.pool, Word(x.words, b) + 1;
    if b in p.place && !IsLive(p, b) {
      BlockIsWord(p, b);
      var w := p.place[b].at;
      IsListed(p, b);
      ListingNoDup(p, w);
      ChangedLink(x.words, Head(Listing(p, w)), Listing(p, w), b, v);
    } else if b in p.place && !Given(x, b) {
      BlockIsWord(p, b);
      var t :| t in x.handed && x.handed[t].first == b;
      assert !HandedAt(p, x.words[b := v], t, x.handed[t]);
    } else {
      var t :| t in x.done && CarvedBlock(p, t, x.done[t], b);
      PrivateWord(p, t, b);
      assert !LinkedTo(x.words[b := v], PrivateBlocks(p, t), x.done[t]);
    }
    OverrunFits(p, a, b);
  }

  // A block that is not live is on a list.
  lemma IsListed(p: Pool, b: Addr)
    requires PoolInv(p) && b in p.place && !IsLive(p, b)
    ensures b in Listing(p, p.place[b].at)
  {
    hide Inv, CentralOk, BlocksOf, Index;
  }
}
