/**
 The whole memory pool under concurrency: PageCache, CentralCache and the thread caches,
 entered through concurrentAlloc and concurrentFree by any number of threads.

 Every step is one critical section (or a piece of thread-local work), so every run of
 steps is an interleaving of lock sections. Steps that CentralCache splits by dropping its
 bucket lock are separate steps here, with the thread's progress kept in its phase.
 */
module MemoryPool {
  import opened SizeClasses
  import opened PageModel
  import opened Blocks
  import FreeLists

  type Tid = nat

  /** Where a thread is between two critical sections. */
  datatype Phase =
    | Idle
    | Carving(q: Ptr, size: nat)                       // getOneSpan: a private span, not yet listed
    | Returning(chain: seq<Addr>, size: nat)           // releaseList: blocks still to give back
    | Reverting(q: Ptr, chain: seq<Addr>, size: nat)   // releaseList: span q on its way to PageCache

  /** Where a block is. */
  datatype Place = FreeIn(q: Ptr) | InCache(t: Tid, i: nat) | InChain(t: Tid) | Live

  /** The span a block was cut from, and where the block is. */
  datatype Block = Block(span: Ptr, at: Place)

  /** What a span in use is used for. */
  datatype Role = Serving | Private(t: Tid) | Emptied(t: Tid) | Big

  /** `place` and `role` are auxiliary variables; the rest is the program's state.
      free[q] is the free list of span q, caches[t][i] list i of thread t's cache. */
  datatype Pool = Pool(
    page: State,
    central: seq<seq<Ptr>>,
    free: map<Ptr, seq<Addr>>,
    caches: map<Tid, seq<seq<Addr>>>,
    phase: map<Tid, Phase>,
    place: map<Addr, Block>,
    role: map<Ptr, Role>)

  // ---------- geometry ----------

  function PageOf(a: Addr): nat { a / PAGE_BYTES }

  function Base(sp: Span): Addr { sp.pageId * PAGE_BYTES }

  function End(sp: Span): Addr { (sp.pageId + sp.cnt) * PAGE_BYTES }

  // The blocks of a span: one for a large allocation, otherwise as many as start inside it.
  function BlocksOf(sp: Span): seq<Addr>
  {
    if sp.blockSize > MAX_BYTES || sp.blockSize == 0 then [Base(sp)] else Carved(Base(sp), End(sp), sp.blockSize)
  }

  ghost function Used(spans: map<Ptr, Span>): map<Ptr, Span> {
    map q | q in spans && spans[q].used :: spans[q]
  }

  // ---------- the invariant ----------

  ghost predicate ClassSpan(sp: Span) {
    IsClass(sp.blockSize) && sp.cnt == NumMovePage(sp.blockSize) && sp.cnt <= MAX_PAGES
  }

  ghost predicate RoleOk(q: Ptr, sp: Span, r: Role, phase: map<Tid, Phase>) {
    match r
    case Serving => ClassSpan(sp)
    case Private(t) => ClassSpan(sp) && sp.useCnt == 0 && t in phase && phase[t] == Carving(q, sp.blockSize)
    case Emptied(t) =>
      ClassSpan(sp) && sp.useCnt == 0 && t in phase && phase[t].Reverting? && phase[t].q == q
    case Big => MAX_BYTES < sp.blockSize <= sp.cnt * PAGE_BYTES && sp.useCnt == 0
  }

  /** Every span in use has one role, and a thread working on a span is the only one. */
  ghost predicate Roles(used: map<Ptr, Span>, role: map<Ptr, Role>, phase: map<Tid, Phase>) {
    && role.Keys == used.Keys
    && (forall q :: q in role ==> RoleOk(q, used[q], role[q], phase))
    && (forall t :: t in phase && phase[t].Carving? ==> phase[t].q in role && role[phase[t].q] == Private(t))
    && (forall t :: t in phase && phase[t].Reverting? ==> phase[t].q in role && role[phase[t].q] == Emptied(t))
  }

  /** Bucket i of CentralCache holds exactly the listed spans of class i. */
  ghost predicate CentralOk(used: map<Ptr, Span>, role: map<Ptr, Role>, central: seq<seq<Ptr>>) {
    && |central| == BUCKETS
    && (forall i :: 0 <= i < BUCKETS ==> NoDup(central[i]))
    && (forall i, q :: 0 <= i < BUCKETS && q in central[i] ==>
          q in role && role[q] == Serving && q in used && used[q].blockSize <= MAX_BYTES
            && Index(used[q].blockSize) == i)
    && (forall q ::
          q in role && role[q] == Serving && q in used && used[q].blockSize <= MAX_BYTES
            && Index(used[q].blockSize) < BUCKETS
          ==> q in central[Index(used[q].blockSize)])
  }

  /** For each listed span, free blocks and outstanding blocks add up. */
  ghost predicate CountsOk(used: map<Ptr, Span>, role: map<Ptr, Role>, free: map<Ptr, seq<Addr>>) {
    && (forall q :: q in free <==> q in role && role[q] == Serving)
    && (forall q :: q in free && q in used ==> |free[q]| + used[q].useCnt == |BlocksOf(used[q])|)
  }

  /** The list l holds exactly the blocks that are at w, each once. */
  ghost predicate ListAt(l: seq<Addr>, place: map<Addr, Block>, w: Place) {
    NoDup(l) && forall a :: a in l <==> a in place && place[a].at == w
  }

  ghost function ChainOf(ph: Phase): seq<Addr> {
    if ph.Returning? || ph.Reverting? then ph.chain else []
  }

  ghost predicate ListsOk(free: map<Ptr, seq<Addr>>, caches: map<Tid, seq<seq<Addr>>>, phase: map<Tid, Phase>,
        place: map<Addr, Block>) {
    && (forall q :: q in free ==> ListAt(free[q], place, FreeIn(q)))
    && (forall t :: t in caches ==> |caches[t]| == BUCKETS)
    && (forall t, i :: t in caches && 0 <= i < BUCKETS ==> ListAt(caches[t][i], place, InCache(t, i)))
    && (forall t :: t in phase ==> ListAt(ChainOf(phase[t]), place, InChain(t)))
    && phase.Keys == caches.Keys
  }

  // The class of the list a block is on is the class of its span.
  ghost predicate WhereOk(b: Block, sp: Span, phase: map<Tid, Phase>) {
    match b.at
    case FreeIn(q) => q == b.span
    case InCache(t, i) => t in phase && sp.blockSize <= MAX_BYTES && i == Index(sp.blockSize) < BUCKETS
    case InChain(t) =>
      && t in phase && (phase[t].Returning? || phase[t].Reverting?)
      && sp.blockSize <= MAX_BYTES && phase[t].size <= MAX_BYTES && Index(phase[t].size) == Index(sp.blockSize)
    case Live => true
  }

  /** The blocks that exist are exactly those of the listed and the large spans. */
  ghost predicate PlacesOk(used: map<Ptr, Span>, role: map<Ptr, Role>, phase: map<Tid, Phase>,
        place: map<Addr, Block>) {
    && (forall a :: a in place ==>
          && place[a].span in role && place[a].span in used
          && (role[place[a].span] == Serving || (role[place[a].span] == Big && place[a].at == Live))
          && a in BlocksOf(used[place[a].span]) && WhereOk(place[a], used[place[a].span], phase))
    && (forall q, a {:trigger a in BlocksOf(used[q])} ::
          q in role && q in used && (role[q] == Serving || role[q] == Big) && a in BlocksOf(used[q])
          ==> a in place && place[a].span == q)
  }

  ghost predicate PoolOk(used: map<Ptr, Span>, p: Pool) {
    && Roles(used, p.role, p.phase)
    && CentralOk(used, p.role, p.central)
    && CountsOk(used, p.role, p.free)
    && ListsOk(p.free, p.caches, p.phase, p.place)
    && PlacesOk(used, p.role, p.phase, p.place)
  }

  ghost predicate PoolInv(p: Pool) {
    Inv(p.page) && PoolOk(Used(p.page.spans), p)
  }

  function InitPool(): Pool {
    Pool(Init(), seq(BUCKETS, _ => []), map[], map[], map[], map[], map[])
  }

  lemma InitPoolInv()
    ensures PoolInv(InitPool())
  {
    InitInv();
  }

  // ---------- moving blocks between lists ----------

  function Move(place: map<Addr, Block>, u: seq<Addr>, w: Place): map<Addr, Block> {
    map a | a in place :: if a in u then place[a].(at := w) else place[a]
  }

  function SetCache(caches: map<Tid, seq<seq<Addr>>>, t: Tid, i: nat, l: seq<Addr>): map<Tid, seq<seq<Addr>>>
    requires t in caches && i < |caches[t]|
  {
    caches[t := caches[t][i := l]]
  }

  lemma ListTake(s: seq<Addr>, n: nat, place: map<Addr, Block>, w: Place, w': Place)
    requires ListAt(s, place, w) && n <= |s| && w' != w
    ensures ListAt(s[n..], Move(place, s[..n], w'), w)
  {
    assert s == s[..n] + s[n..];
    forall a ensures a in s[n..] <==> a in place && Move(place, s[..n], w')[a].at == w {
      if a in s[n..] {
        assert a in s && a !in s[..n];
      }
    }
  }

  lemma ListAdd(l: seq<Addr>, u: seq<Addr>, place: map<Addr, Block>, w: Place)
    requires ListAt(l, place, w) && NoDup(u) && forall a :: a in u ==> a in place && place[a].at != w
    ensures ListAt(u + l, Move(place, u, w), w)
  {
    AppendNoDup(u, l);
  }

  lemma ListFrame(l: seq<Addr>, u: seq<Addr>, place: map<Addr, Block>, w: Place, w': Place)
    requires ListAt(l, place, w) && w' != w && forall a :: a in u && a in place ==> place[a].at != w
    ensures ListAt(l, Move(place, u, w'), w)
  {
  }

  /** The blocks u are all at w. */
  ghost predicate AllAt(u: seq<Addr>, place: map<Addr, Block>, w: Place) {
    NoDup(u) && forall a :: a in u ==> a in place && place[a].at == w
  }

  // Moving blocks that are at w to w' does not concern the lists of other places.
  lemma OtherLists(free: map<Ptr, seq<Addr>>, caches: map<Tid, seq<seq<Addr>>>, phase: map<Tid, Phase>,
                   place: map<Addr, Block>, u: seq<Addr>, w: Place, w': Place)
    requires ListsOk(free, caches, phase, place) && AllAt(u, place, w)
    ensures var place' := Move(place, u, w');
      && (forall q :: q in free && FreeIn(q) != w && FreeIn(q) != w' ==> ListAt(free[q], place', FreeIn(q)))
      && (forall t, i :: t in caches && 0 <= i < BUCKETS && InCache(t, i) != w && InCache(t, i) != w' ==>
            ListAt(caches[t][i], place', InCache(t, i)))
      && (forall t :: t in phase && InChain(t) != w && InChain(t) != w' ==>
          ListAt(ChainOf(phase[t]), place', InChain(t)))
  {
    hide ListAt;
    var place' := Move(place, u, w');
    forall q | q in free && FreeIn(q) != w && FreeIn(q) != w' ensures ListAt(free[q], place', FreeIn(q)) {
      ListFrame(free[q], u, place, FreeIn(q), w');
    }
    forall t, i | t in caches && 0 <= i < BUCKETS && InCache(t, i) != w && InCache(t, i) != w'
      ensures ListAt(caches[t][i], place', InCache(t, i))
    {
      ListFrame(caches[t][i], u, place, InCache(t, i), w');
    }
    forall t | t in phase && InChain(t) != w && InChain(t) != w' ensures ListAt(ChainOf(phase[t]), place', InChain(t)) {
      ListFrame(ChainOf(phase[t]), u, place, InChain(t), w');
    }
  }

  // Blocks of listed spans may move to a place that suits them.
  ghost predicate Suits(used: map<Ptr, Span>, role: map<Ptr, Role>, phase: map<Tid, Phase>,
        place: map<Addr, Block>, u: seq<Addr>, w: Place) {
    forall a :: a in u ==>
      && a in place && place[a].span in role && place[a].span in used && role[place[a].span] == Serving
      && WhereOk(Block(place[a].span, w), used[place[a].span], phase)
  }

  lemma MovePlaces(used: map<Ptr, Span>, role: map<Ptr, Role>, phase: map<Tid, Phase>, place: map<Addr, Block>,
        u: seq<Addr>, w: Place)
    requires PlacesOk(used, role, phase, place) && Suits(used, role, phase, place, u, w)
    ensures PlacesOk(used, role, phase, Move(place, u, w))
  {
    hide BlocksOf, WhereOk;
  }

  // Whatever is not live suits a live block's place.
  lemma SuitsLive(used: map<Ptr, Span>, role: map<Ptr, Role>, phase: map<Tid, Phase>, place: map<Addr, Block>,
        u: seq<Addr>, w: Place)
    requires PlacesOk(used, role, phase, place) && AllAt(u, place, w) && w != Live
    ensures Suits(used, role, phase, place, u, Live)
  {
    hide BlocksOf;
  }

  // ---------- primitive actions ----------

  // Blocks leave the front of a cache list for their new owner.
  function PopCache(p: Pool, t: Tid, i: nat, n: nat): Pool
    requires t in p.caches && i < |p.caches[t]| && n <= |p.caches[t][i]|
  {
    p.(caches := SetCache(p.caches, t, i, p.caches[t][i][n..]), place := Move(p.place, p.caches[t][i][..n], Live))
  }

  // Blocks that nobody else refers to go to the front of a cache list.
  function PushCache(p: Pool, t: Tid, i: nat, u: seq<Addr>): Pool
    requires t in p.caches && i < |p.caches[t]|
  {
    p.(caches := SetCache(p.caches, t, i, u + p.caches[t][i]), place := Move(p.place, u, InCache(t, i)))
  }

  lemma PrefixAt(l: seq<Addr>, n: nat, place: map<Addr, Block>, w: Place)
    requires ListAt(l, place, w) && n <= |l|
    ensures AllAt(l[..n], place, w)
  {
    assert forall a :: a in l[..n] ==> a in l;
  }

  // One cache list changes; all other lists are as given.
  lemma CacheLists(p: Pool, t: Tid, i: nat, l: seq<Addr>, place': map<Addr, Block>)
    requires ListsOk(p.free, p.caches, p.phase, p.place) && t in p.caches && i < BUCKETS
    requires ListAt(l, place', InCache(t, i))
    requires forall q :: q in p.free ==> ListAt(p.free[q], place', FreeIn(q))
    requires forall t', i' :: t' in p.caches && 0 <= i' < BUCKETS && InCache(t', i') != InCache(t, i) ==>
      ListAt(p.caches[t'][i'], place', InCache(t', i'))
    requires forall t' :: t' in p.phase ==> ListAt(ChainOf(p.phase[t']), place', InChain(t'))
    ensures i < |p.caches[t]| && ListsOk(p.free, SetCache(p.caches, t, i, l), p.phase, place')
  {
    hide ListAt;
    var caches' := SetCache(p.caches, t, i, l);
    forall t', i' | t' in caches' && 0 <= i' < BUCKETS ensures ListAt(caches'[t'][i'], place', InCache(t', i')) {
      if t' == t && i' == i {} else { assert InCache(t', i') != InCache(t, i); }
    }
  }

  lemma PopCacheLists(p: Pool, t: Tid, i: nat, n: nat)
    requires ListsOk(p.free, p.caches, p.phase, p.place)
    requires t in p.caches && i < BUCKETS && i < |p.caches[t]| && n <= |p.caches[t][i]|
    ensures var p' := PopCache(p, t, i, n); ListsOk(p'.free, p'.caches, p'.phase, p'.place)
    ensures AllAt(p.caches[t][i][..n], p.place, InCache(t, i))
  {
    hide ListAt, AllAt;
    var l, u := p.caches[t][i], p.caches[t][i][..n];
    assert ListAt(l, p.place, InCache(t, i));
    PrefixAt(l, n, p.place, InCache(t, i));
    OtherLists(p.free, p.caches, p.phase, p.place, u, InCache(t, i), Live);
    ListTake(l, n, p.place, InCache(t, i), Live);
    CacheLists(p, t, i, l[n..], Move(p.place, u, Live));
  }

  lemma PopCacheKeeps(used: map<Ptr, Span>, p: Pool, t: Tid, i: nat, n: nat)
    requires PoolOk(used, p) && t in p.caches && i < BUCKETS && i < |p.caches[t]| && n <= |p.caches[t][i]|
    ensures PoolOk(used, PopCache(p, t, i, n))
  {
    hide Roles, CentralOk, CountsOk, ListsOk, PlacesOk, Suits;
    PopCacheLists(p, t, i, n);
    SuitsLive(used, p.role, p.phase, p.place, p.caches[t][i][..n], InCache(t, i));
    MovePlaces(used, p.role, p.phase, p.place, p.caches[t][i][..n], Live);
  }

  lemma PushCacheLists(p: Pool, t: Tid, i: nat, u: seq<Addr>)
    requires ListsOk(p.free, p.caches, p.phase, p.place)
    requires t in p.caches && i < BUCKETS && i < |p.caches[t]| && AllAt(u, p.place, Live)
    ensures var p' := PushCache(p, t, i, u); ListsOk(p'.free, p'.caches, p'.phase, p'.place)
  {
    hide ListAt;
    var l := p.caches[t][i];
    assert ListAt(l, p.place, InCache(t, i));
    OtherLists(p.free, p.caches, p.phase, p.place, u, Live, InCache(t, i));
    ListAdd(l, u, p.place, InCache(t, i));
    CacheLists(p, t, i, u + l, Move(p.place, u, InCache(t, i)));
  }

  lemma PushCacheKeeps(used: map<Ptr, Span>, p: Pool, t: Tid, i: nat, u: seq<Addr>)
    requires PoolOk(used, p) && t in p.caches && i < BUCKETS && i < |p.caches[t]| && AllAt(u, p.place, Live)
    requires Suits(used, p.role, p.phase, p.place, u, InCache(t, i))
    ensures PoolOk(used, PushCache(p, t, i, u))
  {
    hide Roles, CentralOk, CountsOk, ListsOk, PlacesOk, Suits;
    PushCacheLists(p, t, i, u);
    MovePlaces(used, p.role, p.phase, p.place, u, InCache(t, i));
  }

  // ---------- use counts ----------

  function Bump(s: State, q: Ptr, d: int): State
    requires q in s.spans
  {
    s.(spans := s.spans[q := s.spans[q].(useCnt := s.spans[q].useCnt + d)])
  }

  lemma BumpMapped(s: State, q: Ptr, d: int)
    requires MapOk(s.spans, s.hash, s.owner, {}) && q in s.spans && s.spans[q].used
    ensures Mapped(s.hash, q, Bump(s, q, d).spans[q])
  {
    assert Mapped(s.hash, q, s.spans[q]);
    assert forall p :: InSpan(Bump(s, q, d).spans[q], p) <==> InSpan(s.spans[q], p);
  }

  lemma BumpUsed(s: State, q: Ptr, d: int)
    requires q in s.spans && s.spans[q].used
    ensures Used(Bump(s, q, d).spans) == Used(s.spans)[q := Bump(s, q, d).spans[q]]
  {
  }

  lemma BumpInv(s: State, q: Ptr, d: int)
    requires Inv(s) && q in s.spans && s.spans[q].used
    ensures Inv(Bump(s, q, d)) && Used(Bump(s, q, d).spans) == Used(s.spans)[q := Bump(s, q, d).spans[q]]
  {
    BumpUsed(s, q, d);
    hide Listed, MapOk, Mapped, Used;
    var s' := Bump(s, q, d);
    PartitionRelabel(s.spans, s'.spans, s.owner);
    ListedFrame(s.spans, s'.spans, s.lists, {}, {});
    BumpMapped(s, q, d);
    MapRelabel(s, q, s'.spans[q], {});
    assert {} - {q} == {};
  }

  function Recount(used: map<Ptr, Span>, q: Ptr, d: int): map<Ptr, Span>
    requires q in used
  {
    used[q := used[q].(useCnt := used[q].useCnt + d)]
  }

  lemma BlocksSame(sp: Span, d: int)
    ensures BlocksOf(sp.(useCnt := sp.useCnt + d)) == BlocksOf(sp)
  {
  }

  // Counting blocks of a serving span changes nothing but the counts.
  lemma RecountRoles(used: map<Ptr, Span>, p: Pool, q: Ptr, d: int)
    requires Roles(used, p.role, p.phase) && q in p.role && q in used && p.role[q] == Serving
    ensures Roles(Recount(used, q, d), p.role, p.phase)
  {
    hide IsClass, NumMovePage;
  }

  lemma RecountCentral(used: map<Ptr, Span>, p: Pool, q: Ptr, d: int)
    requires CentralOk(used, p.role, p.central) && q in used
    ensures CentralOk(Recount(used, q, d), p.role, p.central)
  {
    hide NoDup, Index;
  }

  lemma RecountPlaces(used: map<Ptr, Span>, p: Pool, q: Ptr, d: int)
    requires PlacesOk(used, p.role, p.phase, p.place) && q in used
    ensures PlacesOk(Recount(used, q, d), p.role, p.phase, p.place)
  {
    hide BlocksOf, WhereOk;
    BlocksSame(used[q], d);
    forall a | a in p.place ensures WhereOk(p.place[a], Recount(used, q, d)[p.place[a].span], p.phase) {
      assert WhereOk(p.place[a], used[p.place[a].span], p.phase);
      WhereSame(p.place[a], used[p.place[a].span], Recount(used, q, d)[p.place[a].span], p.phase);
    }
  }

  lemma WhereSame(b: Block, sp: Span, sp': Span, phase: map<Tid, Phase>)
    requires WhereOk(b, sp, phase) && sp'.blockSize == sp.blockSize
    ensures WhereOk(b, sp', phase)
  {
    hide Index;
  }

  // The first n free blocks of span q leave for their new owner.
  function TakeSpan(p: Pool, q: Ptr, n: nat): Pool
    requires q in p.free && n <= |p.free[q]| && q in p.page.spans
  {
    p.(page := Bump(p.page, q, n), free := p.free[q := p.free[q][n..]], place := Move(p.place, p.free[q][..n], Live))
  }

  lemma TakeSpanLists(p: Pool, q: Ptr, n: nat)
    requires ListsOk(p.free, p.caches, p.phase, p.place)
    requires q in p.free && n <= |p.free[q]|
    ensures ListsOk(p.free[q := p.free[q][n..]], p.caches, p.phase, Move(p.place, p.free[q][..n], Live))
    ensures AllAt(p.free[q][..n], p.place, FreeIn(q))
  {
    hide ListAt, AllAt;
    PrefixAt(p.free[q], n, p.place, FreeIn(q));
    OtherLists(p.free, p.caches, p.phase, p.place, p.free[q][..n], FreeIn(q), Live);
    ListTake(p.free[q], n, p.place, FreeIn(q), Live);
  }

  lemma TakeSpanKeeps(p: Pool, q: Ptr, n: nat)
    requires PoolInv(p) && q in p.free && n <= |p.free[q]|
    ensures q in p.page.spans && PoolInv(TakeSpan(p, q, n))
  {
    hide Inv, Roles, CentralOk, ListsOk, PlacesOk, Suits, Move, BlocksOf;
    var used := Used(p.page.spans);
    RoleInUse(used, p, q);
    BumpInv(p.page, q, n);
    TakeSpanLists(p, q, n);
    SuitsLive(used, p.role, p.phase, p.place, p.free[q][..n], FreeIn(q));
    MovePlaces(used, p.role, p.phase, p.place, p.free[q][..n], Live);
    RecountRoles(used, p, q, n);
    RecountCentral(used, p, q, n);
    RecountPlaces(used, p.(place := Move(p.place, p.free[q][..n], Live)), q, n);
    BlocksSame(used[q], n);
  }

  lemma RoleInUse(used: map<Ptr, Span>, p: Pool, q: Ptr)
    requires Roles(used, p.role, p.phase) && q in p.role
    ensures q in used
  {
  }

  // ---------- giving blocks back ----------

  // A thread detaches a whole cache list for CentralCache.
  function Detach(p: Pool, t: Tid, i: nat, size: nat): Pool
    requires t in p.caches && i < |p.caches[t]|
  {
    var l := p.caches[t][i];
    p.(caches := SetCache(p.caches, t, i, []), phase := p.phase[t := Returning(l, size)],
       place := Move(p.place, l, InChain(t)))
  }

  lemma DetachLists(p: Pool, t: Tid, i: nat, size: nat)
    requires ListsOk(p.free, p.caches, p.phase, p.place)
    requires t in p.caches && i < BUCKETS && i < |p.caches[t]| && t in p.phase && p.phase[t] == Idle
    ensures var p' := Detach(p, t, i, size); ListsOk(p'.free, p'.caches, p'.phase, p'.place)
  {
    hide ListAt;
    var l := p.caches[t][i];
    var place' := Move(p.place, l, InChain(t));
    assert ListAt(l, p.place, InCache(t, i)) && ListAt(ChainOf(p.phase[t]), p.place, InChain(t));
    PrefixAt(l, |l|, p.place, InCache(t, i));
    assert l[..|l|] == l && l[|l|..] == [] && l + [] == l;
    OtherLists(p.free, p.caches, p.phase, p.place, l, InCache(t, i), InChain(t));
    ListTake(l, |l|, p.place, InCache(t, i), InChain(t));
    AllAtElsewhere(l, p.place, InCache(t, i), InChain(t));
    ListAdd([], l, p.place, InChain(t));
    DetachOthers(p, t, i, size);
  }

  lemma AllAtElsewhere(u: seq<Addr>, place: map<Addr, Block>, w: Place, w': Place)
    requires AllAt(u, place, w) && w != w'
    ensures NoDup(u) && forall a :: a in u ==> a in place && place[a].at != w'
  {
  }

  lemma DetachOthers(p: Pool, t: Tid, i: nat, size: nat)
    requires t in p.caches && i < BUCKETS && i < |p.caches[t]| && t in p.phase
    requires p.phase.Keys == p.caches.Keys && forall t' :: t' in p.caches ==> |p.caches[t']| == BUCKETS
    requires var place' := Move(p.place, p.caches[t][i], InChain(t));
      && (forall q :: q in p.free ==> ListAt(p.free[q], place', FreeIn(q)))
      && (forall t', i' :: t' in p.caches && 0 <= i' < BUCKETS && InCache(t', i') != InCache(t, i) ==>
            ListAt(p.caches[t'][i'], place', InCache(t', i')))
      && (forall t' :: t' in p.phase && InChain(t') != InChain(t) ==> ListAt(ChainOf(p.phase[t']), place', InChain(t')))
      && ListAt([], place', InCache(t, i)) && ListAt(p.caches[t][i], place', InChain(t))
    ensures var p' := Detach(p, t, i, size); ListsOk(p'.free, p'.caches, p'.phase, p'.place)
  {
    hide ListAt;
    var p' := Detach(p, t, i, size);
    forall t', i' | t' in p'.caches && 0 <= i' < BUCKETS ensures ListAt(p'.caches[t'][i'], p'.place, InCache(t', i')) {
      if t' == t && i' == i {} else { assert InCache(t', i') != InCache(t, i); }
    }
    forall t' | t' in p'.phase ensures ListAt(ChainOf(p'.phase[t']), p'.place, InChain(t')) {
      if t' != t { assert InChain(t') != InChain(t); }
    }
  }

  // Threads that work on a span keep their phase.
  ghost predicate SamePrivate(phase: map<Tid, Phase>, phase': map<Tid, Phase>) {
    && phase'.Keys == phase.Keys
    && (forall t :: t in phase && (phase[t].Carving? || phase[t].Reverting?) ==> phase'[t] == phase[t])
    && (forall t :: t in phase && (phase'[t].Carving? || phase'[t].Reverting?) ==> phase'[t] == phase[t])
  }

  lemma PhaseRoles(used: map<Ptr, Span>, role: map<Ptr, Role>, phase: map<Tid, Phase>, phase': map<Tid, Phase>)
    requires Roles(used, role, phase) && SamePrivate(phase, phase')
    ensures Roles(used, role, phase')
  {
    hide ClassSpan;
  }

  // A thread with no blocks in transit may change its phase.
  lemma PhasePlaces(used: map<Ptr, Span>, role: map<Ptr, Role>, phase: map<Tid, Phase>, place: map<Addr, Block>,
        t: Tid, ph: Phase)
    requires PlacesOk(used, role, phase, place) && t in phase
    requires (forall a :: a in place ==> place[a].at != InChain(t))
      || ((ph.Returning? || ph.Reverting?) && (phase[t].Returning? || phase[t].Reverting?) && ph.size == phase[t].size)
    ensures PlacesOk(used, role, phase[t := ph], place)
  {
    hide BlocksOf, Index;
  }

  lemma DetachKeeps(used: map<Ptr, Span>, p: Pool, t: Tid, i: nat, size: nat)
    requires PoolOk(used, p) && t in p.caches && i < BUCKETS && i < |p.caches[t]|
    requires t in p.phase && p.phase[t] == Idle && size <= MAX_BYTES && Index(size) == i
    ensures PoolOk(used, Detach(p, t, i, size))
  {
    hide Roles, CentralOk, CountsOk, ListsOk, PlacesOk, ListAt, Suits, Index, AllAt, Move;
    var l := p.caches[t][i];
    var phase' := p.phase[t := Returning(l, size)];
    DetachLists(p, t, i, size);
    PhaseRoles(used, p.role, p.phase, phase');
    IdleHasNone(p, t);
    PhasePlaces(used, p.role, p.phase, p.place, t, Returning(l, size));
    ListedAt(p, t, i);
    CacheSuitsChain(used, p, t, i, phase', size);
    MovePlaces(used, p.role, phase', p.place, l, InChain(t));
  }

  lemma IdleHasNone(p: Pool, t: Tid)
    requires ListsOk(p.free, p.caches, p.phase, p.place) && t in p.phase && ChainOf(p.phase[t]) == []
    ensures forall a :: a in p.place ==> p.place[a].at != InChain(t)
  {
    assert ListAt(ChainOf(p.phase[t]), p.place, InChain(t));
  }

  lemma ListedAt(p: Pool, t: Tid, i: nat)
    requires ListsOk(p.free, p.caches, p.phase, p.place) && t in p.caches && i < BUCKETS
    ensures i < |p.caches[t]| && AllAt(p.caches[t][i], p.place, InCache(t, i))
  {
    assert ListAt(p.caches[t][i], p.place, InCache(t, i));
  }

  lemma CacheSuitsChain(used: map<Ptr, Span>, p: Pool, t: Tid, i: nat, phase': map<Tid, Phase>, size: nat)
    requires PlacesOk(used, p.role, p.phase, p.place) && t in p.caches && i < |p.caches[t]|
    requires AllAt(p.caches[t][i], p.place, InCache(t, i))
    requires t in phase' && phase'[t].Returning? && phase'[t].size == size && size <= MAX_BYTES && Index(size) == i
    ensures Suits(used, p.role, phase', p.place, p.caches[t][i], InChain(t))
  {
    hide BlocksOf, Index;
  }

  // releaseList, one block: the head of the chain goes to the front of its span's free list.
  ghost predicate CanGiveBack(p: Pool, t: Tid) {
    && t in p.phase && p.phase[t].Returning? && p.phase[t].chain != []
    && p.phase[t].chain[0] in p.place && p.place[p.phase[t].chain[0]].span in p.free
    && p.place[p.phase[t].chain[0]].span in p.page.spans
  }

  ghost function GiveBack(p: Pool, t: Tid): Pool
    requires CanGiveBack(p, t)
  {
    var ph := p.phase[t];
    var a := ph.chain[0];
    var q := p.place[a].span;
    p.(page := Bump(p.page, q, -1), free := p.free[q := [a] + p.free[q]],
       phase := p.phase[t := Returning(ph.chain[1..], ph.size)], place := Move(p.place, [a], FreeIn(q)))
  }

  lemma ChainHead(used: map<Ptr, Span>, p: Pool, t: Tid)
    requires PoolOk(used, p) && t in p.phase && p.phase[t].Returning? && p.phase[t].chain != []
    ensures var a := p.phase[t].chain[0];
      && AllAt([a], p.place, InChain(t)) && p.place[a].span in p.free && p.place[a].span in used
      && p.place[a].span in p.role && p.role[p.place[a].span] == Serving
      && p.phase[t].size <= MAX_BYTES && used[p.place[a].span].blockSize <= MAX_BYTES
      && Index(p.phase[t].size) == Index(used[p.place[a].span].blockSize)
  {
    hide CentralOk, BlocksOf, Index;
    var a := p.phase[t].chain[0];
    assert ListAt(ChainOf(p.phase[t]), p.place, InChain(t)) && a in ChainOf(p.phase[t]);
  }

  lemma GiveBackLists(p: Pool, t: Tid, a: Addr, q: Ptr)
    requires ListsOk(p.free, p.caches, p.phase, p.place) && t in p.phase && p.phase[t].Returning?
    requires p.phase[t].chain != [] && a == p.phase[t].chain[0] && q in p.free && AllAt([a], p.place, InChain(t))
    ensures ListsOk(p.free[q := [a] + p.free[q]], p.caches,
      p.phase[t := Returning(p.phase[t].chain[1..], p.phase[t].size)], Move(p.place, [a], FreeIn(q)))
  {
    hide ListAt;
    var l := p.phase[t].chain;
    var place' := Move(p.place, [a], FreeIn(q));
    assert ListAt(ChainOf(p.phase[t]), p.place, InChain(t)) && ListAt(p.free[q], p.place, FreeIn(q));
    assert l[..1] == [a];
    OtherLists(p.free, p.caches, p.phase, p.place, [a], InChain(t), FreeIn(q));
    ListTake(l, 1, p.place, InChain(t), FreeIn(q));
    AllAtElsewhere([a], p.place, InChain(t), FreeIn(q));
    ListAdd(p.free[q], [a], p.place, FreeIn(q));
    var free', phase' := p.free[q := [a] + p.free[q]], p.phase[t := Returning(l[1..], p.phase[t].size)];
    forall r | r in free' ensures ListAt(free'[r], place', FreeIn(r)) {
      if r != q { assert FreeIn(r) != FreeIn(q); }
    }
    forall t' | t' in phase' ensures ListAt(ChainOf(phase'[t']), place', InChain(t')) {
      if t' != t { assert InChain(t') != InChain(t); }
    }
  }

  lemma GiveBackPlaces(used: map<Ptr, Span>, p: Pool, t: Tid, a: Addr, q: Ptr)
    requires PlacesOk(used, p.role, p.phase, p.place) && t in p.phase && p.phase[t].Returning?
    requires p.phase[t].chain != [] && a in p.place && q == p.place[a].span && p.role[q] == Serving && q in used
    ensures PlacesOk(Recount(used, q, -1), p.role, p.phase[t := Returning(p.phase[t].chain[1..], p.phase[t].size)],
      Move(p.place, [a], FreeIn(q)))
  {
    hide BlocksOf, Index;
    var phase' := p.phase[t := Returning(p.phase[t].chain[1..], p.phase[t].size)];
    PhasePlaces(used, p.role, p.phase, p.place, t, phase'[t]);
    MovePlaces(used, p.role, phase', p.place, [a], FreeIn(q));
    hide PlacesOk;
    RecountPlaces(used, p.(phase := phase', place := Move(p.place, [a], FreeIn(q))), q, -1);
  }

  lemma GiveBackKeeps(p: Pool, t: Tid)
    requires PoolInv(p) && t in p.phase && p.phase[t].Returning? && p.phase[t].chain != []
    ensures CanGiveBack(p, t) && PoolInv(GiveBack(p, t))
  {
    hide Inv, Roles, CentralOk, ListsOk, PlacesOk, AllAt, Move, BlocksOf, Index;
    var used := Used(p.page.spans);
    var a := p.phase[t].chain[0];
    ChainHead(used, p, t);
    AllAtHead(p.place, a, InChain(t));
    var q := p.place[a].span;
    BumpInv(p.page, q, -1);
    GiveBackLists(p, t, a, q);
    GiveBackPlaces(used, p, t, a, q);
    var phase' := p.phase[t := Returning(p.phase[t].chain[1..], p.phase[t].size)];
    PhaseRoles(used, p.role, p.phase, phase');
    RecountRoles(used, p.(phase := phase'), q, -1);
    RecountCentral(used, p, q, -1);
    BlocksSame(used[q], -1);
  }

  lemma AllAtHead(place: map<Addr, Block>, a: Addr, w: Place)
    requires AllAt([a], place, w)
    ensures a in place && place[a].at == w
  {
  }

  // The last outstanding block came back: unlist the span and take it private.
  ghost predicate CanRetire(p: Pool, t: Tid, q: Ptr) {
    && t in p.phase && p.phase[t].Returning? && p.phase[t].size <= MAX_BYTES && Index(p.phase[t].size) < |p.central|
  }

  ghost function Retire(p: Pool, t: Tid, q: Ptr): Pool
    requires CanRetire(p, t, q)
  {
    var i := Index(p.phase[t].size);
    p.(central := p.central[i := Without(p.central[i], q)], free := p.free - {q}, role := p.role[q := Emptied(t)],
       phase := p.phase[t := Reverting(q, p.phase[t].chain, p.phase[t].size)], place := DropSpan(p.place, q))
  }

  function DropSpan(place: map<Addr, Block>, q: Ptr): map<Addr, Block> {
    map a | a in place && place[a].span != q :: place[a]
  }

  // The lists of a span with no outstanding block: all its blocks are on its own free list.
  lemma AllHome(used: map<Ptr, Span>, p: Pool, q: Ptr)
    requires ListsOk(p.free, p.caches, p.phase, p.place) && PlacesOk(used, p.role, p.phase, p.place)
    requires q in p.free && q in used && q in p.role && p.role[q] == Serving && |p.free[q]| == |BlocksOf(used[q])|
    requires NoDup(BlocksOf(used[q]))
    ensures forall a :: a in p.place && p.place[a].span == q ==> p.place[a].at == FreeIn(q)
  {
    var l := p.free[q];
    assert ListAt(l, p.place, FreeIn(q));
    hide BlocksOf;
    forall a | a in l ensures a in BlocksOf(used[q]) { assert p.place[a].at == FreeIn(q); }
    SameMembers(l, BlocksOf(used[q]));
  }

  ghost function Elements(s: seq<Addr>): set<Addr> {
    set a | a in s
  }

  lemma SameMembers(s: seq<Addr>, t: seq<Addr>)
    requires NoDup(s) && NoDup(t) && |s| == |t| && forall a :: a in s ==> a in t
    ensures forall a :: a in t ==> a in s
  {
    NoDupCard(s);
    NoDupCard(t);
    assert Elements(s) <= Elements(t);
    SubsetCard(Elements(s), Elements(t));
    forall a | a in t ensures a in s { assert a in Elements(t); }
  }

  lemma {:induction false} NoDupCard(s: seq<Addr>)
    requires NoDup(s)
    ensures |Elements(s)| == |s|
  {
    if s != [] {
      NoDupCard(s[1..]);
      assert s == [s[0]] + s[1..] && s[0] !in Elements(s[1..]);
      assert Elements(s) == Elements(s[1..]) + {s[0]};
    } else {
      assert Elements(s) == {};
    }
  }

  lemma SubsetCard<T>(s: set<T>, t: set<T>)
    requires s <= t && |s| == |t|
    ensures s == t
  {
    assert |t - s| == 0;
  }

  lemma BlocksNoDup(sp: Span)
    ensures NoDup(BlocksOf(sp))
  {
    if sp.blockSize != 0 { CarvedBounds(Base(sp), End(sp), sp.blockSize); }
  }

  lemma DropList(l: seq<Addr>, place: map<Addr, Block>, w: Place, q: Ptr)
    requires ListAt(l, place, w) && w != FreeIn(q)
    requires forall a :: a in place && place[a].span == q ==> place[a].at == FreeIn(q)
    ensures ListAt(l, DropSpan(place, q), w)
  {
  }

  lemma RetireLists(p: Pool, t: Tid, q: Ptr)
    requires ListsOk(p.free, p.caches, p.phase, p.place) && CanRetire(p, t, q)
    requires forall a :: a in p.place && p.place[a].span == q ==> p.place[a].at == FreeIn(q)
    ensures var p' := Retire(p, t, q); ListsOk(p'.free, p'.caches, p'.phase, p'.place)
  {
    hide ListAt, Without;
    var p' := Retire(p, t, q);
    forall r | r in p'.free ensures ListAt(p'.free[r], p'.place, FreeIn(r)) {
      DropList(p.free[r], p.place, FreeIn(r), q);
    }
    forall t', i | t' in p'.caches && 0 <= i < BUCKETS ensures ListAt(p'.caches[t'][i], p'.place, InCache(t', i)) {
      DropList(p.caches[t'][i], p.place, InCache(t', i), q);
    }
    forall t' | t' in p'.phase ensures ListAt(ChainOf(p'.phase[t']), p'.place, InChain(t')) {
      assert ChainOf(p'.phase[t']) == ChainOf(p.phase[t']);
      DropList(ChainOf(p.phase[t']), p.place, InChain(t'), q);
    }
  }

  lemma RetirePlaces(used: map<Ptr, Span>, p: Pool, t: Tid, q: Ptr)
    requires PlacesOk(used, p.role, p.phase, p.place) && CanRetire(p, t, q)
    ensures var p' := Retire(p, t, q); PlacesOk(used, p'.role, p'.phase, p'.place)
  {
    hide BlocksOf, Index, Without;
  }

  lemma RetireRoles(used: map<Ptr, Span>, p: Pool, t: Tid, q: Ptr)
    requires Roles(used, p.role, p.phase) && CanRetire(p, t, q)
    requires q in p.role && p.role[q] == Serving && q in used && used[q].useCnt == 0
    ensures var p' := Retire(p, t, q); Roles(used, p'.role, p'.phase)
  {
    hide ClassSpan, Without, Index;
  }

  lemma RetireCentral(used: map<Ptr, Span>, p: Pool, t: Tid, q: Ptr)
    requires CentralOk(used, p.role, p.central) && CanRetire(p, t, q) && q in used && used[q].blockSize <= MAX_BYTES
    requires Index(p.phase[t].size) == Index(used[q].blockSize)
    ensures var p' := Retire(p, t, q); CentralOk(used, p'.role, p'.central)
  {
    hide Index, NoDup;
    var i := Index(p.phase[t].size);
    WithoutFacts(p.central[i], q);
  }

  lemma RetireKeeps(used: map<Ptr, Span>, p: Pool, t: Tid, q: Ptr)
    requires PoolOk(used, p) && t in p.phase && p.phase[t].Returning? && p.phase[t].size <= MAX_BYTES
    requires q in p.role && p.role[q] == Serving && q in used && used[q].useCnt == 0
    requires used[q].blockSize <= MAX_BYTES && Index(p.phase[t].size) == Index(used[q].blockSize)
    ensures CanRetire(p, t, q) && PoolOk(used, Retire(p, t, q))
  {
    hide Roles, CentralOk, CountsOk, ListsOk, PlacesOk, BlocksOf, NoDup, Without, DropSpan, Index;
    ServingIndex(used, p, q);
    RetireReady(used, p, t, q);
    BlocksNoDup(used[q]);
    AllFree(used, p, q);
    AllHome(used, p, q);
    RetireLists(p, t, q);
    RetirePlaces(used, p, t, q);
    RetireRoles(used, p, t, q);
    RetireCentral(used, p, t, q);
    RetireCounts(used, p, t, q);
  }

  lemma RetireReady(used: map<Ptr, Span>, p: Pool, t: Tid, q: Ptr)
    requires CentralOk(used, p.role, p.central) && t in p.phase && p.phase[t].Returning? && p.phase[t].size <= MAX_BYTES
    requires Index(p.phase[t].size) < BUCKETS
    ensures CanRetire(p, t, q)
  {
    hide Index;
  }

  lemma AllFree(used: map<Ptr, Span>, p: Pool, q: Ptr)
    requires CountsOk(used, p.role, p.free) && q in p.role && p.role[q] == Serving && q in used && used[q].useCnt == 0
    ensures q in p.free && |p.free[q]| == |BlocksOf(used[q])|
  {
    hide BlocksOf;
  }

  lemma RetireCounts(used: map<Ptr, Span>, p: Pool, t: Tid, q: Ptr)
    requires CountsOk(used, p.role, p.free) && CanRetire(p, t, q)
    ensures CountsOk(used, Retire(p, t, q).role, Retire(p, t, q).free)
  {
    hide BlocksOf, Without, DropSpan, Index;
  }

  lemma ServingIndex(used: map<Ptr, Span>, p: Pool, q: Ptr)
    requires Roles(used, p.role, p.phase) && CentralOk(used, p.role, p.central) && q in p.role && p.role[q] == Serving
    ensures q in used && ClassSpan(used[q]) && Index(used[q].blockSize) < BUCKETS
  {
    RoundUpIsClassOfIndex(used[q].blockSize);
  }

  // ---------- spans coming and going ----------

  lemma UsedAfterGrant(s: State, t: State, q: Ptr, n: nat, size: nat, e: Supply)
    requires Granted(s, t, q, n, size, e)
    ensures q !in Used(s.spans) && q in t.spans && Used(t.spans) == Used(s.spans)[q := t.spans[q]]
  {
    hide FromSystem, BestFit;
  }

  lemma UsedAfterRevert(s: State, t: State, q: Ptr)
    requires Reverted(s, t, q)
    ensures Used(t.spans) == Used(s.spans) - {q}
  {
  }

  // getOneSpan finds no free block: a fresh span for size class c is granted to thread t.
  ghost function Obtain(p: Pool, t: Tid, c: nat, e: Supply): Pool
    requires c > 0 && 1 <= NumMovePage(c) && Searchable(p.page.spans, p.page.lists)
    requires FreshSpans(p.page, NumMovePage(c), e)
  {
    var (s, q) := Grant(p.page, NumMovePage(c), c, e);
    p.(page := s, role := p.role[q := Private(t)], phase := p.phase[t := Carving(q, c)])
  }

  // A span that no list knows of takes on a role.
  lemma NewRoleCentral(used: map<Ptr, Span>, p: Pool, q: Ptr, sp: Span, r: Role)
    requires CentralOk(used, p.role, p.central) && q !in used && q !in p.role && r != Serving
    ensures CentralOk(used[q := sp], p.role[q := r], p.central)
  {
    hide Index, NoDup;
  }

  lemma NewRoleCounts(used: map<Ptr, Span>, p: Pool, q: Ptr, sp: Span, r: Role)
    requires CountsOk(used, p.role, p.free) && q !in used && q !in p.role && r != Serving
    ensures CountsOk(used[q := sp], p.role[q := r], p.free)
  {
    hide BlocksOf;
  }

  lemma NewRoleRoles(used: map<Ptr, Span>, p: Pool, q: Ptr, sp: Span, r: Role, phase': map<Tid, Phase>)
    requires Roles(used, p.role, p.phase) && q !in used && RoleOk(q, sp, r, phase')
    requires phase'.Keys == p.phase.Keys
    requires if r.Private? then
        r.t in p.phase && p.phase[r.t] == Idle && phase' == p.phase[r.t := Carving(q, sp.blockSize)]
      else phase' == p.phase && r == Big
    ensures Roles(used[q := sp], p.role[q := r], phase')
  {
    hide ClassSpan;
  }

  lemma ObtainLists(p: Pool, t: Tid, q: Ptr, size: nat)
    requires ListsOk(p.free, p.caches, p.phase, p.place) && t in p.phase && p.phase[t] == Idle
    ensures ListsOk(p.free, p.caches, p.phase[t := Carving(q, size)], p.place)
  {
    hide ListAt;
  }

  lemma ObtainPlaces(used: map<Ptr, Span>, p: Pool, t: Tid, q: Ptr, sp: Span)
    requires PlacesOk(used, p.role, p.phase, p.place) && t in p.phase && q !in used && q !in p.role
    requires forall a :: a in p.place ==> p.place[a].at != InChain(t)
    ensures PlacesOk(used[q := sp], p.role[q := Private(t)], p.phase[t := Carving(q, sp.blockSize)], p.place)
  {
    hide BlocksOf, Index;
  }

  lemma ObtainPool(used: map<Ptr, Span>, p: Pool, t: Tid, q: Ptr, sp: Span)
    requires PoolOk(used, p) && t in p.phase && p.phase[t] == Idle && q !in used
    requires ClassSpan(sp) && sp.useCnt == 0
    ensures PoolOk(used[q := sp], p.(role := p.role[q := Private(t)], phase := p.phase[t := Carving(q, sp.blockSize)]))
  {
    assert q !in p.role by { assert Roles(used, p.role, p.phase); }
    hide Roles, CentralOk, CountsOk, ListsOk, PlacesOk;
    IdleHasNone(p, t);
    NewRoleCentral(used, p, q, sp, Private(t));
    NewRoleCounts(used, p, q, sp, Private(t));
    NewRoleRoles(used, p, q, sp, Private(t), p.phase[t := Carving(q, sp.blockSize)]);
    ObtainLists(p, t, q, sp.blockSize);
    ObtainPlaces(used, p, t, q, sp);
  }

  lemma ObtainKeeps(p: Pool, t: Tid, c: nat, e: Supply)
    requires PoolInv(p) && t in p.phase && p.phase[t] == Idle && IsClass(c) && SupplyOk(p.page, NumMovePage(c), e)
    ensures 1 <= NumMovePage(c) && Searchable(p.page.spans, p.page.lists) && FreshSpans(p.page, NumMovePage(c), e)
    ensures PoolInv(Obtain(p, t, c, e))
  {
    hide SupplyOk, FreshSpans, Searchable, Roles, CentralOk, CountsOk, ListsOk, PlacesOk, Inv, Grant, Granted,
      Used, IsClass, NumMovePage;
    NumMovePageInRange(c);
    GrantKeeps(p.page, NumMovePage(c), c, e);
    GrantIsGranted(p.page, NumMovePage(c), c, e);
    var (s, q) := Grant(p.page, NumMovePage(c), c, e);
    UsedAfterGrant(p.page, s, q, NumMovePage(c), c, e);
    GrantedSpan(p.page, s, q, NumMovePage(c), c, e);
    assert ClassSpan(s.spans[q]);
    ObtainPool(Used(p.page.spans), p, t, q, s.spans[q]);
  }

  lemma GrantedSpan(s: State, t: State, q: Ptr, n: nat, size: nat, e: Supply)
    requires Granted(s, t, q, n, size, e)
    ensures q in t.spans && t.spans[q].cnt == n && t.spans[q].blockSize == size && t.spans[q].useCnt == 0
      && t.spans[q].used
  {
  }

  // A large allocation: the span is its own only block.
  ghost function ObtainBig(p: Pool, size: nat, e: Supply): Pool
    requires 1 <= RoundUp(size) / PAGE_BYTES && Searchable(p.page.spans, p.page.lists)
    requires FreshSpans(p.page, RoundUp(size) / PAGE_BYTES, e)
  {
    var (s, q) := Grant(p.page, RoundUp(size) / PAGE_BYTES, size, e);
    p.(page := s, role := p.role[q := Big], place := p.place[Base(s.spans[q]) := Block(q, Live)])
  }

  // Blocks of different spans in use are different, because their pages are.
  lemma BlockPage(sp: Span, a: Addr)
    requires 1 <= sp.cnt && a in BlocksOf(sp)
    ensures Base(sp) <= a < End(sp) && PageModel.InSpan(sp, PageOf(a))
  {
    if 0 < sp.blockSize <= MAX_BYTES { CarvedBounds(Base(sp), End(sp), sp.blockSize); }
  }

  lemma BlocksApart(s: State, q: Ptr, r: Ptr, a: Addr)
    requires Partition(s.spans, s.owner) && q in s.spans && r in s.spans
    requires a in BlocksOf(s.spans[q]) && a in BlocksOf(s.spans[r])
    ensures q == r
  {
    BlockPage(s.spans[q], a);
    BlockPage(s.spans[r], a);
    assert s.owner[PageOf(a)] == q && s.owner[PageOf(a)] == r;
  }

  // ---------- large allocations ----------

  ghost predicate AddsBlock(used: map<Ptr, Span>, p: Pool, q: Ptr, sp: Span) {
    q !in used && MAX_BYTES < sp.blockSize <= sp.cnt * PAGE_BYTES && sp.useCnt == 0 && Base(sp) !in p.place
  }

  lemma NewLists(p: Pool, a: Addr, q: Ptr)
    requires ListsOk(p.free, p.caches, p.phase, p.place) && a !in p.place
    ensures ListsOk(p.free, p.caches, p.phase, p.place[a := Block(q, Live)])
  {
    hide ListAt;
    var place' := p.place[a := Block(q, Live)];
    forall r | r in p.free ensures ListAt(p.free[r], place', FreeIn(r)) {
      NewLive(p.free[r], p.place, FreeIn(r), a, q);
    }
    forall t, i | t in p.caches && 0 <= i < BUCKETS ensures ListAt(p.caches[t][i], place', InCache(t, i)) {
      NewLive(p.caches[t][i], p.place, InCache(t, i), a, q);
    }
    forall t | t in p.phase ensures ListAt(ChainOf(p.phase[t]), place', InChain(t)) {
      NewLive(ChainOf(p.phase[t]), p.place, InChain(t), a, q);
    }
  }

  lemma NewLive(l: seq<Addr>, place: map<Addr, Block>, w: Place, a: Addr, q: Ptr)
    requires ListAt(l, place, w) && w != Live && a !in place
    ensures ListAt(l, place[a := Block(q, Live)], w)
  {
  }

  lemma BigPlaces(used: map<Ptr, Span>, p: Pool, q: Ptr, sp: Span)
    requires PlacesOk(used, p.role, p.phase, p.place) && AddsBlock(used, p, q, sp) && q !in p.role
    ensures PlacesOk(used[q := sp], p.role[q := Big], p.phase, p.place[Base(sp) := Block(q, Live)])
  {
    assert BlocksOf(sp) == [Base(sp)];
    hide BlocksOf, Index, Base;
  }

  lemma BigPool(used: map<Ptr, Span>, p: Pool, q: Ptr, sp: Span)
    requires PoolOk(used, p) && AddsBlock(used, p, q, sp)
    ensures PoolOk(used[q := sp], p.(role := p.role[q := Big], place := p.place[Base(sp) := Block(q, Live)]))
  {
    assert q !in p.role by { assert Roles(used, p.role, p.phase); }
    hide Roles, CentralOk, CountsOk, ListsOk, PlacesOk, Base;
    NewRoleCentral(used, p, q, sp, Big);
    NewRoleCounts(used, p, q, sp, Big);
    NewRoleRoles(used, p, q, sp, Big, p.phase);
    NewLists(p, Base(sp), q);
    BigPlaces(used, p, q, sp);
  }

  lemma UsedSpan(spans: map<Ptr, Span>, q: Ptr)
    ensures q in Used(spans) <==> q in spans && spans[q].used
    ensures q in Used(spans) ==> Used(spans)[q] == spans[q]
  {
  }

  // The pages of a span just granted carry no block.
  lemma FreshBlocks(p: Pool, s: State, q: Ptr, n: nat, size: nat, e: Supply, a: Addr)
    requires PoolInv(p) && Inv(s) && Granted(p.page, s, q, n, size, e) && a in BlocksOf(s.spans[q])
    ensures a !in p.place
  {
    hide Listed, MapOk, Granted, BlocksOf;
    if a in p.place {
      var r := p.place[a].span;
      assert r in Used(p.page.spans) && a in BlocksOf(Used(p.page.spans)[r]) by {
        assert PlacesOk(Used(p.page.spans), p.role, p.phase, p.place);
      }
      UsedSpan(p.page.spans, r);
      GrantedKeeps(p.page, s, q, n, size, e, r);
      BlocksApart(s, q, r, a);
    }
  }

  lemma GrantedKeeps(s: State, t: State, q: Ptr, n: nat, size: nat, e: Supply, r: Ptr)
    requires Granted(s, t, q, n, size, e) && r in s.spans && s.spans[r].used
    ensures r in t.spans && t.spans[r] == s.spans[r] && r != q && q in t.spans
  {
  }

  lemma BigPages(size: nat)
    requires MAX_BYTES < size < WORD && RoundUp(size) / PAGE_BYTES > 0
    ensures 65 <= RoundUp(size) / PAGE_BYTES && size <= RoundUp(size) / PAGE_BYTES * PAGE_BYTES
  {
  }

  lemma ObtainBigKeeps(p: Pool, size: nat, e: Supply)
    requires PoolInv(p) && MAX_BYTES < size < WORD && RoundUp(size) / PAGE_BYTES > 0
    requires SupplyOk(p.page, RoundUp(size) / PAGE_BYTES, e)
    ensures 1 <= RoundUp(size) / PAGE_BYTES && Searchable(p.page.spans, p.page.lists)
    ensures FreshSpans(p.page, RoundUp(size) / PAGE_BYTES, e) && PoolInv(ObtainBig(p, size, e))
  {
    BigPages(size);
    hide SupplyOk, FreshSpans, Searchable, Roles, CentralOk, CountsOk, ListsOk, PlacesOk, Inv, Grant, Granted,
      Used, RoundUp, Base;
    var n := RoundUp(size) / PAGE_BYTES;
    GrantKeeps(p.page, n, size, e);
    GrantIsGranted(p.page, n, size, e);
    var (s, q) := Grant(p.page, n, size, e);
    UsedAfterGrant(p.page, s, q, n, size, e);
    GrantedSpan(p.page, s, q, n, size, e);
    FreshBlocks(p, s, q, n, size, e, Base(s.spans[q]));
    BigPool(Used(p.page.spans), p, q, s.spans[q]);
  }

  // ---------- listing a carved span ----------

  ghost function AddSpan(place: map<Addr, Block>, q: Ptr, blocks: seq<Addr>): map<Addr, Block> {
    map a | a in place.Keys + Elements(blocks) :: if a in blocks then Block(q, FreeIn(q)) else place[a]
  }

  ghost predicate CanEnlist(p: Pool, t: Tid) {
    && t in p.phase && p.phase[t].Carving? && p.phase[t].q in p.page.spans
    && p.phase[t].size <= MAX_BYTES && Index(p.phase[t].size) < |p.central|
  }

  ghost function Enlist(p: Pool, t: Tid): Pool
    requires CanEnlist(p, t)
  {
    var q, i := p.phase[t].q, Index(p.phase[t].size);
    var blocks := BlocksOf(p.page.spans[q]);
    p.(central := p.central[i := [q] + p.central[i]], role := p.role[q := Serving], free := p.free[q := blocks],
       place := AddSpan(p.place, q, blocks), phase := p.phase[t := Idle])
  }

  lemma AddList(l: seq<Addr>, place: map<Addr, Block>, w: Place, q: Ptr, blocks: seq<Addr>)
    requires ListAt(l, place, w) && w != FreeIn(q) && forall a :: a in blocks ==> a !in place
    ensures ListAt(l, AddSpan(place, q, blocks), w)
  {
  }

  lemma AddOwnList(place: map<Addr, Block>, q: Ptr, blocks: seq<Addr>)
    requires NoDup(blocks) && forall a :: a in place ==> place[a].at != FreeIn(q)
    ensures ListAt(blocks, AddSpan(place, q, blocks), FreeIn(q))
  {
  }

  lemma EnlistLists(p: Pool, t: Tid, q: Ptr, blocks: seq<Addr>)
    requires ListsOk(p.free, p.caches, p.phase, p.place) && t in p.phase && ChainOf(p.phase[t]) == []
    requires NoDup(blocks) && (forall a :: a in blocks ==> a !in p.place)
    requires forall a :: a in p.place ==> p.place[a].at != FreeIn(q)
    ensures ListsOk(p.free[q := blocks], p.caches, p.phase[t := Idle], AddSpan(p.place, q, blocks))
  {
    hide ListAt, AddSpan, NoDup;
    var place', phase' := AddSpan(p.place, q, blocks), p.phase[t := Idle];
    AddOwnList(p.place, q, blocks);
    forall r | r in p.free && r != q ensures ListAt(p.free[r], place', FreeIn(r)) {
      AddList(p.free[r], p.place, FreeIn(r), q, blocks);
    }
    forall t', i | t' in p.caches && 0 <= i < BUCKETS ensures ListAt(p.caches[t'][i], place', InCache(t', i)) {
      AddList(p.caches[t'][i], p.place, InCache(t', i), q, blocks);
    }
    forall t' | t' in phase' ensures ListAt(ChainOf(phase'[t']), place', InChain(t')) {
      assert ChainOf(phase'[t']) == ChainOf(p.phase[t']);
      AddList(ChainOf(p.phase[t']), p.place, InChain(t'), q, blocks);
    }
  }

  lemma EnlistPlaces(used: map<Ptr, Span>, p: Pool, t: Tid, q: Ptr)
    requires PlacesOk(used, p.role, p.phase, p.place) && t in p.phase && q in used
    requires (forall a :: a in p.place ==> p.place[a].at != InChain(t))
    requires q in p.role && p.role[q] == Private(t) && forall a :: a in BlocksOf(used[q]) ==> a !in p.place
    ensures PlacesOk(used, p.role[q := Serving], p.phase[t := Idle], AddSpan(p.place, q, BlocksOf(used[q])))
  {
    hide BlocksOf, Index;
  }

  lemma EnlistRoles(used: map<Ptr, Span>, p: Pool, t: Tid, q: Ptr)
    requires Roles(used, p.role, p.phase) && t in p.phase && p.phase[t].Carving? && p.phase[t].q == q
    ensures Roles(used, p.role[q := Serving], p.phase[t := Idle])
  {
    hide ClassSpan;
  }

  lemma EnlistCentral(used: map<Ptr, Span>, p: Pool, q: Ptr)
    requires CentralOk(used, p.role, p.central) && q in used && q in p.role && p.role[q] != Serving
    requires used[q].blockSize <= MAX_BYTES && Index(used[q].blockSize) < BUCKETS
    ensures var i := Index(used[q].blockSize); CentralOk(used, p.role[q := Serving], p.central[i := [q] + p.central[i]])
  {
    hide Index;
  }

  // A private span has no blocks on record yet.
  lemma PrivateHasNoBlocks(p: Pool, t: Tid, q: Ptr)
    requires PoolInv(p) && q in p.role && p.role[q] == Private(t)
    ensures q in p.page.spans && forall a :: a in BlocksOf(p.page.spans[q]) ==> a !in p.place
    ensures forall a :: a in p.place ==> p.place[a].at != FreeIn(q)
  {
    hide Listed, MapOk, BlocksOf, CentralOk, CountsOk, ListsOk, ClassSpan, Index;
    var used := Used(p.page.spans);
    UsedSpan(p.page.spans, q);
    forall a | a in BlocksOf(p.page.spans[q]) ensures a !in p.place {
      if a in p.place {
        UsedSpan(p.page.spans, p.place[a].span);
        BlocksApart(p.page, q, p.place[a].span, a);
        assert false;
      }
    }
  }

  lemma EnlistKeeps(p: Pool, t: Tid)
    requires PoolInv(p) && t in p.phase && p.phase[t].Carving?
    ensures CanEnlist(p, t) && PoolInv(Enlist(p, t))
    ensures var q := p.phase[t].q; q in p.role && p.role[q] == Private(t) && BlocksOf(p.page.spans[q]) != []
  {
    hide Inv, CentralOk, CountsOk, ListsOk, PlacesOk, BlocksOf, NoDup, Index, IsClass, NumMovePage, AddSpan, Used;
    var q := p.phase[t].q;
    var used := Used(p.page.spans);
    assert q in used && p.role[q] == Private(t) && ClassSpan(used[q]) && used[q].useCnt == 0;
    hide Roles;
    UsedSpan(p.page.spans, q);
    ClassIndex(used[q].blockSize);
    PrivateHasNoBlocks(p, t, q);
    BlocksNoDup(used[q]);
    IdleHasNone(p, t);
    EnlistLists(p, t, q, BlocksOf(used[q]));
    EnlistPlaces(used, p, t, q);
    EnlistRoles(used, p, t, q);
    assert CentralOk(used, p.role, p.central);
    CentralSize(used, p);
    EnlistCentral(used, p, q);
    EnlistCounts(used, p, q);
    ClassBlocks(used[q]);
  }

  lemma ClassIndex(c: nat)
    requires IsClass(c)
    ensures 8 <= c <= MAX_BYTES && Index(c) < BUCKETS
  {
    RoundUpIsClassOfIndex(c);
  }

  lemma CentralSize(used: map<Ptr, Span>, p: Pool)
    requires CentralOk(used, p.role, p.central)
    ensures |p.central| == BUCKETS
  {
  }

  lemma EnlistCounts(used: map<Ptr, Span>, p: Pool, q: Ptr)
    requires CountsOk(used, p.role, p.free) && q in used && used[q].useCnt == 0
    ensures CountsOk(used, p.role[q := Serving], p.free[q := BlocksOf(used[q])])
  {
    hide BlocksOf;
  }

  // A span for a size class has room for at least one block.
  lemma ClassBlocks(sp: Span)
    requires ClassSpan(sp)
    ensures BlocksOf(sp) != []
  {
    NumMovePageInRange(sp.blockSize);
  }

  // ---------- spans going back ----------

  // releaseList, page lock: the emptied span returns to PageCache.
  ghost predicate CanRevert(p: Pool, t: Tid) {
    t in p.phase && p.phase[t].Reverting? && Revertible(p.page, p.phase[t].q)
  }

  ghost function RevertSpan(p: Pool, t: Tid): Pool
    requires CanRevert(p, t)
  {
    var ph := p.phase[t];
    p.(page := Revert(p.page, ph.q), role := p.role - {ph.q}, phase := p.phase[t := Returning(ph.chain, ph.size)])
  }

  // concurrentFree of a large block of at most 128 pages.
  ghost predicate CanFreeBig(p: Pool, a: Addr) {
    a in p.place && p.place[a].at == Live && p.place[a].span in p.role && p.role[p.place[a].span] == Big
    && Revertible(p.page, p.place[a].span)
  }

  ghost function FreeBig(p: Pool, a: Addr): Pool
    requires CanFreeBig(p, a)
  {
    var q := p.place[a].span;
    p.(page := Revert(p.page, q), role := p.role - {q}, place := p.place - {a})
  }

  lemma LoseBigRoles(used: map<Ptr, Span>, p: Pool, q: Ptr)
    requires Roles(used, p.role, p.phase) && q in p.role && p.role[q] == Big
    ensures Roles(used - {q}, p.role - {q}, p.phase)
  {
    hide ClassSpan;
  }

  lemma LoseEmptiedRoles(used: map<Ptr, Span>, p: Pool, t: Tid, q: Ptr, chain: seq<Addr>, size: nat)
    requires Roles(used, p.role, p.phase) && t in p.phase && p.phase[t].Reverting? && p.phase[t].q == q
    ensures Roles(used - {q}, p.role - {q}, p.phase[t := Returning(chain, size)])
  {
    hide ClassSpan;
  }

  lemma LoseRoleCentral(used: map<Ptr, Span>, p: Pool, q: Ptr)
    requires CentralOk(used, p.role, p.central) && q in p.role && p.role[q] != Serving
    ensures CentralOk(used - {q}, p.role - {q}, p.central)
  {
    hide Index, NoDup;
  }

  lemma LoseRoleCounts(used: map<Ptr, Span>, p: Pool, q: Ptr)
    requires CountsOk(used, p.role, p.free) && q in p.role && p.role[q] != Serving
    ensures CountsOk(used - {q}, p.role - {q}, p.free)
  {
    hide BlocksOf;
  }

  lemma RevertSpanLists(p: Pool, t: Tid)
    requires ListsOk(p.free, p.caches, p.phase, p.place) && t in p.phase && p.phase[t].Reverting?
    ensures ListsOk(p.free, p.caches, p.phase[t := Returning(p.phase[t].chain, p.phase[t].size)], p.place)
  {
    hide ListAt;
  }

  lemma RevertSpanPlaces(used: map<Ptr, Span>, p: Pool, t: Tid, q: Ptr)
    requires PlacesOk(used, p.role, p.phase, p.place) && t in p.phase && p.phase[t].Reverting?
    requires q in p.role && p.role[q].Emptied?
    ensures PlacesOk(used - {q}, p.role - {q}, p.phase[t := Returning(p.phase[t].chain, p.phase[t].size)], p.place)
  {
    hide BlocksOf, Index;
  }

  lemma RevertSpanKeeps(p: Pool, t: Tid)
    requires PoolInv(p) && t in p.phase && p.phase[t].Reverting?
    ensures CanRevert(p, t) && PoolInv(RevertSpan(p, t))
  {
    hide Inv, CentralOk, CountsOk, ListsOk, PlacesOk, BlocksOf, IsClass, NumMovePage, Used, Revert, Reverted;
    var used := Used(p.page.spans);
    var q := p.phase[t].q;
    assert q in used && p.role[q] == Emptied(t) && ClassSpan(used[q]) && used[q].useCnt == 0;
    UsedSpan(p.page.spans, q);
    LoseEmptiedRoles(used, p, t, q, p.phase[t].chain, p.phase[t].size);
    hide Roles;
    RevertKeeps(p.page, q);
    UsedAfterRevert(p.page, Revert(p.page, q), q);
    LoseRoleCentral(used, p, q);
    LoseRoleCounts(used, p, q);
    RevertSpanLists(p, t);
    RevertSpanPlaces(used, p, t, q);
  }

  lemma DropLive(l: seq<Addr>, place: map<Addr, Block>, w: Place, a: Addr)
    requires ListAt(l, place, w) && w != Live && a in place && place[a].at == Live
    ensures ListAt(l, place - {a}, w)
  {
  }

  lemma FreeBigLists(p: Pool, a: Addr)
    requires ListsOk(p.free, p.caches, p.phase, p.place) && a in p.place && p.place[a].at == Live
    ensures ListsOk(p.free, p.caches, p.phase, p.place - {a})
  {
    hide ListAt;
    forall r | r in p.free ensures ListAt(p.free[r], p.place - {a}, FreeIn(r)) {
      DropLive(p.free[r], p.place, FreeIn(r), a);
    }
    forall t, i | t in p.caches && 0 <= i < BUCKETS ensures ListAt(p.caches[t][i], p.place - {a}, InCache(t, i)) {
      DropLive(p.caches[t][i], p.place, InCache(t, i), a);
    }
    forall t | t in p.phase ensures ListAt(ChainOf(p.phase[t]), p.place - {a}, InChain(t)) {
      DropLive(ChainOf(p.phase[t]), p.place, InChain(t), a);
    }
  }

  lemma BigBlock(used: map<Ptr, Span>, p: Pool, a: Addr)
    requires Roles(used, p.role, p.phase) && PlacesOk(used, p.role, p.phase, p.place)
    requires a in p.place && p.role[p.place[a].span] == Big
    ensures var q := p.place[a].span; q in used && a == Base(used[q]) && p.place[a].at == Live
    ensures forall b :: b in p.place && p.place[b].span == p.place[a].span ==> b == a
  {
    var q := p.place[a].span;
    assert BlocksOf(used[q]) == [Base(used[q])];
    hide BlocksOf, Index, Base;
  }

  lemma FreeBigPlaces(used: map<Ptr, Span>, p: Pool, a: Addr, q: Ptr)
    requires PlacesOk(used, p.role, p.phase, p.place) && a in p.place && q == p.place[a].span
    requires forall b :: b in p.place && p.place[b].span == q ==> b == a
    ensures PlacesOk(used - {q}, p.role - {q}, p.phase, p.place - {a})
  {
    hide BlocksOf, Index;
  }

  lemma FreeBigKeeps(p: Pool, a: Addr)
    requires PoolInv(p) && a in p.place && p.role[p.place[a].span] == Big && p.place[a].span in p.page.spans
    requires p.page.spans[p.place[a].span].cnt <= MAX_PAGES
    ensures CanFreeBig(p, a) && PoolInv(FreeBig(p, a))
  {
    hide Inv, CentralOk, CountsOk, ListsOk, PlacesOk, BlocksOf, Used, Revert, Reverted, Base, ClassSpan;
    var used := Used(p.page.spans);
    var q := p.place[a].span;
    BigBlock(used, p, a);
    assert used[q].useCnt == 0 && q in p.role;
    UsedSpan(p.page.spans, q);
    LoseBigRoles(used, p, q);
    hide Roles;
    RevertKeeps(p.page, q);
    UsedAfterRevert(p.page, Revert(p.page, q), q);
    LoseRoleCentral(used, p, q);
    LoseRoleCounts(used, p, q);
    FreeBigLists(p, a);
    FreeBigPlaces(used, p, a, q);
  }

  // ---------- threads ----------

  // concurrentAlloc gives a new thread its cache.
  function Spawn(p: Pool, t: Tid): Pool {
    p.(caches := p.caches[t := seq(BUCKETS, _ => [])], phase := p.phase[t := Idle])
  }

  lemma SpawnRoles(used: map<Ptr, Span>, p: Pool, t: Tid)
    requires Roles(used, p.role, p.phase) && t !in p.phase
    ensures Roles(used, p.role, p.phase[t := Idle])
  {
    hide ClassSpan;
  }

  lemma SpawnPlaces(used: map<Ptr, Span>, p: Pool, t: Tid)
    requires PlacesOk(used, p.role, p.phase, p.place) && t !in p.phase
    ensures PlacesOk(used, p.role, p.phase[t := Idle], p.place)
  {
    hide BlocksOf, Index;
  }

  lemma SpawnKeeps(p: Pool, t: Tid)
    requires PoolInv(p) && t !in p.phase
    ensures PoolInv(Spawn(p, t))
  {
    hide Inv, Roles, CentralOk, CountsOk, ListsOk, PlacesOk, Used;
    var used := Used(p.page.spans);
    SpawnRoles(used, p, t);
    SpawnPlaces(used, p, t);
    SpawnLists(used, p, t);
  }

  lemma SpawnLists(used: map<Ptr, Span>, p: Pool, t: Tid)
    requires ListsOk(p.free, p.caches, p.phase, p.place) && PlacesOk(used, p.role, p.phase, p.place) && t !in p.phase
    ensures ListsOk(p.free, Spawn(p, t).caches, Spawn(p, t).phase, p.place)
  {
    NewThreadHasNone(used, p, t);
    hide ListAt, PlacesOk;
  }

  lemma NewThreadHasNone(used: map<Ptr, Span>, p: Pool, t: Tid)
    requires PlacesOk(used, p.role, p.phase, p.place) && t !in p.phase
    ensures ListAt([], p.place, InChain(t)) && forall i :: 0 <= i < BUCKETS ==> ListAt([], p.place, InCache(t, i))
  {
    hide BlocksOf, Index;
  }

  // releaseList ends when the chain is used up.
  function Done(p: Pool, t: Tid): Pool {
    p.(phase := p.phase[t := Idle])
  }

  lemma DoneKeeps(p: Pool, t: Tid)
    requires PoolInv(p) && t in p.phase && p.phase[t].Returning? && p.phase[t].chain == []
    ensures PoolInv(Done(p, t))
  {
    hide Inv, CentralOk, CountsOk, BlocksOf, Used, ListAt;
    var used := Used(p.page.spans);
    IdleHasNone(p, t);
    PhaseRoles(used, p.role, p.phase, p.phase[t := Idle]);
    hide Roles;
    PhasePlaces(used, p.role, p.phase, p.place, t, Idle);
    hide PlacesOk;
  }

  // ---------- the steps of the program ----------

  /** mapToSpan on a block. */
  ghost function SpanAt(p: Pool, a: Addr): Ptr
    requires PageOf(a) in p.page.hash
  {
    p.page.hash[PageOf(a)]
  }

  /** Every existing block finds its span through the page map, in every reachable state and
      without the lock: the span is in use, and the block is one of its blocks. */
  lemma LookupFindsSpan(p: Pool, a: Addr)
    requires PoolInv(p) && a in p.place
    ensures PageOf(a) in p.page.hash && SpanAt(p, a) == p.place[a].span
    ensures var q := p.place[a].span;
      && q in p.role && q in p.page.spans && p.page.spans[q].used && a in BlocksOf(p.page.spans[q])
      && (p.role[q] == Serving || (p.role[q] == Big && p.place[a].at == Live))
  {
    hide Listed, CentralOk, CountsOk, ListsOk, Index;
    var q := p.place[a].span;
    UsedSpan(p.page.spans, q);
    var sp := p.page.spans[q];
    BlockPage(sp, a);
    assert RoleOk(q, sp, p.role[q], p.phase) && Mapped(p.page.hash, q, sp);
    if sp.blockSize > MAX_BYTES { assert BlocksOf(sp) == [Base(sp)] && PageOf(a) == sp.pageId; }
  }

  // Position of the first span with a free block, |l| when there is none.
  function FirstFree(l: seq<Ptr>, free: map<Ptr, seq<Addr>>): (k: nat)
    ensures k <= |l|
    ensures k < |l| ==> l[k] in free && free[l[k]] != []
    ensures forall j :: 0 <= j < k ==> l[j] in free ==> free[l[j]] == []
  {
    if l == [] then 0 else if l[0] in free && free[l[0]] != [] then 0 else 1 + FirstFree(l[1..], free)
  }

  // fetchRangeObj once a span is found: the first block is handed out, the rest are cached.
  ghost function Fetch(p: Pool, t: Tid, i: nat, q: Ptr, cnt: nat): Pool
    requires q in p.free && p.free[q] != [] && q in p.page.spans && t in p.caches && i < |p.caches[t]|
  {
    var n := FreeLists.Taken(cnt, |p.free[q]|);
    PushCache(TakeSpan(p, q, n), t, i, p.free[q][1..n])
  }

  // The blocks taken from a span suit the cache list of the span's class.
  lemma FetchSuits(p: Pool, t: Tid, i: nat, q: Ptr, n: nat)
    requires PoolInv(p) && q in p.role && p.role[q] == Serving && q in p.free && 1 <= n <= |p.free[q]| && t in p.caches
    requires q in p.page.spans && p.page.spans[q].blockSize <= MAX_BYTES
      && i == Index(p.page.spans[q].blockSize) < BUCKETS
    ensures var p1 := TakeSpan(p, q, n);
      Suits(Used(p1.page.spans), p1.role, p1.phase, p1.place, p.free[q][1..n], InCache(t, i))
  {
    hide PoolInv, BlocksOf, Index, NoDup;
    var p1 := TakeSpan(p, q, n);
    FreeBlocks(p, q);
    InUse(p, q);
    PhaseOfCache(p, t);
    UsedSpan(p1.page.spans, q);
    hide Used;
    forall a | a in p.free[q][1..n] ensures a in p1.place && p1.place[a].span == q { assert a in p.free[q]; }
  }

  lemma FetchKeeps(p: Pool, t: Tid, i: nat, q: Ptr, cnt: nat)
    requires PoolInv(p) && q in p.role && p.role[q] == Serving && q in p.free && p.free[q] != [] && t in p.caches
    requires q in p.page.spans && p.page.spans[q].blockSize <= MAX_BYTES
      && i == Index(p.page.spans[q].blockSize) < BUCKETS
    ensures i < |p.caches[t]| && PoolInv(Fetch(p, t, i, q, cnt))
    ensures var a := p.free[q][0]; a in p.place && p.place[a] == Block(q, FreeIn(q))
    ensures Fetch(p, t, i, q, cnt).place[p.free[q][0]] == Block(q, Live)
  {
    hide PoolInv, PoolOk, Inv, Suits, BlocksOf, Used, Index, NoDup, Move, Bump;
    var n := FreeLists.Taken(cnt, |p.free[q]|);
    var p1 := TakeSpan(p, q, n);
    var u := p.free[q][1..n];
    TakeSpanKeeps(p, q, n);
    FreeBlocks(p, q);
    CacheSize(p, t);
    AfterTake(p, q, n);
    FetchSuits(p, t, i, q, n);
    InvParts(p1);
    PushCacheKeeps(Used(p1.page.spans), p1, t, i, u);
    PartsInv(PushCache(p1, t, i, u));
    KeepsLive(p1, t, i, u, p.free[q][0]);
  }

  lemma PartsInv(p: Pool)
    requires Inv(p.page) && PoolOk(Used(p.page.spans), p)
    ensures PoolInv(p)
  {
  }

  lemma InvParts(p: Pool)
    requires PoolInv(p)
    ensures Inv(p.page) && PoolOk(Used(p.page.spans), p)
  {
  }

  lemma KeepsLive(p: Pool, t: Tid, i: nat, u: seq<Addr>, a: Addr)
    requires t in p.caches && i < |p.caches[t]| && a in p.place && a !in u
    ensures a in PushCache(p, t, i, u).place && PushCache(p, t, i, u).place[a] == p.place[a]
    ensures PushCache(p, t, i, u).page == p.page
  {
  }

  lemma InUse(p: Pool, q: Ptr)
    requires PoolInv(p) && q in p.role
    ensures q in p.page.spans && p.page.spans[q].used
  {
    hide Inv, CentralOk, CountsOk, ListsOk, PlacesOk;
    UsedSpan(p.page.spans, q);
  }

  lemma PhaseOfCache(p: Pool, t: Tid)
    requires PoolInv(p) && t in p.caches
    ensures t in p.phase
  {
  }

  lemma CacheSize(p: Pool, t: Tid)
    requires PoolInv(p) && t in p.caches
    ensures |p.caches[t]| == BUCKETS
  {
  }

  // The free blocks of a span are its own.
  lemma FreeBlocks(p: Pool, q: Ptr)
    requires PoolInv(p) && q in p.free
    ensures NoDup(p.free[q]) && forall a :: a in p.free[q] ==> a in p.place && p.place[a] == Block(q, FreeIn(q))
  {
    hide Inv, Roles, CentralOk, CountsOk, BlocksOf, Index;
    assert ListAt(p.free[q], p.place, FreeIn(q));
  }

  lemma AfterTake(p: Pool, q: Ptr, n: nat)
    requires PoolInv(p) && q in p.free && 1 <= n <= |p.free[q]| && q in p.page.spans
    ensures var u := p.free[q][1..n]; var p1 := TakeSpan(p, q, n);
      AllAt(u, p1.place, Live) && p.free[q][0] !in u && p.free[q][0] in p1.place
        && p1.place[p.free[q][0]] == Block(q, Live)
  {
    hide Inv, PoolOk;
    FreeBlocks(p, q);
    var s := p.free[q];
    assert forall a :: a in s[1..n] ==> a in s[..n];
    assert s[0] in s[..n];
  }

  /** One critical section or one piece of thread-local work of thread t. `cnt` is how many
      blocks a fetch asks for, `e` what the environment supplies. */
  datatype Event =
    | Start(t: Tid)
    | AllocCached(t: Tid, size: nat)                // allocate: the cache list has a block
    | AllocListed(t: Tid, size: nat, cnt: nat)      // fetchRangeObj: a listed span has one
    | AllocSpan(t: Tid, size: nat, e: Supply)       // getOneSpan: PageCache grants a span
    | AllocCarved(t: Tid, cnt: nat)                 // getOneSpan and fetchRangeObj: list it, fetch
    | AllocLarge(t: Tid, size: nat, e: Supply)      // concurrentAlloc above 256 KB
    | FreeSmall(t: Tid, a: Addr)                    // deallocate: push on the cache list
    | FreeLarge(t: Tid, a: Addr)                    // concurrentFree of a span of up to 128 pages
    | ReturnList(t: Tid, i: nat, size: nat)         // revertListToCentralCache
    | ReturnBlock(t: Tid)                           // releaseList, one block under the bucket lock
    | ReturnSpan(t: Tid)                            // releaseList, the page lock section
    | ReturnEnd(t: Tid)

  ghost predicate IsIdle(p: Pool, t: Tid) {
    t in p.phase && p.phase[t] == Idle && t in p.caches && |p.caches[t]| == BUCKETS
  }

  ghost predicate SmallSize(size: nat) {
    1 <= size <= MAX_BYTES && Index(size) < BUCKETS
  }

  ghost predicate CacheEmpty(p: Pool, t: Tid, size: nat) {
    IsIdle(p, t) && SmallSize(size) && |p.central| == BUCKETS && p.caches[t][Index(size)] == []
  }

  ghost predicate IsLive(p: Pool, a: Addr) {
    a in p.place && p.place[a].at == Live
  }

  /** When a step can happen. A caller frees only blocks that are live. */
  ghost predicate Can(p: Pool, ev: Event)
    requires PoolInv(p)
  {
    match ev
    case Start(t) => t !in p.phase
    case AllocCached(t, size) => IsIdle(p, t) && SmallSize(size) && p.caches[t][Index(size)] != []
    case AllocListed(t, size, cnt) =>
      CacheEmpty(p, t, size) && FirstFree(p.central[Index(size)], p.free) < |p.central[Index(size)]|
    case AllocSpan(t, size, e) =>
      // by now other threads may have listed spans that the search did not find
      CacheEmpty(p, t, size) && RoundUp(size) > 0 && SupplyOk(p.page, NumMovePage(RoundUp(size)), e)
    case AllocCarved(t, cnt) => t in p.phase && p.phase[t].Carving?
    case AllocLarge(t, size, e) =>
      // newSpan asserts that it is asked for a page: sizes just below 2^64 round to none
      MAX_BYTES < size < WORD && RoundUp(size) / PAGE_BYTES > 0 && SupplyOk(p.page, RoundUp(size) / PAGE_BYTES, e)
    case FreeSmall(t, a) =>
      IsIdle(p, t) && IsLive(p, a) && PageOf(a) in p.page.hash && SpanAt(p, a) in p.page.spans
      && p.page.spans[SpanAt(p, a)].blockSize <= MAX_BYTES
    case FreeLarge(t, a) =>
      IsLive(p, a) && PageOf(a) in p.page.hash && SpanAt(p, a) in p.page.spans
      && p.page.spans[SpanAt(p, a)].blockSize > MAX_BYTES && p.page.spans[SpanAt(p, a)].cnt <= MAX_PAGES
    case ReturnList(t, i, size) => IsIdle(p, t) && i < BUCKETS && SmallSize(size) && Index(size) == i
    case ReturnBlock(t) => t in p.phase && p.phase[t].Returning? && p.phase[t].chain != []
    case ReturnSpan(t) => t in p.phase && p.phase[t].Reverting?
    case ReturnEnd(t) => t in p.phase && p.phase[t].Returning? && p.phase[t].chain == []
  }

  // The span fetchRangeObj chooses for a size: the first one with a free block.
  ghost function Chosen(p: Pool, size: nat): Ptr
    requires SmallSize(size) && |p.central| == BUCKETS
      && FirstFree(p.central[Index(size)], p.free) < |p.central[Index(size)]|
  {
    p.central[Index(size)][FirstFree(p.central[Index(size)], p.free)]
  }

  lemma ChosenServes(p: Pool, size: nat)
    requires PoolInv(p) && SmallSize(size) && |p.central| == BUCKETS
    requires FirstFree(p.central[Index(size)], p.free) < |p.central[Index(size)]|
    ensures var q := Chosen(p, size);
      && q in p.role && p.role[q] == Serving && q in p.free && p.free[q] != []
      && q in p.page.spans && p.page.spans[q].blockSize == RoundUp(size)
      && p.page.spans[q].blockSize <= MAX_BYTES && Index(p.page.spans[q].blockSize) == Index(size)
  {
    hide Inv, CountsOk, ListsOk, PlacesOk, NoDup;
    var q := Chosen(p, size);
    UsedSpan(p.page.spans, q);
    assert q in p.central[Index(size)];
    ClassOfSpan(p, q, size);
  }

  // Two sizes in one bucket round up to the same class.
  lemma ClassOfSpan(p: Pool, q: Ptr, size: nat)
    requires PoolInv(p) && q in p.role && p.role[q] == Serving && SmallSize(size)
    requires q in Used(p.page.spans) && Used(p.page.spans)[q].blockSize <= MAX_BYTES
    requires Index(Used(p.page.spans)[q].blockSize) == Index(size)
    ensures Used(p.page.spans)[q].blockSize == RoundUp(size)
  {
    hide Inv, CentralOk, CountsOk, ListsOk, PlacesOk, Index;
    assert RoleOk(q, Used(p.page.spans)[q], Serving, p.phase);
    hide Roles, RoundUp;
    IndexSeparatesClasses(Used(p.page.spans)[q].blockSize, size);
    RoundedIsItself(Used(p.page.spans)[q].blockSize);
  }

  lemma RoundedIsItself(c: nat)
    requires IsClass(c)
    ensures RoundUp(c) == c
  {
  }

  // After a block is given back, the span goes private if that was its last one.
  ghost function AfterGiveBack(p: Pool, t: Tid, q: Ptr): Pool
    requires CanRetire(p, t, q) && q in p.page.spans
  {
    if p.page.spans[q].useCnt == 0 then Retire(p, t, q) else p
  }

  lemma ReturnBlockReady(p: Pool, t: Tid)
    requires PoolInv(p) && t in p.phase && p.phase[t].Returning? && p.phase[t].chain != []
    ensures var a := p.phase[t].chain[0];
      && CanGiveBack(p, t) && PageOf(a) in p.page.hash && SpanAt(p, a) == p.place[a].span
      && CanRetire(GiveBack(p, t), t, SpanAt(p, a)) && SpanAt(p, a) in GiveBack(p, t).page.spans
    ensures PoolInv(AfterGiveBack(GiveBack(p, t), t, SpanAt(p, p.phase[t].chain[0])))
  {
    hide Inv, PoolOk, BlocksOf, Used, Index, Bump, Move;
    var a := p.phase[t].chain[0];
    InvParts(p);
    ChainHead(Used(p.page.spans), p, t);
    AllAtHead(p.place, a, InChain(t));
    LookupFindsSpan(p, a);
    var q := SpanAt(p, a);
    GiveBackKeeps(p, t);
    var p1 := GiveBack(p, t);
    GivenBack(p, t);
    ServesClass(p1, q);
    ServesClass(p, q);
    UsedSpan(p.page.spans, q);
    UsedSpan(p1.page.spans, q);
    InvParts(p1);
    CentralSizeOf(p1);
    if p1.page.spans[q].useCnt == 0 {
      assert Used(p1.page.spans)[q] == p1.page.spans[q] && Used(p.page.spans)[q] == p.page.spans[q];
      RetireKeeps(Used(p1.page.spans), p1, t, q);
      PartsInv(Retire(p1, t, q));
    }
  }

  lemma CentralSizeOf(p: Pool)
    requires PoolInv(p)
    ensures |p.central| == BUCKETS
  {
  }

  lemma ServesClass(p: Pool, q: Ptr)
    requires PoolInv(p) && q in p.role && p.role[q] == Serving
    ensures q in p.page.spans && p.page.spans[q].used && ClassSpan(p.page.spans[q])
    ensures 8 <= p.page.spans[q].blockSize <= MAX_BYTES && Index(p.page.spans[q].blockSize) < BUCKETS
  {
    hide Inv, CentralOk, CountsOk, ListsOk, PlacesOk;
    UsedSpan(p.page.spans, q);
    ClassIndex(Used(p.page.spans)[q].blockSize);
  }

  // What giving a block back leaves alone.
  lemma GivenBack(p: Pool, t: Tid)
    requires CanGiveBack(p, t)
    ensures var p1 := GiveBack(p, t); var q := p.place[p.phase[t].chain[0]].span;
      && p1.role == p.role && p1.central == p.central && t in p1.phase
      && p1.phase[t] == Returning(p.phase[t].chain[1..], p.phase[t].size)
      && q in p1.page.spans && p1.page.spans[q] == p.page.spans[q].(useCnt := p.page.spans[q].useCnt - 1)
  {
  }

  lemma CachedKeeps(p: Pool, t: Tid, size: nat)
    requires PoolInv(p) && Can(p, AllocCached(t, size))
    ensures PoolInv(PopCache(p, t, Index(size), 1))
  {
    hide PoolInv, PoolOk, Inv, Index;
    InvParts(p);
    PopCacheKeeps(Used(p.page.spans), p, t, Index(size), 1);
    PartsInv(PopCache(p, t, Index(size), 1));
  }

  lemma CarvedReady(p: Pool, t: Tid, cnt: nat)
    requires PoolInv(p) && Can(p, AllocCarved(t, cnt))
    ensures CanEnlist(p, t)
    ensures var q, p1 := p.phase[t].q, Enlist(p, t);
      && PoolInv(p1) && q in p1.role && p1.role[q] == Serving && q in p1.free && p1.free[q] != []
      && q in p1.page.spans && t in p1.caches
      && p1.page.spans[q].blockSize == p.phase[t].size && Index(p.phase[t].size) < BUCKETS
        && Index(p.phase[t].size) < |p1.caches[t]|
  {
    hide Inv, CentralOk, CountsOk, PlacesOk, ListAt, Index, BlocksOf;
    EnlistKeeps(p, t);
    var q := p.phase[t].q;
    UsedSpan(p.page.spans, q);
    hide Used;
    PrivateSize(p, t);
  }

  lemma PrivateSize(p: Pool, t: Tid)
    requires PoolInv(p) && t in p.phase && p.phase[t].Carving?
    ensures var q := p.phase[t].q;
      q in p.page.spans && p.page.spans[q].blockSize == p.phase[t].size && IsClass(p.phase[t].size)
    ensures p.phase[t].size <= MAX_BYTES && Index(p.phase[t].size) < BUCKETS
  {
    hide Inv, CentralOk, CountsOk, PlacesOk, ListsOk, Index, IsClass;
    UsedSpan(p.page.spans, p.phase[t].q);
    ClassIndex(p.phase[t].size);
  }

  lemma SpanReady(p: Pool, t: Tid, size: nat, e: Supply)
    requires PoolInv(p) && Can(p, AllocSpan(t, size, e))
    ensures var c := RoundUp(size); c > 0 && IsClass(c) && 1 <= NumMovePage(c) && Searchable(p.page.spans, p.page.lists)
    ensures FreshSpans(p.page, NumMovePage(RoundUp(size)), e) && PoolInv(Obtain(p, t, RoundUp(size), e))
  {
    hide SupplyOk, FreshSpans, Searchable, PoolInv, RoundUp, Index, NumMovePage, FirstFree;
    RoundUpIsLeastClass(size, size);
    ObtainKeeps(p, t, RoundUp(size), e);
  }

  // The cache list that a freed block goes on.
  lemma FreeSmallList(p: Pool, t: Tid, a: Addr, q: Ptr)
    requires PageOf(a) in p.page.hash && q == SpanAt(p, a) && q in p.page.spans && t in p.caches
    requires PoolInv(p) && Can(p, FreeSmall(t, a))
    ensures SmallSize(p.page.spans[q].blockSize)
    ensures q in p.role && p.role[q] == Serving
  {
    hide PoolInv, Index, BlocksOf;
    LookupFindsSpan(p, a);
    NotBig(p, q);
    ServesClass(p, q);
  }

  lemma FreeSmallReady(p: Pool, t: Tid, a: Addr, q: Ptr, i: nat)
    requires PageOf(a) in p.page.hash && q == SpanAt(p, a) && q in p.page.spans
    requires SmallSize(p.page.spans[q].blockSize) && i == Index(p.page.spans[q].blockSize)
    requires t in p.caches && i < |p.caches[t]|
    requires PoolInv(p) && Can(p, FreeSmall(t, a))
    ensures PoolInv(PushCache(p, t, i, [a]))
  {
    hide PoolInv, PoolOk, Inv, Index, BlocksOf;
    FreeSmallList(p, t, a, q);
    LookupFindsSpan(p, a);
    UsedSpan(p.page.spans, q);
    InvParts(p);
    PhaseOfCache(p, t);
    assert Suits(Used(p.page.spans), p.role, p.phase, p.place, [a], InCache(t, i));
    hide PushCache, Suits, Used;
    PushCacheKeeps(Used(p.page.spans), p, t, i, [a]);
    PushFrame(p, t, i, [a]);
    PartsInv(PushCache(p, t, i, [a]));
  }

  lemma PushFrame(p: Pool, t: Tid, i: nat, u: seq<Addr>)
    requires t in p.caches && i < |p.caches[t]|
    ensures PushCache(p, t, i, u).page == p.page
  {
  }

  lemma NotBig(p: Pool, q: Ptr)
    requires PoolInv(p) && q in p.role && q in p.page.spans && p.page.spans[q].used
      && p.page.spans[q].blockSize <= MAX_BYTES
    ensures p.role[q] != Big
  {
    hide Inv, CentralOk, CountsOk, PlacesOk, ListsOk;
    UsedSpan(p.page.spans, q);
  }

  lemma FreeLargeReady(p: Pool, t: Tid, a: Addr)
    requires PoolInv(p) && Can(p, FreeLarge(t, a))
    ensures CanFreeBig(p, a) && PoolInv(FreeBig(p, a))
  {
    hide PoolInv, PoolOk, Inv, Index, BlocksOf;
    LookupFindsSpan(p, a);
    var q := SpanAt(p, a);
    if p.role[q] == Serving { ServesClass(p, q); }
    FreeBigKeeps(p, a);
  }

  lemma ReturnListReady(p: Pool, t: Tid, i: nat, size: nat)
    requires PoolInv(p) && Can(p, ReturnList(t, i, size))
    ensures PoolInv(Detach(p, t, i, size))
  {
    hide PoolInv, PoolOk, Inv, Index;
    InvParts(p);
    DetachKeeps(Used(p.page.spans), p, t, i, size);
    PartsInv(Detach(p, t, i, size));
  }

  ghost function DoAllocListed(p: Pool, t: Tid, size: nat, cnt: nat): Pool
    requires PoolInv(p) && Can(p, AllocListed(t, size, cnt))
  {
    hide PoolInv, Index;
    ChosenServes(p, size);
    Fetch(p, t, Index(size), Chosen(p, size), cnt)
  }

  ghost function DoAllocSpan(p: Pool, t: Tid, size: nat, e: Supply): Pool
    requires PoolInv(p) && Can(p, AllocSpan(t, size, e))
  {
    hide SupplyOk, FreshSpans, Searchable, PoolInv, Index, RoundUp;
    SpanReady(p, t, size, e);
    Obtain(p, t, RoundUp(size), e)
  }

  ghost function DoAllocCarved(p: Pool, t: Tid, cnt: nat): Pool
    requires PoolInv(p) && Can(p, AllocCarved(t, cnt))
  {
    hide PoolInv, Index;
    PrivateSize(p, t);
    CarvedReady(p, t, cnt);
    Fetch(Enlist(p, t), t, Index(p.phase[t].size), p.phase[t].q, cnt)
  }

  ghost function DoAllocLarge(p: Pool, t: Tid, size: nat, e: Supply): Pool
    requires PoolInv(p) && Can(p, AllocLarge(t, size, e))
  {
    hide SupplyOk, FreshSpans, Searchable, PoolInv, RoundUp;
    ObtainBigKeeps(p, size, e);
    ObtainBig(p, size, e)
  }

  lemma FreeSmallTo(p: Pool, t: Tid, a: Addr)
    requires PoolInv(p) && Can(p, FreeSmall(t, a))
    ensures PageOf(a) in p.page.hash && SpanAt(p, a) in p.page.spans && t in p.caches
    ensures p.page.spans[SpanAt(p, a)].blockSize <= MAX_BYTES
      && Index(p.page.spans[SpanAt(p, a)].blockSize) < |p.caches[t]|
  {
    hide PoolInv, Index;
    FreeSmallList(p, t, a, SpanAt(p, a));
  }

  ghost function DoFreeSmall(p: Pool, t: Tid, a: Addr): Pool
    requires PoolInv(p) && Can(p, FreeSmall(t, a))
  {
    hide PoolInv, Can, Index;
    FreeSmallTo(p, t, a);
    PushCache(p, t, Index(p.page.spans[SpanAt(p, a)].blockSize), [a])
  }

  ghost function DoFreeLarge(p: Pool, t: Tid, a: Addr): Pool
    requires PoolInv(p) && Can(p, FreeLarge(t, a))
  {
    hide PoolInv;
    FreeLargeReady(p, t, a);
    FreeBig(p, a)
  }

  ghost function DoReturnBlock(p: Pool, t: Tid): Pool
    requires PoolInv(p) && Can(p, ReturnBlock(t))
  {
    hide PoolInv;
    ReturnBlockReady(p, t);
    AfterGiveBack(GiveBack(p, t), t, SpanAt(p, p.phase[t].chain[0]))
  }

  ghost function DoReturnSpan(p: Pool, t: Tid): Pool
    requires PoolInv(p) && Can(p, ReturnSpan(t))
  {
    hide PoolInv;
    RevertSpanKeeps(p, t);
    RevertSpan(p, t)
  }

  ghost function Next(p: Pool, ev: Event): Pool
    requires PoolInv(p) && Can(p, ev)
  {
    match ev
    case Start(t) => Spawn(p, t)
    case AllocCached(t, size) => PopCache(p, t, Index(size), 1)
    case AllocListed(t, size, cnt) => DoAllocListed(p, t, size, cnt)
    case AllocSpan(t, size, e) => DoAllocSpan(p, t, size, e)
    case AllocCarved(t, cnt) => DoAllocCarved(p, t, cnt)
    case AllocLarge(t, size, e) => DoAllocLarge(p, t, size, e)
    case FreeSmall(t, a) => DoFreeSmall(p, t, a)
    case FreeLarge(t, a) => DoFreeLarge(p, t, a)
    case ReturnList(t, i, size) => Detach(p, t, i, size)
    case ReturnBlock(t) => DoReturnBlock(p, t)
    case ReturnSpan(t) => DoReturnSpan(p, t)
    case ReturnEnd(t) => Done(p, t)
  }

  /** Every step of every thread keeps the invariant of the whole pool. */
  lemma StepKeeps(p: Pool, ev: Event)
    requires PoolInv(p) && Can(p, ev)
    ensures PoolInv(Next(p, ev))
  {
    hide PoolInv, Index, RoundUp, Inv, NoDup;
    match ev
    case Start(t) => SpawnKeeps(p, t);
    case AllocCached(t, size) => CachedKeeps(p, t, size);
    case AllocListed(t, size, cnt) => ChosenServes(p, size); FetchKeeps(p, t, Index(size), Chosen(p, size), cnt);
    case AllocSpan(t, size, e) => SpanReady(p, t, size, e);
    case AllocCarved(t, cnt) =>
      CarvedReady(p, t, cnt);
      FetchKeeps(Enlist(p, t), t, Index(p.phase[t].size), p.phase[t].q, cnt);
    case AllocLarge(t, size, e) => ObtainBigKeeps(p, size, e);
    case FreeSmall(t, a) =>
      FreeSmallList(p, t, a, SpanAt(p, a));
      FreeSmallReady(p, t, a, SpanAt(p, a), Index(p.page.spans[SpanAt(p, a)].blockSize));
    case FreeLarge(t, a) => FreeLargeReady(p, t, a);
    case ReturnList(t, i, size) => ReturnListReady(p, t, i, size);
    case ReturnBlock(t) => ReturnBlockReady(p, t);
    case ReturnSpan(t) => RevertSpanKeeps(p, t);
    case ReturnEnd(t) => DoneKeeps(p, t);
  }

  /** p' follows from p by the events in evs: one interleaving of all threads. */
  ghost predicate Interleaves(p: Pool, evs: seq<Event>, p': Pool)
    requires PoolInv(p)
    decreases |evs|
  {
    if evs == [] then p' == p
    else Can(p, evs[0]) && (StepKeeps(p, evs[0]); Interleaves(Next(p, evs[0]), evs[1..], p'))
  }

  /** The invariant of the whole pool holds after every interleaving. */
  lemma {:induction false} EveryInterleaving(p: Pool, evs: seq<Event>, p': Pool)
    requires PoolInv(p) && Interleaves(p, evs, p')
    ensures PoolInv(p')
    decreases |evs|
  {
    if evs != [] {
      StepKeeps(p, evs[0]);
      EveryInterleaving(Next(p, evs[0]), evs[1..], p');
    }
  }
}
