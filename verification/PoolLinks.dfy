/**
 The words of memory that the pool's steps write. The free lists of MemoryPool are sequences; in
 the program each is threaded through the first words of its blocks, and a span is carved word by
 word while no lock is held. Every step leaves every list of every span, thread cache and chain
 in transit threaded, and every carving where it was.
 */
module PoolLinks {
  import opened SizeClasses
  import opened PageModel
  import opened Blocks
  import opened MemoryPool
  import opened PoolTheorems
  import opened PoolSpans
  import FreeLists

  // ---------- the lists ----------

  /** The list of blocks kept at a place. */
  function Listing(p: Pool, w: Place): seq<Addr> {
    match w
    case FreeIn(q) => if q in p.free then p.free[q] else []
    case InCache(t, i) => if t in p.caches && i < |p.caches[t]| then p.caches[t][i] else []
    case InChain(t) =>
      if t in p.phase && (p.phase[t].Returning? || p.phase[t].Reverting?) then p.phase[t].chain else []
    case Live => []
  }

  /** Each list is a null-terminated chain through the link words of its blocks. */
  ghost predicate Threaded(p: Pool, m: Words) {
    forall w: Place :: Chain(m, Head(Listing(p, w)), Listing(p, w))
  }

  // No block is at the null address.
  ghost predicate NonNull(p: Pool) {
    0 !in p.page.owner
  }

  ghost predicate ListInv(p: Pool, m: Words) {
    PoolInv(p) && NonNull(p) && Threaded(p, m)
  }

  lemma ListedAtPlace(p: Pool, w: Place, b: Addr)
    requires PoolInv(p) && b in Listing(p, w)
    ensures b in p.place && p.place[b].at == w && NoDup(Listing(p, w)) && w != Live
  {
    hide Inv, Roles, CentralOk, CountsOk, PlacesOk, NoDup;
  }

  lemma ListingNoDup(p: Pool, w: Place)
    requires PoolInv(p)
    ensures NoDup(Listing(p, w))
  {
    hide Inv, Roles, CentralOk, CountsOk, PlacesOk;
  }

  lemma BlockNonNull(p: Pool, b: Addr)
    requires PoolInv(p) && NonNull(p) && b in p.place
    ensures b != 0
  {
    hide PoolOk, Listed, MapOk, BlocksOf;
    LookupFindsSpan(p, b);
    BlockPage(p.page.spans[p.place[b].span], b);
    assert p.page.owner[PageOf(b)] == p.place[b].span;
  }

  // A list that no written word belongs to.
  lemma Unwritten(p: Pool, w: Place, m: Words, b: Addr, v: Addr)
    requires PoolInv(p) && Chain(m, Head(Listing(p, w)), Listing(p, w)) && (b in p.place ==> p.place[b].at != w)
    ensures Chain(m[b := v], Head(Listing(p, w)), Listing(p, w))
  {
    hide PoolInv, Chain, Listing;
    if b in Listing(p, w) { ListedAtPlace(p, w, b); }
    ChainFrame(m, Head(Listing(p, w)), Listing(p, w), b, v);
  }

  lemma ChainTail(m: Words, s: seq<Addr>)
    requires s != [] && Chain(m, Head(s), s)
    ensures Chain(m, Head(s[1..]), s[1..])
  {
  }

  lemma ChainHeadIs(m: Words, h: Addr, s: seq<Addr>)
    requires Chain(m, h, s)
    ensures h == Head(s)
  {
  }

  // ---------- spans being carved ----------

  /** The blocks of the span that a thread is carving. */
  ghost function PrivateBlocks(p: Pool, t: Tid): seq<Addr> {
    if t in p.phase && p.phase[t].Carving? && p.phase[t].q in p.page.spans then BlocksOf(p.page.spans[p.phase[t].q])
    else []
  }

  /** The cache list that a thread is getting blocks for: empty until it has them. */
  ghost function FetchList(p: Pool, t: Tid): seq<Addr> {
    if t in p.phase && p.phase[t].Carving? && p.phase[t].size <= MAX_BYTES
    then Listing(p, InCache(t, Index(p.phase[t].size))) else []
  }

  // The carving loop: each block points to the next, the last one to null.
  function LinkAfter(s: seq<Addr>, k: nat): Addr
    requires k < |s|
  {
    if k + 1 < |s| then s[k + 1] else 0
  }

  /** The carving loop has written the link words of the first n blocks. */
  ghost predicate LinkedTo(m: Words, s: seq<Addr>, n: nat) {
    n <= |s| && forall j :: 0 <= j < n ==> Word(m, s[j]) == LinkAfter(s, j)
  }

  lemma PrivateSpan(p: Pool, t: Tid)
    requires PoolInv(p) && t in p.phase && p.phase[t].Carving?
    ensures var q := p.phase[t].q;
      && q in p.role && p.role[q] == Private(t) && q in p.page.spans && p.page.spans[q].used
      && ClassSpan(p.page.spans[q]) && PrivateBlocks(p, t) == BlocksOf(p.page.spans[q])
  {
    hide Inv, CentralOk, CountsOk, ListsOk, PlacesOk, BlocksOf;
    UsedSpan(p.page.spans, p.phase[t].q);
  }

  lemma PrivateNonEmpty(p: Pool, t: Tid)
    requires PoolInv(p) && t in p.phase && p.phase[t].Carving?
    ensures PrivateBlocks(p, t) != []
  {
    hide PoolInv, BlocksOf, ClassSpan;
    PrivateSpan(p, t);
    ClassBlocks(p.page.spans[p.phase[t].q]);
  }

  /** The blocks of a span being carved are apart from all blocks on record and from those of
      every other span being carved. */
  lemma PrivateApart(p: Pool, t: Tid, b: Addr)
    requires PoolInv(p) && b in PrivateBlocks(p, t)
    ensures b !in p.place && forall u :: b in PrivateBlocks(p, u) ==> u == t
  {
    hide PoolInv, BlocksOf, Inv, ClassSpan;
    PrivateSpan(p, t);
    PrivateHasNoBlocks(p, t, p.phase[t].q);
    forall u | b in PrivateBlocks(p, u) ensures u == t {
      PrivateSpan(p, u);
      SpansApart(p, p.phase[t].q, p.phase[u].q, b);
    }
  }

  lemma SpansApart(p: Pool, q: Ptr, r: Ptr, b: Addr)
    requires PoolInv(p) && q in p.page.spans && r in p.page.spans
    requires b in BlocksOf(p.page.spans[q]) && b in BlocksOf(p.page.spans[r])
    ensures q == r
  {
    hide PoolOk, Listed, MapOk, BlocksOf;
    BlocksApart(p.page, q, r, b);
  }

  lemma PrivateNonNull(p: Pool, t: Tid, b: Addr)
    requires PoolInv(p) && NonNull(p) && b in PrivateBlocks(p, t)
    ensures b != 0
  {
    hide PoolInv, BlocksOf, ClassSpan;
    PrivateSpan(p, t);
    SpanBlockPage(p, p.phase[t].q, b);
  }

  lemma SpanBlockPage(p: Pool, q: Ptr, b: Addr)
    requires PoolInv(p) && q in p.page.spans && b in BlocksOf(p.page.spans[q])
    ensures PageOf(b) in p.page.owner && p.page.owner[PageOf(b)] == q
  {
    hide PoolOk, Listed, MapOk, BlocksOf;
    BlockPage(p.page.spans[q], b);
  }

  // ---------- the writes of each step ----------

  // fetchRangeObj ends the part of the list that it hands out.
  function Ended(m: Words, s: seq<Addr>, n: nat): Words
    requires 1 <= n <= |s|
  {
    m[s[n - 1] := 0]
  }

  ghost function ListedWrites(p: Pool, t: Tid, size: nat, cnt: nat, m: Words): Words
    requires PoolInv(p) && Can(p, AllocListed(t, size, cnt))
  {
    hide PoolInv, Index;
    ChosenServes(p, size);
    var s := p.free[Chosen(p, size)];
    Ended(m, s, FreeLists.Taken(cnt, |s|))
  }

  ghost function CarvedWrites(p: Pool, t: Tid, cnt: nat, m: Words): Words
    requires PoolInv(p) && t in p.phase && p.phase[t].Carving?
  {
    hide PoolInv, PrivateBlocks;
    PrivateNonEmpty(p, t);
    var s := PrivateBlocks(p, t);
    Ended(m, s, FreeLists.Taken(cnt, |s|))
  }

  ghost function FreedWrites(p: Pool, t: Tid, a: Addr, m: Words): Words
    requires PoolInv(p) && Can(p, FreeSmall(t, a))
  {
    hide PoolInv, Can, Index;
    FreeSmallTo(p, t, a);
    m[a := Head(p.caches[t][Index(p.page.spans[SpanAt(p, a)].blockSize)])]
  }

  ghost function ReturnedWrites(p: Pool, t: Tid, m: Words): Words
    requires PoolInv(p) && Can(p, ReturnBlock(t))
  {
    hide PoolInv, GiveBack, CanRetire;
    ReturnBlockReady(p, t);
    m[p.phase[t].chain[0] := Head(p.free[SpanAt(p, p.phase[t].chain[0])])]
  }

  /** The words that a step of the pool writes. */
  ghost function Writes(p: Pool, ev: Event, m: Words): Words
    requires PoolInv(p) && Can(p, ev)
  {
    match ev
    case AllocListed(t, size, cnt) => ListedWrites(p, t, size, cnt, m)
    case AllocCarved(t, cnt) => CarvedWrites(p, t, cnt, m)
    case FreeSmall(t, a) => FreedWrites(p, t, a, m)
    case ReturnBlock(t) => ReturnedWrites(p, t, m)
    case _ => m
  }

  // ---------- fetching ----------

  lemma FetchListing(p: Pool, t: Tid, i: nat, q: Ptr, cnt: nat, w: Place)
    requires q in p.free && p.free[q] != [] && q in p.page.spans && t in p.caches && i < |p.caches[t]|
    ensures var n := FreeLists.Taken(cnt, |p.free[q]|);
      Listing(Fetch(p, t, i, q, cnt), w) ==
        if w == FreeIn(q) then p.free[q][n..]
        else if w == InCache(t, i) then p.free[q][1..n] + p.caches[t][i]
        else Listing(p, w)
  {
    hide Move;
  }

  // The first n blocks of s are cut off; the first of them is handed out, the others stay linked.
  lemma TakeChains(m: Words, s: seq<Addr>, n: nat)
    requires 1 <= n <= |s| && NoDup(s) && Chain(m, Head(s), s)
    ensures var m' := Ended(m, s, n);
      && Chain(m', Head(s[n..]), s[n..]) && Chain(m', Head(s[1..n]), s[1..n])
      && (n > 1 ==> Word(m', s[0]) == s[1])
  {
    var last := s[n - 1];
    var u, rest := s[..n], s[n..];
    assert s == u + rest && u[|u| - 1] == last;
    SecondWord(m, s);
    assert n > 1 ==> s[0] != last;
    hide Chain, NoDup;
    TakenApart(s, n);
    Relink(m, Head(s), u, rest, 0, []) by { NoneChained(m, u); }
    assert u + [] == u && u[1..] == s[1..n] && Head(s) == Head(u);
    ChainTail(Ended(m, s, n), u);
    ChainHeadIs(m, Word(m, last), rest);
    ChainFrame(m, Head(rest), rest, last, 0);
  }

  lemma SecondWord(m: Words, s: seq<Addr>)
    requires s != [] && Chain(m, Head(s), s)
    ensures |s| > 1 ==> Word(m, s[0]) == s[1]
  {
  }

  lemma NoneChained(m: Words, u: seq<Addr>)
    ensures Chain(m, 0, []) && Disjoint(u, [])
  {
  }

  lemma TakenApart(s: seq<Addr>, n: nat)
    requires 1 <= n <= |s| && NoDup(s)
    ensures s[n - 1] !in s[n..]
  {
  }

  // Lists kept at different places have no block in common.
  lemma PlacesDisjoint(p: Pool, w: Place, w': Place)
    requires PoolInv(p) && w != w'
    ensures Disjoint(Listing(p, w), Listing(p, w'))
  {
    hide PoolInv, Listing;
    forall a | a in Listing(p, w) ensures a !in Listing(p, w') {
      ListedAtPlace(p, w, a);
      if a in Listing(p, w') { ListedAtPlace(p, w', a); }
    }
  }

  // A fetch goes to a cache list that is empty.
  lemma FetchThreads(p: Pool, m: Words, t: Tid, i: nat, q: Ptr, cnt: nat)
    requires PoolInv(p) && Threaded(p, m)
    requires q in p.free && p.free[q] != [] && q in p.page.spans && t in p.caches && i < |p.caches[t]|
    requires p.caches[t][i] == []
    ensures var s := p.free[q]; Threaded(Fetch(p, t, i, q, cnt), Ended(m, s, FreeLists.Taken(cnt, |s|)))
  {
    hide PoolInv, Fetch, Chain, NoDup;
    var s := p.free[q];
    var n := FreeLists.Taken(cnt, |s|);
    var m', p' := Ended(m, s, n), Fetch(p, t, i, q, cnt);
    assert Listing(p, FreeIn(q)) == s;
    ListingNoDup(p, FreeIn(q));
    TakeChains(m, s, n);
    assert s[n - 1] in s && s[1..n] + [] == s[1..n];
    ListedAtPlace(p, FreeIn(q), s[n - 1]);
    forall w: Place ensures Chain(m', Head(Listing(p', w)), Listing(p', w)) {
      FetchListing(p, t, i, q, cnt, w);
      if w != FreeIn(q) && w != InCache(t, i) { Unwritten(p, w, m, s[n - 1], 0); }
    }
  }

  // ---------- carving ----------

  lemma EnlistListing(p: Pool, t: Tid, w: Place)
    requires CanEnlist(p, t)
    ensures var q := p.phase[t].q;
      Listing(Enlist(p, t), w) == if w == FreeIn(q) then BlocksOf(p.page.spans[q]) else Listing(p, w)
  {
    hide BlocksOf, Index, AddSpan;
  }

  /** A span whose blocks are all linked is listed. */
  lemma EnlistThreads(p: Pool, m: Words, t: Tid)
    requires ListInv(p, m) && t in p.phase && p.phase[t].Carving? && CanEnlist(p, t)
    requires LinkedTo(m, PrivateBlocks(p, t), |PrivateBlocks(p, t)|)
    ensures Threaded(Enlist(p, t), m)
  {
    hide PoolInv, CanEnlist, Enlist, Chain, LinkedTo;
    CompleteChain(p, m, t);
    forall w: Place ensures Chain(m, Head(Listing(Enlist(p, t), w)), Listing(Enlist(p, t), w)) {
      EnlistListing(p, t, w);
      assert Chain(m, Head(Listing(p, w)), Listing(p, w));
      PrivateSpan(p, t);
    }
  }

  lemma EnlistCaches(p: Pool, t: Tid)
    requires CanEnlist(p, t)
    ensures Enlist(p, t).caches == p.caches
  {
  }

  lemma CompleteChain(p: Pool, m: Words, t: Tid)
    requires PoolInv(p) && NonNull(p) && t in p.phase && p.phase[t].Carving?
    requires LinkedTo(m, PrivateBlocks(p, t), |PrivateBlocks(p, t)|)
    ensures Chain(m, Head(PrivateBlocks(p, t)), PrivateBlocks(p, t))
  {
    hide PoolInv, NonNull, PrivateBlocks;
    var s := PrivateBlocks(p, t);
    if s != [] {
      forall a | a in s ensures a != 0 { PrivateNonNull(p, t, a); }
      FreeLists.LinksMakeChain(m, s);
    }
  }

  // ---------- pushing, popping, detaching ----------

  // A list loses its first block.
  lemma PopThreads(p: Pool, m: Words, t: Tid, i: nat)
    requires Threaded(p, m) && t in p.caches && i < |p.caches[t]| && p.caches[t][i] != []
    ensures Threaded(PopCache(p, t, i, 1), m)
  {
    hide Chain, Move;
    var p' := PopCache(p, t, i, 1);
    forall w: Place ensures Chain(m, Head(Listing(p', w)), Listing(p', w)) {
      assert Chain(m, Head(Listing(p, w)), Listing(p, w));
      if w == InCache(t, i) { ChainTail(m, p.caches[t][i]); }
    }
  }

  // A block that is on no list goes to the front of one.
  lemma PushThreads(p: Pool, m: Words, t: Tid, i: nat, a: Addr)
    requires ListInv(p, m) && t in p.caches && i < |p.caches[t]| && a in p.place && p.place[a].at == Live
    ensures Threaded(PushCache(p, t, i, [a]), m[a := Head(p.caches[t][i])])
  {
    hide PoolInv, Chain, Move;
    var p', l := PushCache(p, t, i, [a]), p.caches[t][i];
    var m' := m[a := Head(l)];
    assert Listing(p, InCache(t, i)) == l;
    BlockNonNull(p, a);
    forall w: Place ensures Chain(m', Head(Listing(p', w)), Listing(p', w)) {
      assert Chain(m, Head(Listing(p, w)), Listing(p, w));
      if w == InCache(t, i) {
        if a in l { ListedAtPlace(p, w, a); }
        PushChain(m, Head(l), l, a);
      } else if w == Live {
        NothingLive(p', m');
      } else {
        assert Listing(p', w) == Listing(p, w);
        Unwritten(p, w, m, a, Head(l));
      }
    }
  }

  lemma NothingLive(p: Pool, m: Words)
    ensures Chain(m, Head(Listing(p, Live)), Listing(p, Live))
  {
  }

  lemma DetachThreads(p: Pool, m: Words, t: Tid, i: nat, size: nat)
    requires Threaded(p, m) && t in p.caches && i < |p.caches[t]| && t in p.phase && p.phase[t] == Idle
    ensures Threaded(MemoryPool.Detach(p, t, i, size), m)
  {
    hide Chain, Move;
    var p' := MemoryPool.Detach(p, t, i, size);
    forall w: Place ensures Chain(m, Head(Listing(p', w)), Listing(p', w)) {
      assert Chain(m, Head(Listing(p, w)), Listing(p, w));
      assert Chain(m, Head(Listing(p, InCache(t, i))), Listing(p, InCache(t, i)));
      if w == InCache(t, i) { NothingLive(p, m); }
    }
  }

  // The first block of a chain goes home.
  lemma GiveBackThreads(p: Pool, m: Words, t: Tid, a: Addr, q: Ptr)
    requires ListInv(p, m) && CanGiveBack(p, t)
    requires a == p.phase[t].chain[0] && a in p.place && q == p.place[a].span && q in p.free
    requires p.place[a].at == InChain(t)
    ensures Threaded(GiveBack(p, t), m[a := Head(p.free[q])])
  {
    hide PoolInv, Chain, Move, Bump;
    var p', l := GiveBack(p, t), p.free[q];
    var m' := m[a := Head(l)];
    var chain := p.phase[t].chain;
    assert Listing(p, FreeIn(q)) == l && Listing(p, InChain(t)) == chain;
    BlockNonNull(p, a);
    forall w: Place ensures Chain(m', Head(Listing(p', w)), Listing(p', w)) {
      assert Chain(m, Head(Listing(p, w)), Listing(p, w));
      if w == FreeIn(q) {
        if a in l { ListedAtPlace(p, w, a); }
        PushChain(m, Head(l), l, a);
      } else if w == InChain(t) {
        ListingNoDup(p, w);
        HeadNotInTail(chain);
        ChainTail(m, chain);
        ChainFrame(m, Head(chain[1..]), chain[1..], a, Head(l));
      } else {
        assert Listing(p', w) == Listing(p, w);
        Unwritten(p, w, m, a, Head(l));
      }
    }
  }

  lemma HeadNotInTail(s: seq<Addr>)
    requires s != [] && NoDup(s)
    ensures s[0] !in s[1..]
  {
  }

  // The free list of an emptied span is dropped.
  lemma RetireThreads(p: Pool, m: Words, t: Tid, q: Ptr)
    requires Threaded(p, m) && CanRetire(p, t, q)
    ensures Threaded(Retire(p, t, q), m)
  {
    hide Chain, Index, DropSpan;
    var p' := Retire(p, t, q);
    forall w: Place ensures Chain(m, Head(Listing(p', w)), Listing(p', w)) {
      assert Chain(m, Head(Listing(p, w)), Listing(p, w));
      if w == FreeIn(q) { NothingLive(p, m); }
    }
  }

  // A step that changes no list.
  lemma SameThreads(p: Pool, p': Pool, m: Words)
    requires Threaded(p, m) && p'.free == p.free
    requires forall w: Place :: Listing(p', w) == Listing(p, w)
    ensures Threaded(p', m)
  {
    hide Chain;
    forall w: Place ensures Chain(m, Head(Listing(p', w)), Listing(p', w)) {
      assert Chain(m, Head(Listing(p, w)), Listing(p, w));
    }
  }

  // ---------- the page at address zero ----------

  /** The system does not hand out the null page. */
  ghost predicate RealPages(ev: Event) {
    (ev.AllocSpan? || ev.AllocLarge?) ==> ev.e.base > 0
  }

  lemma GrantNonNull(s: State, t: State, q: Ptr, n: nat, size: nat, e: Supply)
    requires Granted(s, t, q, n, size, e) && 0 !in s.owner && e.base > 0
    ensures 0 !in t.owner
  {
    hide NewlyUsed, Untouched;
  }

  lemma RevertNonNull(s: State, q: Ptr)
    requires Revertible(s, q) && 0 !in s.owner
    ensures 0 !in Revert(s, q).owner
  {
    hide Revertible, Revert, OnlyAbsorbed, Untouched, Maximal;
    RevertKeeps(s, q);
  }

  lemma PageZeroStays(p: Pool, ev: Event)
    requires PoolInv(p) && Can(p, ev) && NonNull(p) && RealPages(ev)
    ensures NonNull(Next(p, ev))
  {
    hide PoolInv, Index, RoundUp, NumMovePage, Move, Grant, Granted, SupplyOk, Searchable, FreshSpans, Revert,
      Revertible;
    match ev
    case AllocSpan(t, size, e) => SpanPageZero(p, t, size, e);
    case AllocLarge(t, size, e) => LargePageZero(p, size, e);
    case AllocListed(_, size, _) => ChosenServes(p, size);
    case AllocCarved(_, cnt) => CarvedReady(p, ev.t, cnt);
    case FreeSmall(_, a) => FreeSmallList(p, ev.t, a, SpanAt(p, a));
    case FreeLarge(_, a) => FreeLargeReady(p, ev.t, a); RevertNonNull(p.page, p.place[a].span);
    case ReturnBlock(_) => ReturnBlockReady(p, ev.t);
    case ReturnSpan(_) => RevertSpanKeeps(p, ev.t); RevertNonNull(p.page, p.phase[ev.t].q);
    case _ =>
  }

  lemma SpanPageZero(p: Pool, t: Tid, size: nat, e: Supply)
    requires PoolInv(p) && Can(p, AllocSpan(t, size, e)) && NonNull(p) && e.base > 0
    ensures NonNull(Next(p, AllocSpan(t, size, e)))
  {
    hide PoolInv, Index, RoundUp, NumMovePage, Grant, Granted, SupplyOk, Searchable, FreshSpans;
    SpanReady(p, t, size, e);
    InvParts(p);
    var n, c := NumMovePage(RoundUp(size)), RoundUp(size);
    GrantIsGranted(p.page, n, c, e);
    var (s, q) := Grant(p.page, n, c, e);
    GrantNonNull(p.page, s, q, n, c, e);
  }

  lemma LargePageZero(p: Pool, size: nat, e: Supply)
    requires PoolInv(p) && MAX_BYTES < size < WORD && RoundUp(size) / PAGE_BYTES > 0
    requires SupplyOk(p.page, RoundUp(size) / PAGE_BYTES, e) && NonNull(p) && e.base > 0
    ensures Searchable(p.page.spans, p.page.lists) && FreshSpans(p.page, RoundUp(size) / PAGE_BYTES, e)
    ensures NonNull(ObtainBig(p, size, e))
  {
    hide PoolInv, RoundUp, Grant, Granted, SupplyOk, Searchable, FreshSpans;
    ObtainBigKeeps(p, size, e);
    InvParts(p);
    var n := RoundUp(size) / PAGE_BYTES;
    GrantIsGranted(p.page, n, size, e);
    var (s, q) := Grant(p.page, n, size, e);
    GrantNonNull(p.page, s, q, n, size, e);
  }

  // ---------- every step keeps the lists threaded ----------

  lemma ListedThreads(p: Pool, m: Words, t: Tid, size: nat, cnt: nat)
    requires ListInv(p, m) && Can(p, AllocListed(t, size, cnt))
    ensures Threaded(Next(p, AllocListed(t, size, cnt)), Writes(p, AllocListed(t, size, cnt), m))
  {
    hide PoolInv, Index, RoundUp, Threaded, Fetch, Ended;
    ChosenServes(p, size);
    FetchThreads(p, m, t, Index(size), Chosen(p, size), cnt);
  }

  lemma ListedBlocks(p: Pool, t: Tid)
    requires CanEnlist(p, t)
    ensures var q := p.phase[t].q; q in Enlist(p, t).free && Enlist(p, t).free[q] == BlocksOf(p.page.spans[q])
  {
    hide BlocksOf, Index, AddSpan;
  }

  lemma CarvedThreads(p: Pool, m: Words, t: Tid, cnt: nat)
    requires ListInv(p, m) && Can(p, AllocCarved(t, cnt))
    requires LinkedTo(m, PrivateBlocks(p, t), |PrivateBlocks(p, t)|) && FetchList(p, t) == []
    ensures Threaded(Next(p, AllocCarved(t, cnt)), Writes(p, AllocCarved(t, cnt), m))
  {
    hide PoolInv, Index, Threaded, Fetch, Ended, Enlist, CanEnlist, LinkedTo, PrivateBlocks, BlocksOf, ClassSpan;
    PrivateSize(p, t);
    CarvedReady(p, t, cnt);
    EnlistThreads(p, m, t);
    EnlistCaches(p, t);
    ListedBlocks(p, t);
    PrivateSpan(p, t);
    FetchThreads(Enlist(p, t), m, t, Index(p.phase[t].size), p.phase[t].q, cnt);
  }

  lemma FreedThreads(p: Pool, m: Words, t: Tid, a: Addr)
    requires ListInv(p, m) && Can(p, FreeSmall(t, a))
    ensures Threaded(Next(p, FreeSmall(t, a)), Writes(p, FreeSmall(t, a), m))
  {
    hide PoolInv, Index, Threaded, PushCache;
    FreeSmallList(p, t, a, SpanAt(p, a));
    PushThreads(p, m, t, Index(p.page.spans[SpanAt(p, a)].blockSize), a);
  }

  lemma ReturnedThreads(p: Pool, m: Words, t: Tid)
    requires ListInv(p, m) && Can(p, ReturnBlock(t))
    ensures Threaded(Next(p, ReturnBlock(t)), Writes(p, ReturnBlock(t), m))
  {
    hide PoolInv, Threaded, GiveBack, Retire, CanRetire;
    var a := p.phase[t].chain[0];
    ReturnBlockReady(p, t);
    ChainBlock(p, t);
    var q := p.place[a].span;
    GiveBackThreads(p, m, t, a, q);
    if GiveBack(p, t).page.spans[q].useCnt == 0 {
      RetireThreads(GiveBack(p, t), m[a := Head(p.free[q])], t, q);
    }
  }

  lemma ChainBlock(p: Pool, t: Tid)
    requires PoolInv(p) && t in p.phase && p.phase[t].Returning? && p.phase[t].chain != []
    ensures var a := p.phase[t].chain[0];
      a in p.place && p.place[a].at == InChain(t) && p.place[a].span in p.free
  {
    hide Inv, PoolOk, BlocksOf, Used, Index;
    InvParts(p);
    ChainHead(Used(p.page.spans), p, t);
    AllAtHead(p.place, p.phase[t].chain[0], InChain(t));
  }

  lemma CachedThreads(p: Pool, m: Words, t: Tid, size: nat)
    requires ListInv(p, m) && Can(p, AllocCached(t, size))
    ensures Threaded(Next(p, AllocCached(t, size)), m)
  {
    hide PoolInv, Index, Threaded, PopCache;
    PopThreads(p, m, t, Index(size));
  }

  // Phases without a chain and page-heap changes do not concern the lists.
  lemma OtherPhase(p: Pool, p': Pool, m: Words, t: Tid)
    requires Threaded(p, m) && p'.free == p.free && p'.caches == p.caches
    requires p'.phase == p.phase || (t in p'.phase && p'.phase == p.phase[t := p'.phase[t]])
    requires Listing(p', InChain(t)) == Listing(p, InChain(t))
    ensures Threaded(p', m)
  {
    hide Threaded;
    forall w: Place ensures Listing(p', w) == Listing(p, w) {}
    SameThreads(p, p', m);
  }

  lemma SpanStepThreads(p: Pool, m: Words, t: Tid, size: nat, e: Supply)
    requires ListInv(p, m) && Can(p, AllocSpan(t, size, e))
    ensures Threaded(Next(p, AllocSpan(t, size, e)), m)
  {
    hide PoolInv, Index, RoundUp, NumMovePage, Grant, SupplyOk, Searchable, FreshSpans, Threaded;
    SpanReady(p, t, size, e);
    OtherPhase(p, Next(p, AllocSpan(t, size, e)), m, t);
  }

  lemma LargeStepThreads(p: Pool, m: Words, t: Tid, size: nat, e: Supply)
    requires ListInv(p, m) && Can(p, AllocLarge(t, size, e))
    ensures Threaded(Next(p, AllocLarge(t, size, e)), m)
  {
    hide PoolInv, RoundUp, Grant, SupplyOk, Searchable, FreshSpans, Threaded;
    ObtainBigKeeps(p, size, e);
    OtherPhase(p, Next(p, AllocLarge(t, size, e)), m, t);
  }

  lemma FreeBigFrame(p: Pool, a: Addr)
    requires CanFreeBig(p, a)
    ensures var p' := FreeBig(p, a); p'.free == p.free && p'.caches == p.caches && p'.phase == p.phase
  {
    hide Revertible, Revert;
  }

  lemma FreeLargeThreads(p: Pool, m: Words, t: Tid, a: Addr)
    requires ListInv(p, m) && Can(p, FreeLarge(t, a))
    ensures Threaded(Next(p, FreeLarge(t, a)), m)
  {
    hide PoolInv, FreeBig, CanFreeBig, Threaded;
    FreeLargeReady(p, t, a);
    FreeBigFrame(p, a);
    OtherPhase(p, Next(p, FreeLarge(t, a)), m, t);
  }

  lemma RevertSpanFrame(p: Pool, t: Tid)
    requires CanRevert(p, t)
    ensures var p' := RevertSpan(p, t);
      && p'.free == p.free && p'.caches == p.caches && t in p'.phase && p'.phase == p.phase[t := p'.phase[t]]
      && Listing(p', InChain(t)) == Listing(p, InChain(t))
  {
    hide Revertible, Revert;
  }

  lemma ReturnSpanThreads(p: Pool, m: Words, t: Tid)
    requires ListInv(p, m) && Can(p, ReturnSpan(t))
    ensures Threaded(Next(p, ReturnSpan(t)), m)
  {
    hide PoolInv, RevertSpan, CanRevert, Threaded, Listing;
    RevertSpanKeeps(p, t);
    RevertSpanFrame(p, t);
    OtherPhase(p, Next(p, ReturnSpan(t)), m, t);
  }

  lemma StartThreads(p: Pool, m: Words, t: Tid)
    requires ListInv(p, m) && Can(p, Start(t))
    ensures Threaded(Next(p, Start(t)), m)
  {
    hide PoolInv, Chain;
    var p' := Next(p, Start(t));
    forall w: Place ensures Chain(m, Head(Listing(p', w)), Listing(p', w)) {
      assert Chain(m, Head(Listing(p, w)), Listing(p, w));
      NothingLive(p, m);
    }
  }

  lemma EndThreads(p: Pool, m: Words, t: Tid)
    requires ListInv(p, m) && Can(p, ReturnEnd(t))
    ensures Threaded(Next(p, ReturnEnd(t)), m)
  {
    hide PoolInv, Threaded;
    SameThreads(p, Next(p, ReturnEnd(t)), m);
  }

  lemma DetachedThreads(p: Pool, m: Words, t: Tid, i: nat, size: nat)
    requires ListInv(p, m) && Can(p, ReturnList(t, i, size))
    ensures Threaded(Next(p, ReturnList(t, i, size)), m)
  {
    hide PoolInv, Threaded, Index;
    DetachThreads(p, m, t, i, size);
  }

  // A step lists only what has been carved.
  lemma StepLists(p: Pool, m: Words, ev: Event)
    requires ListInv(p, m) && Can(p, ev)
    requires ev.AllocCarved? ==>
      LinkedTo(m, PrivateBlocks(p, ev.t), |PrivateBlocks(p, ev.t)|) && FetchList(p, ev.t) == []
    ensures Threaded(Next(p, ev), Writes(p, ev, m))
  {
    hide PoolInv, Threaded, Can, Next, LinkedTo, FetchList;
    match ev
    case Start(t) => StartThreads(p, m, t);
    case AllocCached(t, size) => CachedThreads(p, m, t, size);
    case AllocListed(t, size, cnt) => ListedThreads(p, m, t, size, cnt);
    case AllocCarved(t, cnt) => CarvedThreads(p, m, t, cnt);
    case FreeSmall(t, a) => FreedThreads(p, m, t, a);
    case ReturnList(t, i, size) => DetachedThreads(p, m, t, i, size);
    case ReturnBlock(t) => ReturnedThreads(p, m, t);
    case ReturnEnd(t) => EndThreads(p, m, t);
    case AllocSpan(t, size, e) => SpanStepThreads(p, m, t, size, e);
    case AllocLarge(t, size, e) => LargeStepThreads(p, m, t, size, e);
    case FreeLarge(t, a) => FreeLargeThreads(p, m, t, a);
    case ReturnSpan(t) => ReturnSpanThreads(p, m, t);
  }

  // ---------- every step leaves what is carved ----------

  // A span being carved stays as it is until its own thread lists it.
  lemma PrivateStays(p: Pool, ev: Event, t: Tid)
    requires PoolInv(p) && Can(p, ev) && t in p.phase && p.phase[t].Carving? && !(ev.AllocCarved? && ev.t == t)
    ensures t in Next(p, ev).phase && Next(p, ev).phase[t] == p.phase[t]
    ensures PrivateBlocks(Next(p, ev), t) == PrivateBlocks(p, t)
  {
    hide PoolInv, Can, Next, BlocksOf, ClassSpan;
    StepSparesCarving(p, ev, t);
    PrivateSpan(p, t);
    KeptStays(p, ev, p.phase[t].q, p.page.spans[p.phase[t].q], Private(t));
  }

  // Only a grant starts a carving.
  lemma WasCarving(p: Pool, ev: Event, u: Tid)
    requires PoolInv(p) && Can(p, ev) && u in Next(p, ev).phase && Next(p, ev).phase[u].Carving?
    requires !(ev.AllocSpan? && ev.t == u)
    ensures u in p.phase && p.phase[u].Carving? && !(ev.AllocCarved? && ev.t == u)
  {
    hide PoolInv, Can, Next;
    StepMoves(p, ev);
  }

  // Every word a step writes is the first of a block on some list, of the block it takes back, or
  // of a block of the span it lists.
  lemma WritesElsewhere(p: Pool, ev: Event, m: Words, b: Addr)
    requires PoolInv(p) && Can(p, ev) && (b in p.place ==> IsLive(p, b) && !(ev.FreeSmall? && ev.a == b))
    requires !(ev.AllocCarved? && b in PrivateBlocks(p, ev.t))
    ensures Word(Writes(p, ev, m), b) == Word(m, b)
  {
    hide PoolInv, Can, Next;
    match ev
    case AllocListed(t, size, cnt) => ListedElsewhere(p, t, size, cnt, m, b);
    case AllocCarved(t, cnt) => IsCarving(p, t, cnt); CarvedElsewhere(p, t, cnt, m, b);
    case FreeSmall(t, a) => FreedIsLive(p, t, a); FreedElsewhere(p, t, a, m, b);
    case ReturnBlock(t) => ReturnedElsewhere(p, t, m, b);
    case _ =>
  }

  lemma EndedElsewhere(m: Words, s: seq<Addr>, n: nat, b: Addr)
    requires 1 <= n <= |s| && b !in s
    ensures Word(Ended(m, s, n), b) == Word(m, b)
  {
    assert s[n - 1] in s;
  }

  lemma ListedElsewhere(p: Pool, t: Tid, size: nat, cnt: nat, m: Words, b: Addr)
    requires PoolInv(p) && Can(p, AllocListed(t, size, cnt)) && (b in p.place ==> IsLive(p, b))
    ensures Word(ListedWrites(p, t, size, cnt, m), b) == Word(m, b)
  {
    hide PoolInv, Index, RoundUp, Ended, NoDup;
    ChosenServes(p, size);
    var s := p.free[Chosen(p, size)];
    FreeBlocks(p, Chosen(p, size));
    EndedElsewhere(m, s, FreeLists.Taken(cnt, |s|), b);
  }

  lemma IsCarving(p: Pool, t: Tid, cnt: nat)
    requires PoolInv(p) && Can(p, AllocCarved(t, cnt))
    ensures t in p.phase && p.phase[t].Carving?
  {
    hide PoolInv;
  }

  lemma CarvedElsewhere(p: Pool, t: Tid, cnt: nat, m: Words, b: Addr)
    requires PoolInv(p) && t in p.phase && p.phase[t].Carving? && b !in PrivateBlocks(p, t)
    ensures Word(CarvedWrites(p, t, cnt, m), b) == Word(m, b)
  {
    hide PoolInv, Ended, PrivateBlocks;
    PrivateNonEmpty(p, t);
    EndedElsewhere(m, PrivateBlocks(p, t), FreeLists.Taken(cnt, |PrivateBlocks(p, t)|), b);
  }

  lemma FreedIsLive(p: Pool, t: Tid, a: Addr)
    requires PoolInv(p) && Can(p, FreeSmall(t, a))
    ensures IsLive(p, a)
  {
    hide PoolInv;
  }

  lemma FreedElsewhere(p: Pool, t: Tid, a: Addr, m: Words, b: Addr)
    requires PoolInv(p) && Can(p, FreeSmall(t, a)) && b != a
    ensures Word(FreedWrites(p, t, a, m), b) == Word(m, b)
  {
    hide PoolInv, Index;
    FreeSmallList(p, t, a, SpanAt(p, a));
  }

  lemma ReturnedElsewhere(p: Pool, t: Tid, m: Words, b: Addr)
    requires PoolInv(p) && Can(p, ReturnBlock(t)) && (b in p.place ==> IsLive(p, b))
    ensures Word(ReturnedWrites(p, t, m), b) == Word(m, b)
  {
    hide PoolInv, GiveBack, CanRetire;
    ReturnBlockReady(p, t);
    ChainBlock(p, t);
  }
}
