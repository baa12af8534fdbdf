/**
 The bucket of CentralCaching is the bucket of the pool machine: what its methods do to one
 bucket is what MemoryPool's steps do to that bucket of the whole pool.
 */
module CentralSteps {
  import opened SizeClasses
  import opened PageModel
  import opened Blocks
  import opened MemoryPool
  import opened PoolTheorems
  import opened CentralCaching
  import FreeLists

  /** Bucket i of the pool. */
  ghost function BucketOf(p: Pool, i: nat, returned: seq<Ptr>): Bucket
    requires i < |p.central|
  {
    Bucket(p.central[i],
      map q | q in p.central[i] && q in p.free :: p.free[q],
      map q | q in p.central[i] && q in p.page.spans && p.page.spans[q].useCnt >= 0 :: p.page.spans[q].useCnt,
      returned)
  }

  // A listed span has its free list and its use count.
  lemma ListedSpan(p: Pool, i: nat, q: Ptr)
    requires PoolInv(p) && i < BUCKETS && i < |p.central| && q in p.central[i]
    ensures q in p.free && q in p.role && p.role[q] == Serving && q in p.page.spans && p.page.spans[q].useCnt >= 0
    ensures p.page.spans[q].blockSize <= MAX_BYTES && Index(p.page.spans[q].blockSize) == i
  {
    InBucket(p, i, q);
    hide PoolInv;
    UseCountIsOutstanding(p, q);
  }

  lemma InBucket(p: Pool, i: nat, q: Ptr)
    requires PoolInv(p) && i < BUCKETS && i < |p.central| && q in p.central[i]
    ensures q in p.free && q in p.role && p.role[q] == Serving && q in p.page.spans
    ensures p.page.spans[q].blockSize <= MAX_BYTES && Index(p.page.spans[q].blockSize) == i
  {
    hide Inv, Roles, ListsOk, PlacesOk, Index;
    UsedSpan(p.page.spans, q);
  }

  lemma ServingListed(p: Pool, q: Ptr)
    requires PoolInv(p) && q in p.role && p.role[q] == Serving
    ensures q in p.page.spans && p.page.spans[q].blockSize <= MAX_BYTES
      && Index(p.page.spans[q].blockSize) < |p.central|
    ensures |p.central| == BUCKETS && q in p.central[Index(p.page.spans[q].blockSize)]
  {
    ServesClass(p, q);
    hide Inv, Roles, ListsOk, PlacesOk, CountsOk, Index, ClassSpan;
    UsedSpan(p.page.spans, q);
  }

  // ---------- giving back ----------

  lemma GiveBackBucket(p: Pool, t: Tid, i: nat, q: Ptr, a: Addr, returned: seq<Ptr>)
    requires CanGiveBack(p, t) && a == p.phase[t].chain[0] && a in p.place && q == p.place[a].span
    requires i < |p.central| && q in p.central[i] && q in p.free && q in p.page.spans && p.page.spans[q].useCnt > 0
    ensures var b, b' := BucketOf(p, i, returned), BucketOf(GiveBack(p, t), i, returned);
      b' == b.(free := b.free[q := [a] + b.free[q]], useCnt := b.useCnt[q := b.useCnt[q] - 1])
  {
    hide Move;
  }

  lemma RetireBucket(p: Pool, t: Tid, i: nat, q: Ptr, returned: seq<Ptr>)
    requires CanRetire(p, t, q) && i == Index(p.phase[t].size) && i < |p.central| && NoDup(p.central[i])
    ensures i < |Retire(p, t, q).central|
    ensures var b, b' := BucketOf(p, i, returned), BucketOf(Retire(p, t, q), i, returned + [q]);
      b' == Bucket(Without(b.spans, q), b.free - {q}, b.useCnt - {q}, b.returned + [q])
  {
    PageModel.WithoutFacts(p.central[i], q);
    hide Without, NoDup, DropSpan, Index;
  }

  /** One round of releaseList in the pool is TakeBack on the bucket. */
  lemma ReturnBlockIsTakeBack(p: Pool, t: Tid, returned: seq<Ptr>)
    requires PoolInv(p) && Can(p, ReturnBlock(t))
    ensures p.phase[t].size <= MAX_BYTES && p.phase[t].chain[0] in p.place
    ensures var i, a := Index(p.phase[t].size), p.phase[t].chain[0];
      var q := p.place[a].span;
      var p' := Next(p, ReturnBlock(t));
      && i < |p.central| && i < |p'.central| && t in p'.phase && CanTakeBack(BucketOf(p, i, returned), q)
      && BucketOf(p', i, if p'.phase[t].Reverting? then returned + [q] else returned)
        == TakeBack(BucketOf(p, i, returned), a, q)
  {
    hide PoolInv, Index, GiveBack, Retire, CanGiveBack, CanRetire, BucketOf, Without;
    ReturnBlockReady(p, t);
    ReturningBlock(p, t);
    var a := p.phase[t].chain[0];
    var q, i := p.place[a].span, Index(p.phase[t].size);
    GivenBack(p, t);
    CountsBlock(p, t);
    GiveBackBucket(p, t, i, q, a, returned);
    BucketCounts(p, i, q, returned);
    var p1 := GiveBack(p, t);
    if p1.page.spans[q].useCnt == 0 {
      CentralNoDup(p, i);
      RetireBucket(p1, t, i, q, returned);
      RetireShape(p1, t, q);
      var b := BucketOf(p, i, returned);
      var f := [a] + b.free[q];
      assert b.free[q := f] - {q} == b.free - {q} && b.useCnt[q := 0] - {q} == b.useCnt - {q};
    }
  }

  lemma RetireShape(p: Pool, t: Tid, q: Ptr)
    requires CanRetire(p, t, q)
    ensures var p' := Retire(p, t, q); t in p'.phase && p'.phase[t].Reverting? && |p'.central| == |p.central|
  {
  }

  lemma BucketCounts(p: Pool, i: nat, q: Ptr, returned: seq<Ptr>)
    requires i < |p.central| && q in p.central[i] && q in p.free && q in p.page.spans && p.page.spans[q].useCnt >= 0
    ensures var b := BucketOf(p, i, returned);
      q in b.free && b.free[q] == p.free[q] && q in b.useCnt && b.useCnt[q] == p.page.spans[q].useCnt
      && b.spans == p.central[i] && b.returned == returned
  {
  }

  lemma CentralNoDup(p: Pool, i: nat)
    requires PoolInv(p) && i < |p.central|
    ensures NoDup(p.central[i])
  {
    hide Inv, Roles, ListsOk, PlacesOk, CountsOk, Index;
  }

  // The first block of a chain belongs to a listed span of the chain's bucket.
  lemma ReturningBlock(p: Pool, t: Tid)
    requires PoolInv(p) && Can(p, ReturnBlock(t))
    ensures p.phase[t].size <= MAX_BYTES && p.phase[t].chain[0] in p.place
    ensures var q := p.place[p.phase[t].chain[0]].span;
      && Index(p.phase[t].size) < |p.central| && q in p.central[Index(p.phase[t].size)] && q in p.free
      && q in p.role && p.role[q] == Serving && q in p.page.spans
  {
    hide Inv, PoolOk, BlocksOf, Used, Index, Next;
    InvParts(p);
    ChainHead(Used(p.page.spans), p, t);
    AllAtHead(p.place, p.phase[t].chain[0], InChain(t));
    var q := p.place[p.phase[t].chain[0]].span;
    ServingListed(p, q);
    ChainClass(p, t, p.phase[t].chain[0]);
  }

  lemma ChainClass(p: Pool, t: Tid, a: Addr)
    requires PoolInv(p) && a in p.place && p.place[a].at == InChain(t) && p.place[a].span in p.page.spans
    ensures t in p.phase && (p.phase[t].Returning? || p.phase[t].Reverting?)
    ensures p.phase[t].size <= MAX_BYTES && p.page.spans[p.place[a].span].blockSize <= MAX_BYTES
    ensures Index(p.phase[t].size) == Index(p.page.spans[p.place[a].span].blockSize)
  {
    hide Inv, Roles, CentralOk, CountsOk, ListsOk, BlocksOf, Index;
    UsedSpan(p.page.spans, p.place[a].span);
  }

  lemma CountsBlock(p: Pool, t: Tid)
    requires PoolInv(p) && Can(p, ReturnBlock(t))
    ensures var a := p.phase[t].chain[0];
      a in p.place && p.place[a].span in p.page.spans && p.page.spans[p.place[a].span].useCnt > 0
  {
    hide PoolInv, Index;
    ReturningBlock(p, t);
    var a := p.phase[t].chain[0];
    var q := p.place[a].span;
    UseCountIsOutstanding(p, q);
    AtChain(p, t);
    assert a in Outstanding(p, q);
  }

  lemma AtChain(p: Pool, t: Tid)
    requires PoolInv(p) && Can(p, ReturnBlock(t))
    ensures p.phase[t].chain[0] in p.place && p.place[p.phase[t].chain[0]].at == InChain(t)
  {
    hide Inv, PoolOk, BlocksOf, Used, Index;
    InvParts(p);
    ChainHead(Used(p.page.spans), p, t);
    AllAtHead(p.place, p.phase[t].chain[0], InChain(t));
  }

  // ---------- fetching and listing ----------

  lemma FetchBucket(p: Pool, t: Tid, i: nat, q: Ptr, cnt: nat, returned: seq<Ptr>)
    requires q in p.free && p.free[q] != [] && q in p.page.spans && p.page.spans[q].useCnt >= 0 && t in p.caches
    requires i < |p.caches[t]| && i < |p.central| && q in p.central[i]
    ensures var n := FreeLists.Taken(cnt, |p.free[q]|);
      var b := BucketOf(p, i, returned);
      BucketOf(Fetch(p, t, i, q, cnt), i, returned) ==
        b.(free := b.free[q := b.free[q][n..]], useCnt := b.useCnt[q := b.useCnt[q] + n])
  {
    hide Move;
  }

  /** b' is b after a fetch of up to cnt blocks from its k-th span, the first with a free block. */
  ghost predicate Fetched(b: Bucket, b': Bucket, k: nat, cnt: nat) {
    && k < |b.spans| && b.spans[k] in b.free && b.free[b.spans[k]] != [] && b.spans[k] in b.useCnt
    && (forall j :: 0 <= j < k ==> b.spans[j] in b.free && b.free[b.spans[j]] == [])
    && var q := b.spans[k]; var n := FreeLists.Taken(cnt, |b.free[q]|);
       b' == b.(free := b.free[q := b.free[q][n..]], useCnt := b.useCnt[q := b.useCnt[q] + n])
  }

  /** fetchRangeObj in the pool does to its bucket what FetchRangeObj does, on the span that
      FindSpan finds. */
  lemma ListedIsFetch(p: Pool, t: Tid, size: nat, cnt: nat, p': Pool, i: nat, returned: seq<Ptr>)
    requires size <= MAX_BYTES && i == Index(size) < |p.central|
    requires PoolInv(p) && Can(p, AllocListed(t, size, cnt)) && p' == Next(p, AllocListed(t, size, cnt))
    ensures i < |p'.central|
    ensures Fetched(BucketOf(p, i, returned), BucketOf(p', i, returned), FirstFree(p.central[i], p.free), cnt)
  {
    hide PoolInv, Index, Fetch, BucketOf;
    ChosenServes(p, size);
    var q := Chosen(p, size);
    ListedSpan(p, i, q);
    BucketCounts(p, i, q, returned);
    FetchBucket(p, t, i, q, cnt, returned);
    MemoryPool.StepKeeps(p, AllocListed(t, size, cnt));
    CentralSizeOf(Next(p, AllocListed(t, size, cnt)));
    forall j | 0 <= j < FirstFree(p.central[i], p.free)
      ensures p.central[i][j] in BucketOf(p, i, returned).free && BucketOf(p, i, returned).free[p.central[i][j]] == []
    {
      ListedSpan(p, i, p.central[i][j]);
      BucketCounts(p, i, p.central[i][j], returned);
    }
  }

  /** Listing a carved span in the pool does to its bucket what AddSpan does. */
  lemma EnlistIsAddSpan(p: Pool, t: Tid, cnt: nat, returned: seq<Ptr>)
    requires PoolInv(p) && Can(p, AllocCarved(t, cnt))
    ensures CanEnlist(p, t) && p.phase[t].size <= MAX_BYTES && Index(p.phase[t].size) < |p.central|
    ensures var i, q := Index(p.phase[t].size), p.phase[t].q;
      var b := BucketOf(p, i, returned);
      i < |Enlist(p, t).central|
      && BucketOf(Enlist(p, t), i, returned) ==
        Bucket([q] + b.spans, b.free[q := BlocksOf(p.page.spans[q])], b.useCnt[q := 0], returned)
  {
    hide PoolInv, Index, AddSpan, BlocksOf;
    PrivateSize(p, t);
    CarvedReady(p, t, cnt);
    PrivateCount(p, t);
  }

  lemma PrivateCount(p: Pool, t: Tid)
    requires PoolInv(p) && t in p.phase && p.phase[t].Carving?
    ensures var q := p.phase[t].q; q in p.page.spans && p.page.spans[q].useCnt == 0
  {
    hide Inv, CentralOk, CountsOk, ListsOk, PlacesOk, ClassSpan;
    UsedSpan(p.page.spans, p.phase[t].q);
  }
}
