/**
 The release of a span of over 128 pages. It hands the pages back with brk, which takes every
 page above as well, frees the span object, and leaves the page map as it is. PageModel's
 invariant never survives it; what survives, and what can come of the rest, is stated here.
 */
module LargeRelease {
  import opened PageModel
  import opened MapWrites
  import opened Coalescing

  ghost predicate Oversized(s: State, q: Ptr) {
    q in s.spans && s.spans[q].used && s.spans[q].cnt > MAX_PAGES
  }

  // systemFree(ptr) and span_pool_.free(span): brk lowers the end of the heap to ptr.
  function RevertLarge(s: State, q: Ptr): State
    requires q in s.spans
  {
    s.(spans := s.spans - {q}, owner := map p | p in s.owner && p < s.spans[q].pageId :: s.owner[p])
  }

  /** No span lies behind q. */
  ghost predicate Topmost(s: State, q: Ptr)
    requires q in s.spans
  {
    forall r :: r in s.spans && r != q ==> s.spans[r].pageId + s.spans[r].cnt <= s.spans[q].pageId
  }

  /** The entry of the first page stays behind, so that the invariant is lost in any case. */
  lemma EntryStays(s: State, q: Ptr)
    requires Inv(s) && Oversized(s, q)
    ensures var t, page := RevertLarge(s, q), s.spans[q].pageId;
      page in t.hash && t.hash[page] == q && page !in t.owner && q !in t.spans && !Inv(t)
  {
    hide Partition, Listed;
    assert Mapped(s.hash, q, s.spans[q]);
  }

  lemma PartitionSurvivesIff(s: State, q: Ptr)
    requires Partition(s.spans, s.owner) && Oversized(s, q)
    ensures Partition(RevertLarge(s, q).spans, RevertLarge(s, q).owner) <==> Topmost(s, q)
  {
    var t := RevertLarge(s, q);
    if r :| r in s.spans && r != q && s.spans[r].pageId + s.spans[r].cnt > s.spans[q].pageId {
      assert InSpan(t.spans[r], LastPage(s.spans[r])) && LastPage(s.spans[r]) !in t.owner;
    }
    if Topmost(s, q) {
      forall r, p | r in t.spans && InSpan(t.spans[r], p) ensures p in t.owner && t.owner[p] == r {
        assert InSpan(s.spans[r], p);
      }
      forall p | p in t.owner ensures t.owner[p] in t.spans && InSpan(t.spans[t.owner[p]], p) {
        assert InSpan(s.spans[s.owner[p]], p);
      }
    }
  }

  lemma MapSurvives(s: State, q: Ptr)
    requires Inv(s) && Oversized(s, q) && Topmost(s, q)
    ensures var t := RevertLarge(s, q); MapOk(t.spans, t.hash - {s.spans[q].pageId}, t.owner, {})
  {
    hide Listed;
    var t, page := RevertLarge(s, q), s.spans[q].pageId;
    assert Mapped(s.hash, q, s.spans[q]);
    forall p | p in t.hash && p != page ensures p in t.owner {
      assert InSpan(s.spans[s.owner[p]], p);
    }
    forall r | r in t.spans ensures Mapped(t.hash - {page}, r, t.spans[r]) {
      assert Mapped(s.hash, r, s.spans[r]);
      MappedFrame(s.hash, t.hash - {page}, r, s.spans[r]);
    }
  }

  /** Apart from that entry the invariant survives exactly if the span was the topmost one;
      otherwise spans remain whose pages are gone. */
  lemma RestSurvivesIff(s: State, q: Ptr)
    requires Inv(s) && Oversized(s, q)
    ensures var t := RevertLarge(s, q); Inv(t.(hash := t.hash - {s.spans[q].pageId})) <==> Topmost(s, q)
  {
    PartitionSurvivesIff(s, q);
    if Topmost(s, q) { MapSurvives(s, q); }
    hide Partition, MapOk, Mapped;
    ListedFrame(s.spans, RevertLarge(s, q).spans, s.lists, {}, {});
  }

  // ---------- the calls as the code makes them ----------

  /** newSpan with its caller's marking, and revertSpanToPageCache. */
  datatype Call = New(n: nat, size: nat, e: Supply) | Back(q: Ptr)

  ghost predicate MayCall(s: State, c: Call) {
    match c
    case New(n, _, e) => 1 <= n && Searchable(s.spans, s.lists) && SupplyOk(s, n, e)
    case Back(q) =>
      && q in s.spans && s.spans[q].used && s.spans[q].useCnt == 0 && |s.lists| == MAX_PAGES + 1
      && (s.spans[q].cnt <= MAX_PAGES ==> 0 < MergeForward(MergeBack(s, q), q).spans[q].cnt <= MAX_PAGES)
  }

  ghost function Called(s: State, c: Call): State
    requires MayCall(s, c)
  {
    match c
    case New(n, size, e) => Grant(s, n, size, e).0
    case Back(q) =>
      if s.spans[q].cnt > MAX_PAGES then RevertLarge(s, q) else Finish(MergeForward(MergeBack(s, q), q), q)
  }

  ghost predicate Calls(s: State, cs: seq<Call>, s': State)
    decreases |cs|
  {
    if cs == [] then s' == s else MayCall(s, cs[0]) && Calls(Called(s, cs[0]), cs[1..], s')
  }

  /** On all states with the invariant these are the operations of PageModel. */
  lemma CallIsStep(s: State, op: Op)
    requires Inv(s) && Enabled(s, op)
    ensures var c := if op.Allocate? then New(op.n, op.size, op.e) else Back(op.q);
      MayCall(s, c) && Called(s, c) == Step(s, op)
  {
    hide Partition, Listed, MapOk, Finish, Grant, Merged, BackBlocked, ForwardBlocked;
    match op
    case Allocate(n, size, e) => GrantKeeps(s, n, size, e);
    case Free(q) =>
      RevertibleIsMerging(s, q);
      MergeBackKeeps(s, q);
      MergeForwardKeeps(MergeBack(s, q), q);
      FinishKeeps(MergeForward(MergeBack(s, q), q), q);
  }

  lemma {:induction false} CallsThen(s: State, cs: seq<Call>, t: State, c: Call)
    requires Calls(s, cs, t) && MayCall(t, c)
    ensures Calls(s, cs + [c], Called(t, c))
    decreases |cs|
  {
    hide MayCall, Called;
    if cs == [] {
      assert [] + [c] == [c] && [c][1..] == [];
    } else {
      assert (cs + [c])[1..] == cs[1..] + [c];
      CallsThen(Called(s, cs[0]), cs[1..], t, c);
    }
  }

  // ---------- an allocation that does not touch the stale entry ----------

  lemma {:induction false} WrittenUpdate(h: map<nat, Ptr>, ws: seq<Write>, p: nat, v: Ptr)
    requires forall w :: w in ws ==> w.page != p
    ensures Written(h[p := v], ws) == Written(h, ws)[p := v]
    decreases |ws|
  {
    if ws != [] {
      assert ws[|ws| - 1] in ws;
      WrittenUpdate(h, ws[..|ws| - 1], p, v);
    }
  }

  // An allocation from a fresh batch.
  ghost predicate NeedsBatch(s: State, n: nat, e: Supply) {
    1 <= n < MAX_PAGES && Searchable(s.spans, s.lists) && FirstNonEmpty(s.lists, n) > MAX_PAGES && FreshSpans(s, n, e)
  }

  lemma BatchWrites(s: State, n: nat, e: Supply)
    requires NeedsBatch(s, n, e)
    ensures forall w :: w in GrantWrites(s, n, e) ==>
      e.base <= w.page <= e.base + n || w.page == e.base + MAX_PAGES - 1
  {
    hide Ranged, FirstNonEmpty;
    AddLargeFirst(s, n, e);
    RangedIsSetRange(s.hash, e.base, n, e.k);
  }

  lemma BatchIgnores(s: State, n: nat, size: nat, e: Supply, p: nat, v: Ptr)
    requires NeedsBatch(s, n, e) && p < e.base
    ensures var s' := s.(hash := s.hash[p := v]); var t := Grant(s, n, size, e).0;
      Grant(s', n, size, e).0 == t.(hash := t.hash[p := v])
  {
    var s' := s.(hash := s.hash[p := v]);
    BatchWrites(s, n, e);
    GrantIsWritten(s, n, size, e);
    GrantIsWritten(s', n, size, e);
    SameCut(s, n, size, e, s');
    hide Written, Grant, GrantWrites;
    WrittenUpdate(s.hash, GrantWrites(s, n, e), p, v);
  }

  // Apart from the page map an allocation does not depend on the page map.
  lemma SameCut(s: State, n: nat, size: nat, e: Supply, s': State)
    requires NeedsBatch(s, n, e) && s' == s.(hash := s'.hash)
    ensures GrantWrites(s', n, e) == GrantWrites(s, n, e)
    ensures var t, t' := Grant(s, n, size, e).0, Grant(s', n, size, e).0; t' == t.(hash := t'.hash)
  {
    hide SetRange, Without, Ranged, FirstNonEmpty;
    AddLargeFirst(s, n, e);
    AddLargeFirst(s', n, e);
  }

  // ---------- the run ----------

  const CUT: Supply := Supply(1, 2, 1)
  const REST: Supply := Supply(8, 9, 1)
  const HUGE: Supply := Supply(8, 3, 129)
  const AGAIN: Supply := Supply(4, 3, 161)

  lemma TwoSpans() returns (cs: seq<Call>, s: State)
    ensures Calls(Init(), cs, s) && Inv(s) && s.spans == map[1 := Busy(1, 108), 2 := Busy(109, 20)]
  {
    hide Inv, Enabled, Step, MayCall, Called, Init;
    InitInv();
    InitSpans();
    FromBatch(Init(), 108, CUT);
    CallIsStep(Init(), Allocate(108, SIZE, CUT));
    s := Step(Init(), Allocate(108, SIZE, CUT));
    CallsThen(Init(), [], Init(), New(108, SIZE, CUT));
    FromFree(s, 20, REST, 2);
    CallIsStep(s, Allocate(20, SIZE, REST));
    CallsThen(Init(), [] + [New(108, SIZE, CUT)], s, New(20, SIZE, REST));
    cs, s := [] + [New(108, SIZE, CUT)] + [New(20, SIZE, REST)], Step(s, Allocate(20, SIZE, REST));
  }

  lemma InitSpans()
    ensures Init().spans == map[]
  {
  }

  lemma HugeGrant(s: State)
    requires Inv(s) && s.spans == map[1 := Busy(1, 108), 2 := Busy(109, 20)]
    ensures Enabled(s, Allocate(200, SIZE, HUGE)) && Inv(Step(s, Allocate(200, SIZE, HUGE)))
    ensures Step(s, Allocate(200, SIZE, HUGE)).spans == s.spans[3 := Busy(129, 200)]
    ensures forall p :: p in Step(s, Allocate(200, SIZE, HUGE)).hash ==> p <= 129
  {
    hide Listed, MapOk, Grant;
    ListedIsSearchable(s.spans, s.lists, {});
    FreshPages(s, 129);
    HashWithin(s.spans, s.hash, s.owner, {});
    GrantKeeps(s, 200, SIZE, HUGE);
    GrantOversize(s, 200, SIZE, HUGE);
  }

  /** The heap after the large release: two spans and a stale entry for page 129. */
  ghost predicate Stale(s: State, s0: State) {
    && Inv(s0) && s0.spans == map[1 := Busy(1, 108), 2 := Busy(109, 20)] && (forall p :: p in s0.hash ==> p < 129)
    && s == s0.(hash := s0.hash[129 := 3])
  }

  lemma HugeRelease(s: State) returns (t0: State)
    requires Inv(s) && s.spans == map[1 := Busy(1, 108), 2 := Busy(109, 20), 3 := Busy(129, 200)]
    requires forall p :: p in s.hash ==> p <= 129
    ensures MayCall(s, Back(3)) && Stale(Called(s, Back(3)), t0)
  {
    hide WeakInv, MergeBack, MergeForward;
    EntryStays(s, 3);
    RestSurvivesIff(s, 3);
    InvBuckets(s);
    var t := RevertLarge(s, 3);
    t0 := t.(hash := t.hash - {129});
    assert t.hash == t0.hash[129 := 3];
    assert t.spans == map[1 := Busy(1, 108), 2 := Busy(109, 20)];
  }

  lemma InvBuckets(s: State)
    requires Inv(s)
    ensures |s.lists| == MAX_PAGES + 1 && Partition(s.spans, s.owner) && Searchable(s.spans, s.lists)
  {
    ListedIsSearchable(s.spans, s.lists, {});
  }

  /** The object of the released span is now a free span elsewhere, and span 4 is in use. */
  ghost predicate Reused(s: State) {
    && |s.lists| == MAX_PAGES + 1
    && s.spans == map[1 := Busy(1, 108), 2 := Busy(109, 20), 3 := Spare(189, 100, 0), 4 := Busy(161, 28)]
    && 108 in s.hash && s.hash[108] == 1 && 129 in s.hash && s.hash[129] == 3 && 229 !in s.hash
  }

  lemma ReuseOk(s0: State)
    requires Inv(s0) && s0.spans == map[1 := Busy(1, 108), 2 := Busy(109, 20)]
    ensures NeedsBatch(s0, 28, AGAIN) && SupplyOk(s0, 28, AGAIN) && Inv(Grant(s0, 28, SIZE, AGAIN).0)
    ensures Grant(s0, 28, SIZE, AGAIN).0.spans == s0.spans[3 := Spare(189, 100, 0)][4 := Busy(161, 28)]
  {
    hide WeakInv, Grant, FirstNonEmpty, SupplyOk, FreshSpans;
    InvBuckets(s0);
    NoneFits(s0, 28);
    FromBatch(s0, 28, AGAIN);
    GrantKeeps(s0, 28, SIZE, AGAIN);
  }

  lemma Reuse(s: State, s0: State)
    requires Stale(s, s0)
    ensures MayCall(s, New(28, SIZE, AGAIN)) && Reused(Called(s, New(28, SIZE, AGAIN)))
  {
    hide WeakInv, Grant, GrantWrites, FirstNonEmpty, Written;
    ReuseOk(s0);
    var t0 := Grant(s0, 28, SIZE, AGAIN).0;
    BatchIgnores(s0, 28, SIZE, AGAIN, 129, 3);
    InvBuckets(t0);
    PageInUseMapped(t0, 1, 108);
    BatchWrites(s0, 28, AGAIN);
    GrantIsWritten(s0, 28, SIZE, AGAIN);
    WritesSpare(s0.hash, GrantWrites(s0, 28, AGAIN), |GrantWrites(s0, 28, AGAIN)|, 229);
    assert GrantWrites(s0, 28, AGAIN)[..|GrantWrites(s0, 28, AGAIN)|] == GrantWrites(s0, 28, AGAIN);
  }

  lemma PageInUseMapped(s: State, q: Ptr, p: nat)
    requires Inv(s) && q in s.spans && s.spans[q].used && s.spans[q].cnt <= MAX_PAGES && InSpan(s.spans[q], p)
    ensures p in s.hash && s.hash[p] == q
  {
    hide Partition, Listed;
    assert Mapped(s.hash, q, s.spans[q]);
  }

  /** A free span and a span in use share a page. */
  ghost predicate Clash(s: State, q: Ptr, r: Ptr, p: nat) {
    && q in s.spans && r in s.spans && !s.spans[q].used && s.spans[r].used
    && InSpan(s.spans[q], p) && InSpan(s.spans[r], p)
  }

  lemma MergesStranger(s: State)
    requires Reused(s)
    ensures MayCall(s, Back(2)) && Clash(Called(s, Back(2)), 2, 4, 161)
  {
    hide Without, SetRange;
    assert !CanMerge(s, 2, 108) && MergeBack(s, 2) == s;
    assert CanMerge(s, 2, 129);
    var t := Merge(s, 2, 3);
    assert t.spans[2] == Busy(109, 120) && !CanMerge(t, 2, 229);
    assert MergeForward(s, 2) == MergeForward(t, 2) == t;
    FinishShape(t, 2);
  }

  /** From the empty heap: after the release of a span of 200 pages, and the reuse of its object
      for another span, releasing the span in front of it joins that other span, so that pages
      in use become part of a free span. */
  lemma PagesInUseBecomeFree()
    ensures exists cs, s, q, r, p :: Calls(Init(), cs, s) && Clash(s, q, r, p)
  {
    hide Inv, Enabled, Step, MayCall, Called, Init, Stale, Reused, Clash, Calls;
    var cs, s := TwoSpans();
    HugeGrant(s);
    CallIsStep(s, Allocate(200, SIZE, HUGE));
    CallsThen(Init(), cs, s, New(200, SIZE, HUGE));
    var s3 := Step(s, Allocate(200, SIZE, HUGE));
    var t0 := HugeRelease(s3);
    CallsThen(Init(), cs + [New(200, SIZE, HUGE)], s3, Back(3));
    var s4 := Called(s3, Back(3));
    Reuse(s4, t0);
    var cs4 := cs + [New(200, SIZE, HUGE)] + [Back(3)];
    CallsThen(Init(), cs4, s4, New(28, SIZE, AGAIN));
    var s5 := Called(s4, New(28, SIZE, AGAIN));
    MergesStranger(s5);
    CallsThen(Init(), cs4 + [New(28, SIZE, AGAIN)], s5, Back(2));
    assert Clash(Called(s5, Back(2)), 2, 4, 161);
  }
}
