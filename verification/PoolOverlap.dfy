/**
 When the bytes of two blocks overlap. Carving looks only at where a block starts, so the last
 block of a span may reach past its end; how far, into what, and what its holder can then
 break is stated here exactly.
 */
module PoolOverlap {
  import opened SizeClasses
  import opened PageModel
  import opened Blocks
  import opened MemoryPool
  import opened PoolTheorems

  // ---------- blocks and the end of their span ----------

  function Bytes(sp: Span): nat {
    End(sp) - Base(sp)
  }

  /** The blocks of a span stay inside it: always so for large spans, and for a size class
      exactly when the class size divides the length of its spans. */
  predicate Tiles(sp: Span) {
    sp.blockSize > MAX_BYTES || (sp.blockSize > 0 && Bytes(sp) % sp.blockSize == 0)
  }

  lemma SpanTilesIff(sp: Span)
    requires 0 < sp.blockSize <= MAX_BYTES && 0 < sp.cnt
    ensures BlocksOf(sp) == Carved(Base(sp), End(sp), sp.blockSize)
    ensures (forall a :: a in BlocksOf(sp) ==> a + sp.blockSize <= End(sp)) <==> Tiles(sp)
  {
    hide Carved;
    BlocksFitIffDivides(Base(sp), End(sp), sp.blockSize);
  }

  lemma BlocksStayInsideIffTiles(p: Pool, q: Ptr)
    requires PoolInv(p) && q in p.role && p.role[q] == Serving
    ensures q in p.page.spans
    ensures var sp := p.page.spans[q];
      (forall a :: a in BlocksOf(sp) ==> a + sp.blockSize <= End(sp)) <==> Tiles(sp)
  {
    hide PoolInv, NumMovePage, Index, IsClass, Tiles, BlocksOf, Base, End;
    ServesClass(p, q);
    NumMovePageInRange(p.page.spans[q].blockSize);
    SpanTilesIff(p.page.spans[q]);
  }

  lemma SameSpanSpaced(p: Pool, a: Addr, b: Addr)
    requires PoolInv(p) && a in p.place && b in p.place && a < b && p.place[a].span == p.place[b].span
    ensures p.place[a].span in p.page.spans && a + p.page.spans[p.place[a].span].blockSize <= b
  {
    hide PoolInv, NumMovePage, Index, IsClass;
    LookupFindsSpan(p, a);
    LookupFindsSpan(p, b);
    var q := p.place[a].span;
    var sp := p.page.spans[q];
    if p.role[q] == Serving {
      ServesClass(p, q);
      BlocksAreSpaced(Base(sp), End(sp), sp.blockSize, a, b);
    } else {
      BigFits(p, q);
      LargeBlocksOf(sp);
    }
  }

  lemma StaysInside(p: Pool, a: Addr)
    requires PoolInv(p) && a in p.place && p.place[a].span in p.page.spans && Tiles(p.page.spans[p.place[a].span])
    ensures var sp := p.page.spans[p.place[a].span]; a + sp.blockSize <= End(sp)
  {
    hide PoolInv, NumMovePage, Index, IsClass, BlocksOf, Tiles;
    LookupFindsSpan(p, a);
    var q := p.place[a].span;
    if p.role[q] == Serving {
      BlocksStayInsideIffTiles(p, q);
    } else {
      BigFits(p, q);
      LargeBlocksOf(p.page.spans[q]);
    }
  }

  /** Two blocks never overlap as long as the lower one's span tiles: whoever holds them,
      they may use all of their blocks. */
  lemma BlocksDoNotOverlap(p: Pool, a: Addr, b: Addr)
    requires PoolInv(p) && a in p.place && b in p.place && a < b
    ensures p.place[a].span in p.page.spans
    ensures var sp := p.page.spans[p.place[a].span];
      Tiles(sp) || p.place[b].span == p.place[a].span ==> a + sp.blockSize <= b
  {
    hide PoolInv, Tiles, BlocksOf, Base, End;
    LookupFindsSpan(p, a);
    LookupFindsSpan(p, b);
    var q, r := p.place[a].span, p.place[b].span;
    if q == r {
      SameSpanSpaced(p, a, b);
    } else if Tiles(p.page.spans[q]) {
      StaysInside(p, a);
      SpansInOrder(p, q, r, a, b);
    }
  }

  lemma LargeBlocksOf(sp: Span)
    requires sp.blockSize > MAX_BYTES
    ensures BlocksOf(sp) == [Base(sp)]
  {
  }

  lemma BigFits(p: Pool, q: Ptr)
    requires PoolInv(p) && q in p.role && p.role[q] == Big
    ensures q in p.page.spans && MAX_BYTES < p.page.spans[q].blockSize
      && Base(p.page.spans[q]) + p.page.spans[q].blockSize <= End(p.page.spans[q])
  {
    hide Inv, CentralOk, CountsOk, ListsOk, PlacesOk;
    UsedSpan(p.page.spans, q);
  }

  lemma SpansInOrder(p: Pool, q: Ptr, r: Ptr, a: Addr, b: Addr)
    requires PoolInv(p) && q in p.page.spans && r in p.page.spans && q != r && a < b
    requires a in BlocksOf(p.page.spans[q]) && b in BlocksOf(p.page.spans[r])
    ensures End(p.page.spans[q]) <= b
  {
    hide PoolOk, Listed, MapOk, BlocksOf;
    var sp, sr := p.page.spans[q], p.page.spans[r];
    BlockPage(sp, a);
    BlockPage(sr, b);
    assert p.page.owner[PageOf(b)] == r;
    assert !InSpan(sp, PageOf(b));
  }

  // ---------- how far the last block reaches ----------

  /** The end of a span's last block. */
  function OverrunEnd(sp: Span): Addr {
    Base(sp) + |BlocksOf(sp)| * sp.blockSize
  }

  /** numMovePage rounds down to pages, so blocks reach less than a page past their span. */
  lemma OverrunIsShort(c: nat, n: nat)
    requires IsClass(c) && n >= 1 && (n - 1) * c < NumMovePage(c) * PAGE_BYTES
    ensures n * c < NumMovePage(c) * PAGE_BYTES + PAGE_BYTES
  {
    RoundUpIsLeastClass(c, c);
    MoveBytes(c);
    var num := NumMoveSize(c);
    PagesOf(c, num * c);
    hide NumMoveSize, NumMovePage, RoundUp, Index;
    if n > num { MulMono(num, n - 1, c); } else { MulMono(n, num, c); }
  }

  lemma PagesOf(c: nat, total: nat)
    requires c > 0 && total == NumMoveSize(c) * c && total >= PAGE_BYTES
    ensures NumMovePage(c) * PAGE_BYTES <= total < NumMovePage(c) * PAGE_BYTES + PAGE_BYTES
  {
    hide NumMoveSize;
  }

  /** Only the last block can reach past the end of its span, by less than a page; and it does
      exactly when the class does not tile. */
  lemma LastBlock(sp: Span)
    requires ClassSpan(sp)
    ensures sp.blockSize > 0 && OverrunEnd(sp) >= sp.blockSize && OverrunEnd(sp) - sp.blockSize in BlocksOf(sp)
    ensures forall a :: a in BlocksOf(sp) ==> a + sp.blockSize <= OverrunEnd(sp)
    ensures forall a :: a in BlocksOf(sp) && a + sp.blockSize > End(sp) ==> a + sp.blockSize == OverrunEnd(sp)
    ensures End(sp) <= OverrunEnd(sp) < End(sp) + PAGE_BYTES
    ensures Tiles(sp) <==> OverrunEnd(sp) == End(sp)
  {
    hide NumMovePage, IsClass;
    ClassIndex(sp.blockSize);
    NumMovePageInRange(sp.blockSize);
    var c := sp.blockSize;
    CarvedAt(Base(sp), End(sp), c);
    hide Carved;
    var blocks := BlocksOf(sp);
    var n := |blocks|;
    assert End(sp) - Base(sp) == sp.cnt * PAGE_BYTES;
    OverrunIsShort(c, n);
    MultipleIff(End(sp) - Base(sp), n, c);
    assert n * c == (n - 1) * c + c;
    var last := blocks[n - 1];
    assert last == Base(sp) + (n - 1) * c && last in blocks;
    forall a | a in blocks && a != last ensures a + c <= last && last < End(sp) {
      CarvedBounds(Base(sp), End(sp), c);
      if a < last { BlocksAreSpaced(Base(sp), End(sp), c, a, last); } else { NoLaterBlock(sp, n, a); }
    }
  }

  lemma NoLaterBlock(sp: Span, n: nat, a: Addr)
    requires 0 < sp.blockSize <= MAX_BYTES && 1 <= sp.cnt && n == |BlocksOf(sp)| && a in BlocksOf(sp)
    ensures a <= Base(sp) + (n - 1) * sp.blockSize
  {
    CarvedAt(Base(sp), End(sp), sp.blockSize);
    hide Carved;
    var i :| 0 <= i < n && BlocksOf(sp)[i] == a;
    MulMono(i, n - 1, sp.blockSize);
  }

  // ---------- which blocks overlap ----------

  /** Some span of blocks starts on this page. */
  ghost predicate BlocksStartAt(p: Pool, page: nat) {
    && page in p.page.owner && p.page.owner[page] in p.role
    && (p.role[p.page.owner[page]] == Serving || p.role[p.page.owner[page]] == Big)
  }

  /** Block a and a later block of another span overlap exactly when a's span does not tile, a
      is its last block, and the other starts before a ends. */
  lemma PairOverlapsIff(p: Pool, a: Addr, b: Addr)
    requires PoolInv(p) && a in p.place && b in p.place && a < b && p.place[a].span != p.place[b].span
    ensures p.place[a].span in p.page.spans
    ensures var sp := p.page.spans[p.place[a].span];
      b < a + sp.blockSize <==> !Tiles(sp) && a + sp.blockSize == OverrunEnd(sp) && b < OverrunEnd(sp)
  {
    hide PoolInv, Tiles, BlocksOf, Base, End, OverrunEnd, NumMovePage, Index, IsClass;
    LookupFindsSpan(p, a);
    LookupFindsSpan(p, b);
    var q := p.place[a].span;
    BlocksDoNotOverlap(p, a, b);
    SpansInOrder(p, q, p.place[b].span, a, b);
    if p.role[q] == Serving {
      ServesClass(p, q);
      LastBlock(p.page.spans[q]);
    } else {
      BigTiles(p, q);
    }
  }

  lemma BigTiles(p: Pool, q: Ptr)
    requires PoolInv(p) && q in p.role && p.role[q] == Big
    ensures q in p.page.spans && Tiles(p.page.spans[q])
  {
    hide PoolInv;
    BigFits(p, q);
  }

  // The page behind span q, if a span r of blocks starts there.
  lemma NextSpan(p: Pool, q: Ptr, sp: Span, r: Ptr)
    requires PoolInv(p) && q in p.page.spans && sp == p.page.spans[q] && BlocksStartAt(p, sp.pageId + sp.cnt)
    requires r == p.page.owner[sp.pageId + sp.cnt]
    ensures r != q && r in p.page.spans && End(sp) in BlocksOf(p.page.spans[r])
    ensures End(sp) in p.place && p.place[End(sp)].span == r
  {
    hide PoolOk, Listed, MapOk, BlocksOf;
    var page := sp.pageId + sp.cnt;
    assert InSpan(p.page.spans[r], page) && !InSpan(sp, page);
    assert InSpan(sp, page - 1) && p.page.owner[page - 1] == q;
    assert !InSpan(p.page.spans[r], page - 1);
    FirstBlockInPlace(p, r);
  }

  lemma NextBlock(p: Pool, q: Ptr, sp: Span)
    requires PoolInv(p) && q in p.page.spans && sp == p.page.spans[q] && BlocksStartAt(p, sp.pageId + sp.cnt)
    ensures End(sp) in p.place && p.place[End(sp)].span != q
  {
    hide PoolInv;
    NextSpan(p, q, sp, p.page.owner[sp.pageId + sp.cnt]);
  }

  lemma FirstBlockInPlace(p: Pool, r: Ptr)
    requires PoolInv(p) && r in p.role && (p.role[r] == Serving || p.role[r] == Big)
    ensures r in p.page.spans && Base(p.page.spans[r]) in BlocksOf(p.page.spans[r])
    ensures Base(p.page.spans[r]) in p.place && p.place[Base(p.page.spans[r])].span == r
  {
    hide PoolInv, Index, NumMovePage, IsClass, BlocksOf, Base;
    SpanPages(p, r);
    FirstBlock(p.page.spans[r]);
    BlockOfRole(p, r, Base(p.page.spans[r]));
  }

  lemma FirstBlock(sp: Span)
    requires 1 <= sp.cnt
    ensures Base(sp) in BlocksOf(sp)
  {
  }

  /** Blocks of a span overlap blocks of another one behind it exactly when the class does not
      tile and the very next page carries blocks. */
  lemma SpanOverlapsIff(p: Pool, q: Ptr)
    requires PoolInv(p) && q in p.role && p.role[q] == Serving
    ensures q in p.page.spans
    ensures var sp := p.page.spans[q];
      (exists a, b :: a in p.place && b in p.place && p.place[a].span == q && p.place[b].span != q
         && a < b < a + sp.blockSize)
      <==> !Tiles(sp) && BlocksStartAt(p, sp.pageId + sp.cnt)
  {
    hide PoolInv, Tiles, BlocksOf, Base, End, OverrunEnd, NumMovePage, Index, IsClass, BlocksStartAt;
    ServesClass(p, q);
    var sp := p.page.spans[q];
    LastBlock(sp);
    if a, b :| a in p.place && b in p.place && p.place[a].span == q && p.place[b].span != q
               && a < b < a + sp.blockSize {
      PairOverlapsIff(p, a, b);
      OverlapIsNext(p, q, a, b);
    }
    if !Tiles(sp) && BlocksStartAt(p, sp.pageId + sp.cnt) {
      NextBlock(p, q, sp);
      var a := OverrunEnd(sp) - sp.blockSize;
      ServingBlock(p, q, a);
      SpanPages(p, q);
      BlockPage(sp, a);
      assert a in p.place && End(sp) in p.place && a < End(sp) < a + sp.blockSize;
    }
  }

  lemma OverlapIsNext(p: Pool, q: Ptr, a: Addr, b: Addr)
    requires PoolInv(p) && a in p.place && b in p.place && q == p.place[a].span && q != p.place[b].span
    requires a < b && q in p.page.spans && b < End(p.page.spans[q]) + PAGE_BYTES
    ensures BlocksStartAt(p, p.page.spans[q].pageId + p.page.spans[q].cnt)
  {
    hide PoolOk, Listed, MapOk, BlocksOf;
    LookupFindsSpan(p, a);
    LookupFindsSpan(p, b);
    var r := p.place[b].span;
    SpansInOrder(p, q, r, a, b);
    BlockPage(p.page.spans[r], b);
    assert p.page.owner[PageOf(b)] == r;
  }

  /** 528 bytes is a class whose last block reaches 144 bytes into the next page. */
  lemma SomeClassOverruns(sp: Span)
    requires sp.blockSize == 528 && sp.cnt == NumMovePage(528)
    ensures IsClass(528) && ClassSpan(sp) && OverrunEnd(sp) == End(sp) + 144 && !Tiles(sp)
  {
    assert NumMovePage(528) == 63;
    CarvedAt(Base(sp), End(sp), 528);
    hide Carved;
    LastBlock(sp);
    assert |BlocksOf(sp)| == 489;
  }

  // ---------- link words ----------

  // The link word of a block lies inside its span.
  lemma LinkInside(p: Pool, b: Addr)
    requires PoolInv(p) && b in p.place
    ensures p.place[b].span in p.page.spans && b + 8 <= End(p.page.spans[p.place[b].span])
  {
    hide PoolInv, NumMovePage, Index, IsClass;
    LookupFindsSpan(p, b);
    var q := p.place[b].span;
    var sp := p.page.spans[q];
    if p.role[q] == Serving {
      ServesClass(p, q);
      ClassIsWords(sp);
      LinkWordsFit(Base(sp), End(sp), sp.blockSize);
    } else {
      BigFits(p, q);
      LargeBlocksOf(sp);
    }
  }

  lemma ClassIsWords(sp: Span)
    requires ClassSpan(sp)
    ensures sp.blockSize % 8 == 0
  {
    hide NumMovePage, RoundUp;
    RoundUpIsLeastClass(sp.blockSize, sp.blockSize);
  }

  /** The bytes a block's holder may use are apart from the link word of every other block,
      if the block's span tiles or the other block is of the same span. */
  lemma BlockSparesLinks(p: Pool, a: Addr, b: Addr)
    requires PoolInv(p) && a in p.place && b in p.place && a != b
    ensures p.place[a].span in p.page.spans
    ensures var sp := p.page.spans[p.place[a].span];
      Tiles(sp) || p.place[b].span == p.place[a].span ==> a + sp.blockSize <= b || b + 8 <= a
  {
    hide PoolInv, Tiles, BlocksOf, Base, End, NumMovePage, Index, IsClass;
    LookupFindsSpan(p, a);
    LookupFindsSpan(p, b);
    if a < b {
      BlocksDoNotOverlap(p, a, b);
    } else if p.place[a].span == p.place[b].span {
      SameSpanSpaced(p, b, a);
      SpanBlockSize(p, b);
    } else {
      LinkInside(p, b);
      SpansInOrder(p, p.place[b].span, p.place[a].span, b, a);
    }
  }

  lemma SpanBlockSize(p: Pool, a: Addr)
    requires PoolInv(p) && a in p.place
    ensures p.place[a].span in p.page.spans && 8 <= p.page.spans[p.place[a].span].blockSize
  {
    hide PoolInv, NumMovePage, Index, IsClass;
    LookupFindsSpan(p, a);
    if p.role[p.place[a].span] == Serving { ServesClass(p, p.place[a].span); } else { BigFits(p, p.place[a].span); }
  }

  /** The link words inside a block's bytes, other than its own, are exactly those of the blocks
      that start before its end on the page behind its span. */
  lemma CoversLinksIff(p: Pool, a: Addr, b: Addr)
    requires PoolInv(p) && a in p.place && b in p.place && a != b
    ensures p.place[a].span in p.page.spans
    ensures var sp := p.page.spans[p.place[a].span];
      (a < b + 8 && b < a + sp.blockSize) <==> End(sp) <= b < a + sp.blockSize
  {
    hide PoolInv, Tiles, BlocksOf, Base, End, NumMovePage, Index, IsClass;
    LookupFindsSpan(p, a);
    LookupFindsSpan(p, b);
    BlockSparesLinks(p, a, b);
    SpanPages(p, p.place[a].span);
    if p.place[a].span == p.place[b].span {
      BlockPage(p.page.spans[p.place[a].span], b);
    } else if a < b {
      SpansInOrder(p, p.place[a].span, p.place[b].span, a, b);
    } else {
      LinkInside(p, b);
      SpansInOrder(p, p.place[b].span, p.place[a].span, b, a);
    }
    BlockPage(p.page.spans[p.place[a].span], a);
  }

  // ---------- what users write ----------

  /** Block b starts in the part of a block that reaches past its span. */
  ghost predicate Overrun(p: Pool, a: Addr, b: Addr)
    requires a in p.place && p.place[a].span in p.page.spans
  {
    End(p.page.spans[p.place[a].span]) <= b < a + p.page.spans[p.place[a].span].blockSize
  }

  /** A user who writes inside a live block breaks no list of free blocks, of a span, of a
      thread cache or in transit, that has none of its blocks in the block's overrun. */
  lemma UserWritesKeepLists(p: Pool, m: Words, head: Addr, l: seq<Addr>, a: Addr, x: Addr, v: Addr)
    requires PoolInv(p) && IsLive(p, a) && p.place[a].span in p.page.spans
    requires a <= x && x + 8 <= a + p.page.spans[p.place[a].span].blockSize
    requires Chain(m, head, l) && forall b :: b in l ==> b in p.place && !IsLive(p, b) && !Overrun(p, a, b)
    ensures Chain(m[x := v], head, l)
    ensures forall b :: b in l ==> x + 8 <= b || b + 8 <= x
  {
    hide PoolInv, Tiles;
    forall b | b in l ensures x + 8 <= b || b + 8 <= x {
      CoversLinksIff(p, a, b);
    }
    ChainFrame(m, head, l, x, v);
  }

  ghost predicate KeepsChain(m: Words, x: Addr, v: Addr, head: Addr, l: seq<Addr>) {
    Chain(m[x := v], head, l)
  }

  /** A list can be broken from inside a live block exactly when one of the list's blocks
      starts in the part of that block that reaches past its span. */
  lemma WritesAreHarmlessIff(p: Pool, m: Words, head: Addr, l: seq<Addr>, a: Addr)
    requires PoolInv(p) && IsLive(p, a) && p.place[a].span in p.page.spans
    requires Chain(m, head, l) && NoDup(l) && forall b :: b in l ==> b in p.place && !IsLive(p, b)
    ensures (forall x: Addr, v: Addr :: a <= x && x + 8 <= a + p.page.spans[p.place[a].span].blockSize ==>
               KeepsChain(m, x, v, head, l))
      <==> forall b :: b in l ==> !Overrun(p, a, b)
  {
    hide PoolInv, Overrun, Chain, NoDup;
    var size := p.page.spans[p.place[a].span].blockSize;
    if b :| b in l && Overrun(p, a, b) {
      BlockIsWord(p, b);
      OverrunFits(p, a, b);
      var v := Word(m, b) + 1;
      ChangedLink(m, head, l, b, v);
      assert !KeepsChain(m, b, v, head, l);
    } else {
      forall x: Addr, v: Addr | a <= x && x + 8 <= a + size ensures KeepsChain(m, x, v, head, l) {
        UserWritesKeepLists(p, m, head, l, a, x, v);
      }
    }
  }

  // A word that starts in an overrun is wholly there.
  lemma OverrunFits(p: Pool, a: Addr, b: Addr)
    requires PoolInv(p) && a in p.place && p.place[a].span in p.page.spans && Overrun(p, a, b) && b % 8 == 0
    ensures a < b && b + 8 <= a + p.page.spans[p.place[a].span].blockSize
  {
    hide PoolInv, NumMovePage, Index, IsClass, Tiles, BlocksOf, Base, End;
    LookupFindsSpan(p, a);
    var q := p.place[a].span;
    SpanPages(p, q);
    BlockPage(p.page.spans[q], a);
    if p.role[q] == Serving {
      ServesClass(p, q);
      ClassIsWords(p.page.spans[q]);
      BlockIsWord(p, a);
    } else {
      NoOverrunOfBig(p, a, b);
    }
  }

  lemma NoOverrunOfBig(p: Pool, a: Addr, b: Addr)
    requires PoolInv(p) && a in p.place && p.place[a].span in p.role && p.role[p.place[a].span] == Big
    ensures p.place[a].span in p.page.spans && !Overrun(p, a, b)
  {
    hide PoolInv;
    LookupFindsSpan(p, a);
    BigFits(p, p.place[a].span);
    LargeBlocksOf(p.page.spans[p.place[a].span]);
  }

  lemma BlockIsWord(p: Pool, b: Addr)
    requires PoolInv(p) && b in p.place
    ensures b % 8 == 0
  {
    hide PoolInv, NumMovePage, Index, IsClass;
    LookupFindsSpan(p, b);
    var sp := p.page.spans[p.place[b].span];
    if p.role[p.place[b].span] == Serving {
      ServesClass(p, p.place[b].span);
      ClassIsWords(sp);
      LinkWordsFit(Base(sp), End(sp), sp.blockSize);
    } else {
      BigFits(p, p.place[b].span);
      LargeBlocksOf(sp);
    }
  }

  // A list with a changed link is no longer that list.
  lemma {:induction false} ChangedLink(m: Words, head: Addr, l: seq<Addr>, b: Addr, v: Addr)
    requires Chain(m, head, l) && NoDup(l) && b in l && v != Word(m, b)
    ensures !Chain(m[b := v], head, l)
    decreases |l|
  {
    if l[0] == b {
      if |l| > 1 { assert Chain(m, Word(m, b), l[1..]); }
    } else {
      assert b in l[1..];
      ChangedLink(m, Word(m, head), l[1..], b, v);
    }
  }
}
