/**
 The single-page writes that newSpan and revertSpanToPageCache make to the page map, in order.
 */
module MapWrites {
  import opened PageModel

  // hash_.set(page, to)
  datatype Write = Write(page: nat, to: Ptr)

  /** The page map after these writes. */
  function Written(h: map<nat, Ptr>, ws: seq<Write>): map<nat, Ptr> {
    if ws == [] then h else Written(h, ws[..|ws| - 1])[ws[|ws| - 1].page := ws[|ws| - 1].to]
  }

  // The loop over all pages of a span.
  function Ranged(from: nat, cnt: nat, q: Ptr): seq<Write> {
    if cnt == 0 then [] else Ranged(from, cnt - 1, q) + [Write(from + cnt - 1, q)]
  }

  lemma WrittenMore(h: map<nat, Ptr>, ws: seq<Write>, w: Write)
    ensures Written(h, ws + [w]) == Written(h, ws)[w.page := w.to]
  {
    assert (ws + [w])[..|ws|] == ws;
  }

  lemma {:induction false} WrittenThen(h: map<nat, Ptr>, ws: seq<Write>, vs: seq<Write>)
    ensures Written(h, ws + vs) == Written(Written(h, ws), vs)
    decreases |vs|
  {
    if vs == [] {
      assert ws + vs == ws;
    } else {
      var last := vs[|vs| - 1];
      assert ws + vs == (ws + vs[..|vs| - 1]) + [last];
      WrittenMore(h, ws + vs[..|vs| - 1], last);
      WrittenThen(h, ws, vs[..|vs| - 1]);
    }
  }

  lemma {:induction false} RangedIsSetRange(h: map<nat, Ptr>, from: nat, cnt: nat, q: Ptr)
    ensures Written(h, Ranged(from, cnt, q)) == SetRange(h, from, cnt, q)
    ensures forall w :: w in Ranged(from, cnt, q) ==> from <= w.page < from + cnt
  {
    if cnt > 0 {
      RangedIsSetRange(h, from, cnt - 1, q);
      WrittenMore(h, Ranged(from, cnt - 1, q), Write(from + cnt - 1, q));
    }
  }

  /** Writes to other pages leave an entry alone, at every moment. */
  lemma {:induction false} WritesSpare(h: map<nat, Ptr>, ws: seq<Write>, k: nat, p: nat)
    requires k <= |ws| && forall w :: w in ws ==> w.page != p
    ensures SameEntry(h, Written(h, ws[..k]), p)
    decreases k
  {
    if k > 0 {
      assert ws[..k][..k - 1] == ws[..k - 1];
      assert ws[k - 1] in ws;
      WritesSpare(h, ws, k - 1, p);
    }
  }

  // ---------- the writes of each section ----------

  // newSpan when bucket i has the first span that fits.
  ghost function FitWrites(s: State, n: nat, k: Ptr): seq<Write>
    requires 1 <= n <= MAX_PAGES && Searchable(s.spans, s.lists) && FirstNonEmpty(s.lists, n) <= MAX_PAGES
  {
    var i := FirstNonEmpty(s.lists, n);
    var x := s.lists[i][0];
    var sp := s.spans[x];
    if i == n then Ranged(sp.pageId, sp.cnt, x)
    else [Write(sp.pageId + n, x), Write(sp.pageId + sp.cnt - 1, x)] + Ranged(sp.pageId, n, k)
  }

  ghost function GrantWrites(s: State, n: nat, e: Supply): seq<Write>
    requires 1 <= n && Searchable(s.spans, s.lists) && FreshSpans(s, n, e)
  {
    if n > MAX_PAGES then [Write(e.base, e.l)]
    else if FirstNonEmpty(s.lists, n) <= MAX_PAGES then FitWrites(s, n, e.k)
    else
      AddLargeFirst(s, n, e);
      FitWrites(AddLarge(s, e.l, e.base), n, e.k)
  }

  lemma RevertedSpan(s: State, q: Ptr)
    requires Revertible(s, q)
    ensures var t := Revert(s, q);
      && q in t.spans && 1 <= t.spans[q].cnt
      && t.hash == s.hash[t.spans[q].pageId := q][LastPage(t.spans[q]) := q]
  {
    hide Inv, WeakInv, MergeBack, MergeForward, Revert, BackBlocked, ForwardBlocked;
    var v := RevertIsFinish(s, q);
    FinishShape(v, q);
  }

  // The merge loops write nothing; the merged span's ends are mapped at the end.
  ghost function RevertWrites(s: State, q: Ptr): seq<Write>
    requires Revertible(s, q)
  {
    hide Revertible, Revert;
    RevertedSpan(s, q);
    var sp := Revert(s, q).spans[q];
    [Write(sp.pageId, q), Write(LastPage(sp), q)]
  }

  lemma TwoWrites(h: map<nat, Ptr>, v: Write, w: Write)
    ensures Written(h, [v, w]) == h[v.page := v.to][w.page := w.to]
  {
    WrittenMore(h, [], v);
    WrittenMore(h, [v], w);
    assert [] + [v] == [v] && [v] + [w] == [v, w];
  }

  lemma FitIsWritten(s: State, n: nat, k: Ptr)
    requires 1 <= n <= MAX_PAGES && Searchable(s.spans, s.lists) && FirstNonEmpty(s.lists, n) <= MAX_PAGES
      && k !in s.spans
    ensures Fit(s, n, k).0.hash == Written(s.hash, FitWrites(s, n, k))
  {
    hide SetRange, Without, Written, Ranged, FirstNonEmpty, CutAndRelink;
    var i := FirstNonEmpty(s.lists, n);
    var x := s.lists[i][0];
    var sp := s.spans[x];
    if i == n {
      RangedIsSetRange(s.hash, sp.pageId, sp.cnt, x);
    } else {
      var v, w := Write(sp.pageId + n, x), Write(sp.pageId + sp.cnt - 1, x);
      SplitMap(s, i, n, k, x, sp);
      WrittenThen(s.hash, [v, w], Ranged(sp.pageId, n, k));
      TwoWrites(s.hash, v, w);
      RangedIsSetRange(Written(s.hash, [v, w]), sp.pageId, n, k);
    }
  }

  // The entries that a split leaves: both ends of the rest, then all pages cut off.
  lemma SplitMap(s: State, i: nat, n: nat, k: Ptr, x: Ptr, sp: Span)
    requires 1 <= n < i <= MAX_PAGES && Searchable(s.spans, s.lists) && s.lists[i] != [] && k !in s.spans
    requires x == s.lists[i][0] && sp == s.spans[x]
    ensures Split(s, i, n, k).hash ==
      SetRange(s.hash[sp.pageId + n := x][sp.pageId + sp.cnt - 1 := x], sp.pageId, n, k)
  {
    hide SetRange, Without;
  }

  /** The writes are those of the section: after all of them the map is that of the grant. */
  lemma GrantIsWritten(s: State, n: nat, size: nat, e: Supply)
    requires 1 <= n && Searchable(s.spans, s.lists) && FreshSpans(s, n, e)
    ensures Grant(s, n, size, e).0.hash == Written(s.hash, GrantWrites(s, n, e))
  {
    hide FitWrites, Fit, SetRange;
    if n > MAX_PAGES {
      assert [Write(e.base, e.l)][..0] == [];
    } else if FirstNonEmpty(s.lists, n) <= MAX_PAGES {
      FitIsWritten(s, n, e.k);
    } else {
      AddLargeFirst(s, n, e);
      FitIsWritten(AddLarge(s, e.l, e.base), n, e.k);
    }
  }

  lemma RevertIsWritten(s: State, q: Ptr)
    requires Revertible(s, q)
    ensures Revert(s, q).hash == Written(s.hash, RevertWrites(s, q))
  {
    hide Revertible, Revert, Written;
    RevertedSpan(s, q);
    var sp := Revert(s, q).spans[q];
    TwoWrites(s.hash, Write(sp.pageId, q), Write(LastPage(sp), q));
  }
}
