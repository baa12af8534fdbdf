/**
 The page heap as a value: what PageCache does to spans, bucket lists and the page map,
 and the invariant that ties them together.

 Span objects live at addresses (`Ptr`) that the object pool reuses, so a span is a record
 in a store keyed by address, and a stale page-map entry may well hold an address that
 now belongs to another span.
 */
module PageModel {

  const MAX_PAGES: nat := 128                      // kPageBucketSize - 1
  const PAGE_LIMIT: nat := 0x10_0000_0000_0000     // page numbers have 52 bits

  type Ptr = nat
  type Lists = seq<seq<Ptr>>

  datatype Span = Span(pageId: nat, cnt: nat, used: bool, useCnt: int, blockSize: nat)

  /** `owner` is an auxiliary variable: the span that owns each page obtained so far. */
  datatype State = State(spans: map<Ptr, Span>, lists: Lists, hash: map<nat, Ptr>, owner: map<nat, Ptr>)

  predicate InSpan(sp: Span, page: nat) {
    sp.pageId <= page < sp.pageId + sp.cnt
  }

  function LastPage(sp: Span): nat
    requires 0 < sp.cnt
  {
    sp.pageId + sp.cnt - 1
  }

  // ---------- the invariant ----------

  ghost predicate NoDup<T>(l: seq<T>) {
    forall i, j :: 0 <= i < j < |l| ==> l[i] != l[j]
  }

  /** The spans partition exactly the pages obtained from the system. */
  ghost predicate Partition(spans: map<Ptr, Span>, owner: map<nat, Ptr>) {
    && (forall q :: q in spans ==>
          && 1 <= spans[q].cnt && spans[q].pageId + spans[q].cnt <= PAGE_LIMIT
          && (!spans[q].used ==> spans[q].cnt <= MAX_PAGES && spans[q].useCnt == 0))
    && (forall q, p {:trigger InSpan(spans[q], p)} :: q in spans && InSpan(spans[q], p) ==> p in owner && owner[p] == q)
    && (forall p {:trigger owner[p]} :: p in owner ==> owner[p] in spans && InSpan(spans[owner[p]], p))
  }

  /** The spans in list i are distinct free spans of i pages, none of them held. */
  ghost predicate ListOk(spans: map<Ptr, Span>, l: seq<Ptr>, i: nat, held: set<Ptr>) {
    && NoDup(l)
    && (forall q :: q in l ==> q in spans && q !in held && !spans[q].used && spans[q].cnt == i)
  }

  /** The buckets hold exactly the free spans, apart from the held ones. */
  ghost predicate Listed(spans: map<Ptr, Span>, lists: Lists, held: set<Ptr>) {
    && |lists| == MAX_PAGES + 1
    && (forall i :: 0 <= i <= MAX_PAGES ==> ListOk(spans, lists[i], i, held))
    && (forall q :: q in spans && !spans[q].used && q !in held && spans[q].cnt <= MAX_PAGES
          ==> q in lists[spans[q].cnt])
  }

  /** What the page map must say about one span. */
  ghost predicate Mapped(hash: map<nat, Ptr>, q: Ptr, sp: Span) {
    if !sp.used then
      && 0 < sp.cnt && sp.pageId in hash && hash[sp.pageId] == q
      && LastPage(sp) in hash && hash[LastPage(sp)] == q
    else if sp.cnt <= MAX_PAGES then
      forall p :: InSpan(sp, p) ==> p in hash && hash[p] == q
    else
      && sp.pageId in hash && hash[sp.pageId] == q
      && (forall p :: InSpan(sp, p) && p != sp.pageId ==> p !in hash)
  }

  /** Pages never obtained map to null, and every span except the stale ones is mapped. */
  ghost predicate MapOk(spans: map<Ptr, Span>, hash: map<nat, Ptr>, owner: map<nat, Ptr>, stale: set<Ptr>) {
    && (forall p :: p in hash ==> p in owner)
    && (forall q :: q in spans && q !in stale ==> Mapped(hash, q, spans[q]))
  }

  ghost predicate WeakInv(s: State, held: set<Ptr>, stale: set<Ptr>) {
    && Partition(s.spans, s.owner)
    && Listed(s.spans, s.lists, held)
    && MapOk(s.spans, s.hash, s.owner, stale)
  }

  ghost predicate Inv(s: State) {
    WeakInv(s, {}, {})
  }

  function Init(): State {
    State(map[], seq(MAX_PAGES + 1, _ => []), map[], map[])
  }

  // ---------- the primitive actions ----------

  // The effect of the loop that sets cnt consecutive pages.
  function SetRange(m: map<nat, Ptr>, from: nat, cnt: nat, q: Ptr): map<nat, Ptr> {
    if cnt == 0 then m else SetRange(m, from, cnt - 1, q)[from + cnt - 1 := q]
  }

  lemma {:induction false} SetRangeFacts(m: map<nat, Ptr>, from: nat, cnt: nat, q: Ptr)
    ensures var r := SetRange(m, from, cnt, q);
      && (forall p :: p in r <==> p in m || from <= p < from + cnt)
      && (forall p :: p in r ==> r[p] == if from <= p < from + cnt then q else m[p])
  {
    if cnt > 0 { SetRangeFacts(m, from, cnt - 1, q); }
  }

  function Without<T(==)>(l: seq<T>, x: T): seq<T> {
    if l == [] then [] else if l[0] == x then l[1..] else [l[0]] + Without(l[1..], x)
  }

  // SpanList::erase and SpanList::pushFront on bucket i
  function Unlink(s: State, i: nat, q: Ptr): State
    requires i < |s.lists|
  {
    s.(lists := s.lists[i := Without(s.lists[i], q)])
  }

  function Link(s: State, i: nat, q: Ptr): State
    requires i < |s.lists|
  {
    s.(lists := s.lists[i := [q] + s.lists[i]])
  }

  function MapEnds(s: State, q: Ptr): State
    requires q in s.spans && s.spans[q].cnt > 0
  {
    s.(hash := s.hash[s.spans[q].pageId := q][LastPage(s.spans[q]) := q])
  }

  function MapAll(s: State, q: Ptr): State
    requires q in s.spans
  {
    s.(hash := SetRange(s.hash, s.spans[q].pageId, s.spans[q].cnt, q))
  }

  // Cut n pages off the head of span x into a new span at address k.
  function Cut(s: State, x: Ptr, n: nat, k: Ptr): State
    requires x in s.spans && n <= s.spans[x].cnt
  {
    var sp := s.spans[x];
    s.(spans := s.spans[x := sp.(pageId := sp.pageId + n, cnt := sp.cnt - n)][k := Span(sp.pageId, n, false, 0, 0)],
       owner := SetRange(s.owner, sp.pageId, n, k))
  }

  // n fresh pages from the system as a new span at address l
  function Obtain(s: State, l: Ptr, base: nat, n: nat): State {
    s.(spans := s.spans[l := Span(base, n, false, 0, 0)], owner := SetRange(s.owner, base, n, l))
  }

  // The caller of newSpan marks the span in the same critical section.
  function Mark(s: State, q: Ptr, size: nat): State
    requires q in s.spans
  {
    s.(spans := s.spans[q := s.spans[q].(used := true, blockSize := size)])
  }

  // Span q takes over the pages of the unlinked neighbour r, whose object is freed.
  function Absorb(s: State, q: Ptr, r: Ptr): State
    requires q in s.spans && r in s.spans
  {
    var sp, nb := s.spans[q], s.spans[r];
    var first := if nb.pageId < sp.pageId then nb.pageId else sp.pageId;
    s.(spans := s.spans[q := sp.(pageId := first, cnt := sp.cnt + nb.cnt)] - {r},
       owner := SetRange(s.owner, nb.pageId, nb.cnt, q))
  }

  function Release(s: State, q: Ptr): State
    requires q in s.spans
  {
    s.(spans := s.spans[q := s.spans[q].(used := false)])
  }

  // ---------- what each primitive keeps ----------

  lemma WithoutFacts<T>(l: seq<T>, x: T)
    requires NoDup(l)
    ensures NoDup(Without(l, x))
    ensures forall y :: y in Without(l, x) <==> y in l && y != x
    ensures |Without(l, x)| == if x in l then |l| - 1 else |l|
  {
    if l != [] {
      assert l == [l[0]] + l[1..];
      assert NoDup(l[1..]);
      WithoutFacts(l[1..], x);
      assert l[0] !in Without(l[1..], x);
    }
  }

  lemma UnlinkKeeps(s: State, i: nat, q: Ptr, held: set<Ptr>)
    requires i <= MAX_PAGES && Listed(s.spans, s.lists, held) && q in s.lists[i]
    ensures Listed(s.spans, Unlink(s, i, q).lists, held + {q})
  {
    var l' := Unlink(s, i, q).lists;
    assert ListOk(s.spans, s.lists[i], i, held);
    WithoutFacts(s.lists[i], q);
    forall j | 0 <= j <= MAX_PAGES ensures ListOk(s.spans, l'[j], j, held + {q}) {
      assert ListOk(s.spans, s.lists[j], j, held);
    }
  }

  lemma LinkKeeps(s: State, q: Ptr, held: set<Ptr>)
    requires Listed(s.spans, s.lists, held) && q in held
    requires q in s.spans && !s.spans[q].used && s.spans[q].cnt <= MAX_PAGES
    ensures Listed(s.spans, Link(s, s.spans[q].cnt, q).lists, held - {q})
  {
    var l' := Link(s, s.spans[q].cnt, q).lists;
    forall j | 0 <= j <= MAX_PAGES ensures ListOk(s.spans, l'[j], j, held - {q}) {
      assert ListOk(s.spans, s.lists[j], j, held);
    }
  }

  // Lists do not care about spans that are held or in use.
  lemma ListedFrame(spans: map<Ptr, Span>, spans': map<Ptr, Span>, lists: Lists, held: set<Ptr>, held': set<Ptr>)
    requires Listed(spans, lists, held)
    requires forall q :: q in spans && q !in held && !spans[q].used ==>
        q in spans' && spans'[q] == spans[q] && q !in held'
    requires forall q :: q in spans' && !spans'[q].used && q !in held' ==>
        q in spans && q !in held && spans'[q] == spans[q]
    ensures Listed(spans', lists, held')
  {
    forall j | 0 <= j <= MAX_PAGES ensures ListOk(spans', lists[j], j, held') {
      assert ListOk(spans, lists[j], j, held);
    }
  }

  ghost predicate Agree(h: map<nat, Ptr>, h': map<nat, Ptr>, sp: Span) {
    forall p :: InSpan(sp, p) ==> (p in h <==> p in h') && (p in h ==> h'[p] == h[p])
  }

  lemma MappedFrame(h: map<nat, Ptr>, h': map<nat, Ptr>, q: Ptr, sp: Span)
    requires 1 <= sp.cnt && Mapped(h, q, sp) && Agree(h, h', sp)
    ensures Mapped(h', q, sp)
  {
    assert InSpan(sp, sp.pageId) && InSpan(sp, LastPage(sp));
  }

  lemma HashWithin(spans: map<Ptr, Span>, hash: map<nat, Ptr>, owner: map<nat, Ptr>, stale: set<Ptr>)
    requires MapOk(spans, hash, owner, stale)
    ensures forall p :: p in hash ==> p in owner
  {
  }

  // Writes inside span q leave the entries of every other span alone.
  lemma MapFrame(spans: map<Ptr, Span>, h: map<nat, Ptr>, h': map<nat, Ptr>, owner: map<nat, Ptr>, q: Ptr,
        stale: set<Ptr>)
    requires Partition(spans, owner) && MapOk(spans, h, owner, stale) && q in spans
    requires forall p :: p in h' ==> p in h || InSpan(spans[q], p)
    requires forall p :: p in h && !InSpan(spans[q], p) ==> p in h' && h'[p] == h[p]
    requires Mapped(h', q, spans[q])
    ensures MapOk(spans, h', owner, stale - {q})
  {
    forall r | r in spans && r !in stale - {q} ensures Mapped(h', r, spans[r]) {
      if r != q {
        forall p | InSpan(spans[r], p) ensures !InSpan(spans[q], p) {
          assert owner[p] == r;
        }
        MappedFrame(h, h', r, spans[r]);
      }
    }
  }

  lemma MapEndsKeeps(s: State, q: Ptr, stale: set<Ptr>)
    requires Partition(s.spans, s.owner) && MapOk(s.spans, s.hash, s.owner, stale)
    requires q in s.spans && !s.spans[q].used
    ensures MapOk(s.spans, MapEnds(s, q).hash, s.owner, stale - {q})
  {
    MapFrame(s.spans, s.hash, MapEnds(s, q).hash, s.owner, q, stale);
  }

  lemma MapAllKeeps(s: State, q: Ptr, stale: set<Ptr>)
    requires Partition(s.spans, s.owner) && MapOk(s.spans, s.hash, s.owner, stale)
    requires q in s.spans && s.spans[q].cnt <= MAX_PAGES
    ensures MapOk(s.spans, MapAll(s, q).hash, s.owner, stale - {q}) && FullyMapped(MapAll(s, q), q)
  {
    SetRangeFacts(s.hash, s.spans[q].pageId, s.spans[q].cnt, q);
    MapFrame(s.spans, s.hash, MapAll(s, q).hash, s.owner, q, stale);
  }

  ghost predicate Cuttable(s: State, x: Ptr, n: nat, k: Ptr) {
    x in s.spans && !s.spans[x].used && 1 <= n < s.spans[x].cnt && k !in s.spans
  }

  lemma CutPartition(s: State, x: Ptr, n: nat, k: Ptr)
    requires Partition(s.spans, s.owner) && Cuttable(s, x, n, k)
    ensures Partition(Cut(s, x, n, k).spans, Cut(s, x, n, k).owner)
  {
    SetRangeFacts(s.owner, s.spans[x].pageId, n, k);
    var s' := Cut(s, x, n, k);
    forall q, p | q in s'.spans && InSpan(s'.spans[q], p) ensures p in s'.owner && s'.owner[p] == q {
      var o := if q == k then x else q;
      assert InSpan(s.spans[o], p) && s.owner[p] == o;
      assert q != k && q != x ==> !InSpan(s.spans[x], p);
    }
    forall p | p in s'.owner ensures s'.owner[p] in s'.spans && InSpan(s'.spans[s'.owner[p]], p) {
      if p in s.owner {
        assert InSpan(s.spans[s.owner[p]], p);
      } else {
        assert InSpan(s.spans[x], p);
      }
    }
  }

  lemma CutKeeps(s: State, x: Ptr, n: nat, k: Ptr, stale: set<Ptr>)
    requires WeakInv(s, {x}, stale) && stale <= {x} && Cuttable(s, x, n, k)
    ensures WeakInv(Cut(s, x, n, k), {x, k}, {x, k})
  {
    SetRangeFacts(s.owner, s.spans[x].pageId, n, k);
    CutPartition(s, x, n, k);
    hide Partition;
    ListedFrame(s.spans, Cut(s, x, n, k).spans, s.lists, {x}, {x, k});
  }

  // A span over pages that nobody owned can join the partition.
  ghost predicate Joins(s: State, l: Ptr, sp: Span) {
    && l !in s.spans && 1 <= sp.cnt && sp.pageId + sp.cnt <= PAGE_LIMIT
    && (!sp.used ==> sp.cnt <= MAX_PAGES && sp.useCnt == 0)
    && (forall p :: InSpan(sp, p) ==> p !in s.owner)
  }

  lemma JoinPartition(s: State, l: Ptr, sp: Span)
    requires Partition(s.spans, s.owner) && Joins(s, l, sp)
    ensures Partition(s.spans[l := sp], SetRange(s.owner, sp.pageId, sp.cnt, l))
  {
    SetRangeFacts(s.owner, sp.pageId, sp.cnt, l);
  }

  lemma JoinMap(s: State, l: Ptr, sp: Span)
    requires MapOk(s.spans, s.hash, s.owner, {}) && Joins(s, l, sp)
    ensures MapOk(s.spans[l := sp], s.hash, SetRange(s.owner, sp.pageId, sp.cnt, l), {l})
  {
    SetRangeFacts(s.owner, sp.pageId, sp.cnt, l);
  }

  lemma JoinListed(s: State, l: Ptr, sp: Span)
    requires Listed(s.spans, s.lists, {}) && l !in s.spans
    ensures Listed(s.spans[l := sp], s.lists, if sp.used then {} else {l})
  {
    ListedFrame(s.spans, s.spans[l := sp], s.lists, {}, if sp.used then {} else {l});
  }

  ghost predicate PageInUse(s: State, p: nat) {
    p in s.owner && s.owner[p] in s.spans && s.spans[s.owner[p]].used
  }

  // ---------- allocation ----------

  // The first bucket at or after i that is not empty, 129 when there is none.
  function FirstNonEmpty(lists: Lists, i: nat): (r: nat)
    requires |lists| == MAX_PAGES + 1 && i <= MAX_PAGES + 1
    ensures i <= r <= MAX_PAGES + 1
    ensures r <= MAX_PAGES ==> lists[r] != []
    ensures forall k :: i <= k < r ==> lists[k] == []
    decreases MAX_PAGES + 1 - i
  {
    if i > MAX_PAGES || lists[i] != [] then i else FirstNonEmpty(lists, i + 1)
  }

  // What the search needs in order to follow list entries to spans.
  ghost predicate Searchable(spans: map<Ptr, Span>, lists: Lists) {
    && |lists| == MAX_PAGES + 1
    && forall i :: 0 <= i <= MAX_PAGES && lists[i] != [] ==>
         lists[i][0] in spans && spans[lists[i][0]].cnt == i
  }

  /** What the environment supplies to an allocation: the addresses the object pool would
      hand out for new spans, and where the system would place fresh pages. */
  datatype Supply = Supply(k: Ptr, l: Ptr, base: nat)

  function SystemPages(n: nat): nat {
    if n > MAX_PAGES then n else MAX_PAGES
  }

  /** No free span has n pages, so an allocation turns to the system. */
  ghost predicate NeedsSystem(s: State, n: nat) {
    !(n <= MAX_PAGES && |s.lists| == MAX_PAGES + 1 && FirstNonEmpty(s.lists, n) <= MAX_PAGES)
  }

  // The addresses of new span objects are free ones.
  ghost predicate FreshSpans(s: State, n: nat, e: Supply) {
    e.k !in s.spans && (NeedsSystem(s, n) ==> e.l !in s.spans && e.k != e.l)
  }

  /** The system has to supply pages only when no free span fits. */
  ghost predicate SupplyOk(s: State, n: nat, e: Supply) {
    && FreshSpans(s, n, e)
    && (NeedsSystem(s, n) ==>
          && e.base + SystemPages(n) <= PAGE_LIMIT
          && forall p :: e.base <= p < e.base + SystemPages(n) ==> p !in s.owner)
  }

  // An exact fit: the first span of bucket n, with all its pages mapped.
  ghost function TakeExact(s: State, n: nat): State
    requires n <= MAX_PAGES && Searchable(s.spans, s.lists) && s.lists[n] != []
  {
    MapAll(Unlink(s, n, s.lists[n][0]), s.lists[n][0])
  }

  // Cut n pages off the first span of the larger bucket i and put the rest in its bucket.
  ghost function CutAndRelink(s: State, i: nat, n: nat, k: Ptr): State
    requires n < i <= MAX_PAGES && Searchable(s.spans, s.lists) && s.lists[i] != [] && k !in s.spans
    ensures s.lists[i][0] in CutAndRelink(s, i, n, k).spans && k in CutAndRelink(s, i, n, k).spans
    ensures CutAndRelink(s, i, n, k).spans[s.lists[i][0]].cnt == i - n
  {
    var x := s.lists[i][0];
    Link(Cut(Unlink(s, i, x), x, n, k), i - n, x)
  }

  ghost function Split(s: State, i: nat, n: nat, k: Ptr): State
    requires n < i <= MAX_PAGES && Searchable(s.spans, s.lists) && s.lists[i] != [] && k !in s.spans
  {
    MapAll(MapEnds(CutAndRelink(s, i, n, k), s.lists[i][0]), k)
  }

  // Some free span has at least n pages: take or cut one of the smallest such.
  ghost function Fit(s: State, n: nat, k: Ptr): (State, Ptr)
    requires 1 <= n <= MAX_PAGES && Searchable(s.spans, s.lists) && FirstNonEmpty(s.lists, n) <= MAX_PAGES
    requires k !in s.spans
  {
    var i := FirstNonEmpty(s.lists, n);
    if i == n then (TakeExact(s, n), s.lists[n][0]) else (Split(s, i, n, k), k)
  }

  // 128 fresh pages from the system, listed but not yet in the page map.
  ghost function AddLarge(s: State, l: Ptr, base: nat): State
    requires |s.lists| == MAX_PAGES + 1
  {
    Link(Obtain(s, l, base, MAX_PAGES), MAX_PAGES, l)
  }

  // More than 128 pages: straight from the system, and only the first page is mapped.
  function Oversize(s: State, n: nat, l: Ptr, base: nat): State {
    var t := Obtain(s, l, base, n);
    t.(hash := t.hash[base := l])
  }

  ghost function NewSpan(s: State, n: nat, e: Supply): (State, Ptr)
    requires 1 <= n && Searchable(s.spans, s.lists)
    requires FreshSpans(s, n, e)
  {
    if n > MAX_PAGES then (Oversize(s, n, e.l, e.base), e.l)
    else if FirstNonEmpty(s.lists, n) <= MAX_PAGES then Fit(s, n, e.k)
    else
      var t := AddLarge(s, e.l, e.base);
      assert t.lists[MAX_PAGES] != [];
      Fit(t, n, e.k)
  }

  ghost function Grant(s: State, n: nat, size: nat, e: Supply): (State, Ptr)
    requires 1 <= n && Searchable(s.spans, s.lists)
    requires FreshSpans(s, n, e)
    ensures var (t, q) := NewSpan(s, n, e); q in t.spans
  {
    var (t, q) := NewSpan(s, n, e);
    (Mark(t, q, size), q)
  }

  lemma ListedIsSearchable(spans: map<Ptr, Span>, lists: Lists, held: set<Ptr>)
    requires Listed(spans, lists, held)
    ensures Searchable(spans, lists)
    ensures forall i :: 0 <= i <= MAX_PAGES && lists[i] != [] ==> !spans[lists[i][0]].used && lists[i][0] !in held
  {
    forall i | 0 <= i <= MAX_PAGES && lists[i] != []
      ensures lists[i][0] in spans && spans[lists[i][0]].cnt == i && !spans[lists[i][0]].used && lists[i][0] !in held
    {
      assert ListOk(spans, lists[i], i, held) && lists[i][0] in lists[i];
    }
  }

  /** All pages of q map to q: what newSpan leaves behind for a span of at most 128 pages. */
  ghost predicate FullyMapped(s: State, q: Ptr) {
    q in s.spans && forall p :: InSpan(s.spans[q], p) ==> p in s.hash && s.hash[p] == q
  }

  // Marking or releasing a span, or counting its blocks, moves no page.
  lemma PartitionRelabel(spans: map<Ptr, Span>, spans': map<Ptr, Span>, owner: map<nat, Ptr>)
    requires Partition(spans, owner) && spans'.Keys == spans.Keys
    requires forall q :: q in spans ==>
      && spans'[q].pageId == spans[q].pageId && spans'[q].cnt == spans[q].cnt
      && (!spans'[q].used ==> spans[q].cnt <= MAX_PAGES && spans'[q].useCnt == 0)
    ensures Partition(spans', owner)
  {
    forall q, p | q in spans' && InSpan(spans'[q], p) ensures p in owner && owner[p] == q {
      assert InSpan(spans[q], p);
    }
  }

  lemma MapRelabel(s: State, q: Ptr, sp: Span, stale: set<Ptr>)
    requires q in s.spans && MapOk(s.spans, s.hash, s.owner, stale) && Mapped(s.hash, q, sp)
    ensures MapOk(s.spans[q := sp], s.hash, s.owner, stale - {q})
  {
  }

  lemma FullyMappedIsMapped(s: State, q: Ptr, sp: Span)
    requires FullyMapped(s, q) && sp.pageId == s.spans[q].pageId && sp.cnt == s.spans[q].cnt
    requires sp.used && sp.cnt <= MAX_PAGES
    ensures Mapped(s.hash, q, sp)
  {
    forall p | InSpan(sp, p) ensures p in s.hash && s.hash[p] == q { assert InSpan(s.spans[q], p); }
  }

  lemma MarkKeeps(s: State, q: Ptr, size: nat)
    requires WeakInv(s, {q}, {}) && FullyMapped(s, q) && !s.spans[q].used
    ensures Inv(Mark(s, q, size))
  {
    var s' := Mark(s, q, size);
    ListedFrame(s.spans, s'.spans, s.lists, {q}, {});
    PartitionRelabel(s.spans, s'.spans, s.owner);
    FullyMappedIsMapped(s, q, s'.spans[q]);
    hide Partition, Listed, MapOk, FullyMapped;
    MapRelabel(s, q, s'.spans[q], {});
    assert {} - {q} == {};
  }

  lemma TakeExactKeeps(s: State, n: nat, stale: set<Ptr>)
    requires 1 <= n <= MAX_PAGES && WeakInv(s, {}, stale) && Searchable(s.spans, s.lists)
    requires s.lists[n] != [] && stale <= {s.lists[n][0]}
    ensures var q := s.lists[n][0]; var t := TakeExact(s, n);
      WeakInv(t, {q}, {}) && FullyMapped(t, q) && !t.spans[q].used
  {
    var q := s.lists[n][0];
    ListedIsSearchable(s.spans, s.lists, {});
    UnlinkKeeps(s, n, q, {});
    MapAllKeeps(Unlink(s, n, q), q, stale);
    assert {} + {q} == {q} && stale - {q} == {};
  }

  lemma CutAndRelinkKeeps(s: State, i: nat, n: nat, k: Ptr, stale: set<Ptr>)
    requires 1 <= n < i <= MAX_PAGES && WeakInv(s, {}, stale) && Searchable(s.spans, s.lists)
    requires s.lists[i] != [] && stale <= {s.lists[i][0]} && k !in s.spans
    ensures var x := s.lists[i][0]; var t := CutAndRelink(s, i, n, k);
      && WeakInv(t, {k}, {x, k}) && x in t.spans && k in t.spans
      && !t.spans[x].used && !t.spans[k].used && t.spans[k].cnt == n
  {
    hide Partition, Listed, MapOk, SetRange, Without;
    var x := s.lists[i][0];
    ListedIsSearchable(s.spans, s.lists, {});
    UnlinkKeeps(s, i, x, {});
    var s1 := Unlink(s, i, x);
    assert {} + {x} == {x};
    CutKeeps(s1, x, n, k, stale);
    var s2 := Cut(s1, x, n, k);
    LinkKeeps(s2, x, {x, k});
    var t := Link(s2, i - n, x);
    assert t.spans == s2.spans && t.owner == s2.owner && t.hash == s2.hash;
    assert {x, k} - {x} == {k};
  }

  lemma SplitKeeps(s: State, i: nat, n: nat, k: Ptr, stale: set<Ptr>)
    requires 1 <= n < i <= MAX_PAGES && WeakInv(s, {}, stale) && Searchable(s.spans, s.lists)
    requires s.lists[i] != [] && stale <= {s.lists[i][0]} && k !in s.spans
    ensures var t := Split(s, i, n, k);
      WeakInv(t, {k}, {}) && FullyMapped(t, k) && !t.spans[k].used
  {
    var x := s.lists[i][0];
    hide Partition, Listed, MapOk, SetRange, CutAndRelink, FullyMapped;
    CutAndRelinkKeeps(s, i, n, k, stale);
    var s3 := CutAndRelink(s, i, n, k);
    MapEndsKeeps(s3, x, {x, k});
    assert {x, k} - {x} == {k} && {k} - {k} == {};
    MapAllKeeps(MapEnds(s3, x), k, {k});
  }

  lemma AddLargeKeeps(s: State, n: nat, e: Supply)
    requires Inv(s) && SupplyOk(s, n, e) && NeedsSystem(s, n) && n <= MAX_PAGES
    ensures WeakInv(AddLarge(s, e.l, e.base), {}, {e.l})
  {
    hide Partition, Listed, MapOk, SetRange;
    var sp := Span(e.base, MAX_PAGES, false, 0, 0);
    JoinPartition(s, e.l, sp);
    JoinMap(s, e.l, sp);
    JoinListed(s, e.l, sp);
    LinkKeeps(Obtain(s, e.l, e.base, MAX_PAGES), e.l, {e.l});
    assert {e.l} - {e.l} == {};
  }

  lemma OversizeKeeps(s: State, n: nat, size: nat, e: Supply)
    requires Inv(s) && n > MAX_PAGES && SupplyOk(s, n, e)
    ensures Inv(Mark(Oversize(s, n, e.l, e.base), e.l, size))
  {
    hide Partition, Listed, MapOk, SetRange;
    var t := Mark(Oversize(s, n, e.l, e.base), e.l, size);
    var sp := Span(e.base, n, true, 0, size);
    JoinPartition(s, e.l, sp);
    JoinMap(s, e.l, sp);
    JoinListed(s, e.l, sp);
    assert t.spans == s.spans[e.l := sp];
    HashWithin(s.spans, s.hash, s.owner, {});
    MapFrame(t.spans, s.hash, t.hash, t.owner, e.l, {e.l});
    assert {e.l} - {e.l} == {};
  }

  lemma FitKeeps(s: State, n: nat, k: Ptr, size: nat, stale: set<Ptr>)
    requires 1 <= n <= MAX_PAGES && WeakInv(s, {}, stale) && Searchable(s.spans, s.lists)
    requires FirstNonEmpty(s.lists, n) <= MAX_PAGES && k !in s.spans
    requires stale <= {s.lists[FirstNonEmpty(s.lists, n)][0]}
    ensures var (t, q) := Fit(s, n, k); q in t.spans && Inv(Mark(t, q, size))
  {
    var i := FirstNonEmpty(s.lists, n);
    var (t, q) := Fit(s, n, k);
    if i == n {
      TakeExactKeeps(s, n, stale);
    } else {
      SplitKeeps(s, i, n, k, stale);
    }
    MarkKeeps(t, q, size);
  }

  /** Allocation keeps the page-heap invariant, whatever the size asked for. */
  lemma GrantKeeps(s: State, n: nat, size: nat, e: Supply)
    requires 1 <= n && Inv(s) && SupplyOk(s, n, e)
    ensures Searchable(s.spans, s.lists) && FreshSpans(s, n, e) && Inv(Grant(s, n, size, e).0)
  {
    ListedIsSearchable(s.spans, s.lists, {});
    if n > MAX_PAGES {
      OversizeKeeps(s, n, size, e);
    } else if FirstNonEmpty(s.lists, n) <= MAX_PAGES {
      FitKeeps(s, n, e.k, size, {});
    } else {
      var t := AddLarge(s, e.l, e.base);
      AddLargeKeeps(s, n, e);
      ListedIsSearchable(t.spans, t.lists, {});
      var i := FirstNonEmpty(t.lists, n);
      assert t.lists[MAX_PAGES] == [e.l];
      assert i == MAX_PAGES;
      FitKeeps(t, n, e.k, size, {e.l});
    }
  }

  // ---------- release ----------

  // The page map sends `page` to a free span that fits under the limit together with q.
  predicate CanMerge(s: State, q: Ptr, page: int)
    requires q in s.spans
  {
    && page >= 0 && page in s.hash && s.hash[page] in s.spans
    && var nb := s.spans[s.hash[page]];
       !nb.used && nb.cnt + s.spans[q].cnt <= MAX_PAGES
  }

  function PrevPage(sp: Span): int { sp.pageId - 1 }

  function NextPage(sp: Span): int { sp.pageId + sp.cnt }

  function Merge(s: State, q: Ptr, r: Ptr): (t: State)
    requires q in s.spans && r in s.spans && q != r && s.spans[r].cnt < |s.lists|
    ensures q in t.spans && t.spans[q].used == s.spans[q].used && |t.spans| < |s.spans|
    ensures |t.lists| == |s.lists|
  {
    var t := Absorb(Unlink(s, s.spans[r].cnt, r), q, r);
    assert t.spans.Keys == s.spans.Keys - {r};
    t
  }

  // The two merge loops: towards lower pages, then towards higher ones.
  function MergeBack(s: State, q: Ptr): (t: State)
    requires q in s.spans && s.spans[q].used && |s.lists| == MAX_PAGES + 1
    ensures q in t.spans && t.spans[q].used && |t.lists| == MAX_PAGES + 1
    decreases |s.spans|
  {
    if CanMerge(s, q, PrevPage(s.spans[q])) then MergeBack(Merge(s, q, s.hash[PrevPage(s.spans[q])]), q) else s
  }

  function MergeForward(s: State, q: Ptr): (t: State)
    requires q in s.spans && s.spans[q].used && |s.lists| == MAX_PAGES + 1
    ensures q in t.spans && t.spans[q].used && |t.lists| == MAX_PAGES + 1
    decreases |s.spans|
  {
    if CanMerge(s, q, NextPage(s.spans[q])) then MergeForward(Merge(s, q, s.hash[NextPage(s.spans[q])]), q) else s
  }

  function Finish(s: State, q: Ptr): State
    requires q in s.spans && 0 < s.spans[q].cnt < |s.lists|
  {
    Release(MapEnds(Link(s, s.spans[q].cnt, q), q), q)
  }

  ghost predicate Merging(s: State, q: Ptr) {
    && WeakInv(s, {}, {q}) && q in s.spans && |s.lists| == MAX_PAGES + 1
    && s.spans[q].used && s.spans[q].cnt <= MAX_PAGES && s.spans[q].useCnt == 0
  }

  // The owner of a page next to q has its own edge there.
  lemma NeighbourEdge(s: State, q: Ptr, page: nat)
    requires Partition(s.spans, s.owner) && q in s.spans && page in s.owner
    requires page == PrevPage(s.spans[q]) || page == NextPage(s.spans[q])
    ensures var o := s.owner[page];
      && o in s.spans && o != q && 1 <= s.spans[o].cnt
      && (if page == PrevPage(s.spans[q]) then LastPage(s.spans[o]) == page else s.spans[o].pageId == page)
  {
    var o := s.owner[page];
    assert InSpan(s.spans[o], page) && !InSpan(s.spans[q], page);
    var inner := if page == PrevPage(s.spans[q]) then page + 1 else page - 1;
    assert InSpan(s.spans[q], inner) && s.owner[inner] == q;
    assert !InSpan(s.spans[o], inner);
  }

  /** Next to a span, the page map is never stale: it names the owner of the page, and it
      knows every page except those behind the first one of a span in use of over 128. */
  lemma NeighbourLookup(s: State, q: Ptr, page: nat)
    requires WeakInv(s, {}, {q}) && q in s.spans
    requires page == PrevPage(s.spans[q]) || page == NextPage(s.spans[q])
    ensures page in s.hash ==> page in s.owner && s.hash[page] == s.owner[page]
    ensures page in s.owner ==>
      var o := s.owner[page];
      && o in s.spans && o != q
      && (page in s.hash <==> !s.spans[o].used || s.spans[o].cnt <= MAX_PAGES || page == s.spans[o].pageId)
      && (if page == PrevPage(s.spans[q]) then LastPage(s.spans[o]) == page else s.spans[o].pageId == page)
  {
    if page in s.owner {
      NeighbourEdge(s, q, page);
      var o := s.owner[page];
      assert InSpan(s.spans[o], page) && Mapped(s.hash, o, s.spans[o]);
    }
  }

  ghost predicate Touching(a: Span, b: Span) {
    a.pageId + a.cnt == b.pageId || b.pageId + b.cnt == a.pageId
  }

  lemma AbsorbPartition(s: State, q: Ptr, r: Ptr)
    requires Partition(s.spans, s.owner) && q in s.spans && r in s.spans && q != r
    requires s.spans[q].used && Touching(s.spans[q], s.spans[r])
    ensures Partition(Absorb(s, q, r).spans, Absorb(s, q, r).owner)
  {
    SetRangeFacts(s.owner, s.spans[r].pageId, s.spans[r].cnt, q);
    var t := Absorb(s, q, r);
    forall x, p | x in t.spans && InSpan(t.spans[x], p) ensures p in t.owner && t.owner[p] == x {
      if x == q {
        assert InSpan(s.spans[q], p) || InSpan(s.spans[r], p);
      } else {
        assert InSpan(s.spans[x], p) && !InSpan(s.spans[r], p);
      }
    }
  }

  lemma AbsorbMap(s: State, q: Ptr, r: Ptr)
    requires q in s.spans && r in s.spans && MapOk(s.spans, s.hash, s.owner, {q})
    ensures MapOk(Absorb(s, q, r).spans, s.hash, Absorb(s, q, r).owner, {q})
  {
    SetRangeFacts(s.owner, s.spans[r].pageId, s.spans[r].cnt, q);
  }

  lemma AbsorbListed(u: State, q: Ptr, r: Ptr)
    requires Listed(u.spans, u.lists, {r}) && q in u.spans && u.spans[q].used && r in u.spans && q != r
    ensures Listed(Absorb(u, q, r).spans, u.lists, {})
  {
    ListedFrame(u.spans, Absorb(u, q, r).spans, u.lists, {r}, {});
  }

  lemma MergeKeeps(s: State, q: Ptr, r: Ptr)
    requires Merging(s, q) && r in s.spans && !s.spans[r].used && Touching(s.spans[q], s.spans[r])
    requires s.spans[q].cnt + s.spans[r].cnt <= MAX_PAGES
    ensures s.spans[r].cnt < |s.lists| && Merging(Merge(s, q, r), q)
  {
    var u := Unlink(s, s.spans[r].cnt, r);
    assert r in s.lists[s.spans[r].cnt] && 1 <= s.spans[r].cnt;
    hide Partition, MapOk, Listed, Without, SetRange;
    UnlinkKeeps(s, s.spans[r].cnt, r, {});
    assert {} + {r} == {r};
    AbsorbPartition(u, q, r);
    AbsorbMap(u, q, r);
    AbsorbListed(u, q, r);
  }

  /** What a chain of merges into q does: the absorbed spans were free, their objects are
      gone, their pages now belong to q, and nothing else moved. */
  ghost predicate Merged(s: State, t: State, q: Ptr) {
    && q in s.spans && q in t.spans && t.hash == s.hash
    && t.spans[q] == s.spans[q].(pageId := t.spans[q].pageId, cnt := t.spans[q].cnt)
    && (forall r :: r in t.spans && r != q ==> r in s.spans && t.spans[r] == s.spans[r])
    && (forall r :: r in s.spans && r !in t.spans ==> !s.spans[r].used)
    && t.owner.Keys == s.owner.Keys
    && (forall p :: p in s.owner ==> t.owner[p] == if s.owner[p] in t.spans then s.owner[p] else q)
  }

  lemma MergeIsMerged(s: State, q: Ptr, r: Ptr)
    requires Partition(s.spans, s.owner) && q in s.spans && r in s.spans && q != r && !s.spans[r].used
    requires s.spans[r].cnt < |s.lists|
    ensures Merged(s, Merge(s, q, r), q)
  {
    SetRangeFacts(s.owner, s.spans[r].pageId, s.spans[r].cnt, q);
    hide Without;
    var t := Merge(s, q, r);
    forall p | InSpan(s.spans[r], p) ensures p in s.owner && s.owner[p] == r {}
    assert t.owner.Keys == s.owner.Keys;
  }

  lemma MergedReflexive(s: State, q: Ptr)
    requires Partition(s.spans, s.owner) && q in s.spans
    ensures Merged(s, s, q)
  {
  }

  lemma MergedTransitive(s: State, t: State, u: State, q: Ptr)
    requires Merged(s, t, q) && Merged(t, u, q)
    ensures Merged(s, u, q)
  {
  }

  // No free span ending where q starts would fit together with q.
  ghost predicate BackBlocked(s: State, q: Ptr)
    requires q in s.spans
  {
    forall r :: r in s.spans && !s.spans[r].used && s.spans[r].pageId + s.spans[r].cnt == s.spans[q].pageId
      ==> s.spans[r].cnt + s.spans[q].cnt > MAX_PAGES
  }

  ghost predicate ForwardBlocked(s: State, q: Ptr)
    requires q in s.spans
  {
    forall r :: r in s.spans && !s.spans[r].used && s.spans[r].pageId == s.spans[q].pageId + s.spans[q].cnt
      ==> s.spans[r].cnt + s.spans[q].cnt > MAX_PAGES
  }

  // The test of each loop is exact: it finds the free span that touches q on that side.
  lemma BackTestIsExact(s: State, q: Ptr)
    requires Merging(s, q)
    ensures var page := PrevPage(s.spans[q]);
      if CanMerge(s, q, page) then
        var r := s.hash[page]; r != q && s.spans[r].pageId + s.spans[r].cnt == s.spans[q].pageId
      else BackBlocked(s, q)
  {
    var page := PrevPage(s.spans[q]);
    if page >= 0 { NeighbourLookup(s, q, page); }
    if !CanMerge(s, q, page) {
      forall r | r in s.spans && !s.spans[r].used && s.spans[r].pageId + s.spans[r].cnt == s.spans[q].pageId
        ensures s.spans[r].cnt + s.spans[q].cnt > MAX_PAGES
      {
        assert InSpan(s.spans[r], page);
      }
    }
  }

  lemma ForwardTestIsExact(s: State, q: Ptr)
    requires Merging(s, q)
    ensures var page := NextPage(s.spans[q]);
      if CanMerge(s, q, page) then s.hash[page] != q && s.spans[s.hash[page]].pageId == page else ForwardBlocked(s, q)
  {
    var page := NextPage(s.spans[q]);
    NeighbourLookup(s, q, page);
    if !CanMerge(s, q, page) {
      forall r | r in s.spans && !s.spans[r].used && s.spans[r].pageId == page
        ensures s.spans[r].cnt + s.spans[q].cnt > MAX_PAGES
      {
        assert InSpan(s.spans[r], page);
      }
    }
  }

  lemma {:induction false} MergeBackKeeps(s: State, q: Ptr)
    requires Merging(s, q)
    ensures var t := MergeBack(s, q); Merging(t, q) && Merged(s, t, q) && BackBlocked(t, q)
    decreases |s.spans|
  {
    hide Partition, Listed, MapOk, BackBlocked;
    BackTestIsExact(s, q);
    var page := PrevPage(s.spans[q]);
    if CanMerge(s, q, page) {
      var r := s.hash[page];
      MergeKeeps(s, q, r);
      MergeIsMerged(s, q, r);
      MergeBackKeeps(Merge(s, q, r), q);
      MergedTransitive(s, Merge(s, q, r), MergeBack(s, q), q);
    } else {
      MergedReflexive(s, q);
    }
  }

  // Growing at the far end never makes a backward merge possible again.
  lemma {:induction false} MergeForwardKeeps(s: State, q: Ptr)
    requires Merging(s, q) && BackBlocked(s, q)
    ensures var t := MergeForward(s, q);
      Merging(t, q) && Merged(s, t, q) && BackBlocked(t, q) && ForwardBlocked(t, q)
    decreases |s.spans|
  {
    hide Partition, Listed, MapOk, ForwardBlocked;
    ForwardTestIsExact(s, q);
    var page := NextPage(s.spans[q]);
    if CanMerge(s, q, page) {
      var r := s.hash[page];
      MergeKeeps(s, q, r);
      MergeIsMerged(s, q, r);
      MergeForwardKeeps(Merge(s, q, r), q);
      MergedTransitive(s, Merge(s, q, r), MergeForward(s, q), q);
    } else {
      MergedReflexive(s, q);
    }
  }

  lemma StaleRelabel(s: State, q: Ptr)
    requires MapOk(s.spans, s.hash, s.owner, {q}) && q in s.spans
    ensures MapOk(Release(s, q).spans, s.hash, s.owner, {q})
  {
  }

  lemma FinishMap(s: State, q: Ptr)
    requires Merging(s, q) && Partition(Release(s, q).spans, s.owner)
    ensures MapOk(Release(s, q).spans, MapEnds(s, q).hash, s.owner, {})
  {
    hide Partition, MapOk, Listed;
    StaleRelabel(s, q);
    MapEndsKeeps(Release(s, q), q, {q});
    assert {q} - {q} == {};
  }

  lemma FinishListed(s: State, q: Ptr)
    requires Merging(s, q) && s.spans[q].cnt > 0
    ensures Listed(Release(s, q).spans, Link(s, s.spans[q].cnt, q).lists, {})
  {
    hide Partition, MapOk;
    var u := Release(s, q);
    ListedFrame(s.spans, u.spans, s.lists, {}, {q});
    LinkKeeps(u, q, {q});
    assert {q} - {q} == {};
  }

  lemma FinishKeeps(s: State, q: Ptr)
    requires Merging(s, q)
    ensures 0 < s.spans[q].cnt < |s.lists| && Inv(Finish(s, q))
  {
    var u := Release(s, q);
    PartitionRelabel(s.spans, u.spans, s.owner);
    hide Partition, Listed, MapOk;
    FinishMap(s, q);
    FinishListed(s, q);
    assert Finish(s, q).spans == u.spans;
  }

  ghost predicate Revertible(s: State, q: Ptr) {
    Inv(s) && q in s.spans && s.spans[q].used && s.spans[q].cnt <= MAX_PAGES && s.spans[q].useCnt == 0
  }

  ghost function Revert(s: State, q: Ptr): State
    requires Revertible(s, q)
  {
    MergeBackKeeps(s, q);
    MergeForwardKeeps(MergeBack(s, q), q);
    FinishKeeps(MergeForward(MergeBack(s, q), q), q);
    Finish(MergeForward(MergeBack(s, q), q), q)
  }

  ghost predicate SameEntry(h: map<nat, Ptr>, h': map<nat, Ptr>, p: nat) {
    (p in h <==> p in h') && (p in h ==> h'[p] == h[p])
  }

  /** The spans in use other than those in `but` keep their record, pages and map entries. */
  ghost predicate Untouched(s: State, t: State, but: set<Ptr>) {
    && (forall r :: r in s.spans && s.spans[r].used && r !in but ==> r in t.spans && t.spans[r] == s.spans[r])
    && (forall p :: PageInUse(s, p) && s.owner[p] !in but ==>
          p in t.owner && t.owner[p] == s.owner[p] && SameEntry(s.hash, t.hash, p))
  }

  lemma ExactUntouched(s: State, n: nat, size: nat)
    requires n <= MAX_PAGES && Partition(s.spans, s.owner) && Searchable(s.spans, s.lists)
    requires s.lists[n] != [] && !s.spans[s.lists[n][0]].used
    ensures Untouched(s, Mark(TakeExact(s, n), s.lists[n][0], size), {})
  {
    SetRangeFacts(s.hash, s.spans[s.lists[n][0]].pageId, s.spans[s.lists[n][0]].cnt, s.lists[n][0]);
    hide Without;
    var x := s.lists[n][0];
    forall p | PageInUse(s, p) ensures !InSpan(s.spans[x], p) {
      assert s.owner[p] != x;
    }
  }

  lemma SplitUntouched(s: State, i: nat, n: nat, k: Ptr, size: nat)
    requires 1 <= n < i <= MAX_PAGES && Partition(s.spans, s.owner) && Searchable(s.spans, s.lists)
    requires s.lists[i] != [] && !s.spans[s.lists[i][0]].used && k !in s.spans
    ensures Untouched(s, Mark(Split(s, i, n, k), k, size), {})
  {
    var sp := s.spans[s.lists[i][0]];
    SetRangeFacts(s.owner, sp.pageId, n, k);
    SetRangeFacts(MapEnds(CutAndRelink(s, i, n, k), s.lists[i][0]).hash, sp.pageId, n, k);
    hide Without;
    var x := s.lists[i][0];
    var t := Mark(Split(s, i, n, k), k, size);
    forall p | PageInUse(s, p)
      ensures p in t.owner && t.owner[p] == s.owner[p] && SameEntry(s.hash, t.hash, p)
    {
      assert !InSpan(s.spans[x], p);
    }
  }

  lemma ObtainUntouched(s: State, l: Ptr, base: nat, n: nat)
    requires l !in s.spans && forall p :: base <= p < base + n ==> p !in s.owner
    ensures Untouched(s, Obtain(s, l, base, n), {})
  {
    SetRangeFacts(s.owner, base, n, l);
  }

  lemma UntouchedTransitive(s: State, t: State, u: State)
    requires Untouched(s, t, {}) && Untouched(t, u, {})
    ensures Untouched(s, u, {})
  {
  }

  // The free spans of at least n pages, and the smallest of them.
  ghost predicate FreeOfAtLeast(s: State, x: Ptr, n: nat) {
    x in s.spans && !s.spans[x].used && s.spans[x].cnt >= n
  }

  /** The pages of span q of state t are the first n pages of x, a smallest free span of s
      that has n pages; no page was obtained. */
  ghost predicate BestFit(s: State, t: State, q: Ptr, n: nat, x: Ptr) {
    && FreeOfAtLeast(s, x, n) && q in t.spans
    && t.spans[q].pageId == s.spans[x].pageId && (s.spans[x].cnt == n ==> q == x)
    && (forall y :: FreeOfAtLeast(s, y, n) ==> s.spans[x].cnt <= s.spans[y].cnt)
    && t.owner.Keys == s.owner.Keys
  }

  /** The pages of q come from the system, together with the rest of a batch of fresh pages. */
  ghost predicate FromSystem(s: State, t: State, q: Ptr, n: nat, e: Supply) {
    && (forall x :: !FreeOfAtLeast(s, x, n))
    && q in t.spans && t.spans[q].pageId == e.base
    && (forall p :: p in t.owner <==> p in s.owner || e.base <= p < e.base + SystemPages(n))
  }

  lemma FirstBucketIsBest(s: State, n: nat)
    requires 1 <= n <= MAX_PAGES && WeakInv(s, {}, {})
    ensures forall y :: FreeOfAtLeast(s, y, n) ==> FirstNonEmpty(s.lists, n) <= s.spans[y].cnt
    ensures FirstNonEmpty(s.lists, n) > MAX_PAGES ==> forall y :: !FreeOfAtLeast(s, y, n)
  {
  }

  /** q is now a span in use of n pages for blocks of the given size, and the only one new. */
  ghost predicate NewlyUsed(s: State, t: State, q: Ptr, n: nat, size: nat) {
    && q in t.spans && t.spans[q] == Span(t.spans[q].pageId, n, true, 0, size)
    && (q in s.spans ==> !s.spans[q].used)
    && (forall r :: r in t.spans && t.spans[r].used && r != q ==> r in s.spans && s.spans[r].used)
  }

  /** What an allocation does: exactly n pages, taken by best fit from the free spans or,
      only when none is large enough, from the system; nothing in use is touched. */
  ghost predicate Granted(s: State, t: State, q: Ptr, n: nat, size: nat, e: Supply) {
    && NewlyUsed(s, t, q, n, size)
    && Untouched(s, t, {})
    && (FromSystem(s, t, q, n, e) || exists x :: BestFit(s, t, q, n, x))
    && (n > MAX_PAGES ==> FromSystem(s, t, q, n, e))
  }

  lemma ExactShape(s: State, n: nat, size: nat)
    requires n <= MAX_PAGES && Searchable(s.spans, s.lists) && s.lists[n] != []
    requires Partition(s.spans, s.owner) && !s.spans[s.lists[n][0]].used
    ensures var q := s.lists[n][0]; var t := Mark(TakeExact(s, n), q, size);
      && t.spans == s.spans[q := Span(s.spans[q].pageId, n, true, 0, size)] && t.owner == s.owner
  {
  }

  lemma ExactIsBest(s: State, n: nat, size: nat)
    requires 1 <= n <= MAX_PAGES && Inv(s) && s.lists[n] != [] && Searchable(s.spans, s.lists)
    ensures var q := s.lists[n][0]; BestFit(s, Mark(TakeExact(s, n), q, size), q, n, q)
  {
    ListedIsSearchable(s.spans, s.lists, {});
    FirstBucketIsBest(s, n);
    ExactShape(s, n, size);
    hide TakeExact, Mark, Partition, Listed, MapOk;
  }

  lemma ExactNewlyUsed(s: State, n: nat, size: nat)
    requires n <= MAX_PAGES && Searchable(s.spans, s.lists) && s.lists[n] != []
    requires Partition(s.spans, s.owner) && !s.spans[s.lists[n][0]].used
    ensures var q := s.lists[n][0]; NewlyUsed(s, Mark(TakeExact(s, n), q, size), q, n, size)
  {
    ExactShape(s, n, size);
    hide TakeExact, Mark, Partition;
  }

  lemma ExactGranted(s: State, n: nat, size: nat, e: Supply)
    requires 1 <= n <= MAX_PAGES && Inv(s) && s.lists[n] != []
    ensures var q := s.lists[n][0];
      Searchable(s.spans, s.lists) && Granted(s, Mark(TakeExact(s, n), q, size), q, n, size, e)
  {
    hide Untouched, BestFit, NewlyUsed, TakeExact, Mark, Partition, Listed, MapOk;
    ListedIsSearchable(s.spans, s.lists, {});
    ExactUntouched(s, n, size);
    ExactNewlyUsed(s, n, size);
    ExactIsBest(s, n, size);
  }

  lemma SplitShape(s: State, i: nat, n: nat, k: Ptr, size: nat)
    requires 1 <= n < i <= MAX_PAGES && Searchable(s.spans, s.lists) && s.lists[i] != [] && k !in s.spans
    ensures var x := s.lists[i][0]; var sp := s.spans[x]; var t := Mark(Split(s, i, n, k), k, size);
      && t.spans == s.spans[x := sp.(pageId := sp.pageId + n, cnt := i - n)][k := Span(sp.pageId, n, true, 0, size)]
      && t.owner == SetRange(s.owner, sp.pageId, n, k)
  {
    hide SetRange, Without;
  }

  lemma SplitOwners(s: State, i: nat, n: nat, k: Ptr, size: nat)
    requires 1 <= n < i <= MAX_PAGES && Searchable(s.spans, s.lists) && s.lists[i] != [] && k !in s.spans
    requires Partition(s.spans, s.owner)
    ensures Split(s, i, n, k).owner.Keys == s.owner.Keys
  {
    SetRangeFacts(s.owner, s.spans[s.lists[i][0]].pageId, n, k);
    SplitShape(s, i, n, k, 0);
    hide Split, SetRange;
    forall p | InSpan(s.spans[s.lists[i][0]], p) ensures p in s.owner {}
  }

  lemma SplitIsBest(s: State, i: nat, n: nat, k: Ptr, size: nat)
    requires 1 <= n < i <= MAX_PAGES && Inv(s) && k !in s.spans && i == FirstNonEmpty(s.lists, n)
    requires Searchable(s.spans, s.lists)
    ensures var t := Mark(Split(s, i, n, k), k, size); BestFit(s, t, k, n, s.lists[i][0])
  {
    ListedIsSearchable(s.spans, s.lists, {});
    FirstBucketIsBest(s, n);
    SplitShape(s, i, n, k, size);
    SplitOwners(s, i, n, k, size);
    hide Split, Partition, Listed, MapOk, FirstNonEmpty, SetRange;
  }

  lemma SplitNewlyUsed(s: State, i: nat, n: nat, k: Ptr, size: nat)
    requires 1 <= n < i <= MAX_PAGES && k !in s.spans && Searchable(s.spans, s.lists)
    requires s.lists[i] != [] && !s.spans[s.lists[i][0]].used
    ensures NewlyUsed(s, Mark(Split(s, i, n, k), k, size), k, n, size)
  {
    SplitShape(s, i, n, k, size);
    hide Split, Mark;
  }

  lemma SplitGranted(s: State, i: nat, n: nat, k: Ptr, size: nat, e: Supply)
    requires 1 <= n < i <= MAX_PAGES && Inv(s) && k !in s.spans && i == FirstNonEmpty(s.lists, n)
    ensures Searchable(s.spans, s.lists)
    ensures Granted(s, Mark(Split(s, i, n, k), k, size), k, n, size, e)
  {
    hide Untouched, BestFit, NewlyUsed, Split, Mark, Partition, Listed, MapOk;
    ListedIsSearchable(s.spans, s.lists, {});
    SplitUntouched(s, i, n, k, size);
    SplitNewlyUsed(s, i, n, k, size);
    SplitIsBest(s, i, n, k, size);
  }

  lemma OversizeUntouched(s: State, n: nat, size: nat, e: Supply)
    requires Inv(s) && n > MAX_PAGES && SupplyOk(s, n, e)
    ensures Untouched(s, Mark(Oversize(s, n, e.l, e.base), e.l, size), {})
  {
    SetRangeFacts(s.owner, e.base, n, e.l);
    hide Listed, MapOk, SetRange;
  }

  lemma OversizeFromSystem(s: State, n: nat, size: nat, e: Supply)
    requires Partition(s.spans, s.owner) && n > MAX_PAGES
    ensures FromSystem(s, Mark(Oversize(s, n, e.l, e.base), e.l, size), e.l, n, e)
  {
    SetRangeFacts(s.owner, e.base, n, e.l);
    hide SetRange;
  }

  lemma OversizeGranted(s: State, n: nat, size: nat, e: Supply)
    requires Inv(s) && n > MAX_PAGES && SupplyOk(s, n, e)
    ensures Granted(s, Mark(Oversize(s, n, e.l, e.base), e.l, size), e.l, n, size, e)
  {
    hide Partition, Listed, MapOk, SetRange, Untouched, FromSystem;
    OversizeUntouched(s, n, size, e);
    OversizeFromSystem(s, n, size, e);
  }

  // After a batch of fresh pages is listed, it is what the second attempt finds.
  lemma AddLargeFirst(s: State, n: nat, e: Supply)
    requires 1 <= n <= MAX_PAGES && |s.lists| == MAX_PAGES + 1 && FirstNonEmpty(s.lists, n) > MAX_PAGES
    ensures var u := AddLarge(s, e.l, e.base);
      u.lists[MAX_PAGES] == [e.l] && FirstNonEmpty(u.lists, n) == MAX_PAGES
  {
  }

  // A step from a state with one more free span introduces the same span as from s.
  lemma NewlyUsedFrom(s: State, u: State, t: State, l: Ptr, q: Ptr, n: nat, size: nat)
    requires NewlyUsed(u, t, q, n, size) && l !in s.spans
    requires exists sp :: u.spans == s.spans[l := sp] && !sp.used
    ensures NewlyUsed(s, t, q, n, size)
  {
  }

  // What the second attempt takes from the fresh batch l.
  lemma BatchGranted(u: State, n: nat, k: Ptr, l: Ptr, base: nat, size: nat)
    requires 1 <= n <= MAX_PAGES && WeakInv(u, {}, {l}) && Searchable(u.spans, u.lists)
    requires u.lists[MAX_PAGES] == [l] && FirstNonEmpty(u.lists, n) == MAX_PAGES
    requires u.spans[l] == Span(base, MAX_PAGES, false, 0, 0) && k !in u.spans
    ensures var (t0, q) := Fit(u, n, k);
      && q in t0.spans && Untouched(u, Mark(t0, q, size), {}) && NewlyUsed(u, Mark(t0, q, size), q, n, size)
      && t0.spans[q].pageId == base && t0.owner.Keys == u.owner.Keys
  {
    hide Untouched, NewlyUsed, Listed, MapOk;
    if n == MAX_PAGES {
      ExactShape(u, n, size);
      ExactUntouched(u, n, size);
      ExactNewlyUsed(u, n, size);
    } else {
      SplitShape(u, MAX_PAGES, n, k, size);
      SplitOwners(u, MAX_PAGES, n, k, size);
      SplitUntouched(u, MAX_PAGES, n, k, size);
      SplitNewlyUsed(u, MAX_PAGES, n, k, size);
    }
  }

  lemma AddLargeGranted(s: State, n: nat, size: nat, e: Supply)
    requires 1 <= n <= MAX_PAGES && Inv(s) && SupplyOk(s, n, e) && FirstNonEmpty(s.lists, n) > MAX_PAGES
    requires Searchable(s.spans, s.lists)
    ensures var (t, q) := NewSpan(s, n, e); q in t.spans && Granted(s, Mark(t, q, size), q, n, size, e)
  {
    SetRangeFacts(s.owner, e.base, MAX_PAGES, e.l);
    var u := AddLarge(s, e.l, e.base);
    AddLargeFirst(s, n, e);
    AddLargeKeeps(s, n, e);
    ListedIsSearchable(u.spans, u.lists, {});
    FirstBucketIsBest(s, n);
    ObtainUntouched(s, e.l, e.base, MAX_PAGES);
    hide Untouched, NewlyUsed, Partition, Listed, MapOk, Fit, SetRange, FirstNonEmpty;
    BatchGranted(u, n, e.k, e.l, e.base, size);
    var (t, q) := NewSpan(s, n, e);
    NewlyUsedFrom(s, u, Mark(t, q, size), e.l, q, n, size);
    UntouchedTransitive(s, u, Mark(t, q, size));
  }

  lemma GrantIsGranted(s: State, n: nat, size: nat, e: Supply)
    requires 1 <= n && Inv(s) && SupplyOk(s, n, e)
    ensures Searchable(s.spans, s.lists) && FreshSpans(s, n, e)
    ensures var (t, q) := Grant(s, n, size, e); Granted(s, t, q, n, size, e)
  {
    ListedIsSearchable(s.spans, s.lists, {});
    hide Granted, Split, TakeExact, Oversize, AddLarge;
    if n > MAX_PAGES {
      OversizeGranted(s, n, size, e);
    } else if FirstNonEmpty(s.lists, n) == n {
      ExactGranted(s, n, size, e);
    } else if FirstNonEmpty(s.lists, n) <= MAX_PAGES {
      SplitGranted(s, FirstNonEmpty(s.lists, n), n, e.k, size, e);
    } else {
      AddLargeGranted(s, n, size, e);
    }
  }

  // ---------- what a release does ----------

  /** Neither neighbour of the free span q is free and small enough to be joined with it. */
  ghost predicate Maximal(s: State, q: Ptr) {
    q in s.spans && BackBlocked(s, q) && ForwardBlocked(s, q)
  }

  // The released span keeps its object, the absorbed spans were free, the rest are unchanged.
  ghost predicate OnlyAbsorbed(s: State, t: State, q: Ptr) {
    && q in s.spans && q in t.spans
    && t.spans[q] == s.spans[q].(used := false, pageId := t.spans[q].pageId, cnt := t.spans[q].cnt)
    && (forall r :: r in t.spans && r != q ==> r in s.spans && t.spans[r] == s.spans[r])
    && (forall r :: r in s.spans && r !in t.spans ==> !s.spans[r].used)
  }

  // Span q consists of exactly the pages it had and those of the absorbed spans.
  ghost predicate Covers(s: State, t: State, q: Ptr) {
    && q in t.spans && t.owner.Keys == s.owner.Keys
    && (forall p :: InSpan(t.spans[q], p) <==> p in s.owner && (s.owner[p] == q || s.owner[p] !in t.spans))
  }

  ghost predicate Reverted(s: State, t: State, q: Ptr) {
    OnlyAbsorbed(s, t, q) && Covers(s, t, q) && Untouched(s, t, {q})
  }

  lemma FinishShape(v: State, q: Ptr)
    requires q in v.spans && 0 < v.spans[q].cnt < |v.lists|
    ensures var t := Finish(v, q);
      t.spans == v.spans[q := v.spans[q].(used := false)] && t.owner == v.owner
  {
  }

  lemma FinishPages(s: State, v: State, q: Ptr)
    requires Inv(s) && Merged(s, v, q) && Merging(v, q)
    requires 0 < v.spans[q].cnt < |v.lists|
    ensures var t := Finish(v, q); forall p :: PageInUse(s, p) && s.owner[p] != q ==>
      p in t.owner && t.owner[p] == s.owner[p] && SameEntry(s.hash, t.hash, p)
  {
    hide Listed, MapOk;
    forall p | PageInUse(s, p) && s.owner[p] != q ensures p in v.owner && v.owner[p] == s.owner[p]
      && !InSpan(v.spans[q], p) {
    }
  }

  lemma FinishCovers(s: State, v: State, q: Ptr)
    requires Merged(s, v, q) && Partition(v.spans, v.owner) && 0 < v.spans[q].cnt < |v.lists|
    ensures Covers(s, Finish(v, q), q)
  {
    FinishShape(v, q);
    var t := Finish(v, q);
    hide Finish;
    forall p ensures InSpan(t.spans[q], p) <==> p in s.owner && (s.owner[p] == q || s.owner[p] !in t.spans) {
      assert InSpan(t.spans[q], p) <==> InSpan(v.spans[q], p);
      if p in v.owner { assert InSpan(v.spans[v.owner[p]], p); }
    }
  }

  lemma FinishUntouched(s: State, v: State, q: Ptr)
    requires Inv(s) && Merged(s, v, q) && Merging(v, q) && 0 < v.spans[q].cnt < |v.lists|
    ensures Untouched(s, Finish(v, q), {q})
  {
    FinishPages(s, v, q);
    FinishShape(v, q);
    hide Finish, Partition, Listed, MapOk;
  }

  lemma FinishAbsorbs(s: State, v: State, q: Ptr)
    requires Merged(s, v, q) && v.spans[q].used && 0 < v.spans[q].cnt < |v.lists|
    ensures OnlyAbsorbed(s, Finish(v, q), q)
  {
    FinishShape(v, q);
    hide Finish;
  }

  lemma FinishMaximal(v: State, q: Ptr)
    requires q in v.spans && BackBlocked(v, q) && ForwardBlocked(v, q) && 0 < v.spans[q].cnt < |v.lists|
    ensures Maximal(Finish(v, q), q)
  {
    FinishShape(v, q);
    hide Finish;
  }

  lemma RevertibleIsMerging(s: State, q: Ptr)
    requires Revertible(s, q)
    ensures Merging(s, q)
  {
    hide Partition, Mapped;
  }

  // Revert is Finish applied to a state that the two merge loops have reached.
  lemma RevertIsFinish(s: State, q: Ptr) returns (v: State)
    requires Revertible(s, q)
    ensures Merging(v, q) && Merged(s, v, q) && BackBlocked(v, q) && ForwardBlocked(v, q)
    ensures 0 < v.spans[q].cnt < |v.lists| && Revert(s, q) == Finish(v, q) && Inv(Finish(v, q))
  {
    RevertibleIsMerging(s, q);
    hide Partition, Listed, MapOk, Merged, Finish;
    MergeBackKeeps(s, q);
    MergeForwardKeeps(MergeBack(s, q), q);
    v := MergeForward(MergeBack(s, q), q);
    MergedTransitive(s, MergeBack(s, q), v, q);
    FinishKeeps(v, q);
  }

  // Where a release puts its span.
  lemma RevertedAt(s: State, q: Ptr)
    requires Revertible(s, q)
    ensures |s.lists| == MAX_PAGES + 1 && q in Revert(s, q).spans
    ensures var v := MergeForward(MergeBack(s, q), q);
      Revert(s, q).spans[q].pageId == v.spans[q].pageId && Revert(s, q).spans[q].cnt == v.spans[q].cnt
  {
    hide Merging, Merged, BackBlocked, ForwardBlocked, Finish;
    assert Merging(s, q) by { RevertibleIsMerging(s, q); }
    MergeBackKeeps(s, q);
    MergeForwardKeeps(MergeBack(s, q), q);
    FinishKeeps(MergeForward(MergeBack(s, q), q), q);
    FinishShape(MergeForward(MergeBack(s, q), q), q);
  }

  /** Releasing a span keeps the invariant, and the resulting free span is maximal. */
  lemma RevertKeeps(s: State, q: Ptr)
    requires Revertible(s, q)
    ensures Inv(Revert(s, q)) && Reverted(s, Revert(s, q), q) && Maximal(Revert(s, q), q)
  {
    hide Partition, Listed, MapOk, Merged, Revert, Finish, OnlyAbsorbed, Covers, Untouched, Maximal;
    var v := RevertIsFinish(s, q);
    FinishAbsorbs(s, v, q);
    FinishCovers(s, v, q);
    FinishUntouched(s, v, q);
    FinishMaximal(v, q);
  }

  // ---------- every run ----------

  datatype Op = Allocate(n: nat, size: nat, e: Supply) | Free(q: Ptr)

  ghost predicate Enabled(s: State, op: Op)
    requires Inv(s)
  {
    match op
    case Allocate(n, _, e) => 1 <= n && SupplyOk(s, n, e)
    case Free(q) => Revertible(s, q)
  }

  ghost function Step(s: State, op: Op): State
    requires Inv(s) && Enabled(s, op)
  {
    match op
    case Allocate(n, size, e) => GrantKeeps(s, n, size, e); Grant(s, n, size, e).0
    case Free(q) => Revert(s, q)
  }

  lemma StepKeeps(s: State, op: Op)
    requires Inv(s) && Enabled(s, op)
    ensures Inv(Step(s, op))
  {
    match op
    case Allocate(n, size, e) => GrantKeeps(s, n, size, e);
    case Free(q) => RevertKeeps(s, q);
  }

  /** s' follows from s by the operations in ops. */
  ghost predicate Runs(s: State, ops: seq<Op>, s': State)
    requires Inv(s)
    decreases |ops|
  {
    if ops == [] then s' == s
    else Enabled(s, ops[0]) && (StepKeeps(s, ops[0]); Runs(Step(s, ops[0]), ops[1..], s'))
  }

  lemma InitInv()
    ensures Inv(Init())
  {
  }

  /** After any run of allocations and releases from the empty heap: the spans are disjoint
      and cover exactly the pages obtained, every free span sits exactly once in the bucket
      of its size, and the page map finds the span of every page in use. */
  lemma {:induction false} EveryRun(s: State, ops: seq<Op>, s': State)
    requires Inv(s) && Runs(s, ops, s')
    ensures Inv(s')
    decreases |ops|
  {
    if ops != [] {
      StepKeeps(s, ops[0]);
      EveryRun(Step(s, ops[0]), ops[1..], s');
    }
  }
}
