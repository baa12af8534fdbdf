/**
 ThreadCache (threadcache.cc) with the bookkeeping fields of its free lists as the code
 keeps them: push and pop do not count, and nothing raises maxSize_.
 */
module ThreadCaching {
  import opened SizeClasses
  import opened Blocks

  /** allocate with list i: its head, or the first of the blocks granted, the others becoming the
      list. */
  predicate Allocated(lists: seq<seq<Addr>>, lists': seq<seq<Addr>>, i: nat, granted: seq<Addr>, obj: Addr)
    requires i < |lists|
  {
    var l := lists[i];
    if l != [] then obj == l[0] && lists' == lists[i := l[1..]]
    else granted != [] && obj == granted[0] && lists' == lists[i := granted[1..]]
  }

  /** deallocate with list i: the block goes in front, or back together with the whole list. */
  predicate Deallocated(lists: seq<seq<Addr>>, lists': seq<seq<Addr>>, i: nat, obj: Addr, returned: seq<Addr>)
    requires i < |lists|
  {
    var l := [obj] + lists[i];
    if returned == [] then lists' == lists[i := l] else returned == l && lists' == lists[i := []]
  }

  class ThreadCache {
    var lists: seq<seq<Addr>>
    var sizes: seq<nat>
    var maxSizes: seq<nat>

    predicate Valid()
      reads this
    {
      |lists| == BUCKETS && |sizes| == BUCKETS && |maxSizes| == BUCKETS
    }

    // The state every thread cache starts in and, as the methods show, never leaves.
    predicate Uncounted()
      reads this
    {
      Valid() && forall i :: 0 <= i < BUCKETS ==> sizes[i] == 0 && maxSizes[i] == 1
    }

    constructor ()
      ensures Uncounted() && lists == seq(BUCKETS, _ => [])
    {
      lists := seq(BUCKETS, _ => []);
      sizes := seq(BUCKETS, _ => 0);
      maxSizes := seq(BUCKETS, _ => 1);
    }

    // How many blocks fetchFromCentralCache asks for.
    static function FetchNum(maxSize: nat, size: nat): (num: nat)
      requires size > 0
      ensures num <= maxSize && num <= NumMoveSize(size) && (num == maxSize || num == NumMoveSize(size))
    {
      if maxSize < NumMoveSize(size) then maxSize else NumMoveSize(size)
    }

    /** allocate: the head of the list, or the first of the blocks CentralCache grants. */
    method Allocate(size: nat, granted: seq<Addr>) returns (obj: Addr)
      requires Valid() && 1 <= size <= MAX_BYTES && Index(size) < BUCKETS && RoundUp(size) > 0
      requires lists[Index(size)] == [] ==> 1 <= |granted| <= FetchNum(maxSizes[Index(size)], RoundUp(size))
      modifies this
      ensures Valid() && maxSizes == old(maxSizes)
      ensures Allocated(old(lists), lists, Index(size), granted, obj)
      ensures var i := Index(size);
        sizes == if old(lists)[i] != [] then old(sizes) else old(sizes)[i := old(sizes)[i] + |granted| - 1]
      ensures old(Uncounted()) ==> Uncounted()
    {
      var index := Index(size);
      if lists[index] != [] {
        obj := lists[index][0];
        lists := lists[index := lists[index][1..]];
      } else {
        obj := FetchFromCentralCache(index, RoundUp(size), granted);
      }
    }

    method FetchFromCentralCache(index: nat, size: nat, granted: seq<Addr>) returns (obj: Addr)
      requires Valid() && index < BUCKETS && size > 0 && lists[index] == []
      requires 1 <= |granted| <= FetchNum(maxSizes[index], size)
      modifies this
      ensures Valid() && obj == granted[0] && maxSizes == old(maxSizes)
      ensures lists == old(lists)[index := granted[1..]]
      ensures sizes == old(sizes)[index := old(sizes)[index] + |granted| - 1]
    {
      obj := granted[0];
      assert granted == [granted[0]] + granted[1..] && granted[1..] + lists[index] == granted[1..];
      if |granted| > 1 {
        lists := lists[index := granted[1..] + lists[index]];
        sizes := sizes[index := sizes[index] + (|granted| - 1)];
      } else {
        assert granted[1..] == lists[index] && lists[index := lists[index]] == lists
          && sizes[index := sizes[index]] == sizes;
      }
    }

    /** deallocate: push, and return the whole list once size_ reaches maxSize_. With the
        bookkeeping as it is, no run of allocations and frees ever returns a block. */
    method Deallocate(obj: Addr, size: nat) returns (returned: seq<Addr>)
      requires Valid() && 1 <= size <= MAX_BYTES && Index(size) < BUCKETS && obj != 0
      modifies this
      ensures Valid() && maxSizes == old(maxSizes)
      ensures Deallocated(old(lists), lists, Index(size), obj, returned)
      ensures var i := Index(size);
        && (returned != [] <==> old(sizes)[i] >= old(maxSizes)[i])
        && sizes == if returned != [] then old(sizes)[i := 0] else old(sizes)
      ensures old(Uncounted()) ==> Uncounted() && returned == []
    {
      var index := Index(size);
      lists := lists[index := [obj] + lists[index]];
      returned := [];
      if sizes[index] >= maxSizes[index] {
        returned := lists[index];
        sizes := sizes[index := 0];
        lists := lists[index := []];
      }
    }
  }
}
