/**
 The page map: a three-level radix tree over 52-bit page numbers (radixtree.h), refining a
 finite map in which a missing key reads as null.

 18 + 18 bits select the interior nodes and 16 bits the leaf slot; the source's shifts and
 masks are written as division and remainder by these powers of two.
 */
module RadixTrees {

  const BITS_LIMIT: nat := 0x10_0000_0000_0000
  const INTERIOR_LENGTH: nat := 0x4_0000
  const LEAF_LENGTH: nat := 0x1_0000

  datatype Maybe<+V> = Null | Ref(value: V)

  // idx >> (kLeafBits + kInteriorBits)
  function First(idx: nat): (r: nat)
    requires idx < BITS_LIMIT
    ensures r < INTERIOR_LENGTH
  {
    idx / 0x4_0000_0000
  }

  // (idx >> kLeafBits) & (kInteriorLength - 1)
  function Second(idx: nat): (r: nat)
    ensures r < INTERIOR_LENGTH
  {
    idx / 0x1_0000 % 0x4_0000
  }

  // idx & (kLeafLength - 1)
  function Third(idx: nat): (r: nat)
    ensures r < LEAF_LENGTH
  {
    idx % 0x1_0000
  }

  // The three indexes are the digits of the page number.
  lemma SlotsMakeKey(a: nat)
    requires a < BITS_LIMIT
    ensures a == First(a) * 0x4_0000_0000 + Second(a) * 0x1_0000 + Third(a)
  {
    var x, low := a / 0x1_0000, a % 0x1_0000;
    var y, mid := x / 0x4_0000, x % 0x4_0000;
    assert a == x * 0x1_0000 + low && x == y * 0x4_0000 + mid;
    assert a == y * 0x4_0000_0000 + (mid * 0x1_0000 + low) && mid * 0x1_0000 + low < 0x4_0000_0000;
    Quotient(a, y, mid * 0x1_0000 + low);
  }

  lemma Quotient(a: nat, y: nat, rest: nat)
    requires a == y * 0x4_0000_0000 + rest && rest < 0x4_0000_0000
    ensures a / 0x4_0000_0000 == y
  {
  }

  /** Different page numbers have different slots. */
  lemma SlotsAreInjective(a: nat, b: nat)
    requires a < BITS_LIMIT && b < BITS_LIMIT
    requires First(a) == First(b) && Second(a) == Second(b) && Third(a) == Third(b)
    ensures a == b
  {
    SlotsMakeKey(a);
    SlotsMakeKey(b);
    hide First, Second, Third;
  }

  class Leaf<V> {
    const values: array<Maybe<V>>

    constructor ()
      ensures fresh(values) && values.Length == LEAF_LENGTH
      ensures forall k :: 0 <= k < LEAF_LENGTH ==> values[k] == Null
    {
      values := new Maybe<V>[LEAF_LENGTH](_ => Null);
    }
  }

  class Node<V> {
    const ptrs: array<Leaf?<V>>

    constructor ()
      ensures fresh(ptrs) && ptrs.Length == INTERIOR_LENGTH
      ensures forall k :: 0 <= k < INTERIOR_LENGTH ==> ptrs[k] == null
    {
      ptrs := new Leaf?<V>[INTERIOR_LENGTH](_ => null);
    }
  }

  class RadixTree<V(==)> {
    ghost var M: map<nat, V>
    ghost var Repr: set<object>
    ghost var home: map<object, nat>   // the slot that a node's or leaf's array hangs from
    const root: array<Node?<V>>

    ghost predicate NodeOk(i: nat, n: Node<V>)
      reads this
    {
      n.ptrs in Repr && n.ptrs.Length == INTERIOR_LENGTH && n.ptrs in home && home[n.ptrs] == i
    }

    ghost predicate LeafOk(ij: nat, l: Leaf<V>)
      reads this
    {
      l.values in Repr && l.values.Length == LEAF_LENGTH && l.values in home && home[l.values] == ij
    }

    ghost predicate Shape()
      reads this, Repr
    {
      && this in Repr && root in Repr && root.Length == INTERIOR_LENGTH
      && root !in home
      && (forall i :: 0 <= i < INTERIOR_LENGTH && root[i] != null ==> NodeOk(i, root[i]))
      && (forall i, j ::
            0 <= i < INTERIOR_LENGTH && root[i] != null && 0 <= j < INTERIOR_LENGTH && root[i].ptrs[j] != null
            ==> LeafOk(i * INTERIOR_LENGTH + j, root[i].ptrs[j]))
    }

    // Following the three levels; null as soon as a node is missing.
    ghost function Lookup(idx: nat): Maybe<V>
      requires Shape() && idx < BITS_LIMIT
      reads this, Repr
    {
      if root[First(idx)] == null || root[First(idx)].ptrs[Second(idx)] == null then Null
      else root[First(idx)].ptrs[Second(idx)].values[Third(idx)]
    }

    ghost predicate Valid()
      reads this, Repr
    {
      && Shape()
      && (forall k :: k in M ==> k < BITS_LIMIT)
      && (forall k :: 0 <= k < BITS_LIMIT ==> Lookup(k) == if k in M then Ref(M[k]) else Null)
    }

    constructor ()
      ensures Valid() && fresh(Repr) && M == map[]
    {
      root := new Node?<V>[INTERIOR_LENGTH](_ => null);
      M, home := map[], map[];
      new;
      Repr := {this, root};
    }

    method Get(idx: nat) returns (r: Maybe<V>)
      requires Valid()
      ensures r == if idx in M then Ref(M[idx]) else Null
    {
      if idx >= BITS_LIMIT {
        return Null;
      }
      assert Lookup(idx) == Lookup(idx);
      if root[First(idx)] == null || root[First(idx)].ptrs[Second(idx)] == null {
        return Null;
      }
      r := root[First(idx)].ptrs[Second(idx)].values[Third(idx)];
    }

    // The leaf slot for page number k has been allocated.
    ghost predicate HasSlot(k: nat)
      requires Shape() && k < BITS_LIMIT
      reads this, Repr
    {
      root[First(k)] != null && root[First(k)].ptrs[Second(k)] != null
    }

    method EnsureNode(i: nat)
      requires Valid() && i < INTERIOR_LENGTH
      modifies Repr
      ensures Valid() && fresh(Repr - old(Repr)) && M == old(M) && root[i] != null
      ensures forall k :: 0 <= k < BITS_LIMIT && old(HasSlot(k)) ==> HasSlot(k)
    {
      if root[i] == null {
        var n := new Node<V>();
        root[i] := n;
        Repr := Repr + {n.ptrs};
        home := home[n.ptrs := i];
        assert Shape();
        hide Valid;
        forall k | 0 <= k < BITS_LIMIT ensures Lookup(k) == old(Lookup(k)) {}
      }
    }

    method NewLeaf(i: nat, j: nat)
      requires Shape() && i < INTERIOR_LENGTH && j < INTERIOR_LENGTH && root[i] != null && root[i].ptrs[j] == null
      modifies Repr
      ensures Shape() && fresh(Repr - old(Repr)) && M == old(M)
      ensures root[i] != null && root[i].ptrs[j] != null
      ensures forall k :: 0 <= k < BITS_LIMIT ==> Lookup(k) == old(Lookup(k)) && (old(HasSlot(k)) ==> HasSlot(k))
    {
      OwnNodes(i);
      var leaf := new Leaf<V>();
      root[i].ptrs[j] := leaf;
      Repr := Repr + {leaf.values};
      home := home[leaf.values := i * INTERIOR_LENGTH + j];
      assert Shape();
      hide Shape;
    }

    // No two nodes share an array.
    lemma OwnNodes(i: nat)
      requires Shape() && i < INTERIOR_LENGTH && root[i] != null
      ensures forall i' :: 0 <= i' < INTERIOR_LENGTH && i' != i && root[i'] != null ==> root[i'].ptrs != root[i].ptrs
    {
    }

    method EnsureLeaf(i: nat, j: nat)
      requires Valid() && i < INTERIOR_LENGTH && j < INTERIOR_LENGTH && root[i] != null
      modifies Repr
      ensures Valid() && fresh(Repr - old(Repr)) && M == old(M)
      ensures root[i] != null && root[i].ptrs[j] != null
      ensures forall k :: 0 <= k < BITS_LIMIT && old(HasSlot(k)) ==> HasSlot(k)
    {
      if root[i].ptrs[j] == null {
        hide Shape, Lookup, HasSlot;
        NewLeaf(i, j);
      }
    }

    /** Allocates the leaf slots of the pages start .. start + n - 1; no mapping changes. */
    method Ensure(start: nat, n: nat)
      requires Valid() && 1 <= n && start + n <= BITS_LIMIT
      modifies Repr
      ensures Valid() && fresh(Repr - old(Repr)) && M == old(M)
      ensures forall k :: start <= k < start + n ==> HasSlot(k)
    {
      var key := start;
      while key <= start + n - 1
        invariant Valid() && fresh(Repr - old(Repr)) && M == old(M) && start <= key
        invariant forall k :: start <= k < key && k < start + n ==> HasSlot(k)
        decreases start + n - key
      {
        EnsureNode(First(key));
        EnsureLeaf(First(key), Second(key));
        var next := (key / LEAF_LENGTH + 1) * LEAF_LENGTH;
        forall k | key <= k < next && k < start + n ensures HasSlot(k) {
          assert k / 0x1_0000 == key / 0x1_0000;
          assert First(k) == First(key) && Second(k) == Second(key);
        }
        key := next;
      }
    }

    // One leaf slot changes.
    method Store(idx: nat, v: V)
      requires Shape() && idx < BITS_LIMIT && HasSlot(idx)
      modifies Repr
      ensures Shape() && Repr == old(Repr) && M == old(M)[idx := v]
      ensures forall k :: 0 <= k < BITS_LIMIT ==> Lookup(k) == if k == idx then Ref(v) else old(Lookup(k))
    {
      root[First(idx)].ptrs[Second(idx)].values[Third(idx)] := Ref(v);
      M := M[idx := v];
      forall k | 0 <= k < BITS_LIMIT ensures Lookup(k) == if k == idx then Ref(v) else old(Lookup(k)) {
        if First(k) == First(idx) && Second(k) == Second(idx) && Third(k) == Third(idx) {
          SlotsAreInjective(k, idx);
        }
      }
    }

    /** The mapping of one page changes and that of no other. */
    method Set(idx: nat, v: V)
      requires Valid() && idx < BITS_LIMIT
      modifies Repr
      ensures Valid() && fresh(Repr - old(Repr)) && M == old(M)[idx := v]
    {
      Ensure(idx, 1);
      assert HasSlot(idx);
      hide Shape, Lookup, HasSlot;
      Store(idx, v);
    }
  }
}
