/**
 * The item-set container `Cluster<T>` of Clustering/cluster.h and
 * Clustering/cluster.cpp.
 *
 * A cluster is an id and a `std::set` of items; the set is a `set<T>` field
 * that the mutators reassign. The set-algebra operations build a new
 * cluster and leave both operands alone. The bodies of `merge`,
 * `intersect`, `unite`, `difference`, `contains`, `is_empty`, `clear` and
 * the comparison operators live in cluster.tpp, which is not part of this
 * model; they are modelled by what their names and comments say, with `==`
 * comparing the item sets.
 */
module Clusters {

  class Cluster<T(==,!new)> {
    var id: nat
    var items: set<T>

    /** Cluster(id): a cluster with this id and no items. */
    constructor (id: nat)
      ensures this.id == id && items == {}
    {
      this.id := id;
      items := {};
    }

    /** add_item: inserting an item already present changes nothing. */
    method AddItem(x: T)
      modifies this
      ensures items == old(items) + {x}
      ensures x in items
      ensures x in old(items) ==> items == old(items)
      ensures id == old(id)
    {
      items := items + {x};
    }

    /** remove_item: erasing an absent item changes nothing. */
    method RemoveItem(x: T)
      modifies this
      ensures items == old(items) - {x}
      ensures x !in items
      ensures x !in old(items) ==> items == old(items)
      ensures id == old(id)
    {
      items := items - {x};
    }

    /** size: the number of distinct items; zero exactly for an empty cluster. */
    function Size(): (n: nat)
      reads this
      ensures n == 0 <==> items == {}
    {
      |items|
    }

    /** data: the item set itself. */
    function Data(): (s: set<T>)
      reads this
      ensures forall x :: x in s <==> Contains(x)
      ensures |s| == Size()
    {
      items
    }

    /** merge: this cluster's items become the union of both. */
    method Merge(other: Cluster<T>)
      modifies this
      ensures items == old(items) + old(other.items)
      ensures id == old(id)
    {
      items := items + other.items;
    }

    /** intersect: a new cluster holding the items common to both. */
    method Intersect(other: Cluster<T>) returns (c: Cluster<T>)
      ensures fresh(c)
      ensures c.items == items * other.items
    {
      c := new Cluster(id);
      c.items := items * other.items;
    }

    /** unite: a new cluster holding the items of either. */
    method Unite(other: Cluster<T>) returns (c: Cluster<T>)
      ensures fresh(c)
      ensures c.items == items + other.items
    {
      c := new Cluster(id);
      c.items := items + other.items;
    }

    /** difference: a new cluster holding this cluster's items that the other lacks. */
    method Difference(other: Cluster<T>) returns (c: Cluster<T>)
      ensures fresh(c)
      ensures c.items == items - other.items
    {
      c := new Cluster(id);
      c.items := items - other.items;
    }

    /** contains: membership; a cluster that contains anything is not empty. */
    function Contains(x: T): (b: bool)
      reads this
      ensures b <==> x in items
      ensures b ==> Size() > 0
    {
      x in items
    }

    /** is_empty: holds exactly when size() is 0. */
    function IsEmpty(): (b: bool)
      reads this
      ensures b <==> Size() == 0
      ensures b ==> forall x :: !Contains(x)
    {
      items == {}
    }

    /** clear: removes every item. */
    method Clear()
      modifies this
      ensures items == {}
      ensures IsEmpty()
      ensures id == old(id)
    {
      items := {};
    }

    /** operator==: equal item sets; equal clusters have equal sizes and the same members. */
    function Equals(other: Cluster<T>): (b: bool)
      reads this, other
      ensures b ==> Size() == other.Size()
      ensures b ==> forall x :: Contains(x) == other.Contains(x)
      ensures b <==> items <= other.items && other.items <= items
    {
      items == other.items
    }

    /** operator!=: the negation of operator==. */
    function NotEquals(other: Cluster<T>): (b: bool)
      reads this, other
      ensures b <==> !Equals(other)
    {
      !Equals(other)
    }
  }

  /**
   * The driver of Clustering/main.cpp: items 0..4 go into the first cluster,
   * 5..9 into the second, 7 is removed from the second.
   */
  method UsageExample() returns (size1: nat, size2: nat)
    ensures size1 == 5 && size2 == 4
  {
    var c1 := new Cluster<nat>(0);
    var c2 := new Cluster<nat>(1);
    for i := 0 to 5
      invariant forall k: nat :: k in c1.items <==> k < i
      invariant forall k: nat :: k in c2.items <==> 5 <= k < i + 5
    {
      c1.AddItem(i);
      c2.AddItem(i + 5);
    }
    assert c1.items == {0, 1, 2, 3, 4};
    c2.RemoveItem(7);
    assert c2.items == {5, 6, 8, 9};
    size1, size2 := c1.Size(), c2.Size();
  }
}
