/** Stacking orders: a sequence from bottom to top, and the one kind of move a `wl_subsurface` can ask
    for -- out of the order, and back in directly above or below a reference. */
module Stacking {
  import opened WlLists

  function IndexOf<T(==)>(s: seq<T>, x: T): (i: nat)
    requires x in s
    ensures i < |s| && s[i] == x
    ensures forall k :: 0 <= k < i ==> s[k] != x
  {
    if s[0] == x then 0 else 1 + IndexOf(s[1..], x)
  }

  lemma IndexUnique<T>(s: seq<T>, k: nat)
    requires Distinct(s) && k < |s|
    ensures IndexOf(s, s[k]) == k
  {
  }

  function Without<T(==)>(s: seq<T>, x: T): seq<T>
    requires x in s
  {
    Removed(s, IndexOf(s, x))
  }

  function Drop<T(==)>(s: seq<T>, x: T): seq<T> {
    if x in s then Without(s, x) else s
  }

  lemma DropDistinct<T>(s: seq<T>, x: T)
    requires Distinct(s)
    ensures Distinct(Drop(s, x))
    ensures forall y :: y in Drop(s, x) <==> y in s && y != x
  {
    if x in s { DistinctRemoved(s, IndexOf(s, x)); }
  }

  lemma PrependDistinct<T>(s: seq<T>, x: T)
    requires Distinct(s) && x !in s
    ensures Distinct([x] + s)
  {
  }

  lemma AppendDistinct<T>(s: seq<T>, x: T)
    requires Distinct(s) && x !in s
    ensures Distinct(s + [x])
  {
  }

  lemma WithoutKeeps<T>(s: seq<T>, x: T, y: T)
    requires x in s && y in s && x != y
    ensures y in Without(s, x)
  {
    var i, k := IndexOf(s, y), IndexOf(s, x);
    assert Without(s, x)[if i < k then i else i - 1] == y;
  }

  function PlacedAbove<T(==)>(s: seq<T>, x: T, ref: T): seq<T>
    requires x in s && ref in s && x != ref
  {
    WithoutKeeps(s, x, ref);
    var rest := Without(s, x);
    Inserted(rest, IndexOf(rest, ref) + 1, x)
  }

  function PlacedBelow<T(==)>(s: seq<T>, x: T, ref: T): seq<T>
    requires x in s && ref in s && x != ref
  {
    WithoutKeeps(s, x, ref);
    var rest := Without(s, x);
    Inserted(rest, IndexOf(rest, ref), x)
  }

  // ----- one parent's two pending lists, as real rings

  /** An element of a parent's stacking order. */
  datatype Item<T> = Parent | Child(c: T)

  function Children<T>(s: seq<T>): (r: seq<Item<T>>)
    ensures |r| == |s| && forall i :: 0 <= i < |s| ==> r[i] == Child(s[i])
  {
    seq(|s|, i requires 0 <= i < |s| => Child(s[i]))
  }

  /** `subsurfaces_below`, the parent, `subsurfaces_above`: one order from bottom to top. */
  function Flat<T>(below: seq<T>, above: seq<T>): seq<Item<T>> {
    Children(below) + [Parent] + Children(above)
  }

  lemma FlatDistinct<T>(below: seq<T>, above: seq<T>)
    requires Distinct(below + above)
    ensures Distinct(Flat(below, above))
  {
    var f := Flat(below, above);
    forall i, j | 0 <= i < j < |f| ensures f[i] != f[j] {
      assert i < |below| ==> (below + above)[i] == below[i];
      assert i > |below| ==> (below + above)[i - 1] == above[i - |below| - 1];
      assert j < |below| ==> (below + above)[j] == below[j];
      assert j > |below| ==> (below + above)[j - 1] == above[j - |below| - 1];
    }
  }

  lemma FlatInserted<T>(below: seq<T>, above: seq<T>, k: nat, x: T)
    ensures k <= |below| ==> Flat(Inserted(below, k, x), above) == Inserted(Flat(below, above), k, Child(x))
    ensures k <= |above| ==> Flat(below, Inserted(above, k, x)) == Inserted(Flat(below, above), |below| + 1 + k, Child(x))
  {
  }

  lemma FlatRemoved<T>(below: seq<T>, above: seq<T>, k: nat)
    ensures k < |below| ==> Flat(Removed(below, k), above) == Removed(Flat(below, above), k)
    ensures k < |above| ==> Flat(below, Removed(above, k)) == Removed(Flat(below, above), |below| + 1 + k)
  {
  }

  /** Two rings of a parent, sharing no link. */
  ghost predicate Rings(belowHead: Link, aboveHead: Link, below: seq<Link>, above: seq<Link>)
    reads belowHead, aboveHead, below, above
  {
    && Ring(belowHead, below) && Ring(aboveHead, above)
    && belowHead != aboveHead && belowHead !in above && aboveHead !in below
    && Distinct(below + above) && (forall l :: l in below ==> l !in above)
  }

  lemma DistinctParts<T>(a: seq<T>, b: seq<T>)
    ensures Distinct(a + b) <==> Distinct(a) && Distinct(b) && forall x :: x in a ==> x !in b
  {
    var s := a + b;
    if Distinct(s) {
      forall i, j | 0 <= i < j < |a| ensures a[i] != a[j] { assert s[i] != s[j]; }
      forall i, j | 0 <= i < j < |b| ensures b[i] != b[j] { assert s[|a| + i] != s[|a| + j]; }
      forall i, j | 0 <= i < |a| && 0 <= j < |b| ensures a[i] != b[j] { assert s[i] != s[|a| + j]; }
    } else {
      var i, j :| 0 <= i < j < |s| && s[i] == s[j];
      if j < |a| {
        assert a[i] == a[j];
      } else if i >= |a| {
        assert b[i - |a|] == b[j - |a|];
      } else {
        assert a[i] == b[j - |a|] && a[i] in a && b[j - |a|] in b;
      }
    }
  }

  lemma FlatAt<T>(below: seq<T>, above: seq<T>, inBelow: bool, k: nat)
    requires k < if inBelow then |below| else |above|
    ensures var i := if inBelow then k else |below| + 1 + k;
            i < |Flat(below, above)| && Flat(below, above)[i] == Child(if inBelow then below[k] else above[k])
  {
  }

  /** Taking x out of one of the two lists takes it out of the order. */
  lemma FlatWithout<T>(below: seq<T>, above: seq<T>, x: T, inBelow: bool, k: nat)
    requires Distinct(below + above) && inBelow == (x in below)
    requires if inBelow then k < |below| && below[k] == x else k < |above| && above[k] == x
    ensures Child(x) in Flat(below, above)
    ensures var b, a := if inBelow then Removed(below, k) else below, if inBelow then above else Removed(above, k);
            && Flat(b, a) == Without(Flat(below, above), Child(x)) && Distinct(b + a)
            && (forall y :: y in b ==> y in below) && (forall y :: y in a ==> y in above) && x !in b + a
            && (forall y :: y in below + above && y != x ==> y in b + a) && (forall y :: y in b ==> y !in a)
  {
    hide Distinct, Flat;
    FlatDistinct(below, above);
    DistinctParts(below, above);
    FlatRemoved(below, above, k);
    FlatAt(below, above, inBelow, k);
    var flat := Flat(below, above);
    var b, a := if inBelow then Removed(below, k) else below, if inBelow then above else Removed(above, k);
    if inBelow {
      DistinctRemoved(below, k);
      assert forall y :: y in b <==> y in below && y != x;
    } else {
      DistinctRemoved(above, k);
      assert forall y :: y in a <==> y in above && y != x;
    }
    IndexUnique(flat, if inBelow then k else |below| + 1 + k);
    DistinctParts(b, a);
  }

  /** Putting x into one of the two lists puts it into the order. */
  lemma FlatWith<T>(below: seq<T>, above: seq<T>, x: T, inBelow: bool, k: nat)
    requires Distinct(below + above) && x !in below + above
    requires k <= if inBelow then |below| else |above|
    ensures var b, a := if inBelow then Inserted(below, k, x) else below, if inBelow then above else Inserted(above, k, x);
            && Flat(b, a) == Inserted(Flat(below, above), if inBelow then k else |below| + 1 + k, Child(x))
            && Distinct(b + a) && (forall y :: y in b ==> y !in a)
            && (forall y :: y in b ==> y == x || y in below) && (forall y :: y in a ==> y == x || y in above)
  {
    DistinctParts(below, above);
    FlatInserted(below, above, k, x);
    if inBelow { DistinctInserted(below, k, x); } else { DistinctInserted(above, k, x); }
    DistinctParts(if inBelow then Inserted(below, k, x) else below, if inBelow then above else Inserted(above, k, x));
  }

  /** The position of an item of the order. */
  lemma FlatIndex<T>(below: seq<T>, above: seq<T>, i: nat)
    requires Distinct(below + above) && i <= |below| + |above|
    ensures IndexOf(Flat(below, above), Flat(below, above)[i]) == i
  {
    FlatDistinct(below, above);
    IndexUnique(Flat(below, above), i);
  }

  /** One of the two rings, and the other. */
  predicate Apart(head: Link, s: seq<Link>, otherHead: Link, other: seq<Link>) {
    head != otherHead && head !in other && otherHead !in s && forall l :: l in other ==> l !in s
  }

  lemma RingsPart(belowHead: Link, aboveHead: Link, below: seq<Link>, above: seq<Link>)
    requires Rings(belowHead, aboveHead, below, above)
    ensures Ring(belowHead, below) && Ring(aboveHead, above) && Distinct(below + above)
    ensures Apart(belowHead, below, aboveHead, above) && Apart(aboveHead, above, belowHead, below)
  {
    hide Ring, Distinct;
  }

  lemma RingsJoin(belowHead: Link, aboveHead: Link, below: seq<Link>, above: seq<Link>)
    requires Ring(belowHead, below) && Ring(aboveHead, above) && Distinct(below + above)
    requires Apart(belowHead, below, aboveHead, above)
    ensures Rings(belowHead, aboveHead, below, above)
  {
    hide Ring, Distinct;
  }

  method RemoveFrom(ghost head: Link, ghost s: seq<Link>, ghost k: nat, ghost otherHead: Link, ghost other: seq<Link>, elm: Link)
    requires Ring(head, s) && Ring(otherHead, other) && Apart(head, s, otherHead, other) && k < |s| && elm == s[k]
    modifies elm.prev, elm.next
    ensures Ring(head, Removed(s, k)) && Ring(otherHead, other)
  {
    Neighbours(head, s, k + 1);
    assert elm == Walk(head, s)[k + 1];
    hide Ring, Removed;
    Remove(head, s, k, elm);
  }

  method InsertAfter(ghost head: Link, ghost s: seq<Link>, ghost k: nat, ghost otherHead: Link, ghost other: seq<Link>,
                     ref: Link, elm: Link)
    requires Ring(head, s) && Ring(otherHead, other) && Apart(head, s, otherHead, other)
    requires k <= |s| && ref == At(head, s, k - 1)
    requires elm != head && elm !in s && elm != otherHead && elm !in other
    modifies ref, ref.next, elm
    ensures Ring(head, Inserted(s, k, elm)) && Ring(otherHead, other)
  {
    Neighbours(head, s, k);
    StationOf(head, s, k);
    hide Ring, Inserted, At;
    Insert(head, s, k, ref, elm);
  }

  method PutBefore(ghost head: Link, ghost s: seq<Link>, ghost k: nat, ghost otherHead: Link, ghost other: seq<Link>,
                   ref: Link, elm: Link)
    requires Ring(head, s) && Ring(otherHead, other) && Apart(head, s, otherHead, other)
    requires k <= |s| && ref == At(head, s, k)
    requires elm != head && elm !in s && elm != otherHead && elm !in other
    modifies ref, ref.prev, elm
    ensures Ring(head, Inserted(s, k, elm)) && Ring(otherHead, other)
  {
    Neighbours(head, s, k + 1);
    StationOf(head, s, k + 1);
    hide Ring, Inserted, At;
    InsertBefore(head, s, k, ref, elm);
  }

  lemma StationOf(head: Link, s: seq<Link>, k: nat)
    requires k <= |s| + 1
    ensures Walk(head, s)[k] == head || Walk(head, s)[k] in s
  {
  }

  /** wl_list_remove() of a link that is in either ring. */
  method Unlink(ghost belowHead: Link, ghost aboveHead: Link, ghost below: seq<Link>, ghost above: seq<Link>, elm: Link)
    returns (ghost below': seq<Link>, ghost above': seq<Link>)
    requires Rings(belowHead, aboveHead, below, above) && elm in below + above
    modifies belowHead, aboveHead, below, above
    ensures Rings(belowHead, aboveHead, below', above')
    ensures Child(elm) in Flat(below, above)
    ensures Flat(below', above') == Without(Flat(below, above), Child(elm))
    ensures (forall l :: l in below' ==> l in below) && (forall l :: l in above' ==> l in above)
    ensures forall l :: l in below + above && l != elm ==> l in below' + above'
    ensures elm !in below' + above' && elm != belowHead && elm != aboveHead
  {
    hide Rings, Ring, Distinct, Flat, Without, Removed;
    RingsPart(belowHead, aboveHead, below, above);
    ghost var inBelow := elm in below;
    ghost var head, s := if inBelow then belowHead else aboveHead, if inBelow then below else above;
    ghost var otherHead, other := if inBelow then aboveHead else belowHead, if inBelow then above else below;
    ghost var k := IndexOf(s, elm);
    MemberNeighbours(head, s, k);
    RemoveFrom(head, s, k, otherHead, other, elm);
    FlatWithout(below, above, elm, inBelow, k);
    if inBelow {
      below', above' := Removed(below, k), above;
    } else {
      below', above' := below, Removed(above, k);
    }
    RingsJoin(belowHead, aboveHead, below', above');
  }

  lemma MemberNeighbours(head: Link, s: seq<Link>, k: nat)
    requires Ring(head, s) && k < |s|
    ensures (s[k].next == head || s[k].next in s) && (s[k].prev == head || s[k].prev in s) && s[k] != head
  {
    Neighbours(head, s, k + 1);
  }

  function Reference(sibling: Link?): Item<Link> {
    if sibling == null then Parent else var l: Link := sibling; Child(l)
  }

  /** The link a request is carried out at. */
  function Anchor(sibling: Link?, head: Link): Link {
    if sibling == null then head else sibling
  }

  /** The index of a reference in the order. */
  ghost function ReferenceIndex(below: seq<Link>, above: seq<Link>, sibling: Link?): (i: nat)
    requires sibling != null ==> sibling in below + above
    ensures i <= |below| + |above| && Flat(below, above)[i] == Reference(sibling)
  {
    if sibling == null then |below|
    else
      var l: Link := sibling;
      if l in below then IndexOf(below, l) else |below| + 1 + IndexOf(above, l)
  }

  lemma AnchorNeighbours(belowHead: Link, aboveHead: Link, below: seq<Link>, above: seq<Link>, sibling: Link?)
    requires Rings(belowHead, aboveHead, below, above)
    requires sibling != null ==> sibling in below + above
    ensures Anchor(sibling, aboveHead).next in [belowHead, aboveHead] + below + above
    ensures Anchor(sibling, belowHead).prev in [belowHead, aboveHead] + below + above
  {
    if sibling == null {
      Neighbours(aboveHead, above, 0);
      Neighbours(belowHead, below, 0);
    } else if sibling in below {
      Neighbours(belowHead, below, IndexOf(below, sibling) + 1);
    } else {
      Neighbours(aboveHead, above, IndexOf(above, sibling) + 1);
    }
  }

  /** place_above: wl_list_insert() after the sibling's link, or after the head of `subsurfaces_above`. */
  method InsertAbove(ghost belowHead: Link, aboveHead: Link, ghost below: seq<Link>, ghost above: seq<Link>,
                     elm: Link, sibling: Link?)
    returns (ghost below': seq<Link>, ghost above': seq<Link>)
    requires Rings(belowHead, aboveHead, below, above)
    requires elm !in below + above && elm != belowHead && elm != aboveHead
    requires sibling != null ==> sibling in below + above
    modifies Anchor(sibling, aboveHead), Anchor(sibling, aboveHead).next, elm
    ensures Rings(belowHead, aboveHead, below', above')
    ensures Reference(sibling) in Flat(below, above)
    ensures Flat(below', above') ==
            Inserted(Flat(below, above), IndexOf(Flat(below, above), Reference(sibling)) + 1, Child(elm))
  {
    hide Rings, Ring, Distinct, Flat, Inserted;
    RingsPart(belowHead, aboveHead, below, above);
    ghost var i := ReferenceIndex(below, above, sibling);
    ghost var inBelow := i < |below|;
    ghost var head, s := if inBelow then belowHead else aboveHead, if inBelow then below else above;
    ghost var k: nat := if inBelow then i + 1 else i - |below|;
    ghost var otherHead, other := if inBelow then aboveHead else belowHead, if inBelow then above else below;
    InsertAfter(head, s, k, otherHead, other, Anchor(sibling, aboveHead), elm);
    FlatIndex(below, above, i);
    FlatWith(below, above, elm, inBelow, k);
    if inBelow {
      below', above' := Inserted(below, k, elm), above;
    } else {
      below', above' := below, Inserted(above, k, elm);
    }
    RingsJoin(belowHead, aboveHead, below', above');
  }

  /** place_below: wl_list_insert_before() the sibling's link, or the head of `subsurfaces_below`. */
  method InsertBelow(belowHead: Link, ghost aboveHead: Link, ghost below: seq<Link>, ghost above: seq<Link>,
                     elm: Link, sibling: Link?)
    returns (ghost below': seq<Link>, ghost above': seq<Link>)
    requires Rings(belowHead, aboveHead, below, above)
    requires elm !in below + above && elm != belowHead && elm != aboveHead
    requires sibling != null ==> sibling in below + above
    modifies Anchor(sibling, belowHead), Anchor(sibling, belowHead).prev, elm
    ensures Rings(belowHead, aboveHead, below', above')
    ensures Reference(sibling) in Flat(below, above)
    ensures Flat(below', above') ==
            Inserted(Flat(below, above), IndexOf(Flat(below, above), Reference(sibling)), Child(elm))
  {
    hide Rings, Ring, Distinct, Flat, Inserted;
    RingsPart(belowHead, aboveHead, below, above);
    ghost var i := ReferenceIndex(below, above, sibling);
    ghost var inBelow := i <= |below|;
    ghost var head, s := if inBelow then belowHead else aboveHead, if inBelow then below else above;
    ghost var k: nat := if inBelow then i else i - |below| - 1;
    ghost var otherHead, other := if inBelow then aboveHead else belowHead, if inBelow then above else below;
    PutBefore(head, s, k, otherHead, other, Anchor(sibling, belowHead), elm);
    FlatIndex(below, above, i);
    FlatWith(below, above, elm, inBelow, k);
    if inBelow {
      below', above' := Inserted(below, k, elm), above;
    } else {
      below', above' := below, Inserted(above, k, elm);
    }
    RingsJoin(belowHead, aboveHead, below', above');
  }

  method PlaceAbove(ghost belowHead: Link, aboveHead: Link, ghost below: seq<Link>, ghost above: seq<Link>,
                    elm: Link, sibling: Link?)
    returns (ghost below': seq<Link>, ghost above': seq<Link>)
    requires Rings(belowHead, aboveHead, below, above) && elm in below + above
    requires sibling != null ==> sibling in below + above && sibling != elm
    modifies belowHead, aboveHead, below, above
    ensures Rings(belowHead, aboveHead, below', above')
    ensures Child(elm) in Flat(below, above) && Reference(sibling) in Flat(below, above)
    ensures Flat(below', above') == PlacedAbove(Flat(below, above), Child(elm), Reference(sibling))
  {
    hide Rings, Flat;
    ghost var b, a := Unlink(belowHead, aboveHead, below, above, elm);
    ghost var i := ReferenceIndex(below, above, sibling);
    AnchorNeighbours(belowHead, aboveHead, b, a, sibling);
    assert elm in below || elm in above;
    ghost var l := Anchor(sibling, aboveHead).next;
    assert l == belowHead || l == aboveHead || l in below || l in above;
    below', above' := InsertAbove(belowHead, aboveHead, b, a, elm, sibling);
  }

  method PlaceBelow(belowHead: Link, ghost aboveHead: Link, ghost below: seq<Link>, ghost above: seq<Link>,
                    elm: Link, sibling: Link?)
    returns (ghost below': seq<Link>, ghost above': seq<Link>)
    requires Rings(belowHead, aboveHead, below, above) && elm in below + above
    requires sibling != null ==> sibling in below + above && sibling != elm
    modifies belowHead, aboveHead, below, above
    ensures Rings(belowHead, aboveHead, below', above')
    ensures Child(elm) in Flat(below, above) && Reference(sibling) in Flat(below, above)
    ensures Flat(below', above') == PlacedBelow(Flat(below, above), Child(elm), Reference(sibling))
  {
    hide Rings, Flat;
    ghost var b, a := Unlink(belowHead, aboveHead, below, above, elm);
    ghost var i := ReferenceIndex(below, above, sibling);
    AnchorNeighbours(belowHead, aboveHead, b, a, sibling);
    assert elm in below || elm in above;
    ghost var l := Anchor(sibling, belowHead).prev;
    assert l == belowHead || l == aboveHead || l in below || l in above;
    below', above' := InsertBelow(belowHead, aboveHead, b, a, elm, sibling);
  }
}
