/** libwayland's intrusive doubly linked ring (`struct wl_list`), as the forwarding code uses and
    extends it: a head and its members are links alike, and the empty ring is a self-linked head. */
module WlLists {
  class Link {
    var next: Link
    var prev: Link

    /** wl_list_init() on a fresh link. */
    constructor ()
      ensures next == this && prev == this
    {
      next := this;
      prev := this;
    }
  }

  /** The stations of a ring walk that starts and ends at the head. */
  ghost function Walk(head: Link, s: seq<Link>): seq<Link> {
    [head] + s + [head]
  }

  ghost predicate Linked(walk: seq<Link>)
    reads walk
  {
    forall i {:trigger walk[i]} :: 0 <= i < |walk| - 1 ==> walk[i].next == walk[i + 1] && walk[i + 1].prev == walk[i]
  }

  ghost predicate Distinct<T>(s: seq<T>) {
    forall i, j :: 0 <= i < j < |s| ==> s[i] != s[j]
  }

  /** The ring through `head` visits exactly `s`, in order, and comes back. */
  ghost predicate Ring(head: Link, s: seq<Link>)
    reads head, s
  {
    head !in s && Distinct(s) && Linked(Walk(head, s))
  }

  /** Position `i` of the ring, the head standing at both ends. */
  ghost function At(head: Link, s: seq<Link>, i: int): Link
    requires -1 <= i <= |s|
  {
    Walk(head, s)[i + 1]
  }

  function Inserted<T>(s: seq<T>, k: nat, x: T): seq<T>
    requires k <= |s|
  {
    s[..k] + [x] + s[k..]
  }

  function Removed<T>(s: seq<T>, k: nat): seq<T>
    requires k < |s|
  {
    s[..k] + s[k + 1..]
  }

  /** wl_list_init(). */
  method Init(elm: Link)
    modifies elm
    ensures Ring(elm, [])
  {
    elm.next := elm;
    elm.prev := elm;
  }

  /** The head apart, every station of a walk is a different link. */
  lemma WalkDistinct(head: Link, s: seq<Link>)
    requires head !in s && Distinct(s)
    ensures forall i, j {:trigger Walk(head, s)[i], Walk(head, s)[j]} ::
              0 <= i < j < |Walk(head, s)| && !(i == 0 && j == |s| + 1) ==> Walk(head, s)[i] != Walk(head, s)[j]
  {
  }

  /** A link's neighbours are stations of its own ring. */
  lemma Neighbours(head: Link, s: seq<Link>, k: nat)
    requires Ring(head, s) && k <= |s| + 1
    ensures var l := Walk(head, s)[k];
            (l.next == head || l.next in s) && (l.prev == head || l.prev in s)
  {
    var walk := Walk(head, s);
    assert walk[0].next == walk[1] && walk[|s|].next == walk[|s| + 1];
    if 0 < k <= |s| { assert walk[k].next == walk[k + 1] && walk[k - 1].next == walk[k]; }
  }

  /** wl_list_insert(): right after `ref`, which is the head (k == 0) or member k - 1. */
  method Insert(ghost head: Link, ghost s: seq<Link>, ghost k: nat, ref: Link, elm: Link)
    requires Ring(head, s) && k <= |s| && ref == At(head, s, k - 1)
    requires elm != head && elm !in s
    modifies ref, ref.next, elm
    ensures Ring(head, Inserted(s, k, elm))
  {
    ghost var walk := Walk(head, s);
    assert walk[k].next == walk[k + 1];
    WalkDistinct(head, s);
    elm.prev := ref;
    elm.next := ref.next;
    ref.next := elm;
    elm.next.prev := elm;
    assert LinkedBut(walk, k);
    Splice(head, s, k, elm);
  }

  /** wl_list_insert_before(): right before `ref`, which is the head (k == |s|) or member k. */
  method InsertBefore(ghost head: Link, ghost s: seq<Link>, ghost k: nat, ref: Link, elm: Link)
    requires Ring(head, s) && k <= |s| && ref == At(head, s, k)
    requires elm != head && elm !in s
    modifies ref, ref.prev, elm
    ensures Ring(head, Inserted(s, k, elm))
  {
    ghost var walk := Walk(head, s);
    assert walk[k].next == walk[k + 1] && walk[k + 1].prev == walk[k];
    WalkDistinct(head, s);
    elm.next := ref;
    elm.prev := ref.prev;
    ref.prev := elm;
    elm.prev.next := elm;
    assert LinkedBut(walk, k);
    Splice(head, s, k, elm);
  }

  /** All of the walk linked but the step at position k, which goes through `elm`: that is the ring
      with `elm` spliced in there. */
  lemma Splice(head: Link, s: seq<Link>, k: nat, elm: Link)
    requires head !in s && Distinct(s) && k <= |s| && elm != head && elm !in s
    requires LinkedBut(Walk(head, s), k)
    requires At(head, s, k - 1).next == elm && elm.prev == At(head, s, k - 1)
    requires elm.next == At(head, s, k) && At(head, s, k).prev == elm
    ensures Ring(head, Inserted(s, k, elm))
  {
    var walk, t := Walk(head, s), Walk(head, Inserted(s, k, elm));
    assert t == Inserted(walk, k + 1, elm);
    forall i {:trigger t[i]} | 0 <= i < |t| - 1 ensures t[i].next == t[i + 1] && t[i + 1].prev == t[i] {
      if i < k {
        assert walk[i].next == walk[i + 1];
      } else if i > k + 1 {
        assert walk[i - 1].next == walk[i];
      }
    }
    DistinctInserted(s, k, elm);
  }

  ghost predicate LinkedBut(walk: seq<Link>, k: nat)
    reads walk
  {
    forall i {:trigger walk[i]} :: 0 <= i < |walk| - 1 && i != k ==> walk[i].next == walk[i + 1] && walk[i + 1].prev == walk[i]
  }

  lemma DistinctInserted<T>(s: seq<T>, k: nat, x: T)
    requires Distinct(s) && x !in s && k <= |s|
    ensures Distinct(Inserted(s, k, x))
    ensures forall y :: y in Inserted(s, k, x) <==> y == x || y in s
  {
    assert s == s[..k] + s[k..];
  }

  lemma DistinctRemoved<T>(s: seq<T>, k: nat)
    requires Distinct(s) && k < |s|
    ensures Distinct(Removed(s, k))
    ensures forall y :: y in Removed(s, k) <==> y in s && y != s[k]
  {
    forall y | y in s && y != s[k] ensures y in Removed(s, k) {
      var i :| 0 <= i < |s| && s[i] == y;
      assert Removed(s, k)[if i < k then i else i - 1] == y;
    }
  }

  /** wl_list_remove(): the link forgets its ring. */
  method Remove(ghost head: Link, ghost s: seq<Link>, ghost k: nat, elm: Link)
    requires Ring(head, s) && k < |s| && elm == s[k]
    modifies elm.prev, elm.next
    ensures Ring(head, Removed(s, k))
  {
    ghost var walk := Walk(head, s);
    assert walk[k].next == walk[k + 1] && walk[k + 1].next == walk[k + 2];
    WalkDistinct(head, s);
    elm.prev.next := elm.next;
    elm.next.prev := elm.prev;
    ghost var t := Walk(head, Removed(s, k));
    assert t == Removed(walk, k + 1);
    forall i {:trigger t[i]} | 0 <= i < |t| - 1 ensures t[i].next == t[i + 1] && t[i + 1].prev == t[i] {
      if i < k {
        assert old(walk[i].next) == walk[i + 1];
      } else if i > k {
        assert old(walk[i + 1].next) == walk[i + 2];
      }
    }
    DistinctRemoved(s, k);
  }

  /** The hand-over of a whole ring to a new head, by copying the old head and re-aiming its two
      neighbours; the old head is then re-initialised. */
  method TakeOver(from: Link, to: Link, ghost s: seq<Link>)
    requires Ring(from, s) && s != [] && to != from && to !in s
    modifies from, to, from.next, from.prev
    ensures Ring(to, s) && Ring(from, [])
  {
    ghost var walk, t := Walk(from, s), Walk(to, s);
    assert walk[0].next == walk[1] && walk[|s|].next == walk[|s| + 1];
    WalkDistinct(from, s);
    to.next := from.next;
    to.prev := from.prev;
    to.next.prev := to;
    to.prev.next := to;
    Init(from);
    forall i {:trigger t[i]} | 0 <= i < |t| - 1 ensures t[i].next == t[i + 1] && t[i + 1].prev == t[i] {
      assert old(walk[i].next) == walk[i + 1];
    }
  }
}
