/** The frame-callback handlers on the program's own list links, each proved to take the step that
    FrameCallbacks specifies. */
module FrameObjects {
  import opened WlLists
  import opened Stacking
  import opened Linkage
  import opened FrameCallbacks

  /** Every list of callbacks but that of p is a ring through its own head; a callback on no list is linked
      to itself. */
  ghost predicate RingsBut(heads: map<Place, Link>, l: Links<Place, Callback>, p: Place)
    reads heads.Values, l.of.Keys
  {
    && heads.Keys == l.lists.Keys
    && (forall q :: q in heads && q != p ==> (forall c :: c in l.lists[q] ==> c in l.of) && Ring(heads[q], l.lists[q]))
    && (forall c :: c in l.of && !l.of[c].To? ==> c.next == c && c.prev == c)
  }

  /** Every list of callbacks is such a ring. */
  ghost predicate AllRings(heads: map<Place, Link>, l: Links<Place, Callback>)
    reads heads.Values, l.of.Keys
  {
    && heads.Keys == l.lists.Keys
    && (forall p :: p in heads ==> (forall c :: c in l.lists[p] ==> c in l.of) && Ring(heads[p], l.lists[p]))
    && (forall c :: c in l.of && !l.of[c].To? ==> c.next == c && c.prev == c)
  }

  ghost predicate HeadsApart(heads: map<Place, Link>, of: map<Callback, Attachment<Place>>) {
    && (forall p, q :: p in heads && q in heads && heads[p] == heads[q] ==> p == q)
    && (forall p :: p in heads ==> heads[p] !in of)
  }

  ghost predicate OtherHeads(heads: map<Place, Link>, p: Place, list: seq<Callback>)
    requires p in heads
  {
    forall q :: q in heads && q != p ==> heads[q] != heads[p] && heads[q] !in list
  }

  ghost predicate OtherMembers(l: Links<Place, Callback>, p: Place, head: Link)
    requires p in l.lists
  {
    forall q, c :: q in l.lists && q != p && c in l.lists[q] ==> c != head && c !in l.lists[p]
  }

  ghost predicate OtherCallbacks(l: Links<Place, Callback>, head: Link, list: seq<Callback>) {
    forall c :: c in l.of && !l.of[c].To? ==> c != head && c !in list
  }

  /** The other lists, and the callbacks on none, are elsewhere. */
  ghost predicate Elsewhere(heads: map<Place, Link>, l: Links<Place, Callback>, p: Place)
    requires p in heads && p in l.lists
  {
    OtherHeads(heads, p, l.lists[p]) && OtherMembers(l, p, heads[p]) && OtherCallbacks(l, heads[p], l.lists[p])
  }

  lemma HeadsElsewhere(heads: map<Place, Link>, l: Links<Place, Callback>, p: Place)
    requires Agree(l) && HeadsApart(heads, l.of) && p in heads && p in l.lists
    ensures OtherHeads(heads, p, l.lists[p])
  {
    hide Agree, HeadsApart;
    forall q | q in heads && q != p ensures heads[q] != heads[p] && heads[q] !in l.lists[p] {
      HeadApart(heads, l.of, p, q);
      MemberOf(l, p, heads[q]);
    }
  }

  lemma MemberElsewhere(heads: map<Place, Link>, l: Links<Place, Callback>, p: Place, c: Callback)
    requires Agree(l) && HeadsApart(heads, l.of) && p in heads && p in l.lists && c in l.of && l.of[c] != To(p)
    ensures c != heads[p] && c !in l.lists[p]
  {
    hide Agree, HeadsApart;
    MemberOf(l, p, c);
    NotHead(heads, l.of, p, c);
  }

  lemma ListElsewhere(heads: map<Place, Link>, l: Links<Place, Callback>, p: Place, q: Place)
    requires Agree(l) && HeadsApart(heads, l.of) && p in heads && p in l.lists && q in l.lists && q != p
    ensures forall c :: c in l.lists[q] ==> c != heads[p] && c !in l.lists[p]
  {
    hide Agree, HeadsApart;
    forall c | c in l.lists[q] ensures c != heads[p] && c !in l.lists[p] {
      MemberOf(l, q, c);
      MemberElsewhere(heads, l, p, c);
    }
  }

  lemma MembersElsewhere(heads: map<Place, Link>, l: Links<Place, Callback>, p: Place)
    requires Agree(l) && HeadsApart(heads, l.of) && p in heads && p in l.lists
    ensures OtherMembers(l, p, heads[p])
  {
    hide Agree, HeadsApart;
    forall q | q in l.lists && q != p ensures forall c :: c in l.lists[q] ==> c != heads[p] && c !in l.lists[p] {
      ListElsewhere(heads, l, p, q);
    }
  }

  lemma UnlistedElsewhere(heads: map<Place, Link>, l: Links<Place, Callback>, p: Place)
    requires Agree(l) && HeadsApart(heads, l.of) && p in heads && p in l.lists
    ensures OtherCallbacks(l, heads[p], l.lists[p])
  {
    hide Agree, HeadsApart;
    forall c | c in l.of && !l.of[c].To? ensures c != heads[p] && c !in l.lists[p] {
      MemberElsewhere(heads, l, p, c);
    }
  }

  lemma ListsApart(heads: map<Place, Link>, l: Links<Place, Callback>, p: Place)
    requires Agree(l) && HeadsApart(heads, l.of) && p in heads && heads.Keys == l.lists.Keys
    ensures Elsewhere(heads, l, p)
  {
    assert p in l.lists;
    hide Agree, HeadsApart, OtherHeads, OtherMembers, OtherCallbacks;
    HeadsElsewhere(heads, l, p);
    MembersElsewhere(heads, l, p);
    UnlistedElsewhere(heads, l, p);
  }

  lemma MemberOf(l: Links<Place, Callback>, p: Place, c: Callback)
    requires Agree(l) && p in l.lists
    ensures c in l.lists[p] ==> c in l.of && l.of[c] == To(p)
  {
    hide Distinct;
  }

  lemma NotHead(heads: map<Place, Link>, of: map<Callback, Attachment<Place>>, p: Place, c: Callback)
    requires HeadsApart(heads, of) && p in heads && c in of
    ensures heads[p] != c
  {
  }

  lemma HeadApart(heads: map<Place, Link>, of: map<Callback, Attachment<Place>>, p: Place, q: Place)
    requires HeadsApart(heads, of) && p in heads && q in heads && p != q
    ensures heads[p] != heads[q] && heads[q] !in of
  {
  }

  /** The list of p put back among the others. */
  lemma RingsBack(heads: map<Place, Link>, l: Links<Place, Callback>, p: Place, m: Links<Place, Callback>)
    requires p in heads && RingsBut(heads, l, p) && m.lists.Keys == l.lists.Keys && Agree(m)
    requires forall q :: q in l.lists && q != p ==> m.lists[q] == l.lists[q]
    requires Ring(heads[p], m.lists[p])
    requires forall c :: c in m.of && !m.of[c].To? ==> c in l.of && !l.of[c].To?
    ensures AllRings(heads, m)
  {
    hide Ring, Distinct;
  }

  lemma Stays(head: Link, s: seq<Link>, k: nat)
    requires Ring(head, s) && k < |s|
    ensures s[k].next != s[k]
  {
    var walk := Walk(head, s);
    assert walk[k + 1].next == walk[k + 2];
    WalkDistinct(head, s);
  }

  lemma EmptyRing(head: Link, s: seq<Link>)
    requires Ring(head, s)
    ensures head.next == head <==> s == []
    ensures s != [] ==> head.next == s[0]
  {
    var walk := Walk(head, s);
    assert walk[0].next == walk[1];
  }

  /** Links that are on no list. */
  ghost predicate Loose(s: seq<Link>)
    reads s
  {
    forall c :: c in s ==> c.next == c && c.prev == c
  }

  /** wl_list_remove() and wl_list_init() of the first member. */
  method UnlinkFirst(ghost head: Link, ghost s: seq<Link>, pos: Link)
    requires Ring(head, s) && s != [] && pos == s[0]
    modifies pos.prev, pos.next, pos
    ensures Ring(head, s[1..]) && pos.next == pos && pos.prev == pos
  {
    FirstFacts(head, s);
    hide Ring;
    WlLists.Remove(head, s, 0, pos);
    assert Removed(s, 0) == s[1..];
    Init(pos);
    SelfLinked(pos);
  }

  lemma FirstFacts(head: Link, s: seq<Link>)
    requires Ring(head, s) && s != []
    ensures s[0] != head && s[0] !in s[1..]
  {
  }

  lemma SelfLinked(l: Link)
    requires Ring(l, [])
    ensures l.next == l && l.prev == l
  {
    assert Walk(l, [])[0].next == Walk(l, [])[1];
  }

  lemma TurnFacts(list: seq<Link>, i: nat, head: Link)
    requires i < |list| && head !in list && Ring(head, list[i..]) && Distinct(list)
    ensures var pos := list[i];
            && pos.next == (if i + 1 < |list| then list[i + 1] else head)
            && pos.prev == head && pos in list && (pos.next == head || pos.next in list)
    ensures forall c :: c in list[..i] ==> c != list[i] && c != list[i].next && c != head
  {
    var walk := Walk(head, list[i..]);
    assert walk[0].next == walk[1] && walk[1].next == walk[2];
  }

  class FrameForwarder {
    /** The list head embedded in every live surface and in every batch under way. */
    var heads: map<Place, Link>
    var nextBatch: nat
    ghost var links: Links<Place, Callback>
    ghost var completed: seq<Callback>
    ghost var used: set<Callback>

    constructor ()
      ensures Valid() && View() == EMPTY
    {
      heads, nextBatch := map[], 0;
      links, completed, used := Links(map[], map[]), [], {};
    }

    ghost function View(): Frames
      reads this
    {
      Frames(links, nextBatch, completed, used)
    }

    ghost predicate Valid()
      reads this, heads.Values, links.of.Keys
    {
      Inv(View()) && HeadsApart(heads, links.of) && AllRings(heads, links)
    }

    /** What the list of a place looks like. */
    lemma ListFacts(p: Place)
      requires Valid() && p in heads
      ensures heads.Keys == links.lists.Keys && Agree(links) && Ring(heads[p], links.lists[p])
      ensures heads[p].next == heads[p] || heads[p].next in links.lists[p]
      ensures heads[p].prev == heads[p] || heads[p].prev in links.lists[p]
      ensures forall c :: c in links.lists[p] ==> c in links.of
      ensures Elsewhere(heads, links, p) && RingsBut(heads, links, p)
      ensures heads[p] !in links.lists[p] && Distinct(links.lists[p])
    {
      Neighbours(heads[p], links.lists[p], 0);
      ListsApart(heads, links, p);
    }

    /** Putting a callback first on the list of a place. */
    method PushFront(p: Place, cb: Link)
      requires Valid() && p in heads && cb !in links.of && cb !in heads.Values
      modifies heads.Values, links.of.Keys, cb
      ensures Ring(heads[p], [cb] + links.lists[p]) && RingsBut(heads, links, p)
    {
      hide Valid, Ring, Agree;
      ListFacts(p);
      Insert(heads[p], links.lists[p], 0, heads[p], cb);
      assert Inserted(links.lists[p], 0, cb) == [cb] + links.lists[p];
    }

    lemma ValidFrom()
      requires Inv(View()) && HeadsApart(heads, links.of) && AllRings(heads, links)
      ensures Valid()
    {
    }

    lemma RequestFacts(s: Surf, cb: Link)
      requires Valid() && Queue(s) in heads && cb !in used && cb !in heads.Values
      ensures cb !in links.of && Queue(s) in links.lists && HeadsApart(heads, Request(View(), s, cb).links.of)
      ensures Inv(Request(View(), s, cb)) && Agree(Request(View(), s, cb).links)
      ensures Request(View(), s, cb).links.lists == links.lists[Queue(s) := [cb] + links.lists[Queue(s)]]
      ensures Request(View(), s, cb).links.of == links.of[cb := Null][cb := To(Queue(s))]
    {
      RequestKeeps(View(), s, cb);
      InvAgrees(Request(View(), s, cb));
      NewApart(heads, links.of, cb, To(Queue(s)));
    }

    /** `nested_surface_frame()`, for the link of a new callback resource. */
    method SurfaceFrame(s: Surf, cb: Link)
      requires Valid() && Queue(s) in heads && cb !in used && cb !in heads.Values
      modifies this`links, this`used, heads.Values, links.of.Keys, cb
      ensures Valid() && Queue(s) in old(links).lists && View() == Request(old(View()), s, cb)
    {
      hide Valid, Ring, Inv, Agree, RingsBut, AllRings, HeadsApart, Request;
      RequestFacts(s, cb);
      ghost var l, f := links, Request(View(), s, cb);
      PushFront(Queue(s), cb);
      links, used := f.links, f.used;
      RequestUsed(old(View()), s, cb);
      RingsBack(heads, l, Queue(s), links);
      ValidFrom();
    }

    lemma RequestUsed(f: Frames, s: Surf, cb: Callback)
      requires Queue(s) in f.links.lists
      ensures Request(f, s, cb) == Frames(Request(f, s, cb).links, f.nextBatch, f.done, Request(f, s, cb).used)
    {
      hide LinkTo;
    }

    /** Taking a callback off the list of a place. */
    method TakeOut(ghost p: Place, ghost k: nat, cb: Link)
      requires Valid() && p in heads && p in links.lists && k < |links.lists[p]| && cb == links.lists[p][k]
      modifies heads.Values, links.of.Keys
      ensures Ring(heads[p], Removed(links.lists[p], k)) && RingsBut(heads, links, p)
    {
      hide Valid, Ring, Agree;
      ListFacts(p);
      NeighboursOf(p, k);
      WlLists.Remove(heads[p], links.lists[p], k, cb);
    }

    lemma NeighboursOf(p: Place, k: nat)
      requires Valid() && p in heads && p in links.lists && k < |links.lists[p]|
      ensures var c, list := links.lists[p][k], links.lists[p];
              (c.next == heads[p] || c.next in list) && (c.prev == heads[p] || c.prev in list)
    {
      hide RingsBut, Elsewhere, Agree, Valid;
      ListFacts(p);
      MemberNeighbours(heads[p], links.lists[p], k);
    }

    /** Where a callback is, told from its link: a self-linked one is on no list. */
    lemma CallbackFacts(cb: Link)
      requires Valid() && cb in links.of
      ensures cb.next == cb <==> !links.of[cb].To?
      ensures links.of[cb].To? ==> links.of[cb].b in heads && links.of[cb].b in links.lists && cb in links.lists[links.of[cb].b]
    {
      hide Ring, Distinct;
      if links.of[cb].To? {
        var p := links.of[cb].b;
        var k :| 0 <= k < |links.lists[p]| && links.lists[p][k] == cb;
        Stays(heads[p], links.lists[p], k);
      }
    }

    lemma DestroyedFacts(cb: Link)
      requires Valid() && cb in links.of
      ensures var f := Destroyed(View(), cb);
              && Inv(f) && Agree(f.links) && HeadsApart(heads, f.links.of) && f == Frames(f.links, nextBatch, completed, used)
              && f.links.of == links.of - {cb}
              && f.links.lists == if links.of[cb].To? && links.of[cb].b in links.lists
                                  then links.lists[links.of[cb].b := Drop(links.lists[links.of[cb].b], cb)] else links.lists
    {
      DestroyedKeeps(View(), cb);
      InvAgrees(Destroyed(View(), cb));
      ForgetApart(heads, links.of, cb);
      hide Inv, Agree, HeadsApart, AllRings, Drop;
    }

    /** `frame_callback_handle_resource_destroy()`; taking a self-linked link out changes nothing. */
    method CallbackDestroyed(cb: Link)
      requires Valid() && cb in links.of
      modifies this`links, heads.Values, links.of.Keys
      ensures Valid() && View() == Destroyed(old(View()), cb)
    {
      hide Valid, Ring, Inv, Agree, RingsBut, AllRings, HeadsApart, Destroyed;
      DestroyedFacts(cb);
      CallbackFacts(cb);
      ghost var l, f := links, Destroyed(View(), cb);
      if cb.next != cb {
        ghost var p := l.of[cb].b;
        TakeOut(p, IndexOf(l.lists[p], cb), cb);
        links := f.links;
        RingsBack(heads, l, p, links);
      } else {
        OrphanGone(cb);
        links := f.links;
      }
      ValidFrom();
    }

    lemma OrphanGone(cb: Link)
      requires Valid() && cb in links.of && !links.of[cb].To?
      ensures AllRings(heads, Destroyed(View(), cb).links)
    {
      hide Ring, Distinct, Inv;
      var m := Destroyed(View(), cb).links;
      assert m.lists == links.lists && m.of == links.of - {cb};
      InvAgrees(View());
      forall p, c | p in heads && c in m.lists[p] ensures c in m.of {
        assert links.of[c] == To(p);
      }
    }

    /** Copying the head of a list that is not empty, and starting it afresh. */
    method MoveList(p: Place, to: Link)
      requires Valid() && p in heads && p in links.lists && links.lists[p] != [] && to !in heads.Values && to !in links.of
      modifies heads.Values, links.of.Keys, to
      ensures Ring(to, links.lists[p]) && Ring(heads[p], []) && RingsBut(heads, links, p)
    {
      hide Valid, Ring, Agree;
      ListFacts(p);
      TakeOver(heads[p], to, links.lists[p]);
    }

    lemma CommitFacts(s: Surf)
      requires Valid() && Queue(s) in heads
      ensures Queue(s) in links.lists && Batch(nextBatch) !in heads && (heads[Queue(s)].next == heads[Queue(s)] <==> links.lists[Queue(s)] == [])
      ensures var f := Commit(View(), s);
              && Inv(f) && Agree(f.links) && HeadsApart(heads, f.links.of)
              && (links.lists[Queue(s)] == [] ==> f == View())
              && (links.lists[Queue(s)] != [] ==>
                    && f == Frames(f.links, nextBatch + 1, completed, used) && f.links.of.Keys == links.of.Keys
                    && f.links.lists == links.lists[Batch(nextBatch) := links.lists[Queue(s)]][Queue(s) := []]
                    && forall c :: c in links.of && !f.links.of[c].To? ==> !links.of[c].To?)
    {
      EmptyRing(heads[Queue(s)], links.lists[Queue(s)]);
      CommitKeeps(View(), s);
      InvAgrees(Commit(View(), s));
      hide Ring, Agree, Distinct;
    }

    /** The hand-over of the queue at a commit. */
    method HandOver(s: Surf)
      requires Valid() && Queue(s) in heads
      modifies this`heads, this`nextBatch, this`links, heads.Values, links.of.Keys
      ensures Valid() && Queue(s) in old(links).lists && View() == Commit(old(View()), s)
    {
      hide Valid, Ring, Inv, Agree, RingsBut, AllRings, HeadsApart, Commit;
      CommitFacts(s);
      ghost var h, l, f := heads, links, Commit(View(), s);
      if heads[Queue(s)].next == heads[Queue(s)] {
        return;
      }
      var list := new Link();
      MoveList(Queue(s), list);
      heads := heads[Batch(nextBatch) := list];
      nextBatch := nextBatch + 1;
      links := f.links;
      MovedRings(h, l, Queue(s), Batch(f.nextBatch - 1), list, links);
      AddApart(h, links.of, Batch(f.nextBatch - 1), list);
      ValidFrom();
    }

    /** One turn of that walk: the next link is read before the callback is unlinked. */
    method TakeFirst(ghost p: Place, ghost list: seq<Link>, ghost i: nat, head: Link, pos: Link) returns (following: Link)
      requires p in heads && p in links.lists && heads[p] == head && links.lists[p] == list
      requires Elsewhere(heads, links, p) && head !in list && Distinct(list) && i < |list| && pos == list[i]
      requires Ring(head, list[i..]) && RingsBut(heads, links, p) && Loose(list[..i])
      modifies head, pos, pos.next
      ensures Ring(head, list[i + 1..]) && RingsBut(heads, links, p)
      ensures following == if i + 1 < |list| then list[i + 1] else head
      ensures Loose(list[..i + 1])
    {
      hide Ring, Distinct;
      TurnFacts(list, i, head);
      following := pos.next;
      UnlinkFirst(head, list[i..], pos);
      assert list[i..][1..] == list[i + 1..];
      assert list[..i + 1] == list[..i] + [pos];
    }

    /** The walk over the list of p has come to its member i, or back to the head. */
    ghost predicate Walking(p: Place, i: nat, pos: Link)
      reads this`heads, this`links, heads.Values, links.of.Keys
    {
      && p in heads && p in links.lists && i <= |links.lists[p]|
      && var head, list := heads[p], links.lists[p];
         && Elsewhere(heads, links, p) && head !in list && Distinct(list) && (forall c :: c in list ==> c in links.of)
         && pos == (if i < |list| then list[i] else head)
         && Ring(head, list[i..]) && RingsBut(heads, links, p) && Loose(list[..i])
    }

    lemma WalkStarts(p: Place)
      requires Valid() && p in heads
      ensures p in links.lists && Walking(p, 0, heads[p].next)
    {
      hide Valid, Ring, RingsBut, Elsewhere, Distinct, Agree;
      ListFacts(p);
      EmptyRing(heads[p], links.lists[p]);
      assert links.lists[p][0..] == links.lists[p];
    }

    method WalkOn(p: Place, ghost i: nat, pos: Link) returns (following: Link)
      requires Walking(p, i, pos) && pos != heads[p]
      modifies heads.Values, links.of.Keys
      ensures Walking(p, i + 1, following)
    {
      hide Ring, RingsBut, Elsewhere, Distinct, Loose;
      TurnFacts(links.lists[p], i, heads[p]);
      following := TakeFirst(p, links.lists[p], i, heads[p], pos);
    }

    lemma WalkEnds(p: Place, i: nat)
      requires p in heads && Walking(p, i, heads[p])
      ensures i == |links.lists[p]| && RingsBut(heads, links, p) && Loose(links.lists[p])
    {
      hide Ring, RingsBut, Elsewhere, Distinct, Loose;
      assert links.lists[p][..|links.lists[p]|] == links.lists[p];
    }

    lemma WalkAt(p: Place, i: nat, pos: Link)
      requires p in heads && Walking(p, i, pos) && pos != heads[p]
      ensures i < |links.lists[p]| && pos == links.lists[p][i]
    {
      hide Ring, RingsBut, Elsewhere, Distinct, Loose;
    }

    /** The safe walk that takes every callback off a list. */
    method Disband(p: Place, complete: bool)
      requires Valid() && p in heads && p in links.lists
      modifies this`completed, heads.Values, links.of.Keys
      ensures RingsBut(heads, links, p) && Loose(links.lists[p])
      ensures completed == if complete then old(completed) + links.lists[p] else old(completed)
    {
      hide Valid, Walking, RingsBut, Loose;
      WalkStarts(p);
      var pos := heads[p].next;
      ghost var i := 0;
      while pos != heads[p]
        invariant Walking(p, i, pos) && i <= |links.lists[p]|
        invariant completed == if complete then old(completed) + links.lists[p][..i] else old(completed)
        decreases |links.lists[p]| - i
      {
        WalkAt(p, i, pos);
        if complete { completed := completed + [pos]; }
        pos := WalkOn(p, i, pos);
        i := i + 1;
      }
      WalkEnds(p, i);
    }

    lemma DoneFacts(k: nat)
      requires Valid() && Batch(k) in heads
      ensures Batch(k) in links.lists
      ensures var f := Done(View(), k);
              && Inv(f) && Agree(f.links) && HeadsApart(heads - {Batch(k)}, f.links.of)
              && f == Frames(f.links, nextBatch, completed + links.lists[Batch(k)], used)
              && f.links == Links(links.lists - {Batch(k)}, Rest(links.of, links.lists[Batch(k)]))
    {
      DoneKeeps(View(), k);
      InvAgrees(Done(View(), k));
      hide Inv, Agree, AllRings;
    }

    /** `bg_frame_handle_done()`: the callbacks of the batch are completed and destroyed in order. */
    method FrameDone(k: nat)
      requires Valid() && Batch(k) in heads
      modifies this`heads, this`links, this`completed, heads.Values, links.of.Keys
      ensures Valid() && Batch(k) in old(links).lists && View() == Done(old(View()), k)
    {
      hide Valid, Ring, Inv, Agree, RingsBut, AllRings, HeadsApart, Done;
      DoneFacts(k);
      ghost var h, l, f := heads, links, Done(View(), k);
      Disband(Batch(k), true);
      heads := heads - {Batch(k)};
      links := f.links;
      RingsLess(h, l, Batch(k), links);
      ValidFrom();
    }

    lemma GoneFacts(s: Surf)
      requires Valid() && Queue(s) in heads
      ensures Queue(s) in links.lists
      ensures var f := SurfaceGone(View(), s);
              && Inv(f) && Agree(f.links) && HeadsApart(heads - {Queue(s)}, f.links.of)
              && f == Frames(f.links, nextBatch, completed, used)
              && f.links == Links(links.lists - {Queue(s)}, Retarget(links.of, links.lists[Queue(s)], Null))
    {
      SurfaceGoneKeeps(View(), s);
      InvAgrees(SurfaceGone(View(), s));
      hide Inv, Agree, AllRings;
    }

    /** The callback part of `surface_handle_resource_destroy()`: queued callbacks end up on no list. */
    method SurfaceDestroyed(s: Surf)
      requires Valid() && Queue(s) in heads
      modifies this`heads, this`links, this`completed, heads.Values, links.of.Keys
      ensures Valid() && Queue(s) in old(links).lists && View() == SurfaceGone(old(View()), s)
    {
      hide Valid, Ring, Inv, Agree, RingsBut, AllRings, HeadsApart, SurfaceGone;
      GoneFacts(s);
      ghost var h, l, f := heads, links, SurfaceGone(View(), s);
      Disband(Queue(s), false);
      heads := heads - {Queue(s)};
      links := f.links;
      RingsLess(h, l, Queue(s), links);
      ValidFrom();
    }
  }

  /** The rings without one list, whose callbacks are linked to themselves. */
  lemma RingsLess(heads: map<Place, Link>, l: Links<Place, Callback>, p: Place, m: Links<Place, Callback>)
    requires p in heads && RingsBut(heads, l, p) && p in l.lists && Agree(m) && m.lists == l.lists - {p}
    requires Loose(l.lists[p])
    requires forall c :: c in m.of ==> c in l.of && (c in l.lists[p] || m.of[c] == l.of[c])
    ensures AllRings(heads - {p}, m)
  {
    hide Ring, Distinct;
    forall c | c in m.of && !m.of[c].To? ensures c.next == c && c.prev == c {
      assert c in l.lists[p] || !l.of[c].To?;
    }
  }

  /** The rings after a hand-over. */
  lemma MovedRings(heads: map<Place, Link>, l: Links<Place, Callback>, p: Place, b: Place, to: Link, m: Links<Place, Callback>)
    requires p in heads && b !in heads && RingsBut(heads, l, p) && Agree(m) && p in l.lists
    requires m.lists == l.lists[b := l.lists[p]][p := []] && m.of.Keys == l.of.Keys
    requires Ring(to, l.lists[p]) && Ring(heads[p], [])
    requires forall c :: c in l.of && !m.of[c].To? ==> !l.of[c].To?
    ensures AllRings(heads[b := to], m)
  {
    hide Ring, Distinct;
  }

  lemma AddApart(heads: map<Place, Link>, of: map<Callback, Attachment<Place>>, b: Place, to: Link)
    requires HeadsApart(heads, of) && to !in heads.Values && to !in of
    ensures HeadsApart(heads[b := to], of)
  {
  }

  lemma InvAgrees(f: Frames)
    requires Inv(f)
    ensures Agree(f.links)
  {
  }

  lemma ForgetApart(heads: map<Place, Link>, of: map<Callback, Attachment<Place>>, cb: Callback)
    requires HeadsApart(heads, of)
    ensures HeadsApart(heads, of - {cb}) && of[cb := Null] - {cb} == of - {cb}
  {
  }

  lemma NewApart(heads: map<Place, Link>, of: map<Callback, Attachment<Place>>, cb: Callback, a: Attachment<Place>)
    requires HeadsApart(heads, of) && cb !in heads.Values
    ensures HeadsApart(heads, of[cb := Null][cb := a])
  {
  }
}
