/** Objects on at most one list each: the lists, and the field of each object that says which.  Buffers,
    image descriptions and frame callbacks are all kept this way. */
module Linkage {
  import opened WlLists
  import opened Stacking

  /** Which list an object is on: none, one, or -- for buffers only, include/swaylock.h:304-311 -- one of
      the two sentinels that stand for a list that is gone. */
  datatype Attachment<B> = Null | To(b: B) | BufferCommitted | BufferUnreachable

  /** For each live list its members, and for each live object its field. */
  datatype Links<!B, !S> = Links(lists: map<B, seq<S>>, of: map<S, Attachment<B>>)

  /** Lists and fields agree in both directions, and no field names a list that is gone. */
  ghost predicate Agree<B, S>(l: Links<B, S>) {
    && (forall b :: b in l.lists ==> Distinct(l.lists[b]))
    && (forall b, s :: b in l.lists && s in l.of ==> (s in l.lists[b] <==> l.of[s] == To(b)))
    && (forall b, s :: b in l.lists && s in l.lists[b] ==> s in l.of)
    && (forall s :: s in l.of && l.of[s].To? ==> l.of[s].b in l.lists)
  }

  /** Unlinking s, if it is linked, and giving it a field that names no list. */
  function Detach<B(==), S(==)>(l: Links<B, S>, s: S, a: Attachment<B>): Links<B, S>
    requires s in l.of
  {
    if l.of[s].To? && l.of[s].b in l.lists then
      var b := l.of[s].b;
      Links(l.lists[b := Drop(l.lists[b], s)], l.of[s := a])
    else Links(l.lists, l.of[s := a])
  }

  function LinkTo<B(==), S(==)>(l: Links<B, S>, s: S, b: B): Links<B, S>
    requires s in l.of && b in l.lists
  {
    Links(l.lists[b := [s] + l.lists[b]], l.of[s := To(b)])
  }

  lemma DetachAgrees<B, S>(l: Links<B, S>, s: S, a: Attachment<B>)
    requires Agree(l) && s in l.of && !a.To?
    ensures Agree(Detach(l, s, a))
  {
    if l.of[s].To? { DropDistinct(l.lists[l.of[s].b], s); }
    hide Drop, Distinct;
  }

  lemma LinkAgrees<B, S>(l: Links<B, S>, s: S, b: B)
    requires Agree(l) && s in l.of && b in l.lists && !l.of[s].To?
    ensures Agree(LinkTo(l, s, b))
  {
    assert s !in l.lists[b];
    PrependDistinct(l.lists[b], s);
    hide Distinct;
  }

  lemma FreeAgrees<B, S>(l: Links<B, S>, b: B)
    requires Agree(l) && b in l.lists && l.lists[b] == []
    ensures Agree(l.(lists := l.lists - {b}))
  {
    hide Distinct;
  }

  lemma ForgetAgrees<B, S>(l: Links<B, S>, s: S)
    requires Agree(l) && s in l.of && !l.of[s].To?
    ensures Agree(l.(of := l.of - {s}))
  {
    hide Distinct;
  }

  lemma DetachFacts<B, S>(l: Links<B, S>, s: S, a: Attachment<B>)
    requires Agree(l) && s in l.of
    ensures var m := Detach(l, s, a);
            && m.lists.Keys == l.lists.Keys && m.of == l.of[s := a]
            && (forall b :: b in l.lists && l.of[s] != To(b) ==> m.lists[b] == l.lists[b])
            && (forall b :: b in l.lists && l.lists[b] == [] ==> m.lists[b] == [])
  {
    hide Distinct, Without;
  }

  lemma NewList<B, S>(l: Links<B, S>, b: B)
    requires Agree(l) && b !in l.lists
    ensures Agree(l.(lists := l.lists[b := []]))
  {
    assert Distinct<S>([]);
    hide Distinct;
  }

  lemma NewField<B, S>(l: Links<B, S>, s: S)
    requires Agree(l) && s !in l.of
    ensures Agree(l.(of := l.of[s := Null]))
  {
    hide Distinct;
  }
}
