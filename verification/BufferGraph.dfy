/** Which surfaces name which forwarded buffers, and when an upstream buffer may go: the step functions
    and what they keep.  Buffers and surfaces are opaque names here; BufferObjects runs the same steps
    on the program's records. */
module BufferGraph {
  import opened Options
  import opened WlLists
  import opened Stacking
  import opened Linkage

  /** `resource` says of each live buffer whether the client still has it; `destroyed` lists the
      upstream buffers destroyed so far. */
  datatype Graph<!B, !S> = Graph(resource: map<B, bool>, pending: Links<B, S>, committed: Links<B, S>, destroyed: seq<B>)

  datatype Outcome<!B, !S> = Next(g: Graph<B, S>) | Crash

  /** s with the elements of t taken out, one after the other. */
  function Keep<T(==)>(s: seq<T>, t: seq<T>): seq<T> {
    if t == [] then s else Drop(Keep(s, t[..|t| - 1]), t[|t| - 1])
  }

  // ----- the handlers

  predicate Named<B, S>(g: Graph<B, S>, s: S) {
    s in g.pending.of && s in g.committed.of
    && (g.pending.of[s].To? ==> g.pending.of[s].b in g.pending.lists && g.pending.of[s].b in g.committed.lists
                                 && g.pending.of[s].b in g.resource)
    && (g.committed.of[s].To? ==> g.committed.of[s].b in g.committed.lists && g.committed.of[s].b in g.resource)
  }

  function Create<B, S>(g: Graph<B, S>, b: B): Graph<B, S> {
    g.(resource := g.resource[b := true],
       pending := g.pending.(lists := g.pending.lists[b := []]),
       committed := g.committed.(lists := g.committed.lists[b := []]))
  }

  function CreateSurface<B, S>(g: Graph<B, S>, s: S): Graph<B, S> {
    g.(pending := g.pending.(of := g.pending.of[s := Null]), committed := g.committed.(of := g.committed.of[s := Null]))
  }

  /** wl_buffer_destroy() and free(). */
  function Free<B, S>(g: Graph<B, S>, b: B): Graph<B, S> {
    g.(resource := g.resource - {b},
       pending := g.pending.(lists := g.pending.lists - {b}),
       committed := g.committed.(lists := g.committed.lists - {b}),
       destroyed := g.destroyed + [b])
  }

  /** Dropping the old pending buffer of a surface, the first half of an attach. */
  function Release<B(==), S(==)>(g: Graph<B, S>, s: S): Outcome<B, S>
    requires Named(g, s)
  {
    var was := g.pending.of[s];
    var h := g.(pending := Detach(g.pending, s, Null));
    if !was.To? || g.resource[was.b] || h.pending.lists[was.b] != [] then Next(h)
    else if h.committed.lists[was.b] != [] then Crash
    else Next(Free(h, was.b))
  }

  /** `nested_surface_attach()`. */
  function Attach<B(==), S(==)>(g: Graph<B, S>, s: S, b: Option<B>): Outcome<B, S>
    requires Named(g, s)
  {
    if g.pending.of[s] == (if b.Some? then To(b.value) else Null) then Next(g)
    else
      match Release(g, s)
      case Crash => Crash
      case Next(h) =>
        if b.None? || b.value !in h.pending.lists then Crash
        else Next(h.(pending := LinkTo(h.pending, s, b.value)))
  }

  /** The attachment part of `apply_pending_surface_updates()`. */
  function Commit<B(==), S(==)>(g: Graph<B, S>, s: S): Outcome<B, S>
    requires Named(g, s)
  {
    var p, c := g.pending.of[s], g.committed.of[s];
    if p.BufferCommitted? then Next(g)
    else if c.To? && !g.resource[c.b] then Crash
    else if p.To? then Next(g.(committed := LinkTo(Detach(g.committed, s, Null), s, p.b)))
    else Next(g.(committed := Detach(g.committed, s, p)))
  }

  /** Surfaces that had committed `b` and not yet attached anything else remember that in their pending
      field, and are no longer linked as pending. */
  function SweepPending<B(==), S(==)>(l: Links<B, S>, of: map<S, Attachment<B>>, b: B, swept: seq<S>): Links<B, S>
    requires b in l.lists && l.of.Keys == of.Keys
  {
    Links(l.lists[b := Keep(l.lists[b], swept)],
          map s | s in l.of :: if s in swept && l.of[s] == of[s] then BufferCommitted else l.of[s])
  }

  function SweepFields<B, S(==)>(of: map<S, Attachment<B>>, swept: seq<S>): map<S, Attachment<B>> {
    map s | s in of :: if s in swept then BufferUnreachable else of[s]
  }

  function SweepCommitted<B(==), S(==)>(l: Links<B, S>, b: B, swept: seq<S>): Links<B, S> {
    Links(l.lists[b := []], SweepFields(l.of, swept))
  }

  /** `buffer_handle_resource_destroy()`. */
  function DestroyBuffer<B(==), S(==)>(g: Graph<B, S>, b: B): Graph<B, S>
    requires b in g.pending.lists && b in g.committed.lists && g.pending.of.Keys == g.committed.of.Keys
  {
    var swept := g.committed.lists[b];
    var h := g.(pending := SweepPending(g.pending, g.committed.of, b, swept), committed := SweepCommitted(g.committed, b, swept));
    if h.pending.lists[b] == [] then Free(h, b) else h.(resource := h.resource[b := false])
  }

  /** `surface_handle_resource_destroy()`. */
  function DestroySurface<B(==), S(==)>(g: Graph<B, S>, s: S): Outcome<B, S>
    requires Named(g, s)
  {
    var p, c := g.pending.of[s], g.committed.of[s];
    if p.To? && !g.resource[p.b] then Crash
    else if c.To? && !g.resource[c.b] then Crash
    else
      var pending, committed := Detach(g.pending, s, Null), Detach(g.committed, s, Null);
      Next(g.(pending := pending.(of := pending.of - {s}), committed := committed.(of := committed.of - {s})))
  }

  // ----- the invariant

  ghost predicate Lively<B, S>(resource: map<B, bool>, pending: map<B, seq<S>>, committed: map<B, seq<S>>) {
    && pending.Keys == resource.Keys && committed.Keys == resource.Keys
    && (forall b :: b in resource ==> (resource[b] || pending[b] != []))
    && (forall b :: b in resource && !resource[b] ==> committed[b] == [])
  }

  ghost predicate Sentinels<B, S>(pending: map<S, Attachment<B>>, committed: map<S, Attachment<B>>) {
    && pending.Keys == committed.Keys
    && (forall s :: s in pending ==>
          && !pending[s].BufferUnreachable? && !committed[s].BufferCommitted?
          && (pending[s].BufferCommitted? ==> committed[s].BufferUnreachable?))
  }

  /** A live buffer still has its resource or a surface that will commit it; lists and fields agree; and
      the upstream buffers destroyed so far are all different and all gone. */
  ghost predicate Inv<B, S>(g: Graph<B, S>) {
    && Agree(g.pending) && Agree(g.committed)
    && Lively(g.resource, g.pending.lists, g.committed.lists)
    && Sentinels(g.pending.of, g.committed.of)
    && Distinct(g.destroyed)
    && (forall b :: b in g.destroyed ==> b !in g.resource)
  }

  lemma InvNamed<B, S>(g: Graph<B, S>, s: S)
    requires Inv(g) && s in g.pending.of
    ensures Named(g, s)
  {
  }

  /** A pending buffer that the client has destroyed already. */
  predicate PendingGone<B, S>(g: Graph<B, S>, s: S)
    requires Named(g, s)
  {
    g.pending.of[s].To? && !g.resource[g.pending.of[s].b]
  }

  lemma FreeKeeps<B, S>(g: Graph<B, S>, b: B)
    requires Agree(g.pending) && Agree(g.committed) && Sentinels(g.pending.of, g.committed.of)
    requires b in g.resource && b in g.pending.lists && b in g.committed.lists
    requires Lively(g.resource[b := true], g.pending.lists, g.committed.lists)
    requires g.pending.lists[b] == [] && g.committed.lists[b] == []
    requires Distinct(g.destroyed) && forall x :: x in g.destroyed ==> x !in g.resource
    ensures Inv(Free(g, b))
  {
    FreeAgrees(g.pending, b);
    FreeAgrees(g.committed, b);
    hide Agree;
    AppendDistinct(g.destroyed, b);
    hide Distinct;
  }

  lemma SentinelsPending<B, S>(pending: map<S, Attachment<B>>, committed: map<S, Attachment<B>>, s: S, a: Attachment<B>)
    requires Sentinels(pending, committed) && s in pending && (a.Null? || a.To?)
    ensures Sentinels(pending[s := a], committed)
  {
  }

  lemma SentinelsCommitted<B, S>(pending: map<S, Attachment<B>>, committed: map<S, Attachment<B>>, s: S, c: Attachment<B>)
    requires Sentinels(pending, committed) && s in pending && (c.Null? || c.To?) && !pending[s].BufferCommitted?
    ensures Sentinels(pending, committed[s := c])
  {
  }

  /** The pending list of `b` may change as long as `b` keeps a reason to live. */
  lemma LivelyPending<B, S>(resource: map<B, bool>, pending: map<B, seq<S>>, committed: map<B, seq<S>>, b: B, list: seq<S>)
    requires Lively(resource, pending, committed) && b in resource && (resource[b] || list != [])
    ensures Lively(resource, pending[b := list], committed)
  {
  }

  lemma LivelyCommitted<B, S>(resource: map<B, bool>, pending: map<B, seq<S>>, committed: map<B, seq<S>>, b: B, list: seq<S>)
    requires Lively(resource, pending, committed) && b in resource
    ensures Lively(resource, pending, committed[b := list]) <==> resource[b] || list == []
  {
  }

  lemma LivelyAt<B, S>(resource: map<B, bool>, pending: map<B, seq<S>>, committed: map<B, seq<S>>, b: B)
    requires Lively(resource, pending, committed)
    ensures pending.Keys == resource.Keys == committed.Keys
    ensures b in resource && !resource[b] ==> committed[b] == []
  {
  }

  /** A buffer that loses its last reason to live is freed. */
  lemma FreeDetached<B, S>(g: Graph<B, S>, b: B, pending: Links<B, S>)
    requires Inv(g) && b in g.resource && !g.resource[b]
    requires Agree(pending) && Sentinels(pending.of, g.committed.of)
    requires pending.lists == g.pending.lists[b := []]
    ensures Inv(Free(g.(pending := pending), b))
    ensures forall x :: x in g.resource && g.resource[x] ==> x in Free(g, b).resource && Free(g, b).resource[x]
  {
    hide Agree, Distinct, Sentinels;
    FreeKeeps(g.(pending := pending), b);
  }

  /** After the release the surface names no buffer, and every buffer the client still has is there. */
  lemma ReleaseKeeps<B, S>(g: Graph<B, S>, s: S)
    requires Inv(g) && s in g.pending.of
    ensures Named(g, s) && Release(g, s).Next?
    ensures var h := Release(g, s).g;
            && Inv(h) && s in h.pending.of && h.pending.of[s].Null?
            && (forall b :: b in g.resource && g.resource[b] ==> b in h.resource && h.resource[b])
  {
    InvNamed(g, s);
    DetachAgrees(g.pending, s, Null);
    SentinelsPending(g.pending.of, g.committed.of, s, Null);
    var was := g.pending.of[s];
    var pending := Detach(g.pending, s, Null);
    assert pending.of == g.pending.of[s := Null];
    hide Agree, Distinct, Lively, Sentinels, Drop;
    if was.To? {
      var b := was.b;
      assert pending.lists == g.pending.lists[b := pending.lists[b]];
      LivelyAt(g.resource, g.pending.lists, g.committed.lists, b);
      hide Detach, Named;
      if g.resource[b] || pending.lists[b] != [] {
        LivelyPending(g.resource, g.pending.lists, g.committed.lists, b, pending.lists[b]);
      } else {
        FreeDetached(g, b, pending);
      }
    }
  }

  /** An attach fails exactly when it would put NULL over something: it then follows a NULL pointer. */
  lemma AttachKeeps<B, S>(g: Graph<B, S>, s: S, b: Option<B>)
    requires Inv(g) && s in g.pending.of
    requires b.Some? ==> b.value in g.resource && g.resource[b.value]
    ensures Named(g, s)
    ensures Attach(g, s, b).Crash? <==> b.None? && g.pending.of[s] != Null
    ensures Attach(g, s, b).Next? ==> Inv(Attach(g, s, b).g)
  {
    ReleaseKeeps(g, s);
    var h := Release(g, s).g;
    hide Agree, Distinct, Release, Lively, Sentinels, Named;
    if b.Some? {
      LivelyAt(h.resource, h.pending.lists, h.committed.lists, b.value);
      LinkAgrees(h.pending, s, b.value);
      SentinelsPending(h.pending.of, h.committed.of, s, To(b.value));
      LivelyPending(h.resource, h.pending.lists, h.committed.lists, b.value, [s] + h.pending.lists[b.value]);
    }
  }

  /** A commit never fails, and keeps the invariant exactly when the pending buffer is not one that the
      client has destroyed already. */
  lemma CommitKeeps<B, S>(g: Graph<B, S>, s: S)
    requires Inv(g) && s in g.pending.of
    ensures Named(g, s) && Commit(g, s).Next?
    ensures Inv(Commit(g, s).g) <==> !PendingGone(g, s)
  {
    InvNamed(g, s);
    CommittedLive(g, s);
    var p, c := g.pending.of[s], g.committed.of[s];
    if p.BufferCommitted? {
    } else if p.Null? {
      UncommitKeeps(g, s);
    } else {
      UncommitKeeps(g, s);
      var h := g.(committed := Detach(g.committed, s, Null));
      LinkAgrees(h.committed, s, p.b);
      SentinelsCommitted(h.pending.of, h.committed.of, s, To(p.b));
      LivelyCommitted(h.resource, h.pending.lists, h.committed.lists, p.b, [s] + h.committed.lists[p.b]);
      hide Agree, Distinct, Detach, Lively, Sentinels;
    }
  }

  lemma PendingLive<B, S>(g: Graph<B, S>, s: S)
    requires Inv(g) && s in g.pending.of
    ensures g.pending.of[s].To? ==> g.pending.of[s].b in g.resource
  {
    if g.pending.of[s].To? {
      assert s in g.pending.lists[g.pending.of[s].b];
    }
  }

  lemma CommittedLive<B, S>(g: Graph<B, S>, s: S)
    requires Inv(g) && s in g.pending.of
    ensures s in g.committed.of && !g.pending.of[s].BufferUnreachable?
    ensures g.committed.of[s].To? ==> g.committed.of[s].b in g.resource && g.resource[g.committed.of[s].b]
  {
    if g.committed.of[s].To? {
      assert s in g.committed.lists[g.committed.of[s].b];
    }
  }

  lemma UncommitKeeps<B, S>(g: Graph<B, S>, s: S)
    requires Inv(g) && s in g.pending.of && !g.pending.of[s].BufferCommitted?
    ensures s in g.committed.of && Inv(g.(committed := Detach(g.committed, s, Null)))
    ensures Detach(g.committed, s, Null).of == g.committed.of[s := Null]
  {
    CommittedLive(g, s);
    DetachAgrees(g.committed, s, Null);
    SentinelsCommitted(g.pending.of, g.committed.of, s, Null);
    var c := g.committed.of[s];
    hide Agree, Distinct, Sentinels, Drop;
    if c.To? {
      LivelyCommitted(g.resource, g.pending.lists, g.committed.lists, c.b, Detach(g.committed, s, Null).lists[c.b]);
    }
    hide Lively;
  }

  lemma {:induction false} KeepFacts<T>(s: seq<T>, t: seq<T>)
    requires Distinct(s)
    ensures Distinct(Keep(s, t))
    ensures forall x :: x in Keep(s, t) ==> x in s && x !in t
    ensures forall x :: x in s && x !in t ==> x in Keep(s, t)
  {
    if t != [] {
      KeepFacts(s, t[..|t| - 1]);
      DropDistinct(Keep(s, t[..|t| - 1]), t[|t| - 1]);
      assert t == t[..|t| - 1] + [t[|t| - 1]];
    }
  }

  lemma SweepPendingAgrees<B, S>(l: Links<B, S>, c: Links<B, S>, b: B)
    requires Agree(l) && Agree(c) && b in l.lists && b in c.lists && l.of.Keys == c.of.Keys
    ensures Agree(SweepPending(l, c.of, b, c.lists[b]))
  {
    KeepFacts(l.lists[b], c.lists[b]);
    var m := SweepPending(l, c.of, b, c.lists[b]);
    hide Distinct, Keep;
    forall x, s | x in m.lists && s in m.of ensures s in m.lists[x] <==> m.of[s] == To(x) {
      assert x in l.lists && s in l.of && (s in l.lists[x] <==> l.of[s] == To(x));
      assert s in c.lists[b] <==> c.of[s] == To(b);
    }
  }

  lemma SweepCommittedAgrees<B, S>(c: Links<B, S>, b: B)
    requires Agree(c) && b in c.lists
    ensures Agree(SweepCommitted(c, b, c.lists[b]))
  {
    assert Distinct<S>([]);
    hide Distinct;
  }

  /** One turn of the sweeping loop. */
  lemma SweepMore<B, S>(l: Links<B, S>, of: map<S, Attachment<B>>, b: B, done: seq<S>, s: S)
    requires b in l.lists && l.of.Keys == of.Keys && s in l.of && s !in done && of[s] == To(b)
    requires Agree(l)
    ensures var m, n := SweepPending(l, of, b, done), SweepPending(l, of, b, done + [s]);
            && m.of[s] == l.of[s]
            && n == Links(m.lists[b := Drop(m.lists[b], s)], if l.of[s] == of[s] then m.of[s := BufferCommitted] else m.of)
            && (l.of[s] != of[s] ==> n == m)
    ensures SweepFields(of, done + [s]) == SweepFields(of, done)[s := BufferUnreachable]
  {
    hide Distinct, Keep, Agree, Drop;
    var m, n := SweepPending(l, of, b, done), SweepPending(l, of, b, done + [s]);
    KeepSnoc(l.lists[b], done, s);
    assert n.of == if l.of[s] == of[s] then m.of[s := BufferCommitted] else m.of;
    NotListed(l, b, done, s);
  }

  lemma KeepSnoc<T>(s: seq<T>, t: seq<T>, x: T)
    ensures Keep(s, t + [x]) == Drop(Keep(s, t), x)
  {
    assert (t + [x])[..|t|] == t;
  }

  lemma NotListed<B, S>(l: Links<B, S>, b: B, done: seq<S>, s: S)
    requires Agree(l) && b in l.lists && s in l.of
    ensures l.of[s] != To(b) ==> Drop(Keep(l.lists[b], done), s) == Keep(l.lists[b], done)
  {
    KeepFacts(l.lists[b], done);
  }

  /** The graph while `buffer_handle_resource_destroy()` has swept the surfaces of `done`. */
  function Swept<B(==), S(==)>(g: Graph<B, S>, b: B, done: seq<S>): Graph<B, S>
    requires b in g.pending.lists && g.pending.of.Keys == g.committed.of.Keys
  {
    g.(pending := SweepPending(g.pending, g.committed.of, b, done),
       committed := g.committed.(of := SweepFields(g.committed.of, done)))
  }

  /** One turn of its loop. */
  function SweepOne<B(==), S(==)>(g: Graph<B, S>, b: B, s: S): Graph<B, S>
    requires b in g.pending.lists && s in g.pending.of
  {
    g.(pending := if g.pending.of[s] == To(b)
                  then Links(g.pending.lists[b := Drop(g.pending.lists[b], s)], g.pending.of[s := BufferCommitted])
                  else g.pending,
       committed := g.committed.(of := g.committed.of[s := BufferUnreachable]))
  }

  lemma SweepTurn<B, S>(g: Graph<B, S>, b: B, swept: seq<S>, i: nat)
    requires Inv(g) && b in g.resource && swept == g.committed.lists[b] && i < |swept|
    ensures b in g.pending.lists && g.pending.of.Keys == g.committed.of.Keys
    ensures var h := Swept(g, b, swept[..i]);
            && b in h.pending.lists && swept[i] in h.pending.of && swept[i] in h.committed.of
            && h.committed.of[swept[i]] == To(b)
            && Swept(g, b, swept[..i + 1]) == SweepOne(h, b, swept[i])
  {
    var s := swept[i];
    SentinelKeys(g.pending.of, g.committed.of);
    assert s in g.committed.lists[b] && s !in swept[..i];
    assert g.committed.of[s] == To(b);
    assert swept[..i + 1] == swept[..i] + [s];
    SweepMore(g.pending, g.committed.of, b, swept[..i], s);
    SweepUntouched(g.committed.of, swept[..i], s);
    hide Agree, Lively, Sentinels, Distinct, SweepPending, SweepFields, Keep, Drop;
  }

  lemma SweepUntouched<B, S>(of: map<S, Attachment<B>>, done: seq<S>, s: S)
    requires s in of && s !in done
    ensures s in SweepFields(of, done) && SweepFields(of, done)[s] == of[s]
  {
  }

  lemma SweepNothing<B, S>(g: Graph<B, S>, b: B)
    requires b in g.pending.lists && g.pending.of.Keys == g.committed.of.Keys
    ensures Swept(g, b, []) == g
  {
    assert SweepPending(g.pending, g.committed.of, b, []).of == g.pending.of;
    assert SweepFields(g.committed.of, []) == g.committed.of;
  }

  lemma SweepSentinels<B, S>(l: Links<B, S>, c: Links<B, S>, b: B)
    requires Sentinels(l.of, c.of) && Agree(c) && b in l.lists && b in c.lists
    ensures Sentinels(SweepPending(l, c.of, b, c.lists[b]).of, SweepCommitted(c, b, c.lists[b]).of)
  {
    hide Distinct, Keep;
  }

  lemma SweepLively<B, S>(resource: map<B, bool>, pending: map<B, seq<S>>, committed: map<B, seq<S>>, b: B, list: seq<S>)
    requires Lively(resource, pending, committed) && b in resource
    ensures Lively(resource[b := list == []], pending[b := list], committed[b := []])
    ensures Lively(resource[b := false][b := true], pending[b := list], committed[b := []])
    ensures Lively(resource[b := true], pending[b := list], committed[b := []])
  {
  }

  /** Destroying a buffer keeps the invariant: it goes upstream at once unless some surface still has it
      pending and uncommitted. */
  lemma DestroyBufferKeeps<B, S>(g: Graph<B, S>, b: B)
    requires Inv(g) && b in g.resource && g.resource[b]
    ensures b in g.pending.lists && b in g.committed.lists && g.pending.of.Keys == g.committed.of.Keys
    ensures Inv(DestroyBuffer(g, b))
    ensures b in DestroyBuffer(g, b).resource <==>
            exists s :: s in g.pending.of && g.pending.of[s] == To(b) && g.committed.of[s] != To(b)
  {
    LivelyAt(g.resource, g.pending.lists, g.committed.lists, b);
    SentinelKeys(g.pending.of, g.committed.of);
    var swept := g.committed.lists[b];
    var h := g.(pending := SweepPending(g.pending, g.committed.of, b, swept), committed := SweepCommitted(g.committed, b, swept));
    SweepPendingAgrees(g.pending, g.committed, b);
    SweepCommittedAgrees(g.committed, b);
    SweepSentinels(g.pending, g.committed, b);
    SweepLively(g.resource, g.pending.lists, g.committed.lists, b, h.pending.lists[b]);
    Waiting(g.pending, g.committed, b);
    hide Agree, Distinct, Lively, Sentinels, Keep;
    if h.pending.lists[b] == [] {
      FreeKeeps(h, b);
    }
  }

  lemma SentinelKeys<B, S>(pending: map<S, Attachment<B>>, committed: map<S, Attachment<B>>)
    requires Sentinels(pending, committed)
    ensures pending.Keys == committed.Keys
  {
  }

  lemma Waiting<B, S>(l: Links<B, S>, c: Links<B, S>, b: B)
    requires Agree(l) && Agree(c) && b in l.lists && b in c.lists && l.of.Keys == c.of.Keys
    ensures Keep(l.lists[b], c.lists[b]) != [] <==>
            exists s :: s in l.of && l.of[s] == To(b) && c.of[s] != To(b)
  {
    var rest := Keep(l.lists[b], c.lists[b]);
    KeepFacts(l.lists[b], c.lists[b]);
    if rest != [] {
      var s := rest[0];
      assert s in rest && s in l.lists[b] && s in l.of;
    }
    if s :| s in l.of && l.of[s] == To(b) && c.of[s] != To(b) {
      assert s in rest;
    }
    hide Distinct, Keep;
  }

  /** Destroying a surface fails exactly when its pending buffer is one that the client has destroyed
      already. */
  lemma DestroySurfaceKeeps<B, S>(g: Graph<B, S>, s: S)
    requires Inv(g) && s in g.pending.of
    ensures Named(g, s)
    ensures DestroySurface(g, s).Crash? <==> PendingGone(g, s)
    ensures DestroySurface(g, s).Next? ==> Inv(DestroySurface(g, s).g)
  {
    InvNamed(g, s);
    CommittedLive(g, s);
    if !PendingGone(g, s) {
      UnpendKeeps(g, s);
      var h := g.(pending := Detach(g.pending, s, Null));
      UncommitKeeps(h, s);
      var h1 := h.(committed := Detach(h.committed, s, Null));
      ForgetAgrees(h1.pending, s);
      ForgetAgrees(h1.committed, s);
      ForgetSentinels(h1.pending.of, h1.committed.of, s);
      hide Agree, Distinct, Lively, Sentinels, Detach;
    }
  }

  lemma ForgetSentinels<B, S>(pending: map<S, Attachment<B>>, committed: map<S, Attachment<B>>, s: S)
    requires Sentinels(pending, committed)
    ensures Sentinels(pending - {s}, committed - {s})
  {
  }

  lemma UnpendKeeps<B, S>(g: Graph<B, S>, s: S)
    requires Inv(g) && s in g.pending.of && Named(g, s) && !PendingGone(g, s)
    ensures Inv(g.(pending := Detach(g.pending, s, Null)))
    ensures Detach(g.pending, s, Null).of == g.pending.of[s := Null]
  {
    DetachAgrees(g.pending, s, Null);
    SentinelsPending(g.pending.of, g.committed.of, s, Null);
    var p := g.pending.of[s];
    hide Agree, Distinct, Sentinels, Drop;
    if p.To? {
      LivelyPending(g.resource, g.pending.lists, g.committed.lists, p.b, Detach(g.pending, s, Null).lists[p.b]);
    }
    hide Lively;
  }

  // ----- every run

  datatype Event<B, S> =
    | NewBuffer(b: B)
    | NewSurface(s: S)
    | AttachReq(s: S, buffer: Option<B>)
    | CommitReq(s: S)
    | BufferGone(b: B)
    | SurfaceGone(s: S)

  /** Requests name what the client has; names of new objects are unused ones. */
  predicate Legal<B, S>(g: Graph<B, S>, e: Event<B, S>) {
    match e
    case NewBuffer(b) => b !in g.resource && b !in g.destroyed
    case NewSurface(s) => s !in g.pending.of
    case AttachReq(s, b) => s in g.pending.of && (b.Some? ==> b.value in g.resource && g.resource[b.value])
    case CommitReq(s) => s in g.pending.of
    case BufferGone(b) => b in g.resource && g.resource[b]
    case SurfaceGone(s) => s in g.pending.of
  }

  /** What a well-behaved client avoids: committing or destroying a surface whose pending buffer it has
      destroyed, and attaching NULL over something. */
  predicate Careless<B, S>(g: Graph<B, S>, e: Event<B, S>)
    requires Legal(g, e)
  {
    match e
    case AttachReq(s, None) => g.pending.of[s] != Null
    case CommitReq(s) => Named(g, s) && PendingGone(g, s)
    case SurfaceGone(s) => Named(g, s) && PendingGone(g, s)
    case _ => false
  }

  ghost function Step<B, S>(g: Graph<B, S>, e: Event<B, S>): Outcome<B, S>
    requires Inv(g) && Legal(g, e)
  {
    match e
    case NewBuffer(b) => Next(Create(g, b))
    case NewSurface(s) => Next(CreateSurface(g, s))
    case AttachReq(s, b) => InvNamed(g, s); Attach(g, s, b)
    case CommitReq(s) => InvNamed(g, s); Commit(g, s)
    case BufferGone(b) => DestroyBufferKeeps(g, b); Next(DestroyBuffer(g, b))
    case SurfaceGone(s) => InvNamed(g, s); DestroySurface(g, s)
  }

  /** One request neither aborts the program nor breaks the bookkeeping, exactly when it is not one of
      the three careless ones. */
  lemma StepExactly<B, S>(g: Graph<B, S>, e: Event<B, S>)
    requires Inv(g) && Legal(g, e)
    ensures Step(g, e).Next? && Inv(Step(g, e).g) <==> !Careless(g, e)
  {
    match e
    case NewBuffer(b) => NewBufferKeeps(g, b);
    case NewSurface(s) => NewSurfaceKeeps(g, s);
    case AttachReq(s, b) => AttachKeeps(g, s, b); hide Inv, Attach;
    case CommitReq(s) => CommitKeeps(g, s); hide Inv, Commit;
    case BufferGone(b) => DestroyBufferKeeps(g, b); hide Inv, DestroyBuffer;
    case SurfaceGone(s) => DestroySurfaceKeeps(g, s); hide Inv, DestroySurface;
  }

  lemma NewBufferKeeps<B, S>(g: Graph<B, S>, b: B)
    requires Inv(g) && b !in g.resource && b !in g.destroyed
    ensures Inv(Create(g, b))
  {
    NewList(g.pending, b);
    NewList(g.committed, b);
    hide Agree, Distinct;
  }

  lemma NewSurfaceKeeps<B, S>(g: Graph<B, S>, s: S)
    requires Inv(g) && s !in g.pending.of
    ensures Inv(CreateSurface(g, s))
  {
    NewField(g.pending, s);
    NewField(g.committed, s);
    hide Agree, Distinct;
  }

  lemma AttachCrashes<B, S>(g: Graph<B, S>, s: S, b: B)
    requires Named(g, s) && PendingGone(g, s) && b != g.pending.of[s].b
    requires g.pending.lists[g.pending.of[s].b] == [s] && g.committed.lists[g.pending.of[s].b] != []
    ensures Attach(g, s, Some(b)).Crash?
  {
    assert Drop([s], s) == [];
  }

  /** What a careless commit leads to: once a buffer that the client had destroyed is committed, the
      surface's next attach of another buffer runs into an assertion. */
  lemma CommittedGone<B, S>(g: Graph<B, S>, s: S, b: B)
    requires Inv(g) && s in g.pending.of && Named(g, s) && PendingGone(g, s)
    requires g.pending.lists[g.pending.of[s].b] == [s]
    requires b != g.pending.of[s].b
    ensures Commit(g, s).Next? && Named(Commit(g, s).g, s) && Attach(Commit(g, s).g, s, Some(b)).Crash?
  {
    CommitKeeps(g, s);
    CommittedLive(g, s);
    var gone := g.pending.of[s].b;
    DetachFacts(g.committed, s, Null);
    hide Inv, Detach, Agree, Distinct;
    assert Drop([s], s) == [];
    AttachCrashes(Commit(g, s).g, s, b);
  }

  /** The upstream buffers ever created: each still forwarded, or destroyed. */
  ghost function Everything<B, S>(g: Graph<B, S>): set<B> {
    g.resource.Keys + (set b | b in g.destroyed)
  }

  lemma FreeConserves<B, S>(g: Graph<B, S>, b: B)
    requires b in g.resource
    ensures Everything(Free(g, b)) == Everything(g) && g.destroyed <= Free(g, b).destroyed
  {
    var h := Free(g, b);
    forall x ensures x in Everything(h) <==> x in Everything(g) {
      assert x in h.destroyed <==> x in g.destroyed || x == b;
    }
  }

  /** No request loses an upstream buffer, and none un-destroys one. */
  lemma Conserved<B, S>(g: Graph<B, S>, e: Event<B, S>)
    requires Inv(g) && Legal(g, e) && Step(g, e).Next?
    ensures Everything(Step(g, e).g) == Everything(g) + (if e.NewBuffer? then {e.b} else {})
    ensures g.destroyed <= Step(g, e).g.destroyed
  {
    hide Agree, Distinct, Detach, LinkTo, Keep, Drop, Free;
    match e
    case AttachReq(s, b) =>
      InvNamed(g, s);
      if g.pending.of[s].To? { FreeConserves(g.(pending := Detach(g.pending, s, Null)), g.pending.of[s].b); }
    case BufferGone(b) =>
      DestroyBufferKeeps(g, b);
      var swept := g.committed.lists[b];
      FreeConserves(g.(pending := SweepPending(g.pending, g.committed.of, b, swept),
                       committed := SweepCommitted(g.committed, b, swept)), b);
    case CommitReq(s) => InvNamed(g, s);
    case SurfaceGone(s) => InvNamed(g, s);
    case _ =>
  }

  /** A run of careful requests, as the chain of states it goes through. */
  ghost predicate IsRun<B, S>(gs: seq<Graph<B, S>>, es: seq<Event<B, S>>) {
    && |gs| == |es| + 1 && gs[0] == Graph(map[], Links(map[], map[]), Links(map[], map[]), [])
    && (forall i :: 0 <= i < |es| ==>
          (Inv(gs[i]) ==> Legal(gs[i], es[i]) && !Careless(gs[i], es[i]) && Step(gs[i], es[i]) == Next(gs[i + 1])))
  }

  /** In every run of a careful client: lists and fields agree, no surface names a buffer that is gone,
      and each upstream buffer ever created is either still forwarded or destroyed exactly once. */
  lemma {:induction false} Lifetimes<B, S>(gs: seq<Graph<B, S>>, es: seq<Event<B, S>>, i: nat)
    requires IsRun(gs, es) && i <= |es|
    ensures Inv(gs[i])
    ensures forall s :: s in gs[i].pending.of ==> Named(gs[i], s)
    ensures Everything(gs[i]) == set k | 0 <= k < i && es[k].NewBuffer? :: es[k].b
    ensures gs[i].resource.Keys !! (set b | b in gs[i].destroyed) && Distinct(gs[i].destroyed)
  {
    hide Agree, Lively, Sentinels;
    if i == 0 {
      EmptyGraph<B, S>();
    } else {
      Lifetimes(gs, es, i - 1);
      var g, e := gs[i - 1], es[i - 1];
      assert Legal(g, e) && !Careless(g, e) && Step(g, e) == Next(gs[i]);
      hide Careless, Step, Everything;
      StepExactly(g, e);
      Conserved(g, e);
    }
    forall s | s in gs[i].pending.of ensures Named(gs[i], s) { InvNamed(gs[i], s); }
  }

  lemma EmptyGraph<B, S>()
    ensures Inv<B, S>(Graph(map[], Links(map[], map[]), Links(map[], map[]), []))
  {
  }

  // ----- the careless requests, from the very beginning

  const NO_LINKS: Links<nat, nat> := Links(map[], map[])
  const START: Graph<nat, nat> := Graph(map[], NO_LINKS, NO_LINKS, [])

  const ONE: Graph<nat, nat> := Graph(map[0 := true], Links(map[0 := []], map[]), Links(map[0 := []], map[]), [])

  const UNNAMED: Links<nat, nat> := Links(map[0 := [], 1 := []], map[])
  const TWO: Graph<nat, nat> := Graph(map[0 := true, 1 := true], UNNAMED, UNNAMED, [])

  const UNSET: Links<nat, nat> := Links(map[0 := [], 1 := []], map[0 := Null])
  const BARE: Graph<nat, nat> := Graph(map[0 := true, 1 := true], UNSET, UNSET, [])

  const LINKED: Links<nat, nat> := Links(map[0 := [0], 1 := []], map[0 := To(0)])
  const ATTACHED: Graph<nat, nat> := Graph(map[0 := true, 1 := true], LINKED, UNSET, [])
  const GONE: Graph<nat, nat> := Graph(map[0 := false, 1 := true], LINKED, UNSET, [])

  /** Two buffers and a surface; the first buffer is attached, and destroyed before it was committed. */
  const CARELESS_RUN: seq<Event<nat, nat>> :=
    [NewBuffer(0), NewBuffer(1), NewSurface(0), AttachReq(0, Some(0)), BufferGone(0)]

  const CARELESS_STATES: seq<Graph<nat, nat>> := [START, ONE, TWO, BARE, ATTACHED, GONE]

  ghost predicate Leads<B, S>(g: Graph<B, S>, e: Event<B, S>, h: Graph<B, S>) {
    Inv(g) && Legal(g, e) && !Careless(g, e) && Step(g, e) == Next(h)
  }

  lemma LeadsOn<B, S>(g: Graph<B, S>, e: Event<B, S>, h: Graph<B, S>)
    requires Leads(g, e, h)
    ensures Inv(h)
  {
    hide Inv, Legal, Careless, Step;
    StepExactly(g, e);
  }

  lemma FirstBuffers()
    ensures Leads(START, NewBuffer(0), ONE)
    ensures Inv(ONE) ==> Leads(ONE, NewBuffer(1), TWO)
    ensures Inv(TWO) ==> Leads(TWO, NewSurface(0), BARE)
  {
    EmptyGraph<nat, nat>();
    hide Inv;
    assert Create(START, 0) == ONE;
    assert ONE.resource[1 := true] == TWO.resource && ONE.pending.lists[1 := []] == UNNAMED.lists;
    assert UNNAMED.of[0 := Null] == UNSET.of;
  }

  lemma FirstAttach()
    requires Inv(BARE)
    ensures Leads(BARE, AttachReq(0, Some(0)), ATTACHED)
  {
    InvNamed(BARE, 0);
    hide Inv;
    assert [0] + UNSET.lists[0] == [0];
    assert UNSET.of[0 := Null] == UNSET.of && UNSET.of[0 := To(0)] == LINKED.of;
    assert UNSET.lists[0 := [0]] == LINKED.lists;
  }

  lemma NothingSwept()
    ensures SweepPending(LINKED, UNSET.of, 0, []) == LINKED && SweepCommitted(UNSET, 0, []) == UNSET
  {
    var l, c := SweepPending(LINKED, UNSET.of, 0, []), SweepCommitted(UNSET, 0, []);
    assert l.lists == LINKED.lists && l.of == LINKED.of;
    assert c.lists == UNSET.lists && c.of == UNSET.of;
  }

  lemma FirstGone()
    requires Inv(ATTACHED)
    ensures Leads(ATTACHED, BufferGone(0), GONE)
  {
    hide Inv, SweepPending, SweepCommitted;
    DestroyBufferKeeps(ATTACHED, 0);
    NothingSwept();
    assert ATTACHED.resource[0 := false] == GONE.resource;
    assert DestroyBuffer(ATTACHED, 0) == GONE;
  }

  lemma CarelessChain()
    ensures Leads(START, NewBuffer(0), ONE) && Leads(ONE, NewBuffer(1), TWO) && Leads(TWO, NewSurface(0), BARE)
    ensures Leads(BARE, AttachReq(0, Some(0)), ATTACHED) && Leads(ATTACHED, BufferGone(0), GONE)
    ensures Inv(ATTACHED) && Inv(GONE)
  {
    hide Inv, Leads;
    FirstBuffers();
    LeadsOn(START, NewBuffer(0), ONE);
    LeadsOn(ONE, NewBuffer(1), TWO);
    LeadsOn(TWO, NewSurface(0), BARE);
    FirstAttach();
    LeadsOn(BARE, AttachReq(0, Some(0)), ATTACHED);
    FirstGone();
    LeadsOn(ATTACHED, BufferGone(0), GONE);
  }

  /** After that careful run, committing the surface lets the next attach hit an assertion, and destroying it
      hits one at once; and attaching NULL instead of destroying the buffer follows a NULL pointer. */
  lemma CarelessRequests()
    ensures IsRun(CARELESS_STATES, CARELESS_RUN)
    ensures Named(GONE, 0) && Commit(GONE, 0).Next? && Named(Commit(GONE, 0).g, 0)
    ensures Attach(Commit(GONE, 0).g, 0, Some(1)).Crash?
    ensures DestroySurface(GONE, 0).Crash?
    ensures Named(ATTACHED, 0) && Attach(ATTACHED, 0, None).Crash?
  {
    hide Inv, Legal, Careless, Step, Commit, Attach, DestroySurface;
    CarelessChain();
    assert CARELESS_STATES[0] == START;
    CommittedGone(GONE, 0, 1);
    DestroySurfaceKeeps(GONE, 0);
    AttachKeeps(ATTACHED, 0, None);
  }
}
