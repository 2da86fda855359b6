/** Which buffer a surface has pending and committed, told from the requests alone. */
module BufferHistory {
  import opened Options
  import opened WlLists
  import opened Stacking
  import opened Linkage
  import opened BufferGraph

  // ----- the requests

  /** What the last attach request named. */
  function AttachedTold<B, S(==)>(es: seq<Event<B, S>>, s: S): Option<B> {
    if es == [] then None
    else
      match es[|es| - 1]
      case NewSurface(x) => if x == s then None else AttachedTold(es[..|es| - 1], s)
      case AttachReq(x, buffer) => if x == s then buffer else AttachedTold(es[..|es| - 1], s)
      case _ => AttachedTold(es[..|es| - 1], s)
  }

  /** What was attached at the last commit. */
  function CommittedTold<B, S(==)>(es: seq<Event<B, S>>, s: S): Option<B> {
    if es == [] then None
    else
      match es[|es| - 1]
      case NewSurface(x) => if x == s then None else CommittedTold(es[..|es| - 1], s)
      case CommitReq(x) => if x == s then AttachedTold(es[..|es| - 1], s) else CommittedTold(es[..|es| - 1], s)
      case _ => CommittedTold(es[..|es| - 1], s)
  }

  function SurfacesTold<B, S>(es: seq<Event<B, S>>): set<S> {
    if es == [] then {}
    else
      match es[|es| - 1]
      case NewSurface(s) => SurfacesTold(es[..|es| - 1]) + {s}
      case SurfaceGone(s) => SurfacesTold(es[..|es| - 1]) - {s}
      case _ => SurfacesTold(es[..|es| - 1])
  }

  /** The buffers that the client has destroyed. */
  function GoneTold<B, S>(es: seq<Event<B, S>>): set<B> {
    if es == [] then {}
    else
      match es[|es| - 1]
      case BufferGone(b) => GoneTold(es[..|es| - 1]) + {b}
      case _ => GoneTold(es[..|es| - 1])
  }

  /** The committed field: a buffer that is gone cannot be reached any more. */
  function CommittedField<B(==), S(==)>(es: seq<Event<B, S>>, s: S): Attachment<B> {
    match CommittedTold(es, s)
    case None => Null
    case Some(b) => if b in GoneTold(es) then BufferUnreachable else To(b)
  }

  /** The pending field: a buffer that is gone is only remembered as committed, if it was. */
  function PendingField<B(==), S(==)>(es: seq<Event<B, S>>, s: S): Attachment<B> {
    match AttachedTold(es, s)
    case None => Null
    case Some(b) => if b in GoneTold(es) && CommittedTold(es, s) == Some(b) then BufferCommitted else To(b)
  }

  lemma SurfaceToldMore<B, S>(es: seq<Event<B, S>>, e: Event<B, S>, s: S)
    ensures AttachedTold(es + [e], s) ==
            if e.NewSurface? && e.s == s then None
            else if e.AttachReq? && e.s == s then e.buffer
            else AttachedTold(es, s)
    ensures CommittedTold(es + [e], s) ==
            if e.NewSurface? && e.s == s then None
            else if e.CommitReq? && e.s == s then AttachedTold(es, s)
            else CommittedTold(es, s)
  {
    assert (es + [e])[..|es|] == es;
  }

  lemma SetsToldMore<B, S>(es: seq<Event<B, S>>, e: Event<B, S>)
    ensures SurfacesTold(es + [e]) ==
            if e.NewSurface? then SurfacesTold(es) + {e.s}
            else if e.SurfaceGone? then SurfacesTold(es) - {e.s}
            else SurfacesTold(es)
    ensures GoneTold(es + [e]) == if e.BufferGone? then GoneTold(es) + {e.b} else GoneTold(es)
  {
    assert (es + [e])[..|es|] == es;
  }

  // ----- single requests

  /** What a request does to the fields. */
  ghost predicate Moves<B, S>(g: Graph<B, S>, e: Event<B, S>, h: Graph<B, S>) {
    match e
    case NewBuffer(_) => h.pending.of == g.pending.of && h.committed.of == g.committed.of
    case NewSurface(s) => h.pending.of == g.pending.of[s := Null] && h.committed.of == g.committed.of[s := Null]
    case AttachReq(s, b) =>
      && h.pending.of == g.pending.of[s := if b.Some? then To(b.value) else Null]
      && h.committed.of == g.committed.of
    case CommitReq(s) =>
      && h.pending.of == g.pending.of && s in g.pending.of && s in g.committed.of
      && h.committed.of == g.committed.of[s := if g.pending.of[s].BufferCommitted? then g.committed.of[s] else g.pending.of[s]]
    case BufferGone(b) =>
      && h.pending.of.Keys == g.pending.of.Keys && h.committed.of.Keys == g.committed.of.Keys
      && (forall s :: s in g.committed.of ==>
            h.committed.of[s] == if g.committed.of[s] == To(b) then BufferUnreachable else g.committed.of[s])
      && (forall s :: s in g.pending.of && s in g.committed.of ==>
            h.pending.of[s] ==
            if g.committed.of[s] == To(b) && g.pending.of[s] == To(b) then BufferCommitted else g.pending.of[s])
    case SurfaceGone(s) => h.pending.of == g.pending.of - {s} && h.committed.of == g.committed.of - {s}
  }

  lemma DetachField<B, S>(l: Links<B, S>, s: S)
    requires s in l.of
    ensures Detach(l, s, Null).of == l.of[s := Null]
  {
    hide Drop;
  }

  lemma ReleaseFields<B, S>(g: Graph<B, S>, s: S)
    requires Named(g, s) && s in g.pending.of && Release(g, s).Next?
    ensures Release(g, s).g.pending.of == g.pending.of[s := Null] && Release(g, s).g.committed.of == g.committed.of
  {
    hide Named, Detach;
    DetachField(g.pending, s);
  }

  lemma AttachFields<B, S>(g: Graph<B, S>, s: S, b: Option<B>)
    requires Named(g, s) && s in g.pending.of && Attach(g, s, b).Next? && (b.None? ==> g.pending.of[s] == Null)
    ensures Moves(g, AttachReq(s, b), Attach(g, s, b).g)
  {
    hide Named, Release;
    var f := if b.Some? then To(b.value) else Null;
    if g.pending.of[s] == f {
      assert g.pending.of[s := f] == g.pending.of;
    } else {
      ReleaseFields(g, s);
      assert g.pending.of[s := Null][s := f] == g.pending.of[s := f];
    }
  }

  lemma AttachMoves<B, S>(g: Graph<B, S>, s: S, b: Option<B>)
    requires Inv(g) && s in g.pending.of && (b.Some? ==> b.value in g.resource && g.resource[b.value])
    requires b.None? ==> g.pending.of[s] == Null
    ensures Named(g, s) && Attach(g, s, b).Next? && Moves(g, AttachReq(s, b), Attach(g, s, b).g)
  {
    hide Inv, Attach, Named, Moves;
    AttachKeeps(g, s, b);
    AttachFields(g, s, b);
  }

  lemma CommitFields<B, S>(g: Graph<B, S>, s: S)
    requires Named(g, s) && Commit(g, s).Next? && s in g.pending.of && s in g.committed.of
    ensures Moves(g, CommitReq(s), Commit(g, s).g)
  {
    hide Named, Detach;
    DetachField(g.committed, s);
    var p := g.pending.of[s];
    PlainDetach(g.committed, s, p);
    assert g.committed.of[s := Null][s := p] == g.committed.of[s := p];
    assert g.committed.of[s := g.committed.of[s]] == g.committed.of;
  }

  lemma PlainDetach<B, S>(l: Links<B, S>, s: S, a: Attachment<B>)
    requires s in l.of
    ensures Detach(l, s, a).of == l.of[s := a]
  {
    hide Drop;
  }

  lemma CommitMoves<B, S>(g: Graph<B, S>, s: S)
    requires Inv(g) && s in g.pending.of
    ensures Named(g, s) && Commit(g, s).Next? && Moves(g, CommitReq(s), Commit(g, s).g)
  {
    hide Inv, Commit, Named, Moves;
    CommitKeeps(g, s);
    CommittedLive(g, s);
    CommitFields(g, s);
  }

  lemma ListMeans<B, S>(g: Graph<B, S>, b: B)
    requires Inv(g) && b in g.resource
    ensures b in g.pending.lists && b in g.committed.lists && g.pending.of.Keys == g.committed.of.Keys
    ensures forall s :: s in g.committed.of ==> (s in g.committed.lists[b] <==> g.committed.of[s] == To(b))
  {
    hide Distinct;
  }

  lemma GoneMoves<B, S>(g: Graph<B, S>, b: B)
    requires Inv(g) && b in g.resource && g.resource[b]
    ensures b in g.pending.lists && b in g.committed.lists && g.pending.of.Keys == g.committed.of.Keys
    ensures Moves(g, BufferGone(b), DestroyBuffer(g, b))
  {
    ListMeans(g, b);
    hide Inv, Keep;
  }

  lemma SurfaceGoneFields<B, S>(g: Graph<B, S>, s: S)
    requires Named(g, s) && s in g.pending.of && s in g.committed.of && DestroySurface(g, s).Next?
    ensures Moves(g, SurfaceGone(s), DestroySurface(g, s).g)
  {
    hide Named, Detach;
    DetachField(g.pending, s);
    DetachField(g.committed, s);
    assert g.pending.of[s := Null] - {s} == g.pending.of - {s};
    assert g.committed.of[s := Null] - {s} == g.committed.of - {s};
  }

  lemma SurfaceGoneMoves<B, S>(g: Graph<B, S>, s: S)
    requires Inv(g) && s in g.pending.of && Named(g, s) && !PendingGone(g, s)
    ensures DestroySurface(g, s).Next? && Moves(g, SurfaceGone(s), DestroySurface(g, s).g)
  {
    hide Inv, DestroySurface, Named, Moves, PendingGone;
    DestroySurfaceKeeps(g, s);
    CommittedLive(g, s);
    SurfaceGoneFields(g, s);
  }

  lemma StepMoves<B, S>(g: Graph<B, S>, e: Event<B, S>)
    requires Inv(g) && Legal(g, e) && !Careless(g, e)
    ensures Step(g, e).Next? && Moves(g, e, Step(g, e).g)
  {
    hide Inv, Attach, Commit, DestroyBuffer, DestroySurface, Named, PendingGone;
    match e
    case AttachReq(s, b) => AttachMoves(g, s, b); hide Moves;
    case CommitReq(s) => CommitMoves(g, s); hide Moves;
    case BufferGone(b) => GoneMoves(g, b); hide Moves;
    case SurfaceGone(s) => InvNamed(g, s); SurfaceGoneMoves(g, s); hide Moves;
    case _ =>
  }

  // ----- every run

  ghost predicate Tells<B, S>(g: Graph<B, S>, es: seq<Event<B, S>>) {
    && g.pending.of.Keys == SurfacesTold(es) && g.committed.of.Keys == SurfacesTold(es)
    && (forall s :: s in g.pending.of ==> g.pending.of[s] == PendingField(es, s))
    && (forall s :: s in g.committed.of ==> g.committed.of[s] == CommittedField(es, s))
    && (forall b :: b in g.resource ==> (g.resource[b] <==> b !in GoneTold(es)))
    && GoneTold(es) <= Everything(g)
  }

  /** What a request does to the buffers themselves. */
  ghost predicate Keeps<B, S>(g: Graph<B, S>, e: Event<B, S>, h: Graph<B, S>) {
    && (forall b :: b in h.resource && e != NewBuffer(b) ==>
          b in g.resource && h.resource[b] == (g.resource[b] && e != BufferGone(b)))
    && (e.NewBuffer? ==> e.b in h.resource && h.resource[e.b])
    && Everything(g) <= Everything(h)
  }

  lemma FreeKeepsRest<B, S>(g: Graph<B, S>, b: B)
    requires b in g.resource
    ensures var h := Free(g, b);
            && (forall x :: x in h.resource ==> x in g.resource && h.resource[x] == g.resource[x])
            && Everything(g) <= Everything(h)
  {
    FreeConserves(g, b);
    hide Everything;
  }

  lemma AttachResource<B, S>(g: Graph<B, S>, s: S, b: Option<B>)
    requires Named(g, s) && s in g.pending.of && Attach(g, s, b).Next?
    ensures Keeps(g, AttachReq(s, b), Attach(g, s, b).g)
  {
    hide Detach, Free;
    if g.pending.of[s].To? { FreeKeepsRest(g.(pending := Detach(g.pending, s, Null)), g.pending.of[s].b); }
  }

  lemma GoneResource<B, S>(g: Graph<B, S>, b: B)
    requires Inv(g) && b in g.resource && g.resource[b]
    ensures b in g.pending.lists && b in g.committed.lists && g.pending.of.Keys == g.committed.of.Keys
    ensures Keeps(g, BufferGone(b), DestroyBuffer(g, b))
  {
    ListMeans(g, b);
    hide Inv, SweepPending, SweepCommitted, Free;
    var swept := g.committed.lists[b];
    FreeKeepsRest(g.(pending := SweepPending(g.pending, g.committed.of, b, swept),
                     committed := SweepCommitted(g.committed, b, swept)), b);
    FreeGone(g.(pending := SweepPending(g.pending, g.committed.of, b, swept),
                committed := SweepCommitted(g.committed, b, swept)), b);
  }

  lemma FreeGone<B, S>(g: Graph<B, S>, b: B)
    ensures b !in Free(g, b).resource
  {
  }

  lemma StepResource<B, S>(g: Graph<B, S>, e: Event<B, S>)
    requires Inv(g) && Legal(g, e) && Step(g, e).Next?
    ensures Keeps(g, e, Step(g, e).g)
  {
    hide Inv, Attach, DestroyBuffer, Detach, Named, LinkTo;
    match e
    case AttachReq(s, b) => InvNamed(g, s); AttachResource(g, s, b); hide Keeps;
    case BufferGone(b) => GoneResource(g, b); hide Keeps;
    case CommitReq(s) => InvNamed(g, s);
    case SurfaceGone(s) => InvNamed(g, s);
    case _ =>
  }

  lemma PendingKnown<B, S>(g: Graph<B, S>, s: S)
    requires Inv(g) && s in g.pending.of
    ensures Named(g, s) && (g.pending.of[s].To? ==> g.pending.of[s].b in g.resource)
  {
    hide Inv;
    InvNamed(g, s);
  }

  lemma MovesTold<B, S>(g: Graph<B, S>, es: seq<Event<B, S>>, e: Event<B, S>, h: Graph<B, S>)
    requires Tells(g, es) && Legal(g, e) && Moves(g, e, h) && Keeps(g, e, h)
    requires e.CommitReq? && e.s in g.pending.of && g.pending.of[e.s].To? ==>
               g.pending.of[e.s].b in g.resource && g.resource[g.pending.of[e.s].b]
    ensures Tells(h, es + [e])
  {
    SetsToldMore(es, e);
    hide AttachedTold, CommittedTold, SurfacesTold, GoneTold, Keeps;
    forall s | s in h.pending.of
      ensures h.pending.of[s] == PendingField(es + [e], s)
    {
      SurfaceToldMore(es, e, s);
    }
    forall s | s in h.committed.of
      ensures h.committed.of[s] == CommittedField(es + [e], s)
    {
      SurfaceToldMore(es, e, s);
    }
    hide Moves, PendingField, CommittedField;
    ResourcesTold(g, es, e, h);
  }

  lemma ResourcesTold<B, S>(g: Graph<B, S>, es: seq<Event<B, S>>, e: Event<B, S>, h: Graph<B, S>)
    requires Tells(g, es) && Legal(g, e) && Keeps(g, e, h)
    ensures forall b :: b in h.resource ==> (h.resource[b] <==> b !in GoneTold(es + [e]))
    ensures GoneTold(es + [e]) <= Everything(h)
  {
    SetsToldMore(es, e);
    hide AttachedTold, CommittedTold, SurfacesTold, GoneTold, PendingField, CommittedField;
  }

  /** In every run of a careful client: a surface's pending buffer is the one it attached last and its committed one
      what was attached at its last commit, until the client destroys the buffer; then the committed field says that
      it cannot be reached, and the pending field whether it had been committed. */
  lemma {:induction false} FieldsTold<B, S>(gs: seq<Graph<B, S>>, es: seq<Event<B, S>>, i: nat)
    requires IsRun(gs, es) && i <= |es|
    ensures Tells(gs[i], es[..i])
  {
    hide Inv, Step, Legal, Careless, Tells, Moves, Keeps;
    if i == 0 {
      assert es[..0] == [];
      NothingTold(gs, es);
    } else {
      var j := i - 1;
      FieldsTold(gs, es, j);
      RunSound(gs, es, j);
      var g, e := gs[j], es[j];
      StepMoves(g, e);
      StepResource(g, e);
      if e.CommitReq? { CommitReady(g, e.s); }
      MovesTold(g, es[..j], e, gs[i]);
      assert es[..i] == es[..j] + [e];
    }
  }

  lemma CommitReady<B, S>(g: Graph<B, S>, s: S)
    requires Inv(g) && Legal(g, CommitReq(s)) && !Careless(g, CommitReq(s))
    ensures s in g.pending.of
    ensures g.pending.of[s].To? ==> g.pending.of[s].b in g.resource && g.resource[g.pending.of[s].b]
  {
    PendingKnown(g, s);
    hide Inv;
  }

  lemma RunSound<B, S>(gs: seq<Graph<B, S>>, es: seq<Event<B, S>>, i: nat)
    requires IsRun(gs, es) && i < |es|
    ensures |gs| == |es| + 1 && Inv(gs[i]) && Legal(gs[i], es[i]) && !Careless(gs[i], es[i])
    ensures Step(gs[i], es[i]) == Next(gs[i + 1])
  {
    hide Inv, Step, Legal, Careless;
    Lifetimes(gs, es, i);
    StepOfRun(gs, es, i);
  }

  lemma StepOfRun<B, S>(gs: seq<Graph<B, S>>, es: seq<Event<B, S>>, i: nat)
    requires IsRun(gs, es) && i < |es| && Inv(gs[i])
    ensures Legal(gs[i], es[i]) && !Careless(gs[i], es[i]) && Step(gs[i], es[i]) == Next(gs[i + 1])
  {
    var g, e, h := gs[i], es[i], gs[i + 1];
    assert Inv(g) && gs[i] == g;
    assert Legal(g, e) && !Careless(g, e) && Step(g, e) == Next(h);
  }

  lemma NothingTold<B, S>(gs: seq<Graph<B, S>>, es: seq<Event<B, S>>)
    requires IsRun(gs, es)
    ensures |gs| > 0 && Tells(gs[0], [])
  {
  }
}
