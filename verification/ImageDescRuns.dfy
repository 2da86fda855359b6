/** Whole runs of colour-management requests and events. */
module ImageDescRuns {
  import opened Options
  import opened WlLists
  import opened Linkage
  import opened ColorRecords
  import opened ImageDescriptions

  datatype Event =
    | NewClientDesc(d: Desc)
    | NewOutputDesc(d: Desc, k: DescState)
    | NewSurf(s: Surf)
    | Set(s: Surf, d: Desc)
    | Unset(s: Surf)
    | CommitReq(s: Surf)
    | SurfGone(s: Surf)
    | ResourceGone(d: Desc)
    | NewState(k: DescState)
    | ChangedEvent(k: DescState, p: Props)
    | Answered(k: DescState, p: Props)

  predicate Legal(c: Colors, e: Event) {
    match e
    case NewClientDesc(d) => d !in c.resource && OfClient(d) !in c.destroyed
    case NewOutputDesc(d, k) =>
      d !in c.resource && OfClient(d) !in c.destroyed && HasState(c, k) && c.places[Current(k)].Some?
    case NewSurf(s) => s !in c.pending.of
    case Set(s, d) => s in c.pending.of && d in c.resource && c.resource[d]
    case Unset(s) => s in c.pending.of
    case CommitReq(s) => s in c.pending.of
    case SurfGone(s) => s in c.pending.of
    case ResourceGone(d) => d in c.resource && c.resource[d]
    case NewState(k) => Current(k) !in c.places && Pending(k) !in c.places
    case ChangedEvent(k, p) => HasState(c, k) && p !in c.refs && OfProps(p) !in c.destroyed
    case Answered(k, p) =>
      HasState(c, k) && c.places[Pending(k)].Some? && p !in c.refs && OfProps(p) !in c.destroyed
  }

  function NewSurfState(c: Colors, s: Surf): Colors {
    c.(pending := c.pending.(of := c.pending.of[s := Null]), committed := c.committed.(of := c.committed.of[s := Null]))
  }

  ghost function Step(c: Colors, e: Event): Colors
    requires Inv(c) && Legal(c, e)
  {
    InvKeys(c);
    match e
    case NewClientDesc(d) => CreateDesc(c, d, None)
    case NewOutputDesc(d, k) => CreateDesc(c, d, c.places[Current(k)])
    case NewSurf(s) => NewSurfState(c, s)
    case Set(s, d) => SetDesc(c, s, d)
    case Unset(s) => ReleasePending(c, s)
    case CommitReq(s) => CommitDesc(c, s)
    case SurfGone(s) => DestroySurf(c, s)
    case ResourceGone(d) => DestroyResource(c, d)
    case NewState(k) => c.(places := c.places[Current(k) := None][Pending(k) := None], dirty := c.dirty[k := false])
    case ChangedEvent(k, p) => Changed(c, k, p)
    case Answered(k, p) => Handover(c, k, p)
  }

  lemma NewSurfKeeps(c: Colors, s: Surf)
    requires Inv(c) && s !in c.pending.of
    ensures Inv(NewSurfState(c, s))
  {
    NewField(c.pending, s);
    NewField(c.committed, s);
    PlainNew(c.pending.of, s);
    PlainNew(c.committed.of, s);
    hide Agree, RefsOk, Gone, Plain, Alive;
  }

  lemma PlainNew(of: map<Surf, Attachment<Desc>>, s: Surf)
    requires Plain(of)
    ensures Plain(of[s := Null])
  {
  }

  lemma NewStateKeeps(c: Colors, k: DescState)
    requires Inv(c) && Current(k) !in c.places && Pending(k) !in c.places
    ensures Inv(c.(places := c.places[Current(k) := None][Pending(k) := None], dirty := c.dirty[k := false]))
  {
    NewPlace(c.refs, c.places, c.props, Current(k));
    NewPlace(c.refs, c.places[Current(k) := None], c.props, Pending(k));
    hide Agree, RefsOk, Gone, Plain, Alive;
  }

  lemma ChangedKeeps(c: Colors, k: DescState, p: Props)
    requires Inv(c) && HasState(c, k) && p !in c.refs && OfProps(p) !in c.destroyed
    ensures Inv(Changed(c, k, p))
  {
    if c.places[Pending(k)].None? { RequestKeeps(c, k, p); }
    hide Agree, RefsOk, Gone, Plain, Alive, Request;
  }

  lemma StepKeeps(c: Colors, e: Event)
    requires Inv(c) && Legal(c, e)
    ensures Inv(Step(c, e))
  {
    InvKeys(c);
    hide Inv, KeysOk, CreateDesc, NewSurfState, SetDesc, ReleasePending, CommitDesc, DestroySurf, DestroyResource, Changed, Handover;
    match e
    case NewClientDesc(d) => CreateDescKeeps(c, d, None);
    case NewOutputDesc(d, k) => InRefs(c, k); CreateDescKeeps(c, d, c.places[Current(k)]);
    case NewSurf(s) => NewSurfKeeps(c, s);
    case Set(s, d) => SetDescKeeps(c, s, d);
    case Unset(s) => UnsetDescKeeps(c, s);
    case CommitReq(s) => CommitDescKeeps(c, s);
    case SurfGone(s) => DestroySurfKeeps(c, s);
    case ResourceGone(d) => DestroyResourceKeeps(c, d);
    case NewState(k) => NewStateKeeps(c, k);
    case ChangedEvent(k, p) => ChangedKeeps(c, k, p);
    case Answered(k, p) => HandoverKeeps(c, k, p);
  }

  lemma InRefs(c: Colors, k: DescState)
    requires Inv(c) && Current(k) in c.places && c.places[Current(k)].Some?
    ensures c.places[Current(k)].value in c.refs
  {
  }

  // ----- upstream descriptions

  /** The upstream descriptions in use: a client description's own, and one for each property record. */
  ghost function InUse(props: map<Desc, Option<Props>>, refs: map<Props, nat>): set<Upstream> {
    (set d | d in props && props[d].None? :: OfClient(d)) + (set p | p in refs :: OfProps(p))
  }

  ghost function Members(destroyed: seq<Upstream>): set<Upstream> {
    set u | u in destroyed
  }

  ghost function Everything(c: Colors): set<Upstream> {
    InUse(c.props, c.refs) + Members(c.destroyed)
  }

  /** The upstream description that an event creates. */
  function Created(c: Colors, e: Event): set<Upstream> {
    match e
    case NewClientDesc(d) => {OfClient(d)}
    case ChangedEvent(k, p) => if Pending(k) in c.places && c.places[Pending(k)].None? then {OfProps(p)} else {}
    case Answered(k, p) => if k in c.dirty && c.dirty[k] then {OfProps(p)} else {}
    case _ => {}
  }

  /** Nothing is lost, nothing comes back, and only what is in `more` is new. */
  ghost predicate Conserves(c: Colors, h: Colors, more: set<Upstream>) {
    Everything(h) == Everything(c) + more && c.destroyed <= h.destroyed
  }

  lemma ConservesTwice(c: Colors, h: Colors, i: Colors, more: set<Upstream>)
    requires Conserves(c, h, {}) && Conserves(h, i, more)
    ensures Conserves(c, i, more)
  {
    hide Everything;
  }

  /** Links and places do not matter. */
  lemma SameConserves(c: Colors, h: Colors)
    requires h.props == c.props && h.refs.Keys == c.refs.Keys && h.destroyed == c.destroyed
    ensures Conserves(c, h, {})
  {
    assert InUse(h.props, h.refs) == InUse(c.props, c.refs);
    hide InUse, Members;
  }

  lemma MembersMore(destroyed: seq<Upstream>, more: seq<Upstream>)
    ensures Members(destroyed + more) == Members(destroyed) + Members(more)
  {
  }

  /** A client description goes. */
  lemma ClientGoes(props: map<Desc, Option<Props>>, refs: map<Props, nat>, d: Desc)
    requires d in props && props[d].None?
    ensures InUse(props - {d}, refs) + Members([OfClient(d)]) == InUse(props, refs)
  {
    assert OfClient(d) in [OfClient(d)];
  }

  /** A record loses a reference, and its upstream description goes with the last one. */
  lemma RecordGoes(props: map<Desc, Option<Props>>, refs: map<Props, nat>, p: Props)
    requires p in refs
    ensures InUse(props, Unref(refs, p)) + Members(UnrefDestroys(refs, p)) == InUse(props, refs)
  {
    assert OfProps(p) in [OfProps(p)];
  }

  lemma SharerGoes(props: map<Desc, Option<Props>>, refs: map<Props, nat>, d: Desc)
    requires d in props && props[d].Some?
    ensures InUse(props - {d}, refs) == InUse(props, refs)
  {
  }

  lemma DeleteFields(c: Colors, d: Desc)
    requires KeysOk(c) && d in c.resource && !Referenced(c, d)
    ensures d in c.props && (c.props[d].Some? ==> c.props[d].value in c.refs)
    ensures var h, p := Delete(c, d), c.props[d];
            && h.props == c.props - {d}
            && h.refs == (if p.Some? then Unref(c.refs, p.value) else c.refs)
            && h.destroyed == c.destroyed + if p.Some? then UnrefDestroys(c.refs, p.value) else [OfClient(d)]
  {
    hide Unref, UnrefDestroys, Referenced;
  }

  lemma DeleteConserves(c: Colors, d: Desc)
    requires KeysOk(c) && d in c.resource
    ensures Conserves(c, Delete(c, d), {})
  {
    hide KeysOk, Unref, UnrefDestroys, InUse, Members;
    if !Referenced(c, d) {
      DeleteFields(c, d);
      hide Delete;
      if c.props[d].Some? {
        var p := c.props[d].value;
        RecordGoes(c.props - {d}, c.refs, p);
        SharerGoes(c.props, c.refs, d);
        MembersMore(c.destroyed, UnrefDestroys(c.refs, p));
      } else {
        ClientGoes(c.props, c.refs, d);
        MembersMore(c.destroyed, [OfClient(d)]);
      }
    }
  }

  lemma ReleasePendingConserves(c: Colors, s: Surf)
    requires Inv(c) && s in c.pending.of
    ensures KeysOk(c) && Conserves(c, ReleasePending(c, s), {})
  {
    hide Inv, KeysOk, Delete, Detach, Conserves;
    InvKeys(c);
    NamedKnown(c, s);
    ReleaseKeys(c, s);
    var h := c.(pending := Detach(c.pending, s, Null));
    SameConserves(c, h);
    if c.pending.of[s].To? {
      DeleteConserves(h, c.pending.of[s].b);
      ConservesTwice(c, h, Delete(h, c.pending.of[s].b), {});
    }
  }

  lemma ReleaseCommittedConserves(c: Colors, s: Surf)
    requires Inv(c) && s in c.pending.of
    ensures KeysOk(c) && s in c.committed.of && Conserves(c, ReleaseCommitted(c, s), {})
  {
    hide Inv, KeysOk, Delete, Detach, Conserves;
    InvKeys(c);
    NamedKnown(c, s);
    ReleaseCommittedKeys(c, s);
    var h := c.(committed := Detach(c.committed, s, Null));
    SameConserves(c, h);
    if c.committed.of[s].To? {
      DeleteConserves(h, c.committed.of[s].b);
      ConservesTwice(c, h, Delete(h, c.committed.of[s].b), {});
    }
  }

  lemma LinkConserves(c: Colors, pending: Links<Desc, Surf>, committed: Links<Desc, Surf>)
    ensures Conserves(c, c.(pending := pending, committed := committed), {})
  {
    SameConserves(c, c.(pending := pending, committed := committed));
  }

  lemma SetConserves(c: Colors, s: Surf, d: Desc)
    requires Inv(c) && s in c.pending.of && d in c.resource && c.resource[d]
    ensures KeysOk(c) && Conserves(c, SetDesc(c, s, d), {})
  {
    ReleasePendingConserves(c, s);
    ReleasePendingKeeps(c, s);
    hide Inv, KeysOk, ReleasePending, Conserves, LinkTo;
    var h := ReleasePending(c, s);
    SetDescLinks(c, s, d);
    LinkConserves(h, SetDesc(c, s, d).pending, h.committed);
    ConservesTwice(c, h, SetDesc(c, s, d), {});
  }

  lemma SetDescLinks(c: Colors, s: Surf, d: Desc)
    requires KeysOk(c) && s in c.pending.of && d in c.resource && c.resource[d]
    ensures var h := ReleasePending(c, s);
            SetDesc(c, s, d) == h.(pending := SetDesc(c, s, d).pending, committed := h.committed)
  {
    hide ReleasePending, KeysOk, LinkTo;
  }

  lemma CommitConserves(c: Colors, s: Surf)
    requires Inv(c) && s in c.pending.of
    ensures KeysOk(c) && Conserves(c, CommitDesc(c, s), {})
  {
    InvKeys(c);
    if c.committed.of[s] == c.pending.of[s] {
      SameConserves(c, c);
    } else {
      ReleaseCommittedConserves(c, s);
      ReleaseCommittedKeeps(c, s);
      hide Inv, KeysOk, ReleaseCommitted, Conserves, LinkTo;
      var h := ReleaseCommitted(c, s);
      LinkConserves(h, h.pending, CommitDesc(c, s).committed);
      ConservesTwice(c, h, CommitDesc(c, s), {});
    }
  }

  lemma SurfGoneConserves(c: Colors, s: Surf)
    requires Inv(c) && s in c.pending.of
    ensures KeysOk(c) && Conserves(c, DestroySurf(c, s), {})
  {
    ReleasePendingConserves(c, s);
    ReleasePendingKeeps(c, s);
    var h := ReleasePending(c, s);
    assert s in h.pending.of;
    ReleaseCommittedConserves(h, s);
    hide Inv, KeysOk, ReleasePending, ReleaseCommitted, Conserves;
    var i := ReleaseCommitted(h, s);
    ConservesTwice(c, h, i, {});
    LinkConserves(i, i.pending.(of := i.pending.of - {s}), i.committed.(of := i.committed.of - {s}));
    ConservesTwice(c, i, DestroySurf(c, s), {});
  }

  lemma ResourceGoneConserves(c: Colors, d: Desc)
    requires Inv(c) && d in c.resource
    ensures KeysOk(c) && Conserves(c, DestroyResource(c, d), {})
  {
    hide Inv, KeysOk, Delete, Conserves;
    InvKeys(c);
    UnresourcedKeys(c, d);
    var h := c.(resource := c.resource[d := false]);
    SameConserves(c, h);
    DeleteConserves(h, d);
    ConservesTwice(c, h, Delete(h, d), {});
  }

  lemma CreateConserves(c: Colors, d: Desc, p: Option<Props>)
    requires d !in c.props && (p.Some? ==> p.value in c.refs)
    ensures Conserves(c, CreateDesc(c, d, p), if p.None? then {OfClient(d)} else {})
  {
    var h := CreateDesc(c, d, p);
    assert h.refs.Keys == c.refs.Keys;
    assert InUse(h.props, h.refs) == InUse(c.props, c.refs) + (if p.None? then {OfClient(d)} else {});
    hide InUse, Members;
  }

  lemma RequestConserves(c: Colors, k: DescState, p: Props)
    requires p !in c.refs
    ensures Conserves(c, Request(c, k, p), {OfProps(p)})
  {
    var h := Request(c, k, p);
    assert InUse(h.props, h.refs) == InUse(c.props, c.refs) + {OfProps(p)};
    hide InUse, Members;
  }

  lemma DroppedConserves(c: Colors, k: DescState)
    requires HasState(c, k) && KeysOk(c)
    ensures Conserves(c, Moved(Dropped(c, k), k), {})
  {
    hide InUse, Members, Unref, UnrefDestroys;
    if c.places[Current(k)].Some? {
      var p := c.places[Current(k)].value;
      RecordGoes(c.props, c.refs, p);
      MembersMore(c.destroyed, UnrefDestroys(c.refs, p));
    }
  }

  lemma HandoverConserves(c: Colors, k: DescState, p: Props)
    requires Inv(c) && HasState(c, k) && p !in c.refs && OfProps(p) !in c.destroyed
    ensures KeysOk(c) && Conserves(c, Handover(c, k, p), if c.dirty[k] then {OfProps(p)} else {})
  {
    HandoverIs(c, k, p);
    DroppedConserves(c, k);
    DroppedRefs(c, k, p);
    hide Inv, KeysOk, Dropped, Conserves, Handover, Request;
    var h := Moved(Dropped(c, k), k);
    if c.dirty[k] {
      RequestConserves(h, k, p);
      ConservesTwice(c, h, Request(h, k, p), {OfProps(p)});
    }
  }

  /** No event loses an upstream description or brings a destroyed one back. */
  lemma Conserved(c: Colors, e: Event)
    requires Inv(c) && Legal(c, e)
    ensures Everything(Step(c, e)) == Everything(c) + Created(c, e)
    ensures c.destroyed <= Step(c, e).destroyed
  {
    InvKeys(c);
    hide Inv, Everything, Conserves, KeysOk, CreateDesc, SetDesc, ReleasePending, CommitDesc, DestroySurf, DestroyResource,
         Handover, Request;
    assert Conserves(c, Step(c, e), Created(c, e)) by {
      match e
      case NewClientDesc(d) => NotInProps(c, d); CreateConserves(c, d, None);
      case NewOutputDesc(d, k) => NotInProps(c, d); InRefs(c, k); CreateConserves(c, d, c.places[Current(k)]);
      case NewSurf(s) => SameConserves(c, NewSurfState(c, s));
      case Set(s, d) => SetConserves(c, s, d);
      case Unset(s) => ReleasePendingConserves(c, s);
      case CommitReq(s) => CommitConserves(c, s);
      case SurfGone(s) => SurfGoneConserves(c, s);
      case ResourceGone(d) => ResourceGoneConserves(c, d);
      case NewState(k) => SameConserves(c, Step(c, e));
      case ChangedEvent(k, p) =>
        if c.places[Pending(k)].None? { RequestConserves(c, k, p); } else { SameConserves(c, Step(c, e)); }
      case Answered(k, p) => HandoverConserves(c, k, p);
    }
    ConservesMeans(c, Step(c, e), Created(c, e));
  }

  lemma ConservesMeans(c: Colors, h: Colors, more: set<Upstream>)
    requires Conserves(c, h, more)
    ensures Everything(h) == Everything(c) + more && c.destroyed <= h.destroyed
  {
    hide Everything;
  }

  lemma NotInProps(c: Colors, d: Desc)
    requires Inv(c) && d !in c.resource
    ensures d !in c.props
  {
  }

  lemma Apart(c: Colors)
    requires Inv(c)
    ensures InUse(c.props, c.refs) !! Members(c.destroyed)
  {
    hide RefsOk, Agree, Plain, Alive, Distinct;
  }

  ghost predicate IsRun(cs: seq<Colors>, es: seq<Event>) {
    && |cs| == |es| + 1 && cs[0] == EMPTY
    && (forall i :: 0 <= i < |es| ==> (Inv(cs[i]) ==> Legal(cs[i], es[i]) && cs[i + 1] == Step(cs[i], es[i])))
  }

  lemma RunStep(cs: seq<Colors>, es: seq<Event>, i: nat)
    requires IsRun(cs, es) && i < |es| && Inv(cs[i])
    ensures Legal(cs[i], es[i]) && cs[i + 1] == Step(cs[i], es[i])
  {
    hide Inv, Legal, Step;
  }

  /** In every run: a description is live exactly while its resource exists or a surface names it as
      pending or committed; each property record's count is one for the place that owns it plus the live
      descriptions sharing it; and each upstream description that the run created -- for a client's
      description or for a property record -- is either in use or has been destroyed, exactly once. */
  lemma {:induction false} Lifetimes(cs: seq<Colors>, es: seq<Event>, i: nat)
    requires IsRun(cs, es) && i <= |es|
    ensures Inv(cs[i]) && KeysOk(cs[i])
    ensures forall d: Desc :: d in cs[i].resource ==>
              cs[i].resource[d]
              || exists s :: s in cs[i].pending.of && s in cs[i].committed.of
                             && (cs[i].pending.of[s] == To(d) || cs[i].committed.of[s] == To(d))
    ensures forall p: Props :: p in cs[i].refs ==>
              cs[i].refs[p] == (if Held(cs[i].places, p) then 1 else 0) + |Sharers(cs[i].props, p)|
    ensures Distinct(cs[i].destroyed)
    ensures forall d: Desc :: d in cs[i].resource ==>
              d in cs[i].props && (if cs[i].props[d].Some? then OfProps(cs[i].props[d].value) else OfClient(d)) !in cs[i].destroyed
    ensures Everything(cs[i]) == CreatedBefore(cs, es, i)
    ensures InUse(cs[i].props, cs[i].refs) !! Members(cs[i].destroyed)
  {
    hide Inv, Step, Legal, KeysOk, Distinct, Held, Sharers, Everything, InUse, Members, Created;
    if i == 0 {
      EmptyInv();
      NothingCreated(cs, es);
    } else {
      var j := i - 1;
      Lifetimes(cs, es, j);
      RunStep(cs, es, j);
      StepKeeps(cs[j], es[j]);
      Conserved(cs[j], es[j]);
      CreatedNext(cs, es, j);
    }
    Apart(cs[i]);
    KeysAndMeaning(cs[i]);
  }

  /** What the first `i` events created upstream. */
  ghost function CreatedBefore(cs: seq<Colors>, es: seq<Event>, i: nat): set<Upstream>
    requires i <= |es| && |cs| == |es| + 1
  {
    set j: nat, u | j < i && u in Created(cs[j], es[j]) :: u
  }

  lemma CreatedNext(cs: seq<Colors>, es: seq<Event>, i: nat)
    requires i < |es| && |cs| == |es| + 1
    ensures CreatedBefore(cs, es, i + 1) == CreatedBefore(cs, es, i) + Created(cs[i], es[i])
  {
    hide Created;
  }

  lemma NothingCreated(cs: seq<Colors>, es: seq<Event>)
    requires |cs| == |es| + 1
    ensures Everything(EMPTY) == CreatedBefore(cs, es, 0)
  {
  }

  lemma KeysAndMeaning(c: Colors)
    requires Inv(c)
    ensures KeysOk(c)
    ensures forall d: Desc :: d in c.resource ==>
              c.resource[d]
              || exists s :: s in c.pending.of && s in c.committed.of && (c.pending.of[s] == To(d) || c.committed.of[s] == To(d))
    ensures forall p: Props :: p in c.refs ==> c.refs[p] == (if Held(c.places, p) then 1 else 0) + |Sharers(c.props, p)|
    ensures Distinct(c.destroyed)
    ensures forall d: Desc :: d in c.resource ==>
              d in c.props && (if c.props[d].Some? then OfProps(c.props[d].value) else OfClient(d)) !in c.destroyed
  {
    hide Inv, KeysOk, Distinct, Held, Sharers;
    InvKeys(c);
    LiveMeans(c);
  }

  lemma EmptyInv()
    ensures Inv(EMPTY)
  {
  }

  lemma LiveMeans(c: Colors)
    requires Inv(c)
    ensures forall d: Desc :: d in c.resource ==>
              c.resource[d]
              || exists s :: s in c.pending.of && s in c.committed.of && (c.pending.of[s] == To(d) || c.committed.of[s] == To(d))
    ensures forall p: Props :: p in c.refs ==> c.refs[p] == (if Held(c.places, p) then 1 else 0) + |Sharers(c.props, p)|
    ensures Distinct(c.destroyed)
    ensures forall d: Desc :: d in c.resource ==>
              d in c.props && (if c.props[d].Some? then OfProps(c.props[d].value) else OfClient(d)) !in c.destroyed
  {
    hide Distinct, Sharers, Held;
    forall d: Desc | d in c.resource && !c.resource[d]
      ensures exists s :: s in c.pending.of && s in c.committed.of && (c.pending.of[s] == To(d) || c.committed.of[s] == To(d))
    {
      if c.pending.lists[d] != [] {
        var s := c.pending.lists[d][0];
        assert s in c.pending.lists[d] && c.pending.of[s] == To(d);
      } else {
        var s := c.committed.lists[d][0];
        assert s in c.committed.lists[d] && c.committed.of[s] == To(d);
      }
    }
  }
}
