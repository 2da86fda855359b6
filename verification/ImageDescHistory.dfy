/** Which description a surface has pending and committed, which descriptions clients hold, and which property
    record an output shows, told from the requests and events alone. */
module ImageDescHistory {
  import opened Options
  import opened WlLists
  import opened Stacking
  import opened Linkage
  import opened ColorRecords
  import opened ImageDescriptions
  import opened ImageDescRuns

  // ----- the requests

  /** What the last set or unset request asked for. */
  function PendingTold(es: seq<Event>, s: Surf): Attachment<Desc> {
    if es == [] then Null
    else
      match es[|es| - 1]
      case NewSurf(x) => if x == s then Null else PendingTold(es[..|es| - 1], s)
      case Set(x, d) => if x == s then To(d) else PendingTold(es[..|es| - 1], s)
      case Unset(x) => if x == s then Null else PendingTold(es[..|es| - 1], s)
      case _ => PendingTold(es[..|es| - 1], s)
  }

  /** What was pending at the last commit. */
  function CommittedTold(es: seq<Event>, s: Surf): Attachment<Desc> {
    if es == [] then Null
    else
      match es[|es| - 1]
      case NewSurf(x) => if x == s then Null else CommittedTold(es[..|es| - 1], s)
      case CommitReq(x) => if x == s then PendingTold(es[..|es| - 1], s) else CommittedTold(es[..|es| - 1], s)
      case _ => CommittedTold(es[..|es| - 1], s)
  }

  /** The surfaces there are. */
  function SurfsTold(es: seq<Event>): set<Surf> {
    if es == [] then {}
    else
      match es[|es| - 1]
      case NewSurf(s) => SurfsTold(es[..|es| - 1]) + {s}
      case SurfGone(s) => SurfsTold(es[..|es| - 1]) - {s}
      case _ => SurfsTold(es[..|es| - 1])
  }

  /** The descriptions that clients still have. */
  function HeldTold(es: seq<Event>): set<Desc> {
    if es == [] then {}
    else
      match es[|es| - 1]
      case NewClientDesc(d) => HeldTold(es[..|es| - 1]) + {d}
      case NewOutputDesc(d, _) => HeldTold(es[..|es| - 1]) + {d}
      case ResourceGone(d) => HeldTold(es[..|es| - 1]) - {d}
      case _ => HeldTold(es[..|es| - 1])
  }

  // ----- single steps

  function HeldBy(c: Colors): set<Desc> {
    set d | d in c.resource && c.resource[d]
  }

  predicate SameResources(c: Colors, h: Colors) {
    HeldBy(h) == HeldBy(c)
  }

  /** A description that goes is not held. */
  lemma DeleteEffect(c: Colors, d: Desc)
    requires KeysOk(c) && d in c.resource
    ensures var h := Delete(c, d);
            && h.pending.of == c.pending.of && h.committed.of == c.committed.of && SameResources(c, h)
            && h.places == c.places && h.dirty == c.dirty
  {
    hide KeysOk;
  }

  lemma ReleasePendingEffect(c: Colors, s: Surf)
    requires Inv(c) && s in c.pending.of
    ensures KeysOk(c)
    ensures var h := ReleasePending(c, s);
            && h.pending.of == c.pending.of[s := Null] && h.committed.of == c.committed.of && SameResources(c, h)
            && h.places == c.places && h.dirty == c.dirty
  {
    hide Inv, KeysOk, Delete, SameResources;
    InvKeys(c);
    NamedKnown(c, s);
    ReleaseKeys(c, s);
    var h := c.(pending := Detach(c.pending, s, Null));
    assert SameResources(c, h) by { Unmoved(c, h); }
    if c.pending.of[s].To? {
      DeleteEffect(h, c.pending.of[s].b);
      ResourcesTwice(c, h, Delete(h, c.pending.of[s].b));
    }
  }

  lemma Unmoved(c: Colors, h: Colors)
    requires h.resource == c.resource
    ensures SameResources(c, h)
  {
  }

  lemma ResourcesTwice(c: Colors, h: Colors, i: Colors)
    requires SameResources(c, h) && SameResources(h, i)
    ensures SameResources(c, i)
  {
    hide HeldBy;
  }

  lemma ReleaseCommittedEffect(c: Colors, s: Surf)
    requires Inv(c) && s in c.pending.of
    ensures KeysOk(c) && s in c.committed.of
    ensures var h := ReleaseCommitted(c, s);
            && h.committed.of == c.committed.of[s := Null] && h.pending.of == c.pending.of && SameResources(c, h)
            && h.places == c.places && h.dirty == c.dirty
  {
    hide Inv, KeysOk, Delete, SameResources;
    InvKeys(c);
    NamedKnown(c, s);
    ReleaseCommittedKeys(c, s);
    var h := c.(committed := Detach(c.committed, s, Null));
    assert SameResources(c, h) by { Unmoved(c, h); }
    if c.committed.of[s].To? {
      DeleteEffect(h, c.committed.of[s].b);
      ResourcesTwice(c, h, Delete(h, c.committed.of[s].b));
    }
  }

  lemma LinkedEffect(c: Colors, pending: Links<Desc, Surf>, committed: Links<Desc, Surf>)
    ensures SameResources(c, c.(pending := pending, committed := committed))
  {
  }

  lemma SetEffect(c: Colors, s: Surf, d: Desc)
    requires Inv(c) && s in c.pending.of && d in c.resource && c.resource[d]
    ensures KeysOk(c)
    ensures var h := SetDesc(c, s, d);
            && h.pending.of == c.pending.of[s := To(d)] && h.committed.of == c.committed.of && SameResources(c, h)
            && h.places == c.places && h.dirty == c.dirty
  {
    hide Inv, KeysOk, ReleasePending, SameResources;
    ReleasePendingEffect(c, s);
    ReleasePendingKeeps(c, s);
    var h := ReleasePending(c, s);
    AliveKeys(h);
    LinkedEffect(h, SetDesc(c, s, d).pending, h.committed);
    ResourcesTwice(c, h, SetDesc(c, s, d));
    assert c.pending.of[s := Null][s := To(d)] == c.pending.of[s := To(d)];
  }

  lemma CommitEffect(c: Colors, s: Surf)
    requires Inv(c) && s in c.pending.of
    ensures KeysOk(c)
    ensures var h := CommitDesc(c, s);
            && h.pending.of == c.pending.of && h.committed.of == c.committed.of[s := c.pending.of[s]] && SameResources(c, h)
            && h.places == c.places && h.dirty == c.dirty
  {
    hide Inv, KeysOk, ReleaseCommitted, SameResources;
    CommitDescKeeps(c, s);
    ReleaseCommittedEffect(c, s);
    var h, v := ReleaseCommitted(c, s), c.pending.of[s];
    LinkedEffect(c, c.pending, c.committed);
    LinkedEffect(h, h.pending, CommitDesc(c, s).committed);
    if c.committed.of[s] == v {
      assert c.committed.of[s := v] == c.committed.of;
    } else {
      ResourcesTwice(c, h, CommitDesc(c, s));
      assert c.committed.of[s := Null][s := v] == c.committed.of[s := v];
    }
  }

  lemma SurfGoneEffect(c: Colors, s: Surf)
    requires Inv(c) && s in c.pending.of
    ensures KeysOk(c)
    ensures var h := DestroySurf(c, s);
            && h.pending.of == c.pending.of - {s} && h.committed.of == c.committed.of - {s} && SameResources(c, h)
            && h.places == c.places && h.dirty == c.dirty
  {
    hide Inv, KeysOk, ReleasePending, ReleaseCommitted, SameResources;
    ReleasePendingEffect(c, s);
    ReleasePendingKeeps(c, s);
    var h := ReleasePending(c, s);
    ReleaseCommittedEffect(h, s);
    var i := ReleaseCommitted(h, s);
    ResourcesTwice(c, h, i);
    LinkedEffect(i, i.pending.(of := i.pending.of - {s}), i.committed.(of := i.committed.of - {s}));
    ResourcesTwice(c, i, DestroySurf(c, s));
    assert c.pending.of[s := Null] - {s} == c.pending.of - {s} && c.committed.of[s := Null] - {s} == c.committed.of - {s};
  }

  lemma ResourceGoneEffect(c: Colors, d: Desc)
    requires Inv(c) && d in c.resource
    ensures KeysOk(c)
    ensures var h := DestroyResource(c, d);
            && h.pending.of == c.pending.of && h.committed.of == c.committed.of
            && HeldBy(h) == HeldBy(c) - {d}
            && h.places == c.places && h.dirty == c.dirty
  {
    hide Inv, KeysOk, Delete;
    InvKeys(c);
    UnresourcedKeys(c, d);
    DeleteEffect(c.(resource := c.resource[d := false]), d);
  }

  // ----- every run

  /** The fields of the surfaces and what clients hold, as the requests tell them. */
  ghost predicate Tells(c: Colors, es: seq<Event>) {
    && c.pending.of.Keys == SurfsTold(es) && c.committed.of.Keys == SurfsTold(es)
    && (forall s :: s in c.pending.of ==> c.pending.of[s] == PendingTold(es, s))
    && (forall s :: s in c.committed.of ==> c.committed.of[s] == CommittedTold(es, s))
    && HeldBy(c) == HeldTold(es)
  }

  lemma SurfToldMore(es: seq<Event>, e: Event, s: Surf)
    ensures PendingTold(es + [e], s) ==
            if e.NewSurf? && e.s == s then Null
            else if e.Set? && e.s == s then To(e.d)
            else if e.Unset? && e.s == s then Null
            else PendingTold(es, s)
    ensures CommittedTold(es + [e], s) ==
            if e.NewSurf? && e.s == s then Null
            else if e.CommitReq? && e.s == s then PendingTold(es, s)
            else CommittedTold(es, s)
  {
    assert (es + [e])[..|es|] == es;
  }

  lemma SetsToldMore(es: seq<Event>, e: Event)
    ensures SurfsTold(es + [e]) ==
            if e.NewSurf? then SurfsTold(es) + {e.s} else if e.SurfGone? then SurfsTold(es) - {e.s} else SurfsTold(es)
    ensures HeldTold(es + [e]) ==
            if e.NewClientDesc? || e.NewOutputDesc? then HeldTold(es) + {e.d}
            else if e.ResourceGone? then HeldTold(es) - {e.d}
            else HeldTold(es)
  {
    assert (es + [e])[..|es|] == es;
  }

  /** What one event does to the fields. */
  ghost predicate Moves(c: Colors, e: Event, h: Colors) {
    && h.pending.of == (match e
                        case NewSurf(s) => c.pending.of[s := Null]
                        case Set(s, d) => c.pending.of[s := To(d)]
                        case Unset(s) => c.pending.of[s := Null]
                        case SurfGone(s) => c.pending.of - {s}
                        case _ => c.pending.of)
    && h.committed.of == (match e
                          case NewSurf(s) => c.committed.of[s := Null]
                          case CommitReq(s) => if s in c.pending.of then c.committed.of[s := c.pending.of[s]] else c.committed.of
                          case SurfGone(s) => c.committed.of - {s}
                          case _ => c.committed.of)
    && HeldBy(h) == (if e.NewClientDesc? || e.NewOutputDesc? then HeldBy(c) + {e.d}
                     else if e.ResourceGone? then HeldBy(c) - {e.d}
                     else HeldBy(c))
  }

  lemma CreateEffect(c: Colors, d: Desc, p: Option<Props>)
    requires p.Some? ==> p.value in c.refs
    ensures var h := CreateDesc(c, d, p);
            h.pending.of == c.pending.of && h.committed.of == c.committed.of && HeldBy(h) == HeldBy(c) + {d}
            && h.places == c.places && h.dirty == c.dirty
  {
  }

  predicate OnlyStates(c: Colors, h: Colors) {
    h.pending == c.pending && h.committed == c.committed && h.resource == c.resource
  }

  lemma StatesEffect(c: Colors, k: DescState, p: Props)
    requires KeysOk(c)
    ensures HasState(c, k) ==> OnlyStates(c, Changed(c, k, p)) && OnlyStates(c, Handover(c, k, p))
    ensures OnlyStates(c, c.(places := c.places[Current(k) := None][Pending(k) := None], dirty := c.dirty[k := false]))
  {
    hide KeysOk, Unref, UnrefDestroys;
  }

  lemma NewSurfEffect(c: Colors, s: Surf)
    ensures var h := NewSurfState(c, s);
            h.pending.of == c.pending.of[s := Null] && h.committed.of == c.committed.of[s := Null] && h.resource == c.resource
            && h.places == c.places && h.dirty == c.dirty
  {
  }

  lemma StepMoves(c: Colors, e: Event)
    requires Inv(c) && Legal(c, e)
    ensures Moves(c, e, Step(c, e))
  {
    hide Inv, KeysOk, CreateDesc, NewSurfState, SetDesc, ReleasePending, CommitDesc, DestroySurf, DestroyResource, Changed,
         Handover, HeldBy;
    InvKeys(c);
    match e
    case NewClientDesc(d) => CreateEffect(c, d, None);
    case NewOutputDesc(d, k) => InRefs(c, k); CreateEffect(c, d, c.places[Current(k)]);
    case NewSurf(s) => NewSurfEffect(c, s); HeldSame(c, NewSurfState(c, s));
    case Set(s, d) => SetEffect(c, s, d);
    case Unset(s) => ReleasePendingEffect(c, s);
    case CommitReq(s) => CommitEffect(c, s);
    case SurfGone(s) => SurfGoneEffect(c, s);
    case ResourceGone(d) => ResourceGoneEffect(c, d);
    case NewState(k) => HeldSame(c, Step(c, e));
    case ChangedEvent(k, p) => StatesEffect(c, k, p); HeldSame(c, Changed(c, k, p));
    case Answered(k, p) => StatesEffect(c, k, p); HeldSame(c, Handover(c, k, p));
  }

  lemma HeldSame(c: Colors, h: Colors)
    requires h.resource == c.resource
    ensures HeldBy(h) == HeldBy(c)
  {
  }

  lemma MovesTold(c: Colors, es: seq<Event>, e: Event, h: Colors)
    requires Tells(c, es) && Legal(c, e) && Moves(c, e, h)
    ensures Tells(h, es + [e])
  {
    SetsToldMore(es, e);
    hide PendingTold, CommittedTold, SurfsTold, HeldTold, HeldBy;
    forall s | s in h.pending.of ensures h.pending.of[s] == PendingTold(es + [e], s) { SurfToldMore(es, e, s); }
    forall s | s in h.committed.of ensures h.committed.of[s] == CommittedTold(es + [e], s) { SurfToldMore(es, e, s); }
  }

  /** In every run: a surface's pending description is the one its client last set, unless it was unset since; its
      committed one is what was pending at its last commit; and a description has its resource exactly from its
      creation to its destruction. */
  lemma {:induction false} FieldsTold(cs: seq<Colors>, es: seq<Event>, i: nat)
    requires IsRun(cs, es) && i <= |es|
    ensures Tells(cs[i], es[..i])
  {
    hide Inv, Step, Legal, Tells, Moves;
    if i == 0 {
      assert es[..0] == [];
      EmptyTold();
    } else {
      var j := i - 1;
      FieldsTold(cs, es, j);
      RunSound(cs, es, j);
      StepMoves(cs[j], es[j]);
      MovesTold(cs[j], es[..j], es[j], cs[i]);
      assert es[..i] == es[..j] + [es[j]];
    }
  }

  lemma RunSound(cs: seq<Colors>, es: seq<Event>, i: nat)
    requires IsRun(cs, es) && i < |es|
    ensures |cs| == |es| + 1 && Inv(cs[i]) && Legal(cs[i], es[i]) && cs[i + 1] == Step(cs[i], es[i])
  {
    hide Inv, Step, Legal;
    Lifetimes(cs, es, i);
    RunStep(cs, es, i);
  }

  lemma EmptyTold()
    ensures Tells(EMPTY, [])
  {
  }

  // ----- what an output shows

  /** Event j asks for the property record p of state k. */
  predicate NamedAt(es: seq<Event>, k: DescState, p: Props, j: int) {
    0 <= j < |es| && (es[j] == ChangedEvent(k, p) || es[j] == Answered(k, p))
  }

  predicate ChangedAt(es: seq<Event>, k: DescState, j: int) {
    0 <= j < |es| && es[j].ChangedEvent? && es[j].k == k
  }

  /** The record was asked for after every change. */
  ghost predicate UpToDate(es: seq<Event>, k: DescState, p: Props) {
    exists j :: NamedAt(es, k, p, j) && forall m :: ChangedAt(es, k, m) ==> m <= j
  }

  ghost predicate EverChanged(es: seq<Event>, k: DescState) {
    exists m :: ChangedAt(es, k, m)
  }

  lemma ChangedMore(es: seq<Event>, e: Event, k: DescState)
    ensures forall m :: ChangedAt(es + [e], k, m) <==> ChangedAt(es, k, m) || (m == |es| && e.ChangedEvent? && e.k == k)
  {
    assert (es + [e])[|es|] == e;
  }

  lemma EverMore(es: seq<Event>, e: Event, k: DescState)
    ensures EverChanged(es + [e], k) <==> EverChanged(es, k) || (e.ChangedEvent? && e.k == k)
  {
    ChangedMore(es, e, k);
    hide ChangedAt;
    if e.ChangedEvent? && e.k == k { assert ChangedAt(es + [e], k, |es|); }
  }

  lemma NamedMore(es: seq<Event>, e: Event, k: DescState, p: Props)
    ensures e == ChangedEvent(k, p) || e == Answered(k, p) ==> UpToDate(es + [e], k, p)
    ensures UpToDate(es, k, p) && !(e.ChangedEvent? && e.k == k) ==> UpToDate(es + [e], k, p)
  {
    var fs := es + [e];
    assert fs[|es|] == e;
    ChangedMore(es, e, k);
    assert forall m :: NamedAt(es, k, p, m) ==> NamedAt(fs, k, p, m);
    assert forall m :: ChangedAt(es, k, m) ==> m < |es|;
    hide ChangedAt;
    if e == ChangedEvent(k, p) || e == Answered(k, p) { assert NamedAt(fs, k, p, |es|); }
  }

  /** An idle state shows a record that was asked for after the last change; one with a request under way will, as
      the request is recent enough or marked to be repeated. */
  ghost predicate ShowsNewest(c: Colors, es: seq<Event>, k: DescState)
    requires HasState(c, k)
  {
    match c.places[Pending(k)]
    case Some(p) => c.dirty[k] || UpToDate(es, k, p)
    case None =>
      && !c.dirty[k]
      && (EverChanged(es, k) ==> c.places[Current(k)].Some? && UpToDate(es, k, c.places[Current(k)].value))
  }

  ghost predicate AllShowNewest(c: Colors, es: seq<Event>) {
    forall k :: k in c.dirty ==> HasState(c, k) && ShowsNewest(c, es, k)
  }

  /** What one event does to a state. */
  predicate Turns(c: Colors, e: Event, h: Colors, k: DescState)
    requires HasState(c, k)
  {
    && HasState(h, k)
    && h.places[Current(k)] == (if e.Answered? && e.k == k then c.places[Pending(k)] else c.places[Current(k)])
    && h.places[Pending(k)] == (if e.Answered? && e.k == k then (if c.dirty[k] then Some(e.p) else None)
                                else if e.ChangedEvent? && e.k == k && c.places[Pending(k)].None? then Some(e.p)
                                else c.places[Pending(k)])
    && h.dirty[k] == (if e.Answered? && e.k == k then false
                      else if e.ChangedEvent? && e.k == k then c.places[Pending(k)].Some?
                      else c.dirty[k])
  }

  lemma SameTurns(c: Colors, e: Event, h: Colors, k: DescState)
    requires HasState(c, k) && h.places == c.places && h.dirty == c.dirty && !e.Answered? && !e.ChangedEvent?
    ensures Turns(c, e, h, k)
  {
  }

  lemma NewStateTurns(c: Colors, j: DescState, k: DescState)
    requires HasState(c, k) && Current(j) !in c.places
    ensures Turns(c, NewState(j), c.(places := c.places[Current(j) := None][Pending(j) := None], dirty := c.dirty[j := false]), k)
  {
  }

  lemma ChangedTurns(c: Colors, j: DescState, p: Props, k: DescState)
    requires HasState(c, k) && HasState(c, j) && !(c.dirty[k] && c.places[Pending(k)].None?)
    ensures Turns(c, ChangedEvent(j, p), Changed(c, j, p), k)
  {
  }

  lemma AnsweredTurns(c: Colors, j: DescState, p: Props, k: DescState)
    requires HasState(c, k) && HasState(c, j) && KeysOk(c)
    ensures Turns(c, Answered(j, p), Handover(c, j, p), k)
  {
    hide KeysOk, Unref, UnrefDestroys;
  }

  lemma StepTurns(c: Colors, e: Event, k: DescState)
    requires Inv(c) && Legal(c, e) && HasState(c, k) && !(c.dirty[k] && c.places[Pending(k)].None?)
    ensures Turns(c, e, Step(c, e), k)
  {
    hide Inv, KeysOk, CreateDesc, NewSurfState, SetDesc, ReleasePending, CommitDesc, DestroySurf, DestroyResource, Changed,
         Handover, HeldBy, Turns;
    InvKeys(c);
    match e
    case NewClientDesc(d) => CreateEffect(c, d, None); SameTurns(c, e, CreateDesc(c, d, None), k);
    case NewOutputDesc(d, j) =>
      InRefs(c, j);
      CreateEffect(c, d, c.places[Current(j)]);
      SameTurns(c, e, CreateDesc(c, d, c.places[Current(j)]), k);
    case NewSurf(s) => NewSurfEffect(c, s); SameTurns(c, e, NewSurfState(c, s), k);
    case Set(s, d) => SetEffect(c, s, d); SameTurns(c, e, SetDesc(c, s, d), k);
    case Unset(s) => ReleasePendingEffect(c, s); SameTurns(c, e, ReleasePending(c, s), k);
    case CommitReq(s) => CommitEffect(c, s); SameTurns(c, e, CommitDesc(c, s), k);
    case SurfGone(s) => SurfGoneEffect(c, s); SameTurns(c, e, DestroySurf(c, s), k);
    case ResourceGone(d) => ResourceGoneEffect(c, d); SameTurns(c, e, DestroyResource(c, d), k);
    case NewState(j) => NewStateTurns(c, j, k);
    case ChangedEvent(j, p) => ChangedTurns(c, j, p, k);
    case Answered(j, p) => AnsweredTurns(c, j, p, k);
  }

  lemma StepDirty(c: Colors, e: Event)
    requires Inv(c) && Legal(c, e)
    ensures Step(c, e).dirty.Keys == c.dirty.Keys + if e.NewState? then {e.k} else {}
  {
    hide Inv, KeysOk, CreateDesc, NewSurfState, SetDesc, ReleasePending, CommitDesc, DestroySurf, DestroyResource, HeldBy, Unref,
         UnrefDestroys;
    InvKeys(c);
    match e
    case NewClientDesc(d) => CreateEffect(c, d, None);
    case NewOutputDesc(d, k) => InRefs(c, k); CreateEffect(c, d, c.places[Current(k)]);
    case NewSurf(s) => NewSurfEffect(c, s);
    case Set(s, d) => SetEffect(c, s, d);
    case Unset(s) => ReleasePendingEffect(c, s);
    case CommitReq(s) => CommitEffect(c, s);
    case SurfGone(s) => SurfGoneEffect(c, s);
    case ResourceGone(d) => ResourceGoneEffect(c, d);
    case _ =>
  }

  lemma TurnsNewest(c: Colors, es: seq<Event>, e: Event, h: Colors, k: DescState)
    requires HasState(c, k) && ShowsNewest(c, es, k) && Turns(c, e, h, k) && Legal(c, e)
    ensures ShowsNewest(h, es + [e], k)
  {
    hide UpToDate, EverChanged;
    EverMore(es, e, k);
    if c.places[Pending(k)].Some? { NamedMore(es, e, k, c.places[Pending(k)].value); }
    if c.places[Current(k)].Some? { NamedMore(es, e, k, c.places[Current(k)].value); }
    if e.Answered? || e.ChangedEvent? { NamedMore(es, e, k, e.p); }
  }

  lemma NotStale(c: Colors, es: seq<Event>, k: DescState)
    requires HasState(c, k) && ShowsNewest(c, es, k)
    ensures !(c.dirty[k] && c.places[Pending(k)].None?)
  {
  }

  predicate ChangesKnown(c: Colors, es: seq<Event>) {
    forall m :: 0 <= m < |es| && es[m].ChangedEvent? ==> es[m].k in c.dirty
  }

  lemma NewStateNewest(c: Colors, es: seq<Event>, k: DescState)
    requires ChangesKnown(c, es) && k !in c.dirty
    ensures var h := c.(places := c.places[Current(k) := None][Pending(k) := None], dirty := c.dirty[k := false]);
            HasState(h, k) && ShowsNewest(h, es + [NewState(k)], k)
  {
    EverMore(es, NewState(k), k);
  }

  lemma ChangesKnownMore(c: Colors, es: seq<Event>, e: Event, h: Colors)
    requires ChangesKnown(c, es) && c.dirty.Keys <= h.dirty.Keys && (e.ChangedEvent? ==> e.k in c.dirty)
    ensures ChangesKnown(h, es + [e])
  {
  }

  /** In every run an output that is not waiting for an answer shows a property record that was asked for no earlier
      than the last change, and one that waits will: no change is lost, however the answers come. */
  lemma {:induction false} NoChangeLost(cs: seq<Colors>, es: seq<Event>, i: nat)
    requires IsRun(cs, es) && i <= |es|
    ensures AllShowNewest(cs[i], es[..i]) && ChangesKnown(cs[i], es[..i])
  {
    hide Inv, Step, Legal, ShowsNewest, Turns, ChangesKnown, HasState;
    if i == 0 {
      assert es[..0] == [];
      NothingShown(cs, es);
    } else {
      var j := i - 1;
      NoChangeLost(cs, es, j);
      RunSound(cs, es, j);
      var c, e, h := cs[j], es[j], cs[i];
      StepDirty(c, e);
      assert es[..i] == es[..j] + [e];
      forall k | k in h.dirty ensures HasState(h, k) && ShowsNewest(h, es[..i], k) {
        if k in c.dirty {
          NotStale(c, es[..j], k);
          StepTurns(c, e, k);
          TurnsNewest(c, es[..j], e, h, k);
          TurnsState(c, e, h, k);
        } else {
          NewStateNewest(c, es[..j], k);
          NewStateIs(c, k);
        }
      }
      ChangeLegal(c, e);
      ChangesKnownMore(c, es[..j], e, h);
    }
  }

  lemma TurnsState(c: Colors, e: Event, h: Colors, k: DescState)
    requires HasState(c, k) && Turns(c, e, h, k)
    ensures HasState(h, k)
  {
  }

  lemma NewStateIs(c: Colors, k: DescState)
    requires Inv(c) && Legal(c, NewState(k))
    ensures Step(c, NewState(k)) ==
            c.(places := c.places[Current(k) := None][Pending(k) := None], dirty := c.dirty[k := false])
  {
    hide Inv;
  }

  lemma ChangeLegal(c: Colors, e: Event)
    requires Legal(c, e)
    ensures e.ChangedEvent? ==> e.k in c.dirty
  {
  }

  lemma NothingShown(cs: seq<Colors>, es: seq<Event>)
    requires IsRun(cs, es)
    ensures |cs| > 0 && AllShowNewest(cs[0], []) && ChangesKnown(cs[0], [])
  {
  }
}
