/** Lifetimes of colour-management objects: image descriptions, held by their client resource and by
    the surfaces that list them as pending or committed, and the reference-counted property records
    that server-made descriptions share.  The records are only names here; ImageDescObjects runs the same
    steps on their fields. */
module ImageDescriptions {
  import opened Options
  import opened WlLists
  import opened Stacking
  import opened Linkage
  import opened ColorRecords

  type Desc = ImageDesc
  type Surf = ColorSurface
  type Props = Properties

  /** The two fields of an `image_description_state` that own a property record. */
  datatype Place = Current(state: DescState) | Pending(state: DescState)

  /** An upstream wp_image_description_v1: a client description's own, or a property record's. */
  datatype Upstream = OfClient(d: Desc) | OfProps(p: Props)

  datatype Colors = Colors(
    resource: map<Desc, bool>,
    props: map<Desc, Option<Props>>,
    pending: Links<Desc, Surf>,
    committed: Links<Desc, Surf>,
    refs: map<Props, nat>,
    places: map<Place, Option<Props>>,
    dirty: map<DescState, bool>,
    destroyed: seq<Upstream>)

  const EMPTY := Colors(map[], map[], Links(map[], map[]), Links(map[], map[]), map[], map[], map[], [])

  // ----- property records

  /** The reference-count half of `unref_image_description_props()`. */
  function Unref(refs: map<Props, nat>, p: Props): map<Props, nat>
    requires p in refs
  {
    if refs[p] > 1 then refs[p := refs[p] - 1] else refs - {p}
  }

  /** The upstream half: the record's description goes with its last reference. */
  function UnrefDestroys(refs: map<Props, nat>, p: Props): seq<Upstream>
    requires p in refs
  {
    if refs[p] > 1 then [] else [OfProps(p)]
  }

  function Sharers(props: map<Desc, Option<Props>>, p: Props): set<Desc> {
    set d | d in props && props[d] == Some(p)
  }

  predicate Held(places: map<Place, Option<Props>>, p: Props) {
    exists i :: i in places && places[i] == Some(p)
  }

  /** A count is one for the place that owns the record, if any, plus the descriptions sharing it. */
  predicate RefsOk(refs: map<Props, nat>, places: map<Place, Option<Props>>, props: map<Desc, Option<Props>>) {
    && (forall p :: p in refs ==>
          refs[p] > 0 && refs[p] == (if Held(places, p) then 1 else 0) + |Sharers(props, p)|)
    && (forall d :: d in props && props[d].Some? ==> props[d].value in refs)
    && (forall i :: i in places && places[i].Some? ==> places[i].value in refs)
    && (forall i, j :: i in places && j in places && places[i].Some? && places[i] == places[j] ==> i == j)
  }

  lemma SharersLess(props: map<Desc, Option<Props>>, d: Desc, p: Props)
    requires d in props
    ensures |Sharers(props - {d}, p)| == |Sharers(props, p)| - (if props[d] == Some(p) then 1 else 0)
  {
    assert Sharers(props - {d}, p) == Sharers(props, p) - {d};
  }

  lemma SharersMore(props: map<Desc, Option<Props>>, d: Desc, v: Option<Props>, p: Props)
    requires d !in props
    ensures |Sharers(props[d := v], p)| == |Sharers(props, p)| + (if v == Some(p) then 1 else 0)
  {
    assert Sharers(props[d := v], p) == Sharers(props, p) + (if v == Some(p) then {d} else {});
  }

  lemma NoSharers(props: map<Desc, Option<Props>>, p: Props)
    requires |Sharers(props, p)| == 0
    ensures forall d :: d in props ==> props[d] != Some(p)
  {
    forall d | d in props ensures props[d] != Some(p) {
      assert props[d] == Some(p) ==> d in Sharers(props, p);
    }
  }

  /** Dropping a description drops one reference of its record. */
  lemma UnrefDesc(refs: map<Props, nat>, places: map<Place, Option<Props>>, props: map<Desc, Option<Props>>, d: Desc, p: Props)
    requires RefsOk(refs, places, props) && d in props && props[d] == Some(p)
    ensures p in refs && RefsOk(Unref(refs, p), places, props - {d})
  {
    hide Sharers, Held;
    forall q: Props ensures |Sharers(props - {d}, q)| == |Sharers(props, q)| - (if q == p then 1 else 0) { SharersLess(props, d, q); }
    if refs[p] == 1 {
      Positive(props, d, p);
      NoSharers(props - {d}, p);
      NotHeld(places, p);
    }
  }

  lemma Positive(props: map<Desc, Option<Props>>, d: Desc, p: Props)
    requires d in props && props[d] == Some(p)
    ensures |Sharers(props, p)| > 0
  {
    assert d in Sharers(props, p);
  }

  lemma NotHeld(places: map<Place, Option<Props>>, p: Props)
    ensures !Held(places, p) <==> forall i :: i in places ==> places[i] != Some(p)
  {
  }

  /** Emptying a place drops the one reference it stood for. */
  lemma UnrefPlace(refs: map<Props, nat>, places: map<Place, Option<Props>>, props: map<Desc, Option<Props>>, i: Place, p: Props)
    requires RefsOk(refs, places, props) && i in places && places[i] == Some(p)
    ensures p in refs && RefsOk(Unref(refs, p), places[i := None], props)
  {
    var after := places[i := None];
    forall q: Props ensures Held(after, q) <==> Held(places, q) && q != p {
      if Held(places, q) && q != p {
        var j :| j in places && places[j] == Some(q);
        assert after[j] == Some(q);
      }
    }
    assert Held(places, p);
    hide Held, Sharers;
    if refs[p] == 1 { NoSharers(props, p); }
  }

  lemma RefDesc(refs: map<Props, nat>, places: map<Place, Option<Props>>, props: map<Desc, Option<Props>>, d: Desc, p: Props)
    requires RefsOk(refs, places, props) && d !in props && p in refs
    ensures RefsOk(refs[p := refs[p] + 1], places, props[d := Some(p)])
  {
    hide Sharers, Held;
    forall q: Props ensures |Sharers(props[d := Some(p)], q)| == |Sharers(props, q)| + (if q == p then 1 else 0) {
      SharersMore(props, d, Some(p), q);
    }
  }

  lemma ClientDesc(refs: map<Props, nat>, places: map<Place, Option<Props>>, props: map<Desc, Option<Props>>, d: Desc)
    requires RefsOk(refs, places, props)
    ensures d !in props ==> RefsOk(refs, places, props[d := None])
    ensures d in props && props[d].None? ==> RefsOk(refs, places, props - {d})
  {
    hide Sharers, Held;
    if d !in props {
      forall q: Props ensures |Sharers(props[d := None], q)| == |Sharers(props, q)| { SharersMore(props, d, None, q); }
    } else if props[d].None? {
      forall q: Props ensures |Sharers(props - {d}, q)| == |Sharers(props, q)| { SharersLess(props, d, q); }
    }
  }

  /** A new record starts with the one reference of the place that owns it. */
  lemma FillPlace(refs: map<Props, nat>, places: map<Place, Option<Props>>, props: map<Desc, Option<Props>>, i: Place, p: Props)
    requires RefsOk(refs, places, props) && i in places && places[i].None? && p !in refs
    ensures RefsOk(refs[p := 1], places[i := Some(p)], props)
  {
    var after := places[i := Some(p)];
    forall q: Props ensures Held(after, q) <==> Held(places, q) || q == p {
      if q == p { assert after[i] == Some(q); }
      if Held(places, q) {
        var j :| j in places && places[j] == Some(q);
        assert after[j] == Some(q);
      }
    }
    assert Sharers(props, p) == {};
    assert !Held(places, p);
    hide Held, Sharers;
  }

  /** The hand-over from pending to current. */
  lemma MovePlace(refs: map<Props, nat>, places: map<Place, Option<Props>>, props: map<Desc, Option<Props>>, i: Place, j: Place)
    requires RefsOk(refs, places, props) && i in places && j in places && i != j && places[i].None?
    ensures RefsOk(refs, places[i := places[j]][j := None], props)
  {
    var after := places[i := places[j]][j := None];
    forall q: Props ensures Held(after, q) <==> Held(places, q) {
      if Held(places, q) {
        var k :| k in places && places[k] == Some(q);
        assert after[if k == j then i else k] == Some(q);
      }
      if Held(after, q) {
        var k :| k in after && after[k] == Some(q);
        assert places[if k == i then j else k] == Some(q);
      }
    }
    hide Held, Sharers;
  }

  lemma NewPlace(refs: map<Props, nat>, places: map<Place, Option<Props>>, props: map<Desc, Option<Props>>, i: Place)
    requires RefsOk(refs, places, props) && i !in places
    ensures RefsOk(refs, places[i := None], props)
  {
    var after := places[i := None];
    forall q: Props ensures Held(after, q) <==> Held(places, q) {
      if Held(places, q) {
        var k :| k in places && places[k] == Some(q);
        assert after[k] == Some(q);
      }
    }
    hide Held, Sharers;
  }

  // ----- the handlers

  predicate KeysOk(c: Colors) {
    && c.props.Keys == c.resource.Keys && c.pending.lists.Keys == c.resource.Keys
    && c.committed.lists.Keys == c.resource.Keys && c.pending.of.Keys == c.committed.of.Keys
    && (forall d :: d in c.props && c.props[d].Some? ==> c.props[d].value in c.refs)
    && (forall s :: s in c.pending.of && c.pending.of[s].To? ==> c.pending.of[s].b in c.resource)
    && (forall s :: s in c.committed.of && c.committed.of[s].To? ==> c.committed.of[s].b in c.resource)
    && (forall i :: i in c.places && c.places[i].Some? ==> c.places[i].value in c.refs)
  }

  predicate Referenced(c: Colors, d: Desc)
    requires KeysOk(c) && d in c.resource
  {
    c.resource[d] || c.pending.lists[d] != [] || c.committed.lists[d] != []
  }

  /** `delete_image_desc_if_unreferenced()`. */
  function Delete(c: Colors, d: Desc): Colors
    requires KeysOk(c) && d in c.resource
  {
    if Referenced(c, d) then c
    else
      var p := c.props[d];
      c.(resource := c.resource - {d}, props := c.props - {d},
         pending := c.pending.(lists := c.pending.lists - {d}),
         committed := c.committed.(lists := c.committed.lists - {d}),
         refs := if p.Some? then Unref(c.refs, p.value) else c.refs,
         destroyed := c.destroyed + if p.Some? then UnrefDestroys(c.refs, p.value) else [OfClient(d)])
  }

  /** `create_forward_image_desc()` and `create_output_image_desc()`. */
  function CreateDesc(c: Colors, d: Desc, p: Option<Props>): Colors
    requires p.Some? ==> p.value in c.refs
  {
    c.(resource := c.resource[d := true], props := c.props[d := p],
       pending := c.pending.(lists := c.pending.lists[d := []]),
       committed := c.committed.(lists := c.committed.lists[d := []]),
       refs := if p.Some? then c.refs[p.value := c.refs[p.value] + 1] else c.refs)
  }

  /** Unlinking the pending description of a surface, and dropping it if that was its last use. */
  function ReleasePending(c: Colors, s: Surf): Colors
    requires KeysOk(c) && s in c.pending.of
  {
    var was := c.pending.of[s];
    var h := c.(pending := Detach(c.pending, s, Null));
    if was.To? then Delete(h, was.b) else h
  }

  function ReleaseCommitted(c: Colors, s: Surf): Colors
    requires KeysOk(c) && s in c.committed.of
  {
    var was := c.committed.of[s];
    var h := c.(committed := Detach(c.committed, s, Null));
    if was.To? then Delete(h, was.b) else h
  }

  /** `nested_color_surface_set_image_desc()`. */
  function SetDesc(c: Colors, s: Surf, d: Desc): Colors
    requires KeysOk(c) && s in c.pending.of && d in c.resource && c.resource[d]
  {
    var h := ReleasePending(c, s);
    h.(pending := LinkTo(h.pending, s, d))
  }

  /** The image-description part of `apply_pending_surface_updates()`. */
  function CommitDesc(c: Colors, s: Surf): Colors
    requires KeysOk(c) && s in c.pending.of
  {
    var v := c.pending.of[s];
    if c.committed.of[s] == v then c
    else
      var h := ReleaseCommitted(c, s);
      if v.To? && v.b in h.committed.lists then h.(committed := LinkTo(h.committed, s, v.b)) else h
  }

  /** `surface_handle_resource_destroy()`, the image-description part. */
  function DestroySurf(c: Colors, s: Surf): Colors
    requires KeysOk(c) && s in c.pending.of
  {
    var h := ReleasePending(c, s);
    if !KeysOk(h) || s !in h.committed.of then h
    else
      var i := ReleaseCommitted(h, s);
      i.(pending := i.pending.(of := i.pending.of - {s}), committed := i.committed.(of := i.committed.of - {s}))
  }

  /** `image_desc_handle_resource_destroy()`. */
  function DestroyResource(c: Colors, d: Desc): Colors
    requires KeysOk(c) && d in c.resource
  {
    Delete(c.(resource := c.resource[d := false]), d)
  }

  predicate HasState(c: Colors, k: DescState) {
    Current(k) in c.places && Pending(k) in c.places && k in c.dirty
  }

  /** `request_new_image_desc()`. */
  function Request(c: Colors, k: DescState, p: Props): Colors {
    c.(refs := c.refs[p := 1], places := c.places[Pending(k) := Some(p)], dirty := c.dirty[k := false])
  }

  /** `image_description_changed`: wait for the pending request, or start one. */
  function Changed(c: Colors, k: DescState, p: Props): Colors
    requires HasState(c, k)
  {
    if c.places[Pending(k)].Some? then c.(dirty := c.dirty[k := true]) else Request(c, k, p)
  }

  /** `image_desc_info_handle_done()` and `image_desc_handle_failed()`. */
  function Handover(c: Colors, k: DescState, p: Props): Colors
    requires HasState(c, k) && KeysOk(c)
  {
    var was := c.places[Current(k)];
    var h := c.(refs := if was.Some? then Unref(c.refs, was.value) else c.refs,
                destroyed := c.destroyed + if was.Some? then UnrefDestroys(c.refs, was.value) else [],
                places := c.places[Current(k) := c.places[Pending(k)]][Pending(k) := None]);
    if c.dirty[k] then Request(h, k, p) else h
  }

  // Unlinking keeps the lists and fields known.

  lemma ReleaseKeys(c: Colors, s: Surf)
    requires KeysOk(c) && s in c.pending.of
    ensures KeysOk(c.(pending := Detach(c.pending, s, Null)))
  {
    hide Drop;
  }

  lemma ReleaseCommittedKeys(c: Colors, s: Surf)
    requires KeysOk(c) && s in c.committed.of
    ensures KeysOk(c.(committed := Detach(c.committed, s, Null)))
  {
    hide Drop;
  }

  lemma UnresourcedKeys(c: Colors, d: Desc)
    requires KeysOk(c) && d in c.resource
    ensures KeysOk(c.(resource := c.resource[d := false]))
  {
    assert c.resource[d := false].Keys == c.resource.Keys;
  }

  lemma NamedKnown(c: Colors, s: Surf)
    requires KeysOk(c) && s in c.pending.of
    ensures s in c.committed.of
    ensures c.pending.of[s].To? ==> c.pending.of[s].b in c.resource
    ensures c.committed.of[s].To? ==> c.committed.of[s].b in c.resource
  {
  }

  // ----- the invariant

  ghost predicate Alive(resource: map<Desc, bool>, pending: map<Desc, seq<Surf>>, committed: map<Desc, seq<Surf>>) {
    && pending.Keys == resource.Keys && committed.Keys == resource.Keys
    && forall d :: d in resource ==> resource[d] || pending[d] != [] || committed[d] != []
  }

  ghost predicate Plain(of: map<Surf, Attachment<Desc>>) {
    forall s :: s in of ==> of[s].Null? || of[s].To?
  }

  /** Upstream objects destroyed are all different, and none is in use. */
  ghost predicate Gone(destroyed: seq<Upstream>, resource: map<Desc, bool>, refs: map<Props, nat>) {
    && Distinct(destroyed)
    && forall u :: u in destroyed ==> match u case OfClient(d) => d !in resource case OfProps(p) => p !in refs
  }

  ghost predicate Links2(c: Colors) {
    && Agree(c.pending) && Agree(c.committed) && Plain(c.pending.of) && Plain(c.committed.of)
    && c.pending.of.Keys == c.committed.of.Keys
  }

  /** A description is live exactly while its resource or a surface that lists it is; every count is
      right; and what has been destroyed upstream is gone for good. */
  ghost predicate Inv(c: Colors) {
    && Links2(c)
    && Alive(c.resource, c.pending.lists, c.committed.lists)
    && c.props.Keys == c.resource.Keys
    && RefsOk(c.refs, c.places, c.props)
    && Gone(c.destroyed, c.resource, c.refs)
  }

  lemma InvKeys(c: Colors)
    requires Inv(c)
    ensures KeysOk(c)
  {
    hide Distinct;
  }

  /** What holds while description d may have lost its last use. */
  ghost predicate InvBut(c: Colors, d: Desc) {
    && Links2(c) && d in c.resource
    && Alive(c.resource[d := true], c.pending.lists, c.committed.lists)
    && c.props.Keys == c.resource.Keys
    && RefsOk(c.refs, c.places, c.props)
    && Gone(c.destroyed, c.resource, c.refs)
  }

  lemma DeleteKeeps(c: Colors, d: Desc)
    requires InvBut(c, d)
    ensures KeysOk(c) && Inv(Delete(c, d))
    ensures forall x :: x in Delete(c, d).resource ==> x in c.resource && Delete(c, d).resource[x] == c.resource[x]
    ensures forall x :: x in c.resource && (x != d || Referenced(c, d)) ==> x in Delete(c, d).resource
    ensures Delete(c, d).pending.of == c.pending.of && Delete(c, d).committed.of == c.committed.of
  {
    ButKeys(c, d);
    if Referenced(c, d) {
      StillAlive(c.resource, c.pending.lists, c.committed.lists, d);
    } else {
      FreeAgrees(c.pending, d);
      FreeAgrees(c.committed, d);
      DeadAlive(c.resource, c.pending.lists, c.committed.lists, d);
      var p := c.props[d];
      if p.Some? {
        UnrefDesc(c.refs, c.places, c.props, d, p.value);
        GoneUnref(c.destroyed, c.resource, c.refs, p.value);
        GoneDrop(c.destroyed + UnrefDestroys(c.refs, p.value), c.resource, Unref(c.refs, p.value), d);
      } else {
        ClientDesc(c.refs, c.places, c.props, d);
        GoneClient(c.destroyed, c.resource, c.refs, d);
      }
      hide Agree, Alive, RefsOk, Gone, Plain, Unref, UnrefDestroys, KeysOk;
    }
  }

  lemma ButKeys(c: Colors, d: Desc)
    requires InvBut(c, d)
    ensures KeysOk(c)
  {
    hide Distinct;
  }

  lemma StillAlive(resource: map<Desc, bool>, pending: map<Desc, seq<Surf>>, committed: map<Desc, seq<Surf>>, d: Desc)
    requires d in resource && Alive(resource[d := true], pending, committed)
    ensures pending.Keys == resource.Keys == committed.Keys
    ensures Alive(resource, pending, committed) <==> resource[d] || pending[d] != [] || committed[d] != []
  {
  }

  lemma DeadAlive(resource: map<Desc, bool>, pending: map<Desc, seq<Surf>>, committed: map<Desc, seq<Surf>>, d: Desc)
    requires d in resource && Alive(resource[d := true], pending, committed)
    ensures Alive(resource - {d}, pending - {d}, committed - {d})
  {
  }

  lemma GoneDrop(destroyed: seq<Upstream>, resource: map<Desc, bool>, refs: map<Props, nat>, d: Desc)
    requires Gone(destroyed, resource, refs)
    ensures Gone(destroyed, resource - {d}, refs)
  {
    hide Distinct;
  }

  lemma GoneUnref(destroyed: seq<Upstream>, resource: map<Desc, bool>, refs: map<Props, nat>, p: Props)
    requires Gone(destroyed, resource, refs) && p in refs
    ensures Gone(destroyed + UnrefDestroys(refs, p), resource, Unref(refs, p))
  {
    if refs[p] <= 1 { AppendDistinct(destroyed, OfProps(p)); }
    hide Distinct;
  }

  lemma GoneClient(destroyed: seq<Upstream>, resource: map<Desc, bool>, refs: map<Props, nat>, d: Desc)
    requires Gone(destroyed, resource, refs) && d in resource
    ensures Gone(destroyed + [OfClient(d)], resource - {d}, refs)
  {
    AppendDistinct(destroyed, OfClient(d));
    hide Distinct;
  }

  lemma PlainSet(of: map<Surf, Attachment<Desc>>, s: Surf, a: Attachment<Desc>)
    requires Plain(of) && (a.Null? || a.To?)
    ensures Plain(of[s := a])
  {
  }

  lemma AliveShrink(resource: map<Desc, bool>, pending: map<Desc, seq<Surf>>, committed: map<Desc, seq<Surf>>, d: Desc, list: seq<Surf>)
    requires Alive(resource, pending, committed) && d in resource
    ensures Alive(resource[d := true], pending[d := list], committed)
    ensures Alive(resource[d := true], pending, committed[d := list])
    ensures list != [] ==> Alive(resource, pending[d := list], committed) && Alive(resource, pending, committed[d := list])
    ensures Alive(resource[d := false][d := true], pending, committed)
  {
    assert resource[d := false][d := true] == resource[d := true];
  }

  lemma ReleasePendingKeeps(c: Colors, s: Surf)
    requires Inv(c) && s in c.pending.of
    ensures KeysOk(c)
    ensures var h := ReleasePending(c, s);
            && Inv(h) && h.pending.of == c.pending.of[s := Null] && h.committed.of == c.committed.of
            && (forall x :: x in c.resource && c.resource[x] ==> x in h.resource && h.resource[x])
  {
    InvKeys(c);
    DetachAgrees(c.pending, s, Null);
    DetachFacts(c.pending, s, Null);
    PlainSet(c.pending.of, s, Null);
    var was, h := c.pending.of[s], c.(pending := Detach(c.pending, s, Null));
    hide Agree, RefsOk, Gone, Plain, Drop;
    if was.To? {
      assert h.pending.lists == c.pending.lists[was.b := h.pending.lists[was.b]];
      AliveShrink(c.resource, c.pending.lists, c.committed.lists, was.b, h.pending.lists[was.b]);
      hide Alive, Detach, Delete, KeysOk;
      DeleteKeeps(h, was.b);
    }
  }

  lemma ReleaseCommittedKeeps(c: Colors, s: Surf)
    requires Inv(c) && s in c.pending.of
    ensures KeysOk(c) && s in c.committed.of
    ensures var h := ReleaseCommitted(c, s);
            && Inv(h) && h.committed.of == c.committed.of[s := Null] && h.pending.of == c.pending.of
            && (forall x: Desc :: x in c.resource && c.committed.of[s] != To(x) ==> x in h.resource && h.resource[x] == c.resource[x])
  {
    InvKeys(c);
    DetachAgrees(c.committed, s, Null);
    DetachFacts(c.committed, s, Null);
    PlainSet(c.committed.of, s, Null);
    var was, h := c.committed.of[s], c.(committed := Detach(c.committed, s, Null));
    hide Agree, RefsOk, Gone, Plain, Drop;
    if was.To? {
      assert h.committed.lists == c.committed.lists[was.b := h.committed.lists[was.b]];
      AliveShrink(c.resource, c.pending.lists, c.committed.lists, was.b, h.committed.lists[was.b]);
      hide Alive, Detach, Delete, KeysOk;
      DeleteKeeps(h, was.b);
    }
  }

  lemma AliveKeys(c: Colors)
    requires Inv(c)
    ensures c.pending.lists.Keys == c.resource.Keys == c.committed.lists.Keys && c.pending.of.Keys == c.committed.of.Keys
  {
  }

  lemma LinkPendingKeeps(c: Colors, s: Surf, d: Desc)
    requires Inv(c) && s in c.pending.of && c.pending.of[s].Null? && d in c.resource
    ensures d in c.pending.lists && Inv(c.(pending := LinkTo(c.pending, s, d)))
  {
    hide Agree, RefsOk, Gone, Plain;
    AliveKeys(c);
    LinkAgrees(c.pending, s, d);
    PlainSet(c.pending.of, s, To(d));
    AliveShrink(c.resource, c.pending.lists, c.committed.lists, d, [s] + c.pending.lists[d]);
    hide Alive;
  }

  lemma SetDescKeeps(c: Colors, s: Surf, d: Desc)
    requires Inv(c) && s in c.pending.of && d in c.resource && c.resource[d]
    ensures KeysOk(c) && Inv(SetDesc(c, s, d))
  {
    hide Agree, RefsOk, Gone, Plain, Alive, KeysOk, ReleasePending;
    ReleasePendingKeeps(c, s);
    var h := ReleasePending(c, s);
    LinkPendingKeeps(h, s, d);
  }

  lemma UnsetDescKeeps(c: Colors, s: Surf)
    requires Inv(c) && s in c.pending.of
    ensures KeysOk(c) && Inv(ReleasePending(c, s))
  {
    ReleasePendingKeeps(c, s);
  }

  lemma PendingStays(c: Colors, s: Surf)
    requires Inv(c) && s in c.pending.of && c.pending.of[s].To?
    ensures c.pending.of[s].b in c.resource
  {
    InvKeys(c);
  }

  lemma LinkCommittedKeeps(c: Colors, s: Surf, d: Desc)
    requires Inv(c) && s in c.committed.of && c.committed.of[s].Null? && d in c.resource
    ensures d in c.committed.lists && Inv(c.(committed := LinkTo(c.committed, s, d)))
  {
    AliveKeys(c);
    LinkAgrees(c.committed, s, d);
    PlainSet(c.committed.of, s, To(d));
    AliveShrink(c.resource, c.pending.lists, c.committed.lists, d, [s] + c.committed.lists[d]);
    hide Agree, RefsOk, Gone, Plain, Alive;
  }

  lemma CommitDescKeeps(c: Colors, s: Surf)
    requires Inv(c) && s in c.pending.of
    ensures KeysOk(c) && Inv(CommitDesc(c, s))
    ensures s in CommitDesc(c, s).committed.of && CommitDesc(c, s).committed.of[s] == c.pending.of[s]
    ensures CommitDesc(c, s).pending.of == c.pending.of
  {
    ReleaseCommittedKeeps(c, s);
    var v := c.pending.of[s];
    if c.committed.of[s] != v {
      var h := ReleaseCommitted(c, s);
      if v.To? {
        PendingStays(c, s);
        hide Inv, ReleaseCommitted, KeysOk;
        LinkCommittedKeeps(h, s, v.b);
      } else {
        assert v.Null?;
        hide Inv, ReleaseCommitted, KeysOk;
      }
    }
  }

  lemma DestroySurfKeeps(c: Colors, s: Surf)
    requires Inv(c) && s in c.pending.of
    ensures KeysOk(c) && Inv(DestroySurf(c, s))
  {
    ReleasePendingKeeps(c, s);
    var h := ReleasePending(c, s);
    ReleaseCommittedKeeps(h, s);
    var i := ReleaseCommitted(h, s);
    hide ReleasePending, ReleaseCommitted, KeysOk;
    ForgetAgrees(i.pending, s);
    ForgetAgrees(i.committed, s);
    PlainForget(i.pending.of, s);
    PlainForget(i.committed.of, s);
    AliveKeys(i);
    hide Agree, RefsOk, Gone, Plain, Alive;
  }

  lemma PlainForget(of: map<Surf, Attachment<Desc>>, s: Surf)
    requires Plain(of)
    ensures Plain(of - {s})
  {
  }

  lemma NotDestroyed(destroyed: seq<Upstream>, resource: map<Desc, bool>, refs: map<Props, nat>, d: Desc)
    requires Gone(destroyed, resource, refs) && d in resource
    ensures OfClient(d) !in destroyed
  {
  }

  lemma DestroyResourceKeeps(c: Colors, d: Desc)
    requires Inv(c) && d in c.resource
    ensures KeysOk(c) && Inv(DestroyResource(c, d))
  {
    hide Agree, RefsOk, Gone, Plain, Alive, Delete;
    InvKeys(c);
    NotDestroyed(c.destroyed, c.resource, c.refs, d);
    var h := c.(resource := c.resource[d := false]);
    AliveShrink(c.resource, c.pending.lists, c.committed.lists, d, []);
    GoneSame(c.destroyed, c.resource, c.refs, d, false);
    DeleteKeeps(h, d);
  }

  lemma GoneSame(destroyed: seq<Upstream>, resource: map<Desc, bool>, refs: map<Props, nat>, d: Desc, v: bool)
    requires Gone(destroyed, resource, refs) && OfClient(d) !in destroyed
    ensures Gone(destroyed, resource[d := v], refs)
  {
  }

  lemma CreateDescKeeps(c: Colors, d: Desc, p: Option<Props>)
    requires Inv(c) && d !in c.resource && OfClient(d) !in c.destroyed
    requires p.Some? ==> p.value in c.refs
    ensures Inv(CreateDesc(c, d, p))
  {
    hide Agree, RefsOk, Gone, Plain, Alive;
    AliveKeys(c);
    NewList(c.pending, d);
    NewList(c.committed, d);
    NewAlive(c.resource, c.pending.lists, c.committed.lists, d);
    GoneSame(c.destroyed, c.resource, c.refs, d, true);
    if p.Some? {
      RefDesc(c.refs, c.places, c.props, d, p.value);
      GoneRefs(c.destroyed, c.resource[d := true], c.refs, p.value, c.refs[p.value] + 1);
    } else {
      ClientDesc(c.refs, c.places, c.props, d);
    }
  }

  lemma GoneRefs(destroyed: seq<Upstream>, resource: map<Desc, bool>, refs: map<Props, nat>, p: Props, n: nat)
    requires Gone(destroyed, resource, refs) && p in refs
    ensures Gone(destroyed, resource, refs[p := n])
  {
  }

  lemma NewAlive(resource: map<Desc, bool>, pending: map<Desc, seq<Surf>>, committed: map<Desc, seq<Surf>>, d: Desc)
    requires Alive(resource, pending, committed)
    ensures Alive(resource[d := true], pending[d := []], committed[d := []])
  {
  }

  lemma RequestKeeps(c: Colors, k: DescState, p: Props)
    requires Inv(c) && Pending(k) in c.places && c.places[Pending(k)].None?
    requires p !in c.refs && OfProps(p) !in c.destroyed
    ensures Inv(Request(c, k, p))
  {
    FillPlace(c.refs, c.places, c.props, Pending(k), p);
    GoneNew(c.destroyed, c.resource, c.refs, p);
    hide Agree, RefsOk, Gone, Plain, Alive;
  }

  lemma GoneNew(destroyed: seq<Upstream>, resource: map<Desc, bool>, refs: map<Props, nat>, p: Props)
    requires Gone(destroyed, resource, refs) && OfProps(p) !in destroyed
    ensures Gone(destroyed, resource, refs[p := 1])
  {
  }

  lemma HandoverKeeps(c: Colors, k: DescState, p: Props)
    requires Inv(c) && HasState(c, k) && p !in c.refs && OfProps(p) !in c.destroyed
    ensures KeysOk(c) && Inv(Handover(c, k, p))
    ensures Handover(c, k, p).places[Current(k)] == c.places[Pending(k)]
  {
    hide Agree, Plain, RefsOk, Gone, Alive, Unref, UnrefDestroys, KeysOk, Request;
    InvKeys(c);
    DropKeeps(c, k);
    var h := Dropped(c, k);
    var moved := Moved(h, k);
    MovedKeeps(h, k);
    HandoverIs(c, k, p);
    if c.dirty[k] {
      DroppedRefs(c, k, p);
      RequestKeeps(moved, k, p);
      RequestPlaces(moved, k, p);
    }
  }

  /** The current record loses its place. */
  function Dropped(c: Colors, k: DescState): Colors
    requires HasState(c, k) && KeysOk(c)
  {
    var was := c.places[Current(k)];
    if was.None? then c
    else c.(refs := Unref(c.refs, was.value), destroyed := c.destroyed + UnrefDestroys(c.refs, was.value),
            places := c.places[Current(k) := None])
  }

  function Moved(c: Colors, k: DescState): Colors
    requires HasState(c, k)
  {
    c.(places := c.places[Current(k) := c.places[Pending(k)]][Pending(k) := None])
  }

  lemma DropKeeps(c: Colors, k: DescState)
    requires Inv(c) && HasState(c, k)
    ensures KeysOk(c) && Inv(Dropped(c, k)) && HasState(Dropped(c, k), k)
    ensures Dropped(c, k).places == c.places[Current(k) := None]
  {
    hide Agree, Plain, RefsOk, Gone, Alive, Unref, UnrefDestroys, KeysOk;
    InvKeys(c);
    var was := c.places[Current(k)];
    if was.Some? {
      UnrefPlace(c.refs, c.places, c.props, Current(k), was.value);
      GoneUnref(c.destroyed, c.resource, c.refs, was.value);
    } else {
      assert c.places[Current(k) := None] == c.places;
    }
  }

  lemma MovedKeeps(c: Colors, k: DescState)
    requires Inv(c) && HasState(c, k) && c.places[Current(k)].None?
    ensures Inv(Moved(c, k))
  {
    hide Agree, Plain, RefsOk, Gone, Alive;
    MovePlace(c.refs, c.places, c.props, Current(k), Pending(k));
  }

  lemma HandoverIs(c: Colors, k: DescState, p: Props)
    requires Inv(c) && HasState(c, k)
    ensures KeysOk(c) && HasState(Dropped(c, k), k)
    ensures var h := Moved(Dropped(c, k), k);
            Handover(c, k, p) == (if c.dirty[k] then Request(h, k, p) else h)
            && h.places[Current(k)] == c.places[Pending(k)] && h.places[Pending(k)] == None
  {
    hide Inv, Unref, UnrefDestroys, KeysOk, Request;
    InvKeys(c);
    assert c.places[Current(k) := None][Current(k) := c.places[Pending(k)]] == c.places[Current(k) := c.places[Pending(k)]];
    assert c.places[Current(k)].None? ==> c.places[Current(k) := None] == c.places && c.destroyed + [] == c.destroyed;
  }

  lemma DroppedRefs(c: Colors, k: DescState, p: Props)
    requires KeysOk(c) && HasState(c, k) && p !in c.refs && OfProps(p) !in c.destroyed
    ensures p !in Dropped(c, k).refs && OfProps(p) !in Dropped(c, k).destroyed
  {
    hide Unref, UnrefDestroys;
    var was := c.places[Current(k)];
    if was.Some? { DroppedOne(c.destroyed, c.refs, was.value, p); }
  }

  lemma RequestPlaces(c: Colors, k: DescState, p: Props)
    ensures Request(c, k, p).places == c.places[Pending(k) := Some(p)]
  {
  }

  lemma DroppedOne(destroyed: seq<Upstream>, refs: map<Props, nat>, q: Props, p: Props)
    requires q in refs && p !in refs && OfProps(p) !in destroyed
    ensures p !in Unref(refs, q) && OfProps(p) !in destroyed + UnrefDestroys(refs, q)
  {
  }
}
