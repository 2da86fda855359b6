/** The colour-management handlers on the program's own records, each proved to take the step that
    ImageDescriptions specifies. */
module ImageDescObjects {
  import opened Options
  import WlLists
  import opened Stacking
  import opened Linkage
  import opened ColorRecords
  import opened ImageDescriptions

  function Maybe(p: Properties?): Option<Props> {
    if p == null then None else var x: Props := p; Some(x)
  }

  function Named(d: ImageDesc?): Attachment<Desc> {
    if d == null then Null else var x: Desc := d; To(x)
  }

  function PlacesOf(states: set<DescState>): set<Place> {
    (set k | k in states :: Current(k)) + (set k | k in states :: Pending(k))
  }

  /** The live records, and the upstream objects destroyed so far. */
  class ColorForwarder {
    ghost var descs: set<ImageDesc>
    ghost var surfaces: set<ColorSurface>
    ghost var records: set<Properties>
    ghost var states: set<DescState>
    ghost var destroyed: seq<Upstream>

    constructor ()
      ensures View() == EMPTY
    {
      descs, surfaces, records, states, destroyed := {}, {}, {}, {}, [];
    }

    // One table for each field of a record, so that an assignment changes one table.

    ghost function Resources(): map<Desc, bool>
      reads this`descs, descs`resource
    {
      map d | d in descs :: d.resource
    }

    ghost function PropsOf(): map<Desc, Option<Props>>
      reads this`descs, descs`properties
    {
      map d | d in descs :: Maybe(d.properties)
    }

    ghost function PendingLists(): map<Desc, seq<Surf>>
      reads this`descs, descs`pendingSurfaces
    {
      map d | d in descs :: d.pendingSurfaces
    }

    ghost function CommittedLists(): map<Desc, seq<Surf>>
      reads this`descs, descs`committedSurfaces
    {
      map d | d in descs :: d.committedSurfaces
    }

    ghost function PendingOf(): map<Surf, Attachment<Desc>>
      reads this`surfaces, surfaces`pending
    {
      map s | s in surfaces :: Named(s.pending)
    }

    ghost function CommittedOf(): map<Surf, Attachment<Desc>>
      reads this`surfaces, surfaces`committed
    {
      map s | s in surfaces :: Named(s.committed)
    }

    ghost function Counts(): map<Props, nat>
      reads this`records, records`referenceCount
    {
      map p | p in records :: p.referenceCount
    }

    ghost function Places(): map<Place, Option<Props>>
      reads this`states, states`current, states`pending
    {
      map i | i in PlacesOf(states) :: Maybe(if i.Current? then i.state.current else i.state.pending)
    }

    ghost function DirtyFlags(): map<DescState, bool>
      reads this`states, states`dirty
    {
      map k | k in states :: k.dirty
    }

    ghost function View(): Colors
      reads this, descs, surfaces, records, states
    {
      Colors(Resources(), PropsOf(), Links(PendingLists(), PendingOf()), Links(CommittedLists(), CommittedOf()),
             Counts(), Places(), DirtyFlags(), destroyed)
    }

    // ----- single fields

    ghost method ForgetRecord(p: Properties)
      modifies this`records
      ensures records == old(records) - {p} && Counts() == old(Counts()) - {p}
    {
      records := records - {p};
    }

    method Count(p: Properties, n: nat)
      requires p in records
      modifies p`referenceCount
      ensures p.referenceCount == n && Counts() == old(Counts())[p := n]
    {
      p.referenceCount := n;
    }

    ghost method ForgetDesc(d: ImageDesc)
      modifies this`descs
      ensures descs == old(descs) - {d}
      ensures Resources() == old(Resources()) - {d} && PropsOf() == old(PropsOf()) - {d}
      ensures PendingLists() == old(PendingLists()) - {d} && CommittedLists() == old(CommittedLists()) - {d}
    {
      descs := descs - {d};
    }

    method ListPending(d: ImageDesc, list: seq<ColorSurface>)
      requires d in descs
      modifies d`pendingSurfaces
      ensures d.pendingSurfaces == list && PendingLists() == old(PendingLists())[d := list]
    {
      d.pendingSurfaces := list;
    }

    method ListCommitted(d: ImageDesc, list: seq<ColorSurface>)
      requires d in descs
      modifies d`committedSurfaces
      ensures CommittedLists() == old(CommittedLists())[d := list]
    {
      d.committedSurfaces := list;
    }

    method NamePending(s: ColorSurface, d: ImageDesc?)
      requires s in surfaces
      modifies s`pending
      ensures s.pending == d && PendingOf() == old(PendingOf())[s := Named(d)]
    {
      s.pending := d;
    }

    method NameCommitted(s: ColorSurface, d: ImageDesc?)
      requires s in surfaces
      modifies s`committed
      ensures s.committed == d && CommittedOf() == old(CommittedOf())[s := Named(d)]
    {
      s.committed := d;
    }

    method MarkResource(d: ImageDesc, alive: bool)
      requires d in descs
      modifies d`resource
      ensures Resources() == old(Resources())[d := alive]
    {
      d.resource := alive;
    }

    method PlaceCurrent(k: DescState, p: Properties?)
      requires k in states
      modifies k`current
      ensures k.current == p && Places() == old(Places())[Current(k) := Maybe(p)]
    {
      k.current := p;
      assert Current(k) in PlacesOf(states);
    }

    method PlacePending(k: DescState, p: Properties?)
      requires k in states
      modifies k`pending
      ensures k.pending == p && Places() == old(Places())[Pending(k) := Maybe(p)]
    {
      k.pending := p;
      assert Pending(k) in PlacesOf(states);
    }

    method MarkDirty(k: DescState, flag: bool)
      requires k in states
      modifies k`dirty
      ensures DirtyFlags() == old(DirtyFlags())[k := flag]
    {
      k.dirty := flag;
    }

    // ----- what the tables say of one record

    lemma DescFields(d: ImageDesc)
      requires d in descs
      ensures d in View().resource && View().resource[d] == d.resource
      ensures d in View().props && View().props[d] == Maybe(d.properties)
      ensures d in View().pending.lists && View().pending.lists[d] == d.pendingSurfaces
      ensures d in View().committed.lists && View().committed.lists[d] == d.committedSurfaces
    {
    }

    lemma SurfaceFields(s: ColorSurface)
      requires s in surfaces
      ensures s in View().pending.of && View().pending.of[s] == Named(s.pending)
      ensures s in View().committed.of && View().committed.of[s] == Named(s.committed)
    {
    }

    lemma StateFields(k: DescState)
      requires k in states
      ensures HasState(View(), k) && View().dirty[k] == k.dirty
      ensures View().places[Current(k)] == Maybe(k.current) && View().places[Pending(k)] == Maybe(k.pending)
    {
      assert Current(k) in PlacesOf(states) && Pending(k) in PlacesOf(states);
    }

    lemma Keys()
      ensures View().resource.Keys == descs && View().refs.Keys == records
      ensures forall p: Properties :: p in records ==> View().refs[p] == p.referenceCount
    {
    }

    // ----- the handlers

    /** `unref_image_description_props()`. */
    method UnrefProps(p: Properties)
      requires p in records && p.referenceCount > 0
      modifies p`referenceCount, this`records, this`destroyed
      ensures records <= old(records) && p in old(Counts()) && Counts() == Unref(old(Counts()), p)
      ensures destroyed == old(destroyed) + UnrefDestroys(old(Counts()), p)
    {
      ghost var counts := Counts();
      assert p in counts && counts[p] == p.referenceCount;
      hide Counts;
      Count(p, p.referenceCount - 1);
      if p.referenceCount > 0 {
        return;
      }
      destroyed := destroyed + [OfProps(p)];
      ForgetRecord(p);
      assert counts[p := 0] - {p} == counts - {p};
    }

    /** `delete_image_desc_if_unreferenced()`. */
    method DeleteIfUnreferenced(d: ImageDesc)
      requires KeysOk(View()) && d in descs && LiveProps(d)
      modifies this`descs, this`records, this`destroyed, records`referenceCount
      ensures d in old(View()).resource && View() == Delete(old(View()), d)
      ensures descs <= old(descs) && records <= old(records)
    {
      hide Resources, PropsOf, PendingLists, CommittedLists, PendingOf, CommittedOf, Counts, Places, DirtyFlags;
      hide KeysOk, Unref, UnrefDestroys;
      DescFields(d);
      if d.resource {
        return;
      }
      if d.committedSurfaces != [] || d.pendingSurfaces != [] {
        return;
      }
      if d.properties != null {
        UnrefProps(d.properties);
      } else {
        destroyed := destroyed + [OfClient(d)];
      }
      ForgetDesc(d);
    }

    /** What the invariant says of the record that a surface names. */
    lemma NamedLive(c: Colors, s: ColorSurface)
      requires c == View() && Inv(c) && s in surfaces
      ensures KeysOk(c) && s in c.pending.of && s in c.committed.of
      ensures s.pending != null ==> s.pending in descs && LiveProps(s.pending)
      ensures s.committed != null ==> s.committed in descs && LiveProps(s.committed)
    {
      InvKeys(c);
      SurfaceFields(s);
      Keys();
      hide View, Inv;
      if s.pending != null { PropsLive(c, s.pending); }
      if s.committed != null { PropsLive(c, s.committed); }
    }

    ghost predicate LiveProps(d: ImageDesc)
      reads this`records, d`properties, records`referenceCount
    {
      d.properties != null ==> d.properties in records && d.properties.referenceCount > 0
    }

    lemma PropsLive(c: Colors, d: ImageDesc)
      requires c == View() && Inv(c)
      ensures d in c.resource ==> d in descs && LiveProps(d)
    {
      Keys();
      if d in descs && d.properties != null {
        DescFields(d);
        hide View;
        CountsPositive(c, d);
      }
    }

    /** wl_list_remove() of a surface's pending link. */
    method UnlinkPending(s: ColorSurface, d: ImageDesc)
      requires s in surfaces && d in descs && s.pending == d
      modifies s`pending, d`pendingSurfaces
      ensures s in old(View()).pending.of
      ensures View() == old(View()).(pending := Detach(old(View()).pending, s, Null)) && s.pending == null
    {
      hide Resources, PropsOf, PendingLists, CommittedLists, PendingOf, CommittedOf, Counts, Places, DirtyFlags;
      SurfaceFields(s);
      DescFields(d);
      ListPending(d, Drop(d.pendingSurfaces, s));
      NamePending(s, null);
    }

    /** wl_list_remove() of a surface's committed link. */
    method UnlinkCommitted(s: ColorSurface, d: ImageDesc)
      requires s in surfaces && d in descs && s.committed == d
      modifies s`committed, d`committedSurfaces
      ensures s in old(View()).committed.of
      ensures View() == old(View()).(committed := Detach(old(View()).committed, s, Null)) && s.committed == null
    {
      hide Resources, PropsOf, PendingLists, CommittedLists, PendingOf, CommittedOf, Counts, Places, DirtyFlags;
      SurfaceFields(s);
      DescFields(d);
      ListCommitted(d, Drop(d.committedSurfaces, s));
      NameCommitted(s, null);
    }

    /** What the release of a pending description relies on. */
    lemma ReleasePendingFacts(c: Colors, s: ColorSurface)
      requires c == View() && Inv(c) && s in surfaces
      ensures KeysOk(c) && s in c.pending.of && c.pending.of[s] == Named(s.pending)
      ensures if s.pending == null then ReleasePending(c, s) == c
              else
                && s.pending in descs && LiveProps(s.pending) && KeysOk(c.(pending := Detach(c.pending, s, Null)))
                && s.pending in c.resource
                && ReleasePending(c, s) == Delete(c.(pending := Detach(c.pending, s, Null)), s.pending)
    {
      NamedLive(c, s);
      SurfaceFields(s);
      Keys();
      ReleaseKeys(c, s);
      hide View, Inv, KeysOk, Delete, Detach, LiveProps;
      if s.pending == null { DetachNothing(c.pending, s); }
    }

    /** The pending description of a surface is unlinked, and deleted if that was its last use. */
    method ReleasePendingDesc(s: ColorSurface)
      requires Inv(View()) && s in surfaces
      modifies this`descs, this`records, this`destroyed, records`referenceCount, s`pending, descs`pendingSurfaces
      ensures KeysOk(old(View())) && s in old(View()).pending.of && View() == ReleasePending(old(View()), s)
      ensures s.pending == null && descs <= old(descs) && records <= old(records)
    {
      hide View, Inv, KeysOk, Delete, Detach, LiveProps;
      ghost var c := View();
      ReleasePendingFacts(c, s);
      var was := s.pending;
      if was != null {
        UnlinkPending(s, was);
        DeleteIfUnreferenced(was);
      }
    }

    /** What the release of a committed description relies on. */
    lemma ReleaseCommittedFacts(c: Colors, s: ColorSurface)
      requires c == View() && Inv(c) && s in surfaces
      ensures KeysOk(c) && s in c.committed.of && c.committed.of[s] == Named(s.committed)
      ensures if s.committed == null then ReleaseCommitted(c, s) == c
              else
                && s.committed in descs && LiveProps(s.committed) && KeysOk(c.(committed := Detach(c.committed, s, Null)))
                && s.committed in c.resource
                && ReleaseCommitted(c, s) == Delete(c.(committed := Detach(c.committed, s, Null)), s.committed)
    {
      NamedLive(c, s);
      SurfaceFields(s);
      Keys();
      ReleaseCommittedKeys(c, s);
      hide View, Inv, KeysOk, Delete, Detach, LiveProps;
      if s.committed == null { DetachNothing(c.committed, s); }
    }

    method ReleaseCommittedDesc(s: ColorSurface)
      requires Inv(View()) && s in surfaces
      modifies this`descs, this`records, this`destroyed, records`referenceCount, s`committed, descs`committedSurfaces
      ensures KeysOk(old(View())) && s in old(View()).committed.of && View() == ReleaseCommitted(old(View()), s)
      ensures s.committed == null && descs <= old(descs) && records <= old(records)
    {
      hide View, Inv, KeysOk, Delete, Detach, LiveProps;
      ghost var c := View();
      ReleaseCommittedFacts(c, s);
      var was := s.committed;
      if was != null {
        UnlinkCommitted(s, was);
        DeleteIfUnreferenced(was);
      }
    }

    /** Linking a surface into a description's pending list. */
    method LinkPending(s: ColorSurface, d: ImageDesc)
      requires s in surfaces && d in descs
      modifies s`pending, d`pendingSurfaces
      ensures s in old(View()).pending.of && d in old(View()).pending.lists
      ensures View() == old(View()).(pending := LinkTo(old(View()).pending, s, d))
      ensures s.pending == d && s in d.pendingSurfaces
    {
      hide Resources, PropsOf, PendingLists, CommittedLists, PendingOf, CommittedOf, Counts, Places, DirtyFlags;
      SurfaceFields(s);
      DescFields(d);
      NamePending(s, d);
      ListPending(d, [s] + d.pendingSurfaces);
    }

    method LinkCommitted(s: ColorSurface, d: ImageDesc)
      requires s in surfaces && d in descs
      modifies s`committed, d`committedSurfaces
      ensures s in old(View()).committed.of && d in old(View()).committed.lists
      ensures View() == old(View()).(committed := LinkTo(old(View()).committed, s, d))
    {
      hide Resources, PropsOf, PendingLists, CommittedLists, PendingOf, CommittedOf, Counts, Places, DirtyFlags;
      SurfaceFields(s);
      DescFields(d);
      NameCommitted(s, d);
      ListCommitted(d, [s] + d.committedSurfaces);
    }

    /** `nested_color_surface_set_image_desc()`. */
    method SetImageDesc(s: ColorSurface, d: ImageDesc)
      requires Inv(View()) && s in surfaces && d in descs && d.resource
      modifies this`descs, this`records, this`destroyed, records`referenceCount, s`pending, descs`pendingSurfaces
      ensures KeysOk(old(View())) && s in old(View()).pending.of && d in old(View()).resource && old(View()).resource[d]
      ensures Inv(View()) && View() == SetDesc(old(View()), s, d)
      ensures s.pending == d && d in descs && s in d.pendingSurfaces && WlLists.Distinct(d.pendingSurfaces)
    {
      ghost var c := View();
      NamedLive(c, s);
      DescFields(d);
      ReleasePendingKeeps(c, s);
      SetDescKeeps(c, s, d);
      Keys();
      hide View, Inv, KeysOk, ReleasePending, LinkTo;
      ReleasePendingDesc(s);
      Keys();
      LinkPending(s, d);
      ListedOnce(d);
    }

    lemma ListedOnce(d: ImageDesc)
      requires Inv(View()) && d in descs
      ensures WlLists.Distinct(d.pendingSurfaces)
    {
      DescFields(d);
      AgreedLists(View(), d);
      hide View, Inv, WlLists.Distinct;
    }

    /** `nested_color_surface_unset_image_desc()`. */
    method UnsetImageDesc(s: ColorSurface)
      requires Inv(View()) && s in surfaces
      modifies this`descs, this`records, this`destroyed, records`referenceCount, s`pending, descs`pendingSurfaces
      ensures KeysOk(old(View())) && s in old(View()).pending.of
      ensures Inv(View()) && View() == ReleasePending(old(View()), s) && s.pending == null
    {
      NamedLive(View(), s);
      ReleasePendingKeeps(View(), s);
      hide View, Inv, KeysOk, ReleasePending;
      ReleasePendingDesc(s);
    }

    /** The image-description part of `apply_pending_surface_updates()`. */
    method CommitImageDesc(s: ColorSurface)
      requires Inv(View()) && s in surfaces
      modifies this`descs, this`records, this`destroyed, records`referenceCount, s`committed, descs`committedSurfaces
      ensures KeysOk(old(View())) && s in old(View()).pending.of
      ensures Inv(View()) && View() == CommitDesc(old(View()), s) && s.committed == s.pending
    {
      ghost var c := View();
      NamedLive(c, s);
      SurfaceFields(s);
      CommitDescKeeps(c, s);
      ReleaseCommittedKeeps(c, s);
      CommitDescIs(c, s);
      hide View, Inv, KeysOk, ReleaseCommitted, CommitDesc, LinkTo;
      if s.committed == s.pending {
        return;
      }
      ReleaseCommittedDesc(s);
      if s.pending != null {
        Keys();
        SurfaceFields(s);
        LinkCommitted(s, s.pending);
      }
    }

    lemma DestroyFacts(c: Colors, s: ColorSurface)
      requires c == View() && Inv(c) && s in surfaces
      ensures KeysOk(c) && s in c.pending.of && Inv(ReleasePending(c, s)) && Inv(DestroySurf(c, s))
      ensures var h := ReleasePending(c, s);
              KeysOk(h) && s in h.committed.of && DestroySurf(c, s) == Forgotten(ReleaseCommitted(h, s), s)
    {
      SurfaceFields(s);
      hide View, Inv, KeysOk, ReleasePending, ReleaseCommitted, DestroySurf;
      ReleasePendingKeeps(c, s);
      DestroySurfKeeps(c, s);
      DestroySurfIs(c, s);
    }

    /** `surface_handle_resource_destroy()`, the image-description part. */
    method DestroyColorSurface(s: ColorSurface)
      requires Inv(View()) && s in surfaces
      modifies this`descs, this`records, this`destroyed, this`surfaces, records`referenceCount, s,
               descs`pendingSurfaces, descs`committedSurfaces
      ensures KeysOk(old(View())) && s in old(View()).pending.of
      ensures Inv(View()) && View() == DestroySurf(old(View()), s) && surfaces == old(surfaces) - {s}
    {
      hide View, Inv, KeysOk, ReleasePending, ReleaseCommitted, DestroySurf, Forgotten;
      DestroyFacts(View(), s);
      ReleasePendingDesc(s);
      ReleaseCommittedDesc(s);
      ForgetSurface(s);
    }

    ghost method ForgetSurface(s: ColorSurface)
      modifies this`surfaces
      ensures surfaces == old(surfaces) - {s}
      ensures View() == Forgotten(old(View()), s)
    {
      hide Resources, PropsOf, PendingLists, CommittedLists, PendingOf, CommittedOf, Counts, Places, DirtyFlags;
      DropSurface(s);
    }

    ghost method DropSurface(s: ColorSurface)
      modifies this`surfaces
      ensures surfaces == old(surfaces) - {s}
      ensures PendingOf() == old(PendingOf()) - {s} && CommittedOf() == old(CommittedOf()) - {s}
    {
      surfaces := surfaces - {s};
    }

    lemma ResourceFacts(c: Colors, d: ImageDesc)
      requires c == View() && Inv(c) && d in descs
      ensures KeysOk(c) && d in c.resource && LiveProps(d)
      ensures KeysOk(c.(resource := c.resource[d := false])) && Inv(DestroyResource(c, d))
    {
      InvKeys(c);
      DescFields(d);
      hide View, Inv, KeysOk, DestroyResource, LiveProps;
      PropsLive(c, d);
      DestroyResourceKeeps(c, d);
      UnresourcedKeys(c, d);
    }

    /** `image_desc_handle_resource_destroy()`. */
    method DescResourceDestroyed(d: ImageDesc)
      requires Inv(View()) && d in descs
      modifies this`descs, this`records, this`destroyed, records`referenceCount, d`resource
      ensures KeysOk(old(View())) && d in old(View()).resource
      ensures Inv(View()) && View() == DestroyResource(old(View()), d)
    {
      hide View, Inv, KeysOk, Delete, LiveProps;
      ResourceFacts(View(), d);
      Unresource(d);
      DeleteIfUnreferenced(d);
    }

    method Unresource(d: ImageDesc)
      requires d in descs
      modifies d`resource
      ensures View() == old(View()).(resource := old(View()).resource[d := false])
    {
      hide Resources, PropsOf, PendingLists, CommittedLists, PendingOf, CommittedOf, Counts, Places, DirtyFlags;
      MarkResource(d, false);
    }

    /** `create_forward_image_desc()` without properties, `create_output_image_desc()` with. */
    method CreateImageDesc(p: Properties?) returns (d: ImageDesc)
      requires p != null ==> p in records
      modifies this`descs, records`referenceCount
      ensures fresh(d) && descs == old(descs) + {d}
      ensures (Maybe(p).Some? ==> Maybe(p).value in old(View()).refs) && View() == CreateDesc(old(View()), d, Maybe(p))
    {
      hide View;
      d := new ImageDesc(p);
      AddDesc(d);
      if p != null {
        AddReference(p);
      }
    }

    ghost method AddDesc(d: ImageDesc)
      requires d !in descs && d.resource && d.pendingSurfaces == [] && d.committedSurfaces == []
      modifies this`descs
      ensures descs == old(descs) + {d}
      ensures var c := old(View());
              View() == c.(resource := c.resource[d := true], props := c.props[d := Maybe(d.properties)],
                           pending := c.pending.(lists := c.pending.lists[d := []]),
                           committed := c.committed.(lists := c.committed.lists[d := []]))
    {
      hide Resources, PropsOf, PendingLists, CommittedLists, PendingOf, CommittedOf, Counts, Places, DirtyFlags;
      KeepDesc(d);
    }

    ghost method KeepResource(d: ImageDesc)
      modifies this`descs
      ensures descs == old(descs) + {d} && Resources() == old(Resources())[d := d.resource]
    {
      descs := descs + {d};
    }

    ghost method KeepDesc(d: ImageDesc)
      modifies this`descs
      ensures descs == old(descs) + {d}
      ensures Resources() == old(Resources())[d := d.resource] && PropsOf() == old(PropsOf())[d := Maybe(d.properties)]
      ensures PendingLists() == old(PendingLists())[d := d.pendingSurfaces]
      ensures CommittedLists() == old(CommittedLists())[d := d.committedSurfaces]
    {
      ghost var props, pending, committed := PropsOf(), PendingLists(), CommittedLists();
      KeepResource(d);
      assert PropsOf() == props[d := Maybe(d.properties)] by { hide PendingLists, CommittedLists, Resources; }
      assert PendingLists() == pending[d := d.pendingSurfaces] by { hide PropsOf, CommittedLists, Resources; }
      assert CommittedLists() == committed[d := d.committedSurfaces] by { hide PropsOf, PendingLists, Resources; }
    }

    method AddReference(p: Properties)
      requires p in records
      modifies p`referenceCount
      ensures p in old(View()).refs
      ensures View() == old(View()).(refs := old(View()).refs[p := old(View()).refs[p] + 1])
    {
      hide Resources, PropsOf, PendingLists, CommittedLists, PendingOf, CommittedOf, Counts, Places, DirtyFlags;
      Keys();
      Count(p, p.referenceCount + 1);
    }

    /** `request_new_image_desc()`. */
    method RequestNewDesc(k: DescState) returns (p: Properties)
      requires k in states && k.pending == null
      modifies this`records, k`pending, k`dirty
      ensures fresh(p) && records == old(records) + {p} && k.pending == p
      ensures View() == Request(old(View()), k, p)
    {
      hide View, Request;
      p := new Properties();
      StartRequest(k, p);
    }

    method StartRequest(k: DescState, p: Properties)
      requires k in states && k.pending == null && p.referenceCount == 1
      modifies this`records, k`pending, k`dirty
      ensures records == old(records) + {p} && k.pending == p
      ensures View() == Request(old(View()), k, p)
    {
      hide Resources, PropsOf, PendingLists, CommittedLists, PendingOf, CommittedOf, Counts, Places, DirtyFlags;
      MarkDirty(k, false);
      PlacePending(k, p);
      AddRecord(p);
    }

    ghost method AddRecord(p: Properties)
      requires p.referenceCount == 1
      modifies this`records
      ensures records == old(records) + {p} && Counts() == old(Counts())[p := 1]
    {
      records := records + {p};
    }

    method Wait(k: DescState)
      requires k in states
      modifies k`dirty
      ensures View() == old(View()).(dirty := old(View()).dirty[k := true])
    {
      hide Resources, PropsOf, PendingLists, CommittedLists, PendingOf, CommittedOf, Counts, Places, DirtyFlags;
      MarkDirty(k, true);
    }

    /** The change notifications of an output or of the feedback surface: wait, or ask. */
    method DescriptionChanged(k: DescState) returns (p: Properties)
      requires k in states
      modifies this`records, k`pending, k`dirty
      ensures old(k.pending) == null ==> fresh(p)
      ensures HasState(old(View()), k) && View() == Changed(old(View()), k, p)
    {
      hide View, Request, HasState;
      StateFields(k);
      if k.pending != null {
        p := k.pending;
        Wait(k);
      } else {
        p := RequestNewDesc(k);
      }
    }

    lemma SettledFacts(c: Colors, k: DescState)
      requires c == View() && Inv(c) && k in states
      ensures KeysOk(c) && HasState(c, k) && c.dirty[k] == k.dirty
      ensures c.places[Current(k)] == Maybe(k.current) && c.destroyed + [] == c.destroyed
      ensures k.current != null ==> k.current in records && k.current.referenceCount > 0
    {
      InvKeys(c);
      StateFields(k);
      hide View, Inv, KeysOk, HasState;
      PlaceLive(c, k);
    }

    /** The common part of `image_desc_info_handle_done()` and `image_desc_handle_failed()`. */
    method InfoSettled(k: DescState) returns (p: Properties)
      requires Inv(View()) && k in states && k.pending != null
      modifies this`records, this`destroyed, records`referenceCount, k
      ensures old(k.dirty) ==> fresh(p)
      ensures KeysOk(old(View())) && HasState(old(View()), k) && View() == Handover(old(View()), k, p)
      ensures k.current == old(k.pending)
    {
      hide View, Inv, KeysOk, HasState, Unref, UnrefDestroys, Request;
      SettledFacts(View(), k);
      DropCurrent(k);
      p := k.pending;
      MovePending(k);
      if k.dirty {
        p := RequestNewDesc(k);
      }
    }

    lemma PlaceLive(c: Colors, k: DescState)
      requires c == View() && Inv(c) && k in states
      ensures k.current != null ==> k.current in records && k.current.referenceCount > 0
    {
      StateFields(k);
      Keys();
      hide View;
      if k.current != null { PlacesPositive(c, k); }
    }

    method DropCurrent(k: DescState)
      requires k in states && (k.current != null ==> k.current in records && k.current.referenceCount > 0)
      modifies this`records, this`destroyed, records`referenceCount
      ensures k.current != null ==> k.current in old(View()).refs
      ensures var c := old(View());
              View() == if k.current == null then c
                        else c.(refs := Unref(c.refs, k.current), destroyed := c.destroyed + UnrefDestroys(c.refs, k.current))
    {
      hide Resources, PropsOf, PendingLists, CommittedLists, PendingOf, CommittedOf, Counts, Places, DirtyFlags;
      hide Unref, UnrefDestroys;
      if k.current != null {
        UnrefProps(k.current);
      }
    }

    method MovePending(k: DescState)
      requires k in states
      modifies k`current, k`pending
      ensures HasState(old(View()), k) && k.pending == null && k.current == old(k.pending)
      ensures var c := old(View());
              View() == c.(places := c.places[Current(k) := c.places[Pending(k)]][Pending(k) := None])
    {
      hide Resources, PropsOf, PendingLists, CommittedLists, PendingOf, CommittedOf, Counts, Places, DirtyFlags;
      StateFields(k);
      PlaceCurrent(k, k.pending);
      PlacePending(k, null);
    }
  }

  /** The surface is freed. */
  function Forgotten(c: Colors, s: Surf): Colors {
    c.(pending := c.pending.(of := c.pending.of - {s}), committed := c.committed.(of := c.committed.of - {s}))
  }

  lemma DetachNothing(l: Links<Desc, Surf>, s: Surf)
    requires s in l.of && l.of[s] == Null
    ensures Detach(l, s, Null) == l
  {
    assert l.of[s := Null] == l.of;
  }

  lemma AgreedLists(c: Colors, d: Desc)
    requires Inv(c) && d in c.pending.lists
    ensures WlLists.Distinct(c.pending.lists[d])
  {
    hide RefsOk, Gone, Plain, Alive, WlLists.Distinct;
  }

  lemma CountsPositive(c: Colors, d: Desc)
    requires Inv(c) && d in c.props && c.props[d].Some?
    ensures c.props[d].value in c.refs && c.refs[c.props[d].value] > 0
  {
    hide Agree, Gone, Plain, Alive, Sharers, Held;
  }

  lemma PlacesPositive(c: Colors, k: DescState)
    requires Inv(c) && HasState(c, k) && c.places[Current(k)].Some?
    ensures c.places[Current(k)].value in c.refs && c.refs[c.places[Current(k)].value] > 0
  {
    hide Agree, Gone, Plain, Alive, Sharers, Held;
  }

  /** Under the invariant the pending description outlives the release of the committed one. */
  lemma CommitDescIs(c: Colors, s: Surf)
    requires Inv(c) && s in c.pending.of
    ensures KeysOk(c) && s in c.committed.of
    ensures var v, h := c.pending.of[s], ReleaseCommitted(c, s);
            && (v.To? ==> v.b in h.resource && s in h.committed.of && v.b in h.committed.lists)
            && CommitDesc(c, s) == if c.committed.of[s] == v then c
                                   else if v.To? then h.(committed := LinkTo(h.committed, s, v.b)) else h
  {
    ReleaseCommittedKeeps(c, s);
    var v, h := c.pending.of[s], ReleaseCommitted(c, s);
    if v.To? { PendingStays(c, s); }
    AliveKeys(h);
    hide ReleaseCommitted, KeysOk, Inv;
  }

  lemma DestroySurfIs(c: Colors, s: Surf)
    requires Inv(c) && s in c.pending.of
    ensures KeysOk(c)
    ensures var h := ReleasePending(c, s);
            && KeysOk(h) && s in h.committed.of
            && DestroySurf(c, s) == Forgotten(ReleaseCommitted(h, s), s)
  {
    ReleasePendingKeeps(c, s);
    var h := ReleasePending(c, s);
    ReleaseCommittedKeeps(h, s);
    hide ReleasePending, ReleaseCommitted, KeysOk;
  }
}
