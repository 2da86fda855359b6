/** The buffer handlers on the program's own records, each proved to take the step that BufferGraph
    specifies. */
module BufferObjects {
  import opened Options
  import opened WlLists
  import opened Stacking
  import opened Linkage
  import opened BufferGraph

  /** `struct forward_buffer`. */
  class ForwardBuffer {
    var resource: bool
    var pending: seq<NestedSurface>
    var committed: seq<NestedSurface>

    constructor ()
      ensures resource && pending == [] && committed == []
    {
      resource, pending, committed := true, [], [];
    }
  }

  /** The attachment fields of `struct forward_surface`. */
  class NestedSurface {
    var pending: Attachment<ForwardBuffer>
    var committed: Attachment<ForwardBuffer>

    constructor ()
      ensures pending == Null && committed == Null
    {
      pending, committed := Null, Null;
    }
  }

  function Maybe(b: ForwardBuffer?): Option<ForwardBuffer> {
    if b == null then None else var x: ForwardBuffer := b; Some(x)
  }

  /** The live records, and the upstream buffers destroyed so far. */
  class Forwarder {
    ghost var buffers: set<ForwardBuffer>
    ghost var surfaces: set<NestedSurface>
    ghost var destroyed: seq<ForwardBuffer>

    // One table for each field of a record, so that an assignment changes one table.

    ghost function Resources(): map<ForwardBuffer, bool>
      reads this`buffers, buffers`resource
    {
      map b | b in buffers :: b.resource
    }

    ghost function PendingLists(): map<ForwardBuffer, seq<NestedSurface>>
      reads this`buffers, buffers`pending
    {
      map b | b in buffers :: b.pending
    }

    ghost function CommittedLists(): map<ForwardBuffer, seq<NestedSurface>>
      reads this`buffers, buffers`committed
    {
      map b | b in buffers :: b.committed
    }

    ghost function PendingOf(): map<NestedSurface, Attachment<ForwardBuffer>>
      reads this`surfaces, surfaces`pending
    {
      map s | s in surfaces :: s.pending
    }

    ghost function CommittedOf(): map<NestedSurface, Attachment<ForwardBuffer>>
      reads this`surfaces, surfaces`committed
    {
      map s | s in surfaces :: s.committed
    }

    ghost function View(): Graph<ForwardBuffer, NestedSurface>
      reads this, buffers, surfaces
    {
      Graph(Resources(), Links(PendingLists(), PendingOf()), Links(CommittedLists(), CommittedOf()), destroyed)
    }

    constructor ()
      ensures buffers == {} && surfaces == {} && destroyed == []
    {
      buffers, surfaces, destroyed := {}, {}, [];
    }

    // ----- single fields

    ghost method ForgetBuffer(b: ForwardBuffer)
      modifies this`buffers
      ensures buffers == old(buffers) - {b} && Resources() == old(Resources()) - {b}
      ensures PendingLists() == old(PendingLists()) - {b} && CommittedLists() == old(CommittedLists()) - {b}
    {
      buffers := buffers - {b};
    }

    ghost method ForgetSurface(s: NestedSurface)
      modifies this`surfaces
      ensures surfaces == old(surfaces) - {s}
      ensures PendingOf() == old(PendingOf()) - {s} && CommittedOf() == old(CommittedOf()) - {s}
    {
      surfaces := surfaces - {s};
    }

    method MarkResource(b: ForwardBuffer, alive: bool)
      requires b in buffers
      modifies b`resource
      ensures Resources() == old(Resources())[b := alive]
    {
      b.resource := alive;
    }

    method ListPending(b: ForwardBuffer, list: seq<NestedSurface>)
      requires b in buffers
      modifies b`pending
      ensures PendingLists() == old(PendingLists())[b := list]
    {
      b.pending := list;
    }

    method ListCommitted(b: ForwardBuffer, list: seq<NestedSurface>)
      requires b in buffers
      modifies b`committed
      ensures CommittedLists() == old(CommittedLists())[b := list]
    {
      b.committed := list;
    }

    method NamePending(s: NestedSurface, a: Attachment<ForwardBuffer>)
      requires s in surfaces
      modifies s`pending
      ensures s.pending == a && PendingOf() == old(PendingOf())[s := a]
    {
      s.pending := a;
    }

    method NameCommitted(s: NestedSurface, a: Attachment<ForwardBuffer>)
      requires s in surfaces
      modifies s`committed
      ensures s.committed == a && CommittedOf() == old(CommittedOf())[s := a]
    {
      s.committed := a;
    }

    lemma BufferFields(b: ForwardBuffer)
      requires b in buffers
      ensures b in View().resource && View().resource[b] == b.resource
      ensures b in View().pending.lists && View().pending.lists[b] == b.pending
      ensures b in View().committed.lists && View().committed.lists[b] == b.committed
    {
    }

    lemma SurfaceFields(s: NestedSurface)
      requires s in surfaces
      ensures s in View().pending.of && View().pending.of[s] == s.pending
      ensures s in View().committed.of && View().committed.of[s] == s.committed
    {
    }

    // ----- links

    /** wl_buffer_destroy() and free(). */
    ghost method FreeBuffer(b: ForwardBuffer)
      requires b in buffers
      modifies this`buffers, this`destroyed
      ensures View() == Free(old(View()), b)
      ensures surfaces == old(surfaces) && buffers == old(buffers) - {b}
    {
      hide Resources, PendingLists, CommittedLists, PendingOf, CommittedOf;
      ForgetBuffer(b);
      destroyed := destroyed + [b];
    }

    /** wl_list_remove() of a surface's pending link. */
    method UnlinkPending(s: NestedSurface, b: ForwardBuffer)
      requires s in surfaces && b in buffers && s.pending == To(b)
      modifies s`pending, b`pending
      ensures s in old(View()).pending.of
      ensures View() == old(View()).(pending := Detach(old(View()).pending, s, Null))
      ensures s.pending == Null
    {
      hide Resources, PendingLists, CommittedLists, PendingOf, CommittedOf;
      SurfaceFields(s);
      BufferFields(b);
      ListPending(b, Drop(b.pending, s));
      NamePending(s, Null);
    }

    /** wl_list_remove() of a surface's committed link. */
    method UnlinkCommitted(s: NestedSurface, b: ForwardBuffer)
      requires s in surfaces && b in buffers && s.committed == To(b)
      modifies s`committed, b`committed
      ensures s in old(View()).committed.of
      ensures View() == old(View()).(committed := Detach(old(View()).committed, s, Null))
      ensures s.committed == Null
    {
      hide Resources, PendingLists, CommittedLists, PendingOf, CommittedOf;
      SurfaceFields(s);
      BufferFields(b);
      ListCommitted(b, Drop(b.committed, s));
      NameCommitted(s, Null);
    }

    method LinkPending(s: NestedSurface, b: ForwardBuffer)
      requires s in surfaces && b in buffers
      modifies s`pending, b`pending
      ensures s in old(View()).pending.of && b in old(View()).pending.lists
      ensures View() == old(View()).(pending := LinkTo(old(View()).pending, s, b))
    {
      hide Resources, PendingLists, CommittedLists, PendingOf, CommittedOf;
      SurfaceFields(s);
      BufferFields(b);
      ListPending(b, [s] + b.pending);
      NamePending(s, To(b));
    }

    method LinkCommitted(s: NestedSurface, b: ForwardBuffer)
      requires s in surfaces && b in buffers
      modifies s`committed, b`committed
      ensures s in old(View()).committed.of && b in old(View()).committed.lists
      ensures View() == old(View()).(committed := LinkTo(old(View()).committed, s, b))
    {
      hide Resources, PendingLists, CommittedLists, PendingOf, CommittedOf;
      SurfaceFields(s);
      BufferFields(b);
      ListCommitted(b, [s] + b.committed);
      NameCommitted(s, To(b));
    }

    method Unpend(s: NestedSurface)
      requires s in surfaces && (s.pending.To? ==> s.pending.b in buffers)
      modifies s`pending, buffers`pending
      ensures s in old(View()).pending.of
      ensures View() == old(View()).(pending := Detach(old(View()).pending, s, Null)) && s.pending == Null
    {
      SurfaceFields(s);
      if s.pending.To? {
        hide View, Detach;
        UnlinkPending(s, s.pending.b);
      } else {
        hide Detach;
        ClearPending(s);
      }
    }

    method ClearPending(s: NestedSurface)
      requires s in surfaces && !s.pending.To?
      modifies s`pending
      ensures s in old(View()).pending.of
      ensures View() == old(View()).(pending := Detach(old(View()).pending, s, Null)) && s.pending == Null
    {
      hide Resources, PendingLists, CommittedLists, PendingOf, CommittedOf;
      SurfaceFields(s);
      NamePending(s, Null);
    }

    method Uncommit(s: NestedSurface)
      requires s in surfaces && (s.committed.To? ==> s.committed.b in buffers)
      modifies s`committed, buffers`committed
      ensures s in old(View()).committed.of
      ensures View() == old(View()).(committed := Detach(old(View()).committed, s, Null)) && s.committed == Null
    {
      SurfaceFields(s);
      if s.committed.To? {
        hide View, Detach;
        UnlinkCommitted(s, s.committed.b);
      } else {
        hide Detach;
        ClearCommit(s);
      }
    }

    method ClearCommit(s: NestedSurface)
      requires s in surfaces && !s.committed.To?
      modifies s`committed
      ensures s in old(View()).committed.of
      ensures View() == old(View()).(committed := Detach(old(View()).committed, s, Null)) && s.committed == Null
    {
      hide Resources, PendingLists, CommittedLists, PendingOf, CommittedOf;
      SurfaceFields(s);
      NameCommitted(s, Null);
    }

    /** Dereferencing the old pending buffer: nested_surface_attach(), first half. */
    method ReleasePending(s: NestedSurface)
      requires s in surfaces && Named(View(), s) && Release(View(), s).Next?
      modifies this, surfaces, buffers
      ensures Release(old(View()), s) == Next(View())
      ensures surfaces == old(surfaces) && buffers <= old(buffers)
    {
      hide Detach, Free;
      var was := s.pending;
      Unpend(s);
      if was.To? && !was.b.resource && was.b.pending == [] {
        FreeBuffer(was.b);
      }
    }

    lemma Shows(s: NestedSurface)
      requires s in surfaces
      ensures s in View().pending.of && View().pending.of[s] == s.pending
      ensures s in View().committed.of && View().committed.of[s] == s.committed
      ensures View().resource.Keys == buffers && View().pending.of.Keys == surfaces
      ensures forall b <- buffers :: View().resource[b] == b.resource
    {
    }

    /** nested_surface_attach(); the attach that would follow a NULL pointer is left to its caller. */
    method AttachBuffer(s: NestedSurface, b: ForwardBuffer?)
      requires Inv(View()) && s in surfaces
      requires b != null ==> b in buffers && b.resource
      requires b == null ==> s.pending == Null
      modifies this, surfaces, buffers
      ensures Named(old(View()), s) && Attach(old(View()), s, Maybe(b)) == Next(View())
      ensures surfaces == old(surfaces) && buffers <= old(buffers)
    {
      Shows(s);
      AttachKeeps(View(), s, Maybe(b));
      if b == null {
        return;
      }
      var buf: ForwardBuffer := b;
      if s.pending == To(buf) {
        return;
      }
      AttachOther(s, buf);
    }

    method AttachOther(s: NestedSurface, b: ForwardBuffer)
      requires Inv(View()) && s in surfaces && b in buffers && b.resource && s.pending != To(b)
      modifies this, surfaces, buffers
      ensures Named(old(View()), s) && Attach(old(View()), s, Some(b)) == Next(View())
      ensures surfaces == old(surfaces) && buffers <= old(buffers)
    {
      hide Inv, Release, LinkTo, View, Named, Attach;
      ghost var g := View();
      Shows(s);
      AttachIs(g, s, b);
      ReleasePending(s);
      Shows(s);
      LinkPending(s, b);
    }

    /** The attachment part of apply_pending_surface_updates(). */
    method CommitAttachment(s: NestedSurface)
      requires Inv(View()) && s in surfaces
      modifies surfaces, buffers
      ensures Named(old(View()), s) && Commit(old(View()), s) == Next(View())
    {
      Shows(s);
      CommitKeeps(View(), s);
      CommittedLive(View(), s);
      hide Inv, LinkTo, Detach, View;
      if s.pending == BufferCommitted {
        return;
      }
      if s.pending == Null {
        DropCommitted(s);
      } else {
        Uncommit(s);
        Shows(s);
        LinkCommitted(s, s.pending.b);
      }
    }

    /** A commit with no buffer attached. */
    method DropCommitted(s: NestedSurface)
      requires s in surfaces && (s.committed.To? ==> s.committed.b in buffers)
      modifies s`committed, buffers
      ensures View() == old(View()).(committed := Detach(old(View()).committed, s, Null))
    {
      hide View, Detach;
      Uncommit(s);
    }

    /** surface_handle_resource_destroy(), the attachment part. */
    method DestroyNestedSurface(s: NestedSurface)
      requires Inv(View()) && s in surfaces && !(s.pending.To? && !s.pending.b.resource)
      modifies this, surfaces, buffers
      ensures Named(old(View()), s) && DestroySurface(old(View()), s) == Next(View())
      ensures surfaces == old(surfaces) - {s} && buffers == old(buffers)
    {
      hide Inv, Detach, Named, DestroySurface;
      Shows(s);
      DestroySurfaceKeeps(View(), s);
      CommittedLive(View(), s);
      PendingLive(View(), s);
      hide View;
      ghost var g := View();
      UnlinkBoth(s);
      Forget(s);
      DestroyIs(g, s);
    }

    method UnlinkBoth(s: NestedSurface)
      requires s in surfaces && (s.pending.To? ==> s.pending.b in buffers) && (s.committed.To? ==> s.committed.b in buffers)
      modifies s, buffers
      ensures var g := old(View());
              s in g.pending.of && s in g.committed.of
              && View() == g.(pending := Detach(g.pending, s, Null), committed := Detach(g.committed, s, Null))
    {
      Shows(s);
      hide Detach, View;
      Unpend(s);
      Uncommit(s);
    }

    ghost method Forget(s: NestedSurface)
      modifies this`surfaces
      ensures View() == old(View()).(pending := old(View()).pending.(of := old(View()).pending.of - {s}),
                                     committed := old(View()).committed.(of := old(View()).committed.of - {s}))
      ensures surfaces == old(surfaces) - {s}
    {
      hide Resources, PendingLists, CommittedLists, PendingOf, CommittedOf;
      ForgetSurface(s);
    }

    /** buffer_handle_resource_destroy(). */
    method DestroyForwardBuffer(b: ForwardBuffer)
      requires Inv(View()) && b in buffers && b.resource
      modifies this, surfaces, buffers
      ensures b in old(View()).pending.lists && b in old(View()).committed.lists
      ensures old(View()).pending.of.Keys == old(View()).committed.of.Keys
      ensures View() == DestroyBuffer(old(View()), b)
    {
      DestroyBufferKeeps(View(), b);
      ghost var g := View();
      SweepSurfaces(b);
      ghost var h := View();
      assert h.pending.lists[b] == b.pending;
      hide Inv, Free, SweepPending, SweepCommitted;
      if b.pending == [] {
        hide View;
        FreeBuffer(b);
      } else {
        KeepZombie(b);
      }
    }

    method KeepZombie(b: ForwardBuffer)
      requires b in buffers
      modifies b`resource
      ensures View() == old(View()).(resource := old(View()).resource[b := false])
    {
      hide Resources, PendingLists, CommittedLists, PendingOf, CommittedOf;
      MarkResource(b, false);
    }

    /** The loop over the surfaces that have committed the buffer. */
    method SweepSurfaces(b: ForwardBuffer)
      requires Inv(View()) && b in buffers
      modifies surfaces, buffers
      ensures b in old(View()).pending.lists && b in old(View()).committed.lists
      ensures old(View()).pending.of.Keys == old(View()).committed.of.Keys
      ensures buffers == old(buffers) && surfaces == old(surfaces)
      ensures View() == Swept(old(View()), b, old(b.committed)).(
                committed := SweepCommitted(old(View()).committed, b, old(b.committed)))
    {
      hide Inv, Swept, View, BufferGraph.SweepOne, SweepCommitted;
      var swept := b.committed;
      ghost var g := View();
      Listed(b);
      SweepNothing(g, b);
      var i := 0;
      while i < |swept|
        invariant i <= |swept| && buffers == old(buffers) && surfaces == old(surfaces)
        invariant b.committed == swept
        invariant View() == Swept(g, b, swept[..i])
      {
        SweepTurn(g, b, swept, i);
        Shown(swept[i]);
        Sweep(swept[i], b);
        i := i + 1;
      }
      assert swept[..i] == swept;
      ClearCommitted(b);
      CommittedCleared(g, b, swept);
    }

    lemma Shown(s: NestedSurface)
      requires s in View().committed.of
      ensures s in surfaces && s.committed == View().committed.of[s]
    {
    }

    method Sweep(s: NestedSurface, b: ForwardBuffer)
      requires s in surfaces && b in buffers && s.committed == To(b)
      modifies s, b`pending
      ensures b in old(View()).pending.lists && s in old(View()).pending.of
      ensures View() == BufferGraph.SweepOne(old(View()), b, s)
    {
      Shows(s);
      ghost var g := View();
      assert b in g.pending.lists;
      hide Drop, View;
      if s.pending == s.committed {
        SweepPendingLink(s, b);
      }
      SweepCommittedField(s);
    }

    method SweepPendingLink(s: NestedSurface, b: ForwardBuffer)
      requires s in surfaces && b in buffers
      modifies s`pending, b`pending
      ensures b in old(View()).pending.lists
      ensures View() == old(View()).(pending := Links(old(View()).pending.lists[b := Drop(old(View()).pending.lists[b], s)],
                                                      old(View()).pending.of[s := BufferCommitted]))
    {
      hide Resources, PendingLists, CommittedLists, PendingOf, CommittedOf;
      BufferFields(b);
      NamePending(s, BufferCommitted);
      ListPending(b, Drop(b.pending, s));
    }

    method SweepCommittedField(s: NestedSurface)
      requires s in surfaces
      modifies s`committed
      ensures View() == old(View()).(committed := old(View()).committed.(of := old(View()).committed.of[s := BufferUnreachable]))
    {
      hide Resources, PendingLists, CommittedLists, PendingOf, CommittedOf;
      NameCommitted(s, BufferUnreachable);
    }

    method ClearCommitted(b: ForwardBuffer)
      requires b in buffers
      modifies b`committed
      ensures View() == old(View()).(committed := old(View()).committed.(lists := old(View()).committed.lists[b := []]))
    {
      hide Resources, PendingLists, CommittedLists, PendingOf, CommittedOf;
      ListCommitted(b, []);
    }

    lemma Listed(b: ForwardBuffer)
      requires Inv(View()) && b in buffers
      ensures b in View().resource && b in View().pending.lists && b in View().committed.lists
      ensures View().committed.lists[b] == b.committed && View().pending.of.Keys == View().committed.of.Keys
    {
    }
  }

  lemma AttachIs<B, S>(g: Graph<B, S>, s: S, b: B)
    requires Inv(g) && s in g.pending.of && b in g.resource && g.resource[b] && g.pending.of[s] != To(b)
    ensures Named(g, s) && Release(g, s).Next?
    ensures var h := Release(g, s).g;
            && b in h.resource && b in h.pending.lists && s in h.pending.of
            && Attach(g, s, Some(b)) == Next(h.(pending := LinkTo(h.pending, s, b)))
  {
    ReleaseKeeps(g, s);
    var h := Release(g, s).g;
    hide Agree, Sentinels, Distinct, Release, Named;
    LivelyAt(h.resource, h.pending.lists, h.committed.lists, b);
  }

  lemma DestroyIs<B, S>(g: Graph<B, S>, s: S)
    requires Named(g, s) && DestroySurface(g, s).Next?
    ensures var pending, committed := Detach(g.pending, s, Null), Detach(g.committed, s, Null);
            DestroySurface(g, s) ==
            Next(g.(pending := pending.(of := pending.of - {s}), committed := committed.(of := committed.of - {s})))
  {
  }

  lemma CommittedCleared<B, S>(g: Graph<B, S>, b: B, swept: seq<S>)
    requires b in g.pending.lists && g.pending.of.Keys == g.committed.of.Keys
    ensures var h := Swept(g, b, swept);
            h.committed.(lists := h.committed.lists[b := []]) == SweepCommitted(g.committed, b, swept)
  {
  }
}
