/** Frame callbacks: requested on a surface, handed over as a batch to one upstream callback at commit,
    and completed together when that one is done.  A callback is named by the link of its resource;
    FrameObjects runs the same steps on those links. */
module FrameCallbacks {
  import opened WlLists
  import opened Stacking
  import opened Linkage

  type Callback = Link
  type Surf = nat

  /** Where callbacks wait: the queue of a surface, or a batch already sent upstream. */
  datatype Place = Queue(s: Surf) | Batch(k: nat)

  /** `links` places every undestroyed callback; `done` lists the completed ones; `used` all ever made. */
  datatype Frames = Frames(links: Links<Place, Callback>, nextBatch: nat, done: seq<Callback>, used: set<Callback>)

  const EMPTY := Frames(Links(map[], map[]), 0, [], {})

  /** `nested_surface_frame()`. */
  function Request(f: Frames, s: Surf, cb: Callback): Frames
    requires Queue(s) in f.links.lists
  {
    f.(links := LinkTo(f.links.(of := f.links.of[cb := Null]), cb, Queue(s)), used := f.used + {cb})
  }

  /** `frame_callback_handle_resource_destroy()`. */
  function Destroyed(f: Frames, cb: Callback): Frames
    requires cb in f.links.of
  {
    var l := Detach(f.links, cb, Null);
    f.(links := l.(of := l.of - {cb}))
  }

  function Retarget(of: map<Callback, Attachment<Place>>, moved: seq<Callback>, to: Attachment<Place>): map<Callback, Attachment<Place>> {
    map c | c in of :: if c in moved then to else of[c]
  }

  function Rest(of: map<Callback, Attachment<Place>>, gone: seq<Callback>): map<Callback, Attachment<Place>> {
    map c | c in of && c !in gone :: of[c]
  }

  /** The hand-over at commit: the whole queue becomes a new batch. */
  function Commit(f: Frames, s: Surf): Frames
    requires Queue(s) in f.links.lists
  {
    var queue := f.links.lists[Queue(s)];
    if queue == [] then f
    else f.(links := Links(f.links.lists[Batch(f.nextBatch) := queue][Queue(s) := []],
                           Retarget(f.links.of, queue, To(Batch(f.nextBatch)))),
            nextBatch := f.nextBatch + 1)
  }

  /** `bg_frame_handle_done()`: every callback of the batch is completed and destroyed, in list order. */
  function Done(f: Frames, k: nat): Frames
    requires Batch(k) in f.links.lists
  {
    var batch := f.links.lists[Batch(k)];
    f.(links := Links(f.links.lists - {Batch(k)}, Rest(f.links.of, batch)),
       done := f.done + batch)
  }

  /** `surface_handle_resource_destroy()`: queued callbacks are left on no list at all. */
  function SurfaceGone(f: Frames, s: Surf): Frames
    requires Queue(s) in f.links.lists
  {
    f.(links := Links(f.links.lists - {Queue(s)}, Retarget(f.links.of, f.links.lists[Queue(s)], Null)))
  }

  datatype Event =
    | NewSurface(s: Surf)
    | Frame(s: Surf, cb: Callback)
    | CallbackGone(cb: Callback)
    | CommitReq(s: Surf)
    | BatchDone(k: nat)
    | SurfaceEnd(s: Surf)

  predicate Legal(f: Frames, e: Event) {
    match e
    case NewSurface(s) => Queue(s) !in f.links.lists
    case Frame(s, cb) => Queue(s) in f.links.lists && cb !in f.used
    case CallbackGone(cb) => cb in f.links.of
    case CommitReq(s) => Queue(s) in f.links.lists
    case BatchDone(k) => Batch(k) in f.links.lists
    case SurfaceEnd(s) => Queue(s) in f.links.lists
  }

  function Step(f: Frames, e: Event): Frames
    requires Legal(f, e)
  {
    match e
    case NewSurface(s) => f.(links := f.links.(lists := f.links.lists[Queue(s) := []]))
    case Frame(s, cb) => Request(f, s, cb)
    case CallbackGone(cb) => Destroyed(f, cb)
    case CommitReq(s) => Commit(f, s)
    case BatchDone(k) => Done(f, k)
    case SurfaceEnd(s) => SurfaceGone(f, s)
  }

  ghost predicate Fresh(f: Frames) {
    && (forall k: nat :: Batch(k) in f.links.lists ==> k < f.nextBatch)
    && (forall c :: c in f.links.of ==> c in f.used)
  }

  ghost predicate Completed(f: Frames) {
    && Distinct(f.done)
    && (forall c :: c in f.done ==> c in f.used && c !in f.links.of)
  }

  /** Every undestroyed callback is on the one list its place says, if any; a completed one is gone, and
      was completed once. */
  ghost predicate Inv(f: Frames) {
    Agree(f.links) && Fresh(f) && Completed(f)
  }

  lemma MoveAgrees(l: Links<Place, Callback>, from: Place, to: Place)
    requires Agree(l) && from in l.lists && to !in l.lists
    ensures Agree(Links(l.lists[to := l.lists[from]][from := []], Retarget(l.of, l.lists[from], To(to))))
  {
    assert Distinct<Callback>([]);
    hide Distinct;
  }

  /** A list goes, and its members with it or not. */
  lemma ClearAgrees(l: Links<Place, Callback>, from: Place)
    requires Agree(l) && from in l.lists
    ensures Agree(Links(l.lists - {from}, Retarget(l.of, l.lists[from], Null)))
    ensures Agree(Links(l.lists - {from}, Rest(l.of, l.lists[from])))
  {
    var lists, gone := l.lists - {from}, l.lists[from];
    var nulled, rest := Retarget(l.of, gone, Null), Rest(l.of, gone);
    forall b | b in lists ensures Distinct(lists[b]) {
      assert b in l.lists && lists[b] == l.lists[b];
    }
    hide Distinct;
    forall b, s | b in lists && s in lists[b] ensures s in nulled && s in rest && s !in gone {
      assert s in l.lists[b] && l.of[s] == To(b);
    }
    forall b, s | b in lists && s in l.of ensures s in lists[b] <==> nulled[s] == To(b) {
      if s in gone { assert l.of[s] == To(from); }
    }
    forall b, s | b in lists && s in rest ensures s in lists[b] <==> rest[s] == To(b) {
      assert s in l.lists[b] <==> l.of[s] == To(b);
    }
    forall s | s in l.of && s !in gone && l.of[s].To? ensures l.of[s].b in lists {
      assert l.of[s] == To(from) ==> s in gone;
    }
  }

  lemma DoneDistinct(done: seq<Callback>, batch: seq<Callback>)
    requires Distinct(done) && Distinct(batch) && forall c :: c in batch ==> c !in done
    ensures Distinct(done + batch)
  {
    DistinctParts(done, batch);
  }

  lemma RequestKeeps(f: Frames, s: Surf, cb: Callback)
    requires Inv(f) && Legal(f, Frame(s, cb))
    ensures Inv(Request(f, s, cb))
    ensures Request(f, s, cb).links.lists == f.links.lists[Queue(s) := [cb] + f.links.lists[Queue(s)]]
  {
    NewField(f.links, cb);
    LinkAgrees(f.links.(of := f.links.of[cb := Null]), cb, Queue(s));
    hide Agree, Distinct;
  }

  lemma DestroyedKeeps(f: Frames, cb: Callback)
    requires Inv(f) && cb in f.links.of
    ensures Inv(Destroyed(f, cb))
    ensures Destroyed(f, cb).links.lists.Keys == f.links.lists.Keys
    ensures forall p, c :: p in f.links.lists ==> (c in Destroyed(f, cb).links.lists[p] <==> c in f.links.lists[p] && c != cb)
  {
    DetachAgrees(f.links, cb, Null);
    DetachFacts(f.links, cb, Null);
    var l := Detach(f.links, cb, Null);
    ForgetAgrees(l, cb);
    forall p, c | p in f.links.lists ensures c in l.lists[p] <==> c in f.links.lists[p] && c != cb {
      if f.links.of[cb] == To(p) { DropDistinct(f.links.lists[p], cb); }
    }
    hide Agree, Distinct, Detach;
  }

  lemma CommitKeeps(f: Frames, s: Surf)
    requires Inv(f) && Queue(s) in f.links.lists
    ensures Inv(Commit(f, s))
  {
    if f.links.lists[Queue(s)] != [] {
      MoveAgrees(f.links, Queue(s), Batch(f.nextBatch));
    }
    hide Agree, Distinct;
  }

  lemma DoneKeeps(f: Frames, k: nat)
    requires Inv(f) && Batch(k) in f.links.lists
    ensures Inv(Done(f, k))
  {
    var batch := f.links.lists[Batch(k)];
    ClearAgrees(f.links, Batch(k));
    assert forall c :: c in batch ==> c in f.links.of;
    DoneDistinct(f.done, batch);
    hide Agree, Distinct;
  }

  lemma SurfaceGoneKeeps(f: Frames, s: Surf)
    requires Inv(f) && Queue(s) in f.links.lists
    ensures Inv(SurfaceGone(f, s))
  {
    ClearAgrees(f.links, Queue(s));
    hide Agree, Distinct;
  }

  lemma StepKeeps(f: Frames, e: Event)
    requires Inv(f) && Legal(f, e)
    ensures Inv(Step(f, e))
  {
    match e
    case NewSurface(s) => NewList(f.links, Queue(s)); hide Agree, Distinct;
    case Frame(s, cb) => RequestKeeps(f, s, cb); hide Inv, Request;
    case CallbackGone(cb) => DestroyedKeeps(f, cb); hide Inv, Destroyed;
    case CommitReq(s) => CommitKeeps(f, s); hide Inv, Commit;
    case BatchDone(k) => DoneKeeps(f, k); hide Inv, Done;
    case SurfaceEnd(s) => SurfaceGoneKeeps(f, s); hide Inv, SurfaceGone;
  }

  // ----- what a queue holds, told from the requests alone

  /** The request for cb on s is not yet served, cancelled or overtaken: no later commit or end of s, and
      cb was not destroyed. */
  ghost predicate Waiting(es: seq<Event>, s: Surf, cb: Callback) {
    exists i: nat :: i < |es| && es[i] == Frame(s, cb) && Untouched(es, i, s, cb)
  }

  ghost predicate Untouched(es: seq<Event>, i: nat, s: Surf, cb: Callback) {
    forall j :: i < j < |es| ==> es[j] != CommitReq(s) && es[j] != SurfaceEnd(s) && es[j] != CallbackGone(cb)
  }

  lemma WaitingMore(es: seq<Event>, e: Event, s: Surf, cb: Callback)
    requires forall i :: 0 <= i < |es| && es[i] == Frame(s, cb) ==> e != Frame(s, cb)
    ensures Waiting(es + [e], s, cb) <==>
            e == Frame(s, cb)
            || (Waiting(es, s, cb) && e != CommitReq(s) && e != SurfaceEnd(s) && e != CallbackGone(cb))
  {
    var fs := es + [e];
    if e == Frame(s, cb) {
      assert fs[|es|] == e && Untouched(fs, |es|, s, cb);
    } else if Waiting(es, s, cb) {
      var i: nat :| i < |es| && es[i] == Frame(s, cb) && Untouched(es, i, s, cb);
      if e != CommitReq(s) && e != SurfaceEnd(s) && e != CallbackGone(cb) {
        assert fs[i] == es[i];
        forall j | i < j < |fs| ensures fs[j] != CommitReq(s) && fs[j] != SurfaceEnd(s) && fs[j] != CallbackGone(cb) {
          if j < |es| { assert fs[j] == es[j]; }
        }
        assert Untouched(fs, i, s, cb);
      }
    }
    if Waiting(fs, s, cb) && e != Frame(s, cb) {
      var i: nat :| i < |fs| && fs[i] == Frame(s, cb) && Untouched(fs, i, s, cb);
      assert i < |es| && es[i] == fs[i];
      assert fs[|es|] == e;
      forall j | i < j < |es| ensures es[j] != CommitReq(s) && es[j] != SurfaceEnd(s) && es[j] != CallbackGone(cb) {
        assert fs[j] == es[j];
      }
      assert Untouched(es, i, s, cb);
    }
  }

  ghost predicate IsRun(fs: seq<Frames>, es: seq<Event>) {
    && |fs| == |es| + 1 && fs[0] == EMPTY
    && (forall i :: 0 <= i < |es| ==> Legal(fs[i], es[i]) && fs[i + 1] == Step(fs[i], es[i]))
  }

  ghost predicate Queued(f: Frames, s: Surf, cb: Callback) {
    Queue(s) in f.links.lists && cb in f.links.lists[Queue(s)]
  }

  /** What one event does to one callback of one queue. */
  lemma QueuedStep(f: Frames, e: Event, s: Surf, cb: Callback)
    requires Inv(f) && Legal(f, e)
    ensures Queued(Step(f, e), s, cb) <==>
            e == Frame(s, cb)
            || (Queued(f, s, cb) && e != CommitReq(s) && e != SurfaceEnd(s) && e != CallbackGone(cb))
  {
    match e
    case Frame(s', cb') => RequestKeeps(f, s', cb');
    case CallbackGone(cb') => DestroyedKeeps(f, cb');
    case _ =>
    hide Agree, Distinct;
  }

  lemma UsedGrows(f: Frames, e: Event)
    requires Legal(f, e)
    ensures f.used <= Step(f, e).used
    ensures forall s, cb :: e == Frame(s, cb) ==> cb !in f.used && cb in Step(f, e).used
  {
  }

  /** In every run, each undestroyed callback is on at most one list, completed ones were completed once,
      and a surface's queue holds exactly its requests still waiting for a commit. */
  lemma {:induction false} QueueHolds(fs: seq<Frames>, es: seq<Event>, i: nat)
    requires IsRun(fs, es) && i <= |es|
    ensures Inv(fs[i])
    ensures forall j, s, cb :: 0 <= j < i && es[j] == Frame(s, cb) ==> cb in fs[i].used
    ensures forall s, cb :: Queued(fs[i], s, cb) <==> Waiting(es[..i], s, cb)
  {
    if i == 0 {
      hide Waiting;
      forall s: nat, cb: Callback ensures !Waiting(es[..0], s, cb) { NothingWaits(es, s, cb); }
    } else {
      QueueHolds(fs, es, i - 1);
      var f, e := fs[i - 1], es[i - 1];
      assert Legal(f, e) && fs[i] == Step(f, e);
      assert es[..i] == es[..i - 1] + [e];
      UsedGrows(f, e);
      hide Inv, Step, Legal, Waiting, Queued;
      StepKeeps(f, e);
      forall s: nat, cb: Callback ensures Queued(fs[i], s, cb) <==> Waiting(es[..i], s, cb) {
        QueuedStep(f, e, s, cb);
        WaitingMore(es[..i - 1], e, s, cb);
      }
    }
  }

  lemma NothingWaits(es: seq<Event>, s: Surf, cb: Callback)
    ensures !Waiting(es[..0], s, cb)
  {
  }

  /** Requests go to the front, destroyed callbacks drop out, a commit or the surface's end empties the queue. */
  function QueueAfter(queue: seq<Callback>, e: Event, s: Surf): seq<Callback> {
    match e
    case NewSurface(x) => if x == s then [] else queue
    case Frame(x, cb) => if x == s then [cb] + queue else queue
    case CallbackGone(cb) => Drop(queue, cb)
    case CommitReq(x) => if x == s then [] else queue
    case SurfaceEnd(x) => if x == s then [] else queue
    case BatchDone(_) => queue
  }

  function QueueTold(es: seq<Event>, s: Surf): seq<Callback> {
    if es == [] then [] else QueueAfter(QueueTold(es[..|es| - 1], s), es[|es| - 1], s)
  }

  lemma QueueStep(f: Frames, e: Event, s: Surf)
    requires Inv(f) && Legal(f, e) && Queue(s) in Step(f, e).links.lists
    ensures if Queue(s) in f.links.lists then Step(f, e).links.lists[Queue(s)] == QueueAfter(f.links.lists[Queue(s)], e, s)
            else e == NewSurface(s) && Step(f, e).links.lists[Queue(s)] == []
  {
    match e
    case Frame(x, cb) => RequestKeeps(f, x, cb);
    case CallbackGone(cb) => GoneFromQueue(f, cb, s);
    case _ =>
    hide Agree, Distinct, Drop;
  }

  lemma GoneFromQueue(f: Frames, cb: Callback, s: Surf)
    requires Inv(f) && cb in f.links.of && Queue(s) in Destroyed(f, cb).links.lists
    ensures Queue(s) in f.links.lists
    ensures Destroyed(f, cb).links.lists[Queue(s)] == Drop(f.links.lists[Queue(s)], cb)
  {
    DestroyedKeeps(f, cb);
    hide Distinct, Without;
  }

  lemma QueueToldMore(es: seq<Event>, e: Event, s: Surf)
    ensures QueueTold(es + [e], s) == QueueAfter(QueueTold(es, s), e, s)
  {
    assert (es + [e])[..|es|] == es;
    hide Drop;
  }

  /** In every run a surface's queue is in that order, and so are the batches, as a commit takes the queue over as
      it is. */
  lemma {:induction false} QueueOrder(fs: seq<Frames>, es: seq<Event>, i: nat, s: Surf)
    requires IsRun(fs, es) && i <= |es|
    ensures Queue(s) in fs[i].links.lists ==> fs[i].links.lists[Queue(s)] == QueueTold(es[..i], s)
    ensures Queue(s) !in fs[i].links.lists ==> QueueTold(es[..i], s) == []
    ensures i < |es| && es[i] == CommitReq(s) && QueueTold(es[..i], s) != [] ==>
              Batch(fs[i].nextBatch) in fs[i + 1].links.lists
              && fs[i + 1].links.lists[Batch(fs[i].nextBatch)] == QueueTold(es[..i], s)
  {
    if i > 0 {
      QueueOrder(fs, es, i - 1, s);
      QueueHolds(fs, es, i - 1);
      var f, e := fs[i - 1], es[i - 1];
      assert Legal(f, e) && fs[i] == Step(f, e);
      assert es[..i] == es[..i - 1] + [e];
      QueueToldMore(es[..i - 1], e, s);
      if Queue(s) in fs[i].links.lists { QueueStep(f, e, s); } else { QueueGone(f, e, s); }
    } else {
      assert es[..0] == [];
    }
    if i < |es| && es[i] == CommitReq(s) {
      assert Legal(fs[i], es[i]) && fs[i + 1] == Step(fs[i], es[i]);
    }
    hide Inv, QueueTold, QueueAfter, Drop, Waiting, Queued;
  }

  lemma QueueGone(f: Frames, e: Event, s: Surf)
    requires Inv(f) && Legal(f, e) && Queue(s) !in Step(f, e).links.lists
    ensures Queue(s) in f.links.lists ==> e == SurfaceEnd(s)
    ensures e != NewSurface(s) && e != CommitReq(s) && !(e.Frame? && e.s == s)
  {
  }

  /** A commit sends upstream exactly the surviving requests made since the surface's previous batch. */
  lemma BatchHolds(fs: seq<Frames>, es: seq<Event>, i: nat, s: Surf)
    requires IsRun(fs, es) && i < |es| && es[i] == CommitReq(s)
    ensures var k := fs[i].nextBatch;
            if exists cb :: Waiting(es[..i], s, cb) then
              && Batch(k) in fs[i + 1].links.lists
              && forall cb :: cb in fs[i + 1].links.lists[Batch(k)] <==> Waiting(es[..i], s, cb)
            else fs[i + 1] == fs[i]
  {
    QueueHolds(fs, es, i);
    assert Legal(fs[i], es[i]) && fs[i + 1] == Step(fs[i], es[i]);
    hide Inv, Waiting;
    var queue := fs[i].links.lists[Queue(s)];
    if queue != [] {
      assert queue[0] in queue && Queued(fs[i], s, queue[0]);
    } else {
      forall cb: Callback ensures !Waiting(es[..i], s, cb) { assert !Queued(fs[i], s, cb); }
    }
    forall cb: Callback ensures cb in queue <==> Waiting(es[..i], s, cb) { assert Queued(fs[i], s, cb) <==> cb in queue; }
  }

  /** A batch on its way loses only callbacks that are destroyed, until it is completed as a whole. */
  lemma BatchKept(f: Frames, e: Event, k: nat)
    requires Inv(f) && Legal(f, e) && Batch(k) in f.links.lists
    ensures if e == BatchDone(k) then
              Batch(k) !in Step(f, e).links.lists && Step(f, e).done == f.done + f.links.lists[Batch(k)]
            else
              && Batch(k) in Step(f, e).links.lists && (e.BatchDone? || Step(f, e).done == f.done)
              && forall cb :: cb in Step(f, e).links.lists[Batch(k)] <==>
                              cb in f.links.lists[Batch(k)] && e != CallbackGone(cb)
  {
    match e
    case Frame(s, cb) => RequestKeeps(f, s, cb);
    case CallbackGone(cb) => DestroyedKeeps(f, cb);
    case _ =>
    hide Agree, Distinct;
  }

  // ----- callbacks whose surface goes first

  /** A callback that is still there and on no list. */
  ghost predicate Unlisted(f: Frames, cb: Callback) {
    cb in f.links.of && f.links.of[cb].Null?
  }

  /** One event leaves a callback on no list exactly if it was on none before, or ends the surface that has it
      queued. */
  lemma Orphaned(f: Frames, e: Event, cb: Callback)
    requires Inv(f) && Legal(f, e)
    ensures Unlisted(Step(f, e), cb) <==>
            (Unlisted(f, cb) && e != CallbackGone(cb)) || (e.SurfaceEnd? && Queued(f, e.s, cb))
  {
    hide Distinct;
    match e
    case CallbackGone(c) => DetachFacts(f.links, c, Null);
    case _ =>
  }

  /** Told from the requests alone: cb waited on a surface when that went, and was not destroyed since. */
  ghost predicate Lost(es: seq<Event>, cb: Callback) {
    exists j: nat :: j < |es| && es[j].SurfaceEnd? && Waiting(es[..j], es[j].s, cb) && NotGone(es, j, cb)
  }

  ghost predicate NotGone(es: seq<Event>, j: nat, cb: Callback) {
    forall k :: j < k < |es| ==> es[k] != CallbackGone(cb)
  }

  lemma LostMore(es: seq<Event>, e: Event, cb: Callback)
    ensures Lost(es + [e], cb) <==>
            (Lost(es, cb) && e != CallbackGone(cb)) || (e.SurfaceEnd? && Waiting(es, e.s, cb))
  {
    hide Waiting;
    var fs := es + [e];
    assert fs[|es|] == e && fs[..|es|] == es;
    assert forall j :: 0 <= j < |es| ==> fs[j] == es[j] && fs[..j] == es[..j];
    if Lost(es, cb) && e != CallbackGone(cb) {
      var j: nat :| j < |es| && es[j].SurfaceEnd? && Waiting(es[..j], es[j].s, cb) && NotGone(es, j, cb);
      assert NotGone(fs, j, cb);
    }
    if e.SurfaceEnd? && Waiting(es, e.s, cb) { assert NotGone(fs, |es|, cb); }
    if Lost(fs, cb) {
      var j: nat :| j < |fs| && fs[j].SurfaceEnd? && Waiting(fs[..j], fs[j].s, cb) && NotGone(fs, j, cb);
      if j < |es| { assert NotGone(es, j, cb); }
    }
  }

  /** In every run the undestroyed callbacks on no list are exactly those whose surface went while they were
      waiting for its next commit. */
  lemma {:induction false} OrphansExactly(fs: seq<Frames>, es: seq<Event>, i: nat, cb: Callback)
    requires IsRun(fs, es) && i <= |es|
    ensures Unlisted(fs[i], cb) <==> Lost(es[..i], cb)
  {
    hide Inv, Step, Legal, Waiting, Queued;
    if i == 0 {
      assert es[..0] == [];
    } else {
      OrphansExactly(fs, es, i - 1, cb);
      QueueHolds(fs, es, i - 1);
      var f, e := fs[i - 1], es[i - 1];
      assert Legal(f, e) && fs[i] == Step(f, e);
      assert es[..i] == es[..i - 1] + [e];
      hide Unlisted, Lost;
      Orphaned(f, e, cb);
      LostMore(es[..i - 1], e, cb);
    }
  }

  /** Known, on no list, and not completed. */
  ghost predicate OutOfPlay(f: Frames, cb: Callback) {
    cb in f.used && cb !in f.done && (cb in f.links.of ==> f.links.of[cb].Null?)
  }

  lemma StaysOut(f: Frames, e: Event, cb: Callback)
    requires Inv(f) && Legal(f, e) && OutOfPlay(f, cb)
    ensures OutOfPlay(Step(f, e), cb)
  {
    hide Distinct;
    match e
    case CallbackGone(c) => DetachFacts(f.links, c, Null);
    case _ =>
  }

  /** And those are never completed, neither before nor later. */
  lemma {:induction false} NeverCompleted(fs: seq<Frames>, es: seq<Event>, i: nat, j: nat, cb: Callback)
    requires IsRun(fs, es) && i <= |es| && j <= |es| && Lost(es[..i], cb)
    ensures cb !in fs[j].done
    ensures i <= j ==> OutOfPlay(fs[j], cb)
    decreases if i <= j then j else |es| + i - j
  {
    hide Inv, Step, Legal, Lost;
    if j == i {
      OrphansExactly(fs, es, i, cb);
      QueueHolds(fs, es, i);
      UnlistedIsOut(fs[i], cb);
    } else if i < j {
      NeverCompleted(fs, es, i, j - 1, cb);
      QueueHolds(fs, es, j - 1);
      assert Legal(fs[j - 1], es[j - 1]) && fs[j] == Step(fs[j - 1], es[j - 1]);
      StaysOut(fs[j - 1], es[j - 1], cb);
    } else {
      NeverCompleted(fs, es, i, j + 1, cb);
      assert Legal(fs[j], es[j]) && fs[j + 1] == Step(fs[j], es[j]);
      DoneGrows(fs[j], es[j]);
    }
  }

  lemma UnlistedIsOut(f: Frames, cb: Callback)
    requires Inv(f) && Unlisted(f, cb)
    ensures OutOfPlay(f, cb)
  {
    hide Agree;
  }

  lemma DoneGrows(f: Frames, e: Event)
    requires Legal(f, e)
    ensures f.done <= Step(f, e).done
  {
  }

  /** The shortest such run. */
  function OrphanRun(cb: Callback): seq<Event> {
    [NewSurface(0), Frame(0, cb), SurfaceEnd(0)]
  }

  lemma OrphanArises(cb: Callback) returns (fs: seq<Frames>)
    ensures IsRun(fs, OrphanRun(cb)) && Unlisted(fs[3], cb) && cb !in fs[3].done
  {
    var es := OrphanRun(cb);
    var f1 := Step(EMPTY, es[0]);
    var f2 := Step(f1, es[1]);
    assert f2.links.lists[Queue(0)] == [cb];
    var f3 := Step(f2, es[2]);
    fs := [EMPTY, f1, f2, f3];
    assert f3.links.of[cb].Null?;
  }
}
