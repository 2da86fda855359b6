/** What a commit forwards besides the buffer: scale, transform, viewport, colour representation and
    image description are sent upstream only where they differ from what was committed last. */
module DiffCommits {
  import opened Options

  datatype Extent = Extent(w: int, h: int)

  /** A viewport source rectangle, in 1/256ths of a pixel. */
  datatype Rect = Rect(x: int, y: int, w: int, h: int)

  datatype ColorRep = ColorRep(hasAlpha: bool, alpha: nat, hasCoef: bool, coef: nat, range: nat,
                               hasChroma: bool, chroma: nat)

  /** The double-buffered part of `struct surface_state` that is forwarded by difference. */
  datatype SurfaceState = SurfaceState(scale: int, transform: int, dest: Extent, source: Rect, rep: ColorRep,
                                       desc: Option<nat>, intent: nat)

  const NO_DEST := Extent(-1, -1)
  const NO_SOURCE := Rect(-256, -256, -256, -256)
  const NO_REP := ColorRep(false, 0, false, 0, 0, false, 0)

  /** `default_surface_state()` on zeroed memory. */
  const DEFAULT_STATE := SurfaceState(1, 0, NO_DEST, NO_SOURCE, NO_REP, None, 0)

  // ----- the upstream surface

  datatype Request =
    | SetScale(scale: int)
    | SetTransform(transform: int)
    | SetDestination(dest: Extent)
    | SetSource(source: Rect)
    | RecreateRep
    | SetAlpha(alpha: nat)
    | SetChroma(chroma: nat)
    | SetCoef(coef: nat, range: nat)
    | SetDesc(desc: nat, intent: nat)
    | UnsetDesc

  /** What the compositor holds for a surface. A representation has no request that clears one field, so
      clearing goes through destroying the extension object, which clears them all. */
  datatype Upstream = Upstream(scale: int, transform: int, dest: Extent, source: Rect,
                               alpha: Option<nat>, chroma: Option<nat>, coef: Option<(nat, nat)>,
                               image: Option<(nat, nat)>)

  const DEFAULT_UPSTREAM := Upstream(1, 0, NO_DEST, NO_SOURCE, None, None, None, None)

  function Apply(u: Upstream, r: Request): Upstream {
    match r
    case SetScale(n) => u.(scale := n)
    case SetTransform(t) => u.(transform := t)
    case SetDestination(d) => u.(dest := d)
    case SetSource(s) => u.(source := s)
    case RecreateRep => u.(alpha := None, chroma := None, coef := None)
    case SetAlpha(a) => u.(alpha := Some(a))
    case SetChroma(c) => u.(chroma := Some(c))
    case SetCoef(c, g) => u.(coef := Some((c, g)))
    case SetDesc(d, i) => u.(image := Some((d, i)))
    case UnsetDesc => u.(image := None)
  }

  function Replay(u: Upstream, requests: seq<Request>): Upstream
    decreases |requests|
  {
    if requests == [] then u else Replay(Apply(u, requests[0]), requests[1..])
  }

  lemma {:induction false} ReplayAppend(u: Upstream, a: seq<Request>, b: seq<Request>)
    ensures Replay(u, a + b) == Replay(Replay(u, a), b)
    decreases |a|
  {
    if a == [] {
      assert a + b == b;
    } else {
      assert (a + b)[1..] == a[1..] + b;
      ReplayAppend(Apply(u, a[0]), a[1..], b);
    }
  }

  /** What a client means by its state: the compositor's view of a surface all of whose fields were sent. */
  function Shows(s: SurfaceState): Upstream {
    Upstream(s.scale, s.transform, s.dest, s.source,
             if s.rep.hasAlpha then Some(s.rep.alpha) else None,
             if s.rep.hasChroma then Some(s.rep.chroma) else None,
             if s.rep.hasCoef then Some((s.rep.coef, s.rep.range)) else None,
             if s.desc.Some? then Some((s.desc.value, s.intent)) else None)
  }

  // ----- the forwarder's differences

  function When(differs: bool, requests: seq<Request>): seq<Request> {
    if differs then requests else []
  }

  function RepRequests(r: ColorRep): seq<Request> {
    [RecreateRep] + When(r.hasAlpha, [SetAlpha(r.alpha)]) + When(r.hasChroma, [SetChroma(r.chroma)])
    + When(r.hasCoef, [SetCoef(r.coef, r.range)])
  }

  function DescRequest(desc: Option<nat>, intent: nat): Request {
    if desc.None? then UnsetDesc else SetDesc(desc.value, intent)
  }

  function GeometryDiff(committed: SurfaceState, pending: SurfaceState): seq<Request> {
    When(committed.scale != pending.scale, [SetScale(pending.scale)])
    + When(committed.transform != pending.transform, [SetTransform(pending.transform)])
  }

  /** The source rectangle goes out with the values of the commit before. */
  function ViewportDiff(committed: SurfaceState, pending: SurfaceState): seq<Request> {
    When(committed.dest != pending.dest, [SetDestination(pending.dest)])
    + When(committed.source != pending.source, [SetSource(committed.source)])
  }

  function RepDiff(committed: SurfaceState, pending: SurfaceState): seq<Request> {
    When(committed.rep != pending.rep, RepRequests(pending.rep))
  }

  function ImageDiff(committed: SurfaceState, pending: SurfaceState): seq<Request> {
    When(committed.desc != pending.desc || committed.intent != pending.intent,
         [DescRequest(pending.desc, pending.intent)])
  }

  /** The requests of one commit. */
  function Diff(committed: SurfaceState, pending: SurfaceState): seq<Request> {
    GeometryDiff(committed, pending) + ViewportDiff(committed, pending) + RepDiff(committed, pending)
    + ImageDiff(committed, pending)
  }

  lemma ReplayWhen(u: Upstream, differs: bool, r: Request)
    ensures Replay(u, When(differs, [r])) == if differs then Apply(u, r) else u
  {
    assert Replay(Apply(u, r), [r][1..]) == Apply(u, r);
  }

  function WithRep(u: Upstream, r: ColorRep): Upstream {
    u.(alpha := if r.hasAlpha then Some(r.alpha) else None,
       chroma := if r.hasChroma then Some(r.chroma) else None,
       coef := if r.hasCoef then Some((r.coef, r.range)) else None)
  }

  lemma ReplayRep(u: Upstream, r: ColorRep)
    ensures Replay(u, RepRequests(r)) == WithRep(u, r)
  {
    var a, b, c := When(r.hasAlpha, [SetAlpha(r.alpha)]), When(r.hasChroma, [SetChroma(r.chroma)]),
                   When(r.hasCoef, [SetCoef(r.coef, r.range)]);
    var u1 := Apply(u, RecreateRep);
    ReplayWhen(u, true, RecreateRep);
    ReplayAppend(u, [RecreateRep], a);
    ReplayAppend(u, [RecreateRep] + a, b);
    ReplayAppend(u, [RecreateRep] + a + b, c);
    ReplayWhen(u1, r.hasAlpha, SetAlpha(r.alpha));
    var u2 := Replay(u1, a);
    ReplayWhen(u2, r.hasChroma, SetChroma(r.chroma));
    ReplayWhen(Replay(u2, b), r.hasCoef, SetCoef(r.coef, r.range));
  }

  lemma ReplayGeometry(u: Upstream, c: SurfaceState, p: SurfaceState)
    ensures Replay(u, GeometryDiff(c, p)) == u.(scale := if c.scale != p.scale then p.scale else u.scale,
                                                transform := if c.transform != p.transform then p.transform else u.transform)
  {
    hide Replay;
    var scale := When(c.scale != p.scale, [SetScale(p.scale)]);
    ReplayAppend(u, scale, When(c.transform != p.transform, [SetTransform(p.transform)]));
    ReplayWhen(u, c.scale != p.scale, SetScale(p.scale));
    ReplayWhen(Replay(u, scale), c.transform != p.transform, SetTransform(p.transform));
  }

  lemma ReplayViewport(u: Upstream, c: SurfaceState, p: SurfaceState)
    ensures Replay(u, ViewportDiff(c, p)) == u.(dest := if c.dest != p.dest then p.dest else u.dest,
                                                source := if c.source != p.source then c.source else u.source)
  {
    hide Replay;
    var dest := When(c.dest != p.dest, [SetDestination(p.dest)]);
    ReplayAppend(u, dest, When(c.source != p.source, [SetSource(c.source)]));
    ReplayWhen(u, c.dest != p.dest, SetDestination(p.dest));
    ReplayWhen(Replay(u, dest), c.source != p.source, SetSource(c.source));
  }

  lemma ReplayRepDiff(u: Upstream, c: SurfaceState, p: SurfaceState)
    ensures Replay(u, RepDiff(c, p)) == if c.rep != p.rep then WithRep(u, p.rep) else u
  {
    ReplayRep(u, p.rep);
  }

  lemma ReplayImage(u: Upstream, c: SurfaceState, p: SurfaceState)
    ensures Replay(u, ImageDiff(c, p)) ==
            u.(image := if c.desc != p.desc || c.intent != p.intent then Shows(p).image else u.image)
  {
    ReplayWhen(u, c.desc != p.desc || c.intent != p.intent, DescRequest(p.desc, p.intent));
  }

  /** One commit, group by group: a changed group is overwritten, an unchanged one is left as it was. */
  lemma ReplayDiff(u: Upstream, c: SurfaceState, p: SurfaceState)
    ensures Replay(u, Diff(c, p)) ==
            var v := Upstream(if c.scale != p.scale then p.scale else u.scale,
                              if c.transform != p.transform then p.transform else u.transform,
                              if c.dest != p.dest then p.dest else u.dest,
                              if c.source != p.source then c.source else u.source,
                              u.alpha, u.chroma, u.coef,
                              if c.desc != p.desc || c.intent != p.intent then Shows(p).image else u.image);
            if c.rep != p.rep then WithRep(v, p.rep) else v
  {
    hide Replay, GeometryDiff, ViewportDiff, RepDiff, ImageDiff;
    var geometry, viewport, rep := GeometryDiff(c, p), ViewportDiff(c, p), RepDiff(c, p);
    ReplayAppend(u, geometry + viewport + rep, ImageDiff(c, p));
    ReplayAppend(u, geometry + viewport, rep);
    ReplayAppend(u, geometry, viewport);
    ReplayGeometry(u, c, p);
    var u1 := Replay(u, geometry);
    ReplayViewport(u1, c, p);
    var u2 := Replay(u1, viewport);
    ReplayRepDiff(u2, c, p);
    ReplayImage(Replay(u2, rep), c, p);
  }

  /** Equal in every respect but the source rectangle. */
  predicate Alike(u: Upstream, v: Upstream) {
    u == v.(source := u.source)
  }

  /** Every group that the client leaves unchanged already agrees upstream. */
  predicate UnchangedAgree(u: Upstream, c: SurfaceState, p: SurfaceState) {
    var v := Shows(p);
    && (c.scale == p.scale ==> u.scale == v.scale)
    && (c.transform == p.transform ==> u.transform == v.transform)
    && (c.dest == p.dest ==> u.dest == v.dest)
    && (c.rep == p.rep ==> u.alpha == v.alpha && u.chroma == v.chroma && u.coef == v.coef)
    && (c.desc == p.desc && c.intent == p.intent ==> u.image == v.image)
  }

  /** From any upstream state at all, also one a previous client left behind: sending the differences
      has the effect of sending everything exactly if the unchanged groups agree already. */
  lemma MeaningExactly(u: Upstream, c: SurfaceState, p: SurfaceState)
    ensures Alike(Replay(u, Diff(c, p)), Shows(p)) <==> UnchangedAgree(u, c, p)
  {
    ReplayDiff(u, c, p);
  }

  /** The source rectangle is mirrored exactly if it was before and this commit does not change it. */
  lemma SourceExactly(u: Upstream, c: SurfaceState, p: SurfaceState)
    ensures Replay(u, Diff(c, p)).source == p.source <==> c.source == p.source && u.source == p.source
  {
    ReplayDiff(u, c, p);
  }

  // ----- whole runs, against a client that talks to the compositor itself

  datatype ClientRequest =
    | Scale(n: int)
    | Transform(t: int)
    | Destination(dest: Extent)
    | Source(source: Rect)
    | AlphaMode(a: nat)
    | ChromaLocation(l: nat)
    | Coefficients(k: nat, g: nat)
    | ViewportDestroyed
    | RepDestroyed
    | ImageDesc(d: nat, i: nat)
    | NoImageDesc
    | Commit

  /** The checks of set_destination and set_source; a request that fails them changes nothing. */
  predicate DestinationOk(d: Extent) {
    (d.w > 0 && d.h > 0) || d == NO_DEST
  }

  predicate SourceOk(s: Rect) {
    (s.x >= 0 && s.y >= 0 && s.w > 0 && s.h > 0) || s == NO_SOURCE
  }

  /** The request handlers on the pending state; destroying the viewport object leaves its values pending. */
  function Handle(p: SurfaceState, r: ClientRequest): SurfaceState {
    match r
    case Scale(n) => p.(scale := n)
    case Transform(t) => p.(transform := t)
    case Destination(d) => if DestinationOk(d) then p.(dest := d) else p
    case Source(s) => if SourceOk(s) then p.(source := s) else p
    case AlphaMode(a) => p.(rep := p.rep.(hasAlpha := true, alpha := a))
    case ChromaLocation(l) => p.(rep := p.rep.(hasChroma := true, chroma := l))
    case Coefficients(k, g) => p.(rep := p.rep.(hasCoef := true, coef := k, range := g))
    case ViewportDestroyed => p
    case RepDestroyed => p.(rep := NO_REP)
    case ImageDesc(d, i) => p.(desc := Some(d), intent := i)
    case NoImageDesc => p.(desc := None, intent := 0)
    case Commit => p
  }

  /** The same request on the compositor's own pending state, with the compositor's own checks; there,
      destroying the viewport object removes crop and scale. */
  function Direct(u: Upstream, r: ClientRequest): Upstream {
    match r
    case Scale(n) => Apply(u, SetScale(n))
    case Transform(t) => Apply(u, SetTransform(t))
    case Destination(d) => if DestinationOk(d) then Apply(u, SetDestination(d)) else u
    case Source(s) => if SourceOk(s) then Apply(u, SetSource(s)) else u
    case AlphaMode(a) => Apply(u, SetAlpha(a))
    case ChromaLocation(l) => Apply(u, SetChroma(l))
    case Coefficients(k, g) => Apply(u, SetCoef(k, g))
    case ViewportDestroyed => u.(dest := NO_DEST, source := NO_SOURCE)
    case RepDestroyed => Apply(u, RecreateRep)
    case ImageDesc(d, i) => Apply(u, SetDesc(d, i))
    case NoImageDesc => Apply(u, UnsetDesc)
    case Commit => u
  }

  /** A client surface, what it committed last, and the upstream surface it draws on. */
  datatype Link = Link(pending: SurfaceState, committed: SurfaceState, upstream: Upstream)

  function Step(l: Link, r: ClientRequest): Link {
    if r.Commit? then Link(l.pending, l.pending, Replay(l.upstream, Diff(l.committed, l.pending)))
    else l.(pending := Handle(l.pending, r))
  }

  function Run(l: Link, requests: seq<ClientRequest>): Link {
    if requests == [] then l else Step(Run(l, requests[..|requests| - 1]), requests[|requests| - 1])
  }

  function DirectRun(u: Upstream, requests: seq<ClientRequest>): Upstream {
    if requests == [] then u else Direct(DirectRun(u, requests[..|requests| - 1]), requests[|requests| - 1])
  }

  const START := Link(DEFAULT_STATE, DEFAULT_STATE, DEFAULT_UPSTREAM)

  // ----- viewport values that outlive their object

  predicate SetsDest(r: ClientRequest) {
    r.Destination? && DestinationOk(r.dest)
  }

  predicate SetsSource(r: ClientRequest) {
    r.Source? && SourceOk(r.source)
  }

  /** The viewport was destroyed by request k while a destination was pending, and none has been set since. */
  predicate DestLeft(requests: seq<ClientRequest>, k: nat) {
    k < |requests| && requests[k].ViewportDestroyed?
    && Run(START, requests[..k]).pending.dest != NO_DEST
    && forall i :: k < i < |requests| ==> !SetsDest(requests[i])
  }

  predicate StaleDest(requests: seq<ClientRequest>) {
    exists k: nat :: k < |requests| && DestLeft(requests, k)
  }

  predicate SourceLeft(requests: seq<ClientRequest>, k: nat) {
    k < |requests| && requests[k].ViewportDestroyed?
    && Run(START, requests[..k]).pending.source != NO_SOURCE
    && forall i :: k < i < |requests| ==> !SetsSource(requests[i])
  }

  predicate StaleSource(requests: seq<ClientRequest>) {
    exists k: nat :: k < |requests| && SourceLeft(requests, k)
  }

  lemma PendingDest(init: seq<ClientRequest>, r: ClientRequest)
    ensures Run(START, init + [r]).pending == Handle(Run(START, init).pending, r)
  {
    hide Replay, Diff;
    assert (init + [r])[..|init|] == init;
  }

  lemma DestLeftMore(init: seq<ClientRequest>, r: ClientRequest, k: nat)
    requires k < |init|
    ensures DestLeft(init + [r], k) <==> DestLeft(init, k) && !SetsDest(r)
  {
    hide Run, SetsDest;
    var requests, n := init + [r], |init|;
    assert requests[k] == init[k] && requests[..k] == init[..k] && requests[n] == r;
    assert forall i :: k < i < n ==> requests[i] == init[i];
    if DestLeft(requests, k) {
      forall i | k < i < n ensures !SetsDest(init[i]) { assert !SetsDest(requests[i]); }
    }
  }

  lemma DestLeftLast(init: seq<ClientRequest>, r: ClientRequest)
    ensures DestLeft(init + [r], |init|) <==> r.ViewportDestroyed? && Run(START, init).pending.dest != NO_DEST
  {
    hide Run, SetsDest;
    assert (init + [r])[..|init|] == init;
  }

  lemma StaleDestMore(init: seq<ClientRequest>, r: ClientRequest)
    ensures StaleDest(init + [r]) <==>
            !SetsDest(r) && (StaleDest(init) || (r.ViewportDestroyed? && Run(START, init).pending.dest != NO_DEST))
  {
    hide Run, DestLeft;
    var requests := init + [r];
    DestroyedSetsNothing(r);
    DestLeftLast(init, r);
    if StaleDest(requests) {
      var k: nat :| k < |requests| && DestLeft(requests, k);
      if k < |init| { DestLeftMore(init, r, k); }
    }
    if !SetsDest(r) && StaleDest(init) {
      var k: nat :| k < |init| && DestLeft(init, k);
      DestLeftMore(init, r, k);
    }
  }

  lemma SourceLeftMore(init: seq<ClientRequest>, r: ClientRequest, k: nat)
    requires k < |init|
    ensures SourceLeft(init + [r], k) <==> SourceLeft(init, k) && !SetsSource(r)
  {
    hide Run, SetsSource;
    var requests, n := init + [r], |init|;
    assert requests[k] == init[k] && requests[..k] == init[..k] && requests[n] == r;
    assert forall i :: k < i < n ==> requests[i] == init[i];
    if SourceLeft(requests, k) {
      forall i | k < i < n ensures !SetsSource(init[i]) { assert !SetsSource(requests[i]); }
    }
  }

  lemma SourceLeftLast(init: seq<ClientRequest>, r: ClientRequest)
    ensures SourceLeft(init + [r], |init|) <==> r.ViewportDestroyed? && Run(START, init).pending.source != NO_SOURCE
  {
    hide Run, SetsSource;
    assert (init + [r])[..|init|] == init;
  }

  lemma StaleSourceMore(init: seq<ClientRequest>, r: ClientRequest)
    ensures StaleSource(init + [r]) <==>
            !SetsSource(r) && (StaleSource(init) || (r.ViewportDestroyed? && Run(START, init).pending.source != NO_SOURCE))
  {
    hide Run, SourceLeft;
    var requests := init + [r];
    DestroyedSetsNothing(r);
    SourceLeftLast(init, r);
    if StaleSource(requests) {
      var k: nat :| k < |requests| && SourceLeft(requests, k);
      if k < |init| { SourceLeftMore(init, r, k); }
    }
    if !SetsSource(r) && StaleSource(init) {
      var k: nat :| k < |init| && SourceLeft(init, k);
      SourceLeftMore(init, r, k);
    }
  }

  lemma DestroyedSetsNothing(r: ClientRequest)
    ensures r.ViewportDestroyed? ==> !SetsDest(r) && !SetsSource(r)
  {
  }

  /** The pending state as the compositor would have it, had the client asked it directly. */
  function Meant(p: SurfaceState, staleDest: bool, staleSource: bool): Upstream {
    Shows(p).(dest := if staleDest then NO_DEST else p.dest, source := if staleSource then NO_SOURCE else p.source)
  }

  lemma HandleMeans(p: SurfaceState, r: ClientRequest, staleDest: bool, staleSource: bool)
    requires staleDest ==> p.dest != NO_DEST
    requires staleSource ==> p.source != NO_SOURCE
    ensures var dest := !SetsDest(r) && (staleDest || (r.ViewportDestroyed? && p.dest != NO_DEST));
            var source := !SetsSource(r) && (staleSource || (r.ViewportDestroyed? && p.source != NO_SOURCE));
            && Direct(Meant(p, staleDest, staleSource), r) == Meant(Handle(p, r), dest, source)
            && (dest ==> Handle(p, r).dest != NO_DEST)
            && (source ==> Handle(p, r).source != NO_SOURCE)
  {
    hide Replay, Diff;
  }

  lemma StartMeans()
    ensures Meant(DEFAULT_STATE, false, false) == DEFAULT_UPSTREAM
  {
  }

  lemma {:induction false} PendingMeans(requests: seq<ClientRequest>)
    ensures var p := Run(START, requests).pending;
            && DirectRun(DEFAULT_UPSTREAM, requests) == Meant(p, StaleDest(requests), StaleSource(requests))
            && (StaleDest(requests) ==> p.dest != NO_DEST)
            && (StaleSource(requests) ==> p.source != NO_SOURCE)
  {
    hide Meant, Direct, Handle, SetsDest, SetsSource;
    if requests != [] {
      var init, r := requests[..|requests| - 1], requests[|requests| - 1];
      assert requests == init + [r];
      PendingMeans(init);
      StaleDestMore(init, r);
      StaleSourceMore(init, r);
      PendingDest(init, r);
      hide StaleDest, StaleSource, Run;
      HandleMeans(Run(START, init).pending, r, StaleDest(init), StaleSource(init));
    } else {
      StartMeans();
    }
  }

  lemma {:induction false} CommittedMirrored(requests: seq<ClientRequest>)
    ensures Alike(Run(START, requests).upstream, Shows(Run(START, requests).committed))
  {
    if requests != [] {
      var before := Run(START, requests[..|requests| - 1]);
      CommittedMirrored(requests[..|requests| - 1]);
      MeaningExactly(before.upstream, before.committed, before.pending);
    }
  }

  /** Forwarding is transparent: a commit leaves upstream what a client connected to the compositor directly
      would have, the source rectangle aside, if and only if no destination has outlived its viewport. */
  lemma Transparent(requests: seq<ClientRequest>)
    requires requests != [] && requests[|requests| - 1] == Commit
    ensures Alike(Run(START, requests).upstream, DirectRun(DEFAULT_UPSTREAM, requests)) <==> !StaleDest(requests)
  {
    hide StaleDest, StaleSource;
    CommittedMirrored(requests);
    PendingMeans(requests);
  }

  const DESTROY_RUN: seq<ClientRequest> := [Destination(Extent(100, 100)), Commit, ViewportDestroyed, Commit]

  lemma DestroyPending()
    ensures Run(START, DESTROY_RUN[..2]).pending == Run(START, DESTROY_RUN[..3]).pending
    ensures Run(START, DESTROY_RUN[..3]).pending == DEFAULT_STATE.(dest := Extent(100, 100))
  {
    hide Step, Replay, Diff;
    var r := DESTROY_RUN;
    assert r[..1] == [] + [r[0]] && r[..2] == r[..1] + [r[1]] && r[..3] == r[..2] + [r[2]];
    PendingDest([], r[0]);
    PendingDest(r[..1], r[1]);
    PendingDest(r[..2], r[2]);
  }

  /** A client that destroys its viewport stays scaled. */
  lemma DestroyedViewportStays()
    ensures Run(START, DESTROY_RUN).upstream.dest == Extent(100, 100)
    ensures DirectRun(DEFAULT_UPSTREAM, DESTROY_RUN).dest == NO_DEST
  {
    hide Replay, Diff, StaleSource, Direct;
    var r := DESTROY_RUN;
    DestroyPending();
    assert Run(START, r).pending == Run(START, r).committed == Run(START, r[..3]).pending;
    hide Run, DirectRun;
    assert StaleDest(r) by { assert DestLeft(r, 2); }
    PendingMeans(r);
    CommittedMirrored(r);
  }

  /** No commit of the run takes a source rectangle other than the default. */
  predicate SourceUnused(requests: seq<ClientRequest>) {
    forall k :: 0 <= k < |requests| && requests[k].Commit? ==> Run(START, requests[..k]).pending.source == NO_SOURCE
  }

  lemma SourceUnusedMore(init: seq<ClientRequest>, r: ClientRequest)
    ensures SourceUnused(init + [r]) <==>
            SourceUnused(init) && (r.Commit? ==> Run(START, init).pending.source == NO_SOURCE)
  {
    hide Step, Diff, Replay, Run;
    var requests, n := init + [r], |init|;
    assert requests[..n] == init && requests[n] == r;
    assert forall k :: 0 <= k < n ==> requests[..k] == init[..k];
    if SourceUnused(requests) {
      forall k | 0 <= k < n && init[k].Commit? ensures Run(START, init[..k]).pending.source == NO_SOURCE {
        assert requests[k].Commit?;
      }
    }
  }

  lemma SourceStep(l: Link, r: ClientRequest)
    ensures Step(l, r).committed.source == if r.Commit? then l.pending.source else l.committed.source
    ensures Step(l, r).upstream.source ==
            if r.Commit? && l.committed.source != l.pending.source then l.committed.source else l.upstream.source
  {
    ReplayDiff(l.upstream, l.committed, l.pending);
  }

  lemma {:induction false} SourceLags(requests: seq<ClientRequest>)
    ensures var l := Run(START, requests);
            && (l.upstream.source == l.committed.source <==> SourceUnused(requests))
            && (SourceUnused(requests) ==> l.committed.source == NO_SOURCE)
  {
    hide Step;
    if requests != [] {
      hide SourceUnused;
      var init, last := requests[..|requests| - 1], requests[|requests| - 1];
      SourceLags(init);
      SourceStep(Run(START, init), last);
      SourceUnusedMore(init, last);
      assert requests == init + [last];
    }
  }

  /** The source rectangles of the commits, in order, with the one a surface starts with. */
  function CommitSources(requests: seq<ClientRequest>): (s: seq<Rect>)
    ensures s != []
  {
    if requests == [] then [NO_SOURCE]
    else
      var init := requests[..|requests| - 1];
      CommitSources(init) + if requests[|requests| - 1].Commit? then [Run(START, init).pending.source] else []
  }

  /** The last one before the latest that differs from it. */
  function LastOther(sources: seq<Rect>): Rect
    requires sources != []
  {
    var n := |sources|;
    if n == 1 then NO_SOURCE
    else if sources[n - 2] != sources[n - 1] then sources[n - 2]
    else LastOther(sources[..n - 1])
  }

  lemma LastOtherMore(sources: seq<Rect>, s: Rect)
    requires sources != []
    ensures LastOther(sources + [s]) ==
            if sources[|sources| - 1] != s then sources[|sources| - 1] else LastOther(sources)
  {
    assert (sources + [s])[..|sources|] == sources;
  }

  /** Upstream is the source rectangle before the last change. */
  lemma {:induction false} SourceLate(requests: seq<ClientRequest>)
    ensures var l, sources := Run(START, requests), CommitSources(requests);
            l.committed.source == sources[|sources| - 1] && l.upstream.source == LastOther(sources)
  {
    hide Step;
    if requests != [] {
      var init, last := requests[..|requests| - 1], requests[|requests| - 1];
      SourceLate(init);
      SourceStep(Run(START, init), last);
      if last.Commit? {
        LastOtherMore(CommitSources(init), Run(START, init).pending.source);
      } else {
        assert CommitSources(requests) == CommitSources(init);
      }
    }
  }

  /** All of the upstream surface is as for a directly connected client if and only if no destination has
      outlived its viewport and the source rectangle, one change late, happens to be the right one: it was
      never used, or it has outlived its viewport and the one before it was the default. */
  lemma SourceMirroredExactly(requests: seq<ClientRequest>)
    requires requests != [] && requests[|requests| - 1] == Commit
    ensures Run(START, requests).upstream == DirectRun(DEFAULT_UPSTREAM, requests) <==>
            !StaleDest(requests)
            && if StaleSource(requests) then LastOther(CommitSources(requests)) == NO_SOURCE else SourceUnused(requests)
  {
    hide StaleDest, StaleSource, SourceUnused, LastOther, CommitSources;
    Transparent(requests);
    PendingMeans(requests);
    SourceLags(requests);
    SourceLate(requests);
  }

  /** A second client that starts from the defaults on a surface the first one left transformed. */
  lemma LeftoverStays(u: Upstream)
    requires !Alike(u, DEFAULT_UPSTREAM)
    ensures !Alike(Step(Link(DEFAULT_STATE, DEFAULT_STATE, u), Commit).upstream, Shows(DEFAULT_STATE))
  {
    MeaningExactly(u, DEFAULT_STATE, DEFAULT_STATE);
  }

  // ----- the handler itself

  lemma GroupsApart(c: SurfaceState, p: SurfaceState)
    ensures var c1 := c.(scale := p.scale, transform := p.transform);
            var c2 := c1.(dest := p.dest, source := p.source);
            var c3 := c2.(rep := p.rep);
            && ViewportDiff(c1, p) == ViewportDiff(c, p)
            && RepDiff(c2, p) == RepDiff(c, p)
            && ImageDiff(c3, p) == ImageDiff(c, p)
  {
  }

  /** The parts of `struct forward_surface` read and written here; `sent` is what went upstream. */
  class DiffSurface {
    var pending: SurfaceState
    var committed: SurfaceState
    ghost var sent: seq<Request>

    constructor ()
      ensures pending == committed == DEFAULT_STATE && sent == []
    {
      pending, committed, sent := DEFAULT_STATE, DEFAULT_STATE, [];
    }

    method Send(r: Request)
      modifies this`sent
      ensures sent == old(sent) + [r]
    {
      sent := sent + [r];
    }

    method ApplyGeometry()
      modifies this`committed, this`sent
      ensures committed == old(committed).(scale := pending.scale, transform := pending.transform)
      ensures sent == old(sent) + GeometryDiff(old(committed), pending)
    {
      if committed.scale != pending.scale {
        Send(SetScale(pending.scale));
        committed := committed.(scale := pending.scale);
      }
      if committed.transform != pending.transform {
        Send(SetTransform(pending.transform));
        committed := committed.(transform := pending.transform);
      }
    }

    method ApplyViewport()
      modifies this`committed, this`sent
      ensures committed == old(committed).(dest := pending.dest, source := pending.source)
      ensures sent == old(sent) + ViewportDiff(old(committed), pending)
    {
      if committed.dest.w != pending.dest.w || committed.dest.h != pending.dest.h {
        Send(SetDestination(pending.dest));
        committed := committed.(dest := pending.dest);
      }
      if committed.source.x != pending.source.x || committed.source.y != pending.source.y
         || committed.source.w != pending.source.w || committed.source.h != pending.source.h {
        Send(SetSource(committed.source));
        committed := committed.(source := pending.source);
      }
    }

    method ApplyColorRep()
      modifies this`committed, this`sent
      ensures committed == old(committed).(rep := pending.rep)
      ensures sent == old(sent) + RepDiff(old(committed), pending)
    {
      if committed.rep != pending.rep {
        Send(RecreateRep);
        if pending.rep.hasAlpha {
          Send(SetAlpha(pending.rep.alpha));
        }
        if pending.rep.hasChroma {
          Send(SetChroma(pending.rep.chroma));
        }
        if pending.rep.hasCoef {
          Send(SetCoef(pending.rep.coef, pending.rep.range));
        }
        committed := committed.(rep := pending.rep);
      }
    }

    method ApplyImageDesc()
      modifies this`committed, this`sent
      ensures committed == old(committed).(desc := pending.desc, intent := pending.intent)
      ensures sent == old(sent) + ImageDiff(old(committed), pending)
    {
      if committed.desc != pending.desc || committed.intent != pending.intent {
        if pending.desc.None? {
          Send(UnsetDesc);
        } else {
          Send(SetDesc(pending.desc.value, pending.intent));
        }
        if committed.desc != pending.desc {
          committed := committed.(desc := pending.desc);
        }
        committed := committed.(intent := pending.intent);
      }
    }

    /** The differing part of `apply_pending_surface_updates()`. */
    method ApplyPendingUpdates()
      modifies this`committed, this`sent
      ensures committed == pending
      ensures sent == old(sent) + Diff(old(committed), pending)
    {
      hide GeometryDiff, ViewportDiff, RepDiff, ImageDiff;
      GroupsApart(committed, pending);
      ApplyGeometry();
      ApplyViewport();
      ApplyColorRep();
      ApplyImageDesc();
      assert committed == pending;
    }
  }
}
