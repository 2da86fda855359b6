/** Replaying a committed parent's subsurface lists onto the upstream compositor: the requests sent,
    and what they do to the upstream stacking order. */
module SubsurfaceReplay {
  import opened WlLists
  import opened Stacking

  /** What is stacked on the upstream background surface. */
  datatype Layer<T> = Background | Indicator | Sub(s: T)

  /** The pending entry of a child, with whether its upstream wl_subsurface exists already. */
  datatype Entry<T> = Entry(s: T, created: bool, x: int, y: int, desync: bool)

  datatype Request<T> =
    | GetSubsurface(s: T)
    | SetSync(s: T)
    | SetDesync(s: T)
    | SetPosition(s: T, x: int, y: int)
    | PlaceAbove(s: T, ref: Layer<T>)
    | PlaceBelow(s: T, ref: Layer<T>)

  /** The upstream side: the stack from bottom to top, and the attributes of each subsurface. */
  datatype Upstream<!T> = Upstream(stack: seq<Layer<T>>, pos: map<T, (int, int)>, desync: map<T, bool>)

  /** A request the protocol accepts: it names a subsurface that exists, and as reference another one
      or the parent. */
  predicate Valid<T(==)>(u: Upstream<T>, r: Request<T>) {
    match r
    case GetSubsurface(s) => Sub(s) !in u.stack
    case PlaceAbove(s, ref) => Sub(s) in u.stack && ref in u.stack && ref != Sub(s)
    case PlaceBelow(s, ref) => Sub(s) in u.stack && ref in u.stack && ref != Sub(s)
    case _ => Sub(r.s) in u.stack
  }

  function Apply<T(==)>(u: Upstream<T>, r: Request<T>): Upstream<T>
    requires Valid(u, r)
  {
    match r
    case GetSubsurface(s) => u.(stack := u.stack + [Sub(s)])
    case SetSync(s) => u.(desync := u.desync[s := false])
    case SetDesync(s) => u.(desync := u.desync[s := true])
    case SetPosition(s, x, y) => u.(pos := u.pos[s := (x, y)])
    case PlaceAbove(s, ref) => u.(stack := PlacedAbove(u.stack, Sub(s), ref))
    case PlaceBelow(s, ref) => u.(stack := PlacedBelow(u.stack, Sub(s), ref))
  }

  predicate AllValid<T(==)>(u: Upstream<T>, rs: seq<Request<T>>)
    decreases |rs|, 0
  {
    rs == [] || (AllValid(u, rs[..|rs| - 1]) && Valid(Replay(u, rs[..|rs| - 1]), rs[|rs| - 1]))
  }

  function Replay<T(==)>(u: Upstream<T>, rs: seq<Request<T>>): Upstream<T>
    requires AllValid(u, rs)
    decreases |rs|, 1
  {
    if rs == [] then u else Apply(Replay(u, rs[..|rs| - 1]), rs[|rs| - 1])
  }

  /** `apply_pending_subsurf_entry()`. */
  function EntryRequests<T>(e: Entry<T>): seq<Request<T>> {
    (if e.created then [] else [GetSubsurface(e.s)])
    + [if e.desync then SetDesync(e.s) else SetSync(e.s), SetPosition(e.s, e.x, e.y)]
  }

  /** The requests for the first k entries of `subsurfaces_above`, in list order. */
  function EmitAbove<T>(above: seq<Entry<T>>, k: nat): seq<Request<T>>
    requires k <= |above|
  {
    if k == 0 then []
    else EmitAbove(above, k - 1) + EntryRequests(above[k - 1])
         + [PlaceAbove(above[k - 1].s, if k == 1 then Background else Sub(above[k - 2].s))]
  }

  /** The requests for the last k entries of `subsurfaces_below`, in reverse list order. */
  function EmitBelow<T>(below: seq<Entry<T>>, k: nat): seq<Request<T>>
    requires k <= |below|
  {
    if k == 0 then []
    else
      var n := |below| - k;
      EmitBelow(below, k - 1) + EntryRequests(below[n])
      + [PlaceBelow(below[n].s, if k == 1 then Background else Sub(below[n + 1].s))]
  }

  function Emit<T>(below: seq<Entry<T>>, above: seq<Entry<T>>): seq<Request<T>> {
    EmitAbove(above, |above|) + EmitBelow(below, |below|)
  }

  function Subs<T>(entries: seq<Entry<T>>): (r: seq<Layer<T>>)
    ensures |r| == |entries| && forall i :: 0 <= i < |entries| ==> r[i] == Sub(entries[i].s)
  {
    seq(|entries|, i requires 0 <= i < |entries| => Sub(entries[i].s))
  }

  // ----- replaying one entry

  lemma ReplayStep<T>(u: Upstream<T>, rs: seq<Request<T>>, r: Request<T>)
    requires AllValid(u, rs) && Valid(Replay(u, rs), r)
    ensures AllValid(u, rs + [r]) && Replay(u, rs + [r]) == Apply(Replay(u, rs), r)
  {
    assert (rs + [r])[..|rs|] == rs;
  }

  /** The stack once the entry's subsurface exists. */
  function Ensured<T>(stack: seq<Layer<T>>, e: Entry<T>): seq<Layer<T>> {
    if e.created then stack else stack + [Sub(e.s)]
  }

  lemma ReplayEntry<T>(u: Upstream<T>, rs: seq<Request<T>>, e: Entry<T>)
    requires AllValid(u, rs)
    requires e.created <==> Sub(e.s) in Replay(u, rs).stack
    ensures AllValid(u, rs + EntryRequests(e))
    ensures var v, w := Replay(u, rs), Replay(u, rs + EntryRequests(e));
            w.stack == Ensured(v.stack, e) && w.pos == v.pos[e.s := (e.x, e.y)] && w.desync == v.desync[e.s := e.desync]
  {
    hide AllValid, Replay;
    var r1 := if e.desync then SetDesync(e.s) else SetSync(e.s);
    var r2 := SetPosition(e.s, e.x, e.y);
    var rs1 := if e.created then rs else rs + [GetSubsurface(e.s)];
    if !e.created { ReplayStep(u, rs, GetSubsurface(e.s)); }
    ReplayStep(u, rs1, r1);
    ReplayStep(u, rs1 + [r1], r2);
    assert rs + EntryRequests(e) == rs1 + [r1] + [r2];
  }

  // ----- placing next to a block that is already in order

  /** Moving x directly above the block M, wherever it was, and leaving the rest in order. */
  lemma MoveAbove<T>(P: seq<Layer<T>>, M: seq<Layer<T>>, Q: seq<Layer<T>>, x: Layer<T>) returns (P': seq<Layer<T>>, Q': seq<Layer<T>>)
    requires Distinct(P + M + Q) && M != [] && x !in M && x in P + M + Q
    ensures x != M[|M| - 1] && M[|M| - 1] in P + M + Q
    ensures PlacedAbove(P + M + Q, x, M[|M| - 1]) == P' + (M + [x]) + Q'
    ensures Distinct(P' + (M + [x]) + Q')
    ensures forall y :: y in P' <==> y in P && y != x
    ensures forall y :: y in Q' <==> y in Q && y != x
  {
    P', Q' := TakeOut(P, M, Q, x);
    var s, rest, last := P + M + Q, P' + M + Q', |P'| + |M| - 1;
    assert rest[last] == M[|M| - 1];
    IndexUnique(rest, last);
    assert s[|P| + |M| - 1] == M[|M| - 1];
    assert Inserted(rest, last + 1, x) == P' + (M + [x]) + Q';
    DistinctInserted(rest, last + 1, x);
  }

  lemma MoveBelow<T>(P: seq<Layer<T>>, M: seq<Layer<T>>, Q: seq<Layer<T>>, x: Layer<T>) returns (P': seq<Layer<T>>, Q': seq<Layer<T>>)
    requires Distinct(P + M + Q) && M != [] && x !in M && x in P + M + Q
    ensures x != M[0] && M[0] in P + M + Q
    ensures PlacedBelow(P + M + Q, x, M[0]) == P' + ([x] + M) + Q'
    ensures Distinct(P' + ([x] + M) + Q')
    ensures forall y :: y in P' <==> y in P && y != x
    ensures forall y :: y in Q' <==> y in Q && y != x
  {
    P', Q' := TakeOut(P, M, Q, x);
    var s, rest, first := P + M + Q, P' + M + Q', |P'|;
    assert rest[first] == M[0];
    IndexUnique(rest, first);
    assert s[|P|] == M[0];
    assert Inserted(rest, first, x) == P' + ([x] + M) + Q';
    DistinctInserted(rest, first, x);
  }

  lemma TakeOut<T>(P: seq<Layer<T>>, M: seq<Layer<T>>, Q: seq<Layer<T>>, x: Layer<T>) returns (P': seq<Layer<T>>, Q': seq<Layer<T>>)
    requires Distinct(P + M + Q) && x !in M && x in P + M + Q
    ensures Without(P + M + Q, x) == P' + M + Q'
    ensures Distinct(P' + M + Q') && x !in P' + M + Q'
    ensures forall y :: y in P' <==> y in P && y != x
    ensures forall y :: y in Q' <==> y in Q && y != x
  {
    hide Distinct, Without, Removed;
    Apart(P, M, Q);
    if x in P {
      var k := IndexOf(P, x);
      P', Q' := Removed(P, k), Q;
      DistinctRemoved(P, k);
      RemovedEarly(P, M, Q, k);
      WithoutAt(P + M + Q, k);
    } else {
      assert x in Q;
      var j := IndexOf(Q, x);
      P', Q' := P, Removed(Q, j);
      DistinctRemoved(Q, j);
      RemovedLate(P, M, Q, j);
      WithoutAt(P + M + Q, |P| + |M| + j);
    }
  }

  lemma WithoutAt<T>(s: seq<T>, k: nat)
    requires Distinct(s) && k < |s|
    ensures Without(s, s[k]) == Removed(s, k) && Distinct(Removed(s, k)) && s[k] !in Removed(s, k)
  {
    IndexUnique(s, k);
    DistinctRemoved(s, k);
  }

  lemma RemovedEarly<T>(P: seq<T>, M: seq<T>, Q: seq<T>, k: nat)
    requires k < |P|
    ensures (P + M + Q)[k] == P[k] && Removed(P + M + Q, k) == Removed(P, k) + M + Q
  {
    var s := P + M + Q;
    assert s[..k] == P[..k] && s[k + 1..] == P[k + 1..] + M + Q;
  }

  lemma RemovedLate<T>(P: seq<T>, M: seq<T>, Q: seq<T>, j: nat)
    requires j < |Q|
    ensures var k := |P| + |M| + j; (P + M + Q)[k] == Q[j] && Removed(P + M + Q, k) == P + M + Removed(Q, j)
  {
    var s, k := P + M + Q, |P| + |M| + j;
    assert s[..k] == P + M + Q[..j] && s[k + 1..] == Q[j + 1..];
  }

  lemma Apart<T>(P: seq<T>, M: seq<T>, Q: seq<T>)
    requires Distinct(P + M + Q)
    ensures Distinct(P) && Distinct(Q)
    ensures forall y :: y in P ==> y !in Q
  {
    DistinctParts(P + M, Q);
    DistinctParts(P, M);
  }

  // ----- the two chains

  ghost predicate DistinctEntries<T>(es: seq<Entry<T>>) {
    forall i, j :: 0 <= i < j < |es| ==> es[i].s != es[j].s
  }

  ghost predicate AttrsOk<T>(u: Upstream<T>, es: seq<Entry<T>>) {
    forall i :: 0 <= i < |es| ==>
      && es[i].s in u.pos && u.pos[es[i].s] == (es[i].x, es[i].y)
      && es[i].s in u.desync && u.desync[es[i].s] == es[i].desync
  }

  ghost predicate KnowsExisting<T>(stack: seq<Layer<T>>, es: seq<Entry<T>>) {
    forall i :: 0 <= i < |es| ==> (es[i].created <==> Sub(es[i].s) in stack)
  }

  lemma AttrsExtend<T>(v: Upstream<T>, w: Upstream<T>, es: seq<Entry<T>>, e: Entry<T>)
    requires AttrsOk(v, es)
    requires w.pos == v.pos[e.s := (e.x, e.y)] && w.desync == v.desync[e.s := e.desync]
    requires forall i :: 0 <= i < |es| ==> es[i].s != e.s
    ensures AttrsOk(w, es + [e]) && AttrsOk(w, [e] + es)
  {
  }

  /** One entry replayed and placed directly above the block M (or directly below it). */
  lemma PlaceEntry<T>(u: Upstream<T>, rs: seq<Request<T>>, e: Entry<T>, P: seq<Layer<T>>, M: seq<Layer<T>>, Q: seq<Layer<T>>, up: bool)
    returns (P': seq<Layer<T>>, Q': seq<Layer<T>>)
    requires AllValid(u, rs) && Replay(u, rs).stack == P + M + Q
    requires Distinct(P + M + Q) && M != [] && Sub(e.s) !in M
    requires e.created <==> Sub(e.s) in P + M + Q
    ensures var last := if up then PlaceAbove(e.s, M[|M| - 1]) else PlaceBelow(e.s, M[0]);
            var rs' := rs + EntryRequests(e) + [last];
            && AllValid(u, rs')
            && Replay(u, rs').stack == P' + (if up then M + [Sub(e.s)] else [Sub(e.s)] + M) + Q'
            && Distinct(Replay(u, rs').stack)
            && Replay(u, rs').pos == Replay(u, rs).pos[e.s := (e.x, e.y)]
            && Replay(u, rs').desync == Replay(u, rs).desync[e.s := e.desync]
    ensures forall y :: y in P' <==> y in P && y != Sub(e.s)
    ensures forall y :: y in Q' <==> y in Q && y != Sub(e.s)
  {
    hide AllValid, Replay, Distinct, EntryRequests, PlacedAbove, PlacedBelow;
    ReplayEntry(u, rs, e);
    var x := Sub(e.s);
    var Q1 := if e.created then Q else Q + [x];
    assert Ensured(P + M + Q, e) == P + M + Q1;
    if !e.created { AppendDistinct(P + M + Q, x); }
    if up {
      P', Q' := MoveAbove(P, M, Q1, x);
      ReplayStep(u, rs + EntryRequests(e), PlaceAbove(e.s, M[|M| - 1]));
    } else {
      P', Q' := MoveBelow(P, M, Q1, x);
      ReplayStep(u, rs + EntryRequests(e), PlaceBelow(e.s, M[0]));
    }
  }

  /** `s` is `s0` less the subsurfaces of `es`. */
  ghost predicate Less<T>(s: seq<Layer<T>>, s0: seq<Layer<T>>, es: seq<Entry<T>>) {
    && (forall y :: y in s ==> y in s0 && y !in Subs(es))
    && (forall y :: y in s0 && y !in Subs(es) ==> y in s)
  }

  lemma LessMore<T>(s: seq<Layer<T>>, s1: seq<Layer<T>>, s0: seq<Layer<T>>, es: seq<Entry<T>>, e: Entry<T>)
    requires Less(s, s0, es)
    requires forall y :: y in s1 <==> y in s && y != Sub(e.s)
    ensures Less(s1, s0, es + [e]) && Less(s1, s0, [e] + es)
  {
    assert Subs(es + [e]) == Subs(es) + [Sub(e.s)];
    assert Subs([e] + es) == [Sub(e.s)] + Subs(es);
  }

  lemma LessNone<T>(s: seq<Layer<T>>, es: seq<Entry<T>>)
    requires es == []
    ensures Less(s, s, es)
  {
  }

  lemma ReplayNothing<T>(u: Upstream<T>)
    ensures AllValid(u, []) && Replay(u, []) == u
  {
  }

  /** After the first k groups of requests for `above`: background, then those k in order, on top of what
      else was below and under what else was above. */
  lemma {:induction false} AboveChain<T>(u: Upstream<T>, above: seq<Entry<T>>, P0: seq<Layer<T>>, Q0: seq<Layer<T>>, k: nat)
    returns (P: seq<Layer<T>>, Q: seq<Layer<T>>)
    requires u.stack == P0 + [Background] + Q0 && Distinct(u.stack) && k <= |above|
    requires DistinctEntries(above) && KnowsExisting(u.stack, above)
    ensures AllValid(u, EmitAbove(above, k))
    ensures var v := Replay(u, EmitAbove(above, k));
            && v.stack == P + ([Background] + Subs(above[..k])) + Q && Distinct(v.stack)
            && AttrsOk(v, above[..k])
    ensures Less(P, P0, above[..k]) && Less(Q, Q0, above[..k])
    decreases k
  {
    hide AllValid, Replay, Distinct, EntryRequests, AttrsOk, Less;
    if k == 0 {
      P, Q := P0, Q0;
      LessNone(P0, above[..0]);
      LessNone(Q0, above[..0]);
      assert Subs(above[..0]) == [] && [Background] + Subs(above[..0]) == [Background];
      ReplayNothing(u);
      NoAttrs(u, above[..0]);
    } else {
      var e, done := above[k - 1], above[..k - 1];
      P, Q := AboveChain(u, above, P0, Q0, k - 1);
      var M, rs := [Background] + Subs(done), EmitAbove(above, k - 1);
      var P1, Q1 := P, Q;
      assert e.created <==> Sub(e.s) in P0 || Sub(e.s) in Q0;
      NotYetPlaced(e, done, P0, Q0, P1, [Background], Q1);
      P, Q := PlaceEntry(u, rs, e, P1, M, Q1, true);
      assert EmitAbove(above, k) == rs + EntryRequests(e) + [PlaceAbove(e.s, M[|M| - 1])];
      assert above[..k] == done + [e] && M + [Sub(e.s)] == [Background] + Subs(above[..k]);
      AttrsExtend(Replay(u, rs), Replay(u, EmitAbove(above, k)), done, e);
      LessMore(P1, P, P0, done, e);
      LessMore(Q1, Q, Q0, done, e);
    }
  }

  lemma NotYetPlaced<T>(e: Entry<T>, done: seq<Entry<T>>, P0: seq<Layer<T>>, Q0: seq<Layer<T>>,
                        P: seq<Layer<T>>, M: seq<Layer<T>>, Q: seq<Layer<T>>)
    requires e.created <==> Sub(e.s) in P0 || Sub(e.s) in Q0
    requires forall i :: 0 <= i < |done| ==> done[i].s != e.s
    requires Less(P, P0, done) && Less(Q, Q0, done)
    requires Sub(e.s) !in M
    ensures Sub(e.s) !in M + Subs(done) && Sub(e.s) !in Subs(done) + M
    ensures e.created <==> Sub(e.s) in P + (M + Subs(done)) + Q
    ensures e.created <==> Sub(e.s) in P + (Subs(done) + M) + Q
  {
    assert Sub(e.s) !in Subs(done);
  }

  /** The same for `below`, downwards from a block that starts with the background. */
  lemma {:induction false} BelowChain<T>(u: Upstream<T>, rs0: seq<Request<T>>, below: seq<Entry<T>>, extra: seq<Entry<T>>,
                                         P0: seq<Layer<T>>, M0: seq<Layer<T>>, Q0: seq<Layer<T>>, k: nat)
    returns (P: seq<Layer<T>>, Q: seq<Layer<T>>)
    requires AllValid(u, rs0) && Replay(u, rs0).stack == P0 + M0 + Q0 && Distinct(P0 + M0 + Q0)
    requires k <= |below| && DistinctEntries(below) && M0 != [] && M0[0] == Background
    requires forall i :: 0 <= i < |below| ==>
               Sub(below[i].s) !in M0 && (below[i].created <==> Sub(below[i].s) in P0 || Sub(below[i].s) in Q0)
    requires AttrsOk(Replay(u, rs0), extra)
    requires forall i, j :: 0 <= i < |below| && 0 <= j < |extra| ==> below[i].s != extra[j].s
    ensures AllValid(u, rs0 + EmitBelow(below, k))
    ensures var v := Replay(u, rs0 + EmitBelow(below, k));
            && v.stack == P + (Subs(below[|below| - k..]) + M0) + Q && Distinct(v.stack)
            && AttrsOk(v, below[|below| - k..]) && AttrsOk(v, extra)
    ensures Less(P, P0, below[|below| - k..]) && Less(Q, Q0, below[|below| - k..])
    decreases k
  {
    hide AllValid, Replay, Distinct, EntryRequests, AttrsOk, Less, EmitBelow;
    if k == 0 {
      P, Q := P0, Q0;
      LessNone(P0, below[|below|..]);
      LessNone(Q0, below[|below|..]);
      assert Subs(below[|below|..]) == [] && Subs(below[|below|..]) + M0 == M0;
      EmitMore(below, 0);
      assert rs0 + EmitBelow(below, 0) == rs0;
      NoAttrs(Replay(u, rs0), below[|below|..]);
    } else {
      var n := |below| - k;
      var e, done := below[n], below[n + 1..];
      P, Q := BelowChain(u, rs0, below, extra, P0, M0, Q0, k - 1);
      var M, rs := Subs(done) + M0, rs0 + EmitBelow(below, k - 1);
      var P1, Q1 := P, Q;
      NotYetPlaced(e, done, P0, Q0, P1, M0, Q1);
      P, Q := PlaceEntry(u, rs, e, P1, M, Q1, false);
      BelowRequests(rs0, below, k, M0);
      assert below[n..] == [e] + done;
      SubsBefore(e, done, M0);
      var v, w := Replay(u, rs), Replay(u, rs0 + EmitBelow(below, k));
      AttrsExtend(v, w, done, e);
      AttrsKeep(v, w, extra, e);
      LessMore(P1, P, P0, done, e);
      LessMore(Q1, Q, Q0, done, e);
    }
  }

  lemma BelowRequests<T>(rs0: seq<Request<T>>, below: seq<Entry<T>>, k: nat, M0: seq<Layer<T>>)
    requires 0 < k <= |below| && M0 != [] && M0[0] == Background
    ensures var n := |below| - k;
            var M := Subs(below[n + 1..]) + M0;
            rs0 + EmitBelow(below, k) ==
            rs0 + EmitBelow(below, k - 1) + EntryRequests(below[n]) + [PlaceBelow(below[n].s, M[0])]
  {
    hide EntryRequests;
    EmitMore(below, k - 1);
  }

  lemma SubsBefore<T>(e: Entry<T>, done: seq<Entry<T>>, M: seq<Layer<T>>)
    ensures [Sub(e.s)] + (Subs(done) + M) == Subs([e] + done) + M
  {
    assert Subs([e] + done) == [Sub(e.s)] + Subs(done);
  }

  lemma NoAttrs<T>(v: Upstream<T>, es: seq<Entry<T>>)
    requires es == []
    ensures AttrsOk(v, es)
  {
  }

  lemma AttrsKeep<T>(v: Upstream<T>, w: Upstream<T>, es: seq<Entry<T>>, e: Entry<T>)
    requires AttrsOk(v, es)
    requires w.pos == v.pos[e.s := (e.x, e.y)] && w.desync == v.desync[e.s := e.desync]
    requires forall i :: 0 <= i < |es| ==> es[i].s != e.s
    ensures AttrsOk(w, es)
  {
  }

  // ----- the main result

  /** What the upstream stack may look like before a commit: in any order, the subsurfaces that exist
      are among the children, and the indicator has never been put under the background. */
  ghost predicate Before<T>(u: Upstream<T>, below: seq<Entry<T>>, above: seq<Entry<T>>, P0: seq<Layer<T>>, Q0: seq<Layer<T>>) {
    && u.stack == P0 + [Background] + Q0 && Distinct(u.stack)
    && Indicator in Q0
    && (forall y :: y in u.stack && y.Sub? ==> y in Subs(below + above))
    && KnowsExisting(u.stack, below + above)
    && DistinctEntries(below + above)
  }

  /** Replaying the emitted requests leaves the upstream stack equal to
      below ++ [background] ++ above ++ [indicator], whatever its order was before; every request is
      valid when it is sent, and every child ends with its pending position and mode. */
  lemma ReplayOrders<T>(u: Upstream<T>, below: seq<Entry<T>>, above: seq<Entry<T>>, P0: seq<Layer<T>>, Q0: seq<Layer<T>>)
    requires Before(u, below, above, P0, Q0)
    ensures AllValid(u, Emit(below, above))
    ensures var v := Replay(u, Emit(below, above));
            && v.stack == Subs(below) + [Background] + Subs(above) + [Indicator]
            && AttrsOk(v, below + above)
  {
    hide AllValid, Replay, EntryRequests, AttrsOk;
    var all := below + above;
    SplitEntries(u.stack, below, above);
    var rs0 := EmitAbove(above, |above|);
    var P1, Q1 := AboveChain(u, above, P0, Q0, |above|);
    assert above[..|above|] == above && below[|below| - |below|..] == below;
    var M0 := [Background] + Subs(above);
    StillKnown(u, below, above, P0, Q0, P1, Q1);
    var P2, Q2 := BelowChain(u, rs0, below, above, P1, M0, Q1, |below|);
    var v := Replay(u, rs0 + EmitBelow(below, |below|));
    OnlyIndicator(u, below, above, P0, Q0, P1, Q1, P2, Q2, v.stack);
    assert P2 + (Subs(below) + M0) + Q2 == Subs(below) + [Background] + Subs(above) + [Indicator];
    AttrsJoin(v, below, above);
  }

  lemma AttrsJoin<T>(v: Upstream<T>, es: seq<Entry<T>>, fs: seq<Entry<T>>)
    requires AttrsOk(v, es) && AttrsOk(v, fs)
    ensures AttrsOk(v, es + fs)
  {
  }

  lemma SplitEntries<T>(stack: seq<Layer<T>>, below: seq<Entry<T>>, above: seq<Entry<T>>)
    requires DistinctEntries(below + above) && KnowsExisting(stack, below + above)
    ensures DistinctEntries(below) && DistinctEntries(above)
    ensures KnowsExisting(stack, below) && KnowsExisting(stack, above)
    ensures forall i, j :: 0 <= i < |below| && 0 <= j < |above| ==> below[i].s != above[j].s
  {
    var all := below + above;
    assert forall i :: 0 <= i < |below| ==> all[i] == below[i];
    assert forall j :: 0 <= j < |above| ==> all[|below| + j] == above[j];
    forall i, j | 0 <= i < j < |above| ensures above[i].s != above[j].s {
      assert all[|below| + i].s != all[|below| + j].s;
    }
    forall i, j | 0 <= i < |below| && 0 <= j < |above| ensures below[i].s != above[j].s {
      assert all[i].s != all[|below| + j].s;
    }
  }

  lemma StillKnown<T>(u: Upstream<T>, below: seq<Entry<T>>, above: seq<Entry<T>>, P0: seq<Layer<T>>, Q0: seq<Layer<T>>,
                      P1: seq<Layer<T>>, Q1: seq<Layer<T>>)
    requires u.stack == P0 + [Background] + Q0 && KnowsExisting(u.stack, below)
    requires forall i, j :: 0 <= i < |below| && 0 <= j < |above| ==> below[i].s != above[j].s
    requires Less(P1, P0, above) && Less(Q1, Q0, above)
    ensures forall i :: 0 <= i < |below| ==>
              Sub(below[i].s) !in [Background] + Subs(above)
              && (below[i].created <==> Sub(below[i].s) in P1 || Sub(below[i].s) in Q1)
  {
    forall i | 0 <= i < |below|
      ensures Sub(below[i].s) !in [Background] + Subs(above)
      ensures below[i].created <==> Sub(below[i].s) in P1 || Sub(below[i].s) in Q1
    {
      assert Sub(below[i].s) !in Subs(above);
      assert Sub(below[i].s) in u.stack <==> Sub(below[i].s) in P0 || Sub(below[i].s) in Q0;
    }
  }

  lemma OnlyIndicator<T>(u: Upstream<T>, below: seq<Entry<T>>, above: seq<Entry<T>>, P0: seq<Layer<T>>, Q0: seq<Layer<T>>,
                         P1: seq<Layer<T>>, Q1: seq<Layer<T>>, P2: seq<Layer<T>>, Q2: seq<Layer<T>>, stack: seq<Layer<T>>)
    requires Before(u, below, above, P0, Q0)
    requires Less(P1, P0, above) && Less(Q1, Q0, above) && Less(P2, P1, below) && Less(Q2, Q1, below)
    requires Distinct(stack) && stack == P2 + (Subs(below) + ([Background] + Subs(above))) + Q2
    ensures P2 == [] && Q2 == [Indicator]
  {
    assert P2 != [] ==> P2[0] in P2;
    assert forall i :: 0 <= i < |Q2| ==> Q2[i] in Q2;
    Apart(P0, [Background], Q0);
    assert u.stack[|P0|] == Background;
    var all := below + above;
    assert Subs(all) == Subs(below) + Subs(above);
    forall y | y in P0 || y in Q0 ensures y.Sub? ==> y in Subs(below) || y in Subs(above) {
      assert y in u.stack;
    }
    assert Background !in P0 && Background !in Q0 by {
      var bg: Layer<T> := Background;
      DistinctParts(P0, [bg]);
      DistinctParts(P0 + [bg], Q0);
      assert bg in [bg] && bg in P0 + [bg];
    }
    assert Indicator in Q2;
    Apart(P2, Subs(below) + ([Background] + Subs(above)), Q2);
    assert Q2[0] == Indicator && Q2[|Q2| - 1] == Indicator;
  }

  lemma EmitMore<T>(es: seq<Entry<T>>, k: nat)
    ensures EmitAbove(es, 0) == [] && EmitBelow(es, 0) == []
    ensures k < |es| ==> EmitAbove(es, k + 1) == EmitAbove(es, k) + EntryRequests(es[k])
                                              + [PlaceAbove(es[k].s, if k == 0 then Background else Sub(es[k - 1].s))]
    ensures k < |es| ==> var n := |es| - k - 1;
            EmitBelow(es, k + 1) == EmitBelow(es, k) + EntryRequests(es[n])
                                    + [PlaceBelow(es[n].s, if k == 0 then Background else Sub(es[n + 1].s))]
  {
  }

  // ----- the loops of apply_pending_surface_updates()

  /** A child surface: whether its upstream wl_subsurface exists, its pending and its committed entry. */
  class ChildSurface {
    var created: bool
    var x: int
    var y: int
    var desync: bool
    var committedX: int
    var committedY: int
    var committedDesync: bool

    ghost function PendingEntry(): Entry<ChildSurface>
      reads this
    {
      Entry(this, created, x, y, desync)
    }

    ghost predicate Committed()
      reads this
    {
      created && committedX == x && committedY == y && committedDesync == desync
    }

    ghost predicate Settled(e: Entry<ChildSurface>)
      reads this
    {
      e.s == this && Committed() && x == e.x && y == e.y && desync == e.desync
    }

    /** apply_pending_subsurf_entry(). */
    method ApplyEntry() returns (rs: seq<Request<ChildSurface>>)
      modifies this`created, this`committedX, this`committedY, this`committedDesync
      ensures rs == EntryRequests(old(PendingEntry())) && Settled(old(PendingEntry()))
    {
      rs := [];
      if !created {
        rs := rs + [GetSubsurface(this)];
        created := true;
      }
      if desync {
        rs := rs + [SetDesync(this)];
      } else {
        rs := rs + [SetSync(this)];
      }
      rs := rs + [SetPosition(this, x, y)];
      committedDesync := desync;
      committedX := x;
      committedY := y;
    }
  }

  ghost function Entries(s: seq<ChildSurface>): (r: seq<Entry<ChildSurface>>)
    reads s
    ensures |r| == |s| && forall i :: 0 <= i < |s| ==> r[i] == s[i].PendingEntry()
  {
    seq(|s|, i requires 0 <= i < |s| reads s => s[i].PendingEntry())
  }

  /** The loop has reached the entries from `lo` to `hi`, and no others. */
  ghost predicate SettledFrom(list: seq<ChildSurface>, entries: seq<Entry<ChildSurface>>, lo: nat, hi: nat)
    requires |entries| == |list|
    reads list
  {
    && (forall i :: 0 <= i < |list| && lo <= i < hi ==> list[i].Settled(entries[i]))
    && (forall i :: 0 <= i < |list| && !(lo <= i < hi) ==> list[i].PendingEntry() == entries[i])
  }

  lemma SettledStart(list: seq<ChildSurface>, entries: seq<Entry<ChildSurface>>, n: nat)
    requires entries == Entries(list)
    ensures SettledFrom(list, entries, n, n)
  {
  }

  lemma EntriesSame(list: seq<ChildSurface>, entries: seq<Entry<ChildSurface>>)
    requires |entries| == |list| && forall i :: 0 <= i < |list| ==> list[i].PendingEntry() == entries[i]
    ensures Entries(list) == entries
  {
  }

  lemma SettledAll(list: seq<ChildSurface>, entries: seq<Entry<ChildSurface>>)
    requires |entries| == |list| && SettledFrom(list, entries, 0, |list|)
    ensures forall i :: 0 <= i < |list| ==> list[i].Settled(entries[i])
  {
  }

  class ParentSurface {
    var pendingBelow: seq<ChildSurface>
    var pendingAbove: seq<ChildSurface>
    var committedBelow: seq<ChildSurface>
    var committedAbove: seq<ChildSurface>

    /** Sends exactly the requests of `Emit`, and leaves the committed lists and entries equal to the
        pending ones. */
    method ApplySubsurfaces() returns (rs: seq<Request<ChildSurface>>)
      requires Distinct(pendingBelow + pendingAbove)
      modifies this`committedBelow, this`committedAbove, pendingBelow, pendingAbove
      ensures rs == Emit(old(Entries(pendingBelow)), old(Entries(pendingAbove)))
      ensures committedBelow == pendingBelow && committedAbove == pendingAbove
      ensures forall c <- pendingBelow + pendingAbove ::
                c.Committed() && c.x == old(c.x) && c.y == old(c.y) && c.desync == old(c.desync)
    {
      hide EmitAbove, EmitBelow, Distinct, SettledFrom, Entries;
      committedAbove, committedBelow := [], [];
      DistinctParts(pendingBelow, pendingAbove);
      ghost var above, below := Entries(pendingAbove), Entries(pendingBelow);
      var up := ApplyAbove();
      SettledAll(pendingAbove, above);
      forall i | 0 <= i < |pendingBelow| ensures pendingBelow[i].PendingEntry() == below[i] {
        assert pendingBelow[i] in pendingBelow;
      }
      EntriesSame(pendingBelow, below);
      var down := ApplyBelow();
      SettledAll(pendingBelow, below);
      rs := up + down;
      forall c | c in pendingBelow + pendingAbove
        ensures c.Committed() && c.x == old(c.x) && c.y == old(c.y) && c.desync == old(c.desync)
      {
        if c in pendingBelow { var i :| 0 <= i < |pendingBelow| && pendingBelow[i] == c; assert below[i] == old(c.PendingEntry()); }
        if c in pendingAbove { var i :| 0 <= i < |pendingAbove| && pendingAbove[i] == c; assert above[i] == old(c.PendingEntry()); }
      }
    }

    /** One turn of the loop over `subsurfaces_above`. */
    method AboveTurn(k: nat, last: Layer<ChildSurface>, ghost entries: seq<Entry<ChildSurface>>) returns (rs: seq<Request<ChildSurface>>)
      requires k < |pendingAbove| == |entries| && committedAbove == pendingAbove[..k] && Distinct(pendingAbove)
      requires SettledFrom(pendingAbove, entries, 0, k)
      modifies this`committedAbove, pendingAbove[k]
      ensures entries[k].s == pendingAbove[k] && rs == EntryRequests(entries[k]) + [PlaceAbove(entries[k].s, last)]
      ensures committedAbove == pendingAbove[..k + 1] && SettledFrom(pendingAbove, entries, 0, k + 1)
    {
      hide EntryRequests;
      var c := pendingAbove[k];
      rs := c.ApplyEntry();
      rs := rs + [PlaceAbove(c, last)];
      committedAbove := committedAbove + [c];
    }

    method ApplyAbove() returns (rs: seq<Request<ChildSurface>>)
      requires Distinct(pendingAbove) && committedAbove == []
      modifies this`committedAbove, pendingAbove
      ensures rs == EmitAbove(old(Entries(pendingAbove)), |pendingAbove|)
      ensures committedAbove == pendingAbove
      ensures SettledFrom(pendingAbove, old(Entries(pendingAbove)), 0, |pendingAbove|)
    {
      hide EntryRequests, EmitAbove, Entries, Distinct, SettledFrom;
      ghost var entries := Entries(pendingAbove);
      SettledStart(pendingAbove, entries, 0);
      EmitMore(entries, 0);
      rs := [];
      var last: Layer<ChildSurface> := Background;
      var k := 0;
      while k < |pendingAbove|
        invariant k <= |pendingAbove| == |entries| && committedAbove == pendingAbove[..k]
        invariant rs == EmitAbove(entries, k) && SettledFrom(pendingAbove, entries, 0, k)
        invariant last == if k == 0 then Background else Sub(entries[k - 1].s)
      {
        EmitMore(entries, k);
        var r := AboveTurn(k, last, entries);
        rs := rs + r;
        last := Sub(pendingAbove[k]);
        k := k + 1;
      }
    }

    /** One turn of the loop over `subsurfaces_below`, from its end. */
    method BelowTurn(n: nat, last: Layer<ChildSurface>, ghost entries: seq<Entry<ChildSurface>>) returns (rs: seq<Request<ChildSurface>>)
      requires n < |pendingBelow| == |entries| && committedBelow == pendingBelow[n + 1..] && Distinct(pendingBelow)
      requires SettledFrom(pendingBelow, entries, n + 1, |entries|)
      modifies this`committedBelow, pendingBelow[n]
      ensures entries[n].s == pendingBelow[n] && rs == EntryRequests(entries[n]) + [PlaceBelow(entries[n].s, last)]
      ensures committedBelow == pendingBelow[n..] && SettledFrom(pendingBelow, entries, n, |entries|)
    {
      hide EntryRequests;
      var c := pendingBelow[n];
      rs := c.ApplyEntry();
      rs := rs + [PlaceBelow(c, last)];
      committedBelow := [c] + committedBelow;
    }

    method ApplyBelow() returns (rs: seq<Request<ChildSurface>>)
      requires Distinct(pendingBelow) && committedBelow == []
      modifies this`committedBelow, pendingBelow
      ensures rs == EmitBelow(old(Entries(pendingBelow)), |pendingBelow|)
      ensures committedBelow == pendingBelow
      ensures SettledFrom(pendingBelow, old(Entries(pendingBelow)), 0, |pendingBelow|)
    {
      hide EntryRequests, EmitBelow, Entries, Distinct, SettledFrom;
      ghost var entries := Entries(pendingBelow);
      SettledStart(pendingBelow, entries, |entries|);
      EmitMore(entries, 0);
      rs := [];
      var last: Layer<ChildSurface> := Background;
      var n := |pendingBelow|;
      while n > 0
        invariant 0 <= n <= |pendingBelow| == |entries| && committedBelow == pendingBelow[n..]
        invariant rs == EmitBelow(entries, |entries| - n) && SettledFrom(pendingBelow, entries, n, |entries|)
        invariant last == if n == |entries| then Background else Sub(entries[n].s)
      {
        n := n - 1;
        EmitMore(entries, |entries| - n - 1);
        var r := BelowTurn(n, last, entries);
        rs := rs + r;
        last := Sub(pendingBelow[n]);
      }
    }
  }
}
