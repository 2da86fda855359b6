/** Exactly which events lead to an upstream commit of the wrong size, and the runs that show it. */
module LockSizeRuns {
  import opened Options
  import opened SurfaceSizes
  import opened LockProtocol
  import opened LockSafety
  import opened LockOrder
  import opened LockSizes
  import opened LockTheorems
  import DiffCommits

  /** No continuation whose own events do not spoil sizes makes a commit of the wrong size. */
  ghost predicate SizesSafe(s: Lock) {
    forall es :: LegalRun(s, es) && RunFits(s, es) ==> SizesRight(Run(s, es))
  }

  predicate SizesRight(s: Lock) {
    CommitsOk(s.received, s.acks, s.commits)
  }

  lemma SizesOkIsSafe(s: Lock)
    requires Traced(s) && SizesOk(s)
    ensures SizesSafe(s)
  {
    hide Traced, CommitsOk, LegalRun, RunFits, Run;
    forall es | LegalRun(s, es) && RunFits(s, es) ensures SizesRight(Run(s, es)) {
      SizesRun(s, es);
      CommitsAreOk(Run(s, es));
    }
  }

  // Continuations are built up event by event.

  predicate Continues(s: Lock, es: seq<Event>, t: Lock) {
    LegalRun(s, es) && RunFits(s, es) && Run(s, es) == t
  }

  lemma ContinuesNothing(s: Lock)
    ensures Continues(s, [], s)
  {
  }

  lemma ContinuesOne(s: Lock, e: Event)
    requires Legal(s, e) && !Spoils(s, e)
    ensures Continues(s, [e], Step(s, e))
  {
    hide Step, Legal, Spoils;
    assert [e][0] == e && [e][1..] == [];
    ContinuesNothing(Step(s, e));
  }

  lemma ContinuesTwo(s: Lock, e: Event, f: Event)
    requires Legal(s, e) && !Spoils(s, e) && Legal(Step(s, e), f) && !Spoils(Step(s, e), f)
    ensures Continues(s, [e, f], Step(Step(s, e), f))
  {
    hide Step, Legal, Spoils;
    assert [e, f][0] == e && [e, f][1..] == [f];
    ContinuesOne(Step(s, e), f);
  }

  lemma Unsafe(s: Lock, es: seq<Event>, t: Lock)
    requires Continues(s, es, t) && !SizesRight(t)
    ensures !SizesSafe(s)
  {
    hide LegalRun, RunFits, Run, SizesRight;
  }

  lemma OneWrong(s: Lock, i: nat)
    requires i < |s.commits| && !CommitOk(s.received, s.acks, s.commits[i])
    ensures !SizesRight(s)
  {
    hide CommitOk;
  }

  // ----- a commit by itself

  /** What `CommitUpstream` appends is right exactly if the size shown is the one acked last. */
  lemma AppendedCommit(s: Lock)
    ensures var t := CommitUpstream(s);
            && t == s.(commits := t.commits)
            && |t.commits| == |s.commits| + 1 && t.commits[..|s.commits|] == s.commits
            && (CommitOk(t.received, t.acks, t.commits[|s.commits|]) <==> ShownOk(s.received, s.acks, Shown(s)))
  {
    hide ShownSize;
  }

  lemma RenderAppends(s: Lock)
    ensures var t := Render(s);
            && t.received == s.received && t.acks == s.acks
            && s.commits <= t.commits
            && t == s.(commits := t.commits, dirty := t.dirty, frame := t.frame)
  {
    hide Shown;
  }

  /** A plugin's commit that passes the check makes one upstream commit, of the size acked last exactly if
      the state left upstream lets it through. */
  lemma AcceptedExactly(s: Lock, v: View)
    requires SizesOk(s) && s.nested && Clean(s) && HasConfiguredPlugin(s)
    requires CheckedSize(v) == Fits(s.plugin.value.lastAcked)
    ensures var t := Step(s, PluginCommit(Some(v)));
            && |t.commits| == |s.commits| + 1
            && (CommitOk(t.received, t.acks, t.commits[|s.commits|]) <==>
                WillShow(s.upstream, s.plugin.value.committed, v, s.plugin.value.lastAcked))
  {
    hide ApplyUpdates, FlushAck, CommitUpstream, WillShow, CheckedSize, CommitsOk, CommitOk, Shown, ShownOk,
         DestMirrored, PluginSizes, SettledOk;
    SizesApply(s, v);
    ShownApplied(s, v, s.plugin.value.lastAcked);
    var t := ApplyUpdates(s, v).(hasBuffer := true);
    SameShown(ApplyUpdates(s, v), t);
    AckedSize(t);
    AppendedCommit(FlushAck(t));
  }

  lemma SameShown(s: Lock, t: Lock)
    requires s.upstream == t.upstream && s.buffer == t.buffer
    ensures Shown(s) == Shown(t)
  {
    hide ShownSize;
  }

  /** Once the held-back ack is out, the configure acked last carries the size the plugin acked. */
  lemma AckedSize(s: Lock)
    requires s.plugin.Some? && s.plugin.value.lastAcked.Known()
    requires PluginSizes(s.plugin.value, s.received, Due(s.hasPending, s.pendingSerial, s.acks), Settled(s.size, s.hasNewer))
    ensures var t := FlushAck(s);
            && t.commits == s.commits && t.upstream == s.upstream && t.buffer == s.buffer && t.received == s.received
            && Shown(t) == Shown(s)
            && (ShownOk(t.received, t.acks, Shown(t)) <==> Shown(s) == Some(s.plugin.value.lastAcked))
  {
    hide ShownSize, PairSizes, AllSized, SizeAt, Size.Known;
    FlushedDue(s);
  }

  // ----- a commit by the fallback

  /** The fallback's commit is of the size acked last exactly if no client left the surface in another state. */
  lemma FallbackExactly(s: Lock)
    requires s.size.Known() && SizeAt(s.received, LastAck(s.acks)) == Some(s.size)
    ensures var t := RenderFallback(s);
            && t.received == s.received && t.acks == s.acks && |t.commits| == |s.commits| + 1
            && (CommitOk(t.received, t.acks, t.commits[|s.commits|]) <==> FallbackShows(s.upstream, s.size))
  {
    hide CommitUpstream, ShownSize, FallbackShows, FallbackState, SizeAt, Size.Known, CommitOk;
    FallbackShowsExactly(s.upstream, s.size);
    var s1 := s.(upstream := FallbackState(s.upstream), buffer := s.size, hasBuffer := true);
    AppendedCommit(s1);
    assert Shown(s1) == ShownSize(FallbackState(s.upstream), s.size);
  }

  lemma FallbackConfigure(s: Lock, serial: nat, size: Size)
    requires Legal(s, Configure(serial, size)) && !s.nested && !s.halted && size.Known()
    requires !FallbackShows(s.upstream, size)
    ensures !SizesRight(Step(s, Configure(serial, size)))
  {
    hide RenderFallback, Render, FallbackShows, CommitOk, CommitsOk, Size.Known;
    var s1 := SendAck(Receive(s, serial, size), serial).(hasNewer := false);
    FallbackExactly(s1);
    var s2 := RenderFallback(s1);
    RenderAppends(s2.(dirty := true));
    OneWrong(Render(s2.(dirty := true)), |s.commits|);
  }

  lemma FallbackClientless(s: Lock)
    requires Traced(s) && SizesOk(s) && s.nested && !s.halted && s.size.Known() && !s.hasBuffer
    requires !FallbackShows(s.upstream, s.size)
    ensures !SizesRight(Step(s, GoClientless))
  {
    hide Traced, SizesOk, RenderFallback, Render, FallbackShows, CommitOk, CommitsOk, Size.Known, SizeAt;
    NewestSize(s);
    var s1 := s.(nested := false);
    var s2 := if s.hasNewer then SendAck(s1, s.newest).(hasNewer := false) else s1;
    assert SizeAt(s2.received, LastAck(s2.acks)) == Some(s2.size);
    FallbackExactly(s2);
    var s3 := RenderFallback(s2);
    RenderAppends(s3.(dirty := true));
    OneWrong(Render(s3.(dirty := true)), |s.commits|);
  }

  // ----- a first serial paired with a later size

  /** A view whose destination is `size`, whatever was committed before. */
  function FullView(c: DiffCommits.SurfaceState, size: Size): View
    requires size.Known()
  {
    Pending(c.(scale := if c.scale == 1 then 2 else 1, transform := if c.transform == 0 then 2 else 0,
               dest := DiffCommits.Extent(size.w, size.h), source := DiffCommits.NO_SOURCE), size)
  }

  lemma FullViewFits(u: DiffCommits.Upstream, c: DiffCommits.SurfaceState, size: Size)
    requires size.Known()
    ensures CheckedSize(FullView(c, size)) == Fits(size) && WillShow(u, c, FullView(c, size), size)
  {
  }

  /** A surface just answered with a pair that does not carry the size of its configure. */
  predicate Misinformed(s: Lock, plugin: nat, upstream: nat) {
    && s.nested && Clean(s) && s.size.Known() && HasConfiguredPlugin(s)
    && s.plugin.value.lastUsed != plugin && s.plugin.value.table == [SerialPair(plugin, upstream, s.size, false)]
    && SizeAt(s.received, upstream) != Some(s.size)
    && DestMirrored(s.upstream, s.plugin.value.committed)
  }

  lemma MisinformedAck(s: Lock, plugin: nat, upstream: nat)
    requires Misinformed(s, plugin, upstream)
    ensures var t := Step(s, PluginAck(plugin));
            && t.nested && Clean(t) && HasConfiguredPlugin(t) && t.plugin.value.lastAcked == s.size
            && t.hasPending && t.pendingSerial == upstream && t.received == s.received
            && DestMirrored(t.upstream, t.plugin.value.committed)
  {
    assert Find(s.plugin.value.table, plugin) == 0;
  }

  lemma MisinformedCommit(s: Lock, size: Size, upstream: nat)
    requires s.nested && Clean(s) && HasConfiguredPlugin(s) && s.plugin.value.lastAcked == size && size.Known()
    requires s.hasPending && s.pendingSerial == upstream && SizeAt(s.received, upstream) != Some(size)
    requires DestMirrored(s.upstream, s.plugin.value.committed)
    ensures var v := FullView(s.plugin.value.committed, size);
            !Spoils(s, PluginCommit(Some(v))) && !SizesRight(Step(s, PluginCommit(Some(v))))
  {
    hide Updated, CheckedSize, WillShow, ShownSize, CommitsOk, FullView, CommitOk, SizeAt, Size.Known;
    var c := s.plugin.value.committed;
    var v := FullView(c, size);
    FullViewFits(s.upstream, c, size);
    var s1 := FlushAck(ApplyUpdates(s, v).(hasBuffer := true));
    assert Shown(s1) == Some(size) by { FullViewShown(s.upstream, c, size); }
    AppendedCommit(s1);
    OneWrong(CommitUpstream(s1), |s.commits|);
  }

  lemma FullViewShown(u: DiffCommits.Upstream, c: DiffCommits.SurfaceState, size: Size)
    requires size.Known() && DestMirrored(u, c)
    ensures ShownSize(Updated(u, c, FullView(c, size).state), FullView(c, size).buffer) == Some(size)
  {
    hide Updated, WillShow, ShownSize, FullView;
    FullViewFits(u, c, size);
    WillShowExactly(u, c, FullView(c, size), size);
  }

  lemma ResizedUnsafe(s: Lock)
    requires Traced(s) && SizesOk(s) && FreshSerial(s) && s.nested && Clean(s)
    requires s.plugin.Some? && !s.plugin.value.configured && Resized(s)
    ensures !SizesSafe(Step(s, PluginCommit(None)))
  {
    hide Traced, SizesRight, FullView, SizeAt, DestMirrored, SizesSafe, Spoils, Run, LegalRun, RunFits, Find, Continues;
    NoTable(s);
    InitialTable(s);
    var t := Step(s, PluginCommit(None));
    var plugin := s.clientSerial;
    assert s.plugin.value.table + [InitialPair(s)] == [InitialPair(s)];
    assert DestMirrored(t.upstream, t.plugin.value.committed);
    assert Misinformed(t, plugin, s.first);
    MisinformedAck(t, plugin, s.first);
    var t1 := Step(t, PluginAck(plugin));
    hide Step, Misinformed;
    MisinformedCommit(t1, s.size, s.first);
    var e := PluginCommit(Some(FullView(t1.plugin.value.committed, s.size)));
    Harmless(t, PluginAck(plugin));
    Harmless(t1, e);
    PlainEvents(t, PluginAck(plugin));
    ContinuesTwo(t, PluginAck(plugin), e);
    Unsafe(t, [PluginAck(plugin), e], Step(t1, e));
  }

  lemma PlainEvents(s: Lock, e: Event)
    requires e.PluginAck? || e.FrameDone? || e.Damage?
    ensures !Spoils(s, e)
  {
  }

  // ----- a rejected commit

  /** The next injected commit: right away, or with the next size. */
  function Inject(s: Lock): seq<Event> {
    if !s.size.Known() then [FrameDone, Configure(s.newest + 1, DOT)]
    else if s.dirty then [FrameDone]
    else [FrameDone, Damage]
  }

  /** Only the commit and the bookkeeping of `render()` are new, and maybe one more configure. */
  predicate InjectedInto(s: Lock, t: Lock) {
    && t.acks == s.acks && t.commits == s.commits + [Commit(Shown(s), |s.acks|)]
    && (t.received == s.received || t.received == s.received[s.newest + 1 := DOT])
  }

  lemma InjectedNow(s: Lock)
    requires !s.halted && s.hasBuffer && s.size.Known()
    ensures Continues(s, Inject(s), Run(s, Inject(s))) && InjectedInto(s, Run(s, Inject(s)))
  {
    hide Shown, Spoils, Run, LegalRun, RunFits;
    Harmless(s, FrameDone);
    PlainEvents(s, FrameDone);
    var s1 := s.(frame := false);
    SameShown(s, s.(dirty := false, frame := true));
    if s.dirty {
      assert Step(s, FrameDone) == Render(s1);
      ContinuesOne(s, FrameDone);
    } else {
      assert Step(s, FrameDone) == s1;
      Harmless(s1, Damage);
      PlainEvents(s1, Damage);
      assert Step(s1, Damage) == Render(s1.(dirty := true));
      ContinuesTwo(s, FrameDone, Damage);
    }
  }

  lemma InjectedLater(s: Lock)
    requires !s.halted && s.nested && s.hasBuffer && s.plugin.None? && !s.size.Known()
    ensures Continues(s, Inject(s), Run(s, Inject(s))) && InjectedInto(s, Run(s, Inject(s)))
  {
    hide Shown, Run, LegalRun, RunFits;
    var s1, e := s.(frame := false), Configure(s.newest + 1, DOT);
    assert Step(s, FrameDone) == s1;
    var t := Step(s1, e);
    var s2 := Receive(s1, s.newest + 1, DOT).(hasNewer := true, first := s.newest + 1, usedFirst := false);
    assert t == CommitUpstream(s2.(dirty := false, frame := true));
    SameShown(s, s2.(dirty := false, frame := true));
    assert !Spoils(s, FrameDone) && !Spoils(s1, e);
    ContinuesTwo(s, FrameDone, e);
  }

  /** Whether the injected commit is right is decided by what the surface would show. */
  lemma Injected(s: Lock)
    requires !s.halted && s.nested && s.hasBuffer && s.plugin.None?
    requires Traced(s) && CommitsOk(s.received, s.acks, s.commits) && SizeAt(s.received, LastAck(s.acks)).Some?
    ensures Continues(s, Inject(s), Run(s, Inject(s)))
    ensures SizesRight(Run(s, Inject(s))) <==> ShownOk(s.received, s.acks, Shown(s))
  {
    hide Shown, Run, LegalRun, RunFits, Continues, Traced, CommitsOk, Inject;
    if s.size.Known() { InjectedNow(s); } else { InjectedLater(s); }
    var t := Run(s, Inject(s));
    assert forall k :: k in s.received ==> k < s.newest + 1 by { NewestBound(s); }
    CommitsReceive(s.received, s.acks, s.commits, s.newest + 1, DOT);
    var c := Commit(Shown(s), |s.acks|);
    assert CommitOk(t.received, t.acks, c) <==> ShownOk(s.received, s.acks, Shown(s));
    if CommitOk(t.received, t.acks, c) {
      CommitsAppend(t.received, t.acks, s.commits, c);
    } else {
      OneWrong(t, |s.commits|);
    }
  }

  lemma NewestBound(s: Lock)
    requires Traced(s)
    ensures forall k :: k in s.received ==> k < s.newest + 1
  {
  }

  predicate Rejected(s: Lock, v: View)
    requires s.plugin.Some?
  {
    CheckedSize(v) == BadSize || (CheckedSize(v).Fits? && CheckedSize(v).size != s.plugin.value.lastAcked)
  }

  /** A commit rejected with a protocol error has already changed the surface: what the next injected
      commit shows is still right exactly if `RejectionSpoils` does not hold. */
  lemma RejectedCommitStaysAttached(s: Lock, v: View)
    requires Traced(s) && SizesOk(s) && s.nested && Clean(s) && HasConfiguredPlugin(s) && s.hasBuffer && Rejected(s, v)
    ensures var t := Step(s, PluginCommit(Some(v)));
            && t == Disconnect(ApplyUpdates(s, v))
            && (SizesRight(Run(t, Inject(t))) <==> !RejectionSpoils(s, v))
            && LegalRun(t, Inject(t)) && RunFits(t, Inject(t))
  {
    hide Traced, ApplyUpdates, CheckedSize, WillShow, ShownSize, RejectionSpoils, CommitsOk, SizesRight,
         Run, LegalRun, RunFits, Inject, SettledOk, PluginSizes, DestMirrored;
    SizesApply(s, v);
    TracedApply(s, v);
    var t := Disconnect(ApplyUpdates(s, v));
    TracedWithout(ApplyUpdates(s, v), ApplyUpdates(s, v).clientSerial, true);
    Injected(t);
    RejectionShown(s, v);
  }

  lemma RejectionShown(s: Lock, v: View)
    requires SizesOk(s) && s.nested && !s.halted && s.plugin.Some? && s.hasBuffer
    ensures var t := Disconnect(ApplyUpdates(s, v));
            RejectionSpoils(s, v) <==> !ShownOk(t.received, t.acks, Shown(t))
  {
    hide WillShow, ShownSize, CommitsOk, PluginSizes, SettledOk, ApplyUpdates;
    SizesApply(s, v);
    var t := ApplyUpdates(s, v);
    SameShown(t, Disconnect(t));
    ShownApplied(s, v, Shown(s).value);
  }

  // ----- the exact condition

  lemma CommitUnsafe(s: Lock, v: View)
    requires Traced(s) && SizesOk(s) && s.nested && Clean(s) && HasConfiguredPlugin(s) && CommitSpoils(s, v)
    ensures !SizesSafe(Step(s, PluginCommit(Some(v))))
  {
    hide Traced, SizesOk, Step, SizesSafe, SizesRight, CheckedSize, WillShow, RejectionSpoils, Continues, CommitOk, Run,
         LegalRun, RunFits;
    var t := Step(s, PluginCommit(Some(v)));
    if CheckedSize(v) == Fits(s.plugin.value.lastAcked) {
      AcceptedExactly(s, v);
      OneWrong(t, |s.commits|);
      ContinuesNothing(t);
      Unsafe(t, [], t);
    } else {
      assert s.hasBuffer by { RejectionHasBuffer(s, v); }
      RejectedCommitStaysAttached(s, v);
      assert Continues(t, Inject(t), Run(t, Inject(t))) by { ContinuesIs(t, Inject(t)); }
      Unsafe(t, Inject(t), Run(t, Inject(t)));
    }
  }

  lemma RejectionHasBuffer(s: Lock, v: View)
    requires s.plugin.Some? && RejectionSpoils(s, v)
    ensures s.hasBuffer
  {
  }

  lemma ContinuesIs(s: Lock, es: seq<Event>)
    requires LegalRun(s, es) && RunFits(s, es)
    ensures Continues(s, es, Run(s, es))
  {
  }

  lemma SpoilsUnsafe(s: Lock, e: Event)
    requires Traced(s) && SizesOk(s) && FreshSerial(s) && Legal(s, e) && Spoils(s, e)
    ensures !SizesSafe(Step(s, e))
  {
    hide Traced, SizesOk, FreshSerial, Step, SizesSafe, SizesRight, FallbackShows, CommitSpoils, Resized, Size.Known,
         Continues;
    match e
    case PluginCommit(a) =>
      if s.plugin.value.configured { CommitUnsafe(s, a.value); } else { ResizedUnsafe(s); }
    case Configure(serial, size) =>
      FallbackConfigure(s, serial, size);
      ContinuesNothing(Step(s, e));
      Unsafe(Step(s, e), [], Step(s, e));
    case GoClientless =>
      FallbackClientless(s);
      ContinuesNothing(Step(s, e));
      Unsafe(Step(s, e), [], Step(s, e));
  }

  /** An event leaves the commits of every continuation without such events at the acked size if and only if
      it is none of the events that `Spoils` names. */
  lemma SizesSafeExactly(s: Lock, e: Event)
    requires Traced(s) && SizesOk(s) && FreshSerial(s) && Legal(s, e)
    ensures SizesSafe(Step(s, e)) <==> !Spoils(s, e)
  {
    hide Traced, SizesOk, FreshSerial, Step, SizesSafe, Spoils, Legal;
    if Spoils(s, e) {
      SpoilsUnsafe(s, e);
    } else {
      TracedStep(s, e);
      SizesStep(s, e);
      SizesOkIsSafe(Step(s, e));
    }
  }

  // ----- runs without any protocol error that end in a commit of the wrong size

  /** The first client is configured at `size` and commits `v`. */
  function FirstCommit(size: Size, v: View): seq<Event> {
    [ Configure(1, size), GetLayerSurface, PluginCommit(None), PluginAck(FIRST_CLIENT_SERIAL + 1), PluginCommit(Some(v)) ]
  }

  /** Where that leaves the surface. */
  function FirstCommitted(size: Size, v: View): Lock {
    var u := Updated(DiffCommits.DEFAULT_UPSTREAM, DiffCommits.DEFAULT_STATE, v.state);
    Lock(true, size, 1, false, false, 1, 1, true, true, true, false,
         Some(Plugin(true, FIRST_CLIENT_SERIAL + 1, size, [], true, v.state)), FIRST_CLIENT_SERIAL + 2,
         map[1 := size], [1], [Commit(ShownSize(u, v.buffer), 1)], u, v.buffer, false, false)
  }

  /** The surface when the client has been answered. */
  function Answered(size: Size): Lock {
    INIT.(size := size, newest := 1, hasNewer := true, dirty := true, first := 1, usedFirst := true,
          plugin := Some(NewPlugin(FIRST_CLIENT_SERIAL).(
                           configured := true, table := [SerialPair(FIRST_CLIENT_SERIAL + 1, 1, size, false)])),
          clientSerial := FIRST_CLIENT_SERIAL + 2, received := map[1 := size])
  }

  lemma PlaysAnswered(size: Size, v: View)
    requires size.Known()
    ensures Plays(INIT, FirstCommit(size, v)[..3], Answered(size))
  {
    var es := FirstCommit(size, v);
    var s1 := Step(INIT, es[0]);
    assert s1 == INIT.(size := size, newest := 1, hasNewer := true, dirty := true, first := 1, received := map[1 := size]);
    var s2 := Step(s1, es[1]);
    assert s2 == s1.(plugin := Some(NewPlugin(FIRST_CLIENT_SERIAL)), clientSerial := FIRST_CLIENT_SERIAL + 1);
    var pair := SerialPair(FIRST_CLIENT_SERIAL + 1, 1, size, false);
    assert Step(s2, es[2]) == Answered(size) by { assert [] + [pair] == [pair]; }
    assert Legal(INIT, es[0]) && !LosesFirst(INIT, es[0]) && !LosesFirst(s1, es[1]) && !LosesFirst(s2, es[2]);
    hide Step, LosesFirst, Plays;
    PlaysNothing(INIT);
    PlaysMore(INIT, [], INIT, es[0]);
    PlaysMore(INIT, [] + [es[0]], s1, es[1]);
    PlaysMore(INIT, [] + [es[0]] + [es[1]], s2, es[2]);
    assert es[..3] == [] + [es[0]] + [es[1]] + [es[2]];
  }

  lemma AnsweredAck(size: Size)
    ensures Step(Answered(size), PluginAck(FIRST_CLIENT_SERIAL + 1)) ==
            Answered(size).(plugin := Some(Plugin(true, FIRST_CLIENT_SERIAL + 1, size, [], false, DiffCommits.DEFAULT_STATE)),
                            hasPending := true, pendingSerial := 1)
  {
    var table := Answered(size).plugin.value.table;
    assert Find(table, FIRST_CLIENT_SERIAL + 1) == 0 && table[1..] == [];
  }

  lemma AnsweredCommit(size: Size, v: View)
    requires CheckedSize(v) == Fits(size)
    ensures Step(Step(Answered(size), PluginAck(FIRST_CLIENT_SERIAL + 1)), PluginCommit(Some(v))) == FirstCommitted(size, v)
  {
    hide Updated, ShownSize, CheckedSize, HandleAck, Find;
    AnsweredAck(size);
    assert [] + [1] == [1];
  }

  lemma PlaysFirstCommit(size: Size, v: View)
    requires size.Known() && CheckedSize(v) == Fits(size)
    ensures Plays(INIT, FirstCommit(size, v), FirstCommitted(size, v))
  {
    var es := FirstCommit(size, v);
    PlaysAnswered(size, v);
    AnsweredAck(size);
    AnsweredCommit(size, v);
    var s4 := Step(Answered(size), es[3]);
    assert Clean(s4) && Clean(FirstCommitted(size, v));
    hide Step, Plays, FirstCommitted, Answered;
    Harmless(Answered(size), es[3]);
    Harmless(s4, es[4]);
    PlaysMore(INIT, es[..3], Answered(size), es[3]);
    PlaysMore(INIT, es[..3] + [es[3]], s4, es[4]);
    assert es == es[..3] + [es[3]] + [es[4]];
  }

  const LATE_VIEW: View := Pending(DiffCommits.DEFAULT_STATE.(source := DiffCommits.Rect(0, 0, 5120, 5120)), Size(40, 40))

  /** A client commits a 20x20 source rectangle of a 40x40 buffer, and no destination: the program takes the
      surface for 20x20, but the rectangle is not upstream yet and the compositor shows 40x40. */
  lemma LateSourceBreaksSizes()
    ensures var t := Run(INIT, FirstCommit(Size(20, 20), LATE_VIEW));
            && RunOk(INIT, FirstCommit(Size(20, 20), LATE_VIEW)) && ErrorFree(INIT, FirstCommit(Size(20, 20), LATE_VIEW))
            && t.acks == [1] && t.received == map[1 := Size(20, 20)] && t.commits == [Commit(Some(Size(40, 40)), 1)]
  {
    hide Run, RunOk, ErrorFree, FirstCommit, Updated;
    assert CheckedSize(LATE_VIEW) == Fits(Size(20, 20)) by {
      assert 5120 % 256 == 0 && 5120 / 256 == 20;
    }
    PlaysFirstCommit(Size(20, 20), LATE_VIEW);
    UpdatedGeometry(DiffCommits.DEFAULT_UPSTREAM, DiffCommits.DEFAULT_STATE, LATE_VIEW.state);
    assert 40 % 1 == 0 && 40 / 1 == 40;
  }

  const ROTATED_VIEW: View := Pending(DiffCommits.DEFAULT_STATE.(transform := 1), Size(10, 20))

  /** A client commits a buffer that is to be turned by 90 degrees: the program checks the buffer as it is. */
  lemma RotationBreaksSizes()
    ensures var t := Run(INIT, FirstCommit(Size(10, 20), ROTATED_VIEW));
            && RunOk(INIT, FirstCommit(Size(10, 20), ROTATED_VIEW)) && ErrorFree(INIT, FirstCommit(Size(10, 20), ROTATED_VIEW))
            && t.acks == [1] && t.received == map[1 := Size(10, 20)] && t.commits == [Commit(Some(Size(20, 10)), 1)]
  {
    hide Run, RunOk, ErrorFree, FirstCommit, Updated;
    assert 10 % 1 == 0 && 10 / 1 == 10 && 20 % 1 == 0 && 20 / 1 == 20;
    PlaysFirstCommit(Size(10, 20), ROTATED_VIEW);
    UpdatedGeometry(DiffCommits.DEFAULT_UPSTREAM, DiffCommits.DEFAULT_STATE, ROTATED_VIEW.state);
  }

  /** A client draws at 10x10 through a viewport destination. */
  const SMALL_VIEW: View := Pending(DiffCommits.DEFAULT_STATE.(dest := DiffCommits.Extent(10, 10)), Size(10, 10))

  /** What is upstream after it, and after a fallback on top. */
  function SmallUpstream(): DiffCommits.Upstream {
    Updated(DiffCommits.DEFAULT_UPSTREAM, DiffCommits.DEFAULT_STATE, SMALL_VIEW.state)
  }

  lemma SmallStays(buffer: Size)
    ensures ShownSize(SmallUpstream(), buffer) == Some(Size(10, 10))
    ensures ShownSize(FallbackState(SmallUpstream()), buffer) == Some(Size(10, 10))
  {
    hide Updated;
    UpdatedGeometry(DiffCommits.DEFAULT_UPSTREAM, DiffCommits.DEFAULT_STATE, SMALL_VIEW.state);
  }

  lemma PlaysSmall()
    ensures Plays(INIT, FirstCommit(Size(10, 10), SMALL_VIEW), FirstCommitted(Size(10, 10), SMALL_VIEW))
    ensures FirstCommitted(Size(10, 10), SMALL_VIEW).commits == [Commit(Some(Size(10, 10)), 1)]
  {
    hide Plays, FirstCommit, Updated, ShownSize;
    assert CheckedSize(SMALL_VIEW) == Fits(Size(10, 10));
    PlaysFirstCommit(Size(10, 10), SMALL_VIEW);
    SmallStays(Size(10, 10));
  }

  const CLIENTLESS_RUN: seq<Event> := FirstCommit(Size(10, 10), SMALL_VIEW) + [GoClientless] + [Configure(2, Size(20, 20))]

  /** The client then goes, and the output grows: the fallback is a 20x20 buffer, but nothing has taken the
      destination back and the surface stays 10x10. */
  lemma LeftoverBreaksFallback()
    ensures var t := Run(INIT, CLIENTLESS_RUN);
            && RunOk(INIT, CLIENTLESS_RUN) && ErrorFree(INIT, CLIENTLESS_RUN)
            && t.acks == [1, 2] && t.received == map[1 := Size(10, 10), 2 := Size(20, 20)]
            && t.commits == [Commit(Some(Size(10, 10)), 1), Commit(Some(Size(10, 10)), 1), Commit(Some(Size(10, 10)), 2)]
  {
    var s := FirstCommitted(Size(10, 10), SMALL_VIEW);
    PlaysSmall();
    LeftoverGoes(s);
    var s1 := Step(s, GoClientless);
    LeftoverGrows(s1);
    hide Step, FirstCommit, Run, RunOk, ErrorFree, FirstCommitted;
    Harmless(s, GoClientless);
    PlaysMore(INIT, FirstCommit(Size(10, 10), SMALL_VIEW), s, GoClientless);
    PlaysMore(INIT, FirstCommit(Size(10, 10), SMALL_VIEW) + [GoClientless], s1, Configure(2, Size(20, 20)));
  }

  lemma LeftoverGoes(s: Lock)
    requires s == FirstCommitted(Size(10, 10), SMALL_VIEW) && s.commits == [Commit(Some(Size(10, 10)), 1)]
    ensures var t := Step(s, GoClientless);
            && t == s.(nested := false, dirty := false, frame := true, commits := t.commits)
            && t.commits == [Commit(Some(Size(10, 10)), 1), Commit(Some(Size(10, 10)), 1)]
  {
    hide ShownSize, Updated;
    SmallStays(s.buffer);
  }

  lemma LeftoverGrows(s: Lock)
    requires !s.nested && Clean(s) && s.frame && s.newest == 1 && s.acks == [1] && s.received == map[1 := Size(10, 10)]
    requires s.commits == [Commit(Some(Size(10, 10)), 1), Commit(Some(Size(10, 10)), 1)]
    requires s.upstream == SmallUpstream()
    ensures var e := Configure(2, Size(20, 20));
            var t := Step(s, e);
            && Legal(s, e) && !LosesFirst(s, e) && Clean(t)
            && t.acks == [1, 2] && t.received == map[1 := Size(10, 10), 2 := Size(20, 20)]
            && t.commits == [Commit(Some(Size(10, 10)), 1), Commit(Some(Size(10, 10)), 1), Commit(Some(Size(10, 10)), 2)]
  {
    hide ShownSize, SmallUpstream, FallbackState;
    SmallStays(Size(20, 20));
    assert [1] + [2] == [1, 2];
    assert map[1 := Size(10, 10)][2 := Size(20, 20)] == map[1 := Size(10, 10), 2 := Size(20, 20)];
  }

  const REPLACED_RUN: seq<Event> :=
    FirstCommit(Size(10, 10), SMALL_VIEW)
    + [ReplaceClient] + [Configure(2, Size(20, 20))] + [GetLayerSurface] + [PluginCommit(None)]
    + [PluginAck(FIRST_CLIENT_SERIAL + 1)] + [PluginCommit(Some(PLAIN_VIEW))]

  const PLAIN_VIEW: View := Pending(DiffCommits.DEFAULT_STATE, Size(20, 20))

  /** Or a replacement client without a viewport draws 20x20: it is shown at 10x10 too. */
  lemma LeftoverBreaksReplacement()
    ensures var t := Run(INIT, REPLACED_RUN);
            && RunOk(INIT, REPLACED_RUN) && ErrorFree(INIT, REPLACED_RUN)
            && t.acks == [1, 2] && t.received == map[1 := Size(10, 10), 2 := Size(20, 20)]
            && t.commits == [Commit(Some(Size(10, 10)), 1), Commit(Some(Size(10, 10)), 1), Commit(Some(Size(10, 10)), 2)]
  {
    var s := FirstCommitted(Size(10, 10), SMALL_VIEW);
    var first := FirstCommit(Size(10, 10), SMALL_VIEW);
    PlaysSmall();
    ReplacedGrows(s);
    var grow := Configure(2, Size(20, 20));
    var ack := PluginAck(FIRST_CLIENT_SERIAL + 1);
    var s1 := Step(s, ReplaceClient);
    var s2 := Step(s1, grow);
    ReplacedAnswered(s2);
    var s3 := Step(s2, GetLayerSurface);
    var s4 := Step(s3, PluginCommit(None));
    ReplacedShown(s4);
    var s5 := Step(s4, ack);
    hide Step, FirstCommit, Run, RunOk, ErrorFree, FirstCommitted, LosesFirst;
    Harmless(s, ReplaceClient); Harmless(s2, GetLayerSurface); Harmless(s4, ack);
    Harmless(s5, PluginCommit(Some(PLAIN_VIEW)));
    PlaysMore(INIT, first, s, ReplaceClient);
    PlaysMore(INIT, first + [ReplaceClient], s1, grow);
    PlaysMore(INIT, first + [ReplaceClient] + [grow], s2, GetLayerSurface);
    PlaysMore(INIT, first + [ReplaceClient] + [grow] + [GetLayerSurface], s3, PluginCommit(None));
    PlaysMore(INIT, first + [ReplaceClient] + [grow] + [GetLayerSurface] + [PluginCommit(None)], s4, ack);
    PlaysMore(INIT, first + [ReplaceClient] + [grow] + [GetLayerSurface] + [PluginCommit(None)] + [ack], s5,
              PluginCommit(Some(PLAIN_VIEW)));
  }

  /** The replacement client has been answered with the second configure. */
  predicate Replaced(s: Lock) {
    && s.nested && Clean(s) && s.acks == [1] && s.received == map[1 := Size(10, 10), 2 := Size(20, 20)]
    && s.commits == [Commit(Some(Size(10, 10)), 1), Commit(Some(Size(10, 10)), 1)]
    && s.upstream == SmallUpstream()
    && s.plugin == Some(NewPlugin(FIRST_CLIENT_SERIAL).(
                          configured := true,
                          table := [SerialPair(FIRST_CLIENT_SERIAL + 1, 2, Size(20, 20), false)]))
  }

  /** The output has grown with no client there. */
  predicate Grown(s: Lock) {
    && s.nested && Clean(s) && s.size == Size(20, 20) && s.newest == 2 && s.hasNewer && s.usedFirst
    && s.plugin == None && s.clientSerial == FIRST_CLIENT_SERIAL && s.acks == [1]
    && s.received == map[1 := Size(10, 10), 2 := Size(20, 20)]
    && s.commits == [Commit(Some(Size(10, 10)), 1), Commit(Some(Size(10, 10)), 1)]
    && s.upstream == SmallUpstream()
  }

  lemma ReplacedGrows(s: Lock)
    requires s == FirstCommitted(Size(10, 10), SMALL_VIEW) && s.commits == [Commit(Some(Size(10, 10)), 1)]
    ensures var s1 := Step(s, ReplaceClient);
            var e := Configure(2, Size(20, 20));
            Clean(s1) && Legal(s1, e) && !LosesFirst(s1, e) && Grown(Step(s1, e))
  {
    hide ShownSize, SmallUpstream, Updated;
    assert s.upstream == SmallUpstream() by { SmallIs(); }
    var s1 := Step(s, ReplaceClient);
    assert s1 == s.(plugin := None, clientSerial := FIRST_CLIENT_SERIAL);
    SmallStays(s.buffer);
    assert map[1 := Size(10, 10)][2 := Size(20, 20)] == map[1 := Size(10, 10), 2 := Size(20, 20)];
    var t := Step(s1, Configure(2, Size(20, 20)));
    assert t.commits == s1.commits + [Commit(Some(Size(10, 10)), 1)];
  }

  lemma SmallIs()
    ensures SmallUpstream() == Updated(DiffCommits.DEFAULT_UPSTREAM, DiffCommits.DEFAULT_STATE, SMALL_VIEW.state)
  {
    hide Updated;
  }

  lemma ReplacedAnswered(s: Lock)
    requires Grown(s)
    ensures var s1 := Step(s, GetLayerSurface);
            var t := Step(s1, PluginCommit(None));
            Clean(s1) && !LosesFirst(s1, PluginCommit(None)) && Replaced(t)
  {
    hide SmallUpstream;
    var s1 := Step(s, GetLayerSurface);
    assert s1 == s.(plugin := Some(NewPlugin(FIRST_CLIENT_SERIAL)), clientSerial := FIRST_CLIENT_SERIAL + 1);
    var pair := SerialPair(FIRST_CLIENT_SERIAL + 1, 2, Size(20, 20), false);
    assert [] + [pair] == [pair];
  }

  lemma PlainStays()
    ensures ShownSize(Updated(SmallUpstream(), DiffCommits.DEFAULT_STATE, PLAIN_VIEW.state), Size(20, 20)) == Some(Size(10, 10))
  {
    hide Updated;
    UpdatedGeometry(DiffCommits.DEFAULT_UPSTREAM, DiffCommits.DEFAULT_STATE, SMALL_VIEW.state);
    UpdatedGeometry(SmallUpstream(), DiffCommits.DEFAULT_STATE, PLAIN_VIEW.state);
  }

  lemma ReplacedShown(s: Lock)
    requires Replaced(s)
    ensures var s1 := Step(s, PluginAck(FIRST_CLIENT_SERIAL + 1));
            var t := Step(s1, PluginCommit(Some(PLAIN_VIEW)));
            && Clean(s1) && Clean(t) && t.acks == [1, 2] && t.received == s.received
            && t.commits == [Commit(Some(Size(10, 10)), 1), Commit(Some(Size(10, 10)), 1), Commit(Some(Size(10, 10)), 2)]
  {
    hide ShownSize, SmallUpstream, Updated, CheckedSize;
    var table := s.plugin.value.table;
    assert Find(table, FIRST_CLIENT_SERIAL + 1) == 0;
    PlainStays();
    PlainChecked();
    assert [1] + [2] == [1, 2];
  }

  lemma PlainChecked()
    ensures CheckedSize(PLAIN_VIEW) == Fits(Size(20, 20))
  {
    assert 20 % 1 == 0 && 20 / 1 == 20;
  }

  const GROWING_RUN: seq<Event> :=
    [Configure(1, Size(10, 10))] + [GetLayerSurface] + [Configure(2, Size(20, 20))] + [PluginCommit(None)]
    + [PluginAck(FIRST_CLIENT_SERIAL + 1)] + [PluginCommit(Some(PLAIN_VIEW))]

  /** The output has grown between the first configure and the plugin's initial commit, which was answered
      with the first serial and the new size. */
  function Outgrown(): Lock {
    INIT.(size := Size(20, 20), newest := 2, hasNewer := true, dirty := true, first := 1, usedFirst := true,
          plugin := Some(NewPlugin(FIRST_CLIENT_SERIAL).(
                           configured := true, table := [SerialPair(FIRST_CLIENT_SERIAL + 1, 1, Size(20, 20), false)])),
          clientSerial := FIRST_CLIENT_SERIAL + 2, received := map[1 := Size(10, 10), 2 := Size(20, 20)])
  }

  lemma PlaysOutgrown()
    ensures Plays(INIT, [Configure(1, Size(10, 10))] + [GetLayerSurface] + [Configure(2, Size(20, 20))] + [PluginCommit(None)],
                  Outgrown())
  {
    var e0, e1, e2, e3 := Configure(1, Size(10, 10)), GetLayerSurface, Configure(2, Size(20, 20)), PluginCommit(None);
    var s1 := Step(INIT, e0);
    var s2 := Step(s1, e1);
    assert s2 == INIT.(size := Size(10, 10), newest := 1, hasNewer := true, dirty := true, first := 1,
                       received := map[1 := Size(10, 10)], plugin := Some(NewPlugin(FIRST_CLIENT_SERIAL)),
                       clientSerial := FIRST_CLIENT_SERIAL + 1);
    assert map[1 := Size(10, 10)][2 := Size(20, 20)] == map[1 := Size(10, 10), 2 := Size(20, 20)];
    var s3 := Step(s2, e2);
    assert s3 == s2.(size := Size(20, 20), newest := 2, received := map[1 := Size(10, 10), 2 := Size(20, 20)]);
    var pair := SerialPair(FIRST_CLIENT_SERIAL + 1, 1, Size(20, 20), false);
    assert Step(s3, e3) == Outgrown() by { assert [] + [pair] == [pair]; }
    assert Legal(INIT, e0) && !LosesFirst(INIT, e0) && !LosesFirst(s1, e1);
    assert Legal(s2, e2) && !LosesFirst(s2, e2) && !LosesFirst(s3, e3);
    hide Step, LosesFirst, Plays;
    PlaysOne(INIT, e0);
    PlaysMore(INIT, [e0], s1, e1);
    PlaysMore(INIT, [e0] + [e1], s2, e2);
    PlaysMore(INIT, [e0] + [e1] + [e2], s3, e3);
  }

  lemma OutgrownShown()
    ensures var s1 := Step(Outgrown(), PluginAck(FIRST_CLIENT_SERIAL + 1));
            var t := Step(s1, PluginCommit(Some(PLAIN_VIEW)));
            && Clean(s1) && Clean(t) && t.acks == [1] && t.commits == [Commit(Some(Size(20, 20)), 1)]
            && t.received == map[1 := Size(10, 10), 2 := Size(20, 20)]
  {
    hide Updated, CheckedSize, ShownSize;
    assert Find(Outgrown().plugin.value.table, FIRST_CLIENT_SERIAL + 1) == 0;
    PlainChecked();
    PlainShown();
    assert [] + [1] == [1];
  }

  lemma PlainShown()
    ensures ShownSize(Updated(DiffCommits.DEFAULT_UPSTREAM, DiffCommits.DEFAULT_STATE, PLAIN_VIEW.state), Size(20, 20))
            == Some(Size(20, 20))
  {
    hide Updated;
    UpdatedGeometry(DiffCommits.DEFAULT_UPSTREAM, DiffCommits.DEFAULT_STATE, PLAIN_VIEW.state);
    assert 20 % 1 == 0 && 20 / 1 == 20;
  }

  /** Then the plugin commits a 20x20 buffer right after the 10x10 configure is acked. */
  lemma ResizeBreaksSizes()
    ensures var t := Run(INIT, GROWING_RUN);
            && RunOk(INIT, GROWING_RUN) && ErrorFree(INIT, GROWING_RUN)
            && t.acks == [1] && t.commits == [Commit(Some(Size(20, 20)), 1)]
            && t.received == map[1 := Size(10, 10), 2 := Size(20, 20)]
  {
    var first := [Configure(1, Size(10, 10))] + [GetLayerSurface] + [Configure(2, Size(20, 20))] + [PluginCommit(None)];
    var ack, last := PluginAck(FIRST_CLIENT_SERIAL + 1), PluginCommit(Some(PLAIN_VIEW));
    PlaysOutgrown();
    OutgrownShown();
    var s := Outgrown();
    var s1 := Step(s, ack);
    hide Step, Run, RunOk, ErrorFree, Outgrown;
    Harmless(s, ack);
    Harmless(s1, last);
    PlaysMore(INIT, first, s, ack);
    PlaysMore(INIT, first + [ack], s1, last);
  }

  // ----- a run with a protocol error

  lemma {:induction false} RunsOn(s: Lock, es: seq<Event>, fs: seq<Event>)
    requires RunOk(s, es) && RunOk(Run(s, es), fs)
    ensures RunOk(s, es + fs) && Run(s, es + fs) == Run(Run(s, es), fs)
    decreases |es|
  {
    hide Step, Legal, LosesFirst;
    if es == [] {
      assert es + fs == fs;
    } else {
      assert (es + fs)[0] == es[0] && (es + fs)[1..] == es[1..] + fs;
      RunsOn(Step(s, es[0]), es[1..], fs);
    }
  }

  const LARGE_VIEW: View := Pending(DiffCommits.DEFAULT_STATE, Size(30, 30))

  const REJECTED: seq<Event> := [PluginCommit(Some(LARGE_VIEW)), FrameDone]

  lemma LargeRejected()
    ensures CheckedSize(LARGE_VIEW) == Fits(Size(30, 30))
    ensures ShownSize(Updated(SmoothUpstream(), DiffCommits.DEFAULT_STATE, LARGE_VIEW.state), Size(30, 30)) == Some(Size(30, 30))
    ensures ShownSize(SmoothUpstream(), Size(20, 20)) == Some(Size(20, 20))
  {
    hide Updated;
    assert 30 % 1 == 0 && 30 / 1 == 30 && 20 % 1 == 0 && 20 / 1 == 20;
    UpdatedGeometry(DiffCommits.DEFAULT_UPSTREAM, DiffCommits.DEFAULT_STATE, PLAIN_VIEW.state);
    UpdatedGeometry(SmoothUpstream(), DiffCommits.DEFAULT_STATE, LARGE_VIEW.state);
  }

  /** What is upstream after a plain commit. */
  function SmoothUpstream(): DiffCommits.Upstream {
    Updated(DiffCommits.DEFAULT_UPSTREAM, DiffCommits.DEFAULT_STATE, PLAIN_VIEW.state)
  }

  lemma RejectedSteps(s: Lock)
    requires s == FirstCommitted(Size(20, 20), PLAIN_VIEW)
    ensures var t := Step(Step(s, REJECTED[0]), REJECTED[1]);
            && t.erred && t.acks == [1] && t.received == map[1 := Size(20, 20)]
            && t.commits == [Commit(Some(Size(20, 20)), 1), Commit(Some(Size(30, 30)), 1)]
  {
    hide Updated, ShownSize, CheckedSize;
    LargeRejected();
    assert s.upstream == SmoothUpstream();
    var s1 := Step(s, REJECTED[0]);
    assert s1 == Disconnect(ApplyUpdates(s, LARGE_VIEW));
    assert Shown(s1) == Some(Size(30, 30));
  }

  /** A client at 20x20 commits a 30x30 buffer and is disconnected for it; the next injected commit shows the
      30x30 buffer under the 20x20 configure. */
  lemma RejectionBreaksSizes()
    ensures var es := FirstCommit(Size(20, 20), PLAIN_VIEW);
            var t := Run(INIT, es + REJECTED);
            && ErrorFree(INIT, es) && RejectionSpoils(FirstCommitted(Size(20, 20), PLAIN_VIEW), LARGE_VIEW)
            && Run(INIT, es) == FirstCommitted(Size(20, 20), PLAIN_VIEW)
            && RunOk(INIT, es + REJECTED) && t.acks == [1] && t.received == map[1 := Size(20, 20)]
            && t.commits == [Commit(Some(Size(20, 20)), 1), Commit(Some(Size(30, 30)), 1)]
  {
    var s := FirstCommitted(Size(20, 20), PLAIN_VIEW);
    var es := FirstCommit(Size(20, 20), PLAIN_VIEW);
    PlainChecked();
    PlaysFirstCommit(Size(20, 20), PLAIN_VIEW);
    RejectedSteps(s);
    assert RejectionSpoils(s, LARGE_VIEW) by { LargeSpoils(s); }
    hide Step, FirstCommit, FirstCommitted, LosesFirst, RejectionSpoils;
    Harmless(s, REJECTED[0]);
    Harmless(Step(s, REJECTED[0]), REJECTED[1]);
    assert REJECTED[1..] == [REJECTED[1]] && REJECTED[1..][1..] == [];
    assert RunOk(Step(s, REJECTED[0]), REJECTED[1..]);
    assert Run(Step(s, REJECTED[0]), REJECTED[1..]) == Step(Step(s, REJECTED[0]), REJECTED[1]);
    RunsOn(INIT, es, REJECTED);
  }

  lemma LargeSpoils(s: Lock)
    requires s == FirstCommitted(Size(20, 20), PLAIN_VIEW)
    ensures RejectionSpoils(s, LARGE_VIEW)
  {
    hide Updated, ShownSize, WillShow;
    LargeRejected();
    assert s.upstream == SmoothUpstream();
    assert Shown(s) == Some(Size(20, 20));
    WillShowExactly(s.upstream, s.plugin.value.committed, LARGE_VIEW, Size(20, 20));
  }
}
