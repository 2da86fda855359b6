/** The sizes of the upstream commits of the configure/ack translator. */
module LockSizes {
  import opened Options
  import opened SurfaceSizes
  import opened LockProtocol
  import opened LockSafety
  import opened LockOrder
  import DiffCommits

  function SizeAt(received: Sizes, serial: int): Option<Size> {
    if serial >= 0 && serial in received then Some(received[serial]) else None
  }

  /** The configure the next commit will be for: the one whose ack is held back, or the one acked last. */
  function Due(hasPending: bool, pending: nat, acks: seq<nat>): int {
    if hasPending then pending else LastAck(acks)
  }

  /** The size of the newest configure, if its ack is not missing. */
  function Settled(size: Size, hasNewer: bool): Option<Size> {
    if size.Known() && !hasNewer then Some(size) else None
  }

  /** Each table entry of a known size names the size of the configure it stands for; a local one stands
      for the configure that is due. */
  predicate PairSizes(received: Sizes, due: int, table: seq<SerialPair>) {
    forall i :: 0 <= i < |table| && table[i].size.Known() ==>
      SizeAt(received, if table[i].localOnly then due else table[i].upstream) == Some(table[i].size)
  }

  /** Every configure still in the table had this size. */
  predicate AllSized(received: Sizes, table: seq<SerialPair>, size: Size) {
    forall i :: 0 <= i < |table| && !table[i].localOnly ==> SizeAt(received, table[i].upstream) == Some(size)
  }

  predicate CommitOk(received: Sizes, acks: seq<nat>, c: Commit) {
    c.size.Some? && 0 < c.acked <= |acks| && SizeAt(received, acks[c.acked - 1]) == c.size
  }

  /** Every upstream commit gave the surface the size carried by the configure acked last before it. */
  predicate CommitsOk(received: Sizes, acks: seq<nat>, commits: seq<Commit>) {
    forall i :: 0 <= i < |commits| ==> CommitOk(received, acks, commits[i])
  }

  predicate PluginSizes(p: Plugin, received: Sizes, due: int, settled: Option<Size>) {
    && PairSizes(received, due, p.table)
    && (p.lastAcked.Known() ==> SizeAt(received, due) == Some(p.lastAcked))
    && (settled.Some? ==> AllSized(received, p.table, settled.value))
  }

  /** When the newest configure is acked, its size is that of the configure acked last and of the one due. */
  predicate SettledOk(received: Sizes, last: int, due: int, nested: bool, settled: Option<Size>) {
    settled.Some? ==> SizeAt(received, last) == settled && (nested ==> SizeAt(received, due) == settled)
  }

  predicate ShownOk(received: Sizes, acks: seq<nat>, shown: Option<Size>) {
    shown.Some? && SizeAt(received, LastAck(acks)) == shown
  }

  predicate SizesOk(s: Lock) {
    var due := Due(s.hasPending, s.pendingSerial, s.acks);
    var settled := Settled(s.size, s.hasNewer);
    && CommitsOk(s.received, s.acks, s.commits)
    && (!s.halted && s.hasBuffer ==> ShownOk(s.received, s.acks, Shown(s)))
    && (!s.halted ==> SettledOk(s.received, LastAck(s.acks), due, s.nested, settled))
    && (s.nested && !s.halted && s.plugin.Some? ==>
          && PluginSizes(s.plugin.value, s.received, due, settled)
          && DestMirrored(s.upstream, s.plugin.value.committed))
  }

  // ----- the events that lead to a commit of another size

  /** The first serial will be paired with a size that has changed since. */
  predicate Resized(s: Lock) {
    s.size.Known() && !s.usedFirst && SizeAt(s.received, s.first) != Some(s.size)
  }

  /** A commit that is accepted and shows another size than the one acked, or is rejected and changes
      what injected commits will show. */
  predicate CommitSpoils(s: Lock, v: View)
    requires s.plugin.Some?
  {
    var p := s.plugin.value;
    match CheckedSize(v)
    case DivisionByZero => false
    case Fits(size) =>
      if size == p.lastAcked then !WillShow(s.upstream, p.committed, v, size) else RejectionSpoils(s, v)
    case BadSize => RejectionSpoils(s, v)
  }

  predicate RejectionSpoils(s: Lock, v: View)
    requires s.plugin.Some?
  {
    s.hasBuffer && !(Shown(s).Some? && WillShow(s.upstream, s.plugin.value.committed, v, Shown(s).value))
  }

  /** The fallback is shown on a surface that a client left in a state where it has another size. */
  predicate Spoils(s: Lock, e: Event) {
    !s.halted &&
    match e
    case PluginCommit(a) =>
      s.nested && !s.erred && s.plugin.Some? &&
      if s.plugin.value.configured then a.Some? && CommitSpoils(s, a.value) else a.None? && Resized(s)
    case Configure(_, size) => !s.nested && size.Known() && !FallbackShows(s.upstream, size)
    case GoClientless => s.nested && s.size.Known() && !s.hasBuffer && !FallbackShows(s.upstream, s.size)
    case _ => false
  }

  // ----- every other event keeps the sizes right

  lemma CommitsMore(received: Sizes, acks: seq<nat>, commits: seq<Commit>, serial: nat)
    requires CommitsOk(received, acks, commits)
    ensures CommitsOk(received, acks + [serial], commits)
  {
  }

  lemma CommitsReceive(received: Sizes, acks: seq<nat>, commits: seq<Commit>, serial: nat, size: Size)
    requires CommitsOk(received, acks, commits) && forall k :: k in received ==> k < serial
    ensures CommitsOk(received[serial := size], acks, commits)
  {
  }

  lemma PluginReceive(p: Plugin, received: Sizes, due: int, serial: nat, size: Size)
    requires PluginSizes(p, received, due, None) && forall k :: k in received ==> k < serial
    ensures PluginSizes(p, received[serial := size], due, None)
  {
    hide Size.Known;
  }

  lemma CommitsAppend(received: Sizes, acks: seq<nat>, commits: seq<Commit>, c: Commit)
    requires CommitsOk(received, acks, commits) && CommitOk(received, acks, c)
    ensures CommitsOk(received, acks, commits + [c])
  {
    hide CommitOk;
  }

  lemma SizesCommit(s: Lock)
    requires SizesOk(s) && s.hasBuffer && !s.halted
    ensures SizesOk(CommitUpstream(s))
  {
    hide PluginSizes, CommitsOk, ShownSize, DestMirrored;
    var c := Commit(Shown(s), |s.acks|);
    assert CommitOk(s.received, s.acks, c) by { assert s.acks != []; }
    CommitsAppend(s.received, s.acks, s.commits, c);
    assert Shown(CommitUpstream(s)) == Shown(s);
  }

  lemma SizesRender(s: Lock)
    requires SizesOk(s) && !s.halted
    ensures SizesOk(Render(s))
  {
    hide CommitsOk, PluginSizes, ShownOk, CommitUpstream, ShownSize, DestMirrored;
    if s.hasBuffer { SizesCommit(s.(dirty := false, frame := true)); }
  }

  lemma PluginUnsettled(p: Plugin, received: Sizes, due: int, settled: Option<Size>)
    requires PluginSizes(p, received, due, settled)
    ensures PluginSizes(p, received, due, None)
  {
    hide PairSizes, SizeAt, Size.Known;
  }

  /** Fields that no clause mentions, and a newer configure that is not acked. */
  lemma SizesBookkeeping(s: Lock, t: Lock)
    requires SizesOk(s)
    requires t == s.(dirty := t.dirty, frame := t.frame, clientSerial := t.clientSerial,
                     halted := s.halted || t.halted, nested := s.nested && t.nested, first := t.first,
                     usedFirst := t.usedFirst, hasNewer := t.hasNewer, newest := t.newest, size := t.size)
    requires t.hasNewer || (t.size == s.size && t.hasNewer == s.hasNewer)
    ensures SizesOk(t)
  {
    hide CommitsOk, PluginSizes, ShownOk, ShownSize, DestMirrored, Size.Known;
    if s.plugin.Some? && s.nested && !s.halted {
      PluginUnsettled(s.plugin.value, s.received, Due(s.hasPending, s.pendingSerial, s.acks), Settled(s.size, s.hasNewer));
    }
  }

  lemma SizesWithout(s: Lock, clientSerial: nat, erred: bool)
    requires SizesOk(s)
    ensures SizesOk(s.(plugin := None, clientSerial := clientSerial, erred := erred))
  {
    hide CommitsOk, PluginSizes, ShownOk, ShownSize, DestMirrored;
  }

  lemma PluginSizesAppend(p: Plugin, received: Sizes, due: int, settled: Option<Size>, e: SerialPair)
    requires PluginSizes(p, received, due, settled)
    requires e.size.Known() ==> SizeAt(received, if e.localOnly then due else e.upstream) == Some(e.size)
    requires settled.Some? ==> e.size.Known() && settled.value == e.size
    ensures PluginSizes(p.(table := p.table + [e]), received, due, settled)
  {
    hide SizeAt, Size.Known;
  }

  lemma SizesAddPair(s: Lock, upstream: nat, localOnly: bool)
    requires SizesOk(s) && s.plugin.Some?
    requires s.size.Known() ==>
               SizeAt(s.received, if localOnly then Due(s.hasPending, s.pendingSerial, s.acks) else upstream) == Some(s.size)
    ensures SizesOk(AddPair(s, upstream, localOnly)) && AddPair(s, upstream, localOnly).plugin.Some?
  {
    hide CommitsOk, PluginSizes, ShownOk, SizeAt, ShownSize, DestMirrored, Due, Size.Known, Bump;
    if s.nested && !s.halted {
      PluginSizesAppend(s.plugin.value, s.received, Due(s.hasPending, s.pendingSerial, s.acks), Settled(s.size, s.hasNewer),
                        SerialPair(s.clientSerial, upstream, s.size, localOnly));
    }
  }

  lemma NothingSettled(received: Sizes, last: int, due: int, nested: bool, size: Size)
    ensures SettledOk(received, last, due, nested, Settled(size, true))
    ensures Settled(size, true) == None
  {
  }

  lemma ShownReceive(received: Sizes, acks: seq<nat>, shown: Option<Size>, serial: nat, size: Size)
    requires ShownOk(received, acks, shown) && forall k :: k in received ==> k < serial
    ensures ShownOk(received[serial := size], acks, shown)
  {
  }

  lemma ReceiveFields(s: Lock, serial: nat, size: Size)
    ensures var t := Receive(s, serial, size).(hasNewer := true);
            && t == s.(size := size, newest := serial, received := s.received[serial := size], hasNewer := true)
            && Shown(t) == Shown(s)
  {
    hide ShownSize;
  }

  lemma ReceiveUnsettled(s: Lock, serial: nat, size: Size)
    requires SizesOk(s) && forall k :: k in s.received ==> k < serial
    ensures SizesOk(Receive(s, serial, size).(hasNewer := true))
  {
    hide CommitsOk, PluginSizes, ShownOk, Shown, DestMirrored, Due, Settled, SettledOk, Receive;
    ReceiveFields(s, serial, size);
    var due := Due(s.hasPending, s.pendingSerial, s.acks);
    CommitsReceive(s.received, s.acks, s.commits, serial, size);
    NothingSettled(s.received[serial := size], LastAck(s.acks), due, s.nested, size);
    if s.hasBuffer && !s.halted { ShownReceive(s.received, s.acks, Shown(s), serial, size); }
    if s.plugin.Some? && s.nested && !s.halted {
      PluginUnsettled(s.plugin.value, s.received, due, Settled(s.size, s.hasNewer));
      PluginReceive(s.plugin.value, s.received, due, serial, size);
    }
  }

  lemma SizesForward(s: Lock, serial: nat, size: Size)
    requires SizesOk(s) && s.nested
    requires forall k :: k in s.received ==> k < serial
    ensures SizesOk(ForwardConfigure(Receive(s, serial, size).(hasNewer := true), !s.size.Known(), serial))
  {
    hide SizesOk, AddPair, Size.Known;
    ReceiveUnsettled(s, serial, size);
    var s1 := Receive(s, serial, size).(hasNewer := true);
    SizesBookkeeping(s1, s1.(first := serial, usedFirst := false));
    if s.plugin.Some? { SizesAddPair(s1, serial, false); }
  }

  lemma SizesFallback(s: Lock)
    requires !s.nested && !s.halted && !s.hasNewer && CommitsOk(s.received, s.acks, s.commits)
    requires s.size.Known() && SizeAt(s.received, LastAck(s.acks)) == Some(s.size)
    requires FallbackShows(s.upstream, s.size)
    ensures SizesOk(RenderFallback(s)) && !RenderFallback(s).halted
  {
    hide CommitsOk, CommitUpstream, PluginSizes, ShownSize, FallbackShows, FallbackState, SizeAt, Size.Known;
    FallbackShowsExactly(s.upstream, s.size);
    var s1 := s.(upstream := FallbackState(s.upstream), buffer := s.size, hasBuffer := true);
    assert Shown(s1) == Some(s.size);
    SizesCommit(s1);
    CommitKeepsHalted(s1);
  }

  lemma CommitKeepsHalted(s: Lock)
    ensures CommitUpstream(s).halted == s.halted
  {
    hide Shown;
  }

  /** A halted surface commits nothing more. */
  lemma SizesHalted(s: Lock, t: Lock)
    requires CommitsOk(s.received, s.acks, s.commits) && t.halted
    requires t.received == s.received && t.acks == s.acks && t.commits == s.commits
    ensures SizesOk(t)
  {
    hide CommitsOk;
  }

  lemma SizesClientlessAck(s: Lock, serial: nat, size: Size)
    requires SizesOk(s) && !s.nested && !s.halted && size.Known() && FallbackShows(s.upstream, size)
    requires forall k :: k in s.received ==> k < serial
    ensures var t := RenderFallback(SendAck(Receive(s, serial, size), serial).(hasNewer := false));
            SizesOk(t) && !t.halted
  {
    hide CommitsOk, PluginSizes, RenderFallback, FallbackShows, DestMirrored, ShownOk;
    CommitsReceive(s.received, s.acks, s.commits, serial, size);
    var received := s.received[serial := size];
    CommitsMore(received, s.acks, s.commits, serial);
    SizesFallback(SendAck(Receive(s, serial, size), serial).(hasNewer := false));
  }

  /** A zero-sized configure in clientless mode ends the run. */
  lemma SizesZeroConfigure(s: Lock, serial: nat, size: Size)
    requires SizesOk(s) && !s.nested && !size.Known()
    requires forall k :: k in s.received ==> k < serial
    ensures SizesOk(HandleConfigure(s, serial, size))
  {
    hide CommitsOk, PluginSizes, DestMirrored, ShownOk, CommitUpstream;
    CommitsReceive(s.received, s.acks, s.commits, serial, size);
    var received := s.received[serial := size];
    CommitsMore(received, s.acks, s.commits, serial);
    var s1 := SendAck(Receive(s, serial, size), serial);
    var t := HandleConfigure(s, serial, size);
    assert t == s1.(hasNewer := false, halted := true, dirty := true);
    SizesHalted(s1, t);
  }

  lemma ReceivedBefore(s: Lock, serial: nat)
    requires Traced(s) && (s.newest !in s.received || s.newest < serial)
    ensures forall k :: k in s.received ==> k < serial
  {
  }

  lemma ForwardNotHalted(s: Lock, first: bool, serial: nat)
    ensures ForwardConfigure(s, first, serial).halted == s.halted
  {
  }

  lemma SizesConfigure(s: Lock, serial: nat, size: Size)
    requires Traced(s) && SizesOk(s) && !s.halted && Legal(s, Configure(serial, size))
    requires !Spoils(s, Configure(serial, size))
    ensures SizesOk(HandleConfigure(s, serial, size))
  {
    hide Traced, SizesOk, ForwardConfigure, RenderFallback, Render, FallbackShows, Receive, SendAck;
    ReceivedBefore(s, serial);
    var s0 := Receive(s, serial, size);
    if s.nested {
      SizesForward(s, serial, size);
      var s1 := ForwardConfigure(s0.(hasNewer := true), !s.size.Known(), serial);
      ForwardNotHalted(s0.(hasNewer := true), !s.size.Known(), serial);
      assert !s1.halted by { Received(s, serial, size); }
      SizesBookkeeping(s1, s1.(dirty := true));
      SizesRender(s1.(dirty := true));
    } else if size.Known() {
      SizesClientlessAck(s, serial, size);
      var s2 := RenderFallback(SendAck(s0, serial).(hasNewer := false));
      SizesBookkeeping(s2, s2.(dirty := true));
      SizesRender(s2.(dirty := true));
    } else {
      SizesZeroConfigure(s, serial, size);
    }
  }

  lemma Received(s: Lock, serial: nat, size: Size)
    ensures Receive(s, serial, size).halted == s.halted
  {
  }

  lemma SizesInitialCommit(s: Lock)
    requires Traced(s) && SizesOk(s) && s.nested && !s.halted
    requires s.plugin.Some? && !s.plugin.value.configured && !Resized(s)
    ensures SizesOk(InitialCommit(s, None))
  {
    hide SizesOk, Traced, AddPair, SizeAt, Due, Size.Known;
    NewestSize(s);
    if !s.usedFirst {
      SizesAddPair(s, s.first, false);
      SizesConfigured(AddPair(s, s.first, false), true);
    } else if s.hasNewer {
      SizesAddPair(s, s.newest, false);
      SizesConfigured(AddPair(s, s.newest, false), AddPair(s, s.newest, false).usedFirst);
    } else {
      SizesAddPair(s, 0, true);
      SizesConfigured(AddPair(s, 0, true), AddPair(s, 0, true).usedFirst);
    }
  }

  lemma SizesConfigured(s: Lock, usedFirst: bool)
    requires SizesOk(s) && s.plugin.Some?
    ensures SizesOk(s.(plugin := Some(s.plugin.value.(configured := true)), usedFirst := usedFirst))
  {
    hide CommitsOk, PairSizes, ShownOk, SizeAt, ShownSize, DestMirrored;
  }

  lemma PairTrace(s: Lock, upstream: nat, localOnly: bool)
    requires s.plugin.Some?
    ensures var t := AddPair(s, upstream, localOnly);
            t.received == s.received && t.acks == s.acks && t.commits == s.commits
  {
    hide Bump;
  }

  lemma AnswerTrace(s: Lock)
    requires s.plugin.Some?
    ensures var t := AnswerInitial(s);
            t.received == s.received && t.acks == s.acks && t.commits == s.commits
  {
    hide AddPair;
    PairTrace(s, s.first, false);
    PairTrace(s, s.newest, false);
    PairTrace(s, 0, true);
  }

  lemma InitialTrace(s: Lock, a: Option<View>)
    requires s.plugin.Some? && a.Some?
    ensures var t := InitialCommit(s, a);
            t.halted && t.received == s.received && t.acks == s.acks && t.commits == s.commits
  {
    hide AnswerInitial;
    AnswerTrace(s);
  }

  lemma AttachedInitialHalts(s: Lock, a: Option<View>)
    requires SizesOk(s) && s.plugin.Some? && a.Some?
    ensures SizesOk(InitialCommit(s, a))
  {
    hide CommitsOk, SizesOk, InitialCommit;
    CommitsAreOk(s);
    InitialTrace(s, a);
    SizesHalted(s, InitialCommit(s, a));
  }

  lemma CommitsAreOk(s: Lock)
    requires SizesOk(s)
    ensures CommitsOk(s.received, s.acks, s.commits)
  {
    hide CommitsOk;
  }

  lemma NewestSize(s: Lock)
    requires Traced(s) && SizesOk(s) && !s.halted
    ensures s.size.Known() ==> SizeAt(s.received, s.newest) == Some(s.size)
    ensures s.size.Known() && !s.hasNewer ==> SizeAt(s.received, LastAck(s.acks)) == Some(s.size)
    ensures s.size.Known() && !s.hasNewer && s.nested ==>
              SizeAt(s.received, Due(s.hasPending, s.pendingSerial, s.acks)) == Some(s.size)
  {
    hide CommitsOk, PluginSizes, ShownOk, ShownSize, DestMirrored, Due;
  }

  // ----- content commits

  /** Nothing is left in the table once the newest configure has been acked by its client. */
  lemma NothingNewer(s: Lock)
    requires Traced(s) && s.nested && !s.halted && s.plugin.Some? && s.plugin.value.lastAcked.Known()
    requires s.hasPending && s.pendingSerial == s.newest
    ensures AllSized(s.received, s.plugin.value.table, s.size)
  {
    hide SizeAt, Size.Known, Ordered, NewestOk;
  }

  lemma PluginResettled(p: Plugin, received: Sizes, due: int, settled: Option<Size>, size: Size)
    requires PluginSizes(p, received, due, settled) && AllSized(received, p.table, size)
    ensures PluginSizes(p, received, due, Some(size))
  {
    hide PairSizes, AllSized, SizeAt, Size.Known;
  }

  /** What a plugin's commit needs of the surface it is about to change. */
  predicate ReadyToCommit(s: Lock) {
    var due := Due(s.hasPending, s.pendingSerial, s.acks);
    var settled := Settled(s.size, s.hasNewer);
    && CommitsOk(s.received, s.acks, s.commits)
    && s.nested && !s.halted && s.plugin.Some?
    && SettledOk(s.received, LastAck(s.acks), due, s.nested, settled)
    && PluginSizes(s.plugin.value, s.received, due, settled)
    && DestMirrored(s.upstream, s.plugin.value.committed)
  }

  /** Flushing the held-back ack makes the size the plugin acked the one acked last upstream. */
  lemma SizesFlush(s: Lock)
    requires Traced(s) && ReadyToCommit(s)
    requires s.plugin.value.lastAcked.Known() && Shown(s) == Some(s.plugin.value.lastAcked)
    ensures SizesOk(FlushAck(s)) && FlushAck(s).hasBuffer == s.hasBuffer && FlushAck(s).halted == s.halted
  {
    FlushedDue(s);
    NewestKnown(s);
    hide CommitsOk, ShownSize, DestMirrored, SizeAt, AllSized, PairSizes, Traced, Size.Known, Due;
    if s.hasPending {
      CommitsMore(s.received, s.acks, s.commits, s.pendingSerial);
      if s.pendingSerial == s.newest {
        NothingNewer(s);
        PluginResettled(s.plugin.value, s.received, Due(s.hasPending, s.pendingSerial, s.acks),
                        Settled(s.size, s.hasNewer), s.size);
      }
    }
  }

  lemma NewestKnown(s: Lock)
    requires Traced(s)
    ensures s.size.Known() ==> SizeAt(s.received, s.newest) == Some(s.size)
  {
  }

  /** The ack sent is the one that was due. */
  lemma FlushedDue(s: Lock)
    ensures var t, due := FlushAck(s), Due(s.hasPending, s.pendingSerial, s.acks);
            Due(t.hasPending, t.pendingSerial, t.acks) == due && LastAck(t.acks) == due
            && (s.hasPending ==> due == s.pendingSerial)
  {
  }

  lemma ApplyReady(p: Plugin, state: DiffCommits.SurfaceState, received: Sizes, due: int, settled: Option<Size>)
    requires PluginSizes(p, received, due, settled)
    ensures PluginSizes(p.(mapped := true, committed := state), received, due, settled)
  {
    hide SizeAt, Size.Known;
  }

  /** The commit's own effect upstream, before its size is checked. */
  lemma SizesApply(s: Lock, v: View)
    requires SizesOk(s) && s.nested && !s.halted && s.plugin.Some?
    ensures var t := ApplyUpdates(s, v);
            && ReadyToCommit(t)
            && t.plugin.value.lastAcked == s.plugin.value.lastAcked
            && t.hasBuffer == s.hasBuffer && t.received == s.received && t.acks == s.acks && t.commits == s.commits
            && t.size == s.size && t.hasNewer == s.hasNewer
  {
    hide CommitsOk, PluginSizes, ShownOk, SizeAt, ShownSize, DestMirrored, Updated, Size.Known, Due, SettledOk;
    DestStaysMirrored(s.upstream, s.plugin.value.committed, v.state);
    ApplyReady(s.plugin.value, v.state, s.received, Due(s.hasPending, s.pendingSerial, s.acks), Settled(s.size, s.hasNewer));
  }

  lemma ShownApplied(s: Lock, v: View, size: Size)
    requires s.plugin.Some? && DestMirrored(s.upstream, s.plugin.value.committed)
    ensures WillShow(s.upstream, s.plugin.value.committed, v, size) <==> Shown(ApplyUpdates(s, v)) == Some(size)
  {
    hide WillShow, ShownSize, Updated, DestMirrored;
    WillShowExactly(s.upstream, s.plugin.value.committed, v, size);
  }

  lemma SizesAccepted(s: Lock, v: View)
    requires Traced(s) && SizesOk(s) && s.nested && !s.halted && HasConfiguredPlugin(s)
    requires CheckedSize(v) == Fits(s.plugin.value.lastAcked)
    requires WillShow(s.upstream, s.plugin.value.committed, v, s.plugin.value.lastAcked)
    ensures SizesOk(CommitUpstream(FlushAck(ApplyUpdates(s, v).(hasBuffer := true))))
  {
    hide Traced, ApplyUpdates, FlushAck, CommitUpstream, WillShow, CheckedSize, CommitsOk, ShownSize, ShownOk,
         DestMirrored, PluginSizes, SettledOk;
    assert DestMirrored(s.upstream, s.plugin.value.committed);
    SizesApply(s, v);
    TracedApply(s, v);
    ShownApplied(s, v, s.plugin.value.lastAcked);
    var t := ApplyUpdates(s, v).(hasBuffer := true);
    TracedAside(ApplyUpdates(s, v), t);
    assert t.plugin.value.lastAcked.Known();
    assert Shown(t) == Some(t.plugin.value.lastAcked);
    SizesFlush(t);
    SizesCommit(FlushAck(t));
  }

  /** A rejected commit leaves the surface at the size it had, or without a buffer. */
  lemma SizesRejected(s: Lock, v: View)
    requires SizesOk(s) && s.nested && !s.halted && s.plugin.Some? && !RejectionSpoils(s, v)
    ensures SizesOk(Disconnect(ApplyUpdates(s, v)))
  {
    hide ApplyUpdates, WillShow, CommitsOk, ShownSize, ShownOk, DestMirrored, PluginSizes, SettledOk;
    SizesApply(s, v);
    var t := ApplyUpdates(s, v);
    if s.hasBuffer {
      ShownApplied(s, v, Shown(s).value);
      assert Shown(t) == Shown(s);
    }
    assert Shown(Disconnect(t)) == Shown(t);
  }

  lemma SizesContentCommit(s: Lock, v: View)
    requires Traced(s) && SizesOk(s) && s.nested && !s.halted && HasConfiguredPlugin(s) && !CommitSpoils(s, v)
    ensures SizesOk(ContentCommit(s, v))
  {
    hide Traced, SizesOk, ApplyUpdates, FlushAck, CommitUpstream, WillShow, RejectionSpoils, CheckedSize, Disconnect;
    match CheckedSize(v)
    case BadSize => SizesRejected(s, v);
    case DivisionByZero =>
      SizesApply(s, v);
      SizesHalted(s, ApplyUpdates(s, v).(halted := true));
    case Fits(size) =>
      if size == s.plugin.value.lastAcked { SizesAccepted(s, v); } else { SizesRejected(s, v); }
  }

  lemma SizesHandleCommit(s: Lock, a: Option<View>)
    requires Traced(s) && SizesOk(s) && s.nested && !s.halted && !s.erred && !Spoils(s, PluginCommit(a))
    ensures SizesOk(HandleCommit(s, a))
  {
    hide Traced, SizesOk, InitialCommit, ContentCommit, CommitSpoils, Resized;
    if s.plugin.Some? {
      if !s.plugin.value.configured {
        if a.None? { SizesInitialCommit(s); } else { AttachedInitialHalts(s, a); }
      } else if a.Some? {
        SizesContentCommit(s, a.value);
      } else {
        SizesWithout(s, s.clientSerial, true);
      }
    }
  }

  // ----- the other handlers

  /** Acking an entry makes its configure the one due. */
  lemma PluginSizesDrop(p: Plugin, received: Sizes, due: int, settled: Option<Size>, i: nat, serial: nat)
    requires PluginSizes(p, received, due, settled) && i < |p.table| && NoneLocal(p.table[i + 1..])
    ensures var e := p.table[i];
            && PluginSizes(UsePair(p, i, serial), received, if e.localOnly then due else e.upstream, settled)
            && (settled.Some? && !e.localOnly ==> SizeAt(received, e.upstream) == settled)
  {
    hide SizeAt, Size.Known;
    var rest := p.table[i + 1..];
    assert forall k :: 0 <= k < |rest| ==> rest[k] == p.table[i + 1 + k];
  }

  lemma UseKeepsCommitted(p: Plugin, i: nat, serial: nat)
    requires i < |p.table|
    ensures UsePair(p, i, serial).committed == p.committed
  {
  }

  lemma SizesUse(s: Lock, i: nat, serial: nat)
    requires SizesOk(s) && s.nested && !s.halted && s.plugin.Some? && i < |s.plugin.value.table|
    requires NoneLocal(s.plugin.value.table[i + 1..])
    ensures var p := s.plugin.value;
            var t := s.(plugin := Some(UsePair(p, i, serial)));
            if p.table[i].localOnly then SizesOk(t) else SizesOk(HoldAck(t, p.table[i].upstream))
  {
    hide CommitsOk, ShownOk, PluginSizes, ShownSize, DestMirrored, UsePair, SizeAt, Size.Known;
    PluginSizesDrop(s.plugin.value, s.received, Due(s.hasPending, s.pendingSerial, s.acks),
                    Settled(s.size, s.hasNewer), i, serial);
    UseKeepsCommitted(s.plugin.value, i, serial);
  }

  lemma RestNotLocal(s: Lock, i: nat)
    requires Traced(s) && s.nested && !s.halted && s.plugin.Some? && i < |s.plugin.value.table|
    ensures NoneLocal(s.plugin.value.table[i + 1..])
  {
    hide NewestOk;
    ShapeUse(s.plugin.value, s.newest, s.hasPending, s.pendingSerial, i, 0);
  }

  lemma SizesAck(s: Lock, serial: nat)
    requires Traced(s) && SizesOk(s) && s.nested && !s.halted
    ensures SizesOk(HandleAck(s, serial))
  {
    hide HandleAck, SizesOk, Find, UsePair, HoldAck, Traced, NoneLocal;
    AckCases(s, serial);
    SizesWithout(s, s.clientSerial, true);
    if s.plugin.Some? {
      var i := Find(s.plugin.value.table, serial);
      if i < |s.plugin.value.table| {
        RestNotLocal(s, i);
        SizesUse(s, i, serial);
      }
    }
  }

  /** The fallback goes up right after the newest configure is acked. */
  lemma SizesFallen(s: Lock)
    requires !s.nested && !s.halted && !s.hasNewer && CommitsOk(s.received, s.acks, s.commits)
    requires s.size.Known() && SizeAt(s.received, LastAck(s.acks)) == Some(s.size)
    requires FallbackShows(s.upstream, s.size)
    ensures SizesOk(Render(RenderFallback(s).(dirty := true)))
  {
    hide CommitsOk, RenderFallback, Render, FallbackShows, SizesOk;
    SizesFallback(s);
    SizesBookkeeping(RenderFallback(s), RenderFallback(s).(dirty := true));
    SizesRender(RenderFallback(s).(dirty := true));
  }

  lemma SizesClientless(s: Lock)
    requires Traced(s) && SizesOk(s) && s.nested && !s.halted && !Spoils(s, GoClientless)
    ensures SizesOk(SetupClientless(s))
  {
    hide Traced, CommitsOk, RenderFallback, Render, SizesOk, FallbackShows, SizeAt, Size.Known;
    var s1 := s.(nested := false);
    SizesBookkeeping(s, s1);
    CommitsAreOk(s);
    if s.size.Known() {
      NewestSize(s);
      if s.hasBuffer {
        SizesBookkeeping(s1, s1.(dirty := true));
        SizesRender(s1.(dirty := true));
      } else if s.hasNewer {
        CommitsMore(s.received, s.acks, s.commits, s.newest);
        SizesFallen(SendAck(s1, s.newest).(hasNewer := false));
      } else {
        SizesFallen(s1);
      }
    }
  }

  lemma NewPluginSizes(s: Lock)
    ensures PluginSizes(NewPlugin(s.clientSerial), s.received, Due(s.hasPending, s.pendingSerial, s.acks),
                        Settled(s.size, s.hasNewer))
    ensures DestMirrored(s.upstream, NewPlugin(s.clientSerial).committed)
  {
    hide SizeAt;
  }

  lemma SizesLayer(s: Lock)
    requires SizesOk(s)
    ensures SizesOk(GetLayer(s))
  {
    hide CommitsOk, ShownOk, ShownSize, PluginSizes, DestMirrored, NewPlugin, Bump;
    SizesWithout(s, s.clientSerial, true);
    NewPluginSizes(s);
  }

  lemma SizesClientStep(s: Lock, e: Event)
    requires Traced(s) && SizesOk(s) && ByClient(e) && !Spoils(s, e) && s.nested && !s.halted
    ensures SizesOk(Step(s, e))
  {
    hide Traced, SizesOk, HandleCommit, HandleAck, GetLayer, Spoils, Bump;
    match e
    case PluginCommit(a) => if !s.erred { SizesHandleCommit(s, a); }
    case PluginAck(serial) => SizesAck(s, serial);
    case GetLayerSurface => SizesLayer(s);
    case SurfaceDestroyed => SizesWithout(s, s.clientSerial, s.erred);
    case ReplaceClient => SizesWithout(s, FIRST_CLIENT_SERIAL, false);
    case OtherOutputSerial => SizesBookkeeping(s, s.(clientSerial := Bump(s.clientSerial)));
  }

  lemma SizesOwnStep(s: Lock, e: Event)
    requires Traced(s) && SizesOk(s) && Legal(s, e) && !Spoils(s, e) && !ByClient(e) && !s.halted
    ensures SizesOk(Step(s, e))
  {
    hide Traced, SizesOk, HandleConfigure, SetupClientless, Render, Spoils;
    match e
    case Configure(serial, size) => SizesConfigure(s, serial, size);
    case GoClientless => if s.nested { SizesClientless(s); } else { NotNested(s); }
    case Damage => SizesBookkeeping(s, s.(dirty := true)); SizesRender(s.(dirty := true));
    case FrameDone => SizesBookkeeping(s, s.(frame := false)); SizesRender(s.(frame := false));
  }

  /** Every other event, also one that loses track of the first serial, keeps each table entry and each
      commit at the size of its configure. */
  lemma SizesStep(s: Lock, e: Event)
    requires Traced(s) && SizesOk(s) && Legal(s, e) && !Spoils(s, e)
    ensures SizesOk(Step(s, e))
  {
    if s.halted {
      assert Step(s, e) == s;
    } else {
      hide Traced, SizesOk, Step, Legal, Spoils, ByClient;
      if !ByClient(e) {
        SizesOwnStep(s, e);
      } else if s.nested {
        SizesClientStep(s, e);
      } else {
        ClientIgnored(s, e);
      }
    }
  }
}
