/** What holds of the configure/ack translator over every run: the upstream acks, the sizes of the
    upstream commits, and exactly which events put later acks at risk. */
module LockSafety {
  import opened Options
  import opened SurfaceSizes
  import opened LockProtocol

  // ----- the invariant behind the acks

  type Sizes = map<nat, Size>

  /** The upstream side: what was received, what was acked, and what is known to be newest. */
  predicate TraceOk(received: Sizes, newest: nat, size: Size, hasNewer: bool, acks: seq<nat>) {
    && (forall k :: k in received ==> k <= newest)
    && (if newest in received then received[newest] == size else received == map[] && size == NO_SIZE)
    && Increasing(acks)
    && (forall i :: 0 <= i < |acks| ==> acks[i] in received)
    && (hasNewer <==> newest in received && LastAck(acks) < newest)
  }

  predicate Unacked(received: Sizes, acks: seq<nat>, serial: nat) {
    serial in received && LastAck(acks) < serial
  }

  predicate Ordered(table: seq<SerialPair>) {
    forall i, j :: 0 <= i < j < |table| ==>
      !table[j].localOnly && (table[i].localOnly || table[i].upstream < table[j].upstream)
  }

  predicate AllUnacked(received: Sizes, acks: seq<nat>, table: seq<SerialPair>) {
    forall i :: 0 <= i < |table| ==> table[i].localOnly || Unacked(received, acks, table[i].upstream)
  }

  predicate NoneLocal(table: seq<SerialPair>) {
    forall i :: 0 <= i < |table| ==> !table[i].localOnly
  }

  predicate AllAfter(table: seq<SerialPair>, serial: nat) {
    forall i :: 0 <= i < |table| ==> serial < table[i].upstream
  }

  /** The serial table holds only unacked configures, in order; a purely local entry can only be its
      first, and never while an ack is held back. */
  predicate TableOk(p: Plugin, received: Sizes, acks: seq<nat>, hasPending: bool, pending: nat) {
    && (!p.configured ==> p.table == [] && p.lastAcked == NO_SIZE)
    && AllUnacked(received, acks, p.table)
    && Ordered(p.table)
    && (hasPending ==> NoneLocal(p.table))
    && (hasPending && p.lastAcked.Known() ==> AllAfter(p.table, pending))
  }

  /** The first serial is still fit to be used: either it was, or no plugin surface could have
      overtaken it. */
  predicate FirstOk(s: Lock) {
    && (!s.size.Known() ==> !HasConfiguredPlugin(s))
    && (s.size.Known() && !s.usedFirst ==> !HasConfiguredPlugin(s) && Unacked(s.received, s.acks, s.first))
  }

  predicate Inv(s: Lock) {
    && TraceOk(s.received, s.newest, s.size, s.hasNewer, s.acks)
    && (s.erred ==> s.plugin.None?)
    && (s.nested && !s.halted ==>
          && FirstOk(s)
          && (s.hasPending ==> Unacked(s.received, s.acks, s.pendingSerial))
          && (s.plugin.Some? ==>
                TableOk(s.plugin.value, s.received, s.acks, s.hasPending, s.pendingSerial)))
  }

  lemma InvRender(s: Lock)
    requires Inv(s)
    ensures Inv(Render(s))
  {
    hide TraceOk, TableOk, Unacked;
  }

  /** Fields that no clause mentions. */
  lemma InvBookkeeping(s: Lock, t: Lock)
    requires Inv(s)
    requires t == s.(dirty := t.dirty, frame := t.frame, upstream := t.upstream, buffer := t.buffer,
                     hasBuffer := t.hasBuffer, commits := t.commits, clientSerial := t.clientSerial,
                     halted := s.halted || t.halted)
    ensures Inv(t)
  {
    hide TraceOk, TableOk, Unacked;
  }

  /** The client of a surface ends, by its own choice or by an error. */
  lemma InvWithout(s: Lock, clientSerial: nat, erred: bool)
    requires Inv(s)
    ensures Inv(s.(plugin := None, clientSerial := clientSerial, erred := erred))
  {
    hide TraceOk, TableOk, Unacked, Size.Known;
  }

  lemma LastAckBound(received: Sizes, newest: nat, size: Size, hasNewer: bool, acks: seq<nat>)
    requires TraceOk(received, newest, size, hasNewer, acks) && newest in received
    ensures LastAck(acks) <= newest
  {
  }

  /** Receiving a configure, before any of it is passed on. */
  lemma TraceReceive(received: Sizes, newest: nat, size: Size, hasNewer: bool, acks: seq<nat>, serial: nat, size': Size)
    requires TraceOk(received, newest, size, hasNewer, acks)
    requires newest !in received || newest < serial
    ensures TraceOk(received[serial := size'], serial, size', true, acks)
    ensures Unacked(received[serial := size'], acks, serial)
    ensures forall k: nat :: Unacked(received, acks, k) ==> Unacked(received[serial := size'], acks, k) && k < serial
  {
    hide Increasing;
    if newest in received { LastAckBound(received, newest, size, hasNewer, acks); }
  }

  lemma TraceAck(received: Sizes, newest: nat, size: Size, acks: seq<nat>, serial: nat)
    requires TraceOk(received, newest, size, true, acks) && Unacked(received, acks, serial)
    ensures TraceOk(received, newest, size, serial != newest, acks + [serial])
  {
  }

  lemma TableReceive(p: Plugin, received: Sizes, received': Sizes, acks: seq<nat>, hasPending: bool, pending: nat)
    requires TableOk(p, received, acks, hasPending, pending)
    requires forall k: nat :: Unacked(received, acks, k) ==> Unacked(received', acks, k)
    ensures TableOk(p, received', acks, hasPending, pending)
  {
    hide Ordered, Unacked, NoneLocal, AllAfter;
  }

  lemma OrderedAppend(table: seq<SerialPair>, e: SerialPair)
    requires Ordered(table) && !e.localOnly
    requires forall i :: 0 <= i < |table| ==> table[i].localOnly || table[i].upstream < e.upstream
    ensures Ordered(table + [e])
  {
    var t := table + [e];
    forall i, j | 0 <= i < j < |t|
      ensures !t[j].localOnly && (t[i].localOnly || t[i].upstream < t[j].upstream)
    {
      assert t[i] == table[i];
      if j < |table| { assert t[j] == table[j]; }
    }
  }

  lemma TableAppend(p: Plugin, received: Sizes, acks: seq<nat>, hasPending: bool, pending: nat, e: SerialPair)
    requires TableOk(p, received, acks, hasPending, pending) && p.configured
    requires !e.localOnly && Unacked(received, acks, e.upstream)
    requires forall i :: 0 <= i < |p.table| ==> p.table[i].localOnly || p.table[i].upstream < e.upstream
    requires hasPending ==> pending < e.upstream
    ensures TableOk(p.(table := p.table + [e]), received, acks, hasPending, pending)
  {
    hide Unacked;
    OrderedAppend(p.table, e);
  }

  /** A configure recorded but not passed on to any plugin surface. */
  lemma InvReceive(s: Lock, serial: nat, size: Size)
    requires Inv(s) && s.nested && !s.halted
    requires Legal(s, Configure(serial, size)) && !LosesFirst(s, Configure(serial, size))
    requires s.size.Known() || !size.Known()
    ensures Inv(Receive(s, serial, size).(hasNewer := true))
  {
    hide TraceOk, TableOk, Unacked, Size.Known;
    TraceReceive(s.received, s.newest, s.size, s.hasNewer, s.acks, serial, size);
    if s.plugin.Some? {
      TableReceive(s.plugin.value, s.received, s.received[serial := size], s.acks, s.hasPending, s.pendingSerial);
    }
  }

  lemma InvFirst(s: Lock, serial: nat, size: Size)
    requires Inv(s) && s.nested && !s.halted && !s.size.Known() && size.Known()
    requires Legal(s, Configure(serial, size))
    ensures Inv(Receive(s, serial, size).(hasNewer := true, first := serial, usedFirst := false))
  {
    hide TraceOk, TableOk, Unacked, Size.Known;
    TraceReceive(s.received, s.newest, s.size, s.hasNewer, s.acks, serial, size);
    if s.plugin.Some? {
      TableReceive(s.plugin.value, s.received, s.received[serial := size], s.acks, s.hasPending, s.pendingSerial);
    }
  }

  lemma InvAddPair(s: Lock, serial: nat)
    requires Inv(s) && s.nested && !s.halted && HasConfiguredPlugin(s) && s.size.Known()
    requires Unacked(s.received, s.acks, serial)
    requires forall i :: 0 <= i < |s.plugin.value.table| ==>
               s.plugin.value.table[i].localOnly || s.plugin.value.table[i].upstream < serial
    requires s.hasPending ==> s.pendingSerial < serial
    ensures Inv(AddPair(s, serial, false))
  {
    hide TraceOk, TableOk, Unacked, Size.Known;
    TableAppend(s.plugin.value, s.received, s.acks, s.hasPending, s.pendingSerial,
                SerialPair(s.clientSerial, serial, s.size, false));
  }

  lemma InvForward(s: Lock, serial: nat, size: Size)
    requires Inv(s) && s.nested && !s.halted
    requires Legal(s, Configure(serial, size)) && !LosesFirst(s, Configure(serial, size))
    ensures Inv(ForwardConfigure(Receive(s, serial, size).(hasNewer := true), !s.size.Known(), serial))
  {
    hide Inv, LosesFirst, Unacked, AddPair;
    if !s.size.Known() && size.Known() {
      InvFirst(s, serial, size);
    } else {
      InvReceive(s, serial, size);
      if size.Known() && HasConfiguredPlugin(s) {
        WaitingBefore(s, serial, size);
        InvAddPair(Receive(s, serial, size).(hasNewer := true), serial);
      }
    }
  }

  /** Everything still waiting for an ack is older than the configure that just arrived. */
  lemma WaitingBefore(s: Lock, serial: nat, size: Size)
    requires Inv(s) && s.nested && !s.halted && s.plugin.Some?
    requires s.newest !in s.received || s.newest < serial
    ensures Unacked(s.received[serial := size], s.acks, serial)
    ensures s.hasPending ==> s.pendingSerial < serial
    ensures forall i :: 0 <= i < |s.plugin.value.table| ==>
              s.plugin.value.table[i].localOnly || s.plugin.value.table[i].upstream < serial
  {
    hide Unacked, TraceOk;
    TraceReceive(s.received, s.newest, s.size, s.hasNewer, s.acks, serial, size);
  }

  lemma InvClientlessConfigure(s: Lock, serial: nat, size: Size)
    requires Inv(s) && !s.nested && Legal(s, Configure(serial, size))
    ensures Inv(SendAck(Receive(s, serial, size), serial)
                .(hasNewer := false))
  {
    hide TraceOk, TableOk, Unacked, FirstOk, Size.Known;
    TraceReceive(s.received, s.newest, s.size, s.hasNewer, s.acks, serial, size);
    TraceAck(s.received[serial := size], serial, size, s.acks, serial);
  }

  lemma InvCommitUpstream(s: Lock)
    requires Inv(s)
    ensures Inv(CommitUpstream(s))
  {
    hide Inv, Shown;
    InvBookkeeping(s, CommitUpstream(s));
  }

  lemma InvFallback(s: Lock)
    requires Inv(s) && !s.nested
    ensures Inv(RenderFallback(s).(dirty := true))
  {
    hide Inv, CommitUpstream, FallbackState, Size.Known;
    var s1 := s.(upstream := FallbackState(s.upstream), buffer := s.size, hasBuffer := true);
    InvBookkeeping(s, s.(halted := true, dirty := true));
    InvBookkeeping(s, s1);
    InvCommitUpstream(s1);
    InvBookkeeping(CommitUpstream(s1), CommitUpstream(s1).(dirty := true));
  }

  lemma InvConfigure(s: Lock, serial: nat, size: Size)
    requires Inv(s) && !s.halted
    requires Legal(s, Configure(serial, size)) && !LosesFirst(s, Configure(serial, size))
    ensures Inv(HandleConfigure(s, serial, size))
  {
    hide Inv, ForwardConfigure, RenderFallback, Render, LosesFirst, Size.Known;
    var s0 := Receive(s, serial, size);
    if s.nested {
      InvForward(s, serial, size);
      var s1 := ForwardConfigure(s0.(hasNewer := true), !s.size.Known(), serial);
      InvBookkeeping(s1, s1.(dirty := true));
      InvRender(s1.(dirty := true));
    } else {
      InvClientlessConfigure(s, serial, size);
      var s1 := SendAck(s0, serial).(hasNewer := false);
      InvFallback(s1);
      InvRender(RenderFallback(s1).(dirty := true));
    }
  }

  lemma InvInitialCommit(s: Lock)
    requires Inv(s) && s.nested && !s.halted && s.plugin.Some? && !s.plugin.value.configured && s.size.Known()
    ensures Inv(InitialCommit(s, None))
  {
    hide TraceOk, Unacked, TableOk;
    var p := s.plugin.value;
    if !s.usedFirst {
      TableStart(p, s, SerialPair(s.clientSerial, s.first, s.size, false));
    } else if s.hasNewer {
      NewestUnacked(s);
      TableStart(p, s, SerialPair(s.clientSerial, s.newest, s.size, false));
    } else {
      if s.hasPending { HasNewer(s); }
      TableStart(p, s, SerialPair(s.clientSerial, 0, s.size, true));
    }
  }

  lemma TableStart(p: Plugin, s: Lock, e: SerialPair)
    requires TableOk(p, s.received, s.acks, s.hasPending, s.pendingSerial) && !p.configured
    requires if e.localOnly then !s.hasPending else Unacked(s.received, s.acks, e.upstream)
    ensures TableOk(p.(table := p.table + [e], configured := true), s.received, s.acks, s.hasPending, s.pendingSerial)
  {
    hide Unacked;
    assert p.table + [e] == [e];
  }

  lemma InitialCommitHalts(s: Lock, a: Option<View>)
    requires Inv(s) && s.plugin.Some? && a.Some?
    ensures Inv(InitialCommit(s, a))
  {
    hide TraceOk;
  }

  lemma TableFlush(p: Plugin, received: Sizes, acks: seq<nat>, pending: nat)
    requires TableOk(p, received, acks, true, pending) && p.lastAcked.Known()
    ensures TableOk(p, received, acks + [pending], false, pending)
  {
    hide Ordered;
  }

  lemma InvFlush(s: Lock)
    requires Inv(s) && s.nested && !s.halted
    requires HasConfiguredPlugin(s) && s.plugin.value.lastAcked.Known()
    ensures Inv(FlushAck(s))
  {
    hide TableOk, TraceOk;
    if s.hasPending {
      HasNewer(s);
      TraceAck(s.received, s.newest, s.size, s.acks, s.pendingSerial);
      TableFlush(s.plugin.value, s.received, s.acks, s.pendingSerial);
    }
  }

  /** While a plugin can still draw, a held-back ack means that the newest configure is unacked. */
  lemma HasNewer(s: Lock)
    requires Inv(s) && s.nested && !s.halted && s.hasPending
    ensures s.hasNewer
  {
  }

  lemma InvApply(s: Lock, v: View)
    requires Inv(s) && s.plugin.Some?
    ensures Inv(ApplyUpdates(s, v))
  {
    hide TraceOk, Unacked, AllUnacked, Ordered, NoneLocal, AllAfter, Updated, Size.Known;
  }

  lemma InvMatchingCommit(s: Lock)
    requires Inv(s) && s.nested && !s.halted && HasConfiguredPlugin(s) && s.plugin.value.lastAcked.Known()
    ensures Inv(CommitUpstream(FlushAck(s.(hasBuffer := true))))
  {
    hide Inv, FlushAck, Shown, Size.Known;
    var s1 := s.(hasBuffer := true);
    InvBookkeeping(s, s1);
    InvFlush(s1);
    InvBookkeeping(FlushAck(s1), CommitUpstream(FlushAck(s1)));
  }

  lemma Applied(s: Lock, v: View)
    requires s.plugin.Some?
    ensures var t := ApplyUpdates(s, v);
            && t.nested == s.nested && t.halted == s.halted && t.clientSerial == s.clientSerial
            && t.plugin.Some? && t.plugin.value.configured == s.plugin.value.configured
            && t.plugin.value.lastAcked == s.plugin.value.lastAcked
  {
    hide Updated;
  }

  lemma InvContentCommit(s: Lock, v: View)
    requires Inv(s) && s.nested && !s.halted && HasConfiguredPlugin(s)
    ensures Inv(ContentCommit(s, v))
  {
    hide Inv, FlushAck, CommitUpstream, ApplyUpdates, Size.Known;
    Applied(s, v);
    InvApply(s, v);
    var s1 := ApplyUpdates(s, v);
    InvWithout(s1, s1.clientSerial, true);
    InvBookkeeping(s1, s1.(halted := true));
    if s.plugin.value.lastAcked.Known() { InvMatchingCommit(s1); }
  }

  lemma InvCommit(s: Lock, a: Option<View>)
    requires Inv(s) && s.nested && !s.halted && !s.erred && !LosesFirst(s, PluginCommit(a))
    ensures Inv(HandleCommit(s, a))
  {
    hide Inv, InitialCommit, ContentCommit;
    if s.plugin.Some? {
      if !s.plugin.value.configured {
        if a.None? { InvInitialCommit(s); } else { InitialCommitHalts(s, a); }
      } else if a.Some? {
        InvContentCommit(s, a.value);
      } else {
        InvWithout(s, s.clientSerial, true);
      }
    }
  }

  lemma TableDrop(p: Plugin, received: Sizes, acks: seq<nat>, hasPending: bool, pending: nat, i: nat, serial: nat)
    requires TableOk(p, received, acks, hasPending, pending) && i < |p.table|
    ensures p.configured
    ensures var e := p.table[i];
            var q := UsePair(p, i, serial);
            if e.localOnly then !hasPending && TableOk(q, received, acks, hasPending, pending)
            else Unacked(received, acks, e.upstream) && TableOk(q, received, acks, true, e.upstream)
  {
    hide Unacked;
  }

  /** The outcomes of an ack. */
  lemma AckCases(s: Lock, serial: nat)
    ensures s.plugin.None? || serial == s.plugin.value.lastUsed ==> HandleAck(s, serial) == s
    ensures s.plugin.Some? && serial != s.plugin.value.lastUsed ==>
              var p := s.plugin.value;
              var i := Find(p.table, serial);
              HandleAck(s, serial) ==
              if i == |p.table| then Disconnect(s)
              else if p.table[i].localOnly then s.(plugin := Some(UsePair(p, i, serial)))
              else HoldAck(s.(plugin := Some(UsePair(p, i, serial))), p.table[i].upstream)
  {
    hide Find, UsePair, Disconnect, HoldAck;
  }

  lemma InvAck(s: Lock, serial: nat)
    requires Inv(s) && s.nested && !s.halted
    ensures Inv(HandleAck(s, serial))
  {
    hide TraceOk, TableOk, Unacked, UsePair, Find;
    if s.plugin.Some? {
      var p := s.plugin.value;
      var i := Find(p.table, serial);
      if i < |p.table| {
        TableDrop(p, s.received, s.acks, s.hasPending, s.pendingSerial, i, serial);
      } else {
        InvWithout(s, s.clientSerial, true);
      }
    }
  }

  lemma InvClientless(s: Lock)
    requires Inv(s) && s.nested && !s.halted
    ensures Inv(SetupClientless(s))
  {
    hide Inv, RenderFallback, Render;
    var s1 := s.(nested := false);
    InvShutdown(s);
    InvBookkeeping(s1, s1.(dirty := true));
    InvRender(s1.(dirty := true));
    InvFallback(s1);
    InvRender(RenderFallback(s1).(dirty := true));
    if s.hasNewer {
      var s2 := SendAck(s1, s.newest).(hasNewer := false);
      InvFallback(s2);
      InvRender(RenderFallback(s2).(dirty := true));
    }
  }

  lemma InvShutdown(s: Lock)
    requires Inv(s)
    ensures Inv(s.(nested := false))
    ensures s.hasNewer ==> Inv(SendAck(s.(nested := false), s.newest).(hasNewer := false))
  {
    hide TraceOk, TableOk, FirstOk;
    if s.hasNewer {
      NewestUnacked(s);
      TraceAck(s.received, s.newest, s.size, s.acks, s.newest);
    }
  }

  lemma NewestUnacked(s: Lock)
    requires Inv(s) && s.hasNewer
    ensures Unacked(s.received, s.acks, s.newest)
  {
  }

  lemma InvLayer(s: Lock)
    requires Inv(s) && !s.erred
    ensures Inv(GetLayer(s))
  {
    hide TraceOk, Unacked, Size.Known;
    InvWithout(s, s.clientSerial, true);
  }

  /** What the client does, or has done to it. */
  predicate ByClient(e: Event) {
    e.PluginCommit? || e.PluginAck? || e.GetLayerSurface? || e.SurfaceDestroyed? || e.ReplaceClient? || e.OtherOutputSerial?
  }

  lemma InvClientStep(s: Lock, e: Event)
    requires Inv(s) && ByClient(e) && !LosesFirst(s, e) && s.nested && !s.halted
    ensures Inv(Step(s, e))
  {
    hide Inv, HandleCommit, HandleAck, GetLayer, LosesFirst, Bump;
    match e
    case PluginCommit(a) => if !s.erred { InvCommit(s, a); }
    case PluginAck(serial) => InvAck(s, serial);
    case GetLayerSurface => if !s.erred { InvLayer(s); }
    case SurfaceDestroyed => InvWithout(s, s.clientSerial, s.erred);
    case ReplaceClient => InvWithout(s, FIRST_CLIENT_SERIAL, false);
    case OtherOutputSerial => InvBookkeeping(s, s.(clientSerial := Bump(s.clientSerial)));
  }

  lemma ClientIgnored(s: Lock, e: Event)
    requires ByClient(e) && (s.halted || !s.nested)
    ensures Step(s, e) == s
  {
    hide HandleCommit, HandleAck, GetLayer;
  }

  lemma InvOwnStep(s: Lock, e: Event)
    requires Inv(s) && Legal(s, e) && !LosesFirst(s, e) && !ByClient(e) && !s.halted
    ensures Inv(Step(s, e))
  {
    hide Inv, HandleConfigure, SetupClientless, Render, LosesFirst;
    match e
    case Configure(serial, size) => InvConfigure(s, serial, size);
    case GoClientless => if s.nested { InvClientless(s); } else { NotNested(s); }
    case Damage => InvBookkeeping(s, s.(dirty := true)); InvRender(s.(dirty := true));
    case FrameDone => InvBookkeeping(s, s.(frame := false)); InvRender(s.(frame := false));
  }

  /** Every event keeps the invariant, unless it loses track of the first serial. */
  lemma InvStep(s: Lock, e: Event)
    requires Inv(s) && Legal(s, e) && !LosesFirst(s, e)
    ensures Inv(Step(s, e))
  {
    if s.halted {
      assert Step(s, e) == s;
    } else {
      hide Inv, Step, Legal, LosesFirst, ByClient;
      if !ByClient(e) {
        InvOwnStep(s, e);
      } else if s.nested {
        InvClientStep(s, e);
      } else {
        ClientIgnored(s, e);
      }
    }
  }

  lemma NotNested(s: Lock)
    requires !s.nested
    ensures SetupClientless(s) == s
  {
  }
}
