/** What every legal event keeps, the ones that lose track of the first serial included: which configure is
    the newest, and the order of the serial table. */
module LockOrder {
  import opened Options
  import opened SurfaceSizes
  import opened LockProtocol
  import opened LockSafety

  predicate NewestOk(received: Sizes, newest: nat, size: Size) {
    && (forall k :: k in received ==> k <= newest)
    && (if newest in received then received[newest] == size else received == map[] && size == NO_SIZE && newest == 0)
  }

  predicate Reached(table: seq<SerialPair>, newest: nat) {
    forall i :: 0 <= i < |table| ==> table[i].localOnly || table[i].upstream <= newest
  }

  predicate Behind(table: seq<SerialPair>, pending: nat) {
    forall i :: 0 <= i < |table| ==> table[i].localOnly || pending < table[i].upstream
  }

  predicate HeadLocal(table: seq<SerialPair>) {
    table != [] && table[0].localOnly
  }

  /** Only the head of the table can be local, and a held-back ack of the same client, or one from before a
      local answer, is older than everything in it. */
  predicate ShapeOk(p: Plugin, newest: nat, hasPending: bool, pending: nat) {
    && (!p.configured ==> p.table == [] && p.lastAcked == NO_SIZE)
    && Ordered(p.table) && Reached(p.table, newest)
    && (hasPending && (p.lastAcked.Known() || HeadLocal(p.table)) ==> Behind(p.table, pending))
  }

  predicate Traced(s: Lock) {
    && NewestOk(s.received, s.newest, s.size)
    && (s.nested && !s.halted ==>
          && s.first <= s.newest
          && (s.hasPending ==> s.pendingSerial <= s.newest)
          && (s.plugin.Some? ==> ShapeOk(s.plugin.value, s.newest, s.hasPending, s.pendingSerial)))
  }

  /** Fields that no clause mentions. */
  lemma TracedAside(s: Lock, t: Lock)
    requires Traced(s)
    requires t == s.(dirty := t.dirty, frame := t.frame, upstream := t.upstream, buffer := t.buffer,
                     hasBuffer := t.hasBuffer, commits := t.commits, clientSerial := t.clientSerial, acks := t.acks,
                     hasNewer := t.hasNewer, usedFirst := t.usedFirst, nested := s.nested && t.nested,
                     halted := s.halted || t.halted)
    ensures Traced(t)
  {
    hide NewestOk, ShapeOk;
  }

  lemma TracedWithout(s: Lock, clientSerial: nat, erred: bool)
    requires Traced(s)
    ensures Traced(s.(plugin := None, clientSerial := clientSerial, erred := erred))
  {
    hide NewestOk, ShapeOk;
  }

  lemma TracedCommitUpstream(s: Lock)
    requires Traced(s)
    ensures Traced(CommitUpstream(s))
  {
    hide Traced, Shown;
    TracedAside(s, CommitUpstream(s));
  }

  lemma TracedRender(s: Lock)
    requires Traced(s)
    ensures Traced(Render(s))
  {
    hide Traced, CommitUpstream, Size.Known;
    var s1 := s.(dirty := false, frame := true);
    TracedAside(s, s1);
    TracedCommitUpstream(s1);
  }

  lemma TracedFallback(s: Lock)
    requires Traced(s)
    ensures Traced(RenderFallback(s))
  {
    hide Traced, CommitUpstream, FallbackState, Size.Known;
    var s1 := s.(upstream := FallbackState(s.upstream), buffer := s.size, hasBuffer := true);
    TracedAside(s, s.(halted := true));
    TracedAside(s, s1);
    TracedCommitUpstream(s1);
  }

  lemma TracedDirty(s: Lock)
    requires Traced(s)
    ensures Traced(Render(s.(dirty := true)))
  {
    hide Traced, Render;
    TracedAside(s, s.(dirty := true));
    TracedRender(s.(dirty := true));
  }

  lemma NewestReceive(received: Sizes, newest: nat, size: Size, serial: nat, size': Size)
    requires NewestOk(received, newest, size) && (newest !in received || newest < serial)
    ensures NewestOk(received[serial := size'], serial, size') && newest <= serial
    ensures size.Known() ==> newest < serial
  {
  }

  lemma ShapeLater(p: Plugin, newest: nat, serial: nat, hasPending: bool, pending: nat)
    requires ShapeOk(p, newest, hasPending, pending) && newest <= serial
    ensures ShapeOk(p, serial, hasPending, pending)
  {
    hide Ordered, Behind, Size.Known;
  }

  lemma TracedReceive(s: Lock, serial: nat, size: Size)
    requires Traced(s) && Legal(s, Configure(serial, size))
    ensures Traced(Receive(s, serial, size)) && s.newest <= serial
    ensures s.size.Known() ==> s.newest < serial
  {
    hide NewestOk, ShapeOk, Size.Known;
    NewestReceive(s.received, s.newest, s.size, serial, size);
    if s.nested && !s.halted && s.plugin.Some? {
      ShapeLater(s.plugin.value, s.newest, serial, s.hasPending, s.pendingSerial);
    }
  }

  /** The newest configure joins the table. */
  lemma ShapeAppend(p: Plugin, newest: nat, hasPending: bool, pending: nat, e: SerialPair)
    requires ShapeOk(p, newest, hasPending, pending) && p.configured && (hasPending ==> pending <= newest)
    requires !e.localOnly && newest < e.upstream
    ensures ShapeOk(p.(table := p.table + [e]), e.upstream, hasPending, pending)
  {
    hide Size.Known;
    OrderedAppend(p.table, e);
  }

  lemma TracedFirst(s: Lock)
    requires Traced(s)
    ensures Traced(s.(first := s.newest, usedFirst := false))
  {
    hide NewestOk, ShapeOk;
  }

  lemma TracedAppend(s: Lock, t: Lock)
    requires Traced(s) && s.nested && !s.halted && HasConfiguredPlugin(s) && s.newest < t.newest
    requires Traced(t) && t.nested && t.plugin == s.plugin && t.hasPending == s.hasPending && t.pendingSerial == s.pendingSerial
    ensures Traced(AddPair(t, t.newest, false))
  {
    hide NewestOk, ShapeOk, Size.Known, Bump;
    ShapeAppend(s.plugin.value, s.newest, s.hasPending, s.pendingSerial, SerialPair(t.clientSerial, t.newest, t.size, false));
  }

  lemma ReceivedFields(s: Lock, serial: nat, size: Size)
    ensures var t := Receive(s, serial, size).(hasNewer := true);
            && t.nested == s.nested && t.plugin == s.plugin && t.hasPending == s.hasPending
            && t.pendingSerial == s.pendingSerial && t.newest == serial
  {
  }

  lemma TracedForward(s: Lock, serial: nat, size: Size)
    requires Traced(s) && s.nested && !s.halted && Legal(s, Configure(serial, size))
    ensures Traced(ForwardConfigure(Receive(s, serial, size).(hasNewer := true), !s.size.Known(), serial))
  {
    TracedReceive(s, serial, size);
    ReceivedFields(s, serial, size);
    hide Traced, Size.Known, Receive, AddPair;
    var t := Receive(s, serial, size).(hasNewer := true);
    TracedAside(Receive(s, serial, size), t);
    TracedFirst(t);
    if HasConfiguredPlugin(s) && s.size.Known() { TracedAppend(s, t); }
  }

  lemma TracedConfigure(s: Lock, serial: nat, size: Size)
    requires Traced(s) && !s.halted && Legal(s, Configure(serial, size))
    ensures Traced(HandleConfigure(s, serial, size))
  {
    hide Traced, ForwardConfigure, RenderFallback, Render, Legal, Receive, Size.Known;
    TracedReceive(s, serial, size);
    var s0 := Receive(s, serial, size);
    if s.nested {
      TracedForward(s, serial, size);
      var s1 := ForwardConfigure(s0.(hasNewer := true), !s.size.Known(), serial);
      TracedDirty(s1);
    } else {
      var s1 := SendAck(s0, serial).(hasNewer := false);
      TracedAside(s0, s1);
      TracedFallback(s1);
      TracedDirty(RenderFallback(s1));
    }
  }

  lemma ShapeStart(p: Plugin, newest: nat, hasPending: bool, pending: nat, e: SerialPair)
    requires ShapeOk(p, newest, hasPending, pending) && !p.configured
    requires e.localOnly || e.upstream <= newest
    ensures ShapeOk(p.(table := p.table + [e], configured := true), newest, hasPending, pending)
  {
    hide Size.Known;
    assert p.table + [e] == [e];
    StartShape(e, newest, pending);
    hide Ordered, Reached, Behind, HeadLocal;
  }

  lemma StartShape(e: SerialPair, newest: nat, pending: nat)
    requires e.localOnly || e.upstream <= newest
    ensures Ordered([e]) && Reached([e], newest)
    ensures if e.localOnly then Behind([e], pending) else !HeadLocal([e])
    ensures !NO_SIZE.Known()
  {
  }

  lemma TracedAnswer(s: Lock, upstream: nat, localOnly: bool, usedFirst: bool, halted: bool)
    requires Traced(s) && s.nested && !s.halted && s.plugin.Some? && !s.plugin.value.configured
    requires localOnly || upstream <= s.newest
    ensures var s1 := AddPair(s, upstream, localOnly).(usedFirst := usedFirst);
            s1.plugin.Some? && Traced(s1.(plugin := Some(s1.plugin.value.(configured := true)), halted := halted))
  {
    hide NewestOk, ShapeOk, Bump;
    ShapeStart(s.plugin.value, s.newest, s.hasPending, s.pendingSerial,
               SerialPair(s.clientSerial, upstream, s.size, localOnly));
  }

  lemma TracedInitial(s: Lock, a: Option<View>)
    requires Traced(s) && s.nested && !s.halted && s.plugin.Some? && !s.plugin.value.configured
    ensures Traced(InitialCommit(s, a))
  {
    FirstReached(s);
    hide Traced, AddPair;
    TracedAnswer(s, s.first, false, true, a.Some?);
    TracedAnswer(s, s.newest, false, s.usedFirst, a.Some?);
    TracedAnswer(s, 0, true, s.usedFirst, a.Some?);
  }

  lemma FirstReached(s: Lock)
    requires Traced(s) && s.nested && !s.halted
    ensures s.first <= s.newest
  {
  }

  lemma TracedFlush(s: Lock)
    requires Traced(s)
    ensures Traced(FlushAck(s))
  {
    hide NewestOk, Ordered, Reached, Behind, HeadLocal, Size.Known;
  }

  lemma TracedApply(s: Lock, v: View)
    requires Traced(s) && s.plugin.Some?
    ensures Traced(ApplyUpdates(s, v))
  {
    hide NewestOk, Ordered, Reached, Behind, HeadLocal, Updated, Size.Known;
  }

  lemma TracedContent(s: Lock, v: View)
    requires Traced(s) && s.plugin.Some?
    ensures Traced(ContentCommit(s, v))
  {
    hide Traced, FlushAck, ApplyUpdates, CommitUpstream, CheckedSize;
    TracedApply(s, v);
    var s1 := ApplyUpdates(s, v);
    TracedWithout(s1, s1.clientSerial, true);
    TracedAside(s1, s1.(halted := true));
    TracedAside(s1, s1.(hasBuffer := true));
    TracedFlush(s1.(hasBuffer := true));
    TracedCommitUpstream(FlushAck(s1.(hasBuffer := true)));
  }

  lemma TracedCommit(s: Lock, a: Option<View>)
    requires Traced(s) && s.nested && !s.halted
    ensures Traced(HandleCommit(s, a))
  {
    hide Traced, InitialCommit, ContentCommit;
    if s.plugin.Some? {
      if !s.plugin.value.configured {
        TracedInitial(s, a);
      } else if a.Some? {
        TracedContent(s, a.value);
      } else {
        TracedWithout(s, s.clientSerial, true);
      }
    }
  }

  lemma ShapeUse(p: Plugin, newest: nat, hasPending: bool, pending: nat, i: nat, serial: nat)
    requires ShapeOk(p, newest, hasPending, pending) && i < |p.table|
    ensures var e, q := p.table[i], UsePair(p, i, serial);
            && NoneLocal(q.table)
            && if e.localOnly then ShapeOk(q, newest, hasPending, pending)
               else e.upstream <= newest && ShapeOk(q, newest, true, e.upstream)
  {
    hide Size.Known;
  }

  lemma TracedUse(s: Lock, i: nat, serial: nat)
    requires Traced(s) && s.nested && !s.halted && s.plugin.Some? && i < |s.plugin.value.table|
    ensures var e := s.plugin.value.table[i];
            var t := s.(plugin := Some(UsePair(s.plugin.value, i, serial)));
            if e.localOnly then Traced(t) else Traced(HoldAck(t, e.upstream))
  {
    hide NewestOk, ShapeOk, UsePair;
    ShapeUse(s.plugin.value, s.newest, s.hasPending, s.pendingSerial, i, serial);
  }

  lemma TracedAck(s: Lock, serial: nat)
    requires Traced(s) && s.nested && !s.halted
    ensures Traced(HandleAck(s, serial))
  {
    hide HandleAck, Traced, UsePair, HoldAck, Find;
    AckCases(s, serial);
    TracedWithout(s, s.clientSerial, true);
    if s.plugin.Some? {
      var i := Find(s.plugin.value.table, serial);
      if i < |s.plugin.value.table| { TracedUse(s, i, serial); }
    }
  }

  lemma TracedFallen(s: Lock)
    requires Traced(s)
    ensures Traced(Render(RenderFallback(s).(dirty := true)))
  {
    hide Traced, Render, RenderFallback;
    TracedFallback(s);
    TracedDirty(RenderFallback(s));
  }

  lemma TracedClientless(s: Lock)
    requires Traced(s)
    ensures Traced(SetupClientless(s))
  {
    hide Traced, RenderFallback, Render, Size.Known, SendAck;
    var s1 := s.(nested := false);
    TracedAside(s, s1);
    if s.hasBuffer {
      TracedDirty(s1);
    } else if s.hasNewer {
      AckedAside(s1);
      TracedFallen(SendAck(s1, s.newest).(hasNewer := false));
    } else {
      TracedFallen(s1);
    }
  }

  lemma AckedAside(s: Lock)
    requires Traced(s)
    ensures Traced(SendAck(s, s.newest).(hasNewer := false))
  {
    hide Traced;
    TracedAside(s, SendAck(s, s.newest).(hasNewer := false));
  }

  lemma TracedLayer(s: Lock)
    requires Traced(s)
    ensures Traced(GetLayer(s))
  {
    hide NewestOk, Bump;
    TracedWithout(s, s.clientSerial, true);
  }

  lemma TracedClientStep(s: Lock, e: Event)
    requires Traced(s) && ByClient(e) && s.nested && !s.halted
    ensures Traced(Step(s, e))
  {
    hide Traced, HandleCommit, HandleAck, GetLayer, Bump;
    match e
    case PluginCommit(a) => TracedCommit(s, a);
    case PluginAck(serial) => TracedAck(s, serial);
    case GetLayerSurface => TracedLayer(s);
    case SurfaceDestroyed => TracedWithout(s, s.clientSerial, s.erred);
    case ReplaceClient => TracedWithout(s, FIRST_CLIENT_SERIAL, false);
    case OtherOutputSerial => TracedAside(s, s.(clientSerial := Bump(s.clientSerial)));
  }

  lemma TracedOwnStep(s: Lock, e: Event)
    requires Traced(s) && Legal(s, e) && !ByClient(e) && !s.halted
    ensures Traced(Step(s, e))
  {
    hide Traced, HandleConfigure, SetupClientless, Render;
    match e
    case Configure(serial, size) => TracedConfigure(s, serial, size);
    case GoClientless => TracedClientless(s);
    case Damage => TracedDirty(s);
    case FrameDone => TracedAside(s, s.(frame := false)); TracedRender(s.(frame := false));
  }

  lemma TracedStep(s: Lock, e: Event)
    requires Traced(s) && Legal(s, e)
    ensures Traced(Step(s, e))
  {
    if s.halted {
      assert Step(s, e) == s;
    } else {
      hide Traced, Step, Legal, ByClient;
      if !ByClient(e) {
        TracedOwnStep(s, e);
      } else if s.nested {
        TracedClientStep(s, e);
      } else {
        ClientIgnored(s, e);
      }
    }
  }

  lemma NoTable(s: Lock)
    requires Traced(s) && s.nested && !s.halted && s.plugin.Some? && !s.plugin.value.configured
    ensures s.plugin.value.table == []
  {
  }

  /** Legal events only. */
  predicate LegalRun(s: Lock, es: seq<Event>)
    decreases |es|
  {
    es == [] || (Legal(s, es[0]) && LegalRun(Step(s, es[0]), es[1..]))
  }
}
