/** Plugin serials stay fresh in every run that does not go once round the 32 bits, so the exact conditions
    on events hold after every such run. */
module LockSerials {
  import opened Options
  import opened SurfaceSizes
  import opened LockProtocol
  import opened LockSafety
  import opened LockOrder
  import opened LockSizes
  import opened LockTheorems
  import opened LockSizeRuns

  predicate AllBelow(table: seq<SerialPair>, serial: nat) {
    forall i :: 0 <= i < |table| ==> table[i].plugin < serial
  }

  /** Every serial the client was given is below the next one. */
  predicate Below(p: Option<Plugin>, serial: nat) {
    p.Some? ==> p.value.lastUsed < serial && AllBelow(p.value.table, serial)
  }

  /** At most one serial is used up, or a new client starts over. */
  predicate UsesOne(before: nat, after: nat) {
    before <= after <= before + 1 || after == FIRST_CLIENT_SERIAL
  }

  predicate Keeps(s: Lock, t: Lock) {
    Below(t.plugin, t.clientSerial) && UsesOne(s.clientSerial, t.clientSerial)
  }

  lemma BelowMore(table: seq<SerialPair>, e: SerialPair, serial: nat)
    requires AllBelow(table, serial) && e.plugin == serial
    ensures AllBelow(table + [e], serial + 1)
  {
  }

  lemma BumpAdds(serial: nat)
    requires serial + 1 < SERIAL_LIMIT
    ensures Bump(serial) == serial + 1
  {
  }

  lemma PairKeeps(s: Lock, upstream: nat, localOnly: bool)
    requires s.plugin.Some? && Below(s.plugin, s.clientSerial) && s.clientSerial + 1 < SERIAL_LIMIT
    ensures Keeps(s, AddPair(s, upstream, localOnly))
  {
    hide AllBelow, Bump;
    BumpAdds(s.clientSerial);
    BelowMore(s.plugin.value.table, SerialPair(s.clientSerial, upstream, s.size, localOnly), s.clientSerial);
  }

  /** The plugin record and the next serial are left alone. */
  predicate Aside(s: Lock, t: Lock) {
    t.plugin == s.plugin && t.clientSerial == s.clientSerial
  }

  lemma CommitAside(s: Lock)
    ensures Aside(s, CommitUpstream(s))
  {
    hide Shown;
  }

  lemma RenderAside(s: Lock)
    ensures Aside(s, Render(s))
  {
    hide CommitUpstream, Size.Known;
    CommitAside(s.(dirty := false, frame := true));
  }

  lemma FallbackAside(s: Lock)
    ensures Aside(s, RenderFallback(s))
  {
    hide CommitUpstream, Size.Known, FallbackState;
    CommitAside(s.(upstream := FallbackState(s.upstream), buffer := s.size, hasBuffer := true));
  }

  lemma FlushAside(s: Lock)
    ensures Aside(s, FlushAck(s))
  {
  }

  lemma AsideKeeps(s: Lock, t: Lock, u: Lock)
    requires Keeps(s, t) && Aside(t, u)
    ensures Keeps(s, u)
  {
    hide Below, UsesOne;
  }

  lemma SameKeeps(s: Lock)
    requires Below(s.plugin, s.clientSerial)
    ensures Keeps(s, s)
  {
    hide Below;
  }

  lemma ForwardKeeps(s: Lock, first: bool, serial: nat)
    requires Below(s.plugin, s.clientSerial) && s.clientSerial + 1 < SERIAL_LIMIT
    ensures Keeps(s, ForwardConfigure(s, first, serial))
  {
    hide AddPair, Below, UsesOne, Size.Known, Keeps;
    SameKeeps(s);
    if s.plugin.Some? { PairKeeps(s, serial, false); }
    if first && s.size.Known() { AsideKeeps(s, s, s.(first := serial, usedFirst := false)); }
  }

  lemma ConfigureKeeps(s: Lock, serial: nat, size: Size)
    requires Below(s.plugin, s.clientSerial) && s.clientSerial + 1 < SERIAL_LIMIT
    ensures Keeps(s, HandleConfigure(s, serial, size))
  {
    hide Render, RenderFallback, Below, ForwardConfigure, UsesOne;
    var s1 := Receive(s, serial, size);
    if s.nested {
      var s2 := ForwardConfigure(s1.(hasNewer := true), !s.size.Known(), serial);
      ForwardKeeps(s1.(hasNewer := true), !s.size.Known(), serial);
      RenderAside(s2.(dirty := true));
    } else {
      var s2 := SendAck(s1, serial).(hasNewer := false);
      FallbackAside(s2);
      RenderAside(RenderFallback(s2).(dirty := true));
      SameKeeps(s);
    }
  }

  lemma ContentKeeps(s: Lock, v: View)
    requires s.plugin.Some? && Below(s.plugin, s.clientSerial)
    ensures Keeps(s, ContentCommit(s, v))
  {
    hide AllBelow, FlushAck, Updated, CheckedSize, CommitUpstream;
    var s1 := ApplyUpdates(s, v);
    var s2 := s1.(hasBuffer := true);
    assert Keeps(s, s1) && Keeps(s, s1.(halted := true)) && Keeps(s, Disconnect(s1));
    hide Keeps, ApplyUpdates, Disconnect;
    FlushAside(s2);
    CommitAside(FlushAck(s2));
    AsideKeeps(s, s1, s2);
    AsideKeeps(s, s2, FlushAck(s2));
    AsideKeeps(s, FlushAck(s2), CommitUpstream(FlushAck(s2)));
  }

  lemma InitialKeeps(s: Lock, a: Option<View>)
    requires s.plugin.Some? && Below(s.plugin, s.clientSerial) && s.clientSerial + 1 < SERIAL_LIMIT
    ensures Keeps(s, InitialCommit(s, a))
  {
    hide AllBelow, AddPair, UsesOne;
    PairKeeps(s, s.first, false);
    PairKeeps(s, s.newest, false);
    PairKeeps(s, 0, true);
  }

  lemma CommitKeeps(s: Lock, a: Option<View>)
    requires Below(s.plugin, s.clientSerial) && s.clientSerial + 1 < SERIAL_LIMIT
    ensures Keeps(s, HandleCommit(s, a))
  {
    hide AllBelow, InitialCommit, ContentCommit, Bump;
    if s.plugin.Some? {
      InitialKeeps(s, a);
      if a.Some? { ContentKeeps(s, a.value); }
    }
  }

  lemma UseKeeps(p: Plugin, i: nat, serial: nat, next: nat)
    requires i < |p.table| && AllBelow(p.table, next) && p.table[i].plugin == serial
    ensures Below(Some(UsePair(p, i, serial)), next)
  {
    hide AllBelow;
    DropBelow(p.table, i, next);
  }

  lemma AckKeeps(s: Lock, serial: nat)
    requires Below(s.plugin, s.clientSerial)
    ensures Keeps(s, HandleAck(s, serial))
  {
    hide HandleAck, AllBelow, Find, UsePair, Keeps;
    AckCases(s, serial);
    SameKeeps(s);
    KeepsWithout(s);
    if s.plugin.Some? {
      var p, i := s.plugin.value, Find(s.plugin.value.table, serial);
      if i < |p.table| {
        UseKeeps(p, i, serial, s.clientSerial);
        KeepsPlugin(s, UsePair(p, i, serial));
        AsideKeeps(s, s.(plugin := Some(UsePair(p, i, serial))),
                   HoldAck(s.(plugin := Some(UsePair(p, i, serial))), p.table[i].upstream));
      }
    }
  }

  lemma KeepsWithout(s: Lock)
    ensures Keeps(s, Disconnect(s))
  {
  }

  lemma KeepsPlugin(s: Lock, p: Plugin)
    requires Below(Some(p), s.clientSerial)
    ensures Keeps(s, s.(plugin := Some(p)))
  {
    hide AllBelow;
  }

  lemma DropBelow(table: seq<SerialPair>, i: nat, serial: nat)
    requires i < |table| && AllBelow(table, serial)
    ensures table[i].plugin < serial && AllBelow(table[i + 1..], serial)
  {
  }

  lemma ClientlessAside(s: Lock)
    ensures Aside(s, SetupClientless(s))
  {
    hide Render, RenderFallback, Size.Known;
    var s1 := s.(nested := false);
    RenderAside(s1.(dirty := true));
    FallbackAside(s1);
    RenderAside(RenderFallback(s1).(dirty := true));
    var s2 := SendAck(s1, s.newest).(hasNewer := false);
    FallbackAside(s2);
    RenderAside(RenderFallback(s2).(dirty := true));
  }

  lemma LayerFields(s: Lock)
    ensures var t := GetLayer(s);
            t.plugin == (if s.plugin.Some? then None else Some(NewPlugin(s.clientSerial)))
            && t.clientSerial == if s.plugin.Some? then s.clientSerial else Bump(s.clientSerial)
  {
    hide Bump, NewPlugin;
  }

  lemma LayerKeeps(s: Lock)
    requires Below(s.plugin, s.clientSerial) && s.clientSerial + 1 < SERIAL_LIMIT
    ensures Keeps(s, GetLayer(s))
  {
    hide Bump, GetLayer;
    LayerFields(s);
    BumpAdds(s.clientSerial);
  }

  lemma BelowLater(p: Option<Plugin>, serial: nat)
    requires Below(p, serial)
    ensures Below(p, serial + 1)
  {
  }

  lemma WithoutKeeps(s: Lock)
    ensures Keeps(s, s.(plugin := None))
    ensures Keeps(s, s.(plugin := None, clientSerial := FIRST_CLIENT_SERIAL, erred := false))
  {
    hide AllBelow;
  }

  lemma NextKeeps(s: Lock)
    requires Below(s.plugin, s.clientSerial) && s.clientSerial + 1 < SERIAL_LIMIT
    ensures Keeps(s, s.(clientSerial := Bump(s.clientSerial)))
  {
    hide Below, Bump;
    BumpAdds(s.clientSerial);
    BelowLater(s.plugin, s.clientSerial);
  }

  lemma ClientKeeps(s: Lock, e: Event)
    requires Below(s.plugin, s.clientSerial) && s.clientSerial + 1 < SERIAL_LIMIT && ByClient(e) && s.nested && !s.halted
    ensures Keeps(s, Step(s, e))
  {
    hide HandleCommit, HandleAck, GetLayer, Keeps, Below, Bump;
    SameKeeps(s);
    WithoutKeeps(s);
    NextKeeps(s);
    match e
    case PluginCommit(a) => CommitKeeps(s, a);
    case PluginAck(serial) => AckKeeps(s, serial);
    case GetLayerSurface => LayerKeeps(s);
    case _ =>
  }

  lemma OwnKeeps(s: Lock, e: Event)
    requires Below(s.plugin, s.clientSerial) && s.clientSerial + 1 < SERIAL_LIMIT && !ByClient(e) && !s.halted
    ensures Keeps(s, Step(s, e))
  {
    hide HandleConfigure, SetupClientless, Render, Below, Keeps, Aside;
    SameKeeps(s);
    match e
    case Configure(serial, size) => ConfigureKeeps(s, serial, size);
    case GoClientless =>
      ClientlessAside(s);
      AsideKeeps(s, s, SetupClientless(s));
    case Damage =>
      DirtyAside(s, true, s.frame);
      AsideKeeps(s, s, Render(s.(dirty := true)));
    case FrameDone =>
      DirtyAside(s, s.dirty, false);
      AsideKeeps(s, s, Render(s.(frame := false)));
  }

  lemma DirtyAside(s: Lock, dirty: bool, frame: bool)
    ensures Aside(s, Render(s.(dirty := dirty, frame := frame)))
  {
    hide Render;
    RenderAside(s.(dirty := dirty, frame := frame));
  }

  lemma StepKeeps(s: Lock, e: Event)
    requires Below(s.plugin, s.clientSerial) && s.clientSerial + 1 < SERIAL_LIMIT
    ensures Keeps(s, Step(s, e))
  {
    hide Below, Keeps, ByClient;
    SameKeeps(s);
    if s.halted {
      assert Step(s, e) == s;
    } else {
      hide Step;
      if !ByClient(e) {
        OwnKeeps(s, e);
      } else if s.nested {
        ClientKeeps(s, e);
      } else {
        ClientIgnored(s, e);
      }
    }
  }

  lemma {:induction false} RunKeeps(s: Lock, es: seq<Event>)
    requires Below(s.plugin, s.clientSerial) && FIRST_CLIENT_SERIAL <= s.clientSerial
    requires s.clientSerial + |es| < SERIAL_LIMIT
    ensures var t := Run(s, es);
            Below(t.plugin, t.clientSerial) && t.clientSerial <= s.clientSerial + |es|
    decreases |es|
  {
    hide Step, Below;
    if es != [] {
      StepKeeps(s, es[0]);
      RunKeeps(Step(s, es[0]), es[1..]);
    }
  }

  lemma BelowFresh(s: Lock)
    requires Below(s.plugin, s.clientSerial) && s.clientSerial + 1 < SERIAL_LIMIT
    ensures FreshSerial(s)
  {
    BumpAdds(s.clientSerial);
  }

  lemma FreshInRuns(es: seq<Event>)
    requires Short(es)
    ensures FreshSerial(Run(INIT, es))
  {
    hide Run, FreshSerial;
    RunKeeps(INIT, es);
    BelowFresh(Run(INIT, es));
  }

  /** After every run so far harmless, the next event leaves all later acks increasing if and only if it does
      not lose the first serial. */
  lemma AcksExactly(es: seq<Event>, e: Event)
    requires RunOk(INIT, es) && Short(es) && Legal(Run(INIT, es), e)
    ensures Safe(Step(Run(INIT, es), e)) <==> !LosesFirst(Run(INIT, es), e)
  {
    hide Run, RunOk, Inv, FreshSerial, LosesFirst, Legal, Step, Safe;
    InvInit();
    InvRun(INIT, es);
    FreshInRuns(es);
    SafeExactly(Run(INIT, es), e);
  }

  /** And after every run without an event that `Spoils` names, the next event leaves all later commits at
      the acked size if and only if it is not one either.  Losing the first serial is no such event. */
  lemma SizesExactly(es: seq<Event>, e: Event)
    requires LegalRun(INIT, es) && RunFits(INIT, es) && Short(es) && Legal(Run(INIT, es), e)
    ensures SizesSafe(Step(Run(INIT, es), e)) <==> !Spoils(Run(INIT, es), e)
    ensures LosesFirst(Run(INIT, es), e) ==> SizesSafe(Step(Run(INIT, es), e))
  {
    if LosesFirst(Run(INIT, es), e) { LosingFits(Run(INIT, es), e); }
    hide Run, LegalRun, RunFits, Traced, SizesOk, FreshSerial, LosesFirst, Legal, Step, SizesSafe, Spoils;
    InvInit();
    SizesRun(INIT, es);
    FreshInRuns(es);
    SizesSafeExactly(Run(INIT, es), e);
  }

  lemma LosingFits(s: Lock, e: Event)
    requires LosesFirst(s, e)
    ensures !Spoils(s, e)
  {
  }
}
