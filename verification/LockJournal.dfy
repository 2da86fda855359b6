/** The translator told from its events: a journal that writes down what was handed to the present layer
    surface and never drops anything.  After every run the serial table is what the surface was handed after
    the configure it acked last. */
module LockJournal {
  import opened Options
  import opened SurfaceSizes
  import opened LockProtocol
  import opened LockSafety
  import DiffCommits

  /** A layer surface: all configures handed to it, how many of them its acks have gone past, and the serial
      it acked last. */
  datatype Surface = Surface(handed: seq<SerialPair>, used: nat, last: nat, mapped: bool)

  /** `first` is the configure that made the size known, while no initial commit has been answered with it;
      `held` the configure whose ack waits for a commit; `unacked` says that the newest configure has no ack
      yet; `sent` are the acks that went upstream. */
  datatype Journal = Journal(
    nested: bool,
    erred: bool,
    surface: Option<Surface>,
    serial: nat,
    size: Size,
    newest: nat,
    unacked: bool,
    first: Option<nat>,
    held: Option<nat>,
    shown: bool,
    sent: seq<nat>)

  const BLANK := Journal(true, false, None, FIRST_CLIENT_SERIAL, NO_SIZE, 0, false, Some(0), None, false, [])

  /** The plugin's messages reach the program. */
  predicate Heard(j: Journal) {
    j.nested && !j.erred && j.surface.Some?
  }

  function AckedSize(f: Surface): Size {
    if 0 < f.used <= |f.handed| then f.handed[f.used - 1].size else NO_SIZE
  }

  /** A protocol error. */
  function Ended(j: Journal): Journal {
    j.(surface := None, erred := true)
  }

  function Hand(j: Journal, upstream: nat, localOnly: bool): Journal
    requires j.surface.Some?
  {
    var pair := SerialPair(j.serial, upstream, j.size, localOnly);
    j.(surface := Some(j.surface.value.(handed := j.surface.value.handed + [pair])), serial := Bump(j.serial))
  }

  /** The answer to an initial commit: the configure that made the size known, the newest one without an
      ack, or none. */
  function HandFirst(j: Journal): Journal
    requires j.surface.Some?
  {
    match j.first
    case Some(serial) => Hand(j, serial, false).(first := None)
    case None => if j.unacked then Hand(j, j.newest, false) else Hand(j, 0, true)
  }

  /** The ack of the configure at place `i`. */
  function GoPast(j: Journal, i: nat): Journal
    requires j.surface.Some? && i < |j.surface.value.handed|
  {
    var e := j.surface.value.handed[i];
    j.(surface := Some(j.surface.value.(used := i + 1, last := e.plugin)),
       held := if e.localOnly then j.held else Some(e.upstream))
  }

  /** Where the configure with that serial stands among those handed and not gone past. */
  predicate StandsAt(f: Surface, serial: nat, i: int) {
    && f.used <= i < |f.handed| && f.handed[i].plugin == serial
    && forall k :: f.used <= k < i ==> f.handed[k].plugin != serial
  }

  ghost predicate Outstanding(f: Surface, serial: nat) {
    exists i :: StandsAt(f, serial, i)
  }

  /** A commit whose size is the one acked. */
  function Accept(j: Journal): Journal
    requires j.surface.Some?
  {
    j.(surface := Some(j.surface.value.(mapped := true)), shown := true, held := None,
       sent := if j.held.Some? then j.sent + [j.held.value] else j.sent,
       unacked := j.unacked && j.held != Some(j.newest))
  }

  ghost function Note(j: Journal, e: Event): Journal {
    match e
    case Configure(serial, size) =>
      var k := j.(size := size, newest := serial, unacked := j.nested);
      if !j.nested then k.(sent := j.sent + [serial])
      else if !size.Known() then k
      else if !j.size.Known() then k.(first := Some(serial))
      else if j.surface.Some? && j.surface.value.handed != [] then Hand(k, serial, false)
      else k
    case GetLayerSurface =>
      if !j.nested || j.erred then j
      else if j.surface.Some? then Ended(j)
      else j.(surface := Some(Surface([], 0, j.serial, false)), serial := Bump(j.serial))
    case PluginCommit(a) =>
      if !Heard(j) then j
      else if j.surface.value.handed == [] then HandFirst(j)
      else if a.None? then (if j.surface.value.mapped then Ended(j) else j)
      else if CheckedSize(a.value) == Fits(AckedSize(j.surface.value)) then Accept(j)
      else Ended(j)
    case PluginAck(serial) =>
      if !Heard(j) || serial == j.surface.value.last then j
      else if Outstanding(j.surface.value, serial) then
        var i :| StandsAt(j.surface.value, serial, i);
        GoPast(j, i)
      else Ended(j)
    case SurfaceDestroyed => if j.nested then j.(surface := None) else j
    case ReplaceClient => if j.nested then j.(surface := None, serial := FIRST_CLIENT_SERIAL, erred := false) else j
    case OtherOutputSerial => if j.nested then j.(serial := Bump(j.serial)) else j
    case GoClientless =>
      if !j.nested || !j.size.Known() then j.(nested := false)
      else j.(nested := false, shown := true,
              sent := if !j.shown && j.unacked then j.sent + [j.newest] else j.sent)
    case _ => j
  }

  ghost function Journaled(j: Journal, es: seq<Event>): Journal
    decreases |es|
  {
    if es == [] then j else Journaled(Note(j, es[0]), es[1..])
  }

  // ----- the journal tells the state

  predicate TellsPlugin(p: Plugin, f: Surface) {
    && f.used <= |f.handed|
    && p.table == f.handed[f.used..] && p.lastUsed == f.last && p.lastAcked == AckedSize(f)
    && p.configured == (f.handed != []) && p.mapped == f.mapped
  }

  predicate TellsHeld(s: Lock, j: Journal) {
    s.hasPending == j.held.Some? && (s.hasPending ==> s.pendingSerial == j.held.value)
  }

  predicate TellsFirst(s: Lock, j: Journal) {
    s.usedFirst == j.first.None? && (!s.usedFirst ==> s.first == j.first.value)
  }

  predicate TellsSurface(s: Lock, j: Journal) {
    && s.plugin.Some? == j.surface.Some?
    && (s.plugin.Some? ==> TellsPlugin(s.plugin.value, j.surface.value))
  }

  predicate Tells(s: Lock, j: Journal) {
    && s.nested == j.nested && s.size == j.size && s.newest == j.newest && s.acks == j.sent
    && TellsHeld(s, j)
    && (s.nested ==>
          && s.erred == j.erred && s.clientSerial == j.serial && s.hasBuffer == j.shown && s.hasNewer == j.unacked
          && TellsFirst(s, j) && TellsSurface(s, j))
  }

  // Parts of the state that rendering and bookkeeping leave alone.

  predicate Alike(s: Lock, t: Lock) {
    && t.nested == s.nested && t.size == s.size && t.newest == s.newest && t.acks == s.acks
    && t.hasPending == s.hasPending && t.pendingSerial == s.pendingSerial && t.erred == s.erred
    && t.clientSerial == s.clientSerial && t.hasNewer == s.hasNewer
    && t.first == s.first && t.usedFirst == s.usedFirst && t.plugin == s.plugin
  }

  lemma RenderAlike(s: Lock)
    ensures Alike(s, Render(s)) && Render(s).hasBuffer == s.hasBuffer && Render(s).halted == s.halted
  {
    hide Shown;
  }

  lemma CommitAlike(s: Lock)
    ensures Alike(s, CommitUpstream(s)) && CommitUpstream(s).hasBuffer == s.hasBuffer
  {
    hide Shown;
  }

  lemma AlikeVia(s: Lock, t: Lock, u: Lock)
    requires Alike(s, t) && Alike(t, u)
    ensures Alike(s, u)
  {
  }

  lemma BufferAlike(s: Lock, upstream: DiffCommits.Upstream, buffer: Size, halted: bool)
    ensures Alike(s, s.(upstream := upstream, buffer := buffer, hasBuffer := true))
    ensures Alike(s, s.(halted := halted))
  {
  }

  lemma FallbackAlike(s: Lock)
    ensures Alike(s, RenderFallback(s))
  {
    hide Alike, CommitUpstream, FallbackState, Size.Known;
    var s1 := s.(upstream := FallbackState(s.upstream), buffer := s.size, hasBuffer := true);
    BufferAlike(s, FallbackState(s.upstream), s.size, true);
    CommitAlike(s1);
    AlikeVia(s, s1, CommitUpstream(s1));
  }

  lemma TellsAlike(s: Lock, t: Lock, j: Journal)
    requires Tells(s, j) && Alike(s, t) && (s.nested ==> t.hasBuffer == s.hasBuffer)
    ensures Tells(t, j)
  {
    hide TellsPlugin;
  }

  lemma TellsDirty(s: Lock, j: Journal)
    requires Tells(s, j)
    ensures Tells(Render(s.(dirty := true)), j)
  {
    hide Tells, Render;
    RenderAlike(s.(dirty := true));
    TellsAlike(s, s.(dirty := true), j);
    TellsAlike(s.(dirty := true), Render(s.(dirty := true)), j);
  }

  lemma HandedMore(p: Plugin, f: Surface, pair: SerialPair)
    requires TellsPlugin(p, f)
    ensures TellsPlugin(p.(table := p.table + [pair], configured := true), f.(handed := f.handed + [pair]))
  {
    assert (f.handed + [pair])[f.used..] == f.handed[f.used..] + [pair];
    HandedSize(f, pair);
    hide AckedSize;
  }

  lemma HandedSize(f: Surface, pair: SerialPair)
    requires f.used <= |f.handed|
    ensures AckedSize(f.(handed := f.handed + [pair])) == AckedSize(f)
  {
  }

  lemma HandTold(s: Lock, j: Journal, p: Plugin, f: Surface, serial: nat)
    requires Tells(s, j) && s.nested && s.plugin.Some? && TellsPlugin(p, f)
    ensures Tells(s.(plugin := Some(p), clientSerial := serial), j.(surface := Some(f), serial := serial))
  {
    hide TellsPlugin;
  }

  lemma SerialTold(s: Lock, j: Journal)
    requires Tells(s, j) && s.nested
    ensures s.clientSerial == j.serial && s.size == j.size && TellsSurface(s, j)
  {
    hide TellsPlugin, TellsHeld, TellsFirst;
  }

  lemma AddPairIs(s: Lock, upstream: nat, localOnly: bool)
    requires s.plugin.Some?
    ensures var p, t := s.plugin.value, AddPair(s, upstream, localOnly);
            var table := p.table + [SerialPair(s.clientSerial, upstream, s.size, localOnly)];
            && t.plugin == Some(p.(table := table))
            && t.(plugin := Some(p.(table := table, configured := true)))
               == s.(plugin := Some(p.(table := table, configured := true)), clientSerial := Bump(s.clientSerial))
            && (p.configured ==> t == t.(plugin := Some(p.(table := table, configured := true))))
  {
    hide Bump;
  }

  lemma HandIs(j: Journal, upstream: nat, localOnly: bool)
    requires j.surface.Some?
    ensures var f := j.surface.value;
            Hand(j, upstream, localOnly) ==
            j.(surface := Some(f.(handed := f.handed + [SerialPair(j.serial, upstream, j.size, localOnly)])), serial := Bump(j.serial))
  {
    hide Bump;
  }

  lemma TellsHand(s: Lock, j: Journal, upstream: nat, localOnly: bool)
    requires Tells(s, j) && s.nested && s.plugin.Some?
    ensures j.surface.Some?
    ensures var t := AddPair(s, upstream, localOnly);
            && t.plugin.Some?
            && Tells(t.(plugin := Some(t.plugin.value.(configured := true))), Hand(j, upstream, localOnly))
            && (s.plugin.value.configured ==> Tells(t, Hand(j, upstream, localOnly)))
  {
    hide Tells, TellsPlugin, Bump, AddPair, Hand;
    SerialTold(s, j);
    var p, f := s.plugin.value, j.surface.value;
    var pair := SerialPair(s.clientSerial, upstream, s.size, localOnly);
    HandedMore(p, f, pair);
    HandTold(s, j, p.(table := p.table + [pair], configured := true), f.(handed := f.handed + [pair]), Bump(s.clientSerial));
    AddPairIs(s, upstream, localOnly);
    HandIs(j, upstream, localOnly);
  }

  lemma ReceiveTold(s: Lock, j: Journal, serial: nat, size: Size)
    requires Tells(s, j) && s.nested
    ensures Tells(Receive(s, serial, size).(hasNewer := true), j.(size := size, newest := serial, unacked := true))
  {
    hide TellsPlugin;
  }

  lemma FirstTold(s: Lock, j: Journal, serial: nat)
    requires Tells(s, j)
    ensures Tells(s.(first := serial, usedFirst := false), j.(first := Some(serial)))
  {
    hide TellsPlugin;
  }

  lemma ForwardTold(s: Lock, j: Journal, first: bool, serial: nat)
    requires Tells(s, j) && s.nested
    ensures HasConfiguredPlugin(s) <==> j.surface.Some? && j.surface.value.handed != []
    ensures Tells(ForwardConfigure(s, first, serial),
                  if !s.size.Known() then j
                  else if first then j.(first := Some(serial))
                  else if HasConfiguredPlugin(s) then Hand(j, serial, false)
                  else j)
  {
    ConfiguredTold(s, j);
    FirstTold(s, j, serial);
    if HasConfiguredPlugin(s) { TellsHand(s, j, serial, false); }
    hide Tells, Hand, AddPair, Size.Known;
  }

  lemma ConfigureTold(s: Lock, j: Journal, serial: nat, size: Size)
    requires Tells(s, j) && s.nested
    ensures Tells(HandleConfigure(s, serial, size), Note(j, Configure(serial, size)))
  {
    assert s.size == j.size && j.nested;
    hide Tells, Render, Hand, ForwardConfigure, Receive, Size.Known;
    ReceiveTold(s, j, serial, size);
    var s1 := Receive(s, serial, size).(hasNewer := true);
    var k := j.(size := size, newest := serial, unacked := true);
    assert s1.nested && s1.size == size by { ReceivedSize(s, serial, size); }
    ForwardTold(s1, k, !s.size.Known(), serial);
    TellsDirty(ForwardConfigure(s1, !s.size.Known(), serial), Note(j, Configure(serial, size)));
  }

  lemma ReceivedSize(s: Lock, serial: nat, size: Size)
    ensures Receive(s, serial, size).size == size && Receive(s, serial, size).nested == s.nested
  {
  }

  lemma ConfiguredTold(s: Lock, j: Journal)
    requires Tells(s, j) && s.nested
    ensures HasConfiguredPlugin(s) <==> j.surface.Some? && j.surface.value.handed != []
  {
  }

  lemma ClientlessConfigureTold(s: Lock, j: Journal, serial: nat, size: Size)
    requires Tells(s, j) && !s.nested
    ensures Tells(HandleConfigure(s, serial, size), Note(j, Configure(serial, size)))
  {
    hide Render, RenderFallback;
    var s1 := SendAck(Receive(s, serial, size), serial).(hasNewer := false);
    var k := Note(j, Configure(serial, size));
    assert Tells(s1, k);
    hide Tells;
    FallbackAlike(s1);
    TellsAlike(s1, RenderFallback(s1), k);
    TellsDirty(RenderFallback(s1), k);
  }

  lemma InitialTold(s: Lock, j: Journal)
    requires Tells(s, j) && s.nested && s.plugin.Some? && !s.plugin.value.configured
    ensures j.surface.Some? && Tells(InitialCommit(s, None), HandFirst(j))
  {
    hide TellsPlugin, AddPair, Hand;
    TellsHand(s, j, s.first, false);
    TellsHand(s, j, s.newest, false);
    TellsHand(s, j, 0, true);
  }

  lemma ApplyTold(s: Lock, j: Journal, v: View)
    requires Tells(s, j) && s.nested && s.plugin.Some?
    ensures j.surface.Some?
    ensures Tells(ApplyUpdates(s, v), j.(surface := Some(j.surface.value.(mapped := true))))
    ensures s.plugin.value.lastAcked == AckedSize(j.surface.value)
  {
    MappedSize(j.surface.value);
    hide Updated, AckedSize;
  }

  lemma EndedTold(s: Lock, j: Journal)
    requires Tells(s, j)
    ensures Tells(Disconnect(s), Ended(j))
  {
    hide TellsPlugin;
  }

  lemma FlushTold(s: Lock, j: Journal)
    requires Tells(s, j) && s.nested && j.surface.Some? && j.surface.value.mapped
    ensures Tells(FlushAck(s.(hasBuffer := true)), Accept(j))
  {
    hide TellsPlugin;
  }

  lemma AcceptedTold(s: Lock, j: Journal)
    requires Tells(s, j) && s.nested && j.surface.Some? && j.surface.value.mapped
    ensures Tells(CommitUpstream(FlushAck(s.(hasBuffer := true))), Accept(j))
  {
    hide Tells, Alike, FlushAck, CommitUpstream, Accept;
    FlushTold(s, j);
    var t := FlushAck(s.(hasBuffer := true));
    CommitAlike(t);
    TellsAlike(t, CommitUpstream(t), Accept(j));
  }

  lemma ContentTold(s: Lock, j: Journal, v: View)
    requires Tells(s, j) && s.nested && HasConfiguredPlugin(s) && !ContentCommit(s, v).halted
    ensures j.surface.Some?
    ensures Tells(ContentCommit(s, v),
                  if CheckedSize(v) == Fits(AckedSize(j.surface.value)) then Accept(j) else Ended(j))
  {
    hide Tells, CheckedSize, AckedSize, ApplyUpdates, FlushAck, CommitUpstream, Disconnect;
    ApplyTold(s, j, v);
    AppliedNested(s, v);
    var s1, j1 := ApplyUpdates(s, v), j.(surface := Some(j.surface.value.(mapped := true)));
    EndedTold(s1, j1);
    AcceptedTold(s1, j1);
    assert Accept(j1) == Accept(j) && Ended(j1) == Ended(j);
  }

  lemma AppliedNested(s: Lock, v: View)
    requires s.plugin.Some?
    ensures ApplyUpdates(s, v).nested == s.nested
  {
    hide Updated;
  }

  lemma MappedSize(f: Surface)
    ensures AckedSize(f.(mapped := true)) == AckedSize(f)
  {
  }

  lemma CommitTold(s: Lock, j: Journal, a: Option<View>)
    requires Tells(s, j) && s.nested && !s.erred && !HandleCommit(s, a).halted
    ensures Tells(HandleCommit(s, a), Note(j, PluginCommit(a)))
  {
    ConfiguredTold(s, j);
    if s.plugin.Some? {
      if !s.plugin.value.configured {
        InitialTold(s, j);
      } else if a.Some? {
        ContentTold(s, j, a.value);
      }
    }
    hide InitialCommit, HandFirst, ContentCommit, Accept, TellsPlugin, CheckedSize, AckedSize;
  }

  /** The search of the table finds the configure where the journal says it stands. */
  lemma StandsWhere(p: Plugin, f: Surface, serial: nat)
    requires TellsPlugin(p, f)
    ensures var i := Find(p.table, serial);
            && (i < |p.table| ==> StandsAt(f, serial, f.used + i))
            && (i == |p.table| ==> !Outstanding(f, serial))
            && forall k :: StandsAt(f, serial, k) ==> k == f.used + i
  {
    hide AckedSize, Find;
    var i := Find(p.table, serial);
    assert forall k :: f.used <= k < |f.handed| ==> p.table[k - f.used] == f.handed[k];
  }

  lemma UseTold(p: Plugin, f: Surface, i: nat, serial: nat)
    requires TellsPlugin(p, f) && i < |p.table| && p.table[i].plugin == serial
    ensures TellsPlugin(UsePair(p, i, serial), f.(used := f.used + i + 1, last := serial))
    ensures f.handed[f.used + i] == p.table[i]
  {
    assert f.handed[f.used..][i + 1..] == f.handed[f.used + i + 1..];
  }

  lemma PluginTold(s: Lock, j: Journal, p: Plugin, f: Surface, held: Option<nat>)
    requires Tells(s, j) && s.nested && s.plugin.Some? && TellsPlugin(p, f)
    ensures var t, k := s.(plugin := Some(p)), j.(surface := Some(f));
            Tells(t, k) && (held.Some? ==> Tells(HoldAck(t, held.value), k.(held := held)))
  {
    hide TellsPlugin;
  }

  lemma SurfaceTold(s: Lock, j: Journal)
    requires Tells(s, j) && s.nested
    ensures TellsSurface(s, j)
  {
    hide TellsPlugin;
  }

  lemma UsedTold(s: Lock, j: Journal, i: nat)
    requires Tells(s, j) && s.nested && s.plugin.Some? && i < |s.plugin.value.table|
    ensures j.surface.Some? && j.surface.value.used + i < |j.surface.value.handed|
    ensures var e := s.plugin.value.table[i];
            var t := s.(plugin := Some(UsePair(s.plugin.value, i, e.plugin)));
            Tells(if e.localOnly then t else HoldAck(t, e.upstream), GoPast(j, j.surface.value.used + i))
  {
    hide Tells, TellsPlugin, UsePair, HoldAck;
    SurfaceTold(s, j);
    var p, f, e := s.plugin.value, j.surface.value, s.plugin.value.table[i];
    TablePlace(p, f, i);
    UseTold(p, f, i, e.plugin);
    var g := f.(used := f.used + i + 1, last := e.plugin);
    PluginTold(s, j, UsePair(p, i, e.plugin), g, if e.localOnly then None else Some(e.upstream));
    assert e.localOnly ==> j.(surface := Some(g)) == GoPast(j, f.used + i);
  }

  lemma TablePlace(p: Plugin, f: Surface, i: nat)
    requires TellsPlugin(p, f) && i < |p.table|
    ensures f.used + i < |f.handed|
  {
  }

  lemma AckNoted(j: Journal, serial: nat, i: nat)
    requires Heard(j) && serial != j.surface.value.last && StandsAt(j.surface.value, serial, i)
    ensures i < |j.surface.value.handed| && Note(j, PluginAck(serial)) == GoPast(j, i)
  {
    assert Outstanding(j.surface.value, serial);
  }

  lemma HeardTold(s: Lock, j: Journal)
    requires Tells(s, j) && s.nested && !s.erred
    ensures TellsSurface(s, j) && (s.plugin.Some? == Heard(j))
  {
    hide TellsPlugin;
  }

  lemma AckTold(s: Lock, j: Journal, serial: nat)
    requires Tells(s, j) && s.nested && !s.erred
    ensures Tells(HandleAck(s, serial), Note(j, PluginAck(serial)))
  {
    hide HandleAck, Tells, TellsPlugin, UsePair, StandsAt, Outstanding, HoldAck, GoPast, Disconnect, Find;
    EndedTold(s, j);
    HeardTold(s, j);
    AckCases(s, serial);
    if s.plugin.Some? {
      var p, f := s.plugin.value, j.surface.value;
      LastTold(p, f);
      StandsWhere(p, f, serial);
      var i := Find(p.table, serial);
      if serial != p.lastUsed && i < |p.table| {
        UsedTold(s, j, i);
        AckNoted(j, serial, f.used + i);
      }
    }
  }

  lemma LastTold(p: Plugin, f: Surface)
    requires TellsPlugin(p, f)
    ensures p.lastUsed == f.last
  {
  }

  lemma ClientlessTold(s: Lock, j: Journal)
    requires Tells(s, j) && s.nested
    ensures Tells(SetupClientless(s), Note(j, GoClientless))
  {
    hide Render, RenderFallback;
    var k := Note(j, GoClientless);
    var s1 := s.(nested := false);
    var s2 := SendAck(s1, s.newest).(hasNewer := false);
    FallbackAlike(s1);
    FallbackAlike(s2);
    if !s.size.Known() {
      assert Tells(s1, k);
    } else if s.hasBuffer {
      assert Tells(s1, k);
      TellsDirty(s1, k);
    } else if s.hasNewer {
      assert Tells(s2, k);
      hide Tells;
      TellsAlike(s2, RenderFallback(s2), k);
      TellsDirty(RenderFallback(s2), k);
    } else {
      assert Tells(s1, k);
      hide Tells;
      TellsAlike(s1, RenderFallback(s1), k);
      TellsDirty(RenderFallback(s1), k);
    }
  }

  /** What happens to a surface from outside. */
  lemma SimpleTold(s: Lock, j: Journal)
    requires Tells(s, j) && s.nested
    ensures Tells(s.(plugin := None), j.(surface := None))
    ensures Tells(s.(plugin := None, clientSerial := FIRST_CLIENT_SERIAL, erred := false),
                  j.(surface := None, serial := FIRST_CLIENT_SERIAL, erred := false))
    ensures Tells(s.(clientSerial := Bump(s.clientSerial)), j.(serial := Bump(j.serial)))
  {
    hide TellsPlugin, Bump;
  }

  lemma NestedTold(s: Lock, j: Journal)
    requires Tells(s, j)
    ensures s.nested == j.nested && (s.nested ==> s.erred == j.erred)
  {
    hide TellsSurface, TellsHeld, TellsFirst;
  }

  lemma ClientStepTold(s: Lock, j: Journal, e: Event)
    requires Tells(s, j) && ByClient(e) && s.nested && !s.halted && !Step(s, e).halted
    ensures Tells(Step(s, e), Note(j, e))
  {
    NestedTold(s, j);
    SimpleTold(s, j);
    hide HandleCommit, HandleAck, GetLayer, Tells, Bump, Outstanding, HandFirst, Accept, Ended;
    match e
    case PluginCommit(a) => if !s.erred { CommitTold(s, j, a); }
    case PluginAck(serial) => if !s.erred { AckTold(s, j, serial); }
    case GetLayerSurface => if !s.erred { LayerTold(s, j); }
    case _ =>
  }

  lemma OwnStepTold(s: Lock, j: Journal, e: Event)
    requires Tells(s, j) && !ByClient(e) && !s.halted
    ensures Tells(Step(s, e), Note(j, e))
  {
    NestedTold(s, j);
    hide HandleConfigure, SetupClientless, Render, Tells, Hand, Outstanding, Size.Known;
    match e
    case Configure(serial, size) =>
      if s.nested { ConfigureTold(s, j, serial, size); } else { ClientlessConfigureTold(s, j, serial, size); }
    case GoClientless => if s.nested { ClientlessTold(s, j); } else { AloneTold(s, j); }
    case Damage => TellsDirty(s, j);
    case FrameDone => FrameTold(s, j);
  }

  lemma FrameTold(s: Lock, j: Journal)
    requires Tells(s, j)
    ensures Tells(Render(s.(frame := false)), j)
  {
    hide Tells, Render;
    RenderAlike(s.(frame := false));
    TellsAlike(s, s.(frame := false), j);
    TellsAlike(s.(frame := false), Render(s.(frame := false)), j);
  }

  /** Clientless already, or not listening: nothing happens. */
  lemma AloneTold(s: Lock, j: Journal)
    requires Tells(s, j) && !s.nested
    ensures SetupClientless(s) == s && Note(j, GoClientless) == j
    ensures forall e: Event :: ByClient(e) ==> Note(j, e) == j
  {
    NotNested(s);
    hide TellsSurface, TellsHeld, TellsFirst, Outstanding;
  }

  lemma StepTold(s: Lock, j: Journal, e: Event)
    requires Tells(s, j) && !s.halted && !Step(s, e).halted
    ensures Tells(Step(s, e), Note(j, e))
  {
    hide Tells, Step, Note, ByClient;
    if !ByClient(e) {
      OwnStepTold(s, j, e);
    } else if s.nested {
      ClientStepTold(s, j, e);
    } else {
      AloneTold(s, j);
      ClientIgnored(s, e);
    }
  }

  lemma LayerTold(s: Lock, j: Journal)
    requires Tells(s, j) && s.nested && !s.erred
    ensures Tells(GetLayer(s), Note(j, GetLayerSurface))
  {
    EndedTold(s, j);
    if s.plugin.None? {
      var t := s.(plugin := Some(NewPlugin(s.clientSerial)), clientSerial := Bump(s.clientSerial));
      FreshTold(s.clientSerial);
      hide TellsPlugin, NewPlugin, Bump;
      assert Tells(t, Note(j, GetLayerSurface));
    }
    hide Tells, NewPlugin, Bump, Disconnect;
  }

  lemma FreshTold(serial: nat)
    ensures TellsPlugin(NewPlugin(serial), Surface([], 0, serial, false))
  {
  }

  // ----- every run

  lemma {:induction false} HaltedStays(s: Lock, es: seq<Event>)
    requires s.halted
    ensures Run(s, es).halted
    decreases |es|
  {
    if es != [] { HaltedStays(Step(s, es[0]), es[1..]); }
  }

  lemma {:induction false} RunTold(s: Lock, j: Journal, es: seq<Event>)
    requires Tells(s, j) && !Run(s, es).halted
    ensures Tells(Run(s, es), Journaled(j, es))
    decreases |es|
  {
    hide Tells, Step, Note;
    if es != [] {
      if s.halted { HaltedStays(s, es); }
      if Step(s, es[0]).halted { HaltedStays(Step(s, es[0]), es[1..]); }
      StepTold(s, j, es[0]);
      RunTold(Step(s, es[0]), Note(j, es[0]), es[1..]);
    }
  }

  lemma BlankTold()
    ensures Tells(INIT, BLANK)
  {
  }

  /** What the program's journal says after some events. */
  ghost function Told(es: seq<Event>): Journal {
    Journaled(BLANK, es)
  }

  /** In every run that has not ended in an assertion: the serial table is exactly what the present surface was
      handed after the configure it acked last, in order; an ack is held back exactly while that of the last
      acked configure waits for a commit; and the acks sent upstream are those that were due. */
  lemma TableTold(es: seq<Event>)
    requires !Run(INIT, es).halted
    ensures var t, j := Run(INIT, es), Told(es);
            && t.acks == j.sent && t.hasPending == j.held.Some? && (t.hasPending ==> t.pendingSerial == j.held.value)
            && (t.nested ==> t.plugin.Some? == j.surface.Some?)
            && (t.nested && t.plugin.Some? ==>
                  var p, f := t.plugin.value, j.surface.value;
                  f.used <= |f.handed| && p.table == f.handed[f.used..] && p.lastUsed == f.last && p.lastAcked == AckedSize(f))
  {
    BlankTold();
    RunTold(INIT, BLANK, es);
    hide Run, Journaled, AckedSize;
  }

  // ----- serials are handed out upwards

  predicate Numbered(j: Journal) {
    j.surface.Some? ==>
      var f := j.surface.value;
      && !j.erred && f.used <= |f.handed| && f.last < j.serial
      && (forall i, k :: 0 <= i < k < |f.handed| ==> f.handed[i].plugin < f.handed[k].plugin)
      && (forall i :: 0 <= i < |f.handed| ==> f.handed[i].plugin < j.serial)
      && (forall i :: f.used <= i < |f.handed| ==> f.last < f.handed[i].plugin)
  }

  lemma HandNumbered(j: Journal, upstream: nat, localOnly: bool)
    requires Numbered(j) && j.surface.Some? && j.serial + 1 < SERIAL_LIMIT
    ensures Numbered(Hand(j, upstream, localOnly)) && Hand(j, upstream, localOnly).serial == j.serial + 1
  {
    var k := Hand(j, upstream, localOnly);
    assert forall i :: 0 <= i < |j.surface.value.handed| ==> k.surface.value.handed[i] == j.surface.value.handed[i];
  }

  lemma PastNumbered(j: Journal, serial: nat, i: nat)
    requires Numbered(j) && j.surface.Some? && StandsAt(j.surface.value, serial, i)
    ensures Numbered(GoPast(j, i)) && GoPast(j, i).serial == j.serial
  {
  }

  lemma AckNumbered(j: Journal, serial: nat)
    requires Numbered(j)
    ensures Numbered(Note(j, PluginAck(serial))) && Note(j, PluginAck(serial)).serial == j.serial
  {
    hide Numbered, StandsAt;
    if Heard(j) && serial != j.surface.value.last {
      if i :| StandsAt(j.surface.value, serial, i) {
        StandsNat(j.surface.value, serial, i);
        AckNoted(j, serial, i);
        PastNumbered(j, serial, i);
      } else {
        EndedNumbered(j);
      }
    }
  }

  lemma StandsNat(f: Surface, serial: nat, i: int)
    requires StandsAt(f, serial, i)
    ensures 0 <= i < |f.handed|
  {
  }

  lemma EndedNumbered(j: Journal)
    ensures Numbered(Ended(j))
  {
  }

  lemma AsideNumbered(j: Journal, k: Journal)
    requires Numbered(j) && k.surface == j.surface && k.serial == j.serial && k.erred == j.erred
    ensures Numbered(k)
  {
  }

  lemma AcceptNumbered(j: Journal)
    requires Numbered(j) && j.surface.Some?
    ensures Numbered(Accept(j)) && Accept(j).serial == j.serial
  {
  }

  lemma CommitNumbered(j: Journal, a: Option<View>)
    requires Numbered(j) && j.serial + 1 < SERIAL_LIMIT
    ensures Numbered(Note(j, PluginCommit(a))) && j.serial <= Note(j, PluginCommit(a)).serial <= j.serial + 1
  {
    hide Numbered, AckedSize, CheckedSize, Hand, Accept;
    if Heard(j) {
      if j.first.Some? {
        HandNumbered(j, j.first.value, false);
        var k := Hand(j, j.first.value, false);
        AsideNumbered(k, k.(first := None));
      }
      HandNumbered(j, j.newest, false);
      HandNumbered(j, 0, true);
      EndedNumbered(j);
      AcceptNumbered(j);
    }
  }

  lemma ConfigureNumbered(j: Journal, serial: nat, size: Size)
    requires Numbered(j) && j.serial + 1 < SERIAL_LIMIT
    ensures var k := Note(j, Configure(serial, size));
            Numbered(k) && j.serial <= k.serial <= j.serial + 1
  {
    hide Numbered, Hand, Size.Known;
    var k := j.(size := size, newest := serial, unacked := j.nested);
    AsideNumbered(j, k);
    AsideNumbered(j, k.(sent := j.sent + [serial]));
    AsideNumbered(j, k.(first := Some(serial)));
    if j.surface.Some? { HandNumbered(k, serial, false); }
  }

  lemma NoteNumbered(j: Journal, e: Event)
    requires Numbered(j) && j.serial + 1 < SERIAL_LIMIT
    ensures Numbered(Note(j, e))
    ensures j.serial <= Note(j, e).serial <= j.serial + 1 || Note(j, e).serial == FIRST_CLIENT_SERIAL
  {
    match e
    case Configure(serial, size) => ConfigureNumbered(j, serial, size);
    case PluginCommit(a) => CommitNumbered(j, a);
    case PluginAck(serial) => AckNumbered(j, serial);
    case _ =>
    hide Hand, HandFirst, GoPast, Accept, AckedSize, CheckedSize, Outstanding, StandsAt;
  }

  lemma {:induction false} RunNumbered(j: Journal, es: seq<Event>)
    requires Numbered(j) && FIRST_CLIENT_SERIAL <= j.serial && j.serial + |es| < SERIAL_LIMIT
    ensures Numbered(Journaled(j, es))
    decreases |es|
  {
    hide Numbered, Note;
    if es != [] {
      NoteNumbered(j, es[0]);
      RunNumbered(Note(j, es[0]), es[1..]);
    }
  }

  // ----- what an ack does

  /** After every run short enough for serials to be distinct: whichever configure was handed to the surface after
      the one it acked last, acking it is no error; it is now the one acked last, everything handed after it stays
      in the table, and its upstream configure is the one whose ack is held back, unless it has none. */
  lemma AckOutstanding(es: seq<Event>, i: nat)
    requires Short(es) && !Run(INIT, es).halted && Run(INIT, es).nested && Run(INIT, es).plugin.Some?
    requires var f := Told(es).surface; f.Some? && f.value.used <= i < |f.value.handed|
    ensures var t, f := Run(INIT, es), Told(es).surface.value;
            var e := f.handed[i];
            var u := Step(t, PluginAck(e.plugin));
            && !u.erred && !u.halted && u.plugin.Some? && u.acks == t.acks
            && u.plugin.value.table == f.handed[i + 1..] && u.plugin.value.lastUsed == e.plugin
            && u.plugin.value.lastAcked == e.size
            && (if e.localOnly then u.hasPending == t.hasPending && u.pendingSerial == t.pendingSerial
                else u.hasPending && u.pendingSerial == e.upstream)
  {
    var t, f := Run(INIT, es), Told(es).surface.value;
    BlankTold();
    RunTold(INIT, BLANK, es);
    RunNumbered(BLANK, es);
    hide Run, Journaled, HandleAck, TellsPlugin, AckedSize;
    StandsThere(f, i);
    OutstandingAck(t, Told(es), i);
  }

  lemma StandsThere(f: Surface, i: nat)
    requires f.used <= i < |f.handed|
    requires forall i, k :: 0 <= i < k < |f.handed| ==> f.handed[i].plugin < f.handed[k].plugin
    ensures StandsAt(f, f.handed[i].plugin, i)
  {
  }

  lemma OutstandingAck(s: Lock, j: Journal, i: nat)
    requires Tells(s, j) && s.nested && !s.halted && j.surface.Some? && Numbered(j)
    requires i < |j.surface.value.handed| && StandsAt(j.surface.value, j.surface.value.handed[i].plugin, i)
    ensures var f := j.surface.value;
            var e := f.handed[i];
            var u := Step(s, PluginAck(e.plugin));
            && !u.erred && !u.halted && u.plugin.Some? && u.acks == s.acks
            && u.plugin.value.table == f.handed[i + 1..] && u.plugin.value.lastUsed == e.plugin
            && u.plugin.value.lastAcked == e.size
            && (if e.localOnly then u.hasPending == s.hasPending && u.pendingSerial == s.pendingSerial
                else u.hasPending && u.pendingSerial == e.upstream)
  {
    hide HandleAck, StandsAt, Find, UsePair, TellsPlugin;
    var f := j.surface.value;
    var p, e := s.plugin.value, f.handed[i];
    StandsWhere(p, f, e.plugin);
    LastTold(p, f);
    StandsNat(f, e.plugin, i);
    StandsAhead(f, i);
    var k := Find(p.table, e.plugin);
    UseTold(p, f, k, e.plugin);
    AckCases(s, e.plugin);
    UsedFields(UsePair(p, k, e.plugin), f.(used := i + 1, last := e.plugin));
  }

  lemma StandsAhead(f: Surface, i: nat)
    requires i < |f.handed| && StandsAt(f, f.handed[i].plugin, i)
    requires forall i :: f.used <= i < |f.handed| ==> f.last < f.handed[i].plugin
    ensures f.used <= i && f.handed[i].plugin != f.last
  {
  }

  lemma UsedFields(p: Plugin, f: Surface)
    requires TellsPlugin(p, f) && 0 < f.used <= |f.handed|
    ensures p.table == f.handed[f.used..] && p.lastUsed == f.last && p.lastAcked == f.handed[f.used - 1].size
  {
  }

  /** Repeating the last ack changes nothing, and any other serial is a protocol error. */
  lemma AckOther(es: seq<Event>, serial: nat)
    requires !Run(INIT, es).halted && Run(INIT, es).nested && Run(INIT, es).plugin.Some? && !Run(INIT, es).erred
    requires var f := Told(es).surface; f.Some? && !Outstanding(f.value, serial)
    ensures var t, u := Run(INIT, es), Step(Run(INIT, es), PluginAck(serial));
            if serial == Told(es).surface.value.last then u == t else u.erred && u.plugin.None?
  {
    BlankTold();
    RunTold(INIT, BLANK, es);
    var t, f := Run(INIT, es), Told(es).surface.value;
    StandsWhere(t.plugin.value, f, serial);
    LastTold(t.plugin.value, f);
    AckCases(t, serial);
    hide Run, Journaled, HandleAck, Find, Outstanding, StandsAt, TellsPlugin, UsePair;
  }

  // ----- redraws

  /** A buffer of known size is attached. */
  predicate CanShow(s: Lock) {
    !s.halted && s.size.Known() && s.hasBuffer
  }

  /** A change is committed at once, unless an injected frame is still under way; then the end of that frame commits
      it, and between two injected commits there is always the end of a frame. */
  lemma RedrawsExactly(s: Lock)
    ensures var t := Step(s, Damage);
            && (t.commits != s.commits <==> CanShow(s) && !s.frame)
            && (CanShow(s) ==> t.frame && (t.commits == s.commits ==> t.dirty))
    ensures var t := Step(s, FrameDone);
            && (t.commits != s.commits <==> CanShow(s) && s.dirty)
            && (CanShow(s) ==> t.frame == s.dirty && !t.dirty)
    ensures CanShow(s) ==> Step(Step(s, Damage), FrameDone).commits != s.commits
  {
    hide Shown, Size.Known;
    var t := Step(s, Damage);
    if !s.halted { assert t == Render(s.(dirty := true)); }
  }
}
