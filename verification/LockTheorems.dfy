/** The main results about the configure/ack translator, over every run of events. */
module LockTheorems {
  import opened Options
  import opened SurfaceSizes
  import opened LockProtocol
  import opened LockSafety
  import opened LockOrder
  import opened LockSizes
  import DiffCommits

  // ----- acks

  lemma {:induction false} InvRun(s: Lock, es: seq<Event>)
    requires Inv(s) && RunOk(s, es)
    ensures Inv(Run(s, es))
    decreases |es|
  {
    hide Inv, Step, LosesFirst;
    if es != [] {
      InvStep(s, es[0]);
      InvRun(Step(s, es[0]), es[1..]);
    }
  }

  /** The acks sent upstream are strictly increasing serials of configures that were received;
      `has_newer_serial` says exactly that the newest one is unacked; and while plugins can draw, an
      ack is only held back when the newest configure is unacked. */
  lemma AcksIncrease(es: seq<Event>)
    requires RunOk(INIT, es)
    ensures var t := Run(INIT, es);
            && Increasing(t.acks)
            && (forall i :: 0 <= i < |t.acks| ==> t.acks[i] in t.received)
            && (t.hasNewer <==> t.newest in t.received && t.newest !in t.acks)
            && (t.nested && !t.halted && t.hasPending ==> t.hasNewer)
  {
    InvInit();
    InvRun(INIT, es);
    var t := Run(INIT, es);
    if t.newest in t.received { LastAckBound(t.received, t.newest, t.size, t.hasNewer, t.acks); }
  }

  lemma InvInit()
    ensures Inv(INIT) && Traced(INIT) && SizesOk(INIT)
  {
  }

  // ----- sizes

  /** No event of the run makes a commit of another size possible. */
  predicate RunFits(s: Lock, es: seq<Event>)
    decreases |es|
  {
    es == [] || (!Spoils(s, es[0]) && RunFits(Step(s, es[0]), es[1..]))
  }

  lemma {:induction false} SizesRun(s: Lock, es: seq<Event>)
    requires Traced(s) && SizesOk(s) && LegalRun(s, es) && RunFits(s, es)
    ensures Traced(Run(s, es)) && SizesOk(Run(s, es))
    decreases |es|
  {
    hide Traced, SizesOk, Step, Legal, Spoils;
    if es != [] {
      TracedStep(s, es[0]);
      SizesStep(s, es[0]);
      SizesRun(Step(s, es[0]), es[1..]);
    }
  }

  /** Every upstream commit -- a plugin's, one injected by `render()`, or the fallback's -- gives the
      surface exactly the size carried by the configure acked last before it, whatever clients come, go
      and do wrong and also when the acks go backwards, as long as no event of the run is one of those
      that `Spoils` names. */
  lemma CommitSizesMatch(es: seq<Event>)
    requires LegalRun(INIT, es) && RunFits(INIT, es)
    ensures var t := Run(INIT, es);
            forall i :: 0 <= i < |t.commits| ==> CommitOk(t.received, t.acks, t.commits[i])
  {
    InvInit();
    SizesRun(INIT, es);
  }

  // ----- exactly which events put later acks at risk

  /** No continuation can make the acks go backwards. */
  ghost predicate Safe(s: Lock) {
    forall es :: RunOk(s, es) ==> Increasing(Run(s, es).acks)
  }

  predicate Unused(p: Plugin, serial: nat) {
    p.lastUsed != serial && forall i :: 0 <= i < |p.table| ==> p.table[i].plugin != serial
  }

  /** The next two plugin serials are neither waiting in the table nor the one acked last (serials that
      have gone once round 2^32 aside). */
  predicate FreshSerial(s: Lock) {
    s.plugin.Some? ==> Unused(s.plugin.value, s.clientSerial) && Unused(s.plugin.value, Bump(s.clientSerial))
  }

  lemma InvIsSafe(s: Lock)
    requires Inv(s)
    ensures Safe(s)
  {
    forall es | RunOk(s, es) ensures Increasing(Run(s, es).acks) {
      InvRun(s, es);
    }
  }

  // Runs are built up event by event.

  /** A run within the assumptions, without a protocol error, and where it ends. */
  predicate Plays(s: Lock, es: seq<Event>, t: Lock) {
    RunOk(s, es) && ErrorFree(s, es) && Run(s, es) == t
  }

  predicate Clean(s: Lock) {
    !s.erred && !s.halted
  }

  lemma PlaysNothing(s: Lock)
    requires Clean(s)
    ensures Plays(s, [], s)
  {
  }

  lemma PlaysOne(s: Lock, e: Event)
    requires Clean(s) && Legal(s, e) && !LosesFirst(s, e) && Clean(Step(s, e))
    ensures Plays(s, [e], Step(s, e))
  {
    hide Step, Legal, LosesFirst;
    assert [e][0] == e && [e][1..] == [];
    PlaysNothing(Step(s, e));
  }

  lemma {:induction false} PlaysMore(s: Lock, es: seq<Event>, t: Lock, e: Event)
    requires Plays(s, es, t) && Legal(t, e) && !LosesFirst(t, e) && Clean(Step(t, e))
    ensures Plays(s, es + [e], Step(t, e))
    decreases |es|
  {
    hide Step, Legal, LosesFirst;
    if es == [] {
      assert es + [e] == [e];
      PlaysOne(t, e);
    } else {
      assert (es + [e])[0] == es[0] && (es + [e])[1..] == es[1..] + [e];
      PlaysMore(Step(s, es[0]), es[1..], t, e);
    }
  }

  const DOT := Size(1, 1)
  const DOT_VIEW: View := Pending(DiffCommits.DEFAULT_STATE, DOT)

  /** The run that makes a replacement client reuse a first serial that was overtaken. */
  function Overtake(s: Lock): seq<Event> {
    [ Configure(s.newest + 1, DOT),
      Configure(s.newest + 2, DOT),
      PluginAck(s.clientSerial),
      PluginCommit(Some(DOT_VIEW)),
      ReplaceClient,
      GetLayerSurface,
      PluginCommit(None),
      PluginAck(FIRST_CLIENT_SERIAL + 1),
      PluginCommit(Some(DOT_VIEW)) ]
  }

  /** A configured plugin surface of unknown size, whose next serial is unused. */
  predicate AtRisk(s: Lock) {
    && s.nested && Clean(s) && !s.size.Known() && HasConfiguredPlugin(s)
    && Unused(s.plugin.value, s.clientSerial)
    && (s.newest in s.received || s.received == map[])
  }

  /** A plugin surface is configured, its table ends in `last`, and `first` is still unused. */
  predicate Overtaking(s: Lock, first: nat, last: SerialPair) {
    && s.nested && Clean(s) && s.size == DOT && !s.usedFirst && s.first == first
    && HasConfiguredPlugin(s) && last.size == DOT && !last.localOnly
    && s.plugin.value.lastUsed != last.plugin && EndsIn(s.plugin.value.table, last)
  }

  predicate EndsIn(table: seq<SerialPair>, last: SerialPair) {
    table != [] && table[|table| - 1] == last && forall i :: 0 <= i < |table| - 1 ==> table[i].plugin != last.plugin
  }

  /** A configure that makes the size of a configured plugin surface known. */
  lemma FirstConfigure(s: Lock)
    requires AtRisk(s)
    ensures var e := Configure(s.newest + 1, DOT);
            var t := Step(s, e);
            && Legal(s, e) && !LosesFirst(s, e) && Clean(t)
            && t.nested && t.size == DOT && t.first == s.newest + 1 && !t.usedFirst && t.plugin == s.plugin
            && t.clientSerial == s.clientSerial && t.newest == s.newest + 1 && t.acks == s.acks
  {
    hide Unused, Shown, AddPair;
  }

  /** A further configure is put into the table. */
  lemma NextConfigure(s: Lock, serial: nat)
    requires s.nested && Clean(s) && s.size == DOT && HasConfiguredPlugin(s) && s.newest < serial
    requires Unused(s.plugin.value, s.clientSerial) && !s.usedFirst
    ensures var e := Configure(serial, DOT);
            var t := Step(s, e);
            && Legal(s, e) && !LosesFirst(s, e)
            && Overtaking(t, s.first, SerialPair(s.clientSerial, serial, DOT, false)) && t.acks == s.acks
  {
    hide Shown, Bump;
  }

  /** The client acks the last entry. */
  lemma AckLast(s: Lock, first: nat, last: SerialPair)
    requires Overtaking(s, first, last)
    ensures var e := PluginAck(last.plugin);
            var t := Step(s, e);
            && Legal(s, e) && !LosesFirst(s, e) && Acked(t, last.upstream)
            && t.first == s.first && t.usedFirst == s.usedFirst && t.acks == s.acks
  {
    hide HandleAck, Find;
    AckCases(s, last.plugin);
    assert Find(s.plugin.value.table, last.plugin) == |s.plugin.value.table| - 1;
  }

  /** A configured plugin surface whose client has acked a configure of the tiny size. */
  predicate Acked(s: Lock, upstream: nat) {
    && s.nested && Clean(s) && s.size == DOT && HasConfiguredPlugin(s)
    && s.plugin.value.lastAcked == DOT && s.hasPending && s.pendingSerial == upstream
  }

  lemma DotChecked()
    ensures CheckedSize(DOT_VIEW) == Fits(DOT)
  {
    assert 1 % 1 == 0 && 1 / 1 == 1;
  }

  /** The commit after it sends the ack. */
  lemma CommitDot(s: Lock, upstream: nat)
    requires Acked(s, upstream)
    ensures var e := PluginCommit(Some(DOT_VIEW));
            var t := Step(s, e);
            && Legal(s, e) && !LosesFirst(s, e) && Clean(t)
            && t.nested && t.size == DOT && t.acks == s.acks + [upstream]
            && t.first == s.first && t.usedFirst == s.usedFirst
  {
    hide Updated, Shown, CheckedSize;
    DotChecked();
  }

  /** A replacement client's surface is given the first serial, if no one has used it. */
  lemma Replace(s: Lock)
    requires s.nested && Clean(s) && s.size == DOT && !s.usedFirst
    ensures var s1 := Step(s, ReplaceClient);
            var s2 := Step(s1, GetLayerSurface);
            var t := Step(s2, PluginCommit(None));
            && Clean(s1) && Clean(s2) && !LosesFirst(s2, PluginCommit(None)) && t.acks == s.acks
            && t.nested && Clean(t) && t.size == DOT
            && HasConfiguredPlugin(t) && t.plugin.value.lastUsed == FIRST_CLIENT_SERIAL
            && t.plugin.value.table == [SerialPair(FIRST_CLIENT_SERIAL + 1, s.first, DOT, false)]
  {
    var s2 := Step(Step(s, ReplaceClient), GetLayerSurface);
    assert s2 == s.(plugin := Some(NewPlugin(FIRST_CLIENT_SERIAL)), clientSerial := FIRST_CLIENT_SERIAL + 1);
    var pair := SerialPair(FIRST_CLIENT_SERIAL + 1, s.first, DOT, false);
    assert [] + [pair] == [pair];
  }

  lemma AckOnly(s: Lock, pair: SerialPair)
    requires s.nested && Clean(s) && s.size == DOT && HasConfiguredPlugin(s)
    requires s.plugin.value.lastUsed != pair.plugin && s.plugin.value.table == [pair]
    requires pair.size == DOT && !pair.localOnly
    ensures var t := Step(s, PluginAck(pair.plugin));
            Acked(t, pair.upstream) && t.acks == s.acks
  {
    hide HandleAck, Find, HoldAck;
    AckCases(s, pair.plugin);
    HoldIs(s.(plugin := Some(UsePair(s.plugin.value, 0, pair.plugin))), pair.upstream);
    assert Find(s.plugin.value.table, pair.plugin) == 0;
  }

  lemma HoldIs(s: Lock, upstream: nat)
    ensures HoldAck(s, upstream) == s.(hasPending := true, pendingSerial := upstream)
  {
  }

  lemma OvertakeFirstHalf(s: Lock, es: seq<Event>) returns (t: Lock)
    requires AtRisk(s) && es == Overtake(s)
    ensures Plays(s, es[..4], t)
    ensures t.acks == s.acks + [s.newest + 2] && t.first == s.newest + 1 && !t.usedFirst
    ensures t.nested && t.size == DOT && Clean(t)
  {
    hide Step, LosesFirst, Legal, Run, RunOk, Overtaking, Plays;
    var last := SerialPair(s.clientSerial, s.newest + 2, DOT, false);
    PlaysNothing(s);
    FirstConfigure(s);
    PlaysMore(s, [], s, es[0]);
    var s1 := Step(s, es[0]);
    NextConfigure(s1, s.newest + 2);
    var s2 := Step(s1, es[1]);
    assert Clean(s2) by { OvertakingIsClean(s2, s.newest + 1, last); }
    PlaysMore(s, [] + [es[0]], s1, es[1]);
    AckLast(s2, s.newest + 1, last);
    var s3 := Step(s2, es[2]);
    PlaysMore(s, [] + [es[0]] + [es[1]], s2, es[2]);
    CommitDot(s3, s.newest + 2);
    t := Step(s3, es[3]);
    PlaysMore(s, [] + [es[0]] + [es[1]] + [es[2]], s3, es[3]);
    assert es[..4] == [] + [es[0]] + [es[1]] + [es[2]] + [es[3]];
    OvertakingFields(s2, s.newest + 1, last);
  }

  lemma OvertakingIsClean(s: Lock, first: nat, last: SerialPair)
    requires Overtaking(s, first, last)
    ensures Clean(s)
  {
  }

  lemma OvertakingFields(s: Lock, first: nat, last: SerialPair)
    requires Overtaking(s, first, last)
    ensures s.first == first && !s.usedFirst
  {
  }

  lemma OvertakeSecondHalf(s0: Lock, s: Lock, es: seq<Event>)
    requires |es| == 9 && Plays(s0, es[..4], s)
    requires s.nested && Clean(s) && s.size == DOT && !s.usedFirst
    requires es[4..] == [ReplaceClient, GetLayerSurface, PluginCommit(None),
                         PluginAck(FIRST_CLIENT_SERIAL + 1), PluginCommit(Some(DOT_VIEW))]
    ensures RunOk(s0, es) && ErrorFree(s0, es) && Run(s0, es).acks == s.acks + [s.first]
  {
    hide Step, Run, RunOk, ErrorFree, Find, LosesFirst, CheckedSize;
    assert es[4] == es[4..][0] && es[5] == es[4..][1] && es[6] == es[4..][2] && es[7] == es[4..][3] && es[8] == es[4..][4];
    Harmless(s, es[4]);
    Replace(s);
    var s5 := Step(s, es[4]);
    var s6 := Step(s5, es[5]);
    var s7 := Step(s6, es[6]);
    var s8 := Step(s7, es[7]);
    AckOnly(s7, SerialPair(FIRST_CLIENT_SERIAL + 1, s.first, DOT, false));
    CommitDot(s8, s.first);
    var s9 := Step(s8, es[8]);
    Harmless(s5, es[5]); Harmless(s7, es[7]);
    PlaysMore(s0, es[..4], s, es[4]);
    PlaysMore(s0, es[..4] + [es[4]], s5, es[5]);
    PlaysMore(s0, es[..4] + [es[4]] + [es[5]], s6, es[6]);
    PlaysMore(s0, es[..4] + [es[4]] + [es[5]] + [es[6]], s7, es[7]);
    PlaysMore(s0, es[..4] + [es[4]] + [es[5]] + [es[6]] + [es[7]], s8, es[8]);
    assert es == es[..4] + [es[4]] + [es[5]] + [es[6]] + [es[7]] + [es[8]];
  }

  lemma Harmless(s: Lock, e: Event)
    requires e.PluginAck? || e.ReplaceClient? || e.GetLayerSurface? || e.FrameDone? || e.Damage? || e.GoClientless?
             || (e.PluginCommit? && e.attachment.Some?)
    ensures Legal(s, e) && !LosesFirst(s, e)
  {
  }

  /** From a state at risk there is a run without any protocol error in which a replacement client acks
      a serial older than the one acked last. */
  lemma OvertakeRun(s: Lock)
    requires AtRisk(s)
    ensures RunOk(s, Overtake(s)) && ErrorFree(s, Overtake(s))
    ensures Run(s, Overtake(s)).acks == s.acks + [s.newest + 2, s.newest + 1]
  {
    hide Step, Run, RunOk, ErrorFree, AtRisk, Plays;
    var es := Overtake(s);
    var t := OvertakeFirstHalf(s, es);
    OvertakeSecondHalf(s, t, es);
    assert s.acks + [s.newest + 2] + [s.newest + 1] == s.acks + [s.newest + 2, s.newest + 1];
  }

  /** The same from the very beginning: the initial commit comes before the first configure. */
  const EARLY: seq<Event> := [GetLayerSurface, PluginCommit(None)]

  lemma EarlyCommit()
    ensures var t := Run(INIT, EARLY);
            && ErrorFree(INIT, EARLY) && LosesFirst(Step(INIT, GetLayerSurface), PluginCommit(None))
            && ErrorFree(t, Overtake(t)) && RunOk(t, Overtake(t)) && Run(t, Overtake(t)).acks == [2, 1]
  {
    var s1 := Step(INIT, EARLY[0]);
    var s2 := Step(s1, EARLY[1]);
    var pair := SerialPair(FIRST_CLIENT_SERIAL + 1, 0, NO_SIZE, false);
    assert [] + [pair] == [pair];
    assert s2 == INIT.(plugin := Some(NewPlugin(FIRST_CLIENT_SERIAL).(table := [pair], configured := true)),
                       clientSerial := FIRST_CLIENT_SERIAL + 2, usedFirst := true);
    assert EARLY[1..] == [EARLY[1]] && EARLY[1..][1..] == [];
    assert AtRisk(s2);
    assert Run(INIT, EARLY) == s2 && ErrorFree(INIT, EARLY) by { EarlyRun(s1, s2); }
    OvertakeRun(s2);
  }

  lemma EarlyRun(s1: Lock, s2: Lock)
    requires s1 == Step(INIT, EARLY[0]) && s2 == Step(s1, EARLY[1]) && Clean(s1) && Clean(s2)
    ensures Run(INIT, EARLY) == s2 && ErrorFree(INIT, EARLY)
  {
    hide Step;
    assert EARLY[1..] == [EARLY[1]] && EARLY[1..][1..] == [];
    assert Run(s1, EARLY[1..]) == s2;
    assert ErrorFree(s1, EARLY[1..]);
  }

  lemma LosingPutsAtRisk(s: Lock, e: Event)
    requires Inv(s) && FreshSerial(s) && LosesFirst(s, e)
    ensures AtRisk(Step(s, e))
  {
    hide Inv, Shown;
    NewestReceived(s);
    match e
    case Configure(_, _) =>
    case PluginCommit(_) => EmptyTable(s); InitialTable(s);
  }

  lemma NewestReceived(s: Lock)
    requires Inv(s)
    ensures s.newest in s.received || s.received == map[]
  {
  }

  /** Exactly which events can spoil later acks: an event leaves every continuation safe if and only
      if it neither shrinks the surface to nothing under a configured plugin surface nor answers a
      plugin's initial commit before the size is known. */
  lemma SafeExactly(s: Lock, e: Event)
    requires Inv(s) && FreshSerial(s) && Legal(s, e)
    ensures Safe(Step(s, e)) <==> !LosesFirst(s, e)
  {
    hide Inv, Step, LosesFirst, FreshSerial, Legal, RunOk, ErrorFree, Increasing, AtRisk;
    if LosesFirst(s, e) {
      var t := Step(s, e);
      LosingPutsAtRisk(s, e);
      OvertakeRun(t);
      NotIncreasing(t.acks, t.newest + 2, t.newest + 1);
      assert !Increasing(Run(t, Overtake(t)).acks);
    } else {
      InvStep(s, e);
      InvIsSafe(Step(s, e));
    }
  }

  lemma NotIncreasing(acks: seq<nat>, a: nat, b: nat)
    requires b < a
    ensures !Increasing(acks + [a, b])
  {
    var all := acks + [a, b];
    assert all[|acks|] == a && all[|acks| + 1] == b;
  }

  function InitialPair(s: Lock): SerialPair {
    if !s.usedFirst then SerialPair(s.clientSerial, s.first, s.size, false)
    else if s.hasNewer then SerialPair(s.clientSerial, s.newest, s.size, false)
    else SerialPair(s.clientSerial, 0, s.size, true)
  }

  lemma AnswerIs(s: Lock)
    requires s.plugin.Some?
    ensures AnswerInitial(s) == s.(plugin := Some(s.plugin.value.(table := s.plugin.value.table + [InitialPair(s)])),
                                   clientSerial := Bump(s.clientSerial), usedFirst := true)
  {
    hide Bump;
  }

  lemma InitialTable(s: Lock)
    requires s.plugin.Some?
    ensures var p := s.plugin.value;
            InitialCommit(s, None) == s.(plugin := Some(p.(configured := true, table := p.table + [InitialPair(s)])),
                                         clientSerial := Bump(s.clientSerial), usedFirst := true)
  {
    hide AnswerInitial, InitialPair, Bump;
    AnswerIs(s);
  }

  lemma EmptyTable(s: Lock)
    requires Inv(s) && s.nested && !s.halted && s.plugin.Some? && !s.plugin.value.configured
    ensures s.plugin.value.table == []
  {
  }
}
