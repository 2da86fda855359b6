/** What becomes of a held-back ack when the program falls to clientless mode. */
module LockClientless {
  import opened Options
  import opened SurfaceSizes
  import opened LockProtocol
  import opened LockSafety
  import opened LockTheorems
  import opened LockSizeRuns
  import DiffCommits

  /** A held-back ack implies a configure that is not acked. */
  predicate HeldBackOk(s: Lock) {
    s.hasPending ==> s.hasNewer
  }

  ghost predicate StaysHeldBackOk(s: Lock) {
    forall es :: RunOk(s, es) ==> HeldBackOk(Run(s, es))
  }

  lemma RenderHolds(s: Lock)
    ensures Render(s).nested == s.nested && Render(s).hasPending == s.hasPending && Render(s).hasNewer == s.hasNewer
    ensures Render(s).pendingSerial == s.pendingSerial && Render(s).halted == s.halted
  {
    hide Shown;
  }

  lemma FallbackHolds(s: Lock)
    ensures var t := RenderFallback(s);
            && t.nested == s.nested && t.hasPending == s.hasPending && t.hasNewer == s.hasNewer
            && t.pendingSerial == s.pendingSerial && (s.size.Known() ==> t.halted == s.halted)
  {
    hide Shown, FallbackState;
  }

  lemma ClientlessStep(s: Lock, e: Event)
    requires !s.nested
    ensures var t := Step(s, e);
            !t.nested && t.hasPending == s.hasPending && t.pendingSerial == s.pendingSerial
  {
    hide Render, RenderFallback, HandleCommit, HandleAck, GetLayer;
    match e
    case Configure(serial, size) =>
      var s1 := SendAck(Receive(s, serial, size), serial).(hasNewer := false);
      FallbackHolds(s1);
      RenderHolds(RenderFallback(s1).(dirty := true));
    case Damage => RenderHolds(s.(dirty := true));
    case FrameDone => RenderHolds(s.(frame := false));
    case _ =>
  }

  lemma {:induction false} ClientlessRun(s: Lock, es: seq<Event>)
    requires !s.nested
    ensures var t := Run(s, es);
            !t.nested && t.hasPending == s.hasPending && t.pendingSerial == s.pendingSerial
    decreases |es|
  {
    hide Step;
    if es != [] {
      ClientlessStep(s, es[0]);
      ClientlessRun(Step(s, es[0]), es[1..]);
    }
  }

  /** The fall itself neither sends nor drops a held-back ack. */
  lemma Fallen(s: Lock)
    requires s.nested && !s.halted
    ensures var t := SetupClientless(s);
            !t.nested && !t.halted && t.hasPending == s.hasPending && t.pendingSerial == s.pendingSerial
  {
    hide Render, RenderFallback, Size.Known;
    var s1 := s.(nested := false);
    RenderHolds(s1.(dirty := true));
    FallbackHolds(s1);
    RenderHolds(RenderFallback(s1).(dirty := true));
    var s2 := SendAck(s1, s.newest).(hasNewer := false);
    FallbackHolds(s2);
    RenderHolds(RenderFallback(s2).(dirty := true));
  }

  /** In clientless mode every configure is acked at once. */
  lemma NextAcked(s: Lock, serial: nat, size: Size)
    requires !s.nested && !s.halted
    ensures !Step(s, Configure(serial, size)).hasNewer
  {
    hide Render, RenderFallback;
    var s1 := SendAck(Receive(s, serial, size), serial).(hasNewer := false);
    FallbackHolds(s1);
    RenderHolds(RenderFallback(s1).(dirty := true));
  }

  lemma OneConfigure(s: Lock, e: Event)
    requires e == Configure(s.newest + 1, DOT) && !s.nested
    ensures RunOk(s, [e]) && Run(s, [e]) == Step(s, e)
  {
    hide Step;
    assert [e][0] == e && [e][1..] == [];
  }

  /** After the fall to clientless mode an ack that was held back stays so for ever, and with the next
      configure at the latest there is nothing newer to ack: a held-back ack implies an unacked configure in
      every continuation if and only if none was held back at the fall. */
  lemma ClientlessPending(s: Lock)
    requires s.nested && !s.halted
    ensures StaysHeldBackOk(Step(s, GoClientless)) <==> !s.hasPending
    ensures forall es :: var t := Run(Step(s, GoClientless), es);
                         t.hasPending == s.hasPending && t.pendingSerial == s.pendingSerial
  {
    hide SetupClientless, Run, RunOk;
    Fallen(s);
    var t := Step(s, GoClientless);
    assert t == SetupClientless(s);
    hide Step;
    forall es ensures Run(t, es).hasPending == s.hasPending && Run(t, es).pendingSerial == s.pendingSerial {
      ClientlessRun(t, es);
    }
    if s.hasPending {
      var e := Configure(t.newest + 1, DOT);
      OneConfigure(t, e);
      NextAcked(t, t.newest + 1, DOT);
      ClientlessStep(t, e);
      assert !HeldBackOk(Run(t, [e]));
    }
  }

  const WIDE := Size(20, 20)
  const ACK := PluginAck(FIRST_CLIENT_SERIAL + 2)

  const HELD_RUN: seq<Event> := FirstCommit(WIDE, PLAIN_VIEW) + [Configure(2, WIDE)] + [ACK] + [GoClientless] + [Configure(3, WIDE)]

  /** A client acks a second configure and goes before it has drawn again: serial 2 is still held back when
      serial 3 has been acked and nothing is newer. */
  lemma HeldBackForEver()
    ensures var t := Run(INIT, HELD_RUN);
            && RunOk(INIT, HELD_RUN) && ErrorFree(INIT, HELD_RUN)
            && t.acks == [1, 3] && t.hasPending && t.pendingSerial == 2 && !t.hasNewer
  {
    var s := FirstCommitted(WIDE, PLAIN_VIEW);
    PlainChecked();
    PlaysFirstCommit(WIDE, PLAIN_VIEW);
    HeldBack(s);
    var first := FirstCommit(WIDE, PLAIN_VIEW);
    var s1 := Step(s, Configure(2, WIDE));
    var s2 := Step(s1, ACK);
    var s3 := Step(s2, GoClientless);
    HeldGoes(s2);
    hide Step, Run, RunOk, ErrorFree, FirstCommit, FirstCommitted, LosesFirst;
    Harmless(s1, ACK);
    Harmless(s2, GoClientless);
    PlaysMore(INIT, first, s, Configure(2, WIDE));
    PlaysMore(INIT, first + [Configure(2, WIDE)], s1, ACK);
    PlaysMore(INIT, first + [Configure(2, WIDE)] + [ACK], s2, GoClientless);
    PlaysMore(INIT, first + [Configure(2, WIDE)] + [ACK] + [GoClientless], s3, Configure(3, WIDE));
  }

  predicate Holding(s: Lock) {
    s.nested && Clean(s) && s.size == WIDE && s.newest == 2 && s.hasPending && s.pendingSerial == 2 && s.hasBuffer
    && s.acks == [1] && s.received == map[1 := WIDE, 2 := WIDE]
  }

  lemma HeldBack(s: Lock)
    requires s == FirstCommitted(WIDE, PLAIN_VIEW)
    ensures var e := Configure(2, WIDE);
            var s1 := Step(s, e);
            && Legal(s, e) && !LosesFirst(s, e) && Clean(s1) && Holding(Step(s1, ACK))
  {
    hide Updated, ShownSize;
    var s1 := Step(s, Configure(2, WIDE));
    var pair := SerialPair(FIRST_CLIENT_SERIAL + 2, 2, WIDE, false);
    assert [] + [pair] == [pair];
    assert s1.plugin.value.table == [pair];
    assert Find([pair], FIRST_CLIENT_SERIAL + 2) == 0;
    assert s1.received == map[1 := WIDE, 2 := WIDE];
  }

  lemma HeldGoes(s: Lock)
    requires Holding(s)
    ensures var s1 := Step(s, GoClientless);
            var e := Configure(3, WIDE);
            var t := Step(s1, e);
            && Clean(s1) && Legal(s1, e) && !LosesFirst(s1, e) && Clean(t)
            && t.acks == [1, 3] && t.hasPending && t.pendingSerial == 2 && !t.hasNewer
  {
    hide ShownSize, FallbackState;
    assert [1] + [3] == [1, 3];
  }
}
