/** Pausing hidden clients: frame callbacks that stay outstanding upstream mean a dark output, and a
    client all of whose outputs are dark has its process group stopped. */
module Pausing {
  import opened Options
  import opened Clocks

  type Out = nat
  type Client = nat

  // ----- what an output remembers

  /** `frame_pending`, `frame_pending_since` and `frame_last_done` of a `swaylock_surface`. */
  datatype Watch = Watch(pending: bool, since: Timespec, lastDone: Timespec)

  const UNSEEN := Watch(false, ZERO, ZERO)

  /** A commit that requests an upstream callback: only the first one outstanding starts the clock. */
  function NoteFrame(w: Watch, t: Timespec): Watch {
    if w.pending then w else w.(pending := true, since := t)
  }

  function NoteDone(w: Watch, t: Timespec): Watch {
    w.(pending := false, lastDone := t)
  }

  /** One output's part in `client_is_hidden()`, which also reads the clock once for it. */
  predicate Stale(w: Watch, now: Timespec, timeout: int) {
    w.pending && MsSince(now, w.since) >= timeout
  }

  predicate Visible(w: Watch, now: Timespec, timeout: int) {
    if w.pending then MsSince(now, w.since) < timeout
    else w.lastDone.sec != 0 && MsSince(now, w.lastDone) < timeout
  }

  // ----- process groups

  datatype Signal = Stop | Continue

  /** `sent` lists the signals that `kill` delivered to the group. */
  datatype Group = Group(pid: int, paused: bool, sent: seq<Signal>)

  /** `set_client_paused()`; `ok` is whether `kill` succeeds. */
  function SetPaused(g: Group, paused: bool, ok: bool): Group {
    if g.pid <= 0 || g.paused == paused || !ok then g
    else g.(paused := paused, sent := g.sent + [if paused then Stop else Continue])
  }

  predicate Alternates(sent: seq<Signal>) {
    forall i :: 0 <= i < |sent| ==> sent[i] == if i % 2 == 0 then Stop else Continue
  }

  predicate Stopped(sent: seq<Signal>) {
    sent != [] && sent[|sent| - 1] == Stop
  }

  predicate GroupOk(g: Group) {
    Alternates(g.sent) && (g.paused <==> Stopped(g.sent))
  }

  lemma SetPausedOk(g: Group, paused: bool, ok: bool)
    requires GroupOk(g)
    ensures GroupOk(SetPaused(g, paused, ok))
    ensures g.pid > 0 && ok ==> SetPaused(g, paused, ok).paused == paused
    ensures SetPaused(g, paused, ok).pid == g.pid
  {
    var h := SetPaused(g, paused, ok);
    if h != g {
      assert g.paused <==> |g.sent| % 2 == 1;
    }
  }

  // ----- the system and its runs

  /** `owner` is `client_for_surface()`; `freed` keeps the groups whose records are gone. */
  datatype Sys = Sys(owner: map<Out, Client>, watch: map<Out, Watch>, groups: map<Client, Group>,
                     freed: map<Client, Group>)

  const EMPTY := Sys(map[], map[], map[], map[])

  datatype Act =
    | Frame(o: Out)
    | Done(o: Out, ok: bool)
    | Assign(o: Out, to: Option<Client>)
    | Spawn(c: Client, pid: int)
    | Check(at: Out -> Timespec, fails: set<Client>)
    | Cleanup(c: Client, ok: bool)
    | ResumeAll(fails: set<Client>)

  datatype Event = Event(t: Timespec, act: Act)

  function Look(watch: map<Out, Watch>, o: Out): Watch {
    if o in watch then watch[o] else UNSEEN
  }

  function Outputs(s: Sys, c: Client): set<Out> {
    set o | o in s.owner && s.owner[o] == c
  }

  /** `client_is_hidden()`: some output is stale and none is visible. */
  predicate Hidden(s: Sys, c: Client, at: Out -> Timespec, timeout: int) {
    && (exists o :: o in Outputs(s, c) && Stale(Look(s.watch, o), at(o), timeout))
    && (forall o :: o in Outputs(s, c) ==> !Visible(Look(s.watch, o), at(o), timeout))
  }

  function Step(s: Sys, e: Event, timeout: int): Sys {
    match e.act
    case Frame(o) => s.(watch := s.watch[o := NoteFrame(Look(s.watch, o), e.t)])
    case Done(o, ok) =>
      var s' := s.(watch := s.watch[o := NoteDone(Look(s.watch, o), e.t)]);
      if o in s.owner && s.owner[o] in s.groups then
        s'.(groups := s.groups[s.owner[o] := SetPaused(s.groups[s.owner[o]], false, ok)])
      else s'
    case Assign(o, c) => s.(owner := if c.Some? then s.owner[o := c.value] else s.owner - {o})
    case Spawn(c, pid) =>
      if c in s.groups || c in s.freed then s else s.(groups := s.groups[c := Group(pid, false, [])])
    case Check(at, fails) =>
      s.(groups := map c | c in s.groups :: SetPaused(s.groups[c], Hidden(s, c, at, timeout), c !in fails))
    case Cleanup(c, ok) =>
      if c !in s.groups then s
      else s.(freed := s.freed[c := SetPaused(s.groups[c], false, ok)], groups := s.groups - {c},
              owner := map o | o in s.owner && s.owner[o] != c :: s.owner[o])
    case ResumeAll(fails) => s.(groups := map c | c in s.groups :: SetPaused(s.groups[c], false, c !in fails))
  }

  function Run(events: seq<Event>, timeout: int): Sys {
    if events == [] then EMPTY else Step(Run(events[..|events| - 1], timeout), events[|events| - 1], timeout)
  }

  // ----- signal traces

  predicate GroupsOk(s: Sys) {
    && (forall c :: c in s.groups ==> GroupOk(s.groups[c]))
    && (forall c :: c in s.freed ==> GroupOk(s.freed[c]))
  }

  lemma StepGroups(s: Sys, e: Event, timeout: int)
    requires GroupsOk(s)
    ensures GroupsOk(Step(s, e, timeout))
  {
    hide Hidden, GroupOk, SetPaused;
    forall c, p, ok | c in s.groups ensures GroupOk(SetPaused(s.groups[c], p, ok)) {
      SetPausedOk(s.groups[c], p, ok);
    }
    if e.act.Spawn? {
      NewGroupOk(e.act.pid);
    }
  }

  lemma NewGroupOk(pid: int)
    ensures GroupOk(Group(pid, false, []))
  {
  }

  /** In every run, whatever `kill` does: each group's signals alternate, beginning with a stop, and the
      `paused` flag is set exactly while the last one was a stop. */
  lemma {:induction false} TracesAlternate(events: seq<Event>, timeout: int)
    ensures GroupsOk(Run(events, timeout))
  {
    if events != [] {
      TracesAlternate(events[..|events| - 1], timeout);
      StepGroups(Run(events[..|events| - 1], timeout), events[|events| - 1], timeout);
    }
  }

  /** Freeing a record leaves its group stopped exactly if it was stopped and could not be signalled. */
  lemma CleanupResumes(events: seq<Event>, timeout: int, t: Timespec, c: Client, ok: bool)
    requires c in Run(events, timeout).groups && Run(events, timeout).groups[c].pid > 0
    ensures var before, after := Run(events, timeout), Step(Run(events, timeout), Event(t, Cleanup(c, ok)), timeout);
            && c in after.freed
            && (Stopped(after.freed[c].sent) <==> Stopped(before.groups[c].sent) && !ok)
  {
    TracesAlternate(events, timeout);
    SetPausedOk(Run(events, timeout).groups[c], false, ok);
  }

  /** The exit of the main loop, and the fall to clientless mode, wake everyone that can be signalled. */
  lemma ExitResumes(events: seq<Event>, timeout: int, t: Timespec, fails: set<Client>, c: Client)
    requires c in Run(events, timeout).groups && Run(events, timeout).groups[c].pid > 0
    ensures var before, after := Run(events, timeout), Step(Run(events, timeout), Event(t, ResumeAll(fails)), timeout);
            && c in after.groups
            && (Stopped(after.groups[c].sent) <==> Stopped(before.groups[c].sent) && c in fails)
  {
    TracesAlternate(events, timeout);
    SetPausedOk(Run(events, timeout).groups[c], false, c !in fails);
  }

  /** Every clean-up of the run managed to signal its group. */
  predicate CleanupsSucceed(events: seq<Event>) {
    forall k :: 0 <= k < |events| ==>
      (events[k].act.Cleanup? ==> events[k].act.ok) && (events[k].act.Spawn? ==> events[k].act.pid > 0)
  }

  predicate PidsPositive(s: Sys) {
    forall c :: c in s.groups ==> s.groups[c].pid > 0
  }

  lemma RunLast(events: seq<Event>, timeout: int)
    requires events != []
    ensures Run(events, timeout) == Step(Run(events[..|events| - 1], timeout), events[|events| - 1], timeout)
  {
  }

  predicate FreedAwake(s: Sys) {
    forall c :: c in s.freed ==> !Stopped(s.freed[c].sent)
  }

  lemma ResumedAwake(g: Group)
    requires GroupOk(g) && g.pid > 0
    ensures !Stopped(SetPaused(g, false, true).sent)
  {
    SetPausedOk(g, false, true);
  }

  lemma StepFreed(s: Sys, e: Event, timeout: int)
    requires GroupsOk(s) && PidsPositive(s) && FreedAwake(s)
    requires (e.act.Cleanup? ==> e.act.ok) && (e.act.Spawn? ==> e.act.pid > 0)
    ensures PidsPositive(Step(s, e, timeout)) && FreedAwake(Step(s, e, timeout))
  {
    hide Hidden, GroupOk, SetPaused, Stopped;
    forall c, p, ok | c in s.groups
      ensures SetPaused(s.groups[c], p, ok).pid == s.groups[c].pid
      ensures !p && ok ==> !Stopped(SetPaused(s.groups[c], p, ok).sent)
    {
      SetPausedOk(s.groups[c], p, ok);
      if !p && ok { ResumedAwake(s.groups[c]); }
    }
  }

  /** Unless a clean-up fails to signal, no group is left stopped once its record is freed. */
  lemma {:induction false} NoneLeftStopped(events: seq<Event>, timeout: int)
    requires CleanupsSucceed(events)
    ensures PidsPositive(Run(events, timeout)) && FreedAwake(Run(events, timeout))
  {
    if events != [] {
      NoneLeftStopped(events[..|events| - 1], timeout);
      TracesAlternate(events[..|events| - 1], timeout);
      StepFreed(Run(events[..|events| - 1], timeout), events[|events| - 1], timeout);
      RunLast(events, timeout);
    }
  }

  // ----- what the remembered times mean

  predicate DoneAt(events: seq<Event>, o: Out, k: int) {
    0 <= k < |events| && events[k].act.Done? && events[k].act.o == o
  }

  predicate FrameAt(events: seq<Event>, o: Out, k: int) {
    0 <= k < |events| && events[k].act.Frame? && events[k].act.o == o
  }

  /** A callback was requested at step `k`, and nothing has completed on the output since. (The record is
      per output: a completion of any batch clears it.) */
  predicate Waiting(events: seq<Event>, o: Out, k: int) {
    FrameAt(events, o, k) && forall j :: k < j < |events| ==> !DoneAt(events, o, j)
  }

  /** What `watch` records of a history: the oldest request since the last completion, and that completion. */
  ghost predicate Records(w: Watch, events: seq<Event>, o: Out) {
    && (w.pending <==> exists k :: Waiting(events, o, k))
    && (w.pending ==>
          exists k :: Waiting(events, o, k) && events[k].t == w.since && forall j :: Waiting(events, o, j) ==> k <= j)
    && ((w.lastDone == ZERO && forall k :: !DoneAt(events, o, k))
        || exists k :: DoneAt(events, o, k) && events[k].t == w.lastDone && forall j :: DoneAt(events, o, j) ==> j <= k)
  }

  lemma WaitingMore(init: seq<Event>, e: Event, o: Out, k: int)
    ensures Waiting(init + [e], o, k) <==>
            !(e.act.Done? && e.act.o == o)
            && (Waiting(init, o, k) || (k == |init| && e.act.Frame? && e.act.o == o))
    ensures DoneAt(init + [e], o, k) <==> DoneAt(init, o, k) || (k == |init| && e.act.Done? && e.act.o == o)
  {
    var events := init + [e];
    assert forall j :: DoneAt(events, o, j) <==> DoneAt(init, o, j) || (j == |init| && e.act.Done? && e.act.o == o);
    if Waiting(events, o, k) {
      assert !DoneAt(events, o, |init|) || k == |init|;
    }
  }

  lemma StepLook(s: Sys, e: Event, o: Out, timeout: int)
    ensures Look(Step(s, e, timeout).watch, o) ==
            var w := Look(s.watch, o);
            if e.act.Frame? && e.act.o == o then NoteFrame(w, e.t)
            else if e.act.Done? && e.act.o == o then NoteDone(w, e.t)
            else w
  {
    hide Hidden, SetPaused;
  }

  lemma RecordsStep(w: Watch, init: seq<Event>, e: Event, o: Out)
    requires Records(w, init, o)
    ensures Records(if e.act.Frame? && e.act.o == o then NoteFrame(w, e.t)
                    else if e.act.Done? && e.act.o == o then NoteDone(w, e.t)
                    else w, init + [e], o)
  {
    var events := init + [e];
    forall k {
      WaitingMore(init, e, o, k);
    }
    assert forall k :: 0 <= k < |init| ==> events[k] == init[k];
    assert events[|init|] == e;
    assert forall k :: (Waiting(init, o, k) || DoneAt(init, o, k)) ==> 0 <= k < |init|;
    hide Waiting, DoneAt;
    if e.act.Frame? && e.act.o == o {
      assert Waiting(events, o, |init|);
    } else if e.act.Done? && e.act.o == o {
      assert DoneAt(events, o, |init|);
    }
  }

  lemma {:induction false} WatchRecords(events: seq<Event>, o: Out, timeout: int)
    ensures Records(Look(Run(events, timeout).watch, o), events, o)
  {
    if events != [] {
      var init, e := events[..|events| - 1], events[|events| - 1];
      WatchRecords(init, o, timeout);
      RecordsStep(Look(Run(init, timeout).watch, o), init, e, o);
      StepLook(Run(init, timeout), e, o, timeout);
      RunLast(events, timeout);
      assert events == init + [e];
    }
  }

  // ----- when a client is hidden

  /** Times never go back, and are as clock_gettime() returns them. */
  predicate Timed(events: seq<Event>) {
    && (forall k :: 0 <= k < |events| ==> Normal(events[k].t) && events[k].t.sec >= 0)
    && (forall j, k :: 0 <= j <= k < |events| ==> Ns(events[j].t) <= Ns(events[k].t))
  }

  /** For one output, in terms of the history alone. */
  lemma StaleMeans(w: Watch, events: seq<Event>, o: Out, now: Timespec, timeout: int)
    requires Timed(events) && Records(w, events, o)
    ensures Stale(w, now, timeout) <==> exists k :: Waiting(events, o, k) && MsSince(now, events[k].t) >= timeout
  {
    if w.pending {
      var first :| Waiting(events, o, first) && events[first].t == w.since
                   && forall j :: Waiting(events, o, j) ==> first <= j;
      forall k | Waiting(events, o, k) ensures MsSince(now, events[k].t) <= MsSince(now, w.since) {
        MsSinceAntitone(now, events[k].t, w.since);
      }
    }
  }

  /** It completed a callback less than `timeout` ago, completions in the clock's first second apart. */
  ghost predicate DoneRecently(events: seq<Event>, o: Out, now: Timespec, timeout: int) {
    exists k :: DoneAt(events, o, k) && events[k].t.sec != 0 && MsSince(now, events[k].t) < timeout
  }

  ghost predicate WaitedLong(events: seq<Event>, o: Out, now: Timespec, timeout: int) {
    exists k :: Waiting(events, o, k) && MsSince(now, events[k].t) >= timeout
  }

  ghost predicate WaitsAtAll(events: seq<Event>, o: Out) {
    exists k :: Waiting(events, o, k)
  }

  lemma LastDoneMeans(w: Watch, events: seq<Event>, o: Out, now: Timespec, timeout: int)
    requires Timed(events) && Records(w, events, o)
    ensures w.lastDone.sec != 0 && MsSince(now, w.lastDone) < timeout <==> DoneRecently(events, o, now, timeout)
  {
    if k :| DoneAt(events, o, k) {
      var last :| DoneAt(events, o, last) && events[last].t == w.lastDone
                  && forall j :: DoneAt(events, o, j) ==> j <= last;
      forall j | DoneAt(events, o, j)
        ensures MsSince(now, events[j].t) >= MsSince(now, w.lastDone) && (events[j].t.sec != 0 ==> w.lastDone.sec != 0)
      {
        MsSinceAntitone(now, w.lastDone, events[j].t);
      }
    }
  }

  lemma DoneBeforeWait(w: Watch, events: seq<Event>, o: Out, now: Timespec, timeout: int)
    requires Timed(events) && Records(w, events, o) && Stale(w, now, timeout)
    ensures !DoneRecently(events, o, now, timeout)
  {
    var first :| Waiting(events, o, first) && events[first].t == w.since;
    forall j | DoneAt(events, o, j) ensures MsSince(now, events[j].t) >= timeout {
      assert j <= first;
      MsSinceAntitone(now, w.since, events[j].t);
    }
  }

  lemma VisibleMeans(w: Watch, events: seq<Event>, o: Out, now: Timespec, timeout: int)
    requires Timed(events) && Records(w, events, o)
    ensures Visible(w, now, timeout) <==>
            (if WaitsAtAll(events, o) then !WaitedLong(events, o, now, timeout)
             else DoneRecently(events, o, now, timeout))
  {
    StaleMeans(w, events, o, now, timeout);
    LastDoneMeans(w, events, o, now, timeout);
  }

  /** A client counts as hidden exactly if one of its outputs has had a callback outstanding for the
      whole time-out, none completed one within it, and every output that waits has waited that long. */
  lemma HiddenExactly(events: seq<Event>, c: Client, at: Out -> Timespec, timeout: int)
    requires Timed(events)
    ensures var s := Run(events, timeout);
            Hidden(s, c, at, timeout) <==>
            && (exists o :: o in Outputs(s, c) && WaitedLong(events, o, at(o), timeout))
            && (forall o :: o in Outputs(s, c) ==> !DoneRecently(events, o, at(o), timeout))
            && (forall o :: o in Outputs(s, c) && WaitsAtAll(events, o) ==> WaitedLong(events, o, at(o), timeout))
  {
    var s := Run(events, timeout);
    forall o
      ensures Stale(Look(s.watch, o), at(o), timeout) <==> WaitedLong(events, o, at(o), timeout)
      ensures Visible(Look(s.watch, o), at(o), timeout) <==>
              (if WaitsAtAll(events, o) then !WaitedLong(events, o, at(o), timeout)
               else DoneRecently(events, o, at(o), timeout))
      ensures WaitedLong(events, o, at(o), timeout) ==> !DoneRecently(events, o, at(o), timeout)
    {
      WatchRecords(events, o, timeout);
      StaleMeans(Look(s.watch, o), events, o, at(o), timeout);
      VisibleMeans(Look(s.watch, o), events, o, at(o), timeout);
      if Stale(Look(s.watch, o), at(o), timeout) {
        DoneBeforeWait(Look(s.watch, o), events, o, at(o), timeout);
      }
    }
    hide Stale, Visible, WaitedLong, WaitsAtAll, DoneRecently, Run, Look;
  }

  // ----- a completion in the first second of the clock

  function Ms(sec: int, ms: nat): Timespec {
    Timespec(sec, ms * NANOS_PER_MS)
  }

  /** A client with two outputs: one waits from the start, the other waits and is completed 800 ms later. */
  function OneCompleted(sec: int): seq<Event> {
    [Event(Ms(sec, 0), Assign(0, Some(7)))] + [Event(Ms(sec, 0), Assign(1, Some(7)))] + [Event(Ms(sec, 0), Frame(0))]
    + [Event(Ms(sec, 0), Frame(1))] + [Event(Ms(sec, 800), Done(1, true))]
  }

  lemma RunSnoc(events: seq<Event>, e: Event, timeout: int)
    ensures Run(events + [e], timeout) == Step(Run(events, timeout), e, timeout)
  {
    assert (events + [e])[..|events|] == events;
    RunLast(events + [e], timeout);
  }

  lemma OneCompletedRun(sec: int, timeout: int)
    ensures var s := Run(OneCompleted(sec), timeout);
            && s.owner == map[0 := 7, 1 := 7]
            && s.watch == map[0 := Watch(true, Ms(sec, 0), ZERO), 1 := Watch(false, Ms(sec, 0), Ms(sec, 800))]
  {
    var e0, e1, e2 := Event(Ms(sec, 0), Assign(0, Some(7))), Event(Ms(sec, 0), Assign(1, Some(7))), Event(Ms(sec, 0), Frame(0));
    var e3, e4 := Event(Ms(sec, 0), Frame(1)), Event(Ms(sec, 800), Done(1, true));
    RunSnoc([], e0, timeout);
    assert [] + [e0] == [e0];
    RunSnoc([e0], e1, timeout);
    RunSnoc([e0] + [e1], e2, timeout);
    RunSnoc([e0] + [e1] + [e2], e3, timeout);
    RunSnoc([e0] + [e1] + [e2] + [e3], e4, timeout);
    assert Run([], timeout) == EMPTY;
    hide Run;
  }

  /** The check 100 ms after that completion, with a time-out of 500 ms: in the first second of the clock it
      finds the client hidden, at any later time it does not. */
  lemma FirstSecondMissed(sec: int)
    requires sec >= 0
    ensures var events, at := OneCompleted(sec), (o: Out) => Ms(sec, 900);
            && Timed(events) && DoneAt(events, 1, 4) && MsSince(at(1), events[4].t) == 100
            && 1 in Outputs(Run(events, 500), 7)
            && (Hidden(Run(events, 500), 7, at, 500) <==> sec == 0)
  {
    OneCompletedRun(sec, 500);
    var events := OneCompleted(sec);
    assert events[4] == Event(Ms(sec, 800), Done(1, true));
    var s := Run(events, 500);
    hide Run;
    assert Outputs(s, 7) == {0, 1};
    assert Look(s.watch, 0).pending && MsSince(Ms(sec, 900), Look(s.watch, 0).since) == 900;
    assert !Look(s.watch, 1).pending && MsSince(Ms(sec, 900), Look(s.watch, 1).lastDone) == 100;
  }

  lemma NewlyPaused(s: Sys, e: Event, timeout: int, c: Client)
    requires var s' := Step(s, e, timeout);
             c in s.groups && c in s'.groups && !s.groups[c].paused && s'.groups[c].paused
    ensures e.act.Check? && Hidden(s, c, e.act.at, timeout)
  {
    hide Hidden;
  }

  /** `paused` is turned on only by a check that found the client hidden. */
  lemma StopJustified(events: seq<Event>, e: Event, timeout: int, c: Client)
    requires Timed(events)
    requires var s := Run(events, timeout);
             var s' := Step(s, e, timeout);
             c in s.groups && c in s'.groups && !s.groups[c].paused && s'.groups[c].paused
    ensures e.act.Check?
    ensures var at := e.act.at;
            && (exists o :: o in Outputs(Run(events, timeout), c) && WaitedLong(events, o, at(o), timeout))
            && (forall o :: o in Outputs(Run(events, timeout), c) ==> !DoneRecently(events, o, at(o), timeout))
  {
    hide WaitedLong, DoneRecently, WaitsAtAll, Hidden, Run, Timed, Outputs;
    NewlyPaused(Run(events, timeout), e, timeout, c);
    HiddenExactly(events, c, e.act.at, timeout);
  }

  /** The verdict of a check, told from the history of the client's outputs. */
  ghost predicate SeenHidden(events: seq<Event>, c: Client, at: Out -> Timespec, timeout: int) {
    && (exists o :: o in Outputs(Run(events, timeout), c) && WaitedLong(events, o, at(o), timeout))
    && (forall o :: o in Outputs(Run(events, timeout), c) ==> !DoneRecently(events, o, at(o), timeout))
    && (forall o :: o in Outputs(Run(events, timeout), c) && WaitsAtAll(events, o) ==> WaitedLong(events, o, at(o), timeout))
  }

  lemma PausedMeans(g: Group, paused: bool, ok: bool)
    requires GroupOk(g)
    ensures Stopped(SetPaused(g, paused, ok).sent) <==> if g.pid > 0 && ok then paused else Stopped(g.sent)
    ensures SetPaused(g, paused, ok).pid == g.pid
  {
    SetPausedOk(g, paused, ok);
  }

  predicate OwnsCompleted(s: Sys, e: Event, c: Client) {
    e.act.Done? && e.act.o in s.owner && s.owner[e.act.o] == c
  }

  /** What one event does to a group that is there before and after it. */
  lemma StepGroup(s: Sys, e: Event, timeout: int, c: Client)
    requires c in s.groups && c in Step(s, e, timeout).groups
    ensures Step(s, e, timeout).groups[c] ==
            if e.act.Check? then SetPaused(s.groups[c], Hidden(s, c, e.act.at, timeout), c !in e.act.fails)
            else if OwnsCompleted(s, e, c) then SetPaused(s.groups[c], false, e.act.ok)
            else if e.act.ResumeAll? then SetPaused(s.groups[c], false, c !in e.act.fails)
            else s.groups[c]
  {
    hide Hidden, SetPaused;
  }

  /** A group is stopped by a check that finds its client hidden, woken by one that does not, by a completed frame of
      an output it owns and when all are woken, each unless the signal fails; and by nothing else. */
  lemma StopsExactly(events: seq<Event>, e: Event, timeout: int, c: Client)
    requires Timed(events)
    requires c in Run(events, timeout).groups && c in Run(events + [e], timeout).groups
    ensures var s, s' := Run(events, timeout), Run(events + [e], timeout);
            var was, pid := Stopped(s.groups[c].sent), s.groups[c].pid;
            Stopped(s'.groups[c].sent) <==>
            if e.act.Check? && pid > 0 && c !in e.act.fails then SeenHidden(events, c, e.act.at, timeout)
            else if OwnsCompleted(s, e, c) && pid > 0 && e.act.ok then false
            else if e.act.ResumeAll? && pid > 0 && c !in e.act.fails then false
            else was
  {
    RunSnoc(events, e, timeout);
    TracesAlternate(events, timeout);
    hide Run, Timed, Stopped, SetPaused, Hidden, WaitedLong, DoneRecently, WaitsAtAll, Outputs, Step, GroupOk;
    var s := Run(events, timeout);
    StepGroup(s, e, timeout, c);
    assert GroupOk(s.groups[c]);
    PausedMeans(s.groups[c], false, true);
    PausedMeans(s.groups[c], false, false);
    if e.act.Check? {
      HiddenExactly(events, c, e.act.at, timeout);
      PausedMeans(s.groups[c], Hidden(s, c, e.act.at, timeout), c !in e.act.fails);
    }
  }

  // ----- who owns an output, and which groups there are

  datatype Status = Unknown | Running(pid: int) | Freed

  function StatusTold(events: seq<Event>, c: Client): Status {
    if events == [] then Unknown
    else
      var before := StatusTold(events[..|events| - 1], c);
      match events[|events| - 1].act
      case Spawn(x, pid) => if x == c && before.Unknown? then Running(pid) else before
      case Cleanup(x, _) => if x == c && before.Running? then Freed else before
      case _ => before
  }

  /** The last assignment, unless its client has been cleaned up since. */
  function OwnerTold(events: seq<Event>, o: Out): Option<Client> {
    if events == [] then None
    else
      var init := events[..|events| - 1];
      var before := OwnerTold(init, o);
      match events[|events| - 1].act
      case Assign(x, to) => if x == o then to else before
      case Cleanup(c, _) => if StatusTold(init, c).Running? && before == Some(c) then None else before
      case _ => before
  }

  ghost predicate OwnersTold(s: Sys, events: seq<Event>) {
    && (forall o: Out :: OwnerTold(events, o) == if o in s.owner then Some(s.owner[o]) else None)
    && (forall c: Client :: StatusTold(events, c).Running? <==> c in s.groups)
    && (forall c: Client :: c in s.groups ==> s.groups[c].pid == StatusTold(events, c).pid)
    && (forall c: Client :: StatusTold(events, c).Freed? <==> c in s.freed && c !in s.groups)
  }

  lemma ToldMore(events: seq<Event>, e: Event, o: Out, c: Client)
    ensures StatusTold(events + [e], c) ==
            var before := StatusTold(events, c);
            if e.act.Spawn? && e.act.c == c && before.Unknown? then Running(e.act.pid)
            else if e.act.Cleanup? && e.act.c == c && before.Running? then Freed
            else before
    ensures OwnerTold(events + [e], o) ==
            var before := OwnerTold(events, o);
            if e.act.Assign? && e.act.o == o then e.act.to
            else if e.act.Cleanup? && StatusTold(events, e.act.c).Running? && before == Some(e.act.c) then None
            else before
  {
    assert (events + [e])[..|events|] == events;
  }

  lemma PidKept(g: Group, paused: bool, ok: bool)
    ensures SetPaused(g, paused, ok).pid == g.pid
  {
  }

  predicate Spawns(s: Sys, e: Event, c: Client) {
    e.act.Spawn? && e.act.c == c && c !in s.groups && c !in s.freed
  }

  predicate CleansUp(s: Sys, e: Event, c: Client) {
    e.act.Cleanup? && e.act.c == c && c in s.groups
  }

  lemma StepRecords(s: Sys, e: Event, timeout: int, c: Client)
    ensures var s' := Step(s, e, timeout);
            && (c in s'.groups <==> Spawns(s, e, c) || (c in s.groups && !CleansUp(s, e, c)))
            && (c in s'.freed <==> c in s.freed || CleansUp(s, e, c))
            && (c in s'.groups ==> s'.groups[c].pid == if c in s.groups then s.groups[c].pid else e.act.pid)
  {
    if c in s.groups {
      forall paused: bool, ok: bool ensures SetPaused(s.groups[c], paused, ok).pid == s.groups[c].pid {
        PidKept(s.groups[c], paused, ok);
      }
    }
    hide Hidden, SetPaused, NoteFrame, NoteDone, Look;
  }

  lemma StepOwner(s: Sys, e: Event, timeout: int, o: Out)
    ensures var s' := Step(s, e, timeout);
            (if o in s'.owner then Some(s'.owner[o]) else None) ==
            if e.act.Assign? && e.act.o == o then e.act.to
            else if e.act.Cleanup? && o in s.owner && CleansUp(s, e, s.owner[o]) then None
            else if o in s.owner then Some(s.owner[o]) else None
  {
    hide Hidden, SetPaused, NoteFrame, NoteDone, Look;
  }

  lemma StepOwners(s: Sys, events: seq<Event>, e: Event, timeout: int)
    requires OwnersTold(s, events)
    ensures OwnersTold(Step(s, e, timeout), events + [e])
  {
    hide Step, OwnerTold, StatusTold;
    var s', told := Step(s, e, timeout), events + [e];
    forall o: Out ensures OwnerTold(told, o) == if o in s'.owner then Some(s'.owner[o]) else None {
      ToldMore(events, e, o, 0);
      StepOwner(s, e, timeout, o);
    }
    forall c: Client
      ensures StatusTold(told, c).Running? <==> c in s'.groups
      ensures c in s'.groups ==> s'.groups[c].pid == StatusTold(told, c).pid
      ensures StatusTold(told, c).Freed? <==> c in s'.freed && c !in s'.groups
    {
      ToldMore(events, e, 0, c);
      StepRecords(s, e, timeout, c);
    }
  }

  /** In every run an output belongs to the client it was assigned last, until that is cleaned up, and a client has a
      group from its spawn to its clean-up. */
  lemma {:induction false} RunOwners(events: seq<Event>, timeout: int)
    ensures OwnersTold(Run(events, timeout), events)
  {
    if events != [] {
      var init, e := events[..|events| - 1], events[|events| - 1];
      RunOwners(init, timeout);
      StepOwners(Run(init, timeout), init, e, timeout);
      RunLast(events, timeout);
      assert events == init + [e];
      hide OwnersTold, Step;
    }
  }

  /** The two halves in nanoseconds: truncation costs less than a millisecond. */
  lemma WaitedNs(events: seq<Event>, o: Out, now: Timespec, timeout: int)
    ensures WaitedLong(events, o, now, timeout) ==>
              exists k :: Waiting(events, o, k) && Ns(now) - Ns(events[k].t) > (timeout - 1) * NANOS_PER_MS
    ensures (exists k :: Waiting(events, o, k) && Ns(now) - Ns(events[k].t) >= timeout * NANOS_PER_MS) ==>
              WaitedLong(events, o, now, timeout)
  {
    forall k | 0 <= k < |events|
      ensures MsSince(now, events[k].t) >= timeout ==> Ns(now) - Ns(events[k].t) > (timeout - 1) * NANOS_PER_MS
      ensures Ns(now) - Ns(events[k].t) >= timeout * NANOS_PER_MS ==> MsSince(now, events[k].t) >= timeout
    {
      MsSinceBounds(now, events[k].t);
    }
    assert forall k :: Waiting(events, o, k) ==> 0 <= k < |events|;
    hide MsSince, Ns, Waiting;
  }

  /** Events that tell nothing new about a client: no completion on its outputs, no first request on one
      that does not wait, no change of ownership. */
  predicate Quiet(s: Sys, e: Event, c: Client) {
    match e.act
    case Frame(o) => o in Outputs(s, c) ==> Look(s.watch, o).pending
    case Done(o, _) => o !in Outputs(s, c)
    case Assign(o, d) => (o in Outputs(s, c) <==> d == Some(c))
    case Cleanup(d, _) => d != c
    case _ => true
  }

  predicate AllQuiet(events: seq<Event>, from: nat, c: Client, timeout: int) {
    forall k :: from <= k < |events| ==> Quiet(Run(events[..k], timeout), events[k], c)
  }

  lemma QuietStep(s: Sys, e: Event, c: Client, timeout: int)
    requires Quiet(s, e, c)
    ensures Outputs(Step(s, e, timeout), c) == Outputs(s, c)
    ensures forall o :: o in Outputs(s, c) ==> Look(Step(s, e, timeout).watch, o) == Look(s.watch, o)
  {
    hide Hidden, SetPaused;
  }

  lemma {:induction false} QuietRun(events: seq<Event>, from: nat, c: Client, timeout: int)
    requires from <= |events| && AllQuiet(events, from, c, timeout)
    ensures var s, s' := Run(events[..from], timeout), Run(events, timeout);
            && Outputs(s', c) == Outputs(s, c)
            && (forall o :: o in Outputs(s, c) ==> Look(s'.watch, o) == Look(s.watch, o))
    decreases |events|
  {
    if from == |events| {
      assert events[..from] == events;
    } else {
      var n := |events| - 1;
      var init := events[..n];
      assert init[..from] == events[..from];
      assert forall k :: from <= k < n ==> init[..k] == events[..k];
      QuietRun(init, from, c, timeout);
      assert Quiet(Run(events[..n], timeout), events[n], c);
      QuietStep(Run(init, timeout), events[n], c, timeout);
      RunLast(events, timeout);
      hide Step, Look, Outputs, Run;
    }
  }

  /** Once hidden, a client is found hidden by every later check until something new happens on one of
      its outputs: this is where `ms_since` has to be monotone. */
  lemma StaysHidden(events: seq<Event>, from: nat, c: Client, at: Out -> Timespec, later: Out -> Timespec, timeout: int)
    requires from <= |events| && AllQuiet(events, from, c, timeout)
    requires Hidden(Run(events[..from], timeout), c, at, timeout)
    requires forall o :: Normal(at(o)) && Normal(later(o)) && Ns(at(o)) <= Ns(later(o))
    ensures Hidden(Run(events, timeout), c, later, timeout)
  {
    QuietRun(events, from, c, timeout);
    var s, s' := Run(events[..from], timeout), Run(events, timeout);
    forall o | o in Outputs(s, c)
      ensures Stale(Look(s.watch, o), at(o), timeout) ==> Stale(Look(s'.watch, o), later(o), timeout)
      ensures !Visible(Look(s.watch, o), at(o), timeout) ==> !Visible(Look(s'.watch, o), later(o), timeout)
    {
      var w := Look(s.watch, o);
      MsSinceMonotone(at(o), later(o), w.since);
      MsSinceMonotone(at(o), later(o), w.lastDone);
    }
    hide Stale, Visible, Look, Run;
  }

  /** A completion on any of its outputs resumes a client at once, unless the signal fails. */
  lemma DoneResumes(events: seq<Event>, timeout: int, t: Timespec, o: Out, ok: bool)
    requires var s := Run(events, timeout); o in s.owner && s.owner[o] in s.groups && s.groups[s.owner[o]].pid > 0
    ensures var s := Run(events, timeout);
            var s', c := Step(s, Event(t, Done(o, ok)), timeout), s.owner[o];
            && c in s'.groups
            && (Stopped(s'.groups[c].sent) <==> Stopped(s.groups[c].sent) && !ok)
            && (t.sec != 0 && timeout > 0 ==> !Hidden(s', c, _ => t, timeout))
  {
    var s := Run(events, timeout);
    TracesAlternate(events, timeout);
    SetPausedOk(s.groups[s.owner[o]], false, ok);
    var s' := Step(s, Event(t, Done(o, ok)), timeout);
    assert Look(s'.watch, o) == NoteDone(Look(s.watch, o), t);
    assert o in Outputs(s', s.owner[o]);
  }
}
