/** File descriptors of the event loop: the `fds` array that poll() reads and the `fd_events` list of
    callbacks have to stay aligned, index by index, while callbacks add and remove descriptors. */
module FdLoops {
  import opened Options

  const POLL_ERR: bv16 := 0x08
  const POLL_HUP: bv16 := 0x10

  /** A `struct pollfd`. */
  datatype Slot = Slot(fd: int, mask: bv16, revents: bv16)

  /** A `struct loop_fd_event`; `id` stands for its callback and data. */
  datatype Entry = Entry(id: nat, removed: bool)

  datatype Event = Registered(id: nat, fd: int, mask: bv16) | Unregistered(id: nat) | Called(id: nat, fd: int, revents: bv16)

  datatype Loop = Loop(slots: seq<Slot>, entries: seq<Entry>, next: nat, trace: seq<Event>)

  const EMPTY := Loop([], [], 0, [])

  /** Hang-ups and errors are delivered whatever the mask. */
  predicate Ready(s: Slot) {
    s.revents & (s.mask | POLL_HUP | POLL_ERR) != 0
  }

  // ----- operations

  function AddFd(l: Loop, fd: int, mask: bv16): Loop {
    Loop(l.slots + [Slot(fd, mask, 0)], l.entries + [Entry(l.next, false)], l.next + 1,
         l.trace + [Registered(l.next, fd, mask)])
  }

  function FindFd(slots: seq<Slot>, fd: int): (i: nat)
    ensures i <= |slots| && (i < |slots| ==> slots[i].fd == fd)
    ensures forall k :: 0 <= k < i ==> slots[k].fd != fd
  {
    if slots == [] || slots[0].fd == fd then 0 else 1 + FindFd(slots[1..], fd)
  }

  /** `loop_remove_fd()` marks the first entry with that descriptor, marked already or not. */
  function RemoveFd(l: Loop, fd: int): Loop
    requires |l.slots| == |l.entries|
  {
    var i := FindFd(l.slots, fd);
    if i == |l.slots| then l
    else l.(entries := l.entries[i := l.entries[i].(removed := true)], trace := l.trace + [Unregistered(l.entries[i].id)])
  }

  datatype Op = Add(fd: int, mask: bv16) | Remove(fd: int)

  function DoOp(l: Loop, op: Op): (l': Loop)
    requires |l.slots| == |l.entries|
    ensures |l'.slots| == |l'.entries| >= |l.entries|
  {
    match op
    case Add(fd, mask) => AddFd(l, fd, mask)
    case Remove(fd) => RemoveFd(l, fd)
  }

  function DoOps(l: Loop, ops: seq<Op>): (l': Loop)
    requires |l.slots| == |l.entries|
    ensures |l'.slots| == |l'.entries| >= |l.entries|
  {
    if ops == [] then l else DoOp(DoOps(l, ops[..|ops| - 1]), ops[|ops| - 1])
  }

  /** What poll() leaves in the array; interrupted by a signal, it leaves the array alone. */
  function Poll(l: Loop, revents: Option<nat -> bv16>): (l': Loop)
    ensures |l'.slots| == |l.slots|
  {
    if revents.None? then l
    else l.(slots := seq(|l.slots|, i requires 0 <= i < |l.slots| => l.slots[i].(revents := revents.value(i))))
  }

  /** One turn of the dispatch loop; `ops` is what the callback does, should it run. */
  function Visit(l: Loop, i: nat, ops: seq<Op>): (l': Loop)
    requires |l.slots| == |l.entries| && i < |l.slots|
    ensures |l'.slots| == |l'.entries| >= |l.entries|
  {
    if l.entries[i].removed || !Ready(l.slots[i]) then l
    else DoOps(l.(trace := l.trace + [Called(l.entries[i].id, l.slots[i].fd, l.slots[i].revents)]), ops)
  }

  function VisitAll(l: Loop, n: nat, scripts: nat -> seq<Op>): (l': Loop)
    requires |l.slots| == |l.entries| && n <= |l.slots|
    ensures |l'.slots| == |l'.entries| >= |l.entries|
  {
    if n == 0 then l else Visit(VisitAll(l, n - 1, scripts), n - 1, scripts(n - 1))
  }

  function KeptSlots(slots: seq<Slot>, entries: seq<Entry>): seq<Slot>
    requires |slots| == |entries|
  {
    if slots == [] then []
    else (if entries[0].removed then [] else [slots[0]]) + KeptSlots(slots[1..], entries[1..])
  }

  function KeptEntries(entries: seq<Entry>): seq<Entry> {
    if entries == [] then [] else (if entries[0].removed then [] else [entries[0]]) + KeptEntries(entries[1..])
  }

  function Compact(l: Loop): Loop
    requires |l.slots| == |l.entries|
  {
    l.(slots := KeptSlots(l.slots, l.entries), entries := KeptEntries(l.entries))
  }

  /** The descriptor half of `loop_poll()`. */
  function Pass(l: Loop, revents: Option<nat -> bv16>, scripts: nat -> seq<Op>): Loop
    requires |l.slots| == |l.entries|
  {
    Compact(VisitAll(Poll(l, revents), |l.slots|, scripts))
  }

  // ----- alignment and histories

  /** A callback runs with its own descriptor, after its registration and never after its removal. */
  predicate MayCall(trace: seq<Event>, id: nat, fd: int) {
    && (exists k :: 0 <= k < |trace| && trace[k].Registered? && trace[k].id == id && trace[k].fd == fd)
    && Unregistered(id) !in trace
  }

  predicate TraceOk(trace: seq<Event>) {
    forall k :: 0 <= k < |trace| && trace[k].Called? ==> MayCall(trace[..k], trace[k].id, trace[k].fd)
  }

  /** Entry and slot at the same index belong to the same registration. */
  predicate Paired(s: Slot, e: Entry, trace: seq<Event>) {
    && Registered(e.id, s.fd, s.mask) in trace
    && (e.removed <==> Unregistered(e.id) in trace)
  }

  predicate SameRegistered(e: Event, f: Event) {
    e.Registered? && f.Registered? && e.id == f.id
  }

  /** An id is registered once. */
  predicate Once(trace: seq<Event>) {
    forall j, k :: 0 <= j < |trace| && 0 <= k < |trace| && SameRegistered(trace[j], trace[k]) ==> trace[j] == trace[k]
  }

  lemma OnceMore(trace: seq<Event>, e: Event)
    requires Once(trace) && (e.Registered? ==> forall k :: 0 <= k < |trace| ==> trace[k].id != e.id)
    ensures Once(trace + [e])
  {
  }

  predicate Inv(l: Loop) {
    && |l.slots| == |l.entries| && Once(l.trace)
    && (forall i :: 0 <= i < |l.slots| ==> Paired(l.slots[i], l.entries[i], l.trace))
    && (forall i, j :: 0 <= i < j < |l.entries| ==> l.entries[i].id < l.entries[j].id)
    && (forall k :: 0 <= k < |l.trace| ==> l.trace[k].id < l.next)
    && TraceOk(l.trace)
  }

  lemma TraceMore(trace: seq<Event>, e: Event)
    requires TraceOk(trace) && (e.Called? ==> MayCall(trace, e.id, e.fd))
    ensures TraceOk(trace + [e])
  {
    var more := trace + [e];
    assert more[..|trace|] == trace;
    assert forall k :: 0 <= k < |trace| ==> more[..k] == trace[..k];
    hide MayCall;
  }

  lemma IdsKnown(l: Loop)
    requires Inv(l)
    ensures forall i :: 0 <= i < |l.entries| ==> l.entries[i].id < l.next
    ensures forall id: nat :: Unregistered(id) in l.trace ==> id < l.next
  {
    forall i | 0 <= i < |l.entries| ensures l.entries[i].id < l.next {
      assert Paired(l.slots[i], l.entries[i], l.trace);
    }
  }

  lemma OpInv(l: Loop, op: Op)
    requires Inv(l)
    ensures Inv(DoOp(l, op))
  {
    IdsKnown(l);
    var l' := DoOp(l, op);
    match op {
      case Add(fd, mask) =>
        TraceMore(l.trace, Registered(l.next, fd, mask));
        OnceMore(l.trace, Registered(l.next, fd, mask));
        forall i | 0 <= i < |l'.slots| ensures Paired(l'.slots[i], l'.entries[i], l'.trace) {
          assert i < |l.slots| ==> Paired(l.slots[i], l.entries[i], l.trace);
        }
      case Remove(fd) =>
        var i := FindFd(l.slots, fd);
        if i < |l.slots| {
          TraceMore(l.trace, Unregistered(l.entries[i].id));
          OnceMore(l.trace, Unregistered(l.entries[i].id));
          forall j | 0 <= j < |l'.slots|
            ensures Paired(l'.slots[j], l'.entries[j], l'.trace)
            ensures l'.entries[j].id == l.entries[j].id
          {
            assert Paired(l.slots[j], l.entries[j], l.trace);
          }
        }
    }
    hide TraceOk, Once, Paired, FindFd;
  }

  lemma {:induction false} OpsInv(l: Loop, ops: seq<Op>)
    requires Inv(l)
    ensures Inv(DoOps(l, ops))
  {
    if ops != [] {
      OpsInv(l, ops[..|ops| - 1]);
      OpInv(DoOps(l, ops[..|ops| - 1]), ops[|ops| - 1]);
    }
  }

  function Call(l: Loop, i: nat): Loop
    requires |l.slots| == |l.entries| && i < |l.slots|
  {
    l.(trace := l.trace + [Called(l.entries[i].id, l.slots[i].fd, l.slots[i].revents)])
  }

  lemma CallInv(l: Loop, i: nat)
    requires Inv(l) && i < |l.slots| && !l.entries[i].removed
    ensures Inv(Call(l, i))
  {
    IdsKnown(l);
    assert Paired(l.slots[i], l.entries[i], l.trace);
    assert MayCall(l.trace, l.entries[i].id, l.slots[i].fd) by {
      var k :| 0 <= k < |l.trace| && l.trace[k] == Registered(l.entries[i].id, l.slots[i].fd, l.slots[i].mask);
    }
    TraceMore(l.trace, Called(l.entries[i].id, l.slots[i].fd, l.slots[i].revents));
    OnceMore(l.trace, Called(l.entries[i].id, l.slots[i].fd, l.slots[i].revents));
    forall j | 0 <= j < |l.slots| ensures Paired(l.slots[j], l.entries[j], Call(l, i).trace) {
      assert Paired(l.slots[j], l.entries[j], l.trace);
    }
    hide TraceOk, Once, Paired, MayCall;
  }

  lemma VisitInv(l: Loop, i: nat, ops: seq<Op>)
    requires Inv(l) && i < |l.slots|
    ensures Inv(Visit(l, i, ops))
  {
    if !l.entries[i].removed && Ready(l.slots[i]) {
      CallInv(l, i);
      OpsInv(Call(l, i), ops);
    }
    hide Ready, Inv;
  }

  lemma VisitAllLast(l: Loop, n: nat, scripts: nat -> seq<Op>)
    requires |l.slots| == |l.entries| && 0 < n <= |l.slots|
    ensures VisitAll(l, n, scripts) == Visit(VisitAll(l, n - 1, scripts), n - 1, scripts(n - 1))
  {
  }

  lemma {:induction false} VisitAllInv(l: Loop, n: nat, scripts: nat -> seq<Op>)
    requires |l.slots| == |l.entries| && n <= |l.slots| && Inv(l)
    ensures Inv(VisitAll(l, n, scripts))
  {
    hide Inv, Visit;
    if n == 0 {
    } else {
      VisitAllLast(l, n, scripts);
      hide VisitAll;
      VisitAllInv(l, n - 1, scripts);
      VisitInv(VisitAll(l, n - 1, scripts), n - 1, scripts(n - 1));
    }
  }

  lemma {:induction false} KeptLength(slots: seq<Slot>, entries: seq<Entry>)
    requires |slots| == |entries|
    ensures |KeptSlots(slots, entries)| == |KeptEntries(entries)| <= |entries|
  {
    if entries != [] {
      KeptLength(slots[1..], entries[1..]);
    }
  }

  /** Where entry `j` of the compacted list comes from. */
  lemma {:induction false} KeptSource(slots: seq<Slot>, entries: seq<Entry>, j: nat) returns (i: nat)
    requires |slots| == |entries| && j < |KeptEntries(entries)| == |KeptSlots(slots, entries)|
    ensures i < |entries| && KeptEntries(entries)[j] == entries[i] && !entries[i].removed
    ensures KeptSlots(slots, entries)[j] == slots[i]
  {
    KeptLength(slots[1..], entries[1..]);
    var d := if entries[0].removed then 0 else 1;
    if j < d {
      i := 0;
    } else {
      var k := KeptSource(slots[1..], entries[1..], j - d);
      i := k + 1;
    }
  }

  lemma {:induction false} KeptAll(entries: seq<Entry>, i: nat)
    requires i < |entries| && !entries[i].removed
    ensures entries[i] in KeptEntries(entries)
  {
    if i > 0 {
      assert entries[1..][i - 1] == entries[i];
      KeptAll(entries[1..], i - 1);
    }
  }

  lemma {:induction false} KeptAmong(entries: seq<Entry>)
    ensures forall e :: e in KeptEntries(entries) ==> e in entries && !e.removed
  {
    if entries != [] {
      KeptAmong(entries[1..]);
    }
  }

  lemma {:induction false} KeptOrdered(entries: seq<Entry>)
    requires forall i, j :: 0 <= i < j < |entries| ==> entries[i].id < entries[j].id
    ensures forall i, j :: 0 <= i < j < |KeptEntries(entries)| ==> KeptEntries(entries)[i].id < KeptEntries(entries)[j].id
  {
    if entries != [] {
      var rest := KeptEntries(entries[1..]);
      KeptOrdered(entries[1..]);
      KeptAmong(entries[1..]);
      forall j | 0 <= j < |rest| ensures entries[0].id < rest[j].id {
        assert rest[j] in entries[1..];
      }
    }
  }

  lemma CompactInv(l: Loop)
    requires Inv(l)
    ensures Inv(Compact(l))
    ensures forall e :: e in Compact(l).entries <==> e in l.entries && !e.removed
  {
    hide TraceOk, Once, Paired, KeptSlots, KeptEntries;
    KeptLength(l.slots, l.entries);
    KeptAmong(l.entries);
    KeptOrdered(l.entries);
    forall j | 0 <= j < |KeptEntries(l.entries)|
      ensures Paired(KeptSlots(l.slots, l.entries)[j], KeptEntries(l.entries)[j], l.trace)
    {
      var i := KeptSource(l.slots, l.entries, j);
      assert Paired(l.slots[i], l.entries[i], l.trace);
    }
    forall i | 0 <= i < |l.entries| && !l.entries[i].removed ensures l.entries[i] in KeptEntries(l.entries) {
      KeptAll(l.entries, i);
    }
  }

  lemma PollInv(l: Loop, revents: Option<nat -> bv16>)
    requires Inv(l)
    ensures Inv(Poll(l, revents))
  {
    var l' := Poll(l, revents);
    forall i | 0 <= i < |l'.slots| ensures Paired(l'.slots[i], l'.entries[i], l'.trace) {
      assert Paired(l.slots[i], l.entries[i], l.trace);
    }
    hide TraceOk, Paired;
  }

  lemma PassInv(l: Loop, revents: Option<nat -> bv16>, scripts: nat -> seq<Op>)
    requires Inv(l)
    ensures Inv(Pass(l, revents, scripts))
    ensures forall e :: e in Pass(l, revents, scripts).entries ==> !e.removed
  {
    PollInv(l, revents);
    VisitAllInv(Poll(l, revents), |l.slots|, scripts);
    CompactInv(VisitAll(Poll(l, revents), |l.slots|, scripts));
    hide Inv, Compact, Poll, VisitAll;
  }

  // ----- runs

  /** Code outside the dispatch loop, timer callbacks included, or one loop_poll(). */
  datatype Turn = Outside(op: Op) | Dispatch(revents: Option<nat -> bv16>, scripts: nat -> seq<Op>)

  ghost function Run(turns: seq<Turn>): (l: Loop)
    ensures Inv(l)
  {
    if turns == [] then EMPTY
    else
      var l := Run(turns[..|turns| - 1]);
      match turns[|turns| - 1]
      case Outside(op) => OpInv(l, op); DoOp(l, op)
      case Dispatch(revents, scripts) => PassInv(l, revents, scripts); Pass(l, revents, scripts)
  }

  /** In every run a callback is called only with the descriptor it was registered for, and never once
      that registration was removed, even by an earlier callback of the same pass. */
  lemma CalledRightly(turns: seq<Turn>, k: nat)
    requires k < |Run(turns).trace| && Run(turns).trace[k].Called?
    ensures var trace := Run(turns).trace;
            && (exists i :: 0 <= i < k && trace[i].Registered? && trace[i].id == trace[k].id && trace[i].fd == trace[k].fd)
            && (forall i :: 0 <= i < k ==> trace[i] != Unregistered(trace[k].id))
  {
    var trace := Run(turns).trace;
    hide Run;
    assert MayCall(trace[..k], trace[k].id, trace[k].fd);
    var i :| 0 <= i < k && trace[..k][i].Registered? && trace[..k][i].id == trace[k].id && trace[..k][i].fd == trace[k].fd;
    assert trace[i] == trace[..k][i];
    forall j | 0 <= j < k ensures trace[j] != Unregistered(trace[k].id) {
      assert trace[..k][j] == trace[j];
    }
  }

  // ----- which callbacks one pass calls

  predicate CalledSince(trace: seq<Event>, start: nat, id: nat) {
    exists k :: start <= k < |trace| && trace[k].Called? && trace[k].id == id
  }

  /** Later operations leave slots alone, keep removals, add no calls, and append unready slots. */
  predicate Grown(l: Loop, l': Loop) {
    && |l.slots| == |l.entries| <= |l'.slots| == |l'.entries|
    && (forall i :: 0 <= i < |l.slots| ==>
          l'.slots[i] == l.slots[i] && l'.entries[i].id == l.entries[i].id && (l.entries[i].removed ==> l'.entries[i].removed))
    && (forall i :: |l.slots| <= i < |l'.slots| ==> l'.slots[i].revents == 0)
    && l.trace <= l'.trace
  }

  lemma {:induction false} OpsGrow(l: Loop, ops: seq<Op>)
    requires |l.slots| == |l.entries|
    ensures Grown(l, DoOps(l, ops))
    ensures forall k :: |l.trace| <= k < |DoOps(l, ops).trace| ==> !DoOps(l, ops).trace[k].Called?
  {
    if ops != [] {
      OpsGrow(l, ops[..|ops| - 1]);
    }
  }

  lemma VisitGrows(l: Loop, i: nat, ops: seq<Op>, start: nat, id: nat)
    requires |l.slots| == |l.entries| && i < |l.slots| && start <= |l.trace|
    ensures var l' := Visit(l, i, ops);
            && Grown(l, l')
            && (CalledSince(l'.trace, start, id) <==>
                CalledSince(l.trace, start, id) || (id == l.entries[i].id && !l.entries[i].removed && Ready(l.slots[i])))
  {
    hide Ready;
    if !l.entries[i].removed && Ready(l.slots[i]) {
      var called, l' := Call(l, i), Visit(l, i, ops);
      OpsGrow(called, ops);
      assert forall k :: 0 <= k < |l.trace| ==> called.trace[k] == l.trace[k];
      assert l'.trace[|l.trace|] == called.trace[|l.trace|];
    }
  }

  lemma GrownTrans(a: Loop, b: Loop, c: Loop)
    requires Grown(a, b) && Grown(b, c)
    ensures Grown(a, c)
  {
  }

  lemma {:induction false} VisitAllGrows(l: Loop, n: nat, scripts: nat -> seq<Op>)
    requires |l.slots| == |l.entries| && n <= |l.slots|
    ensures Grown(l, VisitAll(l, n, scripts))
  {
    hide Visit;
    if n != 0 {
      VisitAllLast(l, n, scripts);
      hide VisitAll, Grown;
      VisitAllGrows(l, n - 1, scripts);
      VisitGrows(VisitAll(l, n - 1, scripts), n - 1, scripts(n - 1), 0, 0);
      GrownTrans(l, VisitAll(l, n - 1, scripts), VisitAll(l, n, scripts));
    }
  }

  /** What visiting entry `n` tells about entry `i`. */
  lemma VisitCalls(l: Loop, before: Loop, n: nat, ops: seq<Op>, i: nat)
    requires |l.slots| == |l.entries| && Inv(before) && Grown(l, before) && n < |l.slots| && i < |l.slots|
    ensures var after := Visit(before, n, ops);
            CalledSince(after.trace, |l.trace|, l.entries[i].id) <==>
            CalledSince(before.trace, |l.trace|, l.entries[i].id) || (i == n && !before.entries[i].removed && Ready(l.slots[i]))
  {
    VisitGrows(before, n, ops, |l.trace|, l.entries[i].id);
    hide Ready, CalledSince, Visit, TraceOk, Paired;
    assert before.entries[i].id == l.entries[i].id && before.slots[i] == l.slots[i];
    assert i != n ==> before.entries[n].id != before.entries[i].id;
  }

  lemma GrownAt(l: Loop, l': Loop, i: nat)
    requires Grown(l, l') && i < |l.slots|
    ensures i < |l'.entries| && (l.entries[i].removed ==> l'.entries[i].removed)
  {
  }

  lemma NoCallsYet(l: Loop, scripts: nat -> seq<Op>, id: nat)
    requires |l.slots| == |l.entries|
    ensures VisitAll(l, 0, scripts) == l && !CalledSince(l.trace, |l.trace|, id)
  {
  }

  lemma {:induction false} VisitAllCalls(l: Loop, n: nat, scripts: nat -> seq<Op>, i: nat)
    requires |l.slots| == |l.entries| && n <= |l.slots| && i < |l.slots| && Inv(l)
    ensures var l' := VisitAll(l, n, scripts);
            && (CalledSince(l'.trace, |l.trace|, l.entries[i].id) ==> i < n && Ready(l.slots[i]) && !l.entries[i].removed)
            && |l'.entries| >= |l.entries|
            && (i < n && Ready(l.slots[i]) && !l'.entries[i].removed ==> CalledSince(l'.trace, |l.trace|, l.entries[i].id))
  {
    hide Visit, VisitAll, Ready, CalledSince, Inv, Grown;
    if n == 0 {
      NoCallsYet(l, scripts, l.entries[i].id);
    } else {
      var before := VisitAll(l, n - 1, scripts);
      VisitAllLast(l, n, scripts);
      VisitAllInv(l, n - 1, scripts);
      VisitAllGrows(l, n - 1, scripts);
      VisitAllCalls(l, n - 1, scripts, i);
      VisitCalls(l, before, n - 1, scripts(n - 1), i);
      VisitGrows(before, n - 1, scripts(n - 1), 0, 0);
      GrownAt(l, before, i);
      GrownAt(before, VisitAll(l, n, scripts), i);
    }
  }

  lemma VisitOldId(l: Loop, before: Loop, n: nat, ops: seq<Op>, id: nat)
    requires |l.slots| == |l.entries| && Inv(l) && Grown(l, before) && n < |l.slots| && l.next <= id
    ensures CalledSince(Visit(before, n, ops).trace, |l.trace|, id) ==> CalledSince(before.trace, |l.trace|, id)
  {
    VisitGrows(before, n, ops, |l.trace|, id);
    IdsKnown(l);
    assert before.entries[n].id == l.entries[n].id;
    hide CalledSince, Visit, Ready;
  }

  lemma {:induction false} VisitAllNoNewCalls(l: Loop, n: nat, scripts: nat -> seq<Op>, id: nat)
    requires |l.slots| == |l.entries| && n <= |l.slots| && l.next <= id && Inv(l)
    ensures !CalledSince(VisitAll(l, n, scripts).trace, |l.trace|, id)
  {
    hide Visit, VisitAll, CalledSince, Inv, Grown;
    if n == 0 {
      NoCallsYet(l, scripts, id);
    } else {
      VisitAllLast(l, n, scripts);
      VisitAllNoNewCalls(l, n - 1, scripts, id);
      VisitAllGrows(l, n - 1, scripts);
      VisitOldId(l, VisitAll(l, n - 1, scripts), n - 1, scripts(n - 1), id);
    }
  }

  /** The loop when the turn of entry i comes. */
  function AtTurn(l: Loop, revents: Option<nat -> bv16>, scripts: nat -> seq<Op>, i: nat): Loop
    requires |l.slots| == |l.entries| && i <= |l.slots|
  {
    VisitAll(Poll(l, revents), i, scripts)
  }

  /** What the calls since `start` are, for an entry whose turn began with the history `before`. */
  predicate CalledAtTurn(trace: seq<Event>, start: nat, before: seq<Event>, id: nat, reported: bool) {
    && start <= |before| && before <= trace
    && (forall k :: start <= k < |trace| && trace[k].Called? && trace[k].id == id ==> k == |before|)
    && (CalledSince(trace, start, id) <==> reported && Unregistered(id) !in before)
  }

  /** The turn itself. */
  lemma TurnCalls(l: Loop, i: nat, ops: seq<Op>, start: nat)
    requires Inv(l) && i < |l.slots| && start <= |l.trace| && !CalledSince(l.trace, start, l.entries[i].id)
    ensures CalledAtTurn(Visit(l, i, ops).trace, start, l.trace, l.entries[i].id, Ready(l.slots[i]))
  {
    assert Paired(l.slots[i], l.entries[i], l.trace);
    hide Ready, Paired, TraceOk;
    if !l.entries[i].removed && Ready(l.slots[i]) {
      var called := Call(l, i);
      OpsGrow(called, ops);
      assert called.trace[|l.trace|] == Called(l.entries[i].id, l.slots[i].fd, l.slots[i].revents);
      var trace := Visit(l, i, ops).trace;
      assert trace[|l.trace|] == called.trace[|l.trace|];
      assert forall k :: 0 <= k < |l.trace| ==> trace[k] == called.trace[k] == l.trace[k];
    }
  }

  /** A later turn of another entry. */
  lemma LaterCalls(l: Loop, n: nat, ops: seq<Op>, start: nat, before: seq<Event>, id: nat, reported: bool)
    requires |l.slots| == |l.entries| && n < |l.slots| && l.entries[n].id != id
    requires CalledAtTurn(l.trace, start, before, id, reported)
    ensures CalledAtTurn(Visit(l, n, ops).trace, start, before, id, reported)
  {
    VisitGrows(l, n, ops, start, id);
    VisitGrows(l, n, ops, |l.trace|, id);
    var trace := Visit(l, n, ops).trace;
    hide Ready, Visit;
    assert forall k :: 0 <= k < |l.trace| ==> trace[k] == l.trace[k];
    assert forall k :: |l.trace| <= k < |trace| ==> !(trace[k].Called? && trace[k].id == id);
  }

  lemma TurnNext(l: Loop, revents: Option<nat -> bv16>, scripts: nat -> seq<Op>, i: nat)
    requires |l.slots| == |l.entries| && i < |l.slots|
    ensures |AtTurn(l, revents, scripts, i).slots| == |AtTurn(l, revents, scripts, i).entries| >= |l.entries|
    ensures AtTurn(l, revents, scripts, i + 1) == Visit(AtTurn(l, revents, scripts, i), i, scripts(i))
  {
    hide Visit;
    VisitAllLast(Poll(l, revents), i + 1, scripts);
  }

  /** Entries and slots keep their places through the turns before. */
  lemma TurnFacts(l: Loop, revents: Option<nat -> bv16>, scripts: nat -> seq<Op>, n: nat)
    requires Inv(l) && n <= |l.slots|
    ensures var t := AtTurn(l, revents, scripts, n);
            && Inv(t) && |l.entries| <= |t.entries| == |t.slots| && l.trace <= t.trace
            && forall i :: 0 <= i < |l.entries| ==>
                 t.entries[i].id == l.entries[i].id && t.slots[i] == Poll(l, revents).slots[i]
  {
    PollInv(l, revents);
    VisitAllInv(Poll(l, revents), n, scripts);
    VisitAllGrows(Poll(l, revents), n, scripts);
    hide VisitAll, TraceOk, Once, Paired;
  }

  lemma EntriesApart(l: Loop, i: nat, j: nat)
    requires Inv(l) && i < |l.entries| && j < |l.entries| && i != j
    ensures l.entries[i].id != l.entries[j].id
  {
    hide Paired, TraceOk, Once;
  }

  /** Poll() reports entry i; after an interrupted poll(), the report is the last. */
  predicate Reported(l: Loop, revents: Option<nat -> bv16>, i: nat)
    requires |l.slots| == |l.entries| && i < |l.slots|
  {
    Ready(Poll(l, revents).slots[i])
  }

  lemma {:induction false} EntryCalls(l: Loop, revents: Option<nat -> bv16>, scripts: nat -> seq<Op>, i: nat, n: nat)
    requires Inv(l) && i < n <= |l.slots|
    ensures CalledAtTurn(AtTurn(l, revents, scripts, n).trace, |l.trace|, AtTurn(l, revents, scripts, i).trace,
                         l.entries[i].id, Reported(l, revents, i))
  {
    hide AtTurn, Visit, Ready, CalledSince, CalledAtTurn, Inv, Poll;
    LengthsAgree(l);
    TurnFacts(l, revents, scripts, n - 1);
    TurnNext(l, revents, scripts, n - 1);
    var before := AtTurn(l, revents, scripts, n - 1);
    if n == i + 1 {
      NotYetCalled(l, revents, scripts, i);
      TurnCalls(before, i, scripts(i), |l.trace|);
    } else {
      EntryCalls(l, revents, scripts, i, n - 1);
      EntriesApart(l, i, n - 1);
      LaterCalls(before, n - 1, scripts(n - 1), |l.trace|, AtTurn(l, revents, scripts, i).trace, l.entries[i].id,
                 Reported(l, revents, i));
    }
  }

  lemma NotYetCalled(l: Loop, revents: Option<nat -> bv16>, scripts: nat -> seq<Op>, i: nat)
    requires Inv(l) && i < |l.slots|
    ensures !CalledSince(AtTurn(l, revents, scripts, i).trace, |l.trace|, l.entries[i].id)
  {
    PollInv(l, revents);
    hide VisitAll, CalledSince, Inv, Ready;
    VisitAllCalls(Poll(l, revents), i, scripts, i);
  }

  lemma PassTrace(l: Loop, revents: Option<nat -> bv16>, scripts: nat -> seq<Op>)
    requires |l.slots| == |l.entries|
    ensures Pass(l, revents, scripts).trace == AtTurn(l, revents, scripts, |l.slots|).trace
  {
    hide VisitAll, Poll, KeptSlots, KeptEntries;
  }

  /** What poll() says about entry i: the bits it reports now or, if a signal interrupts it, reported last. */
  function Report(l: Loop, revents: Option<nat -> bv16>, i: nat): bv16
    requires i < |l.slots|
  {
    match revents
    case Some(r) => r(i)
    case None => l.slots[i].revents
  }

  /** One of the events asked for, or a hang-up (0x10) or an error (0x08), which nobody asks for. */
  predicate Concerns(report: bv16, mask: bv16) {
    report & mask != 0 || report & 0x10 != 0 || report & 0x08 != 0
  }

  lemma ReadyExactly(s: Slot)
    ensures Ready(s) <==> Concerns(s.revents, s.mask)
  {
  }

  lemma ReportedIs(l: Loop, revents: Option<nat -> bv16>, i: nat)
    requires |l.slots| == |l.entries| && i < |l.slots|
    ensures Reported(l, revents, i) <==> Concerns(Report(l, revents, i), l.slots[i].mask)
  {
    ReadyExactly(Poll(l, revents).slots[i]);
    hide Ready, Concerns;
  }

  lemma RegisteredMask(l: Loop, i: nat, fd: int, mask: bv16)
    requires Inv(l) && i < |l.slots| && Registered(l.entries[i].id, fd, mask) in l.trace
    ensures |l.slots| == |l.entries| && l.slots[i].mask == mask && l.slots[i].fd == fd
  {
    hide TraceOk;
    assert Paired(l.slots[i], l.entries[i], l.trace);
    assert SameRegistered(Registered(l.entries[i].id, fd, mask),
                          Registered(l.entries[i].id, l.slots[i].fd, l.slots[i].mask));
  }

  /** The mask a registration was made with decides. */
  lemma ReportedMeans(l: Loop, revents: Option<nat -> bv16>, i: nat, fd: int, mask: bv16)
    requires Inv(l) && i < |l.slots| && Registered(l.entries[i].id, fd, mask) in l.trace
    ensures |l.slots| == |l.entries|
    ensures Reported(l, revents, i) <==> Concerns(Report(l, revents, i), mask)
  {
    hide Inv, Reported, Concerns, Report;
    RegisteredMask(l, i, fd, mask);
    ReportedIs(l, revents, i);
  }

  /** Which callbacks a pass calls, and when: a registration there when it began is called at most once, at
      its turn, and exactly if it has not been removed by then and poll() reports an event it was registered
      for, a hang-up or an error; registrations made meanwhile are not called. */
  lemma PassCalls(turns: seq<Turn>, revents: Option<nat -> bv16>, scripts: nat -> seq<Op>)
    ensures var l, l' := Run(turns), Pass(Run(turns), revents, scripts);
            && (forall i, fd, mask :: 0 <= i < |l.entries| && Registered(l.entries[i].id, fd, mask) in l.trace ==>
                  CalledAtTurn(l'.trace, |l.trace|, AtTurn(l, revents, scripts, i).trace, l.entries[i].id,
                               Concerns(Report(l, revents, i), mask)))
            && (forall i :: 0 <= i < |l.entries| ==> WasRegistered(l.trace, l.entries[i].id))
            && (forall id :: l.next <= id ==> !CalledSince(l'.trace, |l.trace|, id))
  {
    hide Run, AtTurn, Pass, CalledAtTurn, CalledSince, Inv, Reported, Report, Concerns, WasRegistered;
    var l := Run(turns);
    LengthsAgree(l);
    PassTrace(l, revents, scripts);
    forall i, fd, mask | 0 <= i < |l.entries| && Registered(l.entries[i].id, fd, mask) in l.trace
      ensures CalledAtTurn(Pass(l, revents, scripts).trace, |l.trace|, AtTurn(l, revents, scripts, i).trace,
                           l.entries[i].id, Concerns(Report(l, revents, i), mask))
    {
      EntryCalls(l, revents, scripts, i, |l.slots|);
      ReportedMeans(l, revents, i, fd, mask);
    }
    forall i | 0 <= i < |l.entries| ensures WasRegistered(l.trace, l.entries[i].id) {
      EntryRegistered(l, i);
    }
    forall id | l.next <= id ensures !CalledSince(Pass(l, revents, scripts).trace, |l.trace|, id) {
      NewNotCalled(l, revents, scripts, id);
    }
  }

  ghost predicate WasRegistered(trace: seq<Event>, id: nat) {
    exists fd, mask :: Registered(id, fd, mask) in trace
  }

  lemma EntryRegistered(l: Loop, i: nat)
    requires Inv(l) && i < |l.entries|
    ensures WasRegistered(l.trace, l.entries[i].id)
  {
    hide TraceOk, Once;
    assert Paired(l.slots[i], l.entries[i], l.trace);
  }

  lemma LengthsAgree(l: Loop)
    requires Inv(l)
    ensures |l.slots| == |l.entries|
  {
    hide Paired, TraceOk, Once;
  }

  lemma NewNotCalled(l: Loop, revents: Option<nat -> bv16>, scripts: nat -> seq<Op>, id: nat)
    requires Inv(l) && l.next <= id
    ensures !CalledSince(Pass(l, revents, scripts).trace, |l.trace|, id)
  {
    PollInv(l, revents);
    LengthsAgree(l);
    PassTrace(l, revents, scripts);
    hide VisitAll, CalledSince, Inv, Pass;
    VisitAllNoNewCalls(Poll(l, revents), |l.slots|, scripts, id);
  }

  // ----- no registration is forgotten

  predicate Holds(l: Loop, id: nat) {
    exists i :: 0 <= i < |l.entries| && l.entries[i].id == id
  }

  ghost predicate Complete(l: Loop) {
    forall id: nat :: id < l.next && Unregistered(id) !in l.trace ==> Holds(l, id)
  }

  lemma OpComplete(l: Loop, op: Op)
    requires |l.slots| == |l.entries| && Complete(l)
    ensures Complete(DoOp(l, op))
  {
    var l' := DoOp(l, op);
    forall id: nat | id < l'.next && Unregistered(id) !in l'.trace ensures Holds(l', id) {
      if op.Add? {
        assert l'.entries[|l.entries|].id == l.next;
        if id < l.next {
          assert Unregistered(id) !in l.trace;
          var i :| 0 <= i < |l.entries| && l.entries[i].id == id;
          assert l'.entries[i] == l.entries[i];
        }
      } else {
        assert Unregistered(id) !in l.trace;
        var i :| 0 <= i < |l.entries| && l.entries[i].id == id;
        assert l'.entries[i].id == id;
      }
    }
    hide Holds, FindFd;
  }

  lemma {:induction false} OpsComplete(l: Loop, ops: seq<Op>)
    requires |l.slots| == |l.entries| && Complete(l)
    ensures Complete(DoOps(l, ops))
  {
    hide Complete, DoOp;
    if ops != [] {
      OpsComplete(l, ops[..|ops| - 1]);
      OpComplete(DoOps(l, ops[..|ops| - 1]), ops[|ops| - 1]);
    }
  }

  lemma CallComplete(l: Loop, i: nat)
    requires |l.slots| == |l.entries| && Complete(l) && i < |l.slots|
    ensures Complete(Call(l, i))
  {
    hide Holds;
    forall id: nat ensures Holds(Call(l, i), id) <==> Holds(l, id) { SameHolds(l, Call(l, i), id); }
  }

  lemma SameHolds(l: Loop, l': Loop, id: nat)
    requires l.entries == l'.entries
    ensures Holds(l, id) <==> Holds(l', id)
  {
  }

  lemma {:induction false} VisitsComplete(l: Loop, n: nat, scripts: nat -> seq<Op>)
    requires |l.slots| == |l.entries| && n <= |l.slots| && Complete(l)
    ensures Complete(VisitAll(l, n, scripts))
  {
    hide Complete, Ready;
    if n > 0 {
      VisitsComplete(l, n - 1, scripts);
      VisitAllLast(l, n, scripts);
      var before := VisitAll(l, n - 1, scripts);
      CallComplete(before, n - 1);
      OpsComplete(Call(before, n - 1), scripts(n - 1));
      hide VisitAll;
    }
  }

  lemma CompactComplete(l: Loop)
    requires Inv(l) && Complete(l)
    ensures Complete(Compact(l))
  {
    CompactInv(l);
    var l' := Compact(l);
    forall id: nat | id < l'.next && Unregistered(id) !in l'.trace ensures Holds(l', id) {
      var i :| 0 <= i < |l.entries| && l.entries[i].id == id;
      assert Paired(l.slots[i], l.entries[i], l.trace);
      assert l.entries[i] in l'.entries;
    }
    hide TraceOk, Once, KeptSlots, KeptEntries;
  }

  /** In every run each registration that was not removed is still listed. */
  lemma {:induction false} StillListed(turns: seq<Turn>)
    ensures Complete(Run(turns))
  {
    if turns != [] {
      var init, turn := turns[..|turns| - 1], turns[|turns| - 1];
      StillListed(init);
      var l := Run(init);
      LengthsAgree(l);
      match turn
      case Outside(op) => OpComplete(l, op);
      case Dispatch(revents, scripts) => PassComplete(l, revents, scripts);
    }
    hide Complete, Inv, DoOp, Pass;
  }

  lemma PassComplete(l: Loop, revents: Option<nat -> bv16>, scripts: nat -> seq<Op>)
    requires Inv(l) && Complete(l)
    ensures |l.slots| == |l.entries| && Complete(Pass(l, revents, scripts))
  {
    LengthsAgree(l);
    PollInv(l, revents);
    var polled := Poll(l, revents);
    assert Complete(polled) by {
      forall id: nat ensures Holds(polled, id) <==> Holds(l, id) { SameHolds(l, polled, id); }
    }
    hide Inv, Complete, Poll, VisitAll;
    VisitsComplete(polled, |l.slots|, scripts);
    VisitAllInv(polled, |l.slots|, scripts);
    CompactComplete(VisitAll(polled, |l.slots|, scripts));
  }

  /** Registering a descriptor lists it under a new id with the mask asked for. */
  lemma OutsideAdd(turns: seq<Turn>, fd: int, mask: bv16)
    ensures var l, l' := Run(turns), Run(turns + [Outside(Add(fd, mask))]);
            && l'.next == l.next + 1 && Holds(l', l.next) && Registered(l.next, fd, mask) in l'.trace
            && Unregistered(l.next) !in l'.trace
  {
    RunOutside(turns, Add(fd, mask));
    IdsKnown(Run(turns));
    var l' := DoOp(Run(turns), Add(fd, mask));
    assert l'.entries[|Run(turns).entries|].id == Run(turns).next;
    hide Run, Inv;
  }

  // ----- removing a descriptor that was registered again

  predicate LiveAt(l: Loop, fd: int, i: int)
    requires |l.slots| == |l.entries|
  {
    0 <= i < |l.slots| && l.slots[i].fd == fd && !l.entries[i].removed
  }

  /** The system hands out a descriptor once at a time. */
  predicate LiveOnce(l: Loop, fd: int)
    requires |l.slots| == |l.entries|
  {
    forall i, j :: 0 <= i < j < |l.slots| ==> !(LiveAt(l, fd, i) && LiveAt(l, fd, j))
  }

  /** A removed entry for the descriptor that still waits to be compacted, before the live one. */
  predicate StaleBefore(l: Loop, fd: int)
    requires |l.slots| == |l.entries|
  {
    exists i, j :: 0 <= i < j < |l.slots| && l.slots[i].fd == fd && l.entries[i].removed && LiveAt(l, fd, j)
  }

  /** loop_remove_fd() takes the descriptor's live registration out exactly if no removed one waits
      ahead of it. */
  lemma RemoveExactly(l: Loop, fd: int)
    requires |l.slots| == |l.entries| && LiveOnce(l, fd)
    ensures (forall i :: 0 <= i < |l.slots| ==> !LiveAt(RemoveFd(l, fd), fd, i)) <==> !StaleBefore(l, fd)
  {
    var f := FindFd(l.slots, fd);
    if f < |l.slots| && l.entries[f].removed {
      forall j | 0 <= j < |l.slots| && LiveAt(l, fd, j) ensures LiveAt(RemoveFd(l, fd), fd, j) && StaleBefore(l, fd) {
      }
    } else {
      assert f < |l.slots| ==> LiveAt(l, fd, f);
      forall j | 0 <= j < |l.slots| ensures !LiveAt(RemoveFd(l, fd), fd, j) {
        assert LiveAt(RemoveFd(l, fd), fd, j) ==> LiveAt(l, fd, j) && f <= j && j != f;
      }
      forall j | 0 <= j < |l.slots| && LiveAt(l, fd, j) ensures j == f {
        assert f <= j;
      }
    }
  }

  lemma RunNone()
    ensures Run([]) == EMPTY
  {
    hide Inv, Pass;
  }

  lemma RunOutside(turns: seq<Turn>, op: Op)
    ensures Run(turns + [Outside(op)]) == DoOp(Run(turns), op)
  {
    assert (turns + [Outside(op)])[..|turns|] == turns;
    hide Inv, DoOp, Pass;
  }

  /** Removed, registered again before the next loop_poll() and removed again: the callback stays. */
  lemma RemoveCanMiss()
    ensures var turns := [Outside(Add(7, 1)), Outside(Remove(7)), Outside(Add(7, 1))];
            && LiveOnce(Run(turns), 7) && StaleBefore(Run(turns), 7)
            && LiveAt(RemoveFd(Run(turns), 7), 7, 1)
  {
    hide Run, Inv, Pass;
    var first := [Outside(Add(7, 1))];
    var second := first + [Outside(Remove(7))];
    var turns := second + [Outside(Add(7, 1))];
    RunNone();
    RunOutside([], Add(7, 1));
    RunOutside(first, Remove(7));
    RunOutside(second, Add(7, 1));
    assert [] + first == first && turns == [Outside(Add(7, 1)), Outside(Remove(7)), Outside(Add(7, 1))];
    var l := Run(turns);
    assert l.slots == [Slot(7, 1, 0), Slot(7, 1, 0)] && l.entries == [Entry(0, true), Entry(1, false)];
    assert l.slots[0].fd == 7 && l.entries[0].removed && LiveAt(l, 7, 1);
  }

  /** Only registering a descriptor while a removed entry for it waits can bring that about. */
  lemma StaleArises(l: Loop, op: Op, fd: int)
    requires |l.slots| == |l.entries| && LiveOnce(l, fd)
    ensures StaleBefore(DoOp(l, op), fd) <==>
            StaleBefore(l, fd)
            || (op.Add? && op.fd == fd && exists i :: 0 <= i < |l.slots| && l.slots[i].fd == fd && l.entries[i].removed)
  {
    var l' := DoOp(l, op);
    if StaleBefore(l', fd) {
      var i, j :| 0 <= i < j < |l'.slots| && l'.slots[i].fd == fd && l'.entries[i].removed && LiveAt(l', fd, j);
      if j < |l.slots| {
        assert LiveAt(l, fd, j);
        assert !LiveAt(l, fd, i);
        assert l.slots[i].fd == fd && l.entries[i].removed;
      } else {
        assert l.slots[i].fd == fd && l.entries[i].removed;
      }
    }
    if StaleBefore(l, fd) {
      var i, j :| 0 <= i < j < |l.slots| && l.slots[i].fd == fd && l.entries[i].removed && LiveAt(l, fd, j);
      assert l'.slots[i].fd == fd && l'.entries[i].removed && LiveAt(l', fd, j);
    } else if op.Add? && op.fd == fd {
      forall i | 0 <= i < |l.slots| && l.slots[i].fd == fd && l.entries[i].removed ensures StaleBefore(l', fd) {
        assert l'.slots[i].fd == fd && l'.entries[i].removed && LiveAt(l', fd, |l.slots|);
      }
    }
  }

  /** A pass leaves no removed entry behind, so a descriptor removed before it can be registered again
      after it and removed again. */
  lemma PassForgets(turns: seq<Turn>, revents: Option<nat -> bv16>, scripts: nat -> seq<Op>, fd: int)
    ensures var l' := Run(turns + [Dispatch(revents, scripts)]);
            |l'.slots| == |l'.entries| && !StaleBefore(l', fd)
  {
    var more := turns + [Dispatch(revents, scripts)];
    assert more[..|turns|] == turns;
    PassInv(Run(turns), revents, scripts);
    assert Run(more) == Pass(Run(turns), revents, scripts);
    hide Inv, Pass;
  }

  /** An entry that a callback of the same pass appended. */
  lemma Unready(l: Loop, i: nat, ops: seq<Op>)
    requires |l.slots| == |l.entries| && i < |l.slots| && l.slots[i].revents == 0
    ensures Visit(l, i, ops) == l
  {
    assert l.slots[i].revents & (l.slots[i].mask | POLL_HUP | POLL_ERR) == 0;
  }

  /** The walk at index `i`, which may lie among appended entries. */
  function Seen(start: Loop, i: nat, scripts: nat -> seq<Op>): Loop
    requires |start.slots| == |start.entries|
  {
    VisitAll(start, if i < |start.slots| then i else |start.slots|, scripts)
  }

  lemma SeenStep(start: Loop, i: nat, scripts: nat -> seq<Op>)
    requires |start.slots| == |start.entries|
    requires i < |Seen(start, i, scripts).slots| && |Seen(start, i, scripts).slots| == |Seen(start, i, scripts).entries|
    ensures Seen(start, i + 1, scripts) == Visit(Seen(start, i, scripts), i, scripts(i))
    ensures |start.slots| <= i ==> Seen(start, i + 1, scripts) == Seen(start, i, scripts)
  {
    if i < |start.slots| {
      VisitAllLast(start, i + 1, scripts);
    } else {
      VisitAllGrows(start, |start.slots|, scripts);
      Unready(Seen(start, i, scripts), i, scripts(i));
    }
    hide Visit, VisitAll;
  }

  lemma SeenEnds(start: Loop, scripts: nat -> seq<Op>)
    requires |start.slots| == |start.entries|
    ensures Seen(start, 0, scripts) == start
  {
  }

  lemma SeenPast(start: Loop, i: nat, scripts: nat -> seq<Op>)
    requires |start.slots| == |start.entries| <= i
    ensures Seen(start, i, scripts) == VisitAll(start, |start.slots|, scripts)
  {
  }

  /** The clean-up loop at index `i`: what lies before is settled, what lies behind is still to be seen. */
  function SlotsFrom(slots: seq<Slot>, entries: seq<Entry>, i: nat): seq<Slot>
    requires |slots| == |entries| && i <= |entries|
  {
    slots[..i] + KeptSlots(slots[i..], entries[i..])
  }

  function EntriesFrom(entries: seq<Entry>, i: nat): seq<Entry>
    requires i <= |entries|
  {
    entries[..i] + KeptEntries(entries[i..])
  }

  lemma FromStep(slots: seq<Slot>, entries: seq<Entry>, i: nat)
    requires |slots| == |entries| && i < |entries|
    ensures var s', e' := slots[..i] + slots[i + 1..], entries[..i] + entries[i + 1..];
            if entries[i].removed then
              SlotsFrom(s', e', i) == SlotsFrom(slots, entries, i) && EntriesFrom(e', i) == EntriesFrom(entries, i)
            else
              SlotsFrom(slots, entries, i + 1) == SlotsFrom(slots, entries, i)
              && EntriesFrom(entries, i + 1) == EntriesFrom(entries, i)
  {
    var s', e' := slots[..i] + slots[i + 1..], entries[..i] + entries[i + 1..];
    assert s'[i..] == slots[i..][1..] == slots[i + 1..] && s'[..i] == slots[..i];
    assert e'[i..] == entries[i..][1..] == entries[i + 1..] && e'[..i] == entries[..i];
  }

  lemma FromEnds(slots: seq<Slot>, entries: seq<Entry>)
    requires |slots| == |entries|
    ensures SlotsFrom(slots, entries, 0) == KeptSlots(slots, entries) && EntriesFrom(entries, 0) == KeptEntries(entries)
    ensures SlotsFrom(slots, entries, |slots|) == slots && EntriesFrom(entries, |slots|) == entries
  {
    assert slots[0..] == slots && entries[0..] == entries;
  }

  // ----- the loop itself

  /** The descriptor half of `struct loop`: an array grown ten slots at a time, and the list beside it. */
  class FdArrayLoop {
    var fds: array<Slot>
    var fdLength: nat
    var entries: seq<Entry>
    var next: nat
    ghost var trace: seq<Event>

    ghost predicate Valid()
      reads this
    {
      fdLength == |entries| <= fds.Length && 10 <= fds.Length
    }

    ghost function View(): Loop
      requires Valid()
      reads this, fds
    {
      Loop(fds[..fdLength], entries, next, trace)
    }

    constructor ()
      ensures Valid() && View() == EMPTY && fresh(fds)
    {
      fds := new Slot[10](_ => Slot(0, 0, 0));
      fdLength, entries, next, trace := 0, [], 0, [];
    }

    /** realloc() to ten more slots. */
    method Grow()
      requires Valid()
      modifies this`fds
      ensures Valid() && View() == old(View()) && fresh(fds) && fds.Length == old(fds.Length) + 10
    {
      var more := new Slot[fds.Length + 10](_ => Slot(0, 0, 0));
      for i := 0 to fds.Length
        invariant more[..i] == fds[..i]
        modifies more
      {
        more[i] := fds[i];
      }
      assert more[..fdLength] == fds[..fdLength] by {
        assert more[..fds.Length][..fdLength] == fds[..fds.Length][..fdLength];
      }
      fds := more;
    }

    method LoopAddFd(fd: int, mask: bv16)
      requires Valid()
      modifies this, fds
      ensures Valid() && View() == AddFd(old(View()), fd, mask)
      ensures fds == old(fds) || fresh(fds)
    {
      if fdLength == fds.Length {
        Grow();
      }
      ghost var was := fds[..fdLength];
      fds[fdLength] := Slot(fd, mask, 0);
      fdLength := fdLength + 1;
      assert fds[..fdLength] == was + [Slot(fd, mask, 0)];
      trace := trace + [Registered(next, fd, mask)];
      entries := entries + [Entry(next, false)];
      next := next + 1;
    }

    method LoopRemoveFd(fd: int) returns (found: bool)
      requires Valid()
      modifies this
      ensures Valid() && fds == old(fds) && View() == RemoveFd(old(View()), fd)
      ensures found <==> exists i :: 0 <= i < old(fdLength) && old(fds[i]).fd == fd
    {
      var fdIndex := 0;
      ghost var slots := fds[..fdLength];
      while fdIndex < |entries|
        invariant fdIndex <= |entries| && entries == old(entries)
        invariant forall k :: 0 <= k < fdIndex ==> fds[k].fd != fd
        invariant FindFd(slots, fd) == fdIndex + FindFd(slots[fdIndex..], fd)
      {
        assert slots[fdIndex..][0] == fds[fdIndex] && slots[fdIndex..][1..] == slots[fdIndex + 1..];
        if fds[fdIndex].fd == fd {
          trace := trace + [Unregistered(entries[fdIndex].id)];
          entries := entries[fdIndex := entries[fdIndex].(removed := true)];
          return true;
        }
        fdIndex := fdIndex + 1;
      }
      return false;
    }

    /** What the system call writes, unless a signal interrupts it. */
    method PollFds(revents: Option<nat -> bv16>)
      requires Valid()
      modifies fds
      ensures View() == Poll(old(View()), revents)
    {
      if revents.Some? {
        for i := 0 to fdLength
          invariant fds[i..] == old(fds[i..])
          invariant forall k :: 0 <= k < i ==> fds[k] == old(fds[k]).(revents := revents.value(k))
        {
          fds[i] := fds[i].(revents := revents.value(i));
        }
      }
    }

    method Callback(ops: seq<Op>)
      requires Valid()
      modifies this, fds
      ensures Valid() && View() == DoOps(old(View()), ops)
      ensures fds == old(fds) || fresh(fds)
    {
      for i := 0 to |ops|
        invariant Valid() && (fds == old(fds) || fresh(fds))
        invariant View() == DoOps(old(View()), ops[..i])
      {
        assert ops[..i + 1][..i] == ops[..i];
        match ops[i]
        case Add(fd, mask) => LoopAddFd(fd, mask);
        case Remove(fd) => var _ := LoopRemoveFd(fd);
      }
      assert ops[..|ops|] == ops;
    }

    /** The body of the dispatch loop. */
    method DispatchOne(fdIndex: nat, ops: seq<Op>)
      requires Valid() && fdIndex < fdLength
      modifies this, fds
      ensures Valid() && View() == Visit(old(View()), fdIndex, ops)
      ensures fds == old(fds) || fresh(fds)
    {
      var pfd := fds[fdIndex];
      if entries[fdIndex].removed {
        return;
      }
      var events := pfd.mask | POLL_HUP | POLL_ERR;
      assert Ready(pfd) <==> pfd.revents & events != 0;
      hide Ready, DoOps;
      if pfd.revents & events != 0 {
        trace := trace + [Called(entries[fdIndex].id, pfd.fd, pfd.revents)];
        Callback(ops);
      }
    }

    method DispatchTurn(ghost start: Loop, fdIndex: nat, scripts: nat -> seq<Op>) returns (more: bool)
      requires Valid() && fdIndex < fdLength
      requires |start.slots| == |start.entries| && View() == Seen(start, fdIndex, scripts)
      modifies this, fds
      ensures Valid() && (fds == old(fds) || fresh(fds)) && old(fdLength) <= fdLength
      ensures View() == Seen(start, fdIndex + 1, scripts)
      ensures more == (fdIndex + 1 < old(fdLength)) && (|start.slots| <= fdIndex ==> fdLength == old(fdLength))
    {
      more := fdIndex + 1 < |entries|;
      SeenStep(start, fdIndex, scripts);
      hide Visit, Seen;
      DispatchOne(fdIndex, scripts(fdIndex));
    }

    /** The walk reads the next pointer first, so it stops at the entry that was last before the callback
        ran; entries appended earlier in the walk are reached, but report nothing. */
    method DispatchFds(scripts: nat -> seq<Op>)
      requires Valid()
      modifies this, fds
      ensures Valid() && View() == VisitAll(old(View()), old(fdLength), scripts)
      ensures fds == old(fds) || fresh(fds)
    {
      ghost var start := View();
      ghost var n := fdLength;
      var fdIndex := 0;
      var more := fdIndex < |entries|;
      SeenEnds(start, scripts);
      hide Seen, VisitAll;
      while more
        invariant Valid() && (fds == old(fds) || fresh(fds))
        invariant n <= fdLength && (if more then fdIndex < fdLength else n <= fdIndex)
        invariant View() == Seen(start, fdIndex, scripts)
        decreases if fdIndex < n then n - fdIndex else 0, fdLength - fdIndex, more
      {
        more := DispatchTurn(start, fdIndex, scripts);
        fdIndex := fdIndex + 1;
      }
      SeenPast(start, fdIndex, scripts);
    }

    /** memmove() of the slots behind `at` down by one. */
    method ShiftDown(at: nat)
      requires Valid() && at < fdLength
      modifies this`fdLength, this`entries, fds
      ensures Valid()
      ensures fds[..fdLength] == old(fds[..at] + fds[at + 1..fdLength])
      ensures entries == old(entries[..at] + entries[at + 1..])
    {
      ghost var goal := fds[..at] + fds[at + 1..fdLength];
      ghost var n := fdLength - 1;
      entries := entries[..at] + entries[at + 1..];
      fdLength := fdLength - 1;
      for i := at to fdLength
        modifies fds
        invariant forall k :: 0 <= k < at ==> fds[k] == old(fds[k])
        invariant forall k :: at <= k < i ==> fds[k] == old(fds[k + 1])
        invariant forall k :: i <= k < fds.Length ==> fds[k] == old(fds[k])
      {
        fds[i] := fds[i + 1];
      }
      forall k | 0 <= k < n ensures fds[k] == goal[k] {
      }
      assert fds[..n] == goal;
    }

    method FreeAt(fdIndex: nat) returns (next: nat)
      requires Valid() && fdIndex < fdLength
      modifies this`fdLength, this`entries, fds
      ensures Valid() && next <= fdLength && fdLength - next == old(fdLength) - fdIndex - 1
      ensures SlotsFrom(View().slots, entries, next) == old(SlotsFrom(View().slots, entries, fdIndex))
      ensures EntriesFrom(entries, next) == old(EntriesFrom(entries, fdIndex))
    {
      ghost var slots, before := View().slots, entries;
      FromStep(slots, before, fdIndex);
      hide SlotsFrom, EntriesFrom;
      if entries[fdIndex].removed {
        ShiftDown(fdIndex);
        assert View().slots == slots[..fdIndex] + slots[fdIndex + 1..];
        next := fdIndex;
      } else {
        next := fdIndex + 1;
      }
    }

    /** The clean-up loop of `loop_poll()`. */
    method FreeRemoved()
      requires Valid()
      modifies this, fds
      ensures Valid() && fds == old(fds) && View() == Compact(old(View()))
    {
      ghost var goal := Compact(View());
      var fdIndex: nat := 0;
      FromEnds(View().slots, entries);
      hide SlotsFrom, EntriesFrom, Compact;
      while fdIndex < |entries|
        invariant Valid() && fds == old(fds) && fdIndex <= fdLength && next == goal.next && trace == goal.trace
        invariant SlotsFrom(View().slots, entries, fdIndex) == goal.slots
        invariant EntriesFrom(entries, fdIndex) == goal.entries
        decreases fdLength - fdIndex
      {
        fdIndex := FreeAt(fdIndex);
      }
      FromEnds(View().slots, entries);
    }

    /** The descriptor half of `loop_poll()`. */
    method LoopPoll(revents: Option<nat -> bv16>, scripts: nat -> seq<Op>)
      requires Valid()
      modifies this, fds
      ensures Valid() && View() == Pass(old(View()), revents, scripts)
    {
      PollFds(revents);
      DispatchFds(scripts);
      FreeRemoved();
      hide Poll, VisitAll, Compact;
    }
  }
}
