/** One-shot timers of the event loop: a list that callbacks may add to and cancel from while the loop
    walks it. */
module Timers {
  import opened Options
  import opened Clocks

  const INT_MAX := 0x7fff_ffff

  /** Conversion to a 32-bit `int`. */
  function Wrap32(x: int): int {
    (x + 0x8000_0000) % 0x1_0000_0000 - 0x8000_0000
  }

  // ----- arithmetic

  /** The expiry that `loop_add_timer()` computes. */
  function Expiry(now: Timespec, ms: int): Timespec {
    var nsec := Rem(ms, 1000) * NANOS_PER_MS;
    if now.nsec + nsec >= NANOS then Timespec(now.sec + Quot(ms, 1000) + 1, now.nsec + (nsec - NANOS))
    else Timespec(now.sec + Quot(ms, 1000), now.nsec + nsec)
  }

  /** Exactly `ms` later for every `ms`, and normalised exactly if the nanoseconds do not go negative,
      which takes a negative delay. */
  lemma ExpiryExact(now: Timespec, ms: int)
    requires Normal(now)
    ensures Ns(Expiry(now, ms)) == Ns(now) + ms * NANOS_PER_MS
    ensures Normal(Expiry(now, ms)) <==> now.nsec + Rem(ms, 1000) * NANOS_PER_MS >= 0
    ensures ms >= 0 ==> Normal(Expiry(now, ms))
  {
    QuotBounds(ms, 1000);
    assert ms == Quot(ms, 1000) * 1000 + Rem(ms, 1000);
  }

  /** The wait that `loop_poll()` computes for one timer, in two assignments to an `int`. */
  function TimerMs(expiry: Timespec, now: Timespec): int {
    Wrap32(Wrap32((expiry.sec - now.sec) * 1000) + Quot(expiry.nsec - now.nsec, NANOS_PER_MS))
  }

  lemma WrapTwice(a: int, b: int)
    ensures Wrap32(Wrap32(a) + b) == Wrap32(a + b)
  {
    var q := (a + 0x8000_0000) / 0x1_0000_0000;
    assert Wrap32(a) == a - q * 0x1_0000_0000;
    WrapMultiple(a + b, -q);
  }

  lemma WrapMultiple(x: int, k: int)
    ensures Wrap32(x + k * 0x1_0000_0000) == Wrap32(x)
  {
    var y := x + 0x8000_0000;
    assert (y + k * 0x1_0000_0000) % 0x1_0000_0000 == y % 0x1_0000_0000;
  }

  /** The wait is within a millisecond of the remaining time exactly if that time fits in the `int`. */
  lemma TimerMsExactly(expiry: Timespec, now: Timespec)
    ensures var left := Ns(expiry) - Ns(now);
            -NANOS_PER_MS < left - TimerMs(expiry, now) * NANOS_PER_MS < NANOS_PER_MS
            <==> -INT_MAX - 1 <= MsSince(expiry, now) <= INT_MAX
  {
    WrapTwice((expiry.sec - now.sec) * 1000, Quot(expiry.nsec - now.nsec, NANOS_PER_MS));
    MsSinceBounds(expiry, now);
    var ms := MsSince(expiry, now);
    assert TimerMs(expiry, now) == Wrap32(ms);
    if !(-INT_MAX - 1 <= ms <= INT_MAX) {
      assert ms - Wrap32(ms) >= 0x1_0000_0000 || ms - Wrap32(ms) <= -0x1_0000_0000;
    }
  }

  /** It does for every delay an `int` can hold, until the timer is more than INT_MAX ms overdue. */
  lemma DelayFits(added: Timespec, ms: int, now: Timespec)
    requires Normal(added) && Normal(now) && 0 <= ms <= INT_MAX
    requires Ns(added) <= Ns(now) <= Ns(Expiry(added, ms)) + INT_MAX * NANOS_PER_MS
    ensures -INT_MAX - 1 <= MsSince(Expiry(added, ms), now) <= INT_MAX
  {
    ExpiryExact(added, ms);
    MsSinceBounds(Expiry(added, ms), now);
  }

  // ----- the list and its history

  /** `id` stands for the timer's address. */
  datatype Entry = Entry(id: nat, expiry: Timespec, removed: bool)

  datatype Event = Added(id: nat, at: Timespec, ms: int) | Cancelled(id: nat) | Fired(id: nat, at: Timespec)

  datatype Loop = Loop(timers: seq<Entry>, next: nat, trace: seq<Event>)

  const EMPTY := Loop([], 0, [])

  function Ids(timers: seq<Entry>): (ids: seq<nat>)
    ensures |ids| == |timers| && forall i :: 0 <= i < |ids| ==> ids[i] == timers[i].id
  {
    seq(|timers|, i requires 0 <= i < |timers| => timers[i].id)
  }

  /** The strict comparison of `loop_poll()`. */
  predicate Expired(expiry: Timespec, now: Timespec) {
    expiry.sec < now.sec || (expiry.sec == now.sec && expiry.nsec < now.nsec)
  }

  /** More than `ms` milliseconds have gone by. */
  predicate Overdue(added: Timespec, ms: int, now: Timespec) {
    Ns(now) > Ns(added) + ms * NANOS_PER_MS
  }

  lemma ExpiredExactly(added: Timespec, ms: int, now: Timespec)
    requires Normal(added) && Normal(now) && ms >= 0
    ensures Expired(Expiry(added, ms), now) <==> Overdue(added, ms, now)
  {
    ExpiryExact(added, ms);
    hide Expiry;
  }

  function Find(timers: seq<Entry>, id: nat): (i: nat)
    ensures i <= |timers| && (i < |timers| ==> timers[i].id == id)
    ensures forall k :: 0 <= k < i ==> timers[k].id != id
  {
    if timers == [] || timers[0].id == id then 0 else 1 + Find(timers[1..], id)
  }

  function AddTimer(l: Loop, now: Timespec, ms: int): Loop {
    Loop([Entry(l.next, Expiry(now, ms), false)] + l.timers, l.next + 1, l.trace + [Added(l.next, now, ms)])
  }

  /** `loop_remove_timer()`; an address that is no longer on the list is ignored. */
  function CancelTimer(l: Loop, id: nat): Loop {
    var i := Find(l.timers, id);
    if i == |l.timers| then l
    else l.(timers := l.timers[i := l.timers[i].(removed := true)], trace := l.trace + [Cancelled(id)])
  }

  function Unlink(l: Loop, id: nat): Loop {
    var i := Find(l.timers, id);
    if i == |l.timers| then l else l.(timers := l.timers[..i] + l.timers[i + 1..])
  }

  /** What a callback may do to the loop. */
  datatype Op = Add(now: Timespec, ms: int) | Cancel(id: nat)

  function DoOp(l: Loop, op: Op): Loop {
    match op
    case Add(now, ms) => AddTimer(l, now, ms)
    case Cancel(id) => CancelTimer(l, id)
  }

  function DoOps(l: Loop, ops: seq<Op>): Loop {
    if ops == [] then l else DoOp(DoOps(l, ops[..|ops| - 1]), ops[|ops| - 1])
  }

  function Fire(l: Loop, id: nat, now: Timespec): Loop {
    l.(trace := l.trace + [Fired(id, now)])
  }

  /** One turn of the dispatch loop; `ops` is what the timer's callback does, should it run. */
  function Visit(l: Loop, id: nat, now: Timespec, ops: seq<Op>): Loop {
    var i := Find(l.timers, id);
    if i == |l.timers| then l
    else if l.timers[i].removed then Unlink(l, id)
    else if Expired(l.timers[i].expiry, now) then Unlink(DoOps(Fire(l, id, now), ops), id)
    else l
  }

  function VisitAll(l: Loop, ids: seq<nat>, now: Timespec, scripts: nat -> seq<Op>): Loop {
    if ids == [] then l
    else Visit(VisitAll(l, ids[..|ids| - 1], now, scripts), ids[|ids| - 1], now, scripts(ids[|ids| - 1]))
  }

  /** A whole pass: it visits the timers listed when it began, and only those. */
  function Pass(l: Loop, now: Timespec, scripts: nat -> seq<Op>): Loop {
    VisitAll(l, Ids(l.timers), now, scripts)
  }

  // ----- what histories may contain

  predicate AddedFor(e: Event, id: nat, expiry: Timespec) {
    e.Added? && e.id == id && Expiry(e.at, e.ms) == expiry
  }

  predicate HasAdded(trace: seq<Event>, id: nat, expiry: Timespec) {
    exists k :: 0 <= k < |trace| && AddedFor(trace[k], id, expiry)
  }

  predicate HasCancelled(trace: seq<Event>, id: nat) {
    Cancelled(id) in trace
  }

  predicate HasFired(trace: seq<Event>, id: nat) {
    exists k :: 0 <= k < |trace| && trace[k].Fired? && trace[k].id == id
  }

  /** A timer may fire after it was added, strictly after its expiry, once, and not after its removal. */
  predicate MayFire(trace: seq<Event>, id: nat, at: Timespec) {
    && (exists k :: 0 <= k < |trace| && trace[k].Added? && trace[k].id == id && Expired(Expiry(trace[k].at, trace[k].ms), at))
    && !HasCancelled(trace, id)
    && !HasFired(trace, id)
  }

  predicate TraceOk(trace: seq<Event>) {
    forall k :: 0 <= k < |trace| && trace[k].Fired? ==> MayFire(trace[..k], trace[k].id, trace[k].at)
  }

  lemma HasMore(trace: seq<Event>, e: Event, id: nat)
    ensures HasFired(trace + [e], id) <==> HasFired(trace, id) || (e.Fired? && e.id == id)
    ensures HasCancelled(trace + [e], id) <==> HasCancelled(trace, id) || e == Cancelled(id)
    ensures forall x :: HasAdded(trace + [e], id, x) <==> HasAdded(trace, id, x) || AddedFor(e, id, x)
  {
    if HasFired(trace, id) {
      var k :| 0 <= k < |trace| && trace[k].Fired? && trace[k].id == id;
      assert (trace + [e])[k] == trace[k];
    }
    assert (trace + [e])[|trace|] == e;
    assert forall k :: 0 <= k < |trace| ==> (trace + [e])[k] == trace[k];
    hide Expiry;
  }

  lemma TraceMore(trace: seq<Event>, e: Event)
    requires TraceOk(trace) && (e.Fired? ==> MayFire(trace, e.id, e.at))
    ensures TraceOk(trace + [e])
  {
    var more := trace + [e];
    assert more[..|trace|] == trace;
    assert forall k :: 0 <= k < |trace| ==> more[..k] == trace[..k];
    hide MayFire;
  }

  /** A listed timer against the history; `busy` is the one whose callback is running. */
  predicate EntryOk(e: Entry, trace: seq<Event>, busy: Option<nat>) {
    && HasAdded(trace, e.id, e.expiry)
    && (e.removed <==> HasCancelled(trace, e.id))
    && (HasFired(trace, e.id) <==> busy == Some(e.id))
  }

  predicate SameAdded(e: Event, f: Event) {
    e.Added? && f.Added? && e.id == f.id
  }

  /** An id is added once. */
  predicate Once(trace: seq<Event>) {
    forall j, k :: 0 <= j < |trace| && 0 <= k < |trace| && SameAdded(trace[j], trace[k]) ==> trace[j] == trace[k]
  }

  predicate Inv(l: Loop, busy: Option<nat>) {
    && (forall i, j :: 0 <= i < j < |l.timers| ==> l.timers[i].id != l.timers[j].id)
    && (forall i :: 0 <= i < |l.timers| ==> EntryOk(l.timers[i], l.trace, busy))
    && (forall k :: 0 <= k < |l.trace| ==> l.trace[k].id < l.next)
    && TraceOk(l.trace) && Once(l.trace)
  }

  lemma KnownIds(l: Loop, busy: Option<nat>)
    requires Inv(l, busy)
    ensures forall i :: 0 <= i < |l.timers| ==> l.timers[i].id < l.next
    ensures forall id: nat :: HasFired(l.trace, id) || HasCancelled(l.trace, id) ==> id < l.next
  {
    forall i | 0 <= i < |l.timers| ensures l.timers[i].id < l.next {
      assert EntryOk(l.timers[i], l.trace, busy);
      var k :| 0 <= k < |l.trace| && AddedFor(l.trace[k], l.timers[i].id, l.timers[i].expiry);
    }
  }

  lemma AddInv(l: Loop, busy: Option<nat>, now: Timespec, ms: int)
    requires Inv(l, busy) && (busy.Some? ==> busy.value < l.next)
    ensures Inv(AddTimer(l, now, ms), busy)
  {
    KnownIds(l, busy);
    var e := Added(l.next, now, ms);
    var l' := AddTimer(l, now, ms);
    TraceMore(l.trace, e);
    forall i | 0 <= i < |l'.timers| ensures EntryOk(l'.timers[i], l'.trace, busy) {
      HasMore(l.trace, e, l'.timers[i].id);
      assert i > 0 ==> l'.timers[i] == l.timers[i - 1];
    }
    hide TraceOk, EntryOk, Expiry;
  }

  lemma CancelInv(l: Loop, busy: Option<nat>, id: nat)
    requires Inv(l, busy)
    ensures Inv(CancelTimer(l, id), busy)
    ensures |CancelTimer(l, id).timers| == |l.timers| && CancelTimer(l, id).next == l.next
  {
    var i := Find(l.timers, id);
    if i < |l.timers| {
      var l' := CancelTimer(l, id);
      KnownIds(l, busy);
      TraceMore(l.trace, Cancelled(id));
      forall j | 0 <= j < |l'.timers|
        ensures EntryOk(l'.timers[j], l'.trace, busy)
        ensures l'.timers[j].id == l.timers[j].id
      {
        assert EntryOk(l.timers[j], l.trace, busy);
        HasMore(l.trace, Cancelled(id), l.timers[j].id);
        hide HasFired, HasCancelled, HasAdded, TraceOk;
      }
      hide TraceOk, EntryOk;
    }
  }

  lemma {:induction false} OpsInv(l: Loop, busy: Option<nat>, ops: seq<Op>)
    requires Inv(l, busy) && (busy.Some? ==> busy.value < l.next)
    ensures Inv(DoOps(l, ops), busy) && l.next <= DoOps(l, ops).next
  {
    if ops != [] {
      var init, op := ops[..|ops| - 1], ops[|ops| - 1];
      OpsInv(l, busy, init);
      match op
      case Add(now, ms) => AddInv(DoOps(l, init), busy, now, ms);
      case Cancel(id) => CancelInv(DoOps(l, init), busy, id);
    }
  }

  lemma UnlinkInv(l: Loop, busy: Option<nat>, id: nat)
    requires Inv(l, busy) && (busy.None? || busy == Some(id))
    ensures Inv(Unlink(l, id), None)
    ensures forall i :: 0 <= i < |Unlink(l, id).timers| ==> Unlink(l, id).timers[i].id != id
  {
    hide HasFired, HasCancelled, HasAdded, TraceOk, Find;
    var i, l' := Find(l.timers, id), Unlink(l, id);
    forall j | 0 <= j < |l'.timers|
      ensures l'.timers[j] == l.timers[if j < i then j else j + 1] && l'.timers[j].id != id
      ensures EntryOk(l'.timers[j], l'.trace, None)
    {
      var k := if j < i then j else j + 1;
      assert EntryOk(l.timers[k], l.trace, busy);
    }
    hide EntryOk;
  }

  lemma FireInv(l: Loop, id: nat, now: Timespec)
    requires Inv(l, None)
    requires var i := Find(l.timers, id); i < |l.timers| && !l.timers[i].removed && Expired(l.timers[i].expiry, now)
    ensures Inv(Fire(l, id, now), Some(id)) && id < l.next
  {
    hide Find, Expired, HasFired, HasCancelled, HasAdded, TraceOk, MayFire, Once;
    var i := Find(l.timers, id);
    KnownIds(l, None);
    MayFireNow(l, id, now, i);
    TraceMore(l.trace, Fired(id, now));
    OnceFired(l.trace, id, now);
    forall j | 0 <= j < |l.timers| ensures EntryOk(l.timers[j], Fire(l, id, now).trace, Some(id)) {
      assert EntryOk(l.timers[j], l.trace, None);
      HasMore(l.trace, Fired(id, now), l.timers[j].id);
    }
    hide EntryOk;
  }

  lemma MayFireNow(l: Loop, id: nat, now: Timespec, i: nat)
    requires Inv(l, None) && i < |l.timers| && l.timers[i].id == id && !l.timers[i].removed && Expired(l.timers[i].expiry, now)
    ensures MayFire(l.trace, id, now)
  {
    hide Expired, HasFired, TraceOk, Once;
    assert EntryOk(l.timers[i], l.trace, None);
    var k :| 0 <= k < |l.trace| && AddedFor(l.trace[k], id, l.timers[i].expiry);
  }

  lemma OnceFired(trace: seq<Event>, id: nat, now: Timespec)
    requires Once(trace)
    ensures Once(trace + [Fired(id, now)])
  {
  }

  lemma VisitInv(l: Loop, id: nat, now: Timespec, ops: seq<Op>)
    requires Inv(l, None)
    ensures Inv(Visit(l, id, now, ops), None) && l.next <= Visit(l, id, now, ops).next
  {
    var i := Find(l.timers, id);
    if i < |l.timers| {
      if l.timers[i].removed {
        UnlinkInv(l, None, id);
      } else if Expired(l.timers[i].expiry, now) {
        FireInv(l, id, now);
        OpsInv(Fire(l, id, now), Some(id), ops);
        UnlinkInv(DoOps(Fire(l, id, now), ops), Some(id), id);
      }
    }
  }

  lemma {:induction false} VisitAllInv(l: Loop, ids: seq<nat>, now: Timespec, scripts: nat -> seq<Op>)
    requires Inv(l, None)
    ensures Inv(VisitAll(l, ids, now, scripts), None) && l.next <= VisitAll(l, ids, now, scripts).next
  {
    if ids != [] {
      VisitAllInv(l, ids[..|ids| - 1], now, scripts);
      VisitInv(VisitAll(l, ids[..|ids| - 1], now, scripts), ids[|ids| - 1], now, scripts(ids[|ids| - 1]));
    }
  }

  // ----- runs

  /** Code outside the dispatch loop, or one pass of it. */
  datatype Turn = Outside(op: Op) | Dispatch(now: Timespec, scripts: nat -> seq<Op>)

  function Run(turns: seq<Turn>): Loop {
    if turns == [] then EMPTY
    else
      var l := Run(turns[..|turns| - 1]);
      match turns[|turns| - 1]
      case Outside(op) => DoOp(l, op)
      case Dispatch(now, scripts) => Pass(l, now, scripts)
  }

  lemma {:induction false} RunInv(turns: seq<Turn>)
    ensures Inv(Run(turns), None)
  {
    if turns != [] {
      var l := Run(turns[..|turns| - 1]);
      RunInv(turns[..|turns| - 1]);
      match turns[|turns| - 1]
      case Outside(op) => {
        OpsInv(l, None, [op]);
        assert [op][..0] == [];
        assert DoOps(l, [op]) == DoOp(DoOps(l, []), op);
      }
      case Dispatch(now, scripts) => VisitAllInv(l, Ids(l.timers), now, scripts);
    }
  }

  lemma FiredApart(trace: seq<Event>, i: nat, k: nat)
    requires TraceOk(trace) && i < |trace| && k < |trace| && trace[i].Fired? && trace[k].Fired?
    ensures trace[i].id == trace[k].id ==> k <= i
  {
    if i < k {
      assert MayFire(trace[..k], trace[k].id, trace[k].at);
      assert trace[..k][i] == trace[i];
    }
  }

  /** In every run, whatever the callbacks do: a timer that fires was added before, expired, was neither
      cancelled (not even earlier in the same pass) nor fired already. */
  lemma FiresOnce(turns: seq<Turn>, k: nat)
    requires k < |Run(turns).trace| && Run(turns).trace[k].Fired?
    ensures var trace := Run(turns).trace;
            var id := trace[k].id;
            && (exists i :: 0 <= i < k && trace[i].Added? && trace[i].id == id && Expired(Expiry(trace[i].at, trace[i].ms), trace[k].at))
            && (forall i :: 0 <= i < k ==> trace[i] != Cancelled(id))
            && (forall i :: 0 <= i < |trace| && trace[i].Fired? && trace[i].id == id ==> i == k)
  {
    RunInv(turns);
    var trace := Run(turns).trace;
    var id := trace[k].id;
    hide Run, Expired;
    assert MayFire(trace[..k], id, trace[k].at);
    var a :| 0 <= a < k && trace[..k][a].Added? && trace[..k][a].id == id && Expired(Expiry(trace[..k][a].at, trace[..k][a].ms), trace[k].at);
    assert trace[a] == trace[..k][a];
    forall i | 0 <= i < k ensures trace[i] != Cancelled(id) {
      assert trace[..k][i] == trace[i];
    }
    forall i | 0 <= i < |trace| && trace[i].Fired? && trace[i].id == id ensures i == k {
      FiredApart(trace, i, k);
      FiredApart(trace, k, i);
    }
  }

  // ----- what one pass does

  predicate Listed(l: Loop, id: nat, expiry: Timespec) {
    exists i :: 0 <= i < |l.timers| && l.timers[i].id == id && l.timers[i].expiry == expiry
  }

  predicate Present(l: Loop, id: nat) {
    exists i :: 0 <= i < |l.timers| && l.timers[i].id == id
  }

  /** What happened to timer `id` between two states, in which nothing fired it and nothing unlisted it. */
  ghost predicate Spared(l: Loop, l': Loop, id: nat) {
    && l.trace <= l'.trace
    && (HasFired(l'.trace, id) <==> HasFired(l.trace, id))
    && (HasCancelled(l.trace, id) ==> HasCancelled(l'.trace, id))
    && (forall x :: Listed(l, id, x) ==> Listed(l', id, x))
    && (Present(l, id) ==> Present(l', id))
  }

  lemma OpSpares(l: Loop, op: Op, id: nat)
    ensures Spared(l, DoOp(l, op), id) && l.next <= DoOp(l, op).next
    ensures l.next <= id < DoOp(l, op).next ==> Present(DoOp(l, op), id)
  {
    hide HasFired, HasCancelled, HasAdded, Expiry;
    var l' := DoOp(l, op);
    if op.Add? {
      HasMore(l.trace, Added(l.next, op.now, op.ms), id);
      assert forall i :: 0 <= i < |l.timers| ==> l'.timers[i + 1] == l.timers[i];
      assert l'.timers[0].id == l.next;
    } else {
      HasMore(l.trace, Cancelled(op.id), id);
      assert |l'.timers| == |l.timers|;
      assert forall i :: 0 <= i < |l.timers| ==> l'.timers[i].id == l.timers[i].id && l'.timers[i].expiry == l.timers[i].expiry;
    }
  }

  lemma {:induction false} OpsSpare(l: Loop, ops: seq<Op>, id: nat)
    ensures Spared(l, DoOps(l, ops), id) && l.next <= DoOps(l, ops).next
    ensures l.next <= id < DoOps(l, ops).next ==> Present(DoOps(l, ops), id)
  {
    if ops != [] {
      OpsSpare(l, ops[..|ops| - 1], id);
      OpSpares(DoOps(l, ops[..|ops| - 1]), ops[|ops| - 1], id);
      hide HasFired, HasCancelled, Listed, Present, DoOp;
    }
  }

  lemma UnlinkSpares(l: Loop, gone: nat, id: nat)
    requires id != gone
    ensures Spared(l, Unlink(l, gone), id)
  {
    hide HasFired, HasCancelled;
    var i, l' := Find(l.timers, gone), Unlink(l, gone);
    forall j | 0 <= j < |l.timers| && l.timers[j].id == id
      ensures exists k :: 0 <= k < |l'.timers| && l'.timers[k] == l.timers[j]
    {
      assert l'.timers[if j < i then j else j - 1] == l.timers[j];
    }
  }

  lemma VisitSpares(l: Loop, visited: nat, now: Timespec, ops: seq<Op>, id: nat)
    requires id != visited
    ensures Spared(l, Visit(l, visited, now, ops), id) && l.next <= Visit(l, visited, now, ops).next
    ensures l.next <= id < Visit(l, visited, now, ops).next ==> Present(Visit(l, visited, now, ops), id)
  {
    var i := Find(l.timers, visited);
    if i < |l.timers| {
      if l.timers[i].removed {
        UnlinkSpares(l, visited, id);
      } else if Expired(l.timers[i].expiry, now) {
        var fired := Fire(l, visited, now);
        HasMore(l.trace, Fired(visited, now), id);
        assert Spared(l, fired, id);
        OpsSpare(fired, ops, id);
        UnlinkSpares(DoOps(fired, ops), visited, id);
        hide HasFired, HasCancelled, Listed, Present, DoOps;
      }
    }
  }

  /** How a timer comes out of its turn, which began with the history `before`. */
  predicate Decided(l: Loop, before: seq<Event>, id: nat, expiry: Timespec, now: Timespec) {
    && before <= l.trace
    && (HasFired(l.trace, id) <==> Expired(expiry, now) && !HasCancelled(before, id))
    && (HasFired(l.trace, id) ==> |before| < |l.trace| && l.trace[|before|] == Fired(id, now))
    && (!Expired(expiry, now) && !HasCancelled(l.trace, id) ==> Present(l, id))
  }

  /** The visited timer itself. */
  lemma VisitDecides(l: Loop, id: nat, expiry: Timespec, now: Timespec, ops: seq<Op>)
    requires Inv(l, None) && Listed(l, id, expiry)
    ensures Decided(Visit(l, id, now, ops), l.trace, id, expiry, now)
  {
    var i := Find(l.timers, id);
    assert l.timers[i].id == id;
    ListedAt(l, id, expiry, i);
    assert EntryOk(l.timers[i], l.trace, None);
    hide HasFired, HasCancelled, TraceOk, Listed, Inv, Expired, DoOps;
    if !l.timers[i].removed && Expired(expiry, now) {
      var fired := Fire(l, id, now);
      HasMore(l.trace, Fired(id, now), id);
      OpsSpare(fired, ops, id);
      UnlinkTrace(DoOps(fired, ops), id);
      assert fired.trace[|l.trace|] == Fired(id, now);
    } else if !l.timers[i].removed {
      IsPresent(l, id, i);
    }
  }

  lemma IsPresent(l: Loop, id: nat, i: nat)
    requires i < |l.timers| && l.timers[i].id == id
    ensures Present(l, id)
  {
  }

  lemma UnlinkTrace(l: Loop, id: nat)
    ensures Unlink(l, id).trace == l.trace
  {
  }

  lemma ListedAt(l: Loop, id: nat, expiry: Timespec, i: nat)
    requires Inv(l, None) && Listed(l, id, expiry) && i < |l.timers| && l.timers[i].id == id
    ensures l.timers[i].expiry == expiry
  {
    hide EntryOk, TraceOk;
  }

  lemma {:induction false} VisitAllSpares(l: Loop, ids: seq<nat>, now: Timespec, scripts: nat -> seq<Op>, id: nat)
    requires id !in ids
    ensures Spared(l, VisitAll(l, ids, now, scripts), id) && l.next <= VisitAll(l, ids, now, scripts).next
    ensures l.next <= id < VisitAll(l, ids, now, scripts).next ==> Present(VisitAll(l, ids, now, scripts), id)
  {
    if ids != [] {
      var init, last := ids[..|ids| - 1], ids[|ids| - 1];
      VisitAllSpares(l, init, now, scripts, id);
      VisitSpares(VisitAll(l, init, now, scripts), last, now, scripts(last), id);
      hide HasFired, HasCancelled, Listed, Present, Visit;
    }
  }

  lemma DecidedStays(l: Loop, l': Loop, before: seq<Event>, id: nat, expiry: Timespec, now: Timespec)
    requires Decided(l, before, id, expiry, now) && Spared(l, l', id)
    ensures Decided(l', before, id, expiry, now)
  {
    hide HasFired, HasCancelled, Listed, Present, Expired;
  }

  /** The loop when the turn of the i-th timer comes. */
  function AtTurn(l: Loop, now: Timespec, scripts: nat -> seq<Op>, i: nat): Loop
    requires i <= |l.timers|
  {
    VisitAll(l, Ids(l.timers)[..i], now, scripts)
  }

  lemma AtTurnNext(l: Loop, now: Timespec, scripts: nat -> seq<Op>, i: nat)
    requires i < |l.timers|
    ensures var id := l.timers[i].id;
            AtTurn(l, now, scripts, i + 1) == Visit(AtTurn(l, now, scripts, i), id, now, scripts(id))
    ensures AtTurn(l, now, scripts, |l.timers|) == Pass(l, now, scripts)
  {
    hide Visit;
    var ids := Ids(l.timers);
    assert ids[..i + 1][..i] == ids[..i] && ids[..|l.timers|] == ids;
  }

  lemma {:induction false} AtTurnDecides(l: Loop, now: Timespec, scripts: nat -> seq<Op>, i: nat, n: nat)
    requires Inv(l, None) && i < n <= |l.timers|
    ensures Decided(AtTurn(l, now, scripts, n), AtTurn(l, now, scripts, i).trace, l.timers[i].id, l.timers[i].expiry, now)
  {
    hide Inv, Visit, AtTurn, Decided, Spared, Pass, Listed;
    AtTurnNext(l, now, scripts, n - 1);
    if n == i + 1 {
      AtTurnListed(l, now, scripts, i);
      var id := l.timers[i].id;
      VisitDecides(AtTurn(l, now, scripts, i), id, l.timers[i].expiry, now, scripts(id));
    } else {
      AtTurnDecides(l, now, scripts, i, n - 1);
      IdsApart(l, i, n - 1);
      var last, before := l.timers[n - 1].id, AtTurn(l, now, scripts, n - 1);
      VisitSpares(before, last, now, scripts(last), l.timers[i].id);
      DecidedStays(before, Visit(before, last, now, scripts(last)), AtTurn(l, now, scripts, i).trace,
                   l.timers[i].id, l.timers[i].expiry, now);
    }
  }

  lemma IdsApart(l: Loop, i: nat, j: nat)
    requires Inv(l, None) && i < j < |l.timers|
    ensures l.timers[i].id != l.timers[j].id
  {
    hide EntryOk, TraceOk;
  }

  lemma AtTurnListed(l: Loop, now: Timespec, scripts: nat -> seq<Op>, i: nat)
    requires Inv(l, None) && i < |l.timers|
    ensures Inv(AtTurn(l, now, scripts, i), None)
    ensures Listed(AtTurn(l, now, scripts, i), l.timers[i].id, l.timers[i].expiry)
  {
    var ids := Ids(l.timers)[..i];
    forall k | 0 <= k < i ensures ids[k] != l.timers[i].id { IdsApart(l, k, i); }
    assert l.timers[i].id !in ids;
    assert Listed(l, l.timers[i].id, l.timers[i].expiry);
    hide Inv, VisitAll, Listed, Ids;
    VisitAllInv(l, ids, now, scripts);
    VisitAllSpares(l, ids, now, scripts, l.timers[i].id);
  }

  lemma AddedExpiry(l: Loop, i: nat, added: Timespec, ms: int)
    requires Inv(l, None) && i < |l.timers| && Added(l.timers[i].id, added, ms) in l.trace
    ensures l.timers[i].expiry == Expiry(added, ms)
  {
    assert EntryOk(l.timers[i], l.trace, None);
    var k :| 0 <= k < |l.trace| && AddedFor(l.trace[k], l.timers[i].id, l.timers[i].expiry);
    assert SameAdded(l.trace[k], Added(l.timers[i].id, added, ms));
    hide TraceOk, Expiry;
  }

  /** A pass settles every timer listed when it began: it fires exactly if it has expired and no one has
      cancelled it by the time its turn comes, and then at that turn; one that has not expired stays unless
      cancelled. It has expired exactly if more than the delay it was added with has gone by. Timers added
      meanwhile stay listed and do not fire, so callbacks that re-arm themselves cannot keep a pass going. */
  lemma PassDecides(turns: seq<Turn>, now: Timespec, scripts: nat -> seq<Op>)
    ensures var l, l' := Run(turns), Pass(Run(turns), now, scripts);
            && (forall i :: 0 <= i < |l.timers| ==>
                  && Decided(l', AtTurn(l, now, scripts, i).trace, l.timers[i].id, l.timers[i].expiry, now)
                  && HasAdded(l.trace, l.timers[i].id, l.timers[i].expiry))
            && (forall i, added, ms :: 0 <= i < |l.timers| && Added(l.timers[i].id, added, ms) in l.trace
                                       && Normal(added) && Normal(now) && ms >= 0 ==>
                  (HasFired(l'.trace, l.timers[i].id) <==>
                   Overdue(added, ms, now) && !HasCancelled(AtTurn(l, now, scripts, i).trace, l.timers[i].id)))
            && (forall id :: l.next <= id < l'.next ==> Present(l', id) && !HasFired(l'.trace, id))
  {
    hide Run, Decided, Spared, VisitAll, AtTurn, Pass, Inv, Present, HasFired, HasCancelled, HasAdded, Overdue, Normal;
    var l, l' := Run(turns), Pass(Run(turns), now, scripts);
    RunInv(turns);
    forall i | 0 <= i < |l.timers|
      ensures Decided(l', AtTurn(l, now, scripts, i).trace, l.timers[i].id, l.timers[i].expiry, now)
      ensures HasAdded(l.trace, l.timers[i].id, l.timers[i].expiry)
    {
      TimerDecided(l, now, scripts, i);
      TimerAdded(l, i);
    }
    forall i, added, ms | 0 <= i < |l.timers| && Added(l.timers[i].id, added, ms) in l.trace
                          && Normal(added) && Normal(now) && ms >= 0
      ensures HasFired(l'.trace, l.timers[i].id) <==>
              Overdue(added, ms, now) && !HasCancelled(AtTurn(l, now, scripts, i).trace, l.timers[i].id)
    {
      TimerDecided(l, now, scripts, i);
      AddedExpiry(l, i, added, ms);
      DecidedMeans(l', AtTurn(l, now, scripts, i).trace, l.timers[i].id, l.timers[i].expiry, now);
      ExpiredExactly(added, ms, now);
    }
    forall id | l.next <= id < l'.next ensures Present(l', id) && !HasFired(l'.trace, id) {
      NewSpared(l, now, scripts, id);
    }
  }

  lemma TimerAdded(l: Loop, i: nat)
    requires Inv(l, None) && i < |l.timers|
    ensures HasAdded(l.trace, l.timers[i].id, l.timers[i].expiry)
  {
    assert EntryOk(l.timers[i], l.trace, None);
    hide HasAdded, TraceOk;
  }

  lemma DecidedMeans(l: Loop, before: seq<Event>, id: nat, expiry: Timespec, now: Timespec)
    requires Decided(l, before, id, expiry, now)
    ensures HasFired(l.trace, id) <==> Expired(expiry, now) && !HasCancelled(before, id)
  {
    hide HasFired, HasCancelled, Expired, Present;
  }

  lemma TimerDecided(l: Loop, now: Timespec, scripts: nat -> seq<Op>, i: nat)
    requires Inv(l, None) && i < |l.timers|
    ensures Decided(Pass(l, now, scripts), AtTurn(l, now, scripts, i).trace, l.timers[i].id, l.timers[i].expiry, now)
  {
    hide Decided, VisitAll, AtTurn;
    KnownIds(l, None);
    AtTurnNext(l, now, scripts, i);
    AtTurnDecides(l, now, scripts, i, |l.timers|);
  }

  lemma NewSpared(l: Loop, now: Timespec, scripts: nat -> seq<Op>, id: nat)
    requires Inv(l, None) && l.next <= id < Pass(l, now, scripts).next
    ensures Present(Pass(l, now, scripts), id) && !HasFired(Pass(l, now, scripts).trace, id)
  {
    KnownIds(l, None);
    var ids := Ids(l.timers);
    assert id !in ids;
    hide Inv, VisitAll, HasFired, Present, Listed;
    VisitAllSpares(l, ids, now, scripts, id);
  }

  // ----- no timer is forgotten

  lemma RunOutside(turns: seq<Turn>, op: Op)
    ensures Run(turns + [Outside(op)]) == DoOp(Run(turns), op)
  {
    assert (turns + [Outside(op)])[..|turns|] == turns;
    hide DoOp, Pass;
  }

  lemma RunDispatch(turns: seq<Turn>, now: Timespec, scripts: nat -> seq<Op>)
    ensures Run(turns + [Dispatch(now, scripts)]) == Pass(Run(turns), now, scripts)
  {
    assert (turns + [Dispatch(now, scripts)])[..|turns|] == turns;
    hide DoOp, Pass;
  }

  /** Adding a timer lists it under a new id; cancelling one that is listed marks it, any other changes nothing. */
  lemma OutsideOps(turns: seq<Turn>, now: Timespec, ms: int, id: nat)
    ensures var l, l' := Run(turns), Run(turns + [Outside(Add(now, ms))]);
            && l'.next == l.next + 1 && Added(l.next, now, ms) in l'.trace && Present(l', l.next)
            && !HasFired(l'.trace, l.next) && !HasCancelled(l'.trace, l.next)
    ensures var l, l' := Run(turns), Run(turns + [Outside(Cancel(id))]);
            if Present(l, id) then HasCancelled(l'.trace, id) else l' == l
  {
    RunInv(turns);
    KnownIds(Run(turns), None);
    RunOutside(turns, Add(now, ms));
    RunOutside(turns, Cancel(id));
    hide Run;
    HasMore(Run(turns).trace, Added(Run(turns).next, now, ms), Run(turns).next);
    assert AddTimer(Run(turns), now, ms).timers[0].id == Run(turns).next;
    hide Expiry, HasFired, HasAdded, Inv;
  }

  /** In every run a timer that has neither fired nor been cancelled is listed, so some pass will decide it. */
  lemma {:induction false} StillListed(turns: seq<Turn>, id: nat)
    requires id < Run(turns).next && !HasFired(Run(turns).trace, id) && !HasCancelled(Run(turns).trace, id)
    ensures Present(Run(turns), id)
    decreases turns, 0
  {
    hide HasFired, HasCancelled, Present, Pass, DoOp, Decided;
    if turns != [] {
      var init, turn := turns[..|turns| - 1], turns[|turns| - 1];
      assert turns == init + [turn];
      var l := Run(init);
      match turn
      case Outside(op) =>
        RunOutside(init, op);
        OpSpares(l, op, id);
        if id < l.next { StillListed(init, id); }
      case Dispatch(now, scripts) =>
        RunDispatch(init, now, scripts);
        if id < l.next {
          NotForgotten(init, now, scripts, id);
        } else {
          PassDecides(init, now, scripts);
        }
    }
  }

  lemma PlaceOf(l: Loop, id: nat) returns (i: nat)
    requires Present(l, id)
    ensures i < |l.timers| && l.timers[i].id == id
  {
    i :| 0 <= i < |l.timers| && l.timers[i].id == id;
  }

  lemma {:induction false} NotForgotten(init: seq<Turn>, now: Timespec, scripts: nat -> seq<Op>, id: nat)
    requires var l' := Pass(Run(init), now, scripts);
             id < Run(init).next && !HasFired(l'.trace, id) && !HasCancelled(l'.trace, id)
    ensures Present(Pass(Run(init), now, scripts), id)
    decreases init, 1
  {
    hide Pass, Present, Decided, Inv;
    var l, l' := Run(init), Pass(Run(init), now, scripts);
    RunInv(init);
    PassTraceGrows(l, now, scripts, id);
    StillListed(init, id);
    hide Run;
    var i := PlaceOf(l, id);
    TimerDecided(l, now, scripts, i);
    DecidedStaysListed(l', AtTurn(l, now, scripts, i).trace, id, l.timers[i].expiry, now);
  }

  lemma DecidedStaysListed(l: Loop, before: seq<Event>, id: nat, expiry: Timespec, now: Timespec)
    requires Decided(l, before, id, expiry, now) && !HasFired(l.trace, id) && !HasCancelled(l.trace, id)
    ensures Present(l, id)
  {
    hide HasFired, Present, Expired;
  }

  lemma PassTraceGrows(l: Loop, now: Timespec, scripts: nat -> seq<Op>, id: nat)
    ensures HasFired(l.trace, id) ==> HasFired(Pass(l, now, scripts).trace, id)
    ensures HasCancelled(l.trace, id) ==> HasCancelled(Pass(l, now, scripts).trace, id)
  {
    hide VisitAll;
    VisitAllGrows(l, Ids(l.timers), now, scripts);
  }

  lemma {:induction false} OpsGrow(l: Loop, ops: seq<Op>)
    ensures l.trace <= DoOps(l, ops).trace
  {
    if ops != [] { OpsGrow(l, ops[..|ops| - 1]); }
  }

  lemma VisitGrows(l: Loop, id: nat, now: Timespec, ops: seq<Op>)
    ensures l.trace <= Visit(l, id, now, ops).trace
  {
    OpsGrow(Fire(l, id, now), ops);
    hide DoOps;
  }

  lemma {:induction false} VisitAllGrows(l: Loop, ids: seq<nat>, now: Timespec, scripts: nat -> seq<Op>)
    ensures l.trace <= VisitAll(l, ids, now, scripts).trace
  {
    hide Visit;
    if ids != [] {
      var init, last := ids[..|ids| - 1], ids[|ids| - 1];
      VisitAllGrows(l, init, now, scripts);
      VisitGrows(VisitAll(l, init, now, scripts), last, now, scripts(last));
    }
  }

  // ----- the walk: each turn reads the next pointer before it runs the callback

  predicate EndsWith(l: Loop, tail: seq<nat>) {
    |tail| <= |l.timers| && forall i :: 0 <= i < |tail| ==> l.timers[|l.timers| - |tail| + i].id == tail[i]
  }

  lemma {:induction false} OpsTail(l: Loop, ops: seq<Op>, tail: seq<nat>)
    requires EndsWith(l, tail)
    ensures EndsWith(DoOps(l, ops), tail)
  {
    if ops != [] {
      OpsTail(l, ops[..|ops| - 1], tail);
    }
  }

  lemma TailHead(l: Loop, id: nat, tail: seq<nat>)
    requires EndsWith(l, [id] + tail)
    ensures var at := |l.timers| - |tail| - 1;
            && at >= 0
            && l.timers[at].id == id
            && forall i :: 0 <= i < |tail| ==> l.timers[at + 1 + i].id == tail[i]
  {
    var both, at := [id] + tail, |l.timers| - |tail| - 1;
    assert both[0] == id && l.timers[at + 0].id == both[0];
    forall i | 0 <= i < |tail| ensures l.timers[at + 1 + i].id == tail[i] {
      assert both[i + 1] == tail[i] && l.timers[at + (i + 1)].id == both[i + 1];
    }
  }

  lemma UnlinkTail(l: Loop, busy: Option<nat>, id: nat, tail: seq<nat>)
    requires Inv(l, busy) && EndsWith(l, [id] + tail)
    ensures EndsWith(Unlink(l, id), tail)
  {
    hide EntryOk, TraceOk;
    TailHead(l, id, tail);
  }

  lemma NextListed(l: Loop, id: nat, tail: seq<nat>)
    requires Inv(l, None) && EndsWith(l, [id] + tail)
    ensures var i := Find(l.timers, id);
            && i == |l.timers| - |tail| - 1 && l.timers[i].id == id
            && (tail != [] ==> l.timers[i + 1].id == tail[0])
  {
    hide EntryOk, TraceOk;
    TailHead(l, id, tail);
  }

  lemma FireTail(l: Loop, id: nat, now: Timespec, tail: seq<nat>)
    requires EndsWith(l, tail)
    ensures EndsWith(Fire(l, id, now), tail)
  {
  }

  lemma TailOnly(l: Loop, id: nat, tail: seq<nat>)
    requires EndsWith(l, [id] + tail)
    ensures EndsWith(l, tail)
  {
    TailHead(l, id, tail);
  }

  /** Visiting a timer leaves in place everything listed after it. */
  lemma VisitTail(l: Loop, id: nat, now: Timespec, ops: seq<Op>, tail: seq<nat>)
    requires Inv(l, None) && EndsWith(l, [id] + tail)
    ensures EndsWith(Visit(l, id, now, ops), tail)
  {
    hide Inv, EndsWith, DoOps, Unlink, Expired;
    NextListed(l, id, tail);
    var i := Find(l.timers, id);
    if l.timers[i].removed {
      UnlinkTail(l, None, id, tail);
    } else if Expired(l.timers[i].expiry, now) {
      FireInv(l, id, now);
      FireTail(l, id, now, [id] + tail);
      OpsInv(Fire(l, id, now), Some(id), ops);
      OpsTail(Fire(l, id, now), ops, [id] + tail);
      UnlinkTail(DoOps(Fire(l, id, now), ops), Some(id), id, tail);
    } else {
      TailOnly(l, id, tail);
    }
  }

  lemma WalkStart(l: Loop, now: Timespec, scripts: nat -> seq<Op>)
    ensures EndsWith(l, Ids(l.timers)) && Pass(l, now, scripts) == VisitAll(l, Ids(l.timers), now, scripts)
  {
  }

  lemma VisitAllNone(l: Loop, now: Timespec, scripts: nat -> seq<Op>)
    ensures VisitAll(l, [], now, scripts) == l
  {
  }

  lemma {:induction false} VisitAllFirst(l: Loop, ids: seq<nat>, now: Timespec, scripts: nat -> seq<Op>)
    requires ids != []
    ensures VisitAll(l, ids, now, scripts)
            == VisitAll(Visit(l, ids[0], now, scripts(ids[0])), ids[1..], now, scripts)
    decreases |ids|
  {
    hide Visit;
    var init := ids[..|ids| - 1];
    if init != [] {
      VisitAllFirst(l, init, now, scripts);
      assert ids[1..][..|ids| - 2] == init[1..];
    }
  }

  // ----- the loop itself

  /** The timer half of `struct loop`. */
  class TimerLoop {
    var timers: seq<Entry>
    var next: nat
    ghost var trace: seq<Event>

    constructor ()
      ensures View() == EMPTY
    {
      timers, next, trace := [], 0, [];
    }

    ghost function View(): Loop
      reads this
    {
      Loop(timers, next, trace)
    }

    method LoopAddTimer(now: Timespec, ms: int) returns (id: nat)
      modifies this
      ensures View() == AddTimer(old(View()), now, ms) && id == old(next)
    {
      var expiry := now.(sec := now.sec + Quot(ms, 1000));
      var nsec := Rem(ms, 1000) * NANOS_PER_MS;
      if expiry.nsec + nsec >= NANOS {
        expiry := expiry.(sec := expiry.sec + 1);
        nsec := nsec - NANOS;
      }
      expiry := expiry.(nsec := expiry.nsec + nsec);
      id := next;
      next := next + 1;
      timers := [Entry(id, expiry, false)] + timers;
      trace := trace + [Added(id, now, ms)];
    }

    method Locate(id: nat) returns (i: nat)
      ensures i == Find(timers, id)
    {
      i := 0;
      while i < |timers| && timers[i].id != id
        invariant i <= |timers| && Find(timers, id) == i + Find(timers[i..], id)
      {
        assert timers[i..][1..] == timers[i + 1..];
        i := i + 1;
      }
    }

    method LoopRemoveTimer(id: nat) returns (found: bool)
      modifies this
      ensures View() == CancelTimer(old(View()), id)
      ensures found <==> Present(old(View()), id)
    {
      var i := Locate(id);
      if i < |timers| {
        timers := timers[i := timers[i].(removed := true)];
        trace := trace + [Cancelled(id)];
        return true;
      }
      return false;
    }

    method UnlinkTimer(id: nat)
      modifies this
      ensures View() == Unlink(old(View()), id)
    {
      var i := Locate(id);
      if i < |timers| {
        timers := timers[..i] + timers[i + 1..];
      }
    }

    /** A timer's callback, as what it does to the loop. */
    method Callback(ops: seq<Op>)
      modifies this
      ensures View() == DoOps(old(View()), ops)
    {
      for i := 0 to |ops|
        invariant View() == DoOps(old(View()), ops[..i])
      {
        assert ops[..i + 1][..i] == ops[..i];
        match ops[i]
        case Add(now, ms) => {
          var _ := LoopAddTimer(now, ms);
        }
        case Cancel(id) => {
          var _ := LoopRemoveTimer(id);
        }
      }
      assert ops[..|ops|] == ops;
    }

    /** The body of the dispatch loop for the timer at position `i`. */
    method VisitTimer(i: nat, now: Timespec, ops: seq<Op>)
      requires i < |timers| && Find(timers, timers[i].id) == i
      modifies this
      ensures View() == Visit(old(View()), old(timers[i].id), now, ops)
    {
      var timer := timers[i];
      if timer.removed {
        UnlinkTimer(timer.id);
        return;
      }
      if Expired(timer.expiry, now) {
        trace := trace + [Fired(timer.id, now)];
        Callback(ops);
        UnlinkTimer(timer.id);
      }
    }

    /** One turn of the walk: the next pointer is read before the callback may change the list. */
    method DispatchOne(id: nat, now: Timespec, ops: seq<Op>, ghost tail: seq<nat>) returns (next: Option<nat>)
      requires Inv(View(), None) && EndsWith(View(), [id] + tail)
      modifies this
      ensures View() == Visit(old(View()), id, now, ops)
      ensures next == if tail == [] then None else Some(tail[0])
      ensures Inv(View(), None) && EndsWith(View(), tail)
    {
      var i := Locate(id);
      NextListed(View(), id, tail);
      next := if i + 1 < |timers| then Some(timers[i + 1].id) else None;
      VisitInv(View(), id, now, ops);
      VisitTail(View(), id, now, ops, tail);
      hide Inv, EndsWith, Visit;
      VisitTimer(i, now, ops);
    }

    /** The timer half of `loop_poll()`. */
    method DispatchTimers(now: Timespec, scripts: nat -> seq<Op>)
      requires Inv(View(), None)
      modifies this
      ensures View() == Pass(old(View()), now, scripts)
      ensures Inv(View(), None)
    {
      hide Inv, EndsWith, Visit, VisitAll, Ids, Pass;
      ghost var goal := Pass(View(), now, scripts);
      ghost var rest := Ids(timers);
      var cur := if timers == [] then None else Some(timers[0].id);
      WalkStart(View(), now, scripts);
      while cur.Some?
        invariant cur == (if rest == [] then None else Some(rest[0]))
        invariant VisitAll(View(), rest, now, scripts) == goal
        invariant Inv(View(), None) && EndsWith(View(), rest)
        decreases |rest|
      {
        VisitAllFirst(View(), rest, now, scripts);
        ghost var tail := rest[1..];
        assert rest == [cur.value] + tail;
        cur := DispatchOne(cur.value, now, scripts(cur.value), tail);
        rest := tail;
      }
      VisitAllNone(View(), now, scripts);
    }

    /** The time-out handed to `poll()`: the least wait of any listed timer, within 0 and INT_MAX. */
    method PollTimeout(now: Timespec) returns (ms: int)
      ensures 0 <= ms <= INT_MAX
      ensures forall i :: 0 <= i < |timers| ==> ms <= TimerMs(timers[i].expiry, now) || ms == 0
      ensures ms < INT_MAX ==> exists i :: 0 <= i < |timers| && (TimerMs(timers[i].expiry, now) == ms || (ms == 0 && TimerMs(timers[i].expiry, now) < 0))
    {
      ms := INT_MAX;
      for i := 0 to |timers|
        invariant ms <= INT_MAX
        invariant forall k :: 0 <= k < i ==> ms <= TimerMs(timers[k].expiry, now)
        invariant ms < INT_MAX ==> exists k :: 0 <= k < i && TimerMs(timers[k].expiry, now) == ms
      {
        var timerMs := Wrap32((timers[i].expiry.sec - now.sec) * 1000);
        timerMs := Wrap32(timerMs + Quot(timers[i].expiry.nsec - now.nsec, NANOS_PER_MS));
        if timerMs < ms {
          ms := timerMs;
        }
      }
      if ms < 0 {
        ms := 0;
      }
    }
  }
}
