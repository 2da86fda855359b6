/** The editor's three one-shot timers: one resets the indicator, one the verdict shown, one wipes a
    password left standing. Each has a field in the state that owns it. */
module PasswordTimers {
  import opened Options
  import opened Clocks
  import opened Unicode
  import opened Passwords
  import opened Timers

  datatype Owner = InputIdle | AuthIdle | ClearPassword

  datatype InputState = Idle | Cleared | Letter | Backspaced | Neutral

  datatype AuthState = NoAuth | Validating | Invalid

  /** `kind` is which callback each timer was created with; `submitted` lists the passwords that went out. */
  datatype Editor = Editor(
    loop: Loop,
    kind: map<nat, Owner>,
    inputIdle: Option<nat>,
    authIdle: Option<nat>,
    clearPassword: Option<nat>,
    input: InputState,
    auth: AuthState,
    chars: seq<Code>,
    failed: nat,
    submitted: seq<seq<Code>>)

  const START := Editor(Timers.EMPTY, map[], None, None, None, Idle, NoAuth, [], 0, [])

  const CAPACITY := 1024

  function Field(ed: Editor, o: Owner): Option<nat> {
    match o
    case InputIdle => ed.inputIdle
    case AuthIdle => ed.authIdle
    case ClearPassword => ed.clearPassword
  }

  function SetField(ed: Editor, o: Owner, id: Option<nat>): Editor {
    match o
    case InputIdle => ed.(inputIdle := id)
    case AuthIdle => ed.(authIdle := id)
    case ClearPassword => ed.(clearPassword := id)
  }

  function Delay(o: Owner): nat {
    match o
    case InputIdle => 1500
    case AuthIdle => 3000
    case ClearPassword => 10000
  }

  // ----- the schedule and cancel functions

  function Dismiss(ed: Editor, o: Owner): Editor {
    var id := Field(ed, o);
    if id.None? then ed else SetField(ed.(loop := CancelTimer(ed.loop, id.value)), o, None)
  }

  function Arm(ed: Editor, o: Owner, now: Timespec): Editor {
    var id := ed.loop.next;
    SetField(ed.(loop := AddTimer(ed.loop, now, Delay(o)), kind := ed.kind[id := o]), o, Some(id))
  }

  function Schedule(ed: Editor, o: Owner, now: Timespec): Editor {
    Arm(Dismiss(ed, o), o, now)
  }

  // ----- handlers

  /** `submit_password()`; `written` is whether the request reaches the pipe. */
  function Submit(ed: Editor, ignoreEmpty: bool, written: bool, now: Timespec): Editor {
    if (ignoreEmpty && ed.chars == []) || ed.auth == Validating then ed
    else
      var sent := Dismiss(Dismiss(ed.(input := Idle, auth := Validating), ClearPassword), InputIdle).(chars := []);
      if written then sent.(submitted := ed.submitted + [ed.chars]) else Schedule(sent.(auth := Invalid), AuthIdle, now)
  }

  /** Keys as the switch in `swaylock_handle_key()` tells them apart. */
  datatype Key = Return | Erase | Escape | Modifier | SubmitLetter | ClearLetter | Other

  function Wipe(ed: Editor, now: Timespec): Editor {
    Schedule(Dismiss(ed.(chars := [], input := Cleared), ClearPassword), InputIdle, now)
  }

  function EraseKey(ed: Editor, now: Timespec): Editor {
    var left := Edited(ed.chars, Backspace, CAPACITY);
    if left != [] then Schedule(Schedule(ed.(chars := left, input := Backspaced), ClearPassword, now), InputIdle, now)
    else Wipe(ed, now)
  }

  function CharKey(ed: Editor, codepoint: Code, now: Timespec): Editor {
    if codepoint == 0 then ed
    else
      var ed' := ed.(chars := Edited(ed.chars, Append(codepoint), CAPACITY), input := Letter);
      Schedule(Schedule(ed', ClearPassword, now), InputIdle, now)
  }

  function HandleKey(ed: Editor, key: Key, control: bool, codepoint: Code, ignoreEmpty: bool, written: bool, now: Timespec): Editor {
    match key
    case Return => Submit(ed, ignoreEmpty, written, now)
    case Erase => if control then Wipe(ed, now) else EraseKey(ed, now)
    case Escape => Wipe(ed, now)
    case Modifier => Schedule(Schedule(ed.(input := Neutral), ClearPassword, now), InputIdle, now)
    case SubmitLetter => if control then Submit(ed, ignoreEmpty, written, now) else CharKey(ed, codepoint, now)
    case ClearLetter => if control then Wipe(ed, now) else CharKey(ed, codepoint, now)
    case Other => CharKey(ed, codepoint, now)
  }

  /** The negative branch of `comm_in()`. */
  function Refused(ed: Editor, now: Timespec): Editor {
    var ed' := Schedule(ed.(auth := Invalid), AuthIdle, now);
    ed'.(failed := ed'.failed + 1)
  }

  /** The three callbacks, each of which forgets its timer first. */
  function Callback(ed: Editor, o: Owner, now: Timespec): Editor {
    var ed' := SetField(ed, o, None);
    match o
    case InputIdle => ed'.(input := Idle)
    case AuthIdle => ed'.(auth := NoAuth)
    case ClearPassword => Schedule(ed'.(input := Cleared), InputIdle, now).(chars := [])
  }

  /** Code that owns none of these timers may add its own and cancel its own. */
  function Foreign(ed: Editor, op: Op): Editor {
    if op.Cancel? && op.id in ed.kind then ed else ed.(loop := DoOp(ed.loop, op))
  }

  function Foreigns(ed: Editor, ops: seq<Op>): Editor {
    if ops == [] then ed else Foreign(Foreigns(ed, ops[..|ops| - 1]), ops[|ops| - 1])
  }

  /** One turn of the dispatch loop; `ops` is the callback of a foreign timer. */
  function VisitTimer(ed: Editor, id: nat, now: Timespec, clock: Timespec, ops: seq<Op>): Editor {
    var i := Find(ed.loop.timers, id);
    if i == |ed.loop.timers| then ed
    else if ed.loop.timers[i].removed then ed.(loop := Unlink(ed.loop, id))
    else if Expired(ed.loop.timers[i].expiry, now) then
      var fired := ed.(loop := Fire(ed.loop, id, now));
      var called := if id in ed.kind then Callback(fired, ed.kind[id], clock) else Foreigns(fired, ops);
      called.(loop := Unlink(called.loop, id))
    else ed
  }

  function VisitTimers(ed: Editor, ids: seq<nat>, now: Timespec, clock: nat -> Timespec, scripts: nat -> seq<Op>): Editor {
    if ids == [] then ed
    else
      var id := ids[|ids| - 1];
      VisitTimer(VisitTimers(ed, ids[..|ids| - 1], now, clock, scripts), id, now, clock(id), scripts(id))
  }

  datatype Input =
    | KeyPress(key: Key, control: bool, codepoint: Code, ignoreEmpty: bool, written: bool, now: Timespec)
    | Reply(now: Timespec)
    | Elsewhere(op: Op)
    | Dispatch(now: Timespec, clock: nat -> Timespec, scripts: nat -> seq<Op>)

  function Step(ed: Editor, input: Input): Editor {
    match input
    case KeyPress(key, control, codepoint, ignoreEmpty, written, now) =>
      HandleKey(ed, key, control, codepoint, ignoreEmpty, written, now)
    case Reply(now) => Refused(ed, now)
    case Elsewhere(op) => Foreign(ed, op)
    case Dispatch(now, clock, scripts) => VisitTimers(ed, Ids(ed.loop.timers), now, clock, scripts)
  }

  function Run(inputs: seq<Input>): Editor {
    if inputs == [] then START else Step(Run(inputs[..|inputs| - 1]), inputs[|inputs| - 1])
  }

  // ----- ownership

  predicate Live(loop: Loop, id: nat) {
    exists i :: 0 <= i < |loop.timers| && loop.timers[i].id == id && !loop.timers[i].removed
  }

  /** The field names a live, unremoved timer with the owner's callback, and every such timer is the one
      in the field; `busy` is the timer whose callback is running. */
  predicate Owned(loop: Loop, kind: map<nat, Owner>, o: Owner, field: Option<nat>, busy: Option<nat>) {
    && (field.Some? ==> Live(loop, field.value) && field.value in kind && kind[field.value] == o && busy != field)
    && (forall id :: id in kind && kind[id] == o && Live(loop, id) && busy != Some(id) ==> field == Some(id))
  }

  predicate OwnersOk(ed: Editor, busy: Option<nat>) {
    && Inv(ed.loop, busy)
    && (busy.Some? ==> busy.value < ed.loop.next)
    && (forall id :: id in ed.kind ==> id < ed.loop.next)
    && (forall o: Owner :: Owned(ed.loop, ed.kind, o, Field(ed, o), busy))
  }

  lemma LiveAdd(l: Loop, busy: Option<nat>, now: Timespec, ms: int, id: nat)
    requires Inv(l, busy)
    ensures Live(AddTimer(l, now, ms), id) <==> Live(l, id) || id == l.next
  {
    hide Inv, Expiry, Live;
    var l' := AddTimer(l, now, ms);
    assert forall i :: 0 <= i < |l.timers| ==> l'.timers[i + 1] == l.timers[i];
    if id == l.next {
      IsLive(l', id, 0);
    }
    if Live(l, id) {
      var j := LiveAt(l, id);
      IsLive(l', id, j + 1);
    }
    if Live(l', id) && id != l.next {
      var j := LiveAt(l', id);
      IsLive(l, id, j - 1);
    }
  }

  lemma LiveCancel(l: Loop, busy: Option<nat>, gone: nat, id: nat)
    requires Inv(l, busy)
    ensures Live(CancelTimer(l, gone), id) <==> Live(l, id) && id != gone
  {
    hide EntryOk, TraceOk;
    var i, l' := Find(l.timers, gone), CancelTimer(l, gone);
    if i < |l.timers| {
      forall k | 0 <= k < |l.timers| && k != i ensures l.timers[k].id != gone && l'.timers[k] == l.timers[k] {
      }
      assert l'.timers[i].removed;
    }
  }

  lemma LiveAt(l: Loop, id: nat) returns (j: nat)
    requires Live(l, id)
    ensures j < |l.timers| && l.timers[j].id == id && !l.timers[j].removed
  {
    j :| 0 <= j < |l.timers| && l.timers[j].id == id && !l.timers[j].removed;
  }

  lemma IsLive(l: Loop, id: nat, j: nat)
    requires j < |l.timers| && l.timers[j].id == id && !l.timers[j].removed
    ensures Live(l, id)
  {
  }

  lemma LiveUnlink(l: Loop, gone: nat, id: nat)
    requires id != gone
    ensures Live(Unlink(l, gone), id) <==> Live(l, id)
  {
    hide Live, Find;
    var i, l' := Find(l.timers, gone), Unlink(l, gone);
    if i < |l.timers| {
      if Live(l, id) {
        var j := LiveAt(l, id);
        IsLive(l', id, if j < i then j else j - 1);
      }
      if Live(l', id) {
        var j := LiveAt(l', id);
        IsLive(l, id, if j < i then j else j + 1);
      }
    }
  }

  lemma LiveOnlyOnce(l: Loop, busy: Option<nat>, id: nat)
    requires Inv(l, busy)
    ensures !Live(Unlink(l, id), id)
  {
    hide EntryOk, TraceOk;
  }

  lemma CancelOwned(l: Loop, kind: map<nat, Owner>, busy: Option<nat>, gone: nat, o: Owner, p: Owner, field: Option<nat>)
    requires Inv(l, busy) && gone in kind && kind[gone] == o && Owned(l, kind, p, field, busy)
    requires p == o ==> field == Some(gone)
    ensures Owned(CancelTimer(l, gone), kind, p, if p == o then None else field, busy)
  {
    forall x ensures Live(CancelTimer(l, gone), x) <==> Live(l, x) && x != gone {
      LiveCancel(l, busy, gone, x);
    }
    hide Live, Inv, CancelTimer;
  }

  lemma DismissOk(ed: Editor, busy: Option<nat>, o: Owner)
    requires OwnersOk(ed, busy)
    ensures OwnersOk(Dismiss(ed, o), busy) && Field(Dismiss(ed, o), o).None?
    ensures Dismiss(ed, o).loop.next == ed.loop.next
    ensures forall p :: p != o ==> Field(Dismiss(ed, o), p) == Field(ed, p)
  {
    var id := Field(ed, o);
    assert Owned(ed.loop, ed.kind, o, id, busy);
    if id.Some? {
      CancelInv(ed.loop, busy, id.value);
      var ed' := Dismiss(ed, o);
      assert id.value in ed.kind && ed.kind[id.value] == o;
      hide Inv, Owned, CancelTimer;
      forall p: Owner ensures Owned(ed'.loop, ed'.kind, p, Field(ed', p), busy) {
        CancelOwned(ed.loop, ed.kind, busy, id.value, o, p, Field(ed, p));
      }
    }
  }

  lemma ArmOwned(l: Loop, kind: map<nat, Owner>, busy: Option<nat>, o: Owner, now: Timespec, p: Owner, field: Option<nat>)
    requires Inv(l, busy) && (busy.Some? ==> busy.value < l.next)
    requires (forall id :: id in kind ==> id < l.next) && Owned(l, kind, p, field, busy) && (p == o ==> field.None?)
    ensures Owned(AddTimer(l, now, Delay(o)), kind[l.next := o], p, if p == o then Some(l.next) else field, busy)
  {
    forall x ensures Live(AddTimer(l, now, Delay(o)), x) <==> Live(l, x) || x == l.next {
      LiveAdd(l, busy, now, Delay(o), x);
    }
    hide Live, Inv, AddTimer;
  }

  lemma ArmOk(ed: Editor, busy: Option<nat>, o: Owner, now: Timespec)
    requires OwnersOk(ed, busy) && Field(ed, o).None?
    ensures OwnersOk(Arm(ed, o, now), busy) && Field(Arm(ed, o, now), o).Some?
    ensures forall p :: p != o ==> Field(Arm(ed, o, now), p) == Field(ed, p)
  {
    AddInv(ed.loop, busy, now, Delay(o));
    var ed' := Arm(ed, o, now);
    hide Inv, Owned;
    forall p: Owner ensures Owned(ed'.loop, ed'.kind, p, Field(ed', p), busy) {
      ArmOwned(ed.loop, ed.kind, busy, o, now, p, Field(ed, p));
    }
  }

  lemma ScheduleOk(ed: Editor, busy: Option<nat>, o: Owner, now: Timespec)
    requires OwnersOk(ed, busy)
    ensures OwnersOk(Schedule(ed, o, now), busy) && Field(Schedule(ed, o, now), o).Some?
    ensures forall p :: p != o ==> Field(Schedule(ed, o, now), p) == Field(ed, p)
  {
    DismissOk(ed, busy, o);
    ArmOk(Dismiss(ed, o), busy, o, now);
  }

  lemma ForeignOk(ed: Editor, busy: Option<nat>, op: Op)
    requires OwnersOk(ed, busy)
    ensures OwnersOk(Foreign(ed, op), busy)
  {
    var ed' := Foreign(ed, op);
    if !(op.Cancel? && op.id in ed.kind) {
      if op.Add? {
        AddInv(ed.loop, busy, op.now, op.ms);
      } else {
        CancelInv(ed.loop, busy, op.id);
      }
      forall o: Owner ensures Owned(ed'.loop, ed'.kind, o, Field(ed', o), busy) {
        assert Owned(ed.loop, ed.kind, o, Field(ed, o), busy);
        forall x | x in ed.kind ensures Live(ed'.loop, x) <==> Live(ed.loop, x) {
          if op.Add? {
            LiveAdd(ed.loop, busy, op.now, op.ms, x);
          } else {
            LiveCancel(ed.loop, busy, op.id, x);
          }
        }
        hide Live, Inv, DoOp;
      }
      hide Inv, Owned;
    }
  }

  lemma {:induction false} ForeignsOk(ed: Editor, busy: Option<nat>, ops: seq<Op>)
    requires OwnersOk(ed, busy)
    ensures OwnersOk(Foreigns(ed, ops), busy)
    ensures var ed' := Foreigns(ed, ops); ed' == ed.(loop := ed'.loop)
  {
    hide OwnersOk, DoOp;
    if ops != [] {
      ForeignsOk(ed, busy, ops[..|ops| - 1]);
      ForeignOk(Foreigns(ed, ops[..|ops| - 1]), busy, ops[|ops| - 1]);
    }
  }

  /** Firing an owned timer and forgetting it in its field. */
  lemma FireLive(l: Loop, id: nat, now: Timespec)
    ensures forall x :: Live(Fire(l, id, now), x) <==> Live(l, x)
  {
  }

  lemma OwnedAt(ed: Editor, busy: Option<nat>, o: Owner)
    requires OwnersOk(ed, busy)
    ensures Owned(ed.loop, ed.kind, o, Field(ed, o), busy)
  {
    hide Inv, Owned;
  }

  lemma OwnedNames(l: Loop, kind: map<nat, Owner>, o: Owner, field: Option<nat>, id: nat)
    requires Owned(l, kind, o, field, None) && id in kind && kind[id] == o && Live(l, id)
    ensures field == Some(id)
  {
    hide Live;
  }

  lemma FieldSet(ed: Editor, loop: Loop, o: Owner, p: Owner)
    ensures var ed' := SetField(ed.(loop := loop), o, None);
            ed'.loop == loop && ed'.kind == ed.kind && Field(ed', p) == if p == o then None else Field(ed, p)
  {
  }

  lemma FireNext(l: Loop, id: nat, now: Timespec)
    ensures Fire(l, id, now).next == l.next
  {
  }

  /** The owner of the timer that fires. */
  lemma FireEmpties(l: Loop, id: nat, now: Timespec, kind: map<nat, Owner>, o: Owner)
    requires Owned(l, kind, o, Some(id), None)
    ensures Owned(Fire(l, id, now), kind, o, None, Some(id))
  {
    FireLive(l, id, now);
    hide Live, Fire;
  }

  /** Another owner. */
  lemma FireOther(l: Loop, id: nat, now: Timespec, kind: map<nat, Owner>, p: Owner, field: Option<nat>)
    requires Owned(l, kind, p, field, None) && id in kind && kind[id] != p
    ensures Owned(Fire(l, id, now), kind, p, field, Some(id))
  {
    FireLive(l, id, now);
    hide Live, Fire;
  }

  lemma FireOwned(ed: Editor, id: nat, now: Timespec)
    requires OwnersOk(ed, None) && id in ed.kind
    requires var i := Find(ed.loop.timers, id);
             i < |ed.loop.timers| && !ed.loop.timers[i].removed && Expired(ed.loop.timers[i].expiry, now)
    ensures Field(ed, ed.kind[id]) == Some(id)
    ensures OwnersOk(SetField(ed.(loop := Fire(ed.loop, id, now)), ed.kind[id], None), Some(id))
  {
    var o := ed.kind[id];
    IsLive(ed.loop, id, Find(ed.loop.timers, id));
    FireInv(ed.loop, id, now);
    hide Live, Inv, Find, Expired, Owned, Field, SetField, Fire;
    OwnedAt(ed, None, o);
    OwnedNames(ed.loop, ed.kind, o, Field(ed, o), id);
    var ed' := SetField(ed.(loop := Fire(ed.loop, id, now)), o, None);
    forall p: Owner ensures Owned(ed'.loop, ed'.kind, p, Field(ed', p), Some(id)) {
      OwnedAt(ed, None, p);
      FieldSet(ed, Fire(ed.loop, id, now), o, p);
      if p == o { FireEmpties(ed.loop, id, now, ed.kind, p); } else { FireOther(ed.loop, id, now, ed.kind, p, Field(ed, p)); }
    }
    FieldSet(ed, Fire(ed.loop, id, now), o, o);
    FireNext(ed.loop, id, now);
  }

  lemma FireSpares(l: Loop, id: nat, now: Timespec, kind: map<nat, Owner>, p: Owner, field: Option<nat>)
    requires Owned(l, kind, p, field, None) && field != Some(id)
    ensures Owned(Fire(l, id, now), kind, p, field, Some(id))
  {
    hide Live;
    FireLive(l, id, now);
  }

  lemma FireForeign(ed: Editor, id: nat, now: Timespec)
    requires OwnersOk(ed, None) && id !in ed.kind
    requires var i := Find(ed.loop.timers, id);
             i < |ed.loop.timers| && !ed.loop.timers[i].removed && Expired(ed.loop.timers[i].expiry, now)
    ensures OwnersOk(ed.(loop := Fire(ed.loop, id, now)), Some(id))
  {
    hide Inv, Live, Expired;
    FireInv(ed.loop, id, now);
    var ed' := ed.(loop := Fire(ed.loop, id, now));
    forall p: Owner ensures Owned(ed'.loop, ed'.kind, p, Field(ed', p), Some(id)) {
      assert Owned(ed.loop, ed.kind, p, Field(ed, p), None);
      FireSpares(ed.loop, id, now, ed.kind, p, Field(ed, p));
    }
  }

  lemma UnlinkOk(ed: Editor, busy: Option<nat>, id: nat)
    requires OwnersOk(ed, busy) && (busy == Some(id) || (busy.None? && !Live(ed.loop, id)))
    ensures OwnersOk(ed.(loop := Unlink(ed.loop, id)), None)
  {
    UnlinkInv(ed.loop, busy, id);
    var ed' := ed.(loop := Unlink(ed.loop, id));
    LiveOnlyOnce(ed.loop, busy, id);
    forall p: Owner ensures Owned(ed'.loop, ed'.kind, p, Field(ed', p), None) {
      assert Owned(ed.loop, ed.kind, p, Field(ed, p), busy);
      forall x | x != id ensures Live(ed'.loop, x) <==> Live(ed.loop, x) {
        LiveUnlink(ed.loop, id, x);
      }
      hide Live, Inv, Unlink;
    }
    hide Inv, Owned, Live;
  }

  // ----- what the states promise

  /** A verdict is only shown, a password only kept and the indicator only lit while the timer that will
      end it is armed. */
  predicate Settled(ed: Editor) {
    && (ed.auth == Invalid ==> ed.authIdle.Some?)
    && (ed.chars != [] ==> ed.clearPassword.Some?)
    && (ed.input != Idle ==> ed.inputIdle.Some?)
  }

  /** Scheduling and dismissing touch the timers only. */
  lemma Untouched(ed: Editor, o: Owner, now: Timespec)
    ensures Schedule(ed, o, now).input == ed.input && Schedule(ed, o, now).auth == ed.auth
    ensures Schedule(ed, o, now).chars == ed.chars && Schedule(ed, o, now).failed == ed.failed
    ensures Dismiss(ed, o).input == ed.input && Dismiss(ed, o).auth == ed.auth
    ensures Dismiss(ed, o).chars == ed.chars && Dismiss(ed, o).failed == ed.failed
    ensures Schedule(ed, o, now).submitted == ed.submitted && Dismiss(ed, o).submitted == ed.submitted
  {
    hide CancelTimer, AddTimer;
  }

  lemma WithStates(ed: Editor, busy: Option<nat>, ed': Editor)
    requires OwnersOk(ed, busy) && ed' == ed.(input := ed'.input, auth := ed'.auth, chars := ed'.chars, failed := ed'.failed,
                                                submitted := ed'.submitted)
    ensures OwnersOk(ed', busy)
  {
    assert forall o: Owner :: Field(ed', o) == Field(ed, o);
    hide Inv, Owned;
  }

  lemma CallbackOk(ed: Editor, id: nat, now: Timespec, clock: Timespec)
    requires OwnersOk(ed, None) && Settled(ed) && id in ed.kind
    requires var i := Find(ed.loop.timers, id);
             i < |ed.loop.timers| && !ed.loop.timers[i].removed && Expired(ed.loop.timers[i].expiry, now)
    ensures var called := Callback(ed.(loop := Fire(ed.loop, id, now)), ed.kind[id], clock);
            OwnersOk(called, Some(id)) && Settled(called)
  {
    FireOwned(ed, id, now);
    var o := ed.kind[id];
    var fired := ed.(loop := Fire(ed.loop, id, now));
    var forgot := SetField(fired, o, None);
    var called := Callback(fired, o, clock);
    hide OwnersOk, Fire, Schedule;
    match o
    case InputIdle => WithStates(forgot, Some(id), called);
    case AuthIdle => WithStates(forgot, Some(id), called);
    case ClearPassword => {
      var ed1 := forgot.(input := Cleared);
      WithStates(forgot, Some(id), ed1);
      ScheduleOk(ed1, Some(id), InputIdle, clock);
      Untouched(ed1, InputIdle, clock);
      WithStates(Schedule(ed1, InputIdle, clock), Some(id), called);
      assert Field(Schedule(ed1, InputIdle, clock), AuthIdle) == Field(ed1, AuthIdle);
    }
  }

  lemma VisitOk(ed: Editor, id: nat, now: Timespec, clock: Timespec, ops: seq<Op>)
    requires OwnersOk(ed, None) && Settled(ed)
    ensures OwnersOk(VisitTimer(ed, id, now, clock, ops), None) && Settled(VisitTimer(ed, id, now, clock, ops))
  {
    var i := Find(ed.loop.timers, id);
    if i < |ed.loop.timers| {
      if ed.loop.timers[i].removed {
        RemovedNotLive(ed.loop, i);
        UnlinkOk(ed, None, id);
      } else if Expired(ed.loop.timers[i].expiry, now) {
        var fired := ed.(loop := Fire(ed.loop, id, now));
        if id in ed.kind {
          CallbackOk(ed, id, now, clock);
          UnlinkOk(Callback(fired, ed.kind[id], clock), Some(id), id);
        } else {
          FireForeign(ed, id, now);
          ForeignsOk(fired, Some(id), ops);
          UnlinkOk(Foreigns(fired, ops), Some(id), id);
        }
      }
    }
    hide OwnersOk, Callback, Foreigns, Unlink, Fire;
  }

  lemma RemovedNotLive(l: Loop, i: nat)
    requires Inv(l, None) && i < |l.timers| && l.timers[i].removed
    ensures !Live(l, l.timers[i].id)
  {
    hide EntryOk, TraceOk;
  }

  lemma {:induction false} VisitsOk(ed: Editor, ids: seq<nat>, now: Timespec, clock: nat -> Timespec, scripts: nat -> seq<Op>)
    requires OwnersOk(ed, None) && Settled(ed)
    ensures var ed' := VisitTimers(ed, ids, now, clock, scripts);
            OwnersOk(ed', None) && Settled(ed')
  {
    hide OwnersOk, Settled, VisitTimer;
    if ids != [] {
      var init, id := ids[..|ids| - 1], ids[|ids| - 1];
      VisitsOk(ed, init, now, clock, scripts);
      VisitOk(VisitTimers(ed, init, now, clock, scripts), id, now, clock(id), scripts(id));
    }
  }

  lemma WipeOk(ed: Editor, now: Timespec)
    requires OwnersOk(ed, None) && Settled(ed)
    ensures OwnersOk(Wipe(ed, now), None) && Settled(Wipe(ed, now))
  {
    var ed1 := ed.(chars := [], input := Cleared);
    WithStates(ed, None, ed1);
    hide OwnersOk;
    DismissOk(ed1, None, ClearPassword);
    ScheduleOk(Dismiss(ed1, ClearPassword), None, InputIdle, now);
    assert Field(Wipe(ed, now), AuthIdle) == ed.authIdle;
    Untouched(Dismiss(ed1, ClearPassword), InputIdle, now);
    assert ed1.auth == Dismiss(ed1, ClearPassword).auth;
  }

  /** A key that leaves the password standing arms both timers. */
  lemma TypedOk(ed: Editor, typed: Editor, now: Timespec)
    requires OwnersOk(ed, None) && Settled(ed)
    requires typed == ed.(input := typed.input, chars := typed.chars)
    ensures var ed' := Schedule(Schedule(typed, ClearPassword, now), InputIdle, now);
            OwnersOk(ed', None) && Settled(ed')
  {
    WithStates(ed, None, typed);
    hide OwnersOk;
    var ed1 := Schedule(typed, ClearPassword, now);
    var ed2 := Schedule(ed1, InputIdle, now);
    ScheduleOk(typed, None, ClearPassword, now);
    ScheduleOk(ed1, None, InputIdle, now);
    Untouched(typed, ClearPassword, now);
    Untouched(ed1, InputIdle, now);
    hide Schedule;
    assert Field(ed2, AuthIdle) == Field(ed1, AuthIdle) == ed.authIdle && Field(ed2, ClearPassword) == Field(ed1, ClearPassword);
  }

  lemma SubmitOk(ed: Editor, ignoreEmpty: bool, written: bool, now: Timespec)
    requires OwnersOk(ed, None) && Settled(ed)
    ensures OwnersOk(Submit(ed, ignoreEmpty, written, now), None) && Settled(Submit(ed, ignoreEmpty, written, now))
  {
    if !(ignoreEmpty && ed.chars == []) && ed.auth != Validating {
      var ed1 := ed.(input := Idle, auth := Validating);
      WithStates(ed, None, ed1);
      var ed2 := Dismiss(ed1, ClearPassword);
      var ed3 := Dismiss(ed2, InputIdle);
      DismissOk(ed1, None, ClearPassword);
      DismissOk(ed2, None, InputIdle);
      Untouched(ed1, ClearPassword, now);
      Untouched(ed2, InputIdle, now);
      var sent := ed3.(chars := []);
      WithStates(ed3, None, sent);
      WithStates(ed3, None, sent.(submitted := ed.submitted + [ed.chars]));
      if !written {
        var shown := sent.(auth := Invalid);
        WithStates(sent, None, shown);
        hide OwnersOk, Dismiss;
        ScheduleOk(shown, None, AuthIdle, now);
        Untouched(shown, AuthIdle, now);
      }
      hide OwnersOk, Dismiss, Schedule;
    }
  }

  lemma RefusedOk(ed: Editor, now: Timespec)
    requires OwnersOk(ed, None) && Settled(ed)
    ensures OwnersOk(Refused(ed, now), None) && Settled(Refused(ed, now))
  {
    hide OwnersOk, Schedule;
    var shown := ed.(auth := Invalid);
    WithStates(ed, None, shown);
    ScheduleOk(shown, None, AuthIdle, now);
    Untouched(shown, AuthIdle, now);
    var armed := Schedule(shown, AuthIdle, now);
    WithStates(armed, None, armed.(failed := armed.failed + 1));
    assert Field(armed, ClearPassword) == ed.clearPassword && Field(armed, InputIdle) == ed.inputIdle;
  }

  lemma KeyOk(ed: Editor, key: Key, control: bool, codepoint: Code, ignoreEmpty: bool, written: bool, now: Timespec)
    requires OwnersOk(ed, None) && Settled(ed)
    ensures var ed' := HandleKey(ed, key, control, codepoint, ignoreEmpty, written, now);
            OwnersOk(ed', None) && Settled(ed')
  {
    hide OwnersOk, Settled, Wipe, Submit, Schedule, Edited;
    WipeOk(ed, now);
    SubmitOk(ed, ignoreEmpty, written, now);
    TypedOk(ed, ed.(chars := Edited(ed.chars, Backspace, CAPACITY), input := Backspaced), now);
    TypedOk(ed, ed.(chars := Edited(ed.chars, Append(codepoint), CAPACITY), input := Letter), now);
    TypedOk(ed, ed.(input := Neutral), now);
  }

  /** In every run: each of the three fields is empty or names a timer that is listed, not removed and
      has that owner's callback, no such timer goes unowned, and what the timers are to end does not
      outlast them. */
  lemma {:induction false} OwnersAlwaysOk(inputs: seq<Input>)
    ensures OwnersOk(Run(inputs), None) && Settled(Run(inputs))
  {
    if inputs != [] {
      var ed := Run(inputs[..|inputs| - 1]);
      OwnersAlwaysOk(inputs[..|inputs| - 1]);
      match inputs[|inputs| - 1]
      case KeyPress(key, control, codepoint, ignoreEmpty, written, now) =>
        KeyOk(ed, key, control, codepoint, ignoreEmpty, written, now);
      case Reply(now) => RefusedOk(ed, now);
      case Elsewhere(op) => ForeignOk(ed, None, op);
      case Dispatch(now, clock, scripts) => VisitsOk(ed, Ids(ed.loop.timers), now, clock, scripts);
    }
    hide OwnersOk, HandleKey, VisitTimers, Refused;
  }
}
