/** The password editor told from its inputs: what the keys mean, and two time-outs instead of timer objects. */
module PasswordHistory {
  import opened Options
  import opened Clocks
  import opened Unicode
  import opened Passwords
  import opened Timers
  import opened PasswordTimers

  // ----- what the keys mean

  /** Enter, or Ctrl with M, D or J. */
  predicate Submits(key: Key, control: bool) {
    key == Return || (key == SubmitLetter && control)
  }

  /** Escape, or Ctrl with backspace, C or U. */
  predicate Wipes(key: Key, control: bool) {
    key == Escape || ((key == Erase || key == ClearLetter) && control)
  }

  predicate Erases(key: Key, control: bool) {
    key == Erase && !control
  }

  /** Any other key that yields a character. */
  predicate Types(key: Key, control: bool, codepoint: Code) {
    codepoint != 0 && (key == Other || ((key == SubmitLetter || key == ClearLetter) && !control))
  }

  // ----- the history

  /** The password typed and since when it stands, the verdict and since when it is shown, and what went out. */
  datatype Told = Told(
    stack: seq<Code>,
    typedAt: Option<Timespec>,
    auth: AuthState,
    shownAt: Option<Timespec>,
    submitted: seq<seq<Code>>,
    failed: nat)

  const BLANK := Told([], None, NoAuth, None, [], 0)

  /** A request goes out unless it would be empty and these are ignored, or a verdict is awaited. */
  predicate MaySubmit(t: Told, ignoreEmpty: bool) {
    !(ignoreEmpty && t.stack == []) && t.auth != Validating
  }

  function AfterKey(t: Told, key: Key, control: bool, codepoint: Code, ignoreEmpty: bool, written: bool, now: Timespec): Told {
    if Submits(key, control) then
      if !MaySubmit(t, ignoreEmpty) then t
      else if written then
        t.(stack := [], typedAt := None, auth := Validating, submitted := t.submitted + [t.stack])
      else t.(stack := [], typedAt := None, auth := Invalid, shownAt := Some(now))
    else if Wipes(key, control) then t.(stack := [], typedAt := None)
    else if Erases(key, control) then
      if |t.stack| > 1 then t.(stack := t.stack[..|t.stack| - 1], typedAt := Some(now)) else t.(stack := [], typedAt := None)
    else if Types(key, control, codepoint) then
      // two bytes of the 1024 stay unused
      t.(stack := if |EncodeAll(t.stack + [codepoint])| + 2 <= 1024 then t.stack + [codepoint] else t.stack, typedAt := Some(now))
    else if key == Modifier then t.(typedAt := Some(now))
    else t
  }

  /** A password standing for ten seconds is wiped, a verdict shown for three is taken back. */
  function AfterTimers(t: Told, now: Timespec): Told {
    var wiped := if t.typedAt.Some? && Expired(Expiry(t.typedAt.value, 10000), now) then t.(stack := [], typedAt := None) else t;
    if t.shownAt.Some? && Expired(Expiry(t.shownAt.value, 3000), now) then wiped.(auth := NoAuth, shownAt := None) else wiped
  }

  function After(t: Told, input: Input): Told {
    match input
    case KeyPress(key, control, codepoint, ignoreEmpty, written, now) =>
      AfterKey(t, key, control, codepoint, ignoreEmpty, written, now)
    case Reply(now) => t.(auth := Invalid, shownAt := Some(now), failed := t.failed + 1)
    case Elsewhere(_) => t
    case Dispatch(now, _, _) => AfterTimers(t, now)
  }

  function Tell(inputs: seq<Input>): Told {
    if inputs == [] then BLANK else After(Tell(inputs[..|inputs| - 1]), inputs[|inputs| - 1])
  }

  // ----- the timers keep the two times

  function ExpiryOf(l: Loop, id: nat): Option<Timespec> {
    var i := Find(l.timers, id);
    if i < |l.timers| then Some(l.timers[i].expiry) else None
  }

  predicate Timed(ed: Editor, o: Owner, at: Option<Timespec>) {
    Field(ed, o).Some? == at.Some? &&
    (at.Some? ==> ExpiryOf(ed.loop, Field(ed, o).value) == Some(Expiry(at.value, Delay(o))))
  }

  predicate Follows(ed: Editor, t: Told) {
    && ed.chars == t.stack && ed.auth == t.auth && ed.submitted == t.submitted && ed.failed == t.failed
    && Timed(ed, ClearPassword, t.typedAt) && Timed(ed, AuthIdle, t.shownAt)
  }

  /** Nothing but their place in the list changes for the timers of these owners. */
  predicate Spares(ed: Editor, ed': Editor, o: Owner) {
    Field(ed', o) == Field(ed, o) &&
    (Field(ed, o).Some? ==> ExpiryOf(ed'.loop, Field(ed, o).value) == ExpiryOf(ed.loop, Field(ed, o).value))
  }

  lemma SparesTimed(ed: Editor, ed': Editor, o: Owner, at: Option<Timespec>)
    requires Timed(ed, o, at) && Spares(ed, ed', o)
    ensures Timed(ed', o, at)
  {
    hide ExpiryOf, Expiry;
  }

  lemma SparesTwice(ed: Editor, ed': Editor, ed'': Editor, o: Owner)
    requires Spares(ed, ed', o) && Spares(ed', ed'', o)
    ensures Spares(ed, ed'', o)
  {
    hide ExpiryOf;
  }

  lemma SameSpares(ed: Editor, ed': Editor, o: Owner)
    requires ed'.loop == ed.loop && Field(ed', o) == Field(ed, o)
    ensures Spares(ed, ed', o)
  {
    hide ExpiryOf;
  }

  // Operations on the list.

  lemma FindAt(timers: seq<Entry>, id: nat, i: nat)
    requires i < |timers| && timers[i].id == id && forall k :: 0 <= k < i ==> timers[k].id != id
    ensures Find(timers, id) == i
  {
  }

  lemma AddExpiry(l: Loop, now: Timespec, ms: int, id: nat)
    ensures id != l.next ==> ExpiryOf(AddTimer(l, now, ms), id) == ExpiryOf(l, id)
    ensures ExpiryOf(AddTimer(l, now, ms), l.next) == Some(Expiry(now, ms))
  {
    hide Expiry;
    var l' := AddTimer(l, now, ms);
    assert l'.timers[1..] == l.timers;
  }

  lemma CancelExpiry(l: Loop, gone: nat, id: nat)
    ensures ExpiryOf(CancelTimer(l, gone), id) == ExpiryOf(l, id)
  {
    var g, i, l' := Find(l.timers, gone), Find(l.timers, id), CancelTimer(l, gone);
    if g < |l.timers| {
      assert forall k :: 0 <= k < |l.timers| ==> l'.timers[k].id == l.timers[k].id && l'.timers[k].expiry == l.timers[k].expiry;
      if i < |l.timers| {
        FindAt(l'.timers, id, i);
      } else {
        assert Find(l'.timers, id) == |l'.timers|;
      }
    }
    hide Find;
  }

  lemma UnlinkExpiry(l: Loop, gone: nat, id: nat)
    requires id != gone
    ensures ExpiryOf(Unlink(l, gone), id) == ExpiryOf(l, id)
  {
    hide Find;
    var g, i, l' := Find(l.timers, gone), Find(l.timers, id), Unlink(l, gone);
    if g < |l.timers| {
      assert forall k :: 0 <= k < |l'.timers| ==> l'.timers[k] == l.timers[if k < g then k else k + 1];
      if i < |l.timers| {
        FindAt(l'.timers, id, if i < g then i else i - 1);
      } else {
        assert forall k :: 0 <= k < |l'.timers| ==> l'.timers[k].id != id;
      }
    }
  }

  // The schedule and cancel functions.

  lemma FieldBelow(ed: Editor, busy: Option<nat>, o: Owner)
    requires OwnersOk(ed, busy)
    ensures Field(ed, o).Some? ==> Field(ed, o).value < ed.loop.next
  {
    hide Inv, Live;
    OwnedAt(ed, busy, o);
  }

  lemma DismissSpares(ed: Editor, o: Owner, p: Owner)
    requires p != o
    ensures Spares(ed, Dismiss(ed, o), p)
  {
    hide ExpiryOf, CancelTimer;
    if Field(ed, o).Some? && Field(ed, p).Some? {
      CancelExpiry(ed.loop, Field(ed, o).value, Field(ed, p).value);
    }
  }

  lemma DismissTimed(ed: Editor, o: Owner)
    ensures Timed(Dismiss(ed, o), o, None) && Dismiss(ed, o).loop.next == ed.loop.next
  {
    hide Find;
  }

  lemma ScheduleSpares(ed: Editor, busy: Option<nat>, o: Owner, now: Timespec, p: Owner)
    requires OwnersOk(ed, busy) && p != o
    ensures Spares(ed, Schedule(ed, o, now), p)
  {
    hide ExpiryOf, Dismiss, AddTimer, OwnersOk;
    FieldBelow(ed, busy, p);
    DismissSpares(ed, o, p);
    DismissTimed(ed, o);
    if Field(ed, p).Some? { AddExpiry(Dismiss(ed, o).loop, now, Delay(o), Field(ed, p).value); }
  }

  lemma ScheduleTimed(ed: Editor, o: Owner, now: Timespec)
    ensures Timed(Schedule(ed, o, now), o, Some(now))
  {
    hide ExpiryOf, Dismiss, AddTimer, Expiry;
    AddExpiry(Dismiss(ed, o).loop, now, Delay(o), Dismiss(ed, o).loop.next);
  }

  // ----- keys

  lemma WipeFollows(ed: Editor, t: Told, now: Timespec)
    requires OwnersOk(ed, None) && Follows(ed, t)
    ensures Follows(Wipe(ed, now), t.(stack := [], typedAt := None))
  {
    hide OwnersOk, Timed, Schedule, Dismiss, Spares;
    var ed1 := ed.(chars := [], input := Cleared);
    WithStates(ed, None, ed1);
    var ed2 := Dismiss(ed1, ClearPassword);
    DismissOk(ed1, None, ClearPassword);
    SameSpares(ed, ed1, AuthIdle);
    DismissSpares(ed1, ClearPassword, AuthIdle);
    DismissTimed(ed1, ClearPassword);
    ScheduleSpares(ed2, None, InputIdle, now, ClearPassword);
    ScheduleSpares(ed2, None, InputIdle, now, AuthIdle);
    SparesTimed(ed, ed1, AuthIdle, t.shownAt);
    SparesTimed(ed1, ed2, AuthIdle, t.shownAt);
    SparesTimed(ed2, Wipe(ed, now), AuthIdle, t.shownAt);
    SparesTimed(ed2, Wipe(ed, now), ClearPassword, None);
    Untouched(ed1, ClearPassword, now);
    Untouched(ed2, InputIdle, now);
  }

  lemma TypedFollows(ed: Editor, t: Told, typed: Editor, now: Timespec)
    requires OwnersOk(ed, None) && Follows(ed, t) && typed == ed.(input := typed.input, chars := typed.chars)
    ensures Follows(Schedule(Schedule(typed, ClearPassword, now), InputIdle, now),
                    t.(stack := typed.chars, typedAt := Some(now)))
  {
    hide OwnersOk, Timed, Schedule, Spares;
    WithStates(ed, None, typed);
    var ed1 := Schedule(typed, ClearPassword, now);
    var ed2 := Schedule(ed1, InputIdle, now);
    ScheduleOk(typed, None, ClearPassword, now);
    SameSpares(ed, typed, AuthIdle);
    ScheduleSpares(typed, None, ClearPassword, now, AuthIdle);
    ScheduleTimed(typed, ClearPassword, now);
    ScheduleSpares(ed1, None, InputIdle, now, ClearPassword);
    ScheduleSpares(ed1, None, InputIdle, now, AuthIdle);
    SparesTimed(ed, typed, AuthIdle, t.shownAt);
    SparesTimed(typed, ed1, AuthIdle, t.shownAt);
    SparesTimed(ed1, ed2, AuthIdle, t.shownAt);
    SparesTimed(ed1, ed2, ClearPassword, Some(now));
    Untouched(typed, ClearPassword, now);
    Untouched(ed1, InputIdle, now);
  }

  /** A submission up to the write. */
  function Sending(ed: Editor): Editor {
    Dismiss(Dismiss(ed.(input := Idle, auth := Validating), ClearPassword), InputIdle).(chars := [])
  }

  lemma SendingFollows(ed: Editor, t: Told)
    requires OwnersOk(ed, None) && Follows(ed, t)
    ensures OwnersOk(Sending(ed), None)
    ensures Follows(Sending(ed), t.(stack := [], typedAt := None, auth := Validating))
  {
    hide OwnersOk, Timed, Dismiss, Spares;
    var ed1 := ed.(input := Idle, auth := Validating);
    var ed2 := Dismiss(ed1, ClearPassword);
    var ed3 := Dismiss(ed2, InputIdle);
    WithStates(ed, None, ed1);
    DismissOk(ed1, None, ClearPassword);
    DismissOk(ed2, None, InputIdle);
    WithStates(ed3, None, Sending(ed));
    SameSpares(ed, ed1, AuthIdle);
    DismissSpares(ed1, ClearPassword, AuthIdle);
    DismissTimed(ed1, ClearPassword);
    DismissSpares(ed2, InputIdle, AuthIdle);
    DismissSpares(ed2, InputIdle, ClearPassword);
    SameSpares(ed3, Sending(ed), AuthIdle);
    SameSpares(ed3, Sending(ed), ClearPassword);
    SparesTimed(ed, ed1, AuthIdle, t.shownAt);
    SparesTimed(ed1, ed2, AuthIdle, t.shownAt);
    SparesTimed(ed2, ed3, AuthIdle, t.shownAt);
    SparesTimed(ed3, Sending(ed), AuthIdle, t.shownAt);
    SparesTimed(ed2, ed3, ClearPassword, None);
    SparesTimed(ed3, Sending(ed), ClearPassword, None);
    Untouched(ed1, ClearPassword, ZERO);
    Untouched(ed2, InputIdle, ZERO);
  }

  /** A verdict is shown. */
  lemma ShownFollows(ed: Editor, t: Told, now: Timespec)
    requires OwnersOk(ed, None) && Follows(ed, t)
    ensures Follows(Schedule(ed.(auth := Invalid), AuthIdle, now), t.(auth := Invalid, shownAt := Some(now)))
  {
    hide OwnersOk, Timed, Schedule, Spares;
    var ed1 := ed.(auth := Invalid);
    WithStates(ed, None, ed1);
    SameSpares(ed, ed1, ClearPassword);
    ScheduleSpares(ed1, None, AuthIdle, now, ClearPassword);
    ScheduleTimed(ed1, AuthIdle, now);
    SparesTimed(ed, ed1, ClearPassword, t.typedAt);
    SparesTimed(ed1, Schedule(ed1, AuthIdle, now), ClearPassword, t.typedAt);
    Untouched(ed1, AuthIdle, now);
  }

  lemma SubmitFollows(ed: Editor, t: Told, ignoreEmpty: bool, written: bool, now: Timespec)
    requires OwnersOk(ed, None) && Follows(ed, t)
    ensures Follows(Submit(ed, ignoreEmpty, written, now), AfterKey(t, Return, false, 0, ignoreEmpty, written, now))
  {
    SendingFollows(ed, t);
    hide OwnersOk, Timed, Schedule, Spares, Dismiss;
    if MaySubmit(t, ignoreEmpty) {
      if written {
        var out := Sending(ed).(submitted := ed.submitted + [ed.chars]);
        SameSpares(Sending(ed), out, ClearPassword);
        SameSpares(Sending(ed), out, AuthIdle);
        SparesTimed(Sending(ed), out, ClearPassword, None);
        SparesTimed(Sending(ed), out, AuthIdle, t.shownAt);
      } else {
        ShownFollows(Sending(ed), t.(stack := [], typedAt := None, auth := Validating), now);
      }
    }
  }

  lemma Room(stack: seq<Code>, codepoint: Code)
    ensures Fits(stack, codepoint, CAPACITY) <==> |EncodeAll(stack + [codepoint])| + 2 <= 1024
  {
    assert (stack + [codepoint])[..|stack|] == stack;
    assert EncodeAll(stack + [codepoint]) == EncodeAll(stack) + Encode(codepoint);
    hide Encode, ChSize;
  }

  lemma KeyFollows(ed: Editor, t: Told, key: Key, control: bool, codepoint: Code, ignoreEmpty: bool, written: bool, now: Timespec)
    requires OwnersOk(ed, None) && Follows(ed, t)
    ensures Follows(HandleKey(ed, key, control, codepoint, ignoreEmpty, written, now),
                    AfterKey(t, key, control, codepoint, ignoreEmpty, written, now))
  {
    hide OwnersOk, Timed, Schedule, Wipe, Submit, EncodeAll, Fits;
    if Submits(key, control) {
      SubmitFollows(ed, t, ignoreEmpty, written, now);
    } else if Wipes(key, control) {
      WipeFollows(ed, t, now);
    } else if Erases(key, control) {
      WipeFollows(ed, t, now);
      TypedFollows(ed, t, ed.(chars := Edited(ed.chars, Backspace, CAPACITY), input := Backspaced), now);
    } else if Types(key, control, codepoint) {
      Room(t.stack, codepoint);
      TypedFollows(ed, t, ed.(chars := Edited(ed.chars, Append(codepoint), CAPACITY), input := Letter), now);
    } else if key == Modifier {
      TypedFollows(ed, t, ed.(input := Neutral), now);
    }
  }

  lemma RefusedFollows(ed: Editor, t: Told, now: Timespec)
    requires OwnersOk(ed, None) && Follows(ed, t)
    ensures Follows(Refused(ed, now), t.(auth := Invalid, shownAt := Some(now), failed := t.failed + 1))
  {
    ShownFollows(ed, t, now);
    hide OwnersOk, Timed, Schedule;
    var armed := Schedule(ed.(auth := Invalid), AuthIdle, now);
    Untouched(ed.(auth := Invalid), AuthIdle, now);
    SameSpares(armed, Refused(ed, now), ClearPassword);
    SameSpares(armed, Refused(ed, now), AuthIdle);
    SparesTimed(armed, Refused(ed, now), ClearPassword, t.typedAt);
    SparesTimed(armed, Refused(ed, now), AuthIdle, Some(now));
  }

  lemma ForeignFollows(ed: Editor, busy: Option<nat>, t: Told, op: Op)
    requires OwnersOk(ed, busy) && Follows(ed, t)
    ensures Follows(Foreign(ed, op), t)
  {
    ForeignSpares(ed, busy, op, ClearPassword);
    ForeignSpares(ed, busy, op, AuthIdle);
    hide OwnersOk, Timed, DoOp, Spares;
    SparesTimed(ed, Foreign(ed, op), ClearPassword, t.typedAt);
    SparesTimed(ed, Foreign(ed, op), AuthIdle, t.shownAt);
  }

  lemma ForeignSpares(ed: Editor, busy: Option<nat>, op: Op, o: Owner)
    requires OwnersOk(ed, busy)
    ensures Spares(ed, Foreign(ed, op), o)
  {
    hide OwnersOk, ExpiryOf, CancelTimer, AddTimer;
    FieldBelow(ed, busy, o);
    if Field(ed, o).Some? {
      match op
      case Add(now, ms) => AddExpiry(ed.loop, now, ms, Field(ed, o).value);
      case Cancel(id) => CancelExpiry(ed.loop, id, Field(ed, o).value);
    }
  }

  // ----- the dispatch loop

  /** The owner's timer is listed and has expired. */
  predicate Due(ed: Editor, o: Owner, now: Timespec) {
    Field(ed, o).Some? && var x := ExpiryOf(ed.loop, Field(ed, o).value); x.Some? && Expired(x.value, now)
  }

  predicate ClearOutcome(ed: Editor, ed': Editor, fired: bool) {
    if fired then ed'.chars == [] && Field(ed', ClearPassword).None?
    else ed'.chars == ed.chars && Spares(ed, ed', ClearPassword)
  }

  predicate AuthOutcome(ed: Editor, ed': Editor, fired: bool) {
    if fired then ed'.auth == NoAuth && Field(ed', AuthIdle).None?
    else ed'.auth == ed.auth && Spares(ed, ed', AuthIdle)
  }

  predicate Outcome(ed: Editor, ed': Editor, cleared: bool, reset: bool) {
    ClearOutcome(ed, ed', cleared) && AuthOutcome(ed, ed', reset) && ed'.submitted == ed.submitted && ed'.failed == ed.failed
  }

  lemma FieldListed(ed: Editor, o: Owner)
    requires OwnersOk(ed, None) && Field(ed, o).Some?
    ensures var i := Find(ed.loop.timers, Field(ed, o).value);
            i < |ed.loop.timers| && !ed.loop.timers[i].removed
    ensures Field(ed, o).value in ed.kind && ed.kind[Field(ed, o).value] == o
  {
    OwnedAt(ed, None, o);
    var id := Field(ed, o).value;
    var j := LiveAt(ed.loop, id);
    OnlyPlace(ed.loop, id, j);
    hide Live, Inv, Find;
  }

  lemma OnlyPlace(l: Loop, id: nat, j: nat)
    requires Inv(l, None) && j < |l.timers| && l.timers[j].id == id
    ensures Find(l.timers, id) == j
  {
    hide TraceOk, EntryOk, Once;
  }

  lemma {:induction false} ForeignsSpares(ed: Editor, busy: Option<nat>, ops: seq<Op>, o: Owner)
    requires OwnersOk(ed, busy)
    ensures Spares(ed, Foreigns(ed, ops), o)
  {
    hide OwnersOk, Spares, Foreign;
    if ops == [] {
      SameSpares(ed, ed, o);
    } else {
      var init, op := ops[..|ops| - 1], ops[|ops| - 1];
      ForeignsSpares(ed, busy, init, o);
      ForeignsOk(ed, busy, init);
      ForeignSpares(Foreigns(ed, init), busy, op, o);
      SparesTwice(ed, Foreigns(ed, init), Foreigns(ed, ops), o);
    }
  }

  lemma UnlinkSpared(ed: Editor, id: nat, o: Owner)
    requires Field(ed, o) != Some(id)
    ensures Spares(ed, ed.(loop := Unlink(ed.loop, id)), o)
  {
    hide ExpiryOf, Unlink;
    if Field(ed, o).Some? { UnlinkExpiry(ed.loop, id, Field(ed, o).value); }
  }

  lemma FireExpiry(l: Loop, id: nat, now: Timespec, x: nat)
    ensures ExpiryOf(Fire(l, id, now), x) == ExpiryOf(l, x)
  {
  }

  lemma FireSpared(ed: Editor, id: nat, now: Timespec, o: Owner)
    ensures Spares(ed, ed.(loop := Fire(ed.loop, id, now)), o)
  {
    hide ExpiryOf, Fire;
    if Field(ed, o).Some? { FireExpiry(ed.loop, id, now, Field(ed, o).value); }
  }

  /** Unlisting the timer that fired. */
  lemma UnlinkOutcome(ed: Editor, ed': Editor, cleared: bool, reset: bool, id: nat)
    requires Outcome(ed, ed', cleared, reset)
    requires Field(ed', ClearPassword) != Some(id) && Field(ed', AuthIdle) != Some(id)
    ensures Outcome(ed, ed'.(loop := Unlink(ed'.loop, id)), cleared, reset)
  {
    hide Spares, Unlink;
    var ed'' := ed'.(loop := Unlink(ed'.loop, id));
    UnlinkSpared(ed', id, ClearPassword);
    UnlinkSpared(ed', id, AuthIdle);
    if !cleared { SparesTwice(ed, ed', ed'', ClearPassword); }
    if !reset { SparesTwice(ed, ed', ed'', AuthIdle); }
  }

  lemma ClearCallback(ed: Editor, id: nat, fired: Editor, clock: Timespec)
    requires OwnersOk(SetField(fired, ClearPassword, None), Some(id))
    requires Spares(ed, fired, AuthIdle) && fired == ed.(loop := fired.loop)
    ensures Outcome(ed, Callback(fired, ClearPassword, clock), true, false)
  {
    hide OwnersOk, Schedule, Spares;
    var forgot := SetField(fired, ClearPassword, None);
    var ed1 := forgot.(input := Cleared);
    WithStates(forgot, Some(id), ed1);
    var ed2 := Schedule(ed1, InputIdle, clock);
    SameSpares(fired, ed1, AuthIdle);
    ScheduleSpares(ed1, Some(id), InputIdle, clock, AuthIdle);
    ScheduleSpares(ed1, Some(id), InputIdle, clock, ClearPassword);
    Untouched(ed1, InputIdle, clock);
    SameSpares(ed2, ed2.(chars := []), AuthIdle);
    SparesTwice(ed, fired, ed1, AuthIdle);
    SparesTwice(ed, ed1, ed2, AuthIdle);
    SparesTwice(ed, ed2, ed2.(chars := []), AuthIdle);
    SparesField(ed1, ed2, ClearPassword);
  }

  lemma SparesField(ed: Editor, ed': Editor, o: Owner)
    requires Spares(ed, ed', o)
    ensures Field(ed', o) == Field(ed, o)
  {
  }

  lemma PlainCallback(ed: Editor, fired: Editor, o: Owner, clock: Timespec)
    requires o != ClearPassword && fired == ed.(loop := fired.loop)
    requires Spares(ed, fired, ClearPassword) && Spares(ed, fired, AuthIdle)
    ensures Outcome(ed, Callback(fired, o, clock), false, o == AuthIdle)
  {
    hide Spares;
    var called := Callback(fired, o, clock);
    SameSpares(fired, called, ClearPassword);
    SparesTwice(ed, fired, called, ClearPassword);
    if o == InputIdle {
      SameSpares(fired, called, AuthIdle);
      SparesTwice(ed, fired, called, AuthIdle);
    }
  }

  /** One of the three timers fires. */
  lemma OwnedFires(ed: Editor, id: nat, now: Timespec, clock: Timespec)
    requires OwnersOk(ed, None) && id in ed.kind
    requires var i := Find(ed.loop.timers, id);
             i < |ed.loop.timers| && !ed.loop.timers[i].removed && Expired(ed.loop.timers[i].expiry, now)
    ensures var called := Callback(ed.(loop := Fire(ed.loop, id, now)), ed.kind[id], clock);
            Outcome(ed, called.(loop := Unlink(called.loop, id)), ed.kind[id] == ClearPassword, ed.kind[id] == AuthIdle)
    ensures Field(ed, ed.kind[id]) == Some(id)
  {
    hide OwnersOk, Find, Fire, Callback, Outcome, Expired, Unlink;
    FireOwned(ed, id, now);
    var o := ed.kind[id];
    var fired := ed.(loop := Fire(ed.loop, id, now));
    FireSpared(ed, id, now, ClearPassword);
    FireSpared(ed, id, now, AuthIdle);
    if o == ClearPassword { ClearCallback(ed, id, fired, clock); } else { PlainCallback(ed, fired, o, clock); }
    CallbackFields(ed, fired, o, clock, id);
    UnlinkOutcome(ed, Callback(fired, o, clock), o == ClearPassword, o == AuthIdle, id);
  }

  /** After its callback no field names the timer. */
  lemma CallbackFields(ed: Editor, fired: Editor, o: Owner, clock: Timespec, id: nat)
    requires OwnersOk(ed, None) && fired == ed.(loop := fired.loop) && id in ed.kind && ed.kind[id] == o
    requires OwnersOk(SetField(fired, o, None), Some(id)) && Outcome(ed, Callback(fired, o, clock), o == ClearPassword, o == AuthIdle)
    ensures Field(Callback(fired, o, clock), ClearPassword) != Some(id) && Field(Callback(fired, o, clock), AuthIdle) != Some(id)
  {
    hide OwnersOk, Callback, ExpiryOf;
    if Field(ed, ClearPassword).Some? { FieldListed(ed, ClearPassword); }
    if Field(ed, AuthIdle).Some? { FieldListed(ed, AuthIdle); }
  }

  lemma ForeignFires(ed: Editor, id: nat, now: Timespec, ops: seq<Op>)
    requires OwnersOk(ed, None) && id !in ed.kind
    requires var i := Find(ed.loop.timers, id);
             i < |ed.loop.timers| && !ed.loop.timers[i].removed && Expired(ed.loop.timers[i].expiry, now)
    ensures var called := Foreigns(ed.(loop := Fire(ed.loop, id, now)), ops);
            Outcome(ed, called.(loop := Unlink(called.loop, id)), false, false)
  {
    hide OwnersOk, Fire, Foreigns, Spares, Expired, Unlink;
    FireForeign(ed, id, now);
    var fired := ed.(loop := Fire(ed.loop, id, now));
    var called := Foreigns(fired, ops);
    ForeignsOk(fired, Some(id), ops);
    NotOurs(ed, id, ClearPassword);
    NotOurs(ed, id, AuthIdle);
    FireSpared(ed, id, now, ClearPassword);
    FireSpared(ed, id, now, AuthIdle);
    ForeignsSpares(fired, Some(id), ops, ClearPassword);
    ForeignsSpares(fired, Some(id), ops, AuthIdle);
    SparesTwice(ed, fired, called, ClearPassword);
    SparesTwice(ed, fired, called, AuthIdle);
    UnlinkOutcome(ed, called, false, false, id);
  }

  lemma NotOurs(ed: Editor, id: nat, o: Owner)
    requires OwnersOk(ed, None) && id !in ed.kind
    ensures Field(ed, o) != Some(id)
  {
    hide OwnersOk;
    if Field(ed, o).Some? { FieldListed(ed, o); }
  }

  lemma UnchangedOutcome(ed: Editor)
    ensures Outcome(ed, ed, false, false)
  {
    SameSpares(ed, ed, ClearPassword);
    SameSpares(ed, ed, AuthIdle);
    hide Spares;
  }

  /** The field of an owner and the turn of a timer. */
  lemma TurnOf(ed: Editor, id: nat, o: Owner, now: Timespec)
    requires OwnersOk(ed, None)
    ensures var i := Find(ed.loop.timers, id);
            (Field(ed, o) == Some(id) && Due(ed, o, now)) <==>
            i < |ed.loop.timers| && !ed.loop.timers[i].removed && Expired(ed.loop.timers[i].expiry, now)
            && id in ed.kind && ed.kind[id] == o
  {
    hide OwnersOk, Expired;
    var i := Find(ed.loop.timers, id);
    if Field(ed, o) == Some(id) { FieldListed(ed, o); }
    if i < |ed.loop.timers| && !ed.loop.timers[i].removed && id in ed.kind && ed.kind[id] == o {
      IsLive(ed.loop, id, i);
      OwnedAt(ed, None, o);
      OwnedNames(ed.loop, ed.kind, o, Field(ed, o), id);
    }
    hide Find, Owned;
  }

  lemma VisitOutcome(ed: Editor, id: nat, now: Timespec, clock: Timespec, ops: seq<Op>)
    requires OwnersOk(ed, None)
    ensures Outcome(ed, VisitTimer(ed, id, now, clock, ops),
                    Field(ed, ClearPassword) == Some(id) && Due(ed, ClearPassword, now),
                    Field(ed, AuthIdle) == Some(id) && Due(ed, AuthIdle, now))
  {
    hide OwnersOk, Outcome, Due, Expired, Find, Unlink, Fire, Callback, Foreigns;
    TurnOf(ed, id, ClearPassword, now);
    TurnOf(ed, id, AuthIdle, now);
    var i := Find(ed.loop.timers, id);
    UnchangedOutcome(ed);
    if i < |ed.loop.timers| {
      if ed.loop.timers[i].removed {
        RemovedNotOurs(ed, id, ClearPassword);
        RemovedNotOurs(ed, id, AuthIdle);
        UnlinkOutcome(ed, ed, false, false, id);
      } else if Expired(ed.loop.timers[i].expiry, now) {
        if id in ed.kind { OwnedFires(ed, id, now, clock); } else { ForeignFires(ed, id, now, ops); }
      }
    }
  }

  lemma RemovedNotOurs(ed: Editor, id: nat, o: Owner)
    requires OwnersOk(ed, None)
    requires var i := Find(ed.loop.timers, id); i < |ed.loop.timers| && ed.loop.timers[i].removed
    ensures Field(ed, o) != Some(id)
  {
    hide OwnersOk, Find;
    if Field(ed, o).Some? { FieldListed(ed, o); }
  }

  predicate FiresIn(ed: Editor, ids: seq<nat>, o: Owner, now: Timespec) {
    Due(ed, o, now) && Field(ed, o).Some? && Field(ed, o).value in ids
  }

  lemma SparesDue(ed: Editor, ed': Editor, o: Owner, now: Timespec)
    requires Spares(ed, ed', o)
    ensures Due(ed', o, now) <==> Due(ed, o, now)
  {
    hide ExpiryOf, Expired;
  }

  lemma ClearedTwice(ed: Editor, mid: Editor, ed': Editor, first: bool, second: bool)
    requires ClearOutcome(ed, mid, first) && ClearOutcome(mid, ed', second)
    ensures ClearOutcome(ed, ed', first || second)
  {
    hide ExpiryOf;
  }

  lemma ResetTwice(ed: Editor, mid: Editor, ed': Editor, first: bool, second: bool)
    requires AuthOutcome(ed, mid, first) && AuthOutcome(mid, ed', second)
    ensures AuthOutcome(ed, ed', first || second)
  {
    hide ExpiryOf;
  }

  /** One more turn. */
  lemma TurnFires(ed: Editor, mid: Editor, o: Owner, ids: seq<nat>, id: nat, now: Timespec)
    requires if FiresIn(ed, ids, o, now) then Field(mid, o).None? else Spares(ed, mid, o)
    ensures FiresIn(ed, ids + [id], o, now) <==>
            FiresIn(ed, ids, o, now) || (Field(mid, o) == Some(id) && Due(mid, o, now))
  {
    if !FiresIn(ed, ids, o, now) { SparesDue(ed, mid, o, now); }
    hide Due;
  }

  lemma {:induction false} VisitsOutcome(ed: Editor, ids: seq<nat>, now: Timespec, clock: nat -> Timespec, scripts: nat -> seq<Op>)
    requires OwnersOk(ed, None) && Settled(ed)
    ensures Outcome(ed, VisitTimers(ed, ids, now, clock, scripts),
                    FiresIn(ed, ids, ClearPassword, now), FiresIn(ed, ids, AuthIdle, now))
  {
    hide OwnersOk, Settled, VisitTimer, Spares, Due, FiresIn;
    if ids == [] {
      UnchangedOutcome(ed);
      NoneFires(ed, ClearPassword, now);
      NoneFires(ed, AuthIdle, now);
    } else {
      var init, id := ids[..|ids| - 1], ids[|ids| - 1];
      assert ids == init + [id];
      VisitsOutcome(ed, init, now, clock, scripts);
      VisitsOk(ed, init, now, clock, scripts);
      var mid := VisitTimers(ed, init, now, clock, scripts);
      var ed' := VisitTimers(ed, ids, now, clock, scripts);
      VisitOutcome(mid, id, now, clock(id), scripts(id));
      TurnFires(ed, mid, ClearPassword, init, id, now);
      TurnFires(ed, mid, AuthIdle, init, id, now);
      ClearedTwice(ed, mid, ed', FiresIn(ed, init, ClearPassword, now),
                   Field(mid, ClearPassword) == Some(id) && Due(mid, ClearPassword, now));
      ResetTwice(ed, mid, ed', FiresIn(ed, init, AuthIdle, now), Field(mid, AuthIdle) == Some(id) && Due(mid, AuthIdle, now));
    }
  }

  lemma NoneFires(ed: Editor, o: Owner, now: Timespec)
    ensures !FiresIn(ed, [], o, now)
  {
  }

  /** The owner's timer fires in the pass exactly when its time is up. */
  lemma FiresWhenTold(ed: Editor, o: Owner, at: Option<Timespec>, now: Timespec)
    requires OwnersOk(ed, None) && Timed(ed, o, at)
    ensures FiresIn(ed, Ids(ed.loop.timers), o, now) <==> at.Some? && Expired(Expiry(at.value, Delay(o)), now)
  {
    hide OwnersOk, Expiry, Expired;
    if Field(ed, o).Some? {
      FieldListed(ed, o);
      assert Ids(ed.loop.timers)[Find(ed.loop.timers, Field(ed, o).value)] == Field(ed, o).value;
    }
  }

  lemma DispatchFollows(ed: Editor, t: Told, now: Timespec, clock: nat -> Timespec, scripts: nat -> seq<Op>)
    requires OwnersOk(ed, None) && Settled(ed) && Follows(ed, t)
    ensures Follows(VisitTimers(ed, Ids(ed.loop.timers), now, clock, scripts), AfterTimers(t, now))
  {
    hide OwnersOk, Settled, VisitTimers, Spares, FiresIn, Expiry, Expired, Timed;
    var ids := Ids(ed.loop.timers);
    var ed' := VisitTimers(ed, ids, now, clock, scripts);
    VisitsOutcome(ed, ids, now, clock, scripts);
    FiresWhenTold(ed, ClearPassword, t.typedAt, now);
    FiresWhenTold(ed, AuthIdle, t.shownAt, now);
    if FiresIn(ed, ids, ClearPassword, now) { NoTime(ed', ClearPassword); } else { SparesTimed(ed, ed', ClearPassword, t.typedAt); }
    if FiresIn(ed, ids, AuthIdle, now) { NoTime(ed', AuthIdle); } else { SparesTimed(ed, ed', AuthIdle, t.shownAt); }
  }

  lemma NoTime(ed: Editor, o: Owner)
    requires Field(ed, o).None?
    ensures Timed(ed, o, None)
  {
  }

  // ----- every run

  lemma InputFollows(ed: Editor, t: Told, input: Input)
    requires OwnersOk(ed, None) && Settled(ed) && Follows(ed, t)
    ensures Follows(Step(ed, input), After(t, input))
  {
    hide OwnersOk, Settled, Follows, HandleKey, AfterKey, VisitTimers, AfterTimers, Foreign, Refused;
    match input
    case KeyPress(key, control, codepoint, ignoreEmpty, written, now) =>
      KeyFollows(ed, t, key, control, codepoint, ignoreEmpty, written, now);
    case Reply(now) => RefusedFollows(ed, t, now);
    case Elsewhere(op) => ForeignFollows(ed, None, t, op);
    case Dispatch(now, clock, scripts) => DispatchFollows(ed, t, now, clock, scripts);
  }

  /** In every run the password standing, the verdict shown, the failures counted and the passwords that went out are
      exactly what the inputs tell: keys append, take back, wipe or submit, ten seconds without a key wipe the
      password, three seconds take a verdict back. */
  lemma {:induction false} EditorTold(inputs: seq<Input>)
    ensures Follows(PasswordTimers.Run(inputs), Tell(inputs))
  {
    hide OwnersOk, Settled, Step, After;
    if inputs != [] {
      var init := inputs[..|inputs| - 1];
      EditorTold(init);
      OwnersAlwaysOk(init);
      InputFollows(PasswordTimers.Run(init), Tell(init), inputs[|inputs| - 1]);
    }
  }

  /** A password goes out exactly at Enter or Ctrl with M, D or J, unless it is empty and these are ignored, a verdict
      is awaited, or the pipe fails; and what goes out is the stack of that moment. */
  lemma GoesOutExactly(inputs: seq<Input>, key: Key, control: bool, codepoint: Code, ignoreEmpty: bool, written: bool, now: Timespec)
    ensures var ed, ed' := PasswordTimers.Run(inputs), PasswordTimers.Run(inputs + [KeyPress(key, control, codepoint, ignoreEmpty, written, now)]);
            && ed'.submitted == (if (key == Return || (key == SubmitLetter && control)) && !(ignoreEmpty && ed.chars == [])
                                    && ed.auth != Validating && written
                                 then ed.submitted + [ed.chars] else ed.submitted)
            && (ed'.submitted != ed.submitted ==> ed'.chars == [] && ed'.auth == Validating)
  {
    var input := KeyPress(key, control, codepoint, ignoreEmpty, written, now);
    assert (inputs + [input])[..|inputs|] == inputs;
    EditorTold(inputs);
    EditorTold(inputs + [input]);
    hide Timed, PasswordTimers.Run, EncodeAll;
  }

  /** And nothing else sends one. */
  lemma NothingElseGoesOut(inputs: seq<Input>, input: Input)
    requires !input.KeyPress?
    ensures PasswordTimers.Run(inputs + [input]).submitted == PasswordTimers.Run(inputs).submitted
  {
    assert (inputs + [input])[..|inputs|] == inputs;
    EditorTold(inputs);
    EditorTold(inputs + [input]);
    hide Timed, PasswordTimers.Run, Expiry, Expired;
  }
}
