/** The password editor as the program keeps it: timer fields replaced in place, the buffer edited in
    place. Each function is proved to take the step of PasswordTimers. */
module PasswordEditors {
  import opened Options
  import opened Clocks
  import opened Unicode
  import opened Passwords
  import opened Timers
  import opened PasswordTimers

  /** The parts of `struct swaylock_state` that password.c uses. */
  class EditorState {
    const eventLoop: TimerLoop
    const password: Password
    var inputIdleTimer: Option<nat>
    var authIdleTimer: Option<nat>
    var clearPasswordTimer: Option<nat>
    var inputState: InputState
    var authState: AuthState
    var failedAttempts: nat
    ghost var kind: map<nat, Owner>
    ghost var submitted: seq<seq<Code>>

    ghost predicate Valid()
      reads this, password, password.buffer
    {
      password.Valid() && password.buffer.Length == CAPACITY
    }

    ghost function View(): Editor
      reads this, eventLoop, password
    {
      Editor(eventLoop.View(), kind, inputIdleTimer, authIdleTimer, clearPasswordTimer, inputState, authState,
             password.chars, failedAttempts, submitted)
    }

    constructor ()
      ensures Valid() && View() == START && fresh(eventLoop) && fresh(password) && fresh(password.buffer)
    {
      eventLoop := new TimerLoop();
      password := new Password(CAPACITY);
      inputIdleTimer, authIdleTimer, clearPasswordTimer := None, None, None;
      inputState, authState, failedAttempts, kind, submitted := Idle, NoAuth, 0, map[], [];
    }

    method ScheduleInputIdle(now: Timespec)
      requires Valid()
      modifies this, eventLoop
      ensures Valid() && View() == Schedule(old(View()), InputIdle, now)
    {
      hide AddTimer, CancelTimer;
      if inputIdleTimer.Some? {
        var _ := eventLoop.LoopRemoveTimer(inputIdleTimer.value);
      }
      var id := eventLoop.LoopAddTimer(now, 1500);
      inputIdleTimer := Some(id);
      kind := kind[id := InputIdle];
    }

    method CancelInputIdle()
      requires Valid()
      modifies this, eventLoop
      ensures Valid() && View() == Dismiss(old(View()), InputIdle)
    {
      hide CancelTimer;
      if inputIdleTimer.Some? {
        var _ := eventLoop.LoopRemoveTimer(inputIdleTimer.value);
        inputIdleTimer := None;
      }
    }

    method ScheduleAuthIdle(now: Timespec)
      requires Valid()
      modifies this, eventLoop
      ensures Valid() && View() == Schedule(old(View()), AuthIdle, now)
    {
      hide AddTimer, CancelTimer;
      if authIdleTimer.Some? {
        var _ := eventLoop.LoopRemoveTimer(authIdleTimer.value);
      }
      var id := eventLoop.LoopAddTimer(now, 3000);
      authIdleTimer := Some(id);
      kind := kind[id := AuthIdle];
    }

    method SchedulePasswordClear(now: Timespec)
      requires Valid()
      modifies this, eventLoop
      ensures Valid() && View() == Schedule(old(View()), ClearPassword, now)
    {
      hide AddTimer, CancelTimer;
      if clearPasswordTimer.Some? {
        var _ := eventLoop.LoopRemoveTimer(clearPasswordTimer.value);
      }
      var id := eventLoop.LoopAddTimer(now, 10000);
      clearPasswordTimer := Some(id);
      kind := kind[id := ClearPassword];
    }

    method CancelPasswordClear()
      requires Valid()
      modifies this, eventLoop
      ensures Valid() && View() == Dismiss(old(View()), ClearPassword)
    {
      hide CancelTimer;
      if clearPasswordTimer.Some? {
        var _ := eventLoop.LoopRemoveTimer(clearPasswordTimer.value);
        clearPasswordTimer := None;
      }
    }

    /** `set_input_idle()`. */
    method SetInputIdle(now: Timespec)
      requires Valid()
      modifies this
      ensures Valid() && View() == Callback(old(View()), InputIdle, now)
    {
      inputIdleTimer := None;
      inputState := Idle;
    }

    /** `set_auth_idle()`. */
    method SetAuthIdle(now: Timespec)
      requires Valid()
      modifies this
      ensures Valid() && View() == Callback(old(View()), AuthIdle, now)
    {
      authIdleTimer := None;
      authState := NoAuth;
    }

    /** `clear_password()`. */
    method ClearPasswordNow(now: Timespec)
      requires Valid()
      modifies this, eventLoop, password, password.buffer
      ensures Valid() && View() == Callback(old(View()), ClearPassword, now)
      ensures forall k :: 0 <= k < password.buffer.Length ==> password.buffer[k] == 0
    {
      hide Schedule;
      clearPasswordTimer := None;
      inputState := Cleared;
      ScheduleInputIdle(now);
      password.ClearPasswordBuffer();
    }

    /** `submit_password()`; whatever becomes of the request, the buffer is wiped byte by byte. */
    method SubmitPassword(ignoreEmpty: bool, written: bool, now: Timespec)
      requires Valid()
      modifies this, eventLoop, password, password.buffer
      ensures Valid() && View() == Submit(old(View()), ignoreEmpty, written, now)
      ensures (ignoreEmpty && old(password.chars) == []) || old(authState) == Validating
              || forall k :: 0 <= k < password.buffer.Length ==> password.buffer[k] == 0
    {
      HoldsEmpty(password.buffer[..], password.len, password.chars);
      hide Schedule, Dismiss, Holds;
      if ignoreEmpty && password.len == 0 {
        return;
      }
      if authState == Validating {
        return;
      }
      inputState := Idle;
      authState := Validating;
      CancelPasswordClear();
      CancelInputIdle();
      if written {
        submitted := submitted + [password.chars];
      }
      password.ClearPasswordBuffer();
      if !written {
        authState := Invalid;
        ScheduleAuthIdle(now);
      }
    }

    method WipePassword(now: Timespec)
      requires Valid()
      modifies this, eventLoop, password, password.buffer
      ensures Valid() && View() == Wipe(old(View()), now)
      ensures forall k :: 0 <= k < password.buffer.Length ==> password.buffer[k] == 0
    {
      hide Schedule, Dismiss;
      password.ClearPasswordBuffer();
      inputState := Cleared;
      CancelPasswordClear();
      ScheduleInputIdle(now);
    }

    method EraseLast(now: Timespec)
      requires Valid()
      modifies this, eventLoop, password, password.buffer
      ensures Valid() && View() == EraseKey(old(View()), now)
    {
      hide Schedule, Dismiss, Holds;
      var removed := password.BackspaceCh();
      LengthTells(password);
      if removed && password.len != 0 {
        inputState := Backspaced;
        SchedulePasswordClear(now);
      } else {
        inputState := Cleared;
        CancelPasswordClear();
      }
      ScheduleInputIdle(now);
    }

    lemma LengthTells(pw: Password)
      requires pw.Valid()
      ensures pw.len == 0 <==> pw.chars == []
    {
      HoldsEmpty(pw.buffer[..], pw.len, pw.chars);
    }

    method TypeCharacter(codepoint: Code, now: Timespec)
      requires Valid()
      modifies this, eventLoop, password, password.buffer
      ensures Valid() && View() == CharKey(old(View()), codepoint, now)
    {
      hide Schedule, Dismiss, Holds;
      if codepoint != 0 {
        password.AppendCh(codepoint);
        inputState := Letter;
        SchedulePasswordClear(now);
        ScheduleInputIdle(now);
      }
    }

    /** `swaylock_handle_key()`. */
    method HandleKeyPress(key: Key, control: bool, codepoint: Code, ignoreEmpty: bool, written: bool, now: Timespec)
      requires Valid()
      modifies this, eventLoop, password, password.buffer
      ensures Valid() && View() == HandleKey(old(View()), key, control, codepoint, ignoreEmpty, written, now)
    {
      hide Schedule, Dismiss, Holds, Submit, Wipe, EraseKey, CharKey;
      match key
      case Return => SubmitPassword(ignoreEmpty, written, now);
      case Erase => {
        if control {
          WipePassword(now);
        } else {
          EraseLast(now);
        }
      }
      case Escape => WipePassword(now);
      case Modifier => {
        inputState := Neutral;
        SchedulePasswordClear(now);
        ScheduleInputIdle(now);
      }
      case SubmitLetter => {
        if control {
          SubmitPassword(ignoreEmpty, written, now);
        } else {
          TypeCharacter(codepoint, now);
        }
      }
      case ClearLetter => {
        if control {
          WipePassword(now);
        } else {
          TypeCharacter(codepoint, now);
        }
      }
      case Other => TypeCharacter(codepoint, now);
    }
  }
}
