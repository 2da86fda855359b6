/** The loops that move whole messages over a pipe, whatever the kernel makes of each call. */
module CommPipes {
  import opened Clocks
  import opened Unicode
  import opened Passwords
  import opened PasswordTimers
  import opened PasswordEditors
  import opened Comm

  /** How the kernel treats a call: it moves at most `n` bytes (at least one, if there are any), is
      interrupted by a signal, or fails for good. */
  datatype Call = Moves(n: nat) | Interrupted | Fails

  datatype Result = Count(n: nat) | Eintr | Error

  function AtMost(n: nat, room: nat): (m: nat)
    ensures m <= room && (room > 0 ==> m > 0)
  {
    if n == 0 && room > 0 then 1 else if n < room then n else room
  }

  /** The end that is read: `incoming` is all that will arrive before the other end closes. */
  class ReadEnd {
    var incoming: seq<Byte>
    var calls: seq<Call>

    constructor (incoming: seq<Byte>, calls: seq<Call>)
      ensures this.incoming == incoming && this.calls == calls
    {
      this.incoming, this.calls := incoming, calls;
    }

    /** read(2). */
    method Read(dst: array<Byte>, offset: nat, size: nat) returns (r: Result)
      requires 0 < size && offset + size <= dst.Length
      modifies this, dst
      ensures calls == (if old(calls) == [] then [] else old(calls)[1..])
      ensures r.Error? ==> old(calls) != [] && old(calls)[0] == Fails
      ensures r.Eintr? ==> old(calls) != []
      ensures r.Count? && r.n == 0 <==> r.Count? && old(incoming) == []
      ensures var n := if r.Count? then r.n else 0;
              && n <= size && n <= |old(incoming)|
              && incoming == old(incoming)[n..]
              && dst[..] == old(dst[..offset]) + old(incoming)[..n] + old(dst[offset + n..])
    {
      var call := if calls == [] then Moves(size) else calls[0];
      calls := if calls == [] then [] else calls[1..];
      match call
      case Fails => r := Error;
      case Interrupted => r := Eintr;
      case Moves(k) =>
        var n := AtMost(k, if size < |incoming| then size else |incoming|);
        for i := 0 to n
          modifies dst
          invariant forall k :: 0 <= k < i ==> dst[offset + k] == incoming[k]
          invariant forall k :: 0 <= k < dst.Length && !(offset <= k < offset + i) ==> dst[k] == old(dst[k])
        {
          dst[offset + i] := incoming[i];
        }
        assert dst[offset..offset + n] == incoming[..n];
        incoming := incoming[n..];
        r := Count(n);
    }

    /** `read_full()`: all of it, nothing at the end of the stream, or an error. */
    method ReadFull(dst: array<Byte>, size: nat) returns (r: int)
      requires size <= dst.Length
      modifies this, dst
      ensures r == size || r == 0 || r == -1
      ensures r == size ==> size <= |old(incoming)| && incoming == old(incoming)[size..]
                            && dst[..] == old(incoming)[..size] + old(dst[..])[size..]
      ensures r == 0 && size > 0 ==> old(incoming) == incoming == []
      ensures r == -1 ==> Fails in old(calls) || 0 < |old(incoming)| < size
      ensures Fails in calls ==> Fails in old(calls)
    {
      var offset: nat := 0;
      ghost var all, start := incoming, dst[..];
      GotNothing(all, start);
      hide Got;
      while offset < size
        invariant offset <= size && Got(incoming, dst[..], all, start, offset)
        invariant Fails in calls ==> Fails in old(calls)
        decreases |calls|, size - offset
      {
        var n := ReadOn(dst, offset, size, all, start);
        if n.Eintr? {
          continue;
        }
        if n.Error? {
          return -1;
        }
        if n.n == 0 {
          if offset == 0 {
            return 0;
          }
          return -1;
        }
        offset := offset + n.n;
      }
      GotMeans(incoming, dst[..], all, start, offset);
      return offset;
    }

    /** One call behind the `offset` bytes that `read_full()` has. */
    method ReadOn(dst: array<Byte>, offset: nat, size: nat, ghost all: seq<Byte>, ghost start: seq<Byte>) returns (r: Result)
      requires offset < size <= dst.Length == |start| && Got(incoming, dst[..], all, start, offset)
      modifies this, dst
      ensures calls == (if old(calls) == [] then [] else old(calls)[1..])
      ensures r.Error? ==> old(calls) != [] && old(calls)[0] == Fails
      ensures r.Eintr? ==> old(calls) != []
      ensures r.Count? && r.n == 0 ==> |all| == offset && incoming == []
      ensures var n := offset + if r.Count? then r.n else 0;
              n <= size && Got(incoming, dst[..], all, start, n)
    {
      ghost var before := dst[..];
      r := Read(dst, offset, size - offset);
      Spliced(before, all, offset, if r.Count? then r.n else 0, dst[..], start);
    }
  }

  /** `offset` bytes of the stream have gone to the front of the buffer. */
  ghost predicate Got(incoming: seq<Byte>, dst: seq<Byte>, all: seq<Byte>, start: seq<Byte>, offset: nat) {
    && offset <= |all| && offset <= |start|
    && incoming == all[offset..] && dst == all[..offset] + start[offset..]
  }

  lemma GotNothing(all: seq<Byte>, start: seq<Byte>)
    ensures Got(all, start, all, start, 0)
  {
  }

  lemma GotMeans(incoming: seq<Byte>, dst: seq<Byte>, all: seq<Byte>, start: seq<Byte>, offset: nat)
    requires Got(incoming, dst, all, start, offset)
    ensures offset <= |all| && incoming == all[offset..] && offset <= |start| && dst == all[..offset] + start[offset..]
  {
  }

  /** One more piece behind what was read so far. */
  lemma Spliced(before: seq<Byte>, all: seq<Byte>, offset: nat, n: nat, after: seq<Byte>, start: seq<Byte>)
    requires offset + n <= |all| && offset + n <= |start| == |before|
    requires before == all[..offset] + start[offset..]
    requires after == before[..offset] + all[offset..][..n] + before[offset + n..]
    ensures after == all[..offset + n] + start[offset + n..]
  {
    assert all[..offset] + all[offset..][..n] == all[..offset + n];
    assert before[offset + n..] == start[offset..][n..] == start[offset + n..];
  }

  /** The end that is written: `outgoing` is all that was accepted so far. */
  class WriteEnd {
    var outgoing: seq<Byte>
    var calls: seq<Call>

    constructor (calls: seq<Call>)
      ensures outgoing == [] && this.calls == calls
    {
      outgoing, this.calls := [], calls;
    }

    /** write(2). */
    method Write(src: array<Byte>, offset: nat, size: nat) returns (r: Result)
      requires 0 < size && offset + size <= src.Length
      modifies this
      ensures calls == (if old(calls) == [] then [] else old(calls)[1..])
      ensures r.Error? ==> old(calls) != [] && old(calls)[0] == Fails
      ensures r.Eintr? ==> old(calls) != []
      ensures r.Count? ==> 0 < r.n <= size
      ensures outgoing == old(outgoing) + src[offset..offset + if r.Count? then r.n else 0]
    {
      var call := if calls == [] then Moves(size) else calls[0];
      calls := if calls == [] then [] else calls[1..];
      match call
      case Fails => r := Error;
      case Interrupted => r := Eintr;
      case Moves(k) =>
        var n := AtMost(k, size);
        outgoing := outgoing + src[offset..offset + n];
        r := Count(n);
    }

    /** `write_full()`: all of it, or a part and an error. */
    method WriteFull(src: array<Byte>, size: nat) returns (ok: bool)
      requires size <= src.Length
      modifies this
      ensures ok ==> outgoing == old(outgoing) + src[..size]
      ensures !ok ==> Fails in old(calls) && exists k: nat :: k < size && outgoing == old(outgoing) + src[..k]
      ensures Fails in calls ==> Fails in old(calls)
    {
      var offset: nat := 0;
      while offset < size
        invariant offset <= size && outgoing == old(outgoing) + src[..offset]
        invariant Fails in calls ==> Fails in old(calls)
        decreases |calls|, size - offset
      {
        var n := Write(src, offset, size - offset);
        if n.Eintr? {
          continue;
        }
        if n.Error? {
          return false;
        }
        assert src[..offset] + src[offset..offset + n.n] == src[..offset + n.n];
        offset := offset + n.n;
      }
      return true;
    }
  }

  /** A part of the bytes, and not all of them. */
  ghost predicate PartOf(before: seq<Byte>, after: seq<Byte>, all: seq<Byte>) {
    exists k: nat :: k < |all| && after == before + all[..k]
  }

  lemma PartIs(before: seq<Byte>, after: seq<Byte>, all: seq<Byte>, k: nat)
    requires k < |all| && after == before + all[..k]
    ensures PartOf(before, after, all)
  {
  }

  lemma FirstPart(before: seq<Byte>, after: seq<Byte>, a: seq<Byte>, b: seq<Byte>, k: nat)
    requires k < |a| && after == before + a[..k]
    ensures PartOf(before, after, a + b)
  {
    assert (a + b)[..k] == a[..k];
    PartIs(before, after, a + b, k);
  }

  lemma SecondPart(before: seq<Byte>, after: seq<Byte>, a: seq<Byte>, b: seq<Byte>, k: nat)
    requires k < |b| && after == before + a + b[..k]
    ensures PartOf(before, after, a + b)
  {
    assert (a + b)[..|a| + k] == a + b[..k];
    assert before + a + b[..k] == before + (a + b[..k]);
    PartIs(before, after, a + b, |a| + k);
  }

  /** Two writes one after the other: both, or a part of the whole and an error. */
  method WriteBoth(fd: WriteEnd, header: array<Byte>, body: array<Byte>, size: nat) returns (ok: bool)
    requires size <= body.Length
    modifies fd
    ensures ok ==> fd.outgoing == old(fd.outgoing) + (header[..] + body[..size])
    ensures !ok ==> Fails in old(fd.calls) && PartOf(old(fd.outgoing), fd.outgoing, header[..] + body[..size])
  {
    hide PartOf;
    ghost var start := fd.outgoing;
    assert header[..header.Length] == header[..];
    ok := fd.WriteFull(header, header.Length);
    if !ok {
      ghost var k: nat :| k < header.Length && fd.outgoing == start + header[..k];
      assert header[..][..k] == header[..k];
      FirstPart(start, fd.outgoing, header[..], body[..size], k);
      return;
    }
    ok := fd.WriteFull(body, size);
    if !ok {
      ghost var k: nat :| k < size && fd.outgoing == start + header[..] + body[..k];
      assert body[..size][..k] == body[..k];
      SecondPart(start, fd.outgoing, header[..], body[..size], k);
      return;
    }
    assert start + header[..] + body[..size] == start + (header[..] + body[..size]);
  }

  /** `write_comm_request()`: the frame of the password, or a part of it and an error; either way the
      password is wiped. */
  method WriteCommRequest(fd: WriteEnd, pw: Password) returns (result: bool)
    requires pw.Valid() && Sendable(EncodeAll(pw.chars))
    modifies fd, pw, pw.buffer
    ensures result ==> fd.outgoing == old(fd.outgoing) + Frame(EncodeAll(old(pw.chars)))
    ensures !result ==> Fails in old(fd.calls) && PartOf(old(fd.outgoing), fd.outgoing, Frame(EncodeAll(old(pw.chars))))
    ensures pw.Valid() && pw.chars == [] && forall k :: 0 <= k < pw.buffer.Length ==> pw.buffer[k] == 0
  {
    var size := pw.len + 1;
    var header := new Byte[HEADER];
    PutSize(header, size);
    assert header[..] + pw.buffer[..size] == Frame(EncodeAll(pw.chars)) by {
      assert pw.buffer[..][..pw.len] == pw.buffer[..pw.len];
    }
    hide Frame, EncodeAll, Holds, PartOf;
    result := WriteBoth(fd, header, pw.buffer, size);
    pw.ClearPasswordBuffer();
  }

  method PutSize(header: array<Byte>, size: nat)
    requires header.Length == HEADER
    modifies header
    ensures header[..] == SizeBytes(size, HEADER)
  {
    var rest := size;
    ghost var all := SizeBytes(size, HEADER);
    for i := 0 to HEADER
      invariant header[..i] + SizeBytes(rest, HEADER - i) == all
    {
      ghost var before := header[..i];
      header[i] := (rest % 0x100) as Byte;
      assert header[..i + 1] == before + [(rest % 0x100) as Byte];
      rest := rest / 0x100;
    }
    assert header[..HEADER] == header[..];
  }

  method GetSize(header: array<Byte>) returns (size: nat)
    requires header.Length == HEADER
    ensures size == SizeValue(header[..])
  {
    size := 0;
    var i := HEADER;
    while i > 0
      invariant 0 <= i <= HEADER && size == SizeValue(header[i..])
    {
      i := i - 1;
      assert header[i..][1..] == header[i + 1..];
      size := header[i] as nat + 0x100 * size;
    }
    assert header[0..] == header[..];
  }

  /** What a pipe brings: whole requests, and perhaps a part of one more before the other end closes. */
  ghost predicate Brings(incoming: seq<Byte>, pws: seq<seq<Byte>>, cut: seq<Byte>) {
    && incoming == Stream(pws) + cut
    && (forall i :: 0 <= i < |pws| ==> Sendable(pws[i]))
    && exists last :: Sendable(last) && cut < Frame(last)
  }

  lemma BringsNext(incoming: seq<Byte>, pws: seq<seq<Byte>>, cut: seq<Byte>)
    requires Brings(incoming, pws, cut) && pws != []
    ensures Sendable(pws[0]) && HEADER + |pws[0]| + 1 <= |incoming|
    ensures SizeValue(incoming[..HEADER]) == |pws[0]| + 1
    ensures incoming[HEADER..][..|pws[0]| + 1] == pws[0] + [0]
    ensures Brings(incoming[HEADER..][|pws[0]| + 1..], pws[1..], cut)
  {
    StreamFirst(pws);
    var pw, later := pws[0], Stream(pws[1..]) + cut;
    assert incoming == Frame(pw) + later;
    HeaderRead(pw, later, incoming[..HEADER]);
    assert incoming[HEADER..] == pw + [0] + later;
    hide Stream, Frame, SizeBytes, SizeValue;
    assert (pw + [0] + later)[|pw| + 1..] == later;
    assert (pw + [0] + later)[..|pw| + 1] == pw + [0];
  }

  /** Behind the last whole request, no request can be completed. */
  lemma BringsCut(incoming: seq<Byte>, pws: seq<seq<Byte>>, cut: seq<Byte>)
    requires Brings(incoming, pws, cut) && pws == []
    ensures incoming == cut
    ensures |incoming| >= HEADER ==> |incoming| - HEADER < SizeValue(incoming[..HEADER])
  {
    assert Stream([]) == [];
    var last :| Sendable(last) && cut < Frame(last);
    if |cut| >= HEADER {
      assert cut[..HEADER] == (Frame(last) + [])[..HEADER];
      HeaderRead(last, [], cut[..HEADER]);
    }
  }

  /** `read_comm_request()`: the next request, the end of the pipe, or an error -- also when the pipe ends
      inside a request. */
  method ReadCommRequest(fd: ReadEnd, ghost pws: seq<seq<Byte>>, ghost cut: seq<Byte>) returns (r: int, buf: array?<Byte>)
    requires Brings(fd.incoming, pws, cut)
    modifies fd
    ensures r == -1 ==> Fails in old(fd.calls) || (pws == [] && cut != [])
    ensures r == 0 ==> pws == [] && cut == [] && fd.incoming == []
    ensures r > 0 ==>
              && pws != [] && Brings(fd.incoming, pws[1..], cut)
              && buf != null && fresh(buf) && r == buf.Length && buf[..] == pws[0] + [0]
    ensures r >= -1
    ensures Fails in fd.calls ==> Fails in old(fd.calls)
  {
    hide Brings, SizeValue;
    buf := null;
    var header := new Byte[HEADER];
    ghost var all := fd.incoming;
    if pws != [] { BringsNext(all, pws, cut); } else { BringsCut(all, pws, cut); }
    var n := fd.ReadFull(header, HEADER);
    if n <= 0 {
      return n, null;
    }
    assert header[..] == all[..HEADER];
    var size := GetSize(header);
    var buffer := new Byte[size];
    n := fd.ReadFull(buffer, size);
    if n <= 0 {
      return -1, null;
    }
    assert buffer[..] == all[HEADER..][..size];
    return size, buffer;
  }

  lemma HeaderRead(pw: seq<Byte>, later: seq<Byte>, header: seq<Byte>)
    requires Sendable(pw) && |header| == HEADER && header == (Frame(pw) + later)[..HEADER]
    ensures SizeValue(header) == |pw| + 1
    ensures (Frame(pw) + later)[HEADER..] == pw + [0] + later
  {
    SizeRoundTrip(|pw| + 1, HEADER);
    hide SizeValue;
    assert header == SizeBytes(|pw| + 1, HEADER);
  }

  // ----- the backend

  function Verdicts(judge: nat -> bool, m: nat): seq<Byte> {
    if m == 0 then [] else Verdicts(judge, m - 1) + [if judge(m - 1) then 1 else 0]
  }

  /** How many of `n` requests are answered: all up to the first success. */
  function Served(judge: nat -> bool, n: nat): (m: nat)
    ensures m <= n
    ensures m < n ==> m > 0 && judge(m - 1)
    ensures forall k :: 0 <= k < m - 1 ==> !judge(k)
  {
    if n == 0 then 0
    else
      var m := Served(judge, n - 1);
      if m < n - 1 || (m > 0 && judge(m - 1)) then m else n
  }

  lemma ServedExactly(judge: nat -> bool, n: nat, m: nat)
    requires m <= n && (forall k :: 0 <= k < m - 1 ==> !judge(k))
    requires m == n || (m > 0 && judge(m - 1))
    ensures Served(judge, n) == m
  {
    var s := Served(judge, n);
    assert s < n ==> judge(s - 1);
  }

  /** One turn: read a password, have it judged, write the verdict. */
  method AnswerNext(input: ReadEnd, output: WriteEnd, success: bool, ghost pws: seq<seq<Byte>>, ghost cut: seq<Byte>) returns (r: int)
    requires Brings(input.incoming, pws, cut)
    modifies input, output
    ensures -1 <= r <= 1
    ensures r == -1 ==> Fails in old(input.calls) || Fails in old(output.calls)
                        || (pws == [] && cut != [] && output.outgoing == old(output.outgoing))
    ensures r == 0 ==> pws == [] && cut == [] && output.outgoing == old(output.outgoing)
    ensures r == 1 ==> pws != [] && Brings(input.incoming, pws[1..], cut)
                       && output.outgoing == old(output.outgoing) + [if success then 1 else 0]
    ensures Fails in input.calls ==> Fails in old(input.calls)
    ensures Fails in output.calls ==> Fails in old(output.calls)
  {
    hide Brings;
    var size, buf := ReadCommRequest(input, pws, cut);
    if size < 0 {
      return -1;
    } else if size == 0 {
      return 0;
    }
    var reply := new Byte[1];
    reply[0] := if success then 1 else 0;
    assert reply[..1] == [if success then 1 else 0];
    var written := output.WriteFull(reply, 1);
    return if written then 1 else -1;
  }

  lemma VerdictsMore(judge: nat -> bool, m: nat)
    ensures Verdicts(judge, m + 1) == Verdicts(judge, m) + [if judge(m) then 1 else 0]
  {
  }

  /** How far the loop has come: the first k of the requests were judged, none of them a success. */
  ghost predicate Going(judge: nat -> bool, pws: seq<seq<Byte>>, asked: seq<seq<Byte>>, rest: seq<seq<Byte>>, before: seq<Byte>, after: seq<Byte>) {
    && asked + rest == pws && after == before + Verdicts(judge, |asked|)
    && forall i :: 0 <= i < |asked| ==> !judge(i)
  }

  lemma GoesOn(judge: nat -> bool, pws: seq<seq<Byte>>, asked: seq<seq<Byte>>, rest: seq<seq<Byte>>, before: seq<Byte>, after: seq<Byte>)
    requires Going(judge, pws, asked, rest, before, after) && rest != []
    ensures var v := after + [if judge(|asked|) then 1 else 0];
            && (!judge(|asked|) ==> Going(judge, pws, asked + [rest[0]], rest[1..], before, v))
            && (judge(|asked|) ==> Served(judge, |pws|) == |asked| + 1 && v == before + Verdicts(judge, |asked| + 1))
            && asked + [rest[0]] <= pws
  {
    hide Verdicts, Served;
    VerdictsMore(judge, |asked|);
    assert asked + [rest[0]] + rest[1..] == asked + rest;
    if judge(|asked|) { ServedExactly(judge, |pws|, |asked| + 1); }
  }

  lemma GoneThrough(judge: nat -> bool, pws: seq<seq<Byte>>, asked: seq<seq<Byte>>, rest: seq<seq<Byte>>, before: seq<Byte>, after: seq<Byte>)
    requires Going(judge, pws, asked, rest, before, after)
    ensures asked <= pws && |asked| + |rest| == |pws|
    ensures rest == [] ==> Served(judge, |pws|) == |asked| == |pws| && after == before + Verdicts(judge, |pws|)
                           && forall i :: 0 <= i < |pws| ==> !judge(i)
  {
    hide Verdicts, Served;
    if rest == [] { ServedExactly(judge, |pws|, |asked|); }
  }

  /** The loop of `run_pw_backend_child()`; `judge(k)` is what PAM says of the k-th password it is given. */
  method RunBackend(input: ReadEnd, output: WriteEnd, judge: nat -> bool, ghost pws: seq<seq<Byte>>, ghost cut: seq<Byte>)
    returns (ghost asked: seq<seq<Byte>>, ok: bool)
    requires Brings(input.incoming, pws, cut)
    modifies input, output
    ensures asked <= pws
    ensures ok ==> |asked| == Served(judge, |pws|) && output.outgoing == old(output.outgoing) + Verdicts(judge, |asked|)
                   && (cut == [] || (asked != [] && judge(|asked| - 1)))
    ensures !ok ==> Fails in old(input.calls) || Fails in old(output.calls)
                    || (cut != [] && asked == pws && output.outgoing == old(output.outgoing) + Verdicts(judge, |pws|)
                        && forall i :: 0 <= i < |pws| ==> !judge(i))
  {
    hide Brings, Served, Verdicts, Going;
    asked := [];
    ghost var rest, before := pws, output.outgoing;
    NoneYet(judge, pws, before);
    var k := 0;
    while true
      invariant |asked| == k && Brings(input.incoming, rest, cut)
      invariant Going(judge, pws, asked, rest, before, output.outgoing)
      invariant Fails in input.calls ==> Fails in old(input.calls)
      invariant Fails in output.calls ==> Fails in old(output.calls)
      decreases |rest|
    {
      GoneThrough(judge, pws, asked, rest, before, output.outgoing);
      if rest != [] { GoesOn(judge, pws, asked, rest, before, output.outgoing); }
      var success := judge(k);
      var r := AnswerNext(input, output, success, rest, cut);
      if r <= 0 {
        return asked, r == 0;
      }
      asked, rest := asked + [rest[0]], rest[1..];
      k := k + 1;
      if success {
        return asked, true;
      }
    }
  }

  lemma NoneYet(judge: nat -> bool, pws: seq<seq<Byte>>, before: seq<Byte>)
    ensures Going(judge, pws, [], pws, before, before)
  {
    assert before + [] == before;
  }

  // ----- the lock screen

  /** `comm_in()` when the pipe is readable. */
  class LockScreen {
    const editor: EditorState
    var runDisplay: bool

    constructor ()
      ensures runDisplay && editor.Valid() && editor.View() == PasswordTimers.START
      ensures fresh(editor) && fresh(editor.eventLoop) && fresh(editor.password) && fresh(editor.password.buffer)
    {
      editor := new EditorState();
      runDisplay := true;
    }

    method CommIn(fd: ReadEnd, now: Timespec) returns (ok: bool)
      requires editor.Valid() && |fd.incoming| > 0
      modifies this, fd, editor, editor.eventLoop
      ensures editor.Valid()
      ensures !ok ==> Fails in old(fd.calls) && runDisplay == old(runDisplay) && editor.View() == old(editor.View())
      ensures ok ==>
                var success := old(fd.incoming)[0] != 0;
                && fd.incoming == old(fd.incoming)[1..]
                && runDisplay == (old(runDisplay) && !success)
                && editor.View() == if success then old(editor.View()) else Refused(old(editor.View()), now)
    {
      var reply := new Byte[1];
      var n := fd.ReadFull(reply, 1);
      if n <= 0 {
        return false;
      }
      hide Schedule;
      assert reply[0] == reply[..][0];
      if reply[0] != 0 {
        runDisplay := false;
      } else {
        editor.authState := Invalid;
        editor.ScheduleAuthIdle(now);
        editor.failedAttempts := editor.failedAttempts + 1;
      }
      return true;
    }
  }
}
