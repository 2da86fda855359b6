/** The password pipe: framed requests one way, one-byte verdicts the other, over two FIFOs that may
    split every read and write. */
module Comm {
  import opened Unicode

  // ----- framing

  /** The native `size_t` that leads a request: `k` bytes, the lowest first. */
  function SizeBytes(n: nat, k: nat): (s: seq<Byte>)
    ensures |s| == k
  {
    if k == 0 then [] else [(n % 0x100) as Byte] + SizeBytes(n / 0x100, k - 1)
  }

  function SizeValue(s: seq<Byte>): nat {
    if s == [] then 0 else s[0] as nat + 0x100 * SizeValue(s[1..])
  }

  function Span(k: nat): nat {
    if k == 0 then 1 else 0x100 * Span(k - 1)
  }

  const HEADER: nat := 8

  lemma {:induction false} SizeRoundTrip(n: nat, k: nat)
    requires n < Span(k)
    ensures SizeValue(SizeBytes(n, k)) == n
  {
    if k != 0 {
      SizeRoundTrip(n / 0x100, k - 1);
      assert SizeBytes(n, k)[1..] == SizeBytes(n / 0x100, k - 1);
    }
  }

  /** A password whose size with its terminator fits a `size_t`. */
  predicate Sendable(pw: seq<Byte>) {
    |pw| + 1 < Span(HEADER)
  }

  /** What `write_comm_request()` puts on the pipe: the size, the bytes, the terminator. */
  function Frame(pw: seq<Byte>): (s: seq<Byte>)
    ensures |s| == HEADER + |pw| + 1
  {
    SizeBytes(|pw| + 1, HEADER) + pw + [0]
  }

  function Stream(pws: seq<seq<Byte>>): seq<Byte> {
    if pws == [] then [] else Stream(pws[..|pws| - 1]) + Frame(pws[|pws| - 1])
  }

  lemma {:induction false} StreamAppend(a: seq<seq<Byte>>, b: seq<seq<Byte>>)
    ensures Stream(a + b) == Stream(a) + Stream(b)
  {
    hide Frame;
    if b == [] {
      assert a + b == a;
    } else {
      assert (a + b)[..|a + b| - 1] == a + b[..|b| - 1];
      StreamAppend(a, b[..|b| - 1]);
    }
  }

  lemma StreamOne(pw: seq<Byte>)
    ensures Stream([pw]) == Frame(pw)
  {
    assert [pw][..0] == [];
    assert Stream([]) == [];
  }

  /** How much the reader of a request that holds `got` still asks for. */
  function Wanted(got: seq<Byte>): nat {
    if |got| < HEADER then HEADER - |got|
    else
      var whole := HEADER + SizeValue(got[..HEADER]);
      if |got| < whole then whole - |got| else 0
  }

  /** Any part of a frame, cut anywhere: the reader never asks past its end, and stops just there. */
  lemma WantedWithin(pw: seq<Byte>, got: seq<Byte>, rest: seq<Byte>)
    requires Sendable(pw) && got + rest == Frame(pw)
    ensures Wanted(got) <= |rest| && (Wanted(got) == 0 <==> rest == [])
    ensures |got| >= HEADER ==> Wanted(got) == |rest|
  {
    if |got| >= HEADER {
      SizeRoundTrip(|pw| + 1, HEADER);
      assert got[..HEADER] == Frame(pw)[..HEADER] == SizeBytes(|pw| + 1, HEADER);
      hide SizeBytes, SizeValue;
    }
  }

  // ----- the two processes

  datatype Backend = Reading(got: seq<Byte>) | Judging(pw: seq<Byte>) | Finished

  /** `toWrite` is what remains of the request being written, `requests` and `replies` are the two pipes.
      `submitted`, `taken`, `verdicts` and `answers` record what was sent, read, decided and reported. */
  datatype System = System(
    toWrite: seq<Byte>,
    requests: seq<Byte>,
    backend: Backend,
    replies: seq<bool>,
    failed: nat,
    running: bool,
    submitted: seq<seq<Byte>>,
    taken: seq<seq<Byte>>,
    verdicts: seq<bool>,
    answers: seq<bool>)

  const START := System([], [], Reading([]), [], 0, true, [], [], [], [])

  /** One system call, or one decision, of either process. A call interrupted by a signal has no effect. */
  datatype Event =
    | Submit(pw: seq<Byte>)
    | WriteSome(n: nat)
    | ReadSome(n: nat)
    | Decide(success: bool)
    | TakeReply

  /** What the kernel and the two programs allow next; the first process blocks while it writes, and
      reads replies only while its main loop runs. */
  predicate Legal(s: System, e: Event) {
    match e
    case Submit(pw) => s.running && s.toWrite == [] && Sendable(pw)
    case WriteSome(n) => 0 < n <= |s.toWrite|
    case ReadSome(n) => s.backend.Reading? && 0 < n <= |s.requests| && n <= Wanted(s.backend.got)
    case Decide(_) => s.backend.Judging?
    case TakeReply => s.running && s.toWrite == [] && s.replies != []
  }

  /** A request is complete once nothing more of it is wanted. */
  function AfterRead(s: System, got: seq<Byte>, left: seq<Byte>): System {
    if Wanted(got) > 0 || |got| <= HEADER then s.(requests := left, backend := Reading(got))
    else
      var pw := got[HEADER..|got| - 1];
      s.(requests := left, backend := Judging(pw), taken := s.taken + [pw])
  }

  function Step(s: System, e: Event): System
    requires Legal(s, e)
  {
    match e
    case Submit(pw) => s.(toWrite := Frame(pw), submitted := s.submitted + [pw])
    case WriteSome(n) => s.(toWrite := s.toWrite[n..], requests := s.requests + s.toWrite[..n])
    case ReadSome(n) => AfterRead(s, s.backend.got + s.requests[..n], s.requests[n..])
    case Decide(success) =>
      s.(replies := s.replies + [success], verdicts := s.verdicts + [success],
         backend := if success then Finished else Reading([]))
    case TakeReply =>
      var success := s.replies[0];
      s.(replies := s.replies[1..], answers := s.answers + [success],
         running := !success, failed := if success then s.failed else s.failed + 1)
  }

  predicate Run(s: System, events: seq<Event>, s': System)
    decreases |events|
  {
    if events == [] then s' == s else Legal(s, events[0]) && Run(Step(s, events[0]), events[1..], s')
  }

  // ----- what always holds

  function Negatives(answers: seq<bool>): nat {
    if answers == [] then 0
    else Negatives(answers[..|answers| - 1]) + (if answers[|answers| - 1] then 0 else 1)
  }

  predicate AllNegative(answers: seq<bool>) {
    forall i :: 0 <= i < |answers| ==> !answers[i]
  }

  function Partial(b: Backend): seq<Byte> {
    if b.Reading? then b.got else []
  }

  function Untaken(submitted: seq<seq<Byte>>, taken: seq<seq<Byte>>): seq<seq<Byte>> {
    if |taken| <= |submitted| then submitted[|taken|..] else []
  }

  /** The requests not yet taken are, byte for byte and in order, what the backend holds of the next one,
      what is in the pipe and what is still to be written. */
  predicate Conserved(s: System) {
    && s.taken <= s.submitted
    && Partial(s.backend) + s.requests + s.toWrite == Stream(Untaken(s.submitted, s.taken))
    && (forall i :: 0 <= i < |s.submitted| ==> Sendable(s.submitted[i]))
    && (s.backend.Reading? && |s.taken| < |s.submitted| ==> |s.backend.got| < |Frame(s.submitted[|s.taken|])|)
  }

  /** Verdicts answer the requests one by one, up to the first positive one. */
  predicate Answered(s: System) {
    && s.verdicts == s.answers + s.replies
    && |s.taken| == |s.verdicts| + (if s.backend.Judging? then 1 else 0)
    && (s.backend.Judging? ==> s.taken[|s.taken| - 1] == s.backend.pw)
    && (if s.backend.Finished? then
          s.verdicts != [] && s.verdicts[|s.verdicts| - 1] && AllNegative(s.verdicts[..|s.verdicts| - 1])
        else AllNegative(s.verdicts))
  }

  predicate Counted(s: System) {
    && s.failed == Negatives(s.answers)
    && (s.running <==> AllNegative(s.answers))
  }

  predicate Inv(s: System) {
    Conserved(s) && Answered(s) && Counted(s)
  }

  lemma StreamFirst(pws: seq<seq<Byte>>)
    requires pws != []
    ensures Stream(pws) == Frame(pws[0]) + Stream(pws[1..])
  {
    hide Frame;
    assert pws == [pws[0]] + pws[1..];
    StreamAppend([pws[0]], pws[1..]);
    StreamOne(pws[0]);
  }

  lemma SubmitConserves(s: System, pw: seq<Byte>)
    requires Conserved(s) && Legal(s, Submit(pw))
    ensures Conserved(Step(s, Submit(pw)))
  {
    hide Frame, Stream, Wanted;
    var rest := Untaken(s.submitted, s.taken);
    assert Untaken(s.submitted + [pw], s.taken) == rest + [pw];
    StreamAppend(rest, [pw]);
    StreamOne(pw);
    if s.backend.Reading? && rest == [] {
      NothingHeld(s);
    }
  }

  lemma NothingHeld(s: System)
    requires Conserved(s) && s.backend.Reading? && |s.taken| == |s.submitted|
    ensures s.backend.got == [] && s.requests == [] && forall pw: seq<Byte> :: |Frame(pw)| > 0
  {
    assert Untaken(s.submitted, s.taken) == [];
  }

  lemma WriteConserves(s: System, n: nat)
    requires Conserved(s) && Legal(s, WriteSome(n))
    ensures Conserved(Step(s, WriteSome(n)))
  {
    hide Frame, Stream, Wanted, Untaken;
    var held := Partial(s.backend);
    assert held + (s.requests + s.toWrite[..n]) + s.toWrite[n..] == held + s.requests + s.toWrite;
  }

  /** The bytes in flight begin with those of the next request. */
  lemma NextFrame(s: System)
    requires Conserved(s) && s.backend.Reading? && |s.taken| < |s.submitted|
    ensures var pw := s.submitted[|s.taken|];
            && Sendable(pw)
            && s.backend.got + s.requests + s.toWrite == Frame(pw) + Stream(s.submitted[|s.taken| + 1..])
  {
    hide Frame, Stream;
    StreamFirst(Untaken(s.submitted, s.taken));
    assert s.submitted[|s.taken|..][1..] == s.submitted[|s.taken| + 1..];
  }

  /** Two ways to cut the same bytes, the first inside the frame. */
  lemma CutFlow(frame: seq<Byte>, later: seq<Byte>, a: seq<Byte>, b: seq<Byte>)
    requires a + b == frame + later && |a| <= |frame|
    ensures a + frame[|a|..] == frame && b == frame[|a|..] + later
  {
    var flow := frame + later;
    assert a == flow[..|a|] && b == flow[|a|..];
  }

  /** A read that asks for no more than is wanted stays inside the frame, and completes it exactly when
      nothing more is wanted. */
  lemma ReadWithin(pw: seq<Byte>, got: seq<Byte>, pipe: seq<Byte>, back: seq<Byte>, later: seq<Byte>, n: nat)
    requires Sendable(pw) && got + pipe + back == Frame(pw) + later && |got| < |Frame(pw)|
    requires n <= |pipe| && n <= Wanted(got)
    ensures var more := got + pipe[..n];
            && |more| <= |Frame(pw)| && (Wanted(more) == 0 <==> |more| == |Frame(pw)|)
            && (Wanted(more) == 0 ==> more == Frame(pw) && pipe[n..] + back == later)
            && more + pipe[n..] + back == Frame(pw) + later
  {
    hide Frame, Wanted;
    var frame, more := Frame(pw), got + pipe[..n];
    CutFlow(frame, later, got, pipe + back);
    WantedWithin(pw, got, frame[|got|..]);
    assert more + (pipe[n..] + back) == got + (pipe + back);
    CutFlow(frame, later, more, pipe[n..] + back);
    WantedWithin(pw, more, frame[|more|..]);
  }

  lemma StillUntaken(s: System)
    requires Conserved(s) && s.backend.Reading? && s.requests != []
    ensures |s.taken| < |s.submitted|
  {
    if |s.taken| == |s.submitted| { NothingHeld(s); }
  }

  lemma FrameParts(pw: seq<Byte>)
    ensures |Frame(pw)| > HEADER && Frame(pw)[HEADER..|Frame(pw)| - 1] == pw
  {
    hide SizeBytes;
  }

  lemma UntakenIs(submitted: seq<seq<Byte>>, taken: seq<seq<Byte>>)
    requires |taken| <= |submitted|
    ensures Untaken(submitted, taken) == submitted[|taken|..]
  {
  }

  lemma ReadConserves(s: System, n: nat)
    requires Conserved(s) && Legal(s, ReadSome(n))
    ensures |s.taken| < |s.submitted|
    ensures var s' := Step(s, ReadSome(n));
            && Conserved(s')
            && (if s'.backend.Judging? then
                  s'.backend.pw == s.submitted[|s.taken|] && s'.taken == s.taken + [s.submitted[|s.taken|]]
                else s'.backend.Reading? && s'.taken == s.taken)
  {
    hide Frame, Stream, Wanted, Untaken;
    StillUntaken(s);
    NextFrame(s);
    var k := |s.taken|;
    var pw, got := s.submitted[k], s.backend.got + s.requests[..n];
    FrameParts(pw);
    ReadWithin(pw, s.backend.got, s.requests, s.toWrite, Stream(s.submitted[k + 1..]), n);
    UntakenIs(s.submitted, s.taken);
    UntakenIs(s.submitted, s.taken + [pw]);
  }

  lemma StepConserves(s: System, e: Event)
    requires Conserved(s) && Legal(s, e)
    ensures Conserved(Step(s, e))
  {
    match e
    case Submit(pw) => SubmitConserves(s, pw);
    case WriteSome(n) => WriteConserves(s, n);
    case ReadSome(n) => ReadConserves(s, n);
    case Decide(_) => {
      hide Stream, Wanted, Untaken;
    }
    case TakeReply => {
      hide Frame, Stream, Wanted, Untaken;
    }
  }

  lemma DecideAnswers(s: System, success: bool)
    requires Answered(s) && s.backend.Judging?
    ensures Answered(Step(s, Decide(success)))
  {
    hide Frame, Wanted, AfterRead;
    var v := s.verdicts + [success];
    assert v[..|v| - 1] == s.verdicts;
    assert s.answers + (s.replies + [success]) == v;
  }

  lemma ReadKeeps(s: System, got: seq<Byte>, left: seq<Byte>)
    ensures var s' := AfterRead(s, got, left);
            s'.verdicts == s.verdicts && s'.answers == s.answers && s'.replies == s.replies
  {
    hide Wanted;
  }

  lemma ReadAnswers(s: System, n: nat)
    requires Conserved(s) && Answered(s) && Legal(s, ReadSome(n))
    ensures Answered(Step(s, ReadSome(n)))
  {
    hide Frame, Wanted, Conserved, AfterRead;
    ReadConserves(s, n);
    ReadKeeps(s, s.backend.got + s.requests[..n], s.requests[n..]);
    assert !s.backend.Judging? && !s.backend.Finished?;
  }

  lemma StepAnswers(s: System, e: Event)
    requires Conserved(s) && Answered(s) && Legal(s, e)
    ensures Answered(Step(s, e))
  {
    match e
    case ReadSome(n) => ReadAnswers(s, n);
    case Decide(success) => DecideAnswers(s, success);
    case TakeReply => {
      hide Frame, Wanted, Conserved, AfterRead;
      assert s.answers + s.replies == s.answers + [s.replies[0]] + s.replies[1..];
    }
    case _ => {
      hide Frame, Wanted, Conserved, AfterRead;
    }
  }

  lemma StepCounts(s: System, e: Event)
    requires Counted(s) && Legal(s, e)
    ensures Counted(Step(s, e))
  {
    hide Frame, Wanted;
    if e.TakeReply? {
      assert (s.answers + [s.replies[0]])[..|s.answers|] == s.answers;
      assert (s.answers + [s.replies[0]])[|s.answers|] == s.replies[0];
      assert forall i :: 0 <= i < |s.answers| ==> (s.answers + [s.replies[0]])[i] == s.answers[i];
    }
  }

  lemma {:induction false} RunInv(s: System, events: seq<Event>, s': System)
    requires Inv(s) && Run(s, events, s')
    ensures Inv(s')
    decreases |events|
  {
    if events != [] {
      StepConserves(s, events[0]);
      StepAnswers(s, events[0]);
      StepCounts(s, events[0]);
      RunInv(Step(s, events[0]), events[1..], s');
    }
  }

  lemma StartInv()
    ensures Inv(START)
  {
  }

  /** Whatever the interleaving and however reads and writes are split: the backend reads exactly the
      submitted passwords in order, the k-th answer is its verdict on the k-th one, and the failures
      counted are the negative answers. */
  lemma RepliesMatch(events: seq<Event>, s: System)
    requires Run(START, events, s)
    ensures s.taken <= s.submitted && |s.verdicts| <= |s.taken|
    ensures s.answers <= s.verdicts
    ensures s.failed == Negatives(s.answers)
    ensures s.backend.Judging? ==> |s.taken| == |s.verdicts| + 1 && s.backend.pw == s.submitted[|s.verdicts|]
  {
    StartInv();
    RunInv(START, events, s);
    hide Stream, Frame, Wanted;
  }

  /** The lock ends exactly with the first positive answer; the backend has then finished, so no request
      is answered after it. */
  lemma UnlocksOnce(events: seq<Event>, s: System)
    requires Run(START, events, s)
    ensures !s.running <==> s.answers != [] && s.answers[|s.answers| - 1]
    ensures !s.running ==>
              && s.backend.Finished? && s.replies == [] && s.failed == |s.answers| - 1
              && s.verdicts == s.answers && AllNegative(s.answers[..|s.answers| - 1])
    ensures s.backend.Finished? <==> true in s.verdicts
  {
    hide Conserved, Run;
    StartInv();
    RunInv(START, events, s);
    FirstPositive(s);
    if !s.running {
      NegativesAll(s.answers[..|s.answers| - 1]);
    }
  }

  lemma FirstPositive(s: System)
    requires Answered(s) && Counted(s)
    ensures !s.running <==> s.answers != [] && s.answers[|s.answers| - 1]
    ensures !s.running ==>
              && s.backend.Finished? && s.replies == [] && s.verdicts == s.answers
              && AllNegative(s.answers[..|s.answers| - 1])
    ensures s.backend.Finished? <==> true in s.verdicts
  {
    hide Negatives;
    var v, a := s.verdicts, s.answers;
    assert forall i :: 0 <= i < |a| ==> v[i] == a[i];
    if !s.running {
      var i :| 0 <= i < |a| && a[i];
      assert v[i];
      assert i == |v| - 1;
    }
  }

  lemma {:induction false} NegativesAll(answers: seq<bool>)
    requires AllNegative(answers)
    ensures Negatives(answers) == |answers|
  {
    if answers != [] {
      NegativesAll(answers[..|answers| - 1]);
    }
  }

  /** Neither process is ever stuck with work in hand: unread bytes can be read until the backend is
      done, and a request that is being read can always be completed by what is on its way. */
  lemma NeverStuck(events: seq<Event>, s: System)
    requires Run(START, events, s) && s.backend.Reading? && |s.taken| < |s.submitted|
    ensures s.requests != [] ==> Legal(s, ReadSome(1))
    ensures s.requests == [] ==> s.toWrite != [] && Legal(s, WriteSome(1))
  {
    hide Stream, Frame, Wanted, Run, SizeBytes, SizeValue;
    StartInv();
    RunInv(START, events, s);
    NextFrame(s);
    var pw := s.submitted[|s.taken|];
    var got, flow := s.backend.got, Frame(pw) + Stream(s.submitted[|s.taken| + 1..]);
    assert got == flow[..|got|] == Frame(pw)[..|got|];
    WantedWithin(pw, got, Frame(pw)[|got|..]);
    if s.requests == [] {
      assert |got| + |s.toWrite| >= |Frame(pw)|;
    }
  }
}
