/** Which nested pools share an upstream pool and how large that is, told from the requests alone. */
module ShmHistory {
  import opened Options
  import opened ShmPools

  // ----- the requests

  /** The file a live pool was created over, if fstat() knew it. */
  function FileTold(es: seq<Event>, n: nat): Option<FileId> {
    if es == [] then None
    else
      var last := es[|es| - 1];
      if last.Create? && last.n == n then last.file else FileTold(es[..|es| - 1], n)
  }

  /** The size its client last asked for. */
  function SizeTold(es: seq<Event>, n: nat): int {
    if es == [] then 0
    else
      match es[|es| - 1]
      case Create(m, _, size) => if m == n then size else SizeTold(es[..|es| - 1], n)
      case Resize(m, size) => if m == n then size else SizeTold(es[..|es| - 1], n)
      case Destroy(_) => SizeTold(es[..|es| - 1], n)
  }

  predicate LiveTold(es: seq<Event>, n: nat) {
    es != [] &&
    match es[|es| - 1]
    case Create(m, _, _) => m == n || LiveTold(es[..|es| - 1], n)
    case Destroy(m) => m != n && LiveTold(es[..|es| - 1], n)
    case Resize(_, _) => LiveTold(es[..|es| - 1], n)
  }

  /** Request `ev`, after which the pools stand as in `t`, asks for size x of a pool on entry e. */
  predicate Asks(ev: Event, t: Shm, e: nat, x: int) {
    match ev
    case Create(n, _, size) => size == x && n in t.nested && t.nested[n].entry == e
    case Resize(n, size) => size == x && n in t.nested && t.nested[n].entry == e
    case Destroy(_) => false
  }

  ghost predicate AskedBefore(ss: seq<Shm>, es: seq<Event>, i: nat, e: nat, x: int)
    requires i <= |es| && |ss| == |es| + 1
  {
    exists k: nat :: k < i && Asks(es[k], ss[k + 1], e, x)
  }

  // ----- single steps

  /** Two pools on one entry have its file, and an entry without a file has one pool. */
  ghost predicate Filed(s: Shm, es: seq<Event>) {
    && (forall n :: n in s.nested <==> LiveTold(es, n))
    && (forall n :: n in s.nested ==>
          && s.nested[n].entry in s.entries && s.entries[s.nested[n].entry].file == FileTold(es, n)
          && s.nested[n].size == SizeTold(es, n))
    && (forall n, m :: n in s.nested && m in s.nested && s.nested[n].entry == s.nested[m].entry && n != m ==>
          FileTold(es, n).Some?)
  }

  /** Old pools keep their entries, and these keep their files. */
  predicate Kept(s: Shm, t: Shm) {
    && (forall m :: m in s.nested && m in t.nested ==> t.nested[m].entry == s.nested[m].entry)
    && (forall e :: e in s.entries && e in t.entries ==> t.entries[e].file == s.entries[e].file)
  }

  /** A new pool is on an entry with its file: a new entry or, if the file is known, one that is there. */
  predicate Created(s: Shm, t: Shm, n: nat, file: Option<FileId>, size: int) {
    && n in t.nested && t.nested == s.nested[n := Nested(t.nested[n].entry, size)] && s.entries.Keys <= t.entries.Keys && Kept(s, t) && s.nextId <= t.nextId
    && var e := t.nested[n].entry;
       && e in t.entries && t.entries[e].file == file && (if e in s.entries then file.Some? else e == s.nextId)
       && t.entries.Keys == s.entries.Keys + {e}
       && t.asked == s.asked[e := (if e in s.asked then s.asked[e] else []) + [size]]
  }

  lemma ShareEffect(s: Shm, n: nat, e: nat, size: int)
    requires e in s.entries && e in s.asked && s.entries[e].file.Some? && n !in s.nested
    ensures Created(s, Share(s, n, e, size), n, s.entries[e].file, size)
  {
    var t := Grow(s, e, size);
    assert t.entries.Keys == s.entries.Keys && t.nested == s.nested;
    assert t.entries[e].file == s.entries[e].file;
  }

  lemma AddEffect(s: Shm, n: nat, file: Option<FileId>, size: int)
    requires s.nextId !in s.entries && s.nextId !in s.asked && n !in s.nested
    ensures Created(s, AddPool(s, n, file, size), n, file, size)
  {
    assert [] + [size] == [size];
  }

  lemma CreateEffect(s: Shm, n: nat, file: Option<FileId>, size: int)
    requires Inv(s) && n !in s.nested
    ensures forall e :: e in s.entries ==> e in s.asked
    ensures Created(s, CreatePool(s, n, file, size), n, file, size)
  {
    hide Inv, FindEntry, Share, AddPool, Created;
    CreateKeeps(s, n, file, size);
    FreshEntry(s);
    AddEffect(s, n, file, size);
    var found := if file.Some? then FindEntry(s.listed, s.entries, file.value) else None;
    if found.Some? { ShareEffect(s, n, found.value, size); }
  }

  lemma FreshEntry(s: Shm)
    requires Inv(s)
    ensures s.nextId !in s.entries && s.nextId !in s.asked && s.entries.Keys == s.asked.Keys
  {
    hide Counted, Unique;
  }

  lemma ResizeEffect(s: Shm, n: nat, size: int)
    requires Inv(s) && n in s.nested
    ensures s.nested[n].entry in s.entries && s.nested[n].entry in s.asked
    ensures var t, e := ResizePool(s, n, size), s.nested[n].entry;
            && t.nested == s.nested[n := s.nested[n].(size := size)] && t.entries.Keys == s.entries.Keys && Kept(s, t)
            && t.asked == s.asked[e := s.asked[e] + [size]] && t.nextId == s.nextId
  {
    hide Inv;
    ResizeKeeps(s, n, size);
  }

  lemma DestroyEffect(s: Shm, n: nat)
    requires Inv(s) && n in s.nested
    ensures s.nested[n].entry in s.entries
    ensures var t := DestroyPool(s, n);
            && t.nested == s.nested - {n} && Kept(s, t) && t.nextId == s.nextId && t.entries.Keys <= s.entries.Keys
            && (forall d :: d in t.entries ==> d in t.asked && d in s.asked && t.asked[d] == s.asked[d])
            && (forall m :: m in t.nested ==> t.nested[m].entry in t.entries)
  {
    hide Inv, DestroyPool;
    DestroyKeeps(s, n);
    DestroyIs(s, n);
    FreshEntry(s);
    EntriesKnown(DestroyPool(s, n));
  }

  lemma ToldMore(es: seq<Event>, ev: Event, n: nat)
    ensures FileTold(es + [ev], n) == if ev.Create? && ev.n == n then ev.file else FileTold(es, n)
    ensures SizeTold(es + [ev], n) == if !ev.Destroy? && ev.n == n then ev.size else SizeTold(es, n)
    ensures LiveTold(es + [ev], n) <==> (ev.Create? && ev.n == n) || (LiveTold(es, n) && !(ev.Destroy? && ev.n == n))
  {
    assert (es + [ev])[..|es|] == es;
  }

  lemma CreateFiled(s: Shm, es: seq<Event>, n: nat, file: Option<FileId>, size: int)
    requires Inv(s) && n !in s.nested && Filed(s, es)
    ensures forall e :: e in s.entries ==> e in s.asked
    ensures Filed(CreatePool(s, n, file, size), es + [Create(n, file, size)])
  {
    hide Inv, CreatePool, FileTold, SizeTold, LiveTold;
    CreateEffect(s, n, file, size);
    forall m: nat
      ensures FileTold(es + [Create(n, file, size)], m) == if n == m then file else FileTold(es, m)
      ensures SizeTold(es + [Create(n, file, size)], m) == if n == m then size else SizeTold(es, m)
      ensures LiveTold(es + [Create(n, file, size)], m) <==> n == m || LiveTold(es, m)
    {
      ToldMore(es, Create(n, file, size), m);
    }
  }

  lemma ResizeFiled(s: Shm, es: seq<Event>, n: nat, size: int)
    requires Inv(s) && n in s.nested && Filed(s, es)
    ensures s.nested[n].entry in s.entries && s.nested[n].entry in s.asked
    ensures Filed(ResizePool(s, n, size), es + [Resize(n, size)])
  {
    hide Inv, ResizePool, FileTold, SizeTold, LiveTold;
    ResizeEffect(s, n, size);
    forall m: nat
      ensures FileTold(es + [Resize(n, size)], m) == FileTold(es, m)
      ensures SizeTold(es + [Resize(n, size)], m) == if n == m then size else SizeTold(es, m)
      ensures LiveTold(es + [Resize(n, size)], m) <==> LiveTold(es, m)
    {
      ToldMore(es, Resize(n, size), m);
    }
  }

  lemma DestroyFiled(s: Shm, es: seq<Event>, n: nat)
    requires Inv(s) && n in s.nested && Filed(s, es)
    ensures s.nested[n].entry in s.entries
    ensures Filed(DestroyPool(s, n), es + [Destroy(n)])
  {
    hide Inv, DestroyPool, FileTold, SizeTold, LiveTold;
    DestroyEffect(s, n);
    forall m: nat
      ensures FileTold(es + [Destroy(n)], m) == FileTold(es, m)
      ensures SizeTold(es + [Destroy(n)], m) == SizeTold(es, m)
      ensures LiveTold(es + [Destroy(n)], m) <==> n != m && LiveTold(es, m)
    {
      ToldMore(es, Destroy(n), m);
    }
  }

  lemma EntriesKnown(s: Shm)
    requires Inv(s)
    ensures forall m :: m in s.nested ==> s.nested[m].entry in s.entries
  {
    hide Unique, Sized;
  }

  lemma StepFiled(s: Shm, es: seq<Event>, ev: Event)
    requires Inv(s) && Legal(s, ev) && Filed(s, es)
    ensures Filed(Step(s, ev), es + [ev])
  {
    hide Inv, Filed, CreatePool, ResizePool, DestroyPool;
    match ev
    case Create(n, file, size) => CreateFiled(s, es, n, file, size);
    case Resize(n, size) => ResizeFiled(s, es, n, size);
    case Destroy(n) => DestroyFiled(s, es, n);
  }

  /** What one request adds to what was asked of the entries that are left. */
  /** What one request adds to what was asked of the entries that are left. */
  ghost predicate AskedMore(s: Shm, ev: Event, t: Shm) {
    && s.nextId <= t.nextId
    && (forall e :: e in t.entries && e !in s.entries ==> s.nextId <= e)
    && (forall e, x :: e in t.entries && e in t.asked ==>
          (x in t.asked[e] <==> (e in s.entries && e in s.asked && x in s.asked[e]) || Asks(ev, t, e, x)))
  }

  lemma CreateAsked(s: Shm, t: Shm, n: nat, file: Option<FileId>, size: int)
    requires Created(s, t, n, file, size) && s.entries.Keys == s.asked.Keys
    ensures AskedMore(s, ShmPools.Create(n, file, size), t)
  {
    hide Kept;
  }

  lemma StepAsked(s: Shm, ev: Event)
    requires Inv(s) && Legal(s, ev)
    ensures AskedMore(s, ev, Step(s, ev))
  {
    hide Inv, CreatePool, ResizePool, DestroyPool, Created, Kept;
    FreshEntry(s);
    match ev
    case Create(n, file, size) =>
      CreateEffect(s, n, file, size);
      CreateAsked(s, CreatePool(s, n, file, size), n, file, size);
    case Resize(n, size) => ResizeEffect(s, n, size); ResizeSame(s, n, size);
    case Destroy(n) => DestroyEffect(s, n);
  }

  lemma ResizeSame(s: Shm, n: nat, size: int)
    requires Inv(s) && n in s.nested
    ensures s.nested[n].entry in s.entries && s.nested[n].entry in s.asked
    ensures n in ResizePool(s, n, size).nested && ResizePool(s, n, size).nested[n].entry == s.nested[n].entry
  {
    ResizeEffect(s, n, size);
    hide Inv, ResizePool;
  }

  // ----- every run

  lemma RunStep(ss: seq<Shm>, es: seq<Event>, i: nat)
    requires IsRun(ss, es) && i < |es|
    ensures |ss| == |es| + 1 && Inv(ss[i]) && Legal(ss[i], es[i]) && ss[i + 1] == Step(ss[i], es[i])
  {
    hide Inv, Legal, Step;
    Sharing(ss, es, i);
    StepOfRun(ss, es, i);
  }

  lemma StepOfRun(ss: seq<Shm>, es: seq<Event>, i: nat)
    requires IsRun(ss, es) && i < |es| && Inv(ss[i])
    ensures Legal(ss[i], es[i]) && ss[i + 1] == Step(ss[i], es[i])
  {
    hide Inv, Legal, Step;
  }

  lemma {:induction false} RunFiled(ss: seq<Shm>, es: seq<Event>, i: nat)
    requires IsRun(ss, es) && i <= |es|
    ensures Filed(ss[i], es[..i])
  {
    hide Inv, Legal, Step, Filed;
    if i == 0 {
      assert es[..0] == [];
      EmptyFiled();
    } else {
      RunFiled(ss, es, i - 1);
      RunStep(ss, es, i - 1);
      StepFiled(ss[i - 1], es[..i - 1], es[i - 1]);
      assert es[..i] == es[..i - 1] + [es[i - 1]];
    }
  }

  lemma EmptyFiled()
    ensures Filed(EMPTY, [])
  {
  }

  /** In every run two live pools use the same upstream pool if and only if they are the same pool or both were
      created over the same known file; and a pool's own size is what its client asked last. */
  lemma SharedExactly(ss: seq<Shm>, es: seq<Event>, i: nat, n: nat, m: nat)
    requires IsRun(ss, es) && i <= |es|
    ensures n in ss[i].nested <==> LiveTold(es[..i], n)
    ensures n in ss[i].nested ==> ss[i].nested[n].size == SizeTold(es[..i], n)
    ensures n in ss[i].nested && m in ss[i].nested ==>
              (ss[i].nested[n].entry == ss[i].nested[m].entry <==>
               n == m || (FileTold(es[..i], n).Some? && FileTold(es[..i], n) == FileTold(es[..i], m)))
  {
    RunFiled(ss, es, i);
    Sharing(ss, es, i);
    hide Inv, IsRun, FileTold, SizeTold, LiveTold;
  }

  lemma RunSound(ss: seq<Shm>, es: seq<Event>, i: nat)
    requires IsRun(ss, es) && i <= |es|
    ensures |ss| == |es| + 1 && Inv(ss[i])
  {
    Sharing(ss, es, i);
    hide Inv, Legal, Step;
  }

  lemma {:induction false} RunAsked(ss: seq<Shm>, es: seq<Event>, i: nat, e: nat, x: int)
    requires IsRun(ss, es) && i <= |es|
    ensures |ss| == |es| + 1 && Inv(ss[i])
    ensures AskedBefore(ss, es, i, e, x) ==> e < ss[i].nextId
    ensures e in ss[i].entries ==> e in ss[i].asked && (x in ss[i].asked[e] <==> AskedBefore(ss, es, i, e, x))
  {
    hide Inv, Legal, Step, Asks, IsRun;
    RunSound(ss, es, i);
    if i > 0 {
      var j := i - 1;
      RunAsked(ss, es, j, e, x);
      RunStep(ss, es, j);
      StepAsked(ss[j], es[j]);
      FreshEntry(ss[i]);
      AsksKnown(es[j], ss[i], e, x);
      AskedNext(ss, es, j, e, x);
      hide AskedBefore;
      if e in ss[i].entries { EntryBelow(ss[i], e); }
      if e in ss[j].entries { EntryBelow(ss[j], e); }
    } else {
      NothingEntered(ss, es);
    }
  }

  lemma NothingEntered(ss: seq<Shm>, es: seq<Event>)
    requires IsRun(ss, es)
    ensures |ss| > 0 && ss[0].entries == map[]
  {
  }

  lemma EntryBelow(s: Shm, e: nat)
    requires Inv(s) && e in s.entries
    ensures e < s.nextId
  {
    hide Counted, Unique, Sized;
  }

  lemma AsksKnown(ev: Event, t: Shm, e: nat, x: int)
    requires Inv(t)
    ensures Asks(ev, t, e, x) ==> e in t.entries
  {
    EntriesKnown(t);
    hide Inv;
  }

  lemma AskedNext(ss: seq<Shm>, es: seq<Event>, i: nat, e: nat, x: int)
    requires i < |es| && |ss| == |es| + 1
    ensures AskedBefore(ss, es, i + 1, e, x) <==> AskedBefore(ss, es, i, e, x) || Asks(es[i], ss[i + 1], e, x)
  {
    hide Asks;
  }

  /** And the size of an upstream pool is the largest ever asked, at creation or by a resize, of the pools it has
      served. */
  lemma LargestAsked(ss: seq<Shm>, es: seq<Event>, i: nat, e: nat)
    requires IsRun(ss, es) && i <= |es| && e in ss[i].entries
    ensures e in ss[i].upstream && AskedBefore(ss, es, i, e, ss[i].upstream[e])
    ensures forall x :: AskedBefore(ss, es, i, e, x) ==> x <= ss[i].upstream[e]
  {
    Sharing(ss, es, i);
    SizedAt(ss[i].entries, ss[i].upstream, ss[i].asked, e);
    hide Inv, IsRun, AskedBefore, Sized;
    RunAsked(ss, es, i, e, ss[i].upstream[e]);
    forall x | AskedBefore(ss, es, i, e, x) ensures x <= ss[i].upstream[e] { RunAsked(ss, es, i, e, x); }
  }
}
