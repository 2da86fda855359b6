/** Forwarded shared-memory pools: nested pools over the same backing file share one upstream pool. */
module ShmPools {
  import opened Options
  import opened WlLists
  import opened Stacking

  /** (st_dev, st_ino) of the backing file. */
  datatype FileId = FileId(dev: int, ino: int)

  /** `struct forwarded_shm_pool`; no file id when fstat() failed, and then it is never shared. */
  datatype Entry = Entry(file: Option<FileId>, size: int, refcount: nat)

  /** A nested pool: the entry its resource points to, and the size its client last asked for. */
  datatype Nested = Nested(entry: nat, size: int)

  /** `listed` is the program's list of shareable entries; `upstream` the size of each upstream pool;
      `asked` every size ever asked of an entry. */
  datatype Shm = Shm(
    entries: map<nat, Entry>,
    listed: seq<nat>,
    nested: map<nat, Nested>,
    nextId: nat,
    upstream: map<nat, int>,
    asked: map<nat, seq<int>>)

  const EMPTY := Shm(map[], [], map[], 0, map[], map[])

  function Max(a: int, b: int): int {
    if a < b then b else a
  }

  /** The first listed entry for a file, if there is one. */
  function FindEntry(listed: seq<nat>, entries: map<nat, Entry>, file: FileId): (r: Option<nat>)
    ensures r.Some? ==> r.value in listed && r.value in entries && entries[r.value].file == Some(file)
    ensures r.None? ==> forall e :: e in listed && e in entries ==> entries[e].file != Some(file)
  {
    if listed == [] then None
    else if listed[0] in entries && entries[listed[0]].file == Some(file) then Some(listed[0])
    else FindEntry(listed[1..], entries, file)
  }

  /** Growing an entry to a size, upstream first; smaller sizes change nothing. */
  function Grow(s: Shm, e: nat, size: int): Shm
    requires e in s.entries && e in s.asked
  {
    var t := s.(asked := s.asked[e := s.asked[e] + [size]]);
    if size > s.entries[e].size then
      t.(upstream := t.upstream[e := size], entries := t.entries[e := t.entries[e].(size := size)])
    else t
  }

  /** A nested pool on an entry that exists. */
  function Share(s: Shm, n: nat, e: nat, size: int): Shm
    requires e in s.entries && e in s.asked
  {
    var t := Grow(s, e, size);
    t.(entries := t.entries[e := t.entries[e].(refcount := t.entries[e].refcount + 1)],
       nested := t.nested[n := Nested(e, size)])
  }

  /** A nested pool on a new entry, which is listed only if its file is known. */
  function AddPool(s: Shm, n: nat, file: Option<FileId>, size: int): Shm {
    var e := s.nextId;
    s.(entries := s.entries[e := Entry(file, size, 1)],
       listed := if file.Some? then [e] + s.listed else s.listed,
       nested := s.nested[n := Nested(e, size)],
       nextId := e + 1,
       upstream := s.upstream[e := size],
       asked := s.asked[e := [size]])
  }

  /** `shm_create_pool()` on the nested side. */
  function CreatePool(s: Shm, n: nat, file: Option<FileId>, size: int): Shm
    requires forall e :: e in s.entries ==> e in s.asked
  {
    var found := if file.Some? then FindEntry(s.listed, s.entries, file.value) else None;
    if found.Some? then Share(s, n, found.value, size) else AddPool(s, n, file, size)
  }

  /** `nested_shm_pool_resize()`. */
  function ResizePool(s: Shm, n: nat, size: int): Shm
    requires n in s.nested && s.nested[n].entry in s.entries && s.nested[n].entry in s.asked
  {
    Grow(s, s.nested[n].entry, size).(nested := s.nested[n := s.nested[n].(size := size)])
  }

  /** `shm_pool_handle_resource_destroy()`. */
  function DestroyPool(s: Shm, n: nat): Shm
    requires n in s.nested && s.nested[n].entry in s.entries
  {
    var e := s.nested[n].entry;
    var t := s.(nested := s.nested - {n});
    if s.entries[e].refcount > 1 then t.(entries := t.entries[e := t.entries[e].(refcount := t.entries[e].refcount - 1)])
    else t.(upstream := t.upstream - {e}, entries := t.entries - {e}, listed := Drop(t.listed, e), asked := t.asked - {e})
  }

  // ----- the invariant

  function Users(nested: map<nat, Nested>, e: nat): set<nat> {
    set n | n in nested && nested[n].entry == e
  }

  predicate Counted(entries: map<nat, Entry>, nested: map<nat, Nested>) {
    && (forall e :: e in entries ==> entries[e].refcount == |Users(nested, e)| > 0)
    && (forall n :: n in nested ==> nested[n].entry in entries && nested[n].size <= entries[nested[n].entry].size)
  }

  /** One entry per file, and the list holds exactly the entries that have one. */
  ghost predicate Unique(entries: map<nat, Entry>, listed: seq<nat>) {
    && (forall d, e :: d in entries && e in entries && entries[d].file.Some? && entries[d].file == entries[e].file ==> d == e)
    && (forall e :: e in listed <==> e in entries && entries[e].file.Some?)
    && Distinct(listed)
  }

  /** The size of an entry is the largest ever asked of it, and the upstream pool's. */
  predicate Sized(entries: map<nat, Entry>, upstream: map<nat, int>, asked: map<nat, seq<int>>) {
    && upstream.Keys == entries.Keys && asked.Keys == entries.Keys
    && (forall e :: e in entries ==>
          && upstream[e] == entries[e].size && entries[e].size in asked[e]
          && (forall x :: x in asked[e] ==> x <= entries[e].size))
  }

  ghost predicate Inv(s: Shm) {
    && Counted(s.entries, s.nested)
    && Unique(s.entries, s.listed)
    && Sized(s.entries, s.upstream, s.asked)
    && (forall e :: e in s.entries ==> e < s.nextId)
  }

  lemma UsersMore(nested: map<nat, Nested>, n: nat, v: Nested, e: nat)
    requires n !in nested
    ensures |Users(nested[n := v], e)| == |Users(nested, e)| + (if v.entry == e then 1 else 0)
  {
    assert Users(nested[n := v], e) == Users(nested, e) + (if v.entry == e then {n} else {});
  }

  lemma UsersLess(nested: map<nat, Nested>, n: nat, e: nat)
    requires n in nested
    ensures |Users(nested - {n}, e)| == |Users(nested, e)| - (if nested[n].entry == e then 1 else 0)
  {
    assert Users(nested - {n}, e) == Users(nested, e) - {n};
  }

  lemma UsersSame(nested: map<nat, Nested>, n: nat, size: int, e: nat)
    requires n in nested
    ensures Users(nested[n := nested[n].(size := size)], e) == Users(nested, e)
  {
  }

  /** Updating an entry without touching its file keeps the list right. */
  lemma UniqueUpdate(entries: map<nat, Entry>, listed: seq<nat>, e: nat, v: Entry)
    requires Unique(entries, listed) && e in entries && v.file == entries[e].file
    ensures Unique(entries[e := v], listed)
  {
    hide Distinct;
  }

  lemma UniqueNew(entries: map<nat, Entry>, listed: seq<nat>, e: nat, v: Entry)
    requires Unique(entries, listed) && e !in entries
    requires v.file.Some? ==> forall d :: d in entries ==> entries[d].file != v.file
    ensures Unique(entries[e := v], if v.file.Some? then [e] + listed else listed)
  {
    PrependDistinct(listed, e);
    hide Distinct;
  }

  lemma UniqueLess(entries: map<nat, Entry>, listed: seq<nat>, e: nat)
    requires Unique(entries, listed)
    ensures Unique(entries - {e}, Drop(listed, e))
  {
    DropDistinct(listed, e);
    hide Distinct, Drop;
  }

  lemma SizedGrow(entries: map<nat, Entry>, upstream: map<nat, int>, asked: map<nat, seq<int>>, e: nat, size: int)
    requires Sized(entries, upstream, asked) && e in entries && e in asked && e in upstream
    ensures Sized(entries[e := entries[e].(size := Max(entries[e].size, size))],
                  upstream[e := Max(upstream[e], size)], asked[e := asked[e] + [size]])
  {
    var list := asked[e] + [size];
    assert forall x :: x in list <==> x in asked[e] || x == size;
  }

  lemma SizedCount(entries: map<nat, Entry>, upstream: map<nat, int>, asked: map<nat, seq<int>>, e: nat, n: nat)
    requires Sized(entries, upstream, asked) && e in entries
    ensures Sized(entries[e := entries[e].(refcount := n)], upstream, asked)
  {
  }

  lemma SizedNew(entries: map<nat, Entry>, upstream: map<nat, int>, asked: map<nat, seq<int>>, e: nat, v: Entry)
    requires Sized(entries, upstream, asked)
    ensures Sized(entries[e := v], upstream[e := v.size], asked[e := [v.size]])
    ensures Sized(entries - {e}, upstream - {e}, asked - {e})
  {
  }

  lemma CountedGrow(entries: map<nat, Entry>, nested: map<nat, Nested>, e: nat, size: int)
    requires Counted(entries, nested) && e in entries && size >= entries[e].size
    ensures Counted(entries[e := entries[e].(size := size)], nested)
  {
    hide Users;
  }

  lemma CountedMore(entries: map<nat, Entry>, nested: map<nat, Nested>, n: nat, e: nat, size: int)
    requires Counted(entries, nested) && e in entries && n !in nested && size <= entries[e].size
    ensures Counted(entries[e := entries[e].(refcount := entries[e].refcount + 1)], nested[n := Nested(e, size)])
  {
    forall d: nat ensures |Users(nested[n := Nested(e, size)], d)| == |Users(nested, d)| + (if d == e then 1 else 0) {
      UsersMore(nested, n, Nested(e, size), d);
    }
    hide Users;
  }

  lemma CountedNew(entries: map<nat, Entry>, nested: map<nat, Nested>, n: nat, e: nat, file: Option<FileId>, size: int)
    requires Counted(entries, nested) && e !in entries && n !in nested
    ensures Counted(entries[e := Entry(file, size, 1)], nested[n := Nested(e, size)])
  {
    forall d: nat ensures |Users(nested[n := Nested(e, size)], d)| == |Users(nested, d)| + (if d == e then 1 else 0) {
      UsersMore(nested, n, Nested(e, size), d);
    }
    assert Users(nested, e) == {};
    hide Users;
  }

  lemma CountedResize(entries: map<nat, Entry>, nested: map<nat, Nested>, n: nat, size: int)
    requires Counted(entries, nested) && n in nested && nested[n].entry in entries && size <= entries[nested[n].entry].size
    ensures Counted(entries, nested[n := nested[n].(size := size)])
  {
    forall d: nat ensures Users(nested[n := nested[n].(size := size)], d) == Users(nested, d) {
      UsersSame(nested, n, size, d);
    }
    hide Users;
  }

  lemma CountedLess(entries: map<nat, Entry>, nested: map<nat, Nested>, n: nat)
    requires Counted(entries, nested) && n in nested
    ensures nested[n].entry in entries
    ensures var e := nested[n].entry;
            if entries[e].refcount > 1 then
              Counted(entries[e := entries[e].(refcount := entries[e].refcount - 1)], nested - {n})
            else Counted(entries - {e}, nested - {n})
  {
    var e := nested[n].entry;
    forall d: nat ensures |Users(nested - {n}, d)| == |Users(nested, d)| - (if d == e then 1 else 0) {
      UsersLess(nested, n, d);
    }
    if entries[e].refcount <= 1 {
      assert |Users(nested - {n}, e)| == 0;
      forall m | m in nested - {n} ensures nested[m].entry != e {
        assert nested[m].entry == e ==> m in Users(nested - {n}, e);
      }
    }
    hide Users;
  }

  lemma SizedAt(entries: map<nat, Entry>, upstream: map<nat, int>, asked: map<nat, seq<int>>, e: nat)
    requires Sized(entries, upstream, asked) && e in entries
    ensures e in asked && e in upstream && upstream[e] == entries[e].size
  {
  }

  /** The resize branch and the other one in one formula. */
  lemma GrowIs(s: Shm, e: nat, size: int)
    requires e in s.entries
    ensures e in s.asked && e in s.upstream && s.upstream[e] == s.entries[e].size ==>
              Grow(s, e, size) ==
              s.(asked := s.asked[e := s.asked[e] + [size]],
                 entries := s.entries[e := s.entries[e].(size := Max(s.entries[e].size, size))],
                 upstream := s.upstream[e := Max(s.upstream[e], size)])
  {
    if e in s.asked && e in s.upstream && size <= s.entries[e].size == s.upstream[e] {
      assert s.entries[e := s.entries[e]] == s.entries && s.upstream[e := s.upstream[e]] == s.upstream;
    }
  }

  /** Growing raises the size to the maximum of what it was and what is asked; it touches nothing else,
      and only ever resizes the upstream pool upwards. */
  lemma GrowKeeps(s: Shm, e: nat, size: int)
    requires Inv(s) && e in s.entries
    ensures e in s.asked && e in s.upstream && Inv(Grow(s, e, size))
    ensures var t := Grow(s, e, size);
            && t.entries == s.entries[e := s.entries[e].(size := Max(s.entries[e].size, size))]
            && t.upstream == s.upstream[e := Max(s.upstream[e], size)]
            && t.nested == s.nested && t.listed == s.listed && t.nextId == s.nextId
  {
    hide Counted, Unique, Sized;
    GrowIs(s, e, size);
    SizedAt(s.entries, s.upstream, s.asked, e);
    SizedGrow(s.entries, s.upstream, s.asked, e, size);
    CountedGrow(s.entries, s.nested, e, Max(s.entries[e].size, size));
    UniqueUpdate(s.entries, s.listed, e, s.entries[e].(size := Max(s.entries[e].size, size)));
  }

  lemma ShareKeeps(t: Shm, n: nat, e: nat, size: int)
    requires Inv(t) && n !in t.nested && e in t.entries && size <= t.entries[e].size
    ensures Inv(t.(entries := t.entries[e := t.entries[e].(refcount := t.entries[e].refcount + 1)],
                   nested := t.nested[n := Nested(e, size)]))
  {
    CountedMore(t.entries, t.nested, n, e, size);
    SizedCount(t.entries, t.upstream, t.asked, e, t.entries[e].refcount + 1);
    UniqueUpdate(t.entries, t.listed, e, t.entries[e].(refcount := t.entries[e].refcount + 1));
    hide Counted, Unique, Sized;
  }

  lemma NewKeeps(s: Shm, n: nat, file: Option<FileId>, size: int)
    requires Inv(s) && n !in s.nested
    requires file.Some? ==> forall e :: e in s.entries ==> s.entries[e].file != file
    ensures Inv(s.(entries := s.entries[s.nextId := Entry(file, size, 1)],
                   listed := if file.Some? then [s.nextId] + s.listed else s.listed,
                   nested := s.nested[n := Nested(s.nextId, size)],
                   nextId := s.nextId + 1,
                   upstream := s.upstream[s.nextId := size],
                   asked := s.asked[s.nextId := [size]]))
  {
    var e := s.nextId;
    CountedNew(s.entries, s.nested, n, e, file, size);
    SizedNew(s.entries, s.upstream, s.asked, e, Entry(file, size, 1));
    UniqueNew(s.entries, s.listed, e, Entry(file, size, 1));
    hide Counted, Unique, Sized;
  }

  lemma SizedKeys(entries: map<nat, Entry>, upstream: map<nat, int>, asked: map<nat, seq<int>>)
    requires Sized(entries, upstream, asked)
    ensures forall e :: e in entries ==> e in asked
  {
  }

  lemma CreateKeeps(s: Shm, n: nat, file: Option<FileId>, size: int)
    requires Inv(s) && n !in s.nested
    ensures forall e :: e in s.entries ==> e in s.asked
    ensures Inv(CreatePool(s, n, file, size))
  {
    hide Counted, Unique, Sized, FindEntry, Grow;
    SizedKeys(s.entries, s.upstream, s.asked);
    var found := if file.Some? then FindEntry(s.listed, s.entries, file.value) else None;
    if found.Some? {
      var e := found.value;
      GrowKeeps(s, e, size);
      ShareKeeps(Grow(s, e, size), n, e, size);
    } else {
      NotThere(s.entries, s.listed, file);
      NewKeeps(s, n, file, size);
    }
  }

  lemma NotThere(entries: map<nat, Entry>, listed: seq<nat>, file: Option<FileId>)
    requires Unique(entries, listed)
    requires file.Some? ==> FindEntry(listed, entries, file.value).None?
    ensures file.Some? ==> forall e :: e in entries ==> entries[e].file != file
  {
    hide Distinct;
  }

  lemma ResizeKeeps(s: Shm, n: nat, size: int)
    requires Inv(s) && n in s.nested
    ensures s.nested[n].entry in s.entries && s.nested[n].entry in s.asked
    ensures Inv(ResizePool(s, n, size))
  {
    var e := s.nested[n].entry;
    GrowKeeps(s, e, size);
    var t := Grow(s, e, size);
    CountedResize(t.entries, t.nested, n, size);
    hide Counted, Unique, Sized, Grow;
  }

  lemma DestroyKeeps(s: Shm, n: nat)
    requires Inv(s) && n in s.nested
    ensures s.nested[n].entry in s.entries
    ensures Inv(DestroyPool(s, n))
  {
    var e := s.nested[n].entry;
    CountedLess(s.entries, s.nested, n);
    SizedNew(s.entries, s.upstream, s.asked, e, s.entries[e]);
    UniqueLess(s.entries, s.listed, e);
    if s.entries[e].refcount > 1 {
      SizedCount(s.entries, s.upstream, s.asked, e, s.entries[e].refcount - 1);
      UniqueUpdate(s.entries, s.listed, e, s.entries[e].(refcount := s.entries[e].refcount - 1));
    }
    hide Counted, Unique, Sized, Drop;
  }

  // ----- every run

  datatype Event =
    | Create(n: nat, file: Option<FileId>, size: int)
    | Resize(n: nat, size: int)
    | Destroy(n: nat)

  predicate Legal(s: Shm, e: Event) {
    match e
    case Create(n, _, _) => n !in s.nested
    case Resize(n, _) => n in s.nested
    case Destroy(n) => n in s.nested
  }

  ghost function Step(s: Shm, e: Event): Shm
    requires Inv(s) && Legal(s, e)
  {
    match e
    case Create(n, file, size) => CreateKeeps(s, n, file, size); CreatePool(s, n, file, size)
    case Resize(n, size) => ResizeKeeps(s, n, size); ResizePool(s, n, size)
    case Destroy(n) => DestroyKeeps(s, n); DestroyPool(s, n)
  }

  lemma StepKeeps(s: Shm, e: Event)
    requires Inv(s) && Legal(s, e)
    ensures Inv(Step(s, e))
  {
    hide Inv, CreatePool, ResizePool, DestroyPool;
    match e
    case Create(n, file, size) => CreateKeeps(s, n, file, size);
    case Resize(n, size) => ResizeKeeps(s, n, size);
    case Destroy(n) => DestroyKeeps(s, n);
  }

  /** The bytes a buffer may use of a pool of the given size. */
  predicate InPool(offset: int, length: int, size: int) {
    0 <= offset && 0 <= length && offset + length <= size
  }

  ghost predicate IsRun(ss: seq<Shm>, es: seq<Event>) {
    && |ss| == |es| + 1 && ss[0] == EMPTY
    && (forall i :: 0 <= i < |es| ==> (Inv(ss[i]) ==> Legal(ss[i], es[i]) && ss[i + 1] == Step(ss[i], es[i])))
  }

  /** In every run: at most one entry per file; each count is the number of nested pools on the entry;
      each size is the largest ever asked of the entry and the upstream pool's; so a range that is valid
      in a nested pool is valid in the upstream pool it is forwarded to. */
  lemma {:induction false} Sharing(ss: seq<Shm>, es: seq<Event>, i: nat)
    requires IsRun(ss, es) && i <= |es|
    ensures Inv(ss[i])
    ensures forall d, e :: d in ss[i].entries && e in ss[i].entries ==>
              (ss[i].entries[d].file.Some? && ss[i].entries[d].file == ss[i].entries[e].file ==> d == e)
    ensures forall e :: e in ss[i].entries ==>
              && ss[i].entries[e].refcount == |Users(ss[i].nested, e)| > 0
              && e in ss[i].asked && ss[i].entries[e].size in ss[i].asked[e]
              && forall x :: x in ss[i].asked[e] ==> x <= ss[i].entries[e].size
    ensures forall n :: n in ss[i].nested ==> ss[i].nested[n].entry in ss[i].upstream
    ensures forall n, offset, length :: n in ss[i].nested && InPool(offset, length, ss[i].nested[n].size) ==>
              InPool(offset, length, ss[i].upstream[ss[i].nested[n].entry])
  {
    if i > 0 {
      Sharing(ss, es, i - 1);
      assert Legal(ss[i - 1], es[i - 1]) && ss[i] == Step(ss[i - 1], es[i - 1]);
      hide Inv, Step, Legal;
      StepKeeps(ss[i - 1], es[i - 1]);
    }
    SharingMeans(ss[i]);
  }

  lemma SharingMeans(s: Shm)
    requires Inv(s)
    ensures forall d, e :: d in s.entries && e in s.entries ==>
              (s.entries[d].file.Some? && s.entries[d].file == s.entries[e].file ==> d == e)
    ensures forall e :: e in s.entries ==>
              && s.entries[e].refcount == |Users(s.nested, e)| > 0
              && e in s.asked && s.entries[e].size in s.asked[e]
              && forall x :: x in s.asked[e] ==> x <= s.entries[e].size
    ensures forall n :: n in s.nested ==> s.nested[n].entry in s.upstream
    ensures forall n, offset, length :: n in s.nested && InPool(offset, length, s.nested[n].size) ==>
              InPool(offset, length, s.upstream[s.nested[n].entry])
  {
    hide Users, Distinct;
  }

  lemma DestroyIs(s: Shm, n: nat)
    requires n in s.nested && s.nested[n].entry in s.entries
    ensures var e := s.nested[n].entry;
            DestroyPool(s, n) ==
              if s.entries[e].refcount > 1 then
                s.(nested := s.nested - {n}, entries := s.entries[e := s.entries[e].(refcount := s.entries[e].refcount - 1)])
              else
                s.(nested := s.nested - {n}, upstream := s.upstream - {e}, asked := s.asked - {e},
                   listed := Drop(s.listed, e), entries := s.entries - {e})
  {
  }

  // ----- the program's loop over its list of pools

  class ShmForwarder {
    var entries: map<nat, Entry>
    var listed: seq<nat>
    var nested: map<nat, Nested>
    var nextId: nat
    ghost var upstream: map<nat, int>
    ghost var asked: map<nat, seq<int>>

    ghost function Model(): Shm
      reads this
    {
      Shm(entries, listed, nested, nextId, upstream, asked)
    }

    /** The walk over `shm_pools`. */
    method Find(file: FileId) returns (r: Option<nat>)
      ensures r == FindEntry(listed, entries, file)
    {
      var i := 0;
      while i < |listed|
        invariant i <= |listed|
        invariant FindEntry(listed, entries, file) == FindEntry(listed[i..], entries, file)
      {
        if listed[i] in entries && entries[listed[i]].file == Some(file) {
          return Some(listed[i]);
        }
        i := i + 1;
      }
      return None;
    }

    method GrowEntry(e: nat, size: int)
      requires e in entries && e in asked
      modifies this
      ensures Model() == Grow(old(Model()), e, size)
    {
      asked := asked[e := asked[e] + [size]];
      if size > entries[e].size {
        upstream := upstream[e := size];
        entries := entries[e := entries[e].(size := size)];
      }
    }

    method ShareEntry(n: nat, e: nat, size: int)
      requires e in entries && e in asked
      modifies this
      ensures Model() == Share(old(Model()), n, e, size)
    {
      GrowEntry(e, size);
      entries := entries[e := entries[e].(refcount := entries[e].refcount + 1)];
      nested := nested[n := Nested(e, size)];
    }

    method AddEntry(n: nat, file: Option<FileId>, size: int)
      modifies this
      ensures Model() == AddPool(old(Model()), n, file, size)
    {
      var e := nextId;
      upstream := upstream[e := size];
      asked := asked[e := [size]];
      entries := entries[e := Entry(file, size, 1)];
      if file.Some? {
        listed := [e] + listed;
      }
      nextId := e + 1;
      nested := nested[n := Nested(e, size)];
    }

    method CreateNested(n: nat, file: Option<FileId>, size: int)
      requires Inv(Model()) && n !in nested
      modifies this
      ensures Inv(Model()) && (forall e :: e in old(entries) ==> e in old(asked))
      ensures Model() == CreatePool(old(Model()), n, file, size)
    {
      CreateKeeps(Model(), n, file, size);
      hide Inv, FindEntry, Share, AddPool;
      if file.Some? {
        var found := Find(file.value);
        if found.Some? {
          ShareEntry(n, found.value, size);
          return;
        }
      }
      AddEntry(n, file, size);
    }

    method ResizeNested(n: nat, size: int)
      requires Inv(Model()) && n in nested
      modifies this
      ensures Inv(Model()) && old(nested)[n].entry in old(entries) && old(nested)[n].entry in old(asked)
      ensures Model() == ResizePool(old(Model()), n, size)
    {
      ResizeKeeps(Model(), n, size);
      hide Inv, Grow;
      GrowEntry(nested[n].entry, size);
      nested := nested[n := nested[n].(size := size)];
    }

    method ForgetNested(n: nat)
      modifies this`nested
      ensures Model() == old(Model()).(nested := old(nested) - {n})
    {
      nested := nested - {n};
    }

    method RemoveEntry(e: nat)
      modifies this
      ensures Model() == old(Model()).(upstream := old(upstream) - {e}, asked := old(asked) - {e},
                                       listed := Drop(old(listed), e), entries := old(entries) - {e})
    {
      upstream := upstream - {e};
      asked := asked - {e};
      listed := Drop(listed, e);
      entries := entries - {e};
    }

    method LowerCount(e: nat)
      requires e in entries && entries[e].refcount > 1
      modifies this`entries
      ensures Model() == old(Model()).(entries := old(entries)[e := old(entries)[e].(refcount := old(entries)[e].refcount - 1)])
    {
      entries := entries[e := entries[e].(refcount := entries[e].refcount - 1)];
    }

    method DestroyNested(n: nat)
      requires Inv(Model()) && n in nested
      modifies this
      ensures Inv(Model()) && old(nested)[n].entry in old(entries)
      ensures Model() == DestroyPool(old(Model()), n)
    {
      DestroyKeeps(Model(), n);
      var e := nested[n].entry;
      ghost var s := Model();
      hide Inv;
      DestroyIs(s, n);
      hide DestroyPool, Drop;
      ForgetNested(n);
      if entries[e].refcount > 1 {
        LowerCount(e);
      } else {
        RemoveEntry(e);
      }
    }
  }
}
