/** The subsurface tree of a nested client: parent pointers, and each parent's two pending stacking
    lists.  Surfaces are named by numbers; `live` holds the ones not yet destroyed. */
module SubsurfaceTree {
  import opened WlLists
  import opened Stacking

  type Surf = nat

  datatype Tree = Tree(
    live: set<Surf>,
    parent: map<Surf, Surf>,
    below: map<Surf, seq<Surf>>,
    above: map<Surf, seq<Surf>>,
    layer: set<Surf>,
    inert: set<Surf>,
    errors: nat)

  const EMPTY := Tree({}, map[], map[], map[], {}, {}, 0)

  // ----- the ancestor walk

  /** At most n steps up. */
  function Up(parent: map<Surf, Surf>, s: Surf, n: nat): Surf
    decreases n
  {
    if n == 0 || s !in parent then s else Up(parent, parent[s], n - 1)
  }

  ghost predicate Grounded(parent: map<Surf, Surf>, s: Surf) {
    exists n: nat :: Up(parent, s, n) !in parent
  }

  ghost function Height(parent: map<Surf, Surf>, s: Surf): nat
    requires Grounded(parent, s)
  {
    var n: nat :| Up(parent, s, n) !in parent;
    n
  }

  ghost function Root(parent: map<Surf, Surf>, s: Surf): Surf
    requires Grounded(parent, s)
  {
    Up(parent, s, Height(parent, s))
  }

  lemma {:induction false} UpStable(parent: map<Surf, Surf>, s: Surf, n: nat, m: nat)
    requires Up(parent, s, n) !in parent && n <= m
    ensures Up(parent, s, m) == Up(parent, s, n)
    decreases n
  {
    if n > 0 && s in parent { UpStable(parent, parent[s], n - 1, m - 1); }
  }

  lemma RootUnique(parent: map<Surf, Surf>, s: Surf, n: nat)
    requires Up(parent, s, n) !in parent
    ensures Grounded(parent, s) && Root(parent, s) == Up(parent, s, n)
  {
    var h := Height(parent, s);
    if n <= h { UpStable(parent, s, n, h); } else { UpStable(parent, s, h, n); }
  }

  lemma RootStep(parent: map<Surf, Surf>, s: Surf)
    requires Grounded(parent, s) && s in parent
    ensures Grounded(parent, parent[s]) && Root(parent, parent[s]) == Root(parent, s)
  {
    var n := Height(parent, s);
    assert Up(parent, parent[s], n - 1) !in parent;
    RootUnique(parent, parent[s], n - 1);
  }

  // ----- the requests

  function SetOr(t: Tree, p: Surf, below: seq<Surf>, above: seq<Surf>): Tree {
    t.(below := t.below[p := below], above := t.above[p := above])
  }

  /** wl_list_remove() of the pending entry, from whichever list holds it. */
  function Unlinked(t: Tree, c: Surf): Tree
    requires c in t.parent && t.parent[c] in t.below && t.parent[c] in t.above
  {
    var p := t.parent[c];
    SetOr(t, p, Drop(t.below[p], c), Drop(t.above[p], c))
  }

  function Create(t: Tree, s: Surf): Tree {
    t.(live := t.live + {s}, below := t.below[s := []], above := t.above[s := []])
  }

  /** `subcompositor_get_subsurface()`. */
  ghost function GetSubsurface(t: Tree, c: Surf, p: Surf): Tree
    requires p in t.above && Grounded(t.parent, p)
  {
    if c in t.layer || c in t.parent || Root(t.parent, p) == c then t.(errors := t.errors + 1)
    else t.(parent := t.parent[c := p], above := t.above[p := t.above[p] + [c]])
  }

  predicate Sibling(t: Tree, c: Surf, s: Surf) {
    c in t.parent && s in t.parent && t.parent[c] == t.parent[s] && c != s
  }

  /** Where `x` goes relative to a reference in one list: right after it, or right before it. */
  function Put(s: seq<Surf>, ref: Surf, x: Surf, after: bool): seq<Surf>
    requires ref in s
  {
    Inserted(s, IndexOf(s, ref) + (if after then 1 else 0), x)
  }

  /** `nested_subsurface_place_above()` and `_below()`. */
  function Place(t: Tree, c: Surf, ref: Surf, after: bool): Tree
    requires c in t.parent ==> t.parent[c] in t.below && t.parent[c] in t.above
  {
    if c !in t.parent || c in t.inert || c == ref then t
    else
      var p := t.parent[c];
      var below, above := Drop(t.below[p], c), Drop(t.above[p], c);
      if ref == p then
        if after then SetOr(t, p, below, [c] + above) else SetOr(t, p, below + [c], above)
      else if Sibling(t, c, ref) then
        if ref in below then SetOr(t, p, Put(below, ref, c, after), above)
        else if ref in above then SetOr(t, p, below, Put(above, ref, c, after))
        else t
      else t.(errors := t.errors + 1)
  }

  /** `destroy_subsurface_parts()`: the role ends, the surface stays. */
  function DestroyRole(t: Tree, c: Surf): Tree
    requires c in t.parent ==> t.parent[c] in t.below && t.parent[c] in t.above
  {
    if c in t.parent then Unlinked(t, c).(parent := t.parent - {c}, inert := t.inert + {c})
    else t.(inert := t.inert + {c})
  }

  /** `surface_handle_resource_destroy()`. */
  function DestroySurface(t: Tree, s: Surf): Tree
    requires s in t.parent ==> t.parent[s] in t.below && t.parent[s] in t.above
  {
    var u := DestroyRole(t, s);
    u.(live := u.live - {s}, below := u.below - {s}, above := u.above - {s}, layer := u.layer - {s}, inert := u.inert - {s})
  }

  datatype Event =
    | New(s: Surf)
    | MakeLayer(s: Surf)
    | Get(c: Surf, p: Surf)
    | PlaceReq(c: Surf, ref: Surf, after: bool)
    | EndRole(c: Surf)
    | EndSurface(s: Surf)

  // ----- the invariant

  /** The lists of p hold only children of p, none twice. */
  ghost predicate ListsOk(parent: map<Surf, Surf>, p: Surf, below: seq<Surf>, above: seq<Surf>) {
    && Distinct(below + above)
    && (forall c :: c in below + above ==> c in parent && parent[c] == p)
  }

  ghost predicate Shape(t: Tree) {
    && t.below.Keys == t.live && t.above.Keys == t.live
    && (forall c :: c in t.parent ==> c in t.live && t.parent[c] in t.live)
    && (forall p :: p in t.live ==> ListsOk(t.parent, p, t.below[p], t.above[p]))
    && (forall c :: c in t.parent ==> c in t.below[t.parent[c]] + t.above[t.parent[c]])
  }

  ghost predicate Forest(parent: map<Surf, Surf>) {
    forall s :: Grounded(parent, s)
  }

  ghost predicate Inv(t: Tree) {
    Shape(t) && Forest(t.parent)
  }

  predicate Childless(t: Tree, s: Surf) {
    forall c :: c in t.parent ==> t.parent[c] != s
  }

  /** Requests name live surfaces; a surface goes only after its children (the program leaves their
      parent pointers dangling otherwise). */
  predicate Legal(t: Tree, e: Event) {
    match e
    case New(s) => s !in t.live
    case MakeLayer(s) => s in t.live
    case Get(c, p) => c in t.live && p in t.live
    case PlaceReq(c, ref, _) => c in t.live && ref in t.live && c != ref
    case EndRole(c) => c in t.live
    case EndSurface(s) => s in t.live && Childless(t, s)
  }

  ghost function Step(t: Tree, e: Event): Tree
    requires Inv(t) && Legal(t, e)
  {
    match e
    case New(s) => Create(t, s)
    case MakeLayer(s) => t.(layer := t.layer + {s})
    case Get(c, p) => GetSubsurface(t, c, p)
    case PlaceReq(c, ref, after) => Place(t, c, ref, after)
    case EndRole(c) => DestroyRole(t, c)
    case EndSurface(s) => DestroySurface(t, s)
  }

  // ----- the forest

  lemma {:induction false} UpExtended(parent: map<Surf, Surf>, c: Surf, p: Surf, s: Surf, n: nat)
    requires c !in parent && Up(parent, s, n) !in parent && Up(parent, s, n) != c
    ensures Up(parent[c := p], s, n) == Up(parent, s, n)
    decreases n
  {
    if n > 0 && s in parent { UpExtended(parent, c, p, parent[s], n - 1); }
  }

  lemma {:induction false} UpThrough(parent: map<Surf, Surf>, c: Surf, p: Surf, s: Surf, n: nat, m: nat)
    requires c !in parent && Up(parent, s, n) == c
    requires Up(parent, p, m) !in parent && Up(parent, p, m) != c
    ensures Up(parent[c := p], s, n + 1 + m) == Up(parent, p, m)
    decreases n
  {
    if n > 0 && s in parent {
      UpThrough(parent, c, p, parent[s], n - 1, m);
    } else {
      UpExtended(parent, c, p, p, m);
      UpMore(parent[c := p], p, m, n + m);
    }
  }

  lemma UpMore(parent: map<Surf, Surf>, p: Surf, m: nat, k: nat)
    requires Up(parent, p, m) !in parent && m <= k
    ensures Up(parent, p, k) == Up(parent, p, m)
  {
    UpStable(parent, p, m, k);
  }

  /** Attaching a root under another tree keeps every ancestor walk finite. */
  lemma ForestAttach(parent: map<Surf, Surf>, c: Surf, p: Surf)
    requires Forest(parent) && c !in parent && Root(parent, p) != c
    ensures Forest(parent[c := p])
  {
    var m := Height(parent, p);
    var parent' := parent[c := p];
    forall s ensures Grounded(parent', s) {
      assert Grounded(parent, s);
      var n := Height(parent, s);
      if Up(parent, s, n) == c {
        UpThrough(parent, c, p, s, n, m);
        UpExtended(parent, c, p, p, m);
        assert Up(parent[c := p], s, n + 1 + m) !in parent[c := p];
      } else {
        UpExtended(parent, c, p, s, n);
        assert Up(parent[c := p], s, n) !in parent[c := p];
      }
    }
  }

  lemma {:induction false} UpCut(parent: map<Surf, Surf>, c: Surf, s: Surf, n: nat)
    requires Up(parent, s, n) !in parent
    ensures Up(parent - {c}, s, n) !in parent - {c}
    decreases n
  {
    if n > 0 && s in parent && s != c { UpCut(parent, c, parent[s], n - 1); }
  }

  lemma ForestDetach(parent: map<Surf, Surf>, c: Surf)
    requires Forest(parent)
    ensures Forest(parent - {c})
  {
    forall s ensures Grounded(parent - {c}, s) {
      assert Grounded(parent, s);
      UpCut(parent, c, s, Height(parent, s));
    }
  }

  /** A tree edge is refused exactly when it would close a cycle: were it added, the new parent's
      ancestor walk would never end. */
  lemma CycleOtherwise(parent: map<Surf, Surf>, c: Surf, p: Surf)
    requires Forest(parent) && c !in parent && Root(parent, p) == c
    ensures !Grounded(parent[c := p], p)
  {
    var m := Height(parent, p);
    var parent' := parent[c := p];
    forall k: nat ensures Up(parent', p, k) in parent' {
      OnCycle(parent, c, p, p, m, k);
    }
  }

  lemma {:induction false} OnCycle(parent: map<Surf, Surf>, c: Surf, p: Surf, s: Surf, n: nat, k: nat)
    requires c !in parent && Up(parent, s, n) == c && Grounded(parent, p) && Root(parent, p) == c
    ensures Up(parent[c := p], s, k) in parent[c := p]
    decreases k
  {
    if k > 0 {
      if s == c {
        OnCycle(parent, c, p, p, Height(parent, p), k - 1);
      } else {
        OnCycle(parent, c, p, parent[s], n - 1, k - 1);
      }
    }
  }

  // ----- the stacking lists

  lemma DropFlat(below: seq<Surf>, above: seq<Surf>, c: Surf)
    requires Distinct(below + above) && c in below + above
    ensures Child(c) in Flat(below, above)
    ensures var b, a := Drop(below, c), Drop(above, c);
            && Flat(b, a) == Without(Flat(below, above), Child(c)) && Distinct(b + a)
            && (forall y :: y in b + a <==> y in below + above && y != c)
  {
    DistinctParts(below, above);
    var inBelow := c in below;
    FlatWithout(below, above, c, inBelow, if inBelow then IndexOf(below, c) else IndexOf(above, c));
  }

  /** The insertion half of a place request, by the list operations the handlers use. */
  function PutLists(b: seq<Surf>, a: seq<Surf>, c: Surf, ref: Item<Surf>, after: bool): (seq<Surf>, seq<Surf>)
    requires ref.Child? ==> ref.c in b || ref.c in a
  {
    if ref.Parent? then (if after then (b, [c] + a) else (b + [c], a))
    else if ref.c in b then (Put(b, ref.c, c, after), a)
    else (b, Put(a, ref.c, c, after))
  }

  function ItemIndex(below: seq<Surf>, above: seq<Surf>, ref: Item<Surf>): (i: nat)
    requires ref.Child? ==> ref.c in below || ref.c in above
    ensures i <= |below| + |above| && Flat(below, above)[i] == ref
  {
    if ref.Parent? then |below|
    else if ref.c in below then IndexOf(below, ref.c)
    else |below| + 1 + IndexOf(above, ref.c)
  }

  lemma PutWhere(b: seq<Surf>, a: seq<Surf>, c: Surf, ref: Item<Surf>, after: bool) returns (inBelow: bool, k: nat)
    requires ref.Child? ==> ref.c in b || ref.c in a
    ensures k <= (if inBelow then |b| else |a|)
    ensures PutLists(b, a, c, ref, after) ==
            (if inBelow then Inserted(b, k, c) else b, if inBelow then a else Inserted(a, k, c))
    ensures (if inBelow then k else |b| + 1 + k) == ItemIndex(b, a, ref) + (if after then 1 else 0)
  {
    if ref.Parent? {
      inBelow, k := !after, if after then 0 else |b|;
      assert Inserted(a, 0, c) == [c] + a;
      assert Inserted(b, |b|, c) == b + [c];
    } else if ref.c in b {
      inBelow, k := true, IndexOf(b, ref.c) + if after then 1 else 0;
    } else {
      inBelow, k := false, IndexOf(a, ref.c) + if after then 1 else 0;
    }
  }

  lemma PutFlat(b: seq<Surf>, a: seq<Surf>, c: Surf, ref: Item<Surf>, after: bool)
    requires Distinct(b + a) && c !in b + a
    requires ref.Child? ==> ref.c in b || ref.c in a
    ensures ref in Flat(b, a)
    ensures var (b', a') := PutLists(b, a, c, ref, after);
            && Flat(b', a') == Inserted(Flat(b, a), IndexOf(Flat(b, a), ref) + (if after then 1 else 0), Child(c))
            && Distinct(b' + a')
            && (forall y :: y in b' + a' <==> y == c || y in b + a)
  {
    hide Flat, Distinct, PutLists, Inserted, IndexOf;
    var i := ItemIndex(b, a, ref);
    FlatIndex(b, a, i);
    var inBelow, k := PutWhere(b, a, c, ref, after);
    FlatWith(b, a, c, inBelow, k);
    SameMembers(b, a, c, inBelow, k);
  }

  lemma SameMembers(b: seq<Surf>, a: seq<Surf>, c: Surf, inBelow: bool, k: nat)
    requires k <= if inBelow then |b| else |a|
    ensures var b', a' := if inBelow then Inserted(b, k, c) else b, if inBelow then a else Inserted(a, k, c);
            forall y :: y in b' + a' <==> y == c || y in b + a
  {
    if inBelow { assert b == b[..k] + b[k..]; } else { assert a == a[..k] + a[k..]; }
  }

  /** A place request is "take it out, put it back directly above (or below) the reference" on the
      order below ++ [parent] ++ above. */
  lemma PlacedListsFlat(below: seq<Surf>, above: seq<Surf>, c: Surf, ref: Item<Surf>, after: bool)
    requires Distinct(below + above) && c in below + above
    requires ref.Child? ==> ref.c in below + above && ref.c != c
    ensures ref.Child? ==> ref.c in Drop(below, c) || ref.c in Drop(above, c)
    ensures Child(c) in Flat(below, above) && ref in Flat(below, above)
    ensures var (b, a) := PutLists(Drop(below, c), Drop(above, c), c, ref, after);
            && Flat(b, a) == (if after then PlacedAbove(Flat(below, above), Child(c), ref)
                              else PlacedBelow(Flat(below, above), Child(c), ref))
            && Distinct(b + a)
            && (forall y :: y in b + a <==> y in below + above)
  {
    hide Flat, Drop, PutLists, Distinct;
    DropFlat(below, above, c);
    var b, a := Drop(below, c), Drop(above, c);
    assert ref.Child? ==> ref.c in b + a;
    PutFlat(b, a, c, ref, after);
    var i := ItemIndex(below, above, ref);
  }

  function RefItem(t: Tree, c: Surf, ref: Surf): Item<Surf>
    requires c in t.parent
  {
    if ref == t.parent[c] then Parent else Child(ref)
  }

  /** A request on a live child with a valid reference does exactly that to its parent's lists, and
      nothing to anyone else's. */
  lemma PlaceRefines(t: Tree, c: Surf, ref: Surf, after: bool)
    requires Shape(t) && c in t.parent && c !in t.inert && c != ref
    requires ref == t.parent[c] || Sibling(t, c, ref)
    ensures var p := t.parent[c];
            var u := Place(t, c, ref, after);
            var flat := Flat(t.below[p], t.above[p]);
            && p in u.below && p in u.above
            && Child(c) in flat && RefItem(t, c, ref) in flat
            && Flat(u.below[p], u.above[p]) ==
               (if after then PlacedAbove(flat, Child(c), RefItem(t, c, ref))
                else PlacedBelow(flat, Child(c), RefItem(t, c, ref)))
            && Distinct(u.below[p] + u.above[p])
            && (forall y :: y in u.below[p] + u.above[p] <==> y in t.below[p] + t.above[p])
            && u == SetOr(t, p, u.below[p], u.above[p])
  {
    hide Flat, PlacedAbove, PlacedBelow, Drop, Put, Distinct;
    var p := t.parent[c];
    assert ListsOk(t.parent, p, t.below[p], t.above[p]);
    PlacedListsFlat(t.below[p], t.above[p], c, RefItem(t, c, ref), after);
  }

  lemma ShapeKeys(t: Tree)
    requires Shape(t)
    ensures t.below.Keys == t.live && t.above.Keys == t.live
    ensures forall c :: c in t.parent ==> t.parent[c] in t.live
  {
    hide ListsOk;
  }

  lemma PlaceRefused(t: Tree, c: Surf, ref: Surf, after: bool)
    requires c in t.parent ==> t.parent[c] in t.below && t.parent[c] in t.above
    requires !(c in t.parent && c !in t.inert && (ref == t.parent[c] || Sibling(t, c, ref)))
    ensures Place(t, c, ref, after) == t || Place(t, c, ref, after) == t.(errors := t.errors + 1)
  {
    hide Drop, Put, SetOr;
  }

  lemma ErrorsAside(t: Tree, errors: nat)
    requires Shape(t)
    ensures Shape(t.(errors := errors))
  {
    hide ListsOk;
  }

  /** New lists of p with the same members. */
  lemma SetOrKeeps(t: Tree, p: Surf, below: seq<Surf>, above: seq<Surf>)
    requires Shape(t) && p in t.live && p in t.below && p in t.above && Distinct(below + above)
    requires forall y :: y in below + above <==> y in t.below[p] + t.above[p]
    ensures Shape(SetOr(t, p, below, above)) && SetOr(t, p, below, above).parent == t.parent
  {
    hide Distinct;
  }

  lemma PlaceKeeps(t: Tree, c: Surf, ref: Surf, after: bool)
    requires Inv(t) && c in t.live && c != ref
    ensures Inv(Place(t, c, ref, after))
  {
    hide Shape, Place, SetOr, ListsOk, Distinct, Flat, RefItem, PlacedAbove, PlacedBelow, Forest;
    ShapeKeys(t);
    if c in t.parent && c !in t.inert && (ref == t.parent[c] || Sibling(t, c, ref)) {
      var p := t.parent[c];
      PlaceRefines(t, c, ref, after);
      var u := Place(t, c, ref, after);
      SetOrKeeps(t, p, u.below[p], u.above[p]);
    } else {
      PlaceRefused(t, c, ref, after);
      ErrorsAside(t, t.errors + 1);
    }
  }

  // ----- every run

  lemma AddedOk(parent: map<Surf, Surf>, c: Surf, p: Surf, q: Surf, below: seq<Surf>, above: seq<Surf>)
    requires ListsOk(parent, q, below, above) && c !in parent
    ensures ListsOk(parent[c := p], q, below, above)
    ensures p == q ==> ListsOk(parent[c := p], q, below, above + [c])
    ensures p == q ==> forall y :: y in below + (above + [c]) <==> y == c || y in below + above
  {
    assert below + (above + [c]) == (below + above) + [c];
  }

  lemma ForestAt(parent: map<Surf, Surf>, s: Surf)
    requires Forest(parent)
    ensures Grounded(parent, s)
  {
    hide Grounded;
  }

  lemma AttachKeeps(t: Tree, c: Surf, p: Surf)
    requires Inv(t) && c in t.live && p in t.live
    ensures Inv(GetSubsurface(t, c, p))
  {
    hide Forest, Root, ListsOk, Grounded;
    ForestAt(t.parent, p);
    if c !in t.layer && c !in t.parent && Root(t.parent, p) != c {
      ForestAttach(t.parent, c, p);
      var u := GetSubsurface(t, c, p);
      forall q | q in u.live ensures ListsOk(u.parent, q, u.below[q], u.above[q]) {
        AddedOk(t.parent, c, p, q, t.below[q], t.above[q]);
      }
      AddedOk(t.parent, c, p, p, t.below[p], t.above[p]);
    }
  }

  lemma OthersOk(parent: map<Surf, Surf>, c: Surf, q: Surf, below: seq<Surf>, above: seq<Surf>)
    requires ListsOk(parent, q, below, above) && c !in below + above
    ensures ListsOk(parent - {c}, q, below, above)
  {
    hide Distinct;
  }

  lemma DroppedOk(parent: map<Surf, Surf>, c: Surf, below: seq<Surf>, above: seq<Surf>)
    requires c in parent && ListsOk(parent, parent[c], below, above) && c in below + above
    ensures ListsOk(parent - {c}, parent[c], Drop(below, c), Drop(above, c))
    ensures forall y :: y in Drop(below, c) + Drop(above, c) <==> y in below + above && y != c
  {
    hide Distinct, Flat, Without, Drop;
    DropFlat(below, above, c);
  }

  lemma EndRoleKeeps(t: Tree, c: Surf)
    requires Inv(t) && c in t.live
    ensures Inv(DestroyRole(t, c))
    ensures DestroyRole(t, c).parent == t.parent - {c} && DestroyRole(t, c).live == t.live
  {
    hide Forest, Drop, ListsOk;
    ForestDetach(t.parent, c);
    var u := DestroyRole(t, c);
    if c in t.parent {
      var p := t.parent[c];
      DroppedOk(t.parent, c, t.below[p], t.above[p]);
      forall q | q in u.live ensures ListsOk(u.parent, q, u.below[q], u.above[q]) {
        if q != p { NotMine(t, c, q); OthersOk(t.parent, c, q, t.below[q], t.above[q]); }
      }
    } else {
      assert t.parent - {c} == t.parent;
    }
  }

  lemma NotMine(t: Tree, c: Surf, q: Surf)
    requires Shape(t) && q in t.live && (c !in t.parent || t.parent[c] != q)
    ensures c !in t.below[q] + t.above[q]
  {
    assert ListsOk(t.parent, q, t.below[q], t.above[q]);
  }

  lemma EndSurfaceKeeps(t: Tree, s: Surf)
    requires Inv(t) && s in t.live && Childless(t, s)
    ensures Inv(DestroySurface(t, s))
  {
    hide Forest, ListsOk, DestroyRole;
    EndRoleKeeps(t, s);
  }

  /** Destroying a surface keeps the forest over live surfaces exactly if no child is left behind, whose
      parent pointer would dangle. */
  lemma EndSurfaceExactly(t: Tree, s: Surf)
    requires Inv(t) && s in t.live
    ensures Inv(DestroySurface(t, s)) <==> Childless(t, s)
  {
    if Childless(t, s) {
      EndSurfaceKeeps(t, s);
    } else {
      var c :| c in t.parent && t.parent[c] == s;
      assert c != s by {
        RootStep(t.parent, c);
        if c == s {
          StuckUp(t.parent, c, Height(t.parent, c));
        }
      }
      hide Forest, ListsOk;
      EndRoleKeeps(t, s);
      assert c in DestroySurface(t, s).parent;
    }
  }

  lemma {:induction false} StuckUp(parent: map<Surf, Surf>, s: Surf, n: nat)
    requires s in parent && parent[s] == s
    ensures Up(parent, s, n) == s
  {
    if n > 0 {
      StuckUp(parent, s, n - 1);
    }
  }

  lemma CreateKeeps(t: Tree, s: Surf)
    requires Inv(t) && s !in t.live
    ensures Inv(Create(t, s))
  {
    hide Forest;
    var u := Create(t, s);
    forall q | q in u.live ensures ListsOk(u.parent, q, u.below[q], u.above[q]) {
      if q in t.live { assert ListsOk(t.parent, q, t.below[q], t.above[q]); }
    }
  }

  lemma StepKeeps(t: Tree, e: Event)
    requires Inv(t) && Legal(t, e)
    ensures Inv(Step(t, e))
  {
    match e
    case New(s) => CreateKeeps(t, s);
    case MakeLayer(s) =>
    case Get(c, p) => AttachKeeps(t, c, p);
    case PlaceReq(c, ref, after) => PlaceKeeps(t, c, ref, after);
    case EndRole(c) => EndRoleKeeps(t, c);
    case EndSurface(s) => EndSurfaceKeeps(t, s);
  }

  /** A finite run, as the chain of states it goes through. */
  ghost predicate IsRun(ts: seq<Tree>, es: seq<Event>) {
    && |ts| == |es| + 1 && ts[0] == EMPTY
    && (forall i :: 0 <= i < |es| ==>
          Inv(ts[i]) ==> Legal(ts[i], es[i]) && ts[i + 1] == Step(ts[i], es[i]))
  }

  /** In every run the parent relation is a forest, so every ancestor walk ends; and every child is in
      exactly one of its parent's two lists, exactly once. */
  lemma {:induction false} RunKeeps(ts: seq<Tree>, es: seq<Event>, i: nat)
    requires IsRun(ts, es) && i <= |es|
    ensures Inv(ts[i])
    ensures forall s :: Grounded(ts[i].parent, s)
    ensures forall c :: c in ts[i].parent ==>
              var p := ts[i].parent[c];
              p in ts[i].below && p in ts[i].above
              && multiset(ts[i].below[p] + ts[i].above[p])[c] == 1
  {
    if i > 0 {
      RunKeeps(ts, es, i - 1);
      assert Legal(ts[i - 1], es[i - 1]) && ts[i] == Step(ts[i - 1], es[i - 1]);
      StepKeeps(ts[i - 1], es[i - 1]);
    } else {
      forall s ensures Grounded(EMPTY.parent, s) { assert Up(EMPTY.parent, s, 0) !in EMPTY.parent; }
    }
    forall c | c in ts[i].parent
      ensures ts[i].parent[c] in ts[i].below && ts[i].parent[c] in ts[i].above
      ensures multiset(ts[i].below[ts[i].parent[c]] + ts[i].above[ts[i].parent[c]])[c] == 1
    {
      var p := ts[i].parent[c];
      assert ListsOk(ts[i].parent, p, ts[i].below[p], ts[i].above[p]);
      OnceEach(ts[i].below[p] + ts[i].above[p], c);
    }
  }

  lemma {:induction false} OnceEach(s: seq<Surf>, c: Surf)
    requires Distinct(s) && c in s
    ensures multiset(s)[c] == 1
  {
    var k := IndexOf(s, c);
    assert s == s[..k] + [c] + s[k + 1..];
    assert c !in s[..k] && c !in s[k + 1..];
  }

  /** A surface and a child of it. */
  const FAMILY := Tree({0, 1}, map[1 := 0], map[0 := [], 1 := []], map[0 := [1], 1 := []], {}, {}, 0)

  lemma EmptyInv()
    ensures Inv(EMPTY)
  {
    forall s ensures Grounded(EMPTY.parent, s) { assert Up(EMPTY.parent, s, 0) !in EMPTY.parent; }
  }

  /** Two surfaces without roles. */
  const PAIR := Tree({0, 1}, map[], map[0 := [], 1 := []], map[0 := [], 1 := []], {}, {}, 0)

  lemma PairArises()
    ensures Create(Create(EMPTY, 0), 1) == PAIR
  {
    var t := Create(Create(EMPTY, 0), 1);
    assert t.live == {0, 1} && t.below == map[0 := [], 1 := []] && t.above == map[0 := [], 1 := []];
  }

  lemma PairAttached()
    requires Grounded(PAIR.parent, 0)
    ensures Root(PAIR.parent, 0) == 0 && GetSubsurface(PAIR, 1, 0) == FAMILY
  {
    assert Up(PAIR.parent, 0, 0) !in PAIR.parent;
    RootUnique(PAIR.parent, 0, 0);
    hide Root, Grounded;
    var u := GetSubsurface(PAIR, 1, 0);
    assert [] + [1] == [1];
    assert u.parent == map[1 := 0] && u.above == map[0 := [1], 1 := []];
  }

  lemma FamilyArises()
    ensures Inv(EMPTY) && Inv(Create(EMPTY, 0)) && Inv(PAIR) && Inv(FAMILY)
    ensures Step(Step(EMPTY, New(0)), New(1)) == PAIR && Step(PAIR, Get(1, 0)) == FAMILY
  {
    hide Inv, Create, GetSubsurface, Grounded;
    EmptyInv();
    CreateKeeps(EMPTY, 0);
    CreateLive(EMPTY, 0);
    CreateKeeps(Create(EMPTY, 0), 1);
    PairArises();
    InvGrounded(PAIR, 0);
    PairAttached();
    AttachKeeps(PAIR, 1, 0);
  }

  lemma CreateLive(t: Tree, s: Surf)
    ensures Create(t, s).live == t.live + {s}
  {
  }

  lemma InvGrounded(t: Tree, s: Surf)
    requires Inv(t)
    ensures Grounded(t.parent, s)
  {
    hide Shape, Grounded;
  }

  /** Three requests later the parent may be destroyed first: the child is still there, and its parent
      pointer names a surface that is gone. */
  lemma ParentGoesFirst()
    ensures Inv(FAMILY)
    ensures var t := DestroySurface(FAMILY, 0);
            1 in t.live && 1 in t.parent && t.parent[1] == 0 && 0 !in t.live && !Inv(t)
  {
    FamilyArises();
    EndRoleKeeps(FAMILY, 0);
  }

  /** The loop of get_subsurface: it ends, at the root. */
  method FindRoot(parent: map<Surf, Surf>, p: Surf) returns (ancestor: Surf)
    requires Grounded(parent, p)
    ensures ancestor == Root(parent, p) && ancestor !in parent
  {
    ancestor := p;
    while ancestor in parent
      invariant Grounded(parent, ancestor) && Root(parent, ancestor) == Root(parent, p)
      decreases Depth(parent, ancestor)
    {
      RootStep(parent, ancestor);
      DepthStep(parent, ancestor);
      ancestor := parent[ancestor];
    }
    assert Up(parent, ancestor, Height(parent, ancestor)) == ancestor;
  }

  /** The number of steps to the root. */
  ghost function Depth(parent: map<Surf, Surf>, s: Surf): nat
    requires Grounded(parent, s)
  {
    Steps(parent, s, Height(parent, s))
  }

  ghost function Steps(parent: map<Surf, Surf>, s: Surf, n: nat): nat
    decreases n
  {
    if n == 0 || s !in parent then 0 else 1 + Steps(parent, parent[s], n - 1)
  }

  lemma {:induction false} StepsStable(parent: map<Surf, Surf>, s: Surf, n: nat, m: nat)
    requires Up(parent, s, n) !in parent && Up(parent, s, m) !in parent
    ensures Steps(parent, s, n) == Steps(parent, s, m)
    decreases n
  {
    if n > 0 && m > 0 && s in parent { StepsStable(parent, parent[s], n - 1, m - 1); }
  }

  lemma DepthStep(parent: map<Surf, Surf>, s: Surf)
    requires Grounded(parent, s) && s in parent && Grounded(parent, parent[s])
    ensures Depth(parent, parent[s]) < Depth(parent, s)
  {
    var n := Height(parent, s);
    assert Up(parent, parent[s], n - 1) !in parent;
    StepsStable(parent, parent[s], n - 1, Height(parent, parent[s]));
  }
}
