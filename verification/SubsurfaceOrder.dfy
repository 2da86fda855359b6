/** The stacking order of a parent and its subsurfaces told from the requests: one sequence for each parent, with
    the parent itself in it, instead of two lists around it. */
module SubsurfaceOrder {
  import opened WlLists
  import opened Stacking
  import opened SubsurfaceTree

  type Order = seq<Item<Surf>>

  /** `frozen` are the surfaces that once lost the subsurface role: the program never moves them again. */
  datatype Told = Told(parent: map<Surf, Surf>, order: map<Surf, Order>, layer: set<Surf>, frozen: set<Surf>)

  const BLANK := Told(map[], map[], {}, {})

  /** c is p or stands above it in the tree. */
  ghost predicate Ancestor(parent: map<Surf, Surf>, c: Surf, p: Surf) {
    exists n: nat :: Up(parent, p, n) == c
  }

  /** A surface without a role, which is no ancestor of its new parent. */
  ghost predicate MayAttach(t: Told, c: Surf, p: Surf) {
    c !in t.layer && c !in t.parent && p in t.order && !Ancestor(t.parent, c, p)
  }

  /** The reference is the parent or another of its children. */
  predicate MayPlace(t: Told, c: Surf, ref: Surf) {
    && c in t.parent && c !in t.frozen && c != ref && t.parent[c] in t.order
    && (ref == t.parent[c] || (ref in t.parent && t.parent[ref] == t.parent[c]))
  }

  function ItemOf(t: Told, c: Surf, ref: Surf): Item<Surf>
    requires c in t.parent
  {
    if ref == t.parent[c] then Parent else Child(ref)
  }

  /** x has been moved right next to ref, and everything else is where it was. */
  predicate MovedNextTo(before: Order, after: Order, x: Item<Surf>, ref: Item<Surf>, above: bool) {
    && x in before && x in after && ref in after
    && Without(after, x) == Without(before, x)
    && IndexOf(after, x) == IndexOf(after, ref) + (if above then 1 else -1)
  }

  /** The role ends. */
  function Leave(t: Told, c: Surf): Told {
    var u := t.(frozen := t.frozen + {c});
    if c in t.parent && t.parent[c] in t.order && Child(c) in t.order[t.parent[c]] then
      u.(parent := t.parent - {c}, order := t.order[t.parent[c] := Without(t.order[t.parent[c]], Child(c))])
    else u.(parent := t.parent - {c})
  }

  /** What a request does. */
  ghost predicate Follows(t: Told, e: Event, u: Told) {
    match e
    case New(s) => u == t.(order := t.order[s := [Parent]])
    case MakeLayer(s) => u == t.(layer := t.layer + {s})
    case Get(c, p) =>
      if MayAttach(t, c, p) then u == t.(parent := t.parent[c := p], order := t.order[p := t.order[p] + [Child(c)]])
      else u == t
    case PlaceReq(c, ref, above) =>
      if MayPlace(t, c, ref) then
        var p := t.parent[c];
        && p in u.order && u == t.(order := t.order[p := u.order[p]])
        && MovedNextTo(t.order[p], u.order[p], Child(c), ItemOf(t, c, ref), above)
      else u == t
    case EndRole(c) => u == Leave(t, c)
    case EndSurface(s) =>
      var v := Leave(t, s);
      u == v.(order := v.order - {s}, layer := v.layer - {s}, frozen := v.frozen - {s})
  }

  predicate Keyed(t: Tree) {
    t.below.Keys == t.live && t.above.Keys == t.live
  }

  /** The tree as one order for each parent. */
  function View(t: Tree): Told
    requires Keyed(t)
  {
    Told(t.parent, map p | p in t.live :: Flat(t.below[p], t.above[p]), t.layer, t.inert)
  }

  // ----- one request

  lemma RootAncestor(parent: map<Surf, Surf>, c: Surf, p: Surf)
    requires Forest(parent) && c !in parent
    ensures Grounded(parent, p) && (Root(parent, p) == c <==> Ancestor(parent, c, p))
  {
    assert Grounded(parent, p);
    if n: nat :| Up(parent, p, n) == c {
      RootUnique(parent, p, n);
    }
    hide Grounded;
  }

  /** Putting x right after or before position i of a sequence without it. */
  lemma InsertedNext(rest: Order, i: nat, x: Item<Surf>, above: bool)
    requires Distinct(rest) && x !in rest && i < |rest|
    ensures var after := Inserted(rest, if above then i + 1 else i, x);
            && x in after && rest[i] in after && Without(after, x) == rest
            && IndexOf(after, x) == IndexOf(after, rest[i]) + (if above then 1 else -1)
  {
    var k := if above then i + 1 else i;
    var after := Inserted(rest, k, x);
    DistinctInserted(rest, k, x);
    assert after[k] == x && after[if above then i else i + 1] == rest[i];
    IndexUnique(after, k);
    IndexUnique(after, if above then i else i + 1);
    hide Distinct, IndexOf;
    assert Removed(after, k) == rest;
  }

  lemma WithoutLess(s: Order, x: Item<Surf>)
    requires Distinct(s) && x in s
    ensures Distinct(Without(s, x)) && x !in Without(s, x)
  {
    DropDistinct(s, x);
    hide Distinct, Without;
  }

  /** Placed means moved next to. */
  lemma PlacedMoved(s: Order, x: Item<Surf>, ref: Item<Surf>, above: bool)
    requires Distinct(s) && x in s && ref in s && x != ref
    ensures MovedNextTo(s, if above then PlacedAbove(s, x, ref) else PlacedBelow(s, x, ref), x, ref, above)
  {
    hide Distinct, Without, Inserted;
    WithoutKeeps(s, x, ref);
    WithoutLess(s, x);
    var rest := Without(s, x);
    InsertedNext(rest, IndexOf(rest, ref), x, above);
    hide IndexOf;
  }

  lemma ShapeLists(t: Tree, p: Surf)
    requires Shape(t) && p in t.live
    ensures t.below.Keys == t.live && t.above.Keys == t.live
    ensures Distinct(t.below[p] + t.above[p]) && Distinct(Flat(t.below[p], t.above[p]))
    ensures forall c :: Child(c) in Flat(t.below[p], t.above[p]) <==> c in t.below[p] + t.above[p]
    ensures forall c :: c in t.below[p] + t.above[p] <==> c in t.parent && t.parent[c] == p
  {
    assert ListsOk(t.parent, p, t.below[p], t.above[p]);
    FlatDistinct(t.below[p], t.above[p]);
    FlatHas(t.below[p], t.above[p]);
    hide Flat, Distinct;
  }

  lemma FlatHas(below: seq<Surf>, above: seq<Surf>)
    ensures forall c :: Child(c) in Flat(below, above) <==> c in below + above
  {
    var f := Flat(below, above);
    forall c | c in below + above ensures Child(c) in f {
      if c in below {
        var i :| 0 <= i < |below| && below[i] == c;
        assert f[i] == Child(c);
      } else {
        var i :| 0 <= i < |above| && above[i] == c;
        assert f[|below| + 1 + i] == Child(c);
      }
    }
  }

  lemma NewFollows(t: Tree, s: Surf)
    requires Shape(t) && Shape(Create(t, s))
    ensures Keyed(t) && Keyed(Create(t, s))
    ensures Follows(View(t), New(s), View(Create(t, s)))
  {
    hide ListsOk;
    assert Flat<Surf>([], []) == [Parent];
    assert View(Create(t, s)).order == View(t).order[s := [Parent]];
  }

  lemma FlatAppend(below: seq<Surf>, above: seq<Surf>, c: Surf)
    ensures Flat(below, above + [c]) == Flat(below, above) + [Child(c)]
  {
  }

  /** A tree in which only the lists of p may be others. */
  lemma ViewOne(t: Tree, u: Tree, p: Surf)
    requires Keyed(t) && Keyed(u) && u.live == t.live && p in t.live
    requires u.below == t.below[p := u.below[p]] && u.above == t.above[p := u.above[p]]
    ensures View(u).order == View(t).order[p := Flat(u.below[p], u.above[p])]
  {
    hide Flat;
  }

  lemma ViewSame(t: Tree, u: Tree)
    requires Keyed(t) && u.live == t.live && u.below == t.below && u.above == t.above
    ensures Keyed(u) && View(u).order == View(t).order
  {
    hide Flat;
  }

  lemma OrderAt(t: Tree, p: Surf)
    requires Keyed(t) && p in t.live
    ensures p in View(t).order && View(t).order[p] == Flat(t.below[p], t.above[p])
  {
    hide Flat;
  }

  lemma AttachView(t: Tree, c: Surf, p: Surf)
    requires Keyed(t) && p in t.live
    ensures var u := t.(parent := t.parent[c := p], above := t.above[p := t.above[p] + [c]]);
            && Keyed(u) && p in View(t).order
            && View(u) == View(t).(parent := t.parent[c := p], order := View(t).order[p := View(t).order[p] + [Child(c)]])
  {
    hide View, Flat;
    var u := t.(parent := t.parent[c := p], above := t.above[p := t.above[p] + [c]]);
    FlatAppend(t.below[p], t.above[p], c);
    assert t.below[p := t.below[p]] == t.below;
    ViewOne(t, u, p);
    OrderAt(t, p);
    ViewFields(t);
    ViewFields(u);
  }

  lemma SameView(t: Tree, u: Tree)
    requires Keyed(t) && u == t.(errors := u.errors)
    ensures Keyed(u) && View(u) == View(t)
  {
    hide View;
    ViewSame(t, u);
    ViewFields(t);
    ViewFields(u);
  }

  lemma AttachTold(t: Tree, c: Surf, p: Surf)
    requires Inv(t) && p in t.live
    ensures Keyed(t) && Grounded(t.parent, p)
    ensures MayAttach(View(t), c, p) <==> !(c in t.layer || c in t.parent || Root(t.parent, p) == c)
  {
    KeyedInv(t);
    ForestAt(t.parent, p);
    if c !in t.parent { RootAncestor(t.parent, c, p); }
    hide Root, Shape, Forest, Flat, Ancestor, Grounded, View;
    ViewFields(t);
  }

  lemma GetFollows(t: Tree, c: Surf, p: Surf)
    requires Inv(t) && p in t.live && c in t.live
    ensures Keyed(t) && Grounded(t.parent, p)
    ensures var u := GetSubsurface(t, c, p);
            Keyed(u) && Follows(View(t), Get(c, p), View(u))
  {
    hide Inv, Root, View, Grounded, MayAttach, Keyed;
    AttachTold(t, c, p);
    AttachView(t, c, p);
    SameView(t, t.(errors := t.errors + 1));
    KeyedAbove(t, p);
    ViewFields(t);
  }

  lemma KeyedAbove(t: Tree, p: Surf)
    requires Keyed(t) && p in t.live
    ensures p in t.above && p in t.below
  {
  }

  lemma ViewFields(t: Tree)
    requires Keyed(t)
    ensures View(t).parent == t.parent && View(t).layer == t.layer && View(t).frozen == t.inert
    ensures View(t).order.Keys == t.live
  {
  }

  lemma PlacedView(t: Tree, c: Surf, ref: Surf, above: bool)
    requires Inv(t) && Keyed(t) && MayPlace(View(t), c, ref)
    ensures t.parent[c] in t.below && t.parent[c] in t.above
    ensures var u, p := Place(t, c, ref, above), t.parent[c];
            && Keyed(u) && p in View(u).order && p in View(t).order
            && View(u) == View(t).(order := View(t).order[p := View(u).order[p]])
            && MovedNextTo(View(t).order[p], View(u).order[p], Child(c), ItemOf(View(t), c, ref), above)
  {
    hide Forest, Shape, Flat, Distinct, View, Place, PlacedAbove, PlacedBelow, MovedNextTo;
    ShapeKeys(t);
    ViewFields(t);
    var p := t.parent[c];
    var u := Place(t, c, ref, above);
    ShapeLists(t, p);
    PlaceRefines(t, c, ref, above);
    PlacedMoved(Flat(t.below[p], t.above[p]), Child(c), ItemOf(View(t), c, ref), above);
    hide RefItem;
    PlacedKeys(t, u, p);
  }

  lemma PlacedKeys(t: Tree, u: Tree, p: Surf)
    requires Keyed(t) && p in t.live && p in u.below && p in u.above && u == SetOr(t, p, u.below[p], u.above[p])
    ensures Keyed(u) && p in View(t).order && p in View(u).order
    ensures View(t).order[p] == Flat(t.below[p], t.above[p]) && View(u).order[p] == Flat(u.below[p], u.above[p])
    ensures View(u) == View(t).(order := View(t).order[p := View(u).order[p]])
  {
    hide View, Flat;
    ViewOne(t, u, p);
    OrderAt(t, p);
    OrderAt(u, p);
    ViewFields(t);
    ViewFields(u);
  }

  lemma PlaceFollows(t: Tree, c: Surf, ref: Surf, above: bool)
    requires Inv(t) && c in t.live && ref in t.live && c != ref
    ensures Keyed(t) && (c in t.parent ==> t.parent[c] in t.below && t.parent[c] in t.above)
    ensures var u := Place(t, c, ref, above);
            Keyed(u) && Follows(View(t), PlaceReq(c, ref, above), View(u))
  {
    hide Shape, Forest, View, Place, MovedNextTo;
    ShapeKeys(t);
    ViewFields(t);
    if MayPlace(View(t), c, ref) {
      PlacedView(t, c, ref, above);
    } else {
      PlaceRefused(t, c, ref, above);
      SameView(t, Place(t, c, ref, above));
    }
  }

  lemma UnlinkedView(t: Tree, c: Surf)
    requires Inv(t) && Keyed(t) && c in t.parent
    ensures t.parent[c] in t.below && t.parent[c] in t.above
    ensures var u, p := Unlinked(t, c), t.parent[c];
            && Keyed(u) && u.live == t.live && p in View(t).order && Child(c) in View(t).order[p]
            && View(u) == View(t).(order := View(t).order[p := Without(View(t).order[p], Child(c))])
  {
    hide Forest, Shape, Flat, Distinct, View, Drop, Without;
    ShapeKeys(t);
    var p := t.parent[c];
    ShapeLists(t, p);
    DropFlat(t.below[p], t.above[p], c);
    PlacedKeys(t, Unlinked(t, c), p);
  }

  lemma WithoutRole(t: Tree, c: Surf)
    requires Keyed(t)
    ensures var u := t.(parent := t.parent - {c}, inert := t.inert + {c});
            && Keyed(u) && u.live == t.live
            && View(u) == View(t).(parent := t.parent - {c}, frozen := t.inert + {c})
  {
    hide View;
    var u := t.(parent := t.parent - {c}, inert := t.inert + {c});
    ViewSame(t, u);
    ViewFields(t);
    ViewFields(u);
  }

  lemma LeaveFollows(t: Tree, c: Surf)
    requires Inv(t) && c in t.live
    ensures Keyed(t) && (c in t.parent ==> t.parent[c] in t.below && t.parent[c] in t.above)
    ensures var u := DestroyRole(t, c);
            Keyed(u) && u.live == t.live && View(u) == Leave(View(t), c)
  {
    hide Inv, View, Unlinked, Keyed, Without;
    KeyedInv(t);
    ViewFields(t);
    if c in t.parent {
      UnlinkedView(t, c);
      UnlinkedFields(t, c);
      ViewFields(Unlinked(t, c));
      WithoutRole(Unlinked(t, c), c);
    } else {
      WithoutRole(t, c);
      assert t.parent - {c} == t.parent;
    }
  }

  lemma UnlinkedFields(t: Tree, c: Surf)
    requires c in t.parent && t.parent[c] in t.below && t.parent[c] in t.above
    ensures Unlinked(t, c).parent == t.parent && Unlinked(t, c).inert == t.inert
  {
    hide Drop;
  }

  lemma GoneView(t: Tree, s: Surf)
    requires Keyed(t)
    ensures var u := t.(live := t.live - {s}, below := t.below - {s}, above := t.above - {s}, layer := t.layer - {s},
                        inert := t.inert - {s});
            && Keyed(u)
            && View(u) == View(t).(order := View(t).order - {s}, layer := t.layer - {s}, frozen := t.inert - {s})
  {
    hide Flat;
    var u := t.(live := t.live - {s}, below := t.below - {s}, above := t.above - {s}, layer := t.layer - {s},
                inert := t.inert - {s});
    assert View(u).order == View(t).order - {s};
  }

  lemma EndSurfaceFollows(t: Tree, s: Surf)
    requires Inv(t) && s in t.live
    ensures Keyed(t) && (s in t.parent ==> t.parent[s] in t.below && t.parent[s] in t.above)
    ensures var u := DestroySurface(t, s);
            Keyed(u) && Follows(View(t), EndSurface(s), View(u))
  {
    hide Inv, View, DestroyRole, Leave, Keyed;
    LeaveFollows(t, s);
    ViewFields(DestroyRole(t, s));
    GoneView(DestroyRole(t, s), s);
  }

  lemma StepFollows(t: Tree, e: Event)
    requires Inv(t) && Legal(t, e)
    ensures Keyed(t) && Keyed(Step(t, e)) && Follows(View(t), e, View(Step(t, e)))
  {
    StepKeeps(t, e);
    KeyedInv(t);
    KeyedInv(Step(t, e));
    hide Inv, Shape, View, GetSubsurface, Place, DestroyRole, DestroySurface, MovedNextTo, Leave, Create;
    match e
    case New(s) => NewStep(t, s);
    case MakeLayer(s) => ViewSame(t, Step(t, e)); ViewFields(t); ViewFields(Step(t, e));
    case Get(c, p) => GetFollows(t, c, p);
    case PlaceReq(c, ref, above) => PlaceFollows(t, c, ref, above);
    case EndRole(c) => LeaveFollows(t, c);
    case EndSurface(s) => EndSurfaceFollows(t, s);
  }

  lemma NewStep(t: Tree, s: Surf)
    requires Inv(t) && s !in t.live
    ensures Keyed(t) && Keyed(Create(t, s)) && Follows(View(t), New(s), View(Create(t, s)))
  {
    CreateKeeps(t, s);
    hide Forest;
    NewFollows(t, s);
  }

  lemma KeyedInv(t: Tree)
    requires Inv(t)
    ensures Keyed(t)
  {
    hide Forest, ListsOk;
  }

  /** In every run: a new child goes on top of its parent's children, a place request puts one directly above or
      below its reference and moves nothing else, an ended role takes it out, and a surface whose role has ended is
      never moved again. */
  lemma OrdersTold(ts: seq<Tree>, es: seq<Event>, i: nat)
    requires IsRun(ts, es) && i < |es|
    ensures Keyed(ts[i]) && Keyed(ts[i + 1]) && Follows(View(ts[i]), es[i], View(ts[i + 1]))
    ensures View(EMPTY) == BLANK
  {
    hide Inv, Step, Legal, Follows;
    RunKeeps(ts, es, i);
    StepOfRun(ts, es, i);
    StepFollows(ts[i], es[i]);
    BlankView();
  }

  lemma StepOfRun(ts: seq<Tree>, es: seq<Event>, i: nat)
    requires IsRun(ts, es) && i < |es| && Inv(ts[i])
    ensures Legal(ts[i], es[i]) && ts[i + 1] == Step(ts[i], es[i])
  {
    hide Inv, Step, Legal;
  }

  lemma BlankView()
    ensures View(EMPTY) == BLANK
  {
  }

  /** A surface that loses the role and is given it again stays where it is put, whatever its client asks. */
  lemma RevivedStays(t: Tree, c: Surf, p: Surf, ref: Surf, above: bool)
    requires Inv(t) && c in t.live && p in t.live && ref in t.live && MayAttach(View(DestroyRole(t, c)), c, p)
    ensures Keyed(t) && (c in t.parent ==> t.parent[c] in t.below && t.parent[c] in t.above)
    ensures var u := DestroyRole(t, c);
            && Inv(u) && p in u.above && Grounded(u.parent, p)
            && var v := GetSubsurface(u, c, p);
               && c in v.parent && v.parent[c] == p && p in v.below && p in v.above && Place(v, c, ref, above) == v
  {
    KeyedInv(t);
    EndRoleKeeps(t, c);
    var u := DestroyRole(t, c);
    KeyedInv(u);
    AttachTold(u, c, p);
    hide Inv, Root, View, MayAttach, Grounded;
  }

  lemma {:induction false} NowhereUp(s: Surf, n: nat)
    ensures Up(map[], s, n) == s
  {
  }

  lemma FamilyParent()
    ensures Keyed(FAMILY) && FAMILY.parent == map[1 := 0] && FAMILY.live == {0, 1} && FAMILY.layer == {}
  {
  }

  /** From two surfaces: the child's role ends, and it is made a child again. */
  lemma RevivedArises()
    ensures Inv(FAMILY) && Keyed(FAMILY) && (1 in FAMILY.parent ==> FAMILY.parent[1] in FAMILY.below && FAMILY.parent[1] in FAMILY.above)
    ensures MayAttach(View(DestroyRole(FAMILY, 1)), 1, 0)
  {
    hide Inv, View, DestroyRole, Up, Without, Keyed;
    FamilyArises();
    FamilyParent();
    LeaveFollows(FAMILY, 1);
    ViewFields(FAMILY);
    KeyedAbove(FAMILY, 0);
    var t := View(DestroyRole(FAMILY, 1));
    assert t.parent == map[] && 0 in t.order;
    forall n: nat ensures Up(t.parent, 0, n) == 0 { NowhereUp(0, n); }
  }
}
