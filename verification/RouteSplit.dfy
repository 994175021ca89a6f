/** `separateRoute`: the gateway tree without its routes, and the routes alone. */
module RouteSplit {
  import opened Trees
  import opened Keys
  import opened Merge
  import opened Flatten
  import opened TreeHeap
  import opened Yaml

  const ZUUL := "zuul"
  const ROUTES := "routes"

  // ---------- the two parts, as functions ----------

  function RestPart(t: Tree): Tree
    requires IsRoot(t)
  {
    if t.Obj? && ZUUL in t.m && t.m[ZUUL].Obj? then Obj(t.m[ZUUL := Obj(t.m[ZUUL].m - {ROUTES})]) else t
  }

  function RoutesOnly(t: Tree): Tree
    requires IsRoot(t)
  {
    if t.Obj? && ZUUL in t.m && t.m[ZUUL].Obj? && ROUTES in t.m[ZUUL].m then
      Obj(map[ROUTES := t.m[ZUUL].m[ROUTES]])
    else Obj(map[])
  }

  function RoutesPart(t: Tree): Tree
    requires IsRoot(t)
  {
    Obj(map[ZUUL := RoutesOnly(t)])
  }

  /** The code panics on a null `zuul`. */
  predicate Separable(t: Tree) {
    IsRoot(t) && (t.Obj? && ZUUL in t.m ==> !t.m[ZUUL].Null?)
  }

  // ---------- nothing is lost ----------

  /** Adding the routes to the rest gives the gateway tree back; where there was
      no `zuul` an empty one appears. */
  lemma AddBack(t: Tree)
    requires t.Obj? && Separable(t)
    ensures ZUUL in t.m ==> Add(RestPart(t), RoutesPart(t)) == t
    ensures ZUUL !in t.m ==> Add(RestPart(t), RoutesPart(t)) == Obj(t.m[ZUUL := Obj(map[])])
  {
    var r := Add(RestPart(t), RoutesPart(t));
    if ZUUL in t.m && t.m[ZUUL].Obj? {
      var z := Add(RestPart(t).m[ZUUL], RoutesOnly(t));
      assert z.m == t.m[ZUUL].m;
      assert r.m[ZUUL] == t.m[ZUUL];
      assert r.m == t.m;
    } else if ZUUL in t.m {
      assert r.m == t.m;
    } else {
      assert r.m == t.m[ZUUL := Obj(map[])];
    }
  }

  lemma AddBackFlat(t: Tree)
    requires t.Obj? && Separable(t) && GoodKeys(t)
    ensures GoodKeys(Add(RestPart(t), RoutesPart(t)))
    ensures Flat(Add(RestPart(t), RoutesPart(t))) == Flat(t)
  {
    AddBack(t);
    if ZUUL !in t.m {
      assert GoodKey(ZUUL);
      EmptyKeyPruned(t, ZUUL);
      FlatEqualIff(Obj(t.m[ZUUL := Obj(map[])]), t);
    }
  }

  lemma EmptyKeyPruned(t: Tree, k: string)
    requires t.Obj? && k !in t.m
    ensures Prune(Obj(t.m[k := Obj(map[])])) == Prune(t)
  {
    assert Prune(Obj(t.m[k := Obj(map[])])).m == Prune(t).m;
  }

  // ---------- which leaves and keys go where ----------

  predicate OnRoutes(p: Path) {
    |p| >= 2 && p[0] == ZUUL && p[1] == ROUTES
  }

  lemma GetTwo(t: Tree, p: Path)
    requires |p| >= 2
    ensures Get(t, p) == if t.Obj? && p[0] in t.m && t.m[p[0]].Obj? && p[1] in t.m[p[0]].m
                         then Get(t.m[p[0]].m[p[1]], p[2..]) else None
  {
    assert p[1..][0] == p[1] && p[1..][1..] == p[2..];
  }

  lemma GetOne(t: Tree, p: Path)
    requires |p| == 1
    ensures Get(t, p) == if t.Obj? && p[0] in t.m then Some(t.m[p[0]]) else None
  {
    assert p[1..] == [];
  }

  lemma PartsLeafAt(t: Tree, p: Path)
    requires t.Obj?
    ensures LeafAt(RestPart(t), p) <==> LeafAt(t, p) && !OnRoutes(p)
    ensures LeafAt(RoutesPart(t), p) <==> LeafAt(t, p) && OnRoutes(p)
    ensures LeafAt(RestPart(t), p) ==> Get(RestPart(t), p) == Get(t, p)
    ensures LeafAt(RoutesPart(t), p) ==> Get(RoutesPart(t), p) == Get(t, p)
  {
    if |p| >= 2 {
      GetTwo(t, p);
      GetTwo(RestPart(t), p);
      GetTwo(RoutesPart(t), p);
    } else if |p| == 1 {
      GetOne(t, p);
      GetOne(RestPart(t), p);
      GetOne(RoutesPart(t), p);
    }
  }

  lemma PartsGoodKeys(t: Tree)
    requires t.Obj? && GoodKeys(t)
    ensures GoodKeys(RestPart(t)) && GoodKeys(RoutesPart(t))
  {
    assert GoodKey(ZUUL) && GoodKey(ROUTES);
  }

  /** A flattened key at or below the routes. */
  predicate UnderRoutes(s: string) {
    s == "zuul.routes" || HasPrefix(s, "zuul.routes.")
  }

  lemma OnRoutesUnder(p: Path)
    requires OnRoutes(p)
    ensures UnderRoutes(Join(p))
  {
    assert p[1..][0] == ROUTES;
    if |p| > 2 {
      assert Join(p[1..]) == ROUTES + "." + Join(p[1..][1..]);
      assert Join(p) == "zuul.routes." + Join(p[1..][1..]);
    } else {
      assert Join(p) == "zuul.routes";
    }
  }

  lemma UnderOnRoutes(s: string)
    requires UnderRoutes(s)
    ensures OnRoutes(Split(s))
  {
    if s == "zuul.routes" {
      assert s == ZUUL + "." + ROUTES;
      SplitDotted(ZUUL, ROUTES);
      SplitKey(ROUTES);
    } else {
      var rest := s[|"zuul.routes."|..];
      assert s == ZUUL + "." + (ROUTES + "." + rest);
      SplitDotted(ZUUL, ROUTES + "." + rest);
      SplitDotted(ROUTES, rest);
    }
  }

  lemma UnderRoutesIff(s: string)
    ensures UnderRoutes(s) <==> OnRoutes(Split(s))
  {
    JoinSplit(s);
    if OnRoutes(Split(s)) {
      OnRoutesUnder(Split(s));
    }
    if UnderRoutes(s) {
      UnderOnRoutes(s);
    }
  }

  function Select(m: map<string, Tree>, keep: string -> bool): map<string, Tree> {
    map s | s in m && keep(s) :: m[s]
  }

  lemma FlatSelect(t: Tree, part: Tree, keep: string -> bool)
    requires t.Obj? && part.Obj? && GoodKeys(t) && GoodKeys(part)
    requires forall s :: LeafAt(part, Split(s)) <==> LeafAt(t, Split(s)) && keep(s)
    requires forall s :: LeafAt(part, Split(s)) ==> Get(part, Split(s)) == Get(t, Split(s))
    ensures Flat(part) == Select(Flat(t), keep)
  {
    FlatAt(t);
    FlatAt(part);
    assert Flat(part).Keys == Select(Flat(t), keep).Keys;
  }

  const OFF_ROUTES: string -> bool := s => !UnderRoutes(s)

  /** The flattened keys of the two parts are disjoint and together those of the
      gateway; the routes' keys are exactly those at or below "zuul.routes". */
  lemma PartsFlat(t: Tree)
    requires t.Obj? && GoodKeys(t)
    ensures GoodKeys(RestPart(t)) && GoodKeys(RoutesPart(t))
    ensures Flat(RestPart(t)) == Select(Flat(t), OFF_ROUTES)
    ensures Flat(RoutesPart(t)) == Select(Flat(t), UnderRoutes)
  {
    PartsGoodKeys(t);
    forall s
      ensures LeafAt(RestPart(t), Split(s)) <==> LeafAt(t, Split(s)) && OFF_ROUTES(s)
      ensures LeafAt(RoutesPart(t), Split(s)) <==> LeafAt(t, Split(s)) && UnderRoutes(s)
      ensures LeafAt(RestPart(t), Split(s)) ==> Get(RestPart(t), Split(s)) == Get(t, Split(s))
      ensures LeafAt(RoutesPart(t), Split(s)) ==> Get(RoutesPart(t), Split(s)) == Get(t, Split(s))
    {
      PartsLeafAt(t, Split(s));
      UnderRoutesIff(s);
    }
    FlatSelect(t, RestPart(t), OFF_ROUTES);
    FlatSelect(t, RoutesPart(t), UnderRoutes);
  }

  lemma SelectParts(m: map<string, Tree>, keep: string -> bool, drop: string -> bool)
    requires forall s :: drop(s) == !keep(s)
    ensures Select(m, drop).Keys !! Select(m, keep).Keys
    ensures Select(m, drop) + Select(m, keep) == m
    ensures forall s :: s in Select(m, drop) ==> !keep(s)
  {
  }

  /** The keys of the two parts are disjoint and together those of the gateway. */
  lemma PartsDisjoint(t: Tree)
    requires t.Obj? && GoodKeys(t)
    ensures Flat(RestPart(t)).Keys !! Flat(RoutesPart(t)).Keys
    ensures Flat(RestPart(t)) + Flat(RoutesPart(t)) == Flat(t)
    ensures forall s :: s in Flat(RestPart(t)) ==> !UnderRoutes(s)
  {
    PartsFlat(t);
    SelectParts(Flat(t), UnderRoutes, OFF_ROUTES);
  }

  // ---------- the code, on map objects ----------

  /** A shape without one key; the objects below that key are let go. */
  ghost function WithoutKid(s: Shape, k: string): Shape
    requires s.tree.Obj?
  {
    Shape(s.value, Obj(s.tree.m - {k}), s.kids - {k}, s.foot - FootAt(s, k))
  }

  lemma KidRemoved(c: Cells, d: Cells, node: MapNode, s: Shape, k: string)
    requires s.value == Ref(node) && Held(c, s) && s.foot <= d.Keys
    requires d[node] == c[node] - {k}
    requires forall n :: n in s.foot - {node} ==> d[n] == c[n]
    ensures Held(d, WithoutKid(s, k))
  {
    var t := WithoutKid(s, k);
    forall j | j in t.kids
      ensures j in s.kids.Keys - {k} && KidHeld(d, node, t, j)
    {
      assert KidHeld(c, node, s, j);
      HeldFrame(c, d, s.kids[j]);
    }
    assert Apart(node, t.kids, t.foot);
  }

  lemma PutBack<V>(m: map<string, V>, k: string, v: V)
    ensures (m - {k})[k := v] == m[k := v]
    ensures k in m && m[k] == v ==> m[k := v] == m
  {
  }

  /** The object at one key has changed: taken out and put back. */
  lemma KidChanged(c: Cells, d: Cells, node: MapNode, s: Shape, k: string, kid: Shape)
    requires s.value == Ref(node) && Held(c, s) && k in s.kids && s.foot <= d.Keys
    requires Held(d, kid) && kid.foot !! s.foot - s.kids[k].foot && kid.value == s.kids[k].value
    requires forall n :: n in s.foot - s.kids[k].foot ==> d[n] == c[n]
    ensures Held(d, WithKid(WithoutKid(s, k), k, kid))
  {
    var e := TakenOut(c, d, node, s, k);
    assert KidHeld(c, node, s, k);
    PutBack(c[node], k, kid.value);
    KidAdded(e, d, node, WithoutKid(s, k), k, kid);
  }

  lemma TakenOut(c: Cells, d: Cells, node: MapNode, s: Shape, k: string) returns (e: Cells)
    requires s.value == Ref(node) && Held(c, s) && k in s.kids && s.foot <= d.Keys
    requires forall n :: n in s.foot - s.kids[k].foot ==> d[n] == c[n]
    ensures e.Keys == c.Keys && e[node] == c[node] - {k}
    ensures forall n :: n in s.foot - s.kids[k].foot - {node} ==> d[n] == e[n]
    ensures d[node] == c[node] && Held(e, WithoutKid(s, k))
  {
    var rest := c[node] - {k};
    e := c[node := rest];
    KidRemoved(c, e, node, s, k);
  }

  /** Stores the value at a key in an empty map object and deletes the key. */
  method MoveKey(from: MapNode, to: MapNode, ghost s: Shape, ghost st: Shape, k: string)
    returns (ghost rest: Shape, ghost moved: Shape)
    requires Owns(from, s) && k in s.kids
    requires Owns(to, st) && st.tree == Obj(map[]) && st.foot == {to} && to !in s.foot
    modifies from, to
    ensures Owns(from, rest) && rest.tree == Obj(s.tree.m - {k}) && rest.foot == s.foot - FootAt(s, k)
    ensures Owns(to, moved) && moved.tree == Obj(map[k := s.kids[k].tree]) && moved.foot == {to} + FootAt(s, k)
  {
    moved := CopyKey(from, to, s, st, k);
    rest := DeleteKey(from, k, s);
  }

  method CopyKey(from: MapNode, to: MapNode, ghost s: Shape, ghost st: Shape, k: string) returns (ghost moved: Shape)
    requires Owns(from, s) && k in s.kids
    requires Owns(to, st) && st.tree == Obj(map[]) && st.foot == {to} && to !in s.foot
    modifies to
    ensures Owns(from, s) && from !in moved.foot
    ensures Owns(to, moved) && moved.tree == Obj(map[k := s.kids[k].tree]) && moved.foot == {to} + FootAt(s, k)
  {
    ghost var c := CellsOf(s.foot);
    assert KidHeld(c, from, s, k);
    assert s.kids[k].foot <= s.foot - {from};
    HeldFrame(c, CellsOf(s.kids[k].foot), s.kids[k]);
    moved := PutOnly(to, k, from.entries[k], st, s.kids[k]);
  }

  /** Stores the only key of an empty map object. */
  method PutOnly(to: MapNode, k: string, v: Value, ghost st: Shape, ghost kid: Shape) returns (ghost moved: Shape)
    requires Owns(to, st) && st.tree == Obj(map[]) && st.foot == {to} && to !in kid.foot
    requires v == kid.value && Held(CellsOf(kid.foot), kid)
    modifies to
    ensures Owns(to, moved) && moved.tree == Obj(map[k := kid.tree]) && moved.foot == {to} + kid.foot
  {
    moved := SetKey(to, k, v, st, kid);
  }

  method DeleteKey(node: MapNode, k: string, ghost s: Shape) returns (ghost r: Shape)
    requires Owns(node, s)
    modifies node
    ensures Owns(node, r) && r.tree == Obj(s.tree.m - {k}) && r.foot == s.foot - FootAt(s, k)
  {
    ghost var c := CellsOf(s.foot);
    node.entries := node.entries - {k};
    KidRemoved(c, CellsOf(s.foot), node, s, k);
    r := WithoutKid(s, k);
    HeldFrame(CellsOf(s.foot), CellsOf(r.foot), r);
  }

  /** The owner's shape after the object at one of its keys has changed. */
  lemma Reown(c: Cells, node: MapNode, s: Shape, k: string, kid: Shape) returns (r: Shape)
    requires s.value == Ref(node) && Held(c, s) && c.Keys == s.foot && k in s.kids
    requires Held(CellsOf(kid.foot), kid) && kid.foot !! s.foot - s.kids[k].foot && kid.value == s.kids[k].value
    requires forall n :: n in s.foot - s.kids[k].foot ==> n.entries == c[n]
    ensures Owns(node, r) && r.tree == Obj(s.tree.m[k := kid.tree]) && r.foot == s.foot - s.kids[k].foot + kid.foot
  {
    var d := CellsOf(s.foot + kid.foot);
    HeldFrame(CellsOf(kid.foot), d, kid);
    KidChanged(c, d, node, s, k, kid);
    r := WithKid(WithoutKid(s, k), k, kid);
    HeldFrame(d, CellsOf(r.foot), r);
    PutBack(s.tree.m, k, kid.tree);
  }

  /** Moves the value at k2 from the object at k to an empty map object. */
  method MoveNested(owner: MapNode, k: string, child: MapNode, k2: string, to: MapNode, ghost s: Shape, ghost st: Shape)
    returns (ghost r: Shape, ghost moved: Shape)
    requires Owns(owner, s) && k in s.kids && Owns(child, s.kids[k]) && k2 in s.kids[k].kids
    requires Owns(to, st) && st.tree == Obj(map[]) && to !in s.foot && st.foot == {to}
    modifies s.foot, to
    ensures Owns(owner, r) && r.tree == Obj(s.tree.m[k := Obj(s.kids[k].tree.m - {k2})])
    ensures r.foot == s.foot - s.kids[k].foot + (s.kids[k].foot - FootAt(s.kids[k], k2))
    ensures Owns(to, moved) && moved.tree == Obj(map[k2 := s.kids[k].kids[k2].tree])
    ensures moved.foot == {to} + FootAt(s.kids[k], k2)
  {
    ghost var c := CellsOf(s.foot);
    ghost var rest;
    rest, moved := MoveKey(child, to, s.kids[k], st, k2);
    r := Reown(c, owner, s, k, rest);
  }

  lemma FeetApart<T>(all: set<T>, kid: set<T>, below: set<T>, to: T)
    requires to !in all && below <= kid <= all
    ensures all - kid + (kid - below) !! {to} + below
    ensures all - kid + (kid - below) <= all && {to} + below <= all + {to}
  {
  }

  /** Moves `routes`, if there is one, from the object at `zuul` to routeMap. */
  method TakeRoutes(gateway: MapNode, vm: MapNode, routeMap: MapNode, ghost sg: Shape, ghost sq: Shape)
    returns (ghost sr: Shape, ghost sm: Shape)
    requires Owns(gateway, sg) && ZUUL in gateway.entries && gateway.entries[ZUUL] == Ref(vm)
    requires Owns(routeMap, sq) && sq.tree == Obj(map[]) && routeMap !in sg.foot && sq.foot == {routeMap}
    modifies sg.foot, routeMap
    ensures Owns(gateway, sr) && sr.foot <= sg.foot && sr.tree == RestPart(sg.tree)
    ensures Owns(routeMap, sm) && sm.foot <= sg.foot + {routeMap} && sm.tree == RoutesOnly(sg.tree)
    ensures sr.foot !! sm.foot
  {
    ghost var c := CellsOf(sg.foot);
    assert KidHeld(c, gateway, sg, ZUUL);
    ghost var sz := sg.kids[ZUUL];
    HeldFrame(c, CellsOf(sz.foot), sz);
    if ROUTES in vm.entries {
      assert KidHeld(CellsOf(sz.foot), vm, sz, ROUTES);
      FeetApart(sg.foot, sz.foot, FootAt(sz, ROUTES), routeMap);
      sr, sm := MoveNested(gateway, ZUUL, vm, ROUTES, routeMap, sg, sq);
    } else {
      sr, sm := sg, sq;
      assert sz.tree.m - {ROUTES} == sz.tree.m;
      PutBack(sg.tree.m, ZUUL, sz.tree);
    }
  }

  /** The code on map objects: `routes` moves out of the object at `zuul` into a new
      map object. Its two loops each look for one key. `ok` is false on a panic. */
  method SeparateRoute(gateway: MapNode?, ghost sg: Shape)
    returns (ok: bool, gb: Text, rb: Text, rm: MapNode, ghost sr: Shape, ghost sm: Shape)
    requires OwnsRoot(gateway, sg)
    modifies sg.foot
    ensures IsRoot(sg.tree)
    ensures ok <==> Separable(sg.tree)
    ensures ok ==> OwnsRoot(gateway, sr) && sr.foot <= sg.foot && sr.tree == RestPart(sg.tree)
    ensures ok ==> Owns(rm, sm) && sm.tree == RoutesPart(sg.tree) && sr.foot !! sm.foot
    ensures ok ==> gb == Printed(sr.tree) && rb == Printed(sm.tree)
  {
    if gateway == null {
      var routeMap := new MapNode();
      ok, gb, sr := true, Nil, sg;
      rb, rm, sm := PrintRoutes(routeMap, Shape(Ref(routeMap), Obj(map[]), map[], {routeMap}), {});
    } else {
      ok, gb, rb, rm, sr, sm := SeparateObject(gateway, sg);
    }
  }

  method SeparateObject(gateway: MapNode, ghost sg: Shape)
    returns (ok: bool, gb: Text, rb: Text, rm: MapNode, ghost sr: Shape, ghost sm: Shape)
    requires Owns(gateway, sg)
    modifies sg.foot
    ensures sg.tree.Obj? && (ok <==> Separable(sg.tree))
    ensures ok ==> Owns(gateway, sr) && sr.foot <= sg.foot && sr.tree == RestPart(sg.tree)
    ensures ok ==> Owns(rm, sm) && sm.tree == RoutesPart(sg.tree) && sr.foot !! sm.foot
    ensures ok ==> gb == Printed(sr.tree) && rb == Printed(sm.tree)
  {
    var routeMap := new MapNode();
    ghost var sq := Shape(Ref(routeMap), Obj(map[]), map[], {routeMap});
    ok, sq, sr := CutZuul(gateway, routeMap, sg, sq);
    gb, rb, rm, sm := Nil, Nil, routeMap, sq;
    if ok {
      gb := Print(gateway, sr);
      rb, rm, sm := PrintRoutes(routeMap, sq, sr.foot);
    }
  }

  /** The routes below a `zuul` of their own, and their text. */
  method PrintRoutes(routeMap: MapNode, ghost sq: Shape, ghost others: set<MapNode>)
    returns (rb: Text, rm: MapNode, ghost sm: Shape)
    requires Owns(routeMap, sq) && sq.foot !! others
    ensures Owns(rm, sm) && sm.tree == Obj(map[ZUUL := sq.tree]) && sm.foot !! others
    ensures rb == Printed(sm.tree)
  {
    rm, sm := WrapZuul(routeMap, sq);
    rb := Print(rm, sm);
  }

  method CutZuul(gateway: MapNode, routeMap: MapNode, ghost sg: Shape, ghost sq: Shape)
    returns (ok: bool, ghost sm: Shape, ghost sr: Shape)
    requires Owns(gateway, sg)
    requires Owns(routeMap, sq) && sq.tree == Obj(map[]) && routeMap !in sg.foot && sq.foot == {routeMap}
    modifies sg.foot, routeMap
    ensures ok <==> Separable(sg.tree)
    ensures ok ==> Owns(gateway, sr) && sr.foot <= sg.foot && sr.tree == RestPart(sg.tree)
    ensures ok ==> Owns(routeMap, sm) && sm.foot <= sg.foot + {routeMap} && sm.tree == RoutesOnly(sg.tree)
    ensures ok ==> sr.foot !! sm.foot
  {
    ok, sr, sm := true, sg, sq;
    if ZUUL in gateway.entries {
      assert KidHeld(CellsOf(sg.foot), gateway, sg, ZUUL);
      assert Held(CellsOf(sg.foot), sg.kids[ZUUL]);
      var v := gateway.entries[ZUUL];
      if v == Val(Null) {
        return false, sm, sr;
      }
      if v.Ref? {
        sr, sm := TakeRoutes(gateway, v.node, routeMap, sg, sq);
      }
    }
  }

  method WrapZuul(routeMap: MapNode, ghost sq: Shape) returns (rm: MapNode, ghost sm: Shape)
    requires Owns(routeMap, sq)
    ensures Owns(rm, sm) && sm.tree == Obj(map[ZUUL := sq.tree])
    ensures sm.foot == {rm} + sq.foot && fresh(rm)
  {
    rm := new MapNode();
    sm := Shape(Ref(rm), Obj(map[]), map[], {rm});
    sm := PutOnly(rm, ZUUL, Ref(routeMap), sm, sq);
  }
}
