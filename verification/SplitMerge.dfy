/** Splitting the gateway tree commutes with merging it. */
module SplitMerge {
  import opened Trees
  import opened Merge
  import opened Yaml
  import opened RouteSplit

  // ---------- what the two policies have in common ----------

  ghost predicate Merges<V>(f: (V, V) -> V, o: map<string, V>, n: map<string, V>, s: map<string, V>) {
    && s.Keys == o.Keys + n.Keys
    && (forall k :: k in s ==> s[k] == if k in o && k in n then f(o[k], n[k]) else if k in o then o[k] else n[k])
  }

  lemma MergesUnique<V>(f: (V, V) -> V, o: map<string, V>, n: map<string, V>, s: map<string, V>, t: map<string, V>)
    requires Merges(f, o, n, s) && Merges(f, o, n, t)
    ensures s == t
  {
  }

  lemma MergesDrop<V>(f: (V, V) -> V, o: map<string, V>, n: map<string, V>, s: map<string, V>, r: set<string>)
    requires Merges(f, o, n, s)
    ensures Merges(f, o - r, n - r, s - r)
  {
  }

  /** New values at one key, on the sides that have it. */
  lemma MergesSet<V>(f: (V, V) -> V, o: map<string, V>, n: map<string, V>, s: map<string, V>, z: string, x: V, y: V)
    requires Merges(f, o, n, s)
    ensures Merges(f, o[z := x], n[z := y], s[z := f(x, y)])
    ensures z !in n ==> Merges(f, o[z := x], n, s[z := x])
    ensures z !in o ==> Merges(f, o, n[z := y], s[z := y])
  {
  }

  /** Objects merge key by key; of other values new replaces only what is no object,
      not null, and not kept by the policy, and null replaces nothing. */
  ghost predicate Policy(f: (Tree, Tree) -> Tree, keep: bool) {
    forall x: Tree, y: Tree ::
      if x.Obj? && y.Obj? then f(x, y).Obj? && Merges(f, x.m, y.m, f(x, y).m)
      else f(x, y) == if keep || x.Obj? || x.Null? || y.Null? then x else y
  }

  lemma BothPolicies()
    ensures Policy(Add, true) && Policy(Update, false)
  {
  }

  lemma MergeIs(f: (Tree, Tree) -> Tree, keep: bool, x: Tree, y: Tree, m: map<string, Tree>)
    requires Policy(f, keep) && x.Obj? && y.Obj? && Merges(f, x.m, y.m, m)
    ensures f(x, y) == Obj(m)
  {
    MergesUnique(f, x.m, y.m, f(x, y).m, m);
  }

  /** The tree without the keys r of the object at z. */
  function Without(t: Tree, z: string, r: set<string>): Tree
    requires t.Obj?
  {
    if z in t.m && t.m[z].Obj? then Obj(t.m[z := Obj(t.m[z].m - r)]) else t
  }

  function Cut(v: Tree, r: set<string>): Tree {
    if v.Obj? then Obj(v.m - r) else v
  }

  lemma CutMerge(f: (Tree, Tree) -> Tree, keep: bool, x: Tree, y: Tree, r: set<string>)
    requires Policy(f, keep)
    ensures f(Cut(x, r), Cut(y, r)) == Cut(f(x, y), r)
  {
    if x.Obj? && y.Obj? {
      MergesDrop(f, x.m, y.m, f(x, y).m, r);
      MergeIs(f, keep, Cut(x, r), Cut(y, r), f(x, y).m - r);
    }
  }

  lemma WithoutIsCut(t: Tree, z: string, r: set<string>)
    requires t.Obj?
    ensures Without(t, z, r) == if z in t.m then Obj(t.m[z := Cut(t.m[z], r)]) else t
  {
    if z in t.m && !t.m[z].Obj? {
      assert t.m[z := t.m[z]] == t.m;
    }
  }

  lemma WithoutMerge(f: (Tree, Tree) -> Tree, keep: bool, o: Tree, n: Tree, z: string, r: set<string>)
    requires Policy(f, keep) && o.Obj? && n.Obj?
    ensures f(o, n).Obj? && f(Without(o, z, r), Without(n, z, r)) == Without(f(o, n), z, r)
  {
    var s := f(o, n);
    WithoutIsCut(o, z, r);
    WithoutIsCut(n, z, r);
    WithoutIsCut(s, z, r);
    var x := if z in o.m then Cut(o.m[z], r) else Null;
    var y := if z in n.m then Cut(n.m[z], r) else Null;
    MergesSet(f, o.m, n.m, s.m, z, x, y);
    if z in o.m && z in n.m {
      CutMerge(f, keep, o.m[z], n.m[z], r);
    }
    if z in s.m {
      MergeIs(f, keep, Without(o, z, r), Without(n, z, r), s.m[z := Cut(s.m[z], r)]);
    }
  }

  function Restrict<V>(m: map<string, V>, r: set<string>): map<string, V> {
    map k | k in m && k in r :: m[k]
  }

  lemma MergesRestrict<V>(f: (V, V) -> V, o: map<string, V>, n: map<string, V>, s: map<string, V>, r: set<string>)
    requires Merges(f, o, n, s)
    ensures Merges(f, Restrict(o, r), Restrict(n, r), Restrict(s, r))
  {
  }

  lemma MergesEmpty<V>(f: (V, V) -> V, m: map<string, V>)
    ensures Merges(f, map[], m, m) && Merges(f, m, map[], m)
  {
  }

  function Below(t: Tree, z: string): map<string, Tree>
    requires t.Obj?
  {
    if z in t.m && t.m[z].Obj? then t.m[z].m else map[]
  }

  lemma BelowMerge(f: (Tree, Tree) -> Tree, keep: bool, o: Tree, n: Tree, z: string, r: set<string>)
    requires Policy(f, keep) && o.Obj? && n.Obj? && f(o, n).Obj?
    ensures f(Obj(Restrict(Below(o, z), r)), Obj(Restrict(Below(n, z), r))) == Obj(Restrict(Below(f(o, n), z), r)) <==>
            !(z in o.m && !o.m[z].Obj? && (keep || o.m[z].Null?) && Restrict(Below(n, z), r) != map[])
  {
    var s := f(o, n);
    var a, b, c := Restrict(Below(o, z), r), Restrict(Below(n, z), r), Restrict(Below(s, z), r);
    if z in o.m && z in n.m && o.m[z].Obj? && n.m[z].Obj? {
      MergesRestrict(f, o.m[z].m, n.m[z].m, s.m[z].m, r);
      MergeIs(f, keep, Obj(a), Obj(b), c);
    } else {
      MergesEmpty(f, a);
      MergesEmpty(f, b);
      assert Restrict<Tree>(map[], r) == map[];
      MergeIs(f, keep, Obj(a), Obj(b), if a == map[] then b else a);
    }
  }

  lemma PartsAre(t: Tree)
    requires t.Obj?
    ensures RestPart(t) == Without(t, ZUUL, {ROUTES})
    ensures RoutesOnly(t) == Obj(Restrict(Below(t, ZUUL), {ROUTES}))
  {
    var m := Restrict(Below(t, ZUUL), {ROUTES});
    assert RoutesOnly(t).m == m;
  }

  lemma OneKeyMerge(f: (Tree, Tree) -> Tree, keep: bool, z: string, x: Tree, y: Tree)
    requires Policy(f, keep)
    ensures f(Obj(map[z := x]), Obj(map[z := y])) == Obj(map[z := f(x, y)])
  {
    MergeIs(f, keep, Obj(map[z := x]), Obj(map[z := y]), map[z := f(x, y)]);
  }

  // ---------- the gateway's two parts are parts of one tree ----------

  /** Where the whole tree, merged, would not take new routes: an old `zuul` that is no
      object stays. */
  predicate RoutesBlocked(keep: bool, o: Tree, n: Tree)
    requires IsRoot(o) && IsRoot(n)
  {
    && RoutesOnly(n) != Obj(map[])
    && (o.Null? || (ZUUL in o.m && !o.m[ZUUL].Obj? && (keep || o.m[ZUUL].Null?)))
  }

  /** Merging the parts gives the parts of the merged tree, unless routes are blocked. */
  lemma SplitPolicy(f: (Tree, Tree) -> Tree, keep: bool, o: Tree, n: Tree)
    requires Policy(f, keep) && o.Obj? && n.Obj? && f(o, n).Obj?
    ensures f(RestPart(o), RestPart(n)) == RestPart(f(o, n))
    ensures f(RoutesPart(o), RoutesPart(n)) == RoutesPart(f(o, n)) <==> !RoutesBlocked(keep, o, n)
  {
    var r := {ROUTES};
    PartsAre(o);
    PartsAre(n);
    PartsAre(f(o, n));
    WithoutMerge(f, keep, o, n, ZUUL, r);
    BelowMerge(f, keep, o, n, ZUUL, r);
    OneKeyMerge(f, keep, ZUUL, RoutesOnly(o), RoutesOnly(n));
    OneKeyEqual(ZUUL, f(RoutesOnly(o), RoutesOnly(n)), RoutesOnly(f(o, n)));
  }

  /** The same where a tree is null, for a nil map. */
  lemma SplitRoots(f: (Tree, Tree) -> Tree, keep: bool, o: Tree, n: Tree)
    requires Policy(f, keep) && IsRoot(o) && IsRoot(n)
    ensures IsRoot(f(o, n))
    ensures f(RestPart(o), RestPart(n)) == RestPart(f(o, n))
    ensures f(RoutesPart(o), RoutesPart(n)) == RoutesPart(f(o, n)) <==> !RoutesBlocked(keep, o, n)
  {
    if o.Obj? && n.Obj? {
      SplitPolicy(f, keep, o, n);
    } else {
      var other := if o.Null? then RoutesOnly(n) else RoutesOnly(o);
      MergesEmpty(f, other.m);
      MergeIs(f, keep, RoutesOnly(o), RoutesOnly(n), other.m);
      OneKeyMerge(f, keep, ZUUL, RoutesOnly(o), RoutesOnly(n));
      OneKeyEqual(ZUUL, other, RoutesOnly(f(o, n)));
    }
  }

  /** Blocked routes are not lost: the stored routes part takes all of them, although
      the merged tree would have none. */
  lemma BlockedRoutesStored(f: (Tree, Tree) -> Tree, keep: bool, o: Tree, n: Tree)
    requires Policy(f, keep) && IsRoot(o) && IsRoot(n) && RoutesBlocked(keep, o, n)
    ensures IsRoot(f(o, n)) && RoutesPart(f(o, n)) == Obj(map[ZUUL := Obj(map[])])
    ensures f(RoutesPart(o), RoutesPart(n)) == RoutesPart(n)
  {
    SplitRoots(f, keep, o, n);
    MergesEmpty(f, RoutesOnly(n).m);
    MergeIs(f, keep, RoutesOnly(o), RoutesOnly(n), RoutesOnly(n).m);
    OneKeyMerge(f, keep, ZUUL, RoutesOnly(o), RoutesOnly(n));
  }

  lemma OneKeyEqual(z: string, a: Tree, b: Tree)
    ensures Obj(map[z := a]) == Obj(map[z := b]) <==> a == b
  {
    assert map[z := a][z] == a && map[z := b][z] == b;
  }

  /** Under both policies, merging the parts gives the parts of the merged tree: always
      for the rest, and for the routes exactly unless they are blocked. Then the stored
      routes are those of the new tree, all of which the merged tree would drop. */
  lemma SplitCommutesWithMerge(o: Tree, n: Tree)
    requires IsRoot(o) && IsRoot(n)
    ensures IsRoot(Add(o, n)) && IsRoot(Update(o, n))
    ensures Add(RestPart(o), RestPart(n)) == RestPart(Add(o, n))
    ensures Update(RestPart(o), RestPart(n)) == RestPart(Update(o, n))
    ensures Add(RoutesPart(o), RoutesPart(n)) == RoutesPart(Add(o, n)) <==> !RoutesBlocked(true, o, n)
    ensures Update(RoutesPart(o), RoutesPart(n)) == RoutesPart(Update(o, n)) <==> !RoutesBlocked(false, o, n)
  {
    BothPolicies();
    SplitRoots(Add, true, o, n);
    SplitRoots(Update, false, o, n);
  }

  lemma BlockedByPolicy(o: Tree, n: Tree)
    requires IsRoot(o) && IsRoot(n)
    ensures IsRoot(Add(o, n)) && IsRoot(Update(o, n))
    ensures RoutesBlocked(true, o, n) ==>
              && Add(RoutesPart(o), RoutesPart(n)) == RoutesPart(n)
              && RoutesPart(Add(o, n)) == Obj(map[ZUUL := Obj(map[])])
    ensures RoutesBlocked(false, o, n) ==>
              && Update(RoutesPart(o), RoutesPart(n)) == RoutesPart(n)
              && RoutesPart(Update(o, n)) == Obj(map[ZUUL := Obj(map[])])
  {
    BothPolicies();
    if RoutesBlocked(true, o, n) {
      BlockedRoutesStored(Add, true, o, n);
    }
    if RoutesBlocked(false, o, n) {
      BlockedRoutesStored(Update, false, o, n);
    }
  }

  lemma ClashCut(x: map<string, Tree>, y: map<string, Tree>, r: set<string>)
    ensures Clash(Obj(x), Obj(y)) <==> Clash(Obj(x - r), Obj(y - r)) || Clash(Obj(Restrict(x, r)), Obj(Restrict(y, r)))
  {
    if Clash(Obj(x), Obj(y)) {
      var k :| k in x && k in y && Clash(x[k], y[k]);
      if k in r {
        assert k in Restrict(x, r) && k in Restrict(y, r);
      } else {
        assert k in x - r && k in y - r;
      }
    }
    if Clash(Obj(x - r), Obj(y - r)) {
      var k :| k in x - r && k in y - r && Clash(x[k], y[k]);
      assert k in Obj(x).m;
    }
    if Clash(Obj(Restrict(x, r)), Obj(Restrict(y, r))) {
      var k :| k in Restrict(x, r) && k in Restrict(y, r) && Clash(x[k], y[k]);
      assert k in Obj(x).m;
    }
  }

  lemma ClashAtKey(o: Tree, n: Tree, k: string)
    requires o.Obj? && n.Obj? && k in o.m && k in n.m && Clash(o.m[k], n.m[k])
    ensures Clash(o, n)
  {
  }

  lemma ClashOneKey(z: string, a: Tree, b: Tree)
    ensures Clash(Obj(map[z := a]), Obj(map[z := b])) <==> Clash(a, b)
  {
    var o, n := Obj(map[z := a]), Obj(map[z := b]);
    if Clash(a, b) {
      ClashAtKey(o, n, z);
    }
  }

  /** The merge of the whole trees panics exactly when that of a part does. */
  lemma ClashSplit(o: Tree, n: Tree)
    requires IsRoot(o) && IsRoot(n)
    ensures Clash(o, n) <==> Clash(RestPart(o), RestPart(n)) || Clash(RoutesPart(o), RoutesPart(n))
  {
    ClashOneKey(ZUUL, RoutesOnly(o), RoutesOnly(n));
    if o.Obj? && n.Obj? {
      PartsAre(o);
      PartsAre(n);
      ClashWithout(o, n, ZUUL, {ROUTES});
    }
  }

  lemma ClashWithout(o: Tree, n: Tree, z: string, r: set<string>)
    requires o.Obj? && n.Obj?
    ensures Clash(o, n) <==> Clash(Without(o, z, r), Without(n, z, r)) ||
                             Clash(Obj(Restrict(Below(o, z), r)), Obj(Restrict(Below(n, z), r)))
  {
    var a, b := Without(o, z, r), Without(n, z, r);
    ClashCut(Below(o, z), Below(n, z), r);
    if k :| k in o.m && k in n.m && Clash(o.m[k], n.m[k]) {
      if k != z || !o.m[z].Obj? || !n.m[z].Obj? {
        ClashAtKey(a, b, k);
      } else if Clash(Obj(o.m[z].m - r), Obj(n.m[z].m - r)) {
        ClashAtKey(a, b, z);
      }
    }
    if k :| k in a.m && k in b.m && Clash(a.m[k], b.m[k]) {
      ClashAtKey(o, n, k);
    }
    if z in o.m && z in n.m && Clash(o.m[z], n.m[z]) {
      ClashAtKey(o, n, z);
    }
  }
}
