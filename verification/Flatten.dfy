/** Flattening a tree to dotted keys, and undoing it. */
module Flatten {
  import opened Trees
  import opened Keys
  import opened Overlay

  /** A Go map shared by reference and filled by loops. */
  class FlatMap {
    var kv: map<string, Tree>

    constructor ()
      ensures kv == map[]
    {
      kv := map[];
    }
  }

  /** What `recursive` stores for t below prefix. */
  ghost function Entries(prefix: string, t: Tree): set<(string, Tree)>
    decreases t
  {
    match t
    case Null => {}
    case Obj(m) => set k, e | k in m && e in Entries(Extend(prefix, k), m[k]) :: e
    case _ => {(prefix, t)}
  }

  ghost function EntriesOf(prefix: string, m: map<string, Tree>, keys: set<string>): set<(string, Tree)>
    requires keys <= m.Keys
  {
    set k, e | k in keys && e in Entries(Extend(prefix, k), m[k]) :: e
  }

  ghost predicate LeafAt(t: Tree, p: Path) {
    Get(t, p).Some? && Get(t, p).value.IsLeaf()
  }

  /** Every object key is non-empty and dot-free. Lists are not looked into. */
  predicate GoodKeys(t: Tree) {
    t.Obj? ==> forall k :: k in t.m ==> GoodKey(k) && GoodKeys(t.m[k])
  }

  /** Without dot-free keys the order can matter: two paths, one flattened key. */
  lemma DottedKeysCollide()
    ensures var t := Obj(map["a.b" := Leaf(Bool(true)), "a" := Obj(map["b" := Leaf(Bool(false))])]);
            !OneOutcome(map[], Entries("", t))
  {
    var inner := Obj(map["b" := Leaf(Bool(false))]);
    var t := Obj(map["a.b" := Leaf(Bool(true)), "a" := inner]);
    var e, f := ("a.b", Leaf(Bool(true))), ("a.b", Leaf(Bool(false)));
    assert e in Entries(Extend("", "a.b"), t.m["a.b"]);
    assert Extend("a", "b") == "a.b" && f in Entries(Extend("a", "b"), inner.m["b"]);
    assert f in Entries(Extend("", "a"), t.m["a"]);
    OneOutcomeIff(map[], Entries("", t));
  }

  /** The flattening of an object: what `ConvertRecursiveMapToSingleMap` returns. */
  ghost function Flat(t: Tree): map<string, Tree> {
    ToMap(Entries("", t))
  }

  // ---------- the loops ----------

  /** One more key of the loop in `recursive`. */
  lemma EntriesStep(prefix: string, m: map<string, Tree>, done: set<string>, k: string,
                    before: map<string, Tree>, mid: map<string, Tree>, after: map<string, Tree>)
    requires done <= m.Keys && k in m
    requires Overlays(before, mid, EntriesOf(prefix, m, done))
    requires Overlays(mid, after, Entries(Extend(prefix, k), m[k]))
    ensures Overlays(before, after, EntriesOf(prefix, m, done + {k}))
  {
    OverlaysCompose(before, mid, after, EntriesOf(prefix, m, done), Entries(Extend(prefix, k), m[k]));
    assert EntriesOf(prefix, m, done + {k}) == EntriesOf(prefix, m, done) + Entries(Extend(prefix, k), m[k]);
  }

  method Recursive(single: FlatMap, prefix: string, t: Tree)
    requires t.Obj?
    modifies single
    ensures Overlays(old(single.kv), single.kv, Entries(prefix, t))
    decreases t
  {
    ghost var before := single.kv;
    var todo := t.m.Keys;
    ghost var done: set<string> := {};
    while todo != {}
      invariant done == t.m.Keys - todo && todo <= t.m.Keys
      invariant Overlays(before, single.kv, EntriesOf(prefix, t.m, done))
      decreases |todo|
    {
      var k :| k in todo;
      var v := t.m[k];
      var newKey := Extend(prefix, k);
      ghost var mid := single.kv;
      StoreBelow(single, newKey, v, t);
      EntriesStep(prefix, t.m, done, k, before, mid, single.kv);
      todo, done := todo - {k}, done + {k};
    }
    assert done == t.m.Keys;
    assert EntriesOf(prefix, t.m, t.m.Keys) == Entries(prefix, t);
  }

  /** The body of the loop: nulls are skipped, objects flattened, leaves stored. */
  method StoreBelow(single: FlatMap, newKey: string, v: Tree, ghost parent: Tree)
    requires v < parent
    modifies single
    ensures Overlays(old(single.kv), single.kv, Entries(newKey, v))
    decreases parent, 0
  {
    if v.Null? {
      return;
    }
    if v.Obj? {
      Recursive(single, newKey, v);
    } else {
      OverlayOne(single.kv, newKey, v);
      single.kv := single.kv[newKey := v];
    }
  }

  method ConvertRecursiveMapToSingleMap(t: Tree) returns (single: FlatMap)
    requires t.Obj?
    ensures fresh(single)
    ensures Overlays(map[], single.kv, Entries("", t))
    ensures GoodKeys(t) ==> single.kv == Flat(t)
  {
    single := new FlatMap();
    Recursive(single, "", t);
    if GoodKeys(t) {
      EntriesFunctional(t);
      OverlayDetermined(map[], single.kv, Entries("", t));
      assert map[] + ToMap(Entries("", t)) == Flat(t);
    }
  }

  // ---------- entries and leaf paths ----------

  /** One entry for each non-null leaf path, whatever the keys look like. */
  lemma {:induction false} EntryIffLeafPath(prefix: string, t: Tree, e: (string, Tree))
    ensures e in Entries(prefix, t) <==> exists p :: LeafAt(t, p) && e == (Render(prefix, p), Get(t, p).value)
    decreases t
  {
    if t.Obj? {
      if e in Entries(prefix, t) {
        var k :| k in t.m && e in Entries(Extend(prefix, k), t.m[k]);
        EntryIffLeafPath(Extend(prefix, k), t.m[k], e);
        var q :| LeafAt(t.m[k], q) && e == (Render(Extend(prefix, k), q), Get(t.m[k], q).value);
        var p := [k] + q;
        assert p[1..] == q;
        assert LeafAt(t, p) && e == (Render(prefix, p), Get(t, p).value);
      }
      if p :| LeafAt(t, p) && e == (Render(prefix, p), Get(t, p).value) {
        assert p != [];
        var q := p[1..];
        EntryIffLeafPath(Extend(prefix, p[0]), t.m[p[0]], e);
        assert LeafAt(t.m[p[0]], q);
        assert e == (Render(Extend(prefix, p[0]), q), Get(t.m[p[0]], q).value);
      }
    } else if t.IsLeaf() {
      assert LeafAt(t, []);
    }
  }

  lemma {:induction false} GoodLeafPath(t: Tree, p: Path)
    requires GoodKeys(t) && Get(t, p).Some?
    ensures GoodPath(p)
    ensures GoodKeys(Get(t, p).value)
  {
    if p != [] {
      GoodLeafPath(t.m[p[0]], p[1..]);
      assert forall i :: 0 < i < |p| ==> p[i] == p[1..][i - 1];
    }
  }

  lemma EntrySplit(t: Tree, e: (string, Tree))
    requires t.Obj? && GoodKeys(t)
    ensures e in Entries("", t) <==> LeafAt(t, Split(e.0)) && e.1 == Get(t, Split(e.0)).value
  {
    EntryIffLeafPath("", t, e);
    if e in Entries("", t) {
      var p :| LeafAt(t, p) && e == (Render("", p), Get(t, p).value);
      GoodLeafPath(t, p);
      RenderIsJoin(p);
      SplitJoin(p);
    }
    var q := Split(e.0);
    if LeafAt(t, q) && e.1 == Get(t, q).value {
      GoodLeafPath(t, q);
      RenderIsJoin(q);
      JoinSplit(e.0);
    }
  }

  lemma EntriesFunctional(t: Tree)
    requires t.Obj? && GoodKeys(t)
    ensures Functional(Entries("", t))
  {
    forall e, f | e in Entries("", t) && f in Entries("", t) && e.0 == f.0
      ensures e == f
    {
      EntrySplit(t, e);
      EntrySplit(t, f);
    }
  }

  /** The flattening holds exactly one entry for each non-null leaf path:
      its keys, in both directions, and its values. */
  lemma FlatAt(t: Tree)
    requires t.Obj? && GoodKeys(t)
    ensures forall s :: s in Flat(t) <==> LeafAt(t, Split(s))
    ensures forall s :: s in Flat(t) ==> LeafAt(t, Split(s)) && Flat(t)[s] == Get(t, Split(s)).value
  {
    forall s
      ensures s in Flat(t) <==> LeafAt(t, Split(s))
      ensures s in Flat(t) ==> Flat(t)[s] == Get(t, Split(s)).value
    {
      if s in Flat(t) {
        EntrySplit(t, (s, Flat(t)[s]));
      }
      if LeafAt(t, Split(s)) {
        EntrySplit(t, (s, Get(t, Split(s)).value));
        assert (s, Get(t, Split(s)).value).0 in KeysOf(Entries("", t));
      }
    }
  }

  lemma FlatHasLeaf(t: Tree, p: Path)
    requires t.Obj? && GoodKeys(t) && LeafAt(t, p)
    ensures p != [] && Split(Join(p)) == p
    ensures Join(p) in Flat(t) && Flat(t)[Join(p)] == Get(t, p).value
  {
    GoodLeafPath(t, p);
    SplitJoin(p);
    FlatAt(t);
  }

  // ---------- undoing it ----------

  /** Nothing for flattening to write: null or an object without keys. */
  predicate Bare(t: Tree) {
    t.Null? || t == Obj(map[])
  }

  /** The tree without its nulls and, from the leaves up, its empty objects. */
  function Prune(t: Tree): Tree {
    match t
    case Obj(m) => Obj(map k | k in m && !Bare(Prune(m[k])) :: Prune(m[k]))
    case _ => t
  }

  /** Below the root, no null and no empty object. */
  predicate Tidy(t: Tree) {
    t.Obj? ==> forall k :: k in t.m ==> !Bare(t.m[k]) && Tidy(t.m[k])
  }

  lemma {:induction false} PruneTidy(t: Tree)
    ensures Tidy(Prune(t))
    ensures Prune(t) == t <==> Tidy(t)
  {
    if t.Obj? {
      forall k | k in t.m
        ensures Tidy(Prune(t.m[k]))
        ensures Prune(t.m[k]) == t.m[k] <==> Tidy(t.m[k])
      {
        PruneTidy(t.m[k]);
      }
      if Tidy(t) {
        assert Prune(t).m == t.m;
      }
      if Prune(t) == t {
        forall k | k in t.m
          ensures !Bare(t.m[k]) && Tidy(t.m[k])
        {
          assert k in Prune(t).m;
        }
      }
    }
  }

  lemma {:induction false} PruneLeafAt(t: Tree, p: Path)
    ensures LeafAt(Prune(t), p) <==> LeafAt(t, p)
    ensures LeafAt(t, p) ==> Get(Prune(t), p) == Get(t, p)
  {
    if p != [] && t.Obj? && p[0] in t.m {
      PruneLeafAt(t.m[p[0]], p[1..]);
      if LeafAt(t, p) {
        assert LeafAt(Prune(t.m[p[0]]), p[1..]);
        assert !Bare(Prune(t.m[p[0]]));
      }
    }
  }

  lemma {:induction false} PruneGoodKeys(t: Tree)
    requires GoodKeys(t)
    ensures GoodKeys(Prune(t))
  {
    if t.Obj? {
      forall k | k in t.m
        ensures GoodKeys(Prune(t.m[k]))
      {
        PruneGoodKeys(t.m[k]);
      }
    }
  }

  lemma {:induction false} HasLeaf(t: Tree)
    requires Tidy(t) && !Bare(t)
    ensures exists p :: LeafAt(t, p)
  {
    if t.Obj? {
      var k :| k in t.m;
      HasLeaf(t.m[k]);
      var q :| LeafAt(t.m[k], q);
      assert ([k] + q)[1..] == q;
      assert LeafAt(t, [k] + q);
    } else {
      assert LeafAt(t, []);
    }
  }

  ghost predicate SameLeaves(a: Tree, b: Tree) {
    && (forall p :: LeafAt(a, p) <==> LeafAt(b, p))
    && (forall p :: LeafAt(a, p) ==> Get(a, p) == Get(b, p))
  }

  lemma SameLeavesKey(a: Tree, b: Tree, k: string)
    requires a.Obj? && b.Obj? && Tidy(a) && SameLeaves(a, b) && k in a.m
    ensures k in b.m && SameLeaves(a.m[k], b.m[k])
  {
    HasLeaf(a.m[k]);
    var q :| LeafAt(a.m[k], q);
    assert ([k] + q)[1..] == q;
    assert LeafAt(a, [k] + q);
    assert LeafAt(b, [k] + q);
    forall p
      ensures LeafAt(a.m[k], p) == LeafAt(a, [k] + p) && LeafAt(b.m[k], p) == LeafAt(b, [k] + p)
      ensures Get(a.m[k], p) == Get(a, [k] + p) && Get(b.m[k], p) == Get(b, [k] + p)
    {
      assert ([k] + p)[1..] == p;
    }
  }

  lemma {:induction false} TidyDetermined(a: Tree, b: Tree)
    requires Tidy(a) && Tidy(b) && !a.Null? && !b.Null? && SameLeaves(a, b)
    ensures a == b
  {
    assert LeafAt(a, []) <==> LeafAt(b, []);
    if a.Obj? {
      forall k | k in a.m
        ensures k in b.m && a.m[k] == b.m[k]
      {
        SameLeavesKey(a, b, k);
        TidyDetermined(a.m[k], b.m[k]);
      }
      forall k | k in b.m
        ensures k in a.m
      {
        SameLeavesKey(b, a, k);
      }
      assert a.m == b.m;
    }
  }

  lemma FlatOfPrune(t: Tree)
    requires t.Obj? && GoodKeys(t)
    ensures GoodKeys(Prune(t)) && Flat(Prune(t)) == Flat(t)
  {
    PruneGoodKeys(t);
    FlatAt(t);
    FlatAt(Prune(t));
    forall s
      ensures LeafAt(t, Split(s)) <==> LeafAt(Prune(t), Split(s))
      ensures LeafAt(t, Split(s)) ==> Get(Prune(t), Split(s)) == Get(t, Split(s))
    {
      PruneLeafAt(t, Split(s));
    }
    assert Flat(Prune(t)).Keys == Flat(t).Keys;
  }

  lemma SameFlatSameLeaves(a: Tree, b: Tree)
    requires a.Obj? && GoodKeys(a) && b.Obj? && GoodKeys(b)
    requires Flat(a) == Flat(b)
    ensures SameLeaves(a, b)
  {
    FlatAt(a);
    FlatAt(b);
    forall p
      ensures LeafAt(a, p) <==> LeafAt(b, p)
      ensures LeafAt(a, p) ==> Get(a, p) == Get(b, p)
    {
      if LeafAt(a, p) {
        FlatHasLeaf(a, p);
      } else if LeafAt(b, p) {
        FlatHasLeaf(b, p);
      }
    }
  }

  /** Flattening forgets exactly nulls and empty objects. */
  lemma FlatEqualIff(a: Tree, b: Tree)
    requires a.Obj? && GoodKeys(a) && b.Obj? && GoodKeys(b)
    ensures Flat(a) == Flat(b) <==> Prune(a) == Prune(b)
  {
    FlatOfPrune(a);
    FlatOfPrune(b);
    if Flat(a) == Flat(b) {
      SameFlatSameLeaves(Prune(a), Prune(b));
      PruneTidy(a);
      PruneTidy(b);
      TidyDetermined(Prune(a), Prune(b));
    }
  }

  // ---------- unflattening ----------

  /** The first component of a dotted key. */
  function Head(s: string): string {
    Split(s)[0]
  }

  /** The entries whose keys continue k, by what follows the dot. */
  function Under(flat: map<string, Tree>, k: string): map<string, Tree> {
    var rests := set s | s in flat && HasPrefix(s, k + ".") :: s[|k| + 1..];
    map r | r in rests && k + "." + r in flat :: flat[k + "." + r]
  }

  ghost function Longest(keys: set<string>): nat {
    if keys == {} then 0
    else
      var k :| k in keys;
      var n := Longest(keys - {k});
      if |k| < n then n else |k|
  }

  lemma LongestBounds(keys: set<string>)
    ensures forall k :: k in keys ==> |k| <= Longest(keys)
    ensures keys != {} ==> exists k :: k in keys && |k| == Longest(keys)
  {
  }

  lemma UnderAt(flat: map<string, Tree>, k: string, r: string)
    ensures r in Under(flat, k) <==> k + "." + r in flat
    ensures r in Under(flat, k) ==> Under(flat, k)[r] == flat[k + "." + r]
  {
    var s := k + "." + r;
    if s in flat {
      assert s[..|k| + 1] == k + "." && s[|k| + 1..] == r;
      assert HasPrefix(s, k + ".");
    }
  }

  lemma UnderShorter(flat: map<string, Tree>, k: string)
    requires exists s :: s in flat && Head(s) == k
    requires k !in flat
    ensures Longest(Under(flat, k).Keys) < Longest(flat.Keys)
  {
    LongestBounds(flat.Keys);
    LongestBounds(Under(flat, k).Keys);
    var s :| s in flat && Head(s) == k;
    JoinSplit(s);
    if Under(flat, k).Keys != {} {
      var r :| r in Under(flat, k) && |r| == Longest(Under(flat, k).Keys);
      UnderAt(flat, k, r);
      assert |k + "." + r| <= Longest(flat.Keys);
    } else {
      assert s != "";
    }
  }

  /** Groups the keys by their first component: one that is itself a key is a leaf,
      below any other the rest of its keys is unflattened. */
  ghost function Unflatten(flat: map<string, Tree>): Tree
    decreases Longest(flat.Keys)
  {
    Obj(map k | k in (set s | s in flat :: Head(s)) ::
          if k in flat then flat[k]
          else
            UnderShorter(flat, k);
            Unflatten(Under(flat, k)))
  }

  lemma FlatKeyBelow(t: Tree, k: string, r: string)
    requires t.Obj? && GoodKeys(t) && k in t.m && t.m[k].Obj?
    ensures k + "." + r in Flat(t) <==> r in Flat(t.m[k])
    ensures r in Flat(t.m[k]) ==> k + "." + r in Flat(t) && Flat(t)[k + "." + r] == Flat(t.m[k])[r]
  {
    FlatAt(t);
    FlatAt(t.m[k]);
    SplitDotted(k, r);
    assert Split(k + "." + r)[1..] == Split(r);
  }

  lemma UnderIsFlat(t: Tree, k: string)
    requires t.Obj? && GoodKeys(t) && k in t.m && t.m[k].Obj?
    ensures Under(Flat(t), k) == Flat(t.m[k])
  {
    if Under(Flat(t), k) != Flat(t.m[k]) {
      var r := Difference(Under(Flat(t), k), Flat(t.m[k]));
      UnderAt(Flat(t), k, r);
      FlatKeyBelow(t, k, r);
    }
  }

  lemma LeafKey(t: Tree, k: string)
    requires t.Obj? && GoodKeys(t) && k in t.m
    ensures k in Flat(t) <==> t.m[k].IsLeaf()
    ensures k in Flat(t) ==> Flat(t)[k] == t.m[k]
  {
    FlatAt(t);
    SplitKey(k);
    assert [k][0] == k && [k][1..] == [];
    assert Get(t, Split(k)) == Some(t.m[k]);
  }

  /** The first components of the keys are those of the pruned tree. */
  lemma HeadIffPruned(t: Tree, k: string)
    requires t.Obj? && GoodKeys(t)
    ensures (exists s :: s in Flat(t) && Head(s) == k) <==> k in Prune(t).m
  {
    if s :| s in Flat(t) && Head(s) == k {
      FlatAt(t);
      var p := Split(s);
      PruneLeafAt(t, p);
      assert LeafAt(Prune(t), p);
    }
    if k in Prune(t).m {
      PruneTidy(t);
      HasLeaf(Prune(t).m[k]);
      var q :| LeafAt(Prune(t).m[k], q);
      assert ([k] + q)[1..] == q;
      assert LeafAt(Prune(t), [k] + q);
      PruneLeafAt(t, [k] + q);
      FlatHasLeaf(t, [k] + q);
      assert Head(Join([k] + q)) == k;
    }
  }

  /** Unflattening gives the pruned tree, so it undoes flattening exactly on tidy trees. */
  lemma {:induction false} UnflattenFlat(t: Tree)
    requires t.Obj? && GoodKeys(t)
    ensures Unflatten(Flat(t)) == Prune(t)
    ensures Unflatten(Flat(t)) == t <==> Tidy(t)
    decreases t
  {
    PruneTidy(t);
    var u := Unflatten(Flat(t));
    forall k
      ensures k in u.m <==> k in Prune(t).m
    {
      HeadIffPruned(t, k);
    }
    forall k | k in Prune(t).m
      ensures u.m[k] == Prune(t).m[k]
    {
      LeafKey(t, k);
      if t.m[k].Obj? {
        UnderIsFlat(t, k);
        UnflattenFlat(t.m[k]);
      }
    }
    assert u.m == Prune(t).m;
  }
}
