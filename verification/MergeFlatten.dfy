/** Merging trees against overriding their flattenings. */
module MergeFlatten {
  import opened Trees
  import opened Overlay
  import opened Merge
  import opened Flatten

  lemma {:induction false} MergeGoodKeys(o: Tree, n: Tree)
    requires GoodKeys(o) && GoodKeys(n)
    ensures GoodKeys(Add(o, n)) && GoodKeys(Update(o, n))
  {
    if o.Obj? && n.Obj? {
      forall k | k in o.m && k in n.m
        ensures GoodKeys(Add(o.m[k], n.m[k])) && GoodKeys(Update(o.m[k], n.m[k]))
      {
        MergeGoodKeys(o.m[k], n.m[k]);
      }
    }
  }

  // ---------- recursiveAdd ----------

  /** On the way to no leaf of n does o have a null or a leaf, nor an object or null at its end. */
  ghost predicate AddUnblocked(o: Tree, n: Tree) {
    forall p {:trigger LeafAt(n, p)} ::
      LeafAt(n, p) ==> StopsAt(o, p).None? && (Get(o, p).Some? ==> LeafAt(o, p))
  }

  lemma AddLeafAt(o: Tree, n: Tree, p: Path)
    ensures LeafAt(Add(o, n), p) <==> LeafAt(o, p) || (LeafAt(n, p) && Get(o, p).None? && StopsAt(o, p).None?)
    ensures LeafAt(o, p) ==> Get(Add(o, n), p) == Get(o, p)
    ensures LeafAt(Add(o, n), p) && !LeafAt(o, p) ==> Get(Add(o, n), p) == Get(n, p)
  {
    AddAt(o, n, p);
  }

  /** Flattening turns `recursiveAdd` into overriding, old over new, exactly when
      no leaf of new is blocked. */
  lemma FlatAddIff(o: Tree, n: Tree)
    requires o.Obj? && n.Obj? && GoodKeys(o) && GoodKeys(n)
    ensures Flat(Add(o, n)) == Flat(n) + Flat(o) <==> AddUnblocked(o, n)
  {
    var r := Add(o, n);
    MergeGoodKeys(o, n);
    FlatAt(o);
    FlatAt(n);
    FlatAt(r);
    if AddUnblocked(o, n) {
      forall p
        ensures LeafAt(r, p) <==> LeafAt(n, p) || LeafAt(o, p)
        ensures LeafAt(o, p) ==> Get(r, p) == Get(o, p)
        ensures LeafAt(n, p) && !LeafAt(o, p) ==> Get(r, p) == Get(n, p)
      {
        AddLeafAt(o, n, p);
      }
      FlatIsOverride(n, o, r);
    }
    if Flat(r) == Flat(n) + Flat(o) {
      forall p | LeafAt(n, p)
        ensures StopsAt(o, p).None? && (Get(o, p).Some? ==> LeafAt(o, p))
      {
        FlatHasLeaf(n, p);
        AddLeafAt(o, n, p);
        StopsAtPrefix(o, p);
      }
    }
  }

  // ---------- recursiveAddAndUpdate ----------

  /** No null of o is on the way to a leaf of n, no null or object of o at its end,
      and no leaf of o meets an object of n. */
  ghost predicate UpdateUnblocked(o: Tree, n: Tree) {
    && (forall p {:trigger LeafAt(n, p)} ::
          LeafAt(n, p) ==> StopsAt(o, p) != Some(Null) && (Get(o, p).Some? ==> LeafAt(o, p)))
    && (forall p {:trigger LeafAt(o, p)} ::
          LeafAt(o, p) && Get(n, p).Some? ==> !Get(n, p).value.Obj?)
  }

  lemma UpdateLeafAt(o: Tree, n: Tree, p: Path)
    ensures LeafAt(Update(o, n), p) ==> LeafAt(o, p) || LeafAt(n, p)
    ensures LeafAt(n, p) ==>
              (LeafAt(Update(o, n), p) && Get(Update(o, n), p) == Get(n, p) <==>
               StopsAt(o, p) != Some(Null) &&
               (Get(o, p).Some? ==> LeafAt(o, p)))
    ensures LeafAt(o, p) && !LeafAt(n, p) ==>
              (LeafAt(Update(o, n), p) && Get(Update(o, n), p) == Get(o, p) <==>
               Get(n, p).None? || !Get(n, p).value.Obj?)
  {
    UpdateAt(o, n, p);
    StopsAtPrefix(o, p);
  }

  lemma UpdateLeafWhen(o: Tree, n: Tree, p: Path)
    requires UpdateUnblocked(o, n)
    ensures LeafAt(Update(o, n), p) <==> LeafAt(o, p) || LeafAt(n, p)
    ensures LeafAt(n, p) ==> Get(Update(o, n), p) == Get(n, p)
    ensures LeafAt(o, p) && !LeafAt(n, p) ==> Get(Update(o, n), p) == Get(o, p)
  {
    UpdateLeafAt(o, n, p);
  }

  lemma FlatUpdateWhen(o: Tree, n: Tree)
    requires o.Obj? && n.Obj? && GoodKeys(o) && GoodKeys(n) && UpdateUnblocked(o, n)
    ensures Flat(Update(o, n)) == Flat(o) + Flat(n)
  {
    var r := Update(o, n);
    forall p
      ensures LeafAt(r, p) <==> LeafAt(o, p) || LeafAt(n, p)
      ensures LeafAt(n, p) ==> Get(r, p) == Get(n, p)
      ensures LeafAt(o, p) && !LeafAt(n, p) ==> Get(r, p) == Get(o, p)
    {
      UpdateLeafWhen(o, n, p);
    }
    MergeGoodKeys(o, n);
    FlatIsOverride(o, n, r);
  }

  /** Three trees whose leaves are related by overriding have flattenings so related. */
  lemma FlatIsOverride(o: Tree, n: Tree, r: Tree)
    requires o.Obj? && n.Obj? && r.Obj? && GoodKeys(o) && GoodKeys(n) && GoodKeys(r)
    requires forall p :: LeafAt(r, p) <==> LeafAt(o, p) || LeafAt(n, p)
    requires forall p :: LeafAt(n, p) ==> Get(r, p) == Get(n, p)
    requires forall p :: LeafAt(o, p) && !LeafAt(n, p) ==> Get(r, p) == Get(o, p)
    ensures Flat(r) == Flat(o) + Flat(n)
  {
    FlatAt(o);
    FlatAt(n);
    FlatAt(r);
    if Flat(r) != Flat(o) + Flat(n) {
      var s := Difference(Flat(r), Flat(o) + Flat(n));
    }
  }

  lemma FlatUpdateOnlyWhen(o: Tree, n: Tree)
    requires o.Obj? && n.Obj? && GoodKeys(o) && GoodKeys(n)
    requires Flat(Update(o, n)) == Flat(o) + Flat(n)
    ensures UpdateUnblocked(o, n)
  {
    MergeGoodKeys(o, n);
    FlatAt(o);
    FlatAt(n);
    FlatAt(Update(o, n));
    forall p | LeafAt(n, p)
      ensures StopsAt(o, p) != Some(Null) && (Get(o, p).Some? ==> LeafAt(o, p))
    {
      FlatHasLeaf(n, p);
      UpdateLeafAt(o, n, p);
    }
    forall p | LeafAt(o, p) && Get(n, p).Some?
      ensures !Get(n, p).value.Obj?
    {
      FlatHasLeaf(o, p);
      UpdateLeafAt(o, n, p);
    }
  }

  /** Flattening turns `recursiveAddAndUpdate` into overriding, new over old,
      exactly when nothing is blocked and no leaf gives way to an object. */
  lemma FlatUpdateIff(o: Tree, n: Tree)
    requires o.Obj? && n.Obj? && GoodKeys(o) && GoodKeys(n)
    ensures Flat(Update(o, n)) == Flat(o) + Flat(n) <==> UpdateUnblocked(o, n)
  {
    if UpdateUnblocked(o, n) {
      FlatUpdateWhen(o, n);
    }
    if Flat(Update(o, n)) == Flat(o) + Flat(n) {
      FlatUpdateOnlyWhen(o, n);
    }
  }

  // ---------- a condition on the two trees alone ----------

  predicate NullFree(t: Tree) {
    !t.Null? && (t.Obj? ==> forall k :: k in t.m ==> NullFree(t.m[k]))
  }

  lemma {:induction false} NullFreeGet(t: Tree, p: Path)
    requires NullFree(t)
    ensures Get(t, p).Some? ==> !Get(t, p).value.Null?
  {
    if p != [] && t.Obj? && p[0] in t.m {
      NullFreeGet(t.m[p[0]], p[1..]);
    }
  }

  lemma SameShapeUnblocked(o: Tree, n: Tree)
    requires o.Obj? && n.Obj? && NullFree(o) && SameShape(o, n)
    ensures AddUnblocked(o, n) && UpdateUnblocked(o, n)
  {
    forall p | LeafAt(n, p)
      ensures StopsAt(o, p).None? && (Get(o, p).Some? ==> LeafAt(o, p))
    {
      NullFreeGet(o, p);
      StopsAtPrefix(o, p);
      if StopsAt(o, p).Some? {
        var i :| 0 <= i < |p| && Get(o, p[..i]) == StopsAt(o, p);
        assert p == p[..i] + p[i..];
        GetSplit(n, p[..i], p[i..]);
      }
    }
  }

  /** For null-free trees in which no path is an object in one and a leaf in the
      other, both policies commute with flattening. */
  lemma MergeCommutesWithFlattening(o: Tree, n: Tree)
    requires o.Obj? && n.Obj? && GoodKeys(o) && GoodKeys(n)
    requires NullFree(o) && SameShape(o, n)
    ensures Flat(Add(o, n)) == Flat(n) + Flat(o)
    ensures Flat(Update(o, n)) == Flat(o) + Flat(n)
  {
    SameShapeUnblocked(o, n);
    FlatAddIff(o, n);
    FlatUpdateIff(o, n);
  }
}
