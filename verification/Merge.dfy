/** The two merge policies of the config server, as functions on trees. */
module Merge {
  import opened Trees

  /** `recursiveAdd`: new keys only; what the old tree has stays. */
  function Add(o: Tree, n: Tree): Tree {
    if o.Obj? && n.Obj? then
      Obj(map k | k in o.m.Keys + n.m.Keys ::
            if k in o.m && k in n.m then Add(o.m[k], n.m[k])
            else if k in o.m then o.m[k]
            else n.m[k])
    else o
  }

  /** `recursiveAddAndUpdate`: new keys, and new values for old non-null leaves. */
  function Update(o: Tree, n: Tree): Tree {
    if o.Obj? && n.Obj? then
      Obj(map k | k in o.m.Keys + n.m.Keys ::
            if k in o.m && k in n.m then Update(o.m[k], n.m[k])
            else if k in o.m then o.m[k]
            else n.m[k])
    else if o.Obj? || o.Null? || n.Null? then o
    else n
  }

  /** Where `recursiveAddAndUpdate` would compare two lists, which panics. */
  predicate Clash(o: Tree, n: Tree) {
    || (o.List? && n.List?)
    || (o.Obj? && n.Obj? && exists k :: k in o.m && k in n.m && Clash(o.m[k], n.m[k]))
  }

  ghost predicate ListInBoth(o: Tree, n: Tree, p: Path) {
    Get(o, p).Some? && Get(o, p).value.List? && Get(n, p).Some? && Get(n, p).value.List?
  }

  predicate ListFree(t: Tree) {
    !t.List? && (t.Obj? ==> forall k :: k in t.m ==> ListFree(t.m[k]))
  }

  // ---------- recursiveAdd ----------

  /** The whole policy, path by path: old wins wherever it resolves, and new
      shows through exactly where no leaf of old is in the way. */
  lemma {:induction false} AddAt(o: Tree, n: Tree, p: Path)
    ensures Get(Add(o, n), p) ==
            match (Get(o, p), Get(n, p))
            case (Some(a), Some(b)) => Some(Add(a, b))
            case (Some(a), None) => Some(a)
            case (None, b) => if StopsAt(o, p).Some? then None else b
  {
    if p != [] && o.Obj? && n.Obj? && p[0] in o.m && p[0] in n.m {
      AddAt(o.m[p[0]], n.m[p[0]], p[1..]);
    }
  }

  /** Nothing that resolves in old is changed or removed. */
  lemma {:induction false} AddKeepsOld(o: Tree, n: Tree, p: Path)
    requires Get(o, p).Some?
    ensures Get(Add(o, n), p).Some?
    ensures !Get(o, p).value.Obj? ==> Get(Add(o, n), p) == Get(o, p)
    ensures Get(o, p).value.Obj? ==>
              && Get(Add(o, n), p).value.Obj?
              && Get(o, p).value.m.Keys <= Get(Add(o, n), p).value.m.Keys
  {
    AddAt(o, n, p);
  }

  /** The added paths are exactly those of new that no leaf of old blocks. */
  lemma {:induction false} AddAddsExactly(o: Tree, n: Tree, p: Path)
    requires Get(o, p).None?
    ensures Get(Add(o, n), p).Some? <==> Get(n, p).Some? && StopsAt(o, p).None?
    ensures Get(Add(o, n), p).Some? ==> Get(Add(o, n), p) == Get(n, p)
  {
    AddAt(o, n, p);
  }

  lemma {:induction false} AddSelf(t: Tree)
    ensures Add(t, t) == t
  {
    if t.Obj? {
      forall k | k in t.m
        ensures Add(t.m[k], t.m[k]) == t.m[k]
      {
        AddSelf(t.m[k]);
      }
      assert Add(t, t).m == t.m;
    }
  }

  lemma {:induction false} AddIdempotent(o: Tree, n: Tree)
    ensures Add(Add(o, n), n) == Add(o, n)
  {
    if o.Obj? && n.Obj? {
      var a := Add(o, n);
      forall k | k in n.m
        ensures Add(a.m[k], n.m[k]) == a.m[k]
      {
        if k in o.m {
          AddIdempotent(o.m[k], n.m[k]);
        } else {
          AddSelf(n.m[k]);
        }
      }
      assert Add(a, n).m == a.m;
    }
  }

  /** Everything in y resolves in x, or a leaf of x is in its way. */
  ghost predicate Covers(x: Tree, y: Tree) {
    forall q {:trigger Get(y, q)} :: Get(y, q).Some? ==> Get(x, q).Some? || StopsAt(x, q).Some?
  }

  lemma CoversBelow(x: Tree, y: Tree, k: string)
    requires x.Obj? && y.Obj? && k in x.m && k in y.m && Covers(x, y)
    ensures Covers(x.m[k], y.m[k])
  {
    forall q | Get(y.m[k], q).Some?
      ensures Get(x.m[k], q).Some? || StopsAt(x.m[k], q).Some?
    {
      assert ([k] + q)[1..] == q;
      assert Get(y, [k] + q).Some?;
    }
  }

  /** Adding y to x changes nothing exactly if x covers y. */
  lemma {:induction false} AddKeepsIff(x: Tree, y: Tree)
    ensures Add(x, y) == x <==> Covers(x, y)
  {
    if Add(x, y) == x {
      forall q | Get(y, q).Some?
        ensures Get(x, q).Some? || StopsAt(x, q).Some?
      {
        AddAt(x, y, q);
      }
    }
    if Covers(x, y) && x.Obj? && y.Obj? {
      forall k | k in y.m
        ensures k in x.m && Add(x.m[k], y.m[k]) == x.m[k]
      {
        assert Get(y, [k]) == Some(y.m[k]);
        CoversBelow(x, y, k);
        AddKeepsIff(x.m[k], y.m[k]);
      }
      assert Add(x, y).m == x.m;
    }
  }

  /** Where a and c have objects and b has none, a covers c. */
  ghost predicate NothingHidden(a: Tree, b: Tree, c: Tree) {
    forall p {:trigger Get(a, p)} ::
      Get(a, p).Some? && Get(b, p).Some? && Get(c, p).Some? &&
      Get(a, p).value.Obj? && !Get(b, p).value.Obj? && Get(c, p).value.Obj?
      ==> Covers(Get(a, p).value, Get(c, p).value)
  }

  lemma NothingHiddenBelow(a: Tree, b: Tree, c: Tree, k: string)
    requires a.Obj? && b.Obj? && c.Obj? && k in a.m && k in b.m && k in c.m
    requires NothingHidden(a, b, c)
    ensures NothingHidden(a.m[k], b.m[k], c.m[k])
  {
    forall p
      ensures Get(a.m[k], p) == Get(a, [k] + p)
      ensures Get(b.m[k], p) == Get(b, [k] + p)
      ensures Get(c.m[k], p) == Get(c, [k] + p)
    {
      assert ([k] + p)[1..] == p;
    }
  }

  lemma {:induction false} AddAssociativeWhen(a: Tree, b: Tree, c: Tree)
    requires NothingHidden(a, b, c)
    ensures Add(Add(a, b), c) == Add(a, Add(b, c))
  {
    if a.Obj? && b.Obj? && c.Obj? {
      var l, r := Add(Add(a, b), c), Add(a, Add(b, c));
      assert l.m.Keys == r.m.Keys;
      forall k | k in l.m
        ensures l.m[k] == r.m[k]
      {
        if k in a.m && k in b.m && k in c.m {
          NothingHiddenBelow(a, b, c, k);
          AddAssociativeWhen(a.m[k], b.m[k], c.m[k]);
        }
      }
      assert l.m == r.m;
    } else if a.Obj? && c.Obj? {
      assert Get(a, []) == Some(a) && Get(b, []) == Some(b) && Get(c, []) == Some(c);
      AddKeepsIff(a, c);
    }
  }

  /** Adding is associative exactly when nothing is hidden. */
  lemma AddAssociativeIff(a: Tree, b: Tree, c: Tree)
    ensures Add(Add(a, b), c) == Add(a, Add(b, c)) <==> NothingHidden(a, b, c)
  {
    if Add(Add(a, b), c) == Add(a, Add(b, c)) {
      forall p | Get(a, p).Some? && Get(b, p).Some? && Get(c, p).Some? &&
                 Get(a, p).value.Obj? && !Get(b, p).value.Obj? && Get(c, p).value.Obj?
        ensures Covers(Get(a, p).value, Get(c, p).value)
      {
        AddKeepsIff(Get(a, p).value, Get(c, p).value);
        AddAt(a, b, p);
        AddAt(Add(a, b), c, p);
        AddAt(b, c, p);
        AddAt(a, Add(b, c), p);
      }
    }
    if NothingHidden(a, b, c) {
      AddAssociativeWhen(a, b, c);
    }
  }

  /** An object, a leaf, and an object with a key, all at one path. */
  lemma AddNotAssociative()
    ensures var a, b := Obj(map["k" := Obj(map[])]), Obj(map["k" := Leaf(Bool(true))]);
            var c := Obj(map["k" := Obj(map["j" := Leaf(Bool(true))])]);
            Add(Add(a, b), c) != Add(a, Add(b, c))
  {
    var a, b := Obj(map["k" := Obj(map[])]), Obj(map["k" := Leaf(Bool(true))]);
    var c := Obj(map["k" := Obj(map["j" := Leaf(Bool(true))])]);
    var p, q := ["k"], ["j"];
    assert p[1..] == [] && q[1..] == [];
    assert Get(a, p) == Some(a.m["k"]) && Get(b, p) == Some(b.m["k"]) && Get(c, p) == Some(c.m["k"]);
    assert Get(c.m["k"], q).Some? && Get(a.m["k"], q).None? && StopsAt(a.m["k"], q).None?;
    AddAssociativeIff(a, b, c);
  }

  /** No path is an object in one tree and something else in the other. */
  ghost predicate SameShape(a: Tree, b: Tree) {
    forall p :: Get(a, p).Some? && Get(b, p).Some? ==> (Get(a, p).value.Obj? <==> Get(b, p).value.Obj?)
  }

  lemma AddAssociativeOnSameShapes(a: Tree, b: Tree, c: Tree)
    requires SameShape(a, b) || SameShape(b, c)
    ensures Add(Add(a, b), c) == Add(a, Add(b, c))
  {
    AddAssociativeIff(a, b, c);
  }

  // ---------- recursiveAddAndUpdate ----------

  /** The whole policy, path by path. Only a null of old blocks new; an object of
      old is never replaced; any other leaf of old gives way. */
  lemma {:induction false} UpdateAt(o: Tree, n: Tree, p: Path)
    ensures Get(Update(o, n), p) ==
            match (Get(o, p), Get(n, p))
            case (Some(a), Some(b)) => Some(Update(a, b))
            case (Some(a), None) => Some(a)
            case (None, b) => if StopsAt(o, p) == Some(Null) then None else b
  {
    if p != [] && o.Obj? && n.Obj? && p[0] in o.m && p[0] in n.m {
      UpdateAt(o.m[p[0]], n.m[p[0]], p[1..]);
    }
  }

  lemma {:induction false} ClashIffListInBoth(o: Tree, n: Tree)
    ensures Clash(o, n) <==> exists p :: ListInBoth(o, n, p)
  {
    if Clash(o, n) {
      if o.List? {
        assert ListInBoth(o, n, []);
      } else {
        var k :| k in o.m && k in n.m && Clash(o.m[k], n.m[k]);
        ClashIffListInBoth(o.m[k], n.m[k]);
        var q :| ListInBoth(o.m[k], n.m[k], q);
        assert ([k] + q)[1..] == q;
        assert ListInBoth(o, n, [k] + q);
      }
    }
    if p :| ListInBoth(o, n, p) {
      if p != [] {
        ClashIffListInBoth(o.m[p[0]], n.m[p[0]]);
        assert ListInBoth(o.m[p[0]], n.m[p[0]], p[1..]);
      }
    }
  }

  lemma {:induction false} UpdateSelf(t: Tree)
    ensures Update(t, t) == t
  {
    if t.Obj? {
      forall k | k in t.m
        ensures Update(t.m[k], t.m[k]) == t.m[k]
      {
        UpdateSelf(t.m[k]);
      }
      assert Update(t, t).m == t.m;
    }
  }

  lemma {:induction false} UpdateIdempotent(o: Tree, n: Tree)
    ensures Update(Update(o, n), n) == Update(o, n)
  {
    if o.Obj? && n.Obj? {
      var u := Update(o, n);
      forall k | k in n.m
        ensures Update(u.m[k], n.m[k]) == u.m[k]
      {
        if k in o.m {
          UpdateIdempotent(o.m[k], n.m[k]);
        } else {
          UpdateSelf(n.m[k]);
        }
      }
      assert Update(u, n).m == u.m;
    } else {
      UpdateSelf(n);
    }
  }

  lemma {:induction false} ListFreeGet(t: Tree, p: Path)
    requires ListFree(t)
    ensures Get(t, p).Some? ==> ListFree(Get(t, p).value)
  {
    if p != [] && t.Obj? && p[0] in t.m {
      ListFreeGet(t.m[p[0]], p[1..]);
    }
  }

  /** A list of new that a first, completed update really took over. */
  ghost predicate TakenList(o: Tree, n: Tree, p: Path) {
    && Get(n, p).Some? && Get(n, p).value.List?
    && (Get(o, p).None? || Get(o, p).value.Leaf?)
    && StopsAt(o, p) != Some(Null)
  }

  /** Repeating a completed update panics exactly when the first run took a list. */
  lemma UpdateTwiceFaultsIff(o: Tree, n: Tree)
    requires !Clash(o, n)
    ensures Clash(Update(o, n), n) <==> exists p :: TakenList(o, n, p)
    ensures ListFree(n) ==> !Clash(Update(o, n), n)
  {
    ClashIffListInBoth(o, n);
    ClashIffListInBoth(Update(o, n), n);
    forall p
      ensures ListInBoth(Update(o, n), n, p) <==> TakenList(o, n, p)
    {
      UpdateAt(o, n, p);
      StopsAtPrefix(o, p);
      assert !ListInBoth(o, n, p);
    }
    if ListFree(n) {
      forall p
        ensures !ListInBoth(Update(o, n), n, p)
      {
        ListFreeGet(n, p);
      }
    }
  }
}
