/** When merging the same tree into two trees gives the same, path by path. */
module MergeCompare {
  import opened Trees
  import opened Merge

  /** What is at a path: null, a scalar or a list as it is, an object without its keys. */
  function Mark(t: Tree, p: Path): Option<Tree> {
    match Get(t, p)
    case None => None
    case Some(v) => Some(if v.Obj? then Obj(map[]) else v)
  }

  lemma MarkBelow(t: Tree, k: string, p: Path)
    requires t.Obj? && k in t.m
    ensures Mark(t, [k] + p) == Mark(t.m[k], p)
  {
    assert ([k] + p)[1..] == p;
  }

  lemma MarkKey(t: Tree, k: string)
    requires t.Obj?
    ensures Mark(t, [k]).Some? <==> k in t.m
  {
    assert [k][0] == k && [k][1..] == [];
    assert Get(t, [k]) == if k in t.m then Some(t.m[k]) else None;
  }

  ghost predicate SameMarks(a: Tree, b: Tree) {
    forall p :: Mark(a, p) == Mark(b, p)
  }

  /** Trees with the same marks are the same. */
  lemma {:induction false} MarksDetermine(a: Tree, b: Tree)
    requires SameMarks(a, b)
    ensures a == b
  {
    assert Mark(a, []) == Mark(b, []);
    if a.Obj? {
      forall k
        ensures k in a.m <==> k in b.m
      {
        MarkKey(a, k);
        MarkKey(b, k);
      }
      forall k | k in a.m
        ensures a.m[k] == b.m[k]
      {
        forall p
          ensures Mark(a.m[k], p) == Mark(b.m[k], p)
        {
          MarkBelow(a, k, p);
          MarkBelow(b, k, p);
        }
        MarksDetermine(a.m[k], b.m[k]);
      }
      assert a.m == b.m;
    }
  }

  function MergeOf(update: bool, t: Tree, n: Tree): Tree {
    if update then Update(t, n) else Add(t, n)
  }

  /** Something of t on the way to p lets nothing new through: any leaf under "add",
      a null under "update". */
  predicate Blocked(update: bool, t: Tree, p: Path) {
    if update then StopsAt(t, p) == Some(Null) else StopsAt(t, p).Some?
  }

  /** The merged tree, path by path. */
  lemma MergedMark(update: bool, t: Tree, n: Tree, p: Path)
    ensures Mark(MergeOf(update, t, n), p) ==
            match (Mark(t, p), Mark(n, p))
            case (None, y) => if Blocked(update, t, p) then None else y
            case (Some(x), None) => Some(x)
            case (Some(x), Some(y)) => Some(if update && x.IsLeaf() && !y.Null? then y else x)
  {
    AddAt(t, n, p);
    UpdateAt(t, n, p);
  }

  /** What n has at p is there in the merge of n into t. */
  predicate Shows(update: bool, t: Tree, n: Tree, p: Path) {
    && Mark(n, p).Some?
    && (|| Mark(t, p) == Mark(n, p)
        || (Mark(t, p).None? && !Blocked(update, t, p))
        || (update && Mark(t, p).Some? && Mark(t, p).value.IsLeaf() && !Mark(n, p).value.Null?))
  }

  /** Wherever the two trees differ, n has something that shows in both merges. */
  ghost predicate GivenAgain(update: bool, a: Tree, b: Tree, n: Tree) {
    forall p {:trigger Mark(a, p)} {:trigger Mark(b, p)} ::
      Mark(a, p) == Mark(b, p) || (Shows(update, a, n, p) && Shows(update, b, n, p))
  }

  /** What lets nothing through on the way to p is at a proper prefix of p. */
  lemma BlockedAt(update: bool, t: Tree, p: Path) returns (q: Path)
    requires Blocked(update, t, p)
    ensures q < p && Mark(t, q).Some? && !Mark(t, q).value.Obj?
    ensures update ==> Mark(t, q) == Some(Null)
  {
    StopsAtPrefix(t, p);
    var i :| 0 <= i < |p| && Get(t, p[..i]) == StopsAt(t, p);
    q := p[..i];
  }

  lemma ObjectOnTheWay(t: Tree, q: Path, p: Path)
    requires q < p && Get(t, p).Some?
    ensures Mark(t, q) == Some(Obj(map[]))
  {
    GetSplit(t, q, p[|q|..]);
    assert p == q + p[|q|..];
  }

  lemma {:induction false} StopsThere(t: Tree, q: Path, p: Path)
    requires q < p && Mark(t, q).Some? && !Mark(t, q).value.Obj?
    ensures StopsAt(t, p) == Mark(t, q)
  {
    if q != [] {
      assert Mark(t, q) == Mark(t.m[q[0]], q[1..]);
      assert q[1..] < p[1..];
      StopsThere(t.m[q[0]], q[1..], p[1..]);
    }
  }

  /** No path of n is blocked in one tree only. */
  lemma NotBlockedAlone(update: bool, a: Tree, b: Tree, n: Tree, p: Path)
    requires GivenAgain(update, a, b, n)
    requires Mark(n, p).Some? && Blocked(update, a, p)
    ensures Blocked(update, b, p)
  {
    var q := BlockedAt(update, a, p);
    ObjectOnTheWay(n, q, p);
    if Mark(b, q) == Mark(a, q) {
      StopsThere(b, q, p);
    } else {
      assert Shows(update, a, n, q);
    }
  }

  lemma GivenAgainSymmetric(update: bool, a: Tree, b: Tree, n: Tree)
    requires GivenAgain(update, a, b, n)
    ensures GivenAgain(update, b, a, n)
  {
  }

  lemma SameMergedMark(update: bool, a: Tree, b: Tree, n: Tree, p: Path)
    requires GivenAgain(update, a, b, n)
    ensures Mark(MergeOf(update, a, n), p) == Mark(MergeOf(update, b, n), p)
  {
    MergedMark(update, a, n, p);
    MergedMark(update, b, n, p);
    if Mark(a, p) == Mark(b, p) == None && Mark(n, p).Some? {
      if Blocked(update, a, p) {
        NotBlockedAlone(update, a, b, n, p);
      }
      if Blocked(update, b, p) {
        GivenAgainSymmetric(update, a, b, n);
        NotBlockedAlone(update, b, a, n, p);
      }
    }
  }

  /** Merging n into two trees gives the same exactly if, wherever they differ, n has
      something that shows in both. */
  lemma MergesAgreeIff(update: bool, a: Tree, b: Tree, n: Tree)
    ensures MergeOf(update, a, n) == MergeOf(update, b, n) <==> GivenAgain(update, a, b, n)
  {
    if GivenAgain(update, a, b, n) {
      forall p
        ensures Mark(MergeOf(update, a, n), p) == Mark(MergeOf(update, b, n), p)
      {
        SameMergedMark(update, a, b, n, p);
      }
      MarksDetermine(MergeOf(update, a, n), MergeOf(update, b, n));
    }
    if MergeOf(update, a, n) == MergeOf(update, b, n) {
      forall p
        ensures Mark(a, p) == Mark(b, p) || (Shows(update, a, n, p) && Shows(update, b, n, p))
      {
        MergedMark(update, a, n, p);
        MergedMark(update, b, n, p);
      }
    }
  }

  // ---------- merges that change nothing ----------

  /** What n has, t has already, or does not let in. */
  ghost predicate NothingNew(update: bool, t: Tree, n: Tree) {
    forall p {:trigger Mark(n, p)} :: Mark(n, p).Some? ==>
      match Mark(t, p)
      case None => Blocked(update, t, p)
      case Some(x) => update && x.IsLeaf() && !Mark(n, p).value.Null? ==> Mark(n, p) == Some(x)
  }

  lemma MergeKeepsIff(update: bool, t: Tree, n: Tree)
    ensures MergeOf(update, t, n) == t <==> NothingNew(update, t, n)
  {
    forall p
      ensures Mark(MergeOf(update, t, n), p) == Mark(t, p) <==>
              (Mark(n, p).Some? ==>
                match Mark(t, p)
                case None => Blocked(update, t, p)
                case Some(x) => update && x.IsLeaf() && !Mark(n, p).value.Null? ==> Mark(n, p) == Some(x))
    {
      MergedMark(update, t, n, p);
    }
    if NothingNew(update, t, n) {
      MarksDetermine(MergeOf(update, t, n), t);
    }
  }

  /** Merging n into t gives c exactly if n has nothing new for c, and t and c differ
      only where n shows. */
  lemma MergeIsIff(update: bool, t: Tree, n: Tree, c: Tree)
    ensures MergeOf(update, t, n) == c <==> GivenAgain(update, t, c, n) && NothingNew(update, c, n)
  {
    AddIdempotent(t, n);
    UpdateIdempotent(t, n);
    MergesAgreeIff(update, t, c, n);
    MergeKeepsIff(update, c, n);
  }
}
