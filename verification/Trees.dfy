/** JSON-shaped configuration trees and the walk along a path of keys. */
module Trees {

  datatype Option<+T> = None | Some(value: T)

  datatype Scalar = Bool(b: bool) | Num(n: real) | Str(s: string)

  datatype Tree =
    | Null
    | Leaf(v: Scalar)
    | List(es: seq<Tree>)
    | Obj(m: map<string, Tree>)
  {
    /** A value that flattening writes out: neither an object nor null. */
    predicate IsLeaf() {
      !Obj? && !Null?
    }
  }

  type Path = seq<string>

  /** What the keys of p lead to, if they lead anywhere. */
  function Get(t: Tree, p: Path): Option<Tree> {
    if p == [] then Some(t)
    else if t.Obj? && p[0] in t.m then Get(t.m[p[0]], p[1..])
    else None
  }

  /** The non-object that the walk along p runs into before it has used all of p. */
  function StopsAt(t: Tree, p: Path): Option<Tree> {
    if p == [] then None
    else if !t.Obj? then Some(t)
    else if p[0] in t.m then StopsAt(t.m[p[0]], p[1..])
    else None
  }

  lemma {:induction false} StopsAtPrefix(t: Tree, p: Path)
    ensures match StopsAt(t, p)
            case Some(v) => !v.Obj? && Get(t, p).None? && exists i :: 0 <= i < |p| && Get(t, p[..i]) == Some(v)
            case None => forall i :: 0 <= i < |p| && Get(t, p[..i]).Some? ==> Get(t, p[..i]).value.Obj?
  {
    if p != [] && t.Obj? && p[0] in t.m {
      var c, q := t.m[p[0]], p[1..];
      StopsAtPrefix(c, q);
      assert forall i :: 0 < i <= |p| ==> p[..i][0] == p[0] && p[..i][1..] == q[..i - 1];
      if StopsAt(c, q).Some? {
        var i :| 0 <= i < |q| && Get(c, q[..i]) == StopsAt(t, p);
        assert p[..i + 1][1..] == q[..i];
        assert Get(t, p[..i + 1]) == StopsAt(t, p);
      } else {
        forall i | 0 <= i < |p| && Get(t, p[..i]).Some?
          ensures Get(t, p[..i]).value.Obj?
        {
          if i > 0 {
            assert Get(t, p[..i]) == Get(c, q[..i - 1]);
          }
        }
      }
    } else if p != [] && !t.Obj? {
      assert p[..0] == [];
    } else if p != [] {
      assert forall i :: 0 < i < |p| ==> p[..i][0] == p[0];
    }
  }

  lemma {:induction false} GetSplit(t: Tree, p: Path, q: Path)
    ensures Get(t, p + q) == if Get(t, p).Some? then Get(Get(t, p).value, q) else None
  {
    if p == [] {
      assert p + q == q;
    } else {
      assert (p + q)[1..] == p[1..] + q;
      if t.Obj? && p[0] in t.m {
        GetSplit(t.m[p[0]], p[1..], q);
      }
    }
  }
}
