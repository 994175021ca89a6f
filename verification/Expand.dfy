/** `processZuulRoot`: lists become one key per element. */
module Expand {
  import opened Trees
  import opened Keys
  import opened Overlay
  import opened Flatten

  // ---------- what is stored ----------

  /** The entries for an object whose keys continue prefix. */
  ghost function ObjectEntries(prefix: string, t: Tree): set<(string, Tree)>
    requires t.Obj?
    decreases t, 0
  {
    set k, e | k in t.m && e in ValueEntries(prefix + k, t.m[k]) :: e
  }

  ghost function ValueEntries(key: string, v: Tree): set<(string, Tree)>
    decreases v, 2
  {
    if v.List? then ListEntries(key, v, |v.es|) else {(key, v)}
  }

  /** The entries for the first n elements. */
  ghost function ListEntries(key: string, v: Tree, n: nat): set<(string, Tree)>
    requires v.List? && n <= |v.es|
    decreases v, 1
  {
    set i, e | 0 <= i < n && e in ElementEntries(Indexed(key, i), v.es[i]) :: e
  }

  ghost function ElementEntries(key: string, x: Tree): set<(string, Tree)>
    decreases x, 1
  {
    if x.Obj? then ObjectEntries(key + ".", x) else {(key, x)}
  }

  function Indexed(key: string, i: nat): string {
    key + "[" + Decimal(i) + "]"
  }

  /** A null list element, on which the code panics, among the lists it looks into. */
  predicate NullElement(t: Tree) {
    t.Obj? && exists k, i ::
      && k in t.m && t.m[k].List? && 0 <= i < |t.m[k].es|
      && (t.m[k].es[i].Null? || NullElement(t.m[k].es[i]))
  }

  /** The expansion of an object: what `processZuulRoot` adds to an empty map. */
  ghost function Expansion(t: Tree): map<string, Tree>
    requires t.Obj?
  {
    ToMap(ObjectEntries("", t))
  }

  // ---------- the loops ----------

  ghost function SomeEntries(prefix: string, t: Tree, keys: set<string>): set<(string, Tree)>
    requires t.Obj? && keys <= t.m.Keys
  {
    set k, e | k in keys && e in ValueEntries(prefix + k, t.m[k]) :: e
  }

  lemma KeyStep(prefix: string, t: Tree, done: set<string>, k: string,
                before: map<string, Tree>, mid: map<string, Tree>, after: map<string, Tree>)
    requires t.Obj? && done <= t.m.Keys && k in t.m
    requires Overlays(before, mid, SomeEntries(prefix, t, done))
    requires Overlays(mid, after, ValueEntries(prefix + k, t.m[k]))
    ensures Overlays(before, after, SomeEntries(prefix, t, done + {k}))
  {
    OverlaysCompose(before, mid, after, SomeEntries(prefix, t, done), ValueEntries(prefix + k, t.m[k]));
    assert SomeEntries(prefix, t, done + {k}) == SomeEntries(prefix, t, done) + ValueEntries(prefix + k, t.m[k]);
  }

  lemma ElementStep(key: string, v: Tree, n: nat,
                    before: map<string, Tree>, mid: map<string, Tree>, after: map<string, Tree>)
    requires v.List? && n < |v.es|
    requires Overlays(before, mid, ListEntries(key, v, n))
    requires Overlays(mid, after, ElementEntries(Indexed(key, n), v.es[n]))
    ensures Overlays(before, after, ListEntries(key, v, n + 1))
  {
    OverlaysCompose(before, mid, after, ListEntries(key, v, n), ElementEntries(Indexed(key, n), v.es[n]));
    ListGrows(key, v, n);
  }

  lemma ListGrows(key: string, v: Tree, n: nat)
    requires v.List? && n < |v.es|
    ensures ListEntries(key, v, n + 1) == ListEntries(key, v, n) + ElementEntries(Indexed(key, n), v.es[n])
  {
    forall e | e in ListEntries(key, v, n + 1)
      ensures e in ListEntries(key, v, n) || e in ElementEntries(Indexed(key, n), v.es[n])
    {
      var i :| 0 <= i < n + 1 && e in ElementEntries(Indexed(key, i), v.es[i]);
      if i < n {
        EntryInList(key, v, n, i, e);
      }
    }
    forall e | e in ListEntries(key, v, n)
      ensures e in ListEntries(key, v, n + 1)
    {
      var i :| 0 <= i < n && e in ElementEntries(Indexed(key, i), v.es[i]);
      EntryInList(key, v, n + 1, i, e);
    }
    forall e | e in ElementEntries(Indexed(key, n), v.es[n])
      ensures e in ListEntries(key, v, n + 1)
    {
      EntryInList(key, v, n + 1, n, e);
    }
  }

  lemma EntryInList(key: string, v: Tree, n: nat, i: nat, e: (string, Tree))
    requires v.List? && i < n <= |v.es| && e in ElementEntries(Indexed(key, i), v.es[i])
    ensures e in ListEntries(key, v, n)
  {
  }

  /** Stores the expansion of route into kvMap, keys in any order; `ok` is false on a panic. */
  method ProcessZuulRoot(kvMap: FlatMap, route: Tree, prefix: string) returns (ok: bool)
    requires route.Obj?
    modifies kvMap
    ensures ok <==> !NullElement(route)
    ensures ok ==> Overlays(old(kvMap.kv), kvMap.kv, ObjectEntries(prefix, route))
    decreases route, 1
  {
    ghost var before := kvMap.kv;
    var todo := route.m.Keys;
    ghost var done: set<string> := {};
    while todo != {}
      invariant done == route.m.Keys - todo && todo <= route.m.Keys
      invariant Overlays(before, kvMap.kv, SomeEntries(prefix, route, done))
      invariant forall k, i :: k in done && route.m[k].List? && 0 <= i < |route.m[k].es| ==>
                  !route.m[k].es[i].Null? && !NullElement(route.m[k].es[i])
      decreases |todo|
    {
      var k :| k in todo;
      var v := route.m[k];
      ghost var mid := kvMap.kv;
      if v.List? {
        ok := ProcessList(kvMap, v, prefix + k, route);
        if !ok {
          return;
        }
      } else {
        OverlayOne(kvMap.kv, prefix + k, v);
        kvMap.kv := kvMap.kv[prefix + k := v];
      }
      KeyStep(prefix, route, done, k, before, mid, kvMap.kv);
      todo, done := todo - {k}, done + {k};
    }
    assert done == route.m.Keys;
    assert SomeEntries(prefix, route, done) == ObjectEntries(prefix, route);
    ok := true;
  }

  /** The inner loop over the elements of one list. */
  method ProcessList(kvMap: FlatMap, v: Tree, key: string, ghost parent: Tree) returns (ok: bool)
    requires v.List? && v < parent
    modifies kvMap
    ensures ok <==> forall i :: 0 <= i < |v.es| ==> !v.es[i].Null? && !NullElement(v.es[i])
    ensures ok ==> Overlays(old(kvMap.kv), kvMap.kv, ValueEntries(key, v))
    decreases parent, 0
  {
    ghost var before := kvMap.kv;
    for i := 0 to |v.es|
      invariant Overlays(before, kvMap.kv, ListEntries(key, v, i))
      invariant forall j :: 0 <= j < i ==> !v.es[j].Null? && !NullElement(v.es[j])
    {
      var newKey := key + "[" + Decimal(i) + "]";
      var element := v.es[i];
      ghost var mid := kvMap.kv;
      if element.Null? {
        return false;
      }
      if element.Obj? {
        ok := ProcessZuulRoot(kvMap, element, newKey + ".");
        if !ok {
          return;
        }
      } else {
        OverlayOne(kvMap.kv, newKey, element);
        kvMap.kv := kvMap.kv[newKey := element];
      }
      ElementStep(key, v, i, before, mid, kvMap.kv);
    }
    ok := true;
  }

  // ---------- where an entry comes from ----------

  /** One step to a stored value: a key, or an element of the list at a key. */
  datatype Seg = Key(k: string) | At(k: string, i: nat)

  function SegText(g: Seg): string {
    match g
    case Key(k) => k
    case At(k, i) => Indexed(k, i)
  }

  function SpotKey(spot: seq<Seg>): string
    requires spot != []
  {
    if |spot| == 1 then SegText(spot[0]) else SegText(spot[0]) + "." + SpotKey(spot[1..])
  }

  /** The value stored for a spot: a non-list value or a list element that is no
      object, behind nothing but list elements that are objects. */
  function SpotValue(t: Tree, spot: seq<Seg>): Option<Tree>
    decreases t
  {
    if spot == [] || !t.Obj? || spot[0].k !in t.m then None
    else
      var v := t.m[spot[0].k];
      match spot[0]
      case Key(_) => if |spot| == 1 && !v.List? then Some(v) else None
      case At(_, i) =>
        if !v.List? || i >= |v.es| then None
        else if |spot| == 1 then (if v.es[i].Obj? then None else Some(v.es[i]))
        else SpotValue(v.es[i], spot[1..])
  }

  ghost predicate FromSpot(prefix: string, t: Tree, e: (string, Tree), spot: seq<Seg>) {
    SpotValue(t, spot).Some? && e == (prefix + SpotKey(spot), SpotValue(t, spot).value)
  }

  lemma {:induction false} SpotGivesEntry(prefix: string, t: Tree, e: (string, Tree), spot: seq<Seg>)
    requires t.Obj? && FromSpot(prefix, t, e, spot)
    ensures e in ObjectEntries(prefix, t)
    decreases t
  {
    var k := spot[0].k;
    if spot[0].At? {
      var v, i := t.m[k], spot[0].i;
      var key := Indexed(prefix + k, i);
      assert key == prefix + SegText(spot[0]);
      if |spot| > 1 {
        assert prefix + SpotKey(spot) == (key + ".") + SpotKey(spot[1..]);
        assert SpotValue(t, spot) == SpotValue(v.es[i], spot[1..]);
        assert v.es[i].Obj?;
        SpotGivesEntry(key + ".", v.es[i], e, spot[1..]);
      }
      assert e in ElementEntries(key, v.es[i]);
      assert e in ListEntries(prefix + k, v, |v.es|);
    }
    assert e in ValueEntries(prefix + k, t.m[k]);
  }

  lemma {:induction false} EntryHasSpot(prefix: string, t: Tree, e: (string, Tree)) returns (spot: seq<Seg>)
    requires t.Obj? && e in ObjectEntries(prefix, t)
    ensures FromSpot(prefix, t, e, spot)
    decreases t, 1
  {
    var k :| k in t.m && e in ValueEntries(prefix + k, t.m[k]);
    if t.m[k].List? {
      spot := ListEntryHasSpot(prefix, t, k, e);
    } else {
      spot := [Key(k)];
    }
  }

  lemma {:induction false} ListEntryHasSpot(prefix: string, t: Tree, k: string, e: (string, Tree))
    returns (spot: seq<Seg>)
    requires t.Obj? && k in t.m && t.m[k].List? && e in ListEntries(prefix + k, t.m[k], |t.m[k].es|)
    ensures FromSpot(prefix, t, e, spot)
    decreases t, 0
  {
    var v := t.m[k];
    var i :| 0 <= i < |v.es| && e in ElementEntries(Indexed(prefix + k, i), v.es[i]);
    var key := Indexed(prefix + k, i);
    assert key == prefix + SegText(At(k, i));
    if v.es[i].Obj? {
      var rest := EntryHasSpot(key + ".", v.es[i], e);
      spot := [At(k, i)] + rest;
      assert spot[1..] == rest;
      assert prefix + SpotKey(spot) == (key + ".") + SpotKey(rest);
    } else {
      spot := [At(k, i)];
    }
  }

  // ---------- no collisions ----------

  /** No '[' in any key that an expansion uses. */
  predicate BracketFree(t: Tree) {
    t.Obj? ==> forall k :: k in t.m ==>
      && '[' !in k
      && (t.m[k].List? ==> forall i :: 0 <= i < |t.m[k].es| ==> BracketFree(t.m[k].es[i]))
  }

  /** What follows the index of the first segment. */
  function Tail(spot: seq<Seg>): string
    requires spot != []
  {
    if |spot| == 1 then "" else "." + SpotKey(spot[1..])
  }

  lemma SpotKeyParts(spot: seq<Seg>)
    requires spot != [] && spot[0].At?
    ensures SpotKey(spot) == spot[0].k + ['['] + (Decimal(spot[0].i) + [']'] + Tail(spot))
  {
  }

  /** The first segments of equal keys are equal, and so is what follows. */
  lemma FirstSegment(a: seq<Seg>, b: seq<Seg>)
    requires a != [] && b != [] && '[' !in a[0].k && '[' !in b[0].k
    requires SpotKey(a) == SpotKey(b)
    requires a[0].Key? ==> |a| == 1
    requires b[0].Key? ==> |b| == 1
    ensures a[0] == b[0] && Tail(a) == Tail(b)
  {
    if a[0].At? {
      SpotKeyParts(a);
    }
    if b[0].At? {
      SpotKeyParts(b);
    }
    if a[0].At? && b[0].At? {
      CutUnique('[', a[0].k, Decimal(a[0].i) + [']'] + Tail(a), b[0].k, Decimal(b[0].i) + [']'] + Tail(b));
      CutUnique(']', Decimal(a[0].i), Tail(a), Decimal(b[0].i), Tail(b));
      DecimalInjective(a[0].i, b[0].i);
    }
  }

  lemma TailKey(a: seq<Seg>)
    requires |a| > 1
    ensures Tail(a) != "" && SpotKey(a[1..]) == Tail(a)[1..]
  {
  }

  lemma KeysBracketFree(t: Tree, spot: seq<Seg>)
    requires BracketFree(t) && SpotValue(t, spot).Some?
    ensures '[' !in spot[0].k
    ensures spot[0].Key? ==> |spot| == 1
    ensures |spot| > 1 ==>
              var v := t.m[spot[0].k];
              v.List? && spot[0].i < |v.es| && BracketFree(v.es[spot[0].i]) && v.es[spot[0].i] < t
              && SpotValue(v.es[spot[0].i], spot[1..]).Some?
  {
  }

  /** From a key one can read off the spot it was generated for. */
  lemma {:induction false} SpotKeyInjective(t: Tree, a: seq<Seg>, b: seq<Seg>)
    requires BracketFree(t) && SpotValue(t, a).Some? && SpotValue(t, b).Some?
    requires SpotKey(a) == SpotKey(b)
    ensures a == b
    decreases t
  {
    KeysBracketFree(t, a);
    KeysBracketFree(t, b);
    FirstSegment(a, b);
    if |a| > 1 {
      TailKey(a);
    }
    if |b| > 1 {
      TailKey(b);
    }
    if |a| > 1 && |b| > 1 {
      SpotKeyInjective(t.m[a[0].k].es[a[0].i], a[1..], b[1..]);
    }
    assert a == [a[0]] + a[1..] && b == [b[0]] + b[1..];
  }

  lemma ExpansionFunctional(prefix: string, t: Tree)
    requires t.Obj? && BracketFree(t)
    ensures Functional(ObjectEntries(prefix, t))
  {
    forall e, f | e in ObjectEntries(prefix, t) && f in ObjectEntries(prefix, t) && e.0 == f.0
      ensures e == f
    {
      var a := EntryHasSpot(prefix, t, e);
      var b := EntryHasSpot(prefix, t, f);
      assert SpotKey(a) == e.0[|prefix|..] == SpotKey(b);
      SpotKeyInjective(t, a, b);
    }
  }

  /** The expansion holds the value of every spot under the spot's key. */
  lemma ExpansionAt(t: Tree, spot: seq<Seg>)
    requires t.Obj? && BracketFree(t) && SpotValue(t, spot).Some?
    ensures SpotKey(spot) in Expansion(t) && Expansion(t)[SpotKey(spot)] == SpotValue(t, spot).value
  {
    var e := (SpotKey(spot), SpotValue(t, spot).value);
    ExpansionFunctional("", t);
    assert "" + SpotKey(spot) == SpotKey(spot);
    SpotGivesEntry("", t, e, spot);
    assert e.0 in KeysOf(ObjectEntries("", t));
  }

  /** Every key of the expansion is that of exactly one spot, and has its value. */
  lemma ExpansionFrom(t: Tree, s: string) returns (spot: seq<Seg>)
    requires t.Obj? && BracketFree(t) && s in Expansion(t)
    ensures SpotValue(t, spot) == Some(Expansion(t)[s]) && SpotKey(spot) == s
    ensures forall other :: SpotValue(t, other).Some? && SpotKey(other) == s ==> other == spot
  {
    spot := EntryHasSpot("", t, (s, Expansion(t)[s]));
    assert "" + SpotKey(spot) == SpotKey(spot);
    forall other | SpotValue(t, other).Some? && SpotKey(other) == s
      ensures other == spot
    {
      SpotKeyInjective(t, other, spot);
    }
  }

  /** Whatever the iteration order, the outcome is kvMap overridden by the expansion. */
  lemma ExpansionOverrides(before: map<string, Tree>, after: map<string, Tree>, t: Tree)
    requires t.Obj? && BracketFree(t)
    ensures Overlays(before, after, ObjectEntries("", t)) <==> after == before + Expansion(t)
  {
    ExpansionFunctional("", t);
    OverlayDetermined(before, after, ObjectEntries("", t));
  }
}
