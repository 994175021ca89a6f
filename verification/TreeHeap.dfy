/** Configuration trees as Go holds them: map objects that point to map objects. */
module TreeHeap {
  import opened Trees
  import opened Merge

  /** A Go `map[string]interface{}`. */
  class MapNode {
    var entries: map<string, Value>

    constructor ()
      ensures entries == map[]
    {
      entries := map[];
    }
  }

  /** An interface value: nil, a scalar or a list as it is; a map by reference.
      No code writes into a list, so lists are values. */
  datatype Value = Val(t: Tree) | Ref(node: MapNode)

  /** What some map objects hold at one moment. */
  type Cells = map<MapNode, map<string, Value>>

  ghost predicate Snapshot(foot: set<MapNode>, c: Cells)
    reads foot
  {
    c.Keys == foot && forall n :: n in foot ==> c[n] == n.entries
  }

  ghost function CellsOf(foot: set<MapNode>): (c: Cells)
    reads foot
    ensures Snapshot(foot, c)
  {
    SnapshotExists(foot);
    var c :| Snapshot(foot, c);
    c
  }

  lemma SnapshotExists(foot: set<MapNode>)
    ensures exists c :: Snapshot(foot, c)
  {
    if foot == {} {
      assert Snapshot(foot, map[]);
    } else {
      var n :| n in foot;
      SnapshotExists(foot - {n});
      var c :| Snapshot(foot - {n}, c);
      assert Snapshot(foot, c[n := n.entries]);
    }
  }

  /** A value, the tree it stands for, the shapes below its keys, and a set of
      map objects that holds at least those it is made of. */
  datatype Shape = Shape(value: Value, tree: Tree, kids: map<string, Shape>, foot: set<MapNode>)

  ghost predicate Apart(node: MapNode, kids: map<string, Shape>, foot: set<MapNode>) {
    && node in foot
    && (forall k :: k in kids ==> kids[k].foot <= foot - {node})
    && (forall j, k :: j in kids && k in kids.Keys - {j} ==> kids[j].foot !! kids[k].foot)
  }

  /** The map objects have this shape, and none occurs in it twice. */
  ghost predicate Held(c: Cells, s: Shape)
    decreases s
  {
    && s.foot <= c.Keys
    && match s.value
       case Val(t) => s.tree == t && !t.Obj?
       case Ref(node) =>
         && Apart(node, s.kids, s.foot)
         && s.tree.Obj?
         && c[node].Keys == s.kids.Keys == s.tree.m.Keys
         && (forall k :: k in s.kids ==> KidHeld(c, node, s, k))
  }

  ghost predicate KidHeld(c: Cells, node: MapNode, s: Shape, k: string)
    requires node in c && k in c[node] && k in s.kids && s.tree.Obj? && k in s.tree.m
    decreases s, 0
  {
    c[node][k] == s.kids[k].value && s.tree.m[k] == s.kids[k].tree && Held(c, s.kids[k])
  }

  ghost predicate Owns(n: MapNode, s: Shape)
    reads s.foot
  {
    s.value == Ref(n) && Held(CellsOf(s.foot), s)
  }

  /** Only the objects of the footprint matter. */
  lemma {:induction false} HeldFrame(c: Cells, d: Cells, s: Shape)
    requires Held(c, s) && s.foot <= d.Keys
    requires forall n :: n in s.foot ==> c[n] == d[n]
    ensures Held(d, s)
    decreases s
  {
    if s.value.Ref? {
      forall k | k in s.kids
        ensures KidHeld(d, s.value.node, s, k)
      {
        assert KidHeld(c, s.value.node, s, k);
        HeldFrame(c, d, s.kids[k]);
      }
    }
  }

  // ---------- what both merge loops keep ----------

  ghost function FootAt(s: Shape, k: string): set<MapNode> {
    if k in s.kids then s.kids[k].foot else {}
  }

  ghost predicate BothApart(node: MapNode, so: Shape, sn: Shape) {
    && Apart(node, so.kids, so.foot)
    && sn.value.Ref? && Apart(sn.value.node, sn.kids, sn.foot)
    && so.foot !! sn.foot
  }

  /** The kids made so far each use only nodes of their own key in the two trees. */
  ghost predicate Within(so: Shape, sn: Shape, made: map<string, Shape>) {
    forall k :: k in made ==> made[k].foot <= FootAt(so, k) + FootAt(sn, k)
  }

  lemma KeysApart(node: MapNode, so: Shape, sn: Shape, made: map<string, Shape>, k: string)
    requires BothApart(node, so, sn) && Within(so, sn, made)
    ensures forall j :: j in made.Keys - {k} ==> made[j].foot !! FootAt(so, k) + FootAt(sn, k)
    ensures forall j :: j in so.kids.Keys - {k} ==> so.kids[j].foot !! FootAt(so, k) + FootAt(sn, k)
    ensures forall j :: j in made ==> node !in made[j].foot
    ensures FootAt(so, k) !! FootAt(sn, k) && node !in FootAt(so, k) + FootAt(sn, k)
    ensures FootAt(so, k) <= so.foot && FootAt(sn, k) <= sn.foot && node in so.foot
  {
    forall j | j in made
      ensures node !in made[j].foot
      ensures j in made.Keys - {k} ==> made[j].foot !! FootAt(so, k) + FootAt(sn, k)
    {
      assert made[j].foot <= FootAt(so, j) + FootAt(sn, j);
    }
  }

  lemma MergedApart(node: MapNode, so: Shape, sn: Shape, made: map<string, Shape>)
    requires BothApart(node, so, sn) && Within(so, sn, made)
    ensures Apart(node, so.kids + made, so.foot + sn.foot)
  {
    var all := so.kids + made;
    forall k | k in all
      ensures all[k].foot <= so.foot + sn.foot - {node}
      ensures forall j :: j in all.Keys - {k} ==> all[j].foot !! all[k].foot
    {
      assert all[k].foot <= FootAt(so, k) + FootAt(sn, k);
      KeysApart(node, so, sn, made, k);
    }
  }

  ghost predicate IsKid(c: Cells, node: MapNode, kids: map<string, Shape>, k: string)
    requires node in c && k in c[node] && k in kids
  {
    c[node][k] == kids[k].value && Held(c, kids[k])
  }

  /** Between two keys: made keys hold their new shape, the others what so has. */
  ghost predicate Progress(c: Cells, node: MapNode, so: Shape, made: map<string, Shape>) {
    && node in c && c[node].Keys == so.kids.Keys + made.Keys
    && (forall k :: k in made ==> IsKid(c, node, made, k))
    && (forall k :: k in so.kids.Keys - made.Keys ==> IsKid(c, node, so.kids, k))
  }

  lemma KidFrame(c: Cells, d: Cells, node: MapNode, kids: map<string, Shape>, k: string, j: string, v: Value,
                 changed: set<MapNode>)
    requires node in c && j in c[node].Keys - {k} && j in kids
    requires IsKid(c, node, kids, j)
    requires d.Keys == c.Keys && d[node] == c[node][k := v]
    requires forall n :: n in c.Keys - changed ==> d[n] == c[n]
    requires kids[j].foot !! changed
    ensures j in d[node] && IsKid(d, node, kids, j)
  {
    HeldFrame(c, d, kids[j]);
  }

  lemma KidsFrame(c: Cells, d: Cells, node: MapNode, so: Shape, sn: Shape,
                  made: map<string, Shape>, k: string, v: Value)
    requires BothApart(node, so, sn) && Within(so, sn, made) && Progress(c, node, so, made)
    requires d.Keys == c.Keys && d[node] == c[node][k := v]
    requires forall n :: n in c.Keys - (FootAt(so, k) + {node}) ==> d[n] == c[n]
    ensures forall j :: j in made.Keys - {k} ==> IsKid(d, node, made, j)
    ensures forall j :: j in so.kids.Keys - made.Keys - {k} ==> IsKid(d, node, so.kids, j)
  {
    KeysApart(node, so, sn, made, k);
    var changed := FootAt(so, k) + {node};
    forall j | j in made.Keys - {k}
      ensures IsKid(d, node, made, j)
    {
      KidFrame(c, d, node, made, k, j, v, changed);
    }
    forall j | j in so.kids.Keys - made.Keys - {k}
      ensures IsKid(d, node, so.kids, j)
    {
      KidFrame(c, d, node, so.kids, k, j, v, changed);
    }
  }

  lemma Step(c: Cells, d: Cells, node: MapNode, so: Shape, sn: Shape,
             made: map<string, Shape>, k: string, kid: Shape)
    requires BothApart(node, so, sn) && Within(so, sn, made) && Progress(c, node, so, made)
    requires d.Keys == c.Keys && d[node] == c[node][k := kid.value]
    requires forall n :: n in c.Keys - (FootAt(so, k) + {node}) ==> d[n] == c[n]
    requires Held(d, kid)
    ensures Progress(d, node, so, made[k := kid])
  {
    KidsFrame(c, d, node, so, sn, made, k, kid.value);
    NextProgress(d, node, so, made, k, kid);
  }

  lemma NextProgress(d: Cells, node: MapNode, so: Shape, made: map<string, Shape>, k: string, kid: Shape)
    requires node in d && d[node].Keys == so.kids.Keys + made.Keys + {k}
    requires forall j :: j in made.Keys - {k} ==> IsKid(d, node, made, j)
    requires forall j :: j in so.kids.Keys - made.Keys - {k} ==> IsKid(d, node, so.kids, j)
    requires d[node][k] == kid.value && Held(d, kid)
    ensures Progress(d, node, so, made[k := kid])
  {
    var next := made[k := kid];
    forall j | j in next
      ensures IsKid(d, node, next, j)
    {
      if j in made.Keys - {k} {
        assert IsKid(d, node, made, j);
      }
    }
  }

  lemma Finish(c: Cells, node: MapNode, so: Shape, sn: Shape, made: map<string, Shape>, tree: Tree)
    requires BothApart(node, so, sn) && Within(so, sn, made) && Progress(c, node, so, made)
    requires c.Keys == so.foot + sn.foot
    requires tree.Obj? && tree.m.Keys == so.kids.Keys + made.Keys
    requires forall k :: k in made ==> tree.m[k] == made[k].tree
    requires forall k :: k in so.kids.Keys - made.Keys ==> tree.m[k] == so.kids[k].tree
    ensures Held(c, Shape(Ref(node), tree, so.kids + made, so.foot + sn.foot))
  {
    MergedApart(node, so, sn, made);
    var all := so.kids + made;
    var s := Shape(Ref(node), tree, all, so.foot + sn.foot);
    forall k | k in all
      ensures KidHeld(c, node, s, k)
    {
      if k in made {
        assert IsKid(c, node, made, k);
      } else {
        assert IsKid(c, node, so.kids, k);
      }
    }
  }

  ghost predicate KidTrees(s: Shape) {
    s.tree.Obj? && s.tree.m.Keys == s.kids.Keys && forall k :: k in s.kids ==> s.tree.m[k] == s.kids[k].tree
  }

  /** The objects of both trees before the loop. */
  lemma Start(oldMap: MapNode, newMap: MapNode, so: Shape, sn: Shape, c: Cells)
    requires so.value == Ref(oldMap) && sn.value == Ref(newMap) && so.foot !! sn.foot
    requires c.Keys == so.foot + sn.foot && Held(c, so)
    requires Held(c, sn)
    ensures BothApart(oldMap, so, sn) && Progress(c, oldMap, so, map[])
    ensures c[newMap].Keys == sn.kids.Keys
    ensures KidTrees(so) && KidTrees(sn)
  {
    forall k | k in so.kids
      ensures so.tree.m[k] == so.kids[k].tree && IsKid(c, oldMap, so.kids, k)
    {
      assert KidHeld(c, oldMap, so, k);
    }
    forall k | k in sn.kids
      ensures sn.tree.m[k] == sn.kids[k].tree
    {
      assert KidHeld(c, newMap, sn, k);
    }
  }

  /** Old and new values at one key, with their own nodes and no others. */
  ghost predicate AtKey(oldMap: MapNode, so: Shape, sn: Shape, k: string)
    reads oldMap, FootAt(so, k), FootAt(sn, k)
  {
    && k in sn.kids && Held(CellsOf(FootAt(sn, k)), sn.kids[k])
    && FootAt(so, k) !! FootAt(sn, k)
    && oldMap !in FootAt(so, k) + FootAt(sn, k)
    && (k in oldMap.entries <==> k in so.kids)
    && (k in so.kids ==> oldMap.entries[k] == so.kids[k].value && Held(CellsOf(FootAt(so, k)), so.kids[k]))
  }

  /** The objects still hold what they held when `c` was taken. */
  ghost predicate Still(c: Cells)
    reads c.Keys
  {
    forall n :: n in c ==> n.entries == c[n]
  }

  /** What holds before and after each key. */
  ghost predicate Underway(oldMap: MapNode, so: Shape, sn: Shape, made: map<string, Shape>)
    reads so.foot, sn.foot
  {
    Within(so, sn, made) && Progress(CellsOf(so.foot + sn.foot), oldMap, so, made)
  }

  lemma NewKid(newMap: MapNode, sn: Shape, cn: Cells, k: string)
    requires sn.value == Ref(newMap) && Held(cn, sn) && cn.Keys == sn.foot && Still(cn) && k in sn.kids
    ensures Held(CellsOf(FootAt(sn, k)), sn.kids[k])
    ensures newMap.entries.Keys == sn.kids.Keys && newMap.entries[k] == sn.kids[k].value
  {
    assert KidHeld(cn, newMap, sn, k);
    HeldFrame(cn, CellsOf(FootAt(sn, k)), sn.kids[k]);
  }

  lemma KeyReady(oldMap: MapNode, so: Shape, sn: Shape, made: map<string, Shape>, k: string)
    requires BothApart(oldMap, so, sn) && Underway(oldMap, so, sn, made)
    requires k in sn.kids.Keys - made.Keys && Held(CellsOf(FootAt(sn, k)), sn.kids[k])
    ensures AtKey(oldMap, so, sn, k)
    ensures FootAt(so, k) <= so.foot && oldMap in so.foot
  {
    var c := CellsOf(so.foot + sn.foot);
    KeysApart(oldMap, so, sn, made, k);
    if k in so.kids {
      assert IsKid(c, oldMap, so.kids, k);
      HeldFrame(c, CellsOf(FootAt(so, k)), so.kids[k]);
    }
  }

  lemma KeyStored(oldMap: MapNode, so: Shape, sn: Shape, c: Cells, made: map<string, Shape>, k: string, kid: Shape)
    requires BothApart(oldMap, so, sn) && Within(so, sn, made) && c.Keys == so.foot + sn.foot
    requires Progress(c, oldMap, so, made) && k in sn.kids
    requires oldMap.entries == c[oldMap][k := kid.value]
    requires forall n :: n in c.Keys - (FootAt(so, k) + {oldMap}) ==> n.entries == c[n]
    requires Held(CellsOf(kid.foot), kid) && kid.foot <= FootAt(so, k) + FootAt(sn, k)
    ensures Underway(oldMap, so, sn, made[k := kid])
  {
    var d := CellsOf(so.foot + sn.foot);
    KeysApart(oldMap, so, sn, made, k);
    HeldFrame(CellsOf(kid.foot), d, kid);
    Step(c, d, oldMap, so, sn, made, k, kid);
  }

  // ---------- values of the merged keys ----------

  /** The value a merge leaves at a key of the new map. */
  ghost function MergedAt(update: bool, so: Shape, sn: Shape, k: string): Tree
    requires k in sn.kids
  {
    if k !in so.kids then sn.kids[k].tree
    else if update then Update(so.kids[k].tree, sn.kids[k].tree)
    else Add(so.kids[k].tree, sn.kids[k].tree)
  }

  /** Where the code compares two lists, the comparison panics. */
  ghost predicate ClashAt(so: Shape, sn: Shape, k: string) {
    k in so.kids && k in sn.kids && Clash(so.kids[k].tree, sn.kids[k].tree)
  }

  /** Made keys have their value; an update has met no panic at them. */
  ghost predicate TreesMerged(update: bool, so: Shape, sn: Shape, made: map<string, Shape>) {
    forall k :: k in made ==>
      k in sn.kids && made[k].tree == MergedAt(update, so, sn, k) && !(update && ClashAt(so, sn, k))
  }

  lemma TreesStep(update: bool, so: Shape, sn: Shape, made: map<string, Shape>, k: string, kid: Shape)
    requires TreesMerged(update, so, sn, made) && k in sn.kids && kid.tree == MergedAt(update, so, sn, k)
    requires !(update && ClashAt(so, sn, k))
    ensures TreesMerged(update, so, sn, made[k := kid])
  {
    var next := made[k := kid];
    forall j | j in next
      ensures next[j].tree == MergedAt(update, so, sn, j) && !(update && ClashAt(so, sn, j))
    {
      if j in made.Keys - {k} {
        assert next[j].tree == made[j].tree;
      }
    }
  }

  lemma KeysGrow<V>(m: map<string, V>, k: string, v: V)
    ensures m[k := v].Keys == m.Keys + {k}
  {
  }

  lemma TreesDone(update: bool, so: Shape, sn: Shape, made: map<string, Shape>)
    requires KidTrees(so) && KidTrees(sn) && made.Keys == sn.kids.Keys
    requires TreesMerged(update, so, sn, made)
    ensures var tree := if update then Update(so.tree, sn.tree) else Add(so.tree, sn.tree);
      && tree.Obj? && tree.m.Keys == so.kids.Keys + made.Keys
      && (forall k :: k in made ==> tree.m[k] == made[k].tree)
      && (forall k :: k in so.kids.Keys - made.Keys ==> tree.m[k] == so.kids[k].tree)
  {
  }

  // ---------- recursiveAdd ----------

  /** Merges newMap into oldMap in place, keys in any order. Sub-objects of newMap
      move into oldMap by reference; newMap itself still holds what it held. */
  method RecursiveAdd(oldMap: MapNode, newMap: MapNode, ghost so: Shape, ghost sn: Shape)
    returns (ghost sr: Shape)
    requires Owns(oldMap, so) && Owns(newMap, sn) && so.foot !! sn.foot
    modifies so.foot
    ensures Owns(oldMap, sr) && sr.foot == so.foot + sn.foot
    ensures sr.tree == Add(so.tree, sn.tree)
    ensures Owns(newMap, sn)
    decreases sn, 3
  {
    ghost var foot, cn := so.foot + sn.foot, CellsOf(sn.foot);
    HeldFrame(CellsOf(so.foot), CellsOf(foot), so);
    HeldFrame(cn, CellsOf(foot), sn);
    Start(oldMap, newMap, so, sn, CellsOf(foot));
    ghost var made := AddLoop(oldMap, newMap, so, sn, cn);
    HeldFrame(cn, CellsOf(sn.foot), sn);
    TreesDone(false, so, sn, made);
    Finish(CellsOf(foot), oldMap, so, sn, made, Add(so.tree, sn.tree));
    sr := Shape(Ref(oldMap), Add(so.tree, sn.tree), so.kids + made, foot);
  }

  method AddLoop(oldMap: MapNode, newMap: MapNode, ghost so: Shape, ghost sn: Shape, ghost cn: Cells)
    returns (ghost made: map<string, Shape>)
    requires BothApart(oldMap, so, sn) && sn.value == Ref(newMap) && Held(cn, sn) && cn.Keys == sn.foot && Still(cn)
    requires Underway(oldMap, so, sn, map[])
    modifies so.foot
    ensures Underway(oldMap, so, sn, made)
    ensures made.Keys == sn.kids.Keys && TreesMerged(false, so, sn, made)
    decreases sn, 2
  {
    var todo := newMap.entries.Keys;
    made := map[];
    while todo != {}
      invariant forall k :: k in todo <==> k in sn.kids && k !in made
      invariant Underway(oldMap, so, sn, made)
      invariant TreesMerged(false, so, sn, made)
      decreases todo
    {
      var nk :| nk in todo;
      NewKid(newMap, sn, cn, nk);
      made := AddStep(oldMap, nk, newMap.entries[nk], so, sn, made);
      todo := todo - {nk};
    }
  }

  /** One key, within the whole. */
  method AddStep(oldMap: MapNode, nk: string, nv: Value, ghost so: Shape, ghost sn: Shape,
                 ghost made: map<string, Shape>)
    returns (ghost next: map<string, Shape>)
    requires BothApart(oldMap, so, sn)
    requires Underway(oldMap, so, sn, made) && TreesMerged(false, so, sn, made)
    requires nk in sn.kids.Keys - made.Keys && nv == sn.kids[nk].value
    requires Held(CellsOf(FootAt(sn, nk)), sn.kids[nk])
    modifies so.foot
    ensures next.Keys == made.Keys + {nk}
    ensures Underway(oldMap, so, sn, next) && TreesMerged(false, so, sn, next)
    decreases sn, 1
  {
    ghost var c := CellsOf(so.foot + sn.foot);
    KeyReady(oldMap, so, sn, made, nk);
    ghost var kid := AddKey(oldMap, nk, nv, so, sn);
    KeyStored(oldMap, so, sn, c, made, nk, kid);
    TreesStep(false, so, sn, made, nk, kid);
    KeysGrow(made, nk, kid);
    next := made[nk := kid];
  }

  /** The body of the loop for one key. */
  method AddKey(oldMap: MapNode, nk: string, nv: Value, ghost so: Shape, ghost sn: Shape)
    returns (ghost kid: Shape)
    requires AtKey(oldMap, so, sn, nk) && nv == sn.kids[nk].value
    modifies oldMap, FootAt(so, nk)
    ensures oldMap.entries == old(oldMap.entries)[nk := kid.value]
    ensures Held(CellsOf(kid.foot), kid) && kid.foot <= FootAt(so, nk) + FootAt(sn, nk)
    ensures kid.tree == MergedAt(false, so, sn, nk)
    decreases sn, 0
  {
    if nk !in oldMap.entries {
      kid := sn.kids[nk];
      oldMap.entries := oldMap.entries[nk := nv];
    } else {
      var ov := oldMap.entries[nk];
      kid := so.kids[nk];
      if nv.Ref? && ov.Ref? {
        kid := RecursiveAdd(ov.node, nv.node, so.kids[nk], sn.kids[nk]);
      }
    }
  }

  // ---------- recursiveAddAndUpdate ----------

  lemma ClashIffAtKey(so: Shape, sn: Shape)
    requires KidTrees(so) && KidTrees(sn)
    ensures Clash(so.tree, sn.tree) <==> exists k :: ClashAt(so, sn, k)
  {
    if k :| ClashAt(so, sn, k) {
      assert k in so.tree.m && k in sn.tree.m && Clash(so.tree.m[k], sn.tree.m[k]);
    }
    if Clash(so.tree, sn.tree) {
      var k :| k in so.tree.m && k in sn.tree.m && Clash(so.tree.m[k], sn.tree.m[k]);
      assert ClashAt(so, sn, k);
    }
  }

  /** Merges newMap into oldMap in place, with new values for old non-null leaves.
      `ok` is false when the code panics; oldMap is then merged in part. */
  method RecursiveAddAndUpdate(oldMap: MapNode, newMap: MapNode, ghost so: Shape, ghost sn: Shape)
    returns (ok: bool, ghost sr: Shape)
    requires Owns(oldMap, so) && Owns(newMap, sn) && so.foot !! sn.foot
    modifies so.foot
    ensures ok <==> !Clash(so.tree, sn.tree)
    ensures ok ==> Owns(oldMap, sr) && sr.foot == so.foot + sn.foot
    ensures ok ==> sr.tree == Update(so.tree, sn.tree)
    ensures Owns(newMap, sn)
    decreases sn, 3
  {
    ghost var foot, cn := so.foot + sn.foot, CellsOf(sn.foot);
    HeldFrame(CellsOf(so.foot), CellsOf(foot), so);
    HeldFrame(cn, CellsOf(foot), sn);
    Start(oldMap, newMap, so, sn, CellsOf(foot));
    ClashIffAtKey(so, sn);
    ghost var made;
    ok, made := UpdateLoop(oldMap, newMap, so, sn, cn);
    HeldFrame(cn, CellsOf(sn.foot), sn);
    sr := so;
    if ok {
      TreesDone(true, so, sn, made);
      Finish(CellsOf(foot), oldMap, so, sn, made, Update(so.tree, sn.tree));
      sr := Shape(Ref(oldMap), Update(so.tree, sn.tree), so.kids + made, foot);
    }
  }

  method UpdateLoop(oldMap: MapNode, newMap: MapNode, ghost so: Shape, ghost sn: Shape, ghost cn: Cells)
    returns (ok: bool, ghost made: map<string, Shape>)
    requires BothApart(oldMap, so, sn) && sn.value == Ref(newMap) && Held(cn, sn) && cn.Keys == sn.foot && Still(cn)
    requires Underway(oldMap, so, sn, map[])
    modifies so.foot
    ensures ok <==> forall k :: !ClashAt(so, sn, k)
    ensures ok ==> Underway(oldMap, so, sn, made)
    ensures ok ==> made.Keys == sn.kids.Keys && TreesMerged(true, so, sn, made)
    decreases sn, 2
  {
    var todo := newMap.entries.Keys;
    ok, made := true, map[];
    while todo != {}
      invariant forall k :: k in todo <==> k in sn.kids && k !in made
      invariant Underway(oldMap, so, sn, made)
      invariant TreesMerged(true, so, sn, made)
      invariant ok
      decreases todo
    {
      var nk :| nk in todo;
      NewKid(newMap, sn, cn, nk);
      ok, made := UpdateStep(oldMap, nk, newMap.entries[nk], so, sn, made);
      if !ok {
        return;
      }
      todo := todo - {nk};
    }
  }

  /** One key, within the whole. */
  method UpdateStep(oldMap: MapNode, nk: string, nv: Value, ghost so: Shape, ghost sn: Shape,
                    ghost made: map<string, Shape>)
    returns (ok: bool, ghost next: map<string, Shape>)
    requires BothApart(oldMap, so, sn)
    requires Underway(oldMap, so, sn, made) && TreesMerged(true, so, sn, made)
    requires nk in sn.kids.Keys - made.Keys && nv == sn.kids[nk].value
    requires Held(CellsOf(FootAt(sn, nk)), sn.kids[nk])
    modifies so.foot
    ensures ok <==> !ClashAt(so, sn, nk)
    ensures ok ==> next.Keys == made.Keys + {nk}
    ensures ok ==> Underway(oldMap, so, sn, next) && TreesMerged(true, so, sn, next)
    decreases sn, 1
  {
    ghost var c := CellsOf(so.foot + sn.foot);
    KeyReady(oldMap, so, sn, made, nk);
    ghost var kid;
    ok, kid := UpdateKey(oldMap, nk, nv, so, sn);
    next := made;
    if ok {
      KeyStored(oldMap, so, sn, c, made, nk, kid);
      TreesStep(true, so, sn, made, nk, kid);
      KeysGrow(made, nk, kid);
      next := made[nk := kid];
    }
  }

  /** The body of the loop for one key: two tests, as in the code, so that an
      object merged with an object is looked at once more and left alone. */
  method UpdateKey(oldMap: MapNode, nk: string, nv: Value, ghost so: Shape, ghost sn: Shape)
    returns (ok: bool, ghost kid: Shape)
    requires AtKey(oldMap, so, sn, nk) && nv == sn.kids[nk].value
    modifies oldMap, FootAt(so, nk)
    ensures ok <==> !ClashAt(so, sn, nk)
    ensures ok ==> oldMap.entries == old(oldMap.entries)[nk := kid.value]
    ensures ok ==> Held(CellsOf(kid.foot), kid) && kid.foot <= FootAt(so, nk) + FootAt(sn, nk)
    ensures ok ==> kid.tree == MergedAt(true, so, sn, nk)
    decreases sn, 0
  {
    ok, kid := true, sn.kids[nk];
    if nk in oldMap.entries {
      var ov := oldMap.entries[nk];
      kid := so.kids[nk];
      if nv.Ref? && ov.Ref? {
        ok, kid := RecursiveAddAndUpdate(ov.node, nv.node, so.kids[nk], sn.kids[nk]);
        if !ok {
          return;
        }
      }
      if nv != Val(Null) && ov.Val? && ov != Val(Null) {
        if ov.t.List? && nv.Val? && nv.t.List? {
          return false, kid;
        }
        if nv != ov {
          oldMap.entries := oldMap.entries[nk := nv];
        }
        kid := sn.kids[nk];
      }
    } else {
      oldMap.entries := oldMap.entries[nk := nv];
    }
  }
}
