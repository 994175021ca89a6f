/** Configuration texts; printing and parsing are taken to be inverse on trees. */
module Yaml {
  import opened Trees
  import opened TreeHeap

  /** A text: empty, a document that is null, one whose root is an object, or one that
      does not parse into a map. */
  datatype Text = Empty | Nil | Doc(m: map<string, Tree>) | Garbled

  /** A Go map of a whole document: an object, or null for a nil map. */
  predicate IsRoot(t: Tree) {
    t.Obj? || t.Null?
  }

  /** Parsing an empty text, too, makes the map nil. */
  function Parsed(text: Text): (t: Tree)
    requires !text.Garbled?
    ensures IsRoot(t)
  {
    if text.Doc? then Obj(text.m) else Null
  }

  function Printed(t: Tree): (text: Text)
    requires IsRoot(t)
    ensures !text.Garbled? && Parsed(text) == t
  {
    if t.Obj? then Doc(t.m) else Nil
  }

  /** What reading from the map finds: nothing if it is nil. */
  function Readable(t: Tree): (r: Tree)
    requires IsRoot(t)
    ensures r.Obj?
  {
    if t.Obj? then t else Obj(map[])
  }

  /** A shape with one more key. */
  ghost function WithKid(s: Shape, k: string, kid: Shape): Shape
    requires s.tree.Obj?
  {
    Shape(s.value, Obj(s.tree.m[k := kid.tree]), s.kids[k := kid], s.foot + kid.foot)
  }

  lemma KidAdded(c: Cells, d: Cells, node: MapNode, s: Shape, k: string, kid: Shape)
    requires s.value == Ref(node) && Held(c, s) && k !in s.kids
    requires s.foot + kid.foot <= d.Keys && s.foot !! kid.foot && Held(d, kid)
    requires d[node] == c[node][k := kid.value]
    requires forall n :: n in s.foot - {node} ==> d[n] == c[n]
    ensures Held(d, WithKid(s, k, kid))
  {
    OldKids(c, d, node, s, k, kid);
    assert KidHeld(d, node, WithKid(s, k, kid), k);
    KidApart(node, s, k, kid);
  }

  lemma KidApart(node: MapNode, s: Shape, k: string, kid: Shape)
    requires s.tree.Obj? && Apart(node, s.kids, s.foot) && k !in s.kids && s.foot !! kid.foot
    ensures Apart(node, WithKid(s, k, kid).kids, WithKid(s, k, kid).foot)
  {
  }

  lemma OldKids(c: Cells, d: Cells, node: MapNode, s: Shape, k: string, kid: Shape)
    requires s.value == Ref(node) && Held(c, s) && k !in s.kids
    requires s.foot <= d.Keys && d[node] == c[node][k := kid.value]
    requires forall n :: n in s.foot - {node} ==> d[n] == c[n]
    ensures var t := WithKid(s, k, kid);
            forall j :: j in s.kids ==> j in t.kids.Keys - {k} && KidHeld(d, node, t, j)
  {
    var t := WithKid(s, k, kid);
    forall j | j in s.kids
      ensures j in t.kids.Keys - {k} && t.kids[j] == s.kids[j]
      ensures KidHeld(d, node, t, j)
    {
      assert KidHeld(c, node, s, j);
      HeldFrame(c, d, s.kids[j]);
    }
  }

  ghost predicate PartOf(m: map<string, Tree>, t: Tree, todo: set<string>) {
    t.Obj? && (forall k :: k in m <==> k in t.m && k !in todo) && (forall k :: k in m ==> m[k] == t.m[k])
  }

  /** Parsing allocates a fresh tree of map objects. */
  method Unmarshal(t: Tree) returns (node: MapNode, ghost s: Shape)
    requires t.Obj?
    ensures Owns(node, s) && s.tree == t && fresh(s.foot)
    decreases t, 1
  {
    node := new MapNode();
    s := Shape(Ref(node), Obj(map[]), map[], {node});
    var todo := t.m.Keys;
    while todo != {}
      invariant todo <= t.m.Keys
      invariant fresh(s.foot) && Owns(node, s)
      invariant s.tree.Obj? && PartOf(s.tree.m, t, todo)
      decreases todo
    {
      var k :| k in todo;
      s := AddKid(node, t, k, s, todo);
      todo := todo - {k};
    }
    assert s.tree.m == t.m;
  }

  /** One more key of the document. */
  method AddKid(node: MapNode, t: Tree, k: string, ghost s: Shape, ghost todo: set<string>) returns (ghost r: Shape)
    requires Owns(node, s) && s.tree.Obj? && PartOf(s.tree.m, t, todo) && k in todo && k in t.m
    modifies node
    ensures Owns(node, r) && fresh(r.foot - s.foot)
    ensures r.tree.Obj? && PartOf(r.tree.m, t, todo - {k})
    decreases t, 0
  {
    var v;
    ghost var kid;
    v, kid := UnmarshalValue(t.m[k]);
    r := SetKey(node, k, v, s, kid);
  }

  method UnmarshalValue(t: Tree) returns (v: Value, ghost s: Shape)
    ensures s.value == v && Held(CellsOf(s.foot), s) && s.tree == t && fresh(s.foot)
    decreases t, 2
  {
    if t.Obj? {
      var node;
      node, s := Unmarshal(t);
      v := Ref(node);
    } else {
      v, s := Val(t), Shape(Val(t), t, map[], {});
    }
  }

  /** Stores a value under a new key. */
  method SetKey(node: MapNode, k: string, v: Value, ghost s: Shape, ghost kid: Shape) returns (ghost r: Shape)
    requires Owns(node, s) && k !in s.kids
    requires v == kid.value && Held(CellsOf(kid.foot), kid) && s.foot !! kid.foot
    modifies node
    ensures Owns(node, r) && r == WithKid(s, k, kid)
  {
    ghost var c := CellsOf(s.foot);
    node.entries := node.entries[k := v];
    ghost var d := CellsOf(s.foot + kid.foot);
    HeldFrame(CellsOf(kid.foot), d, kid);
    KidAdded(c, d, node, s, k, kid);
    r := WithKid(s, k, kid);
  }

  /** Printing reads the tree of map objects. */
  method Marshal(node: MapNode, ghost s: Shape) returns (t: Tree)
    requires Owns(node, s)
    ensures t == s.tree
    decreases s
  {
    var m: map<string, Tree> := map[];
    var todo := node.entries.Keys;
    while todo != {}
      invariant todo <= s.kids.Keys
      invariant PartOf(m, s.tree, todo)
      decreases todo
    {
      var k :| k in todo;
      assert KidHeld(CellsOf(s.foot), node, s, k);
      HeldFrame(CellsOf(s.foot), CellsOf(s.kids[k].foot), s.kids[k]);
      match node.entries[k] {
        case Val(v) =>
          m := m[k := v];
        case Ref(child) =>
          var v := Marshal(child, s.kids[k]);
          m := m[k := v];
      }
      todo := todo - {k};
    }
    assert m == s.tree.m;
    t := Obj(m);
  }

  // ---------- whole documents ----------

  const NIL_SHAPE := Shape(Val(Null), Null, map[], {})

  /** A Go map variable: nil, or a map object. */
  ghost predicate OwnsRoot(node: MapNode?, s: Shape)
    reads s.foot
  {
    if node == null then s == NIL_SHAPE else Owns(node, s)
  }

  lemma RootOfOwner(node: MapNode?, s: Shape)
    requires OwnsRoot(node, s)
    ensures if node == null then s.tree == Null else s.tree.Obj?
  {
  }

  /** `yaml.Unmarshal` into a map variable. */
  method Load(text: Text) returns (node: MapNode?, ghost s: Shape)
    requires !text.Garbled?
    ensures OwnsRoot(node, s) && s.tree == Parsed(text) && fresh(s.foot)
  {
    if text.Doc? {
      node, s := Unmarshal(Obj(text.m));
    } else {
      node, s := null, NIL_SHAPE;
    }
  }

  /** `yaml.Marshal` of a map variable. */
  method Print(node: MapNode?, ghost s: Shape) returns (text: Text)
    requires OwnsRoot(node, s)
    ensures IsRoot(s.tree) && text == Printed(s.tree)
  {
    if node == null {
      text := Nil;
    } else {
      var t := Marshal(node, s);
      text := Doc(t.m);
    }
  }
}
