/** `AddOrUpdate` and `Delete`: editing the stored routes through map objects. */
module RouteRequests {
  import opened Trees
  import opened TreeHeap
  import opened Yaml
  import opened RouteSplit
  import opened ConfigMaps
  import opened ConfigSave
  import Z = ZuulRoutes

  // ---------- the requests, as functions ----------

  predicate WellFormed(t: Tree) {
    t.Obj? && ZUUL in t.m && t.m[ZUUL].Obj? && ROUTES in t.m[ZUUL].m && t.m[ZUUL].m[ROUTES].Obj?
  }

  function RoutesIn(t: Tree): Z.Routes
    requires WellFormed(t)
  {
    t.m[ZUUL].m[ROUTES].m
  }

  /** The stored tree after a request: `zuul` alone stays of the root's keys. */
  function Replaced(t: Tree, routes: Z.Routes): Tree
    requires WellFormed(t)
  {
    Obj(map[ZUUL := Obj(t.m[ZUUL].m[ROUTES := Obj(routes)])])
  }

  /** None on a panic. */
  function EditTree(t: Tree, req: Z.Request): Option<Tree> {
    if !WellFormed(t) then None
    else
      match Z.Edit(RoutesIn(t), req)
      case None => None
      case Some(routes) => Some(Replaced(t, routes))
  }

  function RouteEffect(w: World, req: Z.Request, namespaces: seq<string>): (Reply, World) {
    var w1 := ConfigMaps.Step(w, Asking(ROUTE_MAP), namespaces);
    if !Z.ValidRoute(req.dto) then (BadRequest, w)
    else
      match Lookup(w.store, w.cache, namespaces, ROUTE_MAP)
      case None => (NotFound, w1)
      case Some(ns) =>
        var cm := w.store[(ns, ROUTE_MAP)];
        var text := DataAt(cm, ConfigMapProfileKey(DEFAULT));
        if text.Empty? || text.Garbled? then (BadRequest, w1)
        else
          match EditTree(Parsed(text), req)
          case None => (Fault, w1)
          case Some(t) => (Saved, ConfigMaps.Step(w1, Updating(RouteConfig(cm.version, ns, t)), namespaces))
  }

  function RouteConfig(version: string, ns: string, t: Tree): SaveConfig
    requires t.Obj?
  {
    SaveConfig(ROUTE_MAP, version, DEFAULT, ns, OVERRIDE, Doc(t.m))
  }

  function HandleAll(w: World, reqs: seq<Z.Request>, namespaces: seq<string>): World
    decreases |reqs|
  {
    if reqs == [] then w
    else RouteEffect(HandleAll(w, reqs[..|reqs| - 1], namespaces), reqs[|reqs| - 1], namespaces).1
  }

  /** The queries find the route ConfigMap in ns, and its default profile holds t. */
  predicate RoutesHeld(w: World, namespaces: seq<string>, ns: string, t: Tree) {
    && Lookup(w.store, w.cache, namespaces, ROUTE_MAP) == Some(ns)
    && t.Obj? && DataAt(w.store[(ns, ROUTE_MAP)], ConfigMapProfileKey(DEFAULT)) == Doc(t.m)
  }

  lemma OneRequest(w: World, req: Z.Request, namespaces: seq<string>, ns: string, t: Tree)
    requires RoutesHeld(w, namespaces, ns, t) && WellFormed(t) && Z.AllObjects(RoutesIn(t)) && Z.ValidRoute(req.dto)
    ensures Z.Edit(RoutesIn(t), req).Some?
    ensures RouteEffect(w, req, namespaces).0 == Saved
    ensures RoutesHeld(RouteEffect(w, req, namespaces).1, namespaces, ns, Replaced(t, Z.Edit(RoutesIn(t), req).value))
    ensures var after := RouteEffect(w, req, namespaces).1.store;
            forall place :: place in w.store && place != (ns, ROUTE_MAP) ==>
              place in after && after[place] == w.store[place]
  {
    Z.EditKeepsObjects(RoutesIn(t), req);
  }

  lemma ReplacedTwice(t: Tree, a: Z.Routes, b: Z.Routes)
    requires WellFormed(t)
    ensures WellFormed(Replaced(t, a)) && RoutesIn(Replaced(t, a)) == a
    ensures Replaced(Replaced(t, a), b) == Replaced(t, b)
  {
    var z := t.m[ZUUL].m;
    assert z[ROUTES := Obj(a)][ROUTES := Obj(b)] == z[ROUTES := Obj(b)];
  }

  /** After any valid requests on well-formed routes, the stored tree has the routes
      that the requests amount to, with what is beside them under `zuul` unchanged. */
  lemma {:induction false} RequestsKeepTree(w: World, reqs: seq<Z.Request>, namespaces: seq<string>, ns: string,
                                            t: Tree)
    requires RoutesHeld(w, namespaces, ns, t) && WellFormed(t) && Z.AllObjects(RoutesIn(t))
    requires forall i :: 0 <= i < |reqs| ==> Z.ValidRoute(reqs[i].dto)
    ensures RoutesHeld(HandleAll(w, reqs, namespaces), namespaces, ns,
                       if reqs == [] then t else Replaced(t, Z.EditAll(RoutesIn(t), reqs)))
    decreases |reqs|
  {
    if reqs != [] {
      var n := |reqs| - 1;
      var before := reqs[..n];
      RequestsKeepTree(w, before, namespaces, ns, t);
      var routes := Z.EditAll(RoutesIn(t), before);
      var now := if before == [] then t else Replaced(t, routes);
      ReplacedTwice(t, routes, Z.EditAll(RoutesIn(t), reqs));
      OneRequest(HandleAll(w, before, namespaces), reqs[n], namespaces, ns, now);
    }
  }

  // ---------- the code ----------

  /** Stores a text under a key, in place of what was there. */
  method SetText(node: MapNode, k: string, text: string, ghost s: Shape) returns (ghost r: Shape)
    requires Owns(node, s)
    modifies node
    ensures Owns(node, r) && r.tree == Obj(s.tree.m[k := Z.TextLeaf(text)]) && r.foot <= s.foot
  {
    ghost var c := CellsOf(s.foot);
    ghost var rest, leaf := WithoutKid(s, k), Shape(Val(Z.TextLeaf(text)), Z.TextLeaf(text), map[], {});
    node.entries := node.entries[k := Val(Z.TextLeaf(text))];
    ghost var emptied := c[node] - {k};
    ghost var e := c[node := emptied];
    KidRemoved(c, e, node, s, k);
    PutBack(c[node], k, leaf.value);
    KidAdded(e, CellsOf(s.foot), node, rest, k, leaf);
    r := WithKid(rest, k, leaf);
    PutBack(s.tree.m, k, leaf.tree);
    HeldFrame(CellsOf(s.foot), CellsOf(r.foot), r);
  }

  method Dto2Map(route: MapNode, dto: Z.Route, ghost s: Shape) returns (ghost r: Shape)
    requires Owns(route, s)
    modifies route
    ensures Owns(route, r) && r.tree == Obj(Z.WithFields(s.tree.m, dto)) && r.foot <= s.foot
  {
    r := SetText(route, Z.PATH, dto.path, s);
    r := SetText(route, Z.SERVICE_ID, dto.serviceId, r);
    if dto.url != "" {
      r := SetText(route, Z.URL, dto.url, r);
    }
    if dto.sensitiveHeaders != "" {
      r := SetText(route, Z.SENSITIVE_HEADERS, dto.sensitiveHeaders, r);
    }
    if dto.helperService != "" {
      r := SetText(route, Z.HELPER_SERVICE, dto.helperService, r);
    }
  }

  /** Updates the route object that is there. */
  method UpdateRoute(routesMap: MapNode, route: MapNode, dto: Z.Route, ghost s: Shape) returns (ghost r: Shape)
    requires Owns(routesMap, s) && dto.name in s.kids && s.kids[dto.name].value == Ref(route)
    modifies s.foot
    ensures s.kids[dto.name].tree.Obj?
    ensures Owns(routesMap, r) && r.foot <= s.foot
    ensures r.tree == Obj(s.tree.m[dto.name := Obj(Z.WithFields(s.kids[dto.name].tree.m, dto))])
  {
    ghost var c := CellsOf(s.foot);
    assert KidHeld(c, routesMap, s, dto.name);
    HeldFrame(c, CellsOf(s.kids[dto.name].foot), s.kids[dto.name]);
    ghost var kid := Dto2Map(route, dto, s.kids[dto.name]);
    r := Reown(c, routesMap, s, dto.name, kid);
  }

  /** Adds a route object. */
  method AddRoute(routesMap: MapNode, dto: Z.Route, ghost s: Shape) returns (ghost r: Shape)
    requires Owns(routesMap, s) && dto.name !in s.kids
    modifies routesMap
    ensures Owns(routesMap, r) && fresh(r.foot - s.foot)
    ensures r.tree == Obj(s.tree.m[dto.name := Obj(Z.WithFields(map[], dto))])
  {
    var route := new MapNode();
    ghost var kid := Shape(Ref(route), Obj(map[]), map[], {route});
    kid := Dto2Map(route, dto, kid);
    r := SetKey(routesMap, dto.name, Ref(route), s, kid);
  }

  method EditRoutes(routesMap: MapNode, req: Z.Request, ghost s: Shape) returns (ok: bool, ghost r: Shape)
    requires Owns(routesMap, s)
    modifies s.foot
    ensures s.tree.Obj?
    ensures ok <==> Z.Edit(s.tree.m, req).Some?
    ensures ok ==> Owns(routesMap, r) && fresh(r.foot - s.foot) && r.tree == Obj(Z.Edit(s.tree.m, req).value)
  {
    var name := req.dto.name;
    ok, r := true, s;
    if name in routesMap.entries {
      assert KidHeld(CellsOf(s.foot), routesMap, s, name);
      assert Held(CellsOf(s.foot), s.kids[name]);
    }
    match req {
      case Delete(_) =>
        if name in routesMap.entries {
          r := DeleteKey(routesMap, name, s);
        } else {
          assert s.tree.m - {name} == s.tree.m;
        }
      case AddOrUpdate(dto) =>
        if name in routesMap.entries {
          match routesMap.entries[name] {
            case Val(_) =>
              ok := false;
            case Ref(route) =>
              r := UpdateRoute(routesMap, route, dto, s);
          }
        } else {
          r := AddRoute(routesMap, dto, s);
        }
    }
  }

  /** The object at a key, if there is one. */
  method ChildAt(node: MapNode, k: string, ghost s: Shape) returns (ok: bool, child: MapNode)
    requires Owns(node, s)
    ensures s.tree.Obj?
    ensures ok <==> k in s.tree.m && s.tree.m[k].Obj?
    ensures ok ==> k in s.kids && Owns(child, s.kids[k]) && s.kids[k].tree == s.tree.m[k] && s.kids[k].foot <= s.foot
  {
    ok, child := false, node;
    if k in node.entries {
      ghost var c := CellsOf(s.foot);
      assert KidHeld(c, node, s, k);
      HeldFrame(c, CellsOf(s.kids[k].foot), s.kids[k]);
      if node.entries[k].Ref? {
        ok, child := true, node.entries[k].node;
      }
    }
  }

  method EditZuul(zuulMap: MapNode, routesMap: MapNode, req: Z.Request, ghost s: Shape)
    returns (ok: bool, ghost r: Shape)
    requires Owns(zuulMap, s) && ROUTES in s.kids && Owns(routesMap, s.kids[ROUTES])
    modifies s.foot
    ensures s.kids[ROUTES].tree.Obj? && s.tree.Obj?
    ensures ok <==> Z.Edit(s.kids[ROUTES].tree.m, req).Some?
    ensures ok ==> Owns(zuulMap, r) && r.tree == Obj(s.tree.m[ROUTES := Obj(Z.Edit(s.kids[ROUTES].tree.m, req).value)])
  {
    ghost var c := CellsOf(s.foot);
    ghost var kid;
    ok, kid := EditRoutes(routesMap, req, s.kids[ROUTES]);
    r := s;
    if ok {
      r := Reown(c, zuulMap, s, ROUTES, kid);
    }
  }

  /** Edits the routes and prints `zuul` as the only key of a new root. */
  method PrintEdited(zuulMap: MapNode, routesMap: MapNode, req: Z.Request, ghost s: Shape) returns (t: Option<Tree>)
    requires Owns(zuulMap, s) && ROUTES in s.kids && Owns(routesMap, s.kids[ROUTES])
    modifies s.foot
    ensures s.kids[ROUTES].tree.Obj? && s.tree.Obj?
    ensures match Z.Edit(s.kids[ROUTES].tree.m, req)
            case None => t == None
            case Some(routes) => t == Some(Obj(map[ZUUL := Obj(s.tree.m[ROUTES := Obj(routes)])]))
  {
    var ok;
    ghost var r;
    ok, r := EditZuul(zuulMap, routesMap, req, s);
    t := None;
    if ok {
      var root;
      root, r := WrapZuul(zuulMap, r);
      var edited := Marshal(root, r);
      t := Some(edited);
    }
  }

  method EditText(text: Text, req: Z.Request) returns (t: Option<Tree>)
    requires !text.Garbled?
    ensures t == EditTree(Parsed(text), req)
  {
    t := None;
    var source;
    ghost var s;
    source, s := Load(text);
    if source == null {
      return;
    }
    var ok, zuulMap := ChildAt(source, ZUUL, s);
    if !ok {
      return;
    }
    ghost var sz := s.kids[ZUUL];
    var routesMap;
    ok, routesMap := ChildAt(zuulMap, ROUTES, sz);
    if !ok {
      return;
    }
    t := PrintEdited(zuulMap, routesMap, req, sz);
  }

  class RouteService {
    const operator: ConfigMapOperator

    constructor (operator: ConfigMapOperator)
      ensures this.operator == operator
    {
      this.operator := operator;
    }

    /** `AddOrUpdate` or `Delete`, as the request says. */
    method Handle(req: Z.Request) returns (reply: Reply)
      modifies operator, operator.api
      ensures (reply, operator.State()) == RouteEffect(old(operator.State()), req, operator.namespaces)
    {
      if !Z.ValidRoute(req.dto) {
        return BadRequest;
      }
      var configMap, namespace := operator.QueryConfigMapAndNamespaceByName(ROUTE_MAP);
      if configMap.None? {
        return NotFound;
      }
      var text := DataAt(configMap.value, ConfigMapProfileKey(DEFAULT));
      if text == Empty || text.Garbled? {
        return BadRequest;
      }
      var t := EditText(text, req);
      if t.None? {
        return Fault;
      }
      var updated := operator.UpdateConfigMap(RouteConfig(configMap.value.version, namespace, t.value));
      reply := if updated.None? then UpdateFailed else Saved;
    }
  }
}
