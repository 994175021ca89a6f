/** Histories of gateway saves and route requests, and what the gateway then polls. */
module GatewayHistory {
  import opened Trees
  import opened Keys
  import opened Merge
  import opened Flatten
  import opened MergeFlatten
  import opened Expand
  import opened Yaml
  import opened RouteSplit
  import opened SplitMerge
  import opened ConfigMaps
  import opened ConfigSave
  import opened SaveLaws
  import opened ConfigPoll
  import opened PollLaws
  import opened RouteRequests
  import Z = ZuulRoutes

  // ---------- one ConfigMap ----------

  /** The tree a policy makes of the stored one, if there is one. */
  function Combined(cur: Option<Tree>, policy: string, source: Tree): Tree {
    match cur
    case None => source
    case Some(t) =>
      if policy == ADD then Add(t, source)
      else if policy == UPDATE then Update(t, source)
      else if policy == NOT then t
      else source
  }

  /** The merge panics: "update" meets a list with a list, or a nil map is written to. */
  predicate Panics(cur: Option<Tree>, policy: string, source: Tree) {
    var base := if cur.Some? then cur.value else source;
    (policy == UPDATE && Clash(base, source)) || (MergingPolicy(policy) && WritesNil(base, source))
  }

  /** What is stored afterwards; on a panic the old tree, or the one just created. */
  function StoredTree(cur: Option<Tree>, policy: string, source: Tree): Tree {
    if cur.Some? && Panics(cur, policy, source) then cur.value else Combined(cur, policy, source)
  }

  /** The default profile of a ConfigMap holds a tree, or there is no ConfigMap. */
  predicate HoldsTree(cell: Option<ConfigMap>, cur: Option<Tree>) {
    match cur
    case None => cell == None
    case Some(t) => IsRoot(t) && cell.Some? && DataAt(cell.value, ConfigMapProfileKey(DEFAULT)) == Printed(t)
  }

  lemma PutHolds(cell: Option<ConfigMap>, cur: Option<Tree>, dto: SaveConfig, source: Tree)
    requires HoldsTree(cell, cur) && IsRoot(source) && dto.yaml == Printed(source) && dto.profile == DEFAULT
    ensures var r := PutCell(cell, dto, source);
            (r.0 == Fault <==> Panics(cur, dto.policy, source)) &&
            HoldsTree(Some(r.1), Some(StoredTree(cur, dto.policy, source)))
  {
    AddSelf(source);
    UpdateSelf(source);
  }

  // ---------- two ConfigMaps ----------

  /** The trees in the gateway's ConfigMap and in that of the routes. */
  datatype Parts = Parts(rest: Option<Tree>, routes: Option<Tree>)

  predicate HoldsParts(store: Store, ns: string, p: Parts) {
    HoldsTree(CellAt(store, (ns, GATEWAY)), p.rest) && HoldsTree(CellAt(store, (ns, ROUTE_MAP)), p.routes)
  }

  /** Requests to save the gateway's configuration, and to edit one route. */
  datatype Event = Saving(dto: SaveConfig) | Editing(req: Z.Request)

  /** A save of the gateway's default profile to one namespace, with any policy and text. */
  predicate Targets(e: Event, ns: string) {
    e.Saving? ==> Valid(e.dto) && e.dto.service == GATEWAY && e.dto.profile == DEFAULT && e.dto.namespace == ns
  }

  /** The routes are stored first; a panic there ends the request. */
  function AfterSave(p: Parts, policy: string, source: Tree): Parts
    requires IsRoot(source)
  {
    if !Separable(source) then p
    else
      var routes := Some(StoredTree(p.routes, policy, RoutesPart(source)));
      if Panics(p.routes, policy, RoutesPart(source)) then p.(routes := routes)
      else Parts(Some(StoredTree(p.rest, policy, RestPart(source))), routes)
  }

  function AfterEdit(p: Parts, req: Z.Request): Parts {
    if !Z.ValidRoute(req.dto) || p.routes.None? || EditTree(p.routes.value, req).None? then p
    else p.(routes := EditTree(p.routes.value, req))
  }

  function After(p: Parts, e: Event): Parts {
    match e
    case Saving(dto) => if dto.yaml.Garbled? then p else AfterSave(p, dto.policy, Parsed(dto.yaml))
    case Editing(req) => AfterEdit(p, req)
  }

  /** The request panics. */
  predicate Faults(p: Parts, e: Event) {
    match e
    case Saving(dto) =>
      && !dto.yaml.Garbled?
      && var source := Parsed(dto.yaml);
         || !Separable(source)
         || Panics(p.routes, dto.policy, RoutesPart(source))
         || Panics(p.rest, dto.policy, RestPart(source))
    case Editing(req) => Z.ValidRoute(req.dto) && p.routes.Some? && EditTree(p.routes.value, req).None?
  }

  function Effect(w: World, e: Event, namespaces: seq<string>): (Reply, World) {
    match e
    case Saving(dto) => SaveEffect(w, dto)
    case Editing(req) => RouteEffect(w, req, namespaces)
  }

  /** No other monitored namespace has the two ConfigMaps. */
  predicate Alone(w: World, namespaces: seq<string>, ns: string) {
    && ns in namespaces && CacheMonitored(w.cache, namespaces)
    && forall other :: other in namespaces && other != ns ==>
         (other, GATEWAY) !in w.store && (other, ROUTE_MAP) !in w.store
  }

  lemma FindsAlone(w: World, namespaces: seq<string>, ns: string, name: string)
    requires Alone(w, namespaces, ns) && (name == GATEWAY || name == ROUTE_MAP)
    ensures Lookup(w.store, w.cache, namespaces, name) == if (ns, name) in w.store then Some(ns) else None
  {
    ScanIsFirst(w.store, namespaces, name);
  }

  /** The ConfigMaps hold these trees, and the queries find them. */
  predicate Keeps(w: World, namespaces: seq<string>, ns: string, p: Parts) {
    HoldsParts(w.store, ns, p) && Alone(w, namespaces, ns)
  }

  /** One save, whatever its text and policy. */
  lemma GatewaySave(w: World, dto: SaveConfig, ns: string, p: Parts)
    requires Targets(Saving(dto), ns) && HoldsParts(w.store, ns, p)
    ensures SaveEffect(w, dto).0 == Fault <==> Faults(p, Saving(dto))
    ensures HoldsParts(SaveEffect(w, dto).1.store, ns, After(p, Saving(dto)))
  {
    if !dto.yaml.Garbled? && Separable(Parsed(dto.yaml)) {
      var source := Parsed(dto.yaml);
      var rest, routes := RestPart(source), RoutesPart(source);
      PutHolds(CellAt(w.store, (ns, ROUTE_MAP)), p.routes, RouteDto(dto, Printed(routes)), routes);
      PutHolds(CellAt(w.store, (ns, GATEWAY)), p.rest, dto.(yaml := Printed(rest)), rest);
      var first := Put(w, RouteDto(dto, Printed(routes)), routes);
      assert CellAt(first.1.store, (ns, GATEWAY)) == CellAt(w.store, (ns, GATEWAY));
    }
  }

  /** A save writes to its namespace only. */
  lemma SaveStaysAlone(w: World, dto: SaveConfig, namespaces: seq<string>, ns: string)
    requires Targets(Saving(dto), ns) && Alone(w, namespaces, ns)
    ensures Alone(SaveEffect(w, dto).1, namespaces, ns)
  {
  }

  lemma EditKeeps(w: World, req: Z.Request, namespaces: seq<string>, ns: string, p: Parts)
    requires Keeps(w, namespaces, ns, p)
    ensures RouteEffect(w, req, namespaces).0 == Fault <==> Faults(p, Editing(req))
    ensures Keeps(RouteEffect(w, req, namespaces).1, namespaces, ns, After(p, Editing(req)))
  {
    FindsAlone(w, namespaces, ns, ROUTE_MAP);
  }

  /** One request, whatever it asks: which trees are stored, and whether it panics. */
  lemma RequestKeeps(w: World, e: Event, namespaces: seq<string>, ns: string, p: Parts)
    requires Keeps(w, namespaces, ns, p) && Targets(e, ns)
    ensures Effect(w, e, namespaces).0 == Fault <==> Faults(p, e)
    ensures Keeps(Effect(w, e, namespaces).1, namespaces, ns, After(p, e))
  {
    match e
    case Saving(dto) =>
      GatewaySave(w, dto, ns, p);
      SaveStaysAlone(w, dto, namespaces, ns);
    case Editing(req) => EditKeeps(w, req, namespaces, ns, p);
  }

  // ---------- when both are parts of one tree ----------

  function PartsOf(cur: Option<Tree>): Parts
    requires cur.Some? ==> IsRoot(cur.value)
  {
    match cur
    case None => Parts(None, None)
    case Some(t) => Parts(Some(RestPart(t)), Some(RoutesPart(t)))
  }

  /** New routes that the stored routes take and the whole tree would not. */
  predicate Blocks(cur: Option<Tree>, policy: string, source: Tree)
    requires IsRoot(source) && (cur.Some? ==> IsRoot(cur.value))
  {
    cur.Some? && MergingPolicy(policy) && RoutesBlocked(policy == ADD, cur.value, source)
  }

  lemma PanicsInParts(cur: Option<Tree>, policy: string, source: Tree)
    requires IsRoot(source) && (cur.Some? ==> IsRoot(cur.value))
    ensures Panics(cur, policy, source) <==>
            || Panics(PartsOf(cur).routes, policy, RoutesPart(source))
            || Panics(PartsOf(cur).rest, policy, RestPart(source))
  {
    ClashSplit(if cur.Some? then cur.value else source, source);
  }

  lemma PartsOfCombined(cur: Option<Tree>, policy: string, source: Tree)
    requires IsRoot(source) && (cur.Some? ==> IsRoot(cur.value))
    ensures IsRoot(Combined(cur, policy, source))
    ensures Combined(PartsOf(cur).rest, policy, RestPart(source)) == RestPart(Combined(cur, policy, source))
    ensures Combined(PartsOf(cur).routes, policy, RoutesPart(source)) == RoutesPart(Combined(cur, policy, source)) <==>
            !Blocks(cur, policy, source)
  {
    if cur.Some? {
      SplitCommutesWithMerge(cur.value, source);
    }
  }

  /** A save of any tree over the parts of any tree: it panics exactly on a null `zuul`
      or where the merge of the whole trees would; and if it does not, the ConfigMaps
      hold the parts of the whole trees combined, exactly unless routes are blocked. */
  lemma SaveKeepsOneTree(w: World, dto: SaveConfig, ns: string, cur: Option<Tree>)
    requires Targets(Saving(dto), ns) && !dto.yaml.Garbled?
    requires (cur.Some? ==> IsRoot(cur.value)) && HoldsParts(w.store, ns, PartsOf(cur))
    ensures var source, r := Parsed(dto.yaml), SaveEffect(w, dto);
            && (r.0 == Fault <==> !Separable(source) || Panics(cur, dto.policy, source))
            && IsRoot(Combined(cur, dto.policy, source))
            && (r.0 != Fault ==>
                  (HoldsParts(r.1.store, ns, PartsOf(Some(Combined(cur, dto.policy, source)))) <==>
                   !Blocks(cur, dto.policy, source)))
  {
    var source := Parsed(dto.yaml);
    GatewaySave(w, dto, ns, PartsOf(cur));
    PanicsInParts(cur, dto.policy, source);
    PartsOfCombined(cur, dto.policy, source);
    if SaveEffect(w, dto).0 != Fault {
      HoldsOne(SaveEffect(w, dto).1.store, ns, After(PartsOf(cur), Saving(dto)),
               PartsOf(Some(Combined(cur, dto.policy, source))));
    }
  }

  /** Two ConfigMaps hold one pair of trees only. */
  lemma HoldsOne(store: Store, ns: string, p: Parts, q: Parts)
    requires HoldsParts(store, ns, p) && p.rest.Some? && p.routes.Some? && q.rest.Some? && q.routes.Some?
    requires IsRoot(q.rest.value) && IsRoot(q.routes.value)
    ensures HoldsParts(store, ns, q) <==> p == q
  {
    assert forall a, b :: IsRoot(a) && IsRoot(b) && Printed(a) == Printed(b) ==> a == b;
  }

  /** The whole tree with its routes edited. */
  function EditWhole(t: Tree, req: Z.Request): Tree {
    if !Z.ValidRoute(req.dto) || !WellFormed(t) then t
    else
      match Z.Edit(RoutesIn(t), req)
      case None => t
      case Some(routes) => Obj(t.m[ZUUL := Obj(t.m[ZUUL].m[ROUTES := Obj(routes)])])
  }

  function WholeAfter(cur: Option<Tree>, e: Event): Option<Tree> {
    match e
    case Saving(dto) =>
      if dto.yaml.Garbled? || !Separable(Parsed(dto.yaml)) then cur
      else Some(Combined(cur, dto.policy, Parsed(dto.yaml)))
    case Editing(req) => if cur.Some? then Some(EditWhole(cur.value, req)) else None
  }

  /** The request is no save whose merge panics or whose routes are blocked. */
  predicate Intact(cur: Option<Tree>, e: Event)
    requires cur.Some? ==> IsRoot(cur.value)
  {
    e.Saving? && !e.dto.yaml.Garbled? && Separable(Parsed(e.dto.yaml)) ==>
      !Panics(cur, e.dto.policy, Parsed(e.dto.yaml)) && !Blocks(cur, e.dto.policy, Parsed(e.dto.yaml))
  }

  lemma EditOfParts(t: Tree, req: Z.Request)
    requires IsRoot(t)
    ensures IsRoot(EditWhole(t, req))
    ensures AfterEdit(PartsOf(Some(t)), req) == PartsOf(Some(EditWhole(t, req)))
  {
    if t.Obj? && ZUUL in t.m && t.m[ZUUL].Obj? {
      var z, u := t.m[ZUUL].m, EditWhole(t, req);
      WellFormedPart(t);
      if Z.ValidRoute(req.dto) && WellFormed(t) && Z.Edit(RoutesIn(t), req).Some? {
        var routes := Obj(Z.Edit(RoutesIn(t), req).value);
        assert z[ROUTES := routes] - {ROUTES} == z - {ROUTES};
        assert map[ROUTES := z[ROUTES]][ROUTES := routes] == map[ROUTES := routes];
        assert t.m[ZUUL := Obj(z[ROUTES := routes])][ZUUL := Obj(z - {ROUTES})] == t.m[ZUUL := Obj(z - {ROUTES})];
      }
    }
  }

  lemma WellFormedPart(t: Tree)
    requires IsRoot(t)
    ensures WellFormed(RoutesPart(t)) <==> WellFormed(t)
    ensures WellFormed(t) ==> RoutesIn(RoutesPart(t)) == RoutesIn(t)
  {
  }

  lemma IntactStep(cur: Option<Tree>, e: Event)
    requires (cur.Some? ==> IsRoot(cur.value)) && Intact(cur, e)
    ensures WholeAfter(cur, e).Some? ==> IsRoot(WholeAfter(cur, e).value)
    ensures After(PartsOf(cur), e) == PartsOf(WholeAfter(cur, e))
  {
    match e
    case Saving(dto) =>
      if !dto.yaml.Garbled? && Separable(Parsed(dto.yaml)) {
        PanicsInParts(cur, dto.policy, Parsed(dto.yaml));
        PartsOfCombined(cur, dto.policy, Parsed(dto.yaml));
      }
    case Editing(req) =>
      if cur.Some? {
        EditOfParts(cur.value, req);
      }
  }

  // ---------- histories ----------

  function RunAll(w: World, es: seq<Event>, namespaces: seq<string>): World
    decreases |es|
  {
    if es == [] then w else RunAll(Effect(w, es[0], namespaces).1, es[1..], namespaces)
  }

  function PartsAfter(p: Parts, es: seq<Event>): Parts
    decreases |es|
  {
    if es == [] then p else PartsAfter(After(p, es[0]), es[1..])
  }

  function Total(cur: Option<Tree>, es: seq<Event>): Option<Tree>
    decreases |es|
  {
    if es == [] then cur else Total(WholeAfter(cur, es[0]), es[1..])
  }

  predicate AllIntact(cur: Option<Tree>, es: seq<Event>)
    requires cur.Some? ==> IsRoot(cur.value)
    decreases |es|
  {
    es != [] ==>
      && Intact(cur, es[0])
      && (WholeAfter(cur, es[0]).Some? ==> IsRoot(WholeAfter(cur, es[0]).value))
      && AllIntact(WholeAfter(cur, es[0]), es[1..])
  }

  predicate AllTarget(es: seq<Event>, ns: string) {
    forall i :: 0 <= i < |es| ==> Targets(es[i], ns)
  }

  /** Whatever is saved and edited, panics included, the ConfigMaps hold the trees
      that the requests lead to, and both stay where the queries find them. */
  lemma {:induction false} HistoryKeepsParts(w: World, es: seq<Event>, namespaces: seq<string>, ns: string, p: Parts)
    requires Keeps(w, namespaces, ns, p) && AllTarget(es, ns)
    ensures Keeps(RunAll(w, es, namespaces), namespaces, ns, PartsAfter(p, es))
    decreases |es|
  {
    if es != [] {
      RequestKeeps(w, es[0], namespaces, ns, p);
      HistoryKeepsParts(Effect(w, es[0], namespaces).1, es[1..], namespaces, ns, After(p, es[0]));
    }
  }

  /** While no merge panics and no routes are blocked, they are the parts of one tree:
      the one to which the policies and edits, applied to whole trees, lead. */
  lemma {:induction false} HistoryKeepsOneTree(cur: Option<Tree>, es: seq<Event>)
    requires (cur.Some? ==> IsRoot(cur.value)) && AllIntact(cur, es)
    ensures Total(cur, es).Some? ==> IsRoot(Total(cur, es).value)
    ensures PartsAfter(PartsOf(cur), es) == PartsOf(Total(cur, es))
    decreases |es|
  {
    if es != [] {
      IntactStep(cur, es[0]);
      HistoryKeepsOneTree(WholeAfter(cur, es[0]), es[1..]);
    }
  }

  // ---------- clean keys stay clean ----------

  /** A name that flattening and expansion can take apart again. */
  predicate CleanKey(k: string) {
    GoodKey(k) && '[' !in k
  }

  predicate CleanEvent(e: Event) {
    match e
    case Saving(dto) => !dto.yaml.Garbled? ==> Clean(Parsed(dto.yaml))
    case Editing(req) => CleanKey(req.dto.name)
  }

  predicate CleanParts(p: Parts) {
    (p.rest.Some? ==> Clean(p.rest.value)) && (p.routes.Some? ==> Clean(p.routes.value))
  }

  lemma {:induction false} MergeNoBracket(o: Tree, n: Tree)
    requires NoBracket(o) && NoBracket(n)
    ensures NoBracket(Add(o, n)) && NoBracket(Update(o, n))
  {
    if o.Obj? && n.Obj? {
      forall k | k in o.m && k in n.m
        ensures NoBracket(Add(o.m[k], n.m[k])) && NoBracket(Update(o.m[k], n.m[k]))
      {
        MergeNoBracket(o.m[k], n.m[k]);
      }
    }
  }

  lemma StoredClean(cur: Option<Tree>, policy: string, source: Tree)
    requires Clean(source) && (cur.Some? ==> Clean(cur.value))
    ensures Clean(StoredTree(cur, policy, source))
  {
    if cur.Some? {
      MergeGoodKeys(cur.value, source);
      MergeNoBracket(cur.value, source);
    }
  }

  lemma TextClean(route: map<string, Tree>, k: string, s: string)
    requires CleanValue(Obj(route)) && CleanKey(k)
    ensures CleanValue(Obj(route[k := Z.TextLeaf(s)])) && CleanValue(Obj(Z.SetUnlessEmpty(route, k, s)))
  {
    CleanWith(route, k, Z.TextLeaf(s));
  }

  lemma FieldKeysClean()
    ensures CleanKey(Z.PATH) && CleanKey(Z.SERVICE_ID) && CleanKey(Z.URL)
    ensures CleanKey(Z.SENSITIVE_HEADERS) && CleanKey(Z.HELPER_SERVICE)
  {
  }

  lemma FieldsClean(route: map<string, Tree>, dto: Z.Route)
    requires CleanValue(Obj(route))
    ensures CleanValue(Obj(Z.WithFields(route, dto)))
  {
    FieldKeysClean();
    TextClean(route, Z.PATH, dto.path);
    var r := route[Z.PATH := Z.TextLeaf(dto.path)];
    TextClean(r, Z.SERVICE_ID, dto.serviceId);
    r := r[Z.SERVICE_ID := Z.TextLeaf(dto.serviceId)];
    TextClean(r, Z.URL, dto.url);
    r := Z.SetUnlessEmpty(r, Z.URL, dto.url);
    TextClean(r, Z.SENSITIVE_HEADERS, dto.sensitiveHeaders);
    r := Z.SetUnlessEmpty(r, Z.SENSITIVE_HEADERS, dto.sensitiveHeaders);
    TextClean(r, Z.HELPER_SERVICE, dto.helperService);
  }

  lemma RoutesClean(routes: Z.Routes, req: Z.Request)
    requires CleanValue(Obj(routes)) && CleanKey(req.dto.name) && Z.Edit(routes, req).Some?
    ensures CleanValue(Obj(Z.Edit(routes, req).value))
  {
    var name := req.dto.name;
    match req
    case Delete(_) => CleanWithout(routes, {name});
    case AddOrUpdate(dto) =>
      var route := if name in routes then routes[name].m else map[];
      assert name in routes ==> CleanValue(routes[name]);
      FieldsClean(route, dto);
      CleanWith(routes, name, Obj(Z.WithFields(route, dto)));
  }

  lemma EditClean(t: Tree, req: Z.Request)
    requires Clean(t) && CleanKey(req.dto.name) && EditTree(t, req).Some?
    ensures Clean(EditTree(t, req).value)
  {
    var z := t.m[ZUUL];
    assert CleanValue(z) && CleanValue(z.m[ROUTES]) && CleanKey(ZUUL) && CleanKey(ROUTES);
    RoutesClean(RoutesIn(t), req);
    var routes := Obj(Z.Edit(RoutesIn(t), req).value);
    CleanWith(z.m, ROUTES, routes);
    CleanWith(map[], ZUUL, Obj(z.m[ROUTES := routes]));
  }

  lemma StepClean(p: Parts, e: Event)
    requires CleanParts(p) && CleanEvent(e)
    ensures CleanParts(After(p, e))
  {
    match e
    case Saving(dto) =>
      if !dto.yaml.Garbled? {
        var source := Parsed(dto.yaml);
        PartsClean(source);
        StoredClean(p.routes, dto.policy, RoutesPart(source));
        StoredClean(p.rest, dto.policy, RestPart(source));
      }
    case Editing(req) =>
      if p.routes.Some? && EditTree(p.routes.value, req).Some? {
        EditClean(p.routes.value, req);
      }
  }

  lemma {:induction false} HistoryClean(p: Parts, es: seq<Event>)
    requires CleanParts(p) && forall i :: 0 <= i < |es| ==> CleanEvent(es[i])
    ensures CleanParts(PartsAfter(p, es))
    decreases |es|
  {
    if es != [] {
      StepClean(p, es[0]);
      HistoryClean(After(p, es[0]), es[1..]);
    }
  }

  // ---------- what the gateway polls ----------

  /** Clean requests for one namespace, which alone has the two ConfigMaps, if any. */
  predicate CleanHistory(w: World, es: seq<Event>, namespaces: seq<string>, ns: string, p: Parts) {
    && Keeps(w, namespaces, ns, p) && CleanParts(p) && AllTarget(es, ns)
    && forall i :: 0 <= i < |es| ==> CleanEvent(es[i])
  }

  /** After any history of saves and edits a poll gives what is made of the two trees
      that they lead to, or finds no configuration if one was never stored. */
  lemma PollAfterHistory(w: World, es: seq<Event>, namespaces: seq<string>, ns: string, p: Parts,
                         gatewayNames: seq<string>, a: Answer, after: World)
    requires CleanHistory(w, es, namespaces, ns, p) && GATEWAY in gatewayNames
    ensures var w1, q := RunAll(w, es, namespaces), PartsAfter(p, es);
            && HoldsParts(w1.store, ns, q)
            && (MayAnswer(w1, namespaces, gatewayNames, GATEWAY, DEFAULT, a, after) ==>
                  if q.rest.None? || q.routes.None? then a == Answer.NotFound
                  else a == PairAnswer(q.rest.value, q.routes.value, w1.store[(ns, GATEWAY)].version))
  {
    var w1, q := RunAll(w, es, namespaces), PartsAfter(p, es);
    HistoryKeepsParts(w, es, namespaces, ns, p);
    HistoryClean(p, es);
    if MayAnswer(w1, namespaces, gatewayNames, GATEWAY, DEFAULT, a, after) {
      PollKept(w1, namespaces, ns, q, gatewayNames, a, after);
    }
  }

  lemma PollKept(w: World, namespaces: seq<string>, ns: string, p: Parts, gatewayNames: seq<string>, a: Answer,
                 after: World)
    requires Keeps(w, namespaces, ns, p) && CleanParts(p) && GATEWAY in gatewayNames
    requires MayAnswer(w, namespaces, gatewayNames, GATEWAY, DEFAULT, a, after)
    ensures if p.rest.None? || p.routes.None? then a == Answer.NotFound
            else a == PairAnswer(p.rest.value, p.routes.value, w.store[(ns, GATEWAY)].version)
  {
    FindsAlone(w, namespaces, ns, GATEWAY);
    FindsAlone(w, namespaces, ns, ROUTE_MAP);
    if p.rest.Some? && p.routes.Some? {
      PollPair(w, ns, p.rest.value, p.routes.value, namespaces, gatewayNames, a, after);
    } else if p.rest.Some? {
      StillNotFound(w, namespaces, GATEWAY, ROUTE_MAP, ns);
    }
  }

  lemma StillNotFound(w: World, namespaces: seq<string>, a: string, b: string, ns: string)
    requires Lookup(w.store, w.cache, namespaces, a) == Some(ns)
    requires Lookup(w.store, w.cache, namespaces, b) == None && (ns, b) !in w.store
    ensures var w1 := ConfigMaps.Step(w, Asking(a), namespaces); Lookup(w1.store, w1.cache, namespaces, b) == None
  {
  }

  /** While no merge panics and no routes are blocked, it gives the view of the one
      tree that saves and edits add up to. */
  lemma PollAfterIntactHistory(w: World, es: seq<Event>, namespaces: seq<string>, ns: string, cur: Option<Tree>,
                               gatewayNames: seq<string>, a: Answer, after: World)
    requires (cur.Some? ==> IsRoot(cur.value)) && CleanHistory(w, es, namespaces, ns, PartsOf(cur))
    requires AllIntact(cur, es) && GATEWAY in gatewayNames
    ensures Total(cur, es).Some? ==> IsRoot(Total(cur, es).value)
    ensures var w1 := RunAll(w, es, namespaces);
            MayAnswer(w1, namespaces, gatewayNames, GATEWAY, DEFAULT, a, after) ==>
              match Total(cur, es)
              case None => a == Answer.NotFound
              case Some(t) => (ns, GATEWAY) in w1.store && a == ViewAnswer(t, w1.store[(ns, GATEWAY)].version)
  {
    HistoryKeepsOneTree(cur, es);
    PollAfterHistory(w, es, namespaces, ns, PartsOf(cur), gatewayNames, a, after);
    HistoryClean(PartsOf(cur), es);
    if Total(cur, es).Some? {
      AddedUpClean(Total(cur, es).value);
      ViewOfParts(Total(cur, es).value, RunAll(w, es, namespaces).store[(ns, GATEWAY)].version);
    }
  }

  /** A tree with clean parts is clean. */
  lemma AddedUpClean(t: Tree)
    requires IsRoot(t) && Clean(RestPart(t)) && Clean(RoutesPart(t))
    ensures Clean(t)
  {
    if t.Obj? && ZUUL in t.m && t.m[ZUUL].Obj? {
      var z, rest := t.m[ZUUL].m, RestPart(t);
      assert CleanValue(rest.m[ZUUL]) && CleanKey(ZUUL);
      if ROUTES in z {
        assert CleanValue(RoutesPart(t).m[ZUUL]) && CleanValue(RoutesPart(t).m[ZUUL].m[ROUTES]) && CleanKey(ROUTES);
        CleanWith((z - {ROUTES}), ROUTES, z[ROUTES]);
        PutBack(z, ROUTES, z[ROUTES]);
      } else {
        assert z - {ROUTES} == z;
      }
      CleanWith(rest.m, ZUUL, Obj(z));
      assert rest.m[ZUUL := Obj(z)] == t.m;
    }
  }

  // ---------- blocked routes ----------

  lemma AddLeafKept(o: Tree, n: Tree, k: string)
    requires o.Obj? && n.Obj? && k in o.m && !o.m[k].Obj?
    ensures k in Add(o, n).m && Add(o, n).m[k] == o.m[k]
  {
  }

  lemma NotExpanded(m: map<string, Tree>)
    requires forall s :: s in m ==> UnderRoutes(s)
    ensures ZUUL !in Expansion(Obj(m))
  {
    if ZUUL in Expansion(Obj(m)) {
      ExpansionKey(m, ZUUL);
    }
  }

  /** After adding a tree with routes to one whose `zuul` is a leaf, a poll serves both:
      the leaf, and under it all of the new routes. */
  lemma BlockedServesBoth(o: Tree, n: Tree)
    requires o.Obj? && n.Obj? && Clean(o) && Clean(n)
    requires ZUUL in o.m && o.m[ZUUL].IsLeaf() && RoutesBlocked(true, o, n)
    ensures var rest, routes := Add(RestPart(o), RestPart(n)), Add(RoutesPart(o), RoutesPart(n));
            match Composed(rest, Some(routes))
            case None => NullElement(Obj(Flat(RoutesPart(n))))
            case Some(kv) =>
              && ZUUL in kv && kv[ZUUL] == o.m[ZUUL]
              && (forall s :: s in Expansion(Obj(Flat(RoutesPart(n)))) ==>
                    s in kv && kv[s] == Expansion(Obj(Flat(RoutesPart(n))))[s])
  {
    var rest, routes := Add(RestPart(o), RestPart(n)), RoutesPart(n);
    BlockedByPolicy(o, n);
    PartsClean(o);
    PartsClean(n);
    MergeGoodKeys(RestPart(o), RestPart(n));
    assert RestPart(o) == o;
    AddLeafKept(o, RestPart(n), ZUUL);
    LeafKey(rest, ZUUL);
    assert OffPrefix(ZUUL);
    PartsFlat(n);
    NotExpanded(Flat(routes));
  }

  /** A `zuul` that is a text, and one new route: the case occurs. */
  lemma BlockedExample()
    ensures var o := Obj(map[ZUUL := Leaf(Str("off"))]);
            var n := Obj(map[ZUUL := Obj(map[ROUTES := Obj(map["user" := Leaf(Str("/user"))])])]);
            RoutesBlocked(true, o, n) && !Panics(Some(o), ADD, n) && Separable(n)
  {
    var n := Obj(map[ZUUL := Obj(map[ROUTES := Obj(map["user" := Leaf(Str("/user"))])])]);
    assert RoutesOnly(n).m[ROUTES] == Obj(map["user" := Leaf(Str("/user"))]);
  }
}
