/** What clients poll is what was saved. */
module PollLaws {
  import opened Trees
  import opened Keys
  import opened Overlay
  import opened Flatten
  import opened Expand
  import opened Yaml
  import opened RouteSplit
  import opened ConfigMaps
  import opened ConfigSave
  import opened ConfigPoll

  // ---------- the outcome is determined ----------

  /** The recombined configuration; none on a panic. */
  ghost function Composed(base: Tree, route: Option<Tree>): Option<map<string, Tree>>
    requires base.Obj?
  {
    if route.None? then Some(Flat(base))
    else if NullElement(Obj(Flat(route.value))) then None
    else Some(Select(Flat(base), OffPrefix) + Expansion(Obj(Flat(route.value))))
  }

  lemma FlattenedIff(t: Tree, kv: map<string, Tree>)
    requires t.Obj? && GoodKeys(t)
    ensures Flattened(t, kv) <==> kv == Flat(t)
  {
    EntriesFunctional(t);
    OverlayDetermined(map[], kv, Entries("", t));
    assert map[] + ToMap(Entries("", t)) == Flat(t);
  }

  lemma ExpandedIff(flat: map<string, Tree>, routes: map<string, Tree>, kv: Option<map<string, Tree>>)
    requires BracketFree(Obj(routes))
    ensures Expanded(flat, routes, kv) <==>
            kv == if NullElement(Obj(routes)) then None else Some(Select(flat, OffPrefix) + Expansion(Obj(routes)))
  {
    if kv.Some? {
      ExpansionOverrides(Select(flat, OffPrefix), kv.value, Obj(routes));
    }
  }

  /** Whatever the order of all the loops, there is one outcome. */
  lemma AssembledIff(base: Tree, route: Option<Tree>, kv: Option<map<string, Tree>>)
    requires base.Obj? && GoodKeys(base)
    requires route.Some? ==> route.value.Obj? && GoodKeys(route.value) && BracketFree(Obj(Flat(route.value)))
    ensures Assembled(base, route, kv) <==> kv == Composed(base, route)
  {
    FlattenedIff(base, Flat(base));
    if route.Some? {
      var routes := Flat(route.value);
      FlattenedIff(route.value, routes);
      ExpandedIff(Flat(base), routes, kv);
      if Assembled(base, route, kv) {
        var flat :| Flattened(base, flat) && exists rs :: Flattened(route.value, rs) && Expanded(flat, rs, kv);
        var rs :| Flattened(route.value, rs) && Expanded(flat, rs, kv);
        FlattenedIff(base, flat);
        FlattenedIff(route.value, rs);
      }
    } else if Assembled(base, route, kv) {
      var flat :| Flattened(base, flat) && kv == Some(flat);
      FlattenedIff(base, flat);
    }
  }

  // ---------- no brackets ----------

  /** No '[' in any object key, nor in the keys that expansion meets inside lists. */
  predicate NoBracket(t: Tree) {
    match t
    case Obj(m) => forall k :: k in m ==> '[' !in k && NoBracket(m[k])
    case List(es) => forall i :: 0 <= i < |es| ==> BracketFree(es[i])
    case _ => true
  }

  lemma {:induction false} NoBracketGet(t: Tree, p: Path)
    requires NoBracket(t) && Get(t, p).Some?
    ensures NoBracket(Get(t, p).value)
    ensures p != [] ==> '[' !in Join(p)
  {
    if p != [] {
      NoBracketGet(t.m[p[0]], p[1..]);
    }
  }

  lemma FlatBracketFree(t: Tree)
    requires t.Obj? && GoodKeys(t) && NoBracket(t)
    ensures forall s :: s in Flat(t) ==> '[' !in s
    ensures BracketFree(Obj(Flat(t)))
  {
    FlatAt(t);
    forall s | s in Flat(t)
      ensures '[' !in s && NoBracket(Flat(t)[s])
    {
      NoBracketGet(t, Split(s));
      JoinSplit(s);
    }
  }

  // ---------- expansion ----------

  predicate NoLists(m: map<string, Tree>) {
    forall s :: s in m ==> !m[s].List?
  }

  lemma SpotKeyStart(t: Tree, spot: seq<Seg>)
    requires SpotValue(t, spot).Some?
    ensures spot[0].k in t.m
    ensures spot[0].Key? ==> SpotKey(spot) == spot[0].k && SpotValue(t, spot) == Some(t.m[spot[0].k])
    ensures spot[0].At? ==> '[' in SpotKey(spot) && t.m[spot[0].k].List?
  {
    if spot[0].At? {
      SpotKeyParts(spot);
    }
  }

  /** A key of the expansion has a '[' or is a key of the map. */
  lemma ExpansionKey(m: map<string, Tree>, s: string)
    requires s in Expansion(Obj(m))
    ensures '[' in s || s in m
    ensures NoLists(m) ==> s in m && Expansion(Obj(m))[s] == m[s]
  {
    var spot := EntryHasSpot("", Obj(m), (s, Expansion(Obj(m))[s]));
    assert "" + SpotKey(spot) == SpotKey(spot);
    SpotKeyStart(Obj(m), spot);
  }

  lemma KeyInExpansion(m: map<string, Tree>, s: string)
    requires s in m && !m[s].List?
    ensures s in Expansion(Obj(m))
  {
    assert "" + SpotKey([Key(s)]) == s;
    SpotGivesEntry("", Obj(m), (s, m[s]), [Key(s)]);
    assert (s, m[s]).0 in KeysOf(ObjectEntries("", Obj(m)));
  }

  /** Only lists are rewritten. */
  lemma ExpansionOfScalars(m: map<string, Tree>)
    requires NoLists(m)
    ensures Expansion(Obj(m)) == m
  {
    if Expansion(Obj(m)) != m {
      var s := Difference(m, Expansion(Obj(m)));
      if s in m {
        KeyInExpansion(m, s);
      }
      ExpansionKey(m, s);
    }
  }

  /** Expanded routes collide with nothing else of the configuration. */
  lemma ExpansionApart(all: map<string, Tree>)
    requires forall s :: s in all ==> '[' !in s
    ensures Select(all, OFF_ROUTES).Keys !! Expansion(Obj(Select(all, UnderRoutes))).Keys
  {
    forall s | s in Expansion(Obj(Select(all, UnderRoutes)))
      ensures s !in Select(all, OFF_ROUTES)
    {
      ExpansionKey(Select(all, UnderRoutes), s);
    }
  }

  // ---------- what was saved is what is polled ----------

  /** What a poll of the gateway should serve: the saved tree flattened, with lists
      of the routes expanded, overridden by the additions. */
  ghost function SavedView(t: Tree): map<string, Tree>
    requires t.Obj?
  {
    Select(Flat(t), OFF_ROUTES) + Expansion(Obj(Select(Flat(t), UnderRoutes)))
  }

  /** Stripping the rest takes nothing away. */
  lemma SelectKept(m: map<string, Tree>)
    ensures Select(Select(m, OFF_ROUTES), OffPrefix) == Select(m, OFF_ROUTES)
  {
    assert forall s :: OFF_ROUTES(s) ==> OffPrefix(s);
  }

  lemma ComposedOfParts(t: Tree)
    requires t.Obj? && GoodKeys(t) && NoBracket(t)
    ensures GoodKeys(RestPart(t)) && GoodKeys(RoutesPart(t)) && BracketFree(Obj(Flat(RoutesPart(t))))
    ensures NullElement(Obj(Select(Flat(t), UnderRoutes))) ==> Composed(RestPart(t), Some(RoutesPart(t))) == None
    ensures !NullElement(Obj(Select(Flat(t), UnderRoutes))) ==>
              Composed(RestPart(t), Some(RoutesPart(t))) == Some(SavedView(t))
  {
    PartsFlat(t);
    FlatBracketFree(t);
    var m := Flat(t);
    assert BracketFree(Obj(Select(m, UnderRoutes)));
    SelectKept(m);
  }

  /** The saved view holds all of the flattened tree: off the routes as it is, and
      under the routes up to the rewriting of lists; nothing hides anything else. */
  lemma SavedViewComplete(t: Tree)
    requires t.Obj? && GoodKeys(t) && NoBracket(t)
    ensures SavedView(t).Keys == Select(Flat(t), OFF_ROUTES).Keys + Expansion(Obj(Select(Flat(t), UnderRoutes))).Keys
    ensures Select(Flat(t), OFF_ROUTES).Keys !! Expansion(Obj(Select(Flat(t), UnderRoutes))).Keys
    ensures NoLists(Select(Flat(t), UnderRoutes)) ==> SavedView(t) == Flat(t)
  {
    FlatBracketFree(t);
    ExpansionApart(Flat(t));
    if NoLists(Select(Flat(t), UnderRoutes)) {
      ExpansionOfScalars(Select(Flat(t), UnderRoutes));
      SelectParts(Flat(t), UnderRoutes, OFF_ROUTES);
    }
  }

  // ---------- the poll of a gateway whose parts are stored ----------

  /** Non-empty, dot-free and bracket-free keys. */
  predicate CleanValue(v: Tree) {
    GoodKeys(v) && NoBracket(v)
  }

  predicate Clean(t: Tree) {
    IsRoot(t) && CleanValue(t)
  }

  /** What the gateway gets while its two ConfigMaps hold these trees, whatever they are. */
  ghost function PairAnswer(rest: Tree, routes: Tree, version: string): Answer
    requires IsRoot(rest) && IsRoot(routes)
  {
    match Composed(Readable(rest), Some(Readable(routes)))
    case None => Panic
    case Some(kv) => Served(EnvironmentOf(GATEWAY, DEFAULT, version, kv + CONFIG_SERVER_ADDITIONS))
  }

  /** What it gets while they hold the parts of t. */
  ghost function ViewAnswer(t: Tree, version: string): Answer
    requires IsRoot(t)
  {
    if NullElement(Obj(Select(Flat(Readable(t)), UnderRoutes))) then Panic
    else Served(EnvironmentOf(GATEWAY, DEFAULT, version, SavedView(Readable(t)) + CONFIG_SERVER_ADDITIONS))
  }

  lemma ViewOfParts(t: Tree, version: string)
    requires Clean(t)
    ensures PairAnswer(RestPart(t), RoutesPart(t), version) == ViewAnswer(t, version)
  {
    var r := Readable(t);
    assert Readable(RestPart(t)) == RestPart(r) && RoutesPart(t) == RoutesPart(r);
    ComposedOfParts(r);
  }

  /** The default profile at a place holds a tree. */
  predicate HoldsAt(store: Store, place: Place, t: Tree) {
    IsRoot(t) && place in store && TextAt(store, place, DEFAULT) == Printed(t)
  }

  lemma ServePair(store: Store, ns: string, rest: Tree, routes: Tree, a: Answer)
    requires HoldsAt(store, (ns, GATEWAY), rest) && HoldsAt(store, (ns, ROUTE_MAP), routes)
    requires Clean(rest) && Clean(routes)
    requires MayServe(store, (ns, GATEWAY), Some((ns, ROUTE_MAP)), GATEWAY, DEFAULT, a)
    ensures a == PairAnswer(rest, routes, store[(ns, GATEWAY)].version)
  {
    var at, base, route := (ns, GATEWAY), Readable(rest), Some(Readable(routes));
    FlatBracketFree(route.value);
    var kv :| Assembled(base, route, kv) && a == AnswerOf(store, at, GATEWAY, DEFAULT, kv);
    AssembledIff(base, route, kv);
  }

  lemma StillFound(w: World, namespaces: seq<string>, a: string, b: string, ns: string)
    requires Lookup(w.store, w.cache, namespaces, a) == Some(ns)
    requires Lookup(w.store, w.cache, namespaces, b) == Some(ns)
    ensures var w1 := Step(w, Asking(a), namespaces); Lookup(w1.store, w1.cache, namespaces, b) == Some(ns)
  {
  }

  /** Both queries of the poll find the ConfigMaps of one namespace. */
  lemma PollPair(w: World, ns: string, rest: Tree, routes: Tree, namespaces: seq<string>, gatewayNames: seq<string>,
                 a: Answer, after: World)
    requires HoldsAt(w.store, (ns, GATEWAY), rest) && HoldsAt(w.store, (ns, ROUTE_MAP), routes)
    requires Clean(rest) && Clean(routes) && GATEWAY in gatewayNames
    requires Lookup(w.store, w.cache, namespaces, GATEWAY) == Some(ns)
    requires Lookup(w.store, w.cache, namespaces, ROUTE_MAP) == Some(ns)
    requires MayAnswer(w, namespaces, gatewayNames, GATEWAY, DEFAULT, a, after)
    ensures a == PairAnswer(rest, routes, w.store[(ns, GATEWAY)].version)
  {
    StillFound(w, namespaces, GATEWAY, ROUTE_MAP, ns);
    ServePair(w.store, ns, rest, routes, a);
  }

  // ---------- what was saved is what is polled ----------

  /** Both writes of a save leave their namespace in the cache. */
  lemma FoundAfterWrites(w: World, cache: map<string, string>, namespaces: seq<string>, a: string, b: string,
                         ns: string)
    requires w.cache == cache[b := ns][a := ns] && (ns, a) in w.store && (ns, b) in w.store
    ensures Lookup(w.store, w.cache, namespaces, a) == Lookup(w.store, w.cache, namespaces, b) == Some(ns)
  {
  }

  lemma OverrideStores(w: World, dto: SaveConfig)
    requires Valid(dto) && dto.service == GATEWAY && dto.profile == DEFAULT && dto.policy == OVERRIDE
    requires !dto.yaml.Garbled?
    ensures var r, t, ns := SaveEffect(w, dto), Parsed(dto.yaml), dto.namespace;
            && r.0 == (if Separable(t) then Saved else Fault)
            && (Separable(t) ==>
                  && HoldsAt(r.1.store, (ns, GATEWAY), RestPart(t))
                  && HoldsAt(r.1.store, (ns, ROUTE_MAP), RoutesPart(t))
                  && r.1.store[(ns, GATEWAY)].version == dto.version
                  && r.1.cache == w.cache[ROUTE_MAP := ns][GATEWAY := ns])
  {
    var t, ns := Parsed(dto.yaml), dto.namespace;
    if Separable(t) {
      var first := RouteDto(dto, Printed(RoutesPart(t)));
      assert Put(w, first, RoutesPart(t)) ==
             (Saved, World(w.store[(ns, ROUTE_MAP) := NewV1ConfigMap(first)], w.cache[ROUTE_MAP := ns]));
    }
  }

  lemma PartsClean(t: Tree)
    requires Clean(t)
    ensures Clean(RestPart(t)) && Clean(RoutesPart(t))
  {
    assert GoodKey(ZUUL) && GoodKey(ROUTES) && '[' !in ZUUL && '[' !in ROUTES;
    if t.Obj? && ZUUL in t.m && t.m[ZUUL].Obj? {
      var z := t.m[ZUUL];
      CleanWithout(z.m, {ROUTES});
      CleanWith(t.m, ZUUL, Obj(z.m - {ROUTES}));
      if ROUTES in z.m {
        CleanWith(map[], ROUTES, z.m[ROUTES]);
      }
    }
    CleanWith(map[], ZUUL, RoutesOnly(t));
  }

  lemma CleanWith(m: map<string, Tree>, k: string, v: Tree)
    requires CleanValue(Obj(m)) && GoodKey(k) && '[' !in k && CleanValue(v)
    ensures CleanValue(Obj(m[k := v]))
  {
  }

  lemma CleanWithout(m: map<string, Tree>, gone: set<string>)
    requires CleanValue(Obj(m))
    ensures CleanValue(Obj(m - gone))
  {
  }

  /** Saving a gateway configuration with policy "override" and polling it gives back
      the saved tree: flattened, lists of the routes expanded, additions on top.
      Saving panics exactly on a null `zuul`, polling exactly on a null in a list. */
  lemma SaveThenPoll(w: World, dto: SaveConfig, namespaces: seq<string>, gatewayNames: seq<string>,
                     a: Answer, after: World)
    requires Valid(dto) && dto.service == GATEWAY && dto.profile == DEFAULT && dto.policy == OVERRIDE
    requires !dto.yaml.Garbled? && Clean(Parsed(dto.yaml))
    requires GATEWAY in gatewayNames
    ensures SaveEffect(w, dto).0 == if Separable(Parsed(dto.yaml)) then Saved else Fault
    ensures Separable(Parsed(dto.yaml)) &&
            MayAnswer(SaveEffect(w, dto).1, namespaces, gatewayNames, GATEWAY, DEFAULT, a, after) ==>
              a == ViewAnswer(Parsed(dto.yaml), dto.version)
  {
    var t, w1, ns := Parsed(dto.yaml), SaveEffect(w, dto).1, dto.namespace;
    OverrideStores(w, dto);
    if Separable(t) && MayAnswer(w1, namespaces, gatewayNames, GATEWAY, DEFAULT, a, after) {
      FoundAfterWrites(w1, w.cache, namespaces, GATEWAY, ROUTE_MAP, ns);
      PartsClean(t);
      PollPair(w1, ns, RestPart(t), RoutesPart(t), namespaces, gatewayNames, a, after);
      ViewOfParts(t, dto.version);
    }
  }
}
