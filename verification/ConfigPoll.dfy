/** `Poll`: the flattened configuration of a service, the gateway's two parts recombined. */
module ConfigPoll {
  import opened Trees
  import opened Keys
  import opened Overlay
  import opened Flatten
  import opened Expand
  import opened Yaml
  import opened RouteSplit
  import opened ConfigMaps
  import opened ConfigSave

  datatype PropertySource = PropertySource(name: string, source: map<string, Tree>)
  datatype Environment = Environment(name: string, version: string, profiles: seq<string>, sources: seq<PropertySource>)

  /** `Panic` is a null inside a list of the routes. */
  datatype Answer = BadPath | NotFound | Panic | Served(env: Environment)

  const CONFIG_SERVER_ADDITIONS: map<string, Tree> := map[
    "spring.cloud.config.allowOverride" := Leaf(Bool(true)),
    "spring.cloud.config.failFast" := Leaf(Bool(true)),
    "spring.cloud.config.overrideNone" := Leaf(Bool(false)),
    "spring.cloud.config.overrideSystemProperties" := Leaf(Bool(false)),
    "spring.sleuth.integration.enabled" := Leaf(Bool(false)),
    "spring.sleuth.scheduled.enabled" := Leaf(Bool(false)),
    "sampler.percentage" := Leaf(Num(1.0))
  ]

  const ROUTES_PREFIX := "zuul.routes."

  predicate OffPrefix(s: string) {
    !HasPrefix(s, ROUTES_PREFIX)
  }

  // ---------- what a poll may answer ----------

  ghost predicate Flattened(t: Tree, kv: map<string, Tree>) {
    Overlays(map[], kv, Entries("", t))
  }

  /** The routes are expanded into the stripped configuration; none on a panic. */
  ghost predicate Expanded(flat: map<string, Tree>, routes: map<string, Tree>, kv: Option<map<string, Tree>>) {
    && (kv.None? <==> NullElement(Obj(routes)))
    && (kv.Some? ==> Overlays(Select(flat, OffPrefix), kv.value, ObjectEntries("", Obj(routes))))
  }

  /** What the code may make of a configuration and, for a gateway, the routes. */
  ghost predicate Assembled(base: Tree, route: Option<Tree>, kv: Option<map<string, Tree>>) {
    exists flat :: Flattened(base, flat) &&
      match route
      case None => kv == Some(flat)
      case Some(r) => exists routes :: Flattened(r, routes) && Expanded(flat, routes, kv)
  }

  function TextAt(store: Store, place: Place, version: string): Text
    requires place in store
  {
    DataAt(store[place], ConfigMapProfileKey(version))
  }

  /** The tree stored for a profile. */
  function TreeAt(store: Store, place: Place, version: string): (t: Tree)
    requires place in store && !TextAt(store, place, version).Garbled?
    ensures t.Obj?
  {
    Readable(Parsed(TextAt(store, place, version)))
  }

  predicate HasTree(store: Store, place: Place, version: string) {
    place in store && !TextAt(store, place, version).Garbled?
  }

  /** Where a query of a poll finds a ConfigMap with a text that parses. */
  function Found(w: World, namespaces: seq<string>, name: string, version: string): (at: Option<Place>)
    ensures at.Some? ==> HasTree(w.store, at.value, version)
  {
    match Lookup(w.store, w.cache, namespaces, name)
    case None => None
    case Some(ns) => if HasTree(w.store, (ns, name), version) then Some((ns, name)) else None
  }

  function EnvironmentOf(service: string, version: string, configMapVersion: string,
                         source: map<string, Tree>): Environment {
    Environment(service, configMapVersion, [version],
                [PropertySource(service + "-" + version + "-" + configMapVersion, source)])
  }

  ghost predicate MayServe(store: Store, at: Place, route: Option<Place>, service: string, version: string, a: Answer)
    requires HasTree(store, at, version) && (route.Some? ==> HasTree(store, route.value, version))
  {
    var base := TreeAt(store, at, version);
    var r := if route.Some? then Some(TreeAt(store, route.value, version)) else None;
    exists kv :: Assembled(base, r, kv) && a == AnswerOf(store, at, service, version, kv)
  }

  function AnswerOf(store: Store, at: Place, service: string, version: string, kv: Option<map<string, Tree>>): Answer
    requires at in store
  {
    if kv.None? then Panic
    else Served(EnvironmentOf(service, version, store[at].version, kv.value + CONFIG_SERVER_ADDITIONS))
  }

  lemma ServesPlain(store: Store, at: Place, service: string, version: string, flat: map<string, Tree>)
    requires HasTree(store, at, version) && Flattened(TreeAt(store, at, version), flat)
    ensures MayServe(store, at, None, service, version, AnswerOf(store, at, service, version, Some(flat)))
  {
    assert Assembled(TreeAt(store, at, version), None, Some(flat));
  }

  lemma ServesGateway(store: Store, at: Place, route: Place, service: string, version: string,
                      flat: map<string, Tree>, routes: map<string, Tree>, kv: Option<map<string, Tree>>)
    requires HasTree(store, at, version) && HasTree(store, route, version)
    requires Flattened(TreeAt(store, at, version), flat) && Flattened(TreeAt(store, route, version), routes)
    requires Expanded(flat, routes, kv)
    ensures MayServe(store, at, Some(route), service, version, AnswerOf(store, at, service, version, kv))
  {
    assert Assembled(TreeAt(store, at, version), Some(TreeAt(store, route, version)), kv);
  }

  ghost predicate MayAnswer(w: World, namespaces: seq<string>, gatewayNames: seq<string>,
                            service: string, version: string, a: Answer, after: World) {
    if service == "" || version == "" then a == BadPath && after == w
    else
      var w1 := Step(w, Asking(service), namespaces);
      var at := Found(w, namespaces, service, version);
      if at.None? then a == Answer.NotFound && after == w1
      else if service !in gatewayNames then MayServe(w.store, at.value, None, service, version, a) && after == w1
      else
        var route := Found(w1, namespaces, ROUTE_MAP, version);
        && after == Step(w1, Asking(ROUTE_MAP), namespaces)
        && if route.None? then a == Answer.NotFound else MayServe(w.store, at.value, route, service, version, a)
  }

  // ---------- the code ----------

  method IsGateway(gatewayNames: seq<string>, service: string) returns (b: bool)
    ensures b <==> service in gatewayNames
  {
    for i := 0 to |gatewayNames|
      invariant service !in gatewayNames[..i]
    {
      if gatewayNames[i] == service {
        return true;
      }
    }
    b := false;
  }

  /** Deletes, in any order, the keys below the routes. */
  method StripRoutes(kvMap: FlatMap)
    modifies kvMap
    ensures kvMap.kv == Select(old(kvMap.kv), OffPrefix)
  {
    ghost var before := kvMap.kv;
    var todo := kvMap.kv.Keys;
    while todo != {}
      invariant todo <= before.Keys
      invariant kvMap.kv == map s | s in before && (s in todo || OffPrefix(s)) :: before[s]
      decreases todo
    {
      var k :| k in todo;
      if HasPrefix(k, ROUTES_PREFIX) {
        kvMap.kv := kvMap.kv - {k};
      }
      todo := todo - {k};
    }
  }

  /** Stores the additions in any order. */
  method AppendAdditions(kvMap: FlatMap, additions: map<string, Tree>)
    modifies kvMap
    ensures kvMap.kv == old(kvMap.kv) + additions
  {
    ghost var before := kvMap.kv;
    var todo := additions.Keys;
    while todo != {}
      invariant todo <= additions.Keys
      invariant kvMap.kv == before + (additions - todo)
      decreases todo
    {
      var k :| k in todo;
      kvMap.kv := kvMap.kv[k := additions[k]];
      todo := todo - {k};
    }
  }

  /** Deletes what the configuration says about routes and stores the given ones. */
  method ReplaceRoutes(kvMap: FlatMap, routeMap: FlatMap) returns (ok: bool, ghost kv: Option<map<string, Tree>>)
    requires kvMap != routeMap
    modifies kvMap
    ensures Expanded(old(kvMap.kv), routeMap.kv, kv)
    ensures ok <==> kv.Some?
    ensures ok ==> kv == Some(kvMap.kv)
  {
    StripRoutes(kvMap);
    ok := ProcessZuulRoot(kvMap, Obj(routeMap.kv), "");
    kv := if ok then Some(kvMap.kv) else None;
  }

  /** `Poll` builds the key of a profile anew. */
  lemma SameKey(version: string, key: string)
    requires key == (if version != DEFAULT then "application" + ("-" + version) else "application") + ".yml"
    ensures key == ConfigMapProfileKey(version)
  {
    assert "application" + ("-" + version) == "application-" + version;
  }

  class PollService {
    const operator: ConfigMapOperator
    const gatewayNames: seq<string>

    constructor (operator: ConfigMapOperator, gatewayNames: seq<string>)
      ensures this.operator == operator && this.gatewayNames == gatewayNames
    {
      this.operator, this.gatewayNames := operator, gatewayNames;
    }

    method GetConfigFromConfigMap(service: string, version: string)
      returns (kvMap: Option<FlatMap>, configMapVersion: string)
      modifies operator
      ensures operator.State() == Step(old(operator.State()), Asking(service), operator.namespaces)
      ensures match Found(old(operator.State()), operator.namespaces, service, version)
              case None => kvMap == None
              case Some(at) =>
                && configMapVersion == operator.api.store[at].version
                && kvMap.Some? && fresh(kvMap.value)
                && Flattened(TreeAt(operator.api.store, at, version), kvMap.value.kv)
    {
      kvMap, configMapVersion := None, "";
      var configMap := operator.QueryConfigMapByName(service);
      if configMap.Some? {
        var application := "application";
        if version != DEFAULT {
          application := application + ("-" + version);
        }
        application := application + ".yml";
        SameKey(version, application);
        var text := DataAt(configMap.value, application);
        if text.Garbled? {
          return;
        }
        var single := ConvertRecursiveMapToSingleMap(Readable(Parsed(text)));
        kvMap, configMapVersion := Some(single), configMap.value.version;
      }
    }

    method Poll(service: string, version: string) returns (a: Answer)
      modifies operator
      ensures MayAnswer(old(operator.State()), operator.namespaces, gatewayNames, service, version, a, operator.State())
    {
      if service == "" || version == "" {
        return BadPath;
      }
      var kvMap, configMapVersion := GetConfigFromConfigMap(service, version);
      if kvMap.None? {
        return Answer.NotFound;
      }
      ghost var store, flat := operator.api.store, kvMap.value.kv;
      ghost var at := Found(old(operator.State()), operator.namespaces, service, version).value;
      var gateway := IsGateway(gatewayNames, service);
      if gateway {
        ghost var route := Found(operator.State(), operator.namespaces, ROUTE_MAP, version);
        var routeMap, _ := GetConfigFromConfigMap(ROUTE_MAP, version);
        if routeMap.None? {
          return Answer.NotFound;
        }
        var ok;
        ghost var kv;
        ok, kv := ReplaceRoutes(kvMap.value, routeMap.value);
        ServesGateway(store, at, route.value, service, version, flat, routeMap.value.kv, kv);
        if !ok {
          return Panic;
        }
      } else {
        ServesPlain(store, at, service, version, flat);
      }
      AppendAdditions(kvMap.value, CONFIG_SERVER_ADDITIONS);
      a := Served(EnvironmentOf(service, version, configMapVersion, kvMap.value.kv));
    }
  }
}
