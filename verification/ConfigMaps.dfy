/** ConfigMaps in the cluster, and the operator that remembers where each one lives. */
module ConfigMaps {
  import opened Trees
  import opened Yaml

  /** A ConfigMap's version annotation and its profiles' texts. */
  datatype ConfigMap = ConfigMap(version: string, data: map<string, Text>)

  /** Namespace and name. */
  type Place = (string, string)
  type Store = map<Place, ConfigMap>

  datatype SaveConfig = SaveConfig(service: string, version: string, profile: string,
                                   namespace: string, policy: string, yaml: Text)

  const DEFAULT := "default"

  function ConfigMapProfileKey(profile: string): string {
    if profile != DEFAULT then "application-" + profile + ".yml" else "application.yml"
  }

  /** Different profiles never share a key. */
  lemma ProfileKeyInjective(p: string, q: string)
    ensures ConfigMapProfileKey(p) == ConfigMapProfileKey(q) <==> p == q
  {
    var a, b := ConfigMapProfileKey(p), ConfigMapProfileKey(q);
    assert p != DEFAULT ==> a[|"application"|] == '-' && a[|"application-"|..|a| - |".yml"|] == p;
    assert q != DEFAULT ==> b[|"application"|] == '-' && b[|"application-"|..|b| - |".yml"|] == q;
    assert ConfigMapProfileKey(DEFAULT)[|"application"|] == '.';
  }

  /** What a read of a Go map yields for a missing key. */
  function DataAt(cm: ConfigMap, key: string): Text {
    if key in cm.data then cm.data[key] else Empty
  }

  function PlaceOf(dto: SaveConfig): Place {
    (dto.namespace, dto.service)
  }

  /** All the data there will be: the one profile of dto. */
  function NewV1ConfigMap(dto: SaveConfig): ConfigMap {
    ConfigMap(dto.version, map[ConfigMapProfileKey(dto.profile) := dto.yaml])
  }

  // ---------- the queries, as functions ----------

  /** The uncached search: the first monitored namespace with a ConfigMap of this name. */
  function Scan(store: Store, namespaces: seq<string>, name: string): (r: Option<string>)
    ensures r.Some? ==> (r.value, name) in store
  {
    if namespaces == [] then None
    else if (namespaces[0], name) in store then Some(namespaces[0])
    else Scan(store, namespaces[1..], name)
  }

  /** Where a cached query looks: at the remembered place if the ConfigMap is still there. */
  function Lookup(store: Store, cache: map<string, string>, namespaces: seq<string>, name: string): (r: Option<string>)
    ensures r.Some? ==> (r.value, name) in store
  {
    if name in cache && (cache[name], name) in store then Some(cache[name])
    else Scan(store, namespaces, name)
  }

  function Remember(cache: map<string, string>, name: string, ns: Option<string>): map<string, string> {
    if ns.Some? then cache[name := ns.value] else cache
  }

  lemma {:induction false} ScanIsFirst(store: Store, namespaces: seq<string>, name: string)
    ensures match Scan(store, namespaces, name)
            case None => forall ns :: ns in namespaces ==> (ns, name) !in store
            case Some(ns) => (ns, name) in store && exists i ::
              && 0 <= i < |namespaces| && namespaces[i] == ns
              && forall j :: 0 <= j < i ==> (namespaces[j], name) !in store
  {
    if namespaces != [] && (namespaces[0], name) !in store {
      ScanIsFirst(store, namespaces[1..], name);
      var r := Scan(store, namespaces, name);
      if r.Some? {
        var i :| 0 <= i < |namespaces| - 1 && namespaces[1..][i] == r.value
                 && forall j :: 0 <= j < i ==> (namespaces[1..][j], name) !in store;
        assert namespaces[i + 1] == r.value;
        forall j | 0 <= j < i + 1
          ensures (namespaces[j], name) !in store
        {
          assert j > 0 ==> namespaces[j] == namespaces[1..][j - 1];
        }
      }
    }
  }

  // ---------- histories ----------

  /** The stored objects and the operator's cache. */
  datatype World = World(store: Store, cache: map<string, string>)

  /** Requests, and edits that others make in the cluster. */
  datatype Event =
    | Creating(dto: SaveConfig)
    | Updating(dto: SaveConfig)
    | Asking(name: string)
    | Outside(place: Place, now: Option<ConfigMap>)

  function Step(w: World, e: Event, namespaces: seq<string>): World {
    match e
    case Creating(dto) =>
      if PlaceOf(dto) in w.store then w
      else World(w.store[PlaceOf(dto) := NewV1ConfigMap(dto)], w.cache[dto.service := dto.namespace])
    case Updating(dto) =>
      if PlaceOf(dto) !in w.store then w
      else World(w.store[PlaceOf(dto) := NewV1ConfigMap(dto)], w.cache[dto.service := dto.namespace])
    case Asking(name) =>
      World(w.store, Remember(w.cache, name, Lookup(w.store, w.cache, namespaces, name)))
    case Outside(place, now) =>
      World(if now.Some? then w.store[place := now.value] else w.store - {place}, w.cache)
  }

  // ---------- the cluster and the operator ----------

  /** The part of the Kubernetes API that the config server uses. */
  class ApiServer {
    var store: Store

    constructor ()
      ensures store == map[]
    {
      store := map[];
    }

    method Get(ns: string, name: string) returns (r: Option<ConfigMap>)
      ensures r == if (ns, name) in store then Some(store[(ns, name)]) else None
    {
      r := if (ns, name) in store then Some(store[(ns, name)]) else None;
    }

    /** Refused if it exists. */
    method Create(place: Place, cm: ConfigMap) returns (r: Option<ConfigMap>)
      modifies this
      ensures place in old(store) ==> r == None && store == old(store)
      ensures place !in old(store) ==> r == Some(cm) && store == old(store)[place := cm]
    {
      if place in store {
        return None;
      }
      store := store[place := cm];
      r := Some(cm);
    }

    /** Replaces the whole object; refused if there is none. */
    method Update(place: Place, cm: ConfigMap) returns (r: Option<ConfigMap>)
      modifies this
      ensures place !in old(store) ==> r == None && store == old(store)
      ensures place in old(store) ==> r == Some(cm) && store == old(store)[place := cm]
    {
      if place !in store {
        return None;
      }
      store := store[place := cm];
      r := Some(cm);
    }
  }

  class ConfigMapOperator {
    const api: ApiServer
    const namespaces: seq<string>
    var appNamespace: map<string, string>

    constructor (api: ApiServer, namespaces: seq<string>)
      ensures this.api == api && this.namespaces == namespaces && appNamespace == map[]
    {
      this.api, this.namespaces, appNamespace := api, namespaces, map[];
    }

    ghost function State(): World
      reads this, api
    {
      World(api.store, appNamespace)
    }

    method QueryConfigMapByName(name: string) returns (r: Option<ConfigMap>)
      modifies this
      ensures State() == Step(old(State()), Asking(name), namespaces)
      ensures var at := Lookup(api.store, old(appNamespace), namespaces, name);
              r == if at.Some? then Some(api.store[(at.value, name)]) else None
    {
      var ns;
      r, ns := QueryConfigMapAndNamespaceByName(name);
    }

    method QueryConfigMapAndNamespaceByName(name: string) returns (r: Option<ConfigMap>, ns: string)
      modifies this
      ensures State() == Step(old(State()), Asking(name), namespaces)
      ensures match Lookup(api.store, old(appNamespace), namespaces, name)
              case Some(n) => r == Some(api.store[(n, name)]) && ns == n
              case None => r == None && ns == ""
    {
      if name in appNamespace {
        r := api.Get(appNamespace[name], name);
        if r.Some? {
          assert appNamespace[name := appNamespace[name]] == appNamespace;
          return r, appNamespace[name];
        }
      }
      for i := 0 to |namespaces|
        invariant appNamespace == old(appNamespace)
        invariant Scan(api.store, namespaces, name) == Scan(api.store, namespaces[i..], name)
      {
        r := api.Get(namespaces[i], name);
        if r.Some? {
          appNamespace := appNamespace[name := namespaces[i]];
          return r, namespaces[i];
        }
      }
      r, ns := None, "";
    }

    method CreateConfigMap(dto: SaveConfig) returns (r: Option<ConfigMap>)
      modifies this, api
      ensures State() == Step(old(State()), Creating(dto), namespaces)
      ensures r == if PlaceOf(dto) in old(api.store) then None else Some(NewV1ConfigMap(dto))
    {
      r := api.Create(PlaceOf(dto), NewV1ConfigMap(dto));
      if r.Some? {
        appNamespace := appNamespace[dto.service := dto.namespace];
      }
    }

    method UpdateConfigMap(dto: SaveConfig) returns (r: Option<ConfigMap>)
      modifies this, api
      ensures State() == Step(old(State()), Updating(dto), namespaces)
      ensures r == if PlaceOf(dto) !in old(api.store) then None else Some(NewV1ConfigMap(dto))
    {
      r := api.Update(PlaceOf(dto), NewV1ConfigMap(dto));
      if r.Some? {
        appNamespace := appNamespace[dto.service := dto.namespace];
      }
    }

    method QueryConfigMap(name: string, namespace: string) returns (r: Option<ConfigMap>)
      ensures r == if (namespace, name) in api.store then Some(api.store[(namespace, name)]) else None
    {
      r := api.Get(namespace, name);
    }
  }

  // ---------- the cache never changes an answer ----------

  function Run(w: World, es: seq<Event>, namespaces: seq<string>): World
    decreases |es|
  {
    if es == [] then w else Run(Step(w, es[0], namespaces), es[1..], namespaces)
  }

  /** The config server's own writes go to monitored namespaces. */
  predicate WritesMonitored(es: seq<Event>, namespaces: seq<string>) {
    forall i :: 0 <= i < |es| ==> match es[i]
                                  case Creating(dto) => dto.namespace in namespaces
                                  case Updating(dto) => dto.namespace in namespaces
                                  case _ => true
  }

  predicate CacheMonitored(cache: map<string, string>, namespaces: seq<string>) {
    forall name :: name in cache ==> cache[name] in namespaces
  }

  predicate AtMostOne(store: Store, namespaces: seq<string>, name: string) {
    forall a, b :: a in namespaces && b in namespaces && (a, name) in store && (b, name) in store ==> a == b
  }

  lemma {:induction false} RunKeepsCacheMonitored(w: World, es: seq<Event>, namespaces: seq<string>)
    requires CacheMonitored(w.cache, namespaces) && WritesMonitored(es, namespaces)
    ensures CacheMonitored(Run(w, es, namespaces).cache, namespaces)
    decreases |es|
  {
    if es != [] {
      if es[0].Asking? {
        ScanIsFirst(w.store, namespaces, es[0].name);
      }
      assert forall i :: 0 <= i < |es| - 1 ==> es[1..][i] == es[i + 1];
      RunKeepsCacheMonitored(Step(w, es[0], namespaces), es[1..], namespaces);
    }
  }

  lemma CachedAnswer(store: Store, cache: map<string, string>, namespaces: seq<string>, name: string)
    requires CacheMonitored(cache, namespaces) && AtMostOne(store, namespaces, name)
    ensures Lookup(store, cache, namespaces, name) == Scan(store, namespaces, name)
  {
    ScanIsFirst(store, namespaces, name);
  }

  /** After every history the cached query answers what the uncached scan would,
      if the name lives in at most one monitored namespace at that time. */
  lemma CacheNeverChangesAnswer(store: Store, es: seq<Event>, namespaces: seq<string>, name: string)
    requires WritesMonitored(es, namespaces)
    requires AtMostOne(Run(World(store, map[]), es, namespaces).store, namespaces, name)
    ensures var w := Run(World(store, map[]), es, namespaces);
            Lookup(w.store, w.cache, namespaces, name) == Scan(w.store, namespaces, name)
  {
    var w := Run(World(store, map[]), es, namespaces);
    RunKeepsCacheMonitored(World(store, map[]), es, namespaces);
    CachedAnswer(w.store, w.cache, namespaces, name);
  }

  /** What a create, an update or a query leads the cache to. */
  lemma Remembers(w: World, e: Event, namespaces: seq<string>, name: string, ns: string)
    requires match e
             case Creating(dto) => name == dto.service && ns == dto.namespace && (ns, name) !in w.store
             case Updating(dto) => name == dto.service && ns == dto.namespace && (ns, name) in w.store
             case Asking(asked) => name == asked && Lookup(w.store, w.cache, namespaces, name) == Some(ns)
             case Outside(_, _) => false
    ensures Sticks(Step(w, e, namespaces), name, ns)
  {
  }

  /** The answer is remembered, and still there. */
  predicate Sticks(w: World, name: string, ns: string) {
    (ns, name) in w.store && name in w.cache && w.cache[name] == ns
  }

  /** It neither takes the ConfigMap away nor writes one of the name elsewhere. */
  predicate Spares(e: Event, name: string, ns: string) {
    match e
    case Creating(dto) => dto.service == name ==> dto.namespace == ns
    case Updating(dto) => dto.service == name ==> dto.namespace == ns
    case Asking(_) => true
    case Outside(place, now) => place == (ns, name) ==> now.Some?
  }

  /** The answer then stays the same, whatever others store in namespaces scanned before. */
  lemma {:induction false} AnswerSticks(w: World, es: seq<Event>, namespaces: seq<string>, name: string, ns: string)
    requires Sticks(w, name, ns) && forall i :: 0 <= i < |es| ==> Spares(es[i], name, ns)
    ensures Sticks(Run(w, es, namespaces), name, ns)
    ensures Lookup(Run(w, es, namespaces).store, Run(w, es, namespaces).cache, namespaces, name) == Some(ns)
    decreases |es|
  {
    if es != [] {
      assert Spares(es[0], name, ns);
      assert forall i :: 0 <= i < |es| - 1 ==> es[1..][i] == es[i + 1];
      AnswerSticks(Step(w, es[0], namespaces), es[1..], namespaces, name, ns);
    }
  }

  /** The condition cannot be weakened: a name in two monitored namespaces has a
      history after which the two answers differ. */
  lemma CacheSafeIffAtMostOne(store: Store, namespaces: seq<string>, name: string)
    ensures AtMostOne(store, namespaces, name) <==>
            forall cache :: CacheMonitored(cache, namespaces) ==>
              Lookup(store, cache, namespaces, name) == Scan(store, namespaces, name)
  {
    if AtMostOne(store, namespaces, name) {
      forall cache | CacheMonitored(cache, namespaces)
        ensures Lookup(store, cache, namespaces, name) == Scan(store, namespaces, name)
      {
        CachedAnswer(store, cache, namespaces, name);
      }
    } else {
      var b := TwoPlaces(store, namespaces, name);
      assert CacheMonitored(map[name := b], namespaces);
      assert Lookup(store, map[name := b], namespaces, name) == Some(b);
    }
  }

  /** A monitored namespace that holds the name but is not the first to do so. */
  lemma TwoPlaces(store: Store, namespaces: seq<string>, name: string) returns (b: string)
    requires !AtMostOne(store, namespaces, name)
    ensures b in namespaces && (b, name) in store && Scan(store, namespaces, name) != Some(b)
  {
    var x, y :| x in namespaces && y in namespaces && (x, name) in store && (y, name) in store && x != y;
    b := if Scan(store, namespaces, name) == Some(x) then y else x;
  }

  /** One update of the later copy is such a history. */
  lemma StaleAnswerReachable(store: Store, namespaces: seq<string>, name: string) returns (e: Event)
    requires !AtMostOne(store, namespaces, name)
    ensures WritesMonitored([e], namespaces)
    ensures var w := Run(World(store, map[]), [e], namespaces);
            && w.store.Keys == store.Keys
            && Lookup(w.store, w.cache, namespaces, name) != Scan(w.store, namespaces, name)
  {
    var b := TwoPlaces(store, namespaces, name);
    var dto := SaveConfig(name, "", DEFAULT, b, "override", Empty);
    e := Updating(dto);
    var w := Step(World(store, map[]), e, namespaces);
    assert Run(w, [], namespaces) == w == Run(World(store, map[]), [e], namespaces);
    assert w.store.Keys == store.Keys;
    SameScan(store, w.store, namespaces, name);
  }

  lemma {:induction false} SameScan(s: Store, t: Store, namespaces: seq<string>, name: string)
    requires s.Keys == t.Keys
    ensures Scan(s, namespaces, name) == Scan(t, namespaces, name)
  {
    if namespaces != [] {
      SameScan(s, t, namespaces[1..], name);
    }
  }
}
