/** What the requests of the config server store and serve, in terms of the stored data. */
module ConfigEffects {
  import opened Trees
  import opened Keys
  import opened Merge
  import opened Flatten
  import opened Expand
  import opened Yaml
  import opened RouteSplit
  import opened ConfigMaps
  import opened ConfigSave
  import opened SaveLaws
  import opened ConfigPoll
  import opened PollLaws
  import opened RouteRequests
  import Z = ZuulRoutes

  lemma ProfileKeys(profile: string)
    ensures ConfigMapProfileKey("default") == "application.yml"
    ensures profile != "default" ==> ConfigMapProfileKey(profile) == "application-" + profile + ".yml"
  {
  }

  // ---------- saving any other service than the gateway ----------

  /** The text at a key of a ConfigMap, empty if there is none. */
  function TextOf(cm: ConfigMap, key: string): Text {
    if key in cm.data then cm.data[key] else Empty
  }

  /** The merge of a tree into a text panics. */
  ghost predicate CannotMerge(policy: string, text: Text, source: Tree) {
    && (policy == "add" || policy == "update") && !text.Empty? && !text.Garbled?
    && (|| (text.Nil? && source.Obj? && source.m != map[])
        || (policy == "update" && text.Doc? && exists p :: ListInBoth(Obj(text.m), source, p)))
  }

  /** What a save that does not panic leaves of a text: the request's own under "override"
      or over an empty one, the empty one where it does not parse, else the merged one. */
  ghost predicate SavedText(after: Text, policy: string, before: Text, yaml: Text)
    requires !yaml.Garbled?
  {
    if policy == "override" || before.Empty? then after == yaml
    else if before.Garbled? then after == Empty
    else
      && !after.Garbled? && !after.Empty?
      && Parsed(after) ==
         if policy == "add" then Add(Parsed(before), Parsed(yaml)) else Update(Parsed(before), Parsed(yaml))
  }

  /** Saving a service other than the gateway: the reply, the ConfigMap afterwards under
      each policy, whether there was one or not, and that nothing else changes. */
  lemma PlainSave(w: World, dto: SaveConfig)
    requires Valid(dto) && dto.service != "api-gateway" && !dto.yaml.Garbled?
    ensures var (reply, w1) := SaveEffect(w, dto);
            var place, key := (dto.namespace, dto.service), ConfigMapProfileKey(dto.profile);
            var created := ConfigMap(dto.version, map[key := dto.yaml]);
            var before := if place in w.store then w.store[place] else created;
            && place in w1.store
            && (forall other :: other != place ==>
                  (other in w1.store <==> other in w.store) && (other in w.store ==> w1.store[other] == w.store[other]))
            && (reply == AlreadyExists <==> dto.policy == "not")
            && (reply == Fault <==> CannotMerge(dto.policy, TextOf(before, key), Parsed(dto.yaml)))
            && (reply == Saved || reply == AlreadyExists || reply == Fault)
            && (reply != Saved ==> w1.store[place] == before)
            && (reply == Saved ==>
                  && w1.store[place].version == dto.version && w1.store[place].data.Keys == {key}
                  && SavedText(w1.store[place].data[key], dto.policy, TextOf(before, key), dto.yaml))
            && w1.cache ==
               (if reply == Saved || place !in w.store then w.cache[dto.service := dto.namespace] else w.cache)
  {
    var place, key := PlaceOf(dto), ConfigMapProfileKey(dto.profile);
    var cell := CellAt(w.store, place);
    PutFaultsIff(cell, dto);
    SavedTextIs(cell, dto);
  }

  lemma SavedTextIs(cell: Option<ConfigMap>, dto: SaveConfig)
    requires !dto.yaml.Garbled?
    requires dto.policy == ADD || dto.policy == UPDATE || dto.policy == OVERRIDE || dto.policy == NOT
    ensures var key, r := ConfigMapProfileKey(dto.profile), PutCell(cell, dto, Parsed(dto.yaml));
            && (r.0 == AlreadyExists <==> dto.policy == NOT) && (r.0 == Saved || r.0 == AlreadyExists || r.0 == Fault)
            && (r.0 == Saved ==>
                  && r.1.version == dto.version && r.1.data.Keys == {key}
                  && SavedText(r.1.data[key], dto.policy, BaseText(cell, dto), dto.yaml))
  {
  }

  /** So where there was no ConfigMap the request's own text is stored, under every policy. */
  lemma PlainCreate(w: World, dto: SaveConfig)
    requires Valid(dto) && dto.service != "api-gateway" && !dto.yaml.Garbled?
    requires (dto.namespace, dto.service) !in w.store
    ensures var (reply, w1) := SaveEffect(w, dto);
            (dto.namespace, dto.service) in w1.store &&
            w1.store[(dto.namespace, dto.service)] ==
            ConfigMap(dto.version, map[ConfigMapProfileKey(dto.profile) := dto.yaml])
  {
    CreatedIs(dto);
  }

  lemma CreatedIs(dto: SaveConfig)
    requires !dto.yaml.Garbled?
    ensures PutCell(None, dto, Parsed(dto.yaml)).1 ==
            ConfigMap(dto.version, map[ConfigMapProfileKey(dto.profile) := dto.yaml])
  {
    AddSelf(Parsed(dto.yaml));
    UpdateSelf(Parsed(dto.yaml));
  }

  /** A request that is not valid, or does not parse, changes nothing. */
  lemma BadSave(w: World, dto: SaveConfig)
    ensures SaveEffect(w, dto).0 == BadRequest <==>
            || dto.service == "" || dto.profile == "" || dto.namespace == ""
            || dto.policy !in {"add", "not", "override", "update"} || dto.yaml.Garbled?
    ensures SaveEffect(w, dto).0 == BadRequest ==> SaveEffect(w, dto).1 == w
  {
  }

  lemma PutWrites(w: World, dto: SaveConfig, source: Tree, other: Place)
    requires IsRoot(source)
    ensures var (reply, w1) := Put(w, dto, source);
            && (other != PlaceOf(dto) ==>
                  (other in w1.store <==> other in w.store) && (other in w.store ==> w1.store[other] == w.store[other]))
            && PlaceOf(dto) in w1.store
            && (reply == Saved ==>
                  && w1.store[PlaceOf(dto)].version == dto.version
                  && w1.store[PlaceOf(dto)].data.Keys == {ConfigMapProfileKey(dto.profile)})
  {
  }

  /** Saving the gateway writes its two ConfigMaps and nothing else. */
  lemma GatewayElsewhere(w: World, dto: SaveConfig, other: Place)
    requires Valid(dto) && dto.service == "api-gateway" && !dto.yaml.Garbled?
    requires other != (dto.namespace, "api-gateway") && other != (dto.namespace, "zuul-route")
    ensures var w1 := SaveEffect(w, dto).1;
            (other in w1.store <==> other in w.store) && (other in w.store ==> w1.store[other] == w.store[other])
  {
    var source := Parsed(dto.yaml);
    if Separable(source) {
      var first := RouteDto(dto, Printed(RoutesPart(source)));
      PutWrites(w, first, RoutesPart(source), other);
      PutWrites(Put(w, first, RoutesPart(source)).1, dto.(yaml := Printed(RestPart(source))), RestPart(source), other);
    }
  }

  /** If the save completes, both have its version; the routes are in the default profile. */
  lemma GatewayVersions(w: World, dto: SaveConfig)
    requires Valid(dto) && dto.service == "api-gateway" && SaveEffect(w, dto).0 == Saved
    ensures var store := SaveEffect(w, dto).1.store;
            var at, route := (dto.namespace, "api-gateway"), (dto.namespace, "zuul-route");
            && at in store && route in store
            && store[at].version == store[route].version == dto.version
            && store[at].data.Keys == {ConfigMapProfileKey(dto.profile)}
            && store[route].data.Keys == {"application.yml"}
  {
    var source := Parsed(dto.yaml);
    var first, second := RouteDto(dto, Printed(RoutesPart(source))), dto.(yaml := Printed(RestPart(source)));
    var w1 := Put(w, first, RoutesPart(source)).1;
    PutWrites(w, first, RoutesPart(source), PlaceOf(first));
    PutWrites(w1, second, RestPart(source), PlaceOf(first));
  }

  /** The policies that merge nothing: the gateway's save panics only on a null `zuul`,
      "override" succeeds otherwise, and "not" leaves what is there and creates the rest. */
  lemma GatewayReply(w: World, dto: SaveConfig)
    requires Valid(dto) && dto.service == "api-gateway" && !dto.yaml.Garbled?
    requires dto.policy == "override" || dto.policy == "not"
    ensures var (reply, w1) := SaveEffect(w, dto);
            var at, route := (dto.namespace, "api-gateway"), (dto.namespace, "zuul-route");
            if dto.yaml.Doc? && "zuul" in dto.yaml.m && dto.yaml.m["zuul"] == Null then reply == Fault && w1 == w
            else
              && reply == (if dto.policy == "override" then Saved else AlreadyExists)
              && at in w1.store && route in w1.store
              && w1.store[at] ==
                 (if dto.policy == "not" && at in w.store then w.store[at]
                  else ConfigMap(dto.version,
                                 map[ConfigMapProfileKey(dto.profile) := Printed(RestPart(Parsed(dto.yaml)))]))
              && w1.store[route] ==
                 (if dto.policy == "not" && route in w.store then w.store[route]
                  else ConfigMap(dto.version, map["application.yml" := Printed(RoutesPart(Parsed(dto.yaml)))]))
  {
    var source := Parsed(dto.yaml);
    if Separable(source) {
      var first, second := RouteDto(dto, Printed(RoutesPart(source))), dto.(yaml := Printed(RestPart(source)));
      PutUnmerged(w, first, RoutesPart(source));
      PutUnmerged(Put(w, first, RoutesPart(source)).1, second, RestPart(source));
    }
  }

  lemma PutUnmerged(w: World, dto: SaveConfig, source: Tree)
    requires IsRoot(source)
    requires dto.policy == OVERRIDE || dto.policy == NOT
    ensures var (reply, w1) := Put(w, dto, source);
            var place := PlaceOf(dto);
            && reply == (if dto.policy == OVERRIDE then Saved else AlreadyExists) && place in w1.store
            && w1.store[place] ==
               (if dto.policy == NOT && place in w.store then w.store[place]
                else ConfigMap(dto.version, map[ConfigMapProfileKey(dto.profile) := dto.yaml]))
            && forall other :: other != place ==>
                 (other in w1.store <==> other in w.store) && (other in w.store ==> w1.store[other] == w.store[other])
  {
  }

  // ---------- polling any service and profile ----------

  /** What a poll serves: the environment's fields, and the one source with its name. */
  ghost predicate Serves(a: Answer, service: string, version: string, configMapVersion: string,
                         source: map<string, Tree>) {
    && a.Served? && a.env.name == service && a.env.version == configMapVersion && a.env.profiles == [version]
    && |a.env.sources| == 1 && a.env.sources[0].source == source
    && a.env.sources[0].name == service + "-" + version + "-" + configMapVersion
  }

  /** The text of a profile is this document, or there is none and the document is empty. */
  ghost predicate ProfileHolds(cm: ConfigMap, version: string, t: Tree) {
    var key := if version == "default" then "application.yml" else "application-" + version + ".yml";
    && IsRoot(t)
    && if key in cm.data then !cm.data[key].Garbled? && Parsed(cm.data[key]) == t else t == Null
  }

  lemma HeldText(store: Store, place: Place, version: string, t: Tree)
    requires place in store && ProfileHolds(store[place], version, t)
    ensures HasTree(store, place, version) && TreeAt(store, place, version) == Readable(t)
  {
    ProfileKeys(version);
  }

  /** A poll of a service that is no gateway serves the flattened text of the requested
      profile, with the additions on top. */
  lemma PollPlain(w: World, namespaces: seq<string>, gatewayNames: seq<string>, service: string, version: string,
                  ns: string, t: Tree, a: Answer, after: World)
    requires service != "" && version != "" && service !in gatewayNames
    requires Lookup(w.store, w.cache, namespaces, service) == Some(ns)
    requires ProfileHolds(w.store[(ns, service)], version, t) && GoodKeys(t)
    requires MayAnswer(w, namespaces, gatewayNames, service, version, a, after)
    ensures Serves(a, service, version, w.store[(ns, service)].version, Flat(Readable(t)) + CONFIG_SERVER_ADDITIONS)
  {
    HeldText(w.store, (ns, service), version, t);
    PlainServes(w.store, (ns, service), service, version, a);
  }

  lemma PlainServes(store: Store, at: Place, service: string, version: string, a: Answer)
    requires HasTree(store, at, version) && GoodKeys(TreeAt(store, at, version))
    requires MayServe(store, at, None, service, version, a)
    ensures Serves(a, service, version, store[at].version, Flat(TreeAt(store, at, version)) + CONFIG_SERVER_ADDITIONS)
  {
    var base := TreeAt(store, at, version);
    var kv :| Assembled(base, None, kv) && a == AnswerOf(store, at, service, version, kv);
    AssembledIff(base, None, kv);
    AnswerFields(store, at, service, version, kv);
  }

  /** A poll of any gateway serves the text of the requested profile without its routes,
      and the expanded routes of that profile of the route ConfigMap. */
  lemma PollGateway(w: World, namespaces: seq<string>, gatewayNames: seq<string>, service: string, version: string,
                    ns: string, t: Tree, rns: string, routes: Tree, a: Answer, after: World)
    requires service != "" && version != "" && service in gatewayNames
    requires Lookup(w.store, w.cache, namespaces, service) == Some(ns)
    requires ConfigMapsFound(w, namespaces, service, ns, rns)
    requires ProfileHolds(w.store[(ns, service)], version, t)
    requires ProfileHolds(w.store[(rns, ROUTE_MAP)], version, routes)
    requires Clean(t) && Clean(routes)
    requires MayAnswer(w, namespaces, gatewayNames, service, version, a, after)
    ensures a == Panic <==> NullElement(Obj(Flat(Readable(routes))))
    ensures a != Panic ==>
              Serves(a, service, version, w.store[(ns, service)].version,
                     Select(Flat(Readable(t)), s => !HasPrefix(s, "zuul.routes.")) +
                     Expansion(Obj(Flat(Readable(routes)))) + CONFIG_SERVER_ADDITIONS)
  {
    HeldText(w.store, (ns, service), version, t);
    HeldText(w.store, (rns, ROUTE_MAP), version, routes);
    GatewayServes(w.store, (ns, service), (rns, ROUTE_MAP), service, version, a);
    SameSelection(Flat(Readable(t)));
  }

  lemma GatewayServes(store: Store, at: Place, route: Place, service: string, version: string, a: Answer)
    requires HasTree(store, at, version) && HasTree(store, route, version)
    requires Clean(TreeAt(store, at, version)) && Clean(TreeAt(store, route, version))
    requires MayServe(store, at, Some(route), service, version, a)
    ensures var base, routes := TreeAt(store, at, version), TreeAt(store, route, version);
            && (a == Panic <==> NullElement(Obj(Flat(routes))))
            && (a != Panic ==>
                  Serves(a, service, version, store[at].version,
                         Select(Flat(base), OffPrefix) + Expansion(Obj(Flat(routes))) + CONFIG_SERVER_ADDITIONS))
  {
    var base, routes := TreeAt(store, at, version), TreeAt(store, route, version);
    FlatBracketFree(routes);
    var kv :| Assembled(base, Some(routes), kv) && a == AnswerOf(store, at, service, version, kv);
    AssembledIff(base, Some(routes), kv);
    AnswerFields(store, at, service, version, kv);
  }

  lemma AnswerFields(store: Store, at: Place, service: string, version: string, kv: Option<map<string, Tree>>)
    requires at in store
    ensures var a := AnswerOf(store, at, service, version, kv);
            && (a == Panic <==> kv.None?)
            && (kv.Some? ==> Serves(a, service, version, store[at].version, kv.value + CONFIG_SERVER_ADDITIONS))
  {
  }

  lemma SameSelection(m: map<string, Tree>)
    ensures Select(m, s => !HasPrefix(s, "zuul.routes.")) == Select(m, OffPrefix)
  {
  }

  /** The second query of a gateway's poll, after the first was remembered. */
  predicate ConfigMapsFound(w: World, namespaces: seq<string>, service: string, ns: string, rns: string) {
    && (ns, service) in w.store && (rns, ROUTE_MAP) in w.store
    && Lookup(w.store, w.cache[service := ns], namespaces, ROUTE_MAP) == Some(rns)
  }

  /** Nothing is found without the ConfigMap, or for a text that does not parse; for a
      gateway, also without the route ConfigMap or for a text of it. No ConfigMap changes. */
  lemma PollNotFound(w: World, namespaces: seq<string>, gatewayNames: seq<string>, service: string, version: string,
                     a: Answer, after: World)
    requires MayAnswer(w, namespaces, gatewayNames, service, version, a, after)
    ensures a == BadPath <==> service == "" || version == ""
    ensures service != "" && version != "" ==>
              (a == Answer.NotFound <==>
               match Lookup(w.store, w.cache, namespaces, service)
               case None => true
               case Some(ns) =>
                 || TextOf(w.store[(ns, service)], ConfigMapProfileKey(version)).Garbled?
                 || (service in gatewayNames && NoRoutes(w.store, w.cache[service := ns], namespaces, version)))
    ensures after.store == w.store
  {
  }

  predicate NoRoutes(store: Store, cache: map<string, string>, namespaces: seq<string>, version: string) {
    match Lookup(store, cache, namespaces, "zuul-route")
    case None => true
    case Some(ns) => TextOf(store[(ns, "zuul-route")], ConfigMapProfileKey(version)).Garbled?
  }

  /** Saving a service that is no gateway under "override" and polling the saved profile
      gives back the saved tree, flattened, with the additions on top; a poll of any
      other profile gives the additions alone. */
  lemma PlainSaveThenPoll(w: World, dto: SaveConfig, namespaces: seq<string>, gatewayNames: seq<string>,
                          version: string, a: Answer, after: World)
    requires Valid(dto) && dto.service != "api-gateway" && dto.policy == "override" && !dto.yaml.Garbled?
    requires dto.service !in gatewayNames && GoodKeys(Parsed(dto.yaml)) && version != ""
    ensures SaveEffect(w, dto).0 == Saved
    ensures MayAnswer(SaveEffect(w, dto).1, namespaces, gatewayNames, dto.service, version, a, after) ==>
              Serves(a, dto.service, version, dto.version,
                     (if version == dto.profile then Flat(Readable(Parsed(dto.yaml))) else map[]) +
                     CONFIG_SERVER_ADDITIONS)
  {
    PlainSave(w, dto);
    var w1, ns := SaveEffect(w, dto).1, dto.namespace;
    if MayAnswer(w1, namespaces, gatewayNames, dto.service, version, a, after) {
      var t := if version == dto.profile then Parsed(dto.yaml) else Null;
      ProfileKeyInjective(version, dto.profile);
      ProfileKeys(version);
      PollPlain(w1, namespaces, gatewayNames, dto.service, version, ns, t, a, after);
      NothingFlat();
    }
  }

  lemma NothingFlat()
    ensures Flat(Readable(Null)) == map[]
  {
  }

  // ---------- requests for single routes ----------

  /** What a route has after a request: the given fields, the others as before. */
  ghost predicate RouteAfter(after: map<string, Tree>, before: map<string, Tree>, dto: Z.Route) {
    && "path" in after && after["path"] == Leaf(Str(dto.path))
    && "serviceId" in after && after["serviceId"] == Leaf(Str(dto.serviceId))
    && FieldIs(after, before, "url", dto.url)
    && FieldIs(after, before, "sensitiveHeaders", dto.sensitiveHeaders)
    && FieldIs(after, before, "helperService", dto.helperService)
    && forall k :: k !in {"path", "serviceId", "url", "sensitiveHeaders", "helperService"} ==> SameAt(after, before, k)
  }

  ghost predicate FieldIs(after: map<string, Tree>, before: map<string, Tree>, k: string, text: string) {
    if text != "" then k in after && after[k] == Leaf(Str(text)) else SameAt(after, before, k)
  }

  ghost predicate SameAt(after: map<string, Tree>, before: map<string, Tree>, k: string) {
    (k in after <==> k in before) && (k in before ==> after[k] == before[k])
  }

  lemma RouteAfterFields(before: map<string, Tree>, dto: Z.Route)
    requires Z.ValidRoute(dto)
    ensures RouteAfter(Z.WithFields(before, dto), before, dto)
  {
    Z.FieldAfter(before, dto, "path");
    Z.FieldAfter(before, dto, "serviceId");
    Z.FieldAfter(before, dto, "url");
    Z.FieldAfter(before, dto, "sensitiveHeaders");
    Z.FieldAfter(before, dto, "helperService");
    forall k | k !in {"path", "serviceId", "url", "sensitiveHeaders", "helperService"}
      ensures SameAt(Z.WithFields(before, dto), before, k)
    {
      Z.FieldAfter(before, dto, k);
    }
  }

  /** The stored text of the routes: `zuul` is the root's only key after a request, and
      below it all but `routes` is as before. */
  ghost predicate RootAfter(after: map<string, Tree>, before: map<string, Tree>, routes: map<string, Tree>) {
    && after.Keys == {"zuul"} && after["zuul"].Obj? && "zuul" in before && before["zuul"].Obj?
    && "routes" in after["zuul"].m && after["zuul"].m["routes"] == Obj(routes)
    && forall k :: k != "routes" ==> SameAt(after["zuul"].m, before["zuul"].m, k)
  }

  lemma RootOfReplaced(t: Tree, routes: map<string, Tree>)
    requires WellFormed(t)
    ensures Replaced(t, routes).Obj? && RootAfter(Replaced(t, routes).m, t.m, routes)
  {
  }

  /** A document with an object of routes. */
  predicate HasRoutes(m: map<string, Tree>) {
    "zuul" in m && m["zuul"].Obj? && "routes" in m["zuul"].m && m["zuul"].m["routes"].Obj?
  }

  /** What a request makes of the routes. */
  ghost predicate RoutesAfter(after: map<string, Tree>, before: map<string, Tree>, req: Z.Request) {
    var name := req.dto.name;
    && (forall other :: other != name ==> SameAt(after, before, other))
    && match req
       case Delete(_) => name !in after
       case AddOrUpdate(dto) =>
         && name in after && after[name].Obj?
         && RouteAfter(after[name].m, if name in before && before[name].Obj? then before[name].m else map[], dto)
  }

  lemma RoutesAfterEdit(routes: map<string, Tree>, req: Z.Request)
    requires Z.ValidRoute(req.dto) && Z.Edit(routes, req).Some?
    ensures RoutesAfter(Z.Edit(routes, req).value, routes, req)
  {
    if req.AddOrUpdate? {
      RouteAfterFields(if req.dto.name in routes then routes[req.dto.name].m else map[], req.dto);
    }
  }

  /** When a request for a route is refused, panics, or is carried out. */
  lemma RequestReply(w: World, req: Z.Request, namespaces: seq<string>)
    ensures var (reply, w1) := RouteEffect(w, req, namespaces);
            var at := Lookup(w.store, w.cache, namespaces, "zuul-route");
            var valid := req.dto.name != "" && req.dto.path != "" && req.dto.serviceId != "";
            && (reply != Saved ==> w1.store == w.store)
            && if !valid then reply == BadRequest
               else if at.None? then reply == Reply.NotFound
               else
                 var text := TextOf(w.store[(at.value, "zuul-route")], "application.yml");
                 if text.Empty? || text.Garbled? then reply == BadRequest
                 else if text.Nil? || !HasRoutes(text.m) then reply == Fault
                 else
                   var routes := text.m["zuul"].m["routes"].m;
                   if req.AddOrUpdate? && req.dto.name in routes && !routes[req.dto.name].Obj? then reply == Fault
                   else reply == Saved
  {
  }

  /** A request that is carried out replaces the text of the routes and nothing else: the
      version stays, `zuul` stays but for the route, all other ConfigMaps stay. */
  lemma RequestWrites(w: World, req: Z.Request, namespaces: seq<string>)
    requires RouteEffect(w, req, namespaces).0 == Saved
    ensures var w1, at := RouteEffect(w, req, namespaces).1, Lookup(w.store, w.cache, namespaces, "zuul-route");
            && at.Some?
            && var place := (at.value, "zuul-route");
               var text := TextOf(w.store[place], "application.yml");
               && text.Doc? && HasRoutes(text.m)
               && place in w1.store && w1.store[place].version == w.store[place].version
               && w1.store[place].data.Keys == {"application.yml"} && w1.store[place].data["application.yml"].Doc?
               && var after := w1.store[place].data["application.yml"].m;
                  && HasRoutes(after)
                  && RootAfter(after, text.m, after["zuul"].m["routes"].m)
                  && RoutesAfter(after["zuul"].m["routes"].m, text.m["zuul"].m["routes"].m, req)
                  && forall other :: other != place ==>
                       (other in w1.store <==> other in w.store) &&
                       (other in w.store ==> w1.store[other] == w.store[other])
  {
    RequestReply(w, req, namespaces);
    var ns := Lookup(w.store, w.cache, namespaces, ROUTE_MAP).value;
    var t := Parsed(DataAt(w.store[(ns, ROUTE_MAP)], ConfigMapProfileKey(DEFAULT)));
    var routes := Z.Edit(RoutesIn(t), req).value;
    RootOfReplaced(t, routes);
    RoutesAfterEdit(RoutesIn(t), req);
  }

  /** After any valid requests, the routes are those the requests amount to, and `zuul`
      has what it had beside them. */
  lemma RequestsKeepSiblings(w: World, reqs: seq<Z.Request>, namespaces: seq<string>, ns: string, m: map<string, Tree>)
    requires RoutesHeld(w, namespaces, ns, Obj(m)) && HasRoutes(m) && Z.AllObjects(m["zuul"].m["routes"].m)
    requires forall i :: 0 <= i < |reqs| ==> Z.ValidRoute(reqs[i].dto)
    ensures var w1 := HandleAll(w, reqs, namespaces);
            && (ns, "zuul-route") in w1.store && TextOf(w1.store[(ns, "zuul-route")], "application.yml").Doc?
            && var after := TextOf(w1.store[(ns, "zuul-route")], "application.yml").m;
               && HasRoutes(after)
               && after["zuul"].m["routes"].m == Z.EditAll(m["zuul"].m["routes"].m, reqs)
               && forall k :: k != "routes" ==> SameAt(after["zuul"].m, m["zuul"].m, k)
  {
    RequestsKeepTree(w, reqs, namespaces, ns, Obj(m));
    RootOfReplaced(Obj(m), Z.EditAll(m["zuul"].m["routes"].m, reqs));
  }

  /** They change no version, and no other ConfigMap. */
  lemma {:induction false} RequestsElsewhere(w: World, reqs: seq<Z.Request>, namespaces: seq<string>, ns: string,
                                             other: Place)
    requires Lookup(w.store, w.cache, namespaces, ROUTE_MAP) == Some(ns)
    ensures var w1 := HandleAll(w, reqs, namespaces);
            && Lookup(w1.store, w1.cache, namespaces, ROUTE_MAP) == Some(ns)
            && w1.store[(ns, ROUTE_MAP)].version == w.store[(ns, ROUTE_MAP)].version
            && (other != (ns, ROUTE_MAP) ==>
                  (other in w1.store <==> other in w.store) && (other in w.store ==> w1.store[other] == w.store[other]))
    decreases |reqs|
  {
    if reqs != [] {
      var before, last := reqs[..|reqs| - 1], reqs[|reqs| - 1];
      RequestsElsewhere(w, before, namespaces, ns, other);
      OneRequestElsewhere(HandleAll(w, before, namespaces), last, namespaces, ns, other);
    }
  }

  lemma OneRequestElsewhere(w: World, req: Z.Request, namespaces: seq<string>, ns: string, other: Place)
    requires Lookup(w.store, w.cache, namespaces, ROUTE_MAP) == Some(ns)
    ensures var w1 := RouteEffect(w, req, namespaces).1;
            && Lookup(w1.store, w1.cache, namespaces, ROUTE_MAP) == Some(ns)
            && w1.store[(ns, ROUTE_MAP)].version == w.store[(ns, ROUTE_MAP)].version
            && (other != (ns, ROUTE_MAP) ==>
                  (other in w1.store <==> other in w.store) && (other in w.store ==> w1.store[other] == w.store[other]))
  {
  }
}
