/** `Save`: storing a configuration under one of four policies, the gateway's in two parts. */
module ConfigSave {
  import opened Trees
  import opened Merge
  import opened TreeHeap
  import opened Yaml
  import opened RouteSplit
  import opened ConfigMaps

  const GATEWAY := "api-gateway"
  const ROUTE_MAP := "zuul-route"

  const ADD := "add"
  const NOT := "not"
  const OVERRIDE := "override"
  const UPDATE := "update"

  /** What the client is told; `Fault` is a panic. */
  datatype Reply = Saved | BadRequest | NotFound | AlreadyExists | CreateFailed | UpdateFailed | Fault

  predicate Valid(dto: SaveConfig) {
    && dto.service != "" && dto.profile != "" && dto.namespace != ""
    && (dto.policy == ADD || dto.policy == NOT || dto.policy == OVERRIDE || dto.policy == UPDATE)
  }

  // ---------- saving, as a function ----------

  /** A nil map cannot take the entries of another. */
  predicate WritesNil(base: Tree, source: Tree) {
    base.Null? && source.Obj? && source.m != map[]
  }

  /** The text that a merge makes of a stored one; none on a panic. A stored text that
      does not parse yields the empty text and no error. */
  function Merged(update: bool, stored: Text, source: Tree): (r: Option<Text>)
    requires IsRoot(source)
  {
    if stored.Garbled? then Some(Empty)
    else
      var base := Parsed(stored);
      if WritesNil(base, source) || (update && Clash(base, source)) then None
      else Some(Printed(if update then Update(base, source) else Add(base, source)))
  }

  /** The text that a policy writes over a stored one; none where the merge panics. */
  function Written(policy: string, stored: Text, source: Tree, yaml: Text): (r: Option<Text>)
    requires IsRoot(source)
  {
    if stored.Empty? || (policy != ADD && policy != UPDATE) then Some(yaml)
    else Merged(policy == UPDATE, stored, source)
  }

  /** What becomes of the ConfigMap at the place of dto. An absent one is created
      first, and the policy then applies to what was created. */
  function PutCell(cell: Option<ConfigMap>, dto: SaveConfig, source: Tree): (Reply, ConfigMap)
    requires IsRoot(source)
  {
    var base := if cell.Some? then cell.value else NewV1ConfigMap(dto);
    if dto.policy == NOT then (AlreadyExists, base)
    else
      match Written(dto.policy, DataAt(base, ConfigMapProfileKey(dto.profile)), source, dto.yaml)
      case None => (Fault, base)
      case Some(text) => (Saved, NewV1ConfigMap(dto.(yaml := text)))
  }

  function CellAt(store: Store, place: Place): Option<ConfigMap> {
    if place in store then Some(store[place]) else None
  }

  function Put(w: World, dto: SaveConfig, source: Tree): (Reply, World)
    requires IsRoot(source)
  {
    var place := PlaceOf(dto);
    var r := PutCell(CellAt(w.store, place), dto, source);
    (r.0, World(w.store[place := r.1],
                if r.0.Saved? || place !in w.store then w.cache[dto.service := dto.namespace] else w.cache))
  }

  function RouteDto(dto: SaveConfig, rb: Text): SaveConfig {
    SaveConfig(ROUTE_MAP, dto.version, DEFAULT, dto.namespace, dto.policy, rb)
  }

  /** The first error stands in the response. */
  function FirstError(a: Reply, b: Reply): Reply {
    if b.Fault? || a.Saved? then b else a
  }

  /** The routes first, then the rest. */
  function PutParts(w: World, dto: SaveConfig, rest: Tree, routes: Tree): (Reply, World)
    requires IsRoot(rest) && IsRoot(routes)
  {
    var first := Put(w, RouteDto(dto, Printed(routes)), routes);
    if first.0.Fault? then first
    else
      var second := Put(first.1, dto.(yaml := Printed(rest)), rest);
      (FirstError(first.0, second.0), second.1)
  }

  function SaveEffect(w: World, dto: SaveConfig): (Reply, World) {
    if !Valid(dto) || dto.yaml.Garbled? then (BadRequest, w)
    else
      var source := Parsed(dto.yaml);
      if dto.service != GATEWAY then Put(w, dto, source)
      else if !Separable(source) then (Fault, w)
      else PutParts(w, dto, RestPart(source), RoutesPart(source))
  }

  /** The same, one write at a time. */
  lemma PutByWrites(w: World, w1: World, dto: SaveConfig, source: Tree, namespaces: seq<string>)
    requires IsRoot(source)
    requires w1 == if PlaceOf(dto) in w.store then w else ConfigMaps.Step(w, Creating(dto), namespaces)
    ensures PlaceOf(dto) in w1.store
    ensures dto.policy == NOT ==> Put(w, dto, source) == (AlreadyExists, w1)
    ensures dto.policy != NOT ==>
              var stored := DataAt(w1.store[PlaceOf(dto)], ConfigMapProfileKey(dto.profile));
              match Written(dto.policy, stored, source, dto.yaml)
              case None => Put(w, dto, source) == (Fault, w1)
              case Some(text) =>
                Put(w, dto, source) == (Saved, ConfigMaps.Step(w1, Updating(dto.(yaml := text)), namespaces))
  {
    var place, r := PlaceOf(dto), PutCell(CellAt(w.store, PlaceOf(dto)), dto, source);
    if place in w.store {
      assert w.store[place := w.store[place]] == w.store;
    } else {
      assert w1.store[place := r.1] == w.store[place := r.1];
      assert w1.cache[dto.service := dto.namespace] == w1.cache;
    }
  }

  // ---------- the code ----------

  /** Merges newMap into the tree of an old text and prints it; none on a panic. */
  method ProcessProperty(oldYaml: Text, newMap: MapNode?, update: bool, ghost sn: Shape) returns (yaml: Option<Text>)
    requires OwnsRoot(newMap, sn)
    ensures IsRoot(sn.tree) && OwnsRoot(newMap, sn)
    ensures yaml == Merged(update, oldYaml, sn.tree)
  {
    RootOfOwner(newMap, sn);
    if oldYaml.Garbled? {
      return Some(Empty);
    }
    ghost var so;
    var oldMap;
    oldMap, so := Load(oldYaml);
    if newMap == null || oldMap == null {
      yaml := MergeNil(oldMap, newMap, so, sn);
    } else {
      yaml := MergeObjects(oldMap, newMap, update, so, sn);
    }
  }

  /** Nothing to add, or a nil map to add it to. */
  method MergeNil(oldMap: MapNode?, newMap: MapNode?, ghost so: Shape, ghost sn: Shape) returns (yaml: Option<Text>)
    requires OwnsRoot(oldMap, so) && OwnsRoot(newMap, sn) && (oldMap == null || newMap == null)
    ensures IsRoot(so.tree) && IsRoot(sn.tree)
    ensures yaml == if WritesNil(so.tree, sn.tree) then None else Some(Printed(so.tree))
  {
    RootOfOwner(oldMap, so);
    RootOfOwner(newMap, sn);
    if oldMap == null && newMap != null && newMap.entries != map[] {
      return None;
    }
    var text := Print(oldMap, so);
    yaml := Some(text);
  }

  method MergeObjects(oldMap: MapNode, newMap: MapNode, update: bool, ghost so: Shape, ghost sn: Shape)
    returns (yaml: Option<Text>)
    requires Owns(oldMap, so) && Owns(newMap, sn) && so.foot !! sn.foot
    modifies so.foot
    ensures so.tree.Obj? && sn.tree.Obj? && Owns(newMap, sn)
    ensures yaml == if update && Clash(so.tree, sn.tree) then None
                    else Some(Printed(if update then Update(so.tree, sn.tree) else Add(so.tree, sn.tree)))
  {
    ghost var sr;
    if update {
      var ok;
      ok, sr := RecursiveAddAndUpdate(oldMap, newMap, so, sn);
      if !ok {
        return None;
      }
    } else {
      sr := RecursiveAdd(oldMap, newMap, so, sn);
    }
    var text := Print(oldMap, sr);
    yaml := Some(text);
  }

  class SaveService {
    const operator: ConfigMapOperator

    constructor (operator: ConfigMapOperator)
      ensures this.operator == operator
    {
      this.operator := operator;
    }

    method CreateOrUpdateConfigMap(dto: SaveConfig, source: MapNode?, ghost ss: Shape) returns (reply: Reply)
      requires OwnsRoot(source, ss)
      modifies operator, operator.api
      ensures IsRoot(ss.tree)
      ensures (reply, operator.State()) == Put(old(operator.State()), dto, ss.tree)
    {
      RootOfOwner(source, ss);
      var queried := operator.QueryConfigMap(dto.service, dto.namespace);
      if queried.None? {
        queried := operator.CreateConfigMap(dto);
        if queried.None? {
          return CreateFailed;
        }
      }
      PutByWrites(old(operator.State()), operator.State(), dto, ss.tree, operator.namespaces);
      if dto.policy == NOT {
        return AlreadyExists;
      }
      var yaml := dto.yaml;
      var stored := DataAt(queried.value, ConfigMapProfileKey(dto.profile));
      if (dto.policy == ADD || dto.policy == UPDATE) && stored != Empty {
        var merged := ProcessProperty(stored, source, dto.policy == UPDATE, ss);
        if merged.None? {
          return Fault;
        }
        yaml := merged.value;
      }
      var updated := operator.UpdateConfigMap(dto.(yaml := yaml));
      reply := if updated.None? then UpdateFailed else Saved;
    }

    method Save(dto: SaveConfig) returns (reply: Reply)
      modifies operator, operator.api
      ensures (reply, operator.State()) == SaveEffect(old(operator.State()), dto)
    {
      if !Valid(dto) || dto.yaml.Garbled? {
        return BadRequest;
      }
      ghost var ss;
      var source;
      source, ss := Load(dto.yaml);
      if dto.service != GATEWAY {
        reply := CreateOrUpdateConfigMap(dto, source, ss);
        return;
      }
      ghost var sr, sm;
      var ok, gb, rb, rm;
      ok, gb, rb, rm, sr, sm := SeparateRoute(source, ss);
      if !ok {
        return Fault;
      }
      reply := SaveParts(dto, gb, rb, source, rm, sr, sm);
    }

    method SaveParts(dto: SaveConfig, gb: Text, rb: Text, source: MapNode?, rm: MapNode, ghost sr: Shape,
                     ghost sm: Shape)
      returns (reply: Reply)
      requires OwnsRoot(source, sr) && Owns(rm, sm)
      requires IsRoot(sr.tree) && IsRoot(sm.tree) && gb == Printed(sr.tree) && rb == Printed(sm.tree)
      modifies operator, operator.api
      ensures (reply, operator.State()) == PutParts(old(operator.State()), dto, sr.tree, sm.tree)
    {
      reply := CreateOrUpdateConfigMap(RouteDto(dto, rb), rm, sm);
      if reply != Fault {
        var second := CreateOrUpdateConfigMap(dto.(yaml := gb), source, sr);
        reply := FirstError(reply, second);
      }
    }
  }
}
