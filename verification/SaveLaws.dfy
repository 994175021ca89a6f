/** What saves leave in the cluster. */
module SaveLaws {
  import opened Trees
  import opened Merge
  import opened Yaml
  import opened RouteSplit
  import opened ConfigMaps
  import opened ConfigSave

  // ---------- one ConfigMap ----------

  predicate MergingPolicy(policy: string) {
    policy == ADD || policy == UPDATE
  }

  /** The text a merge starts from: the stored one, or what was just created. */
  function BaseText(cell: Option<ConfigMap>, dto: SaveConfig): Text {
    DataAt(if cell.Some? then cell.value else NewV1ConfigMap(dto), ConfigMapProfileKey(dto.profile))
  }

  /** A policy that merges finds a null document and has something to write, or "update"
      meets a list at the same path in both trees. For an absent ConfigMap the second
      means any list at all. */
  ghost predicate PutPanics(cell: Option<ConfigMap>, dto: SaveConfig)
    requires !dto.yaml.Garbled?
  {
    var base, source := BaseText(cell, dto), Parsed(dto.yaml);
    && MergingPolicy(dto.policy) && !base.Empty? && !base.Garbled?
    && (|| (base.Nil? && source.Obj? && source.m != map[])
        || (dto.policy == UPDATE && exists p :: ListInBoth(Parsed(base), source, p)))
  }

  lemma PutFaultsIff(cell: Option<ConfigMap>, dto: SaveConfig)
    requires !dto.yaml.Garbled?
    ensures PutCell(cell, dto, Parsed(dto.yaml)).0 == Fault <==> PutPanics(cell, dto)
    ensures cell == None ==> BaseText(cell, dto) == dto.yaml
  {
    var base, source := BaseText(cell, dto), Parsed(dto.yaml);
    if !base.Garbled? {
      ClashIffListInBoth(Parsed(base), source);
    }
  }

  /** A merge over a text that does not parse stores the empty text; asked again, it
      stores what is asked. */
  predicate Wipes(cell: Option<ConfigMap>, dto: SaveConfig) {
    MergingPolicy(dto.policy) && BaseText(cell, dto).Garbled? && dto.yaml != Empty
  }

  lemma WipedText(cell: Option<ConfigMap>, dto: SaveConfig)
    requires !dto.yaml.Garbled? && Wipes(cell, dto)
    ensures PutCell(cell, dto, Parsed(dto.yaml)) == (Saved, NewV1ConfigMap(dto.(yaml := Empty)))
  {
  }

  /** Storing the same again changes nothing, exactly unless the first time wiped a text.
      A panic changes nothing, and comes again. */
  lemma PutCellTwice(cell: Option<ConfigMap>, dto: SaveConfig)
    requires !dto.yaml.Garbled?
    ensures var once := PutCell(cell, dto, Parsed(dto.yaml)).1;
            PutCell(Some(once), dto, Parsed(dto.yaml)).1 == once <==> !Wipes(cell, dto)
    ensures var once := PutCell(cell, dto, Parsed(dto.yaml));
            once.0 == Fault ==> PutCell(Some(once.1), dto, Parsed(dto.yaml)) == once
  {
    var source, base := Parsed(dto.yaml), BaseText(cell, dto);
    if Wipes(cell, dto) {
      WipedText(cell, dto);
      assert NewV1ConfigMap(dto).data[ConfigMapProfileKey(dto.profile)] == dto.yaml;
      assert NewV1ConfigMap(dto.(yaml := Empty)).data[ConfigMapProfileKey(dto.profile)] == Empty;
    } else if MergingPolicy(dto.policy) && !base.Garbled? {
      AddSelf(source);
      UpdateSelf(source);
      AddIdempotent(Parsed(base), source);
      UpdateIdempotent(Parsed(base), source);
    }
  }

  /** A completed request would panic when repeated: "update" has brought a list. */
  ghost predicate PanicsAgain(cell: Option<ConfigMap>, dto: SaveConfig)
    requires !dto.yaml.Garbled?
  {
    var base, source := BaseText(cell, dto), Parsed(dto.yaml);
    && dto.policy == UPDATE && !base.Garbled?
    && exists p :: if base.Empty? then ListInBoth(source, source, p) else TakenList(Parsed(base), source, p)
  }

  lemma PutAgainFaultsIff(cell: Option<ConfigMap>, dto: SaveConfig)
    requires !dto.yaml.Garbled? && PutCell(cell, dto, Parsed(dto.yaml)).0 != Fault
    ensures PutCell(Some(PutCell(cell, dto, Parsed(dto.yaml)).1), dto, Parsed(dto.yaml)).0 == Fault <==>
            PanicsAgain(cell, dto)
  {
    var base, source := BaseText(cell, dto), Parsed(dto.yaml);
    if MergingPolicy(dto.policy) && !base.Garbled? {
      ClashIffListInBoth(source, source);
      if !Clash(Parsed(base), source) {
        UpdateTwiceFaultsIff(Parsed(base), source);
      }
    }
  }

  lemma PutTwice(w: World, w1: World, w2: World, dto: SaveConfig)
    requires !dto.yaml.Garbled?
    requires Put(w, dto, Parsed(dto.yaml)).1 == w1
    requires CellAt(w2.store, PlaceOf(dto)) == CellAt(w1.store, PlaceOf(dto))
    ensures var again := CellAt(Put(w2, dto, Parsed(dto.yaml)).1.store, PlaceOf(dto));
            again == CellAt(w2.store, PlaceOf(dto)) <==> !Wipes(CellAt(w.store, PlaceOf(dto)), dto)
    ensures !Wipes(CellAt(w.store, PlaceOf(dto)), dto) ==> Put(w2, dto, Parsed(dto.yaml)).1.store == w2.store
  {
    PutCellTwice(CellAt(w.store, PlaceOf(dto)), dto);
    var cell := PutCell(CellAt(w.store, PlaceOf(dto)), dto, Parsed(dto.yaml)).1;
    assert w2.store[PlaceOf(dto) := cell] == w2.store;
  }

  /** The gateway's second write is reached both times: the first one does not panic. */
  ghost predicate PassesTwice(cell: Option<ConfigMap>, dto: SaveConfig)
    requires !dto.yaml.Garbled?
  {
    !PutPanics(cell, dto) && !PanicsAgain(cell, dto)
  }

  /** The save finds a text that does not parse where a policy merges. That of the
      gateway's rest counts only if both saves get that far. */
  ghost predicate WipesAny(w: World, dto: SaveConfig) {
    && Valid(dto) && !dto.yaml.Garbled?
    && var source := Parsed(dto.yaml);
       if dto.service != GATEWAY then Wipes(CellAt(w.store, PlaceOf(dto)), dto)
       else Separable(source) && WipesParts(w, dto, RestPart(source), RoutesPart(source))
  }

  ghost predicate WipesParts(w: World, dto: SaveConfig, rest: Tree, routes: Tree)
    requires IsRoot(rest) && IsRoot(routes)
  {
    var first, second := RouteDto(dto, Printed(routes)), dto.(yaml := Printed(rest));
    || Wipes(CellAt(w.store, PlaceOf(first)), first)
    || (PassesTwice(CellAt(w.store, PlaceOf(first)), first) && Wipes(CellAt(w.store, PlaceOf(second)), second))
  }

  /** A save repeated leaves the cluster as it was, exactly unless the first wiped a text
      that did not parse. Saves that panic are no exception. */
  lemma SaveTwice(w: World, dto: SaveConfig)
    ensures var w1 := SaveEffect(w, dto).1;
            SaveEffect(w1, dto).1.store == w1.store <==> !WipesAny(w, dto)
  {
    if Valid(dto) && !dto.yaml.Garbled? {
      var source, w1 := Parsed(dto.yaml), SaveEffect(w, dto).1;
      if dto.service != GATEWAY {
        PutTwice(w, w1, w1, dto);
      } else if Separable(source) {
        PartsTwice(w, dto, RestPart(source), RoutesPart(source));
      }
    }
  }

  lemma PartsTwice(w: World, dto: SaveConfig, rest: Tree, routes: Tree)
    requires IsRoot(rest) && IsRoot(routes) && dto.service == GATEWAY
    ensures var w1 := PutParts(w, dto, rest, routes).1;
            PutParts(w1, dto, rest, routes).1.store == w1.store <==> !WipesParts(w, dto, rest, routes)
  {
    var first, second := RouteDto(dto, Printed(routes)), dto.(yaml := Printed(rest));
    var cell := CellAt(w.store, PlaceOf(first));
    var a := Put(w, first, routes).1;
    PutFaultsIff(cell, first);
    if Put(w, first, routes).0 == Fault {
      PutTwice(w, a, a, first);
      PutCellTwice(cell, first);
    } else {
      var b := Put(a, second, rest).1;
      var c := Put(b, first, routes).1;
      PutTwice(w, a, b, first);
      PutAgainFaultsIff(cell, first);
      if Put(b, first, routes).0 != Fault {
        RestTwice(w, a, b, c, first, second, rest);
      }
    }
  }

  lemma RestTwice(w: World, a: World, b: World, c: World, first: SaveConfig, second: SaveConfig, rest: Tree)
    requires IsRoot(rest) && second.yaml == Printed(rest) && PlaceOf(first) != PlaceOf(second)
    requires b == Put(a, second, rest).1
    requires CellAt(a.store, PlaceOf(second)) == CellAt(w.store, PlaceOf(second))
    requires CellAt(c.store, PlaceOf(second)) == CellAt(b.store, PlaceOf(second))
    requires c.store == b.store || CellAt(c.store, PlaceOf(first)) != CellAt(b.store, PlaceOf(first))
    ensures Put(c, second, rest).1.store == b.store <==>
            c.store == b.store && !Wipes(CellAt(w.store, PlaceOf(second)), second)
  {
    PutTwice(a, b, c, second);
    var d := Put(c, second, rest).1;
    assert CellAt(d.store, PlaceOf(first)) == CellAt(c.store, PlaceOf(first));
  }
}
