/** The list of applications, and the two views that must agree with it. */
module Applications {
  import opened Keys
  import opened Instances
  import opened Registry
  import opened Repository

  // ---------- views, as values ----------

  datatype AppView = AppView(name: string, instances: seq<InstanceData>)

  /** The instances of one application. */
  function OfApp(store: Store, app: string): set<InstanceData> {
    set id | id in store && store[id].app == app :: store[id]
  }

  /** Every instance is listed exactly once, in the only application with its name,
      and no application is empty. */
  predicate Partitions(view: seq<AppView>, store: Store) {
    && (forall i, j :: 0 <= i < j < |view| ==> view[i].name != view[j].name)
    && (forall i :: 0 <= i < |view| ==> view[i].instances != [])
    && (forall i :: 0 <= i < |view| ==> multiset(view[i].instances) == multiset(OfApp(store, view[i].name)))
    && (forall id :: id in store ==> Named(view, store[id].app))
  }

  predicate Named(view: seq<AppView>, app: string) {
    exists i :: 0 <= i < |view| && view[i].name == app
  }

  function WithInstance(view: seq<AppView>, i: nat, ins: InstanceData): seq<AppView>
    requires i < |view|
  {
    view[i := AppView(view[i].name, view[i].instances + [ins])]
  }

  lemma OfAppGrows(store: Store, id: string, ins: InstanceData, app: string)
    requires KeyedStore(store) && id !in store && ins.instanceId == id
    ensures multiset(OfApp(store[id := ins], app)) ==
            if app == ins.app then multiset(OfApp(store, app)) + multiset{ins} else multiset(OfApp(store, app))
  {
    var next := store[id := ins];
    assert OfApp(next, app) == if app == ins.app then OfApp(store, app) + {ins} else OfApp(store, app) by {
      forall x | x in OfApp(store, app)
        ensures x in OfApp(next, app)
      {
        assert x.instanceId in next && next[x.instanceId] == x;
      }
      if app == ins.app {
        assert next[id] == ins;
      }
    }
    assert ins !in OfApp(store, app);
  }

  /** The application of a further instance is there already. */
  lemma JoinsApp(view: seq<AppView>, store: Store, i: nat, id: string, ins: InstanceData)
    requires Partitions(view, store) && KeyedStore(store) && id !in store && ins.instanceId == id
    requires i < |view| && view[i].name == ins.app
    ensures Partitions(WithInstance(view, i, ins), store[id := ins])
  {
    var next := WithInstance(view, i, ins);
    forall j | 0 <= j < |next|
      ensures multiset(next[j].instances) == multiset(OfApp(store[id := ins], next[j].name))
    {
      OfAppGrows(store, id, ins, next[j].name);
    }
    var larger := store[id := ins];
    forall x | x in larger
      ensures Named(next, larger[x].app)
    {
      SameNames(view, i, ins, larger[x].app);
    }
  }

  lemma SameNames(view: seq<AppView>, i: nat, ins: InstanceData, app: string)
    requires i < |view|
    ensures Named(WithInstance(view, i, ins), app) <==> Named(view, app)
  {
    var next := WithInstance(view, i, ins);
    assert forall j :: 0 <= j < |view| ==> next[j].name == view[j].name;
  }

  /** A further instance opens an application. */
  lemma OpensApp(view: seq<AppView>, store: Store, id: string, ins: InstanceData)
    requires Partitions(view, store) && KeyedStore(store) && id !in store && ins.instanceId == id
    requires !Named(view, ins.app)
    ensures Partitions(view + [AppView(ins.app, [ins])], store[id := ins])
  {
    var next := view + [AppView(ins.app, [ins])];
    OfAppGrows(store, id, ins, ins.app);
    assert OfApp(store, ins.app) == {};
    forall j | 0 <= j < |view|
      ensures next[j] == view[j] && next[j].name != ins.app
      ensures multiset(next[j].instances) == multiset(OfApp(store[id := ins], next[j].name))
    {
      OfAppGrows(store, id, ins, next[j].name);
    }
    var larger := store[id := ins];
    forall x | x in larger
      ensures Named(next, larger[x].app)
    {
      if x == id {
        assert next[|view|].name == ins.app;
      } else {
        var j :| 0 <= j < |view| && view[j].name == store[x].app;
        assert next[j].name == store[x].app;
      }
    }
  }

  function Up(s: seq<InstanceData>, up: bool): seq<InstanceData> {
    if s == [] then []
    else
      var rest := Up(s[..|s| - 1], up);
      if (s[|s| - 1].status == UP) == up then rest + [s[|s| - 1]] else rest
  }

  /** Up and down instances together are all. */
  lemma {:induction false} UpSplits(s: seq<InstanceData>, x: InstanceData)
    ensures multiset(Up(s, true))[x] == if x.status == UP then multiset(s)[x] else 0
    ensures multiset(Up(s, false))[x] == if x.status == UP then 0 else multiset(s)[x]
  {
    if s != [] {
      UpSplits(s[..|s| - 1], x);
      assert s == s[..|s| - 1] + [s[|s| - 1]];
    }
  }

  lemma {:induction false} UpCounts(s: seq<InstanceData>)
    ensures |Up(s, true)| + |Up(s, false)| == |s|
  {
    if s != [] {
      UpCounts(s[..|s| - 1]);
    }
  }

  /** What a service's instances should be. */
  function UpOf(store: Store, service: string): set<InstanceData> {
    set x | x in OfApp(store, service) && x.status == UP
  }

  /** The page's available instances of an application are those of the service. */
  lemma AvailableIsService(view: seq<AppView>, store: Store, i: nat)
    requires Partitions(view, store) && i < |view|
    ensures multiset(Up(view[i].instances, true)) == multiset(UpOf(store, view[i].name))
  {
    forall x
      ensures multiset(Up(view[i].instances, true))[x] == multiset(UpOf(store, view[i].name))[x]
    {
      UpSplits(view[i].instances, x);
    }
  }

  /** The two views agree: what is found for a service are the available instances of
      the application that bears its name, and nothing if there is none. */
  lemma ViewsAgree(view: seq<AppView>, store: Store, service: string, found: seq<InstanceData>)
    requires Partitions(view, store) && multiset(found) == multiset(UpOf(store, service))
    ensures forall i :: 0 <= i < |view| && view[i].name == service ==>
              multiset(found) == multiset(Up(view[i].instances, true))
    ensures !Named(view, service) ==> found == []
  {
    forall i | 0 <= i < |view| && view[i].name == service
      ensures multiset(found) == multiset(Up(view[i].instances, true))
    {
      AvailableIsService(view, store, i);
    }
    if !Named(view, service) {
      assert UpOf(store, service) == {};
      assert |multiset(found)| == 0;
    }
  }

  // ---------- the code ----------

  class Application {
    const name: string
    var instances: seq<Instance>

    constructor (name: string)
      ensures this.name == name && instances == []
    {
      this.name, instances := name, [];
    }
  }

  /** What the instances hold while a list is made of them. */
  type Contents = map<Instance, InstanceData>

  ghost predicate Frozen(held: Contents)
    reads held.Keys
  {
    forall o :: o in held ==> o.data == held[o]
  }

  predicate Carries(held: Contents, objects: seq<Instance>, values: seq<InstanceData>) {
    |objects| == |values| && forall i :: 0 <= i < |objects| ==> objects[i] in held && held[objects[i]] == values[i]
  }

  ghost predicate ShowsApp(held: Contents, a: Application, v: AppView)
    reads a
  {
    a.name == v.name && Carries(held, a.instances, v.instances)
  }

  ghost predicate ShowsList(held: Contents, list: seq<Application>, view: seq<AppView>)
    reads list
  {
    |list| == |view| && forall i :: 0 <= i < |list| ==> ShowsApp(held, list[i], view[i])
  }

  /** The map finds each application of the list by its name. */
  ghost predicate Finds(appMap: map<string, Application>, list: seq<Application>) {
    && (forall i :: 0 <= i < |list| ==> list[i].name in appMap && appMap[list[i].name] == list[i])
    && (forall name :: name in appMap ==> appMap[name] in list && appMap[name].name == name)
  }

  method OpenApp(list: seq<Application>, appMap: map<string, Application>, instance: Instance,
                 ghost held: Contents, ghost view: seq<AppView>)
    returns (list': seq<Application>, appMap': map<string, Application>)
    requires ShowsList(held, list, view) && Finds(appMap, list)
    requires Frozen(held) && instance in held && held[instance].app !in appMap
    ensures ShowsList(held, list', view + [AppView(held[instance].app, [held[instance]])]) && Finds(appMap', list')
    ensures forall a :: a in list' ==> a in list || fresh(a)
  {
    var app := new Application(instance.data.app);
    app.instances := app.instances + [instance];
    list', appMap' := list + [app], appMap[instance.data.app := app];
  }

  method JoinApp(list: seq<Application>, app: Application, instance: Instance,
                 ghost held: Contents, ghost view: seq<AppView>, ghost i: nat)
    requires ShowsList(held, list, view) && i < |list| && list[i] == app
    requires Frozen(held) && instance in held
    requires forall j :: 0 <= j < |list| && list[j] == app ==> j == i
    modifies app
    ensures ShowsList(held, list, WithInstance(view, i, held[instance]))
  {
    app.instances := app.instances + [instance];
  }

  /** The applications so far partition the instances so far. */
  ghost predicate Grouping(held: Contents, list: seq<Application>, appMap: map<string, Application>, view: seq<AppView>,
                           store: Store)
    reads list
  {
    ShowsList(held, list, view) && Finds(appMap, list) && Partitions(view, store) && KeyedStore(store)
  }

  lemma NamedIffFound(held: Contents, list: seq<Application>, appMap: map<string, Application>, view: seq<AppView>,
                      name: string)
    requires ShowsList(held, list, view) && Finds(appMap, list)
    ensures Named(view, name) <==> name in appMap
  {
    if name in appMap {
      var i :| 0 <= i < |list| && list[i] == appMap[name];
      assert ShowsApp(held, list[i], view[i]);
    }
    if i :| 0 <= i < |view| && view[i].name == name {
      assert ShowsApp(held, list[i], view[i]);
    }
  }

  lemma FoundAt(held: Contents, list: seq<Application>, appMap: map<string, Application>, view: seq<AppView>,
                store: Store, name: string)
    returns (i: nat)
    requires Grouping(held, list, appMap, view, store) && name in appMap
    ensures i < |list| && list[i] == appMap[name] && view[i].name == name
    ensures forall j :: 0 <= j < |list| && list[j] == appMap[name] ==> j == i
  {
    i :| 0 <= i < |list| && list[i] == appMap[name];
    assert ShowsApp(held, list[i], view[i]);
    forall j | 0 <= j < |list| && list[j] == appMap[name]
      ensures j == i
    {
      assert ShowsApp(held, list[j], view[j]);
    }
  }

  /** One turn of the loop: the instance joins its application, or opens it. */
  method Place(list: seq<Application>, appMap: map<string, Application>, instance: Instance,
               ghost held: Contents, ghost view: seq<AppView>, ghost store: Store)
    returns (list': seq<Application>, appMap': map<string, Application>, ghost view': seq<AppView>)
    requires Grouping(held, list, appMap, view, store)
    requires Frozen(held) && instance in held && held[instance].instanceId !in store
    modifies list
    ensures Grouping(held, list', appMap', view', store[held[instance].instanceId := held[instance]])
    ensures forall a :: a in list' ==> a in list || fresh(a)
  {
    var name := instance.data.app;
    KeyedGrows(store, held[instance]);
    NamedIffFound(held, list, appMap, view, name);
    if name !in appMap {
      list', appMap' := OpenApp(list, appMap, instance, held, view);
      view' := view + [AppView(name, [held[instance]])];
      OpensApp(view, store, held[instance].instanceId, held[instance]);
    } else {
      view' := PlaceInApp(list, appMap, appMap[name], instance, held, view, store);
      list', appMap' := list, appMap;
    }
  }

  lemma KeyedGrows(store: Store, ins: InstanceData)
    requires KeyedStore(store)
    ensures KeyedStore(store[ins.instanceId := ins])
  {
  }

  method PlaceInApp(list: seq<Application>, appMap: map<string, Application>, app: Application, instance: Instance,
                    ghost held: Contents, ghost view: seq<AppView>, ghost store: Store)
    returns (ghost view': seq<AppView>)
    requires Grouping(held, list, appMap, view, store)
    requires Frozen(held) && instance in held && held[instance].instanceId !in store
    requires held[instance].app in appMap && appMap[held[instance].app] == app
    modifies app
    ensures ShowsList(held, list, view')
    ensures Partitions(view', store[held[instance].instanceId := held[instance]])
  {
    ghost var i := FoundAt(held, list, appMap, view, store, held[instance].app);
    JoinApp(list, app, instance, held, view, i);
    view' := WithInstance(view, i, held[instance]);
    JoinsApp(view, store, i, held[instance].instanceId, held[instance]);
  }

  ghost predicate Part(done: Store, all: Store, todo: set<string>) {
    && (forall id :: id in done <==> id in all && id !in todo)
    && (forall id :: id in done ==> done[id] == all[id])
  }

  lemma PartStep(done: Store, all: Store, todo: set<string>, id: string)
    requires Part(done, all, todo) && id in todo && id in all
    ensures Part(done[id := all[id]], all, todo - {id})
  {
  }

  lemma PartAll(done: Store, all: Store)
    requires Part(done, all, {})
    ensures done == all
  {
  }

  /** Each object of a store carries its instance. */
  ghost predicate HeldAs(held: Contents, objects: Objects, values: Store) {
    objects.Keys == values.Keys && forall id :: id in objects ==> objects[id] in held && held[objects[id]] == values[id]
  }

  lemma OverlayHeld(held: Contents, a: Objects, x: Store, b: Objects, y: Store)
    requires HeldAs(held, a, x) && HeldAs(held, b, y) && KeyedStore(x) && KeyedStore(y)
    ensures HeldAs(held, a + b, x + y) && KeyedStore(x + y)
  {
  }

  /** The loop over `InstanceStore`, in any order. */
  method GroupInstances(objects: Objects, ghost held: Contents, ghost values: Store)
    returns (list: seq<Application>, ghost view: seq<AppView>)
    requires Frozen(held) && HeldAs(held, objects, values) && KeyedStore(values)
    ensures ShowsList(held, list, view) && Partitions(view, values)
    ensures fresh(list)
  {
    list, view := [], [];
    var appMap: map<string, Application> := map[];
    var todo := objects.Keys;
    ghost var done: Store := map[];
    while todo != {}
      invariant todo <= objects.Keys && Part(done, values, todo)
      invariant Grouping(held, list, appMap, view, done)
      invariant fresh(list)
      decreases todo
    {
      var id :| id in todo;
      list, appMap, view := Place(list, appMap, objects[id], held, view, done);
      PartStep(done, values, todo, id);
      todo, done := todo - {id}, done[id := values[id]];
    }
    PartAll(done, values);
  }

  /** `GetApplicationResources`: the overlay goes into the list first. */
  method GetApplicationResources(repo: ApplicationRepository, ghost s: State, ghost held: Contents)
    returns (list: seq<Application>, ghost view: seq<AppView>)
    requires repo.Holds(s) && Keyed(s)
    requires Frozen(held) && HeldAs(held, repo.instanceStore, s.instances)
    requires HeldAs(held, repo.customInstanceStore, s.overlay)
    modifies repo
    ensures repo.Holds(s.(instances := s.instances + s.overlay))
    ensures ShowsList(held, list, view) && Partitions(view, s.instances + s.overlay)
  {
    OverlayHeld(held, repo.instanceStore, s.instances, repo.customInstanceStore, s.overlay);
    repo.CopyOverlay(s);
    list, view := GroupInstances(repo.instanceStore, held, s.instances + s.overlay);
  }

  lemma UpOfGrows(store: Store, id: string, ins: InstanceData, service: string)
    requires KeyedStore(store) && id !in store && ins.instanceId == id
    ensures multiset(UpOf(store[id := ins], service)) ==
            if ins.app == service && ins.status == UP then multiset(UpOf(store, service)) + multiset{ins}
            else multiset(UpOf(store, service))
  {
    OfAppGrows(store, id, ins, service);
    forall x
      ensures x in OfApp(store[id := ins], service) <==> x in OfApp(store, service) || (ins.app == service && x == ins)
    {
      assert x in OfApp(store[id := ins], service) <==> x in multiset(OfApp(store[id := ins], service));
    }
    assert ins !in OfApp(store, service);
  }

  /** `GetInstancesByService`: the loop over `InstanceStore`, in any order. */
  method InstancesOf(objects: Objects, service: string, ghost held: Contents, ghost values: Store)
    returns (instances: seq<Instance>, ghost found: seq<InstanceData>)
    requires Frozen(held) && HeldAs(held, objects, values) && KeyedStore(values)
    ensures Carries(held, instances, found)
    ensures multiset(found) == multiset(UpOf(values, service))
  {
    instances, found := [], [];
    var todo := objects.Keys;
    ghost var done: Store := map[];
    while todo != {}
      invariant todo <= objects.Keys && Part(done, values, todo)
      invariant Carries(held, instances, found)
      invariant multiset(found) == multiset(UpOf(done, service))
      decreases todo
    {
      var id :| id in todo;
      var instance := objects[id];
      UpOfGrows(done, id, values[id], service);
      if instance.data.app == service && instance.data.status == UP {
        instances, found := instances + [instance], found + [values[id]];
      }
      PartStep(done, values, todo, id);
      todo, done := todo - {id}, done[id := values[id]];
    }
    PartAll(done, values);
  }

  method GetInstancesByService(repo: ApplicationRepository, service: string, ghost s: State, ghost held: Contents)
    returns (instances: seq<Instance>, ghost found: seq<InstanceData>)
    requires repo.Holds(s) && Keyed(s)
    requires Frozen(held) && HeldAs(held, repo.instanceStore, s.instances)
    requires HeldAs(held, repo.customInstanceStore, s.overlay)
    modifies repo
    ensures repo.Holds(s.(instances := s.instances + s.overlay))
    ensures Carries(held, instances, found)
    ensures multiset(found) == multiset(UpOf(s.instances + s.overlay, service))
  {
    OverlayHeld(held, repo.instanceStore, s.instances, repo.customInstanceStore, s.overlay);
    repo.CopyOverlay(s);
    instances, found := InstancesOf(repo.instanceStore, service, held, s.instances + s.overlay);
  }

  // ---------- the page ----------

  datatype EurekaInstance = EurekaInstance(name: string, amis: string, availabilityZones: nat,
                                           available: seq<Instance>, inAvailable: seq<Instance>)

  const REGISTER_SERVER := "go-register-server"

  method CovertApplicationToEurekaInfo(application: Application, ghost held: Contents, ghost v: AppView)
    returns (available: seq<Instance>, inAvailable: seq<Instance>)
    requires Frozen(held) && ShowsApp(held, application, v)
    ensures Carries(held, available, Up(v.instances, true))
    ensures Carries(held, inAvailable, Up(v.instances, false))
  {
    available, inAvailable := [], [];
    for i := 0 to |application.instances|
      invariant Carries(held, available, Up(v.instances[..i], true))
      invariant Carries(held, inAvailable, Up(v.instances[..i], false))
    {
      var value := application.instances[i];
      assert v.instances[..i + 1][..i] == v.instances[..i];
      if value.data.status == UP {
        available := available + [value];
      } else {
        inAvailable := inAvailable + [value];
      }
    }
    assert v.instances[..|v.instances|] == v.instances;
  }

  /** A row of the page: an application's instances by status, and how many of how many are up. */
  ghost predicate ShowsInfo(held: Contents, info: EurekaInstance, v: AppView) {
    && info.name == v.name
    && Carries(held, info.available, Up(v.instances, true))
    && Carries(held, info.inAvailable, Up(v.instances, false))
    && info.availabilityZones == |Up(v.instances, true)|
    && info.amis == Decimal(|Up(v.instances, true)|) + "/" + Decimal(|v.instances|)
  }

  method GetEurekaApplicationInfos(list: seq<Application>, ghost held: Contents, ghost view: seq<AppView>)
    returns (register: seq<Instance>, infos: seq<EurekaInstance>)
    requires Frozen(held) && ShowsList(held, list, view)
    requires forall i, j :: 0 <= i < j < |view| ==> view[i].name != view[j].name
    ensures |infos| == |view| && forall i :: 0 <= i < |view| ==> ShowsInfo(held, infos[i], view[i])
    ensures forall i :: 0 <= i < |view| && view[i].name == REGISTER_SERVER ==> register == infos[i].available
    ensures !Named(view, REGISTER_SERVER) ==> register == []
  {
    register, infos := [], [];
    for i := 0 to |list|
      invariant |infos| == i && forall j :: 0 <= j < i ==> ShowsInfo(held, infos[j], view[j])
      invariant forall j :: 0 <= j < i && view[j].name == REGISTER_SERVER ==> register == infos[j].available
      invariant (forall j :: 0 <= j < i ==> view[j].name != REGISTER_SERVER) ==> register == []
    {
      assert ShowsApp(held, list[i], view[i]);
      var available, inAvailable := CovertApplicationToEurekaInfo(list[i], held, view[i]);
      UpCounts(view[i].instances);
      infos := infos + [EurekaInstance(list[i].name, Decimal(|available|) + "/" + Decimal(|available| + |inAvailable|),
                                       |available|, available, inAvailable)];
      if list[i].name == REGISTER_SERVER {
        register := available;
      }
    }
  }
}
