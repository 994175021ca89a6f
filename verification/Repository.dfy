/** The in-memory stores of one replica, holding instances by reference. */
module Repository {
  import opened Trees
  import opened Instances
  import opened Registry

  class Instance {
    var data: InstanceData

    constructor (data: InstanceData)
      ensures this.data == data
    {
      this.data := data;
    }
  }

  type Objects = map<string, Instance>

  /** The objects of a store carry these values. */
  ghost predicate Shows(objects: Objects, values: Store)
    reads objects.Values
  {
    objects.Keys == values.Keys && forall id :: id in objects ==> objects[id].data == values[id]
  }

  lemma ShowsDrop(a: Objects, x: Store, id: string)
    requires Shows(a, x)
    ensures Shows(a - {id}, x - {id})
    ensures (a - {id}).Values <= a.Values
    ensures KeyedStore(x) ==> forall o :: o in (a - {id}).Values ==> o.data.instanceId != id
  {
  }

  lemma ShowsOverride(a: Objects, x: Store, b: Objects, y: Store)
    requires Shows(a, x) && Shows(b, y)
    ensures Shows(a + b, x + y)
  {
  }

  lemma OverrideStep<V>(a: map<string, V>, b: map<string, V>, todo: set<string>, id: string)
    requires id in todo && todo <= b.Keys
    ensures a + (b - (todo - {id})) == (a + (b - todo))[id := b[id]]
  {
  }

  class ApplicationRepository {
    var namespaceStore: map<string, string>
    var instanceStore: Objects
    var customInstanceStore: Objects

    constructor ()
      ensures Holds(EMPTY)
    {
      namespaceStore, instanceStore, customInstanceStore := map[], map[], map[];
    }

    /** The stores are in this state. */
    ghost predicate Holds(s: State)
      reads this, instanceStore.Values, customInstanceStore.Values
    {
      && namespaceStore == s.owners
      && Shows(instanceStore, s.instances)
      && Shows(customInstanceStore, s.overlay)
    }

    /** All objects in the stores. */
    ghost function Reached(): set<Instance>
      reads this
    {
      instanceStore.Values + customInstanceStore.Values
    }

    method Register(instance: Instance, key: string, ghost s: State) returns (ok: bool)
      requires Holds(s)
      modifies this
      ensures ok <==> key !in s.owners
      ensures Holds(AddPod(s, key, instance.data))
      ensures Reached() <= old(Reached()) + {instance}
    {
      if key in namespaceStore {
        return false;
      }
      namespaceStore := namespaceStore[key := instance.data.instanceId];
      instanceStore := instanceStore[instance.data.instanceId := instance];
      ok := true;
    }

    /** The instance returned is out of all stores. */
    method DeleteInstance(key: string, ghost s: State) returns (r: Option<Instance>)
      requires Holds(s) && Keyed(s)
      modifies this
      ensures Holds(DropOwner(s, key))
      ensures r.Some? <==> key in s.owners && s.owners[key] in s.instances
      ensures r.Some? ==> r.value.data == s.instances[s.owners[key]] && r.value in old(Reached()) - Reached()
      ensures Reached() <= old(Reached())
    {
      r := None;
      if key in namespaceStore {
        var value := namespaceStore[key];
        ShowsDrop(customInstanceStore, s.overlay, value);
        ShowsDrop(instanceStore, s.instances, value);
        r := Forget(key, value);
      }
    }

    /** Takes an owner key and its id out of the stores. */
    method Forget(key: string, value: string) returns (r: Option<Instance>)
      modifies this
      ensures namespaceStore == old(namespaceStore) - {key}
      ensures customInstanceStore == old(customInstanceStore) - {value}
      ensures instanceStore == old(instanceStore) - {value}
      ensures r == if value in old(instanceStore) then Some(old(instanceStore)[value]) else None
    {
      customInstanceStore := customInstanceStore - {value};
      namespaceStore := namespaceStore - {key};
      r := None;
      if value in instanceStore {
        r := Some(instanceStore[value]);
      }
      instanceStore := instanceStore - {value};
    }

    /** Stores an object in the overlay. */
    method StoreCustom(id: string, instance: Instance, ghost s: State)
      requires Holds(s)
      modifies this
      ensures Holds(s.(overlay := s.overlay[id := instance.data]))
      ensures Reached() <= old(Reached()) + {instance}
    {
      customInstanceStore := customInstanceStore[id := instance];
    }

    /** What every read of the list starts with: the overlay is copied, in any order. */
    method CopyOverlay(ghost s: State)
      requires Holds(s)
      modifies this
      ensures Holds(s.(instances := s.instances + s.overlay))
      ensures instanceStore == old(instanceStore) + old(customInstanceStore)
    {
      var todo := customInstanceStore.Keys;
      while todo != {}
        invariant todo <= customInstanceStore.Keys
        invariant namespaceStore == old(namespaceStore) && customInstanceStore == old(customInstanceStore)
        invariant instanceStore == old(instanceStore) + (customInstanceStore - todo)
        decreases todo
      {
        var id :| id in todo;
        OverrideStep(old(instanceStore), customInstanceStore, todo, id);
        instanceStore := instanceStore[id := customInstanceStore[id]];
        todo := todo - {id};
      }
      assert customInstanceStore - todo == customInstanceStore;
      ShowsOverride(old(instanceStore), s.instances, customInstanceStore, s.overlay);
    }
  }

  /** Sets the defaults of a request, field by field. */
  method ImpInstance(instance: Instance, now: nat)
    modifies instance
    ensures instance.data == WithDefaults(old(instance.data), now)
  {
    if |instance.data.status| == 0 {
      instance.data := instance.data.(status := UP);
    }
    if "provisioner" !in instance.data.metadata {
      instance.data := instance.data.(metadata := instance.data.metadata["provisioner" := "custom"]);
    }
    SetPages(instance);
    SetFixed(instance);
    SetTimes(instance, now);
  }

  method SetTimes(instance: Instance, now: nat)
    modifies instance
    ensures var was := old(instance.data);
            instance.data == was.(
              registered := if was.registered == 0 then now else was.registered,
              details := was.details.(lastRenewalTimestamp := now, serviceUpTimestamp := now,
                                      lastUpdatedTimestamp := now, lastDirtyTimestamp := now))
  {
    var d := instance.data.details;
    if instance.data.registered == 0 {
      instance.data := instance.data.(registered := now);
    }
    instance.data := instance.data.(details := d.(lastRenewalTimestamp := now, serviceUpTimestamp := now,
                                                  lastUpdatedTimestamp := now, lastDirtyTimestamp := now));
  }

  /** Pages that the request does not give. */
  method SetPages(instance: Instance)
    modifies instance
    ensures var was := old(instance.data); var d := was.details;
            instance.data == was.(details := d.(
              homePageUrl := if d.homePageUrl != "" then d.homePageUrl else Page(was.ipAddr, NumberText(was.port), "/"),
              statusPageUrl := if d.statusPageUrl != "" then d.statusPageUrl
                               else Page(was.ipAddr, NumberText(NextPort(was.port)), "/actuator/info"),
              healthCheckUrl := if d.healthCheckUrl != "" then d.healthCheckUrl
                                else Page(was.ipAddr, NumberText(NextPort(was.port)), "/actuator/health")))
  {
    var d, ip, next := instance.data.details, instance.data.ipAddr, NumberText(NextPort(instance.data.port));
    if |d.homePageUrl| == 0 {
      d := d.(homePageUrl := "http://" + ip + ":" + NumberText(instance.data.port) + "/");
    }
    if |d.statusPageUrl| == 0 {
      d := d.(statusPageUrl := "http://" + ip + ":" + next + "/actuator/info");
    }
    if |d.healthCheckUrl| == 0 {
      d := d.(healthCheckUrl := "http://" + ip + ":" + next + "/actuator/health");
    }
    instance.data := instance.data.(details := d);
  }

  /** Fields that every registration overwrites. */
  method SetFixed(instance: Instance)
    modifies instance
    ensures var was := old(instance.data);
            instance.data == was.(details := was.details.(
              hostName := was.ipAddr, overriddenStatus := UNKNOWN, countryId := 8, actionType := ADDED,
              coordinating := true, vipAddress := was.app, secureVipAddress := was.app,
              dataCenterName := DATA_CENTRE_NAME, dataCenterClass := DATA_CENTRE_CLASS,
              durationInSecs := 90, evictionTimestamp := 0, renewalIntervalInSecs := 10))
  {
    var ins := instance.data;
    var d := ins.details.(hostName := ins.ipAddr, overriddenStatus := UNKNOWN, countryId := 8, actionType := ADDED);
    d := d.(coordinating := true, vipAddress := ins.app, secureVipAddress := ins.app);
    d := d.(dataCenterName := DATA_CENTRE_NAME, dataCenterClass := DATA_CENTRE_CLASS);
    d := d.(durationInSecs := 90, evictionTimestamp := 0, renewalIntervalInSecs := 10);
    instance.data := ins.(details := d);
  }

  /** The instance of a ready pod; its metadata are filled in one by one. */
  method ConvertPod2Instance(pod: Pod, now: nat) returns (instance: Instance)
    requires Ready(pod)
    ensures fresh(instance) && instance.data == PodInstance(pod, now)
  {
    var serviceName := pod.labels[SERVICE_LABEL];
    var port := 0;
    if |pod.ports[0]| > 0 {
      port := pod.ports[0][0];
    }
    var instanceId := pod.podIP + ":" + serviceName + ":" + NumberText(port);
    var homePage := "http://" + pod.podIP + ":" + NumberText(port) + "/";
    var statusPageUrl := "http://" + pod.podIP + ":" + pod.labels[PORT_LABEL] + "/actuator/info";
    var healthCheckUrl := "http://" + pod.podIP + ":" + pod.labels[PORT_LABEL] + "/actuator/health";
    var details := Details(pod.podIP, UNKNOWN, serviceName, serviceName, homePage, statusPageUrl, healthCheckUrl,
                           8, ADDED, true, DATA_CENTRE_NAME, DATA_CENTRE_CLASS,
                           true, 443, false, 10, 90, 0, now, now, now, now);
    instance := new Instance(InstanceData(instanceId, serviceName, pod.podIP, port, UP, map[], now, details));
    var meteData: Metadata := map[];
    meteData := meteData["provisioner" := "pod"];
    meteData := meteData["pod-self-link" := pod.namespace + "/" + pod.name];
    meteData := meteData["version" := pod.labels[VERSION_LABEL]];
    if CONTEXT_PATH_LABEL in pod.labels {
      meteData := meteData["context-path" := pod.labels[CONTEXT_PATH_LABEL]];
    }
    instance.data := instance.data.(metadata := meteData);
  }

  /** Edits the metadata of a copy, entry by entry in any order. */
  method EditCopy(copy: Instance, req: Metadata)
    modifies copy
    ensures copy.data == old(copy.data).(metadata := EditMetadata(old(copy.data.metadata), req))
  {
    ghost var before := copy.data;
    var todo := req.Keys;
    EditNothing(copy.data.metadata, req);
    while todo != {}
      invariant todo <= req.Keys
      invariant copy.data == before.(metadata := EditMetadata(before.metadata, req - todo))
      decreases todo
    {
      var k :| k in todo;
      EditOne(before.metadata, req, todo, k);
      if !Protected(k) {
        if req[k] == "" {
          copy.data := copy.data.(metadata := copy.data.metadata - {k});
        } else {
          copy.data := copy.data.(metadata := copy.data.metadata[k := req[k]]);
        }
      }
      todo := todo - {k};
    }
    assert req - todo == req;
  }

  lemma EditNothing(m: Metadata, req: Metadata)
    ensures EditMetadata(m, req - req.Keys) == m
  {
    assert req - req.Keys == map[];
  }

  lemma EditOne(m: Metadata, req: Metadata, todo: set<string>, k: string)
    requires k in todo && todo <= req.Keys
    ensures EditMetadata(m, req - (todo - {k})) ==
            var e := EditMetadata(m, req - todo);
            if Protected(k) then e else if req[k] == "" then e - {k} else e[k := req[k]]
  {
  }
}
