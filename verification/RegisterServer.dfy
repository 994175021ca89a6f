/** The handlers of one replica, each proved to take a step of the registry. */
module RegisterServer {
  import opened Trees
  import opened Overlay
  import opened Instances
  import opened Registry
  import opened Repository

  /** The data of the shared ConfigMap, its texts parsed. */
  class RegisterMap {
    var data: Store

    constructor ()
      ensures data == map[]
    {
      data := map[];
    }
  }

  class Server {
    const repo: ApplicationRepository
    const configMap: RegisterMap
    const namespaces: seq<string>

    constructor (repo: ApplicationRepository, configMap: RegisterMap, namespaces: seq<string>)
      ensures this.repo == repo && this.configMap == configMap && this.namespaces == namespaces
    {
      this.repo, this.configMap, this.namespaces := repo, configMap, namespaces;
    }

    ghost predicate Holds(s: State)
      reads repo, repo.Reached(), configMap
    {
      repo.Holds(s) && configMap.data == s.cm
    }

    /** An update of the ConfigMap, which the server accepts. */
    method StoreData(data: Store, ghost s: State)
      requires repo.Holds(s)
      modifies configMap
      ensures Holds(s.(cm := data))
    {
      configMap.data := data;
    }

    /** `DeleteInstanceFromConfigMap`. */
    method DeleteFromConfigMap(id: string)
      modifies configMap
      ensures configMap.data == old(configMap.data) - {Encode(id)}
    {
      configMap.data := configMap.data - {Encode(id)};
    }

    /** Only for an object that no store holds does this leave the stores as they are. */
    method MarkDown(ins: Instance, ghost s: State)
      requires repo.Holds(s) && ins !in repo.Reached()
      modifies ins
      ensures repo.Holds(s) && ins.data.status == DOWN
    {
      ins.data := ins.data.(status := DOWN);
    }

    /** Deletes what a pod's key registered, in the ConfigMap too, and marks it down. */
    method DropPodInstance(key: string, ghost s: State) returns (down: Option<Instance>)
      requires Holds(s) && Keyed(s)
      modifies repo, configMap, repo.Reached()
      ensures Holds(DropPod(s, key))
      ensures down.Some? ==> down.value.data.status == DOWN && down.value !in repo.Reached()
      ensures repo.Reached() <= old(repo.Reached())
    {
      down := repo.DeleteInstance(key, s);
      if down.Some? {
        ForgetInstance(down.value, DropOwner(s, key));
      }
    }

    /** The rest of a drop, for the instance taken out of the stores. */
    method ForgetInstance(ins: Instance, ghost s: State)
      requires Holds(s) && ins !in repo.Reached()
      modifies configMap, ins
      ensures Holds(s.(cm := s.cm - {Encode(old(ins.data.instanceId))})) && ins.data.status == DOWN
    {
      DeleteFromConfigMap(ins.data.instanceId);
      MarkDown(ins, s);
    }

    /** The pod's key in the work queue; `view` is what the lister says now. */
    method SyncHandler(key: string, view: PodView, now: nat, ghost s: State)
      requires Holds(s) && Keyed(s)
      modifies repo, configMap, repo.Reached()
      ensures Holds(SyncPod(s, key, view, now, namespaces))
    {
      if !Monitored(key, namespaces) {
        return;
      }
      match view {
        case Absent =>
          var _ := DropPodInstance(key, s);
        case Present(pod) =>
          if !Labelled(pod) || pod.statuses == [] {
            return;
          }
          if Ready(pod) {
            var ins := ConvertPod2Instance(pod, now);
            var _ := repo.Register(ins, key, s);
          } else {
            var _ := DropPodInstance(key, s);
          }
      }
    }

    /** `StorageCustomAppToConfigMap`. */
    method StoreInConfigMap(ins: Instance, ghost s: State)
      requires Holds(s)
      modifies configMap
      ensures Holds(s.(cm := s.cm[Encode(ins.data.instanceId) := ins.data]))
    {
      StoreData(configMap.data[Encode(ins.data.instanceId) := ins.data], s);
    }

    /** Puts an object that is in no store into the overlay and the ConfigMap. */
    method StoreOverlay(ins: Instance, ghost s: State)
      requires Holds(s)
      modifies repo, configMap
      ensures Holds(StoreBoth(s, ins.data))
    {
      repo.StoreCustom(ins.data.instanceId, ins, s);
      StoreInConfigMap(ins, s.(overlay := s.overlay[ins.data.instanceId := ins.data]));
    }

    /** `instance` comes from a request. */
    method StoreCustomApp(instance: Instance, now: nat, ghost s: State)
      requires Holds(s) && Keyed(s) && instance !in repo.Reached()
      modifies repo, configMap, instance
      ensures Holds(StoreCustom(s, WithDefaults(old(instance.data), now)))
    {
      ImpInstance(instance, now);
      StoreDefaulted(instance, s);
    }

    /** A further request for a custom instance keeps the time of the first. */
    method KeepTime(instance: Instance, customInstance: Instance)
      modifies instance
      ensures instance.data == old(instance.data).(registered := old(customInstance.data.registered))
    {
      instance.data := instance.data.(registered := customInstance.data.registered);
    }

    method StoreDefaulted(instance: Instance, ghost s: State)
      requires Holds(s) && Keyed(s) && instance !in repo.Reached()
      modifies repo, configMap, instance
      ensures Holds(StoreCustom(s, old(instance.data)))
    {
      var id := instance.data.instanceId;
      if id in repo.instanceStore {
        StoreCopy(instance, repo.instanceStore[id], s);
      } else if id in repo.customInstanceStore {
        KeepTime(instance, repo.customInstanceStore[id]);
        StoreOverlay(instance, s);
      } else {
        StoreOwned(instance, s);
      }
    }

    /** The instance is listed: an edited copy is stored. */
    method StoreCopy(instance: Instance, podInstance: Instance, ghost s: State)
      requires Holds(s) && instance.data.instanceId in s.instances
      requires podInstance.data == s.instances[instance.data.instanceId]
      requires podInstance.data.instanceId == instance.data.instanceId
      modifies repo, configMap
      ensures Holds(StoreCustom(s, old(instance.data)))
    {
      var clone := CopyEdited(podInstance, instance.data.metadata);
      clone.data := clone.data.(status := instance.data.status);
      StoreOverlay(clone, s);
    }

    /** The instance is new: it gets a custom owner. */
    method StoreOwned(instance: Instance, ghost s: State)
      requires Holds(s) && !Known(s, instance.data.instanceId)
      modifies repo, configMap
      ensures Holds(StoreCustom(s, old(instance.data)))
    {
      var id := instance.data.instanceId;
      repo.namespaceStore := repo.namespaceStore[CustomKey(id) := id];
      StoreOverlay(instance, s.(owners := s.owners[CustomKey(id) := id]));
    }

    /** `Register`: a request for an application. */
    method RegisterRequest(ins: InstanceData, app: string, now: nat, ghost s: State)
      requires Holds(s) && Keyed(s)
      modifies repo, configMap
      ensures Holds(RegisterCustom(s, ins, app, now))
    {
      if ins.port == 0 {
        return;
      }
      var named := ins.(app := app, instanceId := IdOf(ins.ipAddr, app, ins.port));
      var instance := new Instance(named);
      StoreCustomApp(instance, now, s);
    }

    method DeleteRequest(id: string, ghost s: State)
      requires Holds(s) && Keyed(s)
      modifies repo, configMap
      ensures Holds(DeleteCustom(s, id))
    {
      StoreData(configMap.data - {Encode(id)}, s);
      var _ := repo.DeleteInstance(CustomKey(id), s.(cm := s.cm - {Encode(id)}));
    }

    /** One entry of a metadata request: the copy to write, if the id is known.
        An instance that is listed only enters the overlay. */
    method EditKnown(id: string, edit: Metadata, ghost s: State, ghost t: State, ghost done: map<string, Metadata>)
      returns (entry: Option<InstanceData>, ghost t': State)
      requires repo.Holds(t) && t == s.(overlay := NewOverlay(s, done)) && id !in done
      modifies repo
      ensures entry == if Known(s, id) then Some(Edited(s, id, edit)) else None
      ensures repo.Holds(t') && t' == s.(overlay := NewOverlay(s, done[id := edit]))
    {
      OverlaySame(s, done, id);
      entry, t' := None, t;
      if id in repo.customInstanceStore {
        var copy := CopyEdited(repo.customInstanceStore[id], edit);
        entry := Some(copy.data);
        OverlayStays(s, done, id, edit);
      } else if id in repo.instanceStore {
        var copy := CopyEdited(repo.instanceStore[id], edit);
        repo.StoreCustom(id, copy, t);
        entry, t' := Some(copy.data), t.(overlay := t.overlay[id := copy.data]);
        OverlayGains(s, done, id, edit);
      } else {
        OverlayStays(s, done, id, edit);
      }
    }

    method CopyEdited(instance: Instance, edit: Metadata) returns (copy: Instance)
      ensures fresh(copy)
      ensures copy.data == instance.data.(metadata := EditMetadata(instance.data.metadata, edit))
    {
      copy := new Instance(instance.data);
      EditCopy(copy, edit);
    }

    /** The stores and the copy of the ConfigMap after some of the edits. */
    ghost predicate Halfway(s: State, t: State, data: Store, done: map<string, Metadata>)
      reads repo, repo.Reached()
    {
      repo.Holds(t) && t == s.(overlay := NewOverlay(s, done)) && EditsWritten(s, data, done)
    }

    /** One turn of the loop; a write to an empty copy panics. */
    method EditEntry(id: string, edit: Metadata, data: Store, ghost s: State, ghost t: State,
                     ghost done: map<string, Metadata>)
      returns (panicked: bool, data': Store, ghost t': State)
      requires Halfway(s, t, data, done) && id !in done
      modifies repo
      ensures panicked <==> Known(s, id) && data == map[]
      ensures repo.Holds(t') && t' == s.(overlay := NewOverlay(s, done[id := edit]))
      ensures !panicked ==> Halfway(s, t', data', done[id := edit])
    {
      var entry;
      entry, t' := EditKnown(id, edit, s, t, done);
      panicked, data' := entry.Some? && data == map[], data;
      if !panicked {
        EditsGrow(s, data, done, id, edit);
        if entry.Some? {
          data' := data[Encode(id) := entry.value];
        }
      }
    }

    /** The loop over the request, on a copy of the ConfigMap's data. */
    method EditEntries(edits: map<string, Metadata>, ghost accepted: bool, ghost s: State)
      returns (ok: bool, data: Store, ghost t: State)
      requires Holds(s)
      modifies repo
      ensures ok ==> Halfway(s, t, data, edits)
      ensures !ok ==> repo.Holds(t) && t.cm == s.cm && Updates(s, edits, accepted, t)
      ensures ok <==> !UpdatePanics(s, edits)
    {
      data, t := configMap.data, s;
      var todo := edits.Keys;
      ghost var done: map<string, Metadata> := map[];
      NothingEdited(s);
      while todo != {}
        invariant todo <= edits.Keys && Done(done, edits, todo)
        invariant Halfway(s, t, data, done)
        decreases todo
      {
        var id :| id in todo;
        var panicked;
        panicked, data, t := EditEntry(id, edits[id], data, s, t, done);
        if panicked {
          StopsAtPanic(s, edits, accepted, done, id, t);
          return false, data, t;
        }
        DoneStep(done, edits, todo, id);
        todo, done := todo - {id}, done[id := edits[id]];
      }
      AllDone(done, edits);
      UpdateCompletes(s, edits, data);
      ok := true;
    }

    /** `UpdateMateData`; `ok` is false on a panic. Whether the server accepts the update of
        the ConfigMap is not looked at; the overlay has changed by then. */
    method UpdateRequest(edits: map<string, Metadata>, accepted: bool, ghost s: State)
      returns (ok: bool, ghost t: State)
      requires Holds(s)
      modifies repo, configMap
      ensures Holds(t) && Updates(s, edits, accepted, t)
      ensures ok <==> !UpdatePanics(s, edits)
    {
      var data;
      ok, data, t := EditEntries(edits, accepted, s);
      if ok {
        UpdateCompletes(s, edits, data);
        if accepted {
          StoreData(data, t);
          t := t.(cm := data);
        }
      }
    }

    /** The first loop of a refresh: overlay ids without an entry in the ConfigMap. */
    method FindGone(data: Store) returns (deleteList: seq<string>)
      ensures forall id :: id in deleteList <==> id in repo.customInstanceStore && Encode(id) !in data
    {
      deleteList := [];
      var todo := repo.customInstanceStore.Keys;
      while todo != {}
        invariant todo <= repo.customInstanceStore.Keys
        invariant forall id :: id in deleteList <==> id in repo.customInstanceStore.Keys - todo && Encode(id) !in data
        decreases todo
      {
        var id :| id in todo;
        if Encode(id) !in data {
          deleteList := deleteList + [id];
        }
        todo := todo - {id};
      }
    }

    method DeleteGone(deleteList: seq<string>)
      modifies repo
      ensures repo.namespaceStore == old(repo.namespaceStore) && repo.instanceStore == old(repo.instanceStore)
      ensures repo.customInstanceStore == old(repo.customInstanceStore) - (set id | id in deleteList)
    {
      for i := 0 to |deleteList|
        invariant repo.namespaceStore == old(repo.namespaceStore) && repo.instanceStore == old(repo.instanceStore)
        invariant repo.customInstanceStore == old(repo.customInstanceStore) - (set id | id in deleteList[..i])
      {
        repo.customInstanceStore := repo.customInstanceStore - {deleteList[i]};
        assert deleteList[..i + 1] == deleteList[..i] + [deleteList[i]];
      }
      assert deleteList[..|deleteList|] == deleteList;
    }

    method DropGone(data: Store, ghost s: State)
      requires repo.Holds(s) && data == s.cm
      modifies repo
      ensures repo.Holds(s.(overlay := KeptOverlay(s)))
    {
      var deleteList := FindGone(data);
      DeleteGone(deleteList);
    }

    /** The stores after some entries of the ConfigMap were stored. */
    ghost predicate Restored(s: State, t: State, done: set<string>)
      reads repo, repo.Reached()
    {
      && repo.Holds(t) && t == s.(overlay := t.overlay)
      && done <= s.cm.Keys && Overlays(KeptOverlay(s), t.overlay, ListedAt(s.cm, done))
    }

    method StoreListed(key: string, value: InstanceData, ghost s: State, ghost t: State, ghost done: set<string>)
      returns (ghost t': State)
      requires Restored(s, t, done) && key in s.cm && value == s.cm[key]
      modifies repo
      ensures Restored(s, t', done + {key})
    {
      var instance := new Instance(value);
      repo.StoreCustom(instance.data.instanceId, instance, t);
      ListedStep(s, t.overlay, done, key);
      t' := t.(overlay := t.overlay[value.instanceId := value]);
    }

    /** `updateInstance`: loops over the overlay and the ConfigMap, in any order. */
    method UpdateInstance(ghost s: State) returns (ghost t: State)
      requires Holds(s)
      modifies repo
      ensures Holds(t) && Refreshes(s, t)
    {
      var data := configMap.data;
      DropGone(data, s);
      t := s.(overlay := KeptOverlay(s));
      var todo := data.Keys;
      ghost var done: set<string> := {};
      while todo != {}
        invariant todo <= data.Keys && done == data.Keys - todo
        invariant Restored(s, t, done)
        decreases todo
      {
        var key :| key in todo;
        t := StoreListed(key, data[key], s, t, done);
        todo, done := todo - {key}, done + {key};
      }
      assert ListedAt(s.cm, done) == Listed(s.cm);
    }
  }

  ghost function ListedAt(cm: Store, keys: set<string>): set<(string, InstanceData)>
    requires keys <= cm.Keys
  {
    set key | key in keys :: (cm[key].instanceId, cm[key])
  }

  lemma ListedStep(s: State, overlay: Store, done: set<string>, key: string)
    requires done <= s.cm.Keys && key in s.cm
    requires Overlays(KeptOverlay(s), overlay, ListedAt(s.cm, done))
    ensures Overlays(KeptOverlay(s), overlay[s.cm[key].instanceId := s.cm[key]], ListedAt(s.cm, done + {key}))
  {
    var e := (s.cm[key].instanceId, s.cm[key]);
    OverlayOne(overlay, e.0, e.1);
    OverlaysCompose(KeptOverlay(s), overlay, overlay[e.0 := e.1], ListedAt(s.cm, done), {e});
    assert ListedAt(s.cm, done + {key}) == ListedAt(s.cm, done) + {e};
  }

  lemma NothingEdited(s: State)
    ensures s == s.(overlay := NewOverlay(s, map[])) && EditsWritten(s, s.cm, map[])
  {
    assert NewOverlay(s, map[]) == s.overlay;
    assert CmEdits(s, map[]) == {};
  }

  lemma AllDone(done: map<string, Metadata>, edits: map<string, Metadata>)
    requires Done(done, edits, {})
    ensures done == edits
  {
  }

  lemma DoneStep(done: map<string, Metadata>, edits: map<string, Metadata>, todo: set<string>, id: string)
    requires Done(done, edits, todo) && id in todo && id in edits
    ensures Done(done[id := edits[id]], edits, todo - {id})
  {
  }

  ghost predicate Done(done: map<string, Metadata>, edits: map<string, Metadata>, todo: set<string>) {
    && (forall id :: id in done <==> id in edits && id !in todo)
    && (forall id :: id in done ==> done[id] == edits[id])
  }

  /** The edits done so far are in the copy of the ConfigMap; while that is empty, none was. */
  ghost predicate EditsWritten(s: State, data: Store, done: map<string, Metadata>) {
    && Overlays(s.cm, data, CmEdits(s, done))
    && (s.cm == map[] ==> forall id :: id in done ==> !Known(s, id))
    && (data == map[] <==> s.cm == map[])
  }

  lemma OverlaySame(s: State, done: map<string, Metadata>, id: string)
    requires id !in done
    ensures id in NewOverlay(s, done) <==> id in s.overlay
    ensures id in s.overlay ==> NewOverlay(s, done)[id] == s.overlay[id]
  {
  }

  lemma OverlayGains(s: State, done: map<string, Metadata>, id: string, edit: Metadata)
    requires id !in done && id in s.instances && id !in s.overlay
    ensures NewOverlay(s, done[id := edit]) == NewOverlay(s, done)[id := Edited(s, id, edit)]
  {
  }

  lemma OverlayStays(s: State, done: map<string, Metadata>, id: string, edit: Metadata)
    requires id !in done && (id !in s.instances || id in s.overlay)
    ensures NewOverlay(s, done[id := edit]) == NewOverlay(s, done)
  {
  }

  lemma EditsGrow(s: State, data: Store, done: map<string, Metadata>, id: string, edit: Metadata)
    requires EditsWritten(s, data, done) && id !in done
    requires Known(s, id) ==> data != map[]
    ensures EditsWritten(s, if Known(s, id) then data[Encode(id) := Edited(s, id, edit)] else data, done[id := edit])
  {
    var next := done[id := edit];
    if Known(s, id) {
      var e := (Encode(id), Edited(s, id, edit));
      OverlayOne(data, e.0, e.1);
      OverlaysCompose(s.cm, data, data[e.0 := e.1], CmEdits(s, done), {e});
      EditsWith(s, done, id, edit, e);
    } else {
      EditsWithout(s, done, id, edit);
    }
  }

  lemma EditsWith(s: State, done: map<string, Metadata>, id: string, edit: Metadata, e: (string, InstanceData))
    requires id !in done && Known(s, id) && e == (Encode(id), Edited(s, id, edit))
    ensures CmEdits(s, done[id := edit]) == CmEdits(s, done) + {e}
  {
    var next := done[id := edit];
    forall p | p in CmEdits(s, next)
      ensures p in CmEdits(s, done) + {e}
    {
      var x :| x in next && Known(s, x) && p == (Encode(x), Edited(s, x, next[x]));
      assert x == id || (x in done && next[x] == done[x]);
    }
    forall p | p in CmEdits(s, done)
      ensures p in CmEdits(s, next)
    {
      var x :| x in done && Known(s, x) && p == (Encode(x), Edited(s, x, done[x]));
      assert x in next && next[x] == done[x];
    }
    assert next[id] == edit;
  }

  lemma EditsWithout(s: State, done: map<string, Metadata>, id: string, edit: Metadata)
    requires id !in done && !Known(s, id)
    ensures CmEdits(s, done[id := edit]) == CmEdits(s, done)
  {
    var next := done[id := edit];
    forall p | p in CmEdits(s, next)
      ensures p in CmEdits(s, done)
    {
      var x :| x in next && Known(s, x) && p == (Encode(x), Edited(s, x, next[x]));
      assert x in done && next[x] == done[x];
    }
    forall p | p in CmEdits(s, done)
      ensures p in CmEdits(s, next)
    {
      var x :| x in done && Known(s, x) && p == (Encode(x), Edited(s, x, done[x]));
      assert x in next && next[x] == done[x];
    }
  }

  lemma UpdateCompletes(s: State, edits: map<string, Metadata>, data: Store)
    requires EditsWritten(s, data, edits)
    ensures !UpdatePanics(s, edits)
    ensures Updates(s, edits, true, s.(overlay := NewOverlay(s, edits), cm := data))
    ensures Updates(s, edits, false, s.(overlay := NewOverlay(s, edits)))
  {
  }

  lemma StopsAtPanic(s: State, edits: map<string, Metadata>, accepted: bool, done: map<string, Metadata>,
                     id: string, t: State)
    requires id in edits && id !in done && Known(s, id) && s.cm == map[] && EditsWritten(s, s.cm, done)
    requires t == s.(overlay := NewOverlay(s, done[id := edits[id]]))
    ensures Updates(s, edits, accepted, t)
    ensures UpdatePanics(s, edits)
  {
    OverlayAfterPanic(s, edits, done, id);
  }

  lemma OverlayAfterPanic(s: State, edits: map<string, Metadata>, done: map<string, Metadata>, id: string)
    requires id in edits && id !in done && forall x :: x in done ==> !Known(s, x)
    ensures NewOverlay(s, done[id := edits[id]]) == NewOverlay(s, map[id := edits[id]])
  {
  }
}
