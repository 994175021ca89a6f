/** The registry as a state machine: three stores of one replica and the shared ConfigMap. */
module Registry {
  import opened Trees
  import opened Overlay
  import opened Instances

  type Store = map<string, InstanceData>

  /** Owner keys with the id each registered, listed instances, their overlay of
      custom and edited ones, and the ConfigMap's entries. */
  datatype State = State(owners: map<string, string>, instances: Store, overlay: Store, cm: Store)

  const EMPTY := State(map[], map[], map[], map[])

  // ---------- the steps ----------

  datatype PodView = Absent | Present(pod: Pod)

  /** A sync of a pod's key, requests of clients, a refresh after a change of the
      ConfigMap, and a read of the list. */
  datatype Event =
    | PodSync(key: string, view: PodView, now: nat)
    | Register(ins: InstanceData, app: string, now: nat)
    | Delete(id: string)
    | UpdateMetadata(edits: map<string, Metadata>, accepted: bool)
    | Refresh
    | Read

  /** The first '/' of a key cuts it; without one there is no namespace. */
  function CutAtSlash(key: string): Option<(string, string)> {
    if key == "" then None
    else if key[0] == '/' then Some(("", key[1..]))
    else
      match CutAtSlash(key[1..])
      case None => None
      case Some((a, b)) => Some(([key[0]] + a, b))
  }

  /** The namespace of a key; none if the key is malformed. */
  function NamespaceOf(key: string): Option<string> {
    match CutAtSlash(key)
    case None => Some("")
    case Some((a, b)) => if '/' in b then None else Some(a)
  }

  function CustomKey(id: string): string {
    "custom" + "/" + id
  }

  predicate Monitored(key: string, namespaces: seq<string>) {
    NamespaceOf(key).Some? && NamespaceOf(key).value in namespaces
  }

  /** `DeleteInstance` and, if it returned an instance, the deletion from the ConfigMap. */
  function DropOwner(s: State, key: string): State {
    if key !in s.owners then s
    else State(s.owners - {key}, s.instances - {s.owners[key]}, s.overlay - {s.owners[key]}, s.cm)
  }

  function DropPod(s: State, key: string): State {
    if key in s.owners && s.owners[key] in s.instances
    then DropOwner(s, key).(cm := s.cm - {Encode(s.instances[s.owners[key]].instanceId)})
    else DropOwner(s, key)
  }

  function AddPod(s: State, key: string, ins: InstanceData): State {
    if key in s.owners then s
    else s.(owners := s.owners[key := ins.instanceId], instances := s.instances[ins.instanceId := ins])
  }

  function SyncPod(s: State, key: string, view: PodView, now: nat, namespaces: seq<string>): State {
    if !Monitored(key, namespaces) then s
    else if view.Absent? then DropPod(s, key)
    else if !Labelled(view.pod) || view.pod.statuses == [] then s
    else if Ready(view.pod) then AddPod(s, key, PodInstance(view.pod, now))
    else DropPod(s, key)
  }

  function StoreBoth(s: State, ins: InstanceData): State {
    s.(overlay := s.overlay[ins.instanceId := ins], cm := s.cm[Encode(ins.instanceId) := ins])
  }

  /** What a registration stores: an edited copy of a listed instance, else the
      request itself, which keeps the time of an earlier one. */
  function Stored(s: State, ins: InstanceData): InstanceData {
    if ins.instanceId in s.instances then
      var known := s.instances[ins.instanceId];
      known.(metadata := EditMetadata(known.metadata, ins.metadata), status := ins.status)
    else if ins.instanceId in s.overlay then ins.(registered := s.overlay[ins.instanceId].registered)
    else ins
  }

  /** `StoreCustomApp`. */
  function StoreCustom(s: State, ins: InstanceData): State {
    var t := StoreBoth(s, Stored(s, ins));
    if ins.instanceId in s.instances || ins.instanceId in s.overlay then t
    else t.(owners := s.owners[CustomKey(ins.instanceId) := ins.instanceId])
  }

  function RegisterCustom(s: State, ins: InstanceData, app: string, now: nat): State {
    if ins.port == 0 then s
    else StoreCustom(s, WithDefaults(ins.(app := app, instanceId := IdOf(ins.ipAddr, app, ins.port)), now))
  }

  function DeleteCustom(s: State, id: string): State {
    DropOwner(s.(cm := s.cm - {Encode(id)}), CustomKey(id))
  }

  predicate Known(s: State, id: string) {
    id in s.overlay || id in s.instances
  }

  /** The copy that a metadata edit writes to the ConfigMap. */
  function Edited(s: State, id: string, edit: Metadata): InstanceData
    requires Known(s, id)
  {
    var base := if id in s.overlay then s.overlay[id] else s.instances[id];
    base.(metadata := EditMetadata(base.metadata, edit))
  }

  /** Instances not in the overlay enter it with the edit. */
  function NewOverlay(s: State, edits: map<string, Metadata>): Store {
    s.overlay + map id | id in edits && id in s.instances && id !in s.overlay :: Edited(s, id, edits[id])
  }

  ghost function CmEdits(s: State, edits: map<string, Metadata>): set<(string, InstanceData)> {
    set id | id in edits && Known(s, id) :: (Encode(id), Edited(s, id, edits[id]))
  }

  /** An empty ConfigMap has no map to write an edited copy to. */
  ghost predicate UpdatePanics(s: State, edits: map<string, Metadata>) {
    s.cm == map[] && exists id :: id in edits && Known(s, id)
  }

  /** Ids in any order. On a panic at the first known id, its instance may have
      entered the overlay; if the ConfigMap's update is refused, all have. */
  ghost predicate Updates(s: State, edits: map<string, Metadata>, accepted: bool, t: State) {
    && t.owners == s.owners && t.instances == s.instances
    && if UpdatePanics(s, edits) then
         && t.cm == s.cm
         && exists id :: id in edits && Known(s, id) && t.overlay == NewOverlay(s, map[id := edits[id]])
       else
         && t.overlay == NewOverlay(s, edits)
         && if accepted then Overlays(s.cm, t.cm, CmEdits(s, edits)) else t.cm == s.cm
  }

  /** The instances in the ConfigMap with their ids. */
  ghost function Listed(cm: Store): set<(string, InstanceData)> {
    set key | key in cm :: (cm[key].instanceId, cm[key])
  }

  /** What a refresh keeps of the overlay before it stores the ConfigMap's instances. */
  function KeptOverlay(s: State): Store {
    map id | id in s.overlay && Encode(id) in s.cm :: s.overlay[id]
  }

  /** `updateInstance`: entries without a key in the ConfigMap go, then all of the
      ConfigMap's are stored, in any order. */
  ghost predicate Refreshes(s: State, t: State) {
    t == s.(overlay := t.overlay) && Overlays(KeptOverlay(s), t.overlay, Listed(s.cm))
  }

  ghost predicate Next(s: State, e: Event, t: State, namespaces: seq<string>) {
    match e
    case PodSync(key, view, now) => t == SyncPod(s, key, view, now, namespaces)
    case Register(ins, app, now) => t == RegisterCustom(s, ins, app, now)
    case Delete(id) => t == DeleteCustom(s, id)
    case UpdateMetadata(edits, accepted) => Updates(s, edits, accepted, t)
    case Refresh => Refreshes(s, t)
    case Read => t == s.(instances := s.instances + s.overlay)
  }

  // ---------- what every step keeps ----------

  /** Instances are stored under their own ids, in the ConfigMap under the encoded ones. */
  predicate Keyed(s: State) {
    KeyedStore(s.instances) && KeyedStore(s.overlay) && KeyedCm(s.cm)
  }

  predicate KeyedStore(store: Store) {
    forall id :: id in store ==> store[id].instanceId == id
  }

  predicate KeyedCm(cm: Store) {
    forall key :: key in cm ==> key == Encode(cm[key].instanceId)
  }

  /** Custom keys own the id they spell. */
  ghost predicate CustomKeysOwn(s: State) {
    forall id :: CustomKey(id) in s.owners ==> s.owners[CustomKey(id)] == id
  }

  ghost predicate Owned(s: State, id: string) {
    exists key :: key in s.owners && s.owners[key] == id
  }

  predicate OwnedAsCustom(s: State, id: string) {
    CustomKey(id) in s.owners
  }

  /** Every listed instance has an owner; one in the overlay or the ConfigMap is
      listed or has a custom owner. */
  ghost predicate Inv(s: State) {
    && Keyed(s)
    && CustomKeysOwn(s)
    && (forall id :: id in s.instances ==> Owned(s, id))
    && (forall id :: id in s.overlay ==> id in s.instances || OwnedAsCustom(s, id))
    && (forall key :: key in s.cm ==> s.cm[key].instanceId in s.instances || OwnedAsCustom(s, s.cm[key].instanceId))
  }

  lemma {:induction false} CutAt(a: string, x: string)
    requires '/' !in a
    ensures CutAtSlash(a + "/" + x) == Some((a, x))
  {
    var key := a + "/" + x;
    if a == "" {
      assert key[1..] == x;
    } else {
      CutAt(a[1..], x);
      assert key[1..] == a[1..] + "/" + x;
      assert [a[0]] + a[1..] == a;
    }
  }

  /** A sync of a pod of the namespace "custom", whose key looks like a custom key. */
  predicate SyncsCustom(e: Event, namespaces: seq<string>) {
    e.PodSync? && Monitored(e.key, namespaces) && NamespaceOf(e.key) == Some("custom")
  }

  /** The key of a pod of any other namespace is never a custom key. */
  lemma PodKeyNotCustom(key: string, id: string)
    requires NamespaceOf(key).Some? && NamespaceOf(key) != Some("custom")
    ensures key != CustomKey(id)
  {
    CutAt("custom", id);
  }

  lemma CustomKeyInjective(a: string, b: string)
    ensures CustomKey(a) == CustomKey(b) <==> a == b
  {
    CutAt("custom", a);
    CutAt("custom", b);
  }

  lemma CmShrinks(s: State, gone: set<string>)
    requires Inv(s)
    ensures Inv(s.(cm := s.cm - gone))
  {
  }

  /** Dropping an owner of an id that the ConfigMap does not list keeps the invariant;
      so does dropping a pod of an id that only a custom owner can answer for. */
  lemma DropKeeps(s: State, key: string, id: string)
    requires Inv(s) && key in s.owners && s.owners[key] == id
    requires Encode(id) !in s.cm || (id !in s.instances && key != CustomKey(id))
    ensures Inv(DropOwner(s, key))
  {
    var t := DropOwner(s, key);
    forall x | x in t.instances
      ensures Owned(t, x)
    {
      var k :| k in s.owners && s.owners[k] == x;
      assert k in t.owners && t.owners[k] == x;
    }
    forall x | x != id && (x in s.instances || OwnedAsCustom(s, x))
      ensures x in t.instances || OwnedAsCustom(t, x)
    {
    }
  }

  lemma DropPodKeeps(s: State, key: string)
    requires Inv(s) && NamespaceOf(key).Some? && NamespaceOf(key) != Some("custom")
    ensures Inv(DropPod(s, key))
  {
    if key in s.owners {
      var id := s.owners[key];
      PodKeyNotCustom(key, id);
      if id in s.instances {
        CmShrinks(s, {Encode(id)});
        DropKeeps(s.(cm := s.cm - {Encode(id)}), key, id);
      } else {
        DropKeeps(s, key, id);
      }
    }
  }

  lemma AddPodKeeps(s: State, key: string, ins: InstanceData)
    requires Inv(s) && NamespaceOf(key).Some? && NamespaceOf(key) != Some("custom")
    ensures Inv(AddPod(s, key, ins))
  {
    var t := AddPod(s, key, ins);
    if key !in s.owners {
      forall id
        ensures CustomKey(id) in t.owners <==> CustomKey(id) in s.owners
      {
        PodKeyNotCustom(key, id);
      }
      forall id | id in t.instances
        ensures Owned(t, id)
      {
        if id == ins.instanceId {
          assert key in t.owners && t.owners[key] == id;
        } else {
          var k :| k in s.owners && s.owners[k] == id;
          assert k in t.owners && t.owners[k] == id;
        }
      }
    }
  }

  lemma DeleteKeeps(s: State, id: string)
    requires Inv(s)
    ensures Inv(DeleteCustom(s, id))
  {
    CmShrinks(s, {Encode(id)});
    if CustomKey(id) in s.owners {
      DropKeeps(s.(cm := s.cm - {Encode(id)}), CustomKey(id), id);
    }
  }

  lemma StoreBothKeeps(s: State, ins: InstanceData)
    requires Inv(s) && (ins.instanceId in s.instances || OwnedAsCustom(s, ins.instanceId))
    ensures Inv(StoreBoth(s, ins))
  {
    forall id | id in s.instances
      ensures Owned(StoreBoth(s, ins), id)
    {
      assert Owned(s, id);
    }
  }

  lemma CustomOwnerKeeps(s: State, id: string)
    requires Inv(s)
    ensures Inv(s.(owners := s.owners[CustomKey(id) := id]))
  {
    var t := s.(owners := s.owners[CustomKey(id) := id]);
    forall x
      ensures CustomKey(x) in t.owners <==> x == id || CustomKey(x) in s.owners
    {
      CustomKeyInjective(x, id);
    }
    forall x | x in t.instances
      ensures Owned(t, x)
    {
      var k :| k in s.owners && s.owners[k] == x;
      assert k in t.owners && t.owners[k] == x;
    }
  }

  lemma StoreCustomKeeps(s: State, ins: InstanceData)
    requires Inv(s)
    ensures Inv(StoreCustom(s, ins))
  {
    var id := ins.instanceId;
    if Known(s, id) {
      StoreBothKeeps(s, Stored(s, ins));
    } else {
      CustomOwnerKeeps(s, id);
      StoreBothKeeps(s.(owners := s.owners[CustomKey(id) := id]), ins);
    }
  }

  /** An entry of the ConfigMap after an update is an old one or an edited copy. */
  lemma UpdatedEntry(s: State, edits: map<string, Metadata>, accepted: bool, t: State, key: string)
    requires Updates(s, edits, accepted, t) && key in t.cm
    ensures (key in s.cm && t.cm[key] == s.cm[key]) ||
            exists id :: id in edits && Known(s, id) && key == Encode(id) && t.cm[key] == Edited(s, id, edits[id])
  {
    if t.cm != s.cm && key in KeysOf(CmEdits(s, edits)) {
      assert (key, t.cm[key]) in CmEdits(s, edits);
    }
  }

  lemma UpdatedOverlay(s: State, edits: map<string, Metadata>, accepted: bool, t: State, id: string)
    requires Updates(s, edits, accepted, t) && id in t.overlay
    ensures if id in s.overlay then t.overlay[id] == s.overlay[id]
            else id in edits && id in s.instances && t.overlay[id] == Edited(s, id, edits[id])
  {
  }

  lemma UpdatesKeep(s: State, edits: map<string, Metadata>, accepted: bool, t: State)
    requires Inv(s) && Updates(s, edits, accepted, t)
    ensures Inv(t)
  {
    forall id | id in t.instances
      ensures Owned(t, id)
    {
      assert Owned(s, id);
    }
    forall key | key in t.cm
      ensures key == Encode(t.cm[key].instanceId)
      ensures t.cm[key].instanceId in t.instances || OwnedAsCustom(t, t.cm[key].instanceId)
    {
      UpdatedEntry(s, edits, accepted, t, key);
    }
    forall id | id in t.overlay
      ensures t.overlay[id].instanceId == id
      ensures id in t.instances || OwnedAsCustom(t, id)
    {
      UpdatedOverlay(s, edits, accepted, t, id);
    }
  }

  lemma RefreshesKeep(s: State, t: State)
    requires Inv(s) && Refreshes(s, t)
    ensures Inv(t)
  {
    forall id | id in t.instances
      ensures Owned(t, id)
    {
      assert Owned(s, id);
    }
    forall id | id in t.overlay
      ensures t.overlay[id].instanceId == id
      ensures id in t.instances || OwnedAsCustom(t, id)
    {
      if id in KeysOf(Listed(s.cm)) {
        assert (id, t.overlay[id]) in Listed(s.cm);
      }
    }
  }

  lemma ReadKeeps(s: State)
    requires Inv(s)
    ensures Inv(s.(instances := s.instances + s.overlay))
  {
    var t := s.(instances := s.instances + s.overlay);
    forall id | id in t.instances
      ensures Owned(t, id)
    {
      if id in s.instances {
        assert Owned(s, id);
      } else {
        assert t.owners[CustomKey(id)] == id;
      }
    }
  }

  lemma StepKeeps(s: State, e: Event, t: State, namespaces: seq<string>)
    requires Inv(s) && Next(s, e, t, namespaces) && !SyncsCustom(e, namespaces)
    ensures Inv(t)
  {
    match e
    case PodSync(key, view, now) =>
      if Monitored(key, namespaces) {
        if view.Present? && Ready(view.pod) {
          AddPodKeeps(s, key, PodInstance(view.pod, now));
        } else {
          DropPodKeeps(s, key);
        }
      }
    case Register(ins, app, now) =>
      if ins.port != 0 {
        StoreCustomKeeps(s, WithDefaults(ins.(app := app, instanceId := IdOf(ins.ipAddr, app, ins.port)), now));
      }
    case Delete(id) => DeleteKeeps(s, id);
    case UpdateMetadata(edits, accepted) => UpdatesKeep(s, edits, accepted, t);
    case Refresh => RefreshesKeep(s, t);
    case Read => ReadKeeps(s);
  }

  // ---------- runs ----------

  /** States of a run and the events between them. */
  ghost predicate IsRun(states: seq<State>, es: seq<Event>, namespaces: seq<string>) {
    && |states| == |es| + 1
    && forall i :: 0 <= i < |es| ==> Next(states[i], es[i], states[i + 1], namespaces)
  }

  /** No pod of a monitored namespace "custom" is synced; there is none if it is not monitored. */
  predicate NoCustomPods(es: seq<Event>, namespaces: seq<string>) {
    forall i :: 0 <= i < |es| ==> !SyncsCustom(es[i], namespaces)
  }

  lemma {:induction false} RunKeeps(states: seq<State>, es: seq<Event>, namespaces: seq<string>, i: nat)
    requires IsRun(states, es, namespaces) && Inv(states[0]) && NoCustomPods(es, namespaces)
    requires i < |states|
    ensures Inv(states[i])
  {
    if i > 0 {
      RunKeeps(states, es, namespaces, i - 1);
      StepKeeps(states[i - 1], es[i - 1], states[i], namespaces);
    }
  }

  /** Deleting by this key takes the id out of the list and the overlay. */
  ghost predicate Reaches(s: State, key: string, id: string) {
    key in s.owners && s.owners[key] == id && id !in DropOwner(s, key).instances && id !in DropOwner(s, key).overlay
  }

  /** In every state reachable without pods of a namespace "custom", each listed instance has an owner
      through whose key it can be deleted, from the list and from the overlay; and
      each one in the overlay or the ConfigMap is listed or owned under its custom key. */
  lemma EveryInstanceOwned(states: seq<State>, es: seq<Event>, namespaces: seq<string>, i: nat, id: string)
    requires IsRun(states, es, namespaces) && states[0] == EMPTY && NoCustomPods(es, namespaces)
    requires i < |states|
    ensures var s := states[i];
            && (id in s.instances ==> exists key :: Reaches(s, key, id))
            && (id in s.overlay || (Encode(id) in s.cm && s.cm[Encode(id)].instanceId == id) ==>
                  id in s.instances || (CustomKey(id) in s.owners && s.owners[CustomKey(id)] == id))
  {
    RunKeeps(states, es, namespaces, i);
    var s := states[i];
    if id in s.instances {
      var key :| key in s.owners && s.owners[key] == id;
      assert Reaches(s, key, id);
    }
  }
}
