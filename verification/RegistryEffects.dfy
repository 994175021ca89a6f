/** What each event does to each entry of the stores, in terms of the request. */
module RegistryEffects {
  import opened Trees
  import opened Overlay
  import opened Instances
  import opened Registry
  import opened RegistryLaws

  // ---------- metadata requests ----------

  /** The instance with its metadata edited: entries the request gives are set, those it
      gives as empty are gone, protected and other ones are as before. */
  ghost predicate EditedFrom(after: InstanceData, before: InstanceData, req: Metadata) {
    && after == before.(metadata := after.metadata)
    && forall k :: if k in req && !Protected(k)
                   then (k in after.metadata <==> req[k] != "") && (req[k] != "" ==> after.metadata[k] == req[k])
                   else (k in after.metadata <==> k in before.metadata) &&
                        (k in before.metadata ==> after.metadata[k] == before.metadata[k])
  }

  lemma ProtectedKeys(k: string)
    ensures Protected(k) <==> k in {"provisioner", "pod-self-link", "version", "context-path"}
  {
  }

  lemma EditIs(before: InstanceData, req: Metadata)
    ensures EditedFrom(before.(metadata := EditMetadata(before.metadata, req)), before, req)
  {
  }

  /** No two ids of the request that the stores know are encoded alike. */
  ghost predicate NoClash(s: State, edits: map<string, Metadata>) {
    forall i, j :: i in edits && j in edits && Known(s, i) && Known(s, j) && Encode(i) == Encode(j) ==> i == j
  }

  /** An accepted request writes an edited copy of each known id to the ConfigMap: of the
      overlay's instance if there is one, else of the listed one. */
  lemma UpdateWrites(s: State, edits: map<string, Metadata>, t: State, id: string)
    requires Updates(s, edits, true, t) && s.cm != map[] && NoClash(s, edits)
    requires id in edits && (id in s.overlay || id in s.instances)
    ensures Encode(id) in t.cm
    ensures EditedFrom(t.cm[Encode(id)], if id in s.overlay then s.overlay[id] else s.instances[id], edits[id])
  {
    var e := (Encode(id), Edited(s, id, edits[id]));
    assert e in CmEdits(s, edits);
    assert e.0 in KeysOf(CmEdits(s, edits));
    assert (e.0, t.cm[e.0]) in CmEdits(s, edits);
    EditIs(if id in s.overlay then s.overlay[id] else s.instances[id], edits[id]);
  }

  /** Everything else stays, but that a listed id without an overlay enters it, edited. */
  lemma UpdateElsewhere(s: State, edits: map<string, Metadata>, accepted: bool, t: State, id: string, key: string)
    requires Updates(s, edits, accepted, t) && s.cm != map[]
    ensures t.owners == s.owners && t.instances == s.instances
    ensures id in t.overlay <==> id in s.overlay || (id in edits && id in s.instances)
    ensures id in s.overlay ==> t.overlay[id] == s.overlay[id]
    ensures id in t.overlay && id !in s.overlay ==> EditedFrom(t.overlay[id], s.instances[id], edits[id])
    ensures !accepted ==> t.cm == s.cm
    ensures (forall x :: x in edits && (x in s.overlay || x in s.instances) ==> Encode(x) != key) ==>
              (key in t.cm <==> key in s.cm) && (key in s.cm ==> t.cm[key] == s.cm[key])
  {
    if id in t.overlay && id !in s.overlay {
      EditIs(s.instances[id], edits[id]);
    }
    if key in KeysOf(CmEdits(s, edits)) {
      var e :| e in CmEdits(s, edits) && e.0 == key;
    }
  }

  /** The overlay has the id, edited if it did not have it before, and is else as before. */
  ghost predicate Entered(after: Store, before: Store, listed: Store, id: string, edit: Metadata) {
    && id in after && after == before[id := after[id]]
    && if id in before then after[id] == before[id] else id in listed && EditedFrom(after[id], listed[id], edit)
  }

  lemma EntersOnly(s: State, id: string, edit: Metadata)
    requires Known(s, id)
    ensures Entered(NewOverlay(s, map[id := edit]), s.overlay, s.instances, id, edit)
  {
    if id !in s.overlay {
      EditIs(s.instances[id], edit);
    }
  }

  /** While the ConfigMap is empty it stays so; the request panics at the first known id it
      comes to, which is in the overlay by then. */
  lemma UpdateOfEmpty(s: State, edits: map<string, Metadata>, accepted: bool, t: State)
    requires Updates(s, edits, accepted, t) && s.cm == map[]
    ensures t.owners == s.owners && t.instances == s.instances && t.cm == map[]
    ensures if forall id :: id in edits ==> id !in s.overlay && id !in s.instances then t.overlay == s.overlay
            else exists id :: id in edits && Entered(t.overlay, s.overlay, s.instances, id, edits[id])
  {
    if UpdatePanics(s, edits) {
      var id :| id in edits && Known(s, id) && t.overlay == NewOverlay(s, map[id := edits[id]]);
      EntersOnly(s, id, edits[id]);
    }
  }

  /** Two accepted requests in a row: an entry that the first set and the second does not
      mention is still in the ConfigMap, exactly if the overlay did not have the instance
      before, or had the entry already. An overlay that was there is edited twice from the
      same copy, and the first edit is lost. */
  lemma TwoUpdates(s: State, first: map<string, Metadata>, t: State, second: map<string, Metadata>, u: State,
                   id: string, k: string)
    requires Updates(s, first, true, t) && Updates(t, second, true, u) && s.cm != map[]
    requires NoClash(s, first) && NoClash(t, second)
    requires id in first && id in second && (id in s.overlay || id in s.instances)
    requires k in first[id] && first[id][k] != "" && !Protected(k) && k !in second[id]
    ensures Encode(id) in t.cm && k in t.cm[Encode(id)].metadata && t.cm[Encode(id)].metadata[k] == first[id][k]
    ensures Encode(id) in u.cm
    ensures (k in u.cm[Encode(id)].metadata && u.cm[Encode(id)].metadata[k] == first[id][k]) <==>
            id !in s.overlay || (k in s.overlay[id].metadata && s.overlay[id].metadata[k] == first[id][k])
  {
    UpdateWrites(s, first, t, id);
    UpdateElsewhere(s, first, true, t, id, Encode(id));
    UpdateWrites(t, second, u, id);
  }

  /** With a refresh in between it always is. */
  lemma UpdateRefreshUpdate(s: State, first: map<string, Metadata>, t: State, r: State,
                            second: map<string, Metadata>, u: State, id: string, k: string)
    requires Keyed(s) && Updates(s, first, true, t) && Refreshes(t, r) && Updates(r, second, true, u)
    requires s.cm != map[] && NoClash(s, first) && NoClash(r, second)
    requires id in first && id in second && (id in s.overlay || id in s.instances)
    requires k in first[id] && first[id][k] != "" && !Protected(k) && k !in second[id]
    ensures Encode(id) in u.cm && k in u.cm[Encode(id)].metadata && u.cm[Encode(id)].metadata[k] == first[id][k]
  {
    UpdateWrites(s, first, t, id);
    UpdateKeyed(s, first, true, t);
    RefreshStores(t, r, Encode(id));
    UpdateWrites(r, second, u, id);
  }

  // ---------- refresh and read ----------

  /** A refresh stores each instance of the ConfigMap under its id. */
  lemma RefreshStores(s: State, t: State, key: string)
    requires KeyedCm(s.cm) && Refreshes(s, t) && key in s.cm
    ensures s.cm[key].instanceId in t.overlay && t.overlay[s.cm[key].instanceId] == s.cm[key]
  {
    var e := (s.cm[key].instanceId, s.cm[key]);
    assert e in Listed(s.cm);
    assert e.0 in KeysOf(Listed(s.cm));
    assert (e.0, t.overlay[e.0]) in Listed(s.cm);
  }

  /** It drops the ids without an entry, and leaves all else as it is. */
  lemma RefreshDrops(s: State, t: State, id: string)
    requires KeyedCm(s.cm) && Refreshes(s, t)
    ensures t.owners == s.owners && t.instances == s.instances && t.cm == s.cm
    ensures id in t.overlay ==> Encode(id) in s.cm
    ensures id in t.overlay && s.cm[Encode(id)].instanceId != id ==> id in s.overlay && t.overlay[id] == s.overlay[id]
    ensures id in s.overlay && Encode(id) in s.cm ==> id in t.overlay
  {
    if id in KeysOf(Listed(s.cm)) {
      var e :| e in Listed(s.cm) && e.0 == id;
    }
  }

  /** After a read an id is listed if it was or if the overlay has it, whose copy wins. */
  lemma ReadLists(s: State, t: State, namespaces: seq<string>, id: string)
    requires Next(s, Read, t, namespaces)
    ensures t.owners == s.owners && t.overlay == s.overlay && t.cm == s.cm
    ensures id in t.instances <==> id in s.instances || id in s.overlay
    ensures id in t.instances ==> t.instances[id] == if id in s.overlay then s.overlay[id] else s.instances[id]
  {
  }

  // ---------- deletion ----------

  /** A deletion takes the entry of the id out of the ConfigMap, whoever owns the id, and
      the id of the custom key out of list and overlay. All else stays. */
  lemma DeleteRemoves(s: State, id: string, t: State, namespaces: seq<string>, key: string, x: string)
    requires Next(s, Delete(id), t, namespaces)
    ensures key in t.cm <==> key in s.cm && key != Encode(id)
    ensures key in t.cm ==> t.cm[key] == s.cm[key]
    ensures key in t.owners <==> key in s.owners && key != "custom/" + id
    ensures key in t.owners ==> t.owners[key] == s.owners[key]
    ensures var gone := "custom/" + id in s.owners && s.owners["custom/" + id] == x;
            && (x in t.instances <==> x in s.instances && !gone)
            && (x in t.instances ==> t.instances[x] == s.instances[x])
            && (x in t.overlay <==> x in s.overlay && !gone) && (x in t.overlay ==> t.overlay[x] == s.overlay[x])
  {
    assert CustomKey(id) == "custom/" + id;
  }

  /** After a deletion and a refresh no copy of the id is in the ConfigMap or the overlay. */
  lemma DeletedAfterRefresh(s: State, id: string, t: State, u: State, namespaces: seq<string>)
    requires Keyed(s) && Next(s, Delete(id), t, namespaces) && Next(t, Refresh, u, namespaces)
    ensures id !in u.overlay && Encode(id) !in u.cm
  {
    DeleteRemoves(s, id, t, namespaces, Encode(id), id);
    assert KeyedCm(t.cm) by {
      forall key | key in t.cm
        ensures key == Encode(t.cm[key].instanceId)
      {
        DeleteRemoves(s, id, t, namespaces, key, id);
      }
    }
    RefreshDrops(t, u, id);
  }

  /** A pod that its client registered and then deregisters: the owner is the pod's key,
      and still the copies go. */
  lemma PodDeregistered(key: string, pod: Pod, ins: InstanceData, now: nat, namespaces: seq<string>)
    returns (states: seq<State>, es: seq<Event>)
    requires Monitored(key, namespaces) && Ready(pod) && ins.port != 0
    requires PodInstance(pod, now).instanceId == IdOf(ins.ipAddr, pod.labels[SERVICE_LABEL], ins.port)
    ensures IsRun(states, es, namespaces) && states[0] == EMPTY
    ensures var id := PodInstance(pod, now).instanceId;
            && es == [PodSync(key, Present(pod), now), Register(ins, pod.labels[SERVICE_LABEL], now),
                      Delete(id), Refresh]
            && id in states[2].overlay && Encode(id) in states[2].cm
            && id !in states[4].overlay && Encode(id) !in states[4].cm
  {
    var app, id := pod.labels[SERVICE_LABEL], PodInstance(pod, now).instanceId;
    var d, e := PodSync(key, Present(pod), now), Register(ins, app, now);
    var s1 := PodAlone(key, pod, now, namespaces);
    var s2, y := PodRegistered(s1, ins, app, now, id, namespaces);
    states, es := RunToDeletion(s1, s2, d, e, id, namespaces);
  }

  lemma PodAlone(key: string, pod: Pod, now: nat, namespaces: seq<string>) returns (s: State)
    requires Monitored(key, namespaces) && Ready(pod)
    ensures Next(EMPTY, PodSync(key, Present(pod), now), s, namespaces)
    ensures var x := PodInstance(pod, now);
            s == State(map[key := x.instanceId], map[x.instanceId := x], map[], map[])
  {
    s := SyncPod(EMPTY, key, Present(pod), now, namespaces);
  }

  lemma RunToDeletion(s1: State, s2: State, d: Event, e: Event, id: string, namespaces: seq<string>)
    returns (states: seq<State>, es: seq<Event>)
    requires Next(EMPTY, d, s1, namespaces) && Next(s1, e, s2, namespaces) && Keyed(s2)
    ensures es == [d, e, Delete(id), Refresh] && |states| == 5
    ensures IsRun(states, es, namespaces)
    ensures states[0] == EMPTY && states[2] == s2 && id !in states[4].overlay && Encode(id) !in states[4].cm
  {
    var s3 := DeleteCustom(s2, id);
    var s4 := s3.(overlay := KeptOverlay(s3) + Decoded(s3.cm));
    OverlayExists(KeptOverlay(s3), Listed(s3.cm));
    DeletedAfterRefresh(s2, id, s3, s4, namespaces);
    states, es := [EMPTY, s1, s2, s3, s4], [d, e, Delete(id), Refresh];
  }

  // ---------- registration ----------

  /** The status of a request. */
  function StatusOf(ins: InstanceData): string {
    if ins.status == "" then "UP" else ins.status
  }

  /** The id is listed, so a pod's or read from the overlay: an edited copy with the
      status of the request goes to overlay and ConfigMap, and nothing else of the request. */
  lemma RegisterListed(s: State, ins: InstanceData, app: string, now: nat, t: State, namespaces: seq<string>)
    requires Keyed(s) && Next(s, Register(ins, app, now), t, namespaces) && ins.port != 0
    requires ins.ipAddr + ":" + app + ":" + NumberText(ins.port) in s.instances
    ensures t.owners == s.owners && t.instances == s.instances
    ensures var id := ins.ipAddr + ":" + app + ":" + NumberText(ins.port);
            && id in t.overlay && Encode(id) in t.cm && t.cm[Encode(id)] == t.overlay[id]
            && t.overlay[id].status == StatusOf(ins)
            && EditedFrom(t.overlay[id].(status := s.instances[id].status), s.instances[id], ins.metadata)
  {
    var id := IdOf(ins.ipAddr, app, ins.port);
    var named := WithDefaults(ins.(app := app, instanceId := id), now);
    EditIs(s.instances[id], named.metadata);
  }

  /** What a request becomes that is stored itself. */
  ghost predicate RequestWithDefaults(y: InstanceData, ins: InstanceData, app: string, now: nat) {
    var ip, port, next := ins.ipAddr, NumberText(ins.port), NumberText(NextPort(ins.port));
    var d, e := ins.details, y.details;
    && y.instanceId == ip + ":" + app + ":" + port && y.app == app && y.ipAddr == ip && y.port == ins.port
    && y.status == StatusOf(ins)
    && (forall k :: k in ins.metadata ==> k in y.metadata && y.metadata[k] == ins.metadata[k])
    && (forall k :: k in y.metadata && k !in ins.metadata ==> k == "provisioner" && y.metadata[k] == "custom")
    && "provisioner" in y.metadata
    && e.homePageUrl == (if d.homePageUrl == "" then "http://" + ip + ":" + port + "/" else d.homePageUrl)
    && e.statusPageUrl ==
       (if d.statusPageUrl == "" then "http://" + ip + ":" + next + "/actuator/info" else d.statusPageUrl)
    && e.healthCheckUrl ==
       (if d.healthCheckUrl == "" then "http://" + ip + ":" + next + "/actuator/health" else d.healthCheckUrl)
    && e.hostName == ip && e.vipAddress == app && e.secureVipAddress == app
    && e.portEnabled == d.portEnabled && e.securePort == d.securePort && e.securePortEnabled == d.securePortEnabled
    && e.lastRenewalTimestamp == now && e.serviceUpTimestamp == now
    && e.lastUpdatedTimestamp == now && e.lastDirtyTimestamp == now
  }

  lemma DefaultsAre(ins: InstanceData, app: string, now: nat)
    ensures RequestWithDefaults(WithDefaults(ins.(app := app, instanceId := IdOf(ins.ipAddr, app, ins.port)), now),
                                ins, app, now)
  {
  }

  lemma TimeIsFree(y: InstanceData, ins: InstanceData, app: string, now: nat, time: nat)
    requires RequestWithDefaults(y, ins, app, now)
    ensures RequestWithDefaults(y.(registered := time), ins, app, now)
  {
  }

  /** The id is not listed: the request itself goes to both, with the registration
      time of the overlay's instance if there is one. Otherwise the time is the given one
      or the present, and the id gets a custom owner. */
  lemma RegisterUnlisted(s: State, ins: InstanceData, app: string, now: nat, t: State, namespaces: seq<string>)
    requires Next(s, Register(ins, app, now), t, namespaces) && ins.port != 0
    requires ins.ipAddr + ":" + app + ":" + NumberText(ins.port) !in s.instances
    ensures t.instances == s.instances
    ensures var id := ins.ipAddr + ":" + app + ":" + NumberText(ins.port);
            && id in t.overlay && Encode(id) in t.cm && t.cm[Encode(id)] == t.overlay[id]
            && RequestWithDefaults(t.overlay[id], ins, app, now)
            && if id in s.overlay then t.owners == s.owners && t.overlay[id].registered == s.overlay[id].registered
               else t.owners == s.owners["custom/" + id := id] &&
                    t.overlay[id].registered == if ins.registered == 0 then now else ins.registered
  {
    var id := IdOf(ins.ipAddr, app, ins.port);
    var named := WithDefaults(ins.(app := app, instanceId := id), now);
    DefaultsAre(ins, app, now);
    assert CustomKey(id) == "custom/" + id;
    if id in s.overlay {
      TimeIsFree(named, ins, app, now, s.overlay[id].registered);
    }
  }

  /** A request without a port is ignored; any other leaves other ids alone. */
  lemma RegisterElsewhere(s: State, ins: InstanceData, app: string, now: nat, t: State, namespaces: seq<string>,
                          x: string, key: string)
    requires Keyed(s) && Next(s, Register(ins, app, now), t, namespaces)
    ensures ins.port == 0 ==> t == s
    ensures var id := ins.ipAddr + ":" + app + ":" + NumberText(ins.port);
            && (x != id ==> (x in t.overlay <==> x in s.overlay) && (x in s.overlay ==> t.overlay[x] == s.overlay[x]))
            && (key != Encode(id) ==> (key in t.cm <==> key in s.cm) && (key in s.cm ==> t.cm[key] == s.cm[key]))
  {
    assert IdOf(ins.ipAddr, app, ins.port) == ins.ipAddr + ":" + app + ":" + NumberText(ins.port);
  }

  // ---------- pods ----------

  /** Which namespace a key names. */
  lemma NamespaceOfKey(a: string, b: string)
    requires '/' !in a && '/' !in b
    ensures NamespaceOf(a + "/" + b) == Some(a)
    ensures NamespaceOf(b) == Some("")
    ensures forall c: string :: NamespaceOf(a + "/" + (b + "/" + c)) == None
  {
    CutAt(a, b);
    NoSlash(b);
    forall c: string
      ensures NamespaceOf(a + "/" + (b + "/" + c)) == None
    {
      CutAt(a, b + "/" + c);
      assert (b + "/" + c)[|b|] == '/';
    }
  }

  lemma {:induction false} NoSlash(b: string)
    requires '/' !in b
    ensures CutAtSlash(b) == None
  {
    if b != "" {
      NoSlash(b[1..]);
    }
  }

  /** All three labels, a first container status that is ready and running, and a container. */
  predicate IsUp(pod: Pod) {
    && "choerodon.io/service" in pod.labels && "choerodon.io/version" in pod.labels
    && "choerodon.io/metrics-port" in pod.labels
    && pod.statuses != [] && pod.statuses[0].ready && pod.statuses[0].running && pod.ports != []
  }

  /** All three labels and a first container status, but not up. */
  predicate IsDown(pod: Pod) {
    && "choerodon.io/service" in pod.labels && "choerodon.io/version" in pod.labels
    && "choerodon.io/metrics-port" in pod.labels
    && pod.statuses != [] && !IsUp(pod)
  }

  /** What a pod that is up is listed as. */
  ghost predicate InstanceOfPod(x: InstanceData, pod: Pod, now: nat)
    requires IsUp(pod)
  {
    var app, ip, management := pod.labels["choerodon.io/service"], pod.podIP, pod.labels["choerodon.io/metrics-port"];
    var port := if pod.ports[0] == [] then 0 else pod.ports[0][0];
    && x.instanceId == ip + ":" + app + ":" + NumberText(port) && x.app == app && x.ipAddr == ip && x.port == port
    && x.status == "UP" && x.registered == now
    && x.metadata.Keys == {"provisioner", "pod-self-link", "version"} +
                          (if "choerodon.io/context-path" in pod.labels then {"context-path"} else {})
    && x.metadata["provisioner"] == "pod" && x.metadata["pod-self-link"] == pod.namespace + "/" + pod.name
    && x.metadata["version"] == pod.labels["choerodon.io/version"]
    && ("choerodon.io/context-path" in pod.labels ==>
          x.metadata["context-path"] == pod.labels["choerodon.io/context-path"])
    && x.details.homePageUrl == "http://" + ip + ":" + NumberText(port) + "/"
    && x.details.statusPageUrl == "http://" + ip + ":" + management + "/actuator/info"
    && x.details.healthCheckUrl == "http://" + ip + ":" + management + "/actuator/health"
    && x.details.hostName == ip && x.details.vipAddress == app && x.details.secureVipAddress == app
  }

  /** A pod that is up joins under a free key. */
  lemma SyncJoins(s: State, key: string, pod: Pod, now: nat, t: State, namespaces: seq<string>)
    requires Next(s, PodSync(key, Present(pod), now), t, namespaces) && IsUp(pod)
    requires NamespaceOf(key).Some? && NamespaceOf(key).value in namespaces && key !in s.owners
    ensures key in t.owners && t.owners == s.owners[key := t.owners[key]]
    ensures var id := t.owners[key];
            id in t.instances && t.instances == s.instances[id := t.instances[id]] &&
            t.instances[id].instanceId == id && InstanceOfPod(t.instances[id], pod, now)
    ensures t.overlay == s.overlay && t.cm == s.cm
  {
    PodFields(pod, now);
  }

  lemma PodFields(pod: Pod, now: nat)
    requires IsUp(pod)
    ensures Ready(pod) && InstanceOfPod(PodInstance(pod, now), pod, now)
  {
  }

  /** A pod that is gone or down leaves, with its id's copies; its entry in the ConfigMap
      only goes if the id is listed. */
  lemma SyncLeaves(s: State, key: string, view: PodView, now: nat, t: State, namespaces: seq<string>,
                   x: string, entry: string)
    requires Keyed(s) && Next(s, PodSync(key, view, now), t, namespaces) && (view.Absent? || IsDown(view.pod))
    requires NamespaceOf(key).Some? && NamespaceOf(key).value in namespaces && key in s.owners
    ensures t.owners == s.owners - {key}
    ensures var id := s.owners[key];
            && (x in t.instances <==> x in s.instances && x != id)
            && (x in t.instances ==> t.instances[x] == s.instances[x])
            && (x in t.overlay <==> x in s.overlay && x != id) && (x in t.overlay ==> t.overlay[x] == s.overlay[x])
            && (entry in t.cm <==> entry in s.cm && !(id in s.instances && entry == Encode(id)))
            && (entry in t.cm ==> t.cm[entry] == s.cm[entry])
  {
  }

  /** No other sync does anything. */
  lemma SyncIgnored(s: State, key: string, view: PodView, now: nat, t: State, namespaces: seq<string>)
    requires Next(s, PodSync(key, view, now), t, namespaces)
    requires || !(NamespaceOf(key).Some? && NamespaceOf(key).value in namespaces)
             || (view.Present? && !IsUp(view.pod) && !IsDown(view.pod))
             || (view.Present? && IsUp(view.pod) && key in s.owners)
             || ((view.Absent? || IsDown(view.pod)) && key !in s.owners)
    ensures t == s
  {
  }
}
