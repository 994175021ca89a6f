/** What runs of the registry leave unchanged, and what a refresh restores. */
module RegistryLaws {
  import opened Overlay
  import opened Instances
  import opened Registry

  // ---------- refresh ----------

  /** The ConfigMap's instances by id. */
  ghost function Decoded(cm: Store): Store {
    ToMap(Listed(cm))
  }

  lemma ListedFunctional(cm: Store)
    requires KeyedCm(cm)
    ensures Functional(Listed(cm))
  {
  }

  lemma DecodedAt(cm: Store, id: string)
    requires KeyedCm(cm)
    ensures id in Decoded(cm) <==> Encode(id) in cm && cm[Encode(id)].instanceId == id
    ensures id in Decoded(cm) ==> Decoded(cm)[id] == cm[Encode(id)]
  {
    if id in Decoded(cm) {
      assert (id, Decoded(cm)[id]) in Listed(cm);
    }
    if Encode(id) in cm && cm[Encode(id)].instanceId == id {
      var e := (id, cm[Encode(id)]);
      assert e in Listed(cm);
      assert e.0 in KeysOf(Listed(cm));
    }
  }

  /** No overlay id hides behind another id with the same encoding. */
  ghost predicate NoLookalike(s: State) {
    forall id :: id in s.overlay && Encode(id) in s.cm ==> s.cm[Encode(id)].instanceId == id
  }

  lemma KeptCovered(s: State)
    requires KeyedCm(s.cm)
    ensures KeptOverlay(s).Keys <= Decoded(s.cm).Keys <==> NoLookalike(s)
  {
    forall id | id in s.overlay && Encode(id) in s.cm
      ensures id in KeptOverlay(s)
      ensures id in Decoded(s.cm) <==> s.cm[Encode(id)].instanceId == id
    {
      DecodedAt(s.cm, id);
    }
  }

  lemma OverrideIs<V>(a: map<string, V>, b: map<string, V>)
    ensures a + b == b <==> a.Keys <= b.Keys
  {
    if a + b == b {
      assert forall k :: k in a ==> k in a + b;
    }
  }

  /** A refresh makes the overlay exactly the decoded ConfigMap, whatever it held
      before, if and only if there are no look-alikes. */
  lemma RefreshExactIff(s: State, t: State)
    requires KeyedCm(s.cm) && Refreshes(s, t)
    ensures t.overlay == Decoded(s.cm) <==> NoLookalike(s)
  {
    ListedFunctional(s.cm);
    OverlayDetermined(KeptOverlay(s), t.overlay, Listed(s.cm));
    OverrideIs(KeptOverlay(s), Decoded(s.cm));
    KeptCovered(s);
  }

  ghost predicate PlainIds(s: State) {
    && (forall id :: id in s.overlay ==> PlainId(id))
    && (forall key :: key in s.cm ==> PlainId(s.cm[key].instanceId))
  }

  /** Any two replicas that refresh from the same ConfigMap agree. */
  lemma ReplicasAgree(a: State, a': State, b: State, b': State)
    requires a.cm == b.cm && KeyedCm(a.cm) && PlainIds(a) && PlainIds(b)
    requires Refreshes(a, a') && Refreshes(b, b')
    ensures a'.overlay == b'.overlay == Decoded(a.cm)
  {
    PlainNoLookalike(a);
    PlainNoLookalike(b);
    RefreshExactIff(a, a');
    RefreshExactIff(b, b');
  }

  lemma PlainNoLookalike(s: State)
    requires KeyedCm(s.cm) && PlainIds(s)
    ensures NoLookalike(s)
  {
    forall id | id in s.overlay && Encode(id) in s.cm
      ensures s.cm[Encode(id)].instanceId == id
    {
      EncodeInjective(id, s.cm[Encode(id)].instanceId);
    }
  }

  /** Why one replica only: an instance that another replica wrote to the ConfigMap is
      listed after a refresh and a read, and no key deletes it. */
  lemma ForeignInstanceUnowned(ins: InstanceData, s: State, t: State)
    requires s == EMPTY.(cm := map[Encode(ins.instanceId) := ins]) && Refreshes(s, t)
    ensures var u := t.(instances := t.instances + t.overlay);
            ins.instanceId in u.instances && forall key :: DropOwner(u, key) == u
  {
    DecodedAt(s.cm, ins.instanceId);
    RefreshExactIff(s, t);
  }

  // ---------- keys ----------

  lemma SyncKeyed(s: State, e: Event, namespaces: seq<string>)
    requires Keyed(s) && e.PodSync?
    ensures Keyed(SyncPod(s, e.key, e.view, e.now, namespaces))
  {
  }

  lemma StoredKeyed(s: State, ins: InstanceData)
    requires Keyed(s)
    ensures Keyed(StoreCustom(s, ins))
  {
  }

  /** Every step keeps instances under their own ids. */
  lemma StepKeyed(s: State, e: Event, t: State, namespaces: seq<string>)
    requires Keyed(s) && Next(s, e, t, namespaces)
    ensures Keyed(t)
  {
    match e
    case PodSync(_, _, _) => SyncKeyed(s, e, namespaces);
    case Register(ins, app, now) =>
      if ins.port != 0 {
        StoredKeyed(s, WithDefaults(ins.(app := app, instanceId := IdOf(ins.ipAddr, app, ins.port)), now));
      }
    case Delete(_) =>
    case UpdateMetadata(edits, accepted) => UpdateKeyed(s, edits, accepted, t);
    case Refresh => RefreshKeyed(s, t);
    case Read =>
  }

  lemma UpdateKeyed(s: State, edits: map<string, Metadata>, accepted: bool, t: State)
    requires Keyed(s) && Updates(s, edits, accepted, t)
    ensures Keyed(t)
  {
    forall id | id in t.overlay
      ensures t.overlay[id].instanceId == id
    {
      UpdatedOverlay(s, edits, accepted, t, id);
    }
    forall key | key in t.cm
      ensures key == Encode(t.cm[key].instanceId)
    {
      UpdatedEntry(s, edits, accepted, t, key);
    }
  }

  lemma RefreshKeyed(s: State, t: State)
    requires Keyed(s) && Refreshes(s, t)
    ensures Keyed(t)
  {
    forall id | id in t.overlay
      ensures t.overlay[id].instanceId == id
    {
      if id in KeysOf(Listed(s.cm)) {
        assert (id, t.overlay[id]) in Listed(s.cm);
      }
    }
  }

  lemma {:induction false} RunKeyed(states: seq<State>, es: seq<Event>, namespaces: seq<string>, i: nat)
    requires IsRun(states, es, namespaces) && Keyed(states[0]) && i < |states|
    ensures Keyed(states[i])
  {
    if i > 0 {
      RunKeyed(states, es, namespaces, i - 1);
      StepKeyed(states[i - 1], es[i - 1], states[i], namespaces);
    }
  }

  // ---------- a pod's protected metadata ----------

  /** A pod joins under this id. */
  predicate Joins(s: State, e: Event, id: string, namespaces: seq<string>) {
    && e.PodSync? && Monitored(e.key, namespaces) && e.key !in s.owners
    && e.view.Present? && Ready(e.view.pod)
    && PodInstance(e.view.pod, e.now).instanceId == id
  }

  /** All copies of a listed instance carry this protected metadata. */
  predicate Pinned(s: State, id: string, m: Metadata) {
    && id in s.instances && ProtectedPart(s.instances[id].metadata) == m
    && (id in s.overlay ==> ProtectedPart(s.overlay[id].metadata) == m)
    && (forall key :: key in s.cm && s.cm[key].instanceId == id ==> ProtectedPart(s.cm[key].metadata) == m)
  }

  lemma OtherStored(s: State, ins: InstanceData, id: string, m: Metadata)
    requires Keyed(s) && Pinned(s, id, m) && ins.instanceId != id
    ensures Pinned(StoreCustom(s, ins), id, m)
  {
  }

  lemma StoredKeepsPinned(s: State, ins: InstanceData, id: string, m: Metadata)
    requires Keyed(s) && Pinned(s, id, m)
    ensures Pinned(StoreCustom(s, ins), id, m)
  {
    if ins.instanceId == id {
      EditKeepsProtected(s.instances[id].metadata, ins.metadata);
    } else {
      OtherStored(s, ins, id, m);
    }
  }

  lemma UpdateKeepsPinned(s: State, edits: map<string, Metadata>, accepted: bool, t: State, id: string, m: Metadata)
    requires Keyed(s) && Pinned(s, id, m) && Updates(s, edits, accepted, t)
    ensures Pinned(t, id, m)
  {
    if id in edits {
      EditKeepsProtected((if id in s.overlay then s.overlay[id] else s.instances[id]).metadata, edits[id]);
    }
    if id in t.overlay {
      UpdatedOverlay(s, edits, accepted, t, id);
    }
    forall key | key in t.cm && t.cm[key].instanceId == id
      ensures ProtectedPart(t.cm[key].metadata) == m
    {
      UpdatedEntry(s, edits, accepted, t, key);
    }
  }

  lemma RefreshKeepsPinned(s: State, t: State, id: string, m: Metadata)
    requires Keyed(s) && Pinned(s, id, m) && Refreshes(s, t)
    ensures Pinned(t, id, m)
  {
    if id in t.overlay && id in KeysOf(Listed(s.cm)) {
      assert (id, t.overlay[id]) in Listed(s.cm);
    }
  }

  lemma DropKeepsPinned(s: State, key: string, id: string, m: Metadata)
    requires Pinned(s, id, m) && id in DropPod(s, key).instances
    ensures Pinned(DropPod(s, key), id, m)
  {
  }

  lemma AddKeepsPinned(s: State, key: string, ins: InstanceData, id: string, m: Metadata)
    requires Pinned(s, id, m) && (key in s.owners || ins.instanceId != id)
    ensures Pinned(AddPod(s, key, ins), id, m)
  {
  }

  lemma SyncKeepsPinned(s: State, e: Event, namespaces: seq<string>, id: string, m: Metadata)
    requires Pinned(s, id, m) && e.PodSync? && !Joins(s, e, id, namespaces)
    requires id in SyncPod(s, e.key, e.view, e.now, namespaces).instances
    ensures Pinned(SyncPod(s, e.key, e.view, e.now, namespaces), id, m)
  {
    if Monitored(e.key, namespaces) {
      if e.view.Present? && Ready(e.view.pod) {
        AddKeepsPinned(s, e.key, PodInstance(e.view.pod, e.now), id, m);
      } else if id in DropPod(s, e.key).instances {
        DropKeepsPinned(s, e.key, id, m);
      }
    }
  }

  /** Every step but the joining of a pod and the removal of the id keeps it so. */
  lemma StepKeepsPinned(s: State, e: Event, t: State, namespaces: seq<string>, id: string, m: Metadata)
    requires Keyed(s) && Next(s, e, t, namespaces)
    requires Pinned(s, id, m) && !Joins(s, e, id, namespaces) && id in t.instances
    ensures Pinned(t, id, m)
  {
    match e
    case PodSync(_, _, _) => SyncKeepsPinned(s, e, namespaces, id, m);
    case Register(ins, app, now) =>
      if ins.port != 0 {
        StoredKeepsPinned(s, WithDefaults(ins.(app := app, instanceId := IdOf(ins.ipAddr, app, ins.port)), now), id, m);
      }
    case Delete(_) =>
    case UpdateMetadata(edits, accepted) => UpdateKeepsPinned(s, edits, accepted, t, id, m);
    case Refresh => RefreshKeepsPinned(s, t, id, m);
    case Read =>
  }

  /** A pod joins under an id unknown till then. */
  ghost predicate FirstJoin(s: State, e: Event, id: string, namespaces: seq<string>) {
    && Joins(s, e, id, namespaces)
    && id !in s.overlay && forall key :: key in s.cm ==> s.cm[key].instanceId != id
  }

  lemma JoinPins(s: State, e: Event, t: State, namespaces: seq<string>, id: string)
    requires FirstJoin(s, e, id, namespaces) && Next(s, e, t, namespaces)
    ensures Pinned(t, id, ProtectedPart(PodMetadata(e.view.pod)))
  {
  }

  /** The id stays listed up to state n, and no other pod joins under it. */
  ghost predicate StaysListed(states: seq<State>, es: seq<Event>, namespaces: seq<string>, id: string, n: nat)
    requires n < |states| == |es| + 1
  {
    && (forall j :: 1 <= j <= n ==> id in states[j].instances)
    && (forall j :: 1 <= j < n ==> !Joins(states[j], es[j], id, namespaces))
  }

  /** From the joining of a pod, under an id unknown till then, its provisioner, link,
      version and context path stay in every copy for as long as the id is listed and
      no other pod joins under it. */
  lemma {:induction false} PodMetadataStable(states: seq<State>, es: seq<Event>, namespaces: seq<string>, id: string,
                                             n: nat, i: nat)
    requires IsRun(states, es, namespaces) && Keyed(states[0])
    requires 1 <= i <= n < |states| && FirstJoin(states[0], es[0], id, namespaces)
    requires StaysListed(states, es, namespaces, id, n)
    ensures Pinned(states[i], id, ProtectedPart(PodMetadata(es[0].view.pod)))
    decreases i
  {
    if i > 1 {
      PodMetadataStable(states, es, namespaces, id, n, i - 1);
      RunKeyed(states, es, namespaces, i - 1);
      StepKeepsPinned(states[i - 1], es[i - 1], states[i], namespaces, id, ProtectedPart(PodMetadata(es[0].view.pod)));
    } else {
      JoinPins(states[0], es[0], states[1], namespaces, id);
    }
  }

  // ---------- the registration time of a custom instance ----------

  /** All copies of a custom instance carry this registration time. */
  predicate Stamped(s: State, id: string, time: nat) {
    && id in s.overlay && s.overlay[id].registered == time
    && (id in s.instances ==> s.instances[id].registered == time)
    && Encode(id) in s.cm
    && (forall key :: key in s.cm && s.cm[key].instanceId == id ==> s.cm[key].registered == time)
    && (forall key :: key in s.owners && s.owners[key] == id ==> key == CustomKey(id))
  }

  /** The event deletes an id that is encoded like this one. */
  predicate Deletes(s: State, e: Event, id: string, namespaces: seq<string>) {
    match e
    case Delete(x) => Encode(x) == Encode(id)
    case PodSync(key, view, _) =>
      && Monitored(key, namespaces) && key in s.owners && Encode(s.owners[key]) == Encode(id)
      && (view.Absent? || (Labelled(view.pod) && view.pod.statuses != [] && !Ready(view.pod)))
    case _ => false
  }

  lemma StoredKeepsStamped(s: State, ins: InstanceData, id: string, time: nat)
    requires Keyed(s) && Stamped(s, id, time)
    ensures Stamped(StoreCustom(s, ins), id, time)
  {
  }

  lemma UpdateKeepsStamped(s: State, edits: map<string, Metadata>, accepted: bool, t: State, id: string, time: nat)
    requires Keyed(s) && Stamped(s, id, time) && Updates(s, edits, accepted, t)
    ensures Stamped(t, id, time)
  {
    UpdatedOverlay(s, edits, accepted, t, id);
    forall key | key in t.cm && t.cm[key].instanceId == id
      ensures t.cm[key].registered == time
    {
      UpdatedEntry(s, edits, accepted, t, key);
    }
  }

  lemma RefreshKeepsStamped(s: State, t: State, id: string, time: nat)
    requires Keyed(s) && Stamped(s, id, time) && Refreshes(s, t)
    ensures Stamped(t, id, time)
  {
    if id in KeysOf(Listed(s.cm)) {
      assert (id, t.overlay[id]) in Listed(s.cm);
    }
  }

  lemma DropKeepsStamped(s: State, key: string, gone: set<string>, id: string, time: nat)
    requires Stamped(s, id, time) && Encode(id) !in gone
    requires key in s.owners ==> s.owners[key] != id
    ensures Stamped(DropOwner(s, key).(cm := s.cm - gone), id, time)
  {
  }

  lemma SyncKeepsStamped(s: State, e: Event, namespaces: seq<string>, id: string, time: nat)
    requires Keyed(s) && Stamped(s, id, time) && e.PodSync?
    requires !Joins(s, e, id, namespaces) && !Deletes(s, e, id, namespaces)
    ensures Stamped(SyncPod(s, e.key, e.view, e.now, namespaces), id, time)
  {
    if e.key in s.owners {
      var x := s.owners[e.key];
      if Encode(x) != Encode(id) {
        DropKeepsStamped(s, e.key, {Encode(x)}, id, time);
        DropKeepsStamped(s, e.key, {}, id, time);
        assert s.cm - {} == s.cm;
      }
    }
  }

  /** Every step but a deletion and the joining of a pod keeps it so. */
  lemma StepKeepsStamped(s: State, e: Event, t: State, namespaces: seq<string>, id: string, time: nat)
    requires Keyed(s) && Next(s, e, t, namespaces)
    requires Stamped(s, id, time) && !Joins(s, e, id, namespaces) && !Deletes(s, e, id, namespaces)
    ensures Stamped(t, id, time)
  {
    match e
    case PodSync(_, _, _) => SyncKeepsStamped(s, e, namespaces, id, time);
    case Register(ins, app, now) =>
      if ins.port != 0 {
        var named := ins.(app := app, instanceId := IdOf(ins.ipAddr, app, ins.port));
        StoredKeepsStamped(s, WithDefaults(named, now), id, time);
      }
    case Delete(x) =>
      CustomKeyInjective(x, id);
      DropKeepsStamped(s, CustomKey(x), {Encode(x)}, id, time);
    case UpdateMetadata(edits, accepted) => UpdateKeepsStamped(s, edits, accepted, t, id, time);
    case Refresh => RefreshKeepsStamped(s, t, id, time);
    case Read =>
  }

  /** The registration time of the first request: as given, else the time it came. */
  function FirstTime(e: Event): nat
    requires e.Register?
  {
    if e.ins.registered == 0 then e.now else e.ins.registered
  }

  /** A request registers an id that no copy has and no owner. */
  ghost predicate FirstRequest(s: State, e: Event, id: string) {
    && e.Register? && e.ins.port != 0 && id == IdOf(e.ins.ipAddr, e.app, e.ins.port)
    && !Known(s, id) && forall key :: key in s.owners ==> s.owners[key] != id
  }

  lemma FirstRegistration(s: State, e: Event, t: State, namespaces: seq<string>, id: string)
    requires Keyed(s) && FirstRequest(s, e, id) && Next(s, e, t, namespaces)
    ensures Stamped(t, id, FirstTime(e))
  {
  }

  /** Up to state n, no pod joins under the id and none encoded like it is deleted. */
  ghost predicate Undisturbed(states: seq<State>, es: seq<Event>, namespaces: seq<string>, id: string, n: nat)
    requires n < |states| == |es| + 1
  {
    forall j :: 1 <= j < n ==>
      !Joins(states[j], es[j], id, namespaces) && !Deletes(states[j], es[j], id, namespaces)
  }

  /** The time of the first registration stays in every copy until a deletion, through
      registrations, metadata updates, refreshes and reads, if no pod joins under the id. */
  lemma {:induction false} RegistrationTimeStable(states: seq<State>, es: seq<Event>, namespaces: seq<string>,
                                                  id: string, n: nat, i: nat)
    requires IsRun(states, es, namespaces) && Keyed(states[0])
    requires 1 <= i <= n < |states| && FirstRequest(states[0], es[0], id)
    requires Undisturbed(states, es, namespaces, id, n)
    ensures Stamped(states[i], id, FirstTime(es[0]))
    decreases i
  {
    if i > 1 {
      RegistrationTimeStable(states, es, namespaces, id, n, i - 1);
      RunKeyed(states, es, namespaces, i - 1);
      StepKeepsStamped(states[i - 1], es[i - 1], states[i], namespaces, id, FirstTime(es[0]));
    } else {
      FirstRegistration(states[0], es[0], states[1], namespaces, id);
    }
  }

  // ---------- the failing states are reachable ----------

  /** A ready pod's sync, then an update of its metadata: the ConfigMap is still empty. */
  lemma PanicReachable(key: string, pod: Pod, now: nat, namespaces: seq<string>, accepted: bool)
    returns (states: seq<State>, es: seq<Event>)
    requires Monitored(key, namespaces) && Ready(pod)
    ensures IsRun(states, es, namespaces) && states[0] == EMPTY && |es| == 2
    ensures es[1] == UpdateMetadata(map[PodInstance(pod, now).instanceId := map[]], accepted)
    ensures UpdatePanics(states[1], es[1].edits)
  {
    var id := PodInstance(pod, now).instanceId;
    var sync, update := PodSync(key, Present(pod), now), UpdateMetadata(map[id := map[]], accepted);
    var s := SyncPod(EMPTY, key, Present(pod), now, namespaces);
    assert id in s.instances && id in update.edits && Known(s, id);
    var t := s.(overlay := NewOverlay(s, update.edits));
    assert Updates(s, update.edits, accepted, t);
    states, es := [EMPTY, s, t], [sync, update];
  }

  lemma NewRequest(s: State, ins: InstanceData, app: string, now: nat) returns (stored: InstanceData)
    requires ins.port != 0 && !Known(s, IdOf(ins.ipAddr, app, ins.port))
    ensures var t, id := RegisterCustom(s, ins, app, now), IdOf(ins.ipAddr, app, ins.port);
            && stored.instanceId == id && t.instances == s.instances
            && t.overlay == s.overlay[id := stored] && t.cm == s.cm[Encode(id) := stored]
  {
    var named := ins.(app := app, instanceId := IdOf(ins.ipAddr, app, ins.port));
    stored := WithDefaults(named, now);
  }

  lemma RunOfThree(s: State, t: State, u: State, v: State, d: Event, e: Event, f: Event, namespaces: seq<string>)
    requires Next(s, d, t, namespaces) && Next(t, e, u, namespaces) && Next(u, f, v, namespaces)
    ensures IsRun([s, t, u, v], [d, e, f], namespaces)
  {
  }

  /** Two requests for ids that are encoded alike, then a refresh: the overlay keeps the
      first id, which the ConfigMap does not list. */
  lemma LookalikeReachable(a: InstanceData, b: InstanceData, app: string, app': string, now: nat,
                           namespaces: seq<string>)
    returns (states: seq<State>, es: seq<Event>)
    requires a.port != 0 && b.port != 0
    requires var i, j := IdOf(a.ipAddr, app, a.port), IdOf(b.ipAddr, app', b.port); i != j && Encode(i) == Encode(j)
    ensures IsRun(states, es, namespaces) && states[0] == EMPTY
    ensures es == [Register(a, app, now), Register(b, app', now), Refresh]
    ensures states[3].overlay != Decoded(states[3].cm)
  {
    var i, j := IdOf(a.ipAddr, app, a.port), IdOf(b.ipAddr, app', b.port);
    var s := RegisterCustom(EMPTY, a, app, now);
    var x := NewRequest(EMPTY, a, app, now);
    var t := RegisterCustom(s, b, app', now);
    var y := NewRequest(s, b, app', now);
    var u := t.(overlay := KeptOverlay(t) + Decoded(t.cm));
    OverlayExists(KeptOverlay(t), Listed(t.cm));
    RunOfThree(EMPTY, s, t, u, Register(a, app, now), Register(b, app', now), Refresh, namespaces);
    states, es := [EMPTY, s, t, u], [Register(a, app, now), Register(b, app', now), Refresh];
    HiddenBehind(t, u, i, j);
  }

  lemma HiddenBehind(t: State, u: State, i: string, j: string)
    requires Refreshes(t, u) && i != j && Encode(i) == Encode(j)
    requires i in t.overlay && Encode(j) in t.cm && t.cm[Encode(j)].instanceId == j && t.cm.Keys == {Encode(j)}
    ensures u.overlay != Decoded(u.cm)
  {
    RefreshExactIff(t, u);
  }

  // ---------- a monitored namespace "custom" ----------

  /** A pod of the namespace "custom" joins; its id is registered by a client; the pod's
      name is deleted as an id, which drops the pod's owner key but not the entry in the
      ConfigMap; a refresh and a read list the instance again. */
  lemma CustomPodUnowned(p: string, pod: Pod, ins: InstanceData, now: nat, namespaces: seq<string>)
    returns (states: seq<State>, es: seq<Event>)
    requires "custom" in namespaces && '/' !in p && Ready(pod)
    requires var id := PodInstance(pod, now).instanceId;
             ins.port != 0 && Encode(p) != Encode(id) &&
             id == IdOf(ins.ipAddr, pod.labels[SERVICE_LABEL], ins.port)
    ensures IsRun(states, es, namespaces) && states[0] == EMPTY
    ensures es == [PodSync("custom/" + p, Present(pod), now), Register(ins, pod.labels[SERVICE_LABEL], now),
                   Delete(p), Refresh, Read]
    ensures PodInstance(pod, now).instanceId in states[5].instances && states[5].owners == map[]
  {
    var app, key, id := pod.labels[SERVICE_LABEL], CustomKey(p), PodInstance(pod, now).instanceId;
    assert key == "custom/" + p;
    var s1 := CustomPodJoins(p, pod, now, namespaces);
    var s2, y := PodRegistered(s1, ins, app, now, id, namespaces);
    var s3 := PodDeleted(s2, p, id, y, namespaces);
    var s4, s5 := ListedAgain(s3, id, y, namespaces);
    states, es := RunOfFive(EMPTY, s1, s2, s3, s4, s5,
                            PodSync(key, Present(pod), now), Register(ins, app, now), Delete(p), Refresh, Read,
                            namespaces);
  }

  lemma CustomPodJoins(p: string, pod: Pod, now: nat, namespaces: seq<string>) returns (s: State)
    requires "custom" in namespaces && '/' !in p && Ready(pod)
    ensures Next(EMPTY, PodSync(CustomKey(p), Present(pod), now), s, namespaces)
    ensures var x := PodInstance(pod, now);
            s == State(map[CustomKey(p) := x.instanceId], map[x.instanceId := x], map[], map[])
  {
    CutAt("custom", p);
    s := SyncPod(EMPTY, CustomKey(p), Present(pod), now, namespaces);
  }

  lemma PodDeleted(s: State, p: string, id: string, y: InstanceData, namespaces: seq<string>) returns (t: State)
    requires s.owners == map[CustomKey(p) := id] && s.instances.Keys == {id} && s.overlay == map[id := y]
    requires s.cm == map[Encode(id) := y] && Encode(p) != Encode(id)
    ensures Next(s, Delete(p), t, namespaces) && t == State(map[], map[], map[], map[Encode(id) := y])
  {
    assert s.cm - {Encode(p)} == s.cm;
    t := DeleteCustom(s, p);
    assert t.instances == map[] && t.owners == map[] && t.overlay == map[];
  }

  lemma ListedAgain(s: State, id: string, y: InstanceData, namespaces: seq<string>) returns (t: State, u: State)
    requires s == State(map[], map[], map[], map[Encode(id) := y]) && y.instanceId == id
    ensures Next(s, Refresh, t, namespaces) && Next(t, Read, u, namespaces)
    ensures u.owners == map[] && id in u.instances
  {
    t := s.(overlay := KeptOverlay(s) + Decoded(s.cm));
    OverlayExists(KeptOverlay(s), Listed(s.cm));
    DecodedAt(s.cm, id);
    u := t.(instances := t.instances + t.overlay);
  }

  lemma RunOfFive(s0: State, s1: State, s2: State, s3: State, s4: State, s5: State,
                  e0: Event, e1: Event, e2: Event, e3: Event, e4: Event, namespaces: seq<string>)
    returns (states: seq<State>, es: seq<Event>)
    requires Next(s0, e0, s1, namespaces) && Next(s1, e1, s2, namespaces) && Next(s2, e2, s3, namespaces)
    requires Next(s3, e3, s4, namespaces) && Next(s4, e4, s5, namespaces)
    ensures states == [s0, s1, s2, s3, s4, s5] && es == [e0, e1, e2, e3, e4]
    ensures IsRun(states, es, namespaces)
  {
    states, es := [s0, s1, s2, s3, s4, s5], [e0, e1, e2, e3, e4];
  }

  lemma PodRegistered(s: State, ins: InstanceData, app: string, now: nat, id: string, namespaces: seq<string>)
    returns (t: State, y: InstanceData)
    requires ins.port != 0 && id == IdOf(ins.ipAddr, app, ins.port)
    requires s.instances.Keys == {id} && s.instances[id].instanceId == id && s.overlay == map[] && s.cm == map[]
    ensures Next(s, Register(ins, app, now), t, namespaces) && y.instanceId == id
    ensures t == s.(overlay := map[id := y], cm := map[Encode(id) := y])
  {
    var named := WithDefaults(ins.(app := app, instanceId := id), now);
    y := Stored(s, named);
    t := StoreCustom(s, named);
  }

  ghost predicate AllOwned(s: State) {
    forall id :: id in s.instances ==> Owned(s, id)
  }

  ghost predicate AlwaysOwned(namespaces: seq<string>) {
    forall states, es, i: nat ::
      IsRun(states, es, namespaces) && states[0] == EMPTY && i < |states| ==> AllOwned(states[i])
  }

  /** In all runs from the empty state every listed instance has an owner, if and only if
      no namespace "custom" is monitored. */
  lemma OwnershipIff(namespaces: seq<string>)
    ensures AlwaysOwned(namespaces) <==> "custom" !in namespaces
  {
    if "custom" !in namespaces {
      forall states, es, i: nat | IsRun(states, es, namespaces) && states[0] == EMPTY && i < |states|
        ensures AllOwned(states[i])
      {
        RunKeeps(states, es, namespaces, i);
      }
    } else {
      var pod, ins := ExamplePod();
      var states, es := CustomPodUnowned("p", pod, ins, 1, namespaces);
      assert !AllOwned(states[5]);
    }
  }

  lemma ExamplePod() returns (pod: Pod, ins: InstanceData)
    ensures Ready(pod) && ins.port != 0 && Encode("p") != Encode(PodInstance(pod, 1).instanceId)
    ensures PodInstance(pod, 1).instanceId == IdOf(ins.ipAddr, pod.labels[SERVICE_LABEL], ins.port)
  {
    var labels := map[SERVICE_LABEL := "s", VERSION_LABEL := "1", PORT_LABEL := "81"];
    pod := Pod("custom", "p", "10.0.0.1", labels, [ContainerStatus(true, true)], [[80]]);
    ins := PodInstance(pod, 1);
    assert |Encode("p")| == 1 && |Encode(ins.instanceId)| > 1;
  }
}
