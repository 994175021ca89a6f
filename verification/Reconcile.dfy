/** Level-triggered reconciliation: with the pods as they are, syncing their keys converges. */
module Reconcile {
  import opened Instances
  import opened Registry
  import opened RegistryLaws

  /** What the lister says about each key while nothing changes. */
  type Pods = string -> PodView

  datatype Sync = Sync(key: string, now: nat)

  /** Every pod is gone or fully labelled with a container status; about any other
      kind of pod a sync does nothing. */
  ghost predicate Settled(pods: Pods) {
    forall key :: pods(key).Absent? || (Labelled(pods(key).pod) && pods(key).pod.statuses != [])
  }

  predicate IsReady(pods: Pods, key: string) {
    pods(key).Present? && Ready(pods(key).pod)
  }

  function Step(s: State, pods: Pods, sync: Sync, namespaces: seq<string>): State {
    SyncPod(s, sync.key, pods(sync.key), sync.now, namespaces)
  }

  function Run(s: State, pods: Pods, syncs: seq<Sync>, namespaces: seq<string>): State
    decreases |syncs|
  {
    if syncs == [] then s
    else Step(Run(s, pods, syncs[..|syncs| - 1], namespaces), pods, syncs[|syncs| - 1], namespaces)
  }

  predicate Synced(syncs: seq<Sync>, key: string) {
    exists i :: 0 <= i < |syncs| && syncs[i].key == key
  }

  lemma SyncedStep(syncs: seq<Sync>, key: string)
    requires syncs != []
    ensures Synced(syncs, key) <==> Synced(syncs[..|syncs| - 1], key) || syncs[|syncs| - 1].key == key
  {
    var before := syncs[..|syncs| - 1];
    if Synced(syncs, key) && syncs[|syncs| - 1].key != key {
      var i :| 0 <= i < |syncs| && syncs[i].key == key;
      assert before[i].key == key;
    }
    if i :| 0 <= i < |before| && before[i].key == key {
      assert syncs[i].key == key;
    }
  }

  lemma SyncedKey(s: State, pods: Pods, sync: Sync, namespaces: seq<string>, key: string)
    requires Settled(pods) && Monitored(key, namespaces)
    ensures key in Step(s, pods, sync, namespaces).owners <==>
            if sync.key == key then IsReady(pods, key) else key in s.owners
  {
  }

  /** A key that was synced is there exactly if its pod is ready, any other as before. */
  lemma {:induction false} KeyAfter(s: State, pods: Pods, syncs: seq<Sync>, namespaces: seq<string>, key: string)
    requires Settled(pods) && Monitored(key, namespaces)
    ensures key in Run(s, pods, syncs, namespaces).owners <==>
            if Synced(syncs, key) then IsReady(pods, key) else key in s.owners
    decreases |syncs|
  {
    if syncs != [] {
      var before := syncs[..|syncs| - 1];
      KeyAfter(s, pods, before, namespaces, key);
      SyncedStep(syncs, key);
      SyncedKey(Run(s, pods, before, namespaces), pods, syncs[|syncs| - 1], namespaces, key);
    }
  }

  /** Syncing every key with an entry or a ready pod at least once, in any order and with
      repeats, makes the pod keys exactly those of the ready pods. */
  lemma Converges(s: State, pods: Pods, syncs: seq<Sync>, namespaces: seq<string>)
    requires Settled(pods)
    requires forall key :: Monitored(key, namespaces) && (key in s.owners || IsReady(pods, key)) ==> Synced(syncs, key)
    ensures forall key :: Monitored(key, namespaces) ==>
              (key in Run(s, pods, syncs, namespaces).owners <==> IsReady(pods, key))
  {
    forall key | Monitored(key, namespaces)
      ensures key in Run(s, pods, syncs, namespaces).owners <==> IsReady(pods, key)
    {
      KeyAfter(s, pods, syncs, namespaces, key);
    }
  }

  lemma OtherKey(s: State, pods: Pods, sync: Sync, namespaces: seq<string>, key: string)
    requires !Monitored(key, namespaces) || sync.key != key
    ensures var t := Step(s, pods, sync, namespaces);
            (key in t.owners <==> key in s.owners) && (key in s.owners ==> t.owners[key] == s.owners[key])
  {
  }

  /** A key nobody asked about, or not of a monitored namespace, is left alone. */
  lemma {:induction false} OtherKeysStay(s: State, pods: Pods, syncs: seq<Sync>, namespaces: seq<string>, key: string)
    requires !Monitored(key, namespaces) || !Synced(syncs, key)
    ensures key in Run(s, pods, syncs, namespaces).owners <==> key in s.owners
    ensures key in s.owners ==> Run(s, pods, syncs, namespaces).owners[key] == s.owners[key]
    decreases |syncs|
  {
    if syncs != [] {
      var before := syncs[..|syncs| - 1];
      SyncedStep(syncs, key);
      OtherKeysStay(s, pods, before, namespaces, key);
      OtherKey(Run(s, pods, before, namespaces), pods, syncs[|syncs| - 1], namespaces, key);
    }
  }

  // ---------- the listed ids ----------

  /** The listed ids are exactly those that keys registered. */
  ghost predicate Agree(s: State) {
    && (forall key :: key in s.owners ==> s.owners[key] in s.instances)
    && (forall id :: id in s.instances ==> Owned(s, id))
  }

  predicate Unshared(s: State, key: string)
    requires key in s.owners
  {
    forall other :: other in s.owners.Keys - {key} ==> s.owners[other] != s.owners[key]
  }

  lemma AddKeepsAgree(s: State, key: string, ins: InstanceData)
    requires Agree(s)
    ensures Agree(AddPod(s, key, ins))
  {
    var t := AddPod(s, key, ins);
    if key !in s.owners {
      forall id | id in t.instances
        ensures Owned(t, id)
      {
        if id == ins.instanceId {
          assert t.owners[key] == id;
        } else {
          var k :| k in s.owners && s.owners[k] == id;
          assert k in t.owners && t.owners[k] == id;
        }
      }
    }
  }

  /** Dropping a pod keeps the ids in agreement exactly if no other key registered the
      same id; otherwise that other pod is not listed any more. */
  lemma DropKeepsAgreeIff(s: State, key: string)
    requires Agree(s) && key in s.owners
    ensures Agree(DropPod(s, key)) <==> Unshared(s, key)
  {
    var t := DropPod(s, key);
    if !Unshared(s, key) {
      var other :| other in s.owners.Keys - {key} && s.owners[other] == s.owners[key];
      assert other in t.owners && t.owners[other] !in t.instances;
    } else {
      forall id | id in t.instances
        ensures Owned(t, id)
      {
        var k :| k in s.owners && s.owners[k] == id;
        assert k in t.owners && t.owners[k] == id;
      }
    }
  }

  /** A sync of this key drops what it registered. */
  predicate Drops(pods: Pods, key: string, namespaces: seq<string>) {
    && Monitored(key, namespaces)
    && (pods(key).Absent? ||
        (Labelled(pods(key).pod) && pods(key).pod.statuses != [] && !Ready(pods(key).pod)))
  }

  /** One sync keeps the ids in agreement exactly unless it drops a key whose id another
      key registered, too. */
  lemma SyncKeepsAgreeIff(s: State, pods: Pods, sync: Sync, namespaces: seq<string>)
    requires Agree(s)
    ensures Agree(Step(s, pods, sync, namespaces)) <==>
            !(Drops(pods, sync.key, namespaces) && sync.key in s.owners && !Unshared(s, sync.key))
  {
    if sync.key in s.owners {
      DropKeepsAgreeIff(s, sync.key);
    }
    if IsReady(pods, sync.key) {
      AddKeepsAgree(s, sync.key, PodInstance(pods(sync.key).pod, sync.now));
    }
  }

  /** The key registered the id at first, or is free and its ready pod will register it. */
  predicate MayOwn(s: State, pods: Pods, namespaces: seq<string>, key: string, id: string) {
    if key in s.owners then s.owners[key] == id
    else Monitored(key, namespaces) && IsReady(pods, key) && PodInstance(pods(key).pod, 0).instanceId == id
  }

  /** No key that will be dropped has an id that another key has or will register. */
  ghost predicate NoConflict(s: State, pods: Pods, namespaces: seq<string>) {
    forall key, other {:trigger MayOwn(s, pods, namespaces, other, s.owners[key])} ::
      key in s.owners && Drops(pods, key, namespaces) && other != key ==>
        !MayOwn(s, pods, namespaces, other, s.owners[key])
  }

  /** Where the owners of a later state come from: keys are only dropped that must be. */
  ghost predicate ComesFrom(s: State, t: State, pods: Pods, namespaces: seq<string>) {
    && (forall key :: key in t.owners ==> MayOwn(s, pods, namespaces, key, t.owners[key]))
    && (forall key :: key in s.owners && !Drops(pods, key, namespaces) ==> key in t.owners)
  }

  lemma ComesFromStep(s: State, t: State, pods: Pods, sync: Sync, namespaces: seq<string>)
    requires ComesFrom(s, t, pods, namespaces)
    ensures ComesFrom(s, Step(t, pods, sync, namespaces), pods, namespaces)
  {
    var u := Step(t, pods, sync, namespaces);
    OnlyOwnKey(t, pods, sync, namespaces);
    forall key | key in u.owners
      ensures MayOwn(s, pods, namespaces, key, u.owners[key])
    {
      if key in t.owners {
        assert MayOwn(s, pods, namespaces, key, t.owners[key]);
      }
    }
  }

  /** What a sync does to the owner keys. */
  lemma OnlyOwnKey(t: State, pods: Pods, sync: Sync, namespaces: seq<string>)
    ensures var u := Step(t, pods, sync, namespaces);
            && (forall key :: key in t.owners && !(key == sync.key && Drops(pods, key, namespaces)) ==> key in u.owners)
            && (forall key :: key in t.owners && key in u.owners ==> u.owners[key] == t.owners[key])
            && (forall key :: key in u.owners && key !in t.owners ==>
                  && key == sync.key && Monitored(key, namespaces) && IsReady(pods, key)
                  && u.owners[key] == PodInstance(pods(key).pod, 0).instanceId)
  {
  }

  lemma ConflictFreeStep(s: State, t: State, pods: Pods, sync: Sync, namespaces: seq<string>)
    requires NoConflict(s, pods, namespaces) && ComesFrom(s, t, pods, namespaces) && Agree(t)
    ensures Agree(Step(t, pods, sync, namespaces))
  {
    var key := sync.key;
    SyncKeepsAgreeIff(t, pods, sync, namespaces);
    if Drops(pods, key, namespaces) && key in t.owners {
      assert MayOwn(s, pods, namespaces, key, t.owners[key]);
      forall other | other in t.owners.Keys - {key}
        ensures t.owners[other] != t.owners[key]
      {
        assert MayOwn(s, pods, namespaces, other, t.owners[other]);
      }
    }
  }

  lemma {:induction false} IdsAgree(s: State, pods: Pods, syncs: seq<Sync>, namespaces: seq<string>)
    requires Agree(s) && NoConflict(s, pods, namespaces)
    ensures Agree(Run(s, pods, syncs, namespaces))
    ensures ComesFrom(s, Run(s, pods, syncs, namespaces), pods, namespaces)
    decreases |syncs|
  {
    if syncs != [] {
      var before := syncs[..|syncs| - 1];
      IdsAgree(s, pods, before, namespaces);
      var t := Run(s, pods, before, namespaces);
      ConflictFreeStep(s, t, pods, syncs[|syncs| - 1], namespaces);
      ComesFromStep(s, t, pods, syncs[|syncs| - 1], namespaces);
    }
  }

  ghost predicate AlwaysAgree(s: State, pods: Pods, namespaces: seq<string>) {
    forall syncs :: Agree(Run(s, pods, syncs, namespaces))
  }

  /** With the pods as they are, the listed ids stay those of the keys through any syncs,
      exactly if no key that will be dropped has an id that another key has or will register. */
  lemma IdsAgreeIff(s: State, pods: Pods, namespaces: seq<string>)
    requires Agree(s)
    ensures AlwaysAgree(s, pods, namespaces) <==> NoConflict(s, pods, namespaces)
  {
    if NoConflict(s, pods, namespaces) {
      forall syncs
        ensures Agree(Run(s, pods, syncs, namespaces))
      {
        IdsAgree(s, pods, syncs, namespaces);
      }
    } else {
      var key, other :| key in s.owners && Drops(pods, key, namespaces) && other != key &&
                        MayOwn(s, pods, namespaces, other, s.owners[key]);
      var syncs := ConflictRun(s, pods, key, other, namespaces);
      assert !Agree(Run(s, pods, syncs, namespaces));
    }
  }

  /** The other key joins, if it has not; then the key is dropped. */
  lemma ConflictRun(s: State, pods: Pods, key: string, other: string, namespaces: seq<string>)
    returns (syncs: seq<Sync>)
    requires Agree(s) && key in s.owners && Drops(pods, key, namespaces) && other != key
    requires MayOwn(s, pods, namespaces, other, s.owners[key])
    ensures !Agree(Run(s, pods, syncs, namespaces))
  {
    var join, drop := Sync(other, 0), Sync(key, 0);
    RunTwo(s, pods, join, drop, namespaces);
    syncs := if other in s.owners then [drop] else [join, drop];
    var t := if other in s.owners then s else Step(s, pods, join, namespaces);
    if other !in s.owners {
      AddKeepsAgree(s, other, PodInstance(pods(other).pod, 0));
    }
    assert other in t.owners.Keys - {key} && t.owners[other] == t.owners[key];
    SyncKeepsAgreeIff(t, pods, drop, namespaces);
  }

  lemma RunTwo(s: State, pods: Pods, a: Sync, b: Sync, namespaces: seq<string>)
    ensures Run(s, pods, [b], namespaces) == Step(s, pods, b, namespaces)
    ensures Run(s, pods, [a, b], namespaces) == Step(Step(s, pods, a, namespaces), pods, b, namespaces)
  {
    assert [b][..0] == [] && [a][..0] == [] && [a, b][..1] == [a];
    assert Run(s, pods, [a], namespaces) == Step(s, pods, a, namespaces);
  }

  // ---------- a shared id ----------

  /** Two ready pods with one id are synced, then the first goes: the second still owns
      the id, which is not listed any more. */
  lemma SharedIdReachable(k: string, l: string, pod: Pod, other: Pod, now: nat, namespaces: seq<string>)
    returns (states: seq<State>, es: seq<Event>)
    requires k != l && Monitored(k, namespaces) && Monitored(l, namespaces) && Ready(pod) && Ready(other)
    requires PodInstance(pod, now).instanceId == PodInstance(other, now).instanceId
    ensures IsRun(states, es, namespaces) && states[0] == EMPTY
    ensures es == [PodSync(k, Present(pod), now), PodSync(l, Present(other), now), PodSync(k, Absent, now)]
    ensures var id := PodInstance(pod, now).instanceId;
            l in states[3].owners && states[3].owners[l] == id && Hidden(states[3], id)
  {
    var d, e, f := PodSync(k, Present(pod), now), PodSync(l, Present(other), now), PodSync(k, Absent, now);
    var s := SyncPod(EMPTY, k, d.view, now, namespaces);
    var t := SyncPod(s, l, e.view, now, namespaces);
    states, es := [EMPTY, s, t, SyncPod(t, k, Absent, now, namespaces)], [d, e, f];
  }

  /** No store has the id; only owner keys may. */
  predicate Hidden(s: State, id: string) {
    id !in s.instances && id !in s.overlay && forall key :: key in s.cm ==> s.cm[key].instanceId != id
  }

  /** The event can list the id: a free key joins under it, or a client registers it. */
  predicate Lists(s: State, e: Event, id: string, namespaces: seq<string>) {
    match e
    case PodSync(key, view, now) =>
      && Monitored(key, namespaces) && key !in s.owners && view.Present? && Ready(view.pod)
      && PodInstance(view.pod, now).instanceId == id
    case Register(ins, app, _) => ins.port != 0 && IdOf(ins.ipAddr, app, ins.port) == id
    case _ => false
  }

  lemma UpdateStaysHidden(s: State, edits: map<string, Metadata>, accepted: bool, t: State, id: string)
    requires Keyed(s) && Hidden(s, id) && Updates(s, edits, accepted, t)
    ensures Hidden(t, id)
  {
    if id in t.overlay {
      UpdatedOverlay(s, edits, accepted, t, id);
    }
    forall key | key in t.cm
      ensures t.cm[key].instanceId != id
    {
      UpdatedEntry(s, edits, accepted, t, key);
    }
  }

  lemma BothHidden(s: State, stored: InstanceData, id: string)
    requires Hidden(s, id)
    ensures Hidden(StoreBoth(s, stored), id) <==> stored.instanceId != id
  {
  }

  lemma RequestStaysHidden(s: State, ins: InstanceData, id: string)
    requires Keyed(s) && Hidden(s, id)
    ensures Hidden(StoreCustom(s, ins), id) <==> ins.instanceId != id
  {
    var stored := Stored(s, ins);
    assert stored.instanceId == ins.instanceId;
    BothHidden(s, stored, id);
  }

  lemma SyncStaysHidden(s: State, e: Event, namespaces: seq<string>, id: string)
    requires Hidden(s, id) && e.PodSync?
    ensures Hidden(SyncPod(s, e.key, e.view, e.now, namespaces), id) <==> !Lists(s, e, id, namespaces)
  {
  }

  lemma StaysHidden(s: State, e: Event, t: State, namespaces: seq<string>, id: string)
    requires Keyed(s) && Hidden(s, id) && Next(s, e, t, namespaces)
    ensures Hidden(t, id) <==> !Lists(s, e, id, namespaces)
  {
    match e
    case UpdateMetadata(edits, accepted) => UpdateStaysHidden(s, edits, accepted, t, id);
    case Register(ins, app, now) =>
      if ins.port != 0 {
        RequestStaysHidden(s, WithDefaults(ins.(app := app, instanceId := IdOf(ins.ipAddr, app, ins.port)), now), id);
      }
    case PodSync(_, _, _) => SyncStaysHidden(s, e, namespaces, id);
    case Refresh =>
    case Delete(_) =>
    case Read =>
  }

  /** It stays unlisted, whatever happens, until a free key joins under it or a client
      registers it. In particular no sync of the pod that owns it lists it again. */
  lemma {:induction false} NeverListedAgain(states: seq<State>, es: seq<Event>, namespaces: seq<string>, id: string,
                                            i: nat)
    requires IsRun(states, es, namespaces) && Keyed(states[0]) && Hidden(states[0], id) && i < |states|
    requires forall j :: 0 <= j < i ==> !Lists(states[j], es[j], id, namespaces)
    ensures Hidden(states[i], id)
  {
    if i > 0 {
      NeverListedAgain(states, es, namespaces, id, i - 1);
      RunKeyed(states, es, namespaces, i - 1);
      StaysHidden(states[i - 1], es[i - 1], states[i], namespaces, id);
    }
  }

  lemma OwnerNeverLists(s: State, key: string, view: PodView, now: nat, id: string, namespaces: seq<string>)
    requires key in s.owners
    ensures !Lists(s, PodSync(key, view, now), id, namespaces)
  {
  }
}
