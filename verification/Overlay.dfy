/** What a loop that stores entries into a Go map in an unspecified order can leave behind. */
module Overlay {

  ghost function KeysOf<V>(entries: set<(string, V)>): set<string> {
    set e | e in entries :: e.0
  }

  /** No key occurs with two values. */
  ghost predicate Functional<V>(entries: set<(string, V)>) {
    forall e, f :: e in entries && f in entries && e.0 == f.0 ==> e == f
  }

  ghost function ToMap<V>(entries: set<(string, V)>): (r: map<string, V>)
    ensures r.Keys == KeysOf(entries)
    ensures forall k :: k in r ==> (k, r[k]) in entries
  {
    map k | k in KeysOf(entries) :: var e :| e in entries && e.0 == k; e.1
  }

  /** `after` is `before` with every entry stored: a key with one entry has its
      value, a key with several has one of them, any other key is as before. */
  ghost predicate Overlays<V>(before: map<string, V>, after: map<string, V>, entries: set<(string, V)>) {
    && after.Keys == before.Keys + KeysOf(entries)
    && (forall k :: k in after ==> if k in KeysOf(entries) then (k, after[k]) in entries else after[k] == before[k])
  }

  lemma OverlaysCompose<V>(a: map<string, V>, b: map<string, V>, c: map<string, V>,
                           first: set<(string, V)>, second: set<(string, V)>)
    requires Overlays(a, b, first) && Overlays(b, c, second)
    ensures Overlays(a, c, first + second)
  {
    assert KeysOf(first + second) == KeysOf(first) + KeysOf(second) by {
      forall k | k in KeysOf(first) + KeysOf(second)
        ensures k in KeysOf(first + second)
      {
        var e :| e in first + second && e.0 == k;
      }
    }
  }

  lemma OverlayOne<V>(a: map<string, V>, k: string, v: V)
    ensures Overlays(a, a[k := v], {(k, v)})
  {
    assert KeysOf({(k, v)}) == {k} by {
      assert (k, v).0 in KeysOf({(k, v)});
    }
  }

  /** Without colliding entries the outcome does not depend on the order. */
  lemma OverlayDetermined<V>(before: map<string, V>, after: map<string, V>, entries: set<(string, V)>)
    requires Functional(entries)
    ensures Overlays(before, after, entries) <==> after == before + ToMap(entries)
  {
    forall k | k in KeysOf(entries)
      ensures (k, ToMap(entries)[k]) in entries
      ensures forall v :: (k, v) in entries ==> v == ToMap(entries)[k]
    {
    }
    if after == before + ToMap(entries) {
      forall k | k in after
        ensures if k in KeysOf(entries) then (k, after[k]) in entries else after[k] == before[k]
      {
      }
    }
    if Overlays(before, after, entries) {
      forall k | k in after
        ensures after[k] == (before + ToMap(entries))[k]
      {
      }
    }
  }

  /** All orders lead to the same map. */
  ghost predicate OneOutcome<V(!new)>(before: map<string, V>, entries: set<(string, V)>) {
    forall a, b :: Overlays(before, a, entries) && Overlays(before, b, entries) ==> a == b
  }

  lemma OverlayExists<V>(before: map<string, V>, entries: set<(string, V)>)
    ensures Overlays(before, before + ToMap(entries), entries)
  {
  }

  lemma OverlayWith<V>(before: map<string, V>, after: map<string, V>, entries: set<(string, V)>, e: (string, V))
    requires Overlays(before, after, entries) && e in entries
    ensures Overlays(before, after[e.0 := e.1], entries)
  {
    assert e.0 in KeysOf(entries);
  }

  /** The outcome does not depend on the order exactly if no two entries collide. */
  lemma OneOutcomeIff<V(!new)>(before: map<string, V>, entries: set<(string, V)>)
    ensures OneOutcome(before, entries) <==> Functional(entries)
  {
    if Functional(entries) {
      forall a, b | Overlays(before, a, entries) && Overlays(before, b, entries)
        ensures a == b
      {
        OverlayDetermined(before, a, entries);
        OverlayDetermined(before, b, entries);
      }
    } else {
      var e, f :| e in entries && f in entries && e.0 == f.0 && e != f;
      var after := before + ToMap(entries);
      OverlayExists(before, entries);
      OverlayWith(before, after, entries, e);
      OverlayWith(before, after, entries, f);
      assert after[e.0 := e.1][e.0] != after[f.0 := f.1][e.0];
    }
  }

  /** A key at which two maps differ. */
  lemma Difference<V>(a: map<string, V>, b: map<string, V>) returns (s: string)
    requires a != b
    ensures s in a && s in b ==> a[s] != b[s]
    ensures s in a || s in b
  {
    if k :| k in a && (k !in b || a[k] != b[k]) {
      s := k;
    } else {
      s :| s in b && s !in a;
    }
  }
}
