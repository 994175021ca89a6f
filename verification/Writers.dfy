/** Any number of writers get, edit and update the shared ConfigMap, in any interleaving. */
module Writers {
  import opened Registry

  /** What one handler does to the copy it got: entries stored, or a key deleted. */
  datatype Edit = Put(entries: Store) | Drop(key: string)

  function Apply(data: Store, edit: Edit): Store {
    match edit
    case Put(entries) => data + entries
    case Drop(key) => data - {key}
  }

  function ApplyAll(data: Store, edits: seq<Edit>): Store
    decreases |edits|
  {
    if edits == [] then data else Apply(ApplyAll(data, edits[..|edits| - 1]), edits[|edits| - 1])
  }

  /** What a writer got and has not yet sent back. */
  datatype Copy = Copy(version: nat, data: Store)

  /** The stored object, the copies that writers hold, and the edits committed so far. */
  datatype Cluster = Cluster(version: nat, data: Store, copies: map<nat, Copy>, log: seq<Edit>)

  datatype Event = Get(writer: nat) | Update(writer: nat, edit: Edit)

  /** The server refuses an update of a copy that is not of the stored version. Either
      way the writer is done. */
  function Next(c: Cluster, e: Event): Cluster {
    match e
    case Get(w) => c.(copies := c.copies[w := Copy(c.version, c.data)])
    case Update(w, edit) =>
      if w !in c.copies then c
      else
        var rest := c.(copies := c.copies - {w});
        if c.copies[w].version != c.version then rest
        else rest.(version := c.version + 1, data := Apply(c.copies[w].data, edit), log := c.log + [edit])
  }

  function Run(c: Cluster, es: seq<Event>): Cluster
    decreases |es|
  {
    if es == [] then c else Next(Run(c, es[..|es| - 1]), es[|es| - 1])
  }

  function Start(data: Store): Cluster {
    Cluster(0, data, map[], [])
  }

  /** The data are the committed edits, in order; copies of the stored version are current. */
  predicate Serial(initial: Store, c: Cluster) {
    && c.data == ApplyAll(initial, c.log)
    && forall w :: w in c.copies ==> c.copies[w].version <= c.version &&
                                     (c.copies[w].version == c.version ==> c.copies[w].data == c.data)
  }

  lemma StepSerial(initial: Store, c: Cluster, e: Event)
    requires Serial(initial, c)
    ensures Serial(initial, Next(c, e))
  {
    if e.Update? && e.writer in c.copies && c.copies[e.writer].version == c.version {
      assert (c.log + [e.edit])[..|c.log|] == c.log;
    }
  }

  /** In every interleaving the contents are the committed edits applied one by one. */
  lemma {:induction false} CommitsAreSerial(initial: Store, es: seq<Event>)
    ensures Serial(initial, Run(Start(initial), es))
    decreases |es|
  {
    if es != [] {
      CommitsAreSerial(initial, es[..|es| - 1]);
      StepSerial(initial, Run(Start(initial), es[..|es| - 1]), es[|es| - 1]);
    }
  }

  predicate Stores(edit: Edit, key: string) {
    edit.Put? && key in edit.entries
  }

  predicate Touches(edit: Edit, key: string) {
    Stores(edit, key) || edit == Drop(key)
  }

  /** The last committed edit of a key; -1 if there is none. */
  function LastTouch(log: seq<Edit>, key: string): (i: int)
    ensures -1 <= i < |log|
    ensures i >= 0 ==> Touches(log[i], key)
    ensures forall j :: i < j < |log| ==> !Touches(log[j], key)
    decreases |log|
  {
    if log == [] then -1
    else if Touches(log[|log| - 1], key) then |log| - 1
    else
      var i := LastTouch(log[..|log| - 1], key);
      assert forall j :: 0 <= j < |log| - 1 ==> log[..|log| - 1][j] == log[j];
      i
  }

  /** A key's entry is that of the last committed edit of the key; it is absent after
      a deletion, and as it was initially if no edit touched it. */
  lemma {:induction false} EntryHistory(initial: Store, log: seq<Edit>, key: string)
    ensures var r, i := ApplyAll(initial, log), LastTouch(log, key);
            && (key in r <==> if i < 0 then key in initial else Stores(log[i], key))
            && (key in r ==> r[key] == if i < 0 then initial[key] else log[i].entries[key])
    decreases |log|
  {
    if log != [] {
      EntryHistory(initial, log[..|log| - 1], key);
    }
  }

  /** A committed registration is gone only if its key was deleted by a later commit. */
  lemma CommittedStays(initial: Store, es: seq<Event>, i: nat, key: string)
    requires var c := Run(Start(initial), es);
             i < |c.log| && Stores(c.log[i], key) && key !in c.data
    ensures var c := Run(Start(initial), es);
            exists j :: i < j < |c.log| && c.log[j] == Drop(key)
  {
    var c := Run(Start(initial), es);
    CommitsAreSerial(initial, es);
    EntryHistory(initial, c.log, key);
    var j := LastTouch(c.log, key);
    assert i < j && c.log[j] == Drop(key);
  }
}
