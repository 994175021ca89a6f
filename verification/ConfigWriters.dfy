/** Any number of savers of one ConfigMap, in any interleaving: they read it, create it if
    it is absent, and send back a whole new one without a version. */
module ConfigWriters {
  import opened Trees
  import opened Merge
  import opened MergeCompare
  import opened Yaml
  import opened ConfigMaps
  import opened ConfigSave
  import opened SaveLaws

  /** What a saver read. */
  datatype Copy = Copy(version: nat, cell: Option<ConfigMap>)

  /** The stored ConfigMap, the copies that savers hold, and the requests whose writes
      the server took, in order. */
  datatype Cluster = Cluster(version: nat, cell: Option<ConfigMap>, copies: map<nat, Copy>, log: seq<SaveConfig>)

  datatype Event = Reading(saver: nat) | Making(saver: nat, dto: SaveConfig) | Sending(saver: nat, dto: SaveConfig)

  function Outcome(cell: Option<ConfigMap>, dto: SaveConfig): (Reply, ConfigMap) {
    if dto.yaml.Garbled? then (BadRequest, if cell.Some? then cell.value else NewV1ConfigMap(dto))
    else PutCell(cell, dto, Parsed(dto.yaml))
  }

  /** The saver has read a ConfigMap and has something to write. */
  predicate Sends(c: Cluster, saver: nat, dto: SaveConfig) {
    saver in c.copies && c.copies[saver].cell.Some? && Outcome(c.copies[saver].cell, dto).0 == Saved
  }

  function Commit(c: Cluster, cell: ConfigMap, dto: SaveConfig): Cluster {
    c.(version := c.version + 1, cell := Some(cell), log := c.log + [dto])
  }

  /** A server that checks versions would refuse an update of an old copy; this one,
      given no version, takes any. Creating is refused if there is one. */
  function Next(c: Cluster, e: Event, checked: bool): Cluster {
    match e
    case Reading(saver) => c.(copies := c.copies[saver := Copy(c.version, c.cell)])
    case Making(saver, dto) =>
      if saver !in c.copies || c.copies[saver].cell.Some? || dto.yaml.Garbled? then c
      else if c.cell.Some? then c.(copies := c.copies - {saver})
      else
        var cell := NewV1ConfigMap(dto);
        Commit(c, cell, dto).(copies := c.copies[saver := Copy(c.version + 1, Some(cell))])
    case Sending(saver, dto) =>
      var rest := c.(copies := c.copies - {saver});
      if !Sends(c, saver, dto) || (checked && c.copies[saver].version != c.version) then rest
      else Commit(rest, Outcome(c.copies[saver].cell, dto).1, dto)
  }

  function Run(c: Cluster, es: seq<Event>, checked: bool): Cluster
    decreases |es|
  {
    if es == [] then c else Next(Run(c, es[..|es| - 1], checked), es[|es| - 1], checked)
  }

  function Start(cell: Option<ConfigMap>): Cluster {
    Cluster(0, cell, map[], [])
  }

  // ---------- when versions would not have mattered ----------

  /** An update that the server takes although another write came after the read. */
  predicate Stale(c: Cluster, e: Event) {
    e.Sending? && Sends(c, e.saver, e.dto) && c.copies[e.saver].version != c.version
  }

  predicate NoStale(c: Cluster, es: seq<Event>)
    decreases |es|
  {
    es == [] || (NoStale(c, es[..|es| - 1]) && !Stale(Run(c, es[..|es| - 1], false), es[|es| - 1]))
  }

  lemma NextSameIff(c: Cluster, e: Event)
    ensures Next(c, e, true) == Next(c, e, false) <==> !Stale(c, e)
  {
    if Stale(c, e) {
      assert |Next(c, e, true).log| < |Next(c, e, false).log|;
    }
  }

  predicate OnPrefixes<T>(es: seq<T>, p: seq<T> -> bool) {
    forall i :: 0 <= i <= |es| ==> p(es[..i])
  }

  lemma PrefixesStep<T>(es: seq<T>, p: seq<T> -> bool)
    requires es != []
    ensures OnPrefixes(es, p) <==> OnPrefixes(es[..|es| - 1], p) && p(es)
  {
    var before := es[..|es| - 1];
    assert forall i :: 0 <= i <= |before| ==> before[..i] == es[..i];
    assert es[..|es|] == es;
  }

  /** A check of versions would make no difference after any part of the run. */
  predicate SameThroughout(c: Cluster, es: seq<Event>) {
    OnPrefixes(es, part => Run(c, part, true) == Run(c, part, false))
  }

  /** The server's check only refuses stale updates; runs without them are checked runs. */
  lemma {:induction false} UncheckedIff(c: Cluster, es: seq<Event>)
    ensures NoStale(c, es) <==> SameThroughout(c, es)
    ensures NoStale(c, es) ==> Run(c, es, true) == Run(c, es, false)
    decreases |es|
  {
    if es == [] {
      assert es[..0] == [];
    } else {
      var before := es[..|es| - 1];
      UncheckedIff(c, before);
      PrefixesStep(es, part => Run(c, part, true) == Run(c, part, false));
      NextSameIff(Run(c, before, false), es[|es| - 1]);
    }
  }

  // ---------- commits one by one ----------

  /** The requests taken one after another, each over what is stored. */
  function Serial(cell: Option<ConfigMap>, log: seq<SaveConfig>): Option<ConfigMap>
    decreases |log|
  {
    if log == [] then cell else Some(Outcome(Serial(cell, log[..|log| - 1]), log[|log| - 1]).1)
  }

  /** An update that merges, over a text that is not the stored one any more. */
  predicate Clobbers(c: Cluster, e: Event) {
    && e.Sending? && Sends(c, e.saver, e.dto) && MergingPolicy(e.dto.policy) && c.cell.Some?
    && var key := ConfigMapProfileKey(e.dto.profile);
       DataAt(c.copies[e.saver].cell.value, key) != DataAt(c.cell.value, key)
  }

  predicate NoClobber(c: Cluster, es: seq<Event>)
    decreases |es|
  {
    es == [] || (NoClobber(c, es[..|es| - 1]) && !Clobbers(Run(c, es[..|es| - 1], false), es[|es| - 1]))
  }

  /** Copies are of stored versions, those of the current one current, and a ConfigMap
      that was read is still there. */
  predicate Sound(c: Cluster) {
    forall saver :: saver in c.copies ==>
      && c.copies[saver].version <= c.version
      && (c.copies[saver].version == c.version ==> c.copies[saver].cell == c.cell)
      && (c.copies[saver].cell.Some? ==> c.cell.Some?)
  }

  lemma NextSound(c: Cluster, e: Event, checked: bool)
    requires Sound(c)
    ensures Sound(Next(c, e, checked))
  {
  }

  lemma {:induction false} RunSound(cell: Option<ConfigMap>, es: seq<Event>, checked: bool)
    ensures Sound(Run(Start(cell), es, checked))
    decreases |es|
  {
    if es != [] {
      RunSound(cell, es[..|es| - 1], checked);
      NextSound(Run(Start(cell), es[..|es| - 1], checked), es[|es| - 1], checked);
    }
  }

  /** Creating is storing where there is nothing. */
  lemma CreateIsPut(dto: SaveConfig)
    ensures Outcome(None, dto).1 == NewV1ConfigMap(dto)
  {
    if !dto.yaml.Garbled? {
      AddSelf(Parsed(dto.yaml));
      UpdateSelf(Parsed(dto.yaml));
    }
  }

  lemma SerialStep(cell: Option<ConfigMap>, log: seq<SaveConfig>, dto: SaveConfig)
    ensures Serial(cell, log + [dto]) == Some(Outcome(Serial(cell, log), dto).1)
  {
    assert (log + [dto])[..|log|] == log;
  }

  /** The tree that a merge of the request works on; an empty text counts as the
      request's own, which is what is written over it. */
  function BaseTree(text: Text, source: Tree): Tree
    requires !text.Garbled?
  {
    if text.Empty? then source else Parsed(text)
  }

  /** The request, merged over this text, panics. */
  predicate MergePanics(text: Text, dto: SaveConfig)
    requires !dto.yaml.Garbled?
  {
    var source := Parsed(dto.yaml);
    && !text.Empty? && !text.Garbled?
    && (WritesNil(Parsed(text), source) || (dto.policy == UPDATE && Clash(Parsed(text), source)))
  }

  /** The request, merged over the text that was read, does not lead to what it leads to
      over the stored ConfigMap. If a text does not parse, or the request is empty, that
      is so unless one text is empty and the request is, too. Otherwise the two trees
      differ where the request has nothing that shows in both. Where merging over the
      stored text would panic and leave it alone, it is so also if the stored ConfigMap
      is not already what will be written. */
  ghost predicate MergesApart(read: Text, cell: ConfigMap, dto: SaveConfig)
    requires !dto.yaml.Garbled?
  {
    var key := ConfigMapProfileKey(dto.profile);
    var stored, source, update := DataAt(cell, key), Parsed(dto.yaml), dto.policy == UPDATE;
    && read != stored
    && if read.Garbled? || stored.Garbled? then !(dto.yaml.Empty? && (read.Empty? || stored.Empty?))
       else if dto.yaml.Empty? then true
       else if MergePanics(stored, dto) then
         !(&& cell == ConfigMap(dto.version, map[key := stored])
           && GivenAgain(update, BaseTree(read, source), Parsed(stored), source)
           && NothingNew(update, Parsed(stored), source))
       else !GivenAgain(update, BaseTree(read, source), BaseTree(stored, source), source)
  }

  /** An update whose request merges, over a text that is not the stored one any more and
      that makes a difference. */
  ghost predicate Diverts(c: Cluster, e: Event) {
    && e.Sending? && Sends(c, e.saver, e.dto) && MergingPolicy(e.dto.policy) && c.cell.Some?
    && MergesApart(DataAt(c.copies[e.saver].cell.value, ConfigMapProfileKey(e.dto.profile)), c.cell.value, e.dto)
  }

  /** The text that a merge that does not panic writes. */
  lemma WrittenText(text: Text, dto: SaveConfig)
    requires !dto.yaml.Garbled? && MergingPolicy(dto.policy)
    ensures var source, update := Parsed(dto.yaml), dto.policy == UPDATE;
            var r := Written(dto.policy, text, source, dto.yaml);
            && (r.None? <==> MergePanics(text, dto))
            && (text.Garbled? ==> r == Some(Empty))
            && (dto.yaml.Empty? && !text.Garbled? ==> r == Some(text))
            && (!dto.yaml.Empty? && !text.Garbled? && r.Some? ==>
                  IsRoot(MergeOf(update, BaseTree(text, source), source)) &&
                  r == Some(Printed(MergeOf(update, BaseTree(text, source), source))))
  {
    AddSelf(Parsed(dto.yaml));
    UpdateSelf(Parsed(dto.yaml));
  }

  lemma PrintedSame(a: Tree, b: Tree)
    requires IsRoot(a) && IsRoot(b)
    ensures Printed(a) == Printed(b) <==> a == b
  {
    assert Parsed(Printed(a)) == a && Parsed(Printed(b)) == b;
  }

  /** The texts written differ, where merging over the stored one does not panic. */
  lemma WrittenApart(read: Text, cell: ConfigMap, dto: SaveConfig)
    requires !dto.yaml.Garbled? && MergingPolicy(dto.policy) && !MergePanics(read, dto)
    requires !MergePanics(DataAt(cell, ConfigMapProfileKey(dto.profile)), dto)
    ensures MergesApart(read, cell, dto) <==>
            Written(dto.policy, read, Parsed(dto.yaml), dto.yaml) !=
            Written(dto.policy, DataAt(cell, ConfigMapProfileKey(dto.profile)), Parsed(dto.yaml), dto.yaml)
  {
    var stored := DataAt(cell, ConfigMapProfileKey(dto.profile));
    var source, update := Parsed(dto.yaml), dto.policy == UPDATE;
    WrittenText(read, dto);
    WrittenText(stored, dto);
    if !read.Garbled? && !stored.Garbled? && !dto.yaml.Empty? {
      var a, b := BaseTree(read, source), BaseTree(stored, source);
      PrintedSame(MergeOf(update, a, source), MergeOf(update, b, source));
      MergesAgreeIff(update, a, b, source);
    }
  }

  /** What will be written is not what is stored, where merging over that panics. */
  lemma WrittenOver(read: Text, cell: ConfigMap, dto: SaveConfig, text: Text)
    requires !dto.yaml.Garbled? && MergingPolicy(dto.policy)
    requires Written(dto.policy, read, Parsed(dto.yaml), dto.yaml) == Some(text)
    requires MergePanics(DataAt(cell, ConfigMapProfileKey(dto.profile)), dto)
    ensures MergesApart(read, cell, dto) <==> NewV1ConfigMap(dto.(yaml := text)) != cell
  {
    var key := ConfigMapProfileKey(dto.profile);
    var stored, source, update := DataAt(cell, key), Parsed(dto.yaml), dto.policy == UPDATE;
    WrittenText(read, dto);
    WrittenText(stored, dto);
    assert NewV1ConfigMap(dto.(yaml := text)) == ConfigMap(dto.version, map[key := text]);
    assert NewV1ConfigMap(dto.(yaml := text)) == cell ==> text == stored;
    if !read.Garbled? && !dto.yaml.Empty? {
      var a := BaseTree(read, source);
      assert stored == Printed(Parsed(stored));
      PrintedSame(MergeOf(update, a, source), Parsed(stored));
      MergeIsIff(update, a, source, Parsed(stored));
    }
  }

  lemma SameDataSameText(dto: SaveConfig, s: Text, t: Text)
    ensures NewV1ConfigMap(dto.(yaml := s)) == NewV1ConfigMap(dto.(yaml := t)) <==> s == t
  {
    var key := ConfigMapProfileKey(dto.profile);
    assert NewV1ConfigMap(dto.(yaml := s)).data[key] == s && NewV1ConfigMap(dto.(yaml := t)).data[key] == t;
  }

  /** The condition on texts, request and policy is the right one. */
  lemma DivertsIff(c: Cluster, e: Event)
    requires Sound(c) && e.Sending? && Sends(c, e.saver, e.dto)
    ensures Diverts(c, e) <==> Outcome(c.copies[e.saver].cell, e.dto).1 != Outcome(c.cell, e.dto).1
  {
    var dto, source := e.dto, Parsed(e.dto.yaml);
    var key := ConfigMapProfileKey(dto.profile);
    var read, cell := DataAt(c.copies[e.saver].cell.value, key), c.cell.value;
    if MergingPolicy(dto.policy) {
      WrittenText(read, dto);
      WrittenText(DataAt(cell, key), dto);
      var text := Written(dto.policy, read, source, dto.yaml).value;
      if MergePanics(DataAt(cell, key), dto) {
        WrittenOver(read, cell, dto, text);
      } else {
        WrittenApart(read, cell, dto);
        SameDataSameText(dto, text, Written(dto.policy, DataAt(cell, key), source, dto.yaml).value);
      }
    }
  }

  ghost predicate NoDivert(c: Cluster, es: seq<Event>)
    decreases |es|
  {
    es == [] || (NoDivert(c, es[..|es| - 1]) && !Diverts(Run(c, es[..|es| - 1], false), es[|es| - 1]))
  }

  predicate IsSerial(cell: Option<ConfigMap>, c: Cluster) {
    c.cell == Serial(cell, c.log)
  }

  lemma NextSerialIff(cell: Option<ConfigMap>, c: Cluster, e: Event)
    requires Sound(c) && IsSerial(cell, c)
    ensures IsSerial(cell, Next(c, e, false)) <==> !Diverts(c, e)
  {
    match e
    case Reading(_) =>
    case Making(_, dto) =>
      SerialStep(cell, c.log, dto);
      CreateIsPut(dto);
    case Sending(saver, dto) =>
      SerialStep(cell, c.log, dto);
      if Sends(c, saver, dto) {
        DivertsIff(c, e);
      }
  }

  /** After every part of the run the ConfigMap is what the requests taken make of it one
      by one, exactly if no update diverts it. */
  lemma {:induction false} SavesAreSerialIff(cell: Option<ConfigMap>, es: seq<Event>)
    ensures OnPrefixes(es, part => IsSerial(cell, Run(Start(cell), part, false))) <==> NoDivert(Start(cell), es)
    ensures NoDivert(Start(cell), es) ==> IsSerial(cell, Run(Start(cell), es, false))
    decreases |es|
  {
    if es == [] {
      assert es[..0] == [];
    } else {
      var before := es[..|es| - 1];
      SavesAreSerialIff(cell, before);
      PrefixesStep(es, part => IsSerial(cell, Run(Start(cell), part, false)));
      RunSound(cell, before, false);
      assert before[..|before|] == before;
      if NoDivert(Start(cell), before) {
        NextSerialIff(cell, Run(Start(cell), before, false), es[|es| - 1]);
      }
    }
  }

  /** An update diverts only if it merges over a text that is outdated, so only if it is stale. */
  lemma DivertsOnlyIf(c: Cluster, e: Event)
    requires Sound(c) && Diverts(c, e)
    ensures Clobbers(c, e) && Stale(c, e)
  {
  }

  /** Without stale updates, or if none merges over an outdated text, commits are serial. */
  lemma {:induction false} SavesAreSerial(cell: Option<ConfigMap>, es: seq<Event>)
    ensures NoStale(Start(cell), es) || NoClobber(Start(cell), es) ==> NoDivert(Start(cell), es)
    decreases |es|
  {
    if es != [] {
      var before := es[..|es| - 1];
      SavesAreSerial(cell, before);
      RunSound(cell, before, false);
      if Diverts(Run(Start(cell), before, false), es[|es| - 1]) {
        DivertsOnlyIf(Run(Start(cell), before, false), es[|es| - 1]);
      }
    }
  }

  lemma CheckedNextSerial(cell: Option<ConfigMap>, c: Cluster, e: Event)
    requires Sound(c) && IsSerial(cell, c)
    ensures IsSerial(cell, Next(c, e, true))
  {
    NextSerialIff(cell, c, e);
    NextSameIff(c, e);
    if Next(c, e, false) == Next(c, e, true) && e.Sending? && Sends(c, e.saver, e.dto) {
      DivertsIff(c, e);
    }
  }

  /** If versions were sent and checked, commits would be serial in every run. */
  lemma {:induction false} CheckedSavesAreSerial(cell: Option<ConfigMap>, es: seq<Event>)
    ensures IsSerial(cell, Run(Start(cell), es, true))
    decreases |es|
  {
    if es != [] {
      var before := es[..|es| - 1];
      CheckedSavesAreSerial(cell, before);
      RunSound(cell, before, true);
      CheckedNextSerial(cell, Run(Start(cell), before, true), es[|es| - 1]);
    }
  }

  /** So are they where no update is stale, as a check would have refused none. */
  lemma UnstaleSavesAreSerial(cell: Option<ConfigMap>, es: seq<Event>)
    requires NoStale(Start(cell), es)
    ensures IsSerial(cell, Run(Start(cell), es, false))
  {
    UncheckedIff(Start(cell), es);
    CheckedSavesAreSerial(cell, es);
  }

  /** What becomes of a committed leaf when a merge with a text read earlier is stored
      over it. Under "add" it survives exactly if that text had it, or left its place
      open and the request gives it again. */
  lemma {:induction false} LeafSurvivesIff(read: Tree, source: Tree, p: Path, v: Tree)
    requires v.IsLeaf()
    ensures Get(Add(read, source), p) == Some(v) <==>
            || Get(read, p) == Some(v)
            || (Get(read, p).None? && StopsAt(read, p).None? && Get(source, p) == Some(v))
    ensures Get(Update(read, source), p) == Some(v) <==>
            || (Get(read, p) == Some(v) && (Get(source, p).None? || Get(source, p).value.Null?))
            || (Get(source, p) == Some(v) && StopsAt(read, p) != Some(Null) &&
                (Get(read, p).None? || Get(read, p).value.IsLeaf()))
  {
    AddAt(read, source, p);
    UpdateAt(read, source, p);
    StopsAtPrefix(read, p);
  }

  lemma RunStep(c: Cluster, es: seq<Event>, e: Event)
    ensures Run(c, es + [e], false) == Next(Run(c, es, false), e, false)
  {
    assert (es + [e])[..|es|] == es;
  }

  /** Two savers that read the same ConfigMap: the second write is all that stays. */
  lemma BothRead(start: ConfigMap, a: SaveConfig, b: SaveConfig) returns (es: seq<Event>)
    requires Outcome(Some(start), a).0 == Saved && Outcome(Some(start), b).0 == Saved
    ensures var c := Run(Start(Some(start)), es, false);
            c.log == [a, b] && c.cell == Some(Outcome(Some(start), b).1)
  {
    var c := Start(Some(start));
    var es2 := [] + [Reading(0)] + [Reading(1)];
    RunStep(c, [], Reading(0));
    RunStep(c, [] + [Reading(0)], Reading(1));
    var c2 := Run(c, es2, false);
    assert c2.copies == map[0 := Copy(0, c.cell), 1 := Copy(0, c.cell)] && c2.log == [] && c2.cell == c.cell;
    RunStep(c, es2, Sending(0, a));
    var c3 := Run(c, es2 + [Sending(0, a)], false);
    assert c3.copies == map[1 := Copy(0, c.cell)] && c3.log == [a];
    RunStep(c, es2 + [Sending(0, a)], Sending(1, b));
    es := es2 + [Sending(0, a)] + [Sending(1, b)];
  }

  function OneKey(policy: string, k: string): SaveConfig {
    SaveConfig("service", "1", DEFAULT, "ns", policy, Doc(map[k := Leaf(Bool(true))]))
  }

  /** Each adds a key of its own; the first key is lost. */
  lemma AddsLose(j: string, k: string) returns (es: seq<Event>)
    requires j != k
    ensures var empty := NewV1ConfigMap(OneKey(ADD, j).(yaml := Doc(map[])));
            var c := Run(Start(Some(empty)), es, false);
            && c.log == [OneKey(ADD, j), OneKey(ADD, k)]
            && c.cell == Some(NewV1ConfigMap(OneKey(ADD, k)))
            && DataAt(Serial(Some(empty), c.log).value, ConfigMapProfileKey(DEFAULT)) ==
               Doc(map[j := Leaf(Bool(true)), k := Leaf(Bool(true))])
  {
    var a, b := OneKey(ADD, j), OneKey(ADD, k);
    var empty := NewV1ConfigMap(a.(yaml := Doc(map[])));
    AddToEmpty(empty, a);
    AddToEmpty(empty, b);
    es := BothRead(empty, a, b);
    AddToOne(j, k);
    TwoSerial(Some(empty), a, b);
  }

  lemma TwoSerial(cell: Option<ConfigMap>, a: SaveConfig, b: SaveConfig)
    ensures Serial(cell, [a, b]) == Some(Outcome(Some(Outcome(cell, a).1), b).1)
  {
    SerialStep(cell, [], a);
    SerialStep(cell, [a], b);
    assert [] + [a] == [a] && [a] + [b] == [a, b];
  }

  lemma AddToEmpty(empty: ConfigMap, dto: SaveConfig)
    requires dto.policy == ADD && dto.yaml.Doc? && DataAt(empty, ConfigMapProfileKey(dto.profile)) == Doc(map[])
    ensures Outcome(Some(empty), dto) == (Saved, NewV1ConfigMap(dto))
  {
    assert Add(Obj(map[]), Obj(dto.yaml.m)).m == dto.yaml.m;
  }

  lemma AddToOne(j: string, k: string)
    requires j != k
    ensures Outcome(Some(NewV1ConfigMap(OneKey(ADD, j))), OneKey(ADD, k)) ==
            (Saved, NewV1ConfigMap(OneKey(ADD, k).(yaml := Doc(map[j := Leaf(Bool(true)), k := Leaf(Bool(true))]))))
  {
    var v := Leaf(Bool(true));
    assert Add(Obj(map[j := v]), Obj(map[k := v])).m == map[j := v, k := v];
  }

  /** A saver whom nobody disturbs stores what `Put` does. */
  lemma UndisturbedIsPut(cell: Option<ConfigMap>, dto: SaveConfig)
    requires !dto.yaml.Garbled?
    ensures var start := [Reading(0)] + if cell == None then [Making(0, dto)] else [];
            Run(Start(cell), start + [Sending(0, dto)], false).cell == Some(PutCell(cell, dto, Parsed(dto.yaml)).1)
  {
    var read := [Reading(0)];
    RunStep(Start(cell), [], Reading(0));
    assert [] + read == read;
    if cell == None {
      RunStep(Start(cell), read, Making(0, dto));
      RunStep(Start(cell), read + [Making(0, dto)], Sending(0, dto));
      CreateIsPut(dto);
    } else {
      assert read + [] == read;
      RunStep(Start(cell), read, Sending(0, dto));
    }
  }
}
