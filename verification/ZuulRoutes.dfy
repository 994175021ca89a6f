/** Requests that add, update or delete one zuul route. */
module ZuulRoutes {
  import opened Trees

  datatype Route = Route(name: string, path: string, serviceId: string, url: string,
                         sensitiveHeaders: string, helperService: string)

  datatype Request = AddOrUpdate(dto: Route) | Delete(dto: Route)

  const PATH := "path"
  const SERVICE_ID := "serviceId"
  const URL := "url"
  const SENSITIVE_HEADERS := "sensitiveHeaders"
  const HELPER_SERVICE := "helperService"

  /** The tags on the request; deletions are validated like the rest. */
  predicate ValidRoute(dto: Route) {
    dto.name != "" && dto.path != "" && dto.serviceId != ""
  }

  function TextLeaf(s: string): Tree {
    Leaf(Str(s))
  }

  function SetUnlessEmpty(route: map<string, Tree>, k: string, s: string): map<string, Tree> {
    if s == "" then route else route[k := TextLeaf(s)]
  }

  /** `dto2map`: path and service always, the others unless empty. */
  function WithFields(route: map<string, Tree>, dto: Route): map<string, Tree> {
    var r := route[PATH := TextLeaf(dto.path)][SERVICE_ID := TextLeaf(dto.serviceId)];
    SetUnlessEmpty(SetUnlessEmpty(SetUnlessEmpty(r, URL, dto.url), SENSITIVE_HEADERS, dto.sensitiveHeaders),
                   HELPER_SERVICE, dto.helperService)
  }

  /** The text a request gives for a field; empty if none. */
  function Given(dto: Route, field: string): string {
    if field == PATH then dto.path
    else if field == SERVICE_ID then dto.serviceId
    else if field == URL then dto.url
    else if field == SENSITIVE_HEADERS then dto.sensitiveHeaders
    else if field == HELPER_SERVICE then dto.helperService
    else ""
  }

  /** What the fields of a route become. */
  lemma FieldAfter(route: map<string, Tree>, dto: Route, field: string)
    requires ValidRoute(dto)
    ensures field in WithFields(route, dto) <==> Given(dto, field) != "" || field in route
    ensures Given(dto, field) != "" ==> WithFields(route, dto)[field] == TextLeaf(Given(dto, field))
    ensures Given(dto, field) == "" && field in route ==> WithFields(route, dto)[field] == route[field]
  {
  }

  type Routes = map<string, Tree>

  /** All routes are objects; the code panics on another kind. */
  predicate AllObjects(routes: Routes) {
    forall name :: name in routes ==> routes[name].Obj?
  }

  /** The routes after a request; none on a panic. */
  function Edit(routes: Routes, req: Request): Option<Routes> {
    match req
    case Delete(dto) => Some(routes - {dto.name})
    case AddOrUpdate(dto) =>
      if dto.name !in routes then Some(routes[dto.name := Obj(WithFields(map[], dto))])
      else if routes[dto.name].Obj? then Some(routes[dto.name := Obj(WithFields(routes[dto.name].m, dto))])
      else None
  }

  lemma EditKeepsObjects(routes: Routes, req: Request)
    requires AllObjects(routes)
    ensures Edit(routes, req).Some? && AllObjects(Edit(routes, req).value)
  {
  }

  function EditAll(routes: Routes, reqs: seq<Request>): (r: Routes)
    requires AllObjects(routes)
    ensures AllObjects(r)
    decreases |reqs|
  {
    if reqs == [] then routes
    else
      var r := EditAll(routes, reqs[..|reqs| - 1]);
      EditKeepsObjects(r, reqs[|reqs| - 1]);
      Edit(r, reqs[|reqs| - 1]).value
  }

  // ---------- what a history of requests means ----------

  /** How a history leaves a field of a route: as it was at first, absent since
      a deletion, or with a given text. */
  datatype Fate = Initial | Absent | Is(s: string)

  /** The last request about a name, if any. */
  predicate LastAbout(reqs: seq<Request>, name: string, i: int) {
    0 <= i < |reqs| && reqs[i].dto.name == name && forall j :: i < j < |reqs| ==> reqs[j].dto.name != name
  }

  /** No request about a name since index i deletes the route or gives the field. */
  predicate Untouched(reqs: seq<Request>, name: string, field: string, i: int) {
    forall j :: i < j < |reqs| && 0 <= j && reqs[j].dto.name == name ==>
      reqs[j].AddOrUpdate? && Given(reqs[j].dto, field) == ""
  }

  ghost predicate FateIs(reqs: seq<Request>, name: string, field: string, fate: Fate) {
    match fate
    case Initial => Untouched(reqs, name, field, -1)
    case Absent => exists i :: 0 <= i < |reqs| && reqs[i].Delete? && reqs[i].dto.name == name
                               && Untouched(reqs, name, field, i)
    case Is(s) => exists i :: 0 <= i < |reqs| && reqs[i].AddOrUpdate? && reqs[i].dto.name == name
                              && Given(reqs[i].dto, field) == s != "" && Untouched(reqs, name, field, i)
  }

  function FieldOf(routes: Routes, name: string, field: string): Option<Tree> {
    if name in routes && routes[name].Obj? && field in routes[name].m then Some(routes[name].m[field]) else None
  }

  /** A route is present exactly when the last request about it was no deletion, or
      there was none and it was present at first. */
  lemma {:induction false} PresentIff(routes: Routes, reqs: seq<Request>, name: string)
    requires AllObjects(routes)
    ensures name in EditAll(routes, reqs) <==>
            if exists i :: LastAbout(reqs, name, i) then exists i :: LastAbout(reqs, name, i) && reqs[i].AddOrUpdate?
            else name in routes
    decreases |reqs|
  {
    if reqs != [] {
      var n := |reqs| - 1;
      var before := reqs[..n];
      PresentIff(routes, before, name);
      if reqs[n].dto.name == name {
        assert LastAbout(reqs, name, n);
        assert forall i :: LastAbout(reqs, name, i) ==> i == n;
      } else {
        assert forall i :: LastAbout(reqs, name, i) <==> LastAbout(before, name, i);
        assert forall i :: LastAbout(reqs, name, i) ==> before[i] == reqs[i];
      }
    }
  }

  lemma FieldStep(routes: Routes, req: Request, name: string, field: string)
    requires AllObjects(routes) && ValidRoute(req.dto)
    ensures Edit(routes, req).Some?
    ensures FieldOf(Edit(routes, req).value, name, field) ==
            if req.dto.name != name then FieldOf(routes, name, field)
            else if req.Delete? then None
            else if Given(req.dto, field) != "" then Some(TextLeaf(Given(req.dto, field)))
            else FieldOf(routes, name, field)
  {
    FieldAfter(if name in routes then routes[name].m else map[], req.dto, field);
  }

  lemma UntouchedStep(reqs: seq<Request>, name: string, field: string, i: int)
    requires reqs != [] && i < |reqs| - 1
    ensures var last := reqs[|reqs| - 1];
            Untouched(reqs, name, field, i) <==>
            Untouched(reqs[..|reqs| - 1], name, field, i) &&
            (last.dto.name == name ==> last.AddOrUpdate? && Given(last.dto, field) == "")
  {
    var n := |reqs| - 1;
    assert forall j :: 0 <= j < n ==> reqs[..n][j] == reqs[j];
  }

  /** Every field of every route is what the last request that gave it said, since
      the last deletion; a field that none gave is absent since a deletion, and
      otherwise as it was at first. */
  lemma {:induction false} FieldHistory(routes: Routes, reqs: seq<Request>, name: string, field: string)
    returns (fate: Fate)
    requires AllObjects(routes)
    requires forall i :: 0 <= i < |reqs| ==> ValidRoute(reqs[i].dto)
    ensures FateIs(reqs, name, field, fate)
    ensures FieldOf(EditAll(routes, reqs), name, field) ==
            match fate
            case Initial => FieldOf(routes, name, field)
            case Absent => None
            case Is(s) => Some(TextLeaf(s))
    decreases |reqs|
  {
    if reqs == [] {
      fate := Initial;
    } else {
      var n := |reqs| - 1;
      var before, last := reqs[..n], reqs[n];
      var was := FieldHistory(routes, before, name, field);
      var r := EditAll(routes, before);
      FieldStep(r, last, name, field);
      if last.dto.name == name && last.Delete? {
        fate := Absent;
      } else if last.dto.name == name && Given(last.dto, field) != "" {
        fate := Is(Given(last.dto, field));
        assert Untouched(reqs, name, field, n);
      } else {
        fate := was;
        FateStep(reqs, name, field, fate);
      }
    }
  }

  lemma FateStep(reqs: seq<Request>, name: string, field: string, fate: Fate)
    requires reqs != [] && FateIs(reqs[..|reqs| - 1], name, field, fate)
    requires var last := reqs[|reqs| - 1]; last.dto.name == name ==> last.AddOrUpdate? && Given(last.dto, field) == ""
    ensures FateIs(reqs, name, field, fate)
  {
    var n := |reqs| - 1;
    var before := reqs[..n];
    match fate
    case Initial =>
      UntouchedStep(reqs, name, field, -1);
    case Absent =>
      var i :| 0 <= i < n && before[i].Delete? && before[i].dto.name == name && Untouched(before, name, field, i);
      UntouchedStep(reqs, name, field, i);
      assert reqs[i] == before[i];
    case Is(s) =>
      var i :| 0 <= i < n && before[i].AddOrUpdate? && before[i].dto.name == name
               && Given(before[i].dto, field) == s != "" && Untouched(before, name, field, i);
      UntouchedStep(reqs, name, field, i);
      assert reqs[i] == before[i];
  }
}
