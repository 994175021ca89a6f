/** Registered instances: their ids, where their fields come from, and how ids are encoded. */
module Instances {
  import opened Keys

  type Metadata = map<string, string>

  /** What no step of the registry looks at: addresses, fixed values, times of renewal. */
  datatype Details = Details(
    hostName: string, overriddenStatus: string, vipAddress: string, secureVipAddress: string,
    homePageUrl: string, statusPageUrl: string, healthCheckUrl: string,
    countryId: nat, actionType: string, coordinating: bool, dataCenterName: string, dataCenterClass: string,
    portEnabled: bool, securePort: int, securePortEnabled: bool,
    renewalIntervalInSecs: nat, durationInSecs: nat, evictionTimestamp: nat,
    lastRenewalTimestamp: nat, serviceUpTimestamp: nat, lastUpdatedTimestamp: nat, lastDirtyTimestamp: nat)

  /** `registered` is the registration time of its lease. */
  datatype InstanceData = InstanceData(
    instanceId: string, app: string, ipAddr: string, port: int, status: string,
    metadata: Metadata, registered: nat, details: Details)

  const UP := "UP"
  const DOWN := "DOWN"
  const ADDED := "ADDED"
  const UNKNOWN := "UNKNOWN"
  const DATA_CENTRE_CLASS := "com.netflix.appinfo.InstanceInfo$DefaultDataCenterInfo"
  const DATA_CENTRE_NAME := "MyOwn"

  // ---------- ids ----------

  /** A number as printed with %d. */
  function NumberText(n: int): string {
    if n < 0 then "-" + Decimal(-n) else Decimal(n)
  }

  function IdOf(ip: string, app: string, port: int): string {
    ip + ":" + app + ":" + NumberText(port)
  }

  /** The key of an instance in the shared ConfigMap: every ':' becomes '-'. */
  function Encode(id: string): (r: string)
    ensures |r| == |id|
  {
    seq(|id|, i requires 0 <= i < |id| => if id[i] == ':' then '-' else id[i])
  }

  /** An id whose encoding can be told from all other such ids'. */
  ghost predicate PlainId(id: string) {
    exists ip, app, port: nat :: IsPlain(ip, app) && id == IdOf(ip, app, port)
  }

  predicate IsPlain(ip: string, app: string) {
    ':' !in ip && '-' !in ip && ':' !in app
  }

  lemma EncodeConcat(a: string, b: string)
    ensures Encode(a + b) == Encode(a) + Encode(b)
  {
  }

  lemma EncodeSame(a: string)
    requires ':' !in a
    ensures Encode(a) == a
  {
  }

  lemma EncodePlain(ip: string, app: string, port: nat)
    requires IsPlain(ip, app)
    ensures Encode(IdOf(ip, app, port)) == ip + ['-'] + (app + ['-'] + Decimal(port))
    ensures '-' !in Decimal(port)
  {
    EncodeConcat(ip + ":" + app + ":", Decimal(port));
    EncodeConcat(ip + ":" + app, ":");
    EncodeConcat(ip + ":", app);
    EncodeConcat(ip, ":");
    EncodeSame(ip);
    EncodeSame(app);
    EncodeSame(Decimal(port));
    assert Encode(":") == ['-'];
    assert ip + ['-'] + app + ['-'] + Decimal(port) == ip + ['-'] + (app + ['-'] + Decimal(port));
  }

  /** Text after the last separator is determined by the whole text. */
  lemma CutLastUnique(c: char, a: string, x: string, b: string, y: string)
    requires c !in x && c !in y
    requires a + [c] + x == b + [c] + y
    ensures a == b && x == y
  {
    var w := a + [c] + x;
    assert w[|a|] == c && w[|b|] == c;
    assert forall i :: |a| < i < |w| ==> w[i] == x[i - |a| - 1];
    assert forall i :: |b| < i < |w| ==> w[i] == y[i - |b| - 1];
    assert |a| == |b|;
    assert a == w[..|a|] == b;
    assert x == w[|a| + 1..] == y;
  }

  /** No two plain ids are encoded alike. */
  lemma EncodeInjective(a: string, b: string)
    requires PlainId(a) && PlainId(b)
    ensures Encode(a) == Encode(b) <==> a == b
  {
    if Encode(a) == Encode(b) {
      var ip, app, port: nat :| IsPlain(ip, app) && a == IdOf(ip, app, port);
      var ip', app', port': nat :| IsPlain(ip', app') && b == IdOf(ip', app', port');
      EncodePlain(ip, app, port);
      EncodePlain(ip', app', port');
      CutUnique('-', ip, app + ['-'] + Decimal(port), ip', app' + ['-'] + Decimal(port'));
      CutLastUnique('-', app, Decimal(port), app', Decimal(port'));
    }
  }

  /** A negative port or an address with a dash spoils it. */
  lemma EncodeNotInjective()
    ensures IdOf("10.0.0.1", "a", -5) != IdOf("10.0.0.1", "a-", 5)
    ensures Encode(IdOf("10.0.0.1", "a", -5)) == Encode(IdOf("10.0.0.1", "a-", 5))
    ensures IdOf("a-b", "c", 5) != IdOf("a", "b-c", 5)
    ensures Encode(IdOf("a-b", "c", 5)) == Encode(IdOf("a", "b-c", 5))
  {
    assert Decimal(5) == "5";
    assert IdOf("10.0.0.1", "a", -5) == "10.0.0.1:a:-5";
    assert IdOf("10.0.0.1", "a-", 5) == "10.0.0.1:a-:5";
    assert IdOf("a-b", "c", 5) == "a-b:c:5";
    assert IdOf("a", "b-c", 5) == "a:b-c:5";
    assert "10.0.0.1:a:-5"[10] != "10.0.0.1:a-:5"[10];
    assert "a-b:c:5"[1] != "a:b-c:5"[1];
  }

  // ---------- metadata ----------

  /** Metadata that edits leave alone. */
  predicate Protected(k: string) {
    k == "provisioner" || k == "pod-self-link" || k == "version" || k == "context-path"
  }

  function ProtectedPart(m: Metadata): Metadata {
    map k | k in m && Protected(k) :: m[k]
  }

  /** A request sets entries, deletes those it gives as empty, and leaves protected ones alone. */
  function EditMetadata(m: Metadata, req: Metadata): Metadata {
    map k | k in m.Keys + req.Keys && Kept(m, req, k) ::
      if k in req && !Protected(k) then req[k] else m[k]
  }

  predicate Kept(m: Metadata, req: Metadata, k: string) {
    if k in req && !Protected(k) then req[k] != "" else k in m
  }

  lemma EditKeepsProtected(m: Metadata, req: Metadata)
    ensures ProtectedPart(EditMetadata(m, req)) == ProtectedPart(m)
  {
  }

  // ---------- where instances come from ----------

  /** A request with its defaults set. */
  function WithDefaults(ins: InstanceData, now: nat): InstanceData {
    ins.(status := if ins.status == "" then UP else ins.status,
         metadata := if "provisioner" in ins.metadata then ins.metadata else ins.metadata["provisioner" := "custom"],
         registered := if ins.registered == 0 then now else ins.registered,
         details := DetailsWithDefaults(ins, now))
  }

  /** The next port; ports are 32-bit numbers that wrap around. */
  function NextPort(port: int): int {
    if port == 0x7fff_ffff then -0x8000_0000 else port + 1
  }

  function Page(ip: string, port: string, path: string): string {
    "http://" + ip + ":" + port + path
  }

  /** Pages that the request does not give are at the port, or at the next one. */
  function DetailsWithDefaults(ins: InstanceData, now: nat): Details {
    var d, next := ins.details, NumberText(NextPort(ins.port));
    d.(homePageUrl := if d.homePageUrl == "" then Page(ins.ipAddr, NumberText(ins.port), "/") else d.homePageUrl,
       statusPageUrl := if d.statusPageUrl == "" then Page(ins.ipAddr, next, "/actuator/info") else d.statusPageUrl,
       healthCheckUrl := if d.healthCheckUrl == "" then Page(ins.ipAddr, next, "/actuator/health")
                         else d.healthCheckUrl,
       hostName := ins.ipAddr, overriddenStatus := UNKNOWN, countryId := 8, actionType := ADDED, coordinating := true,
       vipAddress := ins.app, secureVipAddress := ins.app,
       dataCenterName := DATA_CENTRE_NAME, dataCenterClass := DATA_CENTRE_CLASS,
       durationInSecs := 90, evictionTimestamp := 0, renewalIntervalInSecs := 10,
       lastRenewalTimestamp := now, serviceUpTimestamp := now, lastUpdatedTimestamp := now, lastDirtyTimestamp := now)
  }

  datatype ContainerStatus = ContainerStatus(ready: bool, running: bool)

  /** `ports` lists the ports of each container. */
  datatype Pod = Pod(namespace: string, name: string, podIP: string, labels: map<string, string>,
                     statuses: seq<ContainerStatus>, ports: seq<seq<int>>)

  const SERVICE_LABEL := "choerodon.io/service"
  const VERSION_LABEL := "choerodon.io/version"
  const PORT_LABEL := "choerodon.io/metrics-port"
  const CONTEXT_PATH_LABEL := "choerodon.io/context-path"

  predicate Labelled(pod: Pod) {
    SERVICE_LABEL in pod.labels && VERSION_LABEL in pod.labels && PORT_LABEL in pod.labels
  }

  predicate Ready(pod: Pod) {
    Labelled(pod) && pod.statuses != [] && pod.statuses[0].ready && pod.statuses[0].running && pod.ports != []
  }

  function PodPort(pod: Pod): int
    requires Ready(pod)
  {
    if pod.ports[0] == [] then 0 else pod.ports[0][0]
  }

  function PodMetadata(pod: Pod): Metadata
    requires Ready(pod)
  {
    var m := map["provisioner" := "pod", "pod-self-link" := pod.namespace + "/" + pod.name,
                 "version" := pod.labels[VERSION_LABEL]];
    if CONTEXT_PATH_LABEL in pod.labels then m["context-path" := pod.labels[CONTEXT_PATH_LABEL]] else m
  }

  /** What a ready pod registers. */
  function PodInstance(pod: Pod, now: nat): InstanceData
    requires Ready(pod)
  {
    var app := pod.labels[SERVICE_LABEL];
    InstanceData(IdOf(pod.podIP, app, PodPort(pod)), app, pod.podIP, PodPort(pod), UP, PodMetadata(pod), now,
                 PodDetails(pod, now))
  }

  /** A pod's status pages are at its management port. */
  function PodDetails(pod: Pod, now: nat): Details
    requires Ready(pod)
  {
    var ip, app, management := pod.podIP, pod.labels[SERVICE_LABEL], pod.labels[PORT_LABEL];
    Details(ip, UNKNOWN, app, app, Page(ip, NumberText(PodPort(pod)), "/"),
            Page(ip, management, "/actuator/info"), Page(ip, management, "/actuator/health"),
            8, ADDED, true, DATA_CENTRE_NAME, DATA_CENTRE_CLASS, true, 443, false, 10, 90, 0, now, now, now, now)
  }
}
