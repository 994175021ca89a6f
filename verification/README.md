# Verified model of go-register-server

go-register-server replaces Eureka and Spring Cloud Config for services on Kubernetes. This project
models its two state-changing cores and proves what they promise.

**Configuration trees.** The config server parses YAML into JSON-shaped trees (section 3 of RFC 8259),
merges them in place, splits the gateway's tree into a rest and a routes part, stores both in
ConfigMaps, and recombines them, flattened, when a client polls. Go's `map[string]interface{}` is
modelled as a class `MapNode`; a ghost `Shape` gives the tree a node stands for and the set of nodes it
is made of. A nil map is the tree null. Every `range` over a Go map is a loop that picks any remaining
key. The merges, the split, parsing and printing are proved to compute functions of the trees. Flattening,
expansion, metadata updates and refreshes store entries that can collide, if keys contain dots or
brackets or if ids are encoded alike; for them `Overlay` states every possible outcome, and that there is
one exactly if no two entries collide (`OneOutcomeIff`).

| file | content |
|---|---|
| `Trees`, `Keys`, `Overlay` | trees and paths; dotted keys and numerals; what a loop of stores leaves behind |
| `Flatten`, `Expand` | `recursive` and `processZuulRoot`, and what their keys determine |
| `Merge`, `MergeCompare`, `MergeFlatten` | the two merge policies as functions, path by path; when two merges agree; merging against flattening |
| `TreeHeap`, `Yaml`, `RouteSplit` | the merge loops, parsing, printing and `separateRoute` on map objects |
| `SplitMerge` | splitting commutes with merging |
| `ConfigMaps` | the API server, the operator and its namespace cache |
| `ConfigSave`, `SaveLaws` | `Save` with its four policies, when it panics, and what repeating it does |
| `ConfigPoll`, `PollLaws` | `Poll`, and that clients get what was saved |
| `ZuulRoutes`, `RouteRequests` | `AddOrUpdate` and `Delete` of single routes |
| `ConfigEffects` | what each request stores, serves and leaves alone, for any service and profile, on the stored data |
| `GatewayHistory` | histories of saves and route requests, followed by a poll |
| `ConfigWriters` | interleavings of the savers of one configuration |

**The registry.** Pods and REST clients register instances. Three in-memory stores of a replica and one
shared ConfigMap must agree. `Registry` is the state machine, `Repository` and `RegisterServer` are the
code on objects, each handler proved to take a step of the machine.

| file | content |
|---|---|
| `Instances` | instances, their ids and encoded ids, pods, metadata edits |
| `Registry`, `RegistryLaws` | the steps, the ownership invariant, and what runs leave unchanged |
| `RegistryEffects` | what each event does to each entry of the stores |
| `Repository`, `RegisterServer` | the stores holding objects by reference, and the handlers |
| `Writers` | interleavings of the writers of the shared ConfigMap |
| `Applications` | the list of applications and the two views of it |
| `Reconcile` | convergence of the pod reconciliation |

## What was found

The properties hold under conditions that the proofs make explicit. Where the code falls short of what
one would expect, the condition is stated exactly.

- Policy "update" panics when a path holds a list in both trees (`ClashIffListInBoth`). Because a missing
  ConfigMap is created first and then merged with itself, creating one under "update" panics for any
  configuration that contains a list (`PutFaultsIff`), and repeating a completed update panics exactly if
  it took over a list (`UpdateTwiceFaultsIff`).
- Parsing an empty or null document makes a map nil. An empty gateway configuration is therefore stored
  as null, and a later "add" or "update" with anything to write panics (`PutFaultsIff`).
- "add" or "update" over a stored text that does not parse stores the empty text and reports success; the
  same request, repeated, stores what was asked. This is the only case in which repeating a save, panicking
  or not, changes anything (`SaveTwice`).
- `separateRoute` panics on a null `zuul`; `processZuulRoot` panics on a null in a list.
- A metadata update panics if it names a known instance while the shared ConfigMap is empty
  (`Server.UpdateRequest`), for example the first pod registered (`PanicReachable`): the data of an empty
  ConfigMap are a nil map.
- `recursiveAdd` is associative exactly if nothing is hidden by a leaf (`AddAssociativeIff`); it is not in
  general (`AddNotAssociative`).
- If the old `zuul` is no object, adding a tree with routes leaves ConfigMaps that are not the parts of
  one tree: the merge of the whole trees would drop the new routes, but the stored routes part takes all of
  them (`BlockedByPolicy`), and a poll serves the old `zuul` together with the new `zuul.routes.*` keys
  (`BlockedServesBoth`; `BlockedExample` is an input). In every other save that does not panic the ConfigMaps stay the parts of one tree
  (`SaveKeepsOneTree`).
- The namespace cache can return another ConfigMap than a scan as soon as a name lives in two monitored
  namespaces (`CacheSafeIffAtMostOne`, `StaleAnswerReachable`).
- A metadata update edits a copy of the overlay's instance and stores it only in the ConfigMap. Of two updates
  in a row without a refresh between, the second drops what the first set, exactly if the overlay had the
  instance before the first, and without the entry (`TwoUpdates`); with a refresh between nothing is dropped
  (`UpdateRefreshUpdate`).
- The encoding of ids is not injective for negative ports or addresses with a dash (`EncodeNotInjective`);
  a refresh is exact if and only if no two ids look alike (`RefreshExactIff`), which requests can bring
  about (`LookalikeReachable`).
- Dropping a pod whose id another pod also registered unlists that other pod (`SharedIdReachable`), and
  nothing lists it again until a free key joins under the id or a client registers it (`NeverListedAgain`);
  syncs of the pod itself do not. With the pods as they are, this cannot happen exactly if no key that will
  be dropped has an id that another key has or will register (`IdsAgreeIff`).
- A monitored namespace "custom" makes pod keys look like custom keys. Deleting the name of such a pod as an
  instance id drops the pod's key but not its entry in the ConfigMap, which is then listed without an owner
  (`CustomPodUnowned`). Every listed instance has an owner in all runs exactly if that namespace is not
  monitored (`OwnershipIff`).
- Configurations are updated without a resource version. Commits are serial exactly if no update merges
  over an outdated text that matters: one that differs from the stored text where the request has nothing
  that shows in both, or in whether it parses (`SavesAreSerialIff`, `MergesAgreeIff`). Two concurrent "add"s
  lose one (`AddsLose`); with versions checked, commits would always be serial (`CheckedSavesAreSerial`), as
  those of the shared ConfigMap of instances are (`CommitsAreSerial`).
- The comment at `pkg/api/service/config_service.go:413-416` says that merging takes every updated value.
  The code keeps a null, and keeps an object against a leaf; `UpdateAt` follows the code.

## Model

| member | source | states |
|---|---|---|
| TreeHeap.RecursiveAdd | pkg/api/service/config_service.go:453-462 | the in-place merge, in any key order, leaves the old map standing for the policy's tree; the new map still stands for its own tree although the old one now shares its objects |
| TreeHeap.RecursiveAddAndUpdate | pkg/api/service/config_service.go:464-477 | the same for the updating merge; it completes exactly when no path holds a list in both trees |
| Merge.AddAt | pkg/api/service/config_service.go:453-462 | at every path old wins where it resolves, and new shows through exactly where no leaf of old is in the way |
| Merge.AddKeepsOld | pkg/api/service/config_service.go:453-462 | nothing that resolves in old is changed or removed |
| Merge.AddAddsExactly | pkg/api/service/config_service.go:453-462 | the added paths are exactly those of new that no leaf of old blocks |
| Merge.AddIdempotent | pkg/api/service/config_service.go:453-462 | adding twice is adding once |
| Merge.AddKeepsIff | pkg/api/service/config_service.go:453-462 | adding changes nothing exactly if every path of new resolves in old or meets a leaf of old |
| Merge.AddAssociativeIff | pkg/api/service/config_service.go:453-462 | adding three trees is associative if and only if, where the first and third have objects and the middle one has none, the first covers the third |
| Merge.AddNotAssociative | pkg/api/service/config_service.go:453-462 | three trees for which it is not |
| Merge.AddAssociativeOnSameShapes | pkg/api/service/config_service.go:453-462 | hence on shape-compatible trees |
| Merge.UpdateAt | pkg/api/service/config_service.go:464-477 | the updating policy at every path: new keys are inserted, objects recurse, null on either side and an old object against a leaf keep old, any other leaf of old takes new |
| Merge.ClashIffListInBoth | pkg/api/service/config_service.go:470 | the comparison faults exactly if some path holds a list in both trees |
| Merge.UpdateIdempotent | pkg/api/service/config_service.go:464-477 | updating twice is updating once |
| Merge.UpdateTwiceFaultsIff | pkg/api/service/config_service.go:464-477 | a repeated update faults exactly if the first one took over a list, so never for list-free new |
| MergeFlatten.FlatAddIff | pkg/api/service/config_service.go:453-462 | flattening the added tree is overriding new's flattening by old's, if and only if no leaf of new is blocked |
| MergeFlatten.FlatUpdateIff | pkg/api/service/config_service.go:464-477 | flattening the updated tree is overriding old's flattening by new's, if and only if nothing is blocked and no leaf gives way to an object |
| MergeFlatten.MergeCommutesWithFlattening | pkg/api/service/config_service.go:453-477 | hence for null-free trees with non-empty dot-free keys in which no path is an object in one and a leaf in the other |
| Flatten.Recursive | pkg/utils/convertor.go:145-163 | the recursive loop, in any order, stores exactly the entries of the tree into the shared map |
| Flatten.ConvertRecursiveMapToSingleMap | pkg/utils/convertor.go:140-144 | for good keys the returned map is the flattening, whatever the order |
| Flatten.EntryIffLeafPath | pkg/utils/convertor.go:145-163 | there is an entry for a non-null leaf path, and for nothing else, whatever the keys |
| Flatten.FlatAt | pkg/utils/convertor.go:140-163 | for non-empty dot-free keys: a key is in the flattening exactly if splitting it at dots leads to a non-null leaf, and has that leaf's value |
| Flatten.FlatEqualIff | pkg/utils/convertor.go:140-163 | two trees flatten alike if and only if they differ only in nulls and empty objects |
| Flatten.UnflattenFlat | pkg/utils/convertor.go:140-163 | grouping keys by their first component, recursively, gives back the tree without nulls and empty objects, so it undoes flattening exactly on trees that have none |
| Overlay.OneOutcomeIff | pkg/utils/convertor.go:146-162 | a loop that stores entries in any order has one outcome exactly if no two entries collide |
| Flatten.DottedKeysCollide | pkg/utils/convertor.go:146-162 | a tree with a dotted key whose flattening depends on the order |
| Keys.SplitJoin | pkg/utils/convertor.go:148-152 | the path can be read off the dotted key |
| Keys.ParseDecimal | pkg/api/service/config_service.go:360 | the index can be read off its numeral |
| Expand.ProcessZuulRoot | pkg/api/service/config_service.go:353-374 | the loop, in any order, stores exactly the expansion's entries; it panics exactly on a null in a list it looks into; it terminates on nesting depth |
| Expand.SpotKeyInjective | pkg/api/service/config_service.go:353-374 | without brackets in keys, `k[i]` and `k[i].x` keys never collide |
| Expand.ExpansionAt | pkg/api/service/config_service.go:353-374 | every non-list value and every list element that is no object has its entry |
| Expand.ExpansionFrom | pkg/api/service/config_service.go:353-374 | every entry is that of exactly one such value |
| Expand.ExpansionOverrides | pkg/api/service/config_service.go:353-374 | whatever the order, the outcome is the given map overridden by the expansion |
| Yaml.Load | pkg/api/service/config_service.go:216-217 | parsing gives fresh map objects standing for the document's tree, or a nil map for an empty or null one |
| Yaml.Print | pkg/api/service/config_service.go:492-500 | printing gives the text of the tree that the map stands for |
| RouteSplit.SeparateRoute | pkg/api/service/config_service.go:479-502 | moves the routes into map objects of their own, apart from the rest's; texts and objects are the two parts, also of a nil map; it panics exactly on a null `zuul` |
| RouteSplit.AddBack | pkg/api/service/config_service.go:479-502 | adding the routes part to the rest gives the original object if there is a `zuul`, else the object with an empty one |
| RouteSplit.AddBackFlat | pkg/api/service/config_service.go:479-502 | it always gives a tree with the original's flattening |
| RouteSplit.PartsFlat | pkg/api/service/config_service.go:479-502 | each part flattens to the original's entries off, or at and below, `zuul.routes` |
| RouteSplit.PartsDisjoint | pkg/api/service/config_service.go:479-502 | the parts' keys are disjoint, together all, and none of the rest's is under `zuul.routes` |
| SplitMerge.SplitCommutesWithMerge | pkg/api/service/config_service.go:224-242 | merging the stored parts gives the parts of the merged tree under both policies, for the routes exactly unless an old `zuul` that is no object stands in the way |
| SplitMerge.BlockedByPolicy | pkg/api/service/config_service.go:224-242 | then the stored routes become those of the new tree, although the merged tree has none |
| SplitMerge.ClashSplit | pkg/api/service/config_service.go:224-242 | merging the whole trees would panic exactly if merging a part does |
| ConfigMaps.ProfileKeyInjective | pkg/utils/config.go:5-11 | different profiles have different keys |
| ConfigMaps.ConfigMapOperator.QueryConfigMapAndNamespaceByName | pkg/k8s/config_map.go:248-263 | answers from the remembered namespace or else the first monitored one that has the name, and remembers it |
| ConfigMaps.ConfigMapOperator.QueryConfigMapByName | pkg/k8s/config_map.go:231-246 | the same without the namespace |
| ConfigMaps.ConfigMapOperator.CreateConfigMap | pkg/k8s/config_map.go:265-274 | refused if there is one; else all data are the one profile, and the namespace is remembered |
| ConfigMaps.ConfigMapOperator.UpdateConfigMap | pkg/k8s/config_map.go:276-285 | refused if there is none; else replaces all data by the one profile, and remembers the namespace |
| ConfigMaps.ScanIsFirst | pkg/k8s/config_map.go:255-261 | the scan finds the first monitored namespace with the name, or there is none |
| ConfigMaps.CacheNeverChangesAnswer | pkg/k8s/config_map.go:231-285 | after every history of creates, updates, queries and edits by others, the cached answer is the scan's, if our writes go to monitored namespaces and the name is in at most one now |
| ConfigMaps.CacheSafeIffAtMostOne | pkg/k8s/config_map.go:248-263 | every cache of monitored namespaces is safe if and only if the name is in at most one |
| ConfigMaps.StaleAnswerReachable | pkg/k8s/config_map.go:276-285 | otherwise one update leads to a wrong answer |
| ConfigMaps.Remembers | pkg/k8s/config_map.go:231-285 | a create or update that succeeds and a query that finds something make the cache lead there |
| ConfigMaps.AnswerSticks | pkg/k8s/config_map.go:231-285 | the answer then stays the same through any events, unless the ConfigMap is taken away or one of the name is written elsewhere by the server itself |
| ConfigSave.ProcessProperty | pkg/api/service/config_service.go:417-434 | merges a parsed text with the given map and prints the policy's tree; panics exactly on a clash or on writing to a nil map; gives the empty text and no error for a text that does not parse |
| ConfigSave.SaveService.CreateOrUpdateConfigMap | pkg/api/service/config_service.go:245-299 | creates if absent, then applies the policy: reply, stored data and cache |
| ConfigSave.SaveService.Save | pkg/api/service/config_service.go:201-243 | the replies to invalid requests and texts, the gateway's two writes, and the first error as reply |
| SaveLaws.PutFaultsIff | pkg/api/service/config_service.go:245-299 | storing panics exactly where a merging policy has something to write over a null document, or under "update" with a list at one path of both trees, where an absent ConfigMap counts as the request's own tree |
| SaveLaws.PutAgainFaultsIff | pkg/api/service/config_service.go:245-299 | a completed request panics when repeated exactly if "update" has brought a list |
| SaveLaws.SaveTwice | pkg/api/service/config_service.go:201-299 | a save repeated, whether it panics or not, changes nothing, exactly unless it first merged over a text that does not parse |
| ConfigEffects.PlainSave | pkg/api/service/config_service.go:201-299 | saving any service but the gateway, under every policy, with or without a ConfigMap: the reply, exactly when it panics, the one text and the version stored, the cache, and that every other ConfigMap stays |
| ConfigEffects.PlainCreate | pkg/api/service/config_service.go:245-262 | where there was no ConfigMap it is then the request's own text and version, whatever the policy and the reply |
| ConfigEffects.BadSave | pkg/api/service/config_service.go:201-222 | exactly the requests with an empty name, profile or namespace, another policy or a text that does not parse are refused, and change nothing |
| ConfigEffects.GatewayElsewhere | pkg/api/service/config_service.go:224-242 | saving the gateway, panics included, writes only its two ConfigMaps in the request's namespace |
| ConfigEffects.GatewayVersions | pkg/api/service/config_service.go:224-242 | a completed save of the gateway leaves both with the request's version, the rest under its profile and the routes under the default one |
| ConfigEffects.GatewayReply | pkg/api/service/config_service.go:224-299 | under "override" and "not" the gateway's save panics exactly on a null `zuul`, and stores nothing then; otherwise "override" stores both parts, and "not" creates them where there is no ConfigMap, leaves the others and says that there is one |
| ConfigEffects.ProfileKeys | pkg/utils/config.go:5-11 | the keys of the default and of any other profile |
| GatewayHistory.GatewaySave | pkg/api/service/config_service.go:224-242 | which trees the two ConfigMaps hold after any save over any trees, panics included, and when it panics |
| GatewayHistory.SaveKeepsOneTree | pkg/api/service/config_service.go:224-242 | a save panics exactly on a null `zuul` or where the merge of whole trees would; otherwise the ConfigMaps hold the parts of the whole trees combined, exactly unless routes are blocked |
| GatewayHistory.HistoryKeepsParts | pkg/api/service/config_service.go:46-299 | after any history of gateway saves, with any texts and policies, and route requests, panics included, the ConfigMaps hold the trees that the requests lead to, and the queries find them |
| GatewayHistory.HistoryKeepsOneTree | pkg/api/service/config_service.go:46-299 | while no merge panics and no routes are blocked, these are the parts of one tree, to which policies and edits on whole trees lead |
| GatewayHistory.BlockedServesBoth | pkg/api/service/config_service.go:313-334 | after adding routes to a tree whose `zuul` is a leaf, a poll serves the leaf and all of the new routes |
| GatewayHistory.BlockedExample | pkg/api/service/config_service.go:479-502 | an input for which routes are blocked and no save panics |
| ConfigPoll.StripRoutes | pkg/api/service/config_service.go:327-331 | deleting in any order removes exactly the keys below the routes |
| ConfigPoll.PollService.GetConfigFromConfigMap | pkg/api/service/config_service.go:382-402 | the flattening of the profile's text of the ConfigMap found, with its version; none if the text does not parse |
| ConfigPoll.PollService.Poll | pkg/api/service/config_service.go:301-351 | bad path, not found, panic, or the environment assembled from the configuration and, for gateways, the routes |
| PollLaws.AssembledIff | pkg/api/service/config_service.go:313-334 | for good keys there is one outcome, whatever the orders of all loops |
| PollLaws.SavedViewComplete | pkg/api/service/config_service.go:326-333 | expanded routes collide with nothing; without lists under the routes the view is the flattening |
| PollLaws.SaveThenPoll | pkg/api/service/config_service.go:201-402 | saving the gateway's tree under "override" and polling it gives its flattening, lists of routes expanded, overridden by the additions; saving panics exactly on a null `zuul`, polling exactly on a null in a list of the routes |
| ConfigPoll.SameKey | pkg/api/service/config_service.go:388-392 | the key a poll reads is the one a save of that profile writes |
| ConfigEffects.PollPlain | pkg/api/service/config_service.go:301-351 | a poll of any service that is no gateway, and any profile, serves the flattened document under that profile's key, or none, with the additions on top; name, version and profile of the environment and the name of its source |
| ConfigEffects.PollGateway | pkg/api/service/config_service.go:313-334 | a poll of any gateway and profile serves that profile's document without its routes and the expanded routes of the same profile of the route ConfigMap; it panics exactly on a null in a list of these |
| ConfigEffects.PollNotFound | pkg/api/service/config_service.go:301-325 | a poll is refused exactly for an empty service or profile; nothing is found exactly without the ConfigMap or with a text of the profile that does not parse, for gateways also without the route ConfigMap or with such a text of it; no poll changes a ConfigMap |
| ConfigEffects.PlainSaveThenPoll | pkg/api/service/config_service.go:201-402 | saving any service but the gateway under "override" succeeds, and polling it gives the flattened tree with the additions on top for the saved profile, and the additions alone for every other |
| GatewayHistory.PollAfterHistory | pkg/api/service/config_service.go:46-402 | after any history of gateway saves and route requests a poll gives what is made of the two trees they lead to, or finds nothing if one was never stored |
| GatewayHistory.PollAfterIntactHistory | pkg/api/service/config_service.go:46-402 | while no merge panics and no routes are blocked, it gives the view of the one tree they add up to, routes edited |
| ZuulRoutes.FieldAfter | pkg/api/service/config_service.go:187-199 | a field has what the request gave, or is as before if it gave nothing |
| ZuulRoutes.PresentIff | pkg/api/service/config_service.go:84-90 | after any requests a route is there exactly if the last one about it was no deletion, or there was none and it was there |
| ZuulRoutes.FieldHistory | pkg/api/service/config_service.go:139-169 | every field of every route is the last text given since the last deletion, absent if none was given since, as at first if there was neither |
| RouteRequests.RouteService.Handle | pkg/api/service/config_service.go:46-185 | both requests: replies, panics on malformed routes, and the edited tree stored |
| RouteRequests.Dto2Map | pkg/api/service/config_service.go:187-199 | sets path and service always, the other fields unless empty, in place |
| RouteRequests.EditRoutes | pkg/api/service/config_service.go:142-159 | updates, adds or deletes in the routes' map objects |
| RouteRequests.RequestsKeepTree | pkg/api/service/config_service.go:84-185 | after any valid requests the stored tree is the one before with its routes replaced by those they amount to; what `RequestsKeepSiblings` reads off it key by key |
| ConfigEffects.RequestReply | pkg/api/service/config_service.go:46-185 | exactly when a request for a route is refused, finds nothing, panics or is carried out; unless it is, nothing is stored |
| ConfigEffects.RequestWrites | pkg/api/service/config_service.go:84-185 | one that is carried out changes the requested route alone: its given fields are set and the others stay, or it is gone; other routes, what is beside the routes under `zuul`, the version and all other ConfigMaps stay |
| ConfigEffects.RequestsKeepSiblings | pkg/api/service/config_service.go:84-185 | after any valid requests every key beside the routes under `zuul` is there exactly if it was, with the value it had, and the routes are those the requests amount to |
| ConfigEffects.RequestsElsewhere | pkg/api/service/config_service.go:84-185 | no sequence of requests changes the version or another ConfigMap |
| Instances.EncodeInjective | pkg/api/service/eureka_server_service.go:169 | ids ip:service:port with ip free of ':' and '-', service free of ':' and a non-negative port are encoded alike only if equal |
| Instances.EncodeNotInjective | pkg/api/service/eureka_server_service.go:97 | a negative port or a dash in the address makes ids collide |
| Instances.EditKeepsProtected | pkg/api/service/eureka_server_service.go:290-300 | edits leave protected metadata alone |
| Repository.ApplicationRepository.Register | pkg/api/repository/pod.go:25-35 | refuses a key that is there, else stores owner and object |
| Repository.ApplicationRepository.DeleteInstance | pkg/api/repository/pod.go:37-54 | drops owner, listed object and overlay; the object returned is in no store any more |
| Repository.ApplicationRepository.CopyOverlay | pkg/api/repository/pod.go:66-71 | a read's loop overrides the list by the overlay, in any order |
| Repository.ImpInstance | pkg/utils/convertor.go:13-64 | the defaults of a request, field by field, with ports that wrap around |
| Repository.ConvertPod2Instance | pkg/utils/convertor.go:66-128 | the instance of a ready pod with all its fields and metadata |
| Repository.EditCopy | pkg/api/service/eureka_server_service.go:320-330 | the loop over a request's metadata, in any order, edits the copy |
| RegisterServer.Server.DropPodInstance | pkg/k8s/pod.go:173-177 | takes the instance out of all stores and the ConfigMap; the object marked down is reachable from no store |
| RegisterServer.Server.SyncHandler | pkg/k8s/pod.go:122-181 | a pod's sync is the step of the registry |
| RegisterServer.Server.StoreCustomApp | pkg/api/service/eureka_server_service.go:111-149 | the three cases of a registration |
| RegisterServer.Server.RegisterRequest | pkg/api/service/eureka_server_service.go:76-109 | the id from address, application and port; port 0 is ignored |
| RegisterServer.Server.DeleteRequest | pkg/api/service/eureka_server_service.go:178-201 | the entry leaves the ConfigMap and the custom owner its id |
| RegisterServer.Server.UpdateRequest | pkg/api/service/eureka_server_service.go:260-345 | copies of all known ids edited, in any order, into the ConfigMap, unless the server refuses, and listed ones into the overlay in any case; panics exactly if an id is known while the ConfigMap is empty |
| RegisterServer.Server.UpdateInstance | pkg/k8s/config_map.go:325-359 | overlay entries without a key go, then all of the ConfigMap's are stored, in any order |
| Registry.StepKeeps | pkg/api/service/eureka_server_service.go:111-201 | every step but a sync of a pod of a namespace "custom" keeps the invariant on owners, instances, overlay and ConfigMap |
| Registry.EveryInstanceOwned | pkg/api/repository/pod.go:25-71 | in every state reachable without such syncs each listed id has an owner key by which it is deleted from list and overlay, and each id in the overlay or ConfigMap is listed or owned under its custom key |
| RegistryLaws.OwnershipIff | pkg/api/repository/pod.go:25-71 | every listed instance has an owner in all runs from the empty state exactly if no namespace "custom" is monitored |
| RegistryLaws.CustomPodUnowned | pkg/api/service/eureka_server_service.go:178-201 | a run with a pod of that namespace that ends with a listed instance and no owner at all |
| Registry.PodKeyNotCustom | pkg/k8s/pod.go:122-137 | the key of a pod of any other namespace is no custom key |
| RegistryEffects.NamespaceOfKey | pkg/k8s/pod.go:123 | the namespace of a key with one slash, with none, and that keys with more have none |
| RegistryEffects.SyncJoins | pkg/k8s/pod.go:138-171 | a pod that is up joins under a free key: one new owner and listed instance, with the pod's address, port, status, metadata and addresses; overlay and ConfigMap stay |
| RegistryEffects.SyncLeaves | pkg/k8s/pod.go:134-181 | a pod that is gone or down leaves with its id, and so do list and overlay; the entry in the ConfigMap goes exactly if the id was listed; all else stays |
| RegistryEffects.SyncIgnored | pkg/k8s/pod.go:122-181 | no other sync does anything |
| RegistryEffects.RegisterListed | pkg/api/service/eureka_server_service.go:111-134 | for a listed id a copy of the listed instance goes to overlay and ConfigMap, with the request's status, its unprotected metadata set or removed entry by entry, and all else as listed |
| RegistryEffects.RegisterUnlisted | pkg/api/service/eureka_server_service.go:136-149 | for any other id the request with its defaults goes to both; it keeps the overlay's registration time, or gets the given or present one and a custom owner |
| RegistryEffects.RegisterElsewhere | pkg/api/service/eureka_server_service.go:76-149 | port 0 is ignored; no other id and no other entry changes |
| RegistryEffects.DeleteRemoves | pkg/api/service/eureka_server_service.go:178-201 | the entry of the id leaves the ConfigMap whoever owns the id; the custom key and the id it owned go from owners, list and overlay; all else stays |
| RegistryEffects.DeletedAfterRefresh | pkg/api/service/eureka_server_service.go:178-201 | after a deletion and a refresh neither ConfigMap nor overlay has the id |
| RegistryEffects.PodDeregistered | pkg/api/service/eureka_server_service.go:178-201 | a run in which a pod joins, its client registers it and deregisters it, and after a refresh nothing of what the client gave is left |
| RegistryEffects.ProtectedKeys | pkg/api/service/eureka_server_service.go:121-124 | the protected metadata |
| RegistryEffects.UpdateWrites | pkg/api/service/eureka_server_service.go:281-343 | an accepted metadata update stores an edited copy of each known id in the ConfigMap, of the overlay's instance if there is one, else of the listed one: given entries set, empty ones removed, all else as in that instance |
| RegistryEffects.UpdateElsewhere | pkg/api/service/eureka_server_service.go:281-345 | owners, list and the overlay's instances stay; a listed id without one enters the overlay, edited; the ConfigMap stays if the update is refused, and otherwise the entries of ids that are not known or not named |
| RegistryEffects.UpdateOfEmpty | pkg/api/service/eureka_server_service.go:281-343 | an empty ConfigMap stays empty; if an id is known, just one is in the overlay when the request panics, and is an edited copy of the listed instance if it was not there |
| RegistryEffects.TwoUpdates | pkg/api/service/eureka_server_service.go:281-345 | what a first update set and a second one does not mention is kept exactly if the overlay did not have the instance before, or had the entry |
| RegistryEffects.UpdateRefreshUpdate | pkg/api/service/eureka_server_service.go:281-345 | with a refresh between the two it is always kept |
| RegistryEffects.RefreshStores | pkg/k8s/config_map.go:350-358 | a refresh stores every instance of the ConfigMap under its id |
| RegistryEffects.RefreshDrops | pkg/k8s/config_map.go:336-348 | it drops exactly the ids without an entry, and other stores stay |
| RegistryEffects.ReadLists | pkg/api/repository/pod.go:66-71 | a read lists the overlay's ids as well, whose copies win, and leaves the other stores |
| RegistryLaws.RefreshExactIff | pkg/k8s/config_map.go:336-358 | after a refresh the overlay is exactly the decoded ConfigMap, whatever it held, if and only if no overlay id hides behind another with the same encoding |
| RegistryLaws.ReplicasAgree | pkg/k8s/config_map.go:325-359 | two replicas that refresh from one ConfigMap agree |
| RegistryLaws.LookalikeReachable | pkg/api/service/eureka_server_service.go:97 | two requests for ids encoded alike and a refresh lead to an overlay that is not the decoded ConfigMap |
| RegistryLaws.PanicReachable | pkg/api/service/eureka_server_service.go:281-343 | a ready pod's sync and an update of its metadata lead to the panic |
| RegistryLaws.ForeignInstanceUnowned | pkg/k8s/config_map.go:350-358 | an instance written by another replica gets listed without an owner, so the ownership invariant is for one replica |
| RegistryLaws.PodMetadataStable | pkg/utils/convertor.go:108-117 | from a pod's joining, its provisioner, link, version and context path stay in every copy while the id is listed and no other pod joins under it |
| RegistryLaws.RegistrationTimeStable | pkg/utils/convertor.go:52-63 | the time of a custom instance's first registration stays in every copy until an id encoded like its own is deleted, if no pod joins under it |
| Writers.CommitsAreSerial | pkg/api/service/eureka_server_service.go:151-176 | in every interleaving the contents are the committed edits applied one by one in commit order |
| Writers.EntryHistory | pkg/k8s/config_map.go:311-323 | a key's entry is that of the last committed edit of the key |
| Writers.CommittedStays | pkg/api/service/eureka_server_service.go:151-201 | a committed registration is gone only after a later committed delete of its key |
| MergeCompare.MergesAgreeIff | pkg/api/service/config_service.go:453-477 | merging one tree into two gives the same exactly if, wherever the two differ, it has something there that shows in both |
| MergeCompare.MergeIsIff | pkg/api/service/config_service.go:453-477 | which trees a merge of a given tree can lead to |
| ConfigWriters.DivertsIff | pkg/api/service/config_service.go:245-299 | when an update of an outdated copy leads elsewhere than over the stored ConfigMap, in terms of the two texts, the request and its policy |
| ConfigWriters.SavesAreSerialIff | pkg/api/service/config_service.go:245-299 | after every part of a run the ConfigMap is what the requests taken make of it one by one, exactly if no update is of that kind |
| ConfigWriters.SavesAreSerial | pkg/api/service/config_service.go:245-299 | no update is, if none is stale or none merges over an outdated text of its profile |
| ConfigWriters.CheckedSavesAreSerial | pkg/k8s/config_map.go:276-309 | with versions sent and checked commits would be serial in every run |
| ConfigWriters.LeafSurvivesIff | pkg/api/service/config_service.go:264-297 | which committed leaves survive a merge of an older text |
| ConfigWriters.AddsLose | pkg/api/service/config_service.go:264-297 | two savers that read one document and add a key each: the first key is lost |
| ConfigWriters.UndisturbedIsPut | pkg/api/service/config_service.go:245-299 | an undisturbed saver stores what the policy says |
| Applications.GetApplicationResources | pkg/api/repository/pod.go:56-98 | the overlay goes into the list, and the applications partition it: every instance exactly once, in the only application of its name, none empty |
| Applications.GetInstancesByService | pkg/api/repository/pod.go:128-146 | exactly the service's instances that are up, overlay first |
| Applications.CovertApplicationToEurekaInfo | pkg/api/service/eureka_page_service.go:122-133 | splits by status, keeping the order |
| Applications.GetEurekaApplicationInfos | pkg/api/service/eureka_page_service.go:99-120 | a row for each application with its instances and counts; the register server's row gives the available registers |
| Applications.ViewsAgree | pkg/api/repository/pod.go:128-146 | what is found for a service are, as a multiset, the available instances of the application of that name on the page, and nothing if there is none |
| Reconcile.Converges | pkg/k8s/pod.go:122-181 | with the pods as they are, syncing each key with an entry or a ready pod at least once, in any order, makes the pod keys exactly those of the ready pods |
| Reconcile.OtherKeysStay | pkg/k8s/pod.go:122-132 | other keys and what they registered stay |
| Reconcile.DropKeepsAgreeIff | pkg/api/repository/pod.go:37-54 | a drop keeps the listed ids those of the keys exactly if no other key registered the same id |
| Reconcile.SyncKeepsAgreeIff | pkg/k8s/pod.go:138-178 | one sync does exactly unless it drops such a key |
| Reconcile.IdsAgreeIff | pkg/k8s/pod.go:138-178 | with the pods as they are, the listed ids stay exactly those that keys registered through any syncs, if and only if no key that will be dropped has an id that another key has at first or will register |
| Reconcile.SharedIdReachable | pkg/api/repository/pod.go:37-54 | a run that leaves a key with an id that no store has |
| Reconcile.NeverListedAgain | pkg/api/repository/pod.go:25-35 | such an id stays unlisted until a free key joins under it or a client registers it |
| Reconcile.OwnerNeverLists | pkg/api/repository/pod.go:28-30 | no sync of a key that owns it lists it |

## Left out

- HTTP transport, request decoding, metrics and logging; the clock is a parameter; the validator's rules for the modelled requests are predicates.
- JSON and YAML text: parsing is taken to undo printing, so a text is empty, null, a tree, or one that does not parse into a map; a stored instance is its fields.
- Informers, work queues and API failures: of the API server, only get, create and update and their answers are modelled, and handlers run one at a time except in `Writers` and `ConfigWriters`.
- Lists are values in the heap model, since no code writes into one; the flattened map of the routes is passed on as a value.
- The two nested loops of `separateRoute` look for one key each and are modelled as lookups.
- The map objects after a panic in a merge loop are only framed, since the request ends there; what is stored by then is modelled.
- Registry.StepKeeps: updates of the shared ConfigMap succeed, except that of a metadata request, which may be refused; refusals in general are modelled in `Writers`.
- Registry.EveryInstanceOwned: one replica, as in the chart's default, because a refresh stores other replicas' instances without an owner (`ForeignInstanceUnowned`); no pods of a namespace "custom", with which it fails (`OwnershipIff`).
- `InitCustomAppFromConfigMap`: models start from empty stores.
- PollLaws.SaveThenPoll: the default profile only, because routes are stored under the default profile and polled under the requested one.
- `mergeProperty`, `Renew`, `AppsDelta` and `ApplicationStore`: unused or constant.
- The hash of a ConfigMap's data and the notification of clients: the hash concatenates entries in unspecified order.
- The home page's HTML, general information, templates and the chart.
