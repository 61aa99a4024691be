# Tencent Cloud load-balancer controller, modelled in Dafny

This project models the decision logic of a Kubernetes cloud-provider
plugin for Tencent Cloud (package `pkg/tencentcloud`). The plugin keeps one
cloud load balancer (CLB) per Kubernetes `Service` of type LoadBalancer in
step with the service, and answers node questions for the controller
manager:

- **Configuration** (`cloud.go`): `NewCloud` fills the empty settings of the
  decoded JSON from environment variables. `checkConfig` then rejects the
  first of the seven settings that is blank after `strings.TrimSpace`.
- **Instance resolution** (`instances.go`): compute instances are looked up
  by private IP through a `vm_ip_` cache. The IPs not in the cache are
  sorted and asked for five at a time, and instances outside the configured
  VPC are dropped. Lookups by instance id go through a `vm_id_` cache, and
  lookups by provider id (`tencentcloud:///zone/id`) parse the id first.
  The node-facing answers (addresses, instance id and type, exists,
  shut down) are built on these lookups.
- **Sorted membership** (`common.go`): `isExist` is a binary search that is
  only exact on a sorted slice.
- **Reconciliation** (`tencentcloud_loadbalancer.go`): the balancer's name
  (shortened past 60 bytes) and its lookup by owner tag through a `clb_id_`
  cache. Then three phases:
  - the instance phase creates the balancer, or deletes and recreates it
    when its type, VPC or subnet has drifted;
  - the listener phase diffs listeners against the service ports, keyed by
    (port, protocol);
  - the backend phase diffs the registered targets against the in-VPC
    instances of the selected nodes, per port, sending all removals before
    any addition, in groups of 20.
  Every mutation is followed by `waitApiTaskDone`, a poll of at most 30
  task-status queries.
- **Entry points** (`loadbalancer.go`): `EnsureLoadBalancer` refuses session
  affinity, runs the three phases in order and reports the VIPs.
  `GetLoadBalancer`, `UpdateLoadBalancer` and `EnsureLoadBalancerDeleted`
  are modelled too.

How the model is built:

- The cloud SDK is an oracle (`Remote.Remote`). The reply to a call depends
  on the call and on how many calls came before it, so any behaviour of an
  eventually consistent remote can be expressed. Task status is an answer
  per (task, poll number).
- The `Cloud` class holds the four cache namespaces as maps and the log of
  every remote call made (`calls`). Contracts therefore say which calls are
  made, in which order, and where a failure stops the sequence
  (`Remote.Stopped`: the calls made are a non-empty prefix of the plan).
- Each reconcile phase appends to a ghost trace a run that holds a
  snapshot of the `Cloud` state before it and after it, its error, and
  what its lookups found. The driver's contracts are stated over these
  runs, and each run must satisfy what its phase's method ensures.
- Each loop of the source that builds a slice by `append` is a method with
  a `while` loop. It is proved equal to a recursive specification function
  (`ListenerDiff.Creates`, `BackendDiff.ToDeregister`, `Batching.Batches`,
  `Instances.Gathered`, …). Lemmas then state what those functions mean:
  membership in both directions, order, batch shape and VPC filtering.

Modules: `Wrappers`, `Strings` (Go string order, `sort.Strings`, `TrimSpace`,
`Split`), `Numbers` (`strconv.ParseInt`/`FormatInt`), `Types`, `Remote`,
`Batching`, `Common`, `CloudProvider`, `Tasks`, `ClbRules`, `ListenerDiff`,
`BackendDiff`, `Instances`, `LoadBalancerOps`, `LoadBalancerDriver`.

Behaviour of the code worth noting:

- Task completion is awaited one call at a time, right after each
  mutation; nothing is fanned out.
- A failed task (status 1) ends the wait without an error, like success.
- The balancer search sends the generated name together with the owner-tag
  filter.
- The `clb_id_` entry is dropped only when the deletion's wait fails.
  After a drift whose delete went through, the deleted balancer therefore
  stays cached under its name. The create does not refresh that entry, so
  the listener phase that follows works on the deleted balancer's id.
- `EnsureLoadBalancerDeleted` goes on to the deletion after any lookup
  outcome except NotFound, a failed lookup included.

## Model

| member | source | states |
|---|---|---|
| `Common.SearchStrings` | pkg/tencentcloud/common.go:9 | The index is in `0..len`. On a sorted slice every element before it is below the target and every element from it on is at least the target. |
| `Common.IsExist` | pkg/tencentcloud/common.go:6-14 | A true answer is always a real occurrence. On a sorted slice the answer is exactly membership, so an empty slice gives false. The argument is a value and is never reordered. |
| `Strings.SortStrings` | pkg/tencentcloud/instances.go:220 | `sort.Strings` leaves a sorted permutation of its argument. |
| `Strings.TrimSpaceEmpty` | pkg/tencentcloud/cloud.go:94 | `TrimSpace(s) == ""` holds exactly when every character of `s` is white space. |
| `Strings.SplitJoin` | pkg/tencentcloud/instances.go:320 | `strings.Split` gives at least one piece, and joining the pieces with the separator gives the string back. |
| `Strings.SplitPieces` | pkg/tencentcloud/instances.go:320 | No piece of a split contains the separator. |
| `Numbers.ParseFormatRoundTrip` | pkg/tencentcloud/tencentcloud_loadbalancer.go:733-736 | For every int64 `n`, `ParseInt(FormatInt(n)) == n`. |
| `Numbers.ParseIntNonNumeric` | pkg/tencentcloud/tencentcloud_loadbalancer.go:729-748 | Text with no digit where the number should begin makes `ParseInt` return 0. The source drops the error. |
| `Batching.BatchesShape` | pkg/tencentcloud/tencentcloud_loadbalancer.go:506-520 | Concatenating the groups gives the list back. An empty list gives no group. Every group is non-empty and at most `size` long, and all but the last are exactly `size`. |
| `Tasks.WaitApiTaskDone` | pkg/tencentcloud/tencentcloud_loadbalancer.go:344-369 | 1 to 30 polls are made, and every poll before the last answered 2. The last answer decides: 0 or 1 gives no error; a failed query gives its error; another code gives an unexpected-status error; 2 means the 30th poll was reached, which is a timeout. |
| `Tasks.WaitVerdictNone` | pkg/tencentcloud/tencentcloud_loadbalancer.go:344-369 | The wait ends without an error iff, within the 30 polls, some poll answers 0 or 1 and every poll before it answers 2. |
| `Tasks.WaitVerdictKinds` | pkg/tencentcloud/tencentcloud_loadbalancer.go:344-369 | A wait that fails gives a failed status query's SDK error, a timeout or an unexpected-status error, and nothing else. |
| `CloudProvider.FillFromEnv` | pkg/tencentcloud/cloud.go:62-64 | A non-empty value is kept. An empty one becomes the environment variable's value, or `""` when the variable is unset. |
| `CloudProvider.MergeEnv` | pkg/tencentcloud/cloud.go:62-82 | Each of the seven settings is filled from its own environment variable exactly when its decoded value is `""`. |
| `CloudProvider.CheckConfig` | pkg/tencentcloud/cloud.go:93-123 | No error iff none of the seven settings is blank after trimming. Otherwise the error names the first blank one in the order Region, VpcId, TagKey, CLBNamePrefix, SecretId, SecretKey, ClusterRouteTable. |
| `CloudProvider.CheckFieldsMeaning` | pkg/tencentcloud/cloud.go:94-121 | Over any order of settings, the chain of guarded returns gives none iff no setting is blank, and otherwise the error of the first blank one. |
| `CloudProvider.MergeKeepsSetValues` | pkg/tencentcloud/cloud.go:62-82 | After the merge, a decoded non-empty setting is unchanged and a decoded empty one equals its environment value. |
| `CloudProvider.BlankSettingFails` | pkg/tencentcloud/cloud.go:62-121 | A whitespace-only decoded setting survives the merge (the test is `== ""`) and then fails `checkConfig`, whatever the environment holds. |
| `CloudProvider.NewCloud` | pkg/tencentcloud/cloud.go:49-90 | An unreadable configuration is returned as an error. Otherwise the configuration is merged with the environment; a failed check returns its error and builds nothing; a passed check builds a fresh `Cloud` whose `txConfig` is the merged configuration. |
| `CloudProvider.Cloud.DeleteClbEntry` | pkg/cache/cache.go:52-58 | The attempt is recorded. Whether the entry goes is the oracle's `deleteDrops`, because the store's key function expects an entry, not a bare key. No other cache entry changes. |
| `ClbRules.LoadBalancerName` | pkg/tencentcloud/tencentcloud_loadbalancer.go:60-74 | A `prefix_namespace_name` of at most 60 bytes is the name unchanged. A longer one gives exactly 59 bytes: its first 50 bytes, `_`, and the first 8 bytes of the UID. |
| `ClbRules.ShortNamesDistinct` | pkg/tencentcloud/tencentcloud_loadbalancer.go:64 | Two services that differ in namespace or name get different unshortened names, provided no namespace contains `_`. |
| `ClbRules.DesiredKind` | pkg/tencentcloud/tencentcloud_loadbalancer.go:184-187 | The desired balancer is public iff the type annotation is exactly `public`. Otherwise it is private. |
| `ClbRules.NeedRecreate` | pkg/tencentcloud/tencentcloud_loadbalancer.go:184-213 | A private service without a subnet annotation is an error, and no other case is. Otherwise the balancer is recreated iff its type or VPC differs from the desired one, or, when private, its subnet differs from the annotated one. |
| `ClbRules.CreateRequest` | pkg/tencentcloud/tencentcloud_loadbalancer.go:652-677 | A private service without a subnet annotation is an error. Otherwise the request has the desired CLB type, the subnet iff private, the generated name, the configured VPC, the two owner tags and pass-to-target on. |
| `ClbRules.CreatedIsAsDesired` | pkg/tencentcloud/tencentcloud_loadbalancer.go:189-208 | A balancer with the type, VPC and subnet of the service's own create request is never judged to have drifted. |
| `ClbRules.FilterMatchesCreatedTag` | pkg/tencentcloud/tencentcloud_loadbalancer.go:149-160 | The lookup filter `tag:k8s-service-id = uid` matches a tag that the create request sets. |
| `ClbRules.HealthField` | pkg/tencentcloud/tencentcloud_loadbalancer.go:729-732 | An absent annotation gives the default. A present one gives `ParseInt` of its text, even when the text is malformed. |
| `ClbRules.BuildHealthCheck` | pkg/tencentcloud/tencentcloud_loadbalancer.go:721-760 | The source-IP type is 1. Switch 1, timeout 2, interval 5 and thresholds 3/3 hold unless the matching annotation is present, in which case the field is `ParseInt` of it. |
| `ClbRules.HealthTimeoutAnnotation` | pkg/tencentcloud/tencentcloud_loadbalancer.go:733-736 | A timeout annotation written as an int64 number gives that number. The malformed annotation `fast` gives 0, not the default 2. |
| `ClbRules.NodeLabelKey` | pkg/tencentcloud/tencentcloud_loadbalancer.go:391-399 | The annotated key when present, otherwise `kubernetes.io/role`. |
| `ClbRules.NodeLabelValue` | pkg/tencentcloud/tencentcloud_loadbalancer.go:402-410 | The annotated value when present, otherwise `node`. |
| `ClbRules.SelectedNamesMembers` | pkg/tencentcloud/tencentcloud_loadbalancer.go:424-431 | A name is selected iff some node with that name carries the selector key with exactly the selector value. |
| `ClbRules.SelectNodeIps` | pkg/tencentcloud/tencentcloud_loadbalancer.go:424-431 | The loop's result is the selected names, in node order, and no longer than the node list. |
| `ListenerDiff.FirstListener` | pkg/tencentcloud/tencentcloud_loadbalancer.go:253-262 | The result is the first listener with the port's number and protocol, or none iff no listener has them. |
| `ListenerDiff.ServedNamesMembers` | pkg/tencentcloud/tencentcloud_loadbalancer.go:253-271 | A name is recorded as created iff some port of that name has a first matching listener whose id is not empty. A listener with an empty id counts as no listener. |
| `ListenerDiff.KeptIdsMembers` | pkg/tencentcloud/tencentcloud_loadbalancer.go:253-271 | An id is kept iff it is not empty and is the id of the first listener that matches some port. |
| `ListenerDiff.CreatesMembers` | pkg/tencentcloud/tencentcloud_loadbalancer.go:275-290 | Every port whose name was not recorded as created has a create request, and every create request is for such a port. |
| `ListenerDiff.DeletesMembers` | pkg/tencentcloud/tencentcloud_loadbalancer.go:292-304 | An id is deleted iff it belongs to an existing listener and is not kept. |
| `ListenerDiff.CollectServed` | pkg/tencentcloud/tencentcloud_loadbalancer.go:251-271 | The first loop yields the served names and the kept ids, in port order. |
| `ListenerDiff.CollectCreates` | pkg/tencentcloud/tencentcloud_loadbalancer.go:273-290 | The second loop, testing names with `isExist` on the sorted names, yields exactly the create requests of the specification. |
| `ListenerDiff.CollectDeletes` | pkg/tencentcloud/tencentcloud_loadbalancer.go:292-304 | The third loop, testing ids with `isExist` on the sorted ids, yields exactly the listener ids to delete. |
| `ListenerDiff.PlanListeners` | pkg/tencentcloud/tencentcloud_loadbalancer.go:251-304 | The whole plan: creates for the unserved port names, deletes for the listeners not kept. |
| `BackendDiff.FirstBackend` | pkg/tencentcloud/tencentcloud_loadbalancer.go:469-482 | The result is the first listener of the list that serves the port: every listener before it does not. The result is none iff no listener serves the port. |
| `BackendDiff.InVpcMembers` | pkg/tencentcloud/tencentcloud_loadbalancer.go:447-452 | An instance survives the filter iff it was in the list and belongs to the configured VPC. |
| `BackendDiff.FilterVpc` | pkg/tencentcloud/tencentcloud_loadbalancer.go:447-452 | The loop keeps exactly the in-VPC instances, in order. |
| `BackendDiff.ToDeregisterMembers` | pkg/tencentcloud/tencentcloud_loadbalancer.go:484-504 | A target is deregistered iff it is registered and no instance has the same (instanceId, nodePort). |
| `BackendDiff.ToRegisterMembers` | pkg/tencentcloud/tencentcloud_loadbalancer.go:541-561 | An instance with no target for (instanceId, nodePort) is registered on the node port. Every registration is on the node port, for such an instance. |
| `BackendDiff.PortConverges` | pkg/tencentcloud/tencentcloud_loadbalancer.go:466-579 | After one port's removals and additions, every kept target is accounted for by an instance, and every instance is covered by a kept or an added target. |
| `BackendDiff.FindInstance` | pkg/tencentcloud/tencentcloud_loadbalancer.go:487-495 | The inner search is true iff some instance accounts for the target. |
| `BackendDiff.FindTarget` | pkg/tencentcloud/tencentcloud_loadbalancer.go:543-551 | The inner search is true iff some target stands for the instance. |
| `BackendDiff.CollectDeregister` | pkg/tencentcloud/tencentcloud_loadbalancer.go:484-504 | The loop yields exactly the targets to deregister, in target order. |
| `BackendDiff.CollectRegister` | pkg/tencentcloud/tencentcloud_loadbalancer.go:541-561 | The loop yields exactly the targets to register, in instance order. |
| `BackendDiff.TargetCallsBatches` | pkg/tencentcloud/tencentcloud_loadbalancer.go:563-578 | The calls for a target list are one call per group of 20 from `Batches`, in order. |
| `BackendDiff.FirstUnserved` | pkg/tencentcloud/tencentcloud_loadbalancer.go:479-482 | Every port before the result has a listener, and the port at the result, if any, has none. |
| `BackendDiff.RemovalsFirst` | pkg/tencentcloud/tencentcloud_loadbalancer.go:466-579 | The backend plan is a run of deregistrations followed by a run of registrations. |
| `LoadBalancerOps.Apply` | pkg/tencentcloud/tencentcloud_loadbalancer.go:585-616 | The mutation is logged. A failed call returns its SDK error. Otherwise the result is the verdict of `waitApiTaskDone` on the task id of the reply. |
| `LoadBalancerOps.RunAll` | pkg/tencentcloud/tencentcloud_loadbalancer.go:306-336 | Without an error, every planned call was made, in order, and each call and its wait went through. With one, a non-empty prefix of the plan was made: every call but the last went through, and the last one failed with the error returned. |
| `LoadBalancerOps.SendBatches` | pkg/tencentcloud/tencentcloud_loadbalancer.go:506-520 | The group loop makes one call per group of `Batches(targets, 20)`, in order, and none for an empty list. Success means every call and wait went through. On error the loop stopped right after the call that failed with it. |
| `LoadBalancerOps.GetLoadBalancer` | pkg/tencentcloud/tencentcloud_loadbalancer.go:107-146 | A cache hit is returned with no call. Otherwise one read-only search is made: exactly one match is returned and cached under the name; zero or several give NotFound and nothing is cached; a failed call gives its error and nothing is cached. |
| `LoadBalancerOps.LbLookupSettles` | pkg/tencentcloud/tencentcloud_loadbalancer.go:107-146 | Once a lookup has found a balancer and cached it, a later lookup of the same name makes no call, finds the same balancer and leaves the cache as it is. |
| `LoadBalancerOps.GetListeners` | pkg/tencentcloud/tencentcloud_loadbalancer.go:77-104 | A cache hit is returned with no call. Otherwise one call, whose listeners are cached and returned; a failed call gives its error and nothing is cached. |
| `LoadBalancerOps.CreateLoadBalancer` | pkg/tencentcloud/tencentcloud_loadbalancer.go:652-699 | A private service without a subnet fails before any call. Otherwise exactly one create call with `CreateRequest` is made, and its outcome (call error or wait verdict) is returned. |
| `LoadBalancerOps.DeleteLoadBalancer` | pkg/tencentcloud/tencentcloud_loadbalancer.go:763-806 | The calls are the lookup's, then one delete call for a found balancer. NotFound returns nil with no mutation, and any other lookup error is returned. A found balancer's result is its delete call's outcome. The `clb_id_` entry is deleted exactly when the call went out and its wait failed; after a successful delete the stale entry stays. |
| `LoadBalancerOps.DeletePlanMutations` | pkg/tencentcloud/tencentcloud_loadbalancer.go:763-806 | The only mutation among the calls of `deleteLoadBalancer` is the balancer's delete call. |
| `LoadBalancerOps.RecreateDrifted` | pkg/tencentcloud/tencentcloud_loadbalancer.go:215-226 | The balancer is cached under the name. The delete call is made; if its outcome is an error, that error is returned and no further call is made. Otherwise the create call follows with its outcome. The cache delete of the name is attempted exactly when the delete's wait failed; otherwise the cache and the cache deletes are unchanged. |
| `LoadBalancerOps.EnsureInstance` | pkg/tencentcloud/tencentcloud_loadbalancer.go:163-230 | States `InstanceRan`: a lookup error other than NotFound is returned with no further call. NotFound leads to the create call and its outcome. For a found balancer, `NeedRecreate`'s error is returned; no drift means no call and no error; drift means the delete call and then, if it went through, the create call with its outcome. The `clb_id_` cache is the lookup's. The cache delete of the name is attempted exactly when the balancer drifted and the wait on its delete failed; the entry is then gone if the delete could drop it. A private service without a subnet fails without any mutation. The run is recorded as the instance phase, with the state before and after it. |
| `LoadBalancerOps.ApplyListenerPlan` | pkg/tencentcloud/tencentcloud_loadbalancer.go:306-336 | Every create, then every delete, each with its wait. Success means all of them went through. On error a non-empty prefix of that sequence was made, and its last call failed with the error. |
| `LoadBalancerOps.EnsureListeners` | pkg/tencentcloud/tencentcloud_loadbalancer.go:233-340 | States `ListenersRan`: the balancer and its listeners come from the lookups (cache or call), and a lookup error is returned with no mutation. Otherwise the calls after the lookups are the listener plan of that balancer and those listeners: all of it on success, or a prefix ending in the failed call. The run is recorded as the listener phase. |
| `LoadBalancerOps.DeregisterPorts` | pkg/tencentcloud/tencentcloud_loadbalancer.go:466-521 | The port-by-port removals, stopping with the missing-listener error at the first port without a listener. |
| `LoadBalancerOps.RegisterPorts` | pkg/tencentcloud/tencentcloud_loadbalancer.go:523-579 | The port-by-port additions, or a prefix of them on error. |
| `LoadBalancerOps.SyncBackends` | pkg/tencentcloud/tencentcloud_loadbalancer.go:466-579 | Success means every port has a listener and the whole plan (all removals, then all additions) was made. An unserved port gives the missing-listener error after the removals of the ports before it. Any other error stops inside the plan. |
| `LoadBalancerOps.SyncTargets` | pkg/tencentcloud/tencentcloud_loadbalancer.go:454-579 | One read-only `DescribeTargets`. A failed read is returned. Otherwise `SyncBackends` runs on the listeners of that reply, with its outcomes. |
| `LoadBalancerOps.NodeInstances` | pkg/tencentcloud/tencentcloud_loadbalancer.go:424-452 | An empty node selection is an error with no call. Otherwise the instance lookup by private IP runs on the selected names. On success the result is exactly the in-VPC part of that lookup's result, and the calls and the `vm_ip_` cache are the lookup's. On error the lookup stopped at the call that failed. Every returned instance is in the configured VPC; with a sound cache, each holds a private IP of a selected node. |
| `LoadBalancerOps.EnsureBackends` | pkg/tencentcloud/tencentcloud_loadbalancer.go:413-583 | States `BackendsRan`: a failed balancer lookup is returned. Otherwise the balancer id is the one found, the instances are `NodeInstances`' result, and the listeners are the `DescribeTargets` answer. Then the backend plan of those runs: all of it on success, or up to the failed call or the first unserved port. The run is recorded as the backend phase. |
| `LoadBalancerOps.BackendsOf` | pkg/tencentcloud/tencentcloud_loadbalancer.go:424-583 | The part of the backend phase after the balancer is found: the node selection and instance lookup, the target read and the port loops, with the outcomes stated by `BackendsFound`. |
| `Instances.SplitByCache` | pkg/tencentcloud/instances.go:210-219 | An IP is uncached iff it was asked for and has no `vm_ip_` entry. Hits and uncached IPs together number the IPs asked. |
| `Instances.CopiesMembers` | pkg/tencentcloud/instances.go:253-261 | The copies are all the instance, and there is at least one iff one of its IPs is wanted. |
| `Instances.HarvestMembers` | pkg/tencentcloud/instances.go:249-262 | Everything harvested from a reply is an instance of the reply, in the configured VPC, holding a wanted IP. |
| `Instances.HarvestCacheEntries` | pkg/tencentcloud/instances.go:249-262 | Every cache entry after a harvest is either unchanged or a wanted IP mapped to an in-VPC instance that holds it. |
| `Instances.GatheredMembers` | pkg/tencentcloud/instances.go:223-265 | Everything gathered over all groups is in the configured VPC and holds a wanted IP. |
| `Instances.ResultMembers` | pkg/tencentcloud/instances.go:205-269 | With a sound cache, every instance of the batch result is in the VPC and holds an IP that was asked for. |
| `Instances.CollectCached` | pkg/tencentcloud/instances.go:208-219 | The first loop yields the cached instances and the uncached IPs, both in the order asked. |
| `Instances.CopyMatches` | pkg/tencentcloud/instances.go:253-261 | One copy per private IP found by `isExist` among the sorted wanted IPs, each cached under that IP. |
| `Instances.HarvestReply` | pkg/tencentcloud/instances.go:249-262 | The reply loop skips other VPCs and yields the harvest and its cache updates. |
| `Instances.QueryUncached` | pkg/tencentcloud/instances.go:223-265 | The chunk loop makes one call per group of 5 of the sorted IPs, in order. The first failure stops it with that call's error. The cache holds the harvest of the groups answered. |
| `Instances.GetInstancesByPrivateIps` | pkg/tencentcloud/instances.go:205-269 | On success: one read-only call per group of 5 of the sorted uncached IPs; the result is the cache hits followed by the harvest of every reply; the cache grows by that harvest. On error: a non-empty prefix of those calls was made, the last one failed, and the cache holds the harvest of the groups answered before it. Cache soundness is kept. |
| `Instances.FindHolder` | pkg/tencentcloud/instances.go:191-198 | The first instance whose private IPs contain the IP, or none iff no instance has it. |
| `Instances.PrivateIpLookupAnswers` | pkg/tencentcloud/instances.go:174-202 | On a miss, the result is the first harvested instance holding the IP, or InstanceNotFound. With a sound cache, any instance returned is in the VPC and holds the IP. |
| `Instances.GetInstanceByPrivateIp` | pkg/tencentcloud/instances.go:174-202 | A cache hit makes no call and changes nothing. A miss makes exactly the one-IP batch call; a failed call leaves the cache as it was, and an answered one caches its harvest. Cache soundness is kept. |
| `Instances.GetInstancesForOneIp` | pkg/tencentcloud/instances.go:184-190 | The many-IP lookup for one uncached IP makes exactly one call. It fails iff that call's reply has an error, which is then returned with the cache unchanged. Otherwise it returns the reply harvested for the IP, and the cache gains those instances. A sound `vm_ip_` cache stays sound. |
| `Instances.FirstMatchFinds` | pkg/tencentcloud/instances.go:301-310 | The result is the first in-VPC instance with that id, or none iff there is none. |
| `Instances.InstanceIdLookupMeaning` | pkg/tencentcloud/instances.go:272-314 | With a sound cache, an instance returned has that id and the VPC. On a miss, success holds iff the call succeeded and returned such an instance. |
| `Instances.GetInstanceByInstanceID` | pkg/tencentcloud/instances.go:272-314 | A cache hit makes no call. A miss makes one call. Only a found instance is cached under `vm_id_` + id. |
| `Instances.ParseProviderId` | pkg/tencentcloud/instances.go:317-334 | A malformed id gives the invalid-format error naming it. The id returned contains no `/`. |
| `Instances.ProviderIdRoundTrip` | pkg/tencentcloud/instances.go:319-321 | `tencentcloud://` followed by `InstanceID`'s `/zone/id` (line 95) parses back to `id` when neither contains `/`. |
| `Instances.ProviderIdSlashBreaks` | pkg/tencentcloud/instances.go:319-321 | An instance id containing one `/` does not parse back. |
| `Instances.GetInstanceByProviderId` | pkg/tencentcloud/instances.go:317-334 | A malformed id makes no call. Otherwise this is the id lookup of the parsed id, with its call and cache effects. |
| `Instances.AddressesComplete` | pkg/tencentcloud/instances.go:33-39 | Every private IP is an InternalIP address and every public IP an ExternalIP address, and there are no other addresses. |
| `Instances.Addresses` | pkg/tencentcloud/instances.go:33-39 | The array filled by index holds the private IPs as InternalIP, then the public IPs as ExternalIP, in order. |
| `Instances.NodeAddresses` | pkg/tencentcloud/instances.go:25-43 | The lookup's error is returned, or the found instance's addresses. The calls and the `vm_ip_` cache are those of the single-IP lookup. |
| `Instances.NodeAddressesByProviderId` | pkg/tencentcloud/instances.go:50-68 | The same, through the provider-id lookup. The calls and the `vm_id_` cache are those of the provider-id lookup. |
| `Instances.ExternalId` | pkg/tencentcloud/instances.go:72-83 | The found instance's id, or the lookup's error. The calls and the `vm_ip_` cache are those of the single-IP lookup. |
| `Instances.InstanceId` | pkg/tencentcloud/instances.go:86-98 | `/zone/id` of the found instance, or the lookup's error. The calls and the `vm_ip_` cache are those of the single-IP lookup. |
| `Instances.InstanceType` | pkg/tencentcloud/instances.go:101-112 | The found instance's type, or the lookup's error. The calls and the `vm_ip_` cache are those of the single-IP lookup. |
| `Instances.InstanceTypeByProviderId` | pkg/tencentcloud/instances.go:115-126 | The same, through the provider-id lookup. The calls and the `vm_id_` cache are those of the provider-id lookup. |
| `Instances.InstanceExistsByProviderId` | pkg/tencentcloud/instances.go:142-153 | Absent iff the lookup gave InstanceNotFound. The lookup's error is passed on either way. The calls and the `vm_id_` cache are those of the provider-id lookup. |
| `Instances.InstanceShutdownByProviderId` | pkg/tencentcloud/instances.go:156-171 | A failed lookup gives not-shut-down with its error. A found instance is shut down iff its state is not `RUNNING`. The calls and the `vm_id_` cache are those of the provider-id lookup. |
| `LoadBalancerDriver.Ingresses` | pkg/tencentcloud/loadbalancer.go:33-37 | One ingress per VIP, with the same length and order, and IP = vip. |
| `LoadBalancerDriver.GetLoadBalancer` | pkg/tencentcloud/loadbalancer.go:19-44 | One name lookup. NotFound gives (nil, false, nil); another error gives (nil, false, err); a found balancer gives its VIPs as ingresses and true. |
| `LoadBalancerDriver.Status` | pkg/tencentcloud/loadbalancer.go:84-93 | One lookup by name, and `StatusIs`: the VIPs of the found balancer in order, or the lookup's error, NotFound included. |
| `LoadBalancerDriver.RunPhase` | pkg/tencentcloud/loadbalancer.go:69-81 | Running a phase appends to the trace a run holding the state before it, the state after it and its error, and the run satisfies `PhaseHeld`. That is the phase method's whole outcome (`InstanceRan`, `ListenersRan` or `BackendsRan`) over the caches it uses. Every cache the phase does not touch is unchanged: the listener cache and the `vm_ip_` cache for the instance phase, the `vm_ip_` cache and the cache deletes for the listener phase, the listener cache and the cache deletes for the backend phase. |
| `LoadBalancerDriver.RunPhases` | pkg/tencentcloud/loadbalancer.go:69-82 | States `RanInOrder` from the state before the call to the state after it. The phases ran in the order instance, listeners, backends, and each run satisfies `PhaseHeld`. Each run starts in the state the one before left, and only after it succeeded. The error returned is the last phase's, and success means all three ran. |
| `LoadBalancerDriver.RunLaterPhases` | pkg/tencentcloud/loadbalancer.go:73-82 | The listener phase, then the backend phase only if the listener phase succeeded, as `RanInOrder` from the second phase on. |
| `LoadBalancerDriver.RanInOrderJoined` | pkg/tencentcloud/loadbalancer.go:69-82 | A successful phase satisfying `PhaseHeld`, followed by an in-order run of the phases after it from the state it left, is an in-order run. |
| `LoadBalancerDriver.ListenersSeeDeletedBalancer` | pkg/tencentcloud/tencentcloud_loadbalancer.go:215-245 | Suppose the instance phase found a drifted balancer and its delete went through. The listener phase that follows then finds that balancer in the `clb_id_` cache with no call, and works on the deleted balancer's id, because the create does not update the cache. |
| `LoadBalancerDriver.EnsureLoadBalancer` | pkg/tencentcloud/loadbalancer.go:58-100 | A session affinity other than None is an error with no call, no phase and no cache change. Otherwise the result satisfies `Reconciled` from the state before to the state after. Either the phases ran as in `RanInOrder` and a phase error is returned as is, or all three phases succeeded and one final lookup by name then gives the status as in `StatusIs`. The caches are those the phases left. |
| `LoadBalancerDriver.ReconciledStatus` | pkg/tencentcloud/loadbalancer.go:69-93 | When every phase of a reconcile succeeded, its result is the final lookup's status. |
| `LoadBalancerDriver.UpdateLoadBalancer` | pkg/tencentcloud/loadbalancer.go:106-109 | Only the backend phase runs, with the whole of `BackendsRan`. It is recorded in the trace with the state before and after it. |
| `LoadBalancerDriver.EnsureLoadBalancerDeleted` | pkg/tencentcloud/loadbalancer.go:119-130 | NotFound returns nil after the one lookup, with no other call and no cache change. Every other outcome, a failed lookup included, goes on to `deleteLoadBalancer`: the calls, the error and the cache effects after the lookup are exactly those of `DeleteLoadBalancer`, and its only mutation is a delete. |

## Left out

- The TTL of the cache (60 s) and passive expiry are not modelled: a cache
  read is a map lookup, and an entry stays until it is replaced or
  deleted. `pkg/cache/cache.go` is not otherwise part of this model.
- `cache.Delete`'s outcome is left to an oracle (`deleteDrops`), because
  the store's key function asserts a cache entry while `Delete` passes a
  bare key. Only `deleteLoadBalancer` calls it.
- `getLoadBalancerByName`, used by the entry points, is defined outside the
  modelled files of `pkg/tencentcloud`. It is an oracle lookup (found,
  NotFound or error) recorded in the call log.
- The `time.Sleep` between task polls is not modelled; polls are counted.
  Logging (`klog`) is dropped.
- Concurrency between reconciliations of different services is not
  modelled. Each method runs on its own `Cloud` state.
- Both error kinds of the SDK (service errors and transport errors) are one
  `Sdk` error, since every call site treats them alike. Error texts are
  replaced by error kinds.
- Go's UTF-8 decoding is not modelled: a string is a sequence of
  characters, each standing for one byte. `TrimSpace` uses the Unicode
  white-space set on those characters.
- Nil pointers in SDK responses (e.g. a missing `VpcId`) are assumed
  absent. An SDK field the code never reads is left out of the records.
- ClbRules.LoadBalancerName: requires a UID of at least 8 bytes when the full name
  is longer than 60 bytes. The source slices `uid[:8]` there and would
  panic on a shorter UID.
- The `default:` branch of the drift switch (`ensureLoadBalancerInstance`)
  is not modelled, because the desired type is always public or private by
  then.
- `AddSSHKeyToAllInstances` and `CurrentNodeName` return a constant
  NotImplemented and have no model.
- `routes.go`, `cmd/`, `Initialize` and the provider registration in
  `cloud.go` build SDK clients and copy fields. They are not part of this
  model.
- LoadBalancerDriver.EnsureLoadBalancer: the `clusterName` argument is unused by the source
  and absent from the model.
