/** The state-changing half of the load-balancer reconciler
    (pkg/tencentcloud/tencentcloud_loadbalancer.go): lookups that fill the
    cache, mutations followed by a wait for their task, and the instance and
    listener phases. Every remote call lands in `cloud.calls`, so the
    contracts say which calls are made, in which order, and where a failure
    stops the sequence. */
module LoadBalancerOps {
  import opened Wrappers
  import opened Types
  import opened Remote
  import opened CloudProvider
  import opened Tasks
  import opened Batching
  import opened ClbRules
  import opened ListenerDiff
  import opened BackendDiff
  import opened Instances

  /** Two runs in a row: the second, after the whole first, completes both
      or stops inside both. */
  lemma SecondOutcome(start: seq<ApiCall>, mid: seq<ApiCall>, after: seq<ApiCall>, err: Option<Error>,
                      first: seq<ApiCall>, second: seq<ApiCall>)
    requires mid == start + first
    requires err.None? ==> after == mid + second
    requires err.Some? ==> Stopped(mid, after, second)
    ensures err.None? ==> after == start + (first + second)
    ensures err.Some? ==> Stopped(start, after, first + second)
  {
    if err.Some? {
      StoppedAfter(start, first, after, second);
    }
  }

  /** A mutation followed by `waitApiTaskDone` on the request id it returns
      (the shape shared by create/delete listener, (de)register targets and
      create/delete balancer). A failed call is returned as is; otherwise
      the wait's verdict on the task of the reply. */
  method Apply(cloud: Cloud, call: ApiCall) returns (err: Option<Error>)
    modifies cloud`calls
    ensures cloud.calls == old(cloud.calls) + [call]
    ensures err == MutationOutcome(cloud.remote, |old(cloud.calls)|, call)
  {
    var r := cloud.Invoke(call);
    if r.error.Some? {
      return Some(Sdk(r.error.value));
    }
    var polls;
    err, polls := WaitApiTaskDone(r.requestId, cloud.remote.taskStatus);
  }

  /** Makes the planned mutations in order, each with its wait, and stops
      at the first failure. */
  method RunAll(cloud: Cloud, plan: seq<ApiCall>) returns (err: Option<Error>)
    modifies cloud`calls
    ensures err.None? ==> cloud.calls == old(cloud.calls) + plan
    ensures err.Some? ==> Stopped(old(cloud.calls), cloud.calls, plan)
    ensures RunEnded(cloud.remote, cloud.calls, |old(cloud.calls)|, err)
  {
    var i := 0;
    while i < |plan|
      invariant 0 <= i <= |plan|
      invariant cloud.calls == old(cloud.calls) + plan[..i]
      invariant WentThrough(cloud.remote, cloud.calls, |old(cloud.calls)|, |cloud.calls|)
    {
      ghost var before := cloud.calls;
      err := Apply(cloud, plan[i]);
      StepEnded(cloud.remote, before, plan[i], |old(cloud.calls)|, err);
      assert plan[..i + 1] == plan[..i] + [plan[i]];
      if err.Some? {
        assert plan[..i + 1] <= plan;
        return;
      }
      i := i + 1;
    }
    assert plan[..|plan|] == plan;
    err := None;
  }

  /** The groups of a list cut after a whole number of groups, or at its
      end, start the groups of the whole list. */
  lemma BatchCallsPrefix(lbId: string, listenerId: string, targets: seq<Target>, m: nat, register: bool)
    requires m <= |targets| && (m % TargetBatch == 0 || m == |targets|)
    ensures TargetCalls(lbId, listenerId, targets[..m], register) <= TargetCalls(lbId, listenerId, targets, register)
  {
    if m < |targets| {
      assert targets == targets[..m] + targets[m..];
      TargetCallsBatches(lbId, listenerId, targets, register);
      TargetCallsBatches(lbId, listenerId, targets[..m], register);
      BatchesSplit(targets[..m], targets[m..], TargetBatch, m / TargetBatch);
      BatchCallsAppend(lbId, listenerId, Batches(targets[..m], TargetBatch), Batches(targets[m..], TargetBatch), register);
    } else {
      assert targets[..m] == targets;
    }
  }

  /** Sending one more group after a whole number of full groups adds one
      call for it. */
  lemma FlushStep(lbId: string, listenerId: string, prefix: seq<Target>, batch: seq<Target>, register: bool)
    requires |prefix| % TargetBatch == 0 && 0 < |batch| <= TargetBatch
    ensures TargetCalls(lbId, listenerId, prefix + batch, register)
            == TargetCalls(lbId, listenerId, prefix, register)
               + [if register then RegisterTargets(lbId, listenerId, batch) else DeregisterTargets(lbId, listenerId, batch)]
  {
    TargetCallsBatches(lbId, listenerId, prefix + batch, register);
    TargetCallsBatches(lbId, listenerId, prefix, register);
    BatchesAppend(prefix, batch, TargetBatch, |prefix| / TargetBatch);
    BatchCallsAppend(lbId, listenerId, Batches(prefix, TargetBatch), [batch], register);
    assert BatchCalls(lbId, listenerId, [batch], register)
           == [if register then RegisterTargets(lbId, listenerId, batch) else DeregisterTargets(lbId, listenerId, batch)];
  }

  /** The calls after sending the group `targets[done..m]`. */
  lemma FlushOutcome(start: seq<ApiCall>, mid: seq<ApiCall>, after: seq<ApiCall>,
                     lbId: string, listenerId: string, targets: seq<Target>, done: nat, m: nat, register: bool)
    requires done < m <= |targets| && m - done <= TargetBatch
    requires done % TargetBatch == 0 && (m % TargetBatch == 0 || m == |targets|)
    requires mid == start + TargetCalls(lbId, listenerId, targets[..done], register)
    requires after == mid + [if register then RegisterTargets(lbId, listenerId, targets[done..m])
                             else DeregisterTargets(lbId, listenerId, targets[done..m])]
    ensures after == start + TargetCalls(lbId, listenerId, targets[..m], register)
    ensures Stopped(start, after, TargetCalls(lbId, listenerId, targets, register))
  {
    assert targets[..m] == targets[..done] + targets[done..m];
    FlushStep(lbId, listenerId, targets[..done], targets[done..m], register);
    BatchCallsPrefix(lbId, listenerId, targets, m, register);
    PrefixBehind(start, TargetCalls(lbId, listenerId, targets[..m], register), TargetCalls(lbId, listenerId, targets, register));
  }

  /** The source's group-sending loop: targets are added to a group one by
      one, and the group is sent when it holds 20 or the list ends. The
      calls made are one per group of `Batches`, in order; a failure stops
      the loop after the failed call. An empty list makes no call. */
  method SendBatches(cloud: Cloud, lbId: string, listenerId: string, targets: seq<Target>, register: bool)
    returns (err: Option<Error>)
    modifies cloud`calls
    ensures err.None? ==> cloud.calls == old(cloud.calls) + TargetCalls(lbId, listenerId, targets, register)
    ensures err.Some? ==> Stopped(old(cloud.calls), cloud.calls, TargetCalls(lbId, listenerId, targets, register))
    ensures RunEnded(cloud.remote, cloud.calls, |old(cloud.calls)|, err)
  {
    err := None;
    var count := |targets|;
    var batch: seq<Target> := [];
    ghost var done: nat := 0;
    var i := 0;
    while i < count
      invariant 0 <= done <= i <= count
      invariant batch == targets[done..i] && i - done < TargetBatch
      invariant done % TargetBatch == 0 || done == count
      invariant i == count ==> done == count
      invariant err.None?
      invariant cloud.calls == old(cloud.calls) + TargetCalls(lbId, listenerId, targets[..done], register)
      invariant WentThrough(cloud.remote, cloud.calls, |old(cloud.calls)|, |cloud.calls|)
    {
      batch := batch + [targets[i]];
      if (i > 0 && (i + 1) % TargetBatch == 0) || i == count - 1 {
        assert batch == targets[done..i + 1];
        ghost var mid := cloud.calls;
        var call := if register then RegisterTargets(lbId, listenerId, batch) else DeregisterTargets(lbId, listenerId, batch);
        err := Apply(cloud, call);
        StepEnded(cloud.remote, mid, call, |old(cloud.calls)|, err);
        FlushOutcome(old(cloud.calls), mid, cloud.calls, lbId, listenerId, targets, done, i + 1, register);
        if err.Some? {
          return;
        }
        batch := [];
        done := i + 1;
      }
      i := i + 1;
    }
    assert targets[..count] == targets;
  }

  // ---------------------------------------------------------------------
  // Lookups

  /** The search `getLoadBalancer` sends: by name, filtered by owner tag. */
  function SearchCall(name: string, service: Service): ApiCall
  {
    DescribeLoadBalancers(name, OwnerFilter(service))
  }

  /** The calls of `getLoadBalancer` on the `clb_id_` cache `cache`: none
      on a hit, else the search. */
  function LbLookupCalls(cache: map<string, LoadBalancer>, name: string, service: Service): seq<ApiCall>
  {
    if name in cache then [] else [SearchCall(name, service)]
  }

  /** What `getLoadBalancer` returns after `n` earlier calls: the cached
      balancer; else the search's error, its single result, or NotFound
      for none or several. */
  function LbLookup(remote: Remote, n: nat, cache: map<string, LoadBalancer>, name: string, service: Service)
    : Result<LoadBalancer, Error>
  {
    if name in cache then Ok(cache[name])
    else
      var reply := remote.answer(n, SearchCall(name, service));
      if reply.error.Some? then Err(Sdk(reply.error.value))
      else if |reply.loadBalancers| == 1 then Ok(reply.loadBalancers[0])
      else Err(LoadBalancerNotFound)
  }

  /** The cache `getLoadBalancer` leaves: a balancer it found is cached
      under the name. */
  function LbCacheAfter(remote: Remote, n: nat, cache: map<string, LoadBalancer>, name: string, service: Service)
    : map<string, LoadBalancer>
  {
    match LbLookup(remote, n, cache, name, service)
    case Ok(lb) => cache[name := lb]
    case Err(_) => cache
  }

  /** A balancer the lookup found is cached, so a later lookup of the same
      name finds it again, with no call, whatever the remote says then. */
  lemma {:induction false} LbLookupSettles(remote: Remote, later: Remote, n: nat, m: nat,
                                           cache: map<string, LoadBalancer>, name: string, service: Service)
    requires LbLookup(remote, n, cache, name, service).Ok?
    ensures var after := LbCacheAfter(remote, n, cache, name, service);
            && LbLookupCalls(after, name, service) == []
            && LbLookup(later, m, after, name, service) == LbLookup(remote, n, cache, name, service)
            && LbCacheAfter(later, m, after, name, service) == after
  {
    var after := LbCacheAfter(remote, n, cache, name, service);
    assert name in after && after[name] == LbLookup(remote, n, cache, name, service).value;
    assert after[name := after[name]] == after;
  }

  /** `getLoadBalancer`: the cached balancer under `clb_id_` + name with no
      call; otherwise one search by name and owner tag, whose single result
      is cached and returned. No result, or more than one, is NotFound and
      nothing is cached. */
  method GetLoadBalancer(cloud: Cloud, name: string, service: Service) returns (r: Result<LoadBalancer, Error>)
    modifies cloud`calls, cloud`clbByName
    ensures r == LbLookup(cloud.remote, |old(cloud.calls)|, old(cloud.clbByName), name, service)
    ensures cloud.calls == old(cloud.calls) + LbLookupCalls(old(cloud.clbByName), name, service)
    ensures cloud.clbByName == LbCacheAfter(cloud.remote, |old(cloud.calls)|, old(cloud.clbByName), name, service)
    ensures ReadsOnly(old(cloud.calls), cloud.calls)
  {
    if name in cloud.clbByName {
      assert cloud.calls[|cloud.calls|..] == [];
      assert cloud.clbByName[name := cloud.clbByName[name]] == cloud.clbByName;
      return Ok(cloud.clbByName[name]);
    }
    assert old(cloud.calls)[|old(cloud.calls)|..] == [];
    var reply := cloud.Invoke(SearchCall(name, service));
    ReadsOnlyOne(old(cloud.calls), old(cloud.calls), cloud.calls, SearchCall(name, service));
    if reply.error.Some? {
      return Err(Sdk(reply.error.value));
    }
    if |reply.loadBalancers| == 1 {
      cloud.clbByName := cloud.clbByName[name := reply.loadBalancers[0]];
      return Ok(reply.loadBalancers[0]);
    }
    r := Err(LoadBalancerNotFound);
  }

  /** The calls of `getLoadBalancerListeners`: none on a hit, else one. */
  function ListenersLookupCalls(cache: map<string, seq<Listener>>, lbId: string): seq<ApiCall>
  {
    if lbId in cache then [] else [DescribeListeners(lbId)]
  }

  /** What `getLoadBalancerListeners` returns after `n` earlier calls. */
  function ListenersLookup(remote: Remote, n: nat, cache: map<string, seq<Listener>>, lbId: string): Result<seq<Listener>, Error>
  {
    if lbId in cache then Ok(cache[lbId])
    else
      var reply := remote.answer(n, DescribeListeners(lbId));
      if reply.error.Some? then Err(Sdk(reply.error.value)) else Ok(reply.listeners)
  }

  /** The `clb_listener_id_` cache it leaves: what it found is cached. */
  function ListenersCacheAfter(remote: Remote, n: nat, cache: map<string, seq<Listener>>, lbId: string): map<string, seq<Listener>>
  {
    match ListenersLookup(remote, n, cache, lbId)
    case Ok(ls) => cache[lbId := ls]
    case Err(_) => cache
  }

  /** `getLoadBalancerListeners`: the cached listeners under
      `clb_listener_id_` + id with no call; otherwise one call, whose result
      is cached and returned. */
  method GetListeners(cloud: Cloud, lbId: string) returns (r: Result<seq<Listener>, Error>)
    modifies cloud`calls, cloud`clbListeners
    ensures r == ListenersLookup(cloud.remote, |old(cloud.calls)|, old(cloud.clbListeners), lbId)
    ensures cloud.calls == old(cloud.calls) + ListenersLookupCalls(old(cloud.clbListeners), lbId)
    ensures cloud.clbListeners == ListenersCacheAfter(cloud.remote, |old(cloud.calls)|, old(cloud.clbListeners), lbId)
    ensures ReadsOnly(old(cloud.calls), cloud.calls)
  {
    if lbId in cloud.clbListeners {
      assert cloud.calls[|cloud.calls|..] == [];
      assert cloud.clbListeners[lbId := cloud.clbListeners[lbId]] == cloud.clbListeners;
      return Ok(cloud.clbListeners[lbId]);
    }
    assert old(cloud.calls)[|old(cloud.calls)|..] == [];
    var reply := cloud.Invoke(DescribeListeners(lbId));
    ReadsOnlyOne(old(cloud.calls), old(cloud.calls), cloud.calls, DescribeListeners(lbId));
    if reply.error.Some? {
      return Err(Sdk(reply.error.value));
    }
    cloud.clbListeners := cloud.clbListeners[lbId := reply.listeners];
    r := Ok(reply.listeners);
  }

  // ---------------------------------------------------------------------
  // Create and delete

  /** The calls of `createLoadBalancer`: none when the request cannot be
      built, else the one create call. */
  function CreatePlan(config: TxCloudConfig, service: Service): seq<ApiCall>
    requires NameDefined(config, service)
  {
    match CreateRequest(config, service)
    case Ok(req) => [ApiCall.CreateLoadBalancer(req)]
    case Err(_) => []
  }

  /** What `createLoadBalancer` returns when its call comes after `n`
      earlier ones. */
  function CreateOutcome(remote: Remote, n: nat, config: TxCloudConfig, service: Service): Option<Error>
    requires NameDefined(config, service)
  {
    match CreateRequest(config, service)
    case Ok(req) => MutationOutcome(remote, n, ApiCall.CreateLoadBalancer(req))
    case Err(e) => Some(e)
  }

  /** `createLoadBalancer`: a private service without a subnet annotation
      fails before any call; otherwise one create call with the request of
      `CreateRequest`, then a wait for its task. */
  method CreateLoadBalancer(cloud: Cloud, service: Service) returns (err: Option<Error>)
    requires NameDefined(cloud.txConfig, service)
    modifies cloud`calls
    ensures cloud.calls == old(cloud.calls) + CreatePlan(cloud.txConfig, service)
    ensures err == CreateOutcome(cloud.remote, |old(cloud.calls)|, cloud.txConfig, service)
    ensures CreateRequest(cloud.txConfig, service).Err? ==> err == Some(SubnetRequired)
  {
    var req := CreateRequest(cloud.txConfig, service);
    if req.Err? {
      return Some(req.error);
    }
    err := Apply(cloud, ApiCall.CreateLoadBalancer(req.value));
  }

  /** The calls of `deleteLoadBalancer` after `n` earlier ones on the cache
      `cache`: the lookup's, then the delete call for a balancer found. */
  function DeletePlan(remote: Remote, n: nat, cache: map<string, LoadBalancer>, config: TxCloudConfig, service: Service)
    : seq<ApiCall>
    requires NameDefined(config, service)
  {
    var name := LoadBalancerName(config, service);
    LbLookupCalls(cache, name, service)
      + match LbLookup(remote, n, cache, name, service)
        case Ok(lb) => [ApiCall.DeleteLoadBalancer(lb.loadBalancerId)]
        case Err(_) => []
  }

  /** What `deleteLoadBalancer` returns: nothing for a balancer not found,
      any other lookup error, else the outcome of the delete call. */
  function DeleteOutcome(remote: Remote, n: nat, cache: map<string, LoadBalancer>, config: TxCloudConfig, service: Service)
    : Option<Error>
    requires NameDefined(config, service)
  {
    var name := LoadBalancerName(config, service);
    match LbLookup(remote, n, cache, name, service)
    case Ok(lb) => MutationOutcome(remote, n + |LbLookupCalls(cache, name, service)|, ApiCall.DeleteLoadBalancer(lb.loadBalancerId))
    case Err(e) => if e == LoadBalancerNotFound then None else Some(e)
  }

  /** `deleteLoadBalancer` attempts the cache delete: the balancer was
      found and its delete call went out, but the wait on it failed. */
  predicate DropsEntry(remote: Remote, n: nat, cache: map<string, LoadBalancer>, config: TxCloudConfig, service: Service)
    requires NameDefined(config, service)
  {
    var name := LoadBalancerName(config, service);
    var found := LbLookup(remote, n, cache, name, service);
    found.Ok? && WaitFailed(remote, n + |LbLookupCalls(cache, name, service)|, ApiCall.DeleteLoadBalancer(found.value.loadBalancerId))
  }

  /** The only mutation `deleteLoadBalancer` can make is the delete call. */
  lemma DeletePlanMutations(remote: Remote, n: nat, cache: map<string, LoadBalancer>, config: TxCloudConfig, service: Service)
    requires NameDefined(config, service)
    ensures var plan := DeletePlan(remote, n, cache, config, service);
            forall k :: 0 <= k < |plan| && plan[k].IsMutation() ==> plan[k].DeleteLoadBalancer?
  {
  }

  /** `deleteLoadBalancer`: look the balancer up; NotFound means there is
      nothing to delete, any other lookup error is returned. Then one delete
      call and a wait. The cache entry `clb_id_` + name is dropped only when
      the wait FAILS: after a successful deletion the deleted balancer stays
      cached under its name. */
  method DeleteLoadBalancer(cloud: Cloud, service: Service) returns (err: Option<Error>)
    requires NameDefined(cloud.txConfig, service)
    modifies cloud`calls, cloud`clbByName, cloud`cacheDeletes
    ensures cloud.calls == old(cloud.calls) + DeletePlan(cloud.remote, |old(cloud.calls)|, old(cloud.clbByName), cloud.txConfig, service)
    ensures err == DeleteOutcome(cloud.remote, |old(cloud.calls)|, old(cloud.clbByName), cloud.txConfig, service)
    ensures var name := LoadBalancerName(cloud.txConfig, service);
            var cached := LbCacheAfter(cloud.remote, |old(cloud.calls)|, old(cloud.clbByName), name, service);
            if DropsEntry(cloud.remote, |old(cloud.calls)|, old(cloud.clbByName), cloud.txConfig, service) then
              && cloud.cacheDeletes == old(cloud.cacheDeletes) + [name]
              && cloud.clbByName == if cloud.remote.deleteDrops(name) then cached - {name} else cached
            else
              cloud.cacheDeletes == old(cloud.cacheDeletes) && cloud.clbByName == cached
  {
    var name := LoadBalancerName(cloud.txConfig, service);
    var found := GetLoadBalancer(cloud, name, service);
    if found.Err? {
      if found.error == LoadBalancerNotFound {
        return None;
      }
      return Some(found.error);
    }
    var reply := cloud.Invoke(ApiCall.DeleteLoadBalancer(found.value.loadBalancerId));
    if reply.error.Some? {
      return Some(Sdk(reply.error.value));
    }
    var polls;
    err, polls := WaitApiTaskDone(reply.requestId, cloud.remote.taskStatus);
    if err.Some? {
      var dropped := cloud.DeleteClbEntry(name);
    }
  }

  // ---------------------------------------------------------------------
  // Instance phase

  /** Whether `ensureLoadBalancerInstance` drops into the cache delete:
      the balancer was found, it drifted, and the wait on its delete call
      failed. */
  predicate InstanceDrops(remote: Remote, n: nat, clb: map<string, LoadBalancer>, config: TxCloudConfig, service: Service)
    requires NameDefined(config, service)
  {
    var name := LoadBalancerName(config, service);
    var found := LbLookup(remote, n, clb, name, service);
    && found.Ok?
    && NeedRecreate(service, config.vpcId, found.value) == Ok(true)
    && WaitFailed(remote, n + |LbLookupCalls(clb, name, service)|, ApiCall.DeleteLoadBalancer(found.value.loadBalancerId))
  }

  /** What `ensureLoadBalancerInstance` does, from the call log `before`,
      the `clb_id_` cache `clb` and the cache deletes `deletes` to the log
      `after`, the cache `clbAfter`, the deletes `deletesAfter` and the
      error `err`: a lookup error other than NotFound is returned; NotFound
      leads to the create; a found balancer is judged by `NeedRecreate`,
      whose error is returned; no drift means nothing more, and drift means
      the delete call, then the create once the delete went through. The
      delete's own lookup hits the cache. The cache is the lookup's, less
      the name's entry when the delete's wait failed and the entry could be
      dropped. */
  ghost predicate InstanceRan(remote: Remote, config: TxCloudConfig, service: Service,
                              before: seq<ApiCall>, clb: map<string, LoadBalancer>, deletes: seq<string>,
                              after: seq<ApiCall>, clbAfter: map<string, LoadBalancer>, deletesAfter: seq<string>,
                              err: Option<Error>)
    requires NameDefined(config, service)
  {
    var name := LoadBalancerName(config, service);
    var found := LbLookup(remote, |before|, clb, name, service);
    var looked := before + LbLookupCalls(clb, name, service);
    var cached := LbCacheAfter(remote, |before|, clb, name, service);
    var drops := InstanceDrops(remote, |before|, clb, config, service);
    && deletesAfter == (if drops then deletes + [name] else deletes)
    && clbAfter == (if drops && remote.deleteDrops(name) then cached - {name} else cached)
    && (found.Err? && found.error != LoadBalancerNotFound ==> err == Some(found.error) && after == looked)
    && (found == Err(LoadBalancerNotFound) ==>
          && after == looked + CreatePlan(config, service)
          && err == CreateOutcome(remote, |looked|, config, service))
    && (found.Ok? ==>
          match NeedRecreate(service, config.vpcId, found.value)
          case Err(e) => err == Some(e) && after == looked
          case Ok(drift) =>
            if !drift then err.None? && after == looked
            else
              var del := ApiCall.DeleteLoadBalancer(found.value.loadBalancerId);
              var deleted := MutationOutcome(remote, |looked|, del);
              && (deleted.Some? ==> err == deleted && after == looked + [del])
              && (deleted.None? ==>
                    && after == looked + [del] + CreatePlan(config, service)
                    && err == CreateOutcome(remote, |looked| + 1, config, service)))
  }

  /** `ensureLoadBalancerInstance`: find the balancer; create it when it is
      not found; return any other lookup error; for a found balancer decide
      drift with `NeedRecreate` and, on drift, delete then create. The
      delete's own lookup finds the balancer in the cache. The run is
      recorded in the trace. */
  method EnsureInstance(cloud: Cloud, service: Service) returns (err: Option<Error>)
    requires NameDefined(cloud.txConfig, service)
    modifies cloud`calls, cloud`clbByName, cloud`cacheDeletes, cloud`trace
    ensures InstanceRan(cloud.remote, cloud.txConfig, service, old(cloud.calls), old(cloud.clbByName), old(cloud.cacheDeletes),
                        cloud.calls, cloud.clbByName, cloud.cacheDeletes, err)
    ensures DesiredKind(service) == Private && Subnet(service).None? ==>
              err.Some? && ReadsOnly(old(cloud.calls), cloud.calls)
    ensures cloud.trace == old(cloud.trace) + [PhaseRun(InstancePhase, old(cloud.State()), cloud.State(), err, NoFindings)]
  {
    var name := LoadBalancerName(cloud.txConfig, service);
    var found := GetLoadBalancer(cloud, name, service);
    if found.Err? {
      if found.error != LoadBalancerNotFound {
        err := Some(found.error);
      } else {
        err := CreateLoadBalancer(cloud, service);
      }
    } else {
      var decision := NeedRecreate(service, cloud.txConfig.vpcId, found.value);
      if decision.Err? {
        err := Some(decision.error);
      } else if decision.value {
        err := RecreateDrifted(cloud, service, found.value);
      } else {
        err := None;
      }
    }
    cloud.Record(InstancePhase, old(cloud.State()), err, NoFindings);
  }

  /** The drift branch of `ensureLoadBalancerInstance`, once the balancer
      `lb` is cached under the name: `deleteLoadBalancer`, whose lookup
      hits the cache, then `createLoadBalancer` once the delete went
      through. The cache delete is attempted when the delete's wait
      failed. */
  method RecreateDrifted(cloud: Cloud, service: Service, ghost lb: LoadBalancer) returns (err: Option<Error>)
    requires NameDefined(cloud.txConfig, service)
    requires var name := LoadBalancerName(cloud.txConfig, service);
             name in cloud.clbByName && cloud.clbByName[name] == lb
    modifies cloud`calls, cloud`clbByName, cloud`cacheDeletes
    ensures var name := LoadBalancerName(cloud.txConfig, service);
            var del := ApiCall.DeleteLoadBalancer(lb.loadBalancerId);
            var deleted := MutationOutcome(cloud.remote, |old(cloud.calls)|, del);
            var drops := WaitFailed(cloud.remote, |old(cloud.calls)|, del);
            && (deleted.Some? ==> err == deleted && cloud.calls == old(cloud.calls) + [del])
            && (deleted.None? ==>
                  && cloud.calls == old(cloud.calls) + [del] + CreatePlan(cloud.txConfig, service)
                  && err == CreateOutcome(cloud.remote, |old(cloud.calls)| + 1, cloud.txConfig, service))
            && cloud.cacheDeletes == (if drops then old(cloud.cacheDeletes) + [name] else old(cloud.cacheDeletes))
            && cloud.clbByName == (if drops && cloud.remote.deleteDrops(name) then old(cloud.clbByName) - {name} else old(cloud.clbByName))
  {
    ghost var name := LoadBalancerName(cloud.txConfig, service);
    assert LbCacheAfter(cloud.remote, |cloud.calls|, cloud.clbByName, name, service) == cloud.clbByName;
    err := DeleteLoadBalancer(cloud, service);
    if err.None? {
      err := CreateLoadBalancer(cloud, service);
    }
  }

  // ---------------------------------------------------------------------
  // Listener phase

  /** One create-listener call per request. */
  function CreateCalls(reqs: seq<CreateListenerRequest>): (r: seq<ApiCall>)
    ensures |r| == |reqs| && forall k :: 0 <= k < |r| ==> r[k] == CreateListener(reqs[k])
    decreases |reqs|
  {
    if reqs == [] then [] else CreateCalls(reqs[..|reqs| - 1]) + [CreateListener(reqs[|reqs| - 1])]
  }

  /** One delete-listener call per id. */
  function DeleteCalls(lbId: string, ids: seq<string>): (r: seq<ApiCall>)
    ensures |r| == |ids| && forall k :: 0 <= k < |r| ==> r[k] == DeleteListener(lbId, ids[k])
    decreases |ids|
  {
    if ids == [] then [] else DeleteCalls(lbId, ids[..|ids| - 1]) + [DeleteListener(lbId, ids[|ids| - 1])]
  }

  /** The listener calls of a plan: every create, then every delete. */
  function ListenerCalls(lbId: string, listeners: seq<Listener>, service: Service): seq<ApiCall>
  {
    CreateCalls(Creates(lbId, service.ports, ServedNames(listeners, service.ports), BuildHealthCheck(service)))
      + DeleteCalls(lbId, Deletes(listeners, KeptIds(listeners, service.ports)))
  }

  /** Makes the listener plan: every create, then every delete, each
      followed by its wait, stopping at the first failure. */
  method ApplyListenerPlan(cloud: Cloud, lbId: string, listeners: seq<Listener>, service: Service)
    returns (err: Option<Error>)
    modifies cloud`calls
    ensures err.None? ==> cloud.calls == old(cloud.calls) + ListenerCalls(lbId, listeners, service)
    ensures err.Some? ==> Stopped(old(cloud.calls), cloud.calls, ListenerCalls(lbId, listeners, service))
    ensures RunEnded(cloud.remote, cloud.calls, |old(cloud.calls)|, err)
  {
    var creates, deletes := PlanListeners(lbId, listeners, service.ports, BuildHealthCheck(service));
    var createCalls := CreateCalls(creates);
    var deleteCalls := DeleteCalls(lbId, deletes);
    assert ListenerCalls(lbId, listeners, service) == createCalls + deleteCalls;
    err := RunAll(cloud, createCalls);
    if err.Some? {
      StoppedWithin(old(cloud.calls), cloud.calls, createCalls, createCalls + deleteCalls);
      return;
    }
    ghost var mid := cloud.calls;
    err := RunAll(cloud, deleteCalls);
    SecondOutcome(old(cloud.calls), mid, cloud.calls, err, createCalls, deleteCalls);
    RunJoined(cloud.remote, mid, cloud.calls, |old(cloud.calls)|, err);
  }

  /** What `ensureLoadBalancerListeners` does, from the call log `before`
      and the caches `clb` and `held` to the log `after`, the caches
      `clbAfter` and `heldAfter` and the error `err`. `lbId` and `listeners`
      are what its lookups found and `mid` the log once they are done. A
      lookup error is returned with nothing else done; otherwise the calls
      after the lookups are the listener plan, whole or stopped. */
  ghost predicate ListenersRan(remote: Remote, config: TxCloudConfig, service: Service,
                               before: seq<ApiCall>, clb: map<string, LoadBalancer>, held: map<string, seq<Listener>>,
                               after: seq<ApiCall>, clbAfter: map<string, LoadBalancer>, heldAfter: map<string, seq<Listener>>,
                               err: Option<Error>, lbId: string, listeners: seq<Listener>, mid: seq<ApiCall>)
    requires NameDefined(config, service)
  {
    var name := LoadBalancerName(config, service);
    var found := LbLookup(remote, |before|, clb, name, service);
    var afterLb := before + LbLookupCalls(clb, name, service);
    && clbAfter == LbCacheAfter(remote, |before|, clb, name, service)
    && (found.Err? ==> err == Some(found.error) && after == afterLb && mid == afterLb && heldAfter == held)
    && (found.Ok? ==>
          && lbId == found.value.loadBalancerId
          && var existing := ListenersLookup(remote, |afterLb|, held, lbId);
             && mid == afterLb + ListenersLookupCalls(held, lbId)
             && heldAfter == ListenersCacheAfter(remote, |afterLb|, held, lbId)
             && (existing.Err? ==> err == Some(existing.error) && after == mid)
             && (existing.Ok? ==>
                   && listeners == existing.value
                   && (err.None? ==> after == mid + ListenerCalls(lbId, listeners, service))
                   && (err.Some? ==> Stopped(mid, after, ListenerCalls(lbId, listeners, service)))
                   && RunEnded(remote, after, |mid|, err)))
  }

  /** `ensureLoadBalancerListeners`: find the balancer and its listeners,
      returning any lookup error, then make the listener plan. `lbId` and
      `listeners` are what the lookups found and `mid` the call log after
      them. The run is recorded in the trace. */
  method EnsureListeners(cloud: Cloud, service: Service)
    returns (err: Option<Error>, ghost lbId: string, ghost listeners: seq<Listener>, ghost mid: seq<ApiCall>)
    requires NameDefined(cloud.txConfig, service)
    modifies cloud`calls, cloud`clbByName, cloud`clbListeners, cloud`trace
    ensures ListenersRan(cloud.remote, cloud.txConfig, service, old(cloud.calls), old(cloud.clbByName), old(cloud.clbListeners),
                         cloud.calls, cloud.clbByName, cloud.clbListeners, err, lbId, listeners, mid)
    ensures ReadsOnly(old(cloud.calls), mid) && mid <= cloud.calls
    ensures cloud.trace == old(cloud.trace) + [PhaseRun(ListenersPhase, old(cloud.State()), cloud.State(), err, PhaseFindings(lbId, listeners, [], [], mid, false))]
  {
    lbId, listeners := "", [];
    var name := LoadBalancerName(cloud.txConfig, service);
    var found := GetLoadBalancer(cloud, name, service);
    mid := cloud.calls;
    if found.Err? {
      err := Some(found.error);
    } else {
      var id := found.value.loadBalancerId;
      lbId := id;
      var existing := GetListeners(cloud, id);
      ReadsOnlyTrans(old(cloud.calls), mid, cloud.calls);
      mid := cloud.calls;
      if existing.Err? {
        err := Some(existing.error);
      } else {
        listeners := existing.value;
        err := ApplyListenerPlan(cloud, id, existing.value, service);
      }
    }
    cloud.Record(ListenersPhase, old(cloud.State()), err, PhaseFindings(lbId, listeners, [], [], mid, false));
  }

  // ---------------------------------------------------------------------
  // Backend phase, after the lookups

  /** One step of a run made of parts: `done` made before, `part` now,
      together `next`, which starts the whole plan `all`. */
  lemma StepOutcome(start: seq<ApiCall>, mid: seq<ApiCall>, after: seq<ApiCall>, err: Option<Error>,
                    done: seq<ApiCall>, part: seq<ApiCall>, next: seq<ApiCall>, all: seq<ApiCall>)
    requires mid == start + done && next == done + part && next <= all
    requires err.None? ==> after == mid + part
    requires err.Some? ==> Stopped(mid, after, part)
    ensures err.None? ==> after == start + next
    ensures err.Some? ==> Stopped(start, after, all)
  {
    if err.Some? {
      StoppedAfter(start, done, after, part);
      StoppedWithin(start, after, next, all);
    }
  }

  /** The deregistrations of one served port: its listener's targets that
      no instance accounts for, in groups of 20. */
  method DeregisterPort(cloud: Cloud, lbId: string, forward: seq<ListenerBackend>, instances: seq<Instance>, p: ServicePort)
    returns (err: Option<Error>)
    requires FirstBackend(forward, p).Some?
    modifies cloud`calls
    ensures err.None? ==> cloud.calls == old(cloud.calls) + PortDeregistrations(lbId, forward, instances, p)
    ensures err.Some? ==> Stopped(old(cloud.calls), cloud.calls, PortDeregistrations(lbId, forward, instances, p))
    ensures RunEnded(cloud.remote, cloud.calls, |old(cloud.calls)|, err)
  {
    var listener := FirstBackend(forward, p).value;
    var toDelete := CollectDeregister(listener.targets, instances, p.nodePort);
    err := SendBatches(cloud, lbId, listener.listenerId, toDelete, false);
  }

  /** The registrations of one served port: the instances its listener
      does not yet have, in groups of 20. */
  method RegisterPort(cloud: Cloud, lbId: string, forward: seq<ListenerBackend>, instances: seq<Instance>, p: ServicePort)
    returns (err: Option<Error>)
    requires FirstBackend(forward, p).Some?
    modifies cloud`calls
    ensures err.None? ==> cloud.calls == old(cloud.calls) + PortRegistrations(lbId, forward, instances, p)
    ensures err.Some? ==> Stopped(old(cloud.calls), cloud.calls, PortRegistrations(lbId, forward, instances, p))
    ensures RunEnded(cloud.remote, cloud.calls, |old(cloud.calls)|, err)
  {
    var listener := FirstBackend(forward, p).value;
    var toAdd := CollectRegister(instances, listener.targets, p.nodePort);
    err := SendBatches(cloud, lbId, listener.listenerId, toAdd, true);
  }

  lemma DeregistrationsStep(lbId: string, forward: seq<ListenerBackend>, instances: seq<Instance>, ports: seq<ServicePort>, j: nat)
    requires j < |ports|
    ensures Deregistrations(lbId, forward, instances, ports[..j + 1])
            == Deregistrations(lbId, forward, instances, ports[..j]) + PortDeregistrations(lbId, forward, instances, ports[j])
  {
    assert ports[..j + 1][..j] == ports[..j];
  }

  lemma RegistrationsStep(lbId: string, forward: seq<ListenerBackend>, instances: seq<Instance>, ports: seq<ServicePort>, k: nat)
    requires k < |ports|
    ensures Registrations(lbId, forward, instances, ports[..k + 1])
            == Registrations(lbId, forward, instances, ports[..k]) + PortRegistrations(lbId, forward, instances, ports[k])
  {
    assert ports[..k + 1][..k] == ports[..k];
  }

  /** One pass of the first port loop, for port `j` after the ports before
      it: a port no listener serves is an error, otherwise its
      deregistrations. */
  method DeregisterNext(cloud: Cloud, lbId: string, forward: seq<ListenerBackend>, instances: seq<Instance>,
                        ports: seq<ServicePort>, j: nat, ghost start: seq<ApiCall>)
    returns (err: Option<Error>)
    requires j < |ports| && j <= FirstUnserved(forward, ports)
    requires cloud.calls == start + Deregistrations(lbId, forward, instances, ports[..j])
    requires WentThrough(cloud.remote, cloud.calls, |start|, |cloud.calls|)
    modifies cloud`calls
    ensures err.None? ==>
      j < FirstUnserved(forward, ports) && cloud.calls == start + Deregistrations(lbId, forward, instances, ports[..j + 1])
    ensures err.Some? ==>
      || (FirstUnserved(forward, ports) == j && err == Some(NoListenerForPort) && cloud.calls == start + Removals(lbId, forward, instances, ports))
      || Stopped(start, cloud.calls, Removals(lbId, forward, instances, ports))
    ensures RunEnded(cloud.remote, cloud.calls, |start|, err)
  {
    var served := FirstBackend(forward, ports[j]).Some?;
    if !served {
      return Some(NoListenerForPort);
    }
    ghost var mid := cloud.calls;
    err := DeregisterPort(cloud, lbId, forward, instances, ports[j]);
    DeregisterOutcome(start, mid, cloud.calls, err, lbId, forward, instances, ports, j);
    RunJoined(cloud.remote, mid, cloud.calls, |start|, err);
  }

  lemma DeregisterOutcome(start: seq<ApiCall>, mid: seq<ApiCall>, after: seq<ApiCall>, err: Option<Error>,
                          lbId: string, forward: seq<ListenerBackend>, instances: seq<Instance>, ports: seq<ServicePort>, j: nat)
    requires j < FirstUnserved(forward, ports)
    requires mid == start + Deregistrations(lbId, forward, instances, ports[..j])
    requires err.None? ==> after == mid + PortDeregistrations(lbId, forward, instances, ports[j])
    requires err.Some? ==> Stopped(mid, after, PortDeregistrations(lbId, forward, instances, ports[j]))
    ensures err.None? ==> after == start + Deregistrations(lbId, forward, instances, ports[..j + 1])
    ensures err.Some? ==> Stopped(start, after, Removals(lbId, forward, instances, ports))
  {
    DeregistrationsStep(lbId, forward, instances, ports, j);
    DeregistrationsGrow(lbId, forward, instances, ports, j + 1);
    StepOutcome(start, mid, after, err, Deregistrations(lbId, forward, instances, ports[..j]),
                PortDeregistrations(lbId, forward, instances, ports[j]),
                Deregistrations(lbId, forward, instances, ports[..j + 1]), Removals(lbId, forward, instances, ports));
  }

  /** The first port loop of `ensureLoadBalancerBackends`: port by port,
      deregister the targets no instance accounts for; a port no listener
      serves stops the loop with an error. */
  method DeregisterPorts(cloud: Cloud, lbId: string, forward: seq<ListenerBackend>, instances: seq<Instance>, ports: seq<ServicePort>)
    returns (err: Option<Error>)
    modifies cloud`calls
    ensures err.None? ==>
      FirstUnserved(forward, ports) == |ports| && cloud.calls == old(cloud.calls) + Removals(lbId, forward, instances, ports)
    ensures err.Some? ==>
      || (FirstUnserved(forward, ports) < |ports| && err == Some(NoListenerForPort)
          && cloud.calls == old(cloud.calls) + Removals(lbId, forward, instances, ports))
      || Stopped(old(cloud.calls), cloud.calls, Removals(lbId, forward, instances, ports))
    ensures RunEnded(cloud.remote, cloud.calls, |old(cloud.calls)|, err)
  {
    ghost var start := cloud.calls;
    var j := 0;
    while j < |ports|
      invariant 0 <= j <= |ports| && j <= FirstUnserved(forward, ports)
      invariant cloud.calls == start + Deregistrations(lbId, forward, instances, ports[..j])
      invariant WentThrough(cloud.remote, cloud.calls, |start|, |cloud.calls|)
    {
      err := DeregisterNext(cloud, lbId, forward, instances, ports, j, start);
      if err.Some? {
        return;
      }
      j := j + 1;
    }
    assert ports[..|ports|] == ports;
    err := None;
  }

  /** One pass of the second port loop, for port `k` after the ports
      before it. */
  method RegisterNext(cloud: Cloud, lbId: string, forward: seq<ListenerBackend>, instances: seq<Instance>,
                      ports: seq<ServicePort>, k: nat, ghost start: seq<ApiCall>)
    returns (err: Option<Error>)
    requires k < |ports|
    requires cloud.calls == start + Registrations(lbId, forward, instances, ports[..k])
    requires WentThrough(cloud.remote, cloud.calls, |start|, |cloud.calls|)
    modifies cloud`calls
    ensures err.None? ==> cloud.calls == start + Registrations(lbId, forward, instances, ports[..k + 1])
    ensures err.Some? ==>
      || (FirstUnserved(forward, ports) < |ports| && err == Some(NoListenerForPort))
      || Stopped(start, cloud.calls, Registrations(lbId, forward, instances, ports))
    ensures RunEnded(cloud.remote, cloud.calls, |start|, err)
  {
    var served := FirstBackend(forward, ports[k]).Some?;
    if !served {
      assert FirstUnserved(forward, ports) <= k;
      return Some(NoListenerForPort);
    }
    ghost var mid := cloud.calls;
    err := RegisterPort(cloud, lbId, forward, instances, ports[k]);
    RegisterOutcome(start, mid, cloud.calls, err, lbId, forward, instances, ports, k);
    RunJoined(cloud.remote, mid, cloud.calls, |start|, err);
  }

  lemma RegisterOutcome(start: seq<ApiCall>, mid: seq<ApiCall>, after: seq<ApiCall>, err: Option<Error>,
                        lbId: string, forward: seq<ListenerBackend>, instances: seq<Instance>, ports: seq<ServicePort>, k: nat)
    requires k < |ports|
    requires mid == start + Registrations(lbId, forward, instances, ports[..k])
    requires err.None? ==> after == mid + PortRegistrations(lbId, forward, instances, ports[k])
    requires err.Some? ==> Stopped(mid, after, PortRegistrations(lbId, forward, instances, ports[k]))
    ensures err.None? ==> after == start + Registrations(lbId, forward, instances, ports[..k + 1])
    ensures err.Some? ==> Stopped(start, after, Registrations(lbId, forward, instances, ports))
  {
    RegistrationsStep(lbId, forward, instances, ports, k);
    RegistrationsPrefix(lbId, forward, instances, ports, k + 1);
    StepOutcome(start, mid, after, err, Registrations(lbId, forward, instances, ports[..k]),
                PortRegistrations(lbId, forward, instances, ports[k]),
                Registrations(lbId, forward, instances, ports[..k + 1]), Registrations(lbId, forward, instances, ports));
  }

  /** The second port loop: port by port, register the instances not yet
      registered. The source checks again for a serving listener; after a
      successful first loop that check cannot fail. */
  method RegisterPorts(cloud: Cloud, lbId: string, forward: seq<ListenerBackend>, instances: seq<Instance>, ports: seq<ServicePort>)
    returns (err: Option<Error>)
    modifies cloud`calls
    ensures err.None? ==> cloud.calls == old(cloud.calls) + Registrations(lbId, forward, instances, ports)
    ensures err.Some? ==>
      || (FirstUnserved(forward, ports) < |ports| && err == Some(NoListenerForPort))
      || Stopped(old(cloud.calls), cloud.calls, Registrations(lbId, forward, instances, ports))
    ensures RunEnded(cloud.remote, cloud.calls, |old(cloud.calls)|, err)
  {
    ghost var start := cloud.calls;
    var k := 0;
    while k < |ports|
      invariant 0 <= k <= |ports|
      invariant cloud.calls == start + Registrations(lbId, forward, instances, ports[..k])
      invariant WentThrough(cloud.remote, cloud.calls, |start|, |cloud.calls|)
    {
      err := RegisterNext(cloud, lbId, forward, instances, ports, k, start);
      if err.Some? {
        return;
      }
      k := k + 1;
    }
    assert ports[..|ports|] == ports;
    err := None;
  }

  /** Both port loops of `ensureLoadBalancerBackends`: every deregistration
      of every port, then every registration; an unserved port stops the
      run after the deregistrations of the ports before it. */
  method SyncBackends(cloud: Cloud, lbId: string, forward: seq<ListenerBackend>, instances: seq<Instance>, ports: seq<ServicePort>)
    returns (err: Option<Error>)
    modifies cloud`calls
    ensures err.None? ==>
      FirstUnserved(forward, ports) == |ports| && cloud.calls == old(cloud.calls) + BackendPlan(lbId, forward, instances, ports)
    ensures err.Some? ==>
      || (FirstUnserved(forward, ports) < |ports| && err == Some(NoListenerForPort)
          && cloud.calls == old(cloud.calls) + BackendPlan(lbId, forward, instances, ports))
      || Stopped(old(cloud.calls), cloud.calls, BackendPlan(lbId, forward, instances, ports))
    ensures RunEnded(cloud.remote, cloud.calls, |old(cloud.calls)|, err)
  {
    ghost var start := cloud.calls;
    err := DeregisterPorts(cloud, lbId, forward, instances, ports);
    if err.Some? {
      RemovalsFailed(start, cloud.calls, err, lbId, forward, instances, ports);
      return;
    }
    ghost var mid := cloud.calls;
    err := RegisterPorts(cloud, lbId, forward, instances, ports);
    AdditionsOutcome(start, mid, cloud.calls, err, lbId, forward, instances, ports);
    RunJoined(cloud.remote, mid, cloud.calls, |start|, err);
  }

  /** A failed first port loop is a failed backend phase. */
  lemma RemovalsFailed(start: seq<ApiCall>, after: seq<ApiCall>, err: Option<Error>,
                       lbId: string, forward: seq<ListenerBackend>, instances: seq<Instance>, ports: seq<ServicePort>)
    requires
      || (FirstUnserved(forward, ports) < |ports| && err == Some(NoListenerForPort)
          && after == start + Removals(lbId, forward, instances, ports))
      || Stopped(start, after, Removals(lbId, forward, instances, ports))
    ensures
      || (FirstUnserved(forward, ports) < |ports| && err == Some(NoListenerForPort)
          && after == start + BackendPlan(lbId, forward, instances, ports))
      || Stopped(start, after, BackendPlan(lbId, forward, instances, ports))
  {
    var removals := Removals(lbId, forward, instances, ports);
    var plan := BackendPlan(lbId, forward, instances, ports);
    assert plan == removals + Additions(lbId, forward, instances, ports);
    if FirstUnserved(forward, ports) < |ports| {
      assert plan == removals;
    } else {
      StoppedWithin(start, after, removals, plan);
    }
  }

  /** After a complete first port loop, the second one completes the
      backend phase or stops inside it. */
  lemma AdditionsOutcome(start: seq<ApiCall>, mid: seq<ApiCall>, after: seq<ApiCall>, err: Option<Error>,
                         lbId: string, forward: seq<ListenerBackend>, instances: seq<Instance>, ports: seq<ServicePort>)
    requires FirstUnserved(forward, ports) == |ports|
    requires mid == start + Removals(lbId, forward, instances, ports)
    requires err.None? ==> after == mid + Registrations(lbId, forward, instances, ports)
    requires err.Some? ==>
      || (FirstUnserved(forward, ports) < |ports| && err == Some(NoListenerForPort))
      || Stopped(mid, after, Registrations(lbId, forward, instances, ports))
    ensures err.None? ==> after == start + BackendPlan(lbId, forward, instances, ports)
    ensures err.Some? ==> Stopped(start, after, BackendPlan(lbId, forward, instances, ports))
  {
    var removals := Removals(lbId, forward, instances, ports);
    var additions := Registrations(lbId, forward, instances, ports);
    var plan := BackendPlan(lbId, forward, instances, ports);
    assert plan == removals + additions;
    StepOutcome(start, mid, after, err, removals, additions, plan, plan);
  }

  /** The deregistrations of a prefix of the ports start the removals. */
  lemma {:induction false} DeregistrationsGrow(lbId: string, forward: seq<ListenerBackend>, instances: seq<Instance>, ports: seq<ServicePort>, j: nat)
    requires j <= |ports|
    requires j <= FirstUnserved(forward, ports)
    ensures Deregistrations(lbId, forward, instances, ports[..j]) <= Removals(lbId, forward, instances, ports)
  {
    var j0 := FirstUnserved(forward, ports);
    assert j <= j0;
    DeregistrationsPrefix(lbId, forward, instances, ports[..j0], j);
    assert ports[..j0][..j] == ports[..j];
  }

  lemma {:induction false} DeregistrationsPrefix(lbId: string, forward: seq<ListenerBackend>, instances: seq<Instance>, ports: seq<ServicePort>, j: nat)
    requires j <= |ports|
    ensures Deregistrations(lbId, forward, instances, ports[..j]) <= Deregistrations(lbId, forward, instances, ports)
    decreases |ports|
  {
    if j < |ports| {
      var init := ports[..|ports| - 1];
      DeregistrationsPrefix(lbId, forward, instances, init, j);
      assert init[..j] == ports[..j];
    } else {
      assert ports[..j] == ports;
    }
  }

  /** The registrations of a prefix of the ports start all registrations. */
  lemma {:induction false} RegistrationsPrefix(lbId: string, forward: seq<ListenerBackend>, instances: seq<Instance>, ports: seq<ServicePort>, k: nat)
    requires k <= |ports|
    ensures Registrations(lbId, forward, instances, ports[..k]) <= Registrations(lbId, forward, instances, ports)
    decreases |ports|
  {
    if k < |ports| {
      var init := ports[..|ports| - 1];
      RegistrationsPrefix(lbId, forward, instances, init, k);
      assert init[..k] == ports[..k];
    } else {
      assert ports[..k] == ports;
    }
  }

  // ---------------------------------------------------------------------
  // Backend phase

  /** The instances the backend phase works with: what the lookup by
      private IP returns for the selected node names `ips`, made after `n`
      earlier calls on the `vm_ip_` cache `cache`, kept only when of the
      configured VPC. */
  function NodesFound(remote: Remote, n: nat, cache: map<string, Instance>, vpcId: string, ips: seq<string>): seq<Instance>
  {
    var wanted := Wanted(ips, cache);
    InVpc(CachedHits(ips, cache) + Gathered(remote, n, Batches(wanted, IpBatch), vpcId, wanted), vpcId)
  }

  /** What `ensureLoadBalancerBackends` does, from the call log `before` and
      the caches `clb` and `vm` to the log `after`, the caches `clbAfter`
      and `vmAfter` and the error `err`. `lbId`, `instances` and `forward`
      are what its lookups found, `mid` the log once they are done, and
      `read` says whether they all succeeded. The balancer lookup's error is
      returned with nothing else done; once the balancer is found, the rest
      is `BackendsFound` from the log after that lookup. */
  ghost predicate BackendsRan(remote: Remote, config: TxCloudConfig, service: Service, nodes: seq<Node>,
                              before: seq<ApiCall>, clb: map<string, LoadBalancer>, vm: map<string, Instance>,
                              after: seq<ApiCall>, clbAfter: map<string, LoadBalancer>, vmAfter: map<string, Instance>,
                              err: Option<Error>, lbId: string, forward: seq<ListenerBackend>, instances: seq<Instance>,
                              mid: seq<ApiCall>, read: bool)
    requires NameDefined(config, service)
  {
    var name := LoadBalancerName(config, service);
    var found := LbLookup(remote, |before|, clb, name, service);
    var afterLb := before + LbLookupCalls(clb, name, service);
    && clbAfter == LbCacheAfter(remote, |before|, clb, name, service)
    && ReadsOnly(before, mid) && mid <= after
    && (found.Err? ==> err == Some(found.error) && after == afterLb && mid == afterLb && !read && vmAfter == vm)
    && (found.Ok? ==>
          && lbId == found.value.loadBalancerId
          && BackendsFound(remote, config, service, nodes, afterLb, vm, after, vmAfter, err, lbId, forward, instances, mid, read))
  }

  /** What the backend phase does once the balancer `lbId` is found, from
      the log `before` and the `vm_ip_` cache `vm`: no selected node is an
      error with no call; a failed instance lookup or target read is
      returned with the failed call last; after the lookups comes the
      backend plan, whole or stopped. */
  ghost predicate BackendsFound(remote: Remote, config: TxCloudConfig, service: Service, nodes: seq<Node>,
                                before: seq<ApiCall>, vm: map<string, Instance>,
                                after: seq<ApiCall>, vmAfter: map<string, Instance>,
                                err: Option<Error>, lbId: string, forward: seq<ListenerBackend>, instances: seq<Instance>,
                                mid: seq<ApiCall>, read: bool)
  {
    var ips := SelectedNames(nodes, NodeLabelKey(service), NodeLabelValue(service));
    var wanted := Wanted(ips, vm);
    var groups := Batches(wanted, IpBatch);
    && (ips == [] ==>
          && err == Some(NoNodesForLabel(NodeLabelKey(service), NodeLabelValue(service)))
          && after == before && mid == before && !read && vmAfter == vm)
    && (ips != [] && !read ==>
          && err.Some? && after == mid && LastCallFailed(remote, after, err.value)
          && (Stopped(before, after, IpCalls(groups)) || after == before + IpCalls(groups) + [DescribeTargets(lbId)]))
    && (read ==>
          && ips != []
          && AllAnswered(remote, |before|, groups)
          && instances == NodesFound(remote, |before|, vm, config.vpcId, ips)
          && vmAfter == GatheredCache(vm, remote, |before|, groups, config.vpcId, wanted)
          && mid == before + IpCalls(groups) + [DescribeTargets(lbId)]
          && forward == remote.answer(|mid| - 1, DescribeTargets(lbId)).backends
          && (err.None? ==>
                FirstUnserved(forward, service.ports) == |service.ports|
                && after == mid + BackendPlan(lbId, forward, instances, service.ports))
          && (err.Some? ==>
                || (FirstUnserved(forward, service.ports) < |service.ports| && err == Some(NoListenerForPort)
                    && after == mid + BackendPlan(lbId, forward, instances, service.ports))
                || Stopped(mid, after, BackendPlan(lbId, forward, instances, service.ports)))
          && RunEnded(remote, after, |mid|, err))
  }

  /** The backend phase when the balancer lookup fails. */
  lemma BackendsLookupFailed(remote: Remote, config: TxCloudConfig, service: Service, nodes: seq<Node>,
                             before: seq<ApiCall>, clb: map<string, LoadBalancer>, vm: map<string, Instance>,
                             after: seq<ApiCall>, clbAfter: map<string, LoadBalancer>, err: Option<Error>)
    requires NameDefined(config, service)
    requires var found := LbLookup(remote, |before|, clb, LoadBalancerName(config, service), service);
             found.Err? && err == Some(found.error)
    requires after == before + LbLookupCalls(clb, LoadBalancerName(config, service), service)
    requires clbAfter == LbCacheAfter(remote, |before|, clb, LoadBalancerName(config, service), service)
    requires ReadsOnly(before, after)
    ensures BackendsRan(remote, config, service, nodes, before, clb, vm, after, clbAfter, vm, err, "", [], [], after, false)
  {
  }

  /** The backend phase once the balancer lookup succeeds. */
  lemma BackendsFoundRan(remote: Remote, config: TxCloudConfig, service: Service, nodes: seq<Node>,
                         before: seq<ApiCall>, clb: map<string, LoadBalancer>, vm: map<string, Instance>,
                         afterLb: seq<ApiCall>, after: seq<ApiCall>,
                         clbAfter: map<string, LoadBalancer>, vmAfter: map<string, Instance>,
                         err: Option<Error>, lbId: string, forward: seq<ListenerBackend>, instances: seq<Instance>,
                         mid: seq<ApiCall>, read: bool)
    requires NameDefined(config, service)
    requires var found := LbLookup(remote, |before|, clb, LoadBalancerName(config, service), service);
             found.Ok? && lbId == found.value.loadBalancerId
    requires afterLb == before + LbLookupCalls(clb, LoadBalancerName(config, service), service)
    requires clbAfter == LbCacheAfter(remote, |before|, clb, LoadBalancerName(config, service), service)
    requires ReadsOnly(before, mid) && mid <= after
    requires BackendsFound(remote, config, service, nodes, afterLb, vm, after, vmAfter, err, lbId, forward, instances, mid, read)
    ensures BackendsRan(remote, config, service, nodes, before, clb, vm, after, clbAfter, vmAfter, err, lbId, forward, instances, mid, read)
  {
  }

  /** `ensureLoadBalancerBackends`: find the balancer, select the nodes that
      carry the label (none is an error), look up their instances by
      private IP, keep those of the configured VPC, read the balancer's
      targets, and run both port loops. The run is recorded in the trace. */
  method EnsureBackends(cloud: Cloud, service: Service, nodes: seq<Node>)
    returns (err: Option<Error>, ghost lbId: string, ghost forward: seq<ListenerBackend>,
             ghost instances: seq<Instance>, ghost mid: seq<ApiCall>, ghost read: bool)
    requires NameDefined(cloud.txConfig, service)
    modifies cloud`calls, cloud`clbByName, cloud`vmByIp, cloud`trace
    ensures BackendsRan(cloud.remote, cloud.txConfig, service, nodes,
                        old(cloud.calls), old(cloud.clbByName), old(cloud.vmByIp),
                        cloud.calls, cloud.clbByName, cloud.vmByIp, err, lbId, forward, instances, mid, read)
    ensures forall x :: x in instances ==> x.vpcId == cloud.txConfig.vpcId
    ensures old(VmCacheSound(cloud)) ==>
              && VmCacheSound(cloud)
              && forall x :: x in instances ==>
                   exists k :: 0 <= k < |x.privateIps| && x.privateIps[k] in SelectedNames(nodes, NodeLabelKey(service), NodeLabelValue(service))
    ensures cloud.trace == old(cloud.trace) + [PhaseRun(BackendsPhase, old(cloud.State()), cloud.State(), err, PhaseFindings(lbId, [], forward, instances, mid, read))]
  {
    lbId, forward, instances, read := "", [], [], false;
    ghost var before, clb, vm := cloud.calls, cloud.clbByName, cloud.vmByIp;
    ghost var remote, config := cloud.remote, cloud.txConfig;
    var name := LoadBalancerName(cloud.txConfig, service);
    var found := GetLoadBalancer(cloud, name, service);
    mid := cloud.calls;
    if found.Err? {
      err := Some(found.error);
      BackendsLookupFailed(remote, config, service, nodes, before, clb, vm, cloud.calls, cloud.clbByName, err);
    } else {
      lbId := found.value.loadBalancerId;
      ghost var afterLb := cloud.calls;
      err, forward, instances, mid, read := BackendsOf(cloud, service, nodes, found.value.loadBalancerId);
      ReadsOnlyTrans(before, afterLb, mid);
      BackendsFoundRan(remote, config, service, nodes, before, clb, vm, afterLb, cloud.calls, cloud.clbByName, cloud.vmByIp,
                       err, lbId, forward, instances, mid, read);
    }
    cloud.Record(BackendsPhase, old(cloud.State()), err, PhaseFindings(lbId, [], forward, instances, mid, read));
  }

  /** The backend phase once the balancer `lbId` is found: its nodes'
      instances, then its targets. */
  method BackendsOf(cloud: Cloud, service: Service, nodes: seq<Node>, lbId: string)
    returns (err: Option<Error>, ghost forward: seq<ListenerBackend>, ghost instances: seq<Instance>,
             ghost mid: seq<ApiCall>, ghost read: bool)
    modifies cloud`calls, cloud`vmByIp
    ensures ReadsOnly(old(cloud.calls), mid) && mid <= cloud.calls
    ensures BackendsFound(cloud.remote, cloud.txConfig, service, nodes, old(cloud.calls), old(cloud.vmByIp),
                          cloud.calls, cloud.vmByIp, err, lbId, forward, instances, mid, read)
    ensures forall x :: x in instances ==> x.vpcId == cloud.txConfig.vpcId
    ensures old(VmCacheSound(cloud)) ==>
              && VmCacheSound(cloud)
              && forall x :: x in instances ==>
                   exists k :: 0 <= k < |x.privateIps| && x.privateIps[k] in SelectedNames(nodes, NodeLabelKey(service), NodeLabelValue(service))
  {
    forward, instances, read := [], [], false;
    var nodeInstances := NodeInstances(cloud, service, nodes);
    mid := cloud.calls;
    if nodeInstances.Err? {
      err := Some(nodeInstances.error);
      return;
    }
    instances := nodeInstances.value;
    ghost var afterNodes := cloud.calls;
    err, forward, mid, read := SyncTargets(cloud, lbId, nodeInstances.value, service.ports);
    ReadsOnlyTrans(old(cloud.calls), afterNodes, mid);
  }

  /** The target half of the backend phase: read the balancer's targets,
      then run both port loops against them. */
  method SyncTargets(cloud: Cloud, lbId: string, instances: seq<Instance>, ports: seq<ServicePort>)
    returns (err: Option<Error>, ghost forward: seq<ListenerBackend>, ghost mid: seq<ApiCall>, ghost read: bool)
    modifies cloud`calls
    ensures ReadsOnly(old(cloud.calls), mid) && mid <= cloud.calls
    ensures mid == old(cloud.calls) + [DescribeTargets(lbId)]
    ensures !read ==> err.Some? && cloud.calls == mid && LastCallFailed(cloud.remote, cloud.calls, err.value)
    ensures read ==> forward == cloud.remote.answer(|old(cloud.calls)|, DescribeTargets(lbId)).backends
    ensures read ==>
              && (err.None? ==>
                    && FirstUnserved(forward, ports) == |ports|
                    && cloud.calls == mid + BackendPlan(lbId, forward, instances, ports))
              && (err.Some? ==>
                    || (FirstUnserved(forward, ports) < |ports| && err == Some(NoListenerForPort)
                        && cloud.calls == mid + BackendPlan(lbId, forward, instances, ports))
                    || Stopped(mid, cloud.calls, BackendPlan(lbId, forward, instances, ports)))
              && RunEnded(cloud.remote, cloud.calls, |mid|, err)
  {
    forward, read := [], false;
    var reply := cloud.Invoke(DescribeTargets(lbId));
    mid := cloud.calls;
    ReadsOnlyOne(old(cloud.calls), old(cloud.calls), mid, DescribeTargets(lbId));
    if reply.error.Some? {
      return Some(Sdk(reply.error.value)), forward, mid, read;
    }
    forward, read := reply.backends, true;
    err := SyncBackends(cloud, lbId, reply.backends, instances, ports);
  }

  /** The node half of the backend phase: the names of the nodes carrying
      the label (none is an error, with no call), their instances by
      private IP, and of those the ones of the configured VPC. */
  method NodeInstances(cloud: Cloud, service: Service, nodes: seq<Node>) returns (r: Result<seq<Instance>, Error>)
    modifies cloud`calls, cloud`vmByIp
    ensures ReadsOnly(old(cloud.calls), cloud.calls)
    ensures var ips := SelectedNames(nodes, NodeLabelKey(service), NodeLabelValue(service));
            var wanted := Wanted(ips, old(cloud.vmByIp));
            var groups := Batches(wanted, IpBatch);
            && (ips == [] ==>
                  && r == Err(NoNodesForLabel(NodeLabelKey(service), NodeLabelValue(service)))
                  && cloud.calls == old(cloud.calls) && cloud.vmByIp == old(cloud.vmByIp))
            && (ips != [] && r.Ok? ==>
                  && AllAnswered(cloud.remote, |old(cloud.calls)|, groups)
                  && cloud.calls == old(cloud.calls) + IpCalls(groups)
                  && r.value == NodesFound(cloud.remote, |old(cloud.calls)|, old(cloud.vmByIp), cloud.txConfig.vpcId, ips)
                  && cloud.vmByIp == GatheredCache(old(cloud.vmByIp), cloud.remote, |old(cloud.calls)|, groups, cloud.txConfig.vpcId, wanted))
            && (ips != [] && r.Err? ==>
                  Stopped(old(cloud.calls), cloud.calls, IpCalls(groups)) && LastCallFailed(cloud.remote, cloud.calls, r.error))
    ensures r.Ok? ==> forall x :: x in r.value ==> x.vpcId == cloud.txConfig.vpcId
    ensures old(VmCacheSound(cloud)) ==>
              && VmCacheSound(cloud)
              && (r.Ok? ==> forall x :: x in r.value ==>
                   exists k :: 0 <= k < |x.privateIps| && x.privateIps[k] in SelectedNames(nodes, NodeLabelKey(service), NodeLabelValue(service)))
  {
    var key, value := NodeLabelKey(service), NodeLabelValue(service);
    var ips := SelectNodeIps(nodes, key, value);
    if |ips| == 0 {
      return Err(NoNodesForLabel(key, value));
    }
    ghost var cache := cloud.vmByIp;
    ghost var start := cloud.calls;
    var many := GetInstancesByPrivateIps(cloud, ips);
    IpCallsReadOnly(Batches(Wanted(ips, cache), IpBatch));
    ReadsOnlyPlan(start, cloud.calls, IpCalls(Batches(Wanted(ips, cache), IpBatch)));
    if many.Err? {
      return Err(many.error);
    }
    LookupMembers(cloud, ips, cache, start, many.value);
    var kept := FilterVpc(many.value, cloud.txConfig.vpcId);
    KeptMembers(many.value, cloud.txConfig.vpcId, ips, old(VmCacheSound(cloud)));
    r := Ok(kept);
  }

  /** What the lookup by private IP returned, with a sound cache: instances
      of the VPC holding one of the IPs asked for. */
  lemma LookupMembers(cloud: Cloud, ips: seq<string>, cache: map<string, Instance>, start: seq<ApiCall>, found: seq<Instance>)
    requires found == CachedHits(ips, cache)
                      + Gathered(cloud.remote, |start|, Batches(Wanted(ips, cache), IpBatch), cloud.txConfig.vpcId, Wanted(ips, cache))
    ensures (forall ip :: ip in cache ==> cache[ip].vpcId == cloud.txConfig.vpcId && ip in cache[ip].privateIps) ==>
              forall x :: x in found ==> x.vpcId == cloud.txConfig.vpcId && exists k :: 0 <= k < |x.privateIps| && x.privateIps[k] in ips
  {
    if forall ip :: ip in cache ==> cache[ip].vpcId == cloud.txConfig.vpcId && ip in cache[ip].privateIps {
      ResultMembers(ips, cache, cloud.remote, |start|, cloud.txConfig.vpcId);
    }
  }

  /** The instances kept by the VPC filter are of the VPC, and keep what
      was known of the looked-up ones. */
  lemma KeptMembers(found: seq<Instance>, vpcId: string, ips: seq<string>, sound: bool)
    requires sound ==> forall x :: x in found ==> exists k :: 0 <= k < |x.privateIps| && x.privateIps[k] in ips
    ensures forall x :: x in InVpc(found, vpcId) ==> x.vpcId == vpcId
    ensures sound ==> forall x :: x in InVpc(found, vpcId) ==> exists k :: 0 <= k < |x.privateIps| && x.privateIps[k] in ips
  {
    forall x | x in InVpc(found, vpcId) ensures x in found && x.vpcId == vpcId {
      InVpcMembers(found, vpcId, x);
    }
  }
}
