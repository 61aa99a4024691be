/** The cloud-provider entry points of pkg/tencentcloud/loadbalancer.go:
    the status query, the three-phase reconcile, the backend-only update
    and the deletion. */
module LoadBalancerDriver {
  import opened Wrappers
  import opened Types
  import opened Remote
  import opened CloudProvider
  import opened ClbRules
  import opened BackendDiff
  import Instances
  import Tasks
  import Ops = LoadBalancerOps

  /** `v1.ServiceAffinityNone`, the only session affinity supported. */
  const AffinityNone := "None"

  /** The order of the reconcile's phases. */
  const PhaseOrder := [InstancePhase, ListenersPhase, BackendsPhase]

  /** The run `run` is what its phase's method does, from the state it
      started from to the one it left: `InstanceRan`, `ListenersRan` or
      `BackendsRan` over its calls and the caches that phase uses, with
      every cache the phase does not touch unchanged. */
  ghost predicate PhaseHeld(remote: Remote, config: TxCloudConfig, service: Service, nodes: seq<Node>, run: PhaseRun)
    requires NameDefined(config, service)
  {
    var b, a, f := run.before, run.after, run.findings;
    && a.vmById == b.vmById
    && match run.phase
       case InstancePhase =>
         && Ops.InstanceRan(remote, config, service, b.calls, b.clbByName, b.cacheDeletes, a.calls, a.clbByName, a.cacheDeletes, run.err)
         && a.clbListeners == b.clbListeners && a.vmByIp == b.vmByIp
       case ListenersPhase =>
         && Ops.ListenersRan(remote, config, service, b.calls, b.clbByName, b.clbListeners,
                             a.calls, a.clbByName, a.clbListeners, run.err, f.lbId, f.listeners, f.mid)
         && a.vmByIp == b.vmByIp && a.cacheDeletes == b.cacheDeletes
       case BackendsPhase =>
         && Ops.BackendsRan(remote, config, service, nodes, b.calls, b.clbByName, b.vmByIp,
                            a.calls, a.clbByName, a.vmByIp, run.err, f.lbId, f.forward, f.instances, f.mid, f.read)
         && a.clbListeners == b.clbListeners && a.cacheDeletes == b.cacheDeletes
  }

  /** The phase runs `runs` are a reconcile, from phase `first` of
      `PhaseOrder` on, that went from the state `from` to the state `to`
      and returned `err`: the phases in their order, each what its method
      does, each starting in the state the one before left and only after
      it succeeded, the last one's error returned, and every phase run when
      nothing failed. */
  ghost predicate RanInOrder(remote: Remote, config: TxCloudConfig, service: Service, nodes: seq<Node>,
                             runs: seq<PhaseRun>, first: nat, from: CloudState, to: CloudState, err: Option<Error>)
    requires NameDefined(config, service)
  {
    && first < |PhaseOrder|
    && 1 <= |runs| <= |PhaseOrder| - first
    && (forall i :: 0 <= i < |runs| ==> runs[i].phase == PhaseOrder[first + i])
    && (forall i :: 0 <= i < |runs| ==> PhaseHeld(remote, config, service, nodes, runs[i]))
    && runs[0].before == from
    && runs[|runs| - 1].after == to
    && (forall i :: 0 <= i < |runs| - 1 ==> runs[i].err.None? && runs[i].after == runs[i + 1].before)
    && runs[|runs| - 1].err == err
    && (err.None? ==> |runs| == |PhaseOrder| - first)
  }

  /** A successful phase followed by a run in order of the phases after it
      is a run in order. */
  lemma RanInOrderJoined(remote: Remote, config: TxCloudConfig, service: Service, nodes: seq<Node>,
                         head: PhaseRun, rest: seq<PhaseRun>, first: nat, to: CloudState, err: Option<Error>)
    requires NameDefined(config, service)
    requires first < |PhaseOrder| && head.phase == PhaseOrder[first] && head.err.None?
    requires PhaseHeld(remote, config, service, nodes, head)
    requires RanInOrder(remote, config, service, nodes, rest, first + 1, head.after, to, err)
    ensures RanInOrder(remote, config, service, nodes, [head] + rest, first, head.before, to, err)
  {
    var runs := [head] + rest;
    forall i | 0 <= i < |runs| ensures runs[i].phase == PhaseOrder[first + i] && PhaseHeld(remote, config, service, nodes, runs[i]) {
      if i > 0 {
        assert runs[i] == rest[i - 1];
      }
    }
    forall i | 0 <= i < |runs| - 1 ensures runs[i].err.None? && runs[i].after == runs[i + 1].before {
      if i > 0 {
        assert runs[i] == rest[i - 1] && runs[i + 1] == rest[i];
      }
    }
  }

  /** After a drift whose delete went through, the instance phase leaves
      the deleted balancer cached under its name (the create does not
      update the cache), so the listener phase that follows finds it with
      no call and works on the deleted balancer's id. */
  lemma ListenersSeeDeletedBalancer(remote: Remote, config: TxCloudConfig, service: Service, nodes: seq<Node>,
                                    inst: PhaseRun, lis: PhaseRun)
    requires NameDefined(config, service)
    requires inst.phase == InstancePhase && PhaseHeld(remote, config, service, nodes, inst)
    requires lis.phase == ListenersPhase && PhaseHeld(remote, config, service, nodes, lis)
    requires lis.before == inst.after
    requires var name := LoadBalancerName(config, service);
             var found := Ops.LbLookup(remote, |inst.before.calls|, inst.before.clbByName, name, service);
             && found.Ok?
             && NeedRecreate(service, config.vpcId, found.value) == Ok(true)
             && Tasks.MutationOutcome(remote, |inst.before.calls| + |Ops.LbLookupCalls(inst.before.clbByName, name, service)|,
                                ApiCall.DeleteLoadBalancer(found.value.loadBalancerId)).None?
    ensures var name := LoadBalancerName(config, service);
            var found := Ops.LbLookup(remote, |inst.before.calls|, inst.before.clbByName, name, service);
            && Ops.LbLookupCalls(lis.before.clbByName, name, service) == []
            && lis.findings.lbId == found.value.loadBalancerId
  {
    var name := LoadBalancerName(config, service);
    Ops.LbLookupSettles(remote, remote, |inst.before.calls|, |lis.before.calls|, inst.before.clbByName, name, service);
  }

  /** The status array fill: one ingress per VIP, in order. */
  method Ingresses(lb: LoadBalancer) returns (ingresses: seq<Ingress>)
    ensures |ingresses| == |lb.vips|
    ensures forall i :: 0 <= i < |lb.vips| ==> ingresses[i] == Ingress(lb.vips[i])
  {
    var a := new Ingress[|lb.vips|];
    for i := 0 to |lb.vips|
      invariant forall k :: 0 <= k < i ==> a[k] == Ingress(lb.vips[k])
    {
      a[i] := Ingress(lb.vips[i]);
    }
    ingresses := a[..];
  }

  /** `GetLoadBalancer`: one lookup by name. A balancer that is not there is
      reported as absent with no error; a failed lookup as absent with its
      error; a found one with its VIPs as ingresses. */
  method GetLoadBalancer(cloud: Cloud, service: Service)
    returns (status: Option<seq<Ingress>>, present: bool, err: Option<Error>)
    requires NameDefined(cloud.txConfig, service)
    modifies cloud`calls
    ensures var name := LoadBalancerName(cloud.txConfig, service);
            && cloud.calls == old(cloud.calls) + [GetLoadBalancerByName(name)]
            && match cloud.remote.byName(|old(cloud.calls)|, name)
               case Found(lb) =>
                 && present && err.None? && status.Some?
                 && |status.value| == |lb.vips|
                 && forall i :: 0 <= i < |lb.vips| ==> status.value[i] == Ingress(lb.vips[i])
               case Missing => !present && err.None? && status.None?
               case LookupFailed(m) => !present && err == Some(Sdk(m)) && status.None?
  {
    var name := LoadBalancerName(cloud.txConfig, service);
    var lookup := cloud.LookupByName(name);
    match lookup {
      case Missing =>
        return None, false, None;
      case LookupFailed(m) =>
        return None, false, Some(Sdk(m));
      case Found(lb) =>
        var ingresses := Ingresses(lb);
        return Some(ingresses), true, None;
    }
  }

  /** The status `r` the final lookup by name of `EnsureLoadBalancer`
      gives when it is the call after `n` earlier ones: the VIPs of the
      balancer found; one that is not there is an error here. */
  predicate StatusIs(remote: Remote, n: nat, name: string, r: Result<seq<Ingress>, Error>)
  {
    match remote.byName(n, name)
    case Found(lb) =>
      && r.Ok? && |r.value| == |lb.vips|
      && forall i :: 0 <= i < |lb.vips| ==> r.value[i] == Ingress(lb.vips[i])
    case Missing => r == Err(LoadBalancerNotFound)
    case LookupFailed(m) => r == Err(Sdk(m))
  }

  /** The final lookup of `EnsureLoadBalancer`. */
  method Status(cloud: Cloud, name: string) returns (r: Result<seq<Ingress>, Error>)
    modifies cloud`calls
    ensures cloud.calls == old(cloud.calls) + [GetLoadBalancerByName(name)]
    ensures StatusIs(cloud.remote, |old(cloud.calls)|, name, r)
  {
    var lookup := cloud.LookupByName(name);
    match lookup {
      case Missing =>
        return Err(LoadBalancerNotFound);
      case LookupFailed(m) =>
        return Err(Sdk(m));
      case Found(lb) =>
        var ingresses := Ingresses(lb);
        r := Ok(ingresses);
    }
  }

  /** One phase of the reconcile, recorded in the trace as the run `run`,
      which holds what the phase's own method states. */
  method RunPhase(cloud: Cloud, service: Service, nodes: seq<Node>, phase: Phase)
    returns (err: Option<Error>, ghost run: PhaseRun)
    requires NameDefined(cloud.txConfig, service)
    modifies cloud`calls, cloud`clbByName, cloud`clbListeners, cloud`cacheDeletes, cloud`vmByIp, cloud`trace
    ensures run.phase == phase && run.before == old(cloud.State()) && run.after == cloud.State() && run.err == err
    ensures PhaseHeld(cloud.remote, cloud.txConfig, service, nodes, run)
    ensures cloud.trace == old(cloud.trace) + [run]
  {
    match phase {
      case InstancePhase =>
        err := Ops.EnsureInstance(cloud, service);
        run := PhaseRun(phase, old(cloud.State()), cloud.State(), err, NoFindings);
      case ListenersPhase =>
        ghost var lbId, listeners, mid;
        err, lbId, listeners, mid := Ops.EnsureListeners(cloud, service);
        run := PhaseRun(phase, old(cloud.State()), cloud.State(), err, PhaseFindings(lbId, listeners, [], [], mid, false));
      case BackendsPhase =>
        ghost var lbId, forward, instances, mid, read;
        err, lbId, forward, instances, mid, read := Ops.EnsureBackends(cloud, service, nodes);
        run := PhaseRun(phase, old(cloud.State()), cloud.State(), err, PhaseFindings(lbId, [], forward, instances, mid, read));
    }
  }

  /** The three phases in order, each only after the one before
      succeeded; the first error ends the reconcile and is returned. */
  method RunPhases(cloud: Cloud, service: Service, nodes: seq<Node>) returns (err: Option<Error>)
    requires NameDefined(cloud.txConfig, service)
    modifies cloud`calls, cloud`clbByName, cloud`clbListeners, cloud`cacheDeletes, cloud`vmByIp, cloud`trace
    ensures old(cloud.trace) <= cloud.trace
    ensures RanInOrder(cloud.remote, cloud.txConfig, service, nodes, cloud.trace[|old(cloud.trace)|..], 0,
                       old(cloud.State()), cloud.State(), err)
  {
    ghost var t := cloud.trace;
    ghost var head;
    err, head := RunPhase(cloud, service, nodes, InstancePhase);
    if err.Some? {
      OneRunInOrder(cloud.remote, cloud.txConfig, service, nodes, t, cloud.trace, head, 0);
      return;
    }
    ghost var t1 := cloud.trace;
    err := RunLaterPhases(cloud, service, nodes);
    ghost var rest := cloud.trace[|t1|..];
    RanInOrderJoined(cloud.remote, cloud.txConfig, service, nodes, head, rest, 0, cloud.State(), err);
    assert cloud.trace == t + ([head] + rest);
    RunsInOrder(cloud.remote, cloud.txConfig, service, nodes, t, cloud.trace, [head] + rest, 0, head.before, cloud.State(), err);
  }

  /** The listener and backend phases, once the instance phase succeeded:
      the backends only after the listeners succeeded. */
  method RunLaterPhases(cloud: Cloud, service: Service, nodes: seq<Node>) returns (err: Option<Error>)
    requires NameDefined(cloud.txConfig, service)
    modifies cloud`calls, cloud`clbByName, cloud`clbListeners, cloud`cacheDeletes, cloud`vmByIp, cloud`trace
    ensures old(cloud.trace) <= cloud.trace
    ensures RanInOrder(cloud.remote, cloud.txConfig, service, nodes, cloud.trace[|old(cloud.trace)|..], 1,
                       old(cloud.State()), cloud.State(), err)
  {
    ghost var t := cloud.trace;
    ghost var second, third;
    err, second := RunPhase(cloud, service, nodes, ListenersPhase);
    if err.Some? {
      OneRunInOrder(cloud.remote, cloud.txConfig, service, nodes, t, cloud.trace, second, 1);
      return;
    }
    ghost var t1 := cloud.trace;
    err, third := RunPhase(cloud, service, nodes, BackendsPhase);
    TwoRunsInOrder(cloud.remote, cloud.txConfig, service, nodes, t, t1, cloud.trace, second, third);
  }

  /** A trace that grew by one failed phase run, or by the last phase's
      run, ends in a run in order. */
  lemma OneRunInOrder(remote: Remote, config: TxCloudConfig, service: Service, nodes: seq<Node>,
                      t: seq<PhaseRun>, trace: seq<PhaseRun>, run: PhaseRun, first: nat)
    requires NameDefined(config, service)
    requires first < |PhaseOrder| && run.phase == PhaseOrder[first]
    requires run.err.Some? || first == |PhaseOrder| - 1
    requires PhaseHeld(remote, config, service, nodes, run)
    requires trace == t + [run]
    ensures t <= trace && RanInOrder(remote, config, service, nodes, trace[|t|..], first, run.before, run.after, run.err)
  {
    RunsInOrder(remote, config, service, nodes, t, trace, [run], first, run.before, run.after, run.err);
  }

  /** A trace that grew by a successful listener run, then a backend run
      from where it ended, ends in a run in order from the listener phase. */
  lemma TwoRunsInOrder(remote: Remote, config: TxCloudConfig, service: Service, nodes: seq<Node>,
                       t: seq<PhaseRun>, t1: seq<PhaseRun>, trace: seq<PhaseRun>, second: PhaseRun, third: PhaseRun)
    requires NameDefined(config, service)
    requires second.phase == ListenersPhase && second.err.None? && PhaseHeld(remote, config, service, nodes, second)
    requires third.phase == BackendsPhase && PhaseHeld(remote, config, service, nodes, third)
    requires second.after == third.before
    requires t1 == t + [second] && trace == t1 + [third]
    ensures t <= trace && RanInOrder(remote, config, service, nodes, trace[|t|..], 1, second.before, third.after, third.err)
  {
    OneRunInOrder(remote, config, service, nodes, t1, trace, third, 2);
    RanInOrderJoined(remote, config, service, nodes, second, [third], 1, third.after, third.err);
    assert trace == t + ([second] + [third]);
    RunsInOrder(remote, config, service, nodes, t, trace, [second] + [third], 1, second.before, third.after, third.err);
  }

  /** A trace that grew by phase runs in order ends in a run in order. */
  lemma RunsInOrder(remote: Remote, config: TxCloudConfig, service: Service, nodes: seq<Node>,
                     t: seq<PhaseRun>, trace: seq<PhaseRun>, runs: seq<PhaseRun>, first: nat,
                     from: CloudState, to: CloudState, err: Option<Error>)
    requires NameDefined(config, service)
    requires trace == t + runs
    requires RanInOrder(remote, config, service, nodes, runs, first, from, to, err)
    ensures t <= trace && RanInOrder(remote, config, service, nodes, trace[|t|..], first, from, to, err)
  {
    assert trace[|t|..] == runs;
  }

  /** The state `st` without its last call. */
  function WithoutLastCall(st: CloudState): CloudState
    requires 0 < |st.calls|
  {
    st.(calls := st.calls[..|st.calls| - 1])
  }

  /** The reconcile `runs` took the state `from` to the state `to` and
      returned `r`: either a phase failed and its error is returned, or
      every phase succeeded and one lookup by name after them gives the
      status. */
  ghost predicate Reconciled(remote: Remote, config: TxCloudConfig, service: Service, nodes: seq<Node>,
                             runs: seq<PhaseRun>, from: CloudState, to: CloudState, r: Result<seq<Ingress>, Error>)
    requires NameDefined(config, service)
  {
    var name := LoadBalancerName(config, service);
    || (r.Err? && RanInOrder(remote, config, service, nodes, runs, 0, from, to, Some(r.error)))
    || (&& 0 < |to.calls|
        && RanInOrder(remote, config, service, nodes, runs, 0, from, WithoutLastCall(to), None)
        && to.calls[|to.calls| - 1] == GetLoadBalancerByName(name)
        && StatusIs(remote, |to.calls| - 1, name, r))
  }

  /** A reconcile whose phases all succeeded cannot be read as one that
      failed: the status is then the final lookup's. */
  lemma ReconciledStatus(remote: Remote, config: TxCloudConfig, service: Service, nodes: seq<Node>,
                         runs: seq<PhaseRun>, from: CloudState, to: CloudState, r: Result<seq<Ingress>, Error>)
    requires NameDefined(config, service)
    requires Reconciled(remote, config, service, nodes, runs, from, to, r)
    requires 0 < |to.calls| && RanInOrder(remote, config, service, nodes, runs, 0, from, WithoutLastCall(to), None)
    ensures StatusIs(remote, |to.calls| - 1, LoadBalancerName(config, service), r)
  {
  }

  /** A failed phase ends the reconcile with its error. */
  lemma FailedReconcile(remote: Remote, config: TxCloudConfig, service: Service, nodes: seq<Node>,
                        runs: seq<PhaseRun>, from: CloudState, to: CloudState, e: Error)
    requires NameDefined(config, service)
    requires RanInOrder(remote, config, service, nodes, runs, 0, from, to, Some(e))
    ensures Reconciled(remote, config, service, nodes, runs, from, to, Err(e))
  {
  }

  /** Phases that all succeeded, then the status lookup, make a reconcile. */
  lemma StatusReconcile(remote: Remote, config: TxCloudConfig, service: Service, nodes: seq<Node>,
                        runs: seq<PhaseRun>, from: CloudState, before: CloudState, to: CloudState, r: Result<seq<Ingress>, Error>)
    requires NameDefined(config, service)
    requires RanInOrder(remote, config, service, nodes, runs, 0, from, before, None)
    requires to == before.(calls := before.calls + [GetLoadBalancerByName(LoadBalancerName(config, service))])
    requires StatusIs(remote, |before.calls|, LoadBalancerName(config, service), r)
    ensures Reconciled(remote, config, service, nodes, runs, from, to, r)
  {
    assert WithoutLastCall(to) == before;
  }

  /** `EnsureLoadBalancer`: a session affinity other than None is refused
      before anything is done. Otherwise the instance, listener and backend
      phases run in that order, each only when the one before succeeded,
      and a final lookup by name gives the status; the caches are those the
      phases left. */
  method EnsureLoadBalancer(cloud: Cloud, service: Service, nodes: seq<Node>) returns (r: Result<seq<Ingress>, Error>)
    requires NameDefined(cloud.txConfig, service)
    modifies cloud`calls, cloud`clbByName, cloud`clbListeners, cloud`cacheDeletes, cloud`vmByIp, cloud`trace
    ensures service.sessionAffinity != AffinityNone ==>
              && r == Err(SessionAffinityUnsupported)
              && cloud.State() == old(cloud.State()) && cloud.trace == old(cloud.trace)
    ensures service.sessionAffinity == AffinityNone ==>
              && old(cloud.trace) <= cloud.trace
              && Reconciled(cloud.remote, cloud.txConfig, service, nodes, cloud.trace[|old(cloud.trace)|..],
                            old(cloud.State()), cloud.State(), r)
  {
    if service.sessionAffinity != AffinityNone {
      return Err(SessionAffinityUnsupported);
    }
    var err := RunPhases(cloud, service, nodes);
    ghost var runs := cloud.trace[|old(cloud.trace)|..];
    if err.Some? {
      FailedReconcile(cloud.remote, cloud.txConfig, service, nodes, runs, old(cloud.State()), cloud.State(), err.value);
      return Err(err.value);
    }
    ghost var before := cloud.State();
    r := Status(cloud, LoadBalancerName(cloud.txConfig, service));
    StatusReconcile(cloud.remote, cloud.txConfig, service, nodes, runs, old(cloud.State()), before, cloud.State(), r);
  }

  /** `UpdateLoadBalancer`: the backend phase alone, recorded in the trace
      like a reconcile phase. */
  method UpdateLoadBalancer(cloud: Cloud, service: Service, nodes: seq<Node>)
    returns (err: Option<Error>, ghost lbId: string, ghost forward: seq<ListenerBackend>,
             ghost instances: seq<Instance>, ghost mid: seq<ApiCall>, ghost read: bool)
    requires NameDefined(cloud.txConfig, service)
    modifies cloud`calls, cloud`clbByName, cloud`vmByIp, cloud`trace
    ensures Ops.BackendsRan(cloud.remote, cloud.txConfig, service, nodes,
                            old(cloud.calls), old(cloud.clbByName), old(cloud.vmByIp),
                            cloud.calls, cloud.clbByName, cloud.vmByIp, err, lbId, forward, instances, mid, read)
    ensures cloud.trace == old(cloud.trace) + [PhaseRun(BackendsPhase, old(cloud.State()), cloud.State(), err,
                                                        PhaseFindings(lbId, [], forward, instances, mid, read))]
  {
    err, lbId, forward, instances, mid, read := Ops.EnsureBackends(cloud, service, nodes);
  }

  /** `EnsureLoadBalancerDeleted`: a lookup by name; a balancer that is not
      there is already deleted, with nothing else done. Any other outcome,
      a failed lookup included, goes on to `deleteLoadBalancer`, whose calls,
      error and cache changes are those of the run that follows the lookup;
      the only mutation it can make is the balancer's delete call. */
  method EnsureLoadBalancerDeleted(cloud: Cloud, service: Service) returns (err: Option<Error>)
    requires NameDefined(cloud.txConfig, service)
    modifies cloud`calls, cloud`clbByName, cloud`cacheDeletes
    ensures var name := LoadBalancerName(cloud.txConfig, service);
            var lookup := [GetLoadBalancerByName(name)];
            cloud.remote.byName(|old(cloud.calls)|, name).Missing? ==>
              && err.None? && cloud.calls == old(cloud.calls) + lookup
              && cloud.clbByName == old(cloud.clbByName) && cloud.cacheDeletes == old(cloud.cacheDeletes)
    ensures var name := LoadBalancerName(cloud.txConfig, service);
            var lookup := [GetLoadBalancerByName(name)];
            var n := |old(cloud.calls)| + 1;
            var cache := old(cloud.clbByName);
            !cloud.remote.byName(|old(cloud.calls)|, name).Missing? ==>
              && cloud.calls == old(cloud.calls) + lookup + Ops.DeletePlan(cloud.remote, n, cache, cloud.txConfig, service)
              && err == Ops.DeleteOutcome(cloud.remote, n, cache, cloud.txConfig, service)
              && var cached := Ops.LbCacheAfter(cloud.remote, n, cache, name, service);
                 if Ops.DropsEntry(cloud.remote, n, cache, cloud.txConfig, service) then
                   && cloud.cacheDeletes == old(cloud.cacheDeletes) + [name]
                   && cloud.clbByName == if cloud.remote.deleteDrops(name) then cached - {name} else cached
                 else
                   cloud.cacheDeletes == old(cloud.cacheDeletes) && cloud.clbByName == cached
    ensures forall k :: |old(cloud.calls)| <= k < |cloud.calls| && cloud.calls[k].IsMutation() ==>
              cloud.calls[k].DeleteLoadBalancer?
  {
    var name := LoadBalancerName(cloud.txConfig, service);
    var lookup := cloud.LookupByName(name);
    if lookup.Missing? {
      return None;
    }
    ghost var afterLookup := cloud.calls;
    err := Ops.DeleteLoadBalancer(cloud, service);
    Ops.DeletePlanMutations(cloud.remote, |afterLookup|, old(cloud.clbByName), cloud.txConfig, service);
    assert cloud.calls == afterLookup + Ops.DeletePlan(cloud.remote, |afterLookup|, old(cloud.clbByName), cloud.txConfig, service);
  }
}
