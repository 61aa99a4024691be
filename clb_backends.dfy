/** The backend diff of `ensureLoadBalancerBackends`
    (pkg/tencentcloud/tencentcloud_loadbalancer.go): for each service port,
    the listener that serves it, the registered targets no in-VPC node
    instance accounts for, and the instances not yet registered on the
    port's node port; and the calls that carry them out, all removals
    before any addition, in groups of 20 targets. */
module BackendDiff {
  import opened Wrappers
  import opened Types
  import opened Remote
  import opened Batching

  /** Targets are (de)registered at most this many to a call. */
  const TargetBatch := 20

  /** A listener (with its targets) serves a service port. */
  predicate ServesPort(l: ListenerBackend, p: ServicePort)
  {
    l.port == p.port && l.protocol == p.protocol
  }

  /** The first listener serving the port, as the source's search loop finds it. */
  function FirstBackend(forward: seq<ListenerBackend>, p: ServicePort): (r: Option<ListenerBackend>)
    ensures r.Some? ==> exists k :: 0 <= k < |forward| && forward[k] == r.value
                          && ServesPort(r.value, p) && forall j :: 0 <= j < k ==> !ServesPort(forward[j], p)
    ensures r.None? <==> forall k :: 0 <= k < |forward| ==> !ServesPort(forward[k], p)
    decreases |forward|
  {
    if forward == [] then None
    else if ServesPort(forward[0], p) then Some(forward[0])
    else
      var r := FirstBackend(forward[1..], p);
      assert forall k :: 1 <= k < |forward| ==> forward[k] == forward[1..][k - 1];
      r
  }

  // ---------------------------------------------------------------------
  // VPC filter

  /** The instances in the configured VPC, in order. */
  function InVpc(instances: seq<Instance>, vpcId: string): seq<Instance>
    decreases |instances|
  {
    if instances == [] then []
    else
      var last := instances[|instances| - 1];
      InVpc(instances[..|instances| - 1], vpcId) + (if last.vpcId == vpcId then [last] else [])
  }

  /** Exactly the instances of the configured VPC are kept. */
  lemma {:induction false} InVpcMembers(instances: seq<Instance>, vpcId: string, x: Instance)
    ensures x in InVpc(instances, vpcId) <==> x in instances && x.vpcId == vpcId
    decreases |instances|
  {
    if instances != [] {
      var init := instances[..|instances| - 1];
      InVpcMembers(init, vpcId, x);
      assert instances == init + [instances[|instances| - 1]];
    }
  }

  /** The loop that drops the node instances of other VPCs. */
  method FilterVpc(instances: seq<Instance>, vpcId: string) returns (kept: seq<Instance>)
    ensures kept == InVpc(instances, vpcId)
  {
    kept := [];
    var i := 0;
    while i < |instances|
      invariant 0 <= i <= |instances|
      invariant kept == InVpc(instances[..i], vpcId)
    {
      if instances[i].vpcId == vpcId {
        kept := kept + [instances[i]];
      }
      assert instances[..i + 1][..i] == instances[..i];
      i := i + 1;
    }
    assert instances[..|instances|] == instances;
  }

  // ---------------------------------------------------------------------
  // Per-port diff

  /** A target stands for an instance on a node port. */
  predicate Bound(t: Target, inst: Instance, nodePort: int)
  {
    t.instanceId == inst.instanceId && t.port == nodePort
  }

  /** Some instance accounts for the target. */
  predicate Accounted(t: Target, instances: seq<Instance>, nodePort: int)
  {
    exists i :: 0 <= i < |instances| && Bound(t, instances[i], nodePort)
  }

  /** Some target already stands for the instance. */
  predicate Registered(inst: Instance, targets: seq<Target>, nodePort: int)
  {
    exists k :: 0 <= k < |targets| && Bound(targets[k], inst, nodePort)
  }

  /** The targets to deregister: those no instance accounts for, in order. */
  function ToDeregister(targets: seq<Target>, instances: seq<Instance>, nodePort: int): seq<Target>
    decreases |targets|
  {
    if targets == [] then []
    else
      var t := targets[|targets| - 1];
      ToDeregister(targets[..|targets| - 1], instances, nodePort)
        + (if Accounted(t, instances, nodePort) then [] else [Target(t.instanceId, t.port)])
  }

  /** The targets to register: one on the node port for each instance no
      target stands for, in instance order. */
  function ToRegister(instances: seq<Instance>, targets: seq<Target>, nodePort: int): seq<Target>
    decreases |instances|
  {
    if instances == [] then []
    else
      var inst := instances[|instances| - 1];
      ToRegister(instances[..|instances| - 1], targets, nodePort)
        + (if Registered(inst, targets, nodePort) then [] else [Target(inst.instanceId, nodePort)])
  }

  /** A target is deregistered iff it is registered and no instance
      accounts for it. */
  lemma {:induction false} ToDeregisterMembers(targets: seq<Target>, instances: seq<Instance>, nodePort: int, t: Target)
    ensures t in ToDeregister(targets, instances, nodePort) <==> t in targets && !Accounted(t, instances, nodePort)
    decreases |targets|
  {
    if targets != [] {
      var init := targets[..|targets| - 1];
      ToDeregisterMembers(init, instances, nodePort, t);
      assert targets == init + [targets[|targets| - 1]];
    }
  }

  /** An instance is registered on the node port iff no target stands for
      it yet; nothing else is registered. */
  lemma {:induction false} ToRegisterMembers(instances: seq<Instance>, targets: seq<Target>, nodePort: int, inst: Instance)
    ensures inst in instances && !Registered(inst, targets, nodePort) ==>
              Target(inst.instanceId, nodePort) in ToRegister(instances, targets, nodePort)
    ensures forall t :: t in ToRegister(instances, targets, nodePort) ==>
              t.port == nodePort && exists x :: x in instances && x.instanceId == t.instanceId && !Registered(x, targets, nodePort)
    decreases |instances|
  {
    if instances != [] {
      var init := instances[..|instances| - 1];
      ToRegisterMembers(init, targets, nodePort, inst);
      assert instances == init + [instances[|instances| - 1]];
    }
  }

  /** After the removals and additions of one port, the targets on its node
      port are exactly the in-VPC instances: every instance is bound by some
      kept or added target, and every kept target is accounted for. */
  lemma PortConverges(targets: seq<Target>, instances: seq<Instance>, nodePort: int)
    ensures forall t :: t in targets && t !in ToDeregister(targets, instances, nodePort) ==>
              Accounted(t, instances, nodePort)
    ensures forall inst :: inst in instances ==>
              Registered(inst, targets, nodePort) || Target(inst.instanceId, nodePort) in ToRegister(instances, targets, nodePort)
  {
    forall t | t in targets && t !in ToDeregister(targets, instances, nodePort)
      ensures Accounted(t, instances, nodePort)
    {
      ToDeregisterMembers(targets, instances, nodePort, t);
    }
    forall inst | inst in instances
      ensures Registered(inst, targets, nodePort) || Target(inst.instanceId, nodePort) in ToRegister(instances, targets, nodePort)
    {
      ToRegisterMembers(instances, targets, nodePort, inst);
    }
  }

  /** The source's inner search: does some instance account for the target? */
  method FindInstance(t: Target, instances: seq<Instance>, nodePort: int) returns (found: bool)
    ensures found <==> Accounted(t, instances, nodePort)
  {
    found := false;
    var i := 0;
    while i < |instances|
      invariant 0 <= i <= |instances|
      invariant forall j :: 0 <= j < i ==> !Bound(t, instances[j], nodePort)
    {
      if t.instanceId == instances[i].instanceId && t.port == nodePort {
        return true;
      }
      i := i + 1;
    }
  }

  /** The source's inner search: does some target stand for the instance? */
  method FindTarget(inst: Instance, targets: seq<Target>, nodePort: int) returns (found: bool)
    ensures found <==> Registered(inst, targets, nodePort)
  {
    found := false;
    var k := 0;
    while k < |targets|
      invariant 0 <= k <= |targets|
      invariant forall j :: 0 <= j < k ==> !Bound(targets[j], inst, nodePort)
    {
      if targets[k].instanceId == inst.instanceId && targets[k].port == nodePort {
        return true;
      }
      k := k + 1;
    }
  }

  /** The loop building `backendsToDelete` for one port. */
  method CollectDeregister(targets: seq<Target>, instances: seq<Instance>, nodePort: int) returns (r: seq<Target>)
    ensures r == ToDeregister(targets, instances, nodePort)
  {
    r := [];
    var k := 0;
    while k < |targets|
      invariant 0 <= k <= |targets|
      invariant r == ToDeregister(targets[..k], instances, nodePort)
    {
      var found := FindInstance(targets[k], instances, nodePort);
      if !found {
        r := r + [Target(targets[k].instanceId, targets[k].port)];
      }
      assert targets[..k + 1][..k] == targets[..k];
      k := k + 1;
    }
    assert targets[..|targets|] == targets;
  }

  /** The loop building `backendsToAdd` for one port. */
  method CollectRegister(instances: seq<Instance>, targets: seq<Target>, nodePort: int) returns (r: seq<Target>)
    ensures r == ToRegister(instances, targets, nodePort)
  {
    r := [];
    var i := 0;
    while i < |instances|
      invariant 0 <= i <= |instances|
      invariant r == ToRegister(instances[..i], targets, nodePort)
    {
      var found := FindTarget(instances[i], targets, nodePort);
      if !found {
        r := r + [Target(instances[i].instanceId, nodePort)];
      }
      assert instances[..i + 1][..i] == instances[..i];
      i := i + 1;
    }
    assert instances[..|instances|] == instances;
  }

  // ---------------------------------------------------------------------
  // The calls

  /** One (de)register call per group. */
  function BatchCalls(lbId: string, listenerId: string, batches: seq<seq<Target>>, register: bool): (r: seq<ApiCall>)
    ensures |r| == |batches|
    decreases |batches|
  {
    if batches == [] then []
    else
      var b := batches[|batches| - 1];
      BatchCalls(lbId, listenerId, batches[..|batches| - 1], register)
        + [if register then RegisterTargets(lbId, listenerId, b) else DeregisterTargets(lbId, listenerId, b)]
  }

  lemma {:induction false} BatchCallsAppend(lbId: string, listenerId: string, x: seq<seq<Target>>, y: seq<seq<Target>>, register: bool)
    ensures BatchCalls(lbId, listenerId, x + y, register)
            == BatchCalls(lbId, listenerId, x, register) + BatchCalls(lbId, listenerId, y, register)
    decreases |y|
  {
    if y == [] {
      assert x + y == x;
    } else {
      var init := y[..|y| - 1];
      BatchCallsAppend(lbId, listenerId, x, init, register);
      assert (x + y)[..|x + y| - 1] == x + init;
    }
  }

  /** The (de)register call for one group. */
  function TargetCall(lbId: string, listenerId: string, batch: seq<Target>, register: bool): ApiCall
  {
    if register then RegisterTargets(lbId, listenerId, batch) else DeregisterTargets(lbId, listenerId, batch)
  }

  /** The calls for one list of targets on one listener: one call per
      group of at most 20 (`TargetCallsBatches`). */
  function TargetCalls(lbId: string, listenerId: string, targets: seq<Target>, register: bool): seq<ApiCall>
    decreases |targets|
  {
    if targets == [] then []
    else if |targets| <= TargetBatch then [TargetCall(lbId, listenerId, targets, register)]
    else [TargetCall(lbId, listenerId, targets[..TargetBatch], register)]
         + TargetCalls(lbId, listenerId, targets[TargetBatch..], register)
  }

  /** The calls for a list of targets are one call per group of `Batches`. */
  lemma {:induction false} TargetCallsBatches(lbId: string, listenerId: string, targets: seq<Target>, register: bool)
    ensures TargetCalls(lbId, listenerId, targets, register) == BatchCalls(lbId, listenerId, Batches(targets, TargetBatch), register)
    decreases |targets|
  {
    if |targets| > TargetBatch {
      var rest := targets[TargetBatch..];
      TargetCallsBatches(lbId, listenerId, rest, register);
      BatchCallsAppend(lbId, listenerId, [targets[..TargetBatch]], Batches(rest, TargetBatch), register);
      assert BatchCalls(lbId, listenerId, [targets[..TargetBatch]], register)
             == [TargetCall(lbId, listenerId, targets[..TargetBatch], register)];
    } else if targets != [] {
      assert BatchCalls(lbId, listenerId, [targets], register) == [TargetCall(lbId, listenerId, targets, register)];
    }
  }

  /** The deregistrations of one port (none when no listener serves it). */
  function PortDeregistrations(lbId: string, forward: seq<ListenerBackend>, instances: seq<Instance>, p: ServicePort): seq<ApiCall>
  {
    match FirstBackend(forward, p)
    case None => []
    case Some(l) => TargetCalls(lbId, l.listenerId, ToDeregister(l.targets, instances, p.nodePort), false)
  }

  /** The registrations of one port (none when no listener serves it). */
  function PortRegistrations(lbId: string, forward: seq<ListenerBackend>, instances: seq<Instance>, p: ServicePort): seq<ApiCall>
  {
    match FirstBackend(forward, p)
    case None => []
    case Some(l) => TargetCalls(lbId, l.listenerId, ToRegister(instances, l.targets, p.nodePort), true)
  }

  /** All deregistrations, port by port. */
  function Deregistrations(lbId: string, forward: seq<ListenerBackend>, instances: seq<Instance>, ports: seq<ServicePort>): seq<ApiCall>
    decreases |ports|
  {
    if ports == [] then []
    else Deregistrations(lbId, forward, instances, ports[..|ports| - 1])
           + PortDeregistrations(lbId, forward, instances, ports[|ports| - 1])
  }

  /** All registrations, port by port. */
  function Registrations(lbId: string, forward: seq<ListenerBackend>, instances: seq<Instance>, ports: seq<ServicePort>): seq<ApiCall>
    decreases |ports|
  {
    if ports == [] then []
    else Registrations(lbId, forward, instances, ports[..|ports| - 1])
           + PortRegistrations(lbId, forward, instances, ports[|ports| - 1])
  }

  /** The index of the first port no listener serves, or the number of ports. */
  function FirstUnserved(forward: seq<ListenerBackend>, ports: seq<ServicePort>): (j: nat)
    ensures j <= |ports|
    ensures forall i :: 0 <= i < j ==> FirstBackend(forward, ports[i]).Some?
    ensures j < |ports| ==> FirstBackend(forward, ports[j]).None?
    decreases |ports|
  {
    if ports == [] then 0
    else if FirstBackend(forward, ports[0]).None? then 0
    else
      var j := FirstUnserved(forward, ports[1..]);
      assert forall i :: 1 <= i < |ports| ==> ports[i] == ports[1..][i - 1];
      1 + j
  }

  /** The removals the backend phase plans: the deregistrations of the
      ports before the first unserved one. */
  function Removals(lbId: string, forward: seq<ListenerBackend>, instances: seq<Instance>, ports: seq<ServicePort>): seq<ApiCall>
  {
    Deregistrations(lbId, forward, instances, ports[..FirstUnserved(forward, ports)])
  }

  /** The additions the backend phase plans: all registrations, when every
      port is served, and none otherwise. */
  function Additions(lbId: string, forward: seq<ListenerBackend>, instances: seq<Instance>, ports: seq<ServicePort>): seq<ApiCall>
  {
    if FirstUnserved(forward, ports) < |ports| then [] else Registrations(lbId, forward, instances, ports)
  }

  /** The calls the backend phase plans: all removals, then all additions. */
  function BackendPlan(lbId: string, forward: seq<ListenerBackend>, instances: seq<Instance>, ports: seq<ServicePort>): seq<ApiCall>
  {
    Removals(lbId, forward, instances, ports) + Additions(lbId, forward, instances, ports)
  }

  /** Every deregistration in the plan comes before every registration. */
  lemma {:induction false} DeregistrationsOnly(lbId: string, forward: seq<ListenerBackend>, instances: seq<Instance>, ports: seq<ServicePort>)
    ensures forall c :: c in Deregistrations(lbId, forward, instances, ports) ==> c.DeregisterTargets?
    ensures forall c :: c in Registrations(lbId, forward, instances, ports) ==> c.RegisterTargets?
    decreases |ports|
  {
    if ports != [] {
      DeregistrationsOnly(lbId, forward, instances, ports[..|ports| - 1]);
      var p := ports[|ports| - 1];
      match FirstBackend(forward, p) {
        case None =>
        case Some(l) =>
          var del := ToDeregister(l.targets, instances, p.nodePort);
          var add := ToRegister(instances, l.targets, p.nodePort);
          TargetCallsBatches(lbId, l.listenerId, del, false);
          TargetCallsBatches(lbId, l.listenerId, add, true);
          BatchCallsKind(lbId, l.listenerId, Batches(del, TargetBatch), false);
          BatchCallsKind(lbId, l.listenerId, Batches(add, TargetBatch), true);
      }
    }
  }

  lemma {:induction false} BatchCallsKind(lbId: string, listenerId: string, batches: seq<seq<Target>>, register: bool)
    ensures forall c :: c in BatchCalls(lbId, listenerId, batches, register) ==>
              if register then c.RegisterTargets? else c.DeregisterTargets?
    decreases |batches|
  {
    if batches != [] {
      BatchCallsKind(lbId, listenerId, batches[..|batches| - 1], register);
    }
  }

  /** A run of deregistrations followed by a run of registrations, read by
      position. */
  lemma RunsByPosition(d: seq<ApiCall>, a: seq<ApiCall>)
    requires forall c :: c in d ==> c.DeregisterTargets?
    requires forall c :: c in a ==> c.RegisterTargets?
    ensures forall k :: 0 <= k < |d| ==> (d + a)[k].DeregisterTargets?
    ensures forall k :: |d| <= k < |d + a| ==> (d + a)[k].RegisterTargets?
  {
    forall k | 0 <= k < |d| ensures (d + a)[k].DeregisterTargets? {
      assert (d + a)[k] == d[k] && d[k] in d;
    }
    forall k | |d| <= k < |d + a| ensures (d + a)[k].RegisterTargets? {
      assert (d + a)[k] == a[k - |d|] && a[k - |d|] in a;
    }
  }

  /** In the backend plan, all removals come before any addition: the plan
      is a run of deregistrations followed by a run of registrations. */
  lemma RemovalsFirst(lbId: string, forward: seq<ListenerBackend>, instances: seq<Instance>, ports: seq<ServicePort>)
    ensures var plan := BackendPlan(lbId, forward, instances, ports);
            var m := |Removals(lbId, forward, instances, ports)|;
            && (forall k :: 0 <= k < m ==> plan[k].DeregisterTargets?)
            && (forall k :: m <= k < |plan| ==> plan[k].RegisterTargets?)
  {
    var j0 := FirstUnserved(forward, ports);
    DeregistrationsOnly(lbId, forward, instances, ports[..j0]);
    DeregistrationsOnly(lbId, forward, instances, ports);
    RunsByPosition(Removals(lbId, forward, instances, ports), Additions(lbId, forward, instances, ports));
  }
}
