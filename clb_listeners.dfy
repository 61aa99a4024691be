/** The listener diff of `ensureLoadBalancerListeners`
    (pkg/tencentcloud/tencentcloud_loadbalancer.go): which listeners to
    create and which to delete so that the balancer's listeners match the
    service's ports. A port is served by the first existing listener with
    its port number and protocol; a port counts as served when a port of the
    same NAME is served, so port names are taken to be unique. */
module ListenerDiff {
  import opened Wrappers
  import opened Strings
  import opened Common
  import opened Types

  /** A listener serves a service port: same port number and protocol. */
  predicate Serves(l: Listener, p: ServicePort)
  {
    l.port == p.port && l.protocol == p.protocol
  }

  /** `findOneListenerValid`: the first listener that serves the port. */
  function FirstListener(listeners: seq<Listener>, p: ServicePort): (r: Option<Listener>)
    ensures r.Some? ==> exists k :: 0 <= k < |listeners| && listeners[k] == r.value
                          && Serves(r.value, p) && forall j :: 0 <= j < k ==> !Serves(listeners[j], p)
    ensures r.None? <==> forall k :: 0 <= k < |listeners| ==> !Serves(listeners[k], p)
    decreases |listeners|
  {
    if listeners == [] then None
    else if Serves(listeners[0], p) then Some(listeners[0])
    else
      var r := FirstListener(listeners[1..], p);
      assert forall k :: 1 <= k < |listeners| ==> listeners[k] == listeners[1..][k - 1];
      r
  }

  /** The names of the served ports, in port order (`createdServicePortNames`
      before sorting). */
  function ServedNames(listeners: seq<Listener>, ports: seq<ServicePort>): seq<string>
    decreases |ports|
  {
    if ports == [] then []
    else
      var p := ports[|ports| - 1];
      ServedNames(listeners, ports[..|ports| - 1]) + (if KeptId(listeners, p).Some? then [p.name] else [])
  }

  /** The id `findOneListenerValid` returns for `p`, when it is not empty:
      the id of the first listener serving `p`. An empty id reads as no
      listener, and the search does not go on past it. */
  function KeptId(listeners: seq<Listener>, p: ServicePort): Option<string>
  {
    match FirstListener(listeners, p)
    case Some(l) => if l.listenerId != "" then Some(l.listenerId) else None
    case None => None
  }

  /** The first listener serving `p` has the non-empty id `id`. */
  predicate KeepsId(listeners: seq<Listener>, p: ServicePort, id: string)
  {
    FirstListener(listeners, p).Some? && FirstListener(listeners, p).value.listenerId == id && id != ""
  }

  /** The ids of the listeners that serve some port (`usedListenerIds`
      before sorting). */
  function KeptIds(listeners: seq<Listener>, ports: seq<ServicePort>): seq<string>
    decreases |ports|
  {
    if ports == [] then []
    else
      var k := KeptId(listeners, ports[|ports| - 1]);
      KeptIds(listeners, ports[..|ports| - 1]) + (if k.Some? then [k.value] else [])
  }

  /** The create request for a port. */
  function CreateFor(lbId: string, p: ServicePort, health: HealthCheck): CreateListenerRequest
  {
    CreateListenerRequest(lbId, p.port, p.name, p.protocol, health)
  }

  /** One create request per port whose name is not served, in port order. */
  function Creates(lbId: string, ports: seq<ServicePort>, served: seq<string>, health: HealthCheck): seq<CreateListenerRequest>
    decreases |ports|
  {
    if ports == [] then []
    else
      var p := ports[|ports| - 1];
      Creates(lbId, ports[..|ports| - 1], served, health) + (if p.name !in served then [CreateFor(lbId, p, health)] else [])
  }

  /** The ids of the listeners not kept, in listener order. */
  function Deletes(listeners: seq<Listener>, kept: seq<string>): seq<string>
    decreases |listeners|
  {
    if listeners == [] then []
    else
      var l := listeners[|listeners| - 1];
      Deletes(listeners[..|listeners| - 1], kept) + (if l.listenerId !in kept then [l.listenerId] else [])
  }

  /** A name is served iff the first listener serving some port of that
      name has a non-empty id. */
  lemma {:induction false} ServedNamesMembers(listeners: seq<Listener>, ports: seq<ServicePort>, n: string)
    ensures n in ServedNames(listeners, ports) <==>
              exists i :: 0 <= i < |ports| && ports[i].name == n
                && FirstListener(listeners, ports[i]).Some? && FirstListener(listeners, ports[i]).value.listenerId != ""
    decreases |ports|
  {
    if ports != [] {
      var init := ports[..|ports| - 1];
      var p := ports[|ports| - 1];
      var tail := if KeptId(listeners, p).Some? then [p.name] else [];
      ServedNamesMembers(listeners, init, n);
      assert ServedNames(listeners, ports) == ServedNames(listeners, init) + tail;
      forall i | 0 <= i < |init| ensures init[i] == ports[i] { }
    }
  }

  /** An id is kept iff it is the non-empty id of the first listener
      serving some port. */
  lemma {:induction false} KeptIdsMembers(listeners: seq<Listener>, ports: seq<ServicePort>, id: string)
    ensures id in KeptIds(listeners, ports) <==> exists i :: 0 <= i < |ports| && KeepsId(listeners, ports[i], id)
    decreases |ports|
  {
    if ports != [] {
      var init := ports[..|ports| - 1];
      var k := KeptId(listeners, ports[|ports| - 1]);
      var tail := if k.Some? then [k.value] else [];
      KeptIdsMembers(listeners, init, id);
      assert KeptIds(listeners, ports) == KeptIds(listeners, init) + tail;
      assert id in tail <==> KeepsId(listeners, ports[|ports| - 1], id);
      forall i | 0 <= i < |init| ensures init[i] == ports[i] { }
    }
  }

  /** Every port whose name is not served gets its create request, and
      every create request is one for such a port. */
  lemma {:induction false} CreatesMembers(lbId: string, ports: seq<ServicePort>, served: seq<string>, health: HealthCheck)
    ensures forall i :: 0 <= i < |ports| && ports[i].name !in served ==>
              CreateFor(lbId, ports[i], health) in Creates(lbId, ports, served, health)
    ensures forall r :: r in Creates(lbId, ports, served, health) ==>
              exists i :: 0 <= i < |ports| && ports[i].name !in served && r == CreateFor(lbId, ports[i], health)
    decreases |ports|
  {
    if ports != [] {
      var init := ports[..|ports| - 1];
      CreatesMembers(lbId, init, served, health);
      forall i | 0 <= i < |init| ensures init[i] == ports[i] { }
    }
  }

  /** An id is deleted iff it belongs to an existing listener and is not kept. */
  lemma {:induction false} DeletesMembers(listeners: seq<Listener>, kept: seq<string>, id: string)
    ensures id in Deletes(listeners, kept) <==>
              id !in kept && exists k :: 0 <= k < |listeners| && listeners[k].listenerId == id
    decreases |listeners|
  {
    if listeners != [] {
      var init := listeners[..|listeners| - 1];
      DeletesMembers(init, kept, id);
      if exists k :: 0 <= k < |init| && init[k].listenerId == id {
        var k :| 0 <= k < |init| && init[k].listenerId == id;
        assert listeners[k] == init[k];
      }
      if exists k :: 0 <= k < |listeners| && listeners[k].listenerId == id {
        var k :| 0 <= k < |listeners| && listeners[k].listenerId == id;
        if k < |init| { assert init[k] == listeners[k]; }
      }
    }
  }

  /** The first loop of `ensureLoadBalancerListeners`: the names of the
      served ports and the ids of the listeners serving them. */
  method CollectServed(listeners: seq<Listener>, ports: seq<ServicePort>)
    returns (served: seq<string>, kept: seq<string>)
    ensures served == ServedNames(listeners, ports)
    ensures kept == KeptIds(listeners, ports)
  {
    kept, served := [], [];
    var i := 0;
    while i < |ports|
      invariant 0 <= i <= |ports|
      invariant served == ServedNames(listeners, ports[..i])
      invariant kept == KeptIds(listeners, ports[..i])
    {
      var listenerId := "";
      var l := FirstListener(listeners, ports[i]);
      if l.Some? {
        listenerId := l.value.listenerId;
      }
      if listenerId != "" {
        served := served + [ports[i].name];
        kept := kept + [listenerId];
      }
      assert ports[..i + 1][..i] == ports[..i];
      i := i + 1;
    }
    assert ports[..|ports|] == ports;
  }

  /** The second loop: a create request for each port whose name is not in
      the sorted list of served names. */
  method CollectCreates(lbId: string, ports: seq<ServicePort>, served: seq<string>, health: HealthCheck)
    returns (creates: seq<CreateListenerRequest>)
    ensures creates == Creates(lbId, ports, served, health)
  {
    var sortedServed := SortStrings(served);
    creates := [];
    var i := 0;
    while i < |ports|
      invariant 0 <= i <= |ports|
      invariant creates == Creates(lbId, ports[..i], served, health)
    {
      var ensured := IsExist(ports[i].name, sortedServed);
      assert ensured <==> ports[i].name in multiset(served);
      if !ensured {
        creates := creates + [CreateFor(lbId, ports[i], health)];
      }
      assert ports[..i + 1][..i] == ports[..i];
      i := i + 1;
    }
    assert ports[..|ports|] == ports;
  }

  /** The third loop: the id of each listener not in the sorted list of
      kept ids. */
  method CollectDeletes(listeners: seq<Listener>, kept: seq<string>) returns (deletes: seq<string>)
    ensures deletes == Deletes(listeners, kept)
  {
    var sortedKept := SortStrings(kept);
    deletes := [];
    var k := 0;
    while k < |listeners|
      invariant 0 <= k <= |listeners|
      invariant deletes == Deletes(listeners[..k], kept)
    {
      var used := IsExist(listeners[k].listenerId, sortedKept);
      assert used <==> listeners[k].listenerId in multiset(kept);
      if !used {
        deletes := deletes + [listeners[k].listenerId];
      }
      assert listeners[..k + 1][..k] == listeners[..k];
      k := k + 1;
    }
    assert listeners[..|listeners|] == listeners;
  }

  /** The plan of `ensureLoadBalancerListeners`: what to create and what to
      delete. */
  method PlanListeners(lbId: string, listeners: seq<Listener>, ports: seq<ServicePort>, health: HealthCheck)
    returns (creates: seq<CreateListenerRequest>, deletes: seq<string>)
    ensures creates == Creates(lbId, ports, ServedNames(listeners, ports), health)
    ensures deletes == Deletes(listeners, KeptIds(listeners, ports))
  {
    var served, kept := CollectServed(listeners, ports);
    creates := CollectCreates(lbId, ports, served, health);
    deletes := CollectDeletes(listeners, kept);
  }
}
