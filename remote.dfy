/** The remote cloud, seen from the controller: the calls it can make and the
    replies it can get. The remote is an oracle: the reply to a call depends
    on the call and on how many calls the controller has made before it, so
    any behaviour of an eventually consistent remote can be expressed. Both
    error kinds of the SDK (a service error and a transport error) are one
    `error` case, as the source treats them alike. */
module Remote {
  import opened Wrappers
  import opened Types

  /** Every remote call the controller makes, with the request fields it sets. */
  datatype ApiCall =
    | DescribeLoadBalancers(name: string, filter: Tag)
    | DescribeListeners(loadBalancerId: string)
    | DescribeTargets(loadBalancerId: string)
    | DescribeInstancesByPrivateIp(privateIps: seq<string>)
    | DescribeInstancesById(instanceId: string)
    | CreateLoadBalancer(request: CreateLoadBalancerRequest)
    | DeleteLoadBalancer(loadBalancerId: string)
    | CreateListener(listener: CreateListenerRequest)
    | DeleteListener(loadBalancerId: string, listenerId: string)
    | RegisterTargets(loadBalancerId: string, listenerId: string, targets: seq<Target>)
    | DeregisterTargets(loadBalancerId: string, listenerId: string, targets: seq<Target>)
    | GetLoadBalancerByName(name: string)
  {
    /** Calls that change the remote state. */
    predicate IsMutation()
    {
      CreateLoadBalancer? || DeleteLoadBalancer? || CreateListener? || DeleteListener?
      || RegisterTargets? || DeregisterTargets?
    }
  }

  /** The response of one call: the SDK's response fields, of which each call
      reads its own, or an error. */
  datatype Reply = Reply(
    error: Option<string>,
    requestId: string,
    loadBalancers: seq<LoadBalancer>,
    listeners: seq<Listener>,
    backends: seq<ListenerBackend>,
    instances: seq<Instance>)

  /** One answer of `DescribeTaskStatus`: a status code, or a failed query. */
  datatype StatusReply = Status(code: int) | QueryFailed(message: string)

  /** The answer of the name lookup `getLoadBalancerByName`. */
  datatype NameLookup = Found(lb: LoadBalancer) | Missing | LookupFailed(message: string)

  /** The remote's behaviour:
      - `answer(n, c)`: the reply to call `c` made after `n` earlier calls;
      - `taskStatus(task, i)`: the status reported by the `i`-th poll of `task`;
      - `byName(n, name)`: the name lookup made after `n` earlier calls;
      - `deleteDrops(key)`: whether the cache's `Delete` removes the entry. */
  datatype Remote = Remote(
    answer: (nat, ApiCall) -> Reply,
    taskStatus: (string, nat) -> StatusReply,
    byName: (nat, string) -> NameLookup,
    deleteDrops: string -> bool)

  // ---------------------------------------------------------------------
  // The call log

  /** The last call of `calls` was answered with an error, and `e` carries
      it. */
  predicate LastCallFailed(remote: Remote, calls: seq<ApiCall>, e: Error)
  {
    && |calls| > 0
    && var last := remote.answer(|calls| - 1, calls[|calls| - 1]);
       last.error.Some? && e == Sdk(last.error.value)
  }

  /** A sequence of calls stopped early: at least one planned call was made,
      and the calls made are the start of the plan. */
  predicate Stopped(before: seq<ApiCall>, after: seq<ApiCall>, plan: seq<ApiCall>)
  {
    |before| < |after| <= |before| + |plan| && after == (before + plan)[..|after|]
  }

  /** A prefix stays a prefix behind a common start. */
  lemma PrefixBehind(before: seq<ApiCall>, made: seq<ApiCall>, plan: seq<ApiCall>)
    requires 0 < |made| && made <= plan
    ensures Stopped(before, before + made, plan)
  {
    assert (before + made) == (before + plan)[..|before| + |made|];
  }

  /** No call in the list changes the remote state. */
  predicate ReadOnly(cs: seq<ApiCall>)
  {
    forall k :: 0 <= k < |cs| ==> !cs[k].IsMutation()
  }

  /** The calls made between `before` and `after` change nothing remote. */
  predicate ReadsOnly(before: seq<ApiCall>, after: seq<ApiCall>)
  {
    before <= after && ReadOnly(after[|before|..])
  }

  lemma ReadsOnlyOne(before: seq<ApiCall>, mid: seq<ApiCall>, after: seq<ApiCall>, call: ApiCall)
    requires ReadsOnly(before, mid) && after == mid + [call] && !call.IsMutation()
    ensures ReadsOnly(before, after)
  {
    assert after[|before|..] == mid[|before|..] + [call];
  }

  lemma ReadsOnlyTrans(a: seq<ApiCall>, b: seq<ApiCall>, c: seq<ApiCall>)
    requires ReadsOnly(a, b) && ReadsOnly(b, c)
    ensures ReadsOnly(a, c)
  {
    assert c[|a|..] == b[|a|..] + c[|b|..];
  }

  /** A run stopped inside a plan stopped inside any longer plan. */
  lemma StoppedWithin(before: seq<ApiCall>, after: seq<ApiCall>, plan: seq<ApiCall>, longer: seq<ApiCall>)
    requires Stopped(before, after, plan) && plan <= longer
    ensures Stopped(before, after, longer)
  {
    assert before + plan <= before + longer by {
      assert before + plan == (before + longer)[..|before| + |plan|];
    }
  }

  /** A run stopped inside the second part of a plan, after the whole first
      part, stopped inside the plan. */
  lemma StoppedAfter(before: seq<ApiCall>, first: seq<ApiCall>, after: seq<ApiCall>, second: seq<ApiCall>)
    requires Stopped(before + first, after, second)
    ensures Stopped(before, after, first + second)
  {
    assert before + first + second == before + (first + second);
  }

  /** A run of read-only calls, whole or stopped early, reads only. */
  lemma ReadsOnlyPlan(before: seq<ApiCall>, after: seq<ApiCall>, plan: seq<ApiCall>)
    requires ReadOnly(plan)
    requires after == before + plan || Stopped(before, after, plan)
    ensures ReadsOnly(before, after)
  {
    assert forall k :: 0 <= k < |after| - |before| ==> after[|before|..][k] == plan[k];
  }
}
