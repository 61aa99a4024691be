/** Instance lookups of pkg/tencentcloud/instances.go: by private IP (one or
    many, through the `vm_ip_` cache), by instance id (through the `vm_id_`
    cache) and by provider id, and the node-facing answers built on them. */
module Instances {
  import opened Wrappers
  import opened Strings
  import opened Common
  import opened Types
  import opened Remote
  import opened CloudProvider
  import opened Batching

  /** Private IPs are asked for in groups of five. */
  const IpBatch := 5

  /** Every `vm_ip_` entry is an instance of the configured VPC holding that
      IP, and every `vm_id_` entry one of the VPC with that id. */
  predicate VmCacheSound(cloud: Cloud)
    reads cloud`vmByIp, cloud`vmById
  {
    && (forall ip :: ip in cloud.vmByIp ==>
          cloud.vmByIp[ip].vpcId == cloud.txConfig.vpcId && ip in cloud.vmByIp[ip].privateIps)
    && (forall id :: id in cloud.vmById ==>
          cloud.vmById[id].vpcId == cloud.txConfig.vpcId && cloud.vmById[id].instanceId == id)
  }

  // ---------------------------------------------------------------------
  // Many private IPs

  /** The cached instances of the asked IPs, in the order asked. */
  function CachedHits(ips: seq<string>, cache: map<string, Instance>): seq<Instance>
    decreases |ips|
  {
    if ips == [] then []
    else
      var ip := ips[|ips| - 1];
      CachedHits(ips[..|ips| - 1], cache) + (if ip in cache then [cache[ip]] else [])
  }

  /** The asked IPs the cache does not hold, in the order asked. */
  function Uncached(ips: seq<string>, cache: map<string, Instance>): seq<string>
    decreases |ips|
  {
    if ips == [] then []
    else
      var ip := ips[|ips| - 1];
      Uncached(ips[..|ips| - 1], cache) + (if ip in cache then [] else [ip])
  }

  /** One copy of `inst` per IP of `ips` that is wanted. */
  function Copies(inst: Instance, ips: seq<string>, wanted: seq<string>): seq<Instance>
    decreases |ips|
  {
    if ips == [] then []
    else Copies(inst, ips[..|ips| - 1], wanted) + (if ips[|ips| - 1] in wanted then [inst] else [])
  }

  /** The cache after `inst` is stored under each of its wanted IPs. */
  function CopyCache(cache: map<string, Instance>, inst: Instance, ips: seq<string>, wanted: seq<string>): map<string, Instance>
    decreases |ips|
  {
    if ips == [] then cache
    else
      var c := CopyCache(cache, inst, ips[..|ips| - 1], wanted);
      if ips[|ips| - 1] in wanted then c[ips[|ips| - 1] := inst] else c
  }

  /** What one reply contributes: for each instance of the VPC, one copy per
      wanted private IP it holds (an instance holding two wanted IPs is
      returned twice). */
  function Harvest(insts: seq<Instance>, vpcId: string, wanted: seq<string>): seq<Instance>
    decreases |insts|
  {
    if insts == [] then []
    else
      var inst := insts[|insts| - 1];
      Harvest(insts[..|insts| - 1], vpcId, wanted)
        + (if inst.vpcId == vpcId then Copies(inst, inst.privateIps, wanted) else [])
  }

  /** The cache after one reply is harvested. */
  function HarvestCache(cache: map<string, Instance>, insts: seq<Instance>, vpcId: string, wanted: seq<string>): map<string, Instance>
    decreases |insts|
  {
    if insts == [] then cache
    else
      var inst := insts[|insts| - 1];
      var c := HarvestCache(cache, insts[..|insts| - 1], vpcId, wanted);
      if inst.vpcId == vpcId then CopyCache(c, inst, inst.privateIps, wanted) else c
  }

  /** The call for one group of IPs. */
  function IpCall(group: seq<string>): ApiCall
  {
    DescribeInstancesByPrivateIp(group)
  }

  /** One call per group. */
  function IpCalls(groups: seq<seq<string>>): (r: seq<ApiCall>)
    ensures |r| == |groups|
    decreases |groups|
  {
    if groups == [] then [] else IpCalls(groups[..|groups| - 1]) + [IpCall(groups[|groups| - 1])]
  }

  /** The reply to group `g`, the call with number `base + g`. */
  function GroupReply(remote: Remote, base: nat, groups: seq<seq<string>>, g: nat): Reply
    requires g < |groups|
  {
    remote.answer(base + g, IpCall(groups[g]))
  }

  /** Every group answered without error. */
  predicate AllAnswered(remote: Remote, base: nat, groups: seq<seq<string>>)
  {
    forall g :: 0 <= g < |groups| ==> GroupReply(remote, base, groups, g).error.None?
  }

  /** The instances the replies to the groups yield, group by group. */
  function Gathered(remote: Remote, base: nat, groups: seq<seq<string>>, vpcId: string, wanted: seq<string>): seq<Instance>
    decreases |groups|
  {
    if groups == [] then []
    else
      var n := |groups| - 1;
      Gathered(remote, base, groups[..n], vpcId, wanted)
        + Harvest(GroupReply(remote, base, groups, n).instances, vpcId, wanted)
  }

  /** The cache after the replies to the groups are harvested. */
  function GatheredCache(cache: map<string, Instance>, remote: Remote, base: nat, groups: seq<seq<string>>,
                         vpcId: string, wanted: seq<string>): map<string, Instance>
    decreases |groups|
  {
    if groups == [] then cache
    else
      var n := |groups| - 1;
      HarvestCache(GatheredCache(cache, remote, base, groups[..n], vpcId, wanted),
                   GroupReply(remote, base, groups, n).instances, vpcId, wanted)
  }

  /** The IPs the remote is asked for: the uncached ones, sorted. */
  function Wanted(ips: seq<string>, cache: map<string, Instance>): seq<string>
  {
    SortStrings(Uncached(ips, cache))
  }

  // --- properties of the specification functions

  /** Every asked IP is either a cache hit or asked of the remote. */
  lemma {:induction false} SplitByCache(ips: seq<string>, cache: map<string, Instance>, ip: string)
    ensures ip in Uncached(ips, cache) <==> ip in ips && ip !in cache
    ensures |CachedHits(ips, cache)| + |Uncached(ips, cache)| == |ips|
    decreases |ips|
  {
    if ips != [] {
      SplitByCache(ips[..|ips| - 1], cache, ip);
      assert ips == ips[..|ips| - 1] + [ips[|ips| - 1]];
    }
  }

  /** A copy is `inst` itself, and only wanted IPs it holds produce one. */
  lemma {:induction false} CopiesMembers(inst: Instance, ips: seq<string>, wanted: seq<string>)
    ensures forall x :: x in Copies(inst, ips, wanted) ==> x == inst
    ensures |Copies(inst, ips, wanted)| > 0 <==> exists k :: 0 <= k < |ips| && ips[k] in wanted
    decreases |ips|
  {
    if ips != [] {
      var init := ips[..|ips| - 1];
      CopiesMembers(inst, init, wanted);
      if exists k :: 0 <= k < |init| && init[k] in wanted {
        var k :| 0 <= k < |init| && init[k] in wanted;
        assert ips[k] == init[k];
      }
      if exists k :: 0 <= k < |ips| && ips[k] in wanted {
        var k :| 0 <= k < |ips| && ips[k] in wanted;
        if k < |init| { assert init[k] == ips[k]; }
      }
    }
  }

  /** Every harvested instance is one of the reply, of the VPC, holding a
      wanted IP. */
  lemma {:induction false} HarvestMembers(insts: seq<Instance>, vpcId: string, wanted: seq<string>)
    ensures forall x :: x in Harvest(insts, vpcId, wanted) ==>
              x in insts && x.vpcId == vpcId && exists k :: 0 <= k < |x.privateIps| && x.privateIps[k] in wanted
    decreases |insts|
  {
    if insts != [] {
      var init := insts[..|insts| - 1];
      var inst := insts[|insts| - 1];
      HarvestMembers(init, vpcId, wanted);
      CopiesMembers(inst, inst.privateIps, wanted);
      forall x | x in Harvest(insts, vpcId, wanted)
        ensures x in insts && x.vpcId == vpcId && exists k :: 0 <= k < |x.privateIps| && x.privateIps[k] in wanted
      {
        if x in Harvest(init, vpcId, wanted) {
          assert x in insts by { assert forall y :: y in init ==> y in insts; }
        } else {
          assert x == inst;
        }
      }
    }
  }

  /** Storing copies only adds entries under wanted IPs the instance holds. */
  lemma {:induction false} CopyCacheEntries(cache: map<string, Instance>, inst: Instance, ips: seq<string>, wanted: seq<string>)
    ensures var c := CopyCache(cache, inst, ips, wanted);
            forall ip :: ip in c ==> (ip in cache && c[ip] == cache[ip]) || (ip in wanted && ip in ips && c[ip] == inst)
    decreases |ips|
  {
    if ips != [] {
      CopyCacheEntries(cache, inst, ips[..|ips| - 1], wanted);
      assert forall ip :: ip in ips[..|ips| - 1] ==> ip in ips;
    }
  }

  /** Harvesting only adds entries under wanted IPs, each an instance of the
      VPC holding that IP. */
  lemma {:induction false} HarvestCacheEntries(cache: map<string, Instance>, insts: seq<Instance>, vpcId: string, wanted: seq<string>)
    ensures var c := HarvestCache(cache, insts, vpcId, wanted);
            forall ip :: ip in c ==>
              (ip in cache && c[ip] == cache[ip]) || (ip in wanted && c[ip].vpcId == vpcId && ip in c[ip].privateIps)
    decreases |insts|
  {
    if insts != [] {
      var inst := insts[|insts| - 1];
      var c0 := HarvestCache(cache, insts[..|insts| - 1], vpcId, wanted);
      HarvestCacheEntries(cache, insts[..|insts| - 1], vpcId, wanted);
      CopyCacheEntries(c0, inst, inst.privateIps, wanted);
    }
  }

  /** `c` is `cache` with entries added only under wanted IPs, each an
      instance of the VPC holding its IP. */
  predicate CacheGrown(cache: map<string, Instance>, c: map<string, Instance>, vpcId: string, wanted: seq<string>)
  {
    forall ip :: ip in c ==>
      (ip in cache && c[ip] == cache[ip]) || (ip in wanted && c[ip].vpcId == vpcId && ip in c[ip].privateIps)
  }

  /** The same for all the replies of a run of groups. */
  lemma {:induction false} GatheredCacheEntries(cache: map<string, Instance>, remote: Remote, base: nat, groups: seq<seq<string>>,
                                                vpcId: string, wanted: seq<string>)
    ensures CacheGrown(cache, GatheredCache(cache, remote, base, groups, vpcId, wanted), vpcId, wanted)
    decreases |groups|
  {
    if groups != [] {
      var n := |groups| - 1;
      var c0 := GatheredCache(cache, remote, base, groups[..n], vpcId, wanted);
      GatheredCacheEntries(cache, remote, base, groups[..n], vpcId, wanted);
      HarvestCacheEntries(c0, GroupReply(remote, base, groups, n).instances, vpcId, wanted);
    }
  }

  /** Every instance gathered is one of a reply, of the VPC, holding a
      wanted IP. */
  lemma {:induction false} GatheredMembers(remote: Remote, base: nat, groups: seq<seq<string>>, vpcId: string, wanted: seq<string>)
    ensures forall x :: x in Gathered(remote, base, groups, vpcId, wanted) ==>
              x.vpcId == vpcId && exists k :: 0 <= k < |x.privateIps| && x.privateIps[k] in wanted
    decreases |groups|
  {
    if groups != [] {
      var n := |groups| - 1;
      GatheredMembers(remote, base, groups[..n], vpcId, wanted);
      HarvestMembers(GroupReply(remote, base, groups, n).instances, vpcId, wanted);
    }
  }

  /** Every cache hit is an instance of the VPC holding its asked IP. */
  lemma {:induction false} CachedHitsMembers(ips: seq<string>, cache: map<string, Instance>, vpcId: string)
    requires forall ip :: ip in cache ==> cache[ip].vpcId == vpcId && ip in cache[ip].privateIps
    ensures forall x :: x in CachedHits(ips, cache) ==>
              x.vpcId == vpcId && exists k :: 0 <= k < |x.privateIps| && x.privateIps[k] in ips
    decreases |ips|
  {
    if ips != [] {
      var init := ips[..|ips| - 1];
      var ip := ips[|ips| - 1];
      CachedHitsMembers(init, cache, vpcId);
      forall x | x in CachedHits(ips, cache)
        ensures x.vpcId == vpcId && exists k :: 0 <= k < |x.privateIps| && x.privateIps[k] in ips
      {
        if x in CachedHits(init, cache) {
          var k :| 0 <= k < |x.privateIps| && x.privateIps[k] in init;
          assert x.privateIps[k] in ips;
        } else {
          assert x == cache[ip];
          var k :| 0 <= k < |x.privateIps| && x.privateIps[k] == ip;
        }
      }
    }
  }

  /** With a sound cache, everything the lookup of many IPs returns is an
      instance of the configured VPC holding one of the IPs asked for. */
  lemma ResultMembers(ips: seq<string>, cache: map<string, Instance>, remote: Remote, base: nat, vpcId: string)
    requires forall ip :: ip in cache ==> cache[ip].vpcId == vpcId && ip in cache[ip].privateIps
    ensures var wanted := Wanted(ips, cache);
            forall x :: x in CachedHits(ips, cache) + Gathered(remote, base, Batches(wanted, IpBatch), vpcId, wanted) ==>
              x.vpcId == vpcId && exists k :: 0 <= k < |x.privateIps| && x.privateIps[k] in ips
  {
    var wanted := Wanted(ips, cache);
    CachedHitsMembers(ips, cache, vpcId);
    GatheredMembers(remote, base, Batches(wanted, IpBatch), vpcId, wanted);
    forall ip | ip in wanted ensures ip in ips {
      assert ip in multiset(wanted);
      SplitByCache(ips, cache, ip);
    }
  }

  /** Growing keeps a sound cache sound. */
  lemma SoundAfterGrowth(cache: map<string, Instance>, c: map<string, Instance>, vpcId: string, wanted: seq<string>)
    requires forall ip :: ip in cache ==> cache[ip].vpcId == vpcId && ip in cache[ip].privateIps
    requires CacheGrown(cache, c, vpcId, wanted)
    ensures forall ip :: ip in c ==> c[ip].vpcId == vpcId && ip in c[ip].privateIps
  {
  }

  /** The calls of groups placed one after the other. */
  lemma {:induction false} IpCallsAppend(a: seq<seq<string>>, b: seq<seq<string>>)
    ensures IpCalls(a + b) == IpCalls(a) + IpCalls(b)
    decreases |b|
  {
    if b == [] {
      assert a + b == a;
    } else {
      var n := |b| - 1;
      IpCallsAppend(a, b[..n]);
      assert (a + b)[..|a + b| - 1] == a + b[..n];
    }
  }

  /** The lookup's calls change nothing remote. */
  lemma {:induction false} IpCallsReadOnly(groups: seq<seq<string>>)
    ensures ReadOnly(IpCalls(groups))
    decreases |groups|
  {
    if groups != [] {
      IpCallsReadOnly(groups[..|groups| - 1]);
    }
  }

  /** One more group at the end of a run of groups. */
  lemma GroupsAppend(cache: map<string, Instance>, remote: Remote, base: nat, groups: seq<seq<string>>, g: seq<string>,
                     vpcId: string, wanted: seq<string>)
    ensures var all := groups + [g];
            var reply := remote.answer(base + |groups|, IpCall(g));
            && IpCalls(all) == IpCalls(groups) + [IpCall(g)]
            && GroupReply(remote, base, all, |groups|) == reply
            && Gathered(remote, base, all, vpcId, wanted)
               == Gathered(remote, base, groups, vpcId, wanted) + Harvest(reply.instances, vpcId, wanted)
            && GatheredCache(cache, remote, base, all, vpcId, wanted)
               == HarvestCache(GatheredCache(cache, remote, base, groups, vpcId, wanted), reply.instances, vpcId, wanted)
            && (AllAnswered(remote, base, all) <==> AllAnswered(remote, base, groups) && reply.error.None?)
  {
    var all := groups + [g];
    assert all[..|groups|] == groups;
    assert forall k :: 0 <= k < |groups| ==> GroupReply(remote, base, all, k) == GroupReply(remote, base, groups, k);
  }

  /** The groups of the IPs up to a group boundary, and one group more. */
  lemma IpBatchStep(ips: seq<string>, done: nat, m: nat)
    requires done < m <= |ips| && m - done <= IpBatch && done % IpBatch == 0
    ensures Batches(ips[..m], IpBatch) == Batches(ips[..done], IpBatch) + [ips[done..m]]
  {
    assert ips[..m] == ips[..done] + ips[done..m];
    BatchesAppend(ips[..done], ips[done..m], IpBatch, done / IpBatch);
  }

  /** The calls for the groups up to a group boundary start the calls for
      all the groups. */
  lemma IpCallsPrefix(ips: seq<string>, m: nat)
    requires m <= |ips| && (m % IpBatch == 0 || m == |ips|)
    ensures IpCalls(Batches(ips[..m], IpBatch)) <= IpCalls(Batches(ips, IpBatch))
  {
    if m < |ips| {
      assert ips == ips[..m] + ips[m..];
      BatchesSplit(ips[..m], ips[m..], IpBatch, m / IpBatch);
      IpCallsAppend(Batches(ips[..m], IpBatch), Batches(ips[m..], IpBatch));
    } else {
      assert ips[..m] == ips;
    }
  }

  /** What one group's call leaves: the call log, the instances and the
      cache advance by that group. */
  lemma QueryOutcome(start: seq<ApiCall>, mid: seq<ApiCall>, after: seq<ApiCall>, remote: Remote,
                     ips: seq<string>, done: nat, m: nat, vpcId: string, cache: map<string, Instance>)
    requires done < m <= |ips| && m - done <= IpBatch
    requires done % IpBatch == 0 && (m % IpBatch == 0 || m == |ips|)
    requires mid == start + IpCalls(Batches(ips[..done], IpBatch))
    requires after == mid + [IpCall(ips[done..m])]
    ensures var groups := Batches(ips[..done], IpBatch);
            var reply := remote.answer(|mid|, IpCall(ips[done..m]));
            var next := Batches(ips[..m], IpBatch);
            && after == start + IpCalls(next)
            && Stopped(start, after, IpCalls(Batches(ips, IpBatch)))
            && Gathered(remote, |start|, next, vpcId, ips)
               == Gathered(remote, |start|, groups, vpcId, ips) + Harvest(reply.instances, vpcId, ips)
            && GatheredCache(cache, remote, |start|, next, vpcId, ips)
               == HarvestCache(GatheredCache(cache, remote, |start|, groups, vpcId, ips), reply.instances, vpcId, ips)
            && (AllAnswered(remote, |start|, next) <==> AllAnswered(remote, |start|, groups) && reply.error.None?)
  {
    var g := ips[done..m];
    var groups := Batches(ips[..done], IpBatch);
    var next := Batches(ips[..m], IpBatch);
    IpBatchStep(ips, done, m);
    assert next == groups + [g];
    GroupsAppend(cache, remote, |start|, groups, g, vpcId, ips);
    assert |mid| == |start| + |groups|;
    assert after == start + IpCalls(next) by {
      assert IpCalls(next) == IpCalls(groups) + [IpCall(g)];
    }
    IpCallsPrefix(ips, m);
    PrefixBehind(start, IpCalls(next), IpCalls(Batches(ips, IpBatch)));
  }

  /** The inner loop over one instance's private IPs: each one found in the
      sorted list of wanted IPs is cached and yields a copy. */
  method CopyMatches(cloud: Cloud, inst: Instance, wanted: seq<string>) returns (copies: seq<Instance>)
    requires Sorted(wanted)
    modifies cloud`vmByIp
    ensures copies == Copies(inst, inst.privateIps, wanted)
    ensures cloud.vmByIp == CopyCache(old(cloud.vmByIp), inst, inst.privateIps, wanted)
  {
    var ips := inst.privateIps;
    copies := [];
    var k := 0;
    while k < |ips|
      invariant 0 <= k <= |ips|
      invariant copies == Copies(inst, ips[..k], wanted)
      invariant cloud.vmByIp == CopyCache(old(cloud.vmByIp), inst, ips[..k], wanted)
    {
      assert ips[..k + 1][..k] == ips[..k];
      var found := IsExist(ips[k], wanted);
      if found {
        cloud.vmByIp := cloud.vmByIp[ips[k] := inst];
        copies := copies + [inst];
      }
      k := k + 1;
    }
    assert ips[..k] == ips;
  }

  /** The scan of one reply: instances of other VPCs are skipped, the rest
      contribute their matching copies. */
  method HarvestReply(cloud: Cloud, insts: seq<Instance>, wanted: seq<string>) returns (found: seq<Instance>)
    requires Sorted(wanted)
    modifies cloud`vmByIp
    ensures found == Harvest(insts, cloud.txConfig.vpcId, wanted)
    ensures cloud.vmByIp == HarvestCache(old(cloud.vmByIp), insts, cloud.txConfig.vpcId, wanted)
  {
    found := [];
    var j := 0;
    while j < |insts|
      invariant 0 <= j <= |insts|
      invariant found == Harvest(insts[..j], cloud.txConfig.vpcId, wanted)
      invariant cloud.vmByIp == HarvestCache(old(cloud.vmByIp), insts[..j], cloud.txConfig.vpcId, wanted)
    {
      assert insts[..j + 1][..j] == insts[..j];
      var inst := insts[j];
      if inst.vpcId == cloud.txConfig.vpcId {
        var copies := CopyMatches(cloud, inst, wanted);
        found := found + copies;
      }
      j := j + 1;
    }
    assert insts[..j] == insts;
  }

  /** The first loop of `getInstanceByInstancePrivateIps`: cached IPs give
      their instance at once, the others are kept to be asked for. */
  method CollectCached(cloud: Cloud, privateIps: seq<string>) returns (hits: seq<Instance>, ips: seq<string>)
    ensures hits == CachedHits(privateIps, cloud.vmByIp)
    ensures ips == Uncached(privateIps, cloud.vmByIp)
  {
    hits, ips := [], [];
    var k := 0;
    while k < |privateIps|
      invariant 0 <= k <= |privateIps|
      invariant hits == CachedHits(privateIps[..k], cloud.vmByIp)
      invariant ips == Uncached(privateIps[..k], cloud.vmByIp)
    {
      assert privateIps[..k + 1][..k] == privateIps[..k];
      var ip := privateIps[k];
      if ip in cloud.vmByIp {
        hits := hits + [cloud.vmByIp[ip]];
      } else {
        ips := ips + [ip];
      }
      k := k + 1;
    }
    assert privateIps[..k] == privateIps;
  }

  /** The lookup has sent the groups of `ips[..done]` since `start`: all
      answered, their instances gathered after `hits`, their matches cached. */
  ghost predicate Queried(remote: Remote, vpcId: string, calls: seq<ApiCall>, vmByIp: map<string, Instance>,
                          start: seq<ApiCall>, cache: map<string, Instance>, hits: seq<Instance>,
                          instances: seq<Instance>, ips: seq<string>, done: nat)
    requires done <= |ips|
  {
    var groups := Batches(ips[..done], IpBatch);
    && calls == start + IpCalls(groups)
    && AllAnswered(remote, |start|, groups)
    && instances == hits + Gathered(remote, |start|, groups, vpcId, ips)
    && vmByIp == GatheredCache(cache, remote, |start|, groups, vpcId, ips)
  }

  /** `Queried`, of the cloud's own state. */
  ghost predicate QueriedUpTo(cloud: Cloud, start: seq<ApiCall>, cache: map<string, Instance>, hits: seq<Instance>,
                              instances: seq<Instance>, ips: seq<string>, done: nat)
    requires done <= |ips|
    reads cloud`calls, cloud`vmByIp
  {
    Queried(cloud.remote, cloud.txConfig.vpcId, cloud.calls, cloud.vmByIp, start, cache, hits, instances, ips, done)
  }

  /** One more group answered and harvested advances the lookup by it. */
  lemma QueryAdvance(remote: Remote, vpcId: string, calls: seq<ApiCall>, vmByIp: map<string, Instance>,
                     start: seq<ApiCall>, cache: map<string, Instance>, hits: seq<Instance>,
                     instances: seq<Instance>, ips: seq<string>, done: nat, m: nat,
                     found: seq<Instance>, vmAfter: map<string, Instance>)
    requires done < m <= |ips| && m - done <= IpBatch
    requires done % IpBatch == 0 && (m % IpBatch == 0 || m == |ips|)
    requires Queried(remote, vpcId, calls, vmByIp, start, cache, hits, instances, ips, done)
    requires var reply := remote.answer(|calls|, IpCall(ips[done..m]));
             && reply.error.None?
             && found == Harvest(reply.instances, vpcId, ips)
             && vmAfter == HarvestCache(vmByIp, reply.instances, vpcId, ips)
    ensures Queried(remote, vpcId, calls + [IpCall(ips[done..m])], vmAfter, start, cache, hits, instances + found, ips, m)
  {
    QueryOutcome(start, calls, calls + [IpCall(ips[done..m])], remote, ips, done, m, vpcId, cache);
  }

  /** A failed group stops the lookup inside its plan, with the cache as
      the earlier groups left it. */
  lemma QueryFailed(remote: Remote, vpcId: string, calls: seq<ApiCall>, vmByIp: map<string, Instance>,
                    start: seq<ApiCall>, cache: map<string, Instance>, hits: seq<Instance>,
                    instances: seq<Instance>, ips: seq<string>, done: nat, m: nat)
    requires done < m <= |ips| && m - done <= IpBatch
    requires done % IpBatch == 0 && (m % IpBatch == 0 || m == |ips|)
    requires Queried(remote, vpcId, calls, vmByIp, start, cache, hits, instances, ips, done)
    ensures Stopped(start, calls + [IpCall(ips[done..m])], IpCalls(Batches(ips, IpBatch)))
    ensures vmByIp == GatheredCache(cache, remote, |start|, Batches(ips[..done], IpBatch), vpcId, ips)
  {
    QueryOutcome(start, calls, calls + [IpCall(ips[done..m])], remote, ips, done, m, vpcId, cache);
  }

  /** The last call made failed, and `e` carries its error. */
  predicate FailedLast(cloud: Cloud, e: Error)
    reads cloud`calls
  {
    LastCallFailed(cloud.remote, cloud.calls, e)
  }

  /** The flush of one group `batch`, which is `ips[done..m]`: one call, then the reply's
      harvest, or its error. */
  method QueryGroup(cloud: Cloud, ips: seq<string>, ghost done: nat, ghost m: nat, batch: seq<string>, instances: seq<Instance>,
                    ghost start: seq<ApiCall>, ghost cache: map<string, Instance>, ghost hits: seq<Instance>)
    returns (err: Option<Error>, more: seq<Instance>)
    requires Sorted(ips)
    requires done < m <= |ips| && m - done <= IpBatch
    requires done % IpBatch == 0 && (m % IpBatch == 0 || m == |ips|) && batch == ips[done..m]
    requires QueriedUpTo(cloud, start, cache, hits, instances, ips, done)
    modifies cloud`calls, cloud`vmByIp
    ensures err.None? ==> QueriedUpTo(cloud, start, cache, hits, more, ips, m)
    ensures err.Some? ==> Stopped(start, cloud.calls, IpCalls(Batches(ips, IpBatch))) && FailedLast(cloud, err.value)
    ensures err.Some? ==> cloud.vmByIp == GatheredCache(cache, cloud.remote, |start|, Batches(ips[..done], IpBatch), cloud.txConfig.vpcId, ips)
    ensures err.Some? ==> cloud.calls == old(cloud.calls) + [IpCall(batch)]
  {
    ghost var mid := cloud.calls;
    ghost var vmMid := cloud.vmByIp;
    var reply := cloud.Invoke(IpCall(batch));
    if reply.error.Some? {
      QueryFailed(cloud.remote, cloud.txConfig.vpcId, mid, vmMid, start, cache, hits, instances, ips, done, m);
      return Some(Sdk(reply.error.value)), instances;
    }
    var found := HarvestReply(cloud, reply.instances, ips);
    more := instances + found;
    QueryAdvance(cloud.remote, cloud.txConfig.vpcId, mid, vmMid, start, cache, hits, instances, ips, done, m, found, cloud.vmByIp);
    err := None;
  }

  /** A slice grows by the element after it. */
  lemma SliceExtend(s: seq<string>, a: nat, b: nat)
    requires a <= b < |s|
    ensures s[a..b] + [s[b]] == s[a..b + 1]
  {
  }

  /** Without a flush at `i`, the open group stays below five IPs and the
      list goes on. */
  lemma GroupOpen(i: nat, done: nat, count: nat)
    requires done <= i < count && done % IpBatch == 0 && i - done < IpBatch
    requires !((i > 0 && (i + 1) % IpBatch == 0) || i == count - 1)
    ensures i + 1 - done < IpBatch && i + 1 < count
  {
  }

  /** The second loop: the sorted IPs are asked for five to a call, the
      group being sent when it holds five or the list ends; each reply is
      harvested against the whole sorted list. The first failed call ends
      the lookup with its error. */
  method QueryUncached(cloud: Cloud, ips: seq<string>, hits: seq<Instance>) returns (r: Result<seq<Instance>, Error>, ghost sent: nat)
    requires Sorted(ips)
    modifies cloud`calls, cloud`vmByIp
    ensures r.Ok? ==> QueriedUpTo(cloud, old(cloud.calls), old(cloud.vmByIp), hits, r.value, ips, |ips|)
    ensures r.Err? ==> Stopped(old(cloud.calls), cloud.calls, IpCalls(Batches(ips, IpBatch))) && FailedLast(cloud, r.error)
    ensures r.Err? ==>
              && sent <= |ips| && sent % IpBatch == 0
              && AllAnswered(cloud.remote, |old(cloud.calls)|, Batches(ips[..sent], IpBatch))
              && |cloud.calls| == |old(cloud.calls)| + |Batches(ips[..sent], IpBatch)| + 1
    ensures sent <= |ips| && (r.Ok? ==> sent == |ips|)
    ensures cloud.vmByIp == GatheredCache(old(cloud.vmByIp), cloud.remote, |old(cloud.calls)|, Batches(ips[..sent], IpBatch),
                                          cloud.txConfig.vpcId, ips)
  {
    ghost var start := cloud.calls;
    ghost var cache := cloud.vmByIp;
    var instances := hits;
    var count := |ips|;
    var requestIps: seq<string> := [];
    ghost var done: nat := 0;
    var i := 0;
    while i < count
      invariant 0 <= done <= i <= count
      invariant requestIps == ips[done..i] && i - done < IpBatch
      invariant done % IpBatch == 0 || done == count
      invariant i == count ==> done == count
      invariant QueriedUpTo(cloud, start, cache, hits, instances, ips, done)
    {
      SliceExtend(ips, done, i);
      requestIps := requestIps + [ips[i]];
      if (i > 0 && (i + 1) % IpBatch == 0) || i == count - 1 {
        var err;
        ghost var before := cloud.calls;
        assert |before| == |start| + |Batches(ips[..done], IpBatch)|;
        err, instances := QueryGroup(cloud, ips, done, i + 1, requestIps, instances, start, cache, hits);
        if err.Some? {
          return Err(err.value), done;
        }
        requestIps := [];
        done := i + 1;
      } else {
        GroupOpen(i, done, count);
      }
      i := i + 1;
    }
    r, sent := Ok(instances), count;
  }

  /** `getInstanceByInstancePrivateIps`: the cached instances in the order
      asked, then what the remote returns for the uncached IPs, sorted and
      asked five to a call. Only replies and cache entries of the configured
      VPC are used. */
  method GetInstancesByPrivateIps(cloud: Cloud, privateIps: seq<string>) returns (r: Result<seq<Instance>, Error>)
    modifies cloud`calls, cloud`vmByIp
    ensures var wanted := Wanted(privateIps, old(cloud.vmByIp));
            var groups := Batches(wanted, IpBatch);
            var base := |old(cloud.calls)|;
            r.Ok? ==>
                  && AllAnswered(cloud.remote, base, groups)
                  && cloud.calls == old(cloud.calls) + IpCalls(groups)
                  && r.value == CachedHits(privateIps, old(cloud.vmByIp))
                                + Gathered(cloud.remote, base, groups, cloud.txConfig.vpcId, wanted)
                  && cloud.vmByIp == GatheredCache(old(cloud.vmByIp), cloud.remote, base, groups, cloud.txConfig.vpcId, wanted)
    ensures r.Err? ==>
              var wanted := Wanted(privateIps, old(cloud.vmByIp));
              && Stopped(old(cloud.calls), cloud.calls, IpCalls(Batches(wanted, IpBatch))) && FailedLast(cloud, r.error)
              && |cloud.calls| - |old(cloud.calls)| - 1 <= |Batches(wanted, IpBatch)|
              && var answered := Batches(wanted, IpBatch)[..|cloud.calls| - |old(cloud.calls)| - 1];
                 && AllAnswered(cloud.remote, |old(cloud.calls)|, answered)
                 && cloud.vmByIp == GatheredCache(old(cloud.vmByIp), cloud.remote, |old(cloud.calls)|, answered, cloud.txConfig.vpcId, wanted)
    ensures old(VmCacheSound(cloud)) ==> VmCacheSound(cloud)
  {
    var hits, ips := CollectCached(cloud, privateIps);
    ghost var cache := cloud.vmByIp;
    ghost var start := cloud.calls;
    var sorted := SortStrings(ips);
    ghost var sent;
    r, sent := QueryUncached(cloud, sorted, hits);
    if r.Ok? {
      QueriedAll(cloud, start, cache, hits, r.value, sorted);
    } else {
      assert start == old(cloud.calls) && cache == old(cloud.vmByIp);
      assert sorted == Wanted(privateIps, cache);
      AnsweredBeforeFailure(cloud.remote, cache, start, cloud.calls, sorted, sent, cloud.txConfig.vpcId, cloud.vmByIp);
    }
    if old(VmCacheSound(cloud)) {
      GatheredCacheEntries(cache, cloud.remote, |start|, Batches(sorted[..sent], IpBatch), cloud.txConfig.vpcId, sorted);
      SoundAfterGrowth(cache, cloud.vmByIp, cloud.txConfig.vpcId, sorted);
    }
  }

  /** The groups of a list cut after a whole number of groups start the
      groups of the whole list. */
  lemma BatchesPrefix(s: seq<string>, m: nat)
    requires m <= |s| && m % IpBatch == 0
    ensures Batches(s[..m], IpBatch) <= Batches(s, IpBatch)
  {
    assert s == s[..m] + s[m..];
    assert |s[..m]| == (m / IpBatch) * IpBatch;
    BatchesSplit(s[..m], s[m..], IpBatch, m / IpBatch);
  }

  /** A lookup that failed after `sent` IPs: the groups before the failed
      one were all answered, and their matches are what the cache gained. */
  lemma AnsweredBeforeFailure(remote: Remote, cache: map<string, Instance>, start: seq<ApiCall>, calls: seq<ApiCall>,
                              ips: seq<string>, sent: nat, vpcId: string, vmByIp: map<string, Instance>)
    requires sent <= |ips| && sent % IpBatch == 0
    requires AllAnswered(remote, |start|, Batches(ips[..sent], IpBatch))
    requires |calls| == |start| + |Batches(ips[..sent], IpBatch)| + 1
    requires vmByIp == GatheredCache(cache, remote, |start|, Batches(ips[..sent], IpBatch), vpcId, ips)
    ensures |calls| - |start| - 1 <= |Batches(ips, IpBatch)|
    ensures var answered := Batches(ips, IpBatch)[..|calls| - |start| - 1];
            && AllAnswered(remote, |start|, answered)
            && vmByIp == GatheredCache(cache, remote, |start|, answered, vpcId, ips)
  {
    var first := Batches(ips[..sent], IpBatch);
    BatchesPrefix(ips, sent);
    assert Batches(ips, IpBatch)[..|calls| - |start| - 1] == first;
  }

  /** The whole list sent: the progress facts written out. */
  lemma QueriedAll(cloud: Cloud, start: seq<ApiCall>, cache: map<string, Instance>, hits: seq<Instance>,
                   instances: seq<Instance>, ips: seq<string>)
    requires QueriedUpTo(cloud, start, cache, hits, instances, ips, |ips|)
    ensures var groups := Batches(ips, IpBatch);
            && AllAnswered(cloud.remote, |start|, groups)
            && cloud.calls == start + IpCalls(groups)
            && instances == hits + Gathered(cloud.remote, |start|, groups, cloud.txConfig.vpcId, ips)
            && cloud.vmByIp == GatheredCache(cache, cloud.remote, |start|, groups, cloud.txConfig.vpcId, ips)
  {
    assert ips[..|ips|] == ips;
  }

  // ---------------------------------------------------------------------
  // One private IP

  /** A reply instance answers for `ip`: it is of the VPC and holds it. */
  predicate Answers(x: Instance, vpcId: string, ip: string)
  {
    x.vpcId == vpcId && ip in x.privateIps
  }

  /** Harvesting nothing but `ip`: every instance harvested answers for it,
      and something is harvested exactly when some instance does. */
  lemma {:induction false} HarvestOne(insts: seq<Instance>, vpcId: string, ip: string)
    ensures forall x :: x in Harvest(insts, vpcId, [ip]) ==> x in insts && Answers(x, vpcId, ip)
    ensures |Harvest(insts, vpcId, [ip])| > 0 <==> exists k :: 0 <= k < |insts| && Answers(insts[k], vpcId, ip)
    decreases |insts|
  {
    HarvestMembers(insts, vpcId, [ip]);
    if insts != [] {
      var init := insts[..|insts| - 1];
      var inst := insts[|insts| - 1];
      HarvestOne(init, vpcId, ip);
      CopiesMembers(inst, inst.privateIps, [ip]);
      if exists k :: 0 <= k < |init| && Answers(init[k], vpcId, ip) {
        var k :| 0 <= k < |init| && Answers(init[k], vpcId, ip);
        assert insts[k] == init[k];
      }
      if exists k :: 0 <= k < |insts| && Answers(insts[k], vpcId, ip) {
        var k :| 0 <= k < |insts| && Answers(insts[k], vpcId, ip);
        if k == |insts| - 1 {
          var j :| 0 <= j < |inst.privateIps| && inst.privateIps[j] == ip;
          assert inst.privateIps[j] in [ip];
        } else {
          assert init[k] == insts[k];
        }
      }
    }
  }

  /** A single uncached IP is one group of one call. */
  lemma OneIp(ip: string, cache: map<string, Instance>, remote: Remote, base: nat, vpcId: string)
    requires ip !in cache
    ensures Wanted([ip], cache) == [ip]
    ensures CachedHits([ip], cache) == []
    ensures Batches([ip], IpBatch) == [[ip]]
    ensures IpCalls([[ip]]) == [IpCall([ip])]
    ensures var reply := remote.answer(base, IpCall([ip]));
            && (AllAnswered(remote, base, [[ip]]) <==> reply.error.None?)
            && Gathered(remote, base, [[ip]], vpcId, [ip]) == Harvest(reply.instances, vpcId, [ip])
            && GatheredCache(cache, remote, base, [[ip]], vpcId, [ip]) == HarvestCache(cache, reply.instances, vpcId, [ip])
  {
    assert [ip][..0] == [];
    assert Uncached([ip], cache) == [ip];
    assert SortStrings([ip]) == [ip] by { assert [ip][1..] == []; }
    assert [[ip]][..0] == [];
    assert GroupReply(remote, base, [[ip]], 0) == remote.answer(base, IpCall([ip]));
  }

  /** The inner loop of the search: whether the instance holds `ip`. */
  method HoldsIp(inst: Instance, ip: string) returns (holds: bool)
    ensures holds <==> ip in inst.privateIps
  {
    var k := 0;
    while k < |inst.privateIps|
      invariant 0 <= k <= |inst.privateIps|
      invariant ip !in inst.privateIps[..k]
    {
      if inst.privateIps[k] == ip {
        return true;
      }
      assert inst.privateIps[..k + 1] == inst.privateIps[..k] + [inst.privateIps[k]];
      k := k + 1;
    }
    assert inst.privateIps[..k] == inst.privateIps;
    holds := false;
  }

  /** The first instance of the list that holds `ip`. */
  method FindHolder(insts: seq<Instance>, ip: string) returns (found: Option<Instance>)
    ensures found.None? <==> forall k :: 0 <= k < |insts| ==> ip !in insts[k].privateIps
    ensures found.Some? ==> exists k :: 0 <= k < |insts| && insts[k] == found.value && ip in found.value.privateIps
                                        && forall j :: 0 <= j < k ==> ip !in insts[j].privateIps
  {
    var k := 0;
    while k < |insts|
      invariant 0 <= k <= |insts|
      invariant forall j :: 0 <= j < k ==> ip !in insts[j].privateIps
    {
      var holds := HoldsIp(insts[k], ip);
      if holds {
        return Some(insts[k]);
      }
      k := k + 1;
    }
    found := None;
  }

  /** What `getInstanceByInstancePrivateIp` returns, made after `base`
      earlier calls on the `vm_ip_` cache `cache`: the cached instance, or
      the first instance the one-IP lookup harvests, or the lookup's error,
      or InstanceNotFound. */
  function PrivateIpLookup(remote: Remote, vpcId: string, base: nat, cache: map<string, Instance>, ip: string): Result<Instance, Error>
  {
    if ip in cache then Ok(cache[ip])
    else
      var reply := remote.answer(base, IpCall([ip]));
      if reply.error.Some? then Err(Sdk(reply.error.value))
      else
        var h := Harvest(reply.instances, vpcId, [ip]);
        if |h| > 0 then Ok(h[0]) else Err(InstanceNotFound)
  }

  /** After a good reply to an uncached IP, the lookup finds an instance
      of the reply answering for the IP exactly when there is one; with a
      sound cache, whatever it returns answers for the IP. */
  lemma PrivateIpLookupAnswers(remote: Remote, vpcId: string, base: nat, cache: map<string, Instance>, ip: string)
    ensures var r := PrivateIpLookup(remote, vpcId, base, cache, ip);
            var reply := remote.answer(base, IpCall([ip]));
            && (ip !in cache && reply.error.None? ==> SingleOutcome(r, reply.instances, vpcId, ip))
            && ((forall c :: c in cache ==> Answers(cache[c], vpcId, c)) && r.Ok? ==> Answers(r.value, vpcId, ip))
  {
    var reply := remote.answer(base, IpCall([ip]));
    HarvestOne(reply.instances, vpcId, ip);
    var h := Harvest(reply.instances, vpcId, [ip]);
    if |h| > 0 {
      assert h[0] in h;
    }
  }

  /** `getInstanceByInstancePrivateIp`: a cached instance at once; otherwise
      the lookup of the one IP, then the first instance returned that holds
      it, or InstanceNotFound. */
  method GetInstanceByPrivateIp(cloud: Cloud, ip: string) returns (r: Result<Instance, Error>)
    modifies cloud`calls, cloud`vmByIp
    ensures r == PrivateIpLookup(cloud.remote, cloud.txConfig.vpcId, |old(cloud.calls)|, old(cloud.vmByIp), ip)
    ensures ip in old(cloud.vmByIp) ==> cloud.calls == old(cloud.calls) && cloud.vmByIp == old(cloud.vmByIp)
    ensures ip !in old(cloud.vmByIp) ==>
              var reply := cloud.remote.answer(|old(cloud.calls)|, IpCall([ip]));
              && cloud.calls == old(cloud.calls) + [IpCall([ip])]
              && (reply.error.None? ==> cloud.vmByIp == HarvestCache(old(cloud.vmByIp), reply.instances, cloud.txConfig.vpcId, [ip]))
    ensures cloud.vmByIp == IpLookupCache(cloud.remote, cloud.txConfig.vpcId, |old(cloud.calls)|, old(cloud.vmByIp), ip)
    ensures old(VmCacheSound(cloud)) ==> VmCacheSound(cloud)
  {
    if ip in cloud.vmByIp {
      return Ok(cloud.vmByIp[ip]);
    }
    ghost var base := |cloud.calls|;
    var many := GetInstancesForOneIp(cloud, ip);
    if many.Err? {
      return Err(many.error);
    }
    var found := FindHolder(many.value, ip);
    ghost var reply := cloud.remote.answer(base, IpCall([ip]));
    HarvestOne(reply.instances, cloud.txConfig.vpcId, ip);
    FirstHolderHead(many.value, ip, found);
    if found.None? {
      r := Err(InstanceNotFound);
    } else {
      r := Ok(found.value);
    }
  }

  /** The many-IP lookup of `getInstanceByInstancePrivateIp` for one
      uncached IP: one call, whose reply, harvested for the IP, is the
      outcome and fills the cache. */
  method GetInstancesForOneIp(cloud: Cloud, ip: string) returns (r: Result<seq<Instance>, Error>)
    requires ip !in cloud.vmByIp
    modifies cloud`calls, cloud`vmByIp
    ensures cloud.calls == old(cloud.calls) + [IpCall([ip])]
    ensures var reply := cloud.remote.answer(|old(cloud.calls)|, IpCall([ip]));
            && (r.Ok? <==> reply.error.None?)
            && (r.Err? ==> r.error == Sdk(reply.error.value) && cloud.vmByIp == old(cloud.vmByIp))
            && (r.Ok? ==> r.value == Harvest(reply.instances, cloud.txConfig.vpcId, [ip])
                          && cloud.vmByIp == HarvestCache(old(cloud.vmByIp), reply.instances, cloud.txConfig.vpcId, [ip]))
    ensures old(VmCacheSound(cloud)) ==> VmCacheSound(cloud)
  {
    r := GetInstancesByPrivateIps(cloud, [ip]);
    OneIpOutcome(cloud.remote, cloud.txConfig.vpcId, ip, old(cloud.vmByIp), old(cloud.calls), cloud.calls, cloud.vmByIp, r);
  }

  /** The many-IP lookup asked for one uncached IP makes one call, and its
      outcome is that call's reply harvested for the IP. */
  lemma OneIpOutcome(remote: Remote, vpcId: string, ip: string, cache: map<string, Instance>,
                     before: seq<ApiCall>, after: seq<ApiCall>, vmAfter: map<string, Instance>,
                     r: Result<seq<Instance>, Error>)
    requires ip !in cache
    requires var wanted := Wanted([ip], cache);
             var groups := Batches(wanted, IpBatch);
             && (r.Ok? ==>
                   && AllAnswered(remote, |before|, groups)
                   && after == before + IpCalls(groups)
                   && r.value == CachedHits([ip], cache) + Gathered(remote, |before|, groups, vpcId, wanted)
                   && vmAfter == GatheredCache(cache, remote, |before|, groups, vpcId, wanted))
             && (r.Err? ==>
                   && Stopped(before, after, IpCalls(groups))
                   && |after| > 0
                   && var last := remote.answer(|after| - 1, after[|after| - 1]);
                      last.error.Some? && r.error == Sdk(last.error.value))
             && (r.Err? ==>
                   && |after| - |before| - 1 <= |groups|
                   && vmAfter == GatheredCache(cache, remote, |before|, groups[..|after| - |before| - 1], vpcId, wanted))
    ensures after == before + [IpCall([ip])]
    ensures var reply := remote.answer(|before|, IpCall([ip]));
            && (r.Ok? <==> reply.error.None?)
            && (r.Err? ==> r.error == Sdk(reply.error.value) && vmAfter == cache)
            && (r.Ok? ==> r.value == Harvest(reply.instances, vpcId, [ip])
                          && vmAfter == HarvestCache(cache, reply.instances, vpcId, [ip]))
  {
    OneIp(ip, cache, remote, |before|, vpcId);
    if r.Err? {
      assert after == before + [IpCall([ip])];
      assert Batches(Wanted([ip], cache), IpBatch)[..0] == [];
    }
  }

  /** When every instance of `h` holds `ip`, the first holder is the head. */
  lemma FirstHolderHead(h: seq<Instance>, ip: string, found: Option<Instance>)
    requires forall x :: x in h ==> ip in x.privateIps
    requires found.None? <==> forall k :: 0 <= k < |h| ==> ip !in h[k].privateIps
    requires found.Some? ==> exists k :: 0 <= k < |h| && h[k] == found.value && ip in found.value.privateIps
                                        && forall j :: 0 <= j < k ==> ip !in h[j].privateIps
    ensures found.None? <==> |h| == 0
    ensures found.Some? ==> found.value == h[0]
  {
    if |h| > 0 {
      assert h[0] in h;
    }
  }

  /** What the single-IP lookup returns after a good reply: an instance of
      the reply that answers for `ip` exactly when there is one, and
      InstanceNotFound otherwise. */
  predicate SingleOutcome(r: Result<Instance, Error>, insts: seq<Instance>, vpcId: string, ip: string)
  {
    && (r.Ok? <==> exists k :: 0 <= k < |insts| && Answers(insts[k], vpcId, ip))
    && (r.Ok? ==> r.value in insts && Answers(r.value, vpcId, ip))
    && (r.Err? ==> r.error == InstanceNotFound)
  }

  // ---------------------------------------------------------------------
  // Instance id and provider id

  /** An instance of the VPC with the given id. */
  predicate IsInstance(x: Instance, vpcId: string, id: string)
  {
    x.vpcId == vpcId && x.instanceId == id
  }

  /** The first instance of the list that is of the VPC and has the id. */
  function FirstMatch(insts: seq<Instance>, vpcId: string, id: string): Option<Instance>
  {
    if insts == [] then None
    else if IsInstance(insts[0], vpcId, id) then Some(insts[0])
    else FirstMatch(insts[1..], vpcId, id)
  }

  /** `FirstMatch` finds a match exactly when there is one, and the one it
      finds comes before every other. */
  lemma {:induction false} FirstMatchFinds(insts: seq<Instance>, vpcId: string, id: string)
    ensures FirstMatch(insts, vpcId, id).None? <==> forall k :: 0 <= k < |insts| ==> !IsInstance(insts[k], vpcId, id)
    ensures FirstMatch(insts, vpcId, id).Some? ==>
              exists k :: 0 <= k < |insts| && insts[k] == FirstMatch(insts, vpcId, id).value
                          && IsInstance(insts[k], vpcId, id)
                          && forall j :: 0 <= j < k ==> !IsInstance(insts[j], vpcId, id)
    decreases |insts|
  {
    if insts != [] && !IsInstance(insts[0], vpcId, id) {
      var rest := insts[1..];
      FirstMatchFinds(rest, vpcId, id);
      assert forall k :: 1 <= k < |insts| ==> insts[k] == rest[k - 1];
      if FirstMatch(rest, vpcId, id).Some? {
        var k :| 0 <= k < |rest| && rest[k] == FirstMatch(rest, vpcId, id).value
                 && IsInstance(rest[k], vpcId, id) && forall j :: 0 <= j < k ==> !IsInstance(rest[j], vpcId, id);
        assert insts[k + 1] == rest[k];
      }
    }
  }

  /** What `getInstanceByInstanceID` returns, made after `base` earlier calls
      on the `vm_id_` cache `cache`. */
  function InstanceIdLookup(remote: Remote, vpcId: string, base: nat, cache: map<string, Instance>, id: string): Result<Instance, Error>
  {
    if id in cache then Ok(cache[id])
    else
      var reply := remote.answer(base, DescribeInstancesById(id));
      if reply.error.Some? then Err(Sdk(reply.error.value))
      else
        match FirstMatch(reply.instances, vpcId, id)
        case Some(x) => Ok(x)
        case None => Err(InstanceNotFound)
  }

  /** With a sound cache, an instance found by id has that id and is of the
      VPC; an uncached id is found exactly when a good reply holds a match. */
  lemma InstanceIdLookupMeaning(remote: Remote, vpcId: string, base: nat, cache: map<string, Instance>, id: string)
    ensures var r := InstanceIdLookup(remote, vpcId, base, cache, id);
            && ((forall c :: c in cache ==> IsInstance(cache[c], vpcId, c)) && r.Ok? ==> IsInstance(r.value, vpcId, id))
            && (id !in cache ==>
                  var reply := remote.answer(base, DescribeInstancesById(id));
                  r.Ok? <==> reply.error.None? && exists k :: 0 <= k < |reply.instances| && IsInstance(reply.instances[k], vpcId, id))
  {
    FirstMatchFinds(remote.answer(base, DescribeInstancesById(id)).instances, vpcId, id);
  }

  /** `getInstanceByInstanceID`: a cached instance at once; otherwise one
      call filtered by instance id, whose first instance of the VPC with
      that id is cached and returned. */
  method GetInstanceByInstanceID(cloud: Cloud, id: string) returns (r: Result<Instance, Error>)
    modifies cloud`calls, cloud`vmById
    ensures r == InstanceIdLookup(cloud.remote, cloud.txConfig.vpcId, |old(cloud.calls)|, old(cloud.vmById), id)
    ensures id in old(cloud.vmById) ==> cloud.calls == old(cloud.calls)
    ensures id !in old(cloud.vmById) ==> cloud.calls == old(cloud.calls) + [DescribeInstancesById(id)]
    ensures cloud.vmById == if id !in old(cloud.vmById) && r.Ok? then old(cloud.vmById)[id := r.value] else old(cloud.vmById)
  {
    if id in cloud.vmById {
      return Ok(cloud.vmById[id]);
    }
    var reply := cloud.Invoke(DescribeInstancesById(id));
    if reply.error.Some? {
      return Err(Sdk(reply.error.value));
    }
    var insts := reply.instances;
    var vpcId := cloud.txConfig.vpcId;
    var j := 0;
    while j < |insts|
      invariant 0 <= j <= |insts|
      invariant FirstMatch(insts, vpcId, id) == FirstMatch(insts[j..], vpcId, id)
      invariant cloud.vmById == old(cloud.vmById)
    {
      assert insts[j..][1..] == insts[j + 1..];
      var inst := insts[j];
      if inst.vpcId != vpcId {
        j := j + 1;
        continue;
      }
      if id == inst.instanceId {
        cloud.vmById := cloud.vmById[id := inst];
        return Ok(inst);
      }
      j := j + 1;
    }
    r := Err(InstanceNotFound);
  }

  /** The prefix a provider id starts with. */
  const ProviderPrefix := ProviderName + "://"

  /** `getInstanceByProviderID`'s parse: strip the prefix when present,
      split at '/', and take the third piece when there are exactly three. */
  function ParseProviderId(providerId: string): (r: Result<string, Error>)
    ensures r.Err? ==> r.error == InvalidProviderId(providerId)
    ensures r.Ok? ==> '/' !in r.value
  {
    var parts := Split(TrimPrefix(providerId, ProviderPrefix), '/');
    SplitPieces(TrimPrefix(providerId, ProviderPrefix), '/');
    if |parts| == 3 then Ok(parts[2]) else Err(InvalidProviderId(providerId))
  }

  /** The node's instance id as `InstanceID` reports it: "/zone/id". */
  function InstanceIdString(zone: string, id: string): (s: string)
    ensures |s| == |zone| + |id| + 2 && s[0] == '/'
  {
    "/" + zone + "/" + id
  }

  /** A provider id built from the zone and id `InstanceID` reports parses
      back to the id, when neither holds a '/'. */
  lemma ProviderIdRoundTrip(zone: string, id: string)
    requires '/' !in zone && '/' !in id
    ensures ParseProviderId(ProviderPrefix + InstanceIdString(zone, id)) == Ok(id)
  {
    var s := InstanceIdString(zone, id);
    assert ProviderPrefix <= ProviderPrefix + s;
    assert TrimPrefix(ProviderPrefix + s, ProviderPrefix) == s;
    assert s == [] + ['/'] + (zone + ['/'] + id);
    SplitFirst([], '/', zone + ['/'] + id);
    SplitFirst(zone, '/', id);
    assert Split(s, '/') == [[], zone, id];
  }

  /** An id with a '/' in it breaks the round trip: the provider id built
      from what `InstanceID` reports is refused. */
  lemma ProviderIdSlashBreaks(zone: string, a: string, b: string)
    requires '/' !in zone && '/' !in a && '/' !in b
    ensures ParseProviderId(ProviderPrefix + InstanceIdString(zone, a + "/" + b)).Err?
  {
    var s := InstanceIdString(zone, a + "/" + b);
    assert ProviderPrefix <= ProviderPrefix + s;
    assert TrimPrefix(ProviderPrefix + s, ProviderPrefix) == s;
    assert s == [] + ['/'] + (zone + ['/'] + (a + ['/'] + b));
    SplitFirst([], '/', zone + ['/'] + (a + ['/'] + b));
    SplitFirst(zone, '/', a + ['/'] + b);
    SplitFirst(a, '/', b);
    assert |Split(s, '/')| == 4;
  }

  /** What `getInstanceByProviderID` returns. */
  function ProviderIdLookup(remote: Remote, vpcId: string, base: nat, cache: map<string, Instance>, providerId: string): Result<Instance, Error>
  {
    match ParseProviderId(providerId)
    case Err(e) => Err(e)
    case Ok(id) => InstanceIdLookup(remote, vpcId, base, cache, id)
  }

  /** `getInstanceByProviderID`: a malformed provider id is refused with no
      call; otherwise the lookup by the parsed instance id. */
  method GetInstanceByProviderId(cloud: Cloud, providerId: string) returns (r: Result<Instance, Error>)
    modifies cloud`calls, cloud`vmById
    ensures r == ProviderIdLookup(cloud.remote, cloud.txConfig.vpcId, |old(cloud.calls)|, old(cloud.vmById), providerId)
    ensures ParseProviderId(providerId).Err? ==> cloud.calls == old(cloud.calls) && cloud.vmById == old(cloud.vmById)
    ensures ParseProviderId(providerId).Ok? ==>
              var id := ParseProviderId(providerId).value;
              && (id in old(cloud.vmById) ==> cloud.calls == old(cloud.calls))
              && (id !in old(cloud.vmById) ==> cloud.calls == old(cloud.calls) + [DescribeInstancesById(id)])
              && cloud.vmById == if id !in old(cloud.vmById) && r.Ok? then old(cloud.vmById)[id := r.value] else old(cloud.vmById)
    ensures cloud.vmById == ProviderIdCache(cloud.remote, cloud.txConfig.vpcId, |old(cloud.calls)|, old(cloud.vmById), providerId)
  {
    var parsed := ParseProviderId(providerId);
    if parsed.Err? {
      return Err(parsed.error);
    }
    r := GetInstanceByInstanceID(cloud, parsed.value);
  }

  // ---------------------------------------------------------------------
  // What the node controller asks

  /** The `vm_ip_` cache after the single-IP lookup: unchanged on a hit or
      a failed call, otherwise grown by the reply's matches for the IP. */
  function IpLookupCache(remote: Remote, vpcId: string, base: nat, cache: map<string, Instance>, ip: string): map<string, Instance>
  {
    if ip in cache then cache
    else
      var reply := remote.answer(base, IpCall([ip]));
      if reply.error.Some? then cache else HarvestCache(cache, reply.instances, vpcId, [ip])
  }

  /** The `vm_id_` cache after the lookup by provider id: an instance found
      by a call is cached under its id; otherwise nothing changes. */
  function ProviderIdCache(remote: Remote, vpcId: string, base: nat, cache: map<string, Instance>, providerId: string): map<string, Instance>
  {
    match ParseProviderId(providerId)
    case Err(_) => cache
    case Ok(id) =>
      var l := InstanceIdLookup(remote, vpcId, base, cache, id);
      if id !in cache && l.Ok? then cache[id := l.value] else cache
  }

  /** The calls the single-IP lookup makes. */
  function IpLookupCalls(cache: map<string, Instance>, ip: string): seq<ApiCall>
  {
    if ip in cache then [] else [IpCall([ip])]
  }

  /** The calls the provider-id lookup makes. */
  function ProviderIdCalls(cache: map<string, Instance>, providerId: string): seq<ApiCall>
  {
    match ParseProviderId(providerId)
    case Err(_) => []
    case Ok(id) => if id in cache then [] else [DescribeInstancesById(id)]
  }

  /** The address list of an instance: each private IP as an internal
      address, in order, then each public IP as an external one. */
  predicate AddressesOf(inst: Instance, addrs: seq<NodeAddress>)
  {
    && |addrs| == |inst.privateIps| + |inst.publicIps|
    && (forall k :: 0 <= k < |inst.privateIps| ==> addrs[k] == NodeAddress(InternalIP, inst.privateIps[k]))
    && (forall k :: 0 <= k < |inst.publicIps| ==> addrs[|inst.privateIps| + k] == NodeAddress(ExternalIP, inst.publicIps[k]))
  }

  /** The address list names every IP of the instance once, with its kind,
      and nothing else: an internal address is a private IP and an external
      one a public IP. */
  lemma AddressesComplete(inst: Instance, addrs: seq<NodeAddress>)
    requires AddressesOf(inst, addrs)
    ensures forall ip :: ip in inst.privateIps ==> NodeAddress(InternalIP, ip) in addrs
    ensures forall ip :: ip in inst.publicIps ==> NodeAddress(ExternalIP, ip) in addrs
    ensures forall a :: a in addrs && a.kind == InternalIP ==> a.address in inst.privateIps
    ensures forall a :: a in addrs && a.kind == ExternalIP ==> a.address in inst.publicIps
  {
    var n := |inst.privateIps|;
    forall ip | ip in inst.publicIps ensures NodeAddress(ExternalIP, ip) in addrs {
      var k :| 0 <= k < |inst.publicIps| && inst.publicIps[k] == ip;
      assert addrs[n + k] == NodeAddress(ExternalIP, ip);
    }
    forall a | a in addrs ensures (a.kind == InternalIP ==> a.address in inst.privateIps)
                                  && (a.kind == ExternalIP ==> a.address in inst.publicIps)
    {
      var k :| 0 <= k < |addrs| && addrs[k] == a;
      if k >= n {
        assert addrs[n + (k - n)] == NodeAddress(ExternalIP, inst.publicIps[k - n]);
      }
    }
  }

  /** The array fill of `NodeAddresses`: one slot per IP, private IPs first. */
  method Addresses(inst: Instance) returns (addrs: seq<NodeAddress>)
    ensures AddressesOf(inst, addrs)
  {
    var priv, pub := inst.privateIps, inst.publicIps;
    var a := new NodeAddress[|priv| + |pub|];
    for idx := 0 to |priv|
      invariant forall k :: 0 <= k < idx ==> a[k] == NodeAddress(InternalIP, priv[k])
    {
      a[idx] := NodeAddress(InternalIP, priv[idx]);
    }
    for idx := 0 to |pub|
      invariant forall k :: 0 <= k < |priv| ==> a[k] == NodeAddress(InternalIP, priv[k])
      invariant forall k :: 0 <= k < idx ==> a[|priv| + k] == NodeAddress(ExternalIP, pub[k])
    {
      a[|priv| + idx] := NodeAddress(ExternalIP, pub[idx]);
    }
    addrs := a[..];
  }

  /** `NodeAddresses`: the node name is its private IP; the addresses of
      the instance found for it, or the lookup's error. */
  method NodeAddresses(cloud: Cloud, name: string) returns (r: Result<seq<NodeAddress>, Error>)
    modifies cloud`calls, cloud`vmByIp
    ensures var l := PrivateIpLookup(cloud.remote, cloud.txConfig.vpcId, |old(cloud.calls)|, old(cloud.vmByIp), name);
            && (l.Err? ==> r == Err(l.error))
            && (l.Ok? ==> r.Ok? && AddressesOf(l.value, r.value))
    ensures cloud.calls == old(cloud.calls) + IpLookupCalls(old(cloud.vmByIp), name)
    ensures cloud.vmByIp == IpLookupCache(cloud.remote, cloud.txConfig.vpcId, |old(cloud.calls)|, old(cloud.vmByIp), name)
  {
    var node := GetInstanceByPrivateIp(cloud, name);
    if node.Err? {
      return Err(node.error);
    }
    var addrs := Addresses(node.value);
    r := Ok(addrs);
  }

  /** `NodeAddressesByProviderID`: the same for the instance found by
      provider id. */
  method NodeAddressesByProviderId(cloud: Cloud, providerId: string) returns (r: Result<seq<NodeAddress>, Error>)
    modifies cloud`calls, cloud`vmById
    ensures var l := ProviderIdLookup(cloud.remote, cloud.txConfig.vpcId, |old(cloud.calls)|, old(cloud.vmById), providerId);
            && (l.Err? ==> r == Err(l.error))
            && (l.Ok? ==> r.Ok? && AddressesOf(l.value, r.value))
    ensures cloud.calls == old(cloud.calls) + ProviderIdCalls(old(cloud.vmById), providerId)
    ensures cloud.vmById == ProviderIdCache(cloud.remote, cloud.txConfig.vpcId, |old(cloud.calls)|, old(cloud.vmById), providerId)
  {
    var instance := GetInstanceByProviderId(cloud, providerId);
    if instance.Err? {
      return Err(instance.error);
    }
    var addrs := Addresses(instance.value);
    r := Ok(addrs);
  }

  /** `ExternalID`: the instance id of the instance found for the node. */
  method ExternalId(cloud: Cloud, name: string) returns (r: Result<string, Error>)
    modifies cloud`calls, cloud`vmByIp
    ensures var l := PrivateIpLookup(cloud.remote, cloud.txConfig.vpcId, |old(cloud.calls)|, old(cloud.vmByIp), name);
            && (l.Err? ==> r == Err(l.error))
            && (l.Ok? ==> r == Ok(l.value.instanceId))
    ensures cloud.calls == old(cloud.calls) + IpLookupCalls(old(cloud.vmByIp), name)
    ensures cloud.vmByIp == IpLookupCache(cloud.remote, cloud.txConfig.vpcId, |old(cloud.calls)|, old(cloud.vmByIp), name)
  {
    var node := GetInstanceByPrivateIp(cloud, name);
    if node.Err? {
      return Err(node.error);
    }
    r := Ok(node.value.instanceId);
  }

  /** `InstanceID`: "/zone/id" of the instance found for the node. */
  method InstanceId(cloud: Cloud, name: string) returns (r: Result<string, Error>)
    modifies cloud`calls, cloud`vmByIp
    ensures var l := PrivateIpLookup(cloud.remote, cloud.txConfig.vpcId, |old(cloud.calls)|, old(cloud.vmByIp), name);
            && (l.Err? ==> r == Err(l.error))
            && (l.Ok? ==> r == Ok(InstanceIdString(l.value.zone, l.value.instanceId)))
    ensures cloud.calls == old(cloud.calls) + IpLookupCalls(old(cloud.vmByIp), name)
    ensures cloud.vmByIp == IpLookupCache(cloud.remote, cloud.txConfig.vpcId, |old(cloud.calls)|, old(cloud.vmByIp), name)
  {
    var node := GetInstanceByPrivateIp(cloud, name);
    if node.Err? {
      return Err(node.error);
    }
    r := Ok(InstanceIdString(node.value.zone, node.value.instanceId));
  }

  /** `InstanceType`: the type of the instance found for the node. */
  method InstanceType(cloud: Cloud, name: string) returns (r: Result<string, Error>)
    modifies cloud`calls, cloud`vmByIp
    ensures var l := PrivateIpLookup(cloud.remote, cloud.txConfig.vpcId, |old(cloud.calls)|, old(cloud.vmByIp), name);
            && (l.Err? ==> r == Err(l.error))
            && (l.Ok? ==> r == Ok(l.value.instanceType))
    ensures cloud.calls == old(cloud.calls) + IpLookupCalls(old(cloud.vmByIp), name)
    ensures cloud.vmByIp == IpLookupCache(cloud.remote, cloud.txConfig.vpcId, |old(cloud.calls)|, old(cloud.vmByIp), name)
  {
    var node := GetInstanceByPrivateIp(cloud, name);
    if node.Err? {
      return Err(node.error);
    }
    r := Ok(node.value.instanceType);
  }

  /** `InstanceTypeByProviderID`: the type of the instance found by
      provider id. */
  method InstanceTypeByProviderId(cloud: Cloud, providerId: string) returns (r: Result<string, Error>)
    modifies cloud`calls, cloud`vmById
    ensures var l := ProviderIdLookup(cloud.remote, cloud.txConfig.vpcId, |old(cloud.calls)|, old(cloud.vmById), providerId);
            && (l.Err? ==> r == Err(l.error))
            && (l.Ok? ==> r == Ok(l.value.instanceType))
    ensures cloud.calls == old(cloud.calls) + ProviderIdCalls(old(cloud.vmById), providerId)
    ensures cloud.vmById == ProviderIdCache(cloud.remote, cloud.txConfig.vpcId, |old(cloud.calls)|, old(cloud.vmById), providerId)
  {
    var node := GetInstanceByProviderId(cloud, providerId);
    if node.Err? {
      return Err(node.error);
    }
    r := Ok(node.value.instanceType);
  }

  /** `InstanceExistsByProviderID`: only InstanceNotFound reports the
      instance as gone; every other failure, a malformed provider id
      included, reports it as existing, with the error. */
  method InstanceExistsByProviderId(cloud: Cloud, providerId: string) returns (present: bool, err: Option<Error>)
    modifies cloud`calls, cloud`vmById
    ensures var l := ProviderIdLookup(cloud.remote, cloud.txConfig.vpcId, |old(cloud.calls)|, old(cloud.vmById), providerId);
            && (!present <==> l == Err(InstanceNotFound))
            && (err.None? <==> l.Ok?)
            && (l.Err? ==> err == Some(l.error))
    ensures cloud.calls == old(cloud.calls) + ProviderIdCalls(old(cloud.vmById), providerId)
    ensures cloud.vmById == ProviderIdCache(cloud.remote, cloud.txConfig.vpcId, |old(cloud.calls)|, old(cloud.vmById), providerId)
  {
    var instance := GetInstanceByProviderId(cloud, providerId);
    if instance.Err? && instance.error == InstanceNotFound {
      return false, Some(instance.error);
    }
    present := true;
    err := if instance.Err? then Some(instance.error) else None;
  }

  /** `InstanceShutdownByProviderID`: an instance whose state is anything
      but RUNNING is shut down; a failed lookup reports false with its
      error. */
  method InstanceShutdownByProviderId(cloud: Cloud, providerId: string) returns (shutdown: bool, err: Option<Error>)
    modifies cloud`calls, cloud`vmById
    ensures var l := ProviderIdLookup(cloud.remote, cloud.txConfig.vpcId, |old(cloud.calls)|, old(cloud.vmById), providerId);
            && (l.Err? ==> !shutdown && err == Some(l.error))
            && (l.Ok? ==> err.None? && (shutdown <==> l.value.instanceState != "RUNNING"))
    ensures cloud.calls == old(cloud.calls) + ProviderIdCalls(old(cloud.vmById), providerId)
    ensures cloud.vmById == ProviderIdCache(cloud.remote, cloud.txConfig.vpcId, |old(cloud.calls)|, old(cloud.vmById), providerId)
  {
    var instance := GetInstanceByProviderId(cloud, providerId);
    if instance.Err? {
      return false, Some(instance.error);
    }
    shutdown := instance.value.instanceState != "RUNNING";
    err := None;
  }
}
