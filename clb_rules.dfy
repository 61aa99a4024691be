/** The pure decisions of the load-balancer reconciler
    (pkg/tencentcloud/tencentcloud_loadbalancer.go): the balancer's name, its
    desired kind, whether an existing balancer has drifted, the create
    request, the health check built from annotations, the node selector and
    the owner tags. */
module ClbRules {
  import opened Wrappers
  import opened Types
  import opened Strings
  import opened Numbers
  import opened CloudProvider

  // Service annotations the reconciler reads.
  const TypeAnnotation := "service.beta.kubernetes.io/tencentcloud-loadbalancer-type"
  const SubnetAnnotation := "service.beta.kubernetes.io/tencentcloud-loadbalancer-type-internal-subnet-id"
  const NodeLabelKeyAnnotation := "service.beta.kubernetes.io/tencentcloud-loadbalancer-node-label-key"
  const NodeLabelValueAnnotation := "service.beta.kubernetes.io/tencentcloud-loadbalancer-node-label-value"
  const HealthSwitchAnnotation := "service.beta.kubernetes.io/tencentcloud-loadbalancer-health-check-switch"
  const TimeoutAnnotation := "service.beta.kubernetes.io/tencentcloud-loadbalancer-health-check-timeout"
  const IntervalAnnotation := "service.beta.kubernetes.io/tencentcloud-loadbalancer-health-check-interval-time"
  const HealthNumAnnotation := "service.beta.kubernetes.io/tencentcloud-loadbalancer-health-check-health-num"
  const UnHealthNumAnnotation := "service.beta.kubernetes.io/tencentcloud-loadbalancer-health-check-un-health-num"

  const TypePublic := "public"
  const TypePrivate := "private"
  const ClbTypeOpen := "OPEN"
  const ClbTypeInternal := "INTERNAL"
  const ServiceTagKey := "k8s-service-id"
  const DefaultNodeLabelKey := "kubernetes.io/role"
  const DefaultNodeLabelValue := "node"
  const PassToTarget := true

  /** Longest name the cloud accepts for a balancer. */
  const MaxNameLength := 60

  // ---------------------------------------------------------------------
  // Name

  /** `prefix_namespace_name`, before any shortening. */
  function FullName(config: TxCloudConfig, service: Service): string
  {
    config.clbNamePrefix + "_" + service.namespace + "_" + service.name
  }

  /** The name can be computed: the source slices 8 bytes off the UID when
      the full name is too long, which fails on a shorter UID. */
  predicate NameDefined(config: TxCloudConfig, service: Service)
  {
    |FullName(config, service)| > MaxNameLength ==> |service.uid| >= 8
  }

  /** `getLoadBalancerName`. A full name of at most 60 bytes is used as it
      is; a longer one is cut to its first 50 bytes, followed by `_` and the
      first 8 bytes of the service UID, which makes 59 bytes. */
  function LoadBalancerName(config: TxCloudConfig, service: Service): (r: string)
    requires NameDefined(config, service)
    ensures |r| <= MaxNameLength
    ensures |FullName(config, service)| <= MaxNameLength ==> r == FullName(config, service)
    ensures |FullName(config, service)| > MaxNameLength ==>
      && |r| == 59
      && r[..50] == FullName(config, service)[..50]
      && r[50] == '_'
      && r[51..] == service.uid[..8]
  {
    var full := FullName(config, service);
    if |full| > MaxNameLength then full[..50] + "_" + service.uid[..8] else full
  }

  /** Two services in different namespaces, or with different names, get
      different balancer names as long as neither needs shortening and the
      namespaces hold no `_`. */
  lemma {:induction false} ShortNamesDistinct(config: TxCloudConfig, s1: Service, s2: Service)
    requires NameDefined(config, s1) && NameDefined(config, s2)
    requires |FullName(config, s1)| <= MaxNameLength && |FullName(config, s2)| <= MaxNameLength
    requires '_' !in s1.namespace && '_' !in s2.namespace
    requires s1.namespace != s2.namespace || s1.name != s2.name
    ensures LoadBalancerName(config, s1) != LoadBalancerName(config, s2)
  {
    var p := config.clbNamePrefix + "_";
    var t1 := s1.namespace + "_" + s1.name;
    var t2 := s2.namespace + "_" + s2.name;
    assert FullName(config, s1) == p + t1;
    assert FullName(config, s2) == p + t2;
    if p + t1 == p + t2 {
      assert t1 == (p + t1)[|p|..];
      assert t2 == (p + t2)[|p|..];
      NamespaceSplit(s1.namespace, s1.name, s2.namespace, s2.name);
    }
  }

  /** `a_b == c_d` with no `_` in `a` or `c` forces `a == c` and `b == d`. */
  lemma NamespaceSplit(a: string, b: string, c: string, d: string)
    requires '_' !in a && '_' !in c
    requires a + "_" + b == c + "_" + d
    ensures a == c && b == d
  {
    var s := a + "_" + b;
    SplitFirst(a, '_', b);
    SplitFirst(c, '_', d);
    assert Split(s, '_')[0] == a;
    assert a == c;
    assert b == s[|a| + 1..] == d;
  }

  // ---------------------------------------------------------------------
  // Kind and drift

  /** The two kinds of balancer: on the internet or inside the VPC. */
  datatype LbKind = Public | Private

  /** The desired kind: private unless the type annotation says `public`;
      a missing or unknown value also means private. */
  function DesiredKind(service: Service): (k: LbKind)
    ensures k == Public <==>
      TypeAnnotation in service.annotations && service.annotations[TypeAnnotation] == TypePublic
  {
    if TypeAnnotation in service.annotations && service.annotations[TypeAnnotation] == TypePublic
    then Public else Private
  }

  /** The cloud's spelling of a kind. */
  function ClbType(k: LbKind): string
  {
    match k
    case Public => ClbTypeOpen
    case Private => ClbTypeInternal
  }

  /** The subnet annotation, which a private balancer needs. */
  function Subnet(service: Service): Option<string>
  {
    if SubnetAnnotation in service.annotations then Some(service.annotations[SubnetAnnotation]) else None
  }

  /** An existing balancer is as desired: right kind and VPC, and for a
      private one also the annotated subnet. */
  predicate AsDesired(lb: LoadBalancer, kind: LbKind, vpcId: string, subnet: string)
  {
    lb.lbType == ClbType(kind) && lb.vpcId == vpcId && (kind == Private ==> lb.subnetId == subnet)
  }

  /** The drift decision of `ensureLoadBalancerInstance` for an existing
      balancer: a private service without a subnet annotation is an error;
      otherwise the balancer is recreated exactly when it is not as desired.
      A public service ignores the subnet annotation. */
  function NeedRecreate(service: Service, vpcId: string, lb: LoadBalancer): (r: Result<bool, Error>)
    ensures r.Err? <==> DesiredKind(service) == Private && Subnet(service).None?
    ensures r.Err? ==> r.error == SubnetRequired
    ensures r.Ok? ==> (r.value <==>
      !AsDesired(lb, DesiredKind(service), vpcId, if Subnet(service).Some? then Subnet(service).value else ""))
  {
    match DesiredKind(service)
    case Public => Ok(!(lb.lbType == ClbTypeOpen && lb.vpcId == vpcId))
    case Private =>
      if Subnet(service).None? then Err(SubnetRequired)
      else Ok(!(lb.lbType == ClbTypeInternal && lb.vpcId == vpcId && lb.subnetId == Subnet(service).value))
  }

  /** A balancer built from a service's own create request is never
      judged to have drifted while the configuration stays the same. */
  lemma CreatedIsAsDesired(config: TxCloudConfig, service: Service, lb: LoadBalancer)
    requires NameDefined(config, service)
    requires CreateRequest(config, service).Ok?
    requires lb.lbType == CreateRequest(config, service).value.lbType
    requires lb.vpcId == CreateRequest(config, service).value.vpcId
    requires CreateRequest(config, service).value.subnetId.Some? ==>
               lb.subnetId == CreateRequest(config, service).value.subnetId.value
    ensures NeedRecreate(service, config.vpcId, lb) == Ok(false)
  {
  }

  // ---------------------------------------------------------------------
  // Create request and tags

  /** The two owner tags of a new balancer: the configured tag key with the
      name prefix as value, and `k8s-service-id` with the service UID. */
  function OwnerTags(config: TxCloudConfig, service: Service): seq<Tag>
  {
    [Tag(config.tagKey, config.clbNamePrefix), Tag(ServiceTagKey, service.uid)]
  }

  /** The filter `getLoadBalancer` searches with. */
  function OwnerFilter(service: Service): Tag
  {
    Tag("tag:" + ServiceTagKey, service.uid)
  }

  /** `createLoadBalancer`'s request: the desired kind, the annotated subnet
      for a private balancer (whose absence is an error), the generated
      name, the configured VPC, the owner tags and pass-to-target on. */
  function CreateRequest(config: TxCloudConfig, service: Service): (r: Result<CreateLoadBalancerRequest, Error>)
    requires NameDefined(config, service)
    ensures r.Err? <==> DesiredKind(service) == Private && Subnet(service).None?
    ensures r.Err? ==> r.error == SubnetRequired
    ensures r.Ok? ==>
      && r.value.lbType == ClbType(DesiredKind(service))
      && (r.value.subnetId.Some? <==> DesiredKind(service) == Private)
      && (r.value.subnetId.Some? ==> r.value.subnetId == Subnet(service))
      && r.value.name == LoadBalancerName(config, service)
      && r.value.vpcId == config.vpcId
      && r.value.tags == OwnerTags(config, service)
      && r.value.passToTarget
  {
    var name := LoadBalancerName(config, service);
    var tags := OwnerTags(config, service);
    match DesiredKind(service)
    case Private =>
      if Subnet(service).None? then Err(SubnetRequired)
      else Ok(CreateLoadBalancerRequest(ClbTypeInternal, Subnet(service), name, config.vpcId, tags, PassToTarget))
    case Public =>
      Ok(CreateLoadBalancerRequest(ClbTypeOpen, None, name, config.vpcId, tags, PassToTarget))
  }

  /** The search filter finds what creation tags: the filter names the
      `k8s-service-id` tag of the request, with the same value. */
  lemma FilterMatchesCreatedTag(config: TxCloudConfig, service: Service)
    requires NameDefined(config, service)
    requires CreateRequest(config, service).Ok?
    ensures exists t ::
              && t in CreateRequest(config, service).value.tags
              && OwnerFilter(service) == Tag("tag:" + t.key, t.value)
              && t.value == service.uid
  {
    var t := Tag(ServiceTagKey, service.uid);
    assert t == CreateRequest(config, service).value.tags[1];
  }

  // ---------------------------------------------------------------------
  // Health check

  /** One health-check field: the default when the annotation is absent,
      and otherwise whatever ParseInt makes of it, 0 for malformed text. */
  function HealthField(annotations: map<string, string>, key: string, default: int): (v: int)
    ensures key !in annotations ==> v == default
    ensures key in annotations ==> v == ParseInt(annotations[key])
  {
    if key in annotations then ParseInt(annotations[key]) else default
  }

  /** `buildHealthCheck`: switch 1, source-IP type 1, timeout 2, interval 5,
      healthy and unhealthy thresholds 3, each but the source-IP type
      overridable by its annotation. */
  function BuildHealthCheck(service: Service): (h: HealthCheck)
    ensures h.sourceIpType == 1
    ensures HealthSwitchAnnotation !in service.annotations ==> h.healthSwitch == 1
    ensures TimeoutAnnotation !in service.annotations ==> h.timeOut == 2
    ensures IntervalAnnotation !in service.annotations ==> h.intervalTime == 5
    ensures HealthNumAnnotation !in service.annotations ==> h.healthNum == 3
    ensures UnHealthNumAnnotation !in service.annotations ==> h.unHealthNum == 3
    ensures HealthSwitchAnnotation in service.annotations ==> h.healthSwitch == ParseInt(service.annotations[HealthSwitchAnnotation])
    ensures TimeoutAnnotation in service.annotations ==> h.timeOut == ParseInt(service.annotations[TimeoutAnnotation])
    ensures IntervalAnnotation in service.annotations ==> h.intervalTime == ParseInt(service.annotations[IntervalAnnotation])
    ensures HealthNumAnnotation in service.annotations ==> h.healthNum == ParseInt(service.annotations[HealthNumAnnotation])
    ensures UnHealthNumAnnotation in service.annotations ==> h.unHealthNum == ParseInt(service.annotations[UnHealthNumAnnotation])
  {
    var a := service.annotations;
    HealthCheck(
      HealthField(a, HealthSwitchAnnotation, 1),
      1,
      HealthField(a, TimeoutAnnotation, 2),
      HealthField(a, IntervalAnnotation, 5),
      HealthField(a, HealthNumAnnotation, 3),
      HealthField(a, UnHealthNumAnnotation, 3))
  }

  /** A timeout annotation written as a number in the int64 range is used
      as that number; malformed text switches the timeout to 0 instead of
      keeping the default. */
  lemma HealthTimeoutAnnotation(service: Service, n: int)
    requires MinInt64 <= n <= MaxInt64
    ensures (TimeoutAnnotation in service.annotations && service.annotations[TimeoutAnnotation] == FormatInt(n))
      ==> BuildHealthCheck(service).timeOut == n
    ensures (TimeoutAnnotation in service.annotations && service.annotations[TimeoutAnnotation] == "fast")
      ==> BuildHealthCheck(service).timeOut == 0
  {
    ParseFormatRoundTrip(n);
    ParseIntNonNumeric("fast");
  }

  // ---------------------------------------------------------------------
  // Node selection

  /** `getNodeLabelKey`: the annotated label key, by default `kubernetes.io/role`. */
  function NodeLabelKey(service: Service): (k: string)
    ensures NodeLabelKeyAnnotation in service.annotations ==> k == service.annotations[NodeLabelKeyAnnotation]
    ensures NodeLabelKeyAnnotation !in service.annotations ==> k == DefaultNodeLabelKey
  {
    if NodeLabelKeyAnnotation in service.annotations then service.annotations[NodeLabelKeyAnnotation]
    else DefaultNodeLabelKey
  }

  /** `getNodeLabelValue`: the annotated label value, by default `node`. */
  function NodeLabelValue(service: Service): (v: string)
    ensures NodeLabelValueAnnotation in service.annotations ==> v == service.annotations[NodeLabelValueAnnotation]
    ensures NodeLabelValueAnnotation !in service.annotations ==> v == DefaultNodeLabelValue
  {
    if NodeLabelValueAnnotation in service.annotations then service.annotations[NodeLabelValueAnnotation]
    else DefaultNodeLabelValue
  }

  /** A node carries the selector label with exactly the selector value. */
  predicate Carries(node: Node, key: string, value: string)
  {
    key in node.labels && node.labels[key] == value
  }

  /** The names of the selected nodes, in node order (the specification of
      `SelectNodeIps`). */
  function SelectedNames(nodes: seq<Node>, key: string, value: string): seq<string>
    decreases |nodes|
  {
    if nodes == [] then []
    else
      var last := nodes[|nodes| - 1];
      SelectedNames(nodes[..|nodes| - 1], key, value) + (if Carries(last, key, value) then [last.name] else [])
  }

  /** A name is selected iff some node with that name carries the label. */
  lemma {:induction false} SelectedNamesMembers(nodes: seq<Node>, key: string, value: string, ip: string)
    ensures ip in SelectedNames(nodes, key, value) <==>
              exists i :: 0 <= i < |nodes| && nodes[i].name == ip && Carries(nodes[i], key, value)
    decreases |nodes|
  {
    if nodes != [] {
      var init := nodes[..|nodes| - 1];
      SelectedNamesMembers(init, key, value, ip);
      if ip in SelectedNames(init, key, value) {
        var i :| 0 <= i < |init| && init[i].name == ip && Carries(init[i], key, value);
        assert nodes[i] == init[i];
      }
      if exists i :: 0 <= i < |nodes| && nodes[i].name == ip && Carries(nodes[i], key, value) {
        var i :| 0 <= i < |nodes| && nodes[i].name == ip && Carries(nodes[i], key, value);
        if i < |init| {
          assert init[i] == nodes[i];
        }
      }
    }
  }

  /** The loop of `ensureLoadBalancerBackends` that collects the names of
      the nodes carrying the selector label, in node order. */
  method SelectNodeIps(nodes: seq<Node>, key: string, value: string) returns (ips: seq<string>)
    ensures ips == SelectedNames(nodes, key, value)
    ensures |ips| <= |nodes|
  {
    ips := [];
    var i := 0;
    while i < |nodes|
      invariant 0 <= i <= |nodes|
      invariant ips == SelectedNames(nodes[..i], key, value)
      invariant |ips| <= i
    {
      var node := nodes[i];
      if key in node.labels {
        if node.labels[key] == value {
          ips := ips + [node.name];
        }
      }
      assert nodes[..i + 1][..i] == nodes[..i];
      i := i + 1;
    }
    assert nodes[..|nodes|] == nodes;
  }
}
