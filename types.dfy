/** The entities the controller reads and writes: the Kubernetes side
    (services, ports, nodes), the cloud side (instances, load balancers,
    listeners, targets), the requests it sends and the errors it returns.
    Cloud-SDK structs with pointer fields become plain records; a field the
    code never reads is left out. */
module Types {
  import opened Wrappers

  // ---------------------------------------------------------------------
  // Kubernetes side

  /** One entry of `service.Spec.Ports`. */
  datatype ServicePort = ServicePort(name: string, port: int, protocol: string, nodePort: int)

  /** The parts of a `v1.Service` the controller reads. */
  datatype Service = Service(
    namespace: string,
    name: string,
    uid: string,
    ports: seq<ServicePort>,
    annotations: map<string, string>,
    sessionAffinity: string)

  /** A `v1.Node`: its name is its private IP. */
  datatype Node = Node(name: string, labels: map<string, string>)

  /** `v1.NodeAddress` with its two kinds. */
  datatype AddressType = InternalIP | ExternalIP
  datatype NodeAddress = NodeAddress(kind: AddressType, address: string)

  /** `v1.LoadBalancerIngress`. */
  datatype Ingress = Ingress(ip: string)

  const ServiceAffinityNone := "None"

  // ---------------------------------------------------------------------
  // Cloud side

  /** A `cvm.Instance`. */
  datatype Instance = Instance(
    instanceId: string,
    vpcId: string,
    zone: string,
    instanceType: string,
    instanceState: string,
    privateIps: seq<string>,
    publicIps: seq<string>)

  /** A `clb.LoadBalancer`; `lbType` is the cloud's spelling, OPEN or INTERNAL. */
  datatype LoadBalancer = LoadBalancer(
    loadBalancerId: string,
    name: string,
    lbType: string,
    vpcId: string,
    subnetId: string,
    vips: seq<string>)

  /** A `clb.Listener`. */
  datatype Listener = Listener(listenerId: string, port: int, protocol: string)

  /** A `clb.Target`: an instance and the port traffic is sent to. */
  datatype Target = Target(instanceId: string, port: int)

  /** A `clb.ListenerBackend`: a listener with its registered targets. */
  datatype ListenerBackend = ListenerBackend(listenerId: string, port: int, protocol: string, targets: seq<Target>)

  /** A `clb.TagInfo`. */
  datatype Tag = Tag(key: string, value: string)

  /** A `clb.HealthCheck`; every field is an int64 in the SDK. */
  datatype HealthCheck = HealthCheck(
    healthSwitch: int,
    sourceIpType: int,
    timeOut: int,
    intervalTime: int,
    healthNum: int,
    unHealthNum: int)

  /** The `clb.CreateLoadBalancerRequest` fields the controller sets. */
  datatype CreateLoadBalancerRequest = CreateLoadBalancerRequest(
    lbType: string,
    subnetId: Option<string>,
    name: string,
    vpcId: string,
    tags: seq<Tag>,
    passToTarget: bool)

  /** The `clb.CreateListenerRequest` fields the controller sets. */
  datatype CreateListenerRequest = CreateListenerRequest(
    loadBalancerId: string,
    port: int,
    listenerName: string,
    protocol: string,
    healthCheck: HealthCheck)

  // ---------------------------------------------------------------------
  // Errors

  /** The errors the controller returns. SDK and transport errors are one
      case: the source treats both alike. */
  datatype Error =
    | LoadBalancerNotFound
    | InstanceNotFound
    | Sdk(message: string)
    | SubnetRequired
    | TaskUnexpectedStatus(task: string, status: int)
    | TaskTimeout(task: string)
    | NoNodesForLabel(key: string, value: string)
    | NoListenerForPort
    | InvalidProviderId(providerId: string)
    | SessionAffinityUnsupported
    | ConfigFieldNull(field: string)
    | ConfigUnreadable(message: string)
}
