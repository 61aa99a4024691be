/** pkg/tencentcloud/cloud.go: the provider's configuration, its merge with
    the environment (`NewCloud`), its validation (`checkConfig`), and the
    `Cloud` object that the rest of the controller works on. */
module CloudProvider {
  import opened Wrappers
  import opened Strings
  import opened Types
  import opened Remote

  const ProviderName := "tencentcloud"

  // ---------------------------------------------------------------------
  // Configuration

  /** `TxCloudConfig`. */
  datatype TxCloudConfig = TxCloudConfig(
    region: string,
    vpcId: string,
    clbNamePrefix: string,
    tagKey: string,
    secretId: string,
    secretKey: string,
    clusterRouteTable: string)

  const EmptyConfig := TxCloudConfig("", "", "", "", "", "", "")

  /** The seven settings, one name for each. */
  datatype ConfigField = Region | VpcId | CLBNamePrefix | TagKey | SecretId | SecretKey | ClusterRouteTable

  function FieldValue(c: TxCloudConfig, f: ConfigField): string
  {
    match f
    case Region => c.region
    case VpcId => c.vpcId
    case CLBNamePrefix => c.clbNamePrefix
    case TagKey => c.tagKey
    case SecretId => c.secretId
    case SecretKey => c.secretKey
    case ClusterRouteTable => c.clusterRouteTable
  }

  /** The name each setting has in `checkConfig`'s error message. */
  function FieldName(f: ConfigField): string
  {
    match f
    case Region => "Region"
    case VpcId => "VpcId"
    case CLBNamePrefix => "CLBNamePrefix"
    case TagKey => "TagKey"
    case SecretId => "SecretId"
    case SecretKey => "SecretKey"
    case ClusterRouteTable => "ClusterRouteTable"
  }

  /** The environment variable that can supply each setting. */
  function EnvName(f: ConfigField): string
  {
    match f
    case Region => "TENCENTCLOUD_CLOUD_CONTROLLER_MANAGER_REGION"
    case VpcId => "TENCENTCLOUD_CLOUD_CONTROLLER_MANAGER_VPC_ID"
    case CLBNamePrefix => "TENCENTCLOUD_CLOUD_CONTROLLER_MANAGER_CLB_NAME_PREFIX"
    case TagKey => "TENCENTCLOUD_CLOUD_CONTROLLER_MANAGER_CLB_TAG_KEY"
    case SecretId => "TENCENTCLOUD_CLOUD_CONTROLLER_MANAGER_SECRET_ID"
    case SecretKey => "TENCENTCLOUD_CLOUD_CONTROLLER_MANAGER_SECRET_KEY"
    case ClusterRouteTable => "TENCENTCLOUD_CLOUD_CONTROLLER_MANAGER_CLUSTER_ROUTE_TABLE"
  }

  /** The order in which `checkConfig` examines the settings. */
  const CheckOrder: seq<ConfigField> := [Region, VpcId, TagKey, CLBNamePrefix, SecretId, SecretKey, ClusterRouteTable]

  /** `os.Getenv`: an unset variable reads as the empty string. */
  function Getenv(env: map<string, string>, name: string): string
  {
    if name in env then env[name] else ""
  }

  /** The value of a setting after the merge: the environment's only when
      the decoded value is exactly empty. */
  function Fill(value: string, fromEnv: string): string
  {
    if value == "" then fromEnv else value
  }

  /** `if value == "" { value = os.Getenv(name) }` for one setting. */
  method FillFromEnv(value: string, env: map<string, string>, name: string) returns (v: string)
    ensures v == Fill(value, Getenv(env, name))
    ensures value != "" ==> v == value
  {
    v := value;
    if v == "" {
      v := Getenv(env, name);
    }
  }

  /** The field-by-field fill of `NewCloud`. */
  method MergeEnv(decoded: TxCloudConfig, env: map<string, string>) returns (c: TxCloudConfig)
    ensures forall f :: FieldValue(c, f) == Fill(FieldValue(decoded, f), Getenv(env, EnvName(f)))
  {
    c := decoded;
    ghost var d := decoded;
    var v: string;
    v := FillFromEnv(c.region, env, EnvName(Region));
    c := c.(region := v);
    v := FillFromEnv(c.vpcId, env, EnvName(VpcId));
    c := c.(vpcId := v);
    v := FillFromEnv(c.clbNamePrefix, env, EnvName(CLBNamePrefix));
    c := c.(clbNamePrefix := v);
    v := FillFromEnv(c.tagKey, env, EnvName(TagKey));
    c := c.(tagKey := v);
    v := FillFromEnv(c.secretId, env, EnvName(SecretId));
    c := c.(secretId := v);
    v := FillFromEnv(c.secretKey, env, EnvName(SecretKey));
    c := c.(secretKey := v);
    v := FillFromEnv(c.clusterRouteTable, env, EnvName(ClusterRouteTable));
    c := c.(clusterRouteTable := v);
    FilledFields(d, env, c);
  }

  /** The seven field-wise facts, gathered into one statement over all settings. */
  lemma FilledFields(d: TxCloudConfig, env: map<string, string>, c: TxCloudConfig)
    requires c.region == Fill(d.region, Getenv(env, EnvName(Region)))
    requires c.vpcId == Fill(d.vpcId, Getenv(env, EnvName(VpcId)))
    requires c.clbNamePrefix == Fill(d.clbNamePrefix, Getenv(env, EnvName(CLBNamePrefix)))
    requires c.tagKey == Fill(d.tagKey, Getenv(env, EnvName(TagKey)))
    requires c.secretId == Fill(d.secretId, Getenv(env, EnvName(SecretId)))
    requires c.secretKey == Fill(d.secretKey, Getenv(env, EnvName(SecretKey)))
    requires c.clusterRouteTable == Fill(d.clusterRouteTable, Getenv(env, EnvName(ClusterRouteTable)))
    ensures forall f :: FieldValue(c, f) == Fill(FieldValue(d, f), Getenv(env, EnvName(f)))
  {
    forall f ensures FieldValue(c, f) == Fill(FieldValue(d, f), Getenv(env, EnvName(f))) {
      match f
      case Region =>
      case VpcId =>
      case CLBNamePrefix =>
      case TagKey =>
      case SecretId =>
      case SecretKey =>
      case ClusterRouteTable =>
    }
  }

  /** A setting that is empty once surrounding white space is trimmed. */
  predicate Unset(c: TxCloudConfig, f: ConfigField)
  {
    Blank(FieldValue(c, f))
  }

  /** `checkConfig`: the settings are examined in `CheckOrder`, and the
      first one that is empty after `strings.TrimSpace` is reported. */
  function CheckConfig(c: TxCloudConfig): (r: Option<Error>)
    ensures r.None? <==> forall k :: 0 <= k < |CheckOrder| ==> !Unset(c, CheckOrder[k])
    ensures forall k :: 0 <= k < |CheckOrder| && Unset(c, CheckOrder[k])
                        && (forall j :: 0 <= j < k ==> !Unset(c, CheckOrder[j]))
                        ==> r == Some(ConfigFieldNull(FieldName(CheckOrder[k])))
  {
    CheckFieldsMeaning(c, CheckOrder);
    CheckFields(c, CheckOrder)
  }

  /** The chain of guarded returns of `checkConfig`, over the settings in
      `order`. */
  function CheckFields(c: TxCloudConfig, order: seq<ConfigField>): Option<Error>
  {
    if order == [] then None
    else if TrimSpace(FieldValue(c, order[0])) == "" then Some(ConfigFieldNull(FieldName(order[0])))
    else CheckFields(c, order[1..])
  }

  /** The chain gives `None` when none of the settings in `order` is blank,
      and otherwise the error that names the first blank one. */
  lemma {:induction false} CheckFieldsMeaning(c: TxCloudConfig, order: seq<ConfigField>)
    ensures CheckFields(c, order).None? <==> forall k :: 0 <= k < |order| ==> !Unset(c, order[k])
    ensures forall k :: 0 <= k < |order| && Unset(c, order[k])
                        && (forall j :: 0 <= j < k ==> !Unset(c, order[j]))
                        ==> CheckFields(c, order) == Some(ConfigFieldNull(FieldName(order[k])))
    decreases |order|
  {
    if order != [] {
      TrimSpaceEmpty(FieldValue(c, order[0]));
      var rest := order[1..];
      CheckFieldsMeaning(c, rest);
      assert forall k :: 1 <= k < |order| ==> order[k] == rest[k - 1];
    }
  }

  /** A decoded setting that is not empty is never replaced by the
      environment; an empty one always is. */
  lemma MergeKeepsSetValues(decoded: TxCloudConfig, env: map<string, string>, c: TxCloudConfig, f: ConfigField)
    requires forall g :: FieldValue(c, g) == Fill(FieldValue(decoded, g), Getenv(env, EnvName(g)))
    ensures FieldValue(decoded, f) != "" ==> FieldValue(c, f) == FieldValue(decoded, f)
    ensures FieldValue(decoded, f) == "" ==> FieldValue(c, f) == Getenv(env, EnvName(f))
  {
  }

  /** A white-space-only decoded setting survives the merge (the test is
      `== ""`, not a trim) and then fails validation, whatever the
      environment holds. */
  lemma {:induction false} BlankSettingFails(decoded: TxCloudConfig, env: map<string, string>, c: TxCloudConfig, f: ConfigField)
    requires forall g :: FieldValue(c, g) == Fill(FieldValue(decoded, g), Getenv(env, EnvName(g)))
    requires FieldValue(decoded, f) != "" && Blank(FieldValue(decoded, f))
    ensures FieldValue(c, f) == FieldValue(decoded, f)
    ensures CheckConfig(c).Some?
  {
    var k := OrderIndex(f);
    assert Unset(c, CheckOrder[k]);
  }

  /** Where a setting stands in `CheckOrder`. */
  function OrderIndex(f: ConfigField): (k: nat)
    ensures k < |CheckOrder| && CheckOrder[k] == f
  {
    match f
    case Region => 0
    case VpcId => 1
    case TagKey => 2
    case CLBNamePrefix => 3
    case SecretId => 4
    case SecretKey => 5
    case ClusterRouteTable => 6
  }

  /** Where `NewCloud` reads its configuration from: no reader, a reader
      whose JSON decodes, or one that fails to read or decode. */
  datatype ConfigSource = NoConfig | Decoded(config: TxCloudConfig) | Unreadable(message: string)

  // ---------------------------------------------------------------------
  // The Cloud object

  /** The reconciliation phases. */
  datatype Phase = InstancePhase | ListenersPhase | BackendsPhase

  /** The state of a `Cloud` object at one moment: its call log and its
      caches. */
  datatype CloudState = CloudState(
    calls: seq<ApiCall>,
    vmByIp: map<string, Instance>,
    vmById: map<string, Instance>,
    clbByName: map<string, LoadBalancer>,
    clbListeners: map<string, seq<Listener>>,
    cacheDeletes: seq<string>)

  /** What a phase's lookups found: the balancer id, its listeners, its
      backend listeners, the instances of the selected nodes, the log once
      the lookups were done, and whether they all succeeded. A phase leaves
      what it does not look up at `NoFindings`. */
  datatype PhaseFindings = PhaseFindings(
    lbId: string,
    listeners: seq<Listener>,
    forward: seq<ListenerBackend>,
    instances: seq<Instance>,
    mid: seq<ApiCall>,
    read: bool)

  const NoFindings := PhaseFindings("", [], [], [], [], false)

  /** One run of a phase: the state it started from and the one it left,
      the error it returned and what its lookups found. */
  datatype PhaseRun = PhaseRun(phase: Phase, before: CloudState, after: CloudState, err: Option<Error>, findings: PhaseFindings)

  /** The provider object. The TTL cache is four maps, one per key prefix
      (`vm_ip_`, `vm_id_`, `clb_id_`, `clb_listener_id_`), keyed by the part
      after the prefix; the prefixes differ, so no two entries could share a
      key in the single store of the source. `calls` records every remote
      call in order; `cacheDeletes` every cache `Delete` attempted. */
  class Cloud {
    const txConfig: TxCloudConfig
    const remote: Remote
    var vmByIp: map<string, Instance>
    var vmById: map<string, Instance>
    var clbByName: map<string, LoadBalancer>
    var clbListeners: map<string, seq<Listener>>
    var calls: seq<ApiCall>
    var cacheDeletes: seq<string>
    ghost var trace: seq<PhaseRun>

    constructor (txConfig: TxCloudConfig, remote: Remote)
      ensures this.txConfig == txConfig && this.remote == remote
      ensures vmByIp == map[] && vmById == map[] && clbByName == map[] && clbListeners == map[]
      ensures calls == [] && cacheDeletes == [] && trace == []
    {
      this.txConfig := txConfig;
      this.remote := remote;
      vmByIp, vmById, clbByName, clbListeners := map[], map[], map[], map[];
      calls, cacheDeletes, trace := [], [], [];
    }

    /** Makes one remote call: it is recorded, and the oracle answers it. */
    method Invoke(c: ApiCall) returns (r: Reply)
      modifies this`calls
      ensures calls == old(calls) + [c]
      ensures r == remote.answer(|old(calls)|, c)
    {
      r := remote.answer(|calls|, c);
      calls := calls + [c];
    }

    /** The name lookup `getLoadBalancerByName`, recorded like a call. */
    method LookupByName(name: string) returns (r: NameLookup)
      modifies this`calls
      ensures calls == old(calls) + [GetLoadBalancerByName(name)]
      ensures r == remote.byName(|old(calls)|, name)
    {
      r := remote.byName(|calls|, name);
      calls := calls + [GetLoadBalancerByName(name)];
    }

    /** `cache.Delete(clb_id_ + name)`. The source's store derives the key of
        what it deletes with a key function written for cache entries, not
        for the bare key string it is given, so whether the entry goes is
        left to the oracle; the attempt itself is recorded. */
    method DeleteClbEntry(name: string) returns (deleted: bool)
      modifies this`clbByName, this`cacheDeletes
      ensures cacheDeletes == old(cacheDeletes) + [name]
      ensures deleted == remote.deleteDrops(name)
      ensures clbByName == if deleted then old(clbByName) - {name} else old(clbByName)
    {
      deleted := remote.deleteDrops(name);
      if deleted { clbByName := clbByName - {name}; }
      cacheDeletes := cacheDeletes + [name];
    }

    /** The current state. */
    function State(): (st: CloudState)
      reads this`calls, this`vmByIp, this`vmById, this`clbByName, this`clbListeners, this`cacheDeletes
      ensures st.calls == calls && st.clbByName == clbByName && st.cacheDeletes == cacheDeletes
      ensures st.vmByIp == vmByIp && st.vmById == vmById && st.clbListeners == clbListeners
    {
      CloudState(calls, vmByIp, vmById, clbByName, clbListeners, cacheDeletes)
    }

    /** Records that phase `p` ran from the state `before` to now, returned
        `err` and found `findings`. */
    ghost method Record(p: Phase, before: CloudState, err: Option<Error>, findings: PhaseFindings)
      modifies this`trace
      ensures trace == old(trace) + [PhaseRun(p, before, State(), err, findings)]
    {
      trace := trace + [PhaseRun(p, before, State(), err, findings)];
    }
  }

  /** `NewCloud`: read the configuration, fill empty settings from the
      environment, validate, and build the object. On success its
      configuration is the merged one; on failure nothing is built. */
  method NewCloud(source: ConfigSource, env: map<string, string>, remote: Remote) returns (r: Result<Cloud, Error>)
    ensures source.Unreadable? ==> r == Err(ConfigUnreadable(source.message))
    ensures !source.Unreadable? ==>
      var decoded := if source.Decoded? then source.config else EmptyConfig;
      exists c: TxCloudConfig ::
        && (forall f :: FieldValue(c, f) == Fill(FieldValue(decoded, f), Getenv(env, EnvName(f))))
        && (CheckConfig(c).Some? ==> r == Err(CheckConfig(c).value))
        && (CheckConfig(c).None? ==> r.Ok? && r.value.txConfig == c && fresh(r.value))
  {
    var decoded := EmptyConfig;
    match source {
      case Unreadable(message) =>
        return Err(ConfigUnreadable(message));
      case Decoded(config) =>
        decoded := config;
      case NoConfig =>
    }
    var c := MergeEnv(decoded, env);
    var problem := CheckConfig(c);
    if problem.Some? {
      return Err(problem.value);
    }
    var cloud := new Cloud(c, remote);
    r := Ok(cloud);
  }
}
