/** The Kubernetes objects the provider reads, its configuration, and the label lookups that
    place a service or a node in an environment and a project. */
module Kube {
  import opened Wrappers

  const LB_NAME_LABEL := "csccm.cloudprovider.io/loadbalancer-name"
  const LB_NAME_SUFFIX := "csccm.cloudprovider.io/loadbalancer-name-suffix"
  const LB_USE_TARGET_PORT := "csccm.cloudprovider.io/loadbalancer-use-targetport"
  const LB_CUSTOM_HEALTH_CHECK := "csccm.cloudprovider.io/loadbalancer-custom-healthcheck"
  const HEALTH_CHECK_MESSAGE_PREFIX := "csccm.cloudprovider.io/loadbalancer-custom-healthcheck-msg-"
  const HEALTH_CHECK_RESPONSE_PREFIX := "csccm.cloudprovider.io/loadbalancer-custom-healthcheck-rsp-"
  const REMOVE_LBS_ON_DELETE_LABEL := "csccm.cloudprovider.io/remove-loadbalancers-on-delete"

  datatype ServiceKey = ServiceKey(namespace: string, name: string)

  datatype Meta = Meta(labels: map<string, string>, annotations: map<string, string>)

  datatype TargetPort = IntPort(number: int) | NamedPort(portName: string)

  datatype ServicePort = ServicePort(name: string, protocol: string, port: int, nodePort: int, targetPort: TargetPort)

  datatype Ingress = Ingress(ip: string, hostname: string)

  datatype Service = Service(key: ServiceKey, meta: Meta, affinity: string, ports: seq<ServicePort>,
                             loadBalancerIp: string, ingress: seq<Ingress>)

  datatype Node = Node(name: string, meta: Meta)

  datatype Environment = Environment(projectId: string, lbDomain: string, removeLbs: bool)

  datatype Config = Config(serviceFilterLabel: string, nodeFilterLabel: string, nodeNameLabel: string,
                           projectIdLabel: string, environmentLabel: string, externalIpIndex: int,
                           assignNetworks: bool, environments: map<string, Environment>)

  /** Labels win over annotations; the empty name is never found. */
  function GetLabelOrAnnotation(meta: Meta, name: string): Option<string> {
    if name == "" then None
    else if name in meta.labels then Some(meta.labels[name])
    else if name in meta.annotations then Some(meta.annotations[name])
    else None
  }

  function ValueOrEmpty(o: Option<string>): string {
    if o.Some? then o.value else ""
  }

  lemma SingletonKeys<T>(s: set<T>, a: T, b: T)
    requires |s| == 1 && a in s && b in s
    ensures a == b
  {
    assert |s - {a}| == 0;
    assert a != b ==> b in s - {a};
  }

  function EnvironmentFor(config: Config, meta: Meta): string {
    var environment := ValueOrEmpty(GetLabelOrAnnotation(meta, config.environmentLabel));
    if environment == "" && |config.environments| == 1 then
      assert exists k :: k in config.environments.Keys by {
        assert |config.environments.Keys| == 1;
        assert config.environments.Keys != {};
      }
      assert forall a, b :: a in config.environments.Keys && b in config.environments.Keys ==> a == b by {
        forall a, b | a in config.environments.Keys && b in config.environments.Keys ensures a == b {
          SingletonKeys(config.environments.Keys, a, b);
        }
      }
      var k :| k in config.environments.Keys;
      k
    else environment
  }

  /** A set label is taken as it is, empty or not; only the environment's default must be non-empty. */
  function ProjectFor(config: Config, meta: Meta, environment: string): Result<string> {
    match GetLabelOrAnnotation(meta, config.projectIdLabel)
    case Some(project) => Ok(project)
    case None =>
      if environment in config.environments && config.environments[environment].projectId != ""
      then Ok(config.environments[environment].projectId)
      else Err
  }

  /** Rule ports lead to the target ports instead of the node ports. */
  predicate UsesTargetPort(service: Service) {
    GetLabelOrAnnotation(service.meta, LB_USE_TARGET_PORT).Some?
  }

  function LoadBalancerName(config: Config, service: Service): string {
    var name := ValueOrEmpty(GetLabelOrAnnotation(service.meta, LB_NAME_LABEL));
    if name != "" then name
    else
      var suffix := ValueOrEmpty(GetLabelOrAnnotation(service.meta, LB_NAME_SUFFIX));
      if suffix != "" then service.key.name + "." + suffix
      else
        var environment := EnvironmentFor(config, service.meta);
        service.key.name + "." + (if environment in config.environments then config.environments[environment].lbDomain else "")
  }

  /** `strconv.ParseBool`. */
  function ParseBool(s: string): Option<bool> {
    if s in {"1", "t", "T", "TRUE", "true", "True"} then Some(true)
    else if s in {"0", "f", "F", "FALSE", "false", "False"} then Some(false)
    else None
  }

  /** The service's own flag, when it parses, beats the environment's. */
  predicate RemovalEnabled(config: Config, service: Service) {
    var flag := GetLabelOrAnnotation(service.meta, REMOVE_LBS_ON_DELETE_LABEL);
    if flag.Some? && ParseBool(flag.value).Some? then ParseBool(flag.value).value
    else
      var environment := EnvironmentFor(config, service.meta);
      environment in config.environments && config.environments[environment].removeLbs
  }

  /** The balancing algorithm for the service's session affinity, if it is supported. */
  function AlgorithmFor(affinity: string): Option<string> {
    if affinity == "None" || affinity == "" then Some("roundrobin")
    else if affinity == "ClientIP" then Some("source")
    else None
  }

  // ------------------------------------------------------------------------------------
  // What the lookups mean for labels, annotations and configuration

  /** A value under the name, where a label hides an annotation; the empty name has none. */
  ghost predicate Says(meta: Meta, name: string, value: string) {
    && name != ""
    && ((name in meta.labels && meta.labels[name] == value)
        || (name !in meta.labels && name in meta.annotations && meta.annotations[name] == value))
  }

  ghost predicate Silent(meta: Meta, name: string) {
    name == "" || (name !in meta.labels && name !in meta.annotations)
  }

  lemma LookupExactly(meta: Meta, name: string)
    ensures GetLabelOrAnnotation(meta, name).None? <==> Silent(meta, name)
    ensures forall value :: GetLabelOrAnnotation(meta, name) == Some(value) <==> Says(meta, name, value)
  {
  }

  /** An object is in the environment it names, or else in the only one there is, or else in none. */
  lemma EnvironmentExactly(config: Config, meta: Meta)
    ensures forall e :: e != "" && Says(meta, config.environmentLabel, e) ==> EnvironmentFor(config, meta) == e
    ensures Silent(meta, config.environmentLabel) || Says(meta, config.environmentLabel, "") ==>
              if |config.environments| == 1 then EnvironmentFor(config, meta) in config.environments else EnvironmentFor(config, meta) == ""
  {
    LookupExactly(meta, config.environmentLabel);
  }

  /** An object is in the project it names, even the empty one, or else in its environment's, if that
      has one; otherwise its project is unknown. */
  lemma ProjectExactly(config: Config, meta: Meta, environment: string)
    ensures forall p :: Says(meta, config.projectIdLabel, p) ==> ProjectFor(config, meta, environment) == Ok(p)
    ensures Silent(meta, config.projectIdLabel) ==>
              forall p :: ProjectFor(config, meta, environment) == Ok(p) <==>
                          p != "" && environment in config.environments && config.environments[environment].projectId == p
  {
    LookupExactly(meta, config.projectIdLabel);
  }

  /** A service's balancer has the name the service gives it, or else the service's own name with the
      suffix it gives, or else with the domain of its environment. */
  lemma NameExactly(config: Config, service: Service)
    ensures forall n :: n != "" && Says(service.meta, LB_NAME_LABEL, n) ==> LoadBalancerName(config, service) == n
    ensures Silent(service.meta, LB_NAME_LABEL) || Says(service.meta, LB_NAME_LABEL, "") ==>
              && (forall x :: x != "" && Says(service.meta, LB_NAME_SUFFIX, x) ==> LoadBalancerName(config, service) == service.key.name + "." + x)
              && (Silent(service.meta, LB_NAME_SUFFIX) || Says(service.meta, LB_NAME_SUFFIX, "") ==>
                    var e := EnvironmentFor(config, service.meta);
                    if e in config.environments
                    then LoadBalancerName(config, service) == service.key.name + "." + config.environments[e].lbDomain
                    else LoadBalancerName(config, service) == service.key.name + ".")
  {
    LookupExactly(service.meta, LB_NAME_LABEL);
    LookupExactly(service.meta, LB_NAME_SUFFIX);
  }

  const TRUE_FLAGS: set<string> := {"1", "t", "T", "TRUE", "true", "True"}
  const FALSE_FLAGS: set<string> := {"0", "f", "F", "FALSE", "false", "False"}

  /** Balancers may be removed if the service says so, and must not be if it says not; if it says
      nothing that can be read, the environment decides, and an unknown one forbids it. */
  lemma RemovalExactly(config: Config, service: Service)
    ensures RemovalEnabled(config, service) <==>
            || (exists flag :: flag in TRUE_FLAGS && Says(service.meta, REMOVE_LBS_ON_DELETE_LABEL, flag))
            || ((forall flag :: Says(service.meta, REMOVE_LBS_ON_DELETE_LABEL, flag) ==> flag !in TRUE_FLAGS && flag !in FALSE_FLAGS)
                && exists e :: e == EnvironmentFor(config, service.meta) && e in config.environments && config.environments[e].removeLbs)
  {
    LookupExactly(service.meta, REMOVE_LBS_ON_DELETE_LABEL);
    FlagsApart();
    var flag := GetLabelOrAnnotation(service.meta, REMOVE_LBS_ON_DELETE_LABEL);
    if flag.Some? {
      assert Says(service.meta, REMOVE_LBS_ON_DELETE_LABEL, flag.value);
    }
  }

  lemma FlagsApart()
    ensures TRUE_FLAGS !! FALSE_FLAGS
  {
  }

  /** Two of the session affinities are supported, each with its own algorithm. */
  lemma AlgorithmExactly(affinity: string)
    ensures AlgorithmFor(affinity) == Some("source") <==> affinity == "ClientIP"
    ensures AlgorithmFor(affinity) == Some("roundrobin") <==> affinity in {"", "None"}
    ensures AlgorithmFor(affinity).None? <==> affinity !in {"", "None", "ClientIP"}
  {
  }

  lemma TargetPortExactly(service: Service)
    ensures UsesTargetPort(service) <==> exists value :: Says(service.meta, LB_USE_TARGET_PORT, value)
  {
    LookupExactly(service.meta, LB_USE_TARGET_PORT);
    var value := GetLabelOrAnnotation(service.meta, LB_USE_TARGET_PORT);
    if value.Some? {
      assert Says(service.meta, LB_USE_TARGET_PORT, value.value);
    }
  }
}
