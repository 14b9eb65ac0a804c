/** Kubernetes objects as the operator sees them. Where a field is a pointer in Go it is
    an Option here. Fields no builder of the operator sets are gathered in `unowned`
    maps, keyed by field name; an absent key is an unset field. */
module Objects {
  import opened Wrappers

  type Labels = map<string, string>

  type Fields = map<string, string>

  datatype Kind =
    | Deployment | Service | ConfigMap | PodDisruptionBudget
    | ServiceAccount | NetworkPolicy | ServiceMonitor

  datatype Key = Key(kind: Kind, ns: string, name: string)

  datatype OwnerRef = OwnerRef(group: string, kind: string, name: string, uid: string, controller: bool)

  datatype Meta = Meta(resourceVersion: nat, generation: nat, labels: Labels, owners: seq<OwnerRef>, unowned: Fields)

  datatype Selector = Selector(matchLabels: Labels, matchExpressions: seq<string>)

  datatype ContainerPort = ContainerPort(name: string, port: int, protocol: string)

  /** Zero and the empty string are unset. */
  datatype Probe = Probe(path: string, port: string, scheme: string, timeoutSeconds: int,
                         periodSeconds: int, successThreshold: int, failureThreshold: int)

  datatype SecurityContext = SecurityContext(
    runAsNonRoot: Option<bool>, runAsUser: Option<int>, allowPrivilegeEscalation: Option<bool>,
    readOnlyRootFilesystem: Option<bool>, drop: seq<string>, seccomp: Option<string>)

  datatype PodSecurity = PodSecurity(runAsNonRoot: Option<bool>, runAsUser: Option<int>, seccomp: Option<string>)

  /** CPU in thousandths, memory in bytes. */
  datatype Resources = Resources(requests: map<string, nat>, limits: map<string, nat>)

  datatype Container = Container(
    name: string, image: string, imagePullPolicy: string, ports: seq<ContainerPort>, envFrom: seq<string>,
    security: Option<SecurityContext>, resources: Resources,
    liveness: Option<Probe>, readiness: Option<Probe>, startup: Option<Probe>, unowned: Fields)

  datatype TopologySpread = TopologySpread(maxSkew: int, topologyKey: string, whenUnsatisfiable: string, selector: Selector)

  datatype PodSpec = PodSpec(
    serviceAccountName: string, automountToken: Option<bool>, security: Option<PodSecurity>,
    spread: seq<TopologySpread>, gracePeriodSeconds: Option<int>, containers: seq<Container>, unowned: Fields)

  datatype DeploymentSpec = DeploymentSpec(
    selector: Option<Selector>, replicas: Option<int>, templateLabels: Labels, pod: PodSpec, unowned: Fields)

  datatype DeploymentStatus = DeploymentStatus(readyReplicas: int, observedGeneration: int)

  datatype ServicePort = ServicePort(name: string, port: int, targetPort: string, protocol: string)

  datatype PolicyPort = PolicyPort(protocol: string, port: int)

  datatype PolicyRule = PolicyRule(peers: seq<Selector>, ports: seq<PolicyPort>)

  datatype Endpoint = Endpoint(port: string, path: string, interval: string)

  datatype Body =
    | DeploymentBody(spec: DeploymentSpec, status: DeploymentStatus)
    | ServiceBody(serviceType: string, serviceSelector: Labels, servicePorts: seq<ServicePort>, unowned: Fields)
    | ConfigMapBody(data: map<string, string>, unowned: Fields)
    | PdbBody(minAvailable: Option<int>, pdbSelector: Option<Selector>, unowned: Fields)
    | ServiceAccountBody(automountToken: Option<bool>, unowned: Fields)
    | NetworkPolicyBody(podSelector: Selector, policyTypes: seq<string>, ingress: seq<PolicyRule>, egress: seq<PolicyRule>)
    | ServiceMonitorBody(monitorSelector: Selector, endpoints: seq<Endpoint>)

  datatype Obj = Obj(meta: Meta, body: Body)

  function KindOf(b: Body): Kind {
    match b
    case DeploymentBody(_, _) => Deployment
    case ServiceBody(_, _, _, _) => Service
    case ConfigMapBody(_, _) => ConfigMap
    case PdbBody(_, _, _) => PodDisruptionBudget
    case ServiceAccountBody(_, _) => ServiceAccount
    case NetworkPolicyBody(_, _, _, _) => NetworkPolicy
    case ServiceMonitorBody(_, _) => ServiceMonitor
  }

  // ----- Plants

  datatype PlantSpec = PlantSpec(
    species: string, replicas: Option<int>, image: string, resourceProfile: string,
    wateringSeconds: int, latencyBudget: string, chaosEndpoints: bool)

  datatype ConditionStatus = True | False | Unknown

  /** The reasons the operator gives, and those of anyone else. */
  datatype Reason =
    | AllReplicasReady | ReplicasNotReady
    | RolloutComplete | RolloutInProgress
    | InsufficientReplicas | PlantHealthy
    | InvalidName | NameConflict
    | OtherReason(text: string)

  /** One constructor for each sentence the operator writes, with what it fills in. */
  datatype Message =
    | AllDesiredReplicasReady | FewerReplicasReady
    | FullyRolledOut | RolloutNotConverged
    | NoReplicasReady | SomeReplicaReadyOrNoneDesired
    | NameTooLong(length: nat, limit: nat)
    | RefusingToAdopt(kind: Kind, ns: string, name: string, controller: Option<(string, string)>)
    | OtherMessage(text: string)

  datatype Condition = Condition(kind: string, status: ConditionStatus, reason: Reason, message: Message,
                                 observedGeneration: int, lastTransition: int)

  datatype PlantStatus = PlantStatus(
    mood: string, healthPercent: int, readyReplicas: int, desiredReplicas: int,
    observedGeneration: int, lastWatered: Option<int>, conditions: seq<Condition>)

  datatype PlantId = PlantId(ns: string, name: string)

  datatype Plant = Plant(
    id: PlantId, uid: string, resourceVersion: nat, generation: nat, deleting: bool,
    unowned: Fields, spec: PlantSpec, status: PlantStatus)
}
