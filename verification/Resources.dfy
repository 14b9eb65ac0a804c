/** The desired-state builders (resources.go): pure functions of a Plant. */
module Resources {
  import opened Wrappers
  import opened Objects

  const LABEL_NAME := "app.kubernetes.io/name"
  const LABEL_INSTANCE := "app.kubernetes.io/instance"
  const LABEL_COMPONENT := "app.kubernetes.io/component"
  const LABEL_PART_OF := "app.kubernetes.io/part-of"
  const LABEL_MANAGED_BY := "app.kubernetes.io/managed-by"
  const LABEL_PLANT := "buddy.k8s-buddy.io/plant"

  const MANAGED_BY_VALUE := "plant-operator"
  const CONTAINER_NAME := "buddy-api"
  const PORT_NAME := "http"
  const CONTAINER_PORT := 8080
  const DNS_PORT := 53
  const RUN_AS_USER := 65532
  const GRACE_PERIOD_SECONDS := 30
  const DEFAULT_REPLICAS := 3
  const PDB_SUFFIX := "-pdb"

  function LabelsFor(p: Plant): Labels {
    map[LABEL_NAME := "buddy-api",
        LABEL_INSTANCE := p.id.name,
        LABEL_COMPONENT := "api",
        LABEL_PART_OF := "k8s-buddy",
        LABEL_MANAGED_BY := MANAGED_BY_VALUE,
        LABEL_PLANT := p.id.name]
  }

  function SelectorFor(p: Plant): Labels {
    map[LABEL_INSTANCE := p.id.name, LABEL_PLANT := p.id.name]
  }

  function ReplicasFor(p: Plant): int {
    if p.spec.replicas.None? then DEFAULT_REPLICAS else p.spec.replicas.value
  }

  function MatchLabels(l: Labels): Selector {
    Selector(l, [])
  }

  const MEBIBYTE := 1024 * 1024

  function ResourcesFor(profile: string): Resources {
    if profile == "medium" then
      Resources(map["cpu" := 100, "memory" := 128 * MEBIBYTE], map["cpu" := 500, "memory" := 256 * MEBIBYTE])
    else if profile == "large" then
      Resources(map["cpu" := 250, "memory" := 256 * MEBIBYTE], map["cpu" := 1000, "memory" := 512 * MEBIBYTE])
    else
      Resources(map["cpu" := 50, "memory" := 64 * MEBIBYTE], map["cpu" := 200, "memory" := 128 * MEBIBYTE])
  }

  function HttpProbe(path: string, period: int, failures: int): Probe {
    Probe(path, PORT_NAME, "HTTP", 1, period, 1, failures)
  }

  function ContainerFor(p: Plant): Container {
    Container(
      CONTAINER_NAME, p.spec.image, "IfNotPresent", [ContainerPort(PORT_NAME, CONTAINER_PORT, "TCP")], [p.id.name],
      Some(SecurityContext(Some(true), Some(RUN_AS_USER), Some(false), Some(true), ["ALL"], Some("RuntimeDefault"))),
      ResourcesFor(p.spec.resourceProfile),
      Some(HttpProbe("/healthz", 10, 3)), Some(HttpProbe("/readyz", 2, 2)), Some(HttpProbe("/healthz", 2, 15)),
      map[])
  }

  function PodSpecFor(p: Plant): PodSpec {
    PodSpec(
      p.id.name, Some(false), Some(PodSecurity(Some(true), Some(RUN_AS_USER), Some("RuntimeDefault"))),
      [TopologySpread(1, "kubernetes.io/hostname", "ScheduleAnyway", MatchLabels(SelectorFor(p)))],
      Some(GRACE_PERIOD_SECONDS), [ContainerFor(p)], map[])
  }

  function DeploymentSpecFor(p: Plant): DeploymentSpec {
    DeploymentSpec(Some(MatchLabels(SelectorFor(p))), Some(ReplicasFor(p)), LabelsFor(p), PodSpecFor(p), map[])
  }

  function ServicePortsFor(p: Plant): seq<ServicePort> {
    [ServicePort(PORT_NAME, 80, PORT_NAME, "TCP")]
  }

  function ConfigMapDataFor(p: Plant): map<string, string> {
    map["BUDDY_NAME" := p.id.name,
        "BUDDY_SPECIES" := p.spec.species,
        "BUDDY_LOG_LEVEL" := "info",
        "BUDDY_LATENCY_BUDGET" := p.spec.latencyBudget,
        "BUDDY_WORK_ERROR_RATE" := "0.05",
        "BUDDY_WORK_MIN_DELAY" := "10ms",
        "BUDDY_WORK_MAX_DELAY" := "200ms",
        "BUDDY_ENABLE_CHAOS_ENDPOINTS" := if p.spec.chaosEndpoints then "true" else "false",
        "BUDDY_SHUTDOWN_DELAY" := "5s"]
  }

  function MinAvailableFor(p: Plant): int {
    if ReplicasFor(p) - 1 < 1 then 1 else ReplicasFor(p) - 1
  }

  function IngressFor(p: Plant): seq<PolicyRule> {
    [PolicyRule([], [PolicyPort("TCP", CONTAINER_PORT)])]
  }

  function EgressFor(p: Plant): seq<PolicyRule> {
    [PolicyRule([MatchLabels(map["kubernetes.io/metadata.name" := "kube-system"])],
                [PolicyPort("UDP", DNS_PORT), PolicyPort("TCP", DNS_PORT)])]
  }

  function EndpointsFor(p: Plant): seq<Endpoint> {
    [Endpoint(PORT_NAME, "/metrics", "30s")]
  }

  /** Where a Plant's child of each kind lives. */
  function ChildKey(p: Plant, kind: Kind): Key {
    Key(kind, p.id.ns, if kind.PodDisruptionBudget? then p.id.name + PDB_SUFFIX else p.id.name)
  }

  /** Different Plants have no child key in common, "-pdb" names included. */
  lemma ChildKeysAreDisjoint(p: Plant, q: Plant, k1: Kind, k2: Kind)
    requires p.id != q.id
    ensures ChildKey(p, k1) != ChildKey(q, k2)
  {
    if k1.PodDisruptionBudget? && k1 == k2 {
      var a, b := p.id.name + PDB_SUFFIX, q.id.name + PDB_SUFFIX;
      if a == b {
        assert a[..|a| - |PDB_SUFFIX|] == p.id.name;
        assert b[..|b| - |PDB_SUFFIX|] == q.id.name;
      }
    }
  }
}
