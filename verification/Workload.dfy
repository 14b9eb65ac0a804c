/** What a successful pass leaves in the cluster: the stored children fit together into one
    running, reachable, hardened workload that is as the Plant's spec says (resources.go). */
module Workload {
  import opened Wrappers
  import opened Objects
  import opened ApiServer
  import opened Resources
  import opened Mutation
  import opened Children
  import opened MonitorProbe
  import opened ReconcilePass

  // ----- what to expect of each child

  /** Every pod with these labels is picked. */
  predicate Picks(selector: Labels, labels: Labels) {
    forall k :: k in selector ==> k in labels && labels[k] == selector[k]
  }

  function WantedReplicas(p: Plant): int {
    if p.spec.replicas.Some? then p.spec.replicas.value else 3
  }

  /** Controlled by the Plant, and labelled as its. */
  ghost predicate IsMarked(p: Plant, m: Meta) {
    && (exists i: nat :: IsController(m.owners, i)
                         && m.owners[i] == OwnerRef("buddy.k8s-buddy.io", "Plant", p.id.name, p.uid, true))
    && Picks(SixLabels(p), m.labels)
  }

  function SixLabels(p: Plant): Labels {
    map["app.kubernetes.io/name" := "buddy-api",
        "app.kubernetes.io/instance" := p.id.name,
        "app.kubernetes.io/component" := "api",
        "app.kubernetes.io/part-of" := "k8s-buddy",
        "app.kubernetes.io/managed-by" := "plant-operator",
        "buddy.k8s-buddy.io/plant" := p.id.name]
  }

  /** What the Plant's selectors ask for. */
  function OwnSelector(p: Plant): Labels {
    map["app.kubernetes.io/instance" := p.id.name, "buddy.k8s-buddy.io/plant" := p.id.name]
  }

  /** Labels under other keys are as they were. */
  predicate KeepsOtherLabels(p: Plant, before: Labels, after: Labels) {
    && (forall k :: k in before && k !in SixLabels(p) ==> k in after && after[k] == before[k])
    && (forall k :: k in after && k !in SixLabels(p) ==> k in before)
  }

  /** CPU requested and allowed in thousandths, memory in mebibytes. */
  function Sizes(profile: string): (nat, nat, nat, nat) {
    if profile == "medium" then (100, 500, 128, 256)
    else if profile == "large" then (250, 1000, 256, 512)
    else (50, 200, 64, 128)
  }

  predicate HasSizes(r: Objects.Resources, sizes: (nat, nat, nat, nat)) {
    && r.requests == map["cpu" := sizes.0, "memory" := sizes.2 * 1024 * 1024]
    && r.limits == map["cpu" := sizes.1, "memory" := sizes.3 * 1024 * 1024]
  }

  /** What the restricted Pod Security Standard asks of a container, and a read-only root. */
  predicate Restricted(s: Option<SecurityContext>, pod: Option<PodSecurity>) {
    && s == Some(SecurityContext(Some(true), Some(65532), Some(false), Some(true), ["ALL"], Some("RuntimeDefault")))
    && pod == Some(PodSecurity(Some(true), Some(65532), Some("RuntimeDefault")))
  }

  /** The workload's own container: the spec's image and size, one port, everything it asks
      the kubelet to probe on that port, its settings from the ConfigMap of this name. */
  predicate RunsImage(p: Plant, c: Container, configMap: string) {
    && c.image == p.spec.image && c.imagePullPolicy == "IfNotPresent" && HasSizes(c.resources, Sizes(p.spec.resourceProfile))
    && c.ports == [ContainerPort("http", 8080, "TCP")]
    && c.liveness == Some(Probe("/healthz", c.ports[0].name, "HTTP", 1, 10, 1, 3))
    && c.readiness == Some(Probe("/readyz", c.ports[0].name, "HTTP", 1, 2, 1, 2))
    && c.startup == Some(Probe("/healthz", c.ports[0].name, "HTTP", 1, 2, 1, 15))
    && c.envFrom == [configMap]
  }

  predicate RunsPods(p: Plant, d: DeploymentSpec, configMap: string, account: string) {
    && d.replicas == Some(WantedReplicas(p))
    && Picks(SixLabels(p), d.templateLabels)
    && d.pod.serviceAccountName == account && d.pod.automountToken == Some(false)
    && d.pod.gracePeriodSeconds == Some(30)
    && |d.pod.containers| >= 1 && d.pod.containers[0].name == "buddy-api"
    && RunsImage(p, d.pod.containers[0], configMap)
    && Restricted(d.pod.containers[0].security, d.pod.security)
    && d.pod.spread == [TopologySpread(1, "kubernetes.io/hostname", "ScheduleAnyway", Selector(OwnSelector(p), []))]
  }

  /** The Service leads from port 80 to the container's port, on the Plant's pods. */
  predicate Reaches(p: Plant, svc: Body, d: DeploymentSpec)
    requires svc.ServiceBody? && d.pod.containers != [] && d.pod.containers[0].ports != []
  {
    && svc.serviceType == "ClusterIP" && svc.serviceSelector == OwnSelector(p)
    && |svc.servicePorts| == 1
    && svc.servicePorts[0].port == 80 && svc.servicePorts[0].protocol == "TCP"
    && svc.servicePorts[0].targetPort == d.pod.containers[0].ports[0].name
  }

  /** The policy leaves the pods their own port, and DNS in kube-system, and nothing else. */
  predicate Confines(p: Plant, np: Body, d: DeploymentSpec)
    requires np.NetworkPolicyBody? && d.pod.containers != [] && d.pod.containers[0].ports != []
  {
    && np.podSelector == Selector(OwnSelector(p), []) && np.policyTypes == ["Ingress", "Egress"]
    && np.ingress == [PolicyRule([], [PolicyPort("TCP", d.pod.containers[0].ports[0].port)])]
    && np.egress == [PolicyRule([Selector(map["kubernetes.io/metadata.name" := "kube-system"], [])],
                                [PolicyPort("UDP", 53), PolicyPort("TCP", 53)])]
  }

  /** A drain may take one pod at a time, and the last only by force. */
  predicate Guards(p: Plant, pdb: Body)
    requires pdb.PdbBody?
  {
    pdb.minAvailable == Some(if WantedReplicas(p) <= 2 then 1 else WantedReplicas(p) - 1)
  }

  predicate Configures(p: Plant, data: map<string, string>) {
    data == map["BUDDY_NAME" := p.id.name,
                "BUDDY_SPECIES" := p.spec.species,
                "BUDDY_LOG_LEVEL" := "info",
                "BUDDY_LATENCY_BUDGET" := p.spec.latencyBudget,
                "BUDDY_WORK_ERROR_RATE" := "0.05",
                "BUDDY_WORK_MIN_DELAY" := "10ms",
                "BUDDY_WORK_MAX_DELAY" := "200ms",
                "BUDDY_ENABLE_CHAOS_ENDPOINTS" := if p.spec.chaosEndpoints then "true" else "false",
                "BUDDY_SHUTDOWN_DELAY" := "5s"]
  }

  /** The ServiceMonitor picks the Service and scrapes the port it names. */
  predicate Scrapes(p: Plant, sm: Body, svc: Obj)
    requires sm.ServiceMonitorBody? && svc.body.ServiceBody?
  {
    && sm.monitorSelector == Selector(OwnSelector(p), []) && Picks(OwnSelector(p), svc.meta.labels)
    && |svc.body.servicePorts| == 1 && sm.endpoints == [Endpoint(svc.body.servicePorts[0].name, "/metrics", "30s")]
  }

  // ----- all of them

  function KeyOf(p: Plant, kind: Kind): Key {
    Key(kind, p.id.ns, if kind == PodDisruptionBudget then p.id.name + "-pdb" else p.id.name)
  }

  ghost predicate Has(t: Store, p: Plant, kind: Kind) {
    && KeyOf(p, kind) in t.children
    && KindOf(t.children[KeyOf(p, kind)].body) == kind && IsMarked(p, t.children[KeyOf(p, kind)].meta)
  }

  function BodyOf(t: Store, p: Plant, kind: Kind): Body {
    if KeyOf(p, kind) in t.children then t.children[KeyOf(p, kind)].body else EmptyBody(kind)
  }

  /** The parts are as the Plant's spec says, and refer to each other. */
  predicate FitTogether(p: Plant, d: Body, svc: Body, cm: Body, pdb: Body, sa: Body, np: Body) {
    && d.DeploymentBody? && RunsPods(p, d.spec, KeyOf(p, ConfigMap).name, KeyOf(p, ServiceAccount).name)
    && svc.ServiceBody? && Reaches(p, svc, d.spec)
    && cm.ConfigMapBody? && Configures(p, cm.data)
    && pdb.PdbBody? && Guards(p, pdb)
    && sa.ServiceAccountBody? && sa.automountToken == Some(false)
    && np.NetworkPolicyBody? && Confines(p, np, d.spec)
  }

  ghost predicate Stands(t: Store, p: Plant) {
    && (forall kind: Kind :: kind != ServiceMonitor ==> Has(t, p, kind))
    && FitTogether(p, BodyOf(t, p, Deployment), BodyOf(t, p, Service), BodyOf(t, p, ConfigMap),
                   BodyOf(t, p, PodDisruptionBudget), BodyOf(t, p, ServiceAccount), BodyOf(t, p, NetworkPolicy))
  }

  ghost predicate IsScraped(t: Store, p: Plant) {
    && Has(t, p, ServiceMonitor) && Has(t, p, Service)
    && BodyOf(t, p, ServiceMonitor).ServiceMonitorBody? && BodyOf(t, p, Service).ServiceBody?
    && Scrapes(p, BodyOf(t, p, ServiceMonitor), t.children[KeyOf(p, Service)])
  }

  /** Of the two selectors that cannot change: the Plant's own, unless one was set. */
  predicate SelectorStands(p: Plant, was: Option<Obj>, now: Body) {
    && (now.DeploymentBody? && (was.Some? ==> was.value.body.DeploymentBody?) ==>
          now.spec.selector == if was.Some? && was.value.body.spec.selector.Some? then was.value.body.spec.selector
                               else Some(Selector(OwnSelector(p), [])))
    && (now.PdbBody? && (was.Some? ==> was.value.body.PdbBody?) ==>
          now.pdbSelector == if was.Some? && was.value.body.pdbSelector.Some? then was.value.body.pdbSelector
                             else Some(Selector(OwnSelector(p), [])))
  }

  // ----- one child

  lemma LabelsAreSix(p: Plant)
    ensures LabelsFor(p) == SixLabels(p) && SelectorFor(p) == OwnSelector(p)
  {
  }

  lemma MarkedIfConforms(p: Plant, before: Option<Obj>, o: Obj)
    requires Conforms(p, before, o)
    ensures IsMarked(p, o.meta)
  {
    LabelsAreSix(p);
    ControllerIsFirst(o.meta.owners);
  }

  lemma PodsRun(p: Plant, was: Option<Selector>, d: DeploymentSpec, status: DeploymentStatus)
    requires OwnedFieldsMatch(p, was, DeploymentBody(d, status))
    ensures RunsPods(p, d, p.id.name, p.id.name)
  {
    LabelsAreSix(p);
    ContainerRuns(p, d.pod.containers[0]);
  }

  lemma ContainerRuns(p: Plant, c: Container)
    requires c == ContainerFor(p).(unowned := c.unowned)
    ensures RunsImage(p, c, p.id.name) && c.name == "buddy-api"
    ensures Restricted(c.security, PodSpecFor(p).security)
  {
  }

  /** A body of this kind that matches the builders, whatever selector was there. */
  ghost predicate Matches(p: Plant, kind: Kind, b: Body) {
    KindOf(b) == kind && exists was :: OwnedFieldsMatch(p, was, b)
  }

  lemma PartsFit(p: Plant, d: Body, svc: Body, cm: Body, pdb: Body, sa: Body, np: Body)
    requires Matches(p, Deployment, d) && Matches(p, Service, svc) && Matches(p, ConfigMap, cm)
    requires Matches(p, PodDisruptionBudget, pdb) && Matches(p, ServiceAccount, sa) && Matches(p, NetworkPolicy, np)
    ensures FitTogether(p, d, svc, cm, pdb, sa, np)
  {
    PodsFit(p, d);
    NetworkFits(p, svc, np, d.spec);
    SettingsFit(p, cm, pdb, sa);
  }

  lemma PodsFit(p: Plant, d: Body)
    requires Matches(p, Deployment, d)
    ensures d.DeploymentBody? && RunsPods(p, d.spec, p.id.name, p.id.name)
    ensures d.spec.pod.containers[0].ports == ContainerFor(p).ports
  {
    var was :| OwnedFieldsMatch(p, was, d);
    PodsRun(p, was, d.spec, d.status);
  }

  lemma SettingsFit(p: Plant, cm: Body, pdb: Body, sa: Body)
    requires Matches(p, ConfigMap, cm) && Matches(p, PodDisruptionBudget, pdb) && Matches(p, ServiceAccount, sa)
    ensures cm.ConfigMapBody? && Configures(p, cm.data) && pdb.PdbBody? && Guards(p, pdb)
    ensures sa.ServiceAccountBody? && sa.automountToken == Some(false)
  {
  }

  lemma NetworkFits(p: Plant, svc: Body, np: Body, d: DeploymentSpec)
    requires Matches(p, Service, svc) && Matches(p, NetworkPolicy, np)
    requires |d.pod.containers| >= 1 && d.pod.containers[0].ports == ContainerFor(p).ports
    ensures svc.ServiceBody? && Reaches(p, svc, d) && np.NetworkPolicyBody? && Confines(p, np, d)
  {
    LabelsAreSix(p);
  }

  lemma KeysAreTheChildren(p: Plant, kind: Kind)
    ensures KeyOf(p, kind) == ChildKey(p, kind)
  {
  }

  /** A child that converged is the Plant's. */
  lemma ConvergedIsThere(s: Store, t: Store, p: Plant, kind: Kind)
    requires Converged(s, t, p, kind)
    requires KeyOf(p, kind) in t.children ==> KindOf(t.children[KeyOf(p, kind)].body) == kind
    ensures Has(t, p, kind) && Matches(p, kind, BodyOf(t, p, kind))
    ensures var before := ObjAt(s, KeyOf(p, kind));
            && OwnedFieldsMatch(p, SelectorBefore(before), BodyOf(t, p, kind))
            && (before.Some? ==> KeepsOtherLabels(p, before.value.meta.labels, t.children[KeyOf(p, kind)].meta.labels))
  {
    KeysAreTheChildren(p, kind);
    LabelsAreSix(p);
    MarkedIfConforms(p, ObjAt(s, KeyOf(p, kind)), t.children[KeyOf(p, kind)]);
  }

  lemma MonitorScrapes(t: Store, p: Plant)
    requires Has(t, p, ServiceMonitor) && Matches(p, ServiceMonitor, BodyOf(t, p, ServiceMonitor))
    requires Has(t, p, Service) && Matches(p, Service, BodyOf(t, p, Service))
    ensures IsScraped(t, p)
  {
    LabelsAreSix(p);
  }

  // ----- after a pass

  lemma PassKeepsKinds(w: World, cached: bool, p: Plant, c: Call)
    requires StoreOk(w.store) && ReconcileLive(w, cached, p, c).1 == Requeue
    ensures var t := ReconcileLive(w, cached, p, c).0.store;
            forall k :: k in t.children ==> KindOf(t.children[k].body) == k.kind
  {
    var (v, r) := ReconcileChildren(w, cached, p, c);
    LiveNeedsItsChildren(w, cached, p, c);
    ChildrenStageFrame(w, cached, p, c);
    FinishKeepsChildren(v, p, r.value, c.now);
  }

  /** After every pass that requeues, from any store, the workload stands: every child is
      there, controlled by the Plant and labelled as its, the Deployment runs the spec's
      image, size and number of replicas, hardened, and Service, policy, budget, settings
      and account are those it needs. With the CRD found it is scraped as well. */
  lemma PassBuildsWorkload(w: World, cached: bool, id: PlantId, c: Call)
    requires StoreOk(w.store) && Reconcile(w, cached, id, c).1 == Requeue
    ensures id in w.store.plants
    ensures Stands(Reconcile(w, cached, id, c).0.store, w.store.plants[id])
    ensures Due(w, c, ServiceMonitor) ==> IsScraped(Reconcile(w, cached, id, c).0.store, w.store.plants[id])
  {
    RequeueIsLive(w, cached, id, c);
    var p := w.store.plants[id];
    PassKeepsKinds(w, cached, p, c);
    var t := Reconcile(w, cached, id, c).0.store;
    forall kind: Kind | Due(w, c, kind) ensures Has(t, p, kind) && Matches(p, kind, BodyOf(t, p, kind)) {
      PassConverges(w, cached, id, c, kind);
      ConvergedIsThere(w.store, t, p, kind);
    }
    PartsFit(p, BodyOf(t, p, Deployment), BodyOf(t, p, Service), BodyOf(t, p, ConfigMap),
             BodyOf(t, p, PodDisruptionBudget), BodyOf(t, p, ServiceAccount), BodyOf(t, p, NetworkPolicy));
    if Due(w, c, ServiceMonitor) {
      MonitorScrapes(t, p);
    }
  }

  /** What else such a pass leaves of a child that was there: its labels under other keys,
      and a selector that cannot change. */
  lemma PassKeepsWhatIsNotOwned(w: World, cached: bool, id: PlantId, c: Call, kind: Kind)
    requires StoreOk(w.store) && Reconcile(w, cached, id, c).1 == Requeue && Due(w, c, kind)
    ensures id in w.store.plants
    ensures var t, p := Reconcile(w, cached, id, c).0.store, w.store.plants[id];
            var before := ObjAt(w.store, KeyOf(p, kind));
            && KeyOf(p, kind) in t.children
            && (before.Some? ==> KeepsOtherLabels(p, before.value.meta.labels, t.children[KeyOf(p, kind)].meta.labels))
            && SelectorStands(p, before, BodyOf(t, p, kind))
  {
    RequeueIsLive(w, cached, id, c);
    var t, p := Reconcile(w, cached, id, c).0.store, w.store.plants[id];
    PassKeepsKinds(w, cached, p, c);
    PassConverges(w, cached, id, c, kind);
    ConvergedIsThere(w.store, t, p, kind);
    LabelsAreSix(p);
  }

  // ----- two Plants

  lemma OwnSelectorPicks(p: Plant, q: Plant, labels: Labels)
    requires Picks(SixLabels(q), labels)
    ensures Picks(OwnSelector(p), labels) <==> p.id.name == q.id.name
  {
    assert SixLabels(q)["buddy.k8s-buddy.io/plant"] == q.id.name;
  }

  lemma ServiceSelector(t: Store, p: Plant)
    requires Stands(t, p)
    ensures BodyOf(t, p, Service).ServiceBody? && BodyOf(t, p, Service).serviceSelector == OwnSelector(p)
  {
  }

  lemma PodLabels(t: Store, p: Plant)
    requires Stands(t, p)
    ensures BodyOf(t, p, Deployment).DeploymentBody? && Picks(SixLabels(p), BodyOf(t, p, Deployment).spec.templateLabels)
  {
  }

  /** What selects a Plant's pods selects no other Plant's: the Service of one leads to the
      pods of another exactly if they have the same name. */
  lemma ServicesReachOwnPodsOnly(t: Store, p: Plant, q: Plant)
    requires Stands(t, p) && Stands(t, q)
    ensures BodyOf(t, p, Service).ServiceBody? && BodyOf(t, q, Deployment).DeploymentBody?
    ensures Picks(BodyOf(t, p, Service).serviceSelector, BodyOf(t, q, Deployment).spec.templateLabels)
       <==> p.id.name == q.id.name
  {
    ServiceSelector(t, p);
    PodLabels(t, q);
    OwnSelectorPicks(p, q, BodyOf(t, q, Deployment).spec.templateLabels);
  }
}
