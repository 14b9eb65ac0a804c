/** The part of the Kubernetes API server the operator relies on. */
module ApiServer {
  import opened Wrappers
  import opened Objects

  datatype ApiError = NotFound | AlreadyExists | Conflict | Invalid

  /** A write request as the client counts it, whether or not it was accepted. */
  datatype WriteCall = CreateCall(key: Key) | UpdateCall(key: Key) | StatusCall(id: PlantId)

  /** `next` is the next resource version; a version is never handed out twice. */
  datatype Store = Store(children: map<Key, Obj>, plants: map<PlantId, Plant>, next: nat, calls: seq<WriteCall>)

  // ----- defaulting: only ever fills what is unset

  function FillUnset(given: Fields, defaults: Fields): Fields {
    defaults + given
  }

  function DefaultProbe(p: Probe): Probe {
    Probe(if p.path == "" then "/" else p.path,
          p.port,
          if p.scheme == "" then "HTTP" else p.scheme,
          if p.timeoutSeconds == 0 then 1 else p.timeoutSeconds,
          if p.periodSeconds == 0 then 10 else p.periodSeconds,
          if p.successThreshold == 0 then 1 else p.successThreshold,
          if p.failureThreshold == 0 then 3 else p.failureThreshold)
  }

  function DefaultOptProbe(p: Option<Probe>): Option<Probe> {
    if p.None? then None else Some(DefaultProbe(p.value))
  }

  function DefaultProtocol(protocol: string): string {
    if protocol == "" then "TCP" else protocol
  }

  function DefaultPorts(ports: seq<ContainerPort>): seq<ContainerPort> {
    seq(|ports|, i requires 0 <= i < |ports| => ports[i].(protocol := DefaultProtocol(ports[i].protocol)))
  }

  function DefaultPullPolicy(c: Container): string {
    if c.imagePullPolicy != "" then c.imagePullPolicy
    else if ":latest" <= c.image[if |c.image| < 7 then 0 else |c.image| - 7..] then "Always"
    else "IfNotPresent"
  }

  const CONTAINER_DEFAULTS: Fields :=
    map["terminationMessagePath" := "/dev/termination-log", "terminationMessagePolicy" := "File"]

  function DefaultContainer(c: Container): Container {
    c.(imagePullPolicy := DefaultPullPolicy(c),
       ports := DefaultPorts(c.ports),
       liveness := DefaultOptProbe(c.liveness),
       readiness := DefaultOptProbe(c.readiness),
       startup := DefaultOptProbe(c.startup),
       unowned := FillUnset(c.unowned, CONTAINER_DEFAULTS))
  }

  function DefaultContainers(cs: seq<Container>): (r: seq<Container>)
    ensures |r| == |cs|
  {
    seq(|cs|, i requires 0 <= i < |cs| => DefaultContainer(cs[i]))
  }

  const POD_DEFAULTS: Fields :=
    map["restartPolicy" := "Always", "dnsPolicy" := "ClusterFirst", "schedulerName" := "default-scheduler"]

  function DefaultPod(p: PodSpec): PodSpec {
    p.(security := if p.security.None? then Some(PodSecurity(None, None, None)) else p.security,
       gracePeriodSeconds := if p.gracePeriodSeconds.None? then Some(30) else p.gracePeriodSeconds,
       containers := DefaultContainers(p.containers),
       unowned := FillUnset(p.unowned, POD_DEFAULTS))
  }

  const DEPLOYMENT_DEFAULTS: Fields :=
    map["strategy" := "RollingUpdate", "revisionHistoryLimit" := "10", "progressDeadlineSeconds" := "600"]

  function DefaultServicePorts(ports: seq<ServicePort>): seq<ServicePort> {
    seq(|ports|, i requires 0 <= i < |ports| => ports[i].(protocol := DefaultProtocol(ports[i].protocol)))
  }

  /** The address allocator is a function of the object's key. */
  function ServiceDefaults(key: Key): Fields {
    map["sessionAffinity" := "None", "internalTrafficPolicy" := "Cluster", "clusterIP" := key.ns + "/" + key.name]
  }

  function DefaultBody(key: Key, b: Body): Body {
    match b
    case DeploymentBody(s, status) =>
      DeploymentBody(s.(replicas := if s.replicas.None? then Some(1) else s.replicas,
                        pod := DefaultPod(s.pod),
                        unowned := FillUnset(s.unowned, DEPLOYMENT_DEFAULTS)),
                     status)
    case ServiceBody(t, selector, ports, unowned) =>
      ServiceBody(if t == "" then "ClusterIP" else t, selector, DefaultServicePorts(ports),
                  FillUnset(unowned, ServiceDefaults(key)))
    case _ => b
  }

  lemma DefaultContainersTwice(cs: seq<Container>)
    ensures DefaultContainers(DefaultContainers(cs)) == DefaultContainers(cs)
  {
    forall i | 0 <= i < |cs| ensures DefaultContainer(DefaultContainer(cs[i])) == DefaultContainer(cs[i]) {
      DefaultContainerTwice(cs[i]);
    }
  }

  lemma DefaultContainerTwice(c: Container)
    ensures DefaultContainer(DefaultContainer(c)) == DefaultContainer(c)
  {
    assert DefaultPorts(DefaultPorts(c.ports)) == DefaultPorts(c.ports);
    assert FillUnset(FillUnset(c.unowned, CONTAINER_DEFAULTS), CONTAINER_DEFAULTS)
        == FillUnset(c.unowned, CONTAINER_DEFAULTS);
  }

  /** Server defaulting is idempotent. */
  lemma DefaultBodyTwice(key: Key, b: Body)
    ensures DefaultBody(key, DefaultBody(key, b)) == DefaultBody(key, b)
  {
    match b
    case DeploymentBody(s, status) =>
      DefaultContainersTwice(s.pod.containers);
      assert FillUnset(FillUnset(s.unowned, DEPLOYMENT_DEFAULTS), DEPLOYMENT_DEFAULTS)
          == FillUnset(s.unowned, DEPLOYMENT_DEFAULTS);
      assert FillUnset(FillUnset(s.pod.unowned, POD_DEFAULTS), POD_DEFAULTS) == FillUnset(s.pod.unowned, POD_DEFAULTS);
    case ServiceBody(t, selector, ports, unowned) =>
      var d := ServiceDefaults(key);
      assert FillUnset(FillUnset(unowned, d), d) == FillUnset(unowned, d);
      assert DefaultServicePorts(DefaultServicePorts(ports)) == DefaultServicePorts(ports);
    case _ =>
  }

  // ----- validation

  const LABEL_VALUE_MAX_LENGTH := 63

  predicate ValidLabels(l: Labels) {
    forall k :: k in l ==> |l[k]| <= LABEL_VALUE_MAX_LENGTH
  }

  predicate OneController(owners: seq<OwnerRef>) {
    forall i, j :: 0 <= i < j < |owners| ==> !(owners[i].controller && owners[j].controller)
  }

  predicate UniqueNames(cs: seq<Container>) {
    forall i, j :: 0 <= i < j < |cs| ==> cs[i].name != cs[j].name
  }

  predicate Selects(s: Selector, l: Labels) {
    forall k :: k in s.matchLabels ==> k in l && l[k] == s.matchLabels[k]
  }

  const IMMUTABLE := "immutable"
  const MAX_UNAVAILABLE := "maxUnavailable"

  /** A ConfigMap someone has made immutable. */
  predicate Locked(unowned: Fields) {
    IMMUTABLE in unowned && unowned[IMMUTABLE] == "true"
  }

  predicate ValidBody(b: Body) {
    match b
    case DeploymentBody(s, _) =>
      && s.selector.Some? && Selects(s.selector.value, s.templateLabels)
      && ValidLabels(s.templateLabels) && UniqueNames(s.pod.containers)
    case PdbBody(minAvailable, _, unowned) => !(minAvailable.Some? && MAX_UNAVAILABLE in unowned)
    case _ => true
  }

  predicate Valid(o: Obj) {
    ValidLabels(o.meta.labels) && OneController(o.meta.owners) && ValidBody(o.body)
  }

  predicate LowerLetter(c: char) {
    'a' <= c <= 'z'
  }

  predicate LowerAlphanumeric(c: char) {
    LowerLetter(c) || '0' <= c <= '9'
  }

  const DNS_LABEL_MAX_LENGTH := 63

  /** A label of RFC 1035: it starts with a letter, and has no dots. */
  predicate IsDns1035Label(s: string) {
    && 0 < |s| <= DNS_LABEL_MAX_LENGTH
    && LowerLetter(s[0]) && LowerAlphanumeric(s[|s| - 1])
    && forall i :: 0 <= i < |s| ==> LowerAlphanumeric(s[i]) || s[i] == '-'
  }

  /** Of the kinds here only a Service's name must be more than what any object's name,
      and so a Plant's, must be. */
  predicate ValidName(key: Key) {
    key.kind.Service? ==> IsDns1035Label(key.name)
  }

  /** A Deployment's and a PodDisruptionBudget's selector cannot change, nor the data of an
      immutable ConfigMap. */
  predicate KeepsImmutable(old': Body, new': Body) {
    && (old'.DeploymentBody? && new'.DeploymentBody? ==> old'.spec.selector == new'.spec.selector)
    && (old'.PdbBody? && new'.PdbBody? ==> old'.pdbSelector == new'.pdbSelector)
    && (old'.ConfigMapBody? && new'.ConfigMapBody? && Locked(old'.unowned) ==>
          new'.data == old'.data && Locked(new'.unowned))
  }

  function SpecOf(b: Body): Body {
    if b.DeploymentBody? then b.(status := DeploymentStatus(0, 0)) else b
  }

  // ----- requests

  function Created(s: Store, key: Key, o: Obj): Obj {
    Obj(o.meta.(resourceVersion := s.next, generation := 1), DefaultBody(key, SpecOf(o.body)))
  }

  function Create(s: Store, key: Key, o: Obj): (Store, Result<Obj, ApiError>) {
    var s' := s.(calls := s.calls + [CreateCall(key)]);
    if key in s.children then (s', Err(AlreadyExists))
    else if !ValidName(key) || !Valid(o) then (s', Err(Invalid))
    else
      var stored := Created(s, key, o);
      (s'.(children := s.children[key := stored], next := s.next + 1), Ok(stored))
  }

  function Updated(s: Store, key: Key, current: Obj, o: Obj): Obj {
    var body := DefaultBody(key, o.body);
    var generation := if SpecOf(body) == SpecOf(current.body) then current.meta.generation
                      else current.meta.generation + 1;
    Obj(o.meta.(resourceVersion := s.next, generation := generation), body)
  }

  /** Optimistic concurrency: only the version the client read may be replaced. */
  function Update(s: Store, key: Key, o: Obj): (Store, Result<Obj, ApiError>) {
    var s' := s.(calls := s.calls + [UpdateCall(key)]);
    if key !in s.children then (s', Err(NotFound))
    else if s.children[key].meta.resourceVersion != o.meta.resourceVersion then (s', Err(Conflict))
    else if !Valid(o) || !KeepsImmutable(s.children[key].body, o.body) then (s', Err(Invalid))
    else
      var stored := Updated(s, key, s.children[key], o);
      (s'.(children := s.children[key := stored], next := s.next + 1), Ok(stored))
  }

  /** The status subresource: everything but the status is taken from the stored Plant. */
  function UpdateStatus(s: Store, p: Plant): (Store, Result<Plant, ApiError>) {
    var s' := s.(calls := s.calls + [StatusCall(p.id)]);
    if p.id !in s.plants then (s', Err(NotFound))
    else if s.plants[p.id].resourceVersion != p.resourceVersion then (s', Err(Conflict))
    else
      var stored := s.plants[p.id].(status := p.status, resourceVersion := s.next);
      (s'.(plants := s.plants[p.id := stored], next := s.next + 1), Ok(stored))
  }

  /** Plants are stored under their own id, with versions already handed out. */
  ghost predicate PlantsOk(s: Store) {
    forall id :: id in s.plants ==> s.plants[id].id == id && s.plants[id].resourceVersion < s.next
  }

  /** What every request keeps: each object has a name its kind allows, is of its key's
      kind, complete as far as defaulting goes, and older than the next version. */
  ghost predicate StoreOk(s: Store) {
    && (forall k :: k in s.children ==>
                      && ValidName(k)
                      && KindOf(s.children[k].body) == k.kind
                      && DefaultBody(k, s.children[k].body) == s.children[k].body
                      && s.children[k].meta.resourceVersion < s.next)
    && PlantsOk(s)
  }

  lemma CreateKeepsStoreOk(s: Store, key: Key, o: Obj)
    requires StoreOk(s) && KindOf(o.body) == key.kind
    ensures StoreOk(Create(s, key, o).0)
  {
    var (t, r) := Create(s, key, o);
    CreateIsPut(s, key, o);
    if r.Ok? {
      DefaultBodyTwice(key, SpecOf(o.body));
      KindSurvivesDefaults(key, SpecOf(o.body));
      PutKeepsStoreOk(s, key, r.value, t);
    }
  }

  lemma CreateIsPut(s: Store, key: Key, o: Obj)
    ensures var (t, r) := Create(s, key, o);
            && t.plants == s.plants
            && (r.Err? ==> t.children == s.children && t.next == s.next)
            && (r.Ok? ==>
                  && ValidName(key) && t.children == s.children[key := r.value] && t.next == s.next + 1
                  && r.value.body == DefaultBody(key, SpecOf(o.body)) && r.value.meta.resourceVersion == s.next)
  {
  }

  lemma UpdateKeepsStoreOk(s: Store, key: Key, o: Obj)
    requires StoreOk(s) && KindOf(o.body) == key.kind
    ensures StoreOk(Update(s, key, o).0)
  {
    var (t, r) := Update(s, key, o);
    UpdateIsPut(s, key, o);
    if r.Ok? {
      DefaultBodyTwice(key, o.body);
      KindSurvivesDefaults(key, o.body);
      PutKeepsStoreOk(s, key, r.value, t);
    }
  }

  lemma KindSurvivesDefaults(key: Key, b: Body)
    ensures KindOf(DefaultBody(key, b)) == KindOf(b)
  {
  }

  lemma UpdateIsPut(s: Store, key: Key, o: Obj)
    ensures var (t, r) := Update(s, key, o);
            && t.plants == s.plants
            && (r.Err? ==> t.children == s.children && t.next == s.next)
            && (r.Ok? ==>
                  && t.children == s.children[key := r.value] && t.next == s.next + 1
                  && r.value.body == DefaultBody(key, o.body) && r.value.meta.resourceVersion == s.next)
  {
  }

  lemma PutKeepsStoreOk(s: Store, key: Key, o: Obj, t: Store)
    requires StoreOk(s) && ValidName(key) && KindOf(o.body) == key.kind
    requires DefaultBody(key, o.body) == o.body && o.meta.resourceVersion == s.next
    requires t.children == s.children[key := o] && t.plants == s.plants && t.next == s.next + 1
    ensures StoreOk(t)
  {
  }
}
