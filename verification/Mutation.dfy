/** The mutate* functions (plant_controller.go): the operator's fields, and only those,
    set on an object that was just read or is about to be created. */
module Mutation {
  import opened Wrappers
  import opened Objects
  import opened ApiServer
  import opened Resources
  import opened Containers

  // ----- owner references

  const PLANT_GROUP := "buddy.k8s-buddy.io"
  const PLANT_KIND := "Plant"

  function OwnerRefFor(p: Plant): OwnerRef {
    OwnerRef(PLANT_GROUP, PLANT_KIND, p.id.name, p.uid, true)
  }

  function ControllerOf(owners: seq<OwnerRef>): Option<OwnerRef> {
    if owners == [] then None
    else if owners[0].controller then Some(owners[0])
    else ControllerOf(owners[1..])
  }

  /** The i-th reference is the first one marked as controller. */
  predicate IsController(owners: seq<OwnerRef>, i: nat) {
    i < |owners| && owners[i].controller && forall j :: 0 <= j < i ==> !owners[j].controller
  }

  lemma {:induction false} ControllerIsFirst(owners: seq<OwnerRef>)
    ensures forall i: nat :: IsController(owners, i) ==> ControllerOf(owners) == Some(owners[i])
    ensures ControllerOf(owners).Some? ==> exists i: nat :: IsController(owners, i)
  {
    if owners != [] && owners[0].controller {
      assert IsController(owners, 0);
    } else if owners != [] {
      ControllerIsFirst(owners[1..]);
      forall i: nat | IsController(owners, i) ensures ControllerOf(owners) == Some(owners[i]) {
        assert IsController(owners[1..], i - 1);
      }
      if i: nat :| IsController(owners[1..], i) {
        assert IsController(owners, i + 1);
      }
    }
  }

  predicate SameOwner(a: OwnerRef, b: OwnerRef) {
    a.group == b.group && a.kind == b.kind && a.name == b.name
  }

  function Upsert(owners: seq<OwnerRef>, ref: OwnerRef): seq<OwnerRef> {
    if owners == [] then [ref]
    else if SameOwner(owners[0], ref) then [ref] + owners[1..]
    else [owners[0]] + Upsert(owners[1..], ref)
  }

  /** controllerutil.SetControllerReference: refuses to displace a controller with another
      identity, otherwise replaces or appends the reference (and so a stale UID). */
  function SetController(p: Plant, owners: seq<OwnerRef>): Result<seq<OwnerRef>, OwnerRef> {
    var existing := ControllerOf(owners);
    if existing.Some? && !SameOwner(existing.value, OwnerRefFor(p)) then Err(existing.value)
    else Ok(Upsert(owners, OwnerRefFor(p)))
  }

  lemma {:induction false} UpsertControls(owners: seq<OwnerRef>, ref: OwnerRef)
    requires ref.controller
    requires ControllerOf(owners).Some? ==> SameOwner(ControllerOf(owners).value, ref)
    ensures ControllerOf(Upsert(owners, ref)) == Some(ref)
    ensures Upsert(Upsert(owners, ref), ref) == Upsert(owners, ref)
  {
    if owners != [] && !SameOwner(owners[0], ref) {
      UpsertControls(owners[1..], ref);
      var r := Upsert(owners, ref);
      assert r[1..] == Upsert(owners[1..], ref);
    }
  }

  /** Every reference to somebody else stays. */
  lemma {:induction false} UpsertKeepsOthers(owners: seq<OwnerRef>, ref: OwnerRef, o: OwnerRef)
    requires o in owners && !SameOwner(o, ref)
    ensures o in Upsert(owners, ref)
  {
    if owners[0] != o {
      assert o in owners[1..];
      if !SameOwner(owners[0], ref) {
        UpsertKeepsOthers(owners[1..], ref, o);
      }
    }
  }

  lemma SetControllerSettles(p: Plant, owners: seq<OwnerRef>)
    requires SetController(p, owners).Ok?
    ensures var r := SetController(p, owners).value;
            && ControllerOf(r) == Some(OwnerRefFor(p))
            && SetController(p, r) == Ok(r)
  {
    UpsertControls(owners, OwnerRefFor(p));
  }

  // ----- labels

  function MergedLabels(existing: Labels, owned: Labels): Labels {
    existing + owned
  }

  method CopyInto(base: Labels, from: Labels) returns (merged: Labels)
    ensures merged == base + from
  {
    merged := base;
    var todo := from.Keys;
    while todo != {}
      invariant todo <= from.Keys
      invariant merged.Keys == base.Keys + (from.Keys - todo)
      invariant forall k :: k in from && k !in todo ==> merged[k] == from[k]
      invariant forall k :: k in base && (k !in from || k in todo) ==> merged[k] == base[k]
      decreases |todo|
    {
      var k :| k in todo;
      merged, todo := merged[k := from[k]], todo - {k};
    }
  }

  method MergeLabels(existing: Labels, owned: Labels) returns (merged: Labels)
    ensures merged == MergedLabels(existing, owned)
  {
    merged := CopyInto(map[], existing);
    merged := CopyInto(merged, owned);
    assert map[] + existing == existing;
  }

  // ----- bodies

  function EmptyBody(kind: Kind): (b: Body)
    ensures KindOf(b) == kind
  {
    match kind
    case Deployment =>
      DeploymentBody(DeploymentSpec(None, None, map[], PodSpec("", None, None, [], None, [], map[]), map[]),
                     DeploymentStatus(0, 0))
    case Service => ServiceBody("", map[], [], map[])
    case ConfigMap => ConfigMapBody(map[], map[])
    case PodDisruptionBudget => PdbBody(None, None, map[])
    case ServiceAccount => ServiceAccountBody(None, map[])
    case NetworkPolicy => NetworkPolicyBody(Selector(map[], []), [], [], [])
    case ServiceMonitor => ServiceMonitorBody(Selector(map[], []), [])
  }

  function EmptyObj(kind: Kind): Obj {
    Obj(Meta(0, 0, map[], [], map[]), EmptyBody(kind))
  }

  function MutatedPod(p: Plant, pod: PodSpec): PodSpec {
    PodSpecFor(p).(containers := Merged(pod.containers, PodSpecFor(p).containers), unowned := pod.unowned)
  }

  function MutatedBody(p: Plant, b: Body): (r: Body)
    ensures KindOf(r) == KindOf(b)
  {
    match b
    case DeploymentBody(s, status) =>
      var desired := DeploymentSpecFor(p);
      DeploymentBody(DeploymentSpec(if s.selector.None? then desired.selector else s.selector,
                                    desired.replicas,
                                    MergedLabels(s.templateLabels, desired.templateLabels),
                                    MutatedPod(p, s.pod), s.unowned),
                     status)
    case ServiceBody(_, _, _, unowned) => ServiceBody("ClusterIP", SelectorFor(p), ServicePortsFor(p), unowned)
    case ConfigMapBody(_, unowned) => ConfigMapBody(ConfigMapDataFor(p), unowned)
    case PdbBody(_, selector, unowned) =>
      PdbBody(Some(MinAvailableFor(p)), if selector.None? then Some(MatchLabels(SelectorFor(p))) else selector, unowned)
    case ServiceAccountBody(_, unowned) => ServiceAccountBody(Some(false), unowned)
    case NetworkPolicyBody(_, _, _, _) =>
      NetworkPolicyBody(MatchLabels(SelectorFor(p)), ["Ingress", "Egress"], IngressFor(p), EgressFor(p))
    case ServiceMonitorBody(_, _) => ServiceMonitorBody(MatchLabels(SelectorFor(p)), EndpointsFor(p))
  }

  function Mutated(p: Plant, o: Obj): Result<Obj, OwnerRef> {
    match SetController(p, o.meta.owners)
    case Err(other) => Err(other)
    case Ok(owners) =>
      Ok(Obj(o.meta.(owners := owners, labels := MergedLabels(o.meta.labels, LabelsFor(p))), MutatedBody(p, o.body)))
  }

  /** mutateDeployment, field by field on the object just read. */
  method MutateDeployment(p: Plant, o: Obj) returns (r: Result<Obj, OwnerRef>)
    requires o.body.DeploymentBody?
    ensures r == Mutated(p, o)
  {
    var owners := SetController(p, o.meta.owners);
    if owners.Err? {
      return Err(owners.error);
    }
    var desired := DeploymentSpecFor(p);
    var labels := MergeLabels(o.meta.labels, LabelsFor(p));
    var spec := o.body.spec;
    if spec.selector.None? {
      spec := spec.(selector := desired.selector);
    }
    spec := spec.(replicas := desired.replicas);
    var templateLabels := MergeLabels(spec.templateLabels, desired.templateLabels);
    spec := spec.(templateLabels := templateLabels);
    var pod := spec.pod;
    pod := pod.(serviceAccountName := desired.pod.serviceAccountName);
    pod := pod.(automountToken := desired.pod.automountToken);
    pod := pod.(security := desired.pod.security);
    pod := pod.(spread := desired.pod.spread);
    pod := pod.(gracePeriodSeconds := desired.pod.gracePeriodSeconds);
    var containers := MergeContainers(pod.containers, desired.pod.containers);
    pod := pod.(containers := containers);
    r := Ok(Obj(o.meta.(owners := owners.value, labels := labels), o.body.(spec := spec.(pod := pod))));
  }

  /** The mutate function of each kind. */
  method Mutate(p: Plant, o: Obj) returns (r: Result<Obj, OwnerRef>)
    ensures r == Mutated(p, o)
  {
    if o.body.DeploymentBody? {
      r := MutateDeployment(p, o);
      return;
    }
    var owners := SetController(p, o.meta.owners);
    if owners.Err? {
      return Err(owners.error);
    }
    var labels := MergeLabels(o.meta.labels, LabelsFor(p));
    var meta := o.meta.(owners := owners.value, labels := labels);
    var body := o.body;
    match body {
      case ServiceBody(_, _, _, _) =>
        body := body.(serviceType := "ClusterIP", serviceSelector := SelectorFor(p), servicePorts := ServicePortsFor(p));
      case ConfigMapBody(_, _) => body := body.(data := ConfigMapDataFor(p));
      case PdbBody(_, _, _) =>
        body := body.(minAvailable := Some(MinAvailableFor(p)));
        if body.pdbSelector.None? {
          body := body.(pdbSelector := Some(MatchLabels(SelectorFor(p))));
        }
      case ServiceAccountBody(_, _) => body := body.(automountToken := Some(false));
      case NetworkPolicyBody(_, _, _, _) =>
        body := body.(podSelector := MatchLabels(SelectorFor(p)), policyTypes := ["Ingress", "Egress"],
                      ingress := IngressFor(p), egress := EgressFor(p));
      case ServiceMonitorBody(_, _) =>
        body := body.(monitorSelector := MatchLabels(SelectorFor(p)), endpoints := EndpointsFor(p));
      case DeploymentBody(_, _) =>
    }
    r := Ok(Obj(meta, body));
  }

  // ----- what a mutation achieves

  /** The selector of the two kinds on which it cannot change. */
  function FixedSelector(b: Body): Option<Selector> {
    match b
    case DeploymentBody(s, _) => s.selector
    case PdbBody(_, selector, _) => selector
    case _ => None
  }

  /** Every field the operator owns is as the builders describe. Before the pass, the
      selector that cannot change was `was`: unset, it becomes the builder's. */
  predicate OwnedFieldsMatch(p: Plant, was: Option<Selector>, b: Body) {
    match b
    case DeploymentBody(s, _) =>
      && s.selector == (if was.None? then Some(MatchLabels(SelectorFor(p))) else was)
      && s.replicas == Some(ReplicasFor(p))
      && (forall k :: k in LabelsFor(p) ==> k in s.templateLabels && s.templateLabels[k] == LabelsFor(p)[k])
      && s.pod == PodSpecFor(p).(containers := s.pod.containers, unowned := s.pod.unowned)
      && |s.pod.containers| >= 1
      && s.pod.containers[0] == ContainerFor(p).(unowned := s.pod.containers[0].unowned)
    case ServiceBody(t, selector, ports, _) =>
      t == "ClusterIP" && selector == SelectorFor(p) && ports == ServicePortsFor(p)
    case ConfigMapBody(data, _) => data == ConfigMapDataFor(p)
    case PdbBody(minAvailable, selector, _) =>
      && minAvailable == Some(MinAvailableFor(p))
      && selector == (if was.None? then Some(MatchLabels(SelectorFor(p))) else was)
    case ServiceAccountBody(automount, _) => automount == Some(false)
    case NetworkPolicyBody(podSelector, types, ingress, egress) =>
      && podSelector == MatchLabels(SelectorFor(p)) && types == ["Ingress", "Egress"]
      && ingress == IngressFor(p) && egress == EgressFor(p)
    case ServiceMonitorBody(selector, endpoints) =>
      selector == MatchLabels(SelectorFor(p)) && endpoints == EndpointsFor(p)
  }

  predicate CarriesLabels(p: Plant, l: Labels) {
    forall k :: k in LabelsFor(p) ==> k in l && l[k] == LabelsFor(p)[k]
  }

  function SelectorBefore(before: Option<Obj>): Option<Selector> {
    if before.None? then None else FixedSelector(before.value.body)
  }

  /** The object is what the operator drives toward for this Plant, given what was stored
      before, if anything was. */
  predicate Conforms(p: Plant, before: Option<Obj>, o: Obj) {
    && ControllerOf(o.meta.owners) == Some(OwnerRefFor(p))
    && CarriesLabels(p, o.meta.labels)
    && OwnedFieldsMatch(p, SelectorBefore(before), o.body)
  }

  /** Labels merge over what was there: only the operator's keys may change. */
  predicate KeepsForeignLabels(p: Plant, before: Labels, after: Labels) {
    && after.Keys == before.Keys + LabelsFor(p).Keys
    && forall k :: k in before && k !in LabelsFor(p) ==> after[k] == before[k]
  }

  predicate KeepsForeignMeta(p: Plant, before: Meta, after: Meta) {
    && after.unowned == before.unowned
    && KeepsForeignLabels(p, before.labels, after.labels)
    && forall r :: r in before.owners && !SameOwner(r, OwnerRefFor(p)) ==> r in after.owners
  }

  /** Other containers stay as they were, in order; the operator's own keeps the fields
      no builder sets. */
  predicate KeepsForeignContainers(before: seq<Container>, after: seq<Container>) {
    && Without(after, {CONTAINER_NAME}) == Without(before, {CONTAINER_NAME})
    && (LastNamed(before, CONTAINER_NAME).Some? ==>
          after != [] && after[0].unowned == LastNamed(before, CONTAINER_NAME).value.unowned)
  }

  /** Unowned fields, status, a selector once set and foreign containers stay. */
  predicate KeepsForeignBody(p: Plant, before: Body, after: Body) {
    match (before, after)
    case (DeploymentBody(s, st), DeploymentBody(s', st')) =>
      && st == st' && s.unowned == s'.unowned && s.pod.unowned == s'.pod.unowned
      && (s.selector.Some? ==> s'.selector == s.selector)
      && KeepsForeignLabels(p, s.templateLabels, s'.templateLabels)
      && KeepsForeignContainers(s.pod.containers, s'.pod.containers)
    case (ServiceBody(_, _, _, u), ServiceBody(_, _, _, u')) => u == u'
    case (ConfigMapBody(_, u), ConfigMapBody(_, u')) => u == u'
    case (PdbBody(_, s, u), PdbBody(_, s', u')) => u == u' && (s.Some? ==> s' == s)
    case (ServiceAccountBody(_, u), ServiceAccountBody(_, u')) => u == u'
    case (NetworkPolicyBody(_, _, _, _), NetworkPolicyBody(_, _, _, _)) => true
    case (ServiceMonitorBody(_, _), ServiceMonitorBody(_, _)) => true
    case _ => false
  }

  predicate KeepsForeign(p: Plant, before: Obj, after: Obj) {
    KeepsForeignMeta(p, before.meta, after.meta) && KeepsForeignBody(p, before.body, after.body)
  }

  lemma MutationConforms(p: Plant, o: Obj)
    requires Mutated(p, o).Ok?
    ensures Conforms(p, Some(o), Mutated(p, o).value)
  {
    SetControllerSettles(p, o.meta.owners);
    MutatedBodyMatches(p, o.body);
  }

  lemma MutatedBodyMatches(p: Plant, b: Body)
    ensures OwnedFieldsMatch(p, FixedSelector(b), MutatedBody(p, b))
  {
    if b.DeploymentBody? {
      MergePutsDesiredFirst(b.spec.pod.containers, [ContainerFor(p)], 0);
    }
  }

  lemma MutationKeepsForeign(p: Plant, o: Obj)
    requires Mutated(p, o).Ok?
    ensures KeepsForeign(p, o, Mutated(p, o).value)
  {
    forall r | r in o.meta.owners && !SameOwner(r, OwnerRefFor(p))
      ensures r in Mutated(p, o).value.meta.owners
    {
      UpsertKeepsOthers(o.meta.owners, OwnerRefFor(p), r);
    }
    if o.body.DeploymentBody? {
      ContainersKeepForeign(ContainerFor(p), o.body.spec.pod.containers);
    }
  }

  lemma ContainersKeepForeign(want: Container, existing: seq<Container>)
    requires want.name == CONTAINER_NAME
    ensures KeepsForeignContainers(existing, Merged(existing, [want]))
  {
    NamesOfOne(want);
    MergeKeepsForeign(existing, [want]);
    MergePutsDesiredFirst(existing, [want], 0);
    assert [want][0] == want;
  }

  lemma NamesOfOne(c: Container)
    ensures Names([c]) == {c.name}
  {
    assert [c][0].name in Names([c]);
  }

  /** The builder leaves nothing it owns for the server to default. */
  lemma BuilderIsSpelledOut(p: Plant)
    ensures SpelledOut(ContainerFor(p))
  {
  }

  lemma StoredDeploymentSettles(p: Plant, key: Key, s: DeploymentSpec, status: DeploymentStatus)
    ensures var stored := DefaultBody(key, MutatedBody(p, DeploymentBody(s, status)));
            MutatedBody(p, stored) == stored
  {
    BuilderIsSpelledOut(p);
    MergeSettlesIffSpelledOut(s.pod.containers, [ContainerFor(p)]);
    assert MergedLabels(MergedLabels(s.templateLabels, LabelsFor(p)), LabelsFor(p))
        == MergedLabels(s.templateLabels, LabelsFor(p));
  }

  lemma StoredBodySettles(p: Plant, key: Key, b: Body)
    ensures var stored := DefaultBody(key, MutatedBody(p, b));
            MutatedBody(p, stored) == stored
  {
    match b
    case DeploymentBody(s, status) =>
      StoredDeploymentSettles(p, key, s, status);
    case ServiceBody(_, _, _, _) =>
      assert DefaultServicePorts(ServicePortsFor(p)) == ServicePortsFor(p);
    case _ =>
  }

  lemma StatusDoesNotMatter(p: Plant, b: Body)
    ensures SpecOf(MutatedBody(p, b)) == MutatedBody(p, SpecOf(b))
  {
  }

  lemma AnyStoredBodySettles(p: Plant, key: Key, b: Body, stored: Body)
    requires stored == DefaultBody(key, MutatedBody(p, b)) || stored == DefaultBody(key, SpecOf(MutatedBody(p, b)))
    ensures MutatedBody(p, stored) == stored
  {
    if stored == DefaultBody(key, MutatedBody(p, b)) {
      StoredBodySettles(p, key, b);
    } else {
      StatusDoesNotMatter(p, b);
      StoredBodySettles(p, key, SpecOf(b));
    }
  }

  /** However the server completes and numbers a mutated object, mutating it again
      changes nothing. */
  lemma StoredMutationSettles(p: Plant, key: Key, o: Obj, stored: Obj)
    requires Mutated(p, o).Ok?
    requires stored.meta.labels == Mutated(p, o).value.meta.labels
    requires stored.meta.owners == Mutated(p, o).value.meta.owners
    requires || stored.body == DefaultBody(key, Mutated(p, o).value.body)
             || stored.body == DefaultBody(key, SpecOf(Mutated(p, o).value.body))
    ensures Mutated(p, stored) == Ok(stored)
  {
    SetControllerSettles(p, o.meta.owners);
    AnyStoredBodySettles(p, key, o.body, stored.body);
    LabelsSettle(o.meta.labels, LabelsFor(p));
    SettledByParts(p, stored);
  }

  lemma LabelsSettle(existing: Labels, owned: Labels)
    ensures MergedLabels(MergedLabels(existing, owned), owned) == MergedLabels(existing, owned)
  {
  }

  /** A mutation leaves an object alone exactly if it leaves its three parts alone. */
  lemma SettledByParts(p: Plant, o: Obj)
    ensures Mutated(p, o) == Ok(o)
       <==> && SetController(p, o.meta.owners) == Ok(o.meta.owners)
            && MergedLabels(o.meta.labels, LabelsFor(p)) == o.meta.labels
            && MutatedBody(p, o.body) == o.body
  {
  }

  /** Neither completing an object nor clearing its status touches the fixed selector. */
  lemma SelectorSurvivesDefaults(key: Key, b: Body)
    ensures FixedSelector(DefaultBody(key, b)) == FixedSelector(b) == FixedSelector(SpecOf(b))
  {
  }

  /** The selector a mutation leaves is the one that was set, or else the builder's. */
  lemma MutatedSelector(p: Plant, b: Body)
    requires b.DeploymentBody? || b.PdbBody?
    ensures FixedSelector(MutatedBody(p, b))
         == if FixedSelector(b).None? then Some(MatchLabels(SelectorFor(p))) else FixedSelector(b)
  {
  }

  lemma StoredSelector(p: Plant, key: Key, b: Body, stored: Body)
    requires b.DeploymentBody? || b.PdbBody?
    requires stored == DefaultBody(key, MutatedBody(p, b)) || stored == DefaultBody(key, SpecOf(MutatedBody(p, b)))
    ensures FixedSelector(stored)
         == if FixedSelector(b).None? then Some(MatchLabels(SelectorFor(p))) else FixedSelector(b)
  {
    SelectorSurvivesDefaults(key, MutatedBody(p, b));
    SelectorSurvivesDefaults(key, SpecOf(MutatedBody(p, b)));
    MutatedSelector(p, b);
  }

  /** What conforms given itself conforms given any earlier object whose selector it kept,
      or had to choose. */
  lemma ConformsGivenEarlier(p: Plant, before: Obj, o: Obj)
    requires Conforms(p, Some(o), o)
    requires o.body.DeploymentBody? || o.body.PdbBody? ==>
               FixedSelector(o.body) == (if FixedSelector(before.body).None? then Some(MatchLabels(SelectorFor(p)))
                                         else FixedSelector(before.body))
    ensures Conforms(p, Some(before), o)
  {
  }

  /** What the server stores of a mutated object conforms. */
  lemma StoredMutationConforms(p: Plant, key: Key, o: Obj, stored: Obj)
    requires Mutated(p, o).Ok?
    requires stored.meta.labels == Mutated(p, o).value.meta.labels
    requires stored.meta.owners == Mutated(p, o).value.meta.owners
    requires || stored.body == DefaultBody(key, Mutated(p, o).value.body)
             || stored.body == DefaultBody(key, SpecOf(Mutated(p, o).value.body))
    ensures Mutated(p, stored) == Ok(stored) && Conforms(p, Some(o), stored)
  {
    StoredMutationSettles(p, key, o, stored);
    SettledConforms(p, stored);
    StoredBodyConforms(p, key, o, stored);
  }

  lemma SettledConforms(p: Plant, o: Obj)
    requires Mutated(p, o) == Ok(o)
    ensures Conforms(p, Some(o), o)
  {
    MutationConforms(p, o);
  }

  lemma StoredBodyConforms(p: Plant, key: Key, o: Obj, stored: Obj)
    requires Conforms(p, Some(stored), stored)
    requires || stored.body == DefaultBody(key, MutatedBody(p, o.body))
             || stored.body == DefaultBody(key, SpecOf(MutatedBody(p, o.body)))
    ensures Conforms(p, Some(o), stored)
  {
    if o.body.DeploymentBody? || o.body.PdbBody? {
      StoredSelector(p, key, o.body, stored.body);
    }
    ConformsGivenEarlier(p, o, stored);
  }
}
