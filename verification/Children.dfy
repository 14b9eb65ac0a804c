/** applyChild, assertOwnership and reconcileChildren (plant_controller.go), as functions
    of the store; CacheOptions (cache.go) decides what a cached read can see. */
module Children {
  import opened Wrappers
  import opened Objects
  import opened ApiServer
  import opened Resources
  import opened Containers
  import opened Mutation

  datatype ChildError =
    | Api(error: ApiError)
    | ConflictingResource(key: Key, controller: Option<OwnerRef>)
    | AlreadyOwned(owner: OwnerRef)

  datatype Op = NoChange | WasCreated | WasUpdated

  datatype Change = Change(op: Op, obj: Obj)

  predicate Managed(l: Labels) {
    LABEL_MANAGED_BY in l && l[LABEL_MANAGED_BY] == MANAGED_BY_VALUE
  }

  /** The UID of the controller decides first; the label only speaks for objects this
      Plant does not control. */
  predicate Owned(p: Plant, o: Obj) {
    || (ControllerOf(o.meta.owners).Some? && ControllerOf(o.meta.owners).value.uid == p.uid)
    || Managed(o.meta.labels)
  }

  /** The informer cache holds every ServiceMonitor, and of the other kinds only what
      carries the managed-by label. The direct reader sees everything. */
  predicate Visible(cached: bool, key: Key, o: Obj) {
    !cached || key.kind.ServiceMonitor? || Managed(o.meta.labels)
  }

  function Read(s: Store, cached: bool, key: Key): Option<Obj> {
    if key in s.children && Visible(cached, key, s.children[key]) then Some(s.children[key]) else None
  }

  /** What is there, whoever can see it. */
  function ObjAt(s: Store, key: Key): Option<Obj> {
    if key in s.children then Some(s.children[key]) else None
  }

  /** What a pass decides to do about one child, from what it read. */
  datatype Plan = MakeNew(obj: Obj) | Leave(obj: Obj) | Replace(base: Obj, obj: Obj)

  function PlanChild(p: Plant, kind: Kind, got: Option<Obj>): Result<Plan, ChildError> {
    match got
    case None =>
      (match Mutated(p, EmptyObj(kind))
       case Err(owner) => Err(AlreadyOwned(owner))
       case Ok(o) => Ok(MakeNew(o)))
    case Some(existing) =>
      if !Owned(p, existing) then Err(ConflictingResource(ChildKey(p, kind), ControllerOf(existing.meta.owners)))
      else
        match Mutated(p, existing)
        case Err(owner) => Err(AlreadyOwned(owner))
        case Ok(o) => Ok(if o == existing then Leave(existing) else Replace(existing, o))
  }

  function Perform(s: Store, key: Key, plan: Plan): (Store, Result<Change, ChildError>) {
    match plan
    case Leave(o) => (s, Ok(Change(NoChange, o)))
    case MakeNew(o) =>
      var (s', r) := Create(s, key, o);
      (s', if r.Ok? then Ok(Change(WasCreated, r.value)) else Err(Api(r.error)))
    case Replace(_, o) =>
      var (s', r) := Update(s, key, o);
      (s', if r.Ok? then Ok(Change(WasUpdated, r.value)) else Err(Api(r.error)))
  }

  function ApplyChild(s: Store, cached: bool, p: Plant, kind: Kind): (Store, Result<Change, ChildError>) {
    var key := ChildKey(p, kind);
    match PlanChild(p, kind, Read(s, cached, key))
    case Err(e) => (s, Err(e))
    case Ok(plan) => Perform(s, key, plan)
  }

  datatype Summary = Summary(created: bool, updated: bool, deployment: Option<Obj>)

  const NOTHING := Summary(false, false, None)

  function Note(sum: Summary, kind: Kind, c: Change): Summary {
    Summary(sum.created || c.op.WasCreated?, sum.updated || c.op.WasUpdated?,
            if kind.Deployment? then Some(c.obj) else sum.deployment)
  }

  /** The children table, in order; the first error ends the pass. */
  function ApplyAll(s: Store, cached: bool, p: Plant, kinds: seq<Kind>, sum: Summary): (Store, Result<Summary, ChildError>)
    decreases |kinds|
  {
    if kinds == [] then (s, Ok(sum))
    else
      var (s', r) := ApplyChild(s, cached, p, kinds[0]);
      if r.Err? then (s', Err(r.error))
      else ApplyAll(s', cached, p, kinds[1..], Note(sum, kinds[0], r.value))
  }

  const SIX: seq<Kind> := [Deployment, Service, ConfigMap, PodDisruptionBudget, ServiceAccount, NetworkPolicy]

  ghost predicate UniqueKinds(kinds: seq<Kind>) {
    forall i, j :: 0 <= i < j < |kinds| ==> kinds[i] != kinds[j]
  }

  // ----- one child

  ghost predicate SameAt(s: Store, t: Store, k: Key) {
    && (k in t.children <==> k in s.children)
    && (k in s.children && k in t.children ==> t.children[k] == s.children[k])
  }

  lemma PerformFrame(s: Store, key: Key, plan: Plan)
    ensures var (s', r) := Perform(s, key, plan);
            && s'.plants == s.plants && s'.next >= s.next
            && (r.Err? ==> s'.children == s.children)
            && (forall k :: k != key ==> SameAt(s, s', k))
  {
  }

  lemma PerformKeepsStoreOk(s: Store, key: Key, plan: Plan)
    requires StoreOk(s) && KindOf(plan.obj.body) == key.kind
    ensures StoreOk(Perform(s, key, plan).0)
  {
    match plan
    case Leave(_) =>
    case MakeNew(o) => CreateKeepsStoreOk(s, key, o);
    case Replace(_, o) => UpdateKeepsStoreOk(s, key, o);
  }

  /** Nothing but this child's own key can change, and nothing at all on an error. */
  lemma ApplyChildFrame(s: Store, cached: bool, p: Plant, kind: Kind)
    ensures var (s', r) := ApplyChild(s, cached, p, kind);
            && s'.plants == s.plants && s'.next >= s.next
            && (r.Err? ==> s'.children == s.children)
            && (forall k :: k != ChildKey(p, kind) ==> SameAt(s, s', k))
            && (StoreOk(s) ==> StoreOk(s'))
  {
    var key := ChildKey(p, kind);
    var plan := PlanChild(p, kind, Read(s, cached, key));
    if plan.Ok? {
      PerformFrame(s, key, plan.value);
      if StoreOk(s) {
        PerformKeepsStoreOk(s, key, plan.value);
      }
    }
  }

  // ----- who may be written to, in terms of what is stored

  /** The first reference marked as controller carries the Plant's UID. */
  ghost predicate ControlledByUid(p: Plant, o: Obj) {
    exists i: nat :: IsController(o.meta.owners, i) && o.meta.owners[i].uid == p.uid
  }

  /** The label says that the operator made the object. */
  ghost predicate SaysPlantOperator(o: Obj) {
    && "app.kubernetes.io/managed-by" in o.meta.labels
    && o.meta.labels["app.kubernetes.io/managed-by"] == "plant-operator"
  }

  /** The guard passes an object whose controller has the Plant's UID, whatever its labels;
      of all others, exactly those whose label has the operator's value. */
  lemma OwnedIff(p: Plant, o: Obj)
    ensures Owned(p, o) <==> ControlledByUid(p, o) || SaysPlantOperator(o)
  {
    ControllerIsFirst(o.meta.owners);
  }

  /** Through the cache only ServiceMonitors and what carries the label's value are seen. */
  lemma VisibleIff(cached: bool, key: Key, o: Obj)
    ensures Visible(cached, key, o) <==> !cached || key.kind == ServiceMonitor || SaysPlantOperator(o)
  {
  }

  /** The first controller, if there is one, is a Plant of this name, whatever its UID. */
  ghost predicate ControlledByNamesake(p: Plant, o: Obj) {
    forall i: nat :: IsController(o.meta.owners, i) ==>
      && o.meta.owners[i].group == "buddy.k8s-buddy.io" && o.meta.owners[i].kind == "Plant"
      && o.meta.owners[i].name == p.id.name
  }

  lemma CanControlIff(p: Plant, o: Obj)
    ensures CanControl(p, o.meta.owners) <==> ControlledByNamesake(p, o)
  {
    ControllerIsFirst(o.meta.owners);
  }

  /** An apply is refused with a conflict exactly if there is an object that the reader
      sees, whose controller, if any, has another UID, and whose managed-by label is
      missing or has another value. */
  lemma ConflictIff(s: Store, cached: bool, p: Plant, kind: Kind)
    ensures var key, r := ChildKey(p, kind), ApplyChild(s, cached, p, kind).1;
            (r.Err? && r.error.ConflictingResource?) <==>
              && key in s.children && !ControlledByUid(p, s.children[key]) && !SaysPlantOperator(s.children[key])
              && (!cached || kind == ServiceMonitor)
    ensures var key, r := ChildKey(p, kind), ApplyChild(s, cached, p, kind).1;
            r.Err? && r.error.ConflictingResource? ==>
              && r.error.key == key
              && (if r.error.controller.Some?
                  then exists i: nat :: IsController(s.children[key].meta.owners, i)
                                        && r.error.controller.value == s.children[key].meta.owners[i]
                  else forall ref :: ref in s.children[key].meta.owners ==> !ref.controller)
  {
    var key := ChildKey(p, kind);
    if key in s.children {
      OwnedIff(p, s.children[key]);
      VisibleIff(cached, key, s.children[key]);
      ControllerIsFirst(s.children[key].meta.owners);
      NobodyControls(s.children[key].meta.owners);
    }
  }

  lemma {:induction false} NobodyControls(owners: seq<OwnerRef>)
    ensures ControllerOf(owners).None? ==> forall ref :: ref in owners ==> !ref.controller
  {
    if owners != [] {
      NobodyControls(owners[1..]);
    }
  }

  /** Past the guard, an object under another controller is refused: no apply takes a child
      from an owner of another group, kind or name. */
  lemma ControllersAreNotDisplaced(s: Store, cached: bool, p: Plant, kind: Kind)
    ensures var key, r := ChildKey(p, kind), ApplyChild(s, cached, p, kind).1;
            (r.Err? && r.error.AlreadyOwned?) <==>
              && key in s.children && (!cached || kind == ServiceMonitor || SaysPlantOperator(s.children[key]))
              && (ControlledByUid(p, s.children[key]) || SaysPlantOperator(s.children[key]))
              && !ControlledByNamesake(p, s.children[key])
  {
    var key := ChildKey(p, kind);
    NewContentIsValid(p, kind);
    if key in s.children {
      OwnedIff(p, s.children[key]);
      VisibleIff(cached, key, s.children[key]);
      CanControlIff(p, s.children[key]);
    }
  }

  /** The child is stored and the next mutation would not change it. */
  ghost predicate AtRest(s: Store, p: Plant, kind: Kind) {
    var key := ChildKey(p, kind);
    key in s.children && Mutated(p, s.children[key]) == Ok(s.children[key])
  }

  lemma AtRestConforms(s: Store, p: Plant, kind: Kind)
    requires AtRest(s, p, kind)
    ensures var o := s.children[ChildKey(p, kind)]; Conforms(p, Some(o), o)
    ensures Owned(p, s.children[ChildKey(p, kind)]) && Managed(s.children[ChildKey(p, kind)].meta.labels)
  {
    MutationConforms(p, s.children[ChildKey(p, kind)]);
    assert LABEL_MANAGED_BY in LabelsFor(p) && LabelsFor(p)[LABEL_MANAGED_BY] == MANAGED_BY_VALUE;
  }

  /** A child at rest is left alone, through either reader. */
  lemma AtRestIsQuiet(s: Store, cached: bool, p: Plant, kind: Kind)
    requires AtRest(s, p, kind)
    ensures ApplyChild(s, cached, p, kind) == (s, Ok(Change(NoChange, s.children[ChildKey(p, kind)])))
  {
    AtRestConforms(s, p, kind);
  }

  /** From s to t the child came to rest: it conforms to the builders, given what was
      there, and what was not the operator's is unchanged. */
  ghost predicate Converged(s: Store, t: Store, p: Plant, kind: Kind) {
    ConvergedFrom(p, ObjAt(s, ChildKey(p, kind)), ObjAt(t, ChildKey(p, kind)))
  }

  /** The same of what was there before, if anything, and what is there now. */
  ghost predicate ConvergedFrom(p: Plant, before: Option<Obj>, now: Option<Obj>) {
    && now.Some? && Mutated(p, now.value) == Ok(now.value)
    && Conforms(p, before, now.value)
    && (before.Some? ==> KeepsForeign(p, before.value, now.value))
  }

  lemma ConvergedElsewhere(s: Store, s': Store, t: Store, t': Store, p: Plant, kind: Kind)
    requires Converged(s, t, p, kind) && SameAt(s, s', ChildKey(p, kind)) && SameAt(t, t', ChildKey(p, kind))
    ensures Converged(s', t', p, kind)
  {
    assert ObjAt(s', ChildKey(p, kind)) == ObjAt(s, ChildKey(p, kind));
    assert ObjAt(t', ChildKey(p, kind)) == ObjAt(t, ChildKey(p, kind));
  }

  /** What a successful apply stores, and why. */
  lemma ApplyChildStores(s: Store, cached: bool, p: Plant, kind: Kind)
    requires ApplyChild(s, cached, p, kind).1.Ok?
    ensures var (s', r) := ApplyChild(s, cached, p, kind);
            var key := ChildKey(p, kind);
            && key in s'.children && s'.children[key] == r.value.obj
            && (key !in s.children ==>
                  Mutated(p, EmptyObj(kind)).Ok? && r.value.obj == Created(s, key, Mutated(p, EmptyObj(kind)).value))
            && (key in s.children ==>
                  && Mutated(p, s.children[key]).Ok?
                  && (|| (Mutated(p, s.children[key]) == Ok(s.children[key]) && r.value.obj == s.children[key])
                      || r.value.obj == Updated(s, key, s.children[key], Mutated(p, s.children[key]).value)))
  {
  }

  /** After a successful apply the child has converged. */
  lemma ApplyChildConverges(s: Store, cached: bool, p: Plant, kind: Kind)
    requires StoreOk(s)
    requires ApplyChild(s, cached, p, kind).1.Ok?
    ensures var (s', r) := ApplyChild(s, cached, p, kind);
            var key := ChildKey(p, kind);
            key in s'.children && s'.children[key] == r.value.obj && Converged(s, s', p, kind)
  {
    var key, stored := ChildKey(p, kind), ApplyChild(s, cached, p, kind).1.value.obj;
    ApplyChildStores(s, cached, p, kind);
    if key in s.children {
      ExistingConverges(s, p, key, s.children[key], stored);
    } else {
      CreationConverges(s, p, key, kind, stored);
    }
    assert ConvergedFrom(p, ObjAt(s, key), Some(stored));
  }

  lemma ExistingConverges(s: Store, p: Plant, key: Key, o: Obj, stored: Obj)
    requires DefaultBody(key, o.body) == o.body && Mutated(p, o).Ok?
    requires (Mutated(p, o) == Ok(o) && stored == o) || stored == Updated(s, key, o, Mutated(p, o).value)
    ensures ConvergedFrom(p, Some(o), Some(stored))
  {
    if stored == Updated(s, key, o, Mutated(p, o).value) {
      ReplacementConverges(s, p, key, o, stored);
    } else {
      SettledConforms(p, o);
      MutationKeepsForeign(p, o);
    }
  }

  lemma NothingWasThere(p: Plant, kind: Kind, o: Obj)
    requires Conforms(p, Some(EmptyObj(kind)), o)
    ensures Conforms(p, None, o)
  {
  }

  lemma CreationConverges(s: Store, p: Plant, key: Key, kind: Kind, stored: Obj)
    requires Mutated(p, EmptyObj(kind)).Ok?
    requires stored == Created(s, key, Mutated(p, EmptyObj(kind)).value)
    ensures Mutated(p, stored) == Ok(stored) && Conforms(p, None, stored)
  {
    StoredMutationConforms(p, key, EmptyObj(kind), stored);
    NothingWasThere(p, kind, stored);
  }

  lemma ReplacementConverges(s: Store, p: Plant, key: Key, base: Obj, stored: Obj)
    requires DefaultBody(key, base.body) == base.body && Mutated(p, base).Ok?
    requires stored == Updated(s, key, base, Mutated(p, base).value)
    ensures Mutated(p, stored) == Ok(stored) && Conforms(p, Some(base), stored) && KeepsForeign(p, base, stored)
  {
    StoredMutationConforms(p, key, base, stored);
    MutationKeepsForeign(p, base);
    DefaultingKeepsForeign(p, key, base, Mutated(p, base).value, stored);
  }

  /** An object that was complete loses nothing when its mutation is completed. */
  lemma DefaultingKeepsForeign(p: Plant, key: Key, before: Obj, mutated: Obj, stored: Obj)
    requires DefaultBody(key, before.body) == before.body
    requires KeepsForeign(p, before, mutated)
    requires stored.body == DefaultBody(key, mutated.body)
    requires stored.meta.(resourceVersion := 0, generation := 0) == mutated.meta.(resourceVersion := 0, generation := 0)
    ensures KeepsForeign(p, before, stored)
  {
    assert KeepsForeignMeta(p, before.meta, stored.meta);
    if before.body.DeploymentBody? {
      ContainersLoseNothing(before.body.spec.pod.containers, mutated.body.spec.pod.containers);
    }
  }

  lemma ContainersLoseNothing(before: seq<Container>, mutated: seq<Container>)
    requires DefaultContainers(before) == before
    requires KeepsForeignContainers(before, mutated)
    ensures KeepsForeignContainers(before, DefaultContainers(mutated))
  {
    DefaultsThroughWithout(mutated, {CONTAINER_NAME});
    DefaultsThroughWithout(before, {CONTAINER_NAME});
    DefaultsThroughLastNamed(before, CONTAINER_NAME);
  }

  // ----- when an apply succeeds

  lemma NewPodHasOneContainer(p: Plant)
    ensures UniqueNames(Merged([], [ContainerFor(p)]))
  {
  }

  lemma LabelsAreShort(p: Plant)
    ensures ValidLabels(LabelsFor(p)) <==> |p.id.name| <= LABEL_VALUE_MAX_LENGTH
  {
    assert LabelsFor(p)[LABEL_PLANT] == p.id.name;
  }

  /** A new child's content is acceptable exactly when the Plant's name can be a label
      value. */
  lemma NewContentIsValid(p: Plant, kind: Kind)
    ensures Mutated(p, EmptyObj(kind)).Ok?
    ensures Valid(Mutated(p, EmptyObj(kind)).value) <==> |p.id.name| <= LABEL_VALUE_MAX_LENGTH
  {
    var o := Mutated(p, EmptyObj(kind)).value;
    LabelsAreShort(p);
    assert o.meta.labels == LabelsFor(p);
    assert o.meta.owners == [OwnerRefFor(p)];
    if kind.Deployment? {
      assert o.body.spec.templateLabels == LabelsFor(p);
      NewPodHasOneContainer(p);
    }
  }

  predicate CanControl(p: Plant, owners: seq<OwnerRef>) {
    ControllerOf(owners).None? || SameOwner(ControllerOf(owners).value, OwnerRefFor(p))
  }

  /** What is stored lets an apply succeed: nothing, and the name is one the child may
      have; or an object that the reader sees, that passes the ownership check and has no
      other controller, and whose mutation is either none or one the server accepts. */
  predicate Applicable(s: Store, cached: bool, p: Plant, kind: Kind) {
    var key := ChildKey(p, kind);
    if key !in s.children then |p.id.name| <= LABEL_VALUE_MAX_LENGTH && ValidName(key)
    else
      var o := s.children[key];
      && Visible(cached, key, o) && Owned(p, o) && CanControl(p, o.meta.owners)
      && (|| Mutated(p, o) == Ok(o)
          || (Valid(Mutated(p, o).value) && KeepsImmutable(o.body, Mutated(p, o).value.body)))
  }

  lemma ApplyChildSucceedsIff(s: Store, cached: bool, p: Plant, kind: Kind)
    ensures ApplyChild(s, cached, p, kind).1.Ok? <==> Applicable(s, cached, p, kind)
  {
    if ChildKey(p, kind) in s.children {
      ExistingSucceedsIff(s, cached, p, kind);
    } else {
      NewContentIsValid(p, kind);
    }
  }

  lemma ExistingSucceedsIff(s: Store, cached: bool, p: Plant, kind: Kind)
    requires ChildKey(p, kind) in s.children
    ensures ApplyChild(s, cached, p, kind).1.Ok? <==> Applicable(s, cached, p, kind)
  {
    var key := ChildKey(p, kind);
    var o := s.children[key];
    if Visible(cached, key, o) && Owned(p, o) && CanControl(p, o.meta.owners) {
      OwnedSucceedsIff(s, cached, p, kind, o, Mutated(p, o).value);
    } else {
      OthersFail(s, cached, p, kind, o);
    }
  }

  lemma OthersFail(s: Store, cached: bool, p: Plant, kind: Kind, o: Obj)
    requires ChildKey(p, kind) in s.children && s.children[ChildKey(p, kind)] == o
    requires !Visible(cached, ChildKey(p, kind), o) || !Owned(p, o) || !CanControl(p, o.meta.owners)
    ensures ApplyChild(s, cached, p, kind).1.Err?
  {
    if !Visible(cached, ChildKey(p, kind), o) {
      NewContentIsValid(p, kind);
    }
  }

  lemma OwnedSucceedsIff(s: Store, cached: bool, p: Plant, kind: Kind, o: Obj, m: Obj)
    requires ChildKey(p, kind) in s.children && s.children[ChildKey(p, kind)] == o
    requires Visible(cached, ChildKey(p, kind), o) && Owned(p, o) && Mutated(p, o) == Ok(m)
    ensures ApplyChild(s, cached, p, kind).1.Ok? <==> m == o || (Valid(m) && KeepsImmutable(o.body, m.body))
  {
    assert Read(s, cached, ChildKey(p, kind)) == Some(o);
    assert PlanChild(p, kind, Some(o)) == Ok(if m == o then Leave(o) else Replace(o, m));
    assert m.meta.resourceVersion == o.meta.resourceVersion;
    ReplaceSucceedsIff(s, ChildKey(p, kind), o, m);
  }

  lemma ReplaceSucceedsIff(s: Store, key: Key, o: Obj, m: Obj)
    requires key in s.children && s.children[key] == o && m.meta.resourceVersion == o.meta.resourceVersion
    ensures Perform(s, key, Replace(o, m)).1.Ok? <==> Valid(m) && KeepsImmutable(o.body, m.body)
  {
  }

  lemma ApplicableElsewhere(s: Store, t: Store, cached: bool, p: Plant, kind: Kind)
    requires SameAt(s, t, ChildKey(p, kind))
    ensures Applicable(s, cached, p, kind) == Applicable(t, cached, p, kind)
  {
  }

  // ----- all children

  lemma {:induction false} ApplyAllKeepsStoreOk(s: Store, cached: bool, p: Plant, kinds: seq<Kind>, sum: Summary)
    ensures var s' := ApplyAll(s, cached, p, kinds, sum).0;
            s'.plants == s.plants && s'.next >= s.next && (StoreOk(s) ==> StoreOk(s'))
    decreases |kinds|
  {
    if kinds != [] {
      ApplyChildFrame(s, cached, p, kinds[0]);
      var (s1, r) := ApplyChild(s, cached, p, kinds[0]);
      if r.Ok? {
        ApplyAllKeepsStoreOk(s1, cached, p, kinds[1..], Note(sum, kinds[0], r.value));
      }
    }
  }

  /** No key but the Plant's own children's is ever written. */
  lemma {:induction false} ApplyAllFrame(s: Store, cached: bool, p: Plant, kinds: seq<Kind>, sum: Summary, k: Key)
    requires forall i :: 0 <= i < |kinds| ==> k != ChildKey(p, kinds[i])
    ensures SameAt(s, ApplyAll(s, cached, p, kinds, sum).0, k)
    decreases |kinds|
  {
    if kinds != [] {
      ApplyChildFrame(s, cached, p, kinds[0]);
      var (s1, r) := ApplyChild(s, cached, p, kinds[0]);
      assert SameAt(s, s1, k);
      if r.Ok? {
        ApplyAllFrame(s1, cached, p, kinds[1..], Note(sum, kinds[0], r.value), k);
      }
    }
  }

  /** A pass over two lists of children is one over the first and then one over the second. */
  lemma {:induction false} ApplyAllSplit(s: Store, cached: bool, p: Plant, a: seq<Kind>, b: seq<Kind>, sum: Summary)
    ensures var (t, r) := ApplyAll(s, cached, p, a, sum);
            ApplyAll(s, cached, p, a + b, sum) == if r.Err? then (t, r) else ApplyAll(t, cached, p, b, r.value)
    decreases |a|
  {
    if a == [] {
      assert a + b == b;
    } else {
      assert (a + b)[1..] == a[1..] + b;
      var (s1, r) := ApplyChild(s, cached, p, a[0]);
      if r.Ok? {
        ApplyAllSplit(s1, cached, p, a[1..], b, Note(sum, a[0], r.value));
      }
    }
  }

  /** A pass over the children that returns no error leaves every one of them stored,
      controlled by the Plant, as the builders describe, and otherwise untouched. */
  lemma {:induction false} ApplyAllConverges(s: Store, cached: bool, p: Plant, kinds: seq<Kind>, sum: Summary, i: nat)
    requires StoreOk(s) && UniqueKinds(kinds) && i < |kinds|
    requires ApplyAll(s, cached, p, kinds, sum).1.Ok?
    ensures Converged(s, ApplyAll(s, cached, p, kinds, sum).0, p, kinds[i])
    decreases |kinds|
  {
    var (s1, r) := ApplyChild(s, cached, p, kinds[0]);
    var rest, sum1 := kinds[1..], Note(sum, kinds[0], r.value);
    ApplyChildFrame(s, cached, p, kinds[0]);
    if i == 0 {
      FirstChildConverges(s, cached, p, kinds, sum);
    } else {
      assert kinds[i] == rest[i - 1] && SameAt(s, s1, ChildKey(p, kinds[i]));
      ApplyAllConverges(s1, cached, p, rest, sum1, i - 1);
      var t := ApplyAll(s1, cached, p, rest, sum1).0;
      ConvergedElsewhere(s1, s, t, t, p, kinds[i]);
    }
  }

  /** The rest of the pass does not touch the first child. */
  lemma FirstChildStays(s: Store, cached: bool, p: Plant, kinds: seq<Kind>, sum: Summary)
    requires UniqueKinds(kinds) && kinds != [] && ApplyChild(s, cached, p, kinds[0]).1.Ok?
    ensures SameAt(ApplyChild(s, cached, p, kinds[0]).0, ApplyAll(s, cached, p, kinds, sum).0, ChildKey(p, kinds[0]))
  {
    var (s1, r) := ApplyChild(s, cached, p, kinds[0]);
    var rest := kinds[1..];
    forall i | 0 <= i < |rest| ensures ChildKey(p, kinds[0]) != ChildKey(p, rest[i]) {
      assert rest[i] == kinds[i + 1];
    }
    ApplyAllFrame(s1, cached, p, rest, Note(sum, kinds[0], r.value), ChildKey(p, kinds[0]));
  }

  /** The first child keeps what its apply achieved through the rest of the pass. */
  lemma FirstChildConverges(s: Store, cached: bool, p: Plant, kinds: seq<Kind>, sum: Summary)
    requires StoreOk(s) && UniqueKinds(kinds) && kinds != []
    requires ApplyAll(s, cached, p, kinds, sum).1.Ok?
    ensures var s' := ApplyAll(s, cached, p, kinds, sum).0;
            var key := ChildKey(p, kinds[0]);
            && key in s'.children && s'.children[key] == ApplyChild(s, cached, p, kinds[0]).1.value.obj
            && Converged(s, s', p, kinds[0])
  {
    ApplyChildConverges(s, cached, p, kinds[0]);
    FirstChildStays(s, cached, p, kinds, sum);
    ConvergedElsewhere(s, s, ApplyChild(s, cached, p, kinds[0]).0, ApplyAll(s, cached, p, kinds, sum).0, p, kinds[0]);
  }

  lemma {:induction false} ApplyAllKeepsDeployment(s: Store, cached: bool, p: Plant, kinds: seq<Kind>, sum: Summary)
    requires Deployment !in kinds
    requires ApplyAll(s, cached, p, kinds, sum).1.Ok?
    ensures ApplyAll(s, cached, p, kinds, sum).1.value.deployment == sum.deployment
    decreases |kinds|
  {
    if kinds != [] {
      var (s1, r) := ApplyChild(s, cached, p, kinds[0]);
      ApplyAllKeepsDeployment(s1, cached, p, kinds[1..], Note(sum, kinds[0], r.value));
    }
  }

  /** Children at rest cost no request and report no change. */
  lemma {:induction false} ApplyAllAtRest(s: Store, cached: bool, p: Plant, kinds: seq<Kind>, sum: Summary)
    requires forall i :: 0 <= i < |kinds| ==> AtRest(s, p, kinds[i])
    ensures var (s', r) := ApplyAll(s, cached, p, kinds, sum);
            s' == s && r.Ok? && r.value.created == sum.created && r.value.updated == sum.updated
    decreases |kinds|
  {
    if kinds != [] {
      AtRestIsQuiet(s, cached, p, kinds[0]);
      var r := ApplyChild(s, cached, p, kinds[0]).1;
      ApplyAllAtRest(s, cached, p, kinds[1..], Note(sum, kinds[0], r.value));
    }
  }

  /** The children pass succeeds exactly when, in the store it starts from, every child
      can be applied. */
  lemma {:induction false} ApplyAllSucceedsIff(s: Store, cached: bool, p: Plant, kinds: seq<Kind>, sum: Summary)
    requires UniqueKinds(kinds)
    ensures ApplyAll(s, cached, p, kinds, sum).1.Ok?
       <==> forall i :: 0 <= i < |kinds| ==> Applicable(s, cached, p, kinds[i])
    decreases |kinds|
  {
    if kinds != [] {
      ApplyChildSucceedsIff(s, cached, p, kinds[0]);
      ApplyChildFrame(s, cached, p, kinds[0]);
      var (s1, r) := ApplyChild(s, cached, p, kinds[0]);
      if r.Ok? {
        ApplyAllSucceedsIff(s1, cached, p, kinds[1..], Note(sum, kinds[0], r.value));
        forall i | 1 <= i < |kinds|
          ensures Applicable(s, cached, p, kinds[i]) == Applicable(s1, cached, p, kinds[1..][i - 1])
        {
          ApplicableElsewhere(s, s1, cached, p, kinds[i]);
        }
      }
    }
  }

  // ----- what a summary says

  ghost predicate Appeared(s: Store, t: Store, p: Plant, kind: Kind) {
    ChildKey(p, kind) !in s.children && ChildKey(p, kind) in t.children
  }

  ghost predicate Changed(s: Store, t: Store, p: Plant, kind: Kind) {
    var key := ChildKey(p, kind);
    key in s.children && key in t.children && t.children[key] != s.children[key]
  }

  /** An apply reports a creation or an update exactly if there was one. */
  lemma ReportIsReal(s: Store, cached: bool, p: Plant, kind: Kind)
    requires StoreOk(s) && ApplyChild(s, cached, p, kind).1.Ok?
    ensures var (t, r) := ApplyChild(s, cached, p, kind);
            && (r.value.op.WasCreated? <==> Appeared(s, t, p, kind))
            && (r.value.op.WasUpdated? <==> Changed(s, t, p, kind))
  {
  }

  /** From s to t the summary gained what happened to these children. */
  ghost predicate Sums(s: Store, t: Store, p: Plant, kinds: seq<Kind>, before: Summary, after: Summary) {
    && (after.created <==> before.created || exists i :: 0 <= i < |kinds| && Appeared(s, t, p, kinds[i]))
    && (after.updated <==> before.updated || exists i :: 0 <= i < |kinds| && Changed(s, t, p, kinds[i]))
  }

  lemma SumsOneMore(s: Store, s1: Store, t: Store, p: Plant, kinds: seq<Kind>, before: Summary, mid: Summary, after: Summary)
    requires kinds != [] && Sums(s1, t, p, kinds[1..], mid, after)
    requires mid.created <==> before.created || Appeared(s, t, p, kinds[0])
    requires mid.updated <==> before.updated || Changed(s, t, p, kinds[0])
    requires forall i :: 1 <= i < |kinds| ==> SameAt(s, s1, ChildKey(p, kinds[i]))
    ensures Sums(s, t, p, kinds, before, after)
  {
    forall i | 1 <= i < |kinds|
      ensures Appeared(s, t, p, kinds[i]) == Appeared(s1, t, p, kinds[1..][i - 1])
      ensures Changed(s, t, p, kinds[i]) == Changed(s1, t, p, kinds[1..][i - 1])
    {
      assert SameAt(s, s1, ChildKey(p, kinds[i]));
    }
    assert forall i :: 0 <= i < |kinds[1..]| ==> kinds[1..][i] == kinds[i + 1];
  }

  /** So does a children pass over all of its children. */
  lemma {:induction false} SummaryIsReal(s: Store, cached: bool, p: Plant, kinds: seq<Kind>, sum: Summary)
    requires StoreOk(s) && UniqueKinds(kinds) && ApplyAll(s, cached, p, kinds, sum).1.Ok?
    ensures Sums(s, ApplyAll(s, cached, p, kinds, sum).0, p, kinds, sum, ApplyAll(s, cached, p, kinds, sum).1.value)
    decreases |kinds|
  {
    if kinds != [] {
      var (s1, r) := ApplyChild(s, cached, p, kinds[0]);
      var (t, after) := ApplyAll(s, cached, p, kinds, sum);
      FirstChildCame(s, cached, p, kinds, sum);
      FirstReport(s, cached, p, kinds, sum);
      RestIsUnique(kinds);
      SummaryIsReal(s1, cached, p, kinds[1..], Note(sum, kinds[0], r.value));
      SumsOneMore(s, s1, t, p, kinds, sum, Note(sum, kinds[0], r.value), after.value);
    }
  }

  lemma FirstReport(s: Store, cached: bool, p: Plant, kinds: seq<Kind>, sum: Summary)
    requires StoreOk(s) && UniqueKinds(kinds) && kinds != [] && ApplyChild(s, cached, p, kinds[0]).1.Ok?
    ensures var r, t := ApplyChild(s, cached, p, kinds[0]).1, ApplyAll(s, cached, p, kinds, sum).0;
            && (r.value.op.WasCreated? <==> Appeared(s, t, p, kinds[0]))
            && (r.value.op.WasUpdated? <==> Changed(s, t, p, kinds[0]))
  {
    ReportIsReal(s, cached, p, kinds[0]);
    FirstChildStays(s, cached, p, kinds, sum);
  }

  /** From s to t the child converged, as it could from the start. */
  ghost predicate Came(s: Store, t: Store, cached: bool, p: Plant, kind: Kind) {
    Applicable(s, cached, p, kind) && Converged(s, t, p, kind)
  }

  /** The children before the i-th converged, it could not be applied, and neither it nor
      those after it were touched. */
  ghost predicate StoppedAt(s: Store, t: Store, cached: bool, p: Plant, kinds: seq<Kind>, i: nat) {
    && i < |kinds| && !Applicable(s, cached, p, kinds[i])
    && (forall j :: 0 <= j < i ==> Came(s, t, cached, p, kinds[j]))
    && (forall j :: i <= j < |kinds| ==> SameAt(s, t, ChildKey(p, kinds[j])))
  }

  lemma StoppedLater(s: Store, s1: Store, t: Store, cached: bool, p: Plant, kinds: seq<Kind>, i: nat)
    requires kinds != [] && StoppedAt(s1, t, cached, p, kinds[1..], i)
    requires Came(s, t, cached, p, kinds[0])
    requires forall j :: 1 <= j < |kinds| ==> SameAt(s, s1, ChildKey(p, kinds[j]))
    ensures StoppedAt(s, t, cached, p, kinds, i + 1)
  {
    var rest := kinds[1..];
    forall j | 1 <= j < i + 1 ensures Came(s, t, cached, p, kinds[j]) {
      assert kinds[j] == rest[j - 1] && Came(s1, t, cached, p, rest[j - 1]);
      ApplicableElsewhere(s, s1, cached, p, kinds[j]);
      ConvergedElsewhere(s1, s, t, t, p, kinds[j]);
    }
    forall j | i + 1 <= j < |kinds| ensures SameAt(s, t, ChildKey(p, kinds[j])) {
      assert kinds[j] == rest[j - 1];
    }
    ApplicableElsewhere(s, s1, cached, p, kinds[i + 1]);
  }

  /** A children pass with an error stopped at the first child that could not be applied. */
  lemma {:induction false} ApplyAllStopsAt(s: Store, cached: bool, p: Plant, kinds: seq<Kind>, sum: Summary) returns (i: nat)
    requires StoreOk(s) && UniqueKinds(kinds)
    requires ApplyAll(s, cached, p, kinds, sum).1.Err?
    ensures StoppedAt(s, ApplyAll(s, cached, p, kinds, sum).0, cached, p, kinds, i)
    decreases |kinds|
  {
    var (s1, r) := ApplyChild(s, cached, p, kinds[0]);
    if r.Err? {
      StopsAtFirst(s, cached, p, kinds, sum);
      i := 0;
    } else {
      FirstChildCame(s, cached, p, kinds, sum);
      RestIsUnique(kinds);
      i := ApplyAllStopsAt(s1, cached, p, kinds[1..], Note(sum, kinds[0], r.value));
      StoppedLater(s, s1, ApplyAll(s, cached, p, kinds, sum).0, cached, p, kinds, i);
      i := i + 1;
    }
  }

  lemma RestIsUnique(kinds: seq<Kind>)
    requires kinds != [] && UniqueKinds(kinds)
    ensures UniqueKinds(kinds[1..])
  {
  }

  lemma StopsAtFirst(s: Store, cached: bool, p: Plant, kinds: seq<Kind>, sum: Summary)
    requires kinds != [] && ApplyChild(s, cached, p, kinds[0]).1.Err?
    ensures StoppedAt(s, ApplyAll(s, cached, p, kinds, sum).0, cached, p, kinds, 0)
  {
    ApplyChildSucceedsIff(s, cached, p, kinds[0]);
    ApplyChildFrame(s, cached, p, kinds[0]);
  }

  lemma FirstChildCame(s: Store, cached: bool, p: Plant, kinds: seq<Kind>, sum: Summary)
    requires StoreOk(s) && UniqueKinds(kinds) && kinds != [] && ApplyChild(s, cached, p, kinds[0]).1.Ok?
    ensures Came(s, ApplyAll(s, cached, p, kinds, sum).0, cached, p, kinds[0])
    ensures var s1 := ApplyChild(s, cached, p, kinds[0]).0;
            StoreOk(s1) && forall j :: 1 <= j < |kinds| ==> SameAt(s, s1, ChildKey(p, kinds[j]))
  {
    ApplyChildFrame(s, cached, p, kinds[0]);
    ApplyChildSucceedsIff(s, cached, p, kinds[0]);
    ApplyChildConverges(s, cached, p, kinds[0]);
    FirstChildStays(s, cached, p, kinds, sum);
    ConvergedElsewhere(s, s, ApplyChild(s, cached, p, kinds[0]).0, ApplyAll(s, cached, p, kinds, sum).0, p, kinds[0]);
  }

  /** What reconcileChildren hands on to the status computation is the stored Deployment. */
  lemma ApplyAllReturnsDeployment(s: Store, cached: bool, p: Plant, kinds: seq<Kind>, sum: Summary)
    requires StoreOk(s) && UniqueKinds(kinds) && kinds != [] && kinds[0] == Deployment
    requires ApplyAll(s, cached, p, kinds, sum).1.Ok?
    ensures var (s', r) := ApplyAll(s, cached, p, kinds, sum);
            ChildKey(p, Deployment) in s'.children
            && r.value.deployment == Some(s'.children[ChildKey(p, Deployment)])
  {
    FirstChildConverges(s, cached, p, kinds, sum);
    var (s1, r) := ApplyChild(s, cached, p, Deployment);
    assert forall i :: 0 <= i < |kinds[1..]| ==> kinds[1..][i] == kinds[i + 1];
    ApplyAllKeepsDeployment(s1, cached, p, kinds[1..], Note(sum, Deployment, r.value));
  }
}
