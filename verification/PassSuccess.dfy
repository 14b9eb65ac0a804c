/** When a reconcile pass succeeds, and the Plant name that never lets it: the name guard
    (plant_controller.go) is about label values only, but a child Service asks for more. */
module PassSuccess {
  import opened Wrappers
  import opened Objects
  import opened ApiServer
  import opened Resources
  import opened Mutation
  import opened Children
  import opened MonitorProbe
  import opened Status
  import opened StatusWrites
  import opened ReconcilePass
  import opened Generations

  // ----- the exact condition

  /** Every child this pass has to see to can be applied. */
  predicate AllApplicable(w: World, cached: bool, p: Plant, c: Call) {
    forall k: Kind :: Due(w, c, k) ==> Applicable(w.store, cached, p, k)
  }

  lemma ChildrenStageSucceedsIff(w: World, cached: bool, p: Plant, c: Call)
    ensures ReconcileChildren(w, cached, p, c).1.Ok? <==> AllApplicable(w, cached, p, c)
  {
    var (s1, r) := ApplyAll(w.store, cached, p, SIX, NOTHING);
    SixAreUnique();
    ApplyAllSucceedsIff(w.store, cached, p, SIX, NOTHING);
    SixByIndex(w.store, cached, p);
    SixSpareTheMonitor(w.store, cached, p);
    ApplicableElsewhere(w.store, s1, cached, p, ServiceMonitor);
    ApplyChildSucceedsIff(s1, cached, p, ServiceMonitor);
    assert Due(w, c, ServiceMonitor) <==> Available(w.until, c);
  }

  lemma SixByIndex(s: Store, cached: bool, p: Plant)
    ensures (forall i :: 0 <= i < |SIX| ==> Applicable(s, cached, p, SIX[i]))
       <==> (forall k: Kind :: k != ServiceMonitor ==> Applicable(s, cached, p, k))
  {
    if forall i :: 0 <= i < |SIX| ==> Applicable(s, cached, p, SIX[i]) {
      forall k: Kind | k != ServiceMonitor ensures Applicable(s, cached, p, k) {
        SixAreAllButTheMonitor(k);
        var i :| 0 <= i < |SIX| && SIX[i] == k;
      }
    }
    forall i | 0 <= i < |SIX| ensures SIX[i] != ServiceMonitor {
      SixAreAllButTheMonitor(SIX[i]);
    }
  }

  /** Where the children table lists a kind; the ServiceMonitor comes after it. */
  function Position(kind: Kind): nat {
    match kind
    case Deployment => 0
    case Service => 1
    case ConfigMap => 2
    case PodDisruptionBudget => 3
    case ServiceAccount => 4
    case NetworkPolicy => 5
    case ServiceMonitor => 6
  }

  /** A children stage that fails got as far as the first kind, in the order of the table,
      whose child cannot be applied: those before it converged, it and the rest are as they
      were. */
  lemma FailedStageIsPrefix(w: World, cached: bool, p: Plant, c: Call) returns (at: Kind)
    requires StoreOk(w.store) && ReconcileChildren(w, cached, p, c).1.Err?
    ensures Due(w, c, at) && StopsBefore(w.store, ReconcileChildren(w, cached, p, c).0.store, cached, p, at)
  {
    var (s1, r) := ApplyAll(w.store, cached, p, SIX, NOTHING);
    if r.Err? {
      SixAreUnique();
      SixSpareTheMonitor(w.store, cached, p);
      var i := ApplyAllStopsAt(w.store, cached, p, SIX, NOTHING);
      at := SIX[i];
      InOrderOfTheTable(w.store, s1, cached, p, i);
      StageFails(w, cached, p, c, s1, r.error);
    } else {
      at := ServiceMonitor;
      MonitorStops(w, cached, p, c);
    }
  }

  ghost predicate StopsBefore(s: Store, t: Store, cached: bool, p: Plant, at: Kind) {
    && !Applicable(s, cached, p, at)
    && forall k: Kind ::
         if Position(k) < Position(at) then Came(s, t, cached, p, k) else SameAt(s, t, ChildKey(p, k))
  }

  lemma InOrderOfTheTable(s: Store, t: Store, cached: bool, p: Plant, i: nat)
    requires StoppedAt(s, t, cached, p, SIX, i) && SameAt(s, t, ChildKey(p, ServiceMonitor))
    ensures SIX[i] != ServiceMonitor && StopsBefore(s, t, cached, p, SIX[i])
  {
    forall k: Kind ensures if Position(k) < i then Came(s, t, cached, p, k) else SameAt(s, t, ChildKey(p, k)) {
      TableInOrder(k);
    }
    PositionInTable(i);
  }

  lemma TableInOrder(kind: Kind)
    ensures kind != ServiceMonitor ==> Position(kind) < |SIX| && SIX[Position(kind)] == kind
  {
  }

  lemma PositionInTable(i: nat)
    requires i < |SIX|
    ensures SIX[i] != ServiceMonitor && Position(SIX[i]) == i
  {
  }

  lemma MonitorStops(w: World, cached: bool, p: Plant, c: Call)
    requires StoreOk(w.store)
    requires ApplyAll(w.store, cached, p, SIX, NOTHING).1.Ok? && ReconcileChildren(w, cached, p, c).1.Err?
    ensures Due(w, c, ServiceMonitor)
    ensures StopsBefore(w.store, ReconcileChildren(w, cached, p, c).0.store, cached, p, ServiceMonitor)
  {
    var (s1, r) := ApplyAll(w.store, cached, p, SIX, NOTHING);
    SixCame(w.store, cached, p);
    SixSpareTheMonitor(w.store, cached, p);
    MonitorRefused(w, cached, p, c, s1, r.value);
    OnlyMonitorMissing(w.store, s1, ReconcileChildren(w, cached, p, c).0.store, cached, p);
  }

  lemma SixCame(s: Store, cached: bool, p: Plant)
    requires StoreOk(s) && ApplyAll(s, cached, p, SIX, NOTHING).1.Ok?
    ensures forall k: Kind :: k != ServiceMonitor ==> Came(s, ApplyAll(s, cached, p, SIX, NOTHING).0, cached, p, k)
  {
    SixAreUnique();
    ApplyAllSucceedsIff(s, cached, p, SIX, NOTHING);
    SixByIndex(s, cached, p);
    forall k: Kind | k != ServiceMonitor ensures Came(s, ApplyAll(s, cached, p, SIX, NOTHING).0, cached, p, k) {
      SixAreAllButTheMonitor(k);
      SixConverge(s, cached, p, k);
    }
  }

  lemma OnlyMonitorMissing(s: Store, s1: Store, t: Store, cached: bool, p: Plant)
    requires forall k: Kind :: k != ServiceMonitor ==> Came(s, s1, cached, p, k)
    requires SameAt(s, s1, ChildKey(p, ServiceMonitor)) && !Applicable(s1, cached, p, ServiceMonitor)
    requires t.children == s1.children
    ensures StopsBefore(s, t, cached, p, ServiceMonitor)
  {
    ApplicableElsewhere(s, s1, cached, p, ServiceMonitor);
    forall k: Kind | k != ServiceMonitor ensures Came(s, t, cached, p, k) {
      assert Came(s, s1, cached, p, k);
      ConvergedElsewhere(s, s, s1, t, p, k);
    }
  }

  lemma MonitorRefused(w: World, cached: bool, p: Plant, c: Call, s1: Store, sum: Summary)
    requires ApplyAll(w.store, cached, p, SIX, NOTHING) == (s1, Ok(sum)) && ReconcileChildren(w, cached, p, c).1.Err?
    ensures Due(w, c, ServiceMonitor) && !Applicable(s1, cached, p, ServiceMonitor)
    ensures ReconcileChildren(w, cached, p, c).0.store.children == s1.children
  {
    if Available(w.until, c) {
      StageAppliesMonitor(w, cached, p, c, s1, sum);
    } else {
      StageSkipsMonitor(w, cached, p, c, s1, sum);
    }
    ApplyChildFrame(s1, cached, p, ServiceMonitor);
    ApplyChildSucceedsIff(s1, cached, p, ServiceMonitor);
  }

  /** What the pass will see of the Deployment it applied. */
  function SeenDeployment(w: World, cached: bool, p: Plant, c: Call): Observed {
    match ReconcileChildren(w, cached, p, c).1
    case Ok(sum) => ObservedOf(sum.deployment)
    case Err(_) => Observed(0, 0, 0)
  }

  /** No status needs writing, or the users of the script let one of the attempts through. */
  predicate StatusSettled(w: World, cached: bool, p: Plant, c: Call) {
    || StatusDecision(p, SeenDeployment(w, cached, p, c), c.now).Skip?
    || AtWrite(LifeOf(p), w.script, RETRY_STEPS).Some?
  }

  /** Whatever users do meanwhile, a pass succeeds exactly on a live Plant with a name short
      enough, when every child can be applied to what is stored beforehand and the status,
      if it needs writing, gets through. */
  lemma PassSucceedsIff(w: World, cached: bool, id: PlantId, c: Call)
    requires StoreOk(w.store)
    ensures Reconcile(w, cached, id, c).1 == Requeue
       <==> && id in w.store.plants && !w.store.plants[id].deleting
            && |w.store.plants[id].id.name| <= MAX_PLANT_NAME_LENGTH
            && AllApplicable(w, cached, w.store.plants[id], c)
            && StatusSettled(w, cached, w.store.plants[id], c)
  {
    PassCases(w, cached, id, c);
    if id in w.store.plants && !w.store.plants[id].deleting {
      var p := w.store.plants[id];
      RejectionNeverRequeues(w, p, c.now);
      LivePassSucceedsIff(w, cached, p, c);
    }
  }

  lemma LivePassSucceedsIff(w: World, cached: bool, p: Plant, c: Call)
    requires StoreOk(w.store) && p.id in w.store.plants && w.store.plants[p.id] == p
    ensures ReconcileLive(w, cached, p, c).1 == Requeue
       <==> AllApplicable(w, cached, p, c) && StatusSettled(w, cached, p, c)
  {
    var (v, r) := ReconcileChildren(w, cached, p, c);
    ChildrenStageSucceedsIff(w, cached, p, c);
    ChildrenStageFrame(w, cached, p, c);
    if r.Err? {
      FailNeverFinishes(v, p, r.error, c.now);
    } else {
      FinishSucceedsIff(v, p, r.value, c.now);
    }
  }

  lemma FinishSucceedsIff(v: World, p: Plant, sum: Summary, now: int)
    requires PlantsOk(v.store) && p.id in v.store.plants && v.store.plants[p.id] == p
    ensures Finish(v, p, sum, now).1 == Requeue
       <==> || StatusDecision(p, ObservedOf(sum.deployment), now).Skip?
            || AtWrite(LifeOf(p), v.script, RETRY_STEPS).Some?
  {
    match StatusDecision(p, ObservedOf(sum.deployment), now)
    case Skip =>
    case Write(status, _) => WriteFollowsLife(v.store, v.script, p, status, RETRY_STEPS, LifeOf(p), p.generation);
  }

  /** Users who do nothing let it through. */
  lemma PassSucceedsAloneIff(w: World, cached: bool, id: PlantId, c: Call)
    requires StoreOk(w.store) && w.script == []
    ensures Reconcile(w, cached, id, c).1 == Requeue
       <==> && id in w.store.plants && !w.store.plants[id].deleting
            && |w.store.plants[id].id.name| <= MAX_PLANT_NAME_LENGTH
            && AllApplicable(w, cached, w.store.plants[id], c)
  {
    PassSucceedsIff(w, cached, id, c);
    if id in w.store.plants {
      assert Idle(EditsAt(w.script, 0));
      assert AtWrite(LifeOf(w.store.plants[id]), w.script, RETRY_STEPS).Some?;
    }
  }

  // ----- the name guard

  /** The server would accept this child if it is not there yet. */
  predicate Acceptable(p: Plant, kind: Kind) {
    && ValidName(ChildKey(p, kind))
    && Mutated(p, EmptyObj(kind)).Ok? && Valid(Mutated(p, EmptyObj(kind)).value)
  }

  /** New children of all kinds are acceptable exactly when the name is short enough for a
      label value and a DNS label: the guard asks only for the first. */
  lemma NewChildrenAcceptableIff(p: Plant)
    ensures (forall k: Kind :: Acceptable(p, k)) <==> |p.id.name| <= 63 && IsDns1035Label(p.id.name)
    ensures |p.id.name| > 63 ==> forall k: Kind :: !Acceptable(p, k)
  {
    forall k: Kind
      ensures Acceptable(p, k) <==> |p.id.name| <= 63 && (k.Service? ==> IsDns1035Label(p.id.name))
    {
      NewContentIsValid(p, k);
    }
    assert Acceptable(p, Service) ==> IsDns1035Label(p.id.name);
  }

  /** So the guard decides rightly exactly for names that are too long or DNS labels. */
  lemma NameGuardIsExactIff(p: Plant)
    ensures (|p.id.name| <= MAX_PLANT_NAME_LENGTH <==> forall k: Kind :: Acceptable(p, k))
       <==> |p.id.name| > 63 || IsDns1035Label(p.id.name)
  {
    NewChildrenAcceptableIff(p);
    assert |p.id.name| > 63 ==> !Acceptable(p, Deployment);
  }

  const DOTTED_NAME := "my.fern"

  /** A name that a Plant may have, and that the guard lets through. */
  lemma GuardPassesAnUnusableName(p: Plant)
    requires p.id.name == DOTTED_NAME
    ensures |p.id.name| <= MAX_PLANT_NAME_LENGTH && !Acceptable(p, Service)
    ensures forall k: Kind :: k != Service ==> Acceptable(p, k)
  {
    assert DOTTED_NAME[2] == '.';
    forall k: Kind | k != Service ensures Acceptable(p, k) {
      NewContentIsValid(p, k);
    }
  }

  // ----- what passes over such a Plant do

  /** No pass ever succeeds, whatever is stored and whatever users do meanwhile. */
  lemma UnusableNameNeverSucceeds(w: World, cached: bool, id: PlantId, c: Call)
    requires StoreOk(w.store)
    requires id in w.store.plants ==> !IsDns1035Label(w.store.plants[id].id.name)
    ensures Reconcile(w, cached, id, c).1 != Requeue
  {
    RequeueIsLive(w, cached, id, c);
    if id in w.store.plants {
      var p := w.store.plants[id];
      NoServiceUnderAnUnusableName(w.store, cached, p);
      ChildrenStageSucceedsIff(w, cached, p, c);
      assert Due(w, c, Service);
      LiveNeedsItsChildren(w, cached, p, c);
    }
  }

  lemma NoServiceUnderAnUnusableName(s: Store, cached: bool, p: Plant)
    requires StoreOk(s) && !IsDns1035Label(p.id.name)
    ensures ChildKey(p, Service) !in s.children
    ensures !Applicable(s, cached, p, Service)
  {
  }

  // ----- a child the server refuses

  /** The request that would bring this child to its desired state. */
  function Correction(s: Store, p: Plant, kind: Kind): WriteCall {
    if ChildKey(p, kind) in s.children then UpdateCall(ChildKey(p, kind)) else CreateCall(ChildKey(p, kind))
  }

  /** The operator may write this child, wants to, and the server will not have it. */
  predicate Refusable(s: Store, cached: bool, p: Plant, kind: Kind) {
    var key := ChildKey(p, kind);
    if key !in s.children then !ValidName(key) || |p.id.name| > LABEL_VALUE_MAX_LENGTH
    else
      var o := s.children[key];
      && Visible(cached, key, o) && Owned(p, o) && CanControl(p, o.meta.owners)
      && Mutated(p, o) != Ok(o)
      && !(Valid(Mutated(p, o).value) && KeepsImmutable(o.body, Mutated(p, o).value.body))
  }

  function WithCall(s: Store, call: WriteCall): Store {
    s.(calls := s.calls + [call])
  }

  lemma RefusedApply(s: Store, cached: bool, p: Plant, kind: Kind)
    requires Refusable(s, cached, p, kind)
    ensures ApplyChild(s, cached, p, kind) == (WithCall(s, Correction(s, p, kind)), Err(Api(Invalid)))
  {
    if ChildKey(p, kind) in s.children {
      var o := s.children[ChildKey(p, kind)];
      assert Mutated(p, o).value.meta.resourceVersion == o.meta.resourceVersion;
    } else {
      NewContentIsValid(p, kind);
    }
  }

  lemma RefusableElsewhere(s: Store, t: Store, cached: bool, p: Plant, kind: Kind)
    requires SameAt(s, t, ChildKey(p, kind))
    ensures Refusable(s, cached, p, kind) == Refusable(t, cached, p, kind)
    ensures Correction(s, p, kind) == Correction(t, p, kind)
  {
  }

  /** A Service that cannot have the Plant's name. */
  lemma UnusableNameIsRefused(s: Store, cached: bool, p: Plant)
    requires StoreOk(s) && !IsDns1035Label(p.id.name)
    ensures Refusable(s, cached, p, Service)
  {
    NoServiceUnderAnUnusableName(s, cached, p);
  }

  /** A ConfigMap that someone made immutable with other data than the Plant's. */
  lemma LockedConfigMapIsRefused(s: Store, cached: bool, p: Plant)
    requires var key := ChildKey(p, ConfigMap);
             && key in s.children && s.children[key].body.ConfigMapBody?
             && Locked(s.children[key].body.unowned) && s.children[key].body.data != ConfigMapDataFor(p)
             && Visible(cached, key, s.children[key]) && Owned(p, s.children[key])
             && CanControl(p, s.children[key].meta.owners)
    ensures Refusable(s, cached, p, ConfigMap)
  {
  }

  /** A PodDisruptionBudget that someone turned from minAvailable to maxUnavailable. */
  lemma TurnedBudgetIsRefused(s: Store, cached: bool, p: Plant)
    requires var key := ChildKey(p, PodDisruptionBudget);
             && key in s.children && s.children[key].body.PdbBody?
             && s.children[key].body.minAvailable.None? && MAX_UNAVAILABLE in s.children[key].body.unowned
             && Visible(cached, key, s.children[key]) && Owned(p, s.children[key])
             && CanControl(p, s.children[key].meta.owners)
    ensures Refusable(s, cached, p, PodDisruptionBudget)
  {
  }

  // ----- what passes over such a Plant do

  /** The children before the i-th are at rest and the i-th is refused. */
  ghost predicate StuckAt(s: Store, cached: bool, p: Plant, i: nat) {
    && i < |SIX| && Refusable(s, cached, p, SIX[i])
    && forall j :: 0 <= j < i ==> AtRest(s, p, SIX[j])
  }

  lemma StuckElsewhere(s: Store, t: Store, cached: bool, p: Plant, i: nat)
    requires StuckAt(s, cached, p, i) && SameChildren(s, t)
    ensures StuckAt(t, cached, p, i) && Correction(t, p, SIX[i]) == Correction(s, p, SIX[i])
  {
    RefusableElsewhere(s, t, cached, p, SIX[i]);
    forall j | 0 <= j < i ensures AtRest(t, p, SIX[j]) {
      AtRestElsewhere(s, t, p, p, SIX[j]);
    }
  }

  /** A pass over children ends at the first that is refused. */
  lemma EndsAtRefusal(s: Store, cached: bool, p: Plant, kinds: seq<Kind>, sum: Summary, i: nat, t: Store)
    requires i < |kinds|
    requires ApplyAll(s, cached, p, kinds[..i], sum).0 == t && ApplyAll(s, cached, p, kinds[..i], sum).1.Ok?
    requires Refusable(t, cached, p, kinds[i])
    ensures ApplyAll(s, cached, p, kinds, sum) == (WithCall(t, Correction(t, p, kinds[i])), Err(Api(Invalid)))
  {
    assert kinds == kinds[..i] + kinds[i..];
    ApplyAllSplit(s, cached, p, kinds[..i], kinds[i..], sum);
    RefusedApply(t, cached, p, kinds[i]);
  }

  lemma StuckLivePass(w: World, cached: bool, p: Plant, c: Call, i: nat)
    requires StuckAt(w.store, cached, p, i)
    ensures ReconcileLive(w, cached, p, c)
         == (w.(store := WithCall(w.store, Correction(w.store, p, SIX[i]))), Failed(ChildFailed(Api(Invalid))))
  {
    ApplyAllAtRest(w.store, cached, p, SIX[..i], NOTHING);
    EndsAtRefusal(w.store, cached, p, SIX, NOTHING, i, w.store);
    FailedStage(w, cached, p, c, WithCall(w.store, Correction(w.store, p, SIX[i])));
  }

  lemma FailedStage(w: World, cached: bool, p: Plant, c: Call, s: Store)
    requires ReconcileChildren(w, cached, p, c) == (w.(store := s), Err(Api(Invalid)))
    ensures ReconcileLive(w, cached, p, c) == (w.(store := s), Failed(ChildFailed(Api(Invalid))))
  {
  }

  function Repeat(call: WriteCall, n: nat): seq<WriteCall> {
    seq(n, _ => call)
  }

  /** Every pass from then on makes one refused request and leaves everything else alone:
      no status, no event, nothing that says why. */
  lemma {:induction false} RefusedForever(w: World, cached: bool, id: PlantId, calls: seq<Call>, i: nat)
    requires PlantsOk(w.store) && id in w.store.plants && !w.store.plants[id].deleting
    requires |id.name| <= MAX_PLANT_NAME_LENGTH && StuckAt(w.store, cached, w.store.plants[id], i)
    ensures var call := Correction(w.store, w.store.plants[id], SIX[i]);
            Passes(w, cached, id, calls) == w.(store := w.store.(calls := w.store.calls + Repeat(call, |calls|)))
  {
    var p, n := w.store.plants[id], |calls|;
    if calls == [] {
      assert w.store.calls + Repeat(Correction(w.store, p, SIX[i]), 0) == w.store.calls;
    } else {
      RefusedForever(w, cached, id, calls[..n - 1], i);
      RefusedOnceMore(w, Passes(w, cached, id, calls[..n - 1]), cached, id, calls[n - 1], i, n - 1);
    }
  }

  lemma RefusedOnceMore(w: World, w1: World, cached: bool, id: PlantId, c: Call, i: nat, n: nat)
    requires PlantsOk(w.store) && id in w.store.plants && !w.store.plants[id].deleting
    requires |id.name| <= MAX_PLANT_NAME_LENGTH && StuckAt(w.store, cached, w.store.plants[id], i)
    requires var call := Correction(w.store, w.store.plants[id], SIX[i]);
             w1 == w.(store := w.store.(calls := w.store.calls + Repeat(call, n)))
    ensures var call := Correction(w.store, w.store.plants[id], SIX[i]);
            Reconcile(w1, cached, id, c).0 == w.(store := w.store.(calls := w.store.calls + Repeat(call, n + 1)))
  {
    var p := w.store.plants[id];
    StuckElsewhere(w.store, w1.store, cached, p, i);
    PassCases(w1, cached, id, c);
    StuckLivePass(w1, cached, p, c, i);
    OneMoreCall(w.store.calls, Correction(w.store, p, SIX[i]), n);
  }

  lemma OneMoreCall(calls: seq<WriteCall>, call: WriteCall, n: nat)
    ensures calls + Repeat(call, n) + [call] == calls + Repeat(call, n + 1)
  {
  }

  /** The first pass that can apply the children before the refused one brings them to
      rest, fails there, and touches neither the Plant nor its events. */
  lemma FirstRefusedPass(w: World, cached: bool, p: Plant, c: Call, i: nat)
    requires StoreOk(w.store) && i < |SIX| && Refusable(w.store, cached, p, SIX[i])
    requires forall j :: 0 <= j < i ==> Applicable(w.store, cached, p, SIX[j])
    ensures var (w', o) := ReconcileLive(w, cached, p, c);
            && o == Failed(ChildFailed(Api(Invalid)))
            && StoreOk(w'.store) && StuckAt(w'.store, cached, p, i)
            && w' == w.(store := w'.store) && w'.store.plants == w.store.plants
  {
    var t := ApplyAll(w.store, cached, p, SIX[..i], NOTHING).0;
    PrefixComesToRest(w.store, cached, p, i);
    var u := WithCall(t, Correction(t, p, SIX[i]));
    EndsAtRefusal(w.store, cached, p, SIX, NOTHING, i, t);
    FailedStage(w, cached, p, c, u);
    ApplyAllKeepsStoreOk(w.store, cached, p, SIX, NOTHING);
    StuckElsewhere(t, u, cached, p, i);
  }

  /** The children before the refused one come to rest, and do not touch it. */
  lemma PrefixComesToRest(s: Store, cached: bool, p: Plant, i: nat)
    requires StoreOk(s) && i < |SIX| && Refusable(s, cached, p, SIX[i])
    requires forall j :: 0 <= j < i ==> Applicable(s, cached, p, SIX[j])
    ensures ApplyAll(s, cached, p, SIX[..i], NOTHING).1.Ok?
    ensures StuckAt(ApplyAll(s, cached, p, SIX[..i], NOTHING).0, cached, p, i)
  {
    var t := ApplyAll(s, cached, p, SIX[..i], NOTHING).0;
    SixAreUnique();
    ApplyAllSucceedsIff(s, cached, p, SIX[..i], NOTHING);
    forall j | 0 <= j < i ensures AtRest(t, p, SIX[j]) {
      ApplyAllConverges(s, cached, p, SIX[..i], NOTHING, j);
    }
    ApplyAllFrame(s, cached, p, SIX[..i], NOTHING, ChildKey(p, SIX[i]));
    RefusableElsewhere(s, t, cached, p, SIX[i]);
  }
}
