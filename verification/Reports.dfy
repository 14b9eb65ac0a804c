/** What a reconcile pass tells the world (plant_controller.go, status.go): the status it
    leaves stored and the events it emits, in terms of the objects stored. */
module Reports {
  import opened Wrappers
  import opened Objects
  import opened ApiServer
  import opened Resources
  import opened Children
  import opened MonitorProbe
  import opened Status
  import opened StatusWrites
  import opened ReconcilePass
  import opened Silence
  import Mood

  // ----- what a status says

  predicate FirstAt(cs: seq<Condition>, c: Condition, i: nat) {
    i < |cs| && cs[i] == c && forall j :: 0 <= j < i ==> cs[j].kind != c.kind
  }

  /** The first condition of its type, and so the one a reader finds. */
  ghost predicate FirstIs(cs: seq<Condition>, c: Condition) {
    exists i: nat :: FirstAt(cs, c, i)
  }

  /** The status shows this condition, whenever it got that way. */
  ghost predicate Shows(cs: seq<Condition>, kind: string, status: ConditionStatus, reason: Reason, message: Message,
                        generation: int) {
    exists t :: FirstIs(cs, Condition(kind, status, reason, message, generation, t))
  }

  lemma {:induction false} LookupIsFirst(cs: seq<Condition>, c: Condition)
    ensures FirstIs(cs, c) <==> Lookup(cs, c.kind) == Some(c)
  {
    if cs != [] && cs[0].kind != c.kind {
      LookupIsFirst(cs[1..], c);
      if i: nat :| FirstAt(cs, c, i) {
        assert FirstAt(cs[1..], c, i - 1);
      }
      if i: nat :| FirstAt(cs[1..], c, i) {
        assert FirstAt(cs, c, i + 1);
      }
    } else if cs != [] {
      assert FirstAt(cs, cs[0], 0);
    }
  }

  /** The mood of two counts. */
  function MoodOf(ready: int, desired: int): string {
    if desired <= 0 then (if ready > 0 then "leafy" else "not-too-hot")
    else if ready == 0 then "wilting"
    else if 10 * ready >= 9 * desired then "leafy"
    else if 5 * ready >= 3 * desired then "sprouting"
    else if 5 * ready >= desired then "thirsty"
    else "lost-a-leaf"
  }

  lemma MoodForIsMoodOf(ready: int, desired: int)
    requires ready >= 0
    ensures Mood.Name(Mood.MoodFor(ready, desired)) == MoodOf(ready, desired)
  {
    if ready >= 1 && desired >= 1 {
      Mood.MoodIsReadinessLadder(ready, desired);
    }
  }

  /** The counts, the generation, the mood and the percentage of a status. */
  ghost predicate Counts(s: PlantStatus, ready: int, desired: int, generation: int) {
    && s.readyReplicas == ready && s.desiredReplicas == desired && s.observedGeneration == generation
    && (ready >= 0 ==> s.mood == MoodOf(ready, desired))
    && (ready >= 0 && desired >= 0 ==> Mood.IsPercentOf(s.healthPercent, ready, desired))
  }

  /** The three conditions of a status. */
  ghost predicate Judges(cs: seq<Condition>, ready: int, desired: int, rolledOut: bool, generation: int) {
    && (if ready == desired && desired > 0
        then Shows(cs, "Ready", True, AllReplicasReady, AllDesiredReplicasReady, generation)
        else Shows(cs, "Ready", False, ReplicasNotReady, FewerReplicasReady, generation))
    && (if rolledOut && ready == desired
        then Shows(cs, "Progressing", False, RolloutComplete, FullyRolledOut, generation)
        else Shows(cs, "Progressing", True, RolloutInProgress, RolloutNotConverged, generation))
    && (if ready == 0 && desired > 0
        then Shows(cs, "Degraded", True, InsufficientReplicas, NoReplicasReady, generation)
        else Shows(cs, "Degraded", False, PlantHealthy, SomeReplicaReadyOrNoneDesired, generation))
  }

  /** The status is that of this Deployment under this Plant. */
  ghost predicate TrueOf(s: PlantStatus, p: Plant, deployment: Obj)
    requires deployment.body.DeploymentBody?
  {
    var ready := deployment.body.status.readyReplicas;
    var desired := if p.spec.replicas.Some? then p.spec.replicas.value else 3;
    && Counts(s, ready, desired, p.generation)
    && Judges(s.conditions, ready, desired,
              deployment.body.status.observedGeneration >= deployment.meta.generation, p.generation)
  }

  // ----- what a pass decides is true

  lemma SetIsShown(cs: seq<Condition>, c: Condition, ds: seq<Condition>)
    requires Lookup(ds, c.kind) == Lookup(SetCondition(cs, c), c.kind)
    ensures Shows(ds, c.kind, c.status, c.reason, c.message, c.observedGeneration)
  {
    SetConditionLookup(cs, c, c.kind);
    LookupIsFirst(ds, Lookup(ds, c.kind).value);
    assert FirstIs(ds, c.(lastTransition := Lookup(ds, c.kind).value.lastTransition));
  }

  lemma ComputedJudges(p: Plant, d: Observed, now: int)
    ensures Judges(ComputeStatus(p, d, now).conditions, d.readyReplicas, ReplicasFor(p),
                   d.observedGeneration >= d.generation, p.generation)
  {
    var ready, desired, cs := d.readyReplicas, ReplicasFor(p), ComputeStatus(p, d, now).conditions;
    ComputedConditions(p, d, now, READY);
    ComputedConditions(p, d, now, PROGRESSING);
    ComputedConditions(p, d, now, DEGRADED);
    SetIsShown(p.status.conditions, ReadyCondition(ready, desired, p.generation, now), cs);
    SetIsShown(p.status.conditions, ProgressingCondition(ready, desired, d, p.generation, now), cs);
    SetIsShown(p.status.conditions, DegradedCondition(ready, desired, p.generation, now), cs);
  }

  lemma ComputedCounts(p: Plant, d: Observed, now: int)
    ensures Counts(ComputeStatus(p, d, now), d.readyReplicas, ReplicasFor(p), p.generation)
  {
    var ready, desired := d.readyReplicas, ReplicasFor(p);
    if ready >= 0 {
      MoodForIsMoodOf(ready, desired);
      if desired >= 0 {
        Mood.HealthPercentIsPercent(ready, desired);
      }
    }
  }

  /** The time of the last watering is the clock of the pass that last had something new
      to say. */
  predicate WateredIfNews(before: PlantStatus, after: PlantStatus, now: int) {
    after.lastWatered == if after.(lastWatered := None) == before.(lastWatered := None) then before.lastWatered else Some(now)
  }

  /** Whether it is written or skipped, what is then stored is what was computed. */
  lemma NothingIsLost(p: Plant, d: Observed, now: int)
    ensures var s, computed := Stored(p.status, StatusDecision(p, d, now)), ComputeStatus(p, d, now);
            s.(lastWatered := None) == computed.(lastWatered := None) && WateredIfNews(p.status, s, now)
  {
  }

  lemma JudgedIsTrue(p: Plant, deployment: Obj, now: int)
    requires deployment.body.DeploymentBody?
    ensures var s := Stored(p.status, StatusDecision(p, ObservedOf(Some(deployment)), now));
            TrueOf(s, p, deployment) && WateredIfNews(p.status, s, now)
  {
    var d := ObservedOf(Some(deployment));
    var s, computed := Stored(p.status, StatusDecision(p, d, now)), ComputeStatus(p, d, now);
    NothingIsLost(p, d, now);
    ComputedJudges(p, d, now);
    ComputedCounts(p, d, now);
    assert s == computed.(lastWatered := s.lastWatered);
  }

  // ----- what a pass stores is true

  lemma FinishStores(w: World, p: Plant, sum: Summary, now: int)
    requires PlantsOk(w.store) && p.id in w.store.plants && w.store.plants[p.id] == p
    requires Finish(w, p, sum, now).1 == Requeue
    ensures var t := Finish(w, p, sum, now).0.store;
            && t.children == w.store.children && p.id in t.plants
            && t.plants[p.id].status == Stored(p.status, StatusDecision(p, ObservedOf(sum.deployment), now))
  {
    FinishKeepsChildren(w, p, sum, now);
    match StatusDecision(p, ObservedOf(sum.deployment), now)
    case Skip =>
    case Write(status, _) => DecidedStatusIsStored(w.store, w.script, p, status, RETRY_STEPS);
  }

  /** The stored status is that of the stored Deployment under this Plant. */
  ghost predicate TruthIsStored(t: Store, p: Plant, now: int) {
    var key := Key(Deployment, p.id.ns, p.id.name);
    && p.id in t.plants && key in t.children && t.children[key].body.DeploymentBody?
    && TrueOf(t.plants[p.id].status, p, t.children[key]) && WateredIfNews(p.status, t.plants[p.id].status, now)
  }

  lemma FinishStoresTruth(v: World, p: Plant, sum: Summary, now: int)
    requires StoreOk(v.store) && p.id in v.store.plants && v.store.plants[p.id] == p
    requires ChildKey(p, Deployment) in v.store.children
    requires sum.deployment == Some(v.store.children[ChildKey(p, Deployment)])
    requires Finish(v, p, sum, now).1 == Requeue
    ensures TruthIsStored(Finish(v, p, sum, now).0.store, p, now)
  {
    FinishStores(v, p, sum, now);
    JudgedIsTrue(p, sum.deployment.value, now);
  }

  lemma LiveStoresTruth(w: World, cached: bool, p: Plant, c: Call)
    requires StoreOk(w.store) && p.id in w.store.plants && w.store.plants[p.id] == p
    requires ReconcileLive(w, cached, p, c).1 == Requeue
    ensures TruthIsStored(ReconcileLive(w, cached, p, c).0.store, p, c.now)
  {
    var (v, r) := ReconcileChildren(w, cached, p, c);
    LiveNeedsItsChildren(w, cached, p, c);
    ChildrenStage(w, cached, p, c);
    FinishStoresTruth(v, p, r.value, c.now);
  }

  /** After every pass that judges the Plant and whose write, if it makes one, is accepted,
      whatever users did meanwhile, the stored status is that of the Deployment then stored
      under the Plant the pass read. */
  lemma StoredStatusIsTrue(w: World, cached: bool, id: PlantId, c: Call)
    requires StoreOk(w.store) && Reconcile(w, cached, id, c).1 == Requeue
    ensures id in w.store.plants
    ensures TruthIsStored(Reconcile(w, cached, id, c).0.store, w.store.plants[id], c.now)
  {
    RequeueIsLive(w, cached, id, c);
    LiveStoresTruth(w, cached, w.store.plants[id], c);
  }

  // ----- what a block stores

  /** From before to after only the Degraded condition may have changed, and it now shows
      this reason. */
  ghost predicate OnlyBlocked(before: PlantStatus, after: PlantStatus, reason: Reason, message: Message, generation: int) {
    && after.(conditions := []) == before.(conditions := [])
    && Shows(after.conditions, "Degraded", True, reason, message, generation)
    && forall c: Condition :: c.kind != "Degraded" ==> (FirstIs(after.conditions, c) <==> FirstIs(before.conditions, c))
  }

  lemma BlockIsStored(w: World, p: Plant, reason: Reason, message: Message, now: int)
    requires p.id in w.store.plants && w.store.plants[p.id] == p
    requires MarkDegraded(w, p, reason, message, now).1.None?
    ensures var t := MarkDegraded(w, p, reason, message, now).0.store;
            p.id in t.plants && t.plants[p.id].status == MarkedDegraded(p, reason, message, now)
  {
  }

  lemma MarkedIsOnlyBlocked(p: Plant, reason: Reason, message: Message, now: int)
    ensures OnlyBlocked(p.status, MarkedDegraded(p, reason, message, now), reason, message, p.generation)
  {
    var cs, block := p.status.conditions, BlockedCondition(p, reason, message, now);
    SetIsShown(cs, block, SetCondition(cs, block));
    forall c: Condition | c.kind != "Degraded" ensures FirstIs(SetCondition(cs, block), c) <==> FirstIs(cs, c) {
      SetConditionLookup(cs, block, c.kind);
      LookupIsFirst(cs, c);
      LookupIsFirst(SetCondition(cs, block), c);
    }
  }

  /** A pass that reports a conflict leaves the Plant marked with the child and whoever
      controls it; one that fails on a child for another reason says nothing. */
  lemma ChildFailureIsTold(w: World, cached: bool, id: PlantId, c: Call, e: ChildError)
    requires StoreOk(w.store) && Reconcile(w, cached, id, c).1 == Failed(ChildFailed(e))
    ensures id in w.store.plants
    ensures var w', p := Reconcile(w, cached, id, c).0, w.store.plants[id];
            if e.ConflictingResource? then
              && id in w'.store.plants
              && OnlyBlocked(p.status, w'.store.plants[id].status, NameConflict,
                             RefusingToAdopt(e.key.kind, e.key.ns, e.key.name,
                                             if e.controller.None? then None
                                             else Some((e.controller.value.kind, e.controller.value.name))),
                             p.generation)
            else w'.store.plants == w.store.plants && w'.events == w.events && w'.script == w.script
  {
    PassCases(w, cached, id, c);
    var p := w.store.plants[id];
    RejectionIsNoChildFailure(w, p, c.now);
    var (v, r) := ReconcileChildren(w, cached, p, c);
    ChildrenStageFrame(w, cached, p, c);
    FailedIsFail(w, cached, p, c, e);
    if e.ConflictingResource? {
      BlockIsStored(v, p, NameConflict, ConflictMessage(e.key, e.controller), c.now);
      MarkedIsOnlyBlocked(p, NameConflict, ConflictMessage(e.key, e.controller), c.now);
    }
  }

  lemma RejectionIsNoChildFailure(w: World, p: Plant, now: int)
    ensures RejectName(w, p, now).1.Failed? ==> RejectName(w, p, now).1.error.StatusFailed?
  {
  }

  lemma FailedIsFail(w: World, cached: bool, p: Plant, c: Call, e: ChildError)
    requires ReconcileLive(w, cached, p, c).1 == Failed(ChildFailed(e))
    ensures var (v, r) := ReconcileChildren(w, cached, p, c);
            && r == Err(e)
            && ReconcileLive(w, cached, p, c).0
               == (if e.ConflictingResource? then MarkDegraded(v, p, NameConflict, ConflictMessage(e.key, e.controller), c.now).0 else v)
            && (e.ConflictingResource? ==> MarkDegraded(v, p, NameConflict, ConflictMessage(e.key, e.controller), c.now).1.None?)
  {
    var (v, r) := ReconcileChildren(w, cached, p, c);
    if r.Ok? {
      FinishNeverBlamesAChild(v, p, r.value, c.now);
    }
  }

  lemma FinishNeverBlamesAChild(w: World, p: Plant, sum: Summary, now: int)
    ensures Finish(w, p, sum, now).1.Failed? ==> Finish(w, p, sum, now).1.error.StatusFailed?
  {
  }

  /** A live Plant whose name is too long for a label value, once a pass over it ends well,
      is marked with its length. */
  lemma LongNameIsTold(w: World, cached: bool, id: PlantId, c: Call)
    requires StoreOk(w.store) && id in w.store.plants && !w.store.plants[id].deleting && |id.name| > 63
    requires !Reconcile(w, cached, id, c).1.Failed?
    ensures var t, p := Reconcile(w, cached, id, c).0.store, w.store.plants[id];
            && t.children == w.store.children && id in t.plants
            && OnlyBlocked(p.status, t.plants[id].status, InvalidName, NameTooLong(|id.name|, 63), p.generation)
  {
    var p := w.store.plants[id];
    PassCases(w, cached, id, c);
    RejectionMarks(w, p, c.now);
    BlockIsStored(w, p, InvalidName, InvalidNameMessage(p), c.now);
    MarkedIsOnlyBlocked(p, InvalidName, InvalidNameMessage(p), c.now);
  }

  lemma RejectionMarks(w: World, p: Plant, now: int)
    requires !RejectName(w, p, now).1.Failed?
    ensures RejectName(w, p, now).0 == MarkDegraded(w, p, InvalidName, InvalidNameMessage(p), now).0
    ensures MarkDegraded(w, p, InvalidName, InvalidNameMessage(p), now).1.None?
    ensures RejectName(w, p, now).0.store.children == w.store.children
  {
    EditsKeepChildren(w.store, p.id, EditsAt(w.script, 0));
  }

  // ----- events

  ghost predicate SaysDegraded(s: PlantStatus) {
    exists c :: FirstIs(s.conditions, c) && c.kind == "Degraded" && c.status == True
  }

  /** What became of the children, told from the stores before and after. */
  ghost function ChildNews(s: Store, t: Store, p: Plant): seq<Event> {
    if exists k: Kind :: Appeared(s, t, p, k) then [PlantCreated]
    else if exists k: Kind :: Changed(s, t, p, k) then [PlantUpdated]
    else []
  }

  /** What became of the Plant's health, told from the statuses before and after. */
  ghost function HealthNews(before: PlantStatus, after: PlantStatus): seq<Event> {
    if SaysDegraded(after) && !SaysDegraded(before) then [PlantDegraded]
    else if SaysDegraded(before) && !SaysDegraded(after) then [PlantRecovered]
    else []
  }

  lemma SaysDegradedIff(s: PlantStatus)
    ensures SaysDegraded(s) <==> ConditionTrue(s.conditions, DEGRADED)
  {
    var l := Lookup(s.conditions, DEGRADED);
    if l.Some? {
      LookupIsFirst(s.conditions, l.value);
    }
    if c :| FirstIs(s.conditions, c) && c.kind == "Degraded" && c.status == True {
      LookupIsFirst(s.conditions, c);
    }
  }

  /** The summary says what happened to the children of all kinds. */
  ghost predicate Tells(s: Store, t: Store, p: Plant, sum: Summary) {
    && (sum.created <==> exists k: Kind :: Appeared(s, t, p, k))
    && (sum.updated <==> exists k: Kind :: Changed(s, t, p, k))
  }

  lemma StageTells(w: World, cached: bool, p: Plant, c: Call)
    requires StoreOk(w.store) && ReconcileChildren(w, cached, p, c).1.Ok?
    ensures Tells(w.store, ReconcileChildren(w, cached, p, c).0.store, p, ReconcileChildren(w, cached, p, c).1.value)
  {
    var (s1, r1) := ApplyAll(w.store, cached, p, SIX, NOTHING);
    SixTell(w.store, cached, p);
    if Available(w.until, c) {
      StageAppliesMonitor(w, cached, p, c, s1, r1.value);
      ApplyAllKeepsStoreOk(w.store, cached, p, SIX, NOTHING);
      MonitorTells(w.store, s1, cached, p, r1.value);
    } else {
      StageSkipsMonitor(w, cached, p, c, s1, r1.value);
    }
  }

  lemma SixTell(s: Store, cached: bool, p: Plant)
    requires StoreOk(s) && ApplyAll(s, cached, p, SIX, NOTHING).1.Ok?
    ensures var (s1, r) := ApplyAll(s, cached, p, SIX, NOTHING);
            Tells(s, s1, p, r.value) && SameAt(s, s1, ChildKey(p, ServiceMonitor))
  {
    SixAreUnique();
    SummaryIsReal(s, cached, p, SIX, NOTHING);
    SixSpareTheMonitor(s, cached, p);
    SixNews(s, ApplyAll(s, cached, p, SIX, NOTHING).0, p, ApplyAll(s, cached, p, SIX, NOTHING).1.value);
  }

  lemma SixNews(s: Store, s1: Store, p: Plant, sum: Summary)
    requires Sums(s, s1, p, SIX, NOTHING, sum) && SameAt(s, s1, ChildKey(p, ServiceMonitor))
    ensures Tells(s, s1, p, sum)
  {
    if k: Kind :| Appeared(s, s1, p, k) {
      SixAreAllButTheMonitor(k);
      var i :| 0 <= i < |SIX| && SIX[i] == k;
    }
    if k: Kind :| Changed(s, s1, p, k) {
      SixAreAllButTheMonitor(k);
      var i :| 0 <= i < |SIX| && SIX[i] == k;
    }
  }

  lemma MonitorTells(s: Store, s1: Store, cached: bool, p: Plant, sum: Summary)
    requires StoreOk(s1) && Tells(s, s1, p, sum) && SameAt(s, s1, ChildKey(p, ServiceMonitor))
    requires ApplyChild(s1, cached, p, ServiceMonitor).1.Ok?
    ensures var (t, m) := ApplyChild(s1, cached, p, ServiceMonitor); Tells(s, t, p, Note(sum, ServiceMonitor, m.value))
  {
    ReportIsReal(s1, cached, p, ServiceMonitor);
    ApplyChildFrame(s1, cached, p, ServiceMonitor);
    MonitorNews(s, s1, ApplyChild(s1, cached, p, ServiceMonitor).0, p);
  }

  lemma MonitorNews(s: Store, s1: Store, t: Store, p: Plant)
    requires SameAt(s, s1, ChildKey(p, ServiceMonitor))
    requires forall k :: k != ChildKey(p, ServiceMonitor) ==> SameAt(s1, t, k)
    ensures (exists k: Kind :: Appeared(s, t, p, k)) <==> (exists k: Kind :: Appeared(s, s1, p, k)) || Appeared(s1, t, p, ServiceMonitor)
    ensures (exists k: Kind :: Changed(s, t, p, k)) <==> (exists k: Kind :: Changed(s, s1, p, k)) || Changed(s1, t, p, ServiceMonitor)
  {
    forall k: Kind
      ensures Appeared(s, t, p, k) == if k == ServiceMonitor then Appeared(s1, t, p, k) else Appeared(s, s1, p, k)
      ensures Changed(s, t, p, k) == if k == ServiceMonitor then Changed(s1, t, p, k) else Changed(s, s1, p, k)
    {
      assert k != ServiceMonitor ==> SameAt(s1, t, ChildKey(p, k));
    }
    assert !Appeared(s, s1, p, ServiceMonitor) && !Changed(s, s1, p, ServiceMonitor);
    assert Appeared(s, t, p, ServiceMonitor) == Appeared(s1, t, p, ServiceMonitor);
    assert Changed(s, t, p, ServiceMonitor) == Changed(s1, t, p, ServiceMonitor);
  }

  lemma FinishEmits(v: World, p: Plant, sum: Summary, now: int)
    requires Finish(v, p, sum, now).1 == Requeue
    ensures Finish(v, p, sum, now).0.events
         == v.events + ChangeEvents(sum)
            + HealthNews(p.status, Stored(p.status, StatusDecision(p, ObservedOf(sum.deployment), now)))
  {
    SaysDegradedIff(p.status);
    SaysDegradedIff(Stored(p.status, StatusDecision(p, ObservedOf(sum.deployment), now)));
  }

  /** The events of a pass that requeues tell what it did: created if a child is there that
      was not, otherwise updated if a child is not as it was, and then a turn of the Plant's
      health, if the status it leaves differs in that from the one it read. */
  lemma EventsTellWhatHappened(w: World, cached: bool, id: PlantId, c: Call)
    requires StoreOk(w.store) && Reconcile(w, cached, id, c).1 == Requeue
    ensures id in w.store.plants && id in Reconcile(w, cached, id, c).0.store.plants
    ensures var w', p := Reconcile(w, cached, id, c).0, w.store.plants[id];
            w'.events == w.events + ChildNews(w.store, w'.store, p) + HealthNews(p.status, w'.store.plants[id].status)
  {
    RequeueIsLive(w, cached, id, c);
    LiveNews(w, cached, w.store.plants[id], c);
  }

  lemma LiveNews(w: World, cached: bool, p: Plant, c: Call)
    requires StoreOk(w.store) && p.id in w.store.plants && w.store.plants[p.id] == p
    requires ReconcileLive(w, cached, p, c).1 == Requeue
    ensures var w' := ReconcileLive(w, cached, p, c).0;
            && p.id in w'.store.plants
            && w'.events == w.events + ChildNews(w.store, w'.store, p) + HealthNews(p.status, w'.store.plants[p.id].status)
  {
    var (v, r) := ReconcileChildren(w, cached, p, c);
    LiveNeedsItsChildren(w, cached, p, c);
    ChildrenStageFrame(w, cached, p, c);
    StageTells(w, cached, p, c);
    FinishNews(w.store, v, p, r.value, c.now);
  }

  lemma FinishNews(s: Store, v: World, p: Plant, sum: Summary, now: int)
    requires PlantsOk(v.store) && p.id in v.store.plants && v.store.plants[p.id] == p
    requires Tells(s, v.store, p, sum) && Finish(v, p, sum, now).1 == Requeue
    ensures var w' := Finish(v, p, sum, now).0;
            && p.id in w'.store.plants
            && w'.events == v.events + ChildNews(s, w'.store, p) + HealthNews(p.status, w'.store.plants[p.id].status)
  {
    FinishStores(v, p, sum, now);
    FinishEmits(v, p, sum, now);
    SameNews(s, v.store, Finish(v, p, sum, now).0.store, p);
  }

  lemma SameNews(s: Store, v: Store, t: Store, p: Plant)
    requires t.children == v.children
    ensures ChildNews(s, t, p) == ChildNews(s, v, p)
  {
    forall k: Kind
      ensures Appeared(s, t, p, k) == Appeared(s, v, p, k) && Changed(s, t, p, k) == Changed(s, v, p, k)
    {
    }
  }
}
