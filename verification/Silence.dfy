/** When reconciling stops writing: after a pass that succeeded, and for a Plant stuck on a
    name that is not its own. */
module Silence {
  import opened Wrappers
  import opened Objects
  import opened ApiServer
  import opened Resources
  import opened Mutation
  import opened Children
  import opened MonitorProbe
  import opened Status
  import opened StatusWrites
  import opened ReconcilePass

  // ----- writing with a current read

  /** The store after an accepted status write. */
  function Wrote(s: Store, p: Plant, status: PlantStatus): Store {
    s.(plants := s.plants[p.id := p.(status := status, resourceVersion := s.next)], next := s.next + 1,
       calls := s.calls + [StatusCall(p.id)])
  }

  lemma CurrentWriteSucceeds(s: Store, p: Plant, status: PlantStatus)
    requires p.id in s.plants && s.plants[p.id] == p
    ensures UpdateStatus(ApplyEdits(s, p.id, EditsAt([], 0)), p.(status := status))
         == (Wrote(s, p, status), Ok(Wrote(s, p, status).plants[p.id]))
    ensures RetryStatusWrite(s, [], p, status, RETRY_STEPS)
         == Retried(Wrote(s, p, status), [], Ok(Wrote(s, p, status).plants[p.id]))
  {
  }

  /** The store after a decision was carried out. */
  function Carried(s: Store, p: Plant, d: Decision): Store {
    if d.Write? then Wrote(s, p, d.status) else s
  }

  function EventsOf(d: Decision): seq<Event> {
    if d.Write? then d.events else []
  }

  function Acted(w: World, p: Plant, d: Decision): World {
    w.(store := Carried(w.store, p, d), events := w.events + EventsOf(d))
  }

  lemma CurrentStatusPass(w: World, p: Plant, d: Observed, now: int)
    requires w.script == [] && p.id in w.store.plants && w.store.plants[p.id] == p
    ensures ReconcileStatus(w, p, d, now) == (Acted(w, p, StatusDecision(p, d, now)), None)
  {
    match StatusDecision(p, d, now)
    case Skip => assert w.events + [] == w.events;
    case Write(status, _) => CurrentWriteSucceeds(w.store, p, status);
  }

  lemma CurrentBlockPass(w: World, p: Plant, reason: Reason, message: Message, now: int)
    requires w.script == [] && p.id in w.store.plants && w.store.plants[p.id] == p
    ensures MarkDegraded(w, p, reason, message, now) == (Acted(w, p, BlockDecision(p, reason, message, now)), None)
  {
    match BlockDecision(p, reason, message, now)
    case Skip => assert w.events + [] == w.events;
    case Write(status, _) => CurrentWriteSucceeds(w.store, p, status);
  }

  lemma CarriedFacts(s: Store, p: Plant, d: Decision)
    requires StoreOk(s) && p.id in s.plants && s.plants[p.id] == p
    ensures var t := Carried(s, p, d);
            && StoreOk(t) && t.children == s.children && p.id in t.plants
            && SameDesire(p, t.plants[p.id]) && t.plants[p.id].deleting == p.deleting
            && t.plants[p.id].status == Stored(p.status, d)
  {
  }

  // ----- after a pass that succeeded

  /** A stored ServiceMonitor that a pass would neither change nor complain about on the
      Plant: already as desired, or in the hands of another controller. */
  predicate MonitorHarmless(s: Store, p: Plant) {
    var key := ChildKey(p, ServiceMonitor);
    && key in s.children
    && Owned(p, s.children[key])
    && (Mutated(p, s.children[key]).Err? || Mutated(p, s.children[key]) == Ok(s.children[key]))
  }

  lemma HarmlessMonitorIsQuiet(s: Store, cached: bool, p: Plant)
    requires MonitorHarmless(s, p)
    ensures MonitorQuiet(s, cached, p)
    ensures var m := ApplyChild(s, cached, p, ServiceMonitor).1; m.Err? ==> !m.error.ConflictingResource?
  {
  }

  lemma HarmlessElsewhere(s: Store, t: Store, p: Plant, q: Plant)
    requires MonitorHarmless(s, p) && SameDesire(p, q) && SameAt(s, t, ChildKey(p, ServiceMonitor))
    ensures MonitorHarmless(t, q)
  {
    SameMutation(p, q, s.children[ChildKey(p, ServiceMonitor)]);
  }

  /** The negative cache hides a CRD that is installed. */
  predicate StaleNegative(w: World, c: Call) {
    c.found && Throttled(w.until, c.now)
  }

  /** The six children at rest: nothing to request, and the Deployment is the stored one. */
  lemma SixAtRest(t: Store, cached: bool, q: Plant)
    requires StoreOk(t) && forall k :: k in SIX ==> AtRest(t, q, k)
    ensures var (t', r) := ApplyAll(t, cached, q, SIX, NOTHING);
            && t' == t && r.Ok? && !r.value.created && !r.value.updated
            && ChildKey(q, Deployment) in t.children
            && r.value.deployment == Some(t.children[ChildKey(q, Deployment)])
  {
    SixAreUnique();
    assert Deployment in SIX;
    forall i | 0 <= i < |SIX| ensures AtRest(t, q, SIX[i]) {
      assert SIX[i] in SIX;
    }
    ApplyAllAtRest(t, cached, q, SIX, NOTHING);
    ApplyAllReturnsDeployment(t, cached, q, SIX, NOTHING);
  }

  /** The children stage of a successful pass: all six at rest, and the Deployment handed
      on is the stored one. */
  lemma ChildrenStage(w: World, cached: bool, p: Plant, c: Call)
    requires StoreOk(w.store) && ReconcileChildren(w, cached, p, c).1.Ok?
    ensures var (v, r) := ReconcileChildren(w, cached, p, c);
            && StoreOk(v.store) && v.store.plants == w.store.plants
            && (forall k :: k in SIX ==> AtRest(v.store, p, k))
            && ChildKey(p, Deployment) in v.store.children
            && r.value.deployment == Some(v.store.children[ChildKey(p, Deployment)])
  {
    var (v, r) := ReconcileChildren(w, cached, p, c);
    var (s1, r1) := ApplyAll(w.store, cached, p, SIX, NOTHING);
    forall k | k in SIX ensures AtRest(v.store, p, k) {
      ChildrenConverge(w, cached, p, c, k);
    }
    assert Deployment in SIX;
    ChildrenConverge(w, cached, p, c, Deployment);
    SixAreUnique();
    ApplyAllReturnsDeployment(w.store, cached, p, SIX, NOTHING);
    ApplyAllKeepsStoreOk(w.store, cached, p, SIX, NOTHING);
    if Available(w.until, c) {
      ApplyChildFrame(s1, cached, p, ServiceMonitor);
      assert SameAt(s1, v.store, ChildKey(p, Deployment));
    }
  }

  lemma MonitorStage(w: World, cached: bool, p: Plant, c: Call)
    requires StoreOk(w.store) && ReconcileChildren(w, cached, p, c).1.Ok?
    ensures var v := ReconcileChildren(w, cached, p, c).0;
            && (Available(w.until, c) ==> AtRest(v.store, p, ServiceMonitor))
            && (!Available(w.until, c) ==> SameAt(w.store, v.store, ChildKey(p, ServiceMonitor)))
  {
    MonitorConverges(w, cached, p, c);
  }

  lemma StageElsewhere(s: Store, t: Store, p: Plant, q: Plant)
    requires SameChildren(s, t) && SameDesire(p, q)
    ensures (forall k :: k in SIX ==> AtRest(s, p, k)) ==> (forall k :: k in SIX ==> AtRest(t, q, k))
    ensures AtRest(s, p, ServiceMonitor) ==> AtRest(t, q, ServiceMonitor)
  {
    forall k | AtRest(s, p, k) ensures AtRest(t, q, k) {
      AtRestElsewhere(s, t, p, q, k);
    }
  }

  /** What a requeued pass leaves behind. */
  lemma RequeuedPass(w: World, cached: bool, id: PlantId, c: Call) returns (d: Observed)
    requires StoreOk(w.store) && w.script == []
    requires Reconcile(w, cached, id, c).1 == Requeue
    ensures id in w.store.plants && !w.store.plants[id].deleting
    ensures |w.store.plants[id].id.name| <= MAX_PLANT_NAME_LENGTH
    ensures var w1 := Reconcile(w, cached, id, c).0;
            var p := w.store.plants[id];
            && w1.script == [] && w1.until == NextUntil(w.until, c)
            && StoreOk(w1.store) && id in w1.store.plants && SameDesire(p, w1.store.plants[id])
            && !w1.store.plants[id].deleting
            && w1.store.plants[id].status == Stored(p.status, StatusDecision(p, d, c.now))
            && (forall k :: k in SIX ==> AtRest(w1.store, w1.store.plants[id], k))
            && ChildKey(p, Deployment) in w1.store.children
            && d == ObservedOf(Some(w1.store.children[ChildKey(p, Deployment)]))
            && (Available(w.until, c) ==> AtRest(w1.store, w1.store.plants[id], ServiceMonitor))
            && (!Available(w.until, c) ==> SameAt(w.store, w1.store, ChildKey(p, ServiceMonitor)))
  {
    RequeueIsLive(w, cached, id, c);
    d := LivePass(w, cached, w.store.plants[id], c);
  }

  lemma LivePass(w: World, cached: bool, p: Plant, c: Call) returns (d: Observed)
    requires StoreOk(w.store) && w.script == [] && p.id in w.store.plants && w.store.plants[p.id] == p
    requires ReconcileLive(w, cached, p, c).1 == Requeue
    ensures var w1 := ReconcileLive(w, cached, p, c).0;
            && w1.script == [] && w1.until == NextUntil(w.until, c)
            && StoreOk(w1.store) && p.id in w1.store.plants && SameDesire(p, w1.store.plants[p.id])
            && w1.store.plants[p.id].deleting == p.deleting
            && w1.store.plants[p.id].status == Stored(p.status, StatusDecision(p, d, c.now))
            && (forall k :: k in SIX ==> AtRest(w1.store, w1.store.plants[p.id], k))
            && ChildKey(p, Deployment) in w1.store.children
            && d == ObservedOf(Some(w1.store.children[ChildKey(p, Deployment)]))
            && (Available(w.until, c) ==> AtRest(w1.store, w1.store.plants[p.id], ServiceMonitor))
            && (!Available(w.until, c) ==> SameAt(w.store, w1.store, ChildKey(p, ServiceMonitor)))
  {
    var (v, r) := ReconcileChildren(w, cached, p, c);
    assert r.Ok?;
    d := ObservedOf(r.value.deployment);
    ChildrenStage(w, cached, p, c);
    MonitorStage(w, cached, p, c);
    CurrentStatusPass(v.(events := v.events + ChangeEvents(r.value)), p, d, c.now);
    var decision := StatusDecision(p, d, c.now);
    CarriedFacts(v.store, p, decision);
    var t := Carried(v.store, p, decision);
    StageElsewhere(v.store, t, p, t.plants[p.id]);
  }

  /** A pass that succeeds leaves a quiet world, unless it skipped a ServiceMonitor that an
      expired negative cache will bring back. */
  lemma SuccessfulPassIsQuiet(w: World, cached: bool, id: PlantId, c: Call)
    requires StoreOk(w.store) && w.script == []
    requires Reconcile(w, cached, id, c).1 == Requeue
    requires id in w.store.plants
    requires !StaleNegative(w, c) || MonitorHarmless(w.store, w.store.plants[id])
    ensures Quiet(Reconcile(w, cached, id, c).0, cached, id, c.found)
  {
    var p := w.store.plants[id];
    var d := RequeuedPass(w, cached, id, c);
    var w1 := Reconcile(w, cached, id, c).0;
    var t, q := w1.store, w1.store.plants[id];
    SixAtRest(t, cached, q);
    forall now ensures StatusDecision(q, d, now) == Skip {
      StatusSettles(p, d, c.now, now, q);
    }
    assert StatusQuiet(q, d);
    if c.found {
      if Available(w.until, c) {
        AtRestIsQuiet(t, cached, q, ServiceMonitor);
      } else {
        HarmlessElsewhere(w.store, t, p, q);
        HarmlessMonitorIsQuiet(t, cached, q);
      }
    }
    assert QuietLive(w1, cached, q, c.found);
  }

  /** The other passes that return no error have nothing to do, ever. */
  lemma FinishedPassIsQuiet(w: World, cached: bool, id: PlantId, c: Call)
    requires StoreOk(w.store) && w.script == []
    requires Reconcile(w, cached, id, c).1 == Finished
    ensures Quiet(Reconcile(w, cached, id, c).0, cached, id, c.found)
  {
    RequeueIsLive(w, cached, id, c);
    if id in w.store.plants && !w.store.plants[id].deleting {
      RejectedNameIsQuiet(w, w.store.plants[id], c.now);
    }
  }

  lemma RejectedNameIsQuiet(w: World, p: Plant, now: int)
    requires StoreOk(w.store) && w.script == [] && p.id in w.store.plants && w.store.plants[p.id] == p
    ensures var w1 := RejectName(w, p, now).0;
            && p.id in w1.store.plants && w1.store.plants[p.id].id == p.id
            && forall t :: BlockDecision(w1.store.plants[p.id], InvalidName, InvalidNameMessage(w1.store.plants[p.id]), t) == Skip
  {
    var message := InvalidNameMessage(p);
    CurrentBlockPass(w, p, InvalidName, message, now);
    var decision := BlockDecision(p, InvalidName, message, now);
    CarriedFacts(w.store, p, decision);
    var q := Carried(w.store, p, decision).plants[p.id];
    assert InvalidNameMessage(q) == message;
    forall t ensures BlockDecision(q, InvalidName, message, t) == Skip {
      BlockSettles(p, InvalidName, message, now, t, q);
    }
  }

  // ----- requests only accumulate

  lemma CarriedCalls(s: Store, p: Plant, d: Decision)
    ensures |Carried(s, p, d).calls| == |s.calls| + if d.Write? then 1 else 0
  {
  }

  // ----- the exception

  /** The Degraded condition carries a readiness reason. */
  predicate ReadinessReason(q: Plant) {
    var c := Lookup(q.status.conditions, DEGRADED);
    c.Some? && (c.value.reason == InsufficientReplicas || c.value.reason == PlantHealthy)
  }

  lemma StatusPassLeavesReadinessReason(p: Plant, d: Observed, now: int, q: Plant)
    requires q.status == Stored(p.status, StatusDecision(p, d, now))
    ensures ReadinessReason(q)
  {
    assert q.status.conditions == ComputeStatus(p, d, now).conditions;
    ComputedConditions(p, d, now, DEGRADED);
    SetConditionLookup(p.status.conditions, DegradedCondition(d.readyReplicas, ReplicasFor(p), p.generation, now), DEGRADED);
  }

  /** So a naming conflict is news. */
  lemma ConflictIsNews(q: Plant, message: Message, t: int)
    requires ReadinessReason(q)
    ensures BlockDecision(q, NameConflict, message, t).Write?
  {
    NewReasonIsWritten(q, NameConflict, message, t);
  }

  lemma NewReasonIsWritten(q: Plant, reason: Reason, message: Message, t: int)
    requires Lookup(q.status.conditions, DEGRADED).Some? && Lookup(q.status.conditions, DEGRADED).value.reason != reason
    ensures BlockDecision(q, reason, message, t).Write?
  {
    SetConditionLookup(q.status.conditions, BlockedCondition(q, reason, message, t), DEGRADED);
  }

  /** A pass over six children at rest that finds the ServiceMonitor unsettled makes at
      least one request. */
  lemma UnsettledMonitorIsNoticed(w: World, cached: bool, q: Plant, c: Call)
    requires StoreOk(w.store) && w.script == [] && q.id in w.store.plants && w.store.plants[q.id] == q
    requires forall k :: k in SIX ==> AtRest(w.store, q, k)
    requires Available(w.until, c) && !MonitorHarmless(w.store, q) && ReadinessReason(q)
    ensures |ReconcileLive(w, cached, q, c).0.store.calls| > |w.store.calls|
  {
    SixAtRest(w.store, cached, q);
    ApplyChildFrame(w.store, cached, q, ServiceMonitor);
    UnsettledMonitor(w.store, cached, q);
    var (v, r) := ReconcileChildren(w, cached, q, c);
    assert v.store == ApplyChild(w.store, cached, q, ServiceMonitor).0;
    if r.Err? {
      if r.error.ConflictingResource? {
        var message := ConflictMessage(r.error.key, r.error.controller);
        CurrentBlockPass(v, q, NameConflict, message, c.now);
        ConflictIsNews(q, message, c.now);
        CarriedCalls(v.store, q, BlockDecision(q, NameConflict, message, c.now));
      }
    } else {
      var v' := v.(events := v.events + ChangeEvents(r.value));
      CurrentStatusPass(v', q, ObservedOf(r.value.deployment), c.now);
      CarriedCalls(v.store, q, StatusDecision(q, ObservedOf(r.value.deployment), c.now));
    }
  }

  /** If the CRD is installed but the negative cache hid it, and the ServiceMonitor is not
      already harmless, the pass at the cache's deadline makes a request. */
  lemma StaleNegativeBreaksSilence(w: World, cached: bool, id: PlantId, c: Call)
    requires StoreOk(w.store) && w.script == []
    requires Reconcile(w, cached, id, c).1 == Requeue
    requires id in w.store.plants
    requires StaleNegative(w, c) && !MonitorHarmless(w.store, w.store.plants[id])
    ensures var w1 := Reconcile(w, cached, id, c).0;
            |Reconcile(w1, cached, id, Call(w.until, true, w.until)).0.store.calls| > |w1.store.calls|
  {
    var d := RequeuedPass(w, cached, id, c);
    var w1 := Reconcile(w, cached, id, c).0;
    StillUnsettled(w.store, w1.store, w.store.plants[id], w1.store.plants[id], d, c.now);
    LaterPassNotices(w1, cached, id, Call(w.until, true, w.until));
  }

  /** A status pass neither settles the ServiceMonitor nor leaves a conflict as the reason. */
  lemma StillUnsettled(s: Store, t: Store, p: Plant, q: Plant, d: Observed, now: int)
    requires !MonitorHarmless(s, p) && SameDesire(p, q) && SameAt(s, t, ChildKey(p, ServiceMonitor))
    requires q.status == Stored(p.status, StatusDecision(p, d, now))
    ensures !MonitorHarmless(t, q) && ReadinessReason(q)
  {
    if MonitorHarmless(t, q) {
      HarmlessElsewhere(t, s, q, p);
    }
    StatusPassLeavesReadinessReason(p, d, now, q);
  }

  lemma LaterPassNotices(w: World, cached: bool, id: PlantId, c: Call)
    requires StoreOk(w.store) && w.script == [] && id in w.store.plants && !w.store.plants[id].deleting
    requires |w.store.plants[id].id.name| <= MAX_PLANT_NAME_LENGTH
    requires forall k :: k in SIX ==> AtRest(w.store, w.store.plants[id], k)
    requires Available(w.until, c) && !MonitorHarmless(w.store, w.store.plants[id])
    requires ReadinessReason(w.store.plants[id])
    ensures |Reconcile(w, cached, id, c).0.store.calls| > |w.store.calls|
  {
    PassCases(w, cached, id, c);
    UnsettledMonitorIsNoticed(w, cached, w.store.plants[id], c);
  }

  lemma UnsettledMonitor(t: Store, cached: bool, q: Plant)
    requires !MonitorHarmless(t, q)
    ensures var (s, m) := ApplyChild(t, cached, q, ServiceMonitor);
            |s.calls| == |t.calls| + 1 || (s == t && m.Err? && m.error.ConflictingResource?)
  {
    var key := ChildKey(q, ServiceMonitor);
    match PlanChild(q, ServiceMonitor, Read(t, cached, key))
    case Ok(plan) => RequestIsCounted(t, key, plan);
    case Err(_) =>
  }

  lemma RequestIsCounted(t: Store, key: Key, plan: Plan)
    ensures !plan.Leave? ==> |Perform(t, key, plan).0.calls| == |t.calls| + 1
  {
  }

  /** The passes of these calls leave the store and the events as they are. */
  predicate SilentOver(w: World, cached: bool, id: PlantId, calls: seq<Call>) {
    Passes(w, cached, id, calls).store == w.store && Passes(w, cached, id, calls).events == w.events
  }

  predicate AllFound(calls: seq<Call>, found: bool) {
    forall i :: 0 <= i < |calls| ==> calls[i].found == found
  }

  /** Every later pass, at any times, leaves the store and the events as they are. */
  ghost predicate SilentForever(w: World, cached: bool, id: PlantId, found: bool) {
    forall calls: seq<Call> {:trigger SilentOver(w, cached, id, calls)} ::
      AllFound(calls, found) ==> SilentOver(w, cached, id, calls)
  }

  lemma QuietIsSilentForever(w: World, cached: bool, id: PlantId, found: bool)
    requires Quiet(w, cached, id, found)
    ensures SilentForever(w, cached, id, found)
  {
    forall calls: seq<Call> | AllFound(calls, found) ensures SilentOver(w, cached, id, calls) {
      QuietForever(w, cached, id, found, calls);
    }
  }

  lemma OnePass(w: World, cached: bool, id: PlantId, c: Call, calls: seq<Call>)
    requires calls == [c]
    ensures Passes(w, cached, id, calls) == Reconcile(w, cached, id, c).0
  {
    assert calls[..|calls| - 1] == [] && calls[|calls| - 1] == c;
  }

  lemma NoisyCalls(w: World, cached: bool, id: PlantId, found: bool, calls: seq<Call>, after: World)
    requires after == Passes(w, cached, id, calls) && AllFound(calls, found)
    requires after.store.calls != w.store.calls
    ensures !SilentForever(w, cached, id, found)
  {
    assert !SilentOver(w, cached, id, calls);
  }

  lemma RequestEndsSilence(w: World, cached: bool, id: PlantId, c: Call)
    requires |Reconcile(w, cached, id, c).0.store.calls| > |w.store.calls|
    ensures !SilentForever(w, cached, id, c.found)
  {
    OnePass(w, cached, id, c, [c]);
    NoisyCalls(w, cached, id, c.found, [c], Reconcile(w, cached, id, c).0);
  }

  /** With nobody else acting, a successful pass is the last one to write anything, exactly
      unless a stale negative answer kept it from an installed ServiceMonitor that needs
      work. */
  lemma SilentAfterSuccessIff(w: World, cached: bool, id: PlantId, c: Call)
    requires StoreOk(w.store) && w.script == []
    requires Reconcile(w, cached, id, c).1 == Requeue
    ensures id in w.store.plants
    ensures SilentForever(Reconcile(w, cached, id, c).0, cached, id, c.found)
       <==> !StaleNegative(w, c) || MonitorHarmless(w.store, w.store.plants[id])
  {
    var w1 := Reconcile(w, cached, id, c).0;
    if !StaleNegative(w, c) || MonitorHarmless(w.store, w.store.plants[id]) {
      SuccessfulPassIsQuiet(w, cached, id, c);
      QuietIsSilentForever(w1, cached, id, c.found);
    } else {
      StaleNegativeBreaksSilence(w, cached, id, c);
      RequestEndsSilence(w1, cached, id, Call(w.until, true, w.until));
    }
  }
}
