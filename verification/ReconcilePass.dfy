/** One reconcile pass over a Plant (plant_controller.go) as a function of the world, and
    what passes achieve: convergence, and silence once there is nothing left to do. */
module ReconcilePass {
  import opened Wrappers
  import opened Objects
  import opened ApiServer
  import opened Resources
  import opened Mutation
  import opened Children
  import opened MonitorProbe
  import opened Status
  import opened StatusWrites

  const MAX_PLANT_NAME_LENGTH := LABEL_VALUE_MAX_LENGTH

  /** `script` is what users do to Plants while their status is being written. */
  datatype World = World(store: Store, script: seq<seq<PlantEdit>>, until: int, events: seq<Event>)

  datatype ReconcileError = ChildFailed(error: ChildError) | StatusFailed(status: ApiError)

  datatype Outcome = Requeue | Finished | Failed(error: ReconcileError)

  // ----- messages

  function InvalidNameMessage(p: Plant): Message {
    NameTooLong(|p.id.name|, MAX_PLANT_NAME_LENGTH)
  }

  /** Of a controller the message names the kind and the name. */
  function ConflictMessage(key: Key, controller: Option<OwnerRef>): Message {
    RefusingToAdopt(key.kind, key.ns, key.name,
                    if controller.None? then None else Some((controller.value.kind, controller.value.name)))
  }

  // ----- the steps of a pass

  function MarkDegraded(w: World, p: Plant, reason: Reason, message: Message, now: int): (World, Option<ApiError>) {
    match BlockDecision(p, reason, message, now)
    case Skip => (w, None)
    case Write(status, events) =>
      var (s, r) := UpdateStatus(ApplyEdits(w.store, p.id, EditsAt(w.script, 0)), p.(status := status));
      (w.(store := s, script := Rest(w.script, 1), events := w.events + events), if r.Ok? then None else Some(r.error))
  }

  function ObservedOf(deployment: Option<Obj>): Observed {
    if deployment.Some? && deployment.value.body.DeploymentBody? then
      Observed(deployment.value.body.status.readyReplicas, deployment.value.body.status.observedGeneration,
               deployment.value.meta.generation)
    else Observed(0, 0, 0)
  }

  function ReconcileStatus(w: World, p: Plant, d: Observed, now: int): (World, Option<ApiError>) {
    match StatusDecision(p, d, now)
    case Skip => (w, None)
    case Write(status, events) =>
      var r := RetryStatusWrite(w.store, w.script, p, status, RETRY_STEPS);
      (w.(store := r.store, script := r.script, events := w.events + events),
       if r.outcome.Ok? then None else Some(r.outcome.error))
  }

  /** The six children, then the ServiceMonitor if its CRD is believed to be there. */
  function ReconcileChildren(w: World, cached: bool, p: Plant, c: Call): (World, Result<Summary, ChildError>) {
    var (s1, r) := ApplyAll(w.store, cached, p, SIX, NOTHING);
    if r.Err? then (w.(store := s1), r)
    else
      var w1 := w.(store := s1, until := NextUntil(w.until, c));
      if !Available(w.until, c) then (w1, r)
      else
        var (s2, m) := ApplyChild(s1, cached, p, ServiceMonitor);
        (w1.(store := s2), if m.Err? then Err(m.error) else Ok(Note(r.value, ServiceMonitor, m.value)))
  }

  lemma StageFails(w: World, cached: bool, p: Plant, c: Call, s: Store, e: ChildError)
    requires ApplyAll(w.store, cached, p, SIX, NOTHING) == (s, Err(e))
    ensures ReconcileChildren(w, cached, p, c) == (w.(store := s), Err(e))
  {
  }

  lemma StageSkipsMonitor(w: World, cached: bool, p: Plant, c: Call, s: Store, sum: Summary)
    requires ApplyAll(w.store, cached, p, SIX, NOTHING) == (s, Ok(sum)) && !Available(w.until, c)
    ensures ReconcileChildren(w, cached, p, c) == (w.(store := s, until := NextUntil(w.until, c)), Ok(sum))
  {
  }

  lemma StageAppliesMonitor(w: World, cached: bool, p: Plant, c: Call, s: Store, sum: Summary)
    requires ApplyAll(w.store, cached, p, SIX, NOTHING) == (s, Ok(sum)) && Available(w.until, c)
    ensures var (t, m) := ApplyChild(s, cached, p, ServiceMonitor);
            ReconcileChildren(w, cached, p, c)
            == (w.(store := t, until := NextUntil(w.until, c)),
                if m.Err? then Err(m.error) else Ok(Note(sum, ServiceMonitor, m.value)))
  {
  }

  function Fail(w: World, p: Plant, e: ChildError, now: int): (World, Outcome) {
    if e.ConflictingResource? then
      var (w', err) := MarkDegraded(w, p, NameConflict, ConflictMessage(e.key, e.controller), now);
      (w', Failed(if err.Some? then StatusFailed(err.value) else ChildFailed(e)))
    else (w, Failed(ChildFailed(e)))
  }

  function ChangeEvents(sum: Summary): seq<Event> {
    if sum.created then [PlantCreated] else if sum.updated then [PlantUpdated] else []
  }

  function Finish(w: World, p: Plant, sum: Summary, now: int): (World, Outcome) {
    var (w', err) := ReconcileStatus(w.(events := w.events + ChangeEvents(sum)), p, ObservedOf(sum.deployment), now);
    (w', if err.Some? then Failed(StatusFailed(err.value)) else Requeue)
  }

  /** A live Plant whose name can be a label value. */
  function ReconcileLive(w: World, cached: bool, p: Plant, c: Call): (World, Outcome) {
    var (w1, r) := ReconcileChildren(w, cached, p, c);
    if r.Err? then Fail(w1, p, r.error, c.now) else Finish(w1, p, r.value, c.now)
  }

  function RejectName(w: World, p: Plant, now: int): (World, Outcome) {
    var (w', err) := MarkDegraded(w, p, InvalidName, InvalidNameMessage(p), now);
    (w', if err.Some? then Failed(StatusFailed(err.value)) else Finished)
  }

  function Reconcile(w: World, cached: bool, id: PlantId, c: Call): (World, Outcome) {
    if id !in w.store.plants || w.store.plants[id].deleting then (w, Finished)
    else
      var p := w.store.plants[id];
      if |p.id.name| > MAX_PLANT_NAME_LENGTH then RejectName(w, p, c.now)
      else ReconcileLive(w, cached, p, c)
  }

  // ----- convergence

  lemma {:induction false} EditsKeepChildren(s: Store, id: PlantId, es: seq<PlantEdit>)
    ensures ApplyEdits(s, id, es).children == s.children
    decreases |es|
  {
    if es != [] {
      EditsKeepChildren(ApplyEdit(s, id, es[0]), id, es[1..]);
    }
  }

  lemma {:induction false} RetryKeepsChildren(s: Store, script: seq<seq<PlantEdit>>, p: Plant, status: PlantStatus, steps: nat)
    ensures RetryStatusWrite(s, script, p, status, steps).store.children == s.children
    decreases steps
  {
    if steps > 0 {
      EditsKeepChildren(s, p.id, EditsAt(script, 0));
      var (s1, r) := UpdateStatus(ApplyEdits(s, p.id, EditsAt(script, 0)), p.(status := status));
      if r.Err? && r.error == Conflict {
        EditsKeepChildren(s1, p.id, EditsAt(script, 1));
        var s2 := ApplyEdits(s1, p.id, EditsAt(script, 1));
        if p.id in s2.plants {
          RetryKeepsChildren(s2, Rest(script, 2), s2.plants[p.id], status, steps - 1);
        }
      }
    }
  }

  lemma SixAreUnique()
    ensures UniqueKinds(SIX)
  {
  }

  lemma SixAreAllButTheMonitor(kind: Kind)
    ensures kind in SIX <==> kind != ServiceMonitor
  {
    assert SIX[0] == Deployment && SIX[1] == Service && SIX[2] == ConfigMap;
    assert SIX[3] == PodDisruptionBudget && SIX[4] == ServiceAccount && SIX[5] == NetworkPolicy;
  }

  /** The pass has to see to the child of this kind: always, but for the ServiceMonitor,
      which takes a CRD that is there and no remembered answer that it is not. */
  predicate Due(w: World, c: Call, kind: Kind) {
    kind != ServiceMonitor || (c.found && (w.until == 0 || w.until <= c.now))
  }

  /** After the children stage, each of the six is at rest and conforms, and what was not
      the operator's is unchanged. */
  lemma ChildrenConverge(w: World, cached: bool, p: Plant, c: Call, kind: Kind)
    requires StoreOk(w.store) && kind in SIX
    requires ReconcileChildren(w, cached, p, c).1.Ok?
    ensures var s := ReconcileChildren(w, cached, p, c).0.store;
            Converged(w.store, s, p, kind) && s.plants == w.store.plants
  {
    SixConverge(w.store, cached, p, kind);
    MonitorSparesTheSix(w, cached, p, c, kind);
    ConvergedElsewhere(w.store, w.store, ApplyAll(w.store, cached, p, SIX, NOTHING).0,
                       ReconcileChildren(w, cached, p, c).0.store, p, kind);
  }

  lemma MonitorSparesTheSix(w: World, cached: bool, p: Plant, c: Call, kind: Kind)
    requires kind in SIX && ApplyAll(w.store, cached, p, SIX, NOTHING).1.Ok?
    ensures var s1 := ApplyAll(w.store, cached, p, SIX, NOTHING).0;
            var s := ReconcileChildren(w, cached, p, c).0.store;
            SameAt(s1, s, ChildKey(p, kind)) && s.plants == s1.plants
  {
    ApplyChildFrame(ApplyAll(w.store, cached, p, SIX, NOTHING).0, cached, p, ServiceMonitor);
  }

  lemma SixConverge(s: Store, cached: bool, p: Plant, kind: Kind)
    requires StoreOk(s) && kind in SIX
    requires ApplyAll(s, cached, p, SIX, NOTHING).1.Ok?
    ensures var t := ApplyAll(s, cached, p, SIX, NOTHING).0;
            Converged(s, t, p, kind) && t.plants == s.plants
  {
    SixAreUnique();
    var i :| 0 <= i < |SIX| && SIX[i] == kind;
    ApplyAllConverges(s, cached, p, SIX, NOTHING, i);
    ApplyAllKeepsStoreOk(s, cached, p, SIX, NOTHING);
  }

  lemma ChildrenStageFrame(w: World, cached: bool, p: Plant, c: Call)
    ensures var v := ReconcileChildren(w, cached, p, c).0;
            && v.store.plants == w.store.plants && v.store.next >= w.store.next
            && v.script == w.script && v.events == w.events
            && (StoreOk(w.store) ==> StoreOk(v.store))
  {
    ApplyAllKeepsStoreOk(w.store, cached, p, SIX, NOTHING);
    ApplyChildFrame(ApplyAll(w.store, cached, p, SIX, NOTHING).0, cached, p, ServiceMonitor);
  }

  lemma FinishKeepsChildren(w: World, p: Plant, sum: Summary, now: int)
    ensures Finish(w, p, sum, now).0.store.children == w.store.children
  {
    match StatusDecision(p, ObservedOf(sum.deployment), now)
    case Skip =>
    case Write(status, _) => RetryKeepsChildren(w.store, w.script, p, status, RETRY_STEPS);
  }

  /** The six leave the ServiceMonitor to its own step, which brings it to rest. */
  lemma MonitorConverges(w: World, cached: bool, p: Plant, c: Call)
    requires StoreOk(w.store) && ReconcileChildren(w, cached, p, c).1.Ok?
    ensures var s := ReconcileChildren(w, cached, p, c).0.store;
            if Available(w.until, c) then Converged(w.store, s, p, ServiceMonitor)
            else SameAt(w.store, s, ChildKey(p, ServiceMonitor))
  {
    var s1 := ApplyAll(w.store, cached, p, SIX, NOTHING).0;
    SixSpareTheMonitor(w.store, cached, p);
    if Available(w.until, c) {
      ApplyAllKeepsStoreOk(w.store, cached, p, SIX, NOTHING);
      ApplyChildConverges(s1, cached, p, ServiceMonitor);
      var s := ApplyChild(s1, cached, p, ServiceMonitor).0;
      ConvergedElsewhere(s1, w.store, s, s, p, ServiceMonitor);
    }
  }

  lemma SixSpareTheMonitor(s: Store, cached: bool, p: Plant)
    ensures SameAt(s, ApplyAll(s, cached, p, SIX, NOTHING).0, ChildKey(p, ServiceMonitor))
  {
    ApplyAllFrame(s, cached, p, SIX, NOTHING, ChildKey(p, ServiceMonitor));
  }

  /** After the children stage every child it had to see to has converged, and a
      ServiceMonitor it had not is as it was. */
  lemma StageConverges(w: World, cached: bool, p: Plant, c: Call, kind: Kind)
    requires StoreOk(w.store) && ReconcileChildren(w, cached, p, c).1.Ok?
    ensures var s := ReconcileChildren(w, cached, p, c).0.store;
            if Due(w, c, kind) then Converged(w.store, s, p, kind) else SameAt(w.store, s, ChildKey(p, kind))
  {
    SixAreAllButTheMonitor(kind);
    if kind == ServiceMonitor {
      MonitorConverges(w, cached, p, c);
    } else {
      ChildrenConverge(w, cached, p, c, kind);
    }
  }

  lemma LivePassConverges(w: World, cached: bool, p: Plant, c: Call, kind: Kind)
    requires StoreOk(w.store)
    requires ReconcileLive(w, cached, p, c).1 == Requeue
    ensures var s := ReconcileLive(w, cached, p, c).0.store;
            if Due(w, c, kind) then Converged(w.store, s, p, kind) else SameAt(w.store, s, ChildKey(p, kind))
  {
    var (w1, r) := ReconcileChildren(w, cached, p, c);
    if r.Ok? {
      StageConverges(w, cached, p, c, kind);
      FinishKeepsChildren(w1, p, r.value, c.now);
      if Due(w, c, kind) {
        ConvergedElsewhere(w.store, w.store, w1.store, Finish(w1, p, r.value, c.now).0.store, p, kind);
      }
    }
  }

  /** From any store, a pass that asks to be requeued leaves the child of every kind
      present, controlled by this Plant, as the builders describe, with everything foreign
      kept; a ServiceMonitor only if its CRD is found, and otherwise as it was. */
  lemma PassConverges(w: World, cached: bool, id: PlantId, c: Call, kind: Kind)
    requires StoreOk(w.store)
    requires Reconcile(w, cached, id, c).1 == Requeue
    ensures id in w.store.plants
    ensures var s := Reconcile(w, cached, id, c).0.store;
            if Due(w, c, kind) then Converged(w.store, s, w.store.plants[id], kind)
            else SameAt(w.store, s, ChildKey(w.store.plants[id], kind))
  {
    RequeueIsLive(w, cached, id, c);
    LivePassConverges(w, cached, w.store.plants[id], c, kind);
  }

  /** Which of its three ways a pass takes. */
  lemma PassCases(w: World, cached: bool, id: PlantId, c: Call)
    ensures Reconcile(w, cached, id, c)
         == if id !in w.store.plants || w.store.plants[id].deleting then (w, Finished)
            else if |w.store.plants[id].id.name| > MAX_PLANT_NAME_LENGTH then RejectName(w, w.store.plants[id], c.now)
            else ReconcileLive(w, cached, w.store.plants[id], c)
  {
  }

  lemma RejectionNeverRequeues(w: World, p: Plant, now: int)
    ensures !RejectName(w, p, now).1.Requeue?
  {
  }

  lemma LiveNeverFinishes(w: World, cached: bool, p: Plant, c: Call)
    ensures !ReconcileLive(w, cached, p, c).1.Finished?
  {
    var (w1, r) := ReconcileChildren(w, cached, p, c);
    if r.Err? {
      FailNeverFinishes(w1, p, r.error, c.now);
    } else {
      FinishRequeues(w1, p, r.value, c.now);
    }
  }

  lemma FailNeverFinishes(w: World, p: Plant, e: ChildError, now: int)
    ensures Fail(w, p, e, now).1.Failed?
  {
  }

  lemma FinishRequeues(w: World, p: Plant, sum: Summary, now: int)
    ensures !Finish(w, p, sum, now).1.Finished?
  {
  }

  lemma LiveNeedsItsChildren(w: World, cached: bool, p: Plant, c: Call)
    ensures ReconcileLive(w, cached, p, c).1 == Requeue ==> ReconcileChildren(w, cached, p, c).1.Ok?
  {
    var (v, r) := ReconcileChildren(w, cached, p, c);
    if r.Err? {
      FailNeverFinishes(v, p, r.error, c.now);
    }
  }

  /** Only a live Plant with a usable name is requeued, and such a Plant never finishes. */
  lemma RequeueIsLive(w: World, cached: bool, id: PlantId, c: Call)
    ensures Reconcile(w, cached, id, c).1.Requeue? ==>
              && id in w.store.plants && !w.store.plants[id].deleting
              && |w.store.plants[id].id.name| <= MAX_PLANT_NAME_LENGTH
              && Reconcile(w, cached, id, c) == ReconcileLive(w, cached, w.store.plants[id], c)
    ensures Reconcile(w, cached, id, c).1.Finished? && id in w.store.plants && !w.store.plants[id].deleting ==>
              && |w.store.plants[id].id.name| > MAX_PLANT_NAME_LENGTH
              && Reconcile(w, cached, id, c) == RejectName(w, w.store.plants[id], c.now)
  {
    PassCases(w, cached, id, c);
    if id in w.store.plants {
      RejectionNeverRequeues(w, w.store.plants[id], c.now);
      LiveNeverFinishes(w, cached, w.store.plants[id], c);
    }
  }

  // ----- silence

  predicate MonitorQuiet(s: Store, cached: bool, p: Plant) {
    var (s', m) := ApplyChild(s, cached, p, ServiceMonitor);
    s' == s && (m.Ok? ==> m.value.op.NoChange?)
  }

  ghost predicate BlockQuiet(p: Plant, e: ChildError) {
    e.ConflictingResource? ==>
      forall t :: BlockDecision(p, NameConflict, ConflictMessage(e.key, e.controller), t) == Skip
  }

  ghost predicate StatusQuiet(p: Plant, d: Observed) {
    forall t :: StatusDecision(p, d, t) == Skip
  }

  /** Nothing a pass does, at any time, would write anything or emit an event. */
  ghost predicate Quiet(w: World, cached: bool, id: PlantId, found: bool) {
    if id !in w.store.plants || w.store.plants[id].deleting then true
    else
      var p := w.store.plants[id];
      if |p.id.name| > MAX_PLANT_NAME_LENGTH then
        forall t :: BlockDecision(p, InvalidName, InvalidNameMessage(p), t) == Skip
      else
        QuietLive(w, cached, p, found)
  }

  /** The part of Quiet that concerns a live Plant with a usable name. */
  ghost predicate QuietLive(w: World, cached: bool, p: Plant, found: bool) {
    var (s, r) := ApplyAll(w.store, cached, p, SIX, NOTHING);
    && s == w.store
    && match r
       case Err(e) => BlockQuiet(p, e)
       case Ok(sum) =>
         var m := ApplyChild(s, cached, p, ServiceMonitor).1;
         && !sum.created && !sum.updated
         && (found ==> MonitorQuiet(s, cached, p) && (m.Err? ==> BlockQuiet(p, m.error)))
         && ((found && w.until == 0 && m.Err?) || StatusQuiet(p, ObservedOf(sum.deployment)))
  }

  lemma QuietFail(w: World, p: Plant, e: ChildError, now: int)
    requires BlockQuiet(p, e)
    ensures Fail(w, p, e, now) == (w, Failed(ChildFailed(e)))
  {
  }

  lemma QuietChildren(w: World, cached: bool, p: Plant, c: Call)
    requires QuietLive(w, cached, p, c.found)
    ensures var (w', r) := ReconcileChildren(w, cached, p, c);
            && w' == w.(until := w'.until) && (c.found && w.until == 0 ==> w'.until == 0)
            && (r.Err? ==> BlockQuiet(p, r.error))
            && (r.Ok? ==> !r.value.created && !r.value.updated && StatusQuiet(p, ObservedOf(r.value.deployment)))
  {
    var (s, r) := ApplyAll(w.store, cached, p, SIX, NOTHING);
    if r.Ok? && Available(w.until, c) {
      var (s2, m) := ApplyChild(s, cached, p, ServiceMonitor);
      assert s2 == s;
    }
  }

  /** The probe deadline may have moved, but not away from zero while the CRD is there. */
  predicate OnlyUntilMoved(w: World, w': World, found: bool) {
    w' == w.(until := w'.until) && (found && w.until == 0 ==> w'.until == 0)
  }

  /** Quiet depends on the probe deadline only in that a cleared one stays cleared. */
  lemma QuietMoves(w: World, w': World, cached: bool, id: PlantId, found: bool)
    requires Quiet(w, cached, id, found)
    requires OnlyUntilMoved(w, w', found)
    ensures Quiet(w', cached, id, found)
  {
  }

  /** A pass over a quiet world moves at most the probe deadline. */
  lemma QuietPassIsSilent(w: World, cached: bool, id: PlantId, c: Call)
    requires Quiet(w, cached, id, c.found)
    ensures OnlyUntilMoved(w, Reconcile(w, cached, id, c).0, c.found)
  {
    PassCases(w, cached, id, c);
    if id in w.store.plants && !w.store.plants[id].deleting {
      var p := w.store.plants[id];
      if |p.id.name| <= MAX_PLANT_NAME_LENGTH {
        QuietLiveIsSilent(w, cached, p, c);
      } else {
        QuietRejection(w, p, c.now);
      }
    }
  }

  lemma QuietRejection(w: World, p: Plant, now: int)
    requires BlockDecision(p, InvalidName, InvalidNameMessage(p), now) == Skip
    ensures RejectName(w, p, now) == (w, Finished)
  {
  }

  lemma QuietLiveIsSilent(w: World, cached: bool, p: Plant, c: Call)
    requires QuietLive(w, cached, p, c.found)
    ensures OnlyUntilMoved(w, ReconcileLive(w, cached, p, c).0, c.found)
  {
    QuietChildren(w, cached, p, c);
    var (w1, r) := ReconcileChildren(w, cached, p, c);
    if r.Err? {
      QuietFail(w1, p, r.error, c.now);
    } else {
      QuietFinish(w1, p, r.value, c.now);
    }
  }

  lemma QuietFinish(w: World, p: Plant, sum: Summary, now: int)
    requires !sum.created && !sum.updated && StatusQuiet(p, ObservedOf(sum.deployment))
    ensures Finish(w, p, sum, now) == (w, Requeue)
  {
    assert w.events + [] == w.events;
  }

  /** A pass per call, in order. */
  function Passes(w: World, cached: bool, id: PlantId, calls: seq<Call>): World {
    if calls == [] then w else Reconcile(Passes(w, cached, id, calls[..|calls| - 1]), cached, id, calls[|calls| - 1]).0
  }

  lemma {:induction false} QuietForever(w: World, cached: bool, id: PlantId, found: bool, calls: seq<Call>)
    requires Quiet(w, cached, id, found)
    requires forall i :: 0 <= i < |calls| ==> calls[i].found == found
    ensures var w' := Passes(w, cached, id, calls);
            w'.store == w.store && w'.events == w.events && Quiet(w', cached, id, found)
  {
    if calls != [] {
      var n := |calls| - 1;
      QuietForever(w, cached, id, found, calls[..n]);
      var w1, w2 := Passes(w, cached, id, calls[..n]), Passes(w, cached, id, calls);
      QuietPassIsSilent(w1, cached, id, calls[n]);
      QuietMoves(w1, w2, cached, id, found);
    }
  }

  // ----- what the desired state depends on

  predicate SameDesire(p: Plant, q: Plant) {
    p.id == q.id && p.uid == q.uid && p.spec == q.spec && p.generation == q.generation
  }

  lemma SameMutation(p: Plant, q: Plant, o: Obj)
    requires SameDesire(p, q)
    ensures Mutated(p, o) == Mutated(q, o)
  {
    assert LabelsFor(p) == LabelsFor(q) && SelectorFor(p) == SelectorFor(q);
    assert PodSpecFor(p) == PodSpecFor(q);
    assert DeploymentSpecFor(p) == DeploymentSpecFor(q);
    assert ConfigMapDataFor(p) == ConfigMapDataFor(q);
    assert MutatedBody(p, o.body) == MutatedBody(q, o.body);
  }

  /** Children are applied without looking at Plants, versions or past requests. */
  predicate SameChildren(s: Store, t: Store) {
    s.children == t.children
  }

  lemma AtRestElsewhere(s: Store, t: Store, p: Plant, q: Plant, kind: Kind)
    requires SameAt(s, t, ChildKey(p, kind)) && SameDesire(p, q) && AtRest(s, p, kind)
    ensures AtRest(t, q, kind)
  {
    SameMutation(p, q, s.children[ChildKey(p, kind)]);
  }
}
