/** Runs of whole reconcile passes among user edits, outside changes to the children, and
    restarts: what they do to the stored status of a Plant, and what its events say. */
module WorldRuns {
  import opened Wrappers
  import opened Objects
  import opened ApiServer
  import opened Children
  import opened MonitorProbe
  import opened Status
  import opened StatusWrites
  import opened ReconcilePass
  import opened Generations

  datatype Step =
    | Users(edits: seq<PlantEdit>)
    | Outside(children: map<Key, Obj>, versions: nat)     // controllers, collectors, anybody
    | Restart
    | Reconciles(cached: bool, call: Call, script: seq<seq<PlantEdit>>)

  function AfterStep(w: World, id: PlantId, step: Step): World {
    match step
    case Users(es) => w.(store := ApplyEdits(w.store, id, es))
    case Outside(children, versions) => w.(store := w.store.(children := children, next := w.store.next + versions))
    case Restart => w.(until := 0)
    case Reconciles(cached, c, script) => Reconcile(w.(script := script), cached, id, c).0
  }

  function Front(steps: seq<Step>): seq<Step>
    requires steps != []
  {
    steps[..|steps| - 1]
  }

  function Last(steps: seq<Step>): Step
    requires steps != []
  {
    steps[|steps| - 1]
  }

  function AfterSteps(w: World, id: PlantId, steps: seq<Step>): World {
    if steps == [] then w else AfterStep(AfterSteps(w, id, Front(steps)), id, Last(steps))
  }

  lemma PrefixOfFront(steps: seq<Step>, k: nat)
    requires k < |steps|
    ensures Front(steps)[..k] == steps[..k]
  {
  }

  // ----- a pass, as far as the Plant's status is concerned

  /** What a pass sets out to say about the Plant. */
  datatype Doing = Silent | Judging(observed: Observed) | Blocking(reason: Reason, message: Message)

  function DoingOf(w: World, cached: bool, id: PlantId, c: Call): Doing {
    if id !in w.store.plants || w.store.plants[id].deleting then Silent
    else
      var p := w.store.plants[id];
      if |p.id.name| > MAX_PLANT_NAME_LENGTH then Blocking(InvalidName, InvalidNameMessage(p))
      else
        match ReconcileChildren(w, cached, p, c).1
        case Ok(sum) => Judging(ObservedOf(sum.deployment))
        case Err(e) =>
          if e.ConflictingResource? then Blocking(NameConflict, ConflictMessage(e.key, e.controller)) else Silent
  }

  /** The world in which it says it. */
  function StageOf(w: World, cached: bool, id: PlantId, c: Call): World {
    if id !in w.store.plants || w.store.plants[id].deleting || |w.store.plants[id].id.name| > MAX_PLANT_NAME_LENGTH then w
    else
      var (v, r) := ReconcileChildren(w, cached, w.store.plants[id], c);
      if r.Ok? then v.(events := v.events + ChangeEvents(r.value)) else v
  }

  function DecisionOf(p: Plant, doing: Doing, now: int): Decision {
    match doing
    case Silent => Skip
    case Judging(d) => StatusDecision(p, d, now)
    case Blocking(reason, message) => BlockDecision(p, reason, message, now)
  }

  function Said(v: World, p: Plant, doing: Doing, now: int): World {
    match doing
    case Silent => v
    case Judging(d) => ReconcileStatus(v, p, d, now).0
    case Blocking(reason, message) => MarkDegraded(v, p, reason, message, now).0
  }

  /** Only changes to children are announced in between. */
  predicate StatusEvent(e: Event) {
    !e.PlantCreated? && !e.PlantUpdated?
  }

  function StatusEvents(es: seq<Event>): seq<Event> {
    if es == [] then []
    else StatusEvents(es[..|es| - 1]) + if StatusEvent(es[|es| - 1]) then [es[|es| - 1]] else []
  }

  lemma StatusEventsOfMore(es: seq<Event>, e: Event)
    ensures StatusEvents(es + [e]) == StatusEvents(es) + if StatusEvent(e) then [e] else []
  {
    assert (es + [e])[..|es + [e]| - 1] == es;
  }

  lemma ChangesAreNoStatusEvents(es: seq<Event>, sum: Summary)
    ensures StatusEvents(es + ChangeEvents(sum)) == StatusEvents(es)
  {
    if sum.created {
      StatusEventsOfMore(es, PlantCreated);
    } else if sum.updated {
      StatusEventsOfMore(es, PlantUpdated);
    } else {
      assert es + [] == es;
    }
  }

  /** Nothing about Plants, and no status event. */
  predicate SamePlants(w: World, v: World) {
    && v.store.plants == w.store.plants && v.store.next >= w.store.next
    && v.script == w.script && StatusEvents(v.events) == StatusEvents(w.events)
  }

  /** A pass is its children stage, and then what it says. */
  lemma PassIsSaid(w: World, cached: bool, id: PlantId, c: Call)
    requires id in w.store.plants
    ensures SamePlants(w, StageOf(w, cached, id, c))
    ensures Reconcile(w, cached, id, c).0
         == Said(StageOf(w, cached, id, c), w.store.plants[id], DoingOf(w, cached, id, c), c.now)
  {
    var p := w.store.plants[id];
    PassCases(w, cached, id, c);
    if !p.deleting && |p.id.name| <= MAX_PLANT_NAME_LENGTH {
      ChildrenStageFrame(w, cached, p, c);
      LivePassIsSaid(w, cached, p, c);
      var (v, r) := ReconcileChildren(w, cached, p, c);
      if r.Ok? {
        ChangesAreNoStatusEvents(v.events, r.value);
      }
    }
  }

  function SaidAfter(v: World, r: Result<Summary, ChildError>, p: Plant, now: int): World {
    match r
    case Ok(sum) => Said(v.(events := v.events + ChangeEvents(sum)), p, Judging(ObservedOf(sum.deployment)), now)
    case Err(e) =>
      if e.ConflictingResource? then Said(v, p, Blocking(NameConflict, ConflictMessage(e.key, e.controller)), now) else v
  }

  lemma LivePassIsSaid(w: World, cached: bool, p: Plant, c: Call)
    ensures ReconcileLive(w, cached, p, c).0
         == SaidAfter(ReconcileChildren(w, cached, p, c).0, ReconcileChildren(w, cached, p, c).1, p, c.now)
  {
  }

  // ----- the retried and the single write, on any script

  /** How the users leave the Plant by the time the write is over, if none is accepted. */
  function EndOf(l: Life, script: seq<seq<PlantEdit>>, steps: nat): Life
    decreases steps
  {
    if steps == 0 || Idle(EditsAt(script, 0)) then l
    else
      var l1 := LivedThrough(l, EditsAt(script, 0));
      var l2 := LivedThrough(l1, EditsAt(script, 1));
      if !l1.present then l1 else if !l2.present then l2 else EndOf(l2, Rest(script, 2), steps - 1)
  }

  /** The Plant still carries the status it had at the start, unless it was created since. */
  ghost predicate Carries(s: Store, id: PlantId, l: Life, start: PlantStatus) {
    && (id in s.plants <==> l.present)
    && (l.present ==> s.plants[id].spec == l.spec && s.plants[id].status == if l.recreated then NO_STATUS else start)
  }

  lemma {:induction false} EditsCarry(s: Store, id: PlantId, es: seq<PlantEdit>, l: Life, start: PlantStatus)
    requires Carries(s, id, l, start)
    ensures Carries(ApplyEdits(s, id, es), id, LivedThrough(l, es), start)
    decreases |es|
  {
    if es != [] {
      EditsCarry(ApplyEdit(s, id, es[0]), id, es[1..], Lived(l, es[0]), start);
    }
  }

  /** A write that is never accepted leaves the users' Plant alone. */
  lemma {:induction false} LostWriteCarries(s: Store, script: seq<seq<PlantEdit>>, p: Plant, status: PlantStatus,
                                            steps: nat, l: Life, start: PlantStatus)
    requires PlantsOk(s) && p.id in s.plants && s.plants[p.id].resourceVersion == p.resourceVersion
    requires Carries(s, p.id, l, start) && RetryStatusWrite(s, script, p, status, steps).outcome.Err?
    ensures Carries(RetryStatusWrite(s, script, p, status, steps).store, p.id, EndOf(l, script, steps), start)
    decreases steps
  {
    if steps > 0 {
      var s0 := ApplyEdits(s, p.id, EditsAt(script, 0));
      EditsCarry(s, p.id, EditsAt(script, 0), l, start);
      EditsKeepPlantsOk(s, p.id, EditsAt(script, 0));
      if Idle(EditsAt(script, 0)) {
        IdleTurn(s, p.id, EditsAt(script, 0));
      } else {
        BusyTurn(s, p.id, EditsAt(script, 0));
        LostAfterBusyTurn(s0, script, p, status, steps, LivedThrough(l, EditsAt(script, 0)), start);
      }
    }
  }

  lemma {:induction false} LostAfterBusyTurn(s0: Store, script: seq<seq<PlantEdit>>, p: Plant, status: PlantStatus,
                                             steps: nat, l1: Life, start: PlantStatus)
    requires steps > 0 && PlantsOk(s0) && Carries(s0, p.id, l1, start)
    requires p.id in s0.plants ==> s0.plants[p.id].resourceVersion != p.resourceVersion
    ensures var (s1, u) := UpdateStatus(s0, p.(status := status));
            var s2 := ApplyEdits(s1, p.id, EditsAt(script, 1));
            var l2 := LivedThrough(l1, EditsAt(script, 1));
            && u == (if l1.present then Err(Conflict) else Err(NotFound))
            && Carries(s1, p.id, l1, start) && Carries(s2, p.id, l2, start)
            && (l1.present && l2.present && RetryStatusWrite(s2, Rest(script, 2), s2.plants[p.id], status, steps - 1).outcome.Err? ==>
                  Carries(RetryStatusWrite(s2, Rest(script, 2), s2.plants[p.id], status, steps - 1).store, p.id,
                          EndOf(l2, Rest(script, 2), steps - 1), start))
    decreases steps, 0
  {
    var (s1, u) := UpdateStatus(s0, p.(status := status));
    EditsCarry(s1, p.id, EditsAt(script, 1), l1, start);
    EditsKeepPlantsOk(s1, p.id, EditsAt(script, 1));
    var s2 := ApplyEdits(s1, p.id, EditsAt(script, 1));
    var l2 := LivedThrough(l1, EditsAt(script, 1));
    if l1.present && l2.present && RetryStatusWrite(s2, Rest(script, 2), s2.plants[p.id], status, steps - 1).outcome.Err? {
      LostWriteCarries(s2, Rest(script, 2), s2.plants[p.id], status, steps - 1, l2, start);
    }
  }

  /** The users let what the pass says be stored. */
  predicate Accepted(p: Plant, doing: Doing, script: seq<seq<PlantEdit>>) {
    match doing
    case Silent => true
    case Judging(_) => AtWrite(LifeOf(p), script, RETRY_STEPS).Some?
    case Blocking(_, _) => Idle(EditsAt(script, 0))
  }

  /** How the users leave the Plant if they do not. */
  function LeftBy(p: Plant, doing: Doing, script: seq<seq<PlantEdit>>): Life {
    if doing.Judging? then EndOf(LifeOf(p), script, RETRY_STEPS) else LivedThrough(LifeOf(p), EditsAt(script, 0))
  }

  /** What saying it does to the Plant and to the events. */
  lemma SaidEffect(v: World, p: Plant, doing: Doing, now: int)
    requires PlantsOk(v.store) && p.id in v.store.plants && v.store.plants[p.id] == p
    ensures var d, w' := DecisionOf(p, doing, now), Said(v, p, doing, now);
            && PlantsOk(w'.store)
            && (d.Skip? ==> w'.store.plants == v.store.plants && w'.events == v.events)
            && (d.Write? ==> w'.events == v.events + d.events)
            && (d.Write? && Accepted(p, doing, v.script) ==>
                  p.id in w'.store.plants && w'.store.plants[p.id].status == d.status)
            && (d.Write? && !Accepted(p, doing, v.script) ==>
                  Carries(w'.store, p.id, LeftBy(p, doing, v.script), p.status))
  {
    match doing
    case Silent =>
    case Judging(d) =>
      if StatusDecision(p, d, now).Write? {
        HealthySaid(v.store, v.script, p, StatusDecision(p, d, now).status);
      }
    case Blocking(reason, message) =>
      if BlockDecision(p, reason, message, now).Write? {
        BlockingSaid(v.store, v.script, p, BlockDecision(p, reason, message, now).status);
      }
  }

  lemma HealthySaid(s: Store, script: seq<seq<PlantEdit>>, p: Plant, status: PlantStatus)
    requires PlantsOk(s) && p.id in s.plants && s.plants[p.id] == p
    ensures var t := RetryStatusWrite(s, script, p, status, RETRY_STEPS).store;
            && PlantsOk(t)
            && (if AtWrite(LifeOf(p), script, RETRY_STEPS).Some? then p.id in t.plants && t.plants[p.id].status == status
                else Carries(t, p.id, EndOf(LifeOf(p), script, RETRY_STEPS), p.status))
  {
    RetryKeepsPlantsOk(s, script, p, status, RETRY_STEPS);
    WriteFollowsLife(s, script, p, status, RETRY_STEPS, LifeOf(p), p.generation);
    if AtWrite(LifeOf(p), script, RETRY_STEPS).None? {
      LostWriteCarries(s, script, p, status, RETRY_STEPS, LifeOf(p), p.status);
    }
  }

  lemma BlockingSaid(s: Store, script: seq<seq<PlantEdit>>, p: Plant, status: PlantStatus)
    requires PlantsOk(s) && p.id in s.plants && s.plants[p.id] == p
    ensures var t := UpdateStatus(ApplyEdits(s, p.id, EditsAt(script, 0)), p.(status := status)).0;
            && PlantsOk(t)
            && (if Idle(EditsAt(script, 0)) then p.id in t.plants && t.plants[p.id] == p.(status := status, resourceVersion := s.next)
                else Carries(t, p.id, LivedThrough(LifeOf(p), EditsAt(script, 0)), p.status))
  {
    EditsKeepPlantsOk(s, p.id, EditsAt(script, 0));
    if Idle(EditsAt(script, 0)) {
      IdleTurn(s, p.id, EditsAt(script, 0));
    } else {
      BusyTurn(s, p.id, EditsAt(script, 0));
      EditsCarry(s, p.id, EditsAt(script, 0), LifeOf(p), p.status);
    }
  }

  // ----- observedGeneration over a run

  function Start(w: World, step: Step): World {
    if step.Reconciles? then w.(script := step.script) else w
  }

  /** What the pass of this step decides about the Plant, if it is a pass. */
  function StepDoing(w: World, id: PlantId, step: Step): Doing {
    if step.Reconciles? then DoingOf(Start(w, step), step.cached, id, step.call) else Silent
  }

  function StepDecision(w: World, id: PlantId, step: Step): Decision {
    if step.Reconciles? && id in w.store.plants then DecisionOf(w.store.plants[id], StepDoing(w, id, step), step.call.now)
    else Skip
  }

  lemma JudgedAheadIff(s: Store, script: seq<seq<PlantEdit>>, p: Plant, status: PlantStatus)
    requires PlantsOk(s) && p.id in s.plants && s.plants[p.id] == p && NotAhead(s, p.id)
    requires status.observedGeneration == p.generation
    ensures NotAhead(RetryStatusWrite(s, script, p, status, RETRY_STEPS).store, p.id)
       <==> !RecreatedBelow(p, script, RETRY_STEPS, p.generation)
  {
    AheadIffRecreatedBelow(s, script, p, status, RETRY_STEPS);
    WriteFollowsLife(s, script, p, status, RETRY_STEPS, LifeOf(p), p.generation);
    if RetryStatusWrite(s, script, p, status, RETRY_STEPS).outcome.Err? {
      FailedWriteKeepsNotAhead(s, script, p, status, RETRY_STEPS);
    }
  }

  /** markDegraded leaves observedGeneration as it was, and writes nothing if it is late. */
  lemma BlockedIsNotAhead(s: Store, script: seq<seq<PlantEdit>>, p: Plant, status: PlantStatus)
    requires PlantsOk(s) && p.id in s.plants && s.plants[p.id] == p && NotAhead(s, p.id)
    requires status.observedGeneration == p.status.observedGeneration
    ensures NotAhead(UpdateStatus(ApplyEdits(s, p.id, EditsAt(script, 0)), p.(status := status)).0, p.id)
  {
    EditsKeepNotAhead(s, p.id, EditsAt(script, 0));
    if Idle(EditsAt(script, 0)) {
      IdleTurn(s, p.id, EditsAt(script, 0));
    } else {
      BusyTurn(s, p.id, EditsAt(script, 0));
    }
  }

  /** The step is a pass that judges the Plant and writes a status, and its users recreate
      the Plant below the generation it judged. */
  predicate Overtaken(w: World, id: PlantId, step: Step) {
    && StepDecision(w, id, step).Write? && StepDoing(w, id, step).Judging?
    && RecreatedBelow(w.store.plants[id], step.script, RETRY_STEPS, w.store.plants[id].generation)
  }

  lemma SaidIsAheadIff(v: World, p: Plant, doing: Doing, now: int)
    requires PlantsOk(v.store) && p.id in v.store.plants && v.store.plants[p.id] == p && NotAhead(v.store, p.id)
    ensures NotAhead(Said(v, p, doing, now).store, p.id)
       <==> !(DecisionOf(p, doing, now).Write? && doing.Judging?
              && RecreatedBelow(p, v.script, RETRY_STEPS, p.generation))
  {
    match doing
    case Silent =>
    case Judging(d) =>
      if StatusDecision(p, d, now).Write? {
        JudgedAheadIff(v.store, v.script, p, StatusDecision(p, d, now).status);
      }
    case Blocking(reason, message) =>
      if BlockDecision(p, reason, message, now).Write? {
        BlockedIsNotAhead(v.store, v.script, p, BlockDecision(p, reason, message, now).status);
      }
  }

  /** A pass over a Plant that is not there does nothing. */
  lemma NothingToDo(w: World, cached: bool, id: PlantId, c: Call)
    requires id !in w.store.plants
    ensures Reconcile(w, cached, id, c).0 == w
  {
    PassCases(w, cached, id, c);
  }

  lemma StepKeepsPlantsOk(w: World, id: PlantId, step: Step)
    requires PlantsOk(w.store)
    ensures PlantsOk(AfterStep(w, id, step).store)
  {
    match step
    case Users(es) => EditsKeepPlantsOk(w.store, id, es);
    case Reconciles(cached, c, script) =>
      if id in w.store.plants {
        PassIsSaid(Start(w, step), cached, id, c);
        SaidEffect(StageOf(Start(w, step), cached, id, c), w.store.plants[id], StepDoing(w, id, step), c.now);
      } else {
        NothingToDo(Start(w, step), cached, id, c);
      }
    case _ =>
  }

  lemma StepIsAheadIff(w: World, id: PlantId, step: Step)
    requires PlantsOk(w.store) && NotAhead(w.store, id)
    ensures NotAhead(AfterStep(w, id, step).store, id) <==> !Overtaken(w, id, step)
  {
    match step
    case Users(es) => EditsKeepNotAhead(w.store, id, es);
    case Reconciles(cached, c, script) =>
      if id in w.store.plants {
        PassIsSaid(Start(w, step), cached, id, c);
        SaidIsAheadIff(StageOf(Start(w, step), cached, id, c), w.store.plants[id], StepDoing(w, id, step), c.now);
      } else {
        NothingToDo(Start(w, step), cached, id, c);
      }
    case _ =>
  }

  lemma {:induction false} RunKeepsPlantsOk(w: World, id: PlantId, steps: seq<Step>)
    requires PlantsOk(w.store)
    ensures PlantsOk(AfterSteps(w, id, steps).store)
  {
    if steps != [] {
      RunKeepsPlantsOk(w, id, Front(steps));
      StepKeepsPlantsOk(AfterSteps(w, id, Front(steps)), id, Last(steps));
    }
  }

  predicate NeverOvertaken(w: World, id: PlantId, steps: seq<Step>) {
    steps != [] ==>
      NeverOvertaken(w, id, Front(steps)) && !Overtaken(AfterSteps(w, id, Front(steps)), id, Last(steps))
  }

  /** In every state of the run. */
  predicate NeverAhead(w: World, id: PlantId, steps: seq<Step>) {
    forall k :: 0 <= k <= |steps| ==> NotAhead(AfterSteps(w, id, steps[..k]).store, id)
  }

  lemma NeverAheadByFront(w: World, id: PlantId, steps: seq<Step>)
    requires steps != []
    ensures NeverAhead(w, id, steps)
       <==> NeverAhead(w, id, Front(steps)) && NotAhead(AfterSteps(w, id, steps).store, id)
  {
    assert steps[..|steps|] == steps;
    forall k | 0 <= k < |steps| ensures Front(steps)[..k] == steps[..k] {
      PrefixOfFront(steps, k);
    }
    assert forall k :: 0 <= k < |steps| ==> AfterSteps(w, id, Front(steps)[..k]) == AfterSteps(w, id, steps[..k]);
  }

  /** Over every run of whole passes, user edits, outside changes and restarts:
      observedGeneration is ahead in no state if and only if it is not to begin with and no
      pass is overtaken by a recreation. */
  lemma {:induction false} RunIsNeverAheadIff(w: World, id: PlantId, steps: seq<Step>)
    requires PlantsOk(w.store)
    ensures NeverAhead(w, id, steps) <==> NotAhead(w.store, id) && NeverOvertaken(w, id, steps)
  {
    if steps == [] {
      assert steps[..0] == [];
    } else {
      var front := Front(steps);
      RunIsNeverAheadIff(w, id, front);
      RunKeepsPlantsOk(w, id, front);
      NeverAheadByFront(w, id, steps);
      assert front[..|front|] == front;
      if NotAhead(AfterSteps(w, id, front).store, id) {
        StepIsAheadIff(AfterSteps(w, id, front), id, Last(steps));
      }
    }
  }
}
