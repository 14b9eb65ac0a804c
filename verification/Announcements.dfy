/** What the events of a run say about a Plant, and when that is what is stored: a pass
    announces before it writes (reconcileStatus and markDegraded in plant_controller.go). */
module Announcements {
  import opened Wrappers
  import opened Objects
  import opened ApiServer
  import opened Status
  import opened StatusWrites
  import opened ReconcilePass
  import opened Generations
  import opened WorldRuns

  // ----- what is stored and what is said

  predicate DegradedFlag(status: PlantStatus) {
    ConditionTrue(status.conditions, DEGRADED)
  }

  predicate Flag(s: Store, id: PlantId) {
    id in s.plants && DegradedFlag(s.plants[id].status)
  }

  /** Whether the Plant is degraded, to go by the last event about it. */
  predicate Says(es: seq<Event>, first: bool) {
    if es == [] then first
    else
      match es[|es| - 1]
      case PlantDegraded => true
      case PlantBlocked(_) => true
      case PlantRecovered => false
      case _ => Says(es[..|es| - 1], first)
  }

  lemma SaysAfter(es: seq<Event>, e: Event, first: bool)
    ensures Says(es + [e], first)
         == if e.PlantDegraded? || e.PlantBlocked? then true else if e.PlantRecovered? then false else Says(es, first)
  {
    assert (es + [e])[..|es + [e]| - 1] == es;
  }

  /** Only status events count. */
  lemma {:induction false} SaysByStatusEvents(es: seq<Event>, first: bool)
    ensures Says(es, first) == Says(StatusEvents(es), first)
  {
    if es != [] {
      var n := |es| - 1;
      SaysByStatusEvents(es[..n], first);
      if StatusEvent(es[n]) {
        SaysAfter(StatusEvents(es[..n]), es[n], first);
      } else {
        assert StatusEvents(es) == StatusEvents(es[..n]) + [] == StatusEvents(es[..n]);
      }
    }
  }

  predicate Agree(w: World, id: PlantId, first: bool) {
    Says(w.events, first) == Flag(w.store, id)
  }

  // ----- what a step does to both

  predicate Keeps(l: Life) {
    l.present && !l.recreated
  }

  lemma CarriedFlag(s: Store, id: PlantId, l: Life, start: PlantStatus)
    requires Carries(s, id, l, start)
    ensures Flag(s, id) <==> Keeps(l) && DegradedFlag(start)
  {
    assert !DegradedFlag(NO_STATUS);
  }

  lemma EditsFlag(s: Store, id: PlantId, es: seq<PlantEdit>)
    ensures Flag(ApplyEdits(s, id, es), id)
       <==> Flag(s, id) && Keeps(LivedThrough(LifeOf(s.plants[id]), es))
  {
    if id in s.plants {
      var p := s.plants[id];
      EditsCarry(s, id, es, LifeOf(p), p.status);
      CarriedFlag(ApplyEdits(s, id, es), id, LivedThrough(LifeOf(p), es), p.status);
    } else {
      NobodyYet(s, id, es);
    }
  }

  lemma NobodyYet(s: Store, id: PlantId, es: seq<PlantEdit>)
    requires id !in s.plants
    ensures !Flag(ApplyEdits(s, id, es), id)
  {
    var nobody := Life(false, false, 0, NOBODYS_SPEC);
    EditsCarry(s, id, es, nobody, NO_STATUS);
    CarriedFlag(ApplyEdits(s, id, es), id, LivedThrough(nobody, es), NO_STATUS);
    assert !DegradedFlag(NO_STATUS);
  }

  const NOBODYS_SPEC := PlantSpec("", None, "", "", 0, "", false)

  /** The decided status is degraded and the one it replaces is not, or the other way
      round; a pass says so exactly then. */
  lemma DecisionSays(es: seq<Event>, p: Plant, doing: Doing, now: int, first: bool)
    requires Says(es, first) == DegradedFlag(p.status)
    ensures var d := DecisionOf(p, doing, now);
            && (d.Write? ==> Says(es + d.events, first) == DegradedFlag(d.status))
            && (d.Skip? && !doing.Silent? ==> DegradedFlag(p.status) == Judged(p, doing, now))
  {
    match doing
    case Silent =>
    case Judging(o) =>
      JudgementSays(es, p, o, now, first);
    case Blocking(reason, message) =>
      BlockIsDegraded(p, reason, message, now);
      SaysAfter(es, PlantBlocked(message), first);
  }

  /** Whether this is a judgement that the Plant is degraded. */
  predicate Judged(p: Plant, doing: Doing, now: int) {
    match doing
    case Silent => DegradedFlag(p.status)
    case Judging(d) => DegradedFlag(ComputeStatus(p, d, now))
    case Blocking(_, _) => true
  }

  lemma JudgementSays(es: seq<Event>, p: Plant, o: Observed, now: int, first: bool)
    requires Says(es, first) == DegradedFlag(p.status)
    ensures var d := StatusDecision(p, o, now);
            && (d.Write? ==> Says(es + d.events, first) == DegradedFlag(d.status))
            && (d.Skip? ==> DegradedFlag(p.status) == DegradedFlag(ComputeStatus(p, o, now)))
  {
    SaysAfter(es, PlantDegraded, first);
    SaysAfter(es, PlantRecovered, first);
    assert es + [] == es;
  }

  lemma BlockIsDegraded(p: Plant, reason: Reason, message: Message, now: int)
    ensures DegradedFlag(MarkedDegraded(p, reason, message, now))
    ensures BlockDecision(p, reason, message, now).Skip? ==> DegradedFlag(p.status)
  {
    SetConditionLookup(p.status.conditions, BlockedCondition(p, reason, message, now), DEGRADED);
  }

  /** The step breaks the agreement: users do away with a Plant that is stored as degraded;
      or a pass announces what the users of its script keep from being stored, and what they
      leave is not what it announced. */
  predicate Slips(w: World, id: PlantId, step: Step) {
    match step
    case Users(es) => Flag(w.store, id) && !Keeps(LivedThrough(LifeOf(w.store.plants[id]), es))
    case Reconciles(_, _, script) =>
      && StepDecision(w, id, step).Write?
      && var p, doing := w.store.plants[id], StepDoing(w, id, step);
      && !Accepted(p, doing, script)
      && DegradedFlag(StepDecision(w, id, step).status) != (DegradedFlag(p.status) && Keeps(LeftBy(p, doing, script)))
    case _ => false
  }

  lemma SaidAgreesIff(v: World, p: Plant, doing: Doing, now: int, first: bool)
    requires PlantsOk(v.store) && p.id in v.store.plants && v.store.plants[p.id] == p && Agree(v, p.id, first)
    ensures Agree(Said(v, p, doing, now), p.id, first)
       <==> !(&& DecisionOf(p, doing, now).Write? && !Accepted(p, doing, v.script)
              && DegradedFlag(DecisionOf(p, doing, now).status)
                 != (DegradedFlag(p.status) && Keeps(LeftBy(p, doing, v.script))))
  {
    var d, w' := DecisionOf(p, doing, now), Said(v, p, doing, now);
    SaidEffect(v, p, doing, now);
    DecisionSays(v.events, p, doing, now, first);
    if d.Write? && !Accepted(p, doing, v.script) {
      CarriedFlag(w'.store, p.id, LeftBy(p, doing, v.script), p.status);
    }
  }

  lemma SamePlantsAgree(w: World, v: World, id: PlantId, first: bool)
    requires SamePlants(w, v)
    ensures Agree(v, id, first) == Agree(w, id, first)
  {
    SaysByStatusEvents(w.events, first);
    SaysByStatusEvents(v.events, first);
  }

  lemma StepAgreesIff(w: World, id: PlantId, step: Step, first: bool)
    requires PlantsOk(w.store) && Agree(w, id, first)
    ensures Agree(AfterStep(w, id, step), id, first) <==> !Slips(w, id, step)
  {
    match step
    case Users(es) => EditsFlag(w.store, id, es);
    case Reconciles(cached, c, script) =>
      var w0 := Start(w, step);
      if id in w.store.plants {
        PassIsSaid(w0, cached, id, c);
        SamePlantsAgree(w0, StageOf(w0, cached, id, c), id, first);
        SaidAgreesIff(StageOf(w0, cached, id, c), w.store.plants[id], StepDoing(w, id, step), c.now, first);
      } else {
        NothingToDo(w0, cached, id, c);
      }
    case _ =>
  }

  // ----- over a run

  predicate NeverSlips(w: World, id: PlantId, steps: seq<Step>) {
    steps != [] ==> NeverSlips(w, id, Front(steps)) && !Slips(AfterSteps(w, id, Front(steps)), id, Last(steps))
  }

  /** In every state of the run. */
  predicate AlwaysAgree(w: World, id: PlantId, steps: seq<Step>, first: bool) {
    forall k :: 0 <= k <= |steps| ==> Agree(AfterSteps(w, id, steps[..k]), id, first)
  }

  lemma AlwaysAgreeByFront(w: World, id: PlantId, steps: seq<Step>, first: bool)
    requires steps != []
    ensures AlwaysAgree(w, id, steps, first)
       <==> AlwaysAgree(w, id, Front(steps), first) && Agree(AfterSteps(w, id, steps), id, first)
  {
    assert steps[..|steps|] == steps;
    forall k | 0 <= k < |steps| ensures Front(steps)[..k] == steps[..k] {
      PrefixOfFront(steps, k);
    }
    assert forall k :: 0 <= k < |steps| ==> AfterSteps(w, id, Front(steps)[..k]) == AfterSteps(w, id, steps[..k]);
  }

  /** Over every run the events say in every state what is stored, if and only if they do to
      begin with and no step slips. */
  lemma {:induction false} RunAgreesIff(w: World, id: PlantId, steps: seq<Step>, first: bool)
    requires PlantsOk(w.store)
    ensures AlwaysAgree(w, id, steps, first) <==> Agree(w, id, first) && NeverSlips(w, id, steps)
  {
    if steps == [] {
      assert steps[..0] == [];
    } else {
      var front := Front(steps);
      RunAgreesIff(w, id, front, first);
      RunKeepsPlantsOk(w, id, front);
      AlwaysAgreeByFront(w, id, steps, first);
      assert front[..|front|] == front;
      if Agree(AfterSteps(w, id, front), id, first) {
        StepAgreesIff(AfterSteps(w, id, front), id, Last(steps), first);
      }
    }
  }

  predicate Announces(w: World, id: PlantId, step: Step, e: Event) {
    StepDecision(w, id, step).Write? && e in StepDecision(w, id, step).events
  }

  lemma AnnouncesIff(p: Plant, o: Observed, now: int)
    ensures var d := StatusDecision(p, o, now);
            && ((d.Write? && PlantDegraded in d.events) <==>
                  !DegradedFlag(p.status) && DegradedFlag(ComputeStatus(p, o, now)))
            && ((d.Write? && PlantRecovered in d.events) <==>
                  DegradedFlag(p.status) && !DegradedFlag(ComputeStatus(p, o, now)))
  {
  }

  /** While the two agree, nothing is announced twice: a PlantDegraded only if the last word
      was not degraded, a PlantRecovered only if it was. */
  lemma AgreedAnnouncementsAlternate(w: World, id: PlantId, step: Step, first: bool)
    requires Agree(w, id, first)
    ensures Announces(w, id, step, PlantDegraded) ==> !Says(w.events, first)
    ensures Announces(w, id, step, PlantRecovered) ==> Says(w.events, first)
  {
    if StepDecision(w, id, step).Write? && StepDoing(w, id, step).Judging? {
      AnnouncesIff(w.store.plants[id], StepDoing(w, id, step).observed, step.call.now);
    }
  }

  /** After a pass that announced PlantDegraded, the next pass to judge the Plant degraded
      announces it again, with nothing about a recovery in between, if and only if the users
      kept the first from being stored, or have done away with the Plant since. */
  lemma RepeatedDegradedIff(w: World, id: PlantId, i: Step, es: seq<PlantEdit>, u: World, j: Step)
    requires PlantsOk(w.store) && Announces(w, id, i, PlantDegraded)
    requires u.store.plants == ApplyEdits(AfterStep(w, id, i).store, id, es).plants
    requires id in u.store.plants && j.Reconciles? && StepDoing(u, id, j).Judging?
    requires Judged(u.store.plants[id], StepDoing(u, id, j), j.call.now)
    ensures var stored := Accepted(w.store.plants[id], StepDoing(w, id, i), i.script);
            && (stored ==> id in AfterStep(w, id, i).store.plants)
            && (Announces(u, id, j, PlantDegraded) <==>
                  !stored || !Keeps(LivedThrough(LifeOf(AfterStep(w, id, i).store.plants[id]), es)))
  {
    var p, w1 := w.store.plants[id], AfterStep(w, id, i);
    AnnouncedThenFlag(w, id, i);
    EditsFlag(w1.store, id, es);
    AnnouncesIff(u.store.plants[id], StepDoing(u, id, j).observed, j.call.now);
    assert Flag(u.store, id) == Flag(ApplyEdits(w1.store, id, es), id);
  }

  /** What was announced is what is then stored exactly if it was accepted. */
  lemma AnnouncedThenFlag(w: World, id: PlantId, i: Step)
    requires PlantsOk(w.store) && Announces(w, id, i, PlantDegraded)
    ensures var w1, stored := AfterStep(w, id, i), Accepted(w.store.plants[id], StepDoing(w, id, i), i.script);
            && (stored ==> id in w1.store.plants) && (Flag(w1.store, id) <==> stored)
  {
    var w0, p, doing := Start(w, i), w.store.plants[id], StepDoing(w, id, i);
    var v := StageOf(w0, i.cached, id, i.call);
    PassIsSaid(w0, i.cached, id, i.call);
    SaidEffect(v, p, doing, i.call.now);
    assert doing.Judging?;
    AnnouncesIff(p, doing.observed, i.call.now);
    if !Accepted(p, doing, i.script) {
      CarriedFlag(Said(v, p, doing, i.call.now).store, id, LeftBy(p, doing, i.script), p.status);
    }
  }

  // ----- a run in which everything is stored

  /** Users leave the Plant in place, and let every status through. */
  predicate Lands(w: World, id: PlantId, step: Step) {
    match step
    case Users(es) => id in w.store.plants && Keeps(LivedThrough(LifeOf(w.store.plants[id]), es))
    case Reconciles(_, _, script) =>
      StepDecision(w, id, step).Write? ==> Accepted(w.store.plants[id], StepDoing(w, id, step), script)
    case _ => true
  }

  predicate AllLand(w: World, id: PlantId, steps: seq<Step>) {
    steps != [] ==> AllLand(w, id, Front(steps)) && Lands(AfterSteps(w, id, Front(steps)), id, Last(steps))
  }

  /** The step as a pass over statuses. */
  function PassOf(w: World, id: PlantId, step: Step): seq<Pass> {
    if !step.Reconciles? || id !in w.store.plants then []
    else
      match StepDoing(w, id, step)
      case Silent => []
      case Judging(d) => [Reconciled(w.store.plants[id], d, step.call.now)]
      case Blocking(reason, message) => [Blocked(w.store.plants[id], reason, message, step.call.now)]
  }

  function PassesOf(w: World, id: PlantId, steps: seq<Step>): seq<Pass> {
    if steps == [] then [] else PassesOf(w, id, Front(steps)) + PassOf(AfterSteps(w, id, Front(steps)), id, Last(steps))
  }

  /** The events of a sequence of passes over statuses. */
  function AllEmitted(s0: PlantStatus, passes: seq<Pass>): seq<Event> {
    if passes == [] then []
    else
      var d := PassDecision(After(s0, passes[..|passes| - 1]), passes[|passes| - 1]);
      AllEmitted(s0, passes[..|passes| - 1]) + if d.Write? then d.events else []
  }

  lemma OneMorePass(s0: PlantStatus, passes: seq<Pass>, pass: Pass)
    ensures var d := PassDecision(After(s0, passes), pass);
            && After(s0, passes + [pass]) == Stored(After(s0, passes), d)
            && AllEmitted(s0, passes + [pass]) == AllEmitted(s0, passes) + if d.Write? then d.events else []
  {
    assert (passes + [pass])[..|passes + [pass]| - 1] == passes;
  }

  lemma DecisionEventsAreStatusEvents(es: seq<Event>, p: Plant, doing: Doing, now: int)
    requires DecisionOf(p, doing, now).Write?
    ensures StatusEvents(es + DecisionOf(p, doing, now).events) == StatusEvents(es) + DecisionOf(p, doing, now).events
  {
    StatusEventsOfMore(es, PlantDegraded);
    StatusEventsOfMore(es, PlantRecovered);
    assert es + [] == es && StatusEvents(es) + [] == StatusEvents(es);
    if doing.Blocking? {
      StatusEventsOfMore(es, PlantBlocked(doing.message));
    }
  }

  /** A pass that lands stores its decision and announces its events. */
  lemma LandedPass(w: World, id: PlantId, step: Step)
    requires PlantsOk(w.store) && id in w.store.plants && step.Reconciles? && Lands(w, id, step)
    ensures var w', d, p := AfterStep(w, id, step), StepDecision(w, id, step), w.store.plants[id];
            && id in w'.store.plants && w'.store.plants[id].status == Stored(p.status, d)
            && StatusEvents(w'.events) == StatusEvents(w.events) + if d.Write? then d.events else []
  {
    var w0, p, doing, now := Start(w, step), w.store.plants[id], StepDoing(w, id, step), step.call.now;
    var v := StageOf(w0, step.cached, id, step.call);
    PassIsSaid(w0, step.cached, id, step.call);
    SaidEffect(v, p, doing, now);
    if DecisionOf(p, doing, now).Write? {
      DecisionEventsAreStatusEvents(v.events, p, doing, now);
    } else {
      assert StatusEvents(w.events) + [] == StatusEvents(w.events);
    }
  }

  lemma LandedStep(w: World, id: PlantId, step: Step, s0: PlantStatus, passes: seq<Pass>, before: seq<Event>)
    requires PlantsOk(w.store) && id in w.store.plants && Lands(w, id, step)
    requires w.store.plants[id].status == After(s0, passes)
    requires StatusEvents(w.events) == before + AllEmitted(s0, passes)
    ensures var w', more := AfterStep(w, id, step), passes + PassOf(w, id, step);
            && id in w'.store.plants && w'.store.plants[id].status == After(s0, more)
            && StatusEvents(w'.events) == before + AllEmitted(s0, more)
  {
    if step.Reconciles? {
      LandedPass(w, id, step);
      LandedPassIsPass(w, id, step, s0, passes, before);
    } else {
      assert passes + [] == passes;
      if step.Users? {
        var p := w.store.plants[id];
        EditsCarry(w.store, id, step.edits, LifeOf(p), p.status);
      }
    }
  }

  lemma LandedPassIsPass(w: World, id: PlantId, step: Step, s0: PlantStatus, passes: seq<Pass>, before: seq<Event>)
    requires id in w.store.plants && step.Reconciles? && w.store.plants[id].status == After(s0, passes)
    ensures var d, more := StepDecision(w, id, step), passes + PassOf(w, id, step);
            && After(s0, more) == Stored(w.store.plants[id].status, d)
            && before + AllEmitted(s0, more) == before + AllEmitted(s0, passes) + if d.Write? then d.events else []
  {
    var p, d := w.store.plants[id], StepDecision(w, id, step);
    var news := if d.Write? then d.events else [];
    assert before + AllEmitted(s0, passes) + news == before + (AllEmitted(s0, passes) + news);
    if PassOf(w, id, step) == [] {
      assert passes + [] == passes && AllEmitted(s0, passes) + [] == AllEmitted(s0, passes);
    } else {
      OneMorePass(s0, passes, PassOf(w, id, step)[0]);
      assert p.(status := After(s0, passes)) == p;
      assert PassOf(w, id, step) == [PassOf(w, id, step)[0]];
    }
  }

  /** In a run in which everything lands, the stored status and the status events are those
      of the passes over statuses that its steps make, whatever users, controllers and
      restarts do in between. */
  lemma {:induction false} RunIsPasses(w: World, id: PlantId, steps: seq<Step>)
    requires PlantsOk(w.store) && id in w.store.plants && AllLand(w, id, steps)
    ensures var w', s0, passes := AfterSteps(w, id, steps), w.store.plants[id].status, PassesOf(w, id, steps);
            && id in w'.store.plants && w'.store.plants[id].status == After(s0, passes)
            && StatusEvents(w'.events) == StatusEvents(w.events) + AllEmitted(s0, passes)
  {
    var s0 := w.store.plants[id].status;
    if steps == [] {
      assert StatusEvents(w.events) + [] == StatusEvents(w.events);
    } else {
      var front := Front(steps);
      RunIsPasses(w, id, front);
      RunKeepsPlantsOk(w, id, front);
      LandedStep(AfterSteps(w, id, front), id, Last(steps), s0, PassesOf(w, id, front), StatusEvents(w.events));
    }
  }

  /** So over such a run every stored transition time is the clock of the pass that last
      moved the condition's status, and condition types stay unique. */
  lemma RunTimesAreHonest(w: World, id: PlantId, steps: seq<Step>, kind: string)
    requires PlantsOk(w.store) && id in w.store.plants && AllLand(w, id, steps)
    ensures id in AfterSteps(w, id, steps).store.plants
    ensures var cs := AfterSteps(w, id, steps).store.plants[id].status.conditions;
            var s0, passes := w.store.plants[id].status, PassesOf(w, id, steps);
            && (UniqueTypes(s0.conditions) ==> UniqueTypes(cs))
            && (Lookup(cs, kind).Some? ==>
                  var t := Lookup(cs, kind).value.lastTransition;
                  && (LastMove(s0, passes, kind).Some? ==> t == LastMove(s0, passes, kind).value)
                  && (LastMove(s0, passes, kind).None? ==>
                        Lookup(s0.conditions, kind).Some? && t == Lookup(s0.conditions, kind).value.lastTransition))
  {
    RunIsPasses(w, id, steps);
    var s0, passes := w.store.plants[id].status, PassesOf(w, id, steps);
    if UniqueTypes(s0.conditions) {
      ConditionTypesStayUnique(s0, passes);
    }
    if Lookup(After(s0, passes).conditions, kind).Some? {
      TransitionTimesAreHonest(s0, passes, kind);
    }
  }
}
