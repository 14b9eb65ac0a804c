/** Two Plants reconciled by whole passes in either order. The children and statuses are
    apart, but the passes share the deadline of the ServiceMonitor probe. */
module Commute {
  import opened Wrappers
  import opened Objects
  import opened ApiServer
  import opened Resources
  import opened Mutation
  import opened Children
  import opened Readers
  import opened MonitorProbe
  import opened Status
  import opened ReconcilePass
  import opened Silence
  import opened PassSuccess

  // ----- what a pass did for its Plant

  function PlantView(s: Store, id: PlantId): Option<Plant> {
    if id in s.plants then Some(s.plants[id].(resourceVersion := 0)) else None
  }

  /** Two passes over a Plant, from different worlds, came to the same: outcome, events, the
      Plant with its status, and the content of its children. */
  ghost predicate SameEffect(w: World, a: (World, Outcome), x: World, b: (World, Outcome), p: Plant) {
    && a.1 == b.1
    && (exists news :: Announced(w, a.0, news) && Announced(x, b.0, news))
    && PlantView(a.0.store, p.id) == PlantView(b.0.store, p.id)
    && forall k: Kind :: Content(a.0.store, ChildKey(p, k)) == Content(b.0.store, ChildKey(p, k))
  }

  predicate Announced(w: World, w': World, news: seq<Event>) {
    w'.events == w.events + news
  }

  /** For this Plant the two worlds look alike. */
  ghost predicate LooksAlike(w: World, x: World, p: Plant) {
    && StoreOk(w.store) && StoreOk(x.store) && w.script == [] && x.script == []
    && p.id in w.store.plants && w.store.plants[p.id] == p
    && p.id in x.store.plants && x.store.plants[p.id] == p
    && forall k: Kind :: Content(w.store, ChildKey(p, k)) == Content(x.store, ChildKey(p, k))
  }

  // ----- the children stage

  lemma ObservedByContent(s: Store, t: Store, key: Key)
    requires key in s.children && key in t.children && Content(s, key) == Content(t, key)
    ensures ObservedOf(Some(s.children[key])) == ObservedOf(Some(t.children[key]))
  {
    assert Erase(s.children[key]) == Erase(t.children[key]);
    assert s.children[key].meta.generation == Erase(s.children[key]).meta.generation;
    assert t.children[key].meta.generation == Erase(t.children[key]).meta.generation;
  }

  lemma SixFromAlike(w: World, x: World, cached: bool, p: Plant)
    requires LooksAlike(w, x, p)
    ensures var (s, r) := ApplyAll(w.store, cached, p, SIX, NOTHING);
            var (t, q) := ApplyAll(x.store, cached, p, SIX, NOTHING);
            && Flags(r) == Flags(q)
            && (r.Ok? ==> ObservedOf(r.value.deployment) == ObservedOf(q.value.deployment))
            && forall k: Kind :: Content(s, ChildKey(p, k)) == Content(t, ChildKey(p, k))
  {
    var (s, r) := ApplyAll(w.store, cached, p, SIX, NOTHING);
    var (t, q) := ApplyAll(x.store, cached, p, SIX, NOTHING);
    forall k: Kind ensures Content(s, ChildKey(p, k)) == Content(t, ChildKey(p, k)) {
      PassIsLocal(w.store, x.store, cached, p, SIX, NOTHING, NOTHING, k);
    }
    PassIsLocal(w.store, x.store, cached, p, SIX, NOTHING, NOTHING, Deployment);
    if r.Ok? {
      SixAreUnique();
      ApplyAllReturnsDeployment(w.store, cached, p, SIX, NOTHING);
      ApplyAllReturnsDeployment(x.store, cached, p, SIX, NOTHING);
      ObservedByContent(s, t, ChildKey(p, Deployment));
    }
  }

  /** The stage with the ServiceMonitor applied last, and without. */
  function WithMonitor(s: Store, r: Result<Summary, ChildError>, cached: bool, p: Plant): (Store, Result<Summary, ChildError>) {
    match r
    case Err(e) => (s, r)
    case Ok(sum) =>
      var (t, m) := ApplyChild(s, cached, p, ServiceMonitor);
      (t, if m.Err? then Err(m.error) else Ok(Note(sum, ServiceMonitor, m.value)))
  }

  lemma StageIs(w: World, cached: bool, p: Plant, c: Call)
    ensures var (v, r) := ReconcileChildren(w, cached, p, c);
            var six := ApplyAll(w.store, cached, p, SIX, NOTHING);
            (v.store, r) == if Available(w.until, c) then WithMonitor(six.0, six.1, cached, p) else six
  {
  }

  ghost predicate SamePair(a: (Store, Result<Summary, ChildError>), b: (Store, Result<Summary, ChildError>), p: Plant) {
    && Flags(a.1) == Flags(b.1)
    && (a.1.Ok? && b.1.Ok? ==> ObservedOf(a.1.value.deployment) == ObservedOf(b.1.value.deployment))
    && forall k: Kind :: Content(a.0, ChildKey(p, k)) == Content(b.0, ChildKey(p, k))
  }

  lemma WithMonitorFromAlike(a: (Store, Result<Summary, ChildError>), b: (Store, Result<Summary, ChildError>), cached: bool, p: Plant)
    requires SamePair(a, b, p)
    ensures SamePair(WithMonitor(a.0, a.1, cached, p), WithMonitor(b.0, b.1, cached, p), p)
  {
    if a.1.Ok? {
      MonitorFromAlike(a.0, b.0, cached, p);
    }
  }

  /** If both passes believe the same about the CRD, or do not get to ask, their stages
      come to the same. */
  lemma StageFromAlike(w: World, x: World, cached: bool, p: Plant, c: Call)
    requires LooksAlike(w, x, p)
    requires Available(w.until, c) == Available(x.until, c) || ApplyAll(w.store, cached, p, SIX, NOTHING).1.Err?
    ensures var (v, r) := ReconcileChildren(w, cached, p, c);
            var (y, t) := ReconcileChildren(x, cached, p, c);
            SamePair((v.store, r), (y.store, t), p)
  {
    var a, b := ApplyAll(w.store, cached, p, SIX, NOTHING), ApplyAll(x.store, cached, p, SIX, NOTHING);
    SixFromAlike(w, x, cached, p);
    StageIs(w, cached, p, c);
    StageIs(x, cached, p, c);
    WithMonitorFromAlike(a, b, cached, p);
    if a.1.Err? {
      assert WithMonitor(a.0, a.1, cached, p) == a && WithMonitor(b.0, b.1, cached, p) == b;
    }
  }

  /** A ServiceMonitor at rest makes no difference to the stage. */
  lemma MonitorAtRestIsNothing(a: (Store, Result<Summary, ChildError>), cached: bool, p: Plant)
    requires AtRest(a.0, p, ServiceMonitor)
    ensures SamePair(WithMonitor(a.0, a.1, cached, p), a, p)
  {
    AtRestIsQuiet(a.0, cached, p, ServiceMonitor);
  }

  /** One that is not makes one. */
  lemma MonitorMakesADifference(s: Store, sum: Summary, cached: bool, p: Plant)
    requires StoreOk(s) && !AtRest(s, p, ServiceMonitor)
    ensures var (t, r) := WithMonitor(s, Ok(sum), cached, p);
            r.Ok? ==> Content(t, ChildKey(p, ServiceMonitor)) != Content(s, ChildKey(p, ServiceMonitor))
  {
    if ApplyChild(s, cached, p, ServiceMonitor).1.Ok? {
      ApplyChildConverges(s, cached, p, ServiceMonitor);
      var t := ApplyChild(s, cached, p, ServiceMonitor).0;
      if Content(t, ChildKey(p, ServiceMonitor)) == Content(s, ChildKey(p, ServiceMonitor)) {
        AtRestByContent(t, s, p, ServiceMonitor);
      }
    }
  }

  lemma AtRestByContent(s: Store, t: Store, p: Plant, kind: Kind)
    requires Content(s, ChildKey(p, kind)) == Content(t, ChildKey(p, kind)) && AtRest(s, p, kind)
    ensures AtRest(t, p, kind)
  {
    var a, b := s.children[ChildKey(p, kind)], t.children[ChildKey(p, kind)];
    MutationIgnoresVersion(p, a);
    MutationIgnoresVersion(p, b);
    var m := Mutated(p, b).value;
    assert Erase(a) == Erase(b) && Erase(m) == Erase(a);
    assert m == Erase(m).(meta := Erase(m).meta.(resourceVersion := m.meta.resourceVersion));
    assert b == Erase(b).(meta := Erase(b).meta.(resourceVersion := b.meta.resourceVersion));
  }

  lemma MonitorFromAlike(s: Store, t: Store, cached: bool, p: Plant)
    requires forall k: Kind :: Content(s, ChildKey(p, k)) == Content(t, ChildKey(p, k))
    ensures var (s', r) := ApplyChild(s, cached, p, ServiceMonitor);
            var (t', q) := ApplyChild(t, cached, p, ServiceMonitor);
            SameOutcome(r, q) && forall k: Kind :: Content(s', ChildKey(p, k)) == Content(t', ChildKey(p, k))
  {
    var s', t' := ApplyChild(s, cached, p, ServiceMonitor).0, ApplyChild(t, cached, p, ServiceMonitor).0;
    ApplyChildIsLocal(s, t, cached, p, ServiceMonitor);
    ApplyChildFrame(s, cached, p, ServiceMonitor);
    ApplyChildFrame(t, cached, p, ServiceMonitor);
    forall k: Kind ensures Content(s', ChildKey(p, k)) == Content(t', ChildKey(p, k)) {
      if k != ServiceMonitor {
        ContentFrame(s, s', ChildKey(p, k));
        ContentFrame(t, t', ChildKey(p, k));
      }
    }
  }

  // ----- from the stage to the pass

  /** A status pass over the same Plant and observation does the same. */
  lemma FinishFromAlike(v: World, y: World, p: Plant, sum: Summary, more: Summary, now: int)
    requires v.script == [] && y.script == []
    requires p.id in v.store.plants && v.store.plants[p.id] == p && p.id in y.store.plants && y.store.plants[p.id] == p
    requires sum.created == more.created && sum.updated == more.updated
    requires ObservedOf(sum.deployment) == ObservedOf(more.deployment)
    ensures var (a, o), (b, q) := Finish(v, p, sum, now), Finish(y, p, more, now);
            && o == q && PlantView(a.store, p.id) == PlantView(b.store, p.id)
            && a.store.children == v.store.children && b.store.children == y.store.children
            && exists news :: Announced(v, a, news) && Announced(y, b, news)
  {
    var d := ObservedOf(sum.deployment);
    var decision, changes := StatusDecision(p, d, now), ChangeEvents(sum);
    CurrentStatusPass(v.(events := v.events + changes), p, d, now);
    CurrentStatusPass(y.(events := y.events + changes), p, d, now);
    var news := changes + EventsOf(decision);
    assert v.events + changes + EventsOf(decision) == v.events + news;
    assert y.events + changes + EventsOf(decision) == y.events + news;
    assert Announced(v, Finish(v, p, sum, now).0, news) && Announced(y, Finish(y, p, more, now).0, news);
  }

  lemma FailFromAlike(v: World, y: World, p: Plant, e: ChildError, now: int)
    requires v.script == [] && y.script == []
    requires p.id in v.store.plants && v.store.plants[p.id] == p && p.id in y.store.plants && y.store.plants[p.id] == p
    ensures var (a, o), (b, q) := Fail(v, p, e, now), Fail(y, p, e, now);
            && o == q && PlantView(a.store, p.id) == PlantView(b.store, p.id)
            && a.store.children == v.store.children && b.store.children == y.store.children
            && exists news :: Announced(v, a, news) && Announced(y, b, news)
  {
    if e.ConflictingResource? {
      BlockFromAlike(v, y, p, NameConflict, ConflictMessage(e.key, e.controller), now);
    } else {
      assert Announced(v, v, []) && Announced(y, y, []);
    }
  }

  lemma BlockFromAlike(v: World, y: World, p: Plant, reason: Reason, message: Message, now: int)
    requires v.script == [] && y.script == []
    requires p.id in v.store.plants && v.store.plants[p.id] == p && p.id in y.store.plants && y.store.plants[p.id] == p
    ensures var (a, o), (b, q) := MarkDegraded(v, p, reason, message, now), MarkDegraded(y, p, reason, message, now);
            && o == q == None && PlantView(a.store, p.id) == PlantView(b.store, p.id)
            && a.store.children == v.store.children && b.store.children == y.store.children
            && exists news :: Announced(v, a, news) && Announced(y, b, news)
  {
    CurrentBlockPass(v, p, reason, message, now);
    CurrentBlockPass(y, p, reason, message, now);
    var news := EventsOf(BlockDecision(p, reason, message, now));
    assert Announced(v, MarkDegraded(v, p, reason, message, now).0, news);
    assert Announced(y, MarkDegraded(y, p, reason, message, now).0, news);
  }

  lemma LiveFromSameStage(w: World, x: World, cached: bool, p: Plant, c: Call)
    requires LooksAlike(w, x, p)
    requires var (v, r) := ReconcileChildren(w, cached, p, c);
             var (y, t) := ReconcileChildren(x, cached, p, c);
             SamePair((v.store, r), (y.store, t), p)
    ensures SameEffect(w, ReconcileLive(w, cached, p, c), x, ReconcileLive(x, cached, p, c), p)
  {
    var (v, r) := ReconcileChildren(w, cached, p, c);
    var (y, t) := ReconcileChildren(x, cached, p, c);
    ChildrenStageFrame(w, cached, p, c);
    ChildrenStageFrame(x, cached, p, c);
    if r.Ok? {
      FinishFromAlike(v, y, p, r.value, t.value, c.now);
      SameChildrenSameEffect(w, ReconcileLive(w, cached, p, c), x, ReconcileLive(x, cached, p, c), v, y, p);
    } else {
      FailFromAlike(v, y, p, r.error, c.now);
      SameChildrenSameEffect(w, ReconcileLive(w, cached, p, c), x, ReconcileLive(x, cached, p, c), v, y, p);
    }
  }

  lemma SameChildrenSameEffect(w: World, a: (World, Outcome), x: World, b: (World, Outcome), v: World, y: World, p: Plant)
    requires v.events == w.events && y.events == x.events
    requires a.1 == b.1 && PlantView(a.0.store, p.id) == PlantView(b.0.store, p.id)
    requires a.0.store.children == v.store.children && b.0.store.children == y.store.children
    requires exists news :: Announced(v, a.0, news) && Announced(y, b.0, news)
    requires forall k: Kind :: Content(v.store, ChildKey(p, k)) == Content(y.store, ChildKey(p, k))
    ensures SameEffect(w, a, x, b, p)
  {
    var news :| Announced(v, a.0, news) && Announced(y, b.0, news);
    assert Announced(w, a.0, news) && Announced(x, b.0, news);
    forall k: Kind ensures Content(a.0.store, ChildKey(p, k)) == Content(b.0.store, ChildKey(p, k)) {
      assert Content(a.0.store, ChildKey(p, k)) == Content(v.store, ChildKey(p, k));
      assert Content(b.0.store, ChildKey(p, k)) == Content(y.store, ChildKey(p, k));
    }
  }

  // ----- when a pass does not care which of two worlds it starts from

  /** The pass goes as far as asking for the ServiceMonitor CRD. */
  predicate AsksForMonitor(w: World, cached: bool, p: Plant) {
    && !p.deleting && |p.id.name| <= MAX_PLANT_NAME_LENGTH
    && forall k: Kind :: k != ServiceMonitor ==> Applicable(w.store, cached, p, k)
  }

  /** Starting from the other deadline makes no difference to the pass. */
  ghost predicate Unaffected(w: World, until: int, cached: bool, p: Plant, c: Call) {
    || !AsksForMonitor(w, cached, p)
    || Available(w.until, c) == Available(until, c)
    || AtRest(w.store, p, ServiceMonitor)
  }

  lemma SixSucceedIff(w: World, cached: bool, p: Plant)
    ensures ApplyAll(w.store, cached, p, SIX, NOTHING).1.Ok?
       <==> forall k: Kind :: k != ServiceMonitor ==> Applicable(w.store, cached, p, k)
  {
    SixAreUnique();
    ApplyAllSucceedsIff(w.store, cached, p, SIX, NOTHING);
    SixByIndex(w.store, cached, p);
  }

  lemma SixKeepMonitorContent(w: World, cached: bool, p: Plant)
    requires StoreOk(w.store)
    ensures var s := ApplyAll(w.store, cached, p, SIX, NOTHING).0;
            && StoreOk(s) && Content(s, ChildKey(p, ServiceMonitor)) == Content(w.store, ChildKey(p, ServiceMonitor))
            && (AtRest(s, p, ServiceMonitor) <==> AtRest(w.store, p, ServiceMonitor))
  {
    SixSpareTheMonitor(w.store, cached, p);
    ApplyAllKeepsStoreOk(w.store, cached, p, SIX, NOTHING);
  }

  /** The stage from two worlds that differ in what the pass believes about the CRD. */
  lemma StageFromOtherDeadline(w: World, x: World, cached: bool, p: Plant, c: Call)
    requires LooksAlike(w, x, p) && AtRest(w.store, p, ServiceMonitor)
    ensures var (v, r) := ReconcileChildren(w, cached, p, c);
            var (y, t) := ReconcileChildren(x, cached, p, c);
            SamePair((v.store, r), (y.store, t), p)
  {
    var a, b := ApplyAll(w.store, cached, p, SIX, NOTHING), ApplyAll(x.store, cached, p, SIX, NOTHING);
    SixFromAlike(w, x, cached, p);
    SixKeepMonitorContent(w, cached, p);
    AtRestByContent(a.0, b.0, p, ServiceMonitor);
    MonitorAtRestIsNothing(a, cached, p);
    MonitorAtRestIsNothing(b, cached, p);
    StageIs(w, cached, p, c);
    StageIs(x, cached, p, c);
  }

  /** A pass that applies an unsettled ServiceMonitor and one that does not end apart. */
  lemma MonitorTellsApart(w: World, x: World, cached: bool, p: Plant, c: Call)
    requires LooksAlike(w, x, p) && AsksForMonitor(w, cached, p) && !AtRest(w.store, p, ServiceMonitor)
    requires Available(w.until, c) && !Available(x.until, c)
    ensures ReconcileLive(w, cached, p, c).1 != ReconcileLive(x, cached, p, c).1
         || Content(ReconcileLive(w, cached, p, c).0.store, ChildKey(p, ServiceMonitor))
            != Content(ReconcileLive(x, cached, p, c).0.store, ChildKey(p, ServiceMonitor))
  {
    var a, b := ApplyAll(w.store, cached, p, SIX, NOTHING), ApplyAll(x.store, cached, p, SIX, NOTHING);
    SixFromAlike(w, x, cached, p);
    SixSucceedIff(w, cached, p);
    SixKeepMonitorContent(w, cached, p);
    MonitorMakesADifference(a.0, a.1.value, cached, p);
    StageIs(w, cached, p, c);
    StageIs(x, cached, p, c);
    LiveEnds(w, cached, p, c);
    LiveEnds(x, cached, p, c);
  }

  /** With nobody else acting, a live pass requeues exactly if its stage succeeds, and
      leaves the children as the stage did. */
  lemma LiveEnds(w: World, cached: bool, p: Plant, c: Call)
    requires StoreOk(w.store) && w.script == [] && p.id in w.store.plants && w.store.plants[p.id] == p
    ensures var (v, r) := ReconcileChildren(w, cached, p, c);
            var (w', o) := ReconcileLive(w, cached, p, c);
            (o == Requeue <==> r.Ok?) && w'.store.children == v.store.children
  {
    var (v, r) := ReconcileChildren(w, cached, p, c);
    ChildrenStageFrame(w, cached, p, c);
    if r.Ok? {
      FinishFromAlike(v, v, p, r.value, r.value, c.now);
      CurrentStatusPass(v.(events := v.events + ChangeEvents(r.value)), p, ObservedOf(r.value.deployment), c.now);
    } else {
      FailFromAlike(v, v, p, r.error, c.now);
      FailNeverFinishes(v, p, r.error, c.now);
    }
  }

  lemma AlikeIsSymmetric(w: World, x: World, cached: bool, p: Plant)
    requires LooksAlike(w, x, p)
    ensures LooksAlike(x, w, p)
    ensures AsksForMonitor(w, cached, p) == AsksForMonitor(x, cached, p)
    ensures AtRest(w.store, p, ServiceMonitor) == AtRest(x.store, p, ServiceMonitor)
  {
    SixFromAlike(w, x, cached, p);
    SixSucceedIff(w, cached, p);
    SixSucceedIff(x, cached, p);
    if AtRest(w.store, p, ServiceMonitor) {
      AtRestByContent(w.store, x.store, p, ServiceMonitor);
    }
    if AtRest(x.store, p, ServiceMonitor) {
      AtRestByContent(x.store, w.store, p, ServiceMonitor);
    }
  }

  /** From two worlds that look alike for the Plant a pass comes to the same if and only if
      the difference between their deadlines does not affect it. */
  lemma SameEffectIff(w: World, x: World, cached: bool, p: Plant, c: Call)
    requires LooksAlike(w, x, p)
    ensures SameEffect(w, Reconcile(w, cached, p.id, c), x, Reconcile(x, cached, p.id, c), p)
       <==> Unaffected(w, x.until, cached, p, c)
  {
    PassCases(w, cached, p.id, c);
    PassCases(x, cached, p.id, c);
    if p.deleting {
      assert Announced(w, w, []) && Announced(x, x, []);
    } else if |p.id.name| > MAX_PLANT_NAME_LENGTH {
      BlockFromAlike(w, x, p, InvalidName, InvalidNameMessage(p), c.now);
      SameChildrenSameEffect(w, RejectName(w, p, c.now), x, RejectName(x, p, c.now), w, x, p);
    } else {
      LiveEffectIff(w, x, cached, p, c);
    }
  }

  lemma LiveEffectIff(w: World, x: World, cached: bool, p: Plant, c: Call)
    requires LooksAlike(w, x, p) && !p.deleting && |p.id.name| <= MAX_PLANT_NAME_LENGTH
    ensures SameEffect(w, ReconcileLive(w, cached, p, c), x, ReconcileLive(x, cached, p, c), p)
       <==> Unaffected(w, x.until, cached, p, c)
  {
    SixSucceedIff(w, cached, p);
    if !AsksForMonitor(w, cached, p) || Available(w.until, c) == Available(x.until, c) {
      StageFromAlike(w, x, cached, p, c);
      LiveFromSameStage(w, x, cached, p, c);
    } else if AtRest(w.store, p, ServiceMonitor) {
      StageFromOtherDeadline(w, x, cached, p, c);
      LiveFromSameStage(w, x, cached, p, c);
    } else if Available(w.until, c) {
      MonitorTellsApart(w, x, cached, p, c);
    } else {
      AlikeIsSymmetric(w, x, cached, p);
      MonitorTellsApart(x, w, cached, p, c);
    }
  }

  // ----- two Plants

  /** What a pass over one Plant leaves of the deadline. */
  function DeadlineAfter(w: World, cached: bool, q: Plant, c: Call): int {
    if AsksForMonitor(w, cached, q) then NextUntil(w.until, c) else w.until
  }

  /** A pass over another Plant leaves this one's world as it was, but for the deadline. */
  lemma OtherPassLooksAlike(w: World, cached: bool, p: Plant, q: Plant, c: Call)
    requires StoreOk(w.store) && w.script == [] && p.id != q.id
    requires p.id in w.store.plants && w.store.plants[p.id] == p && q.id in w.store.plants && w.store.plants[q.id] == q
    ensures var x := Reconcile(w, cached, q.id, c).0;
            LooksAlike(w, x, p) && x.until == DeadlineAfter(w, cached, q, c)
  {
    PassCases(w, cached, q.id, c);
    if !q.deleting {
      if |q.id.name| > MAX_PLANT_NAME_LENGTH {
        CurrentBlockPass(w, q, InvalidName, InvalidNameMessage(q), c.now);
        ActedLooksAlike(w, w, p, q, BlockDecision(q, InvalidName, InvalidNameMessage(q), c.now), w.events);
      } else {
        OtherLivePass(w, cached, p, q, c);
      }
    }
  }

  /** Writing one Plant's status shows nothing to another. */
  lemma ActedLooksAlike(w: World, v: World, p: Plant, q: Plant, d: Decision, events: seq<Event>)
    requires StoreOk(w.store) && w.script == [] && p.id != q.id
    requires p.id in w.store.plants && w.store.plants[p.id] == p && q.id in w.store.plants && w.store.plants[q.id] == q
    requires StoreOk(v.store) && v.script == [] && v.store.plants == w.store.plants
    requires forall k: Kind :: Content(w.store, ChildKey(p, k)) == Content(v.store, ChildKey(p, k))
    ensures LooksAlike(w, Acted(v.(events := events), q, d), p)
  {
    CarriedFacts(v.store, q, d);
    var t := Carried(v.store, q, d);
    assert t.plants[p.id] == p;
    forall k: Kind ensures Content(w.store, ChildKey(p, k)) == Content(t, ChildKey(p, k)) {
      assert Content(v.store, ChildKey(p, k)) == Content(t, ChildKey(p, k));
    }
  }

  lemma OtherStage(w: World, cached: bool, p: Plant, q: Plant, c: Call)
    requires StoreOk(w.store) && p.id != q.id
    ensures var v := ReconcileChildren(w, cached, q, c).0;
            forall k: Kind :: Content(w.store, ChildKey(p, k)) == Content(v.store, ChildKey(p, k))
  {
    var v := ReconcileChildren(w, cached, q, c).0;
    var s1 := ApplyAll(w.store, cached, q, SIX, NOTHING).0;
    forall k: Kind ensures Content(w.store, ChildKey(p, k)) == Content(v.store, ChildKey(p, k)) {
      PassSparesOtherPlants(w.store, cached, q, p, SIX, NOTHING, k);
      ContentFrame(w.store, s1, ChildKey(p, k));
      ChildKeysAreDisjoint(p, q, k, ServiceMonitor);
      ApplyChildFrame(s1, cached, q, ServiceMonitor);
      ContentFrame(s1, ApplyChild(s1, cached, q, ServiceMonitor).0, ChildKey(p, k));
    }
  }

  lemma StageDeadline(w: World, cached: bool, q: Plant, c: Call)
    requires !q.deleting && |q.id.name| <= MAX_PLANT_NAME_LENGTH
    ensures ReconcileChildren(w, cached, q, c).0.until == DeadlineAfter(w, cached, q, c)
  {
    SixSucceedIff(w, cached, q);
  }

  lemma OtherLivePass(w: World, cached: bool, p: Plant, q: Plant, c: Call)
    requires StoreOk(w.store) && w.script == [] && p.id != q.id && !q.deleting && |q.id.name| <= MAX_PLANT_NAME_LENGTH
    requires p.id in w.store.plants && w.store.plants[p.id] == p && q.id in w.store.plants && w.store.plants[q.id] == q
    ensures var x := ReconcileLive(w, cached, q, c).0;
            LooksAlike(w, x, p) && x.until == DeadlineAfter(w, cached, q, c)
  {
    var (v, r) := ReconcileChildren(w, cached, q, c);
    ChildrenStageFrame(w, cached, q, c);
    OtherStage(w, cached, p, q, c);
    StageDeadline(w, cached, q, c);
    match r
    case Ok(sum) =>
      var events, d := v.events + ChangeEvents(sum), ObservedOf(sum.deployment);
      CurrentStatusPass(v.(events := events), q, d, c.now);
      ActedLooksAlike(w, v, p, q, StatusDecision(q, d, c.now), events);
    case Err(e) =>
      if e.ConflictingResource? {
        var message := ConflictMessage(e.key, e.controller);
        CurrentBlockPass(v, q, NameConflict, message, c.now);
        ActedLooksAlike(w, v, p, q, BlockDecision(q, NameConflict, message, c.now), v.events);
      }
  }

  /** Two whole passes over different Plants come to the same in either order, statuses and
      events included, if and only if neither is affected by the deadline the other leaves. */
  lemma WholePassesCommuteIff(w: World, cached: bool, p: Plant, q: Plant, cp: Call, cq: Call)
    requires StoreOk(w.store) && w.script == [] && p.id != q.id
    requires p.id in w.store.plants && w.store.plants[p.id] == p && q.id in w.store.plants && w.store.plants[q.id] == q
    ensures var wp, wq := Reconcile(w, cached, p.id, cp).0, Reconcile(w, cached, q.id, cq).0;
            (SameEffect(w, Reconcile(w, cached, p.id, cp), wq, Reconcile(wq, cached, p.id, cp), p)
             && SameEffect(w, Reconcile(w, cached, q.id, cq), wp, Reconcile(wp, cached, q.id, cq), q))
            <==> Unaffected(w, DeadlineAfter(w, cached, q, cq), cached, p, cp)
                 && Unaffected(w, DeadlineAfter(w, cached, p, cp), cached, q, cq)
  {
    var wp, wq := Reconcile(w, cached, p.id, cp).0, Reconcile(w, cached, q.id, cq).0;
    OtherPassLooksAlike(w, cached, p, q, cq);
    OtherPassLooksAlike(w, cached, q, p, cp);
    SameEffectIff(w, wq, cached, p, cp);
    SameEffectIff(w, wp, cached, q, cq);
  }

  /** In particular passes at one instant that find the same commute. */
  lemma SimultaneousPassesCommute(w: World, cached: bool, p: Plant, q: Plant, c: Call)
    requires StoreOk(w.store) && w.script == [] && p.id != q.id
    requires p.id in w.store.plants && w.store.plants[p.id] == p && q.id in w.store.plants && w.store.plants[q.id] == q
    ensures var wp, wq := Reconcile(w, cached, p.id, c).0, Reconcile(w, cached, q.id, c).0;
            && SameEffect(w, Reconcile(w, cached, p.id, c), wq, Reconcile(wq, cached, p.id, c), p)
            && SameEffect(w, Reconcile(w, cached, q.id, c), wp, Reconcile(wp, cached, q.id, c), q)
  {
    assert Unaffected(w, DeadlineAfter(w, cached, q, c), cached, p, c);
    assert Unaffected(w, DeadlineAfter(w, cached, p, c), cached, q, c);
    WholePassesCommuteIff(w, cached, p, q, c, c);
  }
}
