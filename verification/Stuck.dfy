/** A Plant stuck on a naming conflict (plant_controller.go). */
module Stuck {
  import opened Wrappers
  import opened Objects
  import opened ApiServer
  import opened Resources
  import opened Children
  import opened MonitorProbe
  import opened Status
  import opened ReconcilePass
  import opened Silence

  // ----- the conflict comes back unchanged

  lemma RefusalElsewhere(s: Store, t: Store, cached: bool, p: Plant, q: Plant, kind: Kind)
    requires SameChildren(s, t) && SameDesire(p, q)
    requires ApplyChild(s, cached, p, kind).1.Err? && ApplyChild(s, cached, p, kind).1.error.ConflictingResource?
    ensures ApplyChild(s, cached, p, kind).0 == s
    ensures ApplyChild(t, cached, q, kind) == (t, ApplyChild(s, cached, p, kind).1)
  {
  }

  /** After a pass over the children, an apply of the first one requests nothing. */
  lemma FirstChildIsQuiet(s: Store, t: Store, cached: bool, p: Plant, q: Plant, kinds: seq<Kind>, a: Summary)
    requires StoreOk(s) && UniqueKinds(kinds) && SameDesire(p, q)
    requires kinds != [] && ApplyChild(s, cached, p, kinds[0]).1.Ok?
    requires SameChildren(ApplyAll(s, cached, p, kinds, a).0, t)
    ensures ApplyChild(t, cached, q, kinds[0]).0 == t && ApplyChild(t, cached, q, kinds[0]).1.Ok?
  {
    var s1 := ApplyChild(s, cached, p, kinds[0]).0;
    ApplyChildConverges(s, cached, p, kinds[0]);
    FirstChildStays(s, cached, p, kinds, a);
    AtRestElsewhere(s1, t, p, q, kinds[0]);
    AtRestIsQuiet(t, cached, q, kinds[0]);
  }

  /** A pass over the children that ended on a conflict ends on the same conflict again,
      this time without a single request. */
  lemma {:induction false} ConflictRecurs(s: Store, t: Store, cached: bool, p: Plant, q: Plant, kinds: seq<Kind>, a: Summary, b: Summary)
    requires StoreOk(s) && UniqueKinds(kinds) && SameDesire(p, q)
    requires ApplyAll(s, cached, p, kinds, a).1.Err? && ApplyAll(s, cached, p, kinds, a).1.error.ConflictingResource?
    requires SameChildren(ApplyAll(s, cached, p, kinds, a).0, t)
    ensures ApplyAll(t, cached, q, kinds, b) == (t, Err(ApplyAll(s, cached, p, kinds, a).1.error))
    decreases |kinds|
  {
    var (s1, r) := ApplyChild(s, cached, p, kinds[0]);
    if r.Err? {
      RefusalElsewhere(s, t, cached, p, q, kinds[0]);
    } else {
      FirstChildIsQuiet(s, t, cached, p, q, kinds, a);
      ApplyChildFrame(s, cached, p, kinds[0]);
      var r2 := ApplyChild(t, cached, q, kinds[0]).1;
      ConflictRecurs(s1, t, cached, p, q, kinds[1..], Note(a, kinds[0], r.value), Note(b, kinds[0], r2.value));
    }
  }

  /** The world after a pass that ended on a conflict: the children stage, then at most
      one status write with one event. */
  lemma ConflictPass(w: World, cached: bool, id: PlantId, c: Call, e: ChildError)
    requires StoreOk(w.store) && w.script == []
    requires Reconcile(w, cached, id, c).1 == Failed(ChildFailed(e)) && e.ConflictingResource?
    ensures id in w.store.plants && !w.store.plants[id].deleting
    ensures |w.store.plants[id].id.name| <= MAX_PLANT_NAME_LENGTH
    ensures var p := w.store.plants[id];
            var (v, r) := ReconcileChildren(w, cached, p, c);
            && r == Err(e) && StoreOk(v.store) && v.store.plants == w.store.plants && v.script == []
            && v.events == w.events
            && Reconcile(w, cached, id, c).0
               == Acted(v, p, BlockDecision(p, NameConflict, ConflictMessage(e.key, e.controller), c.now))
  {
    PassCases(w, cached, id, c);
    if id in w.store.plants {
      RejectionIsNoConflict(w, w.store.plants[id], c.now);
      LiveConflictPass(w, cached, w.store.plants[id], c, e);
    }
  }

  lemma RejectionIsNoConflict(w: World, p: Plant, now: int)
    ensures RejectName(w, p, now).1.Failed? ==> RejectName(w, p, now).1.error.StatusFailed?
  {
  }

  lemma LiveConflictPass(w: World, cached: bool, p: Plant, c: Call, e: ChildError)
    requires StoreOk(w.store) && w.script == [] && p.id in w.store.plants && w.store.plants[p.id] == p
    ensures ReconcileLive(w, cached, p, c).1 == Failed(ChildFailed(e)) && e.ConflictingResource? ==>
              var (v, r) := ReconcileChildren(w, cached, p, c);
              && r == Err(e) && StoreOk(v.store) && v.store.plants == w.store.plants && v.script == []
              && v.events == w.events
              && ReconcileLive(w, cached, p, c).0
                 == Acted(v, p, BlockDecision(p, NameConflict, ConflictMessage(e.key, e.controller), c.now))
  {
    var (v, r) := ReconcileChildren(w, cached, p, c);
    ChildrenStageFrame(w, cached, p, c);
    if ReconcileLive(w, cached, p, c).1 == Failed(ChildFailed(e)) && e.ConflictingResource? {
      if r.Err? {
        FailedWith(v, p, r.error, e, c.now);
      } else {
        FinishNeverFailsOnAChild(v, p, r.value, c.now);
      }
    }
  }

  lemma FailedWith(v: World, p: Plant, error: ChildError, e: ChildError, now: int)
    requires v.script == [] && p.id in v.store.plants && v.store.plants[p.id] == p
    requires Fail(v, p, error, now).1 == Failed(ChildFailed(e)) && e.ConflictingResource?
    ensures error == e
    ensures Fail(v, p, error, now).0
         == Acted(v, p, BlockDecision(p, NameConflict, ConflictMessage(e.key, e.controller), now))
  {
    CurrentBlockPass(v, p, NameConflict, ConflictMessage(e.key, e.controller), now);
  }

  lemma FinishNeverFailsOnAChild(v: World, p: Plant, sum: Summary, now: int)
    ensures Finish(v, p, sum, now).1.Failed? ==> !Finish(v, p, sum, now).1.error.ChildFailed?
  {
  }

  lemma BlockedForGood(p: Plant, e: ChildError, now: int, q: Plant)
    requires e.ConflictingResource? && q.generation == p.generation
    requires q.status == Stored(p.status, BlockDecision(p, NameConflict, ConflictMessage(e.key, e.controller), now))
    ensures BlockQuiet(q, e)
  {
    var message := ConflictMessage(e.key, e.controller);
    forall t ensures BlockDecision(q, NameConflict, message, t) == Skip {
      BlockSettles(p, NameConflict, message, now, t, q);
    }
  }

  /** After the first pass that met it, an unchanged naming conflict causes no further
      request and no further event, however often and whenever the Plant is retried. */
  lemma ConflictIsReportedOnce(w: World, cached: bool, id: PlantId, c: Call, e: ChildError)
    requires StoreOk(w.store) && w.script == []
    requires Reconcile(w, cached, id, c).1 == Failed(ChildFailed(e)) && e.ConflictingResource?
    ensures SilentForever(Reconcile(w, cached, id, c).0, cached, id, c.found)
  {
    ConflictPass(w, cached, id, c, e);
    var p := w.store.plants[id];
    var (v, r) := ReconcileChildren(w, cached, p, c);
    var decision := BlockDecision(p, NameConflict, ConflictMessage(e.key, e.controller), c.now);
    CarriedFacts(v.store, p, decision);
    var w1 := Acted(v, p, decision);
    var q := w1.store.plants[id];
    BlockedForGood(p, e, c.now, q);
    SixAreUnique();
    if ApplyAll(w.store, cached, p, SIX, NOTHING).1.Err? {
      ConflictRecurs(w.store, w1.store, cached, p, q, SIX, NOTHING, NOTHING);
    } else {
      MonitorConflictIsQuiet(w, cached, p, c, e, w1, q);
    }
    assert QuietLive(w1, cached, q, c.found);
    QuietIsSilentForever(w1, cached, id, c.found);
  }

  lemma MonitorConflictIsQuiet(w: World, cached: bool, p: Plant, c: Call, e: ChildError, w1: World, q: Plant)
    requires StoreOk(w.store) && e.ConflictingResource? && SameDesire(p, q)
    requires ApplyAll(w.store, cached, p, SIX, NOTHING).1.Ok?
    requires ReconcileChildren(w, cached, p, c).1 == Err(e)
    requires SameChildren(ReconcileChildren(w, cached, p, c).0.store, w1.store) && StoreOk(w1.store)
    requires w1.until == NextUntil(w.until, c)
    requires BlockQuiet(q, e)
    ensures QuietLive(w1, cached, q, c.found)
  {
    var s1 := ApplyAll(w.store, cached, p, SIX, NOTHING).0;
    RefusalElsewhere(s1, w1.store, cached, p, q, ServiceMonitor);
    SixRestElsewhere(w.store, w1.store, cached, p, q);
    RefusedMonitorIsQuiet(w1, cached, q, c, e);
  }

  lemma SixRestElsewhere(s: Store, t: Store, cached: bool, p: Plant, q: Plant)
    requires StoreOk(s) && SameDesire(p, q) && ApplyAll(s, cached, p, SIX, NOTHING).1.Ok?
    requires SameChildren(ApplyAll(s, cached, p, SIX, NOTHING).0, t)
    ensures forall k :: k in SIX ==> AtRest(t, q, k)
  {
    var s1 := ApplyAll(s, cached, p, SIX, NOTHING).0;
    forall k | k in SIX ensures AtRest(t, q, k) {
      SixConverge(s, cached, p, k);
      AtRestElsewhere(s1, t, p, q, k);
    }
  }

  lemma RefusedMonitorIsQuiet(w: World, cached: bool, q: Plant, c: Call, e: ChildError)
    requires StoreOk(w.store) && (forall k :: k in SIX ==> AtRest(w.store, q, k)) && BlockQuiet(q, e)
    requires c.found && w.until == 0
    requires ApplyChild(w.store, cached, q, ServiceMonitor) == (w.store, Err(e))
    ensures QuietLive(w, cached, q, c.found)
  {
    SixAtRest(w.store, cached, q);
  }

  function StatusWriteCount(calls: seq<WriteCall>): nat {
    if calls == [] then 0
    else StatusWriteCount(calls[..|calls| - 1]) + if calls[|calls| - 1].StatusCall? then 1 else 0
  }

  lemma OneMoreCall(calls: seq<WriteCall>, c: WriteCall)
    ensures StatusWriteCount(calls + [c]) == StatusWriteCount(calls) + if c.StatusCall? then 1 else 0
  {
    assert (calls + [c])[..|calls + [c]| - 1] == calls;
  }

  lemma ChildMakesNoStatusWrite(s: Store, cached: bool, p: Plant, kind: Kind)
    ensures StatusWriteCount(ApplyChild(s, cached, p, kind).0.calls) == StatusWriteCount(s.calls)
  {
    OneMoreCall(s.calls, CreateCall(ChildKey(p, kind)));
    OneMoreCall(s.calls, UpdateCall(ChildKey(p, kind)));
  }

  lemma {:induction false} ChildrenMakeNoStatusWrite(s: Store, cached: bool, p: Plant, kinds: seq<Kind>, sum: Summary)
    ensures StatusWriteCount(ApplyAll(s, cached, p, kinds, sum).0.calls) == StatusWriteCount(s.calls)
    decreases |kinds|
  {
    if kinds != [] {
      ChildMakesNoStatusWrite(s, cached, p, kinds[0]);
      var (s1, r) := ApplyChild(s, cached, p, kinds[0]);
      if r.Ok? {
        ChildrenMakeNoStatusWrite(s1, cached, p, kinds[1..], Note(sum, kinds[0], r.value));
      }
    }
  }

  /** Over the conflicting pass and all later retries together: at most one status write
      and at most one event, a PlantBlocked. */
  lemma StuckPlantIsWrittenOnce(w: World, cached: bool, id: PlantId, c: Call, e: ChildError, retries: seq<Call>)
    requires StoreOk(w.store) && w.script == []
    requires Reconcile(w, cached, id, c).1 == Failed(ChildFailed(e)) && e.ConflictingResource?
    requires AllFound(retries, c.found)
    ensures var w' := Passes(Reconcile(w, cached, id, c).0, cached, id, retries);
            && StatusWriteCount(w'.store.calls) <= StatusWriteCount(w.store.calls) + 1
            && (w'.events == w.events || w'.events == w.events + [PlantBlocked(ConflictMessage(e.key, e.controller))])
  {
    ConflictIsReportedOnce(w, cached, id, c, e);
    assert SilentOver(Reconcile(w, cached, id, c).0, cached, id, retries);
    ConflictPassCounts(w, cached, id, c, e);
  }

  lemma ConflictPassCounts(w: World, cached: bool, id: PlantId, c: Call, e: ChildError)
    requires StoreOk(w.store) && w.script == []
    requires Reconcile(w, cached, id, c).1 == Failed(ChildFailed(e)) && e.ConflictingResource?
    ensures var w' := Reconcile(w, cached, id, c).0;
            && StatusWriteCount(w'.store.calls) <= StatusWriteCount(w.store.calls) + 1
            && (w'.events == w.events || w'.events == w.events + [PlantBlocked(ConflictMessage(e.key, e.controller))])
  {
    ConflictPass(w, cached, id, c, e);
    var p := w.store.plants[id];
    ChildrenMakeNoStatusWrite(w.store, cached, p, SIX, NOTHING);
    ChildMakesNoStatusWrite(ApplyAll(w.store, cached, p, SIX, NOTHING).0, cached, p, ServiceMonitor);
    var v := ReconcileChildren(w, cached, p, c).0;
    OneMoreCall(v.store.calls, StatusCall(p.id));
  }
}
