/** No user edit is lost over a whole reconcile pass, whichever of its two ways of writing a
    status it takes (plant_controller.go). */
module UserEdits {
  import opened Objects
  import opened ApiServer
  import opened Children
  import opened MonitorProbe
  import opened Status
  import opened StatusWrites
  import opened ReconcilePass

  /** But for status and version, this Plant is as if only the users had acted. */
  predicate OnlyUsersActed(w: World, w': World, id: PlantId) {
    UserView(w'.store, id) == UserView(ApplyEdits(w.store, id, LandedBefore(w.script, w'.script)), id)
  }

  lemma NothingLanded(w: World, w': World, id: PlantId)
    requires w'.script == w.script && w'.store.plants == w.store.plants
    ensures OnlyUsersActed(w, w', id)
  {
    assert w.script[..0] == [];
  }

  /** What was written to children in between does not matter to the Plant. */
  lemma AfterChildren(w: World, v: World, w': World, id: PlantId)
    requires v.store.plants == w.store.plants && v.script == w.script
    requires OnlyUsersActed(v, w', id)
    ensures OnlyUsersActed(w, w', id)
  {
    EditsRespectView(v.store, w.store, id, LandedBefore(w.script, w'.script));
  }

  /** markDegraded's single attempt: a write that loses the race is not repeated, and one
      that wins stores the decided status. */
  lemma BlockKeepsUserEdits(w: World, p: Plant, reason: Reason, message: Message, now: int)
    ensures var (w', err) := MarkDegraded(w, p, reason, message, now);
            && OnlyUsersActed(w, w', p.id)
            && (BlockDecision(p, reason, message, now).Write? && err.None? ==>
                  p.id in w'.store.plants
                  && w'.store.plants[p.id].status == MarkedDegraded(p, reason, message, now))
  {
    var w' := MarkDegraded(w, p, reason, message, now).0;
    if BlockDecision(p, reason, message, now).Skip? {
      NothingLanded(w, w', p.id);
    } else {
      FirstTurnOnly(w.script);
    }
  }

  lemma StatusKeepsUserEdits(w: World, p: Plant, d: Observed, now: int)
    requires forall id :: id in w.store.plants ==> w.store.plants[id].id == id
    ensures OnlyUsersActed(w, ReconcileStatus(w, p, d, now).0, p.id)
  {
    match StatusDecision(p, d, now)
    case Skip => NothingLanded(w, ReconcileStatus(w, p, d, now).0, p.id);
    case Write(status, _) => UserEditsSurvive(w.store, w.script, p, status, RETRY_STEPS);
  }

  lemma FailKeepsUserEdits(w: World, p: Plant, e: ChildError, now: int)
    ensures OnlyUsersActed(w, Fail(w, p, e, now).0, p.id)
  {
    if e.ConflictingResource? {
      BlockKeepsUserEdits(w, p, NameConflict, ConflictMessage(e.key, e.controller), now);
    } else {
      NothingLanded(w, w, p.id);
    }
  }

  lemma FinishKeepsUserEdits(w: World, p: Plant, sum: Summary, now: int)
    requires forall id :: id in w.store.plants ==> w.store.plants[id].id == id
    ensures OnlyUsersActed(w, Finish(w, p, sum, now).0, p.id)
  {
    StatusKeepsUserEdits(w.(events := w.events + ChangeEvents(sum)), p, ObservedOf(sum.deployment), now);
  }

  lemma LivePassKeepsUserEdits(w: World, cached: bool, p: Plant, c: Call)
    requires StoreOk(w.store)
    ensures OnlyUsersActed(w, ReconcileLive(w, cached, p, c).0, p.id)
  {
    var (v, r) := ReconcileChildren(w, cached, p, c);
    ChildrenStageFrame(w, cached, p, c);
    if r.Err? {
      FailKeepsUserEdits(v, p, r.error, c.now);
    } else {
      FinishKeepsUserEdits(v, p, r.value, c.now);
    }
    AfterChildren(w, v, ReconcileLive(w, cached, p, c).0, p.id);
  }

  /** Over any pass, whatever it decides and whatever users do meanwhile, the Plant ends as
      the users' edits alone would have left it, but for status and version. */
  lemma PassKeepsUserEdits(w: World, cached: bool, id: PlantId, c: Call)
    requires StoreOk(w.store)
    ensures OnlyUsersActed(w, Reconcile(w, cached, id, c).0, id)
  {
    PassCases(w, cached, id, c);
    if id !in w.store.plants || w.store.plants[id].deleting {
      NothingLanded(w, w, id);
    } else {
      var p := w.store.plants[id];
      LivePassKeepsUserEdits(w, cached, p, c);
      BlockKeepsUserEdits(w, p, InvalidName, InvalidNameMessage(p), c.now);
    }
  }
}
