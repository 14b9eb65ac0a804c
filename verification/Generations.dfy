/** When a status write leaves observedGeneration ahead of the Plant's generation: exactly
    when the Plant was deleted and recreated while the write was being retried, and the new
    one has not changed often enough since (reconcileStatus in plant_controller.go). */
module Generations {
  import opened Wrappers
  import opened Objects
  import opened ApiServer
  import opened StatusWrites

  // ----- what users make of a Plant, seen without versions or status

  /** `changes` counts the effective spec changes since the start, or since the Plant was
      last created. */
  datatype Life = Life(present: bool, recreated: bool, changes: nat, spec: PlantSpec)

  function LifeOf(p: Plant): Life {
    Life(true, false, 0, p.spec)
  }

  function Lived(l: Life, e: PlantEdit): Life {
    match e
    case EditSpec(spec) => if l.present && spec != l.spec then l.(changes := l.changes + 1, spec := spec) else l
    case EditMetadata(_) => l
    case Delete => l.(present := false)
    case Create(_, spec) => if l.present then l else Life(true, true, 0, spec)
  }

  function LivedThrough(l: Life, es: seq<PlantEdit>): Life
    decreases |es|
  {
    if es == [] then l else LivedThrough(Lived(l, es[0]), es[1..])
  }

  /** A turn that leaves an existing Plant as it is: creating it again is refused. */
  predicate Idle(es: seq<PlantEdit>) {
    forall e :: e in es ==> e.Create?
  }

  /** The Plant as the accepted write finds it, if a write is accepted within `steps`
      attempts: the first attempt before which nothing happens gets through, unless the
      Plant is missing when it is written or read before that. */
  function AtWrite(l: Life, script: seq<seq<PlantEdit>>, steps: nat): Option<Life>
    decreases steps
  {
    if steps == 0 then None
    else if Idle(EditsAt(script, 0)) then Some(l)
    else
      var l1 := LivedThrough(l, EditsAt(script, 0));
      var l2 := LivedThrough(l1, EditsAt(script, 1));
      if l1.present && l2.present then AtWrite(l2, Rest(script, 2), steps - 1) else None
  }

  function GenerationOf(l: Life, start: int): int {
    (if l.recreated then 1 else start) + l.changes
  }

  // ----- the retried write follows it

  /** The stored Plant has lived this life since it had generation `start`. */
  ghost predicate Matches(s: Store, id: PlantId, l: Life, start: int) {
    && (id in s.plants <==> l.present)
    && (l.present ==> s.plants[id].spec == l.spec && s.plants[id].generation == GenerationOf(l, start))
  }

  lemma {:induction false} EditsMatch(s: Store, id: PlantId, es: seq<PlantEdit>, l: Life, start: int)
    requires Matches(s, id, l, start)
    ensures Matches(ApplyEdits(s, id, es), id, LivedThrough(l, es), start)
    decreases |es|
  {
    if es != [] {
      EditMatches(s, id, es[0], l, start);
      EditsMatch(ApplyEdit(s, id, es[0]), id, es[1..], Lived(l, es[0]), start);
    }
  }

  lemma EditMatches(s: Store, id: PlantId, e: PlantEdit, l: Life, start: int)
    requires Matches(s, id, l, start)
    ensures Matches(ApplyEdit(s, id, e), id, Lived(l, e), start)
  {
  }

  lemma {:induction false} EditsKeepPlantsOk(s: Store, id: PlantId, es: seq<PlantEdit>)
    requires PlantsOk(s)
    ensures PlantsOk(ApplyEdits(s, id, es)) && ApplyEdits(s, id, es).next >= s.next
    decreases |es|
  {
    if es != [] {
      EditsKeepPlantsOk(ApplyEdit(s, id, es[0]), id, es[1..]);
    }
  }

  lemma {:induction false} IdleTurn(s: Store, id: PlantId, es: seq<PlantEdit>)
    requires id in s.plants && Idle(es)
    ensures ApplyEdits(s, id, es) == s
    decreases |es|
  {
    if es != [] {
      assert es[0] in es;
      IdleTurn(s, id, es[1..]);
    }
  }

  /** The Plant is missing, or its version is one of those handed out since `base`. */
  ghost predicate NewerThan(s: Store, id: PlantId, base: nat) {
    base <= s.next && (id in s.plants ==> base <= s.plants[id].resourceVersion)
  }

  lemma {:induction false} NewerStaysNewer(s: Store, id: PlantId, es: seq<PlantEdit>, base: nat)
    requires NewerThan(s, id, base)
    ensures NewerThan(ApplyEdits(s, id, es), id, base)
    decreases |es|
  {
    if es != [] {
      NewerStaysNewer(ApplyEdit(s, id, es[0]), id, es[1..], base);
    }
  }

  lemma {:induction false} BusyTurn(s: Store, id: PlantId, es: seq<PlantEdit>)
    requires id in s.plants && !Idle(es)
    ensures NewerThan(ApplyEdits(s, id, es), id, s.next)
    decreases |es|
  {
    if es[0].Create? {
      assert !Idle(es[1..]);
      BusyTurn(s, id, es[1..]);
    } else {
      NewerStaysNewer(ApplyEdit(s, id, es[0]), id, es[1..], s.next);
    }
  }

  /** For every script, the write is accepted exactly when the users' side of the story
      says so, and then stores the decided status on the Plant of that story. */
  lemma {:induction false} WriteFollowsLife(s: Store, script: seq<seq<PlantEdit>>, p: Plant, status: PlantStatus,
                                            steps: nat, l: Life, start: int)
    requires PlantsOk(s) && p.id in s.plants && s.plants[p.id].resourceVersion == p.resourceVersion
    requires Matches(s, p.id, l, start)
    ensures var r, found := RetryStatusWrite(s, script, p, status, steps), AtWrite(l, script, steps);
            && (r.outcome.Ok? <==> found.Some?)
            && (r.outcome.Ok? ==> r.outcome.value.status == status
                                  && r.outcome.value.generation == GenerationOf(found.value, start)
                                  && p.id in r.store.plants && r.store.plants[p.id] == r.outcome.value)
    decreases steps
  {
    if steps > 0 {
      var s0 := ApplyEdits(s, p.id, EditsAt(script, 0));
      if Idle(EditsAt(script, 0)) {
        IdleTurn(s, p.id, EditsAt(script, 0));
      } else {
        BusyTurn(s, p.id, EditsAt(script, 0));
        EditsKeepPlantsOk(s, p.id, EditsAt(script, 0));
        EditsMatch(s, p.id, EditsAt(script, 0), l, start);
        BusyAttempt(s0, script, p, status, steps, LivedThrough(l, EditsAt(script, 0)), start);
      }
    }
  }

  /** An attempt whose update finds the Plant changed or missing. */
  lemma {:induction false} BusyAttempt(s0: Store, script: seq<seq<PlantEdit>>, p: Plant, status: PlantStatus,
                                       steps: nat, l1: Life, start: int)
    requires steps > 0 && PlantsOk(s0) && Matches(s0, p.id, l1, start)
    requires p.id in s0.plants ==> s0.plants[p.id].resourceVersion != p.resourceVersion
    ensures var (s1, u) := UpdateStatus(s0, p.(status := status));
            var s2 := ApplyEdits(s1, p.id, EditsAt(script, 1));
            var l2 := LivedThrough(l1, EditsAt(script, 1));
            && u == (if l1.present then Err(Conflict) else Err(NotFound))
            && (l1.present ==> (p.id in s2.plants <==> l2.present))
            && (l1.present && l2.present ==>
                  var r, found := RetryStatusWrite(s2, Rest(script, 2), s2.plants[p.id], status, steps - 1),
                                  AtWrite(l2, Rest(script, 2), steps - 1);
                  && (r.outcome.Ok? <==> found.Some?)
                  && (r.outcome.Ok? ==> r.outcome.value.status == status
                                        && r.outcome.value.generation == GenerationOf(found.value, start)
                                        && p.id in r.store.plants && r.store.plants[p.id] == r.outcome.value))
    decreases steps, 0
  {
    var s1 := UpdateStatus(s0, p.(status := status)).0;
    if l1.present {
      var s2 := ApplyEdits(s1, p.id, EditsAt(script, 1));
      EditsMatch(s1, p.id, EditsAt(script, 1), l1, start);
      EditsKeepPlantsOk(s1, p.id, EditsAt(script, 1));
      if p.id in s2.plants {
        WriteFollowsLife(s2, Rest(script, 2), s2.plants[p.id], status, steps - 1,
                         LivedThrough(l1, EditsAt(script, 1)), start);
      }
    }
  }

  // ----- when it ends up ahead

  /** The write is accepted and stores an observedGeneration the Plant has not reached. */
  ghost predicate PutsAhead(s: Store, script: seq<seq<PlantEdit>>, p: Plant, status: PlantStatus, steps: nat) {
    var r := RetryStatusWrite(s, script, p, status, steps);
    r.outcome.Ok? && r.outcome.value.status.observedGeneration > r.outcome.value.generation
  }

  /** The edits that land before the accepted write delete and recreate the Plant, and then
      change its spec too seldom to reach `decided` again. */
  predicate RecreatedBelow(p: Plant, script: seq<seq<PlantEdit>>, steps: nat, decided: int) {
    var l := AtWrite(LifeOf(p), script, steps);
    l.Some? && l.value.recreated && 1 + l.value.changes < decided
  }

  /** For every script: with a current read the write ends up ahead if and only if the
      script deletes and recreates the Plant and then changes its spec too seldom. */
  lemma AheadIffRecreatedBelow(s: Store, script: seq<seq<PlantEdit>>, p: Plant, status: PlantStatus, steps: nat)
    requires PlantsOk(s) && p.id in s.plants && s.plants[p.id] == p
    requires status.observedGeneration == p.generation
    ensures PutsAhead(s, script, p, status, steps) <==> RecreatedBelow(p, script, steps, p.generation)
  {
    WriteFollowsLife(s, script, p, status, steps, LifeOf(p), p.generation);
  }

  /** The same for any decided value, which may be ahead to begin with. */
  lemma AheadIff(s: Store, script: seq<seq<PlantEdit>>, p: Plant, status: PlantStatus, steps: nat)
    requires PlantsOk(s) && p.id in s.plants && s.plants[p.id] == p
    ensures PutsAhead(s, script, p, status, steps)
       <==> var l := AtWrite(LifeOf(p), script, steps);
            l.Some? && GenerationOf(l.value, p.generation) < status.observedGeneration
  {
    WriteFollowsLife(s, script, p, status, steps, LifeOf(p), p.generation);
  }

  /** Deleted and recreated between the read and the first update. */
  function Recreation(p: Plant): seq<seq<PlantEdit>> {
    [[Delete, Create(p.uid + "'", p.spec)]]
  }

  lemma RecreationLife(p: Plant, steps: nat)
    requires steps >= 2
    ensures AtWrite(LifeOf(p), Recreation(p), steps) == Some(Life(true, true, 0, p.spec))
    ensures FreshUids(Recreation(p), p.uid)
  {
    var script, es := Recreation(p), [Delete, Create(p.uid + "'", p.spec)];
    assert EditsAt(script, 0) == es && es[0] in es && es[1..] == [Create(p.uid + "'", p.spec)];
    var gone := LifeOf(p).(present := false);
    assert Lived(LifeOf(p), Delete) == gone;
    assert LivedThrough(gone, es[1..]) == LivedThrough(Life(true, true, 0, p.spec), es[1..][1..]);
    assert LivedThrough(LifeOf(p), es) == Life(true, true, 0, p.spec);
    assert |p.uid + "'"| == |p.uid| + 1;
  }

  /** No interleaving with users puts a decided value ahead exactly when the value is at
      most 1, the generation of a new Plant. The interleavings need not reuse a UID. */
  lemma NeverAheadIff(s: Store, p: Plant, status: PlantStatus, steps: nat)
    requires PlantsOk(s) && p.id in s.plants && s.plants[p.id] == p && p.generation >= 1 && steps >= 2
    ensures (forall script :: !PutsAhead(s, script, p, status, steps)) <==> status.observedGeneration <= 1
    ensures (forall script :: FreshUids(script, p.uid) ==> !PutsAhead(s, script, p, status, steps))
       <==> status.observedGeneration <= 1
  {
    if status.observedGeneration <= 1 {
      forall script ensures !PutsAhead(s, script, p, status, steps) {
        AheadIff(s, script, p, status, steps);
      }
    } else {
      RecreationLife(p, steps);
      AheadIff(s, Recreation(p), p, status, steps);
      assert PutsAhead(s, Recreation(p), p, status, steps);
    }
  }

  // ----- what keeps it from being ahead

  predicate NotAhead(s: Store, id: PlantId) {
    id in s.plants ==> s.plants[id].status.observedGeneration <= s.plants[id].generation
  }

  lemma {:induction false} EditsKeepNotAhead(s: Store, id: PlantId, es: seq<PlantEdit>)
    requires NotAhead(s, id)
    ensures NotAhead(ApplyEdits(s, id, es), id)
    decreases |es|
  {
    if es != [] {
      EditsKeepNotAhead(ApplyEdit(s, id, es[0]), id, es[1..]);
    }
  }

  lemma {:induction false} RetryKeepsPlantsOk(s: Store, script: seq<seq<PlantEdit>>, p: Plant, status: PlantStatus, steps: nat)
    requires PlantsOk(s)
    ensures PlantsOk(RetryStatusWrite(s, script, p, status, steps).store)
    decreases steps
  {
    if steps > 0 {
      EditsKeepPlantsOk(s, p.id, EditsAt(script, 0));
      var (s1, r) := UpdateStatus(ApplyEdits(s, p.id, EditsAt(script, 0)), p.(status := status));
      if r.Err? && r.error == Conflict {
        EditsKeepPlantsOk(s1, p.id, EditsAt(script, 1));
        var s2 := ApplyEdits(s1, p.id, EditsAt(script, 1));
        if p.id in s2.plants {
          RetryKeepsPlantsOk(s2, Rest(script, 2), s2.plants[p.id], status, steps - 1);
        }
      }
    }
  }

  /** A write that fails changes nothing about the Plant itself. */
  lemma {:induction false} FailedWriteKeepsNotAhead(s: Store, script: seq<seq<PlantEdit>>, p: Plant, status: PlantStatus, steps: nat)
    requires PlantsOk(s) && NotAhead(s, p.id)
    requires RetryStatusWrite(s, script, p, status, steps).outcome.Err?
    ensures NotAhead(RetryStatusWrite(s, script, p, status, steps).store, p.id)
    decreases steps
  {
    if steps > 0 {
      EditsKeepNotAhead(s, p.id, EditsAt(script, 0));
      EditsKeepPlantsOk(s, p.id, EditsAt(script, 0));
      var (s1, r) := UpdateStatus(ApplyEdits(s, p.id, EditsAt(script, 0)), p.(status := status));
      if r.error == Conflict {
        EditsKeepNotAhead(s1, p.id, EditsAt(script, 1));
        EditsKeepPlantsOk(s1, p.id, EditsAt(script, 1));
        var s2 := ApplyEdits(s1, p.id, EditsAt(script, 1));
        if p.id in s2.plants {
          FailedWriteKeepsNotAhead(s2, Rest(script, 2), s2.plants[p.id], status, steps - 1);
        }
      }
    }
  }
}
