/** The reconciler as the program runs it (plant_controller.go): objects in the API server
    are read, changed and written back, and the reconciler's own state is updated in
    place. Every method is shown to do exactly what its counterpart in ReconcilePass says. */
module Operator {
  import opened Wrappers
  import opened Objects
  import opened Resources
  import opened Mutation
  import opened MonitorProbe
  import opened Status
  import opened StatusWrites
  import Api = ApiServer
  import C = Children
  import R = ReconcilePass
  import Reports
  import Workload

  /** The API server. Plant status requests let users' scripted edits land first. */
  class Cluster {
    var store: Api.Store
    var script: seq<seq<PlantEdit>>

    constructor (store: Api.Store, script: seq<seq<PlantEdit>>)
      ensures this.store == store && this.script == script
    {
      this.store, this.script := store, script;
    }

    method GetChild(cached: bool, key: Key) returns (r: Result<Obj, Api.ApiError>)
      ensures r == if C.Read(store, cached, key).Some? then Ok(C.Read(store, cached, key).value) else Err(Api.NotFound)
    {
      if key !in store.children || !C.Visible(cached, key, store.children[key]) {
        return Err(Api.NotFound);
      }
      r := Ok(store.children[key]);
    }

    method CreateChild(key: Key, o: Obj) returns (r: Result<Obj, Api.ApiError>)
      modifies this`store
      ensures (store, r) == Api.Create(old(store), key, o)
    {
      var reply := Api.Create(store, key, o);
      store, r := reply.0, reply.1;
    }

    method UpdateChild(key: Key, o: Obj) returns (r: Result<Obj, Api.ApiError>)
      modifies this`store
      ensures (store, r) == Api.Update(old(store), key, o)
    {
      var reply := Api.Update(store, key, o);
      store, r := reply.0, reply.1;
    }

    method LandEdits(id: PlantId)
      modifies this
      ensures store == ApplyEdits(old(store), id, EditsAt(old(script), 0)) && script == Rest(old(script), 1)
    {
      var es := EditsAt(script, 0);
      script := Rest(script, 1);
      while es != []
        invariant ApplyEdits(store, id, es) == ApplyEdits(old(store), id, EditsAt(old(script), 0))
        invariant script == Rest(old(script), 1)
        decreases |es|
      {
        store, es := ApplyEdit(store, id, es[0]), es[1..];
      }
    }

    method UpdateStatus(p: Plant) returns (r: Result<Plant, Api.ApiError>)
      modifies this
      ensures (store, r) == Api.UpdateStatus(ApplyEdits(old(store), p.id, EditsAt(old(script), 0)), p)
      ensures script == Rest(old(script), 1)
    {
      LandEdits(p.id);
      var reply := Api.UpdateStatus(store, p);
      store, r := reply.0, reply.1;
    }

    method RereadPlant(id: PlantId) returns (r: Result<Plant, Api.ApiError>)
      modifies this
      ensures store == ApplyEdits(old(store), id, EditsAt(old(script), 0)) && script == Rest(old(script), 1)
      ensures r == if id in store.plants then Ok(store.plants[id]) else Err(Api.NotFound)
    {
      LandEdits(id);
      r := if id in store.plants then Ok(store.plants[id]) else Err(Api.NotFound);
    }
  }

  lemma OneMoreChild(s: Api.Store, cached: bool, p: Plant, i: nat, sum: C.Summary)
    requires i < |C.SIX|
    ensures C.ApplyAll(s, cached, p, C.SIX[i..], sum)
         == var (s1, r) := C.ApplyChild(s, cached, p, C.SIX[i]);
            if r.Err? then (s1, Err(r.error))
            else C.ApplyAll(s1, cached, p, C.SIX[i + 1..], C.Note(sum, C.SIX[i], r.value))
  {
    assert C.SIX[i..][0] == C.SIX[i] && C.SIX[i..][1..] == C.SIX[i + 1..];
  }

  /** The status is true of the stored Deployment, and the workload stands. */
  ghost predicate Achieved(t: Api.Store, p: Plant, now: int) {
    Reports.TruthIsStored(t, p, now) && Workload.Stands(t, p)
  }

  lemma RequeueAchieves(w: R.World, cached: bool, id: PlantId, c: Call)
    ensures Api.StoreOk(w.store) && R.Reconcile(w, cached, id, c).1 == R.Requeue ==>
              id in w.store.plants && Achieved(R.Reconcile(w, cached, id, c).0.store, w.store.plants[id], c.now)
  {
    if Api.StoreOk(w.store) && R.Reconcile(w, cached, id, c).1 == R.Requeue {
      Reports.StoredStatusIsTrue(w, cached, id, c);
      Workload.PassBuildsWorkload(w, cached, id, c);
    }
  }

  class PlantReconciler {
    const cluster: Cluster
    /** Children are read through the label-filtered cache: no direct reader was set. */
    const cached: bool
    var negativeCacheUntil: int
    var events: seq<Event>

    constructor (cluster: Cluster, cached: bool)
      ensures this.cluster == cluster && this.cached == cached && negativeCacheUntil == 0 && events == []
    {
      this.cluster, this.cached, negativeCacheUntil, events := cluster, cached, 0, [];
    }

    ghost function World(): R.World
      reads this, cluster
    {
      R.World(cluster.store, cluster.script, negativeCacheUntil, events)
    }

    method ServiceMonitorCRDAvailable(c: Call) returns (available: bool)
      modifies this`negativeCacheUntil
      ensures available == Available(old(negativeCacheUntil), c)
      ensures negativeCacheUntil == NextUntil(old(negativeCacheUntil), c)
    {
      if negativeCacheUntil != 0 && c.now < negativeCacheUntil {
        return false;
      }
      if !c.found {
        negativeCacheUntil := c.after + PROBE_TTL;
        return false;
      }
      negativeCacheUntil := 0;
      available := true;
    }

    /** Refuses an object whose controller is not this Plant by its UID, unless the label
        has the operator's value. */
    method AssertOwnership(p: Plant, key: Key, o: Obj) returns (refusal: Option<C.ChildError>)
      ensures refusal.None? <==> C.ControlledByUid(p, o) || C.SaysPlantOperator(o)
      ensures refusal.Some? ==> refusal.value == C.ConflictingResource(key, ControllerOf(o.meta.owners))
    {
      C.OwnedIff(p, o);
      var owner := ControllerOf(o.meta.owners);
      if owner.Some? && owner.value.uid == p.uid {
        return None;
      }
      if C.Managed(o.meta.labels) {
        return None;
      }
      refusal := Some(C.ConflictingResource(key, owner));
    }

    method ApplyChild(p: Plant, kind: Kind) returns (r: Result<C.Change, C.ChildError>)
      modifies cluster`store
      ensures (cluster.store, r) == C.ApplyChild(old(cluster.store), cached, p, kind)
    {
      var key := ChildKey(p, kind);
      var got := cluster.GetChild(cached, key);
      if got.Err? {
        var wanted := Mutate(p, EmptyObj(kind));
        if wanted.Err? {
          return Err(C.AlreadyOwned(wanted.error));
        }
        var created := cluster.CreateChild(key, wanted.value);
        return if created.Ok? then Ok(C.Change(C.WasCreated, created.value)) else Err(C.Api(created.error));
      }
      var existing := got.value;
      C.OwnedIff(p, existing);
      var refusal := AssertOwnership(p, key, existing);
      if refusal.Some? {
        return Err(refusal.value);
      }
      var mutated := Mutate(p, existing);
      if mutated.Err? {
        return Err(C.AlreadyOwned(mutated.error));
      }
      if mutated.value == existing {
        return Ok(C.Change(C.NoChange, existing));
      }
      var updated := cluster.UpdateChild(key, mutated.value);
      r := if updated.Ok? then Ok(C.Change(C.WasUpdated, updated.value)) else Err(C.Api(updated.error));
    }

    method ReconcileChildren(p: Plant, c: Call) returns (r: Result<C.Summary, C.ChildError>)
      modifies cluster`store, this`negativeCacheUntil
      ensures (World(), r) == R.ReconcileChildren(old(World()), cached, p, c)
    {
      ghost var before := World();
      var summary := C.NOTHING;
      for i := 0 to |C.SIX|
        invariant negativeCacheUntil == old(negativeCacheUntil)
        invariant C.ApplyAll(cluster.store, cached, p, C.SIX[i..], summary)
               == C.ApplyAll(before.store, cached, p, C.SIX, C.NOTHING)
      {
        var kind := C.SIX[i];
        OneMoreChild(cluster.store, cached, p, i, summary);
        var change := ApplyChild(p, kind);
        if change.Err? {
          R.StageFails(before, cached, p, c, cluster.store, change.error);
          return Err(change.error);
        }
        summary := C.Note(summary, kind, change.value);
      }
      assert C.SIX[|C.SIX|..] == [];
      assert C.ApplyAll(before.store, cached, p, C.SIX, C.NOTHING) == (cluster.store, Ok(summary));
      var available := ServiceMonitorCRDAvailable(c);
      if !available {
        R.StageSkipsMonitor(before, cached, p, c, cluster.store, summary);
      } else {
        R.StageAppliesMonitor(before, cached, p, c, cluster.store, summary);
        var change := ApplyChild(p, ServiceMonitor);
        if change.Err? {
          return Err(change.error);
        }
        summary := C.Note(summary, ServiceMonitor, change.value);
      }
      r := Ok(summary);
    }

    method MarkDegraded(p: Plant, reason: Reason, message: Message, now: int) returns (err: Option<Api.ApiError>)
      modifies cluster, this`events
      ensures (World(), err) == R.MarkDegraded(old(World()), p, reason, message, now)
    {
      var status := MarkedDegraded(p, reason, message, now);
      if !StatusChanged(p.status, status) {
        return None;
      }
      events := events + [PlantBlocked(message)];
      var updated := cluster.UpdateStatus(p.(status := status));
      err := if updated.Ok? then None else Some(updated.error);
    }

    method WriteStatus(p: Plant, status: PlantStatus) returns (err: Option<Api.ApiError>)
      modifies cluster
      ensures var r := RetryStatusWrite(old(cluster.store), old(cluster.script), p, status, RETRY_STEPS);
              && cluster.store == r.store && cluster.script == r.script
              && err == if r.outcome.Ok? then None else Some(r.outcome.error)
    {
      var plant, attempts := p, RETRY_STEPS;
      while attempts > 0
        invariant 0 <= attempts <= RETRY_STEPS
        invariant RetryStatusWrite(cluster.store, cluster.script, plant, status, attempts)
               == RetryStatusWrite(old(cluster.store), old(cluster.script), p, status, RETRY_STEPS)
      {
        var updated := cluster.UpdateStatus(plant.(status := status));
        if updated.Ok? {
          return None;
        }
        if updated.error != Api.Conflict {
          return Some(updated.error);
        }
        var latest := cluster.RereadPlant(plant.id);
        if latest.Err? {
          return Some(latest.error);
        }
        plant, attempts := latest.value, attempts - 1;
      }
      err := Some(Api.Conflict);
    }

    /** Retries the write, not the decision. */
    method ReconcileStatus(p: Plant, d: Observed, now: int) returns (err: Option<Api.ApiError>)
      modifies cluster, this`events
      ensures (World(), err) == R.ReconcileStatus(old(World()), p, d, now)
    {
      var status := ComputeStatus(p, d, now);
      if !StatusChanged(p.status, status) {
        return None;
      }
      events := events + HealthEvents(p.status, status);
      err := WriteStatus(p, status);
    }

    method Reconcile(id: PlantId, c: Call) returns (outcome: R.Outcome)
      modifies cluster, this
      ensures (World(), outcome) == R.Reconcile(old(World()), cached, id, c)
      ensures Api.StoreOk(old(cluster.store)) && outcome == R.Requeue ==>
                id in old(cluster.store.plants) && Achieved(cluster.store, old(cluster.store.plants)[id], c.now)
    {
      RequeueAchieves(World(), cached, id, c);
      if id !in cluster.store.plants {
        return R.Finished;
      }
      var p := cluster.store.plants[id];
      if p.deleting {
        return R.Finished;
      }
      if |p.id.name| > R.MAX_PLANT_NAME_LENGTH {
        var err := MarkDegraded(p, InvalidName, R.InvalidNameMessage(p), c.now);
        return if err.Some? then R.Failed(R.StatusFailed(err.value)) else R.Finished;
      }
      var children := ReconcileChildren(p, c);
      if children.Err? {
        if children.error.ConflictingResource? {
          var err := MarkDegraded(p, NameConflict,
                                  R.ConflictMessage(children.error.key, children.error.controller), c.now);
          if err.Some? {
            return R.Failed(R.StatusFailed(err.value));
          }
        }
        return R.Failed(R.ChildFailed(children.error));
      }
      if children.value.created {
        events := events + [PlantCreated];
      } else if children.value.updated {
        events := events + [PlantUpdated];
      }
      var summary := children.value;
      assert World().events == old(events) + R.ChangeEvents(summary);
      var err := ReconcileStatus(p, R.ObservedOf(summary.deployment), c.now);
      outcome := if err.Some? then R.Failed(R.StatusFailed(err.value)) else R.Requeue;
    }
  }
}
