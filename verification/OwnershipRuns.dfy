/** The ownership guard under concurrency: reconcile workers and outside writers take
    turns, so an object can change between a worker's read and its write. */
module OwnershipRuns {
  import opened Objects
  import opened ApiServer
  import opened Resources
  import opened Children

  /** A worker between reading a child and carrying out what it decided. */
  datatype Pending = Pending(plant: Plant, kind: Kind, plan: Plan)

  /** One accepted replacement: the stored object the operator wrote over, and for whom. */
  datatype Overwrite = Overwrite(plant: Plant, key: Key, before: Obj, after: Obj)

  datatype State = State(store: Store, pending: map<nat, Pending>, overwrites: seq<Overwrite>)

  datatype Step =
    | Outside(key: Key, obj: Obj)        // anyone else writes anything at all
    | OutsideDelete(key: Key)
    | Observe(worker: nat, plant: Plant, kind: Kind, cached: bool)
    | Act(worker: nat)
    | Abandon(worker: nat)               // crash, timeout, or an error of the API

  function Stamp(s: Store, o: Obj): Obj {
    o.(meta := o.meta.(resourceVersion := s.next))
  }

  ghost predicate Next(s: State, step: Step, t: State) {
    match step
    case Outside(key, o) =>
      t == s.(store := s.store.(children := s.store.children[key := Stamp(s.store, o)], next := s.store.next + 1))
    case OutsideDelete(key) => t == s.(store := s.store.(children := s.store.children - {key}))
    case Observe(w, p, kind, cached) =>
      (match PlanChild(p, kind, Read(s.store, cached, ChildKey(p, kind)))
       case Err(_) => t == s.(pending := s.pending - {w})
       case Ok(plan) => t == s.(pending := s.pending[w := Pending(p, kind, plan)]))
    case Act(w) =>
      && w in s.pending
      && var a := s.pending[w];
      var key := ChildKey(a.plant, a.kind);
      var (store, r) := Perform(s.store, key, a.plan);
      && t.store == store && t.pending == s.pending - {w}
      && t.overwrites == (if r.Ok? && a.plan.Replace? && key in s.store.children
                          then s.overwrites + [Overwrite(a.plant, key, s.store.children[key], r.value.obj)]
                          else s.overwrites)
    case Abandon(w) => t == s.(pending := s.pending - {w})
  }

  ghost predicate VersionsOk(s: Store) {
    forall k :: k in s.children ==> s.children[k].meta.resourceVersion < s.next
  }

  /** A planned replacement carries the version of an object that passed the guard, and
      if that version is still stored it is still that object. */
  ghost predicate PendingOk(s: Store, a: Pending) {
    a.plan.Replace? ==>
      var key := ChildKey(a.plant, a.kind);
      && Owned(a.plant, a.plan.base)
      && a.plan.obj.meta.resourceVersion == a.plan.base.meta.resourceVersion < s.next
      && (key in s.children && s.children[key].meta.resourceVersion == a.plan.base.meta.resourceVersion ==>
            s.children[key] == a.plan.base)
  }

  ghost predicate Inv(s: State) {
    && VersionsOk(s.store)
    && (forall w :: w in s.pending ==> PendingOk(s.store, s.pending[w]))
    && (forall i :: 0 <= i < |s.overwrites| ==> Owned(s.overwrites[i].plant, s.overwrites[i].before))
  }

  /** A write under one key gives it a version nobody can hold. */
  lemma FreshWriteKeepsPending(s: Store, t: Store, key: Key, a: Pending)
    requires VersionsOk(s) && PendingOk(s, a)
    requires t.next == s.next + 1
    requires key in t.children && t.children[key].meta.resourceVersion == s.next
    requires forall k :: k != key ==> SameAt(s, t, k)
    ensures PendingOk(t, a)
  {
    if a.plan.Replace? {
      var k := ChildKey(a.plant, a.kind);
      assert k != key ==> SameAt(s, t, k);
    }
  }

  lemma StepKeepsInv(s: State, step: Step, t: State)
    requires Inv(s) && Next(s, step, t)
    ensures Inv(t)
  {
    match step
    case Outside(key, o) =>
      forall w | w in t.pending ensures PendingOk(t.store, t.pending[w]) {
        FreshWriteKeepsPending(s.store, t.store, key, s.pending[w]);
      }
    case OutsideDelete(key) =>
      forall w | w in t.pending ensures PendingOk(t.store, t.pending[w]) {
        assert PendingOk(s.store, s.pending[w]);
      }
    case Observe(w, p, kind, cached) => ObserveKeepsInv(s, w, p, kind, cached, t);
    case Act(w) => ActKeepsInv(s, w, t);
    case Abandon(w) =>
  }

  lemma ObserveKeepsInv(s: State, w: nat, p: Plant, kind: Kind, cached: bool, t: State)
    requires Inv(s) && Next(s, Observe(w, p, kind, cached), t)
    ensures Inv(t)
  {
    forall v | v in t.pending ensures PendingOk(t.store, t.pending[v]) {
      if v != w {
        assert PendingOk(s.store, s.pending[v]);
      }
    }
  }

  lemma ActKeepsInv(s: State, w: nat, t: State)
    requires Inv(s) && Next(s, Act(w), t)
    ensures Inv(t)
  {
    var a := s.pending[w];
    var key := ChildKey(a.plant, a.kind);
    var (store, r) := Perform(s.store, key, a.plan);
    PerformFrame(s.store, key, a.plan);
    forall v | v in t.pending ensures PendingOk(t.store, t.pending[v]) {
      if r.Ok? && !a.plan.Leave? {
        FreshWriteKeepsPending(s.store, store, key, s.pending[v]);
      } else {
        assert PendingOk(s.store, s.pending[v]);
      }
    }
    if r.Ok? && a.plan.Replace? {
      assert s.store.children[key] == a.plan.base;
    }
  }

  ghost predicate IsRun(states: seq<State>, steps: seq<Step>) {
    && |states| == |steps| + 1
    && VersionsOk(states[0].store) && states[0].pending == map[] && states[0].overwrites == []
    && forall k :: 0 <= k < |steps| ==> Next(states[k], steps[k], states[k + 1])
  }

  lemma {:induction false} RunsKeepInv(states: seq<State>, steps: seq<Step>, n: nat)
    requires IsRun(states, steps) && n < |states|
    ensures Inv(states[n])
  {
    if n > 0 {
      RunsKeepInv(states, steps, n - 1);
      StepKeepsInv(states[n - 1], steps[n - 1], states[n]);
    }
  }

  /** Whatever happens around it, an operator step never changes or removes an object,
      unless it acts for a Plant that controls this very object by its UID, or the object's
      managed-by label has the value only the operator writes. */
  lemma UnownedIsNeverModified(states: seq<State>, steps: seq<Step>, n: nat, k: Key)
    requires IsRun(states, steps) && n < |steps|
    requires steps[n].Observe? || steps[n].Act? || steps[n].Abandon?
    requires k in states[n].store.children
    ensures k in states[n + 1].store.children
    ensures states[n + 1].store.children[k] == states[n].store.children[k]
            || (&& steps[n].Act? && steps[n].worker in states[n].pending
                && var o := states[n].store.children[k];
                ControlledByUid(states[n].pending[steps[n].worker].plant, o) || SaysPlantOperator(o))
  {
    RunsKeepInv(states, steps, n);
    var s, t := states[n], states[n + 1];
    assert Next(s, steps[n], t);
    if steps[n].Act? {
      var a := s.pending[steps[n].worker];
      PerformFrame(s.store, ChildKey(a.plant, a.kind), a.plan);
      assert k != ChildKey(a.plant, a.kind) ==> SameAt(s.store, t.store, k);
      assert PendingOk(s.store, a);
      OwnedIff(a.plant, s.store.children[k]);
    }
  }

  /** Every version the operator ever overwrote was controlled by the Plant's UID or
      carried the label's value. */
  lemma OverwritesAreOwned(states: seq<State>, steps: seq<Step>, n: nat, i: nat)
    requires IsRun(states, steps) && n < |states| && i < |states[n].overwrites|
    ensures var o := states[n].overwrites[i]; ControlledByUid(o.plant, o.before) || SaysPlantOperator(o.before)
  {
    RunsKeepInv(states, steps, n);
    OwnedIff(states[n].overwrites[i].plant, states[n].overwrites[i].before);
  }
}
