/** The status a Plant should carry (status.go) and the decision whether to write it
    (reconcileStatus, markDegraded and emitHealthEvents in plant_controller.go). */
module Status {
  import opened Wrappers
  import opened Objects
  import opened Resources
  import Mood

  const READY := "Ready"
  const PROGRESSING := "Progressing"
  const DEGRADED := "Degraded"

  datatype Event =
    | PlantCreated
    | PlantUpdated
    | PlantDegraded
    | PlantRecovered
    | PlantBlocked(message: Message)

  /** What a pass saw of the Plant's Deployment. */
  datatype Observed = Observed(readyReplicas: int, observedGeneration: int, generation: int)

  // ----- conditions

  /** meta.SetStatusCondition: replaces the first condition of the same type, moving its
      transition time only if its status moves, or appends. */
  function SetCondition(cs: seq<Condition>, c: Condition): seq<Condition> {
    if cs == [] then [c]
    else if cs[0].kind == c.kind then
      [if cs[0].status != c.status then c else c.(lastTransition := cs[0].lastTransition)] + cs[1..]
    else [cs[0]] + SetCondition(cs[1..], c)
  }

  function SetConditions(cs: seq<Condition>, news: seq<Condition>): seq<Condition>
    decreases |news|
  {
    if news == [] then cs else SetConditions(SetCondition(cs, news[0]), news[1..])
  }

  function Lookup(cs: seq<Condition>, kind: string): (c: Option<Condition>)
    ensures c.Some? ==> c.value.kind == kind && c.value in cs
  {
    if cs == [] then None
    else if cs[0].kind == kind then Some(cs[0])
    else Lookup(cs[1..], kind)
  }

  predicate ConditionTrue(cs: seq<Condition>, kind: string) {
    Lookup(cs, kind).Some? && Lookup(cs, kind).value.status.True?
  }

  function ReadyCondition(ready: int, desired: int, generation: int, now: int): Condition {
    if desired > 0 && ready == desired then
      Condition(READY, True, AllReplicasReady, AllDesiredReplicasReady, generation, now)
    else
      Condition(READY, False, ReplicasNotReady, FewerReplicasReady, generation, now)
  }

  function ProgressingCondition(ready: int, desired: int, d: Observed, generation: int, now: int): Condition {
    if d.observedGeneration >= d.generation && ready == desired then
      Condition(PROGRESSING, False, RolloutComplete, FullyRolledOut, generation, now)
    else
      Condition(PROGRESSING, True, RolloutInProgress, RolloutNotConverged, generation, now)
  }

  function DegradedCondition(ready: int, desired: int, generation: int, now: int): Condition {
    if ready == 0 && desired > 0 then
      Condition(DEGRADED, True, InsufficientReplicas, NoReplicasReady, generation, now)
    else
      Condition(DEGRADED, False, PlantHealthy, SomeReplicaReadyOrNoneDesired, generation, now)
  }

  function ConditionsFor(ready: int, desired: int, d: Observed, generation: int, now: int): seq<Condition> {
    [ReadyCondition(ready, desired, generation, now),
     ProgressingCondition(ready, desired, d, generation, now),
     DegradedCondition(ready, desired, generation, now)]
  }

  // ----- status

  function ComputeStatus(p: Plant, d: Observed, now: int): PlantStatus {
    var ready, desired := d.readyReplicas, ReplicasFor(p);
    PlantStatus(Mood.Name(Mood.MoodFor(ready, desired)), Mood.HealthPercent(ready, desired), ready, desired,
                p.generation, Some(now),
                SetConditions(p.status.conditions, ConditionsFor(ready, desired, d, p.generation, now)))
  }

  /** The time of the last watering takes no part in the comparison. */
  predicate StatusChanged(before: PlantStatus, after: PlantStatus) {
    before.(lastWatered := None) != after.(lastWatered := None)
  }

  function BlockedCondition(p: Plant, reason: Reason, message: Message, now: int): Condition {
    Condition(DEGRADED, True, reason, message, p.generation, now)
  }

  function MarkedDegraded(p: Plant, reason: Reason, message: Message, now: int): PlantStatus {
    p.status.(conditions := SetCondition(p.status.conditions, BlockedCondition(p, reason, message, now)))
  }

  function HealthEvents(before: PlantStatus, after: PlantStatus): seq<Event> {
    var was, is' := ConditionTrue(before.conditions, DEGRADED), ConditionTrue(after.conditions, DEGRADED);
    if is' && !was then [PlantDegraded] else if was && !is' then [PlantRecovered] else []
  }

  /** What a pass decides: at most one status write, with its events. */
  datatype Decision = Skip | Write(status: PlantStatus, events: seq<Event>)

  function StatusDecision(p: Plant, d: Observed, now: int): Decision {
    var status := ComputeStatus(p, d, now);
    if StatusChanged(p.status, status) then Write(status, HealthEvents(p.status, status)) else Skip
  }

  function BlockDecision(p: Plant, reason: Reason, message: Message, now: int): Decision {
    var status := MarkedDegraded(p, reason, message, now);
    if StatusChanged(p.status, status) then Write(status, [PlantBlocked(message)]) else Skip
  }

  // ----- laws of conditions

  lemma {:induction false} SetConditionLookup(cs: seq<Condition>, c: Condition, kind: string)
    ensures Lookup(SetCondition(cs, c), kind)
         == if kind != c.kind then Lookup(cs, kind)
            else if Lookup(cs, kind).Some? && Lookup(cs, kind).value.status == c.status
            then Some(c.(lastTransition := Lookup(cs, kind).value.lastTransition))
            else Some(c)
  {
    if cs != [] && cs[0].kind != c.kind {
      SetConditionLookup(cs[1..], c, kind);
      assert SetCondition(cs, c)[1..] == SetCondition(cs[1..], c);
    }
  }

  /** Setting what is already there, at any time, changes nothing. */
  lemma {:induction false} SetConditionAgain(cs: seq<Condition>, c: Condition)
    requires Lookup(cs, c.kind).Some?
    requires c == Lookup(cs, c.kind).value.(lastTransition := c.lastTransition)
    ensures SetCondition(cs, c) == cs
  {
    if cs[0].kind != c.kind {
      SetConditionAgain(cs[1..], c);
    }
  }

  predicate UniqueTypes(cs: seq<Condition>) {
    forall i, j :: 0 <= i < j < |cs| ==> cs[i].kind != cs[j].kind
  }

  lemma {:induction false} SetConditionKeepsUnique(cs: seq<Condition>, c: Condition)
    requires UniqueTypes(cs)
    ensures UniqueTypes(SetCondition(cs, c))
    ensures forall x :: x in SetCondition(cs, c) ==> x.kind == c.kind || x in cs
  {
    if cs != [] && cs[0].kind != c.kind {
      SetConditionKeepsUnique(cs[1..], c);
      var r := SetCondition(cs[1..], c);
      forall x | x in r ensures x.kind != cs[0].kind {
      }
    }
  }

  lemma Unroll(cs: seq<Condition>, a: Condition, b: Condition, c: Condition)
    ensures SetConditions(cs, [a, b, c]) == SetCondition(SetCondition(SetCondition(cs, a), b), c)
  {
    assert [a, b, c][1..] == [b, c] && [b, c][1..] == [c];
    assert SetConditions(SetCondition(cs, a), [b, c]) == SetConditions(SetCondition(SetCondition(cs, a), b), [c]);
  }

  /** The three conditions a pass sets are each looked up as set, others as before. */
  lemma ComputedConditions(p: Plant, d: Observed, now: int, kind: string)
    ensures var cs := ComputeStatus(p, d, now).conditions;
            var ready, desired := d.readyReplicas, ReplicasFor(p);
            && (kind == READY ==> Lookup(cs, kind) == Lookup(SetCondition(p.status.conditions, ReadyCondition(ready, desired, p.generation, now)), kind))
            && (kind == PROGRESSING ==> Lookup(cs, kind) == Lookup(SetCondition(p.status.conditions, ProgressingCondition(ready, desired, d, p.generation, now)), kind))
            && (kind == DEGRADED ==> Lookup(cs, kind) == Lookup(SetCondition(p.status.conditions, DegradedCondition(ready, desired, p.generation, now)), kind))
            && (kind != READY && kind != PROGRESSING && kind != DEGRADED ==> Lookup(cs, kind) == Lookup(p.status.conditions, kind))
  {
    var ready, desired := d.readyReplicas, ReplicasFor(p);
    SetThreeLookup(p.status.conditions, ReadyCondition(ready, desired, p.generation, now),
                   ProgressingCondition(ready, desired, d, p.generation, now),
                   DegradedCondition(ready, desired, p.generation, now), kind);
  }

  lemma SetThreeLookup(cs: seq<Condition>, a: Condition, b: Condition, c: Condition, kind: string)
    requires a.kind != b.kind && b.kind != c.kind && a.kind != c.kind
    ensures var ds := SetConditions(cs, [a, b, c]);
            Lookup(ds, kind) == if kind == a.kind then Lookup(SetCondition(cs, a), kind)
                                else if kind == b.kind then Lookup(SetCondition(cs, b), kind)
                                else if kind == c.kind then Lookup(SetCondition(cs, c), kind)
                                else Lookup(cs, kind)
  {
    Unroll(cs, a, b, c);
    SetConditionLookup(cs, a, kind);
    SetConditionLookup(SetCondition(cs, a), b, kind);
    SetConditionLookup(SetCondition(SetCondition(cs, a), b), c, kind);
    SetConditionLookup(cs, b, kind);
    SetConditionLookup(cs, c, kind);
  }

  /** A pass over an unchanged Plant and Deployment computes the same conditions again,
      whatever the clock says. */
  lemma RecomputedConditionsSettle(p: Plant, d: Observed, t1: int, t2: int, q: Plant)
    requires q.generation == p.generation && q.spec == p.spec
    requires q.status.conditions == ComputeStatus(p, d, t1).conditions
    ensures ComputeStatus(q, d, t2).conditions == q.status.conditions
  {
    var ready, desired := d.readyReplicas, ReplicasFor(p);
    SettleThree(p.status.conditions,
                ReadyCondition(ready, desired, p.generation, t1), ReadyCondition(ready, desired, p.generation, t2),
                ProgressingCondition(ready, desired, d, p.generation, t1), ProgressingCondition(ready, desired, d, p.generation, t2),
                DegradedCondition(ready, desired, p.generation, t1), DegradedCondition(ready, desired, p.generation, t2));
  }

  predicate SameButTime(a: Condition, b: Condition) {
    a == b.(lastTransition := a.lastTransition)
  }

  lemma SettleThree(cs: seq<Condition>, a: Condition, a': Condition, b: Condition, b': Condition, c: Condition, c': Condition)
    requires a.kind != b.kind && b.kind != c.kind && a.kind != c.kind
    requires SameButTime(a, a') && SameButTime(b, b') && SameButTime(c, c')
    ensures SetConditions(SetConditions(cs, [a, b, c]), [a', b', c']) == SetConditions(cs, [a, b, c])
  {
    var set1, set2 := SetCondition(cs, a), SetCondition(SetCondition(cs, a), b);
    var done := SetCondition(set2, c);
    Unroll(cs, a, b, c);
    Unroll(done, a', b', c');
    SetConditionLookup(cs, a, a.kind);
    SetConditionLookup(set1, b, a.kind);
    SetConditionLookup(set1, b, b.kind);
    SetConditionLookup(set2, c, a.kind);
    SetConditionLookup(set2, c, b.kind);
    SetConditionLookup(set2, c, c.kind);
    SetConditionAgain(done, a');
    SetConditionAgain(done, b');
    SetConditionAgain(done, c');
  }

  function Stored(before: PlantStatus, d: Decision): PlantStatus {
    if d.Write? then d.status else before
  }

  /** Nothing new to report, nothing written: a second pass at any time skips. */
  lemma StatusSettles(p: Plant, d: Observed, t1: int, t2: int, q: Plant)
    requires q.generation == p.generation && q.spec == p.spec
    requires q.status == Stored(p.status, StatusDecision(p, d, t1))
    ensures StatusDecision(q, d, t2) == Skip
  {
    RecomputedConditionsSettle(p, d, t1, t2, q);
  }

  /** A Plant blocked for an unchanged reason is written at most once. */
  lemma BlockSettles(p: Plant, reason: Reason, message: Message, t1: int, t2: int, q: Plant)
    requires q.generation == p.generation
    requires q.status == Stored(p.status, BlockDecision(p, reason, message, t1))
    ensures BlockDecision(q, reason, message, t2) == Skip
  {
    SetConditionLookup(p.status.conditions, BlockedCondition(p, reason, message, t1), DEGRADED);
    SetConditionAgain(q.status.conditions, BlockedCondition(q, reason, message, t2));
  }

  // ----- runs of passes

  /** One pass with a current read and a successful write. The Plant carries the spec and
      generation of the moment; its status is the stored one. */
  datatype Pass =
    | Reconciled(plant: Plant, observed: Observed, now: int)
    | Blocked(plant: Plant, reason: Reason, message: Message, now: int)

  function PassDecision(status: PlantStatus, pass: Pass): Decision {
    match pass
    case Reconciled(p, d, now) => StatusDecision(p.(status := status), d, now)
    case Blocked(p, reason, message, now) => BlockDecision(p.(status := status), reason, message, now)
  }

  function After(s0: PlantStatus, passes: seq<Pass>): PlantStatus {
    if passes == [] then s0
    else
      var before := After(s0, passes[..|passes| - 1]);
      Stored(before, PassDecision(before, passes[|passes| - 1]))
  }

  function StatusOf(s: PlantStatus, kind: string): Option<ConditionStatus> {
    var c := Lookup(s.conditions, kind);
    if c.None? then None else Some(c.value.status)
  }

  /** The clock of the last pass across which the condition's status moved. */
  function LastMove(s0: PlantStatus, passes: seq<Pass>, kind: string): Option<int> {
    if passes == [] then None
    else
      var n := |passes| - 1;
      if StatusOf(After(s0, passes), kind) != StatusOf(After(s0, passes[..n]), kind) then Some(passes[n].now)
      else LastMove(s0, passes[..n], kind)
  }

  /** From cs to ds the condition's transition time moved to now exactly if its status
      moved, and stayed otherwise. */
  predicate Honest(cs: seq<Condition>, ds: seq<Condition>, kind: string, now: int) {
    var c, d := Lookup(cs, kind), Lookup(ds, kind);
    && (c.Some? ==> d.Some?)
    && (d.Some? ==>
          if c.Some? && c.value.status == d.value.status then d.value.lastTransition == c.value.lastTransition
          else d.value.lastTransition == now)
  }

  lemma SetConditionIsHonest(cs: seq<Condition>, c: Condition, kind: string)
    ensures Honest(cs, SetCondition(cs, c), kind, c.lastTransition)
  {
    SetConditionLookup(cs, c, kind);
  }

  lemma ComputeIsHonest(p: Plant, d: Observed, now: int, kind: string)
    ensures Honest(p.status.conditions, ComputeStatus(p, d, now).conditions, kind, now)
  {
    var ready, desired := d.readyReplicas, ReplicasFor(p);
    ComputedConditions(p, d, now, kind);
    SetConditionIsHonest(p.status.conditions, ReadyCondition(ready, desired, p.generation, now), kind);
    SetConditionIsHonest(p.status.conditions, ProgressingCondition(ready, desired, d, p.generation, now), kind);
    SetConditionIsHonest(p.status.conditions, DegradedCondition(ready, desired, p.generation, now), kind);
  }

  /** A skipped write would not have changed the conditions. */
  lemma StoredConditions(s: PlantStatus, pass: Pass)
    ensures Stored(s, PassDecision(s, pass)).conditions ==
            match pass
            case Reconciled(p, d, now) => ComputeStatus(p.(status := s), d, now).conditions
            case Blocked(p, reason, message, now) => MarkedDegraded(p.(status := s), reason, message, now).conditions
  {
  }

  /** One pass moves a condition's transition time to its own clock exactly when it moves
      the condition's status, and leaves it alone otherwise. */
  lemma PassMovesHonestly(s: PlantStatus, pass: Pass, kind: string)
    ensures Honest(s.conditions, Stored(s, PassDecision(s, pass)).conditions, kind, pass.now)
  {
    StoredConditions(s, pass);
    match pass
    case Reconciled(p, d, now) => ComputeIsHonest(p.(status := s), d, now, kind);
    case Blocked(p, reason, message, now) =>
      SetConditionIsHonest(s.conditions, BlockedCondition(p.(status := s), reason, message, now), kind);
  }

  /** After any run the stored transition time is the clock of the last pass that moved
      the condition's status, or the initial one if none did. */
  lemma {:induction false} TransitionTimesAreHonest(s0: PlantStatus, passes: seq<Pass>, kind: string)
    requires Lookup(After(s0, passes).conditions, kind).Some?
    ensures var t := Lookup(After(s0, passes).conditions, kind).value.lastTransition;
            && (LastMove(s0, passes, kind).Some? ==> t == LastMove(s0, passes, kind).value)
            && (LastMove(s0, passes, kind).None? ==>
                  Lookup(s0.conditions, kind).Some? && t == Lookup(s0.conditions, kind).value.lastTransition)
  {
    if passes != [] {
      var n := |passes| - 1;
      PassMovesHonestly(After(s0, passes[..n]), passes[n], kind);
      if StatusOf(After(s0, passes), kind) == StatusOf(After(s0, passes[..n]), kind) {
        TransitionTimesAreHonest(s0, passes[..n], kind);
      }
    }
  }

  lemma {:induction false} ConditionTypesStayUnique(s0: PlantStatus, passes: seq<Pass>)
    requires UniqueTypes(s0.conditions)
    ensures UniqueTypes(After(s0, passes).conditions)
  {
    if passes != [] {
      var n := |passes| - 1;
      ConditionTypesStayUnique(s0, passes[..n]);
      var s := After(s0, passes[..n]);
      StoredConditions(s, passes[n]);
      match passes[n]
      case Reconciled(p, d, now) =>
        var q := p.(status := s);
        var ready, desired := d.readyReplicas, ReplicasFor(q);
        SetThreeKeepsUnique(s.conditions, ReadyCondition(ready, desired, q.generation, now),
                            ProgressingCondition(ready, desired, d, q.generation, now),
                            DegradedCondition(ready, desired, q.generation, now));
      case Blocked(p, reason, message, now) =>
        SetConditionKeepsUnique(s.conditions, BlockedCondition(p.(status := s), reason, message, now));
    }
  }

  lemma SetThreeKeepsUnique(cs: seq<Condition>, a: Condition, b: Condition, c: Condition)
    requires UniqueTypes(cs)
    ensures UniqueTypes(SetConditions(cs, [a, b, c]))
  {
    Unroll(cs, a, b, c);
    SetConditionKeepsUnique(cs, a);
    SetConditionKeepsUnique(SetCondition(cs, a), b);
    SetConditionKeepsUnique(SetCondition(SetCondition(cs, a), b), c);
  }

  // ----- events

  /** The events of the k-th pass. */
  function Emitted(s0: PlantStatus, passes: seq<Pass>, k: nat): seq<Event>
    requires k < |passes|
  {
    var d := PassDecision(After(s0, passes[..k]), passes[k]);
    if d.Write? then d.events else []
  }

  predicate DegradedAt(s0: PlantStatus, passes: seq<Pass>, k: nat)
    requires k <= |passes|
  {
    ConditionTrue(After(s0, passes[..k]).conditions, DEGRADED)
  }

  predicate Emits(s0: PlantStatus, passes: seq<Pass>, k: nat, e: Event)
    requires k < |passes|
  {
    e in Emitted(s0, passes, k)
  }

  predicate EmitsBlocked(s0: PlantStatus, passes: seq<Pass>, k: nat)
    requires k < |passes|
  {
    exists e :: e in Emitted(s0, passes, k) && e.PlantBlocked?
  }

  /** Health events are exactly the edges of the stored flag that reconcileStatus makes;
      a rise that markDegraded makes is a PlantBlocked, and it never makes a fall. */
  lemma EventsAreEdges(s0: PlantStatus, passes: seq<Pass>, k: nat)
    requires k < |passes|
    ensures Emits(s0, passes, k, PlantDegraded) <==>
              passes[k].Reconciled? && !DegradedAt(s0, passes, k) && DegradedAt(s0, passes, k + 1)
    ensures Emits(s0, passes, k, PlantRecovered) <==>
              passes[k].Reconciled? && DegradedAt(s0, passes, k) && !DegradedAt(s0, passes, k + 1)
    ensures passes[k].Blocked? ==> DegradedAt(s0, passes, k + 1)
    ensures passes[k].Blocked? && !DegradedAt(s0, passes, k) ==> EmitsBlocked(s0, passes, k)
  {
    var s := After(s0, passes[..k]);
    assert passes[..k + 1][..k] == passes[..k];
    var d := PassDecision(s, passes[k]);
    assert After(s0, passes[..k + 1]) == Stored(s, d);
    match passes[k]
    case Reconciled(p, o, now) =>
      var q := p.(status := s);
      if d == Skip {
        assert ComputeStatus(q, o, now).conditions == s.conditions;
      }
    case Blocked(p, reason, message, now) =>
      SetConditionLookup(s.conditions, BlockedCondition(p.(status := s), reason, message, now), DEGRADED);
      if d.Write? {
        assert PlantBlocked(message) in Emitted(s0, passes, k);
      }
  }

  lemma {:induction false} StaysDegraded(s0: PlantStatus, passes: seq<Pass>, i: nat, j: nat)
    requires i <= j <= |passes| && DegradedAt(s0, passes, i)
    requires forall m :: i <= m < j ==> !Emits(s0, passes, m, PlantRecovered)
    ensures DegradedAt(s0, passes, j)
    decreases j
  {
    if i < j {
      StaysDegraded(s0, passes, i, j - 1);
      EventsAreEdges(s0, passes, j - 1);
    }
  }

  lemma {:induction false} StaysHealthy(s0: PlantStatus, passes: seq<Pass>, i: nat, j: nat)
    requires i <= j <= |passes| && !DegradedAt(s0, passes, i)
    requires forall m :: i <= m < j ==> !Emits(s0, passes, m, PlantDegraded) && !EmitsBlocked(s0, passes, m)
    ensures !DegradedAt(s0, passes, j)
    decreases j
  {
    if i < j {
      StaysHealthy(s0, passes, i, j - 1);
      EventsAreEdges(s0, passes, j - 1);
    }
  }

  /** Between two PlantDegraded events there is a PlantRecovered, and between two
      PlantRecovered events a PlantDegraded or a PlantBlocked. */
  lemma EventsAlternate(s0: PlantStatus, passes: seq<Pass>, i: nat, j: nat)
    requires i < j < |passes|
    ensures Emits(s0, passes, i, PlantDegraded) && Emits(s0, passes, j, PlantDegraded) ==>
              exists m :: i < m < j && Emits(s0, passes, m, PlantRecovered)
    ensures Emits(s0, passes, i, PlantRecovered) && Emits(s0, passes, j, PlantRecovered) ==>
              exists m :: i < m < j && (Emits(s0, passes, m, PlantDegraded) || EmitsBlocked(s0, passes, m))
  {
    EventsAreEdges(s0, passes, i);
    EventsAreEdges(s0, passes, j);
    if Emits(s0, passes, i, PlantDegraded) && Emits(s0, passes, j, PlantDegraded) {
      if forall m :: i < m < j ==> !Emits(s0, passes, m, PlantRecovered) {
        StaysDegraded(s0, passes, i + 1, j);
        assert false;
      }
    }
    if Emits(s0, passes, i, PlantRecovered) && Emits(s0, passes, j, PlantRecovered) {
      if forall m :: i < m < j ==> !Emits(s0, passes, m, PlantDegraded) && !EmitsBlocked(s0, passes, m) {
        StaysHealthy(s0, passes, i + 1, j);
        assert false;
      }
    }
  }
}
