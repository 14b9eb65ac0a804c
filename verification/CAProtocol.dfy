/** Several operator processes patching one webhook configuration (webhookcerts.go).

    Every process repeats Get, merge, Update until its Update is accepted. The API
    server accepts an Update only for the version the object still has. */
module CAProtocol {
  import opened Wrappers
  import opened CABundle

  /** The stored object: one caBundle per webhook entry. */
  datatype Config = Config(version: nat, bundles: seq<seq<Block>>)

  datatype Proc =
    | Waiting(attempts: nat)
    | Holding(attempts: nat, version: nat, merged: seq<seq<Block>>, at: int)
    | Done
    | Failed

  /** `history`, `makers` and `trail` record the accepted patches, whose they were, and the
      bundles after each. */
  datatype State = State(
    config: Option<Config>,
    procs: map<nat, Proc>,
    clock: int,
    history: seq<Merge>,
    makers: seq<nat>,
    trail: seq<seq<seq<Block>>>)

  datatype Step =
    | Tick(elapsed: nat)
    | Apply(bundles: seq<seq<Block>>)                  // kubectl or helm creates the object
    | Get(p: nat, merged: seq<seq<Block>>)             // read, then merge every entry
    | Update(p: nat)
    | Fatal(p: nat)                                    // any other API error ends the patch

  /** One merge of `ca` per webhook entry. */
  ghost predicate MergedAll(parse: Parser, before: seq<seq<Block>>, ca: Block, now: int, after: seq<seq<Block>>) {
    && |after| == |before|
    && forall i :: 0 <= i < |before| ==> Merged(parse, before[i], [ca], now, after[i])
  }

  function Retry(attempts: nat): Proc {
    if attempts > 1 then Waiting(attempts - 1) else Failed
  }

  ghost predicate Next(parse: Parser, cas: map<nat, Block>, s: State, step: Step, t: State) {
    match step
    case Tick(elapsed) => t == s.(clock := s.clock + elapsed)
    case Apply(bundles) =>
      s.config.None? && t == s.(config := Some(Config(1, bundles)), trail := [bundles])
    case Get(p, merged) =>
      && p in s.procs && p in cas && s.procs[p].Waiting?
      && var n := s.procs[p].attempts;
      if s.config.None? then t == s.(procs := s.procs[p := Retry(n)])
      else
        && MergedAll(parse, s.config.value.bundles, cas[p], s.clock, merged)
        && t == s.(procs := s.procs[p := Holding(n, s.config.value.version, merged, s.clock)])
    case Update(p) =>
      && p in s.procs && p in cas && s.procs[p].Holding? && s.config.Some?
      && var h := s.procs[p];
      if h.version == s.config.value.version then
        t == s.(config := Some(Config(h.version + 1, h.merged)), procs := s.procs[p := Done],
                history := s.history + [Merge(cas[p], h.at)], makers := s.makers + [p], trail := s.trail + [h.merged])
      else t == s.(procs := s.procs[p := Retry(h.attempts)])
    case Fatal(p) =>
      p in s.procs && (s.procs[p].Waiting? || s.procs[p].Holding?) && t == s.(procs := s.procs[p := Failed])
  }

  ghost predicate Init(cas: map<nat, Block>, budget: nat, s: State) {
    && s.procs == (map p | p in cas :: Waiting(budget))
    && s.history == [] && s.makers == []
    && (s.config.None? ==> s.trail == [])
    && (s.config.Some? ==> s.config.value.version == 1 && s.trail == [s.config.value.bundles])
  }

  ghost predicate IsRun(parse: Parser, cas: map<nat, Block>, budget: nat, states: seq<State>, steps: seq<Step>) {
    && |states| == |steps| + 1
    && Init(cas, budget, states[0])
    && forall k :: 0 <= k < |steps| ==> Next(parse, cas, states[k], steps[k], states[k + 1])
  }

  /** How webhook entry i evolved. */
  ghost function Column(trail: seq<seq<seq<Block>>>, i: nat): (c: seq<seq<Block>>)
    requires forall k :: 0 <= k < |trail| ==> i < |trail[k]|
    ensures |c| == |trail| && forall k :: 0 <= k < |c| ==> c[k] == trail[k][i]
  {
    seq(|trail|, k requires 0 <= k < |trail| => trail[k][i])
  }

  ghost predicate TrailOk(parse: Parser, s: State) {
    && (s.config.None? ==> s.history == [] && s.trail == [])
    && (s.config.Some? ==>
          && s.config.value.version == |s.history| + 1 == |s.trail|
          && s.trail[|s.history|] == s.config.value.bundles
          && forall k :: 0 <= k < |s.history| ==>
                           MergedAll(parse, s.trail[k], s.history[k].ca, s.history[k].time, s.trail[k + 1]))
  }

  ghost predicate TimesOk(s: State) {
    && InOrder(s.history)
    && forall k :: 0 <= k < |s.history| ==> s.history[k].time <= s.clock
  }

  /** A merge still based on the stored version is a merge into the stored bundles,
      made no earlier than the last accepted one. */
  ghost predicate HoldingOk(parse: Parser, ca: Block, s: State, h: Proc)
    requires h.Holding?
  {
    && h.at <= s.clock
    && s.config.Some? && h.version <= s.config.value.version
    && (h.version == s.config.value.version ==>
          && MergedAll(parse, s.config.value.bundles, ca, h.at, h.merged)
          && (s.history != [] ==> s.history[|s.history| - 1].time <= h.at))
  }

  /** Each accepted patch is that of one process, which is done, and offered its CA. */
  ghost predicate MakersOk(cas: map<nat, Block>, s: State) {
    && |s.makers| == |s.history|
    && (forall k :: 0 <= k < |s.makers| ==> OwnPatch(cas, s, k, s.makers[k]))
    && (forall i, j :: 0 <= i < j < |s.makers| ==> s.makers[i] != s.makers[j])
    && (forall p :: p in s.procs && s.procs[p].Done? ==> p in s.makers)
  }

  predicate OwnPatch(cas: map<nat, Block>, s: State, k: nat, p: nat) {
    && k < |s.history| && k < |s.makers| && s.makers[k] == p
    && p in cas && s.history[k].ca == cas[p] && p in s.procs && s.procs[p].Done?
  }

  ghost predicate Inv(parse: Parser, cas: map<nat, Block>, s: State) {
    && TrailOk(parse, s)
    && TimesOk(s)
    && s.procs.Keys == cas.Keys
    && (forall p :: p in s.procs && s.procs[p].Holding? ==> HoldingOk(parse, cas[p], s, s.procs[p]))
    && MakersOk(cas, s)
  }

  lemma StepKeepsInv(parse: Parser, cas: map<nat, Block>, s: State, step: Step, t: State)
    requires Inv(parse, cas, s) && Next(parse, cas, s, step, t)
    ensures Inv(parse, cas, t)
  {
    if step.Update? && s.procs[step.p].version == s.config.value.version {
      AcceptedPatchKeepsInv(parse, cas, s, step.p, t);
    } else {
      OtherStepKeepsMakers(parse, cas, s, step, t);
      OtherStepKeepsTrail(parse, cas, s, step, t);
      OtherStepKeepsHoldings(parse, cas, s, step, t);
    }
  }

  lemma OtherStepKeepsTrail(parse: Parser, cas: map<nat, Block>, s: State, step: Step, t: State)
    requires TrailOk(parse, s) && TimesOk(s) && Next(parse, cas, s, step, t)
    requires step.Update? ==> s.procs[step.p].version != s.config.value.version
    ensures TrailOk(parse, t) && TimesOk(t)
  {
  }

  lemma OtherStepKeepsHoldings(parse: Parser, cas: map<nat, Block>, s: State, step: Step, t: State)
    requires TimesOk(s) && s.procs.Keys == cas.Keys && Next(parse, cas, s, step, t)
    requires forall p :: p in s.procs && s.procs[p].Holding? ==> HoldingOk(parse, cas[p], s, s.procs[p])
    requires step.Update? ==> s.procs[step.p].version != s.config.value.version
    ensures t.procs.Keys == cas.Keys
    ensures forall p :: p in t.procs && t.procs[p].Holding? ==> HoldingOk(parse, cas[p], t, t.procs[p])
  {
    forall p | p in t.procs && t.procs[p].Holding? ensures HoldingOk(parse, cas[p], t, t.procs[p]) {
      if p in s.procs && s.procs[p].Holding? {
        assert HoldingOk(parse, cas[p], s, s.procs[p]);
      }
    }
  }

  lemma OtherStepKeepsMakers(parse: Parser, cas: map<nat, Block>, s: State, step: Step, t: State)
    requires MakersOk(cas, s) && Next(parse, cas, s, step, t)
    requires step.Update? ==> s.procs[step.p].version != s.config.value.version
    ensures MakersOk(cas, t)
  {
    forall k | 0 <= k < |t.makers| ensures OwnPatch(cas, t, k, t.makers[k]) {
      assert OwnPatch(cas, s, k, s.makers[k]);
    }
  }

  lemma AcceptedPatchKeepsInv(parse: Parser, cas: map<nat, Block>, s: State, p: nat, t: State)
    requires Inv(parse, cas, s) && Next(parse, cas, s, Update(p), t)
    requires s.procs[p].version == s.config.value.version
    ensures Inv(parse, cas, t)
  {
    var n := |s.history|;
    assert t.history[n] == Merge(cas[p], s.procs[p].at);
    forall k | 0 <= k < |t.history|
      ensures MergedAll(parse, t.trail[k], t.history[k].ca, t.history[k].time, t.trail[k + 1])
    {
      if k < n {
        assert t.trail[k] == s.trail[k] && t.trail[k + 1] == s.trail[k + 1] && t.history[k] == s.history[k];
      }
    }
    AcceptedPatchKeepsMakers(parse, cas, s, p, t);
  }

  lemma AcceptedPatchKeepsMakers(parse: Parser, cas: map<nat, Block>, s: State, p: nat, t: State)
    requires MakersOk(cas, s) && Next(parse, cas, s, Update(p), t)
    requires s.procs[p].version == s.config.value.version
    ensures MakersOk(cas, t)
  {
    var n := |s.history|;
    forall k | 0 <= k < |t.makers| ensures OwnPatch(cas, t, k, t.makers[k]) {
      if k < n {
        assert OwnPatch(cas, s, k, s.makers[k]);
      }
    }
    forall k | 0 <= k < |s.makers| ensures s.makers[k] != p {
      assert OwnPatch(cas, s, k, s.makers[k]);
    }
  }

  lemma {:induction false} RunsKeepInv(parse: Parser, cas: map<nat, Block>, budget: nat, states: seq<State>, steps: seq<Step>, n: nat)
    requires IsRun(parse, cas, budget, states, steps) && n < |states|
    ensures Inv(parse, cas, states[n])
  {
    if n > 0 {
      RunsKeepInv(parse, cas, budget, states, steps, n - 1);
      StepKeepsInv(parse, cas, states[n - 1], steps[n - 1], states[n]);
    }
  }

  lemma RowsHaveOneWidth(parse: Parser, s: State, k: nat)
    requires TrailOk(parse, s) && s.config.Some? && k < |s.trail|
    ensures |s.trail[k]| == |s.config.value.bundles|
    decreases |s.trail| - k
  {
    if k + 1 < |s.trail| {
      RowsHaveOneWidth(parse, s, k + 1);
      assert MergedAll(parse, s.trail[k], s.history[k].ca, s.history[k].time, s.trail[k + 1]);
    }
  }

  /** Every concurrent run writes each entry as some sequential chain of merges at
      nondecreasing times would. */
  lemma RunsAreSequentialChains(parse: Parser, s: State, i: nat) returns (bundles: seq<seq<Block>>)
    requires TrailOk(parse, s) && s.config.Some? && i < |s.config.value.bundles|
    ensures |bundles| == |s.trail|
    ensures forall k :: 0 <= k < |s.trail| ==> i < |s.trail[k]| && bundles[k] == s.trail[k][i]
    ensures bundles[|s.history|] == s.config.value.bundles[i]
    ensures IsChain(parse, s.history, bundles)
  {
    forall k | 0 <= k < |s.trail| ensures i < |s.trail[k]| {
      RowsHaveOneWidth(parse, s, k);
    }
    bundles := Column(s.trail, i);
    forall k | 0 <= k < |s.history|
      ensures Merged(parse, bundles[k], [s.history[k].ca], s.history[k].time, bundles[k + 1])
    {
      assert MergedAll(parse, s.trail[k], s.history[k].ca, s.history[k].time, s.trail[k + 1]);
    }
  }

  /** The certificate was expired at some accepted merge from the k-th on, or three
      others, live at that merge and issued no earlier, were then in its place. */
  ghost predicate Superseded(parse: Parser, s: State, i: nat, k: nat, ca: Block) {
    exists m :: k <= m < |s.history| && m + 1 < |s.trail| && i < |s.trail[m + 1]|
                && (|| !Live(parse, ca, s.history[m].time)
                    || Displaced(parse, ca, s.history[m].time, s.trail[m + 1][i]))
  }

  /** Once a process's patch has succeeded its CA is in every entry, in this state and
      every later one, until a merge from its own on finds it expired or displaced. */
  lemma PatchedCAStays(parse: Parser, cas: map<nat, Block>, budget: nat, states: seq<State>, steps: seq<Step>, n: nat, p: nat, i: nat)
    requires IsRun(parse, cas, budget, states, steps) && n < |states|
    requires p in states[n].procs && states[n].procs[p].Done?
    requires states[n].config.Some? && i < |states[n].config.value.bundles|
    ensures p in cas
    ensures exists k :: && OwnPatch(cas, states[n], k, p)
                        && (|| cas[p] in states[n].config.value.bundles[i]
                            || Superseded(parse, states[n], i, k, cas[p]))
  {
    RunsKeepInv(parse, cas, budget, states, steps, n);
    var s := states[n];
    var k :| 0 <= k < |s.makers| && s.makers[k] == p;
    assert OwnPatch(cas, s, k, p);
    var bundles := RunsAreSequentialChains(parse, s, i);
    CertificateIsRetained(parse, s.history, bundles, k, |s.history|);
    if cas[p] !in s.config.value.bundles[i] {
      var m :| k <= m < |s.history| && (|| !Live(parse, cas[p], s.history[m].time)
                                        || Displaced(parse, cas[p], s.history[m].time, bundles[m + 1]));
      assert bundles[m + 1] == s.trail[m + 1][i];
      assert Superseded(parse, s, i, k, cas[p]);
    }
  }

  lemma {:induction false} DoneStaysDone(parse: Parser, cas: map<nat, Block>, budget: nat, states: seq<State>, steps: seq<Step>, m: nat, n: nat, p: nat)
    requires IsRun(parse, cas, budget, states, steps) && m <= n < |states|
    requires p in states[m].procs && states[m].procs[p].Done?
    ensures p in states[n].procs && states[n].procs[p].Done?
    ensures states[m].config.Some? ==> states[n].config.Some?
    decreases n
  {
    if m < n {
      DoneStaysDone(parse, cas, budget, states, steps, m, n - 1, p);
      assert Next(parse, cas, states[n - 1], steps[n - 1], states[n]);
    }
  }

  /** With one lifetime for all, each entry holds the newest live certificates among the
      initial ones and those of every process that has succeeded. */
  lemma RunsKeepNewest(parse: Parser, cas: map<nat, Block>, budget: nat, states: seq<State>, steps: seq<Step>, n: nat, i: nat)
    requires IsRun(parse, cas, budget, states, steps) && n < |states|
    requires states[n].history != []
    requires states[n].config.Some? && i < |states[n].config.value.bundles|
    requires |states[n].trail| > 0 && i < |states[n].trail[0]|
    requires ExpiryFollowsIssue(parse, EverOffered(states[n].trail[0][i], states[n].history))
    ensures var s := states[n];
            Newest(parse, LivePool(parse, EverOffered(s.trail[0][i], s.history), s.history[|s.history| - 1].time),
                   s.config.value.bundles[i])
  {
    RunsKeepInv(parse, cas, budget, states, steps, n);
    var bundles := RunsAreSequentialChains(parse, states[n], i);
    ChainKeepsNewest(parse, states[n].history, bundles);
  }

  // ----- nobody starves

  ghost function Finished(s: State): (f: set<nat>)
    ensures f <= s.procs.Keys
  {
    set p | p in s.procs && s.procs[p].Done?
  }

  /** Each conflict a process has met was some other process's success. */
  ghost predicate BudgetInv(budget: nat, s: State) {
    && s.config.Some?
    && s.config.value.version == |s.history| + 1
    && |s.history| == |Finished(s)|
    && (forall p :: p in s.procs && s.procs[p].Waiting? ==> s.procs[p].attempts + |s.history| >= budget)
    && (forall p :: p in s.procs && s.procs[p].Holding? ==>
                      && s.procs[p].version <= s.config.value.version
                      && s.procs[p].attempts + s.procs[p].version >= budget + 1)
    && (forall p :: p in s.procs ==> !s.procs[p].Failed?)
  }

  lemma BudgetStep(parse: Parser, cas: map<nat, Block>, budget: nat, s: State, step: Step, t: State)
    requires BudgetInv(budget, s) && s.procs.Keys == cas.Keys && budget >= |cas|
    requires Next(parse, cas, s, step, t) && !step.Fatal?
    ensures BudgetInv(budget, t) && t.procs.Keys == cas.Keys
  {
    match step
    case Update(p) =>
      if s.procs[p].version == s.config.value.version {
        AcceptedKeepsBudget(parse, cas, budget, s, p, t);
      } else {
        ConflictKeepsBudget(parse, cas, budget, s, p, t);
      }
    case Get(p, _) =>
      assert Finished(t) == Finished(s);
    case Tick(_) =>
      assert Finished(t) == Finished(s);
    case _ =>
  }

  lemma AcceptedKeepsBudget(parse: Parser, cas: map<nat, Block>, budget: nat, s: State, p: nat, t: State)
    requires BudgetInv(budget, s) && s.procs.Keys == cas.Keys
    requires Next(parse, cas, s, Update(p), t) && s.procs[p].version == s.config.value.version
    ensures BudgetInv(budget, t) && t.procs.Keys == cas.Keys
  {
    assert Finished(t) == Finished(s) + {p};
  }

  lemma ConflictKeepsBudget(parse: Parser, cas: map<nat, Block>, budget: nat, s: State, p: nat, t: State)
    requires BudgetInv(budget, s) && s.procs.Keys == cas.Keys && budget >= |cas|
    requires Next(parse, cas, s, Update(p), t) && s.procs[p].version != s.config.value.version
    ensures BudgetInv(budget, t) && t.procs.Keys == cas.Keys
  {
    assert Finished(t) == Finished(s);
    SubsetLeavesRoom(Finished(s), cas.Keys, p);
    assert |cas.Keys| == |cas|;
  }

  lemma SubsetLeavesRoom(a: set<nat>, b: set<nat>, x: nat)
    requires a <= b && x in b && x !in a
    ensures |a| < |b|
  {
    assert a <= b - {x};
    assert b - {x} == a + (b - {x} - a);
  }

  /** With an attempt for every process, conflicts alone never make one give up: over
      every run on an existing object without fatal API errors, no process fails. */
  lemma {:induction false} ConflictsNeverExhaust(parse: Parser, cas: map<nat, Block>, budget: nat, states: seq<State>, steps: seq<Step>, n: nat)
    requires IsRun(parse, cas, budget, states, steps) && n < |states|
    requires states[0].config.Some?
    requires forall k :: 0 <= k < |steps| ==> !steps[k].Fatal?
    requires budget >= |cas|
    ensures forall p :: p in states[n].procs ==> !states[n].procs[p].Failed?
    ensures BudgetInv(budget, states[n]) && states[n].procs.Keys == cas.Keys
  {
    if n == 0 {
      assert Finished(states[0]) == {};
    } else {
      ConflictsNeverExhaust(parse, cas, budget, states, steps, n - 1);
      BudgetStep(parse, cas, budget, states[n - 1], steps[n - 1], states[n]);
    }
  }
}
