/** Every process of the concurrent protocol runs the retry loop: what the others did
    between its requests is its script (webhookcerts.go). */
module CARefinement {
  import opened CABundle
  import opened CAProtocol
  import opened CAPatch

  /** The turns before a process's requests so far, and the one now building up. */
  datatype Seen = Seen(done: seq<Turn>, pending: Turn)

  /** The update that process q would make now is accepted. */
  predicate Accepted(s: State, q: nat) {
    && q in s.procs && s.procs[q].Holding? && s.config.Some?
    && s.procs[q].version == s.config.value.version
  }

  function Closed(seen: Seen, fault: bool): Seen {
    Seen(seen.done + [seen.pending.(fault := fault)], QUIET_TURN)
  }

  /** What a step writes to the object, whoever makes it. */
  function WritesOf(s: State, step: Step): seq<OutsideWrite> {
    match step
    case Apply(bundles) => [Put(bundles)]
    case Update(q) => if Accepted(s, q) then [Put(s.procs[q].merged)] else []
    case _ => []
  }

  function TimeOf(step: Step): nat {
    if step.Tick? then step.elapsed else 0
  }

  predicate OwnStep(step: Step, p: nat) {
    (step.Get? || step.Update? || step.Fatal?) && step.p == p
  }

  function Extended(seen: Seen, w: seq<OutsideWrite>, elapsed: nat): Seen {
    seen.(pending := seen.pending.(outside := seen.pending.outside + w, elapsed := seen.pending.elapsed + elapsed))
  }

  /** One step of the run, as process p sees it: its own requests close a turn, and what
      anyone else does is part of the next one. */
  function SeenStep(seen: Seen, s: State, step: Step, p: nat): Seen {
    if OwnStep(step, p) then Closed(seen, step.Fatal?) else Extended(seen, WritesOf(s, step), TimeOf(step))
  }

  /** What process p has seen of the first n steps of a run. */
  function SeenBy(states: seq<State>, steps: seq<Step>, n: nat, p: nat): Seen
    requires n <= |steps| < |states|
  {
    if n == 0 then Seen([], QUIET_TURN) else SeenStep(SeenBy(states, steps, n - 1, p), states[n - 1], steps[n - 1], p)
  }

  function HostedOf(s: State): Hosted {
    Hosted(s.config, if s.config.Some? then s.config.value.version else 0)
  }

  /** The pending turn, joined to the first turn of what may still come. */
  function Joined(pending: Turn, rest: seq<Turn>): Turn {
    Turn(pending.outside + First(rest).outside, pending.elapsed + First(rest).elapsed, First(rest).fault)
  }

  function Whole(seen: Seen, rest: seq<Turn>): seq<Turn> {
    seen.done + [Joined(seen.pending, rest)] + Later(rest)
  }

  /** The loop that has come this far and the process are at the same point. */
  predicate SamePoint(f: Fate, proc: Proc, s: State, rest: seq<Turn>) {
    match proc
    case Waiting(k) => k > 0 && f == Patch(HostedOf(s), s.clock, rest, k)
    case Holding(k, version, _, at) => k > 0 && f == PatchHolding(HostedOf(s), s.clock, rest, version, at, k - 1)
    case Done => f.outcome.Patched?
    case Failed => !f.outcome.Patched?
  }

  lemma {:induction false} WritesConcat(h: Hosted, a: seq<OutsideWrite>, b: seq<OutsideWrite>)
    ensures AfterWrites(h, a + b) == AfterWrites(AfterWrites(h, a), b)
  {
    if b == [] {
      assert a + b == a;
    } else {
      assert (a + b)[..|a + b| - 1] == a + b[..|b| - 1];
      WritesConcat(h, a, b[..|b| - 1]);
    }
  }

  /** Time that passes, or a write that lands, before the next turn is part of it. */
  function Ahead(w: seq<OutsideWrite>, elapsed: nat, rest: seq<Turn>): seq<Turn> {
    [Turn(w + First(rest).outside, elapsed + First(rest).elapsed, First(rest).fault)] + Later(rest)
  }

  lemma AheadParts(w: seq<OutsideWrite>, elapsed: nat, rest: seq<Turn>)
    ensures var r := Ahead(w, elapsed, rest);
            && First(r) == Turn(w + First(rest).outside, elapsed + First(rest).elapsed, First(rest).fault)
            && Later(r) == Later(rest)
  {
  }

  lemma JoinedAhead(seen: Seen, w: seq<OutsideWrite>, elapsed: nat, rest: seq<Turn>)
    ensures Whole(Extended(seen, w, elapsed), rest) == Whole(seen, Ahead(w, elapsed, rest))
  {
    AheadParts(w, elapsed, rest);
    assert seen.pending.outside + w + First(rest).outside == seen.pending.outside + (w + First(rest).outside);
  }

  /** What a step writes is what the server then stores. */
  lemma StepIsItsWrites(parse: Parser, cas: map<nat, Block>, s: State, step: Step, t: State)
    requires Next(parse, cas, s, step, t)
    ensures HostedOf(t) == AfterWrites(HostedOf(s), WritesOf(s, step)) && t.clock == s.clock + TimeOf(step)
  {
    var w := WritesOf(s, step);
    if w != [] {
      assert w == [w[0]] && w[..0] == [];
      assert AfterWrites(HostedOf(s), []) == HostedOf(s);
    }
  }

  /** A step that is no request of process p leaves it where it is. */
  lemma OthersStep(parse: Parser, cas: map<nat, Block>, f: Fate, s: State, step: Step, t: State, p: nat, rest: seq<Turn>)
    requires p in s.procs && Next(parse, cas, s, step, t) && !OwnStep(step, p)
    requires SamePoint(f, s.procs[p], s, Ahead(WritesOf(s, step), TimeOf(step), rest))
    ensures p in t.procs && SamePoint(f, t.procs[p], t, rest)
  {
    StepIsItsWrites(parse, cas, s, step, t);
    OthersKeepProc(parse, cas, s, step, t, p);
    AheadOfPoint(f, s.procs[p], s, t, WritesOf(s, step), TimeOf(step), rest);
  }

  lemma OthersKeepProc(parse: Parser, cas: map<nat, Block>, s: State, step: Step, t: State, p: nat)
    requires p in s.procs && Next(parse, cas, s, step, t) && !OwnStep(step, p)
    ensures p in t.procs && t.procs[p] == s.procs[p]
  {
  }

  /** The loop does not tell what is in its next turn from what has already happened. */
  lemma AheadOfPoint(f: Fate, proc: Proc, s: State, t: State, w: seq<OutsideWrite>, elapsed: nat, rest: seq<Turn>)
    requires HostedOf(t) == AfterWrites(HostedOf(s), w) && t.clock == s.clock + elapsed
    requires SamePoint(f, proc, s, Ahead(w, elapsed, rest))
    ensures SamePoint(f, proc, t, rest)
  {
    if proc.Waiting? {
      AheadPatch(HostedOf(s), s.clock, w, elapsed, rest, proc.attempts);
    } else if proc.Holding? {
      AheadHolding(HostedOf(s), s.clock, w, elapsed, rest, proc.version, proc.at, proc.attempts - 1);
    }
  }

  lemma AheadPatch(h: Hosted, clock: int, w: seq<OutsideWrite>, elapsed: nat, rest: seq<Turn>, k: nat)
    requires k > 0
    ensures Patch(h, clock, Ahead(w, elapsed, rest), k) == Patch(AfterWrites(h, w), clock + elapsed, rest, k)
  {
    AheadParts(w, elapsed, rest);
    WritesConcat(h, w, First(rest).outside);
  }

  lemma AheadHolding(h: Hosted, clock: int, w: seq<OutsideWrite>, elapsed: nat, rest: seq<Turn>, version: nat, at: int, left: nat)
    ensures PatchHolding(h, clock, Ahead(w, elapsed, rest), version, at, left)
         == PatchHolding(AfterWrites(h, w), clock + elapsed, rest, version, at, left)
  {
    AheadParts(w, elapsed, rest);
    WritesConcat(h, w, First(rest).outside);
  }

  /** The turn before the process's own request, which nothing adds to, then what comes. */
  function OwnTurn(step: Step, rest: seq<Turn>): seq<Turn> {
    [Turn([], 0, step.Fatal?)] + ([Joined(QUIET_TURN, rest)] + Later(rest))
  }

  /** A request closes the pending turn. */
  lemma ClosedWhole(seen: Seen, fault: bool, rest: seq<Turn>)
    ensures Whole(Closed(seen, fault), rest)
         == Whole(seen, [Turn([], 0, fault)] + ([Joined(QUIET_TURN, rest)] + Later(rest)))
  {
    var next := [Turn([], 0, fault)] + ([Joined(QUIET_TURN, rest)] + Later(rest));
    assert First(next) == Turn([], 0, fault) && Later(next) == [Joined(QUIET_TURN, rest)] + Later(rest);
    assert seen.pending.outside + [] == seen.pending.outside;
  }

  /** An empty script and one that starts with a quiet turn run alike. */
  ghost predicate Alike(a: seq<Turn>, b: seq<Turn>) {
    First(a) == First(b) && Later(a) == Later(b)
  }

  lemma QuietTurnAdded(rest: seq<Turn>)
    ensures Alike([Joined(QUIET_TURN, rest)] + Later(rest), rest)
  {
    assert [] + First(rest).outside == First(rest).outside;
  }

  lemma AlikePatch(h: Hosted, clock: int, a: seq<Turn>, b: seq<Turn>, k: nat)
    requires Alike(a, b) && k > 0
    ensures Patch(h, clock, a, k) == Patch(h, clock, b, k)
  {
  }

  lemma AlikeHolding(h: Hosted, clock: int, a: seq<Turn>, b: seq<Turn>, version: nat, at: int, left: nat)
    requires Alike(a, b)
    ensures PatchHolding(h, clock, a, version, at, left) == PatchHolding(h, clock, b, version, at, left)
  {
  }

  /** One request of the loop, with nothing else in its turn. */
  lemma OwnGet(h: Hosted, clock: int, next: seq<Turn>, k: nat)
    requires First(next) == QUIET_TURN && k > 0
    ensures Patch(h, clock, next, k)
         == if h.config.None? then Patch(h, clock, Later(next), k - 1)
            else PatchHolding(h, clock, Later(next), h.config.value.version, clock, k - 1)
  {
    assert AfterWrites(h, []) == h;
  }

  lemma OwnUpdate(h: Hosted, clock: int, next: seq<Turn>, version: nat, at: int, left: nat)
    requires First(next) == QUIET_TURN && h.config.Some?
    ensures var f := PatchHolding(h, clock, next, version, at, left);
            if h.config.value.version == version then f.outcome.Patched? else f == Patch(h, clock, Later(next), left)
  {
    assert AfterWrites(h, []) == h;
  }

  lemma OwnFault(h: Hosted, clock: int, next: seq<Turn>, k: nat, version: nat, at: int, left: nat)
    requires First(next).fault
    ensures k > 0 ==> Patch(h, clock, next, k).outcome.Abandoned?
    ensures PatchHolding(h, clock, next, version, at, left).outcome.Abandoned?
  {
  }

  lemma OwnTurnParts(step: Step, rest: seq<Turn>)
    ensures First(OwnTurn(step, rest)) == Turn([], 0, step.Fatal?)
    ensures Alike(Later(OwnTurn(step, rest)), rest)
  {
    QuietTurnAdded(rest);
    assert Later(OwnTurn(step, rest)) == [Joined(QUIET_TURN, rest)] + Later(rest);
  }

  /** The process's own request. */
  lemma OwnRequest(parse: Parser, cas: map<nat, Block>, f: Fate, s: State, step: Step, t: State, p: nat, rest: seq<Turn>)
    requires p in s.procs && Next(parse, cas, s, step, t)
    requires OwnStep(step, p)
    requires SamePoint(f, s.procs[p], s, OwnTurn(step, rest))
    ensures p in t.procs && SamePoint(f, t.procs[p], t, rest)
  {
    OwnTurnParts(step, rest);
    OwnRequestAlike(parse, cas, f, s, step, t, p, OwnTurn(step, rest), rest);
  }

  lemma OwnRequestAlike(parse: Parser, cas: map<nat, Block>, f: Fate, s: State, step: Step, t: State, p: nat,
                        next: seq<Turn>, rest: seq<Turn>)
    requires p in s.procs && Next(parse, cas, s, step, t) && OwnStep(step, p)
    requires First(next) == Turn([], 0, step.Fatal?) && Alike(Later(next), rest)
    requires SamePoint(f, s.procs[p], s, next)
    ensures p in t.procs && SamePoint(f, t.procs[p], t, rest)
  {
    var h, proc := HostedOf(s), s.procs[p];
    match step
    case Fatal(_) =>
      if proc.Waiting? {
        OwnFault(h, s.clock, next, proc.attempts, 0, 0, 0);
      } else {
        OwnFault(h, s.clock, next, 0, proc.version, proc.at, proc.attempts - 1);
      }
    case Get(_, _) =>
      var k := proc.attempts;
      OwnGet(h, s.clock, next, k);
      if h.config.Some? {
        AlikeHolding(h, s.clock, Later(next), rest, h.config.value.version, s.clock, k - 1);
      } else if k > 1 {
        AlikePatch(h, s.clock, Later(next), rest, k - 1);
      }
    case Update(_) =>
      var left := proc.attempts - 1;
      OwnUpdate(h, s.clock, next, proc.version, proc.at, left);
      if left > 0 {
        AlikePatch(h, s.clock, Later(next), rest, left);
      }
  }

  /** What was still to come before a step, if `rest` is after it. */
  function BeforeStep(s: State, step: Step, p: nat, rest: seq<Turn>): seq<Turn> {
    if OwnStep(step, p) then OwnTurn(step, rest) else Ahead(WritesOf(s, step), TimeOf(step), rest)
  }

  lemma WholeStep(seen: Seen, s: State, step: Step, p: nat, rest: seq<Turn>)
    ensures Whole(SeenStep(seen, s, step, p), rest) == Whole(seen, BeforeStep(s, step, p, rest))
  {
    if OwnStep(step, p) {
      ClosedWhole(seen, step.Fatal?, rest);
    } else {
      JoinedAhead(seen, WritesOf(s, step), TimeOf(step), rest);
    }
  }

  lemma AnyStep(parse: Parser, cas: map<nat, Block>, f: Fate, s: State, step: Step, t: State, p: nat, rest: seq<Turn>)
    requires p in s.procs && Next(parse, cas, s, step, t)
    requires SamePoint(f, s.procs[p], s, BeforeStep(s, step, p, rest))
    ensures p in t.procs && SamePoint(f, t.procs[p], t, rest)
  {
    if OwnStep(step, p) {
      OwnRequest(parse, cas, f, s, step, t, p, rest);
    } else {
      OthersStep(parse, cas, f, s, step, t, p, rest);
    }
  }

  /** However the run goes on, the loop over what the process has seen is where the process
      is. */
  lemma {:induction false} LoopFollowsRun(parse: Parser, cas: map<nat, Block>, budget: nat, states: seq<State>, steps: seq<Step>,
                                          n: nat, p: nat, rest: seq<Turn>)
    requires IsRun(parse, cas, budget, states, steps) && n <= |steps| && p in cas && budget > 0
    ensures p in states[n].procs
    ensures SamePoint(Patch(HostedOf(states[0]), states[0].clock, Whole(SeenBy(states, steps, n, p), rest), budget),
                      states[n].procs[p], states[n], rest)
  {
    if n == 0 {
      QuietTurnAdded(rest);
      AlikePatch(HostedOf(states[0]), states[0].clock, [Joined(QUIET_TURN, rest)] + Later(rest), rest, budget);
      assert [] + [Joined(QUIET_TURN, rest)] + Later(rest) == [Joined(QUIET_TURN, rest)] + Later(rest);
    } else {
      var s, t, step, seen := states[n - 1], states[n], steps[n - 1], SeenBy(states, steps, n - 1, p);
      assert Next(parse, cas, s, step, t);
      var script := Whole(SeenBy(states, steps, n, p), rest);
      LoopFollowsRun(parse, cas, budget, states, steps, n - 1, p, BeforeStep(s, step, p, rest));
      WholeStep(seen, s, step, p, rest);
      assert script == Whole(seen, BeforeStep(s, step, p, rest));
      AnyStep(parse, cas, Patch(HostedOf(states[0]), states[0].clock, script, budget), s, step, t, p, rest);
    }
  }

  /** In every run of the protocol each process ends as its retry loop does on the script
      of what it saw: done exactly if the loop succeeds, failed only if it does not. */
  lemma RunsAreLoops(parse: Parser, cas: map<nat, Block>, budget: nat, states: seq<State>, steps: seq<Step>, n: nat, p: nat)
    requires IsRun(parse, cas, budget, states, steps) && n <= |steps| && p in cas && budget > 0
    ensures p in states[n].procs
    ensures var f := Patch(HostedOf(states[0]), states[0].clock, Whole(SeenBy(states, steps, n, p), []), budget);
            && (states[n].procs[p].Done? ==> f.outcome.Patched?)
            && (states[n].procs[p].Failed? ==> !f.outcome.Patched?)
  {
    LoopFollowsRun(parse, cas, budget, states, steps, n, p, []);
  }
}
