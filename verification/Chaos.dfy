/** The failure injector: its pure decisions (engine.go), the one place destructive calls
    are made (Execute in kube.go), and the polling loop (cmd/chaos-buddy/main.go). */
module Chaos {
  import opened Wrappers
  import opened Counting

  datatype Mode = PodKill | ReadinessFlap | Unsupported(name: string)

  datatype PodRef = PodRef(name: string, ns: string, uid: string, ip: string)

  datatype ActionKind = NoAction | KillPod | Flap

  datatype Decision = Decision(kind: ActionKind, target: Option<PodRef>)

  datatype ExecuteOutcome = Success | Failure | DryRun

  datatype Config = Config(targetNamespace: string, mode: Mode, dryRun: bool)

  datatype ClientCall =
    | ReadSwitch
    | ListPods(ns: string)
    | DeletePod(ns: string, name: string)
    | FlapReadiness(pod: PodRef)
    | EmitEvent(pod: PodRef, reason: string, warning: bool)

  /** What the outside world answers during one iteration. `draw` is the random source. */
  datatype Replies = Replies(enabled: bool, switchFails: bool, pods: Option<seq<PodRef>>, draw: nat,
                             actionFails: bool, eventFails: bool)

  // ----- decisions

  predicate SwitchPermits(enabled: bool, readFails: bool) {
    !readFails && enabled
  }

  function SelectPod(candidates: seq<PodRef>, draw: nat): Option<PodRef> {
    if candidates == [] then None else Some(candidates[draw % |candidates|])
  }

  predicate InTargetNamespace(pod: PodRef, ns: string) {
    pod.ns != "" && pod.ns == ns
  }

  function Decide(cfg: Config, enabled: bool, readFails: bool, candidates: seq<PodRef>, draw: nat): Decision {
    if !SwitchPermits(enabled, readFails) then Decision(NoAction, None)
    else
      var target := SelectPod(candidates, draw);
      if target.None? || !InTargetNamespace(target.value, cfg.targetNamespace) then Decision(NoAction, None)
      else
        match cfg.mode
        case PodKill => Decision(KillPod, target)
        case ReadinessFlap => Decision(Flap, target)
        case Unsupported(_) => Decision(NoAction, None)
  }

  function Reason(kind: ActionKind): string {
    match kind
    case KillPod => "ChaosPodKill"
    case Flap => "ChaosReadinessFlap"
    case NoAction => "ChaosUnknown"
  }

  // ----- the calls of one iteration

  function Act(kind: ActionKind, target: PodRef): seq<ClientCall> {
    match kind
    case KillPod => [DeletePod(target.ns, target.name)]
    case Flap => [FlapReadiness(target)]
    case NoAction => []
  }

  function ExecuteCalls(d: Decision, dryRun: bool): seq<ClientCall> {
    if d.kind.NoAction? || d.target.None? then []
    else if dryRun then [EmitEvent(d.target.value, Reason(d.kind), false)]
    else Act(d.kind, d.target.value) + [EmitEvent(d.target.value, Reason(d.kind), true)]
  }

  function ExecuteResult(d: Decision, dryRun: bool, r: Replies): Option<ExecuteOutcome> {
    if d.kind.NoAction? || d.target.None? then None
    else if dryRun then Some(DryRun)
    else Some(if r.actionFails then Failure else Success)
  }

  function IterationDecision(cfg: Config, r: Replies): Decision {
    if r.pods.None? then Decision(NoAction, None) else Decide(cfg, r.enabled, r.switchFails, r.pods.value, r.draw)
  }

  function IterationCalls(cfg: Config, r: Replies): seq<ClientCall> {
    [ReadSwitch, ListPods(cfg.targetNamespace)] + ExecuteCalls(IterationDecision(cfg, r), cfg.dryRun)
  }

  function IterationOutcome(cfg: Config, r: Replies): Option<ExecuteOutcome> {
    ExecuteResult(IterationDecision(cfg, r), cfg.dryRun, r)
  }

  function Trace(cfg: Config, inputs: seq<Replies>): seq<ClientCall> {
    if inputs == [] then [] else Trace(cfg, inputs[..|inputs| - 1]) + IterationCalls(cfg, inputs[|inputs| - 1])
  }

  function OutcomeCount(cfg: Config, inputs: seq<Replies>, o: ExecuteOutcome): nat {
    if inputs == [] then 0
    else OutcomeCount(cfg, inputs[..|inputs| - 1], o) + if IterationOutcome(cfg, inputs[|inputs| - 1]) == Some(o) then 1 else 0
  }

  // ----- the program

  /** PodClient, recording every call in order. */
  class Client {
    var calls: seq<ClientCall>
    var now: Replies

    constructor (now: Replies)
      ensures calls == [] && this.now == now
    {
      calls, this.now := [], now;
    }

    method Read() returns (enabled: bool, fails: bool)
      modifies this`calls
      ensures calls == old(calls) + [ReadSwitch] && enabled == now.enabled && fails == now.switchFails
    {
      calls := calls + [ReadSwitch];
      enabled, fails := now.enabled, now.switchFails;
    }

    method List(ns: string) returns (pods: Option<seq<PodRef>>)
      modifies this`calls
      ensures calls == old(calls) + [ListPods(ns)] && pods == now.pods
    {
      calls := calls + [ListPods(ns)];
      pods := now.pods;
    }

    method Delete(ns: string, name: string) returns (fails: bool)
      modifies this`calls
      ensures calls == old(calls) + [DeletePod(ns, name)] && fails == now.actionFails
    {
      calls := calls + [DeletePod(ns, name)];
      fails := now.actionFails;
    }

    method FlapPod(pod: PodRef) returns (fails: bool)
      modifies this`calls
      ensures calls == old(calls) + [FlapReadiness(pod)] && fails == now.actionFails
    {
      calls := calls + [FlapReadiness(pod)];
      fails := now.actionFails;
    }

    method Emit(pod: PodRef, reason: string, warning: bool) returns (fails: bool)
      modifies this`calls
      ensures calls == old(calls) + [EmitEvent(pod, reason, warning)] && fails == now.eventFails
    {
      calls := calls + [EmitEvent(pod, reason, warning)];
      fails := now.eventFails;
    }
  }

  class Metrics {
    var actions: map<(Mode, ExecuteOutcome), nat>
    var enabled: bool

    constructor ()
      ensures actions == map[] && !enabled
    {
      actions, enabled := map[], false;
    }

    function Count(mode: Mode, o: ExecuteOutcome): nat
      reads this
    {
      if (mode, o) in actions then actions[(mode, o)] else 0
    }

    method RecordAction(mode: Mode, o: ExecuteOutcome)
      modifies this`actions
      ensures forall m, x :: Count(m, x) == old(Count(m, x)) + if m == mode && x == o then 1 else 0
    {
      actions := actions[(mode, o) := Count(mode, o) + 1];
    }
  }

  /** An event that cannot be emitted is reported, but never changes the outcome. */
  method Execute(client: Client, d: Decision, dryRun: bool) returns (outcome: Option<ExecuteOutcome>, err: bool)
    modifies client`calls
    ensures client.calls == old(client.calls) + ExecuteCalls(d, dryRun)
    ensures outcome == ExecuteResult(d, dryRun, client.now)
    ensures err <==> outcome.Some? && (client.now.eventFails || outcome == Some(Failure))
  {
    if d.kind.NoAction? || d.target.None? {
      return None, false;
    }
    var target, reason := d.target.value, Reason(d.kind);
    if dryRun {
      err := client.Emit(target, reason, false);
      return Some(DryRun), err;
    }
    var actionFails;
    if d.kind.KillPod? {
      actionFails := client.Delete(target.ns, target.name);
    } else {
      actionFails := client.FlapPod(target);
    }
    var eventFails := client.Emit(target, reason, true);
    if actionFails {
      return Some(Failure), true;
    }
    return Some(Success), eventFails;
  }

  method RunIteration(client: Client, cfg: Config, metrics: Metrics)
    modifies client`calls, metrics
    ensures client.calls == old(client.calls) + IterationCalls(cfg, client.now)
    ensures metrics.enabled <==> client.now.enabled && !client.now.switchFails
    ensures forall m, o :: metrics.Count(m, o) == old(metrics.Count(m, o))
                                                 + if m == cfg.mode && IterationOutcome(cfg, client.now) == Some(o) then 1 else 0
  {
    var enabled, switchFails := client.Read();
    metrics.enabled := SwitchPermits(enabled, switchFails);
    var pods := client.List(cfg.targetNamespace);
    if pods.None? {
      return;
    }
    var decision := Decide(cfg, enabled, switchFails, pods.value, client.now.draw);
    if decision.kind.NoAction? {
      return;
    }
    var outcome, _ := Execute(client, decision, cfg.dryRun);
    if outcome.Some? {
      metrics.RecordAction(cfg.mode, outcome.value);
    }
  }

  /** The calls so far, followed by those of the iterations. */
  function TraceAfter(calls: seq<ClientCall>, cfg: Config, inputs: seq<Replies>): seq<ClientCall> {
    if inputs == [] then calls
    else TraceAfter(calls, cfg, inputs[..|inputs| - 1]) + IterationCalls(cfg, inputs[|inputs| - 1])
  }

  lemma {:induction false} TraceFollows(calls: seq<ClientCall>, cfg: Config, inputs: seq<Replies>)
    ensures TraceAfter(calls, cfg, inputs) == calls + Trace(cfg, inputs)
  {
    if inputs != [] {
      TraceFollows(calls, cfg, inputs[..|inputs| - 1]);
    }
  }

  lemma OneMoreIteration(calls: seq<ClientCall>, cfg: Config, inputs: seq<Replies>, i: nat)
    requires i < |inputs|
    ensures TraceAfter(calls, cfg, inputs[..i + 1]) == TraceAfter(calls, cfg, inputs[..i]) + IterationCalls(cfg, inputs[i])
    ensures forall o :: OutcomeCount(cfg, inputs[..i + 1], o)
                     == OutcomeCount(cfg, inputs[..i], o) + if IterationOutcome(cfg, inputs[i]) == Some(o) then 1 else 0
  {
    assert inputs[..i + 1][..i] == inputs[..i];
  }

  /** One iteration per tick, whatever the outside answers. */
  method RunLoop(client: Client, cfg: Config, metrics: Metrics, inputs: seq<Replies>)
    modifies client, metrics
    ensures client.calls == old(client.calls) + Trace(cfg, inputs)
    ensures forall o :: metrics.Count(cfg.mode, o) == old(metrics.Count(cfg.mode, o)) + OutcomeCount(cfg, inputs, o)
  {
    for i := 0 to |inputs|
      invariant client.calls == TraceAfter(old(client.calls), cfg, inputs[..i])
      invariant forall o :: metrics.Count(cfg.mode, o) == old(metrics.Count(cfg.mode, o)) + OutcomeCount(cfg, inputs[..i], o)
    {
      client.now := inputs[i];
      RunIteration(client, cfg, metrics);
      OneMoreIteration(old(client.calls), cfg, inputs, i);
    }
    assert inputs[..|inputs|] == inputs;
    TraceFollows(old(client.calls), cfg, inputs);
  }

  // ----- safety over every run

  predicate Destructive(c: ClientCall) {
    c.DeletePod? || c.FlapReadiness?
  }

  function DestructiveCount(calls: seq<ClientCall>): nat {
    if calls == [] then 0 else DestructiveCount(calls[..|calls| - 1]) + if Destructive(calls[|calls| - 1]) then 1 else 0
  }

  function Drawn(r: Replies): PodRef
    requires r.pods.Some? && r.pods.value != []
  {
    r.pods.value[r.draw % |r.pods.value|]
  }

  /** The switch was read, without an error, as on, and a pod of the target namespace was
      drawn from those listed, in a supported mode. */
  predicate Entitled(cfg: Config, r: Replies) {
    && r.enabled && !r.switchFails
    && r.pods.Some? && r.pods.value != []
    && Drawn(r).ns == cfg.targetNamespace != ""
    && (cfg.mode == PodKill || cfg.mode == ReadinessFlap)
  }

  /** The one destructive call the iteration may make: outside a dry run, what the mode
      says, on the drawn pod. */
  function PermittedCalls(cfg: Config, r: Replies): seq<ClientCall> {
    if !Entitled(cfg, r) || cfg.dryRun then []
    else [if cfg.mode == PodKill then DeletePod(Drawn(r).ns, Drawn(r).name) else FlapReadiness(Drawn(r))]
  }

  predicate Permitted(cfg: Config, r: Replies, c: ClientCall) {
    c in PermittedCalls(cfg, r)
  }

  /** The one event it may emit: about the drawn pod, and a warning outside a dry run. */
  function Narration(cfg: Config, r: Replies): seq<ClientCall> {
    if !Entitled(cfg, r) then []
    else [EmitEvent(Drawn(r), if cfg.mode == PodKill then "ChaosPodKill" else "ChaosReadinessFlap", !cfg.dryRun)]
  }

  /** An iteration makes exactly these calls, in this order: the two reads, then the
      permitted call, if there is one, and then the event. */
  lemma IterationMakesExactly(cfg: Config, r: Replies)
    ensures IterationCalls(cfg, r) == [ReadSwitch, ListPods(cfg.targetNamespace)] + PermittedCalls(cfg, r) + Narration(cfg, r)
  {
    DecisionIffEntitled(cfg, r);
    assert ExecuteCalls(IterationDecision(cfg, r), cfg.dryRun) == PermittedCalls(cfg, r) + Narration(cfg, r);
  }

  lemma DecisionIffEntitled(cfg: Config, r: Replies)
    ensures IterationDecision(cfg, r)
         == if !Entitled(cfg, r) then Decision(NoAction, None)
            else Decision(if cfg.mode == PodKill then KillPod else Flap, Some(Drawn(r)))
  {
  }

  lemma {:induction false} DestructiveConcat(a: seq<ClientCall>, b: seq<ClientCall>)
    ensures DestructiveCount(a + b) == DestructiveCount(a) + DestructiveCount(b)
  {
    if b == [] {
      assert a + b == a;
    } else {
      assert (a + b)[..|a + b| - 1] == a + b[..|b| - 1];
      DestructiveConcat(a, b[..|b| - 1]);
    }
  }

  /** At most one destructive call per iteration, and one exactly when it is counted as a
      success or a failure. */
  lemma IterationCount(cfg: Config, r: Replies)
    ensures DestructiveCount(IterationCalls(cfg, r))
         == if IterationOutcome(cfg, r) == Some(Success) || IterationOutcome(cfg, r) == Some(Failure) then 1 else 0
  {
    var d := IterationDecision(cfg, r);
    var tail := ExecuteCalls(d, cfg.dryRun);
    DestructiveConcat([ReadSwitch, ListPods(cfg.targetNamespace)], tail);
    assert DestructiveCount([ReadSwitch, ListPods(cfg.targetNamespace)]) == 0 by {
      var pre := [ReadSwitch, ListPods(cfg.targetNamespace)];
      assert pre[..|pre| - 1] == [ReadSwitch] && [ReadSwitch][..0] == [];
      assert DestructiveCount([ReadSwitch]) == 0;
    }
    if tail != [] && !cfg.dryRun {
      assert tail[..1] == Act(d.kind, d.target.value);
    }
  }

  ghost predicate PermittedInSome(cfg: Config, inputs: seq<Replies>, c: ClientCall) {
    exists i :: 0 <= i < |inputs| && Permitted(cfg, inputs[i], c)
  }

  lemma PermittedInFrontOrLast(cfg: Config, inputs: seq<Replies>, c: ClientCall)
    requires inputs != []
    ensures var n := |inputs| - 1;
            PermittedInSome(cfg, inputs, c) <==> PermittedInSome(cfg, inputs[..n], c) || Permitted(cfg, inputs[n], c)
  {
    var n := |inputs| - 1;
    assert forall i :: 0 <= i < n ==> inputs[..n][i] == inputs[i];
  }

  /** Over every run the destructive calls are exactly the permitted ones of its
      iterations: pods are deleted only in pod-kill mode and made unready only in
      readiness-flap mode, and only the pod drawn. */
  lemma {:induction false} RunsMakeExactly(cfg: Config, inputs: seq<Replies>, c: ClientCall)
    requires Destructive(c)
    ensures c in Trace(cfg, inputs) <==> PermittedInSome(cfg, inputs, c)
  {
    if inputs != [] {
      RunsMakeExactly(cfg, inputs[..|inputs| - 1], c);
      PermittedInFrontOrLast(cfg, inputs, c);
      DestroysExactly(cfg, inputs[|inputs| - 1], c);
    }
  }

  lemma DestroysExactly(cfg: Config, r: Replies, c: ClientCall)
    requires Destructive(c)
    ensures c in IterationCalls(cfg, r) <==> Permitted(cfg, r, c)
  {
    IterationMakesExactly(cfg, r);
  }

  /** The counters account for every destructive call ever made. */
  lemma {:induction false} CountersMatchCalls(cfg: Config, inputs: seq<Replies>)
    ensures DestructiveCount(Trace(cfg, inputs))
         == OutcomeCount(cfg, inputs, Success) + OutcomeCount(cfg, inputs, Failure)
    ensures DestructiveCount(Trace(cfg, inputs)) <= |inputs|
  {
    if inputs != [] {
      var n := |inputs| - 1;
      CountersMatchCalls(cfg, inputs[..n]);
      IterationCount(cfg, inputs[n]);
      DestructiveConcat(Trace(cfg, inputs[..n]), IterationCalls(cfg, inputs[n]));
    }
  }

  /** An iteration acts, once, exactly when it is entitled to and dry-run is off. */
  lemma PermittedIterationActs(cfg: Config, r: Replies)
    ensures DestructiveCount(IterationCalls(cfg, r)) == if Entitled(cfg, r) && !cfg.dryRun then 1 else 0
  {
    IterationCount(cfg, r);
    DecisionIffEntitled(cfg, r);
  }

  /** What became of an iteration: a failure is one that acted and whose call failed,
      whether or not the event could be emitted. */
  predicate CameTo(cfg: Config, r: Replies, o: ExecuteOutcome) {
    && Entitled(cfg, r)
    && match o
       case Success => !cfg.dryRun && !r.actionFails
       case Failure => !cfg.dryRun && r.actionFails
       case DryRun => cfg.dryRun
  }

  lemma OutcomeIffCameTo(cfg: Config, r: Replies, o: ExecuteOutcome)
    ensures IterationOutcome(cfg, r) == Some(o) <==> CameTo(cfg, r, o)
  {
    DecisionIffEntitled(cfg, r);
  }

  lemma {:induction false} CountersCountMatches(cfg: Config, inputs: seq<Replies>, o: ExecuteOutcome)
    ensures OutcomeCount(cfg, inputs, o) == CountIf(inputs, r => CameTo(cfg, r, o))
  {
    if inputs != [] {
      CountersCountMatches(cfg, inputs[..|inputs| - 1], o);
      OutcomeIffCameTo(cfg, inputs[|inputs| - 1], o);
    }
  }

  /** Each counter is the number of iterations that came to its outcome. */
  lemma CountersCountOutcomes(cfg: Config, inputs: seq<Replies>, o: ExecuteOutcome)
    ensures OutcomeCount(cfg, inputs, o) == |set i | 0 <= i < |inputs| && CameTo(cfg, inputs[i], o)|
  {
    CountersCountMatches(cfg, inputs, o);
    CountIsIndices(inputs, r => CameTo(cfg, r, o));
    assert IndicesOf(inputs, r => CameTo(cfg, r, o)) == set i | 0 <= i < |inputs| && CameTo(cfg, inputs[i], o);
  }
}
