/** The throttled check for the ServiceMonitor CRD (serviceMonitorCRDAvailable in
    plant_controller.go): only negative answers are remembered, for one TTL. */
module MonitorProbe {
  const PROBE_TTL := 30

  /** One call: when it looks at the clock, whether the RESTMapper would find the CRD, and
      the clock when a failure is recorded. */
  datatype Call = Call(now: int, found: bool, after: int)

  predicate Throttled(until: int, now: int) {
    until != 0 && now < until
  }

  function Available(until: int, c: Call): bool {
    !Throttled(until, c.now) && c.found
  }

  function NextUntil(until: int, c: Call): int {
    if Throttled(until, c.now) then until
    else if c.found then 0
    else c.after + PROBE_TTL
  }

  /** The deadline in force before the k-th call of a process that just started. */
  function UntilAt(calls: seq<Call>, k: nat): int
    requires k <= |calls|
  {
    if k == 0 then 0 else NextUntil(UntilAt(calls, k - 1), calls[k - 1])
  }

  predicate Answer(calls: seq<Call>, k: nat)
    requires k < |calls|
  {
    Available(UntilAt(calls, k), calls[k])
  }

  /** The k-th call really asked the API server, and the CRD was not there. */
  predicate FailedProbe(calls: seq<Call>, k: nat)
    requires k < |calls|
  {
    !Throttled(UntilAt(calls, k), calls[k].now) && !calls[k].found
  }

  ghost predicate Sequential(calls: seq<Call>) {
    && (forall k :: 0 <= k < |calls| ==> 0 <= calls[k].now <= calls[k].after)
    && (forall i, j :: 0 <= i < j < |calls| ==> calls[i].after <= calls[j].now)
  }

  /** A deadline in force was set by the last failed probe, and nothing was asked since. */
  lemma {:induction false} DeadlineHasAProbe(calls: seq<Call>, k: nat) returns (j: nat)
    requires Sequential(calls) && k <= |calls| && UntilAt(calls, k) != 0
    ensures j < k && FailedProbe(calls, j) && UntilAt(calls, k) == calls[j].after + PROBE_TTL
    ensures forall m :: j < m < k ==> Throttled(UntilAt(calls, m), calls[m].now)
  {
    if Throttled(UntilAt(calls, k - 1), calls[k - 1].now) {
      j := DeadlineHasAProbe(calls, k - 1);
    } else {
      j := k - 1;
    }
  }

  /** No answer is stale by more than the TTL: false means the CRD was found missing less
      than 30 seconds ago, or just now; true means it was found by this very call. */
  lemma AnswersAreFresh(calls: seq<Call>, k: nat)
    requires Sequential(calls) && k < |calls|
    ensures Answer(calls, k) ==> calls[k].found && !Throttled(UntilAt(calls, k), calls[k].now)
    ensures !Answer(calls, k) ==>
              exists j :: 0 <= j <= k && FailedProbe(calls, j) && calls[k].now < calls[j].after + 30
  {
    if Throttled(UntilAt(calls, k), calls[k].now) {
      var j := DeadlineHasAProbe(calls, k);
    } else if !calls[k].found {
      assert FailedProbe(calls, k);
    }
  }

  lemma {:induction false} DeadlinesHold(calls: seq<Call>, i: nat, k: nat)
    requires Sequential(calls) && i < k <= |calls| && FailedProbe(calls, i)
    ensures || UntilAt(calls, k) == calls[i].after + PROBE_TTL
            || exists m :: i < m < k && calls[m].now >= calls[i].after + PROBE_TTL
    decreases k
  {
    if i + 1 < k {
      DeadlinesHold(calls, i, k - 1);
      if UntilAt(calls, k - 1) == calls[i].after + PROBE_TTL && !Throttled(UntilAt(calls, k - 1), calls[k - 1].now) {
        assert calls[k - 1].now >= calls[i].after + PROBE_TTL;
      }
    }
  }

  /** Failed probes are at least 30 seconds apart. */
  lemma FailedProbesAreSpaced(calls: seq<Call>, i: nat, j: nat)
    requires Sequential(calls) && i < j < |calls| && FailedProbe(calls, i) && FailedProbe(calls, j)
    ensures calls[j].now >= calls[i].after + 30
  {
    DeadlinesHold(calls, i, j);
  }

  lemma {:induction false} SpacedTimes(calls: seq<Call>, at: seq<nat>, m: nat)
    requires Sequential(calls) && m < |at|
    requires forall x :: 0 <= x < |at| ==> at[x] < |calls| && FailedProbe(calls, at[x])
    requires forall x, y :: 0 <= x < y < |at| ==> at[x] < at[y]
    ensures calls[at[m]].now >= calls[at[0]].now + m * 30
  {
    if m > 0 {
      SpacedTimes(calls, at, m - 1);
      FailedProbesAreSpaced(calls, at[m - 1], at[m]);
    }
  }

  /** A window of the given length sees at most length / 30 + 1 failed probes. */
  lemma FailedProbesInWindow(calls: seq<Call>, at: seq<nat>, length: nat)
    requires Sequential(calls) && at != []
    requires forall x :: 0 <= x < |at| ==> at[x] < |calls| && FailedProbe(calls, at[x])
    requires forall x, y :: 0 <= x < y < |at| ==> at[x] < at[y]
    requires calls[at[|at| - 1]].now - calls[at[0]].now <= length
    ensures |at| <= length / 30 + 1
  {
    SpacedTimes(calls, at, |at| - 1);
  }
}
