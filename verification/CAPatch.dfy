/** patchOneWebhookCABundle: one process's retry loop against the API server, and exactly
    when it succeeds (webhookcerts.go). */
module CAPatch {
  import opened Wrappers
  import opened CABundle
  import opened CAProtocol

  datatype ApiError = NotFound | Conflict | Other

  datatype OutsideWrite = Put(bundles: seq<seq<Block>>) | Remove

  /** What happens just before the server handles the next call: outside writes land,
      time passes, and the call may fail for a reason of its own. */
  datatype Turn = Turn(outside: seq<OutsideWrite>, elapsed: nat, fault: bool)

  const QUIET_TURN := Turn([], 0, false)

  function First(script: seq<Turn>): Turn {
    if script == [] then QUIET_TURN else script[0]
  }

  function Later(script: seq<Turn>): seq<Turn> {
    if script == [] then [] else script[1..]
  }

  /** The stored object, and the last version handed out for it. */
  datatype Hosted = Hosted(config: Option<Config>, last: nat)

  function AfterWrite(h: Hosted, w: OutsideWrite): Hosted {
    match w
    case Put(bundles) => Hosted(Some(Config(h.last + 1, bundles)), h.last + 1)
    case Remove => h.(config := None)
  }

  function AfterWrites(h: Hosted, ws: seq<OutsideWrite>): Hosted {
    if ws == [] then h else AfterWrite(AfterWrites(h, ws[..|ws| - 1]), ws[|ws| - 1])
  }

  predicate VersionIsLast(h: Hosted) {
    h.config.Some? ==> h.config.value.version == h.last
  }

  lemma {:induction false} VersionsOnlyGrow(h: Hosted, ws: seq<OutsideWrite>)
    requires VersionIsLast(h)
    ensures VersionIsLast(AfterWrites(h, ws)) && AfterWrites(h, ws).last >= h.last
  {
    if ws != [] {
      VersionsOnlyGrow(h, ws[..|ws| - 1]);
    }
  }

  /** A version names one content: it is still stored exactly if nothing was written. */
  lemma VersionNamesContent(h: Hosted, ws: seq<OutsideWrite>)
    requires VersionIsLast(h) && h.config.Some?
    ensures AfterWrites(h, ws).config.Some? && AfterWrites(h, ws).config.value.version == h.config.value.version
       <==> ws == []
  {
    if ws != [] {
      VersionsOnlyGrow(h, ws[..|ws| - 1]);
    }
  }

  function GetReply(h: Hosted, fault: bool): Result<Config, ApiError> {
    if fault then Err(Other) else if h.config.None? then Err(NotFound) else Ok(h.config.value)
  }

  /** Accepted only for the version the object still has. */
  function UpdateReply(h: Hosted, fault: bool, version: nat, bundles: seq<seq<Block>>): Result<Config, ApiError> {
    if fault then Err(Other)
    else if h.config.None? then Err(NotFound)
    else if h.config.value.version != version then Err(Conflict)
    else Ok(Config(h.last + 1, bundles))
  }

  /** The API server as one client sees it. */
  class WebhookServer {
    var hosted: Hosted
    var clock: int
    var script: seq<Turn>
    /** The objects this client replaced and what it stored instead. */
    ghost var accepted: seq<(Config, Config)>

    ghost predicate Valid()
      reads this
    {
      VersionIsLast(hosted)
    }

    constructor (hosted: Hosted, clock: int, script: seq<Turn>)
      requires VersionIsLast(hosted)
      ensures Valid() && this.hosted == hosted && this.clock == clock && this.script == script && accepted == []
    {
      this.hosted, this.clock, this.script, accepted := hosted, clock, script, [];
    }

    /** Lets the next scripted turn happen. */
    method Interleave() returns (fault: bool)
      requires Valid()
      modifies this`hosted, this`clock, this`script
      ensures Valid() && hosted == AfterWrites(old(hosted), First(old(script)).outside)
      ensures clock == old(clock) + First(old(script)).elapsed
      ensures script == Later(old(script)) && fault == First(old(script)).fault
    {
      var turn := First(script);
      for i := 0 to |turn.outside|
        invariant hosted == AfterWrites(old(hosted), turn.outside[..i])
        invariant clock == old(clock) && script == old(script)
      {
        assert turn.outside[..i + 1][..i] == turn.outside[..i];
        hosted := AfterWrite(hosted, turn.outside[i]);
      }
      assert turn.outside[..|turn.outside|] == turn.outside;
      VersionsOnlyGrow(old(hosted), turn.outside);
      fault, clock, script := turn.fault, clock + turn.elapsed, Later(script);
    }

    method Get() returns (r: Result<Config, ApiError>)
      requires Valid()
      modifies this`hosted, this`clock, this`script
      ensures Valid() && hosted == AfterWrites(old(hosted), First(old(script)).outside)
      ensures clock == old(clock) + First(old(script)).elapsed && script == Later(old(script))
      ensures r == GetReply(hosted, First(old(script)).fault)
    {
      var fault := Interleave();
      if fault {
        return Err(Other);
      }
      r := if hosted.config.None? then Err(NotFound) else Ok(hosted.config.value);
    }

    method Update(version: nat, bundles: seq<seq<Block>>) returns (r: Result<Config, ApiError>)
      requires Valid()
      modifies this
      ensures Valid()
      ensures clock == old(clock) + First(old(script)).elapsed && script == Later(old(script))
      ensures var h := AfterWrites(old(hosted), First(old(script)).outside);
              && r == UpdateReply(h, First(old(script)).fault, version, bundles)
              && (r.Err? ==> hosted == h && accepted == old(accepted))
              && (r.Ok? ==> hosted == Hosted(Some(r.value), h.last + 1)
                            && accepted == old(accepted) + [(h.config.value, r.value)])
    {
      var fault := Interleave();
      if fault {
        return Err(Other);
      }
      if hosted.config.None? {
        return Err(NotFound);
      }
      if hosted.config.value.version != version {
        return Err(Conflict);
      }
      var after := Config(hosted.last + 1, bundles);
      accepted := accepted + [(hosted.config.value, after)];
      hosted := Hosted(Some(after), hosted.last + 1);
      r := Ok(after);
    }
  }

  datatype Outcome = Patched | GaveUp | Abandoned(error: ApiError)

  /** Where the loop ends: `hosted` is what is stored before its own write, if it makes
      one, and `at` the time of the merge it writes. */
  datatype Fate = Fate(outcome: Outcome, hosted: Hosted, clock: int, at: int, rest: seq<Turn>)

  /** The loop as a function of the script: Get, and retry on NotFound. */
  function Patch(h: Hosted, clock: int, script: seq<Turn>, steps: nat): Fate
    decreases steps, 0
  {
    if steps == 0 then Fate(GaveUp, h, clock, clock, script)
    else
      var h1, now := AfterWrites(h, First(script).outside), clock + First(script).elapsed;
      if First(script).fault then Fate(Abandoned(Other), h1, now, now, Later(script))
      else if h1.config.None? then Patch(h1, now, Later(script), steps - 1)
      else PatchHolding(h1, now, Later(script), h1.config.value.version, now, steps - 1)
  }

  /** Its second half: Update, and retry on Conflict while attempts are left. */
  function PatchHolding(h: Hosted, clock: int, script: seq<Turn>, version: nat, at: int, left: nat): Fate
    decreases left, 1
  {
    var h1, now := AfterWrites(h, First(script).outside), clock + First(script).elapsed;
    if First(script).fault then Fate(Abandoned(Other), h1, now, at, Later(script))
    else if h1.config.None? then Fate(Abandoned(NotFound), h1, now, at, Later(script))
    else if h1.config.value.version != version then Patch(h1, now, Later(script), left)
    else Fate(Patched, h1, now, at, Later(script))
  }

  /** mergeCABundle on every webhook entry of the object just read. */
  method MergeEntries(parse: Parser, bundles: seq<seq<Block>>, ca: Block, now: int) returns (merged: seq<seq<Block>>)
    ensures MergedAll(parse, bundles, ca, now, merged)
  {
    merged := [];
    for i := 0 to |bundles|
      invariant |merged| == i
      invariant forall k :: 0 <= k < i ==> Merged(parse, bundles[k], [ca], now, merged[k])
    {
      var m := MergeCABundle(parse, bundles[i], [ca], now);
      merged := merged + [m];
    }
  }

  /** Retries on NotFound from Get and on Conflict from Update; anything else ends it. It
      ends as Patch says, for every script; if it succeeds it has made one write, which
      merged the CA into every entry of the very object it replaced, and otherwise none. */
  method PatchOneWebhookCABundle(server: WebhookServer, parse: Parser, ca: Block, backoffSteps: nat)
      returns (outcome: Outcome)
    requires server.Valid()
    modifies server
    ensures server.Valid()
    ensures var f := Patch(old(server.hosted), old(server.clock), old(server.script), backoffSteps);
            && outcome == f.outcome && server.clock == f.clock && server.script == f.rest
            && (!outcome.Patched? ==> server.hosted == f.hosted && server.accepted == old(server.accepted))
            && (outcome.Patched? ==>
                  && f.hosted.config.Some? && server.hosted.config.Some?
                  && server.hosted.config.value.version == f.hosted.config.value.version + 1
                  && MergedAll(parse, f.hosted.config.value.bundles, ca, f.at, server.hosted.config.value.bundles)
                  && server.accepted == old(server.accepted) + [(f.hosted.config.value, server.hosted.config.value)])
  {
    var steps := backoffSteps;
    while steps > 0
      invariant server.Valid() && server.accepted == old(server.accepted)
      invariant Patch(server.hosted, server.clock, server.script, steps)
             == Patch(old(server.hosted), old(server.clock), old(server.script), backoffSteps)
      decreases steps
    {
      steps := steps - 1;
      var got := server.Get();
      if got.Err? {
        if got.error == NotFound {
          continue;
        }
        return Abandoned(got.error);
      }
      ghost var read := server.hosted;
      var merged := MergeEntries(parse, got.value.bundles, ca, server.clock);
      VersionNamesContent(read, First(server.script).outside);
      var updated := server.Update(got.value.version, merged);
      if updated.Err? {
        if updated.error == Conflict {
          continue;
        }
        return Abandoned(updated.error);
      }
      return Patched;
    }
    outcome := GaveUp;
  }

  // ----- when it succeeds

  /** The object and the turns still to come, when an attempt starts. */
  datatype Net = Net(hosted: Hosted, script: seq<Turn>)

  function Read(n: Net): Hosted {
    AfterWrites(n.hosted, First(n.script).outside)
  }

  predicate Found(n: Net) {
    Read(n).config.Some?
  }

  /** What the Update of this attempt would meet. */
  function Met(n: Net): Hosted {
    AfterWrites(Read(n), First(Later(n.script)).outside)
  }

  predicate Faultless(n: Net) {
    !First(n.script).fault && (Found(n) ==> !First(Later(n.script)).fault)
  }

  /** The object is there, and nothing lands before the Update. */
  predicate Undisturbed(n: Net) {
    Found(n) && First(Later(n.script)).outside == []
  }

  /** The object is there for the Get, but not for the Update. */
  predicate Vanishes(n: Net) {
    Found(n) && Met(n).config.None?
  }

  function NextAttempt(n: Net): Net {
    if Found(n) then Net(Met(n), Later(Later(n.script))) else Net(Read(n), Later(n.script))
  }

  /** Where attempt k starts, if it is reached. */
  function Attempt(n: Net, k: nat): Net
    decreases k
  {
    if k == 0 then n else Attempt(NextAttempt(n), k - 1)
  }

  function ClockThen(n: Net, clock: int): int {
    clock + First(n.script).elapsed + if Found(n) then First(Later(n.script)).elapsed else 0
  }

  predicate Succeeds(n: Net) {
    Faultless(n) && Undisturbed(n)
  }

  predicate Retries(n: Net) {
    Faultless(n) && !Undisturbed(n) && !Vanishes(n)
  }

  predicate RetriesAt(n: Net, k: nat) {
    Retries(Attempt(n, k))
  }

  /** Attempt k succeeds, and is reached. */
  ghost predicate SucceedsAt(n: Net, k: nat) {
    Succeeds(Attempt(n, k)) && forall j :: 0 <= j < k ==> RetriesAt(n, j)
  }

  /** One attempt: succeeds, is retried, or ends the loop. */
  lemma OneAttempt(n: Net, clock: int, steps: nat)
    requires VersionIsLast(n.hosted) && steps > 0
    ensures VersionIsLast(NextAttempt(n).hosted)
    ensures var f, m := Patch(n.hosted, clock, n.script, steps), NextAttempt(n);
            && (Succeeds(n) ==> f.outcome.Patched?)
            && (Retries(n) ==> f == Patch(m.hosted, ClockThen(n, clock), m.script, steps - 1))
            && (!Succeeds(n) && !Retries(n) ==> f.outcome.Abandoned?)
  {
    VersionsOnlyGrow(n.hosted, First(n.script).outside);
    if Found(n) {
      VersionsOnlyGrow(Read(n), First(Later(n.script)).outside);
      VersionNamesContent(Read(n), First(Later(n.script)).outside);
    }
  }

  lemma ShiftAttempts(n: Net, k: nat)
    requires Retries(n)
    ensures SucceedsAt(n, k + 1) <==> SucceedsAt(NextAttempt(n), k)
  {
    var m := NextAttempt(n);
    assert Attempt(n, 0) == n;
    if SucceedsAt(n, k + 1) {
      forall j | 0 <= j < k ensures RetriesAt(m, j) {
        assert RetriesAt(n, j + 1);
      }
    }
    if SucceedsAt(m, k) {
      forall j | 0 <= j < k + 1 ensures RetriesAt(n, j) {
        if j > 0 {
          assert RetriesAt(m, j - 1);
        }
      }
    }
  }

  /** For every script and every number of attempts: the loop succeeds exactly when some
      attempt finds the object and nothing lands before its Update, and no request up to
      there failed or found the object just removed. */
  lemma {:induction false} PatchedIff(n: Net, clock: int, steps: nat)
    requires VersionIsLast(n.hosted)
    ensures Patch(n.hosted, clock, n.script, steps).outcome.Patched?
       <==> exists k: nat :: k < steps && SucceedsAt(n, k)
    decreases steps
  {
    if steps > 0 {
      OneAttempt(n, clock, steps);
      assert Attempt(n, 0) == n;
      if Succeeds(n) {
        assert SucceedsAt(n, 0);
      }
      forall k: nat | k > 0 && SucceedsAt(n, k) ensures Retries(n) {
        assert RetriesAt(n, 0);
      }
      if Retries(n) {
        var m := NextAttempt(n);
        PatchedIff(m, ClockThen(n, clock), steps - 1);
        if k: nat :| k < steps - 1 && SucceedsAt(m, k) {
          ShiftAttempts(n, k);
        }
        if k: nat :| k < steps && SucceedsAt(n, k) {
          ShiftAttempts(n, k - 1);
        }
      }
    }
  }

  /** It gives up exactly when every attempt it was allowed was a retriable failure. */
  lemma {:induction false} GaveUpIff(n: Net, clock: int, steps: nat)
    requires VersionIsLast(n.hosted)
    ensures Patch(n.hosted, clock, n.script, steps).outcome.GaveUp?
       <==> forall k: nat :: k < steps ==> RetriesAt(n, k)
    decreases steps
  {
    if steps > 0 {
      OneAttempt(n, clock, steps);
      assert RetriesAt(n, 0) == Retries(n);
      if Retries(n) {
        var m := NextAttempt(n);
        GaveUpIff(m, ClockThen(n, clock), steps - 1);
        forall k: nat | k < steps - 1 ensures RetriesAt(n, k + 1) == RetriesAt(m, k) {
        }
        if forall k: nat :: k < steps ==> RetriesAt(n, k) {
          forall k: nat | k < steps - 1 ensures RetriesAt(m, k) {
            assert RetriesAt(n, k + 1);
          }
        }
        forall k: nat | 0 < k < steps && RetriesAt(m, k - 1) ensures RetriesAt(n, k) {
        }
      }
    }
  }
}
