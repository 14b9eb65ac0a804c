/** The status write of reconcileStatus (plant_controller.go): the decision is made once,
    only the write is retried, while users go on editing the Plant. */
module StatusWrites {
  import opened Wrappers
  import opened Objects
  import opened ApiServer

  /** What others do to a Plant between two of the operator's requests. */
  datatype PlantEdit =
    | EditSpec(spec: PlantSpec)
    | EditMetadata(unowned: Fields)
    | Delete
    | Create(uid: string, spec: PlantSpec)

  const NO_STATUS := PlantStatus("", 0, 0, 0, 0, None, [])

  /** Every accepted edit gets a new version; only a spec change a new generation. */
  function ApplyEdit(s: Store, id: PlantId, e: PlantEdit): Store {
    var s' := s.(next := s.next + 1);
    if id in s.plants then
      var p := s.plants[id].(resourceVersion := s.next);
      match e
      case EditSpec(spec) =>
        var generation := if spec == p.spec then p.generation else p.generation + 1;
        s'.(plants := s.plants[id := p.(spec := spec, generation := generation)])
      case EditMetadata(unowned) => s'.(plants := s.plants[id := p.(unowned := unowned)])
      case Delete => s'.(plants := s.plants - {id})
      case Create(_, _) => s
    else if e.Create? then
      s'.(plants := s.plants[id := Plant(id, e.uid, s.next, 1, false, map[], e.spec, NO_STATUS)])
    else s
  }

  function ApplyEdits(s: Store, id: PlantId, es: seq<PlantEdit>): Store
    decreases |es|
  {
    if es == [] then s else ApplyEdits(ApplyEdit(s, id, es[0]), id, es[1..])
  }

  /** The i-th entry of a script lands just before the operator's i-th request. */
  function EditsAt(script: seq<seq<PlantEdit>>, i: nat): seq<PlantEdit> {
    if i < |script| then script[i] else []
  }

  function Rest(script: seq<seq<PlantEdit>>, n: nat): seq<seq<PlantEdit>> {
    if n <= |script| then script[n..] else []
  }

  const RETRY_STEPS: nat := 5

  datatype Retried = Retried(store: Store, script: seq<seq<PlantEdit>>, outcome: Result<Plant, ApiError>)

  /** Update, and on a conflict read again, put the decided status on what was read, and
      update once more, up to `steps` times. */
  function RetryStatusWrite(s: Store, script: seq<seq<PlantEdit>>, p: Plant, status: PlantStatus, steps: nat): Retried
    decreases steps
  {
    if steps == 0 then Retried(s, script, Err(Conflict))
    else
      var (s1, r) := UpdateStatus(ApplyEdits(s, p.id, EditsAt(script, 0)), p.(status := status));
      if r.Ok? || r.error != Conflict then Retried(s1, Rest(script, 1), r)
      else
        var s2 := ApplyEdits(s1, p.id, EditsAt(script, 1));
        if p.id !in s2.plants then Retried(s2, Rest(script, 2), Err(NotFound))
        else RetryStatusWrite(s2, Rest(script, 2), s2.plants[p.id], status, steps - 1)
  }

  // ----- the user's side of a Plant

  /** Everything but the status and the version. */
  function UserView(s: Store, id: PlantId): Option<Plant> {
    if id in s.plants then Some(s.plants[id].(resourceVersion := 0, status := NO_STATUS)) else None
  }

  function Flatten(script: seq<seq<PlantEdit>>): seq<PlantEdit> {
    if script == [] then [] else script[0] + Flatten(script[1..])
  }

  lemma {:induction false} EditsRespectView(s: Store, t: Store, id: PlantId, es: seq<PlantEdit>)
    requires UserView(s, id) == UserView(t, id)
    ensures UserView(ApplyEdits(s, id, es), id) == UserView(ApplyEdits(t, id, es), id)
    decreases |es|
  {
    if es != [] {
      EditRespectsView(s, t, id, es[0]);
      EditsRespectView(ApplyEdit(s, id, es[0]), ApplyEdit(t, id, es[0]), id, es[1..]);
    }
  }

  lemma EditRespectsView(s: Store, t: Store, id: PlantId, e: PlantEdit)
    requires UserView(s, id) == UserView(t, id)
    ensures UserView(ApplyEdit(s, id, e), id) == UserView(ApplyEdit(t, id, e), id)
  {
    if id in s.plants {
      var p, q := s.plants[id], t.plants[id];
      assert p.spec == UserView(s, id).value.spec == q.spec;
      assert p.generation == UserView(s, id).value.generation == q.generation;
      assert p == UserView(s, id).value.(resourceVersion := p.resourceVersion, status := p.status);
      assert q == UserView(t, id).value.(resourceVersion := q.resourceVersion, status := q.status);
    }
  }

  lemma {:induction false} EditsConcat(s: Store, id: PlantId, a: seq<PlantEdit>, b: seq<PlantEdit>)
    ensures ApplyEdits(s, id, a + b) == ApplyEdits(ApplyEdits(s, id, a), id, b)
    decreases |a|
  {
    if a == [] {
      assert a + b == b;
    } else {
      assert (a + b)[1..] == a[1..] + b;
      EditsConcat(ApplyEdit(s, id, a[0]), id, a[1..], b);
    }
  }

  /** The edits of the script up to where `rest` is what is left of it. */
  function LandedBefore(script: seq<seq<PlantEdit>>, rest: seq<seq<PlantEdit>>): seq<PlantEdit> {
    if |rest| <= |script| then Flatten(script[..|script| - |rest|]) else []
  }

  /** The edits that landed while the write was being retried. */
  function Landed(script: seq<seq<PlantEdit>>, r: Retried): seq<PlantEdit> {
    LandedBefore(script, r.script)
  }

  ghost predicate IsSuffix(rest: seq<seq<PlantEdit>>, script: seq<seq<PlantEdit>>) {
    |rest| <= |script| && rest == script[|script| - |rest|..]
  }

  lemma SuffixOfRest(rest: seq<seq<PlantEdit>>, script: seq<seq<PlantEdit>>, n: nat)
    requires IsSuffix(rest, Rest(script, n))
    ensures IsSuffix(rest, script)
  {
    if n <= |script| {
      assert script[n..][|script[n..]| - |rest|..] == script[|script| - |rest|..];
    }
  }

  lemma {:induction false} RestIsSuffix(s: Store, script: seq<seq<PlantEdit>>, p: Plant, status: PlantStatus, steps: nat)
    ensures IsSuffix(RetryStatusWrite(s, script, p, status, steps).script, script)
    decreases steps
  {
    if steps > 0 {
      var (s1, r) := UpdateStatus(ApplyEdits(s, p.id, EditsAt(script, 0)), p.(status := status));
      if r.Err? && r.error == Conflict {
        var s2 := ApplyEdits(s1, p.id, EditsAt(script, 1));
        if p.id in s2.plants {
          RestIsSuffix(s2, Rest(script, 2), s2.plants[p.id], status, steps - 1);
          SuffixOfRest(RetryStatusWrite(s2, Rest(script, 2), s2.plants[p.id], status, steps - 1).script, script, 2);
        } else {
          SuffixOfRest(Rest(script, 2), script, 2);
        }
      } else {
        SuffixOfRest(Rest(script, 1), script, 1);
      }
    }
  }

  lemma FlattenStep(script: seq<seq<PlantEdit>>, k: nat)
    requires k <= |script|
    ensures k >= 1 ==> Flatten(script[..k]) == EditsAt(script, 0) + Flatten(script[1..k])
    ensures k >= 2 ==> Flatten(script[..k]) == EditsAt(script, 0) + (EditsAt(script, 1) + Flatten(Rest(script, 2)[..k - 2]))
  {
    if k >= 1 {
      assert script[..k][1..] == script[1..k];
    }
    if k >= 2 {
      assert script[1..k][1..] == script[2..k] == Rest(script, 2)[..k - 2];
    }
  }

  /** No user edit is lost: but for status and version, the Plant ends as if the operator
      had not been there. */
  lemma {:induction false} UserEditsSurvive(s: Store, script: seq<seq<PlantEdit>>, p: Plant, status: PlantStatus, steps: nat)
    requires forall id :: id in s.plants ==> s.plants[id].id == id
    ensures var r := RetryStatusWrite(s, script, p, status, steps);
            UserView(r.store, p.id) == UserView(ApplyEdits(s, p.id, Landed(script, r)), p.id)
    decreases steps
  {
    if steps > 0 {
      var s0 := ApplyEdits(s, p.id, EditsAt(script, 0));
      var (s1, u) := UpdateStatus(s0, p.(status := status));
      assert UserView(s1, p.id) == UserView(s0, p.id);
      if u.Ok? || u.error != Conflict {
        FirstTurnOnly(script);
      } else {
        var s2 := ApplyEdits(s1, p.id, EditsAt(script, 1));
        EditsRespectView(s1, s0, p.id, EditsAt(script, 1));
        EditsConcat(s, p.id, EditsAt(script, 0), EditsAt(script, 1));
        EditsKeepIds(s, p.id, EditsAt(script, 0));
        EditsKeepIds(s1, p.id, EditsAt(script, 1));
        if p.id !in s2.plants {
          FirstTwoTurns(script);
        } else {
          UserEditsSurvive(s2, Rest(script, 2), s2.plants[p.id], status, steps - 1);
          RestIsSuffix(s2, Rest(script, 2), s2.plants[p.id], status, steps - 1);
          var r := RetryStatusWrite(s2, Rest(script, 2), s2.plants[p.id], status, steps - 1);
          LaterEditsCompose(s, script, p.id, s2, r);
        }
      }
    } else {
      assert script[..0] == [];
    }
  }

  /** Edits that landed during one failed attempt and the rest, put together. */
  lemma LaterEditsCompose(s: Store, script: seq<seq<PlantEdit>>, id: PlantId, s2: Store, r: Retried)
    requires UserView(s2, id) == UserView(ApplyEdits(s, id, EditsAt(script, 0) + EditsAt(script, 1)), id)
    requires |r.script| <= |Rest(script, 2)|
    requires UserView(r.store, id) == UserView(ApplyEdits(s2, id, Landed(Rest(script, 2), r)), id)
    ensures UserView(r.store, id) == UserView(ApplyEdits(s, id, Landed(script, r)), id)
  {
    LandedSplits(script, r);
    ComposeEdits(s, s2, r.store, id, EditsAt(script, 0), EditsAt(script, 1), Landed(Rest(script, 2), r));
  }

  lemma ComposeEdits(s: Store, s2: Store, t: Store, id: PlantId, a: seq<PlantEdit>, b: seq<PlantEdit>, c: seq<PlantEdit>)
    requires UserView(s2, id) == UserView(ApplyEdits(s, id, a + b), id)
    requires UserView(t, id) == UserView(ApplyEdits(s2, id, c), id)
    ensures UserView(t, id) == UserView(ApplyEdits(s, id, a + (b + c)), id)
  {
    assert a + (b + c) == a + b + c;
    ComposeTwo(s, s2, t, id, a + b, c);
  }

  lemma ComposeTwo(s: Store, s2: Store, t: Store, id: PlantId, a: seq<PlantEdit>, b: seq<PlantEdit>)
    requires UserView(s2, id) == UserView(ApplyEdits(s, id, a), id)
    requires UserView(t, id) == UserView(ApplyEdits(s2, id, b), id)
    ensures UserView(t, id) == UserView(ApplyEdits(s, id, a + b), id)
  {
    EditsRespectView(s2, ApplyEdits(s, id, a), id, b);
    EditsConcat(s, id, a, b);
  }

  lemma FirstTurnOnly(script: seq<seq<PlantEdit>>)
    ensures Flatten(script[..|script| - |Rest(script, 1)|]) == EditsAt(script, 0)
  {
    if script != [] {
      assert script[..1] == [script[0]];
    }
  }

  lemma FirstTwoTurns(script: seq<seq<PlantEdit>>)
    ensures Flatten(script[..|script| - |Rest(script, 2)|]) == EditsAt(script, 0) + EditsAt(script, 1)
  {
    if |script| == 1 {
      assert script[..1] == [script[0]];
    } else if |script| >= 2 {
      FlattenStep(script, 2);
      assert Rest(script, 2)[..0] == [];
    }
  }

  lemma LandedSplits(script: seq<seq<PlantEdit>>, r: Retried)
    requires |r.script| <= |Rest(script, 2)|
    ensures Landed(script, r) == EditsAt(script, 0) + (EditsAt(script, 1) + Landed(Rest(script, 2), r))
  {
    if |script| >= 2 {
      FlattenStep(script, |script| - |r.script|);
    } else {
      FirstTwoTurns(script);
      assert Rest(script, 2) == [];
    }
  }

  lemma {:induction false} EditsKeepIds(s: Store, id: PlantId, es: seq<PlantEdit>)
    requires forall i :: i in s.plants ==> s.plants[i].id == i
    ensures forall i :: i in ApplyEdits(s, id, es).plants ==> ApplyEdits(s, id, es).plants[i].id == i
    decreases |es|
  {
    if es != [] {
      EditsKeepIds(ApplyEdit(s, id, es[0]), id, es[1..]);
    }
  }

  /** A successful write stores exactly the status that was decided before the first try. */
  lemma {:induction false} DecidedStatusIsStored(s: Store, script: seq<seq<PlantEdit>>, p: Plant, status: PlantStatus, steps: nat)
    requires forall id :: id in s.plants ==> s.plants[id].id == id
    requires RetryStatusWrite(s, script, p, status, steps).outcome.Ok?
    ensures var r := RetryStatusWrite(s, script, p, status, steps);
            p.id in r.store.plants && r.store.plants[p.id] == r.outcome.value && r.outcome.value.status == status
    decreases steps
  {
    var (s1, r) := UpdateStatus(ApplyEdits(s, p.id, EditsAt(script, 0)), p.(status := status));
    if r.Err? {
      var s2 := ApplyEdits(s1, p.id, EditsAt(script, 1));
      EditsKeepIds(s, p.id, EditsAt(script, 0));
      EditsKeepIds(s1, p.id, EditsAt(script, 1));
      DecidedStatusIsStored(s2, Rest(script, 2), s2.plants[p.id], status, steps - 1);
    }
  }

  /** Why a write fails: NotFound exactly if the Plant is gone, and otherwise a conflict on
      the last attempt. */
  lemma {:induction false} FailureTellsWhy(s: Store, script: seq<seq<PlantEdit>>, p: Plant, status: PlantStatus, steps: nat)
    requires forall id :: id in s.plants ==> s.plants[id].id == id
    requires p.id in s.plants
    requires RetryStatusWrite(s, script, p, status, steps).outcome.Err?
    ensures var r := RetryStatusWrite(s, script, p, status, steps);
            r.outcome.error == if p.id in r.store.plants then Conflict else NotFound
    decreases steps
  {
    if steps > 0 {
      var (s1, r) := UpdateStatus(ApplyEdits(s, p.id, EditsAt(script, 0)), p.(status := status));
      var s2 := ApplyEdits(s1, p.id, EditsAt(script, 1));
      EditsKeepIds(s, p.id, EditsAt(script, 0));
      EditsKeepIds(s1, p.id, EditsAt(script, 1));
      if r.error == Conflict && p.id in s2.plants {
        FailureTellsWhy(s2, Rest(script, 2), s2.plants[p.id], status, steps - 1);
      }
    }
  }

  // ----- observedGeneration

  /** The object that was read has not gone back in generation, if it is still there. */
  ghost predicate NotBehind(s: Store, id: PlantId, uid: string, generation: nat) {
    id in s.plants && s.plants[id].uid == uid ==> s.plants[id].generation >= generation
  }

  /** UIDs are never used twice. */
  ghost predicate FreshUids(script: seq<seq<PlantEdit>>, uid: string) {
    forall i, e :: 0 <= i < |script| && e in script[i] && e.Create? ==> e.uid != uid
  }

  lemma {:induction false} EditsNeverGoBack(s: Store, id: PlantId, es: seq<PlantEdit>, uid: string, generation: nat)
    requires NotBehind(s, id, uid, generation)
    requires forall e :: e in es && e.Create? ==> e.uid != uid
    ensures NotBehind(ApplyEdits(s, id, es), id, uid, generation)
    decreases |es|
  {
    if es != [] {
      assert es[0] in es;
      EditsNeverGoBack(ApplyEdit(s, id, es[0]), id, es[1..], uid, generation);
    }
  }

  /** Whatever lands in between, the stored observedGeneration never exceeds the
      generation of the Plant it was decided for. */
  lemma {:induction false} ObservedGenerationNeverAhead(s: Store, script: seq<seq<PlantEdit>>, p: Plant, status: PlantStatus,
                                                        steps: nat, uid: string, generation: nat)
    requires forall id :: id in s.plants ==> s.plants[id].id == id
    requires NotBehind(s, p.id, uid, generation) && FreshUids(script, uid)
    requires status.observedGeneration == generation
    requires RetryStatusWrite(s, script, p, status, steps).outcome.Ok?
    ensures var q := RetryStatusWrite(s, script, p, status, steps).outcome.value;
            q.uid == uid ==> q.status.observedGeneration <= q.generation
    decreases steps
  {
    EditsNeverGoBack(s, p.id, EditsAt(script, 0), uid, generation);
    var (s1, r) := UpdateStatus(ApplyEdits(s, p.id, EditsAt(script, 0)), p.(status := status));
    if r.Err? {
      EditsNeverGoBack(s1, p.id, EditsAt(script, 1), uid, generation);
      EditsKeepIds(s, p.id, EditsAt(script, 0));
      EditsKeepIds(s1, p.id, EditsAt(script, 1));
      var s2 := ApplyEdits(s1, p.id, EditsAt(script, 1));
      ObservedGenerationNeverAhead(s2, Rest(script, 2), s2.plants[p.id], status, steps - 1, uid, generation);
    }
  }

  const SOME_ID := PlantId("ns", "fernie")
  const SOME_SPEC := PlantSpec("fern", None, "image", "small", 30, "150ms", false)
  const OLD_PLANT := Plant(SOME_ID, "old", 1, 5, false, map[], SOME_SPEC, NO_STATUS)
  const RACE: seq<seq<PlantEdit>> := [[Delete, Create("new", SOME_SPEC)]]

  /** The hypothesis on the UID is needed: deleted and recreated while the write is being
      retried, the new Plant of generation 1 receives the old one's generation 5. */
  lemma RecreationPutsObservedGenerationAhead()
    ensures var s := Store(map[], map[SOME_ID := OLD_PLANT], 2, []);
            var r := RetryStatusWrite(s, RACE, OLD_PLANT, NO_STATUS.(observedGeneration := 5), RETRY_STEPS);
            r.outcome.Ok? && r.outcome.value.uid == "new" && r.outcome.value.generation == 1
            && r.outcome.value.status.observedGeneration == 5
  {
    var s := Store(map[], map[SOME_ID := OLD_PLANT], 2, []);
    var status := NO_STATUS.(observedGeneration := 5);
    var deleted := ApplyEdit(s, SOME_ID, Delete);
    assert SOME_ID !in deleted.plants;
    var recreated := ApplyEdit(deleted, SOME_ID, Create("new", SOME_SPEC));
    assert EditsAt(RACE, 0)[1..] == [Create("new", SOME_SPEC)];
    assert ApplyEdits(deleted, SOME_ID, [Create("new", SOME_SPEC)]) == recreated;
    assert ApplyEdits(s, SOME_ID, EditsAt(RACE, 0)) == recreated;
    var (s1, r) := UpdateStatus(recreated, OLD_PLANT.(status := status));
    assert r == Err(Conflict);
    assert RetryStatusWrite(s, RACE, OLD_PLANT, status, 5)
        == RetryStatusWrite(s1, [], s1.plants[SOME_ID], status, 4);
  }

  // ----- when the write gets through

  predicate OnlyEdits(script: seq<seq<PlantEdit>>) {
    forall i, e :: 0 <= i < |script| && e in script[i] ==> e.EditSpec? || e.EditMetadata?
  }

  /** Nothing landed between the k-th attempt's read and its update. */
  predicate Clear(s: Store, script: seq<seq<PlantEdit>>, p: Plant, k: nat) {
    && EditsAt(script, 2 * k) == []
    && (k == 0 ==> p.id in s.plants && s.plants[p.id].resourceVersion == p.resourceVersion)
  }

  lemma {:induction false} EditsMoveVersion(s: Store, id: PlantId, es: seq<PlantEdit>)
    requires id in s.plants && s.plants[id].resourceVersion < s.next && s.plants[id].id == id
    requires forall e :: e in es ==> e.EditSpec? || e.EditMetadata?
    ensures var t := ApplyEdits(s, id, es);
            && id in t.plants && t.plants[id].resourceVersion < t.next && t.plants[id].id == id && s.next <= t.next
            && (es != [] ==> t.plants[id].resourceVersion >= s.next)
    decreases |es|
  {
    if es != [] {
      assert es[0] in es;
      EditsMoveVersion(ApplyEdit(s, id, es[0]), id, es[1..]);
    }
  }

  lemma ClearShifts(s: Store, script: seq<seq<PlantEdit>>, p: Plant, s2: Store, q: Plant, k: nat)
    requires q.id in s2.plants && s2.plants[q.id].resourceVersion == q.resourceVersion
    ensures Clear(s2, Rest(script, 2), q, k) == Clear(s, script, p, k + 1)
  {
    assert EditsAt(Rest(script, 2), 2 * k) == EditsAt(script, 2 * (k + 1));
  }

  /** While users only edit the Plant, the write succeeds exactly when one of the attempts
      is clear. */
  lemma {:induction false} WriteSucceedsIffSomeAttemptIsClear(s: Store, script: seq<seq<PlantEdit>>, p: Plant, status: PlantStatus, steps: nat)
    requires p.id in s.plants && s.plants[p.id].resourceVersion < s.next && s.plants[p.id].id == p.id
    requires p.resourceVersion < s.next && OnlyEdits(script)
    ensures RetryStatusWrite(s, script, p, status, steps).outcome.Ok?
       <==> exists k :: 0 <= k < steps && Clear(s, script, p, k)
    decreases steps
  {
    if steps > 0 {
      EditsMoveVersion(s, p.id, EditsAt(script, 0));
      var (s1, r) := UpdateStatus(ApplyEdits(s, p.id, EditsAt(script, 0)), p.(status := status));
      assert r.Ok? <==> Clear(s, script, p, 0);
      if r.Err? {
        EditsMoveVersion(s1, p.id, EditsAt(script, 1));
        var s2 := ApplyEdits(s1, p.id, EditsAt(script, 1));
        var rest, q := Rest(script, 2), s2.plants[p.id];
        WriteSucceedsIffSomeAttemptIsClear(s2, rest, q, status, steps - 1);
        forall k: nat ensures Clear(s2, rest, q, k) == Clear(s, script, p, k + 1) {
          ClearShifts(s, script, p, s2, q, k);
        }
        if k :| 0 <= k < steps - 1 && Clear(s2, rest, q, k) {
          assert Clear(s, script, p, k + 1);
        }
        if k :| 0 <= k < steps && Clear(s, script, p, k) {
          assert Clear(s2, rest, q, k - 1);
        }
      }
    }
  }

  /** reconcileStatus makes five attempts: its write succeeds exactly if nothing lands
      between the read and the update of one of the first five. */
  lemma FiveAttempts(s: Store, script: seq<seq<PlantEdit>>, p: Plant, status: PlantStatus)
    requires p.id in s.plants && s.plants[p.id].resourceVersion < s.next && s.plants[p.id].id == p.id
    requires p.resourceVersion < s.next && OnlyEdits(script)
    ensures RetryStatusWrite(s, script, p, status, RETRY_STEPS).outcome.Ok?
       <==> exists k :: 0 <= k < 5 && Clear(s, script, p, k)
  {
    WriteSucceedsIffSomeAttemptIsClear(s, script, p, status, RETRY_STEPS);
  }
}
