/** Why every child is read past the cache (cache.go, applyChild): what the label-filtered
    reader gets wrong, and that two Plants never get in each other's way. */
module Readers {
  import opened Wrappers
  import opened Objects
  import opened ApiServer
  import opened Resources
  import opened Mutation
  import opened Children

  // ----- the filtered reader

  /** An existing child the cache cannot see is taken for missing, and creating it fails. */
  lemma InvisibleChildFails(s: Store, p: Plant, kind: Kind)
    requires ChildKey(p, kind) in s.children
    requires !Visible(true, ChildKey(p, kind), s.children[ChildKey(p, kind)])
    ensures ApplyChild(s, true, p, kind)
         == (s.(calls := s.calls + [CreateCall(ChildKey(p, kind))]), Err(Api(AlreadyExists)))
  {
  }

  /** The two readers give the same result exactly when the child, if there is one, is
      visible through the cache. */
  lemma ReadersAgreeIffVisible(s: Store, p: Plant, kind: Kind)
    ensures ApplyChild(s, true, p, kind).1 == ApplyChild(s, false, p, kind).1
       <==> (ChildKey(p, kind) in s.children ==> Visible(true, ChildKey(p, kind), s.children[ChildKey(p, kind)]))
  {
    var key := ChildKey(p, kind);
    if key in s.children && !Visible(true, key, s.children[key]) {
      InvisibleChildFails(s, p, kind);
      DirectReaderFindsIt(s, p, kind);
    } else {
      SameReadSameApply(s, p, kind);
    }
  }

  lemma DirectReaderFindsIt(s: Store, p: Plant, kind: Kind)
    requires ChildKey(p, kind) in s.children
    ensures ApplyChild(s, false, p, kind).1 != Err(Api(AlreadyExists))
  {
  }

  lemma SameReadSameApply(s: Store, p: Plant, kind: Kind)
    requires Read(s, true, ChildKey(p, kind)) == Read(s, false, ChildKey(p, kind))
    ensures ApplyChild(s, true, p, kind) == ApplyChild(s, false, p, kind)
  {
  }

  /** The store after the child was applied the given number of times. */
  function AfterPasses(s: Store, cached: bool, p: Plant, kind: Kind, passes: nat): Store
    decreases passes
  {
    if passes == 0 then s else AfterPasses(ApplyChild(s, cached, p, kind).0, cached, p, kind, passes - 1)
  }

  /** However often it is retried, the filtered reader never repairs a stripped label:
      every pass fails the same way and no stored object changes. */
  lemma {:induction false} FilteredReaderNeverRecovers(s: Store, p: Plant, kind: Kind, passes: nat)
    requires ChildKey(p, kind) in s.children
    requires !Visible(true, ChildKey(p, kind), s.children[ChildKey(p, kind)])
    ensures AfterPasses(s, true, p, kind, passes).children == s.children
    ensures ApplyChild(AfterPasses(s, true, p, kind, passes), true, p, kind).1 == Err(Api(AlreadyExists))
    decreases passes
  {
    InvisibleChildFails(s, p, kind);
    if passes > 0 {
      FilteredReaderNeverRecovers(ApplyChild(s, true, p, kind).0, p, kind, passes - 1);
    }
  }

  function Strip(o: Obj): Obj {
    o.(meta := o.meta.(labels := o.meta.labels - {LABEL_MANAGED_BY}))
  }

  function StrippedObj(o: Obj, version: nat): Obj {
    Strip(o).(meta := Strip(o).meta.(resourceVersion := version))
  }

  /** Someone strips the label of a child, which gives it another version. */
  function StrippedStore(s: Store, key: Key, version: nat): Store
    requires key in s.children
  {
    s.(children := s.children[key := StrippedObj(s.children[key], version)])
  }

  /** The direct reader puts a stripped label back in one pass, and changes nothing else. */
  lemma DirectReaderRestoresLabel(s: Store, p: Plant, kind: Kind, version: nat)
    requires StoreOk(s) && AtRest(s, p, kind) && Valid(s.children[ChildKey(p, kind)])
    ensures var key := ChildKey(p, kind);
            var (u, r) := ApplyChild(StrippedStore(s, key, version), false, p, kind);
            && r.Ok? && r.value.op.WasUpdated?
            && key in u.children && u.children == s.children[key := u.children[key]]
            && Erase(u.children[key]) == Erase(s.children[key])
  {
    var o := s.children[ChildKey(p, kind)];
    StrippedIsOwned(p, o, version);
    StrippedIsRepaired(p, o, version);
    RestoredFrom(s, p, kind, o, StrippedObj(o, version), o.(meta := o.meta.(resourceVersion := version)));
  }

  lemma RestoredFrom(s: Store, p: Plant, kind: Kind, o: Obj, stripped: Obj, fixed: Obj)
    requires ChildKey(p, kind) in s.children && s.children[ChildKey(p, kind)] == o
    requires Valid(fixed) && DefaultBody(ChildKey(p, kind), o.body) == o.body && Erase(fixed) == Erase(o)
    requires Owned(p, stripped) && Mutated(p, stripped) == Ok(fixed) && fixed != stripped
    requires fixed.meta.resourceVersion == stripped.meta.resourceVersion
    requires stripped.body == o.body && stripped.meta.generation == fixed.meta.generation
    ensures var key := ChildKey(p, kind);
            var (u, r) := ApplyChild(s.(children := s.children[key := stripped]), false, p, kind);
            && r.Ok? && r.value.op.WasUpdated?
            && key in u.children && u.children == s.children[key := u.children[key]]
            && Erase(u.children[key]) == Erase(o)
  {
    var key := ChildKey(p, kind);
    var t := s.(children := s.children[key := stripped]);
    assert fixed.body == Erase(fixed).body == o.body;
    RepairIsStored(t, p, kind, fixed);
    var (u, r) := ApplyChild(t, false, p, kind);
    PutTwice(s.children, key, stripped, r.value.obj, u.children);
  }

  lemma PutTwice(children: map<Key, Obj>, key: Key, a: Obj, b: Obj, after: map<Key, Obj>)
    requires after == children[key := a][key := b]
    ensures key in after && after[key] == b && after == children[key := after[key]]
  {
  }

  lemma StrippedIsOwned(p: Plant, o: Obj, version: nat)
    requires Mutated(p, o) == Ok(o)
    ensures Owned(p, StrippedObj(o, version))
  {
    SettledConforms(p, o);
  }

  /** A repair that the server accepts is stored. */
  lemma RepairIsStored(t: Store, p: Plant, kind: Kind, fixed: Obj)
    requires ChildKey(p, kind) in t.children && Owned(p, t.children[ChildKey(p, kind)])
    requires Mutated(p, t.children[ChildKey(p, kind)]) == Ok(fixed) && fixed != t.children[ChildKey(p, kind)]
    requires fixed.meta.resourceVersion == t.children[ChildKey(p, kind)].meta.resourceVersion
    requires fixed.body == t.children[ChildKey(p, kind)].body
    requires Valid(fixed) && DefaultBody(ChildKey(p, kind), fixed.body) == fixed.body
    ensures var (u, r) := ApplyChild(t, false, p, kind);
            && r.Ok? && r.value.op.WasUpdated? && u.children == t.children[ChildKey(p, kind) := r.value.obj]
            && Erase(r.value.obj) == Erase(fixed)
  {
    var key := ChildKey(p, kind);
    assert Read(t, false, key) == Some(t.children[key]);
    assert PlanChild(p, kind, Read(t, false, key)) == Ok(Replace(t.children[key], fixed));
    ReplacementIsStored(t, key, t.children[key], fixed);
  }

  lemma ReplacementIsStored(t: Store, key: Key, o: Obj, fixed: Obj)
    requires key in t.children && t.children[key] == o && fixed.body == o.body
    requires fixed.meta.resourceVersion == o.meta.resourceVersion && fixed.meta.generation == o.meta.generation
    requires Valid(fixed) && DefaultBody(key, fixed.body) == fixed.body
    ensures var (u, r) := Perform(t, key, Replace(o, fixed));
            && r.Ok? && r.value.op.WasUpdated? && u.children == t.children[key := r.value.obj]
            && Erase(r.value.obj) == Erase(fixed)
  {
  }

  /** Mutating a stripped object at rest gives the object before the strip. */
  lemma StrippedIsRepaired(p: Plant, o: Obj, version: nat)
    requires Mutated(p, o) == Ok(o)
    ensures var stripped := StrippedObj(o, version);
            && Mutated(p, stripped) == Ok(o.(meta := o.meta.(resourceVersion := version)))
            && Mutated(p, stripped).value != stripped
  {
    var stripped := StrippedObj(o, version);
    SettledByParts(p, o);
    StripIsRestored(p, o.meta.labels);
    MutatedByParts(p, stripped, o.meta.owners, o.meta.labels, o.body);
  }

  lemma StripIsRestored(p: Plant, l: Labels)
    requires MergedLabels(l, LabelsFor(p)) == l
    ensures LABEL_MANAGED_BY in l && MergedLabels(l - {LABEL_MANAGED_BY}, LabelsFor(p)) == l
  {
    assert LABEL_MANAGED_BY in LabelsFor(p);
  }

  lemma MutatedByParts(p: Plant, o: Obj, owners: seq<OwnerRef>, labels: Labels, body: Body)
    requires SetController(p, o.meta.owners) == Ok(owners)
    requires MergedLabels(o.meta.labels, LabelsFor(p)) == labels && MutatedBody(p, o.body) == body
    ensures Mutated(p, o) == Ok(Obj(o.meta.(owners := owners, labels := labels), body))
  {
  }

  // ----- two Plants

  /** The version-independent content under a key. */
  function Content(s: Store, k: Key): Option<Obj> {
    if k in s.children then Some(Erase(s.children[k])) else None
  }

  function Erase(o: Obj): Obj {
    o.(meta := o.meta.(resourceVersion := 0))
  }

  predicate SameOutcome(a: Result<Change, ChildError>, b: Result<Change, ChildError>) {
    match (a, b)
    case (Ok(x), Ok(y)) => x.op == y.op && Erase(x.obj) == Erase(y.obj)
    case (Err(e), Err(f)) => e == f
    case _ => false
  }

  lemma MutationIgnoresVersion(p: Plant, o: Obj)
    ensures Mutated(p, o).Ok? == Mutated(p, Erase(o)).Ok?
    ensures Mutated(p, o).Err? ==> Mutated(p, o) == Mutated(p, Erase(o))
    ensures Mutated(p, o).Ok? ==>
              && Erase(Mutated(p, o).value) == Mutated(p, Erase(o)).value
              && Mutated(p, o).value.meta.resourceVersion == o.meta.resourceVersion
  {
  }

  /** One apply depends on, and determines, only the content under its own key. */
  lemma ApplyChildIsLocal(s: Store, t: Store, cached: bool, p: Plant, kind: Kind)
    requires Content(s, ChildKey(p, kind)) == Content(t, ChildKey(p, kind))
    ensures var (s', r) := ApplyChild(s, cached, p, kind);
            var (t', q) := ApplyChild(t, cached, p, kind);
            Content(s', ChildKey(p, kind)) == Content(t', ChildKey(p, kind)) && SameOutcome(r, q)
  {
    var key := ChildKey(p, kind);
    if key in s.children && Visible(cached, key, s.children[key]) {
      ApplyExistingIsLocal(s, t, cached, p, kind);
    } else {
      assert Read(s, cached, key) == None == Read(t, cached, key);
      CreateIsLocal(s, t, key, EmptyObj(kind), p);
    }
  }

  lemma CreateIsLocal(s: Store, t: Store, key: Key, empty: Obj, p: Plant)
    requires Content(s, key) == Content(t, key)
    requires Mutated(p, empty).Ok?
    ensures var (s', r) := Perform(s, key, MakeNew(Mutated(p, empty).value));
            var (t', q) := Perform(t, key, MakeNew(Mutated(p, empty).value));
            Content(s', key) == Content(t', key) && SameOutcome(r, q)
  {
  }

  lemma ApplyExistingIsLocal(s: Store, t: Store, cached: bool, p: Plant, kind: Kind)
    requires ChildKey(p, kind) in s.children
    requires Visible(cached, ChildKey(p, kind), s.children[ChildKey(p, kind)])
    requires Content(s, ChildKey(p, kind)) == Content(t, ChildKey(p, kind))
    ensures var (s', r) := ApplyChild(s, cached, p, kind);
            var (t', q) := ApplyChild(t, cached, p, kind);
            Content(s', ChildKey(p, kind)) == Content(t', ChildKey(p, kind)) && SameOutcome(r, q)
  {
    var key := ChildKey(p, kind);
    var a, b := s.children[key], t.children[key];
    assert Erase(a) == Erase(b);
    assert Visible(cached, key, b) && Owned(p, a) == Owned(p, b);
    MutationIgnoresVersion(p, a);
    MutationIgnoresVersion(p, b);
    if Owned(p, a) && Mutated(p, a).Ok? {
      ReplaceIsLocal(s, t, key, a, b, Mutated(p, a).value, Mutated(p, b).value);
    }
  }

  lemma ReplaceIsLocal(s: Store, t: Store, key: Key, a: Obj, b: Obj, m: Obj, n: Obj)
    requires key in s.children && s.children[key] == a && key in t.children && t.children[key] == b
    requires Erase(a) == Erase(b) && Erase(m) == Erase(n)
    requires m.meta.resourceVersion == a.meta.resourceVersion
    requires n.meta.resourceVersion == b.meta.resourceVersion
    ensures (m == a) == (n == b)
    ensures var (s', r) := Perform(s, key, Replace(a, m));
            var (t', q) := Perform(t, key, Replace(b, n));
            Content(s', key) == Content(t', key) && SameOutcome(r, q)
  {
    assert m == Erase(m).(meta := Erase(m).meta.(resourceVersion := m.meta.resourceVersion));
    assert n == Erase(n).(meta := Erase(n).meta.(resourceVersion := n.meta.resourceVersion));
    assert a == Erase(a).(meta := Erase(a).meta.(resourceVersion := a.meta.resourceVersion));
    assert b == Erase(b).(meta := Erase(b).meta.(resourceVersion := b.meta.resourceVersion));
  }

  function Flags(r: Result<Summary, ChildError>): Result<(bool, bool), ChildError> {
    match r
    case Ok(s) => Ok((s.created, s.updated))
    case Err(e) => Err(e)
  }

  lemma ContentFrame(s: Store, t: Store, k: Key)
    requires SameAt(s, t, k)
    ensures Content(s, k) == Content(t, k)
  {
  }

  /** A whole pass is local to the Plant's own keys. */
  lemma {:induction false} PassIsLocal(s: Store, t: Store, cached: bool, p: Plant, kinds: seq<Kind>,
                                       m: Summary, n: Summary, k: Kind)
    requires forall j: Kind :: Content(s, ChildKey(p, j)) == Content(t, ChildKey(p, j))
    requires m.created == n.created && m.updated == n.updated
    ensures Content(ApplyAll(s, cached, p, kinds, m).0, ChildKey(p, k))
         == Content(ApplyAll(t, cached, p, kinds, n).0, ChildKey(p, k))
    ensures Flags(ApplyAll(s, cached, p, kinds, m).1) == Flags(ApplyAll(t, cached, p, kinds, n).1)
    decreases |kinds|
  {
    if kinds != [] {
      var (s1, r) := ApplyChild(s, cached, p, kinds[0]);
      var (t1, q) := ApplyChild(t, cached, p, kinds[0]);
      ApplyChildIsLocal(s, t, cached, p, kinds[0]);
      ApplyChildFrame(s, cached, p, kinds[0]);
      ApplyChildFrame(t, cached, p, kinds[0]);
      forall j: Kind ensures Content(s1, ChildKey(p, j)) == Content(t1, ChildKey(p, j)) {
        if j != kinds[0] {
          ContentFrame(s, s1, ChildKey(p, j));
          ContentFrame(t, t1, ChildKey(p, j));
        }
      }
      if r.Ok? {
        PassIsLocal(s1, t1, cached, p, kinds[1..], Note(m, kinds[0], r.value), Note(n, kinds[0], q.value), k);
      }
    }
  }

  /** A pass for one Plant leaves every key of another Plant's children as it was. */
  lemma PassSparesOtherPlants(s: Store, cached: bool, p: Plant, q: Plant, kinds: seq<Kind>, sum: Summary, kind: Kind)
    requires p.id != q.id
    ensures SameAt(s, ApplyAll(s, cached, p, kinds, sum).0, ChildKey(q, kind))
  {
    forall i | 0 <= i < |kinds| ensures ChildKey(q, kind) != ChildKey(p, kinds[i]) {
      ChildKeysAreDisjoint(q, p, kind, kinds[i]);
    }
    ApplyAllFrame(s, cached, p, kinds, sum, ChildKey(q, kind));
  }

  /** Reconciling two Plants' children in either order gives the same results and, up to
      version numbers, the same objects everywhere. */
  lemma PassesCommute(s: Store, cached: bool, p: Plant, q: Plant, kinds: seq<Kind>, key: Key)
    requires p.id != q.id
    ensures var (sp, rp) := ApplyAll(s, cached, p, kinds, NOTHING);
            var (spq, rpq) := ApplyAll(sp, cached, q, kinds, NOTHING);
            var (sq, rq) := ApplyAll(s, cached, q, kinds, NOTHING);
            var (sqp, rqp) := ApplyAll(sq, cached, p, kinds, NOTHING);
            Content(spq, key) == Content(sqp, key) && Flags(rp) == Flags(rqp) && Flags(rq) == Flags(rpq)
  {
    var sp := ApplyAll(s, cached, p, kinds, NOTHING).0;
    var sq := ApplyAll(s, cached, q, kinds, NOTHING).0;
    HalfCommutes(s, cached, p, q, kinds, key);
    HalfCommutes(s, cached, q, p, kinds, key);
    if forall k: Kind :: key != ChildKey(p, k) && key != ChildKey(q, k) {
      ApplyAllFrame(s, cached, p, kinds, NOTHING, key);
      ApplyAllFrame(sp, cached, q, kinds, NOTHING, key);
      ApplyAllFrame(s, cached, q, kinds, NOTHING, key);
      ApplyAllFrame(sq, cached, p, kinds, NOTHING, key);
    }
  }

  /** Whether q goes before p or after makes no difference to p. */
  lemma HalfCommutes(s: Store, cached: bool, p: Plant, q: Plant, kinds: seq<Kind>, key: Key)
    requires p.id != q.id
    ensures var (sp, rp) := ApplyAll(s, cached, p, kinds, NOTHING);
            var spq := ApplyAll(sp, cached, q, kinds, NOTHING).0;
            var sq := ApplyAll(s, cached, q, kinds, NOTHING).0;
            var (sqp, rqp) := ApplyAll(sq, cached, p, kinds, NOTHING);
            && Flags(rp) == Flags(rqp)
            && ((exists k :: key == ChildKey(p, k)) ==> Content(spq, key) == Content(sqp, key))
  {
    var sp := ApplyAll(s, cached, p, kinds, NOTHING).0;
    var spq := ApplyAll(sp, cached, q, kinds, NOTHING).0;
    var sq := ApplyAll(s, cached, q, kinds, NOTHING).0;
    forall j: Kind ensures Content(s, ChildKey(p, j)) == Content(sq, ChildKey(p, j)) {
      PassSparesOtherPlants(s, cached, q, p, kinds, NOTHING, j);
      ContentFrame(s, sq, ChildKey(p, j));
    }
    PassIsLocal(s, sq, cached, p, kinds, NOTHING, NOTHING, Deployment);
    if k :| key == ChildKey(p, k) {
      PassIsLocal(s, sq, cached, p, kinds, NOTHING, NOTHING, k);
      PassSparesOtherPlants(sp, cached, q, p, kinds, NOTHING, k);
      ContentFrame(sp, spq, key);
    }
  }
}
