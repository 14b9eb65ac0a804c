/** mergeContainers (plant_controller.go) and how it gets along with server defaulting. */
module Containers {
  import opened Wrappers
  import opened Objects
  import opened ApiServer

  /** `have` with every field the operator owns taken from `want`. */
  function Overlay(have: Container, want: Container): Container {
    want.(name := have.name, unowned := have.unowned)
  }

  function Names(cs: seq<Container>): (names: set<string>)
    ensures forall i :: 0 <= i < |cs| ==> cs[i].name in names
    ensures forall n :: n in names ==> exists i :: 0 <= i < |cs| && cs[i].name == n
  {
    set i | 0 <= i < |cs| :: cs[i].name
  }

  /** The container a name denotes: the last one bearing it. */
  function LastNamed(cs: seq<Container>, name: string): (c: Option<Container>)
    ensures c.Some? ==> c.value.name == name && c.value in cs
  {
    if cs == [] then None
    else if cs[|cs| - 1].name == name then Some(cs[|cs| - 1])
    else LastNamed(cs[..|cs| - 1], name)
  }

  function Without(cs: seq<Container>, names: set<string>): (r: seq<Container>)
    ensures forall c :: c in r ==> c in cs && c.name !in names
  {
    if cs == [] then []
    else Without(cs[..|cs| - 1], names) + if cs[|cs| - 1].name in names then [] else [cs[|cs| - 1]]
  }

  function MergedOne(existing: seq<Container>, want: Container): Container {
    var have := LastNamed(existing, want.name);
    if have.None? then want else Overlay(have.value, want)
  }

  function MergedDesired(existing: seq<Container>, desired: seq<Container>): (r: seq<Container>)
    ensures |r| == |desired|
  {
    seq(|desired|, i requires 0 <= i < |desired| => MergedOne(existing, desired[i]))
  }

  function Merged(existing: seq<Container>, desired: seq<Container>): seq<Container> {
    MergedDesired(existing, desired) + Without(existing, Names(desired))
  }

  /** existingByName: the last index of each name. */
  method IndexByName(existing: seq<Container>) returns (index: map<string, nat>)
    ensures forall n :: n in index ==> index[n] < |existing|
    ensures forall n :: LastNamed(existing, n) == if n in index then Some(existing[index[n]]) else None
  {
    index := map[];
    for i := 0 to |existing|
      invariant forall n :: n in index ==> index[n] < i
      invariant forall n :: LastNamed(existing[..i], n) == if n in index then Some(existing[index[n]]) else None
    {
      assert existing[..i + 1][..i] == existing[..i];
      index := index[existing[i].name := i];
    }
    assert existing[..|existing|] == existing;
  }

  /** The desired containers, each over the existing one of its name. */
  method OverlayDesired(existing: seq<Container>, index: map<string, nat>, desired: seq<Container>)
      returns (merged: seq<Container>, desiredByName: set<string>)
    requires forall n :: n in index ==> index[n] < |existing|
    requires forall n :: LastNamed(existing, n) == if n in index then Some(existing[index[n]]) else None
    ensures merged == MergedDesired(existing, desired) && desiredByName == Names(desired)
  {
    merged, desiredByName := [], {};
    for i := 0 to |desired|
      invariant desiredByName == Names(desired[..i])
      invariant merged == MergedDesired(existing, desired[..i])
    {
      var want := desired[i];
      assert desired[..i + 1] == desired[..i] + [want];
      NamesAppend(desired[..i], want);
      desiredByName := desiredByName + {want.name};
      if want.name in index {
        var have := existing[index[want.name]];
        have := have.(image := want.image, imagePullPolicy := want.imagePullPolicy, ports := want.ports,
                      envFrom := want.envFrom, security := want.security, resources := want.resources,
                      liveness := want.liveness, readiness := want.readiness, startup := want.startup);
        merged := merged + [have];
        continue;
      }
      merged := merged + [want];
    }
    assert desired[..|desired|] == desired;
  }

  /** The index map, then the desired containers, then whatever else was there. */
  method MergeContainers(existing: seq<Container>, desired: seq<Container>) returns (merged: seq<Container>)
    ensures merged == Merged(existing, desired)
  {
    var index := IndexByName(existing);
    var desiredByName;
    merged, desiredByName := OverlayDesired(existing, index, desired);
    for i := 0 to |existing|
      invariant merged == MergedDesired(existing, desired) + Without(existing[..i], desiredByName)
    {
      assert existing[..i + 1][..i] == existing[..i];
      if existing[i].name !in desiredByName {
        merged := merged + [existing[i]];
      }
    }
    assert existing[..|existing|] == existing;
  }

  lemma NamesAppend(cs: seq<Container>, c: Container)
    ensures Names(cs + [c]) == Names(cs) + {c.name}
  {
    var all := cs + [c];
    forall n | n in Names(cs) ensures n in Names(all) {
      var i :| 0 <= i < |cs| && cs[i].name == n;
      assert all[i].name == n;
    }
    assert all[|cs|].name in Names(all);
  }

  // ----- laws of lookup and filtering

  lemma {:induction false} LastNamedConcat(a: seq<Container>, b: seq<Container>, name: string)
    ensures LastNamed(a + b, name) == if LastNamed(b, name).Some? then LastNamed(b, name) else LastNamed(a, name)
  {
    if b == [] {
      assert a + b == a;
    } else {
      assert (a + b)[..|a + b| - 1] == a + b[..|b| - 1];
      LastNamedConcat(a, b[..|b| - 1], name);
    }
  }

  lemma {:induction false} WithoutConcat(a: seq<Container>, b: seq<Container>, names: set<string>)
    ensures Without(a + b, names) == Without(a, names) + Without(b, names)
  {
    if b == [] {
      assert a + b == a;
    } else {
      assert (a + b)[..|a + b| - 1] == a + b[..|b| - 1];
      WithoutConcat(a, b[..|b| - 1], names);
    }
  }

  lemma {:induction false} WithoutAll(cs: seq<Container>, names: set<string>)
    requires forall c :: c in cs ==> c.name in names
    ensures Without(cs, names) == []
  {
    if cs != [] {
      WithoutAll(cs[..|cs| - 1], names);
    }
  }

  lemma {:induction false} WithoutNone(cs: seq<Container>, names: set<string>)
    requires forall c :: c in cs ==> c.name !in names
    ensures Without(cs, names) == cs
  {
    if cs != [] {
      WithoutNone(cs[..|cs| - 1], names);
      assert cs == cs[..|cs| - 1] + [cs[|cs| - 1]];
    }
  }

  lemma {:induction false} LastNamedUnique(cs: seq<Container>, i: nat)
    requires i < |cs| && UniqueNames(cs)
    ensures LastNamed(cs, cs[i].name) == Some(cs[i])
  {
    if i < |cs| - 1 {
      LastNamedUnique(cs[..|cs| - 1], i);
    }
  }

  lemma {:induction false} DefaultsThroughLastNamed(cs: seq<Container>, name: string)
    ensures LastNamed(DefaultContainers(cs), name)
         == if LastNamed(cs, name).None? then None else Some(DefaultContainer(LastNamed(cs, name).value))
  {
    if cs != [] {
      assert DefaultContainers(cs)[..|cs| - 1] == DefaultContainers(cs[..|cs| - 1]);
      DefaultsThroughLastNamed(cs[..|cs| - 1], name);
    }
  }

  lemma {:induction false} DefaultsThroughWithout(cs: seq<Container>, names: set<string>)
    ensures Without(DefaultContainers(cs), names) == DefaultContainers(Without(cs, names))
  {
    if cs != [] {
      var n := |cs| - 1;
      assert DefaultContainers(cs)[..n] == DefaultContainers(cs[..n]);
      DefaultsThroughWithout(cs[..n], names);
    }
  }

  // ----- what a merge keeps

  lemma MergedDesiredNames(existing: seq<Container>, desired: seq<Container>)
    ensures forall i :: 0 <= i < |desired| ==> MergedDesired(existing, desired)[i].name == desired[i].name
    ensures UniqueNames(desired) ==> UniqueNames(MergedDesired(existing, desired))
  {
  }

  /** Desired containers come first, in order, with their own fields; a container the API
      server already knew keeps every field the operator does not set. */
  lemma MergePutsDesiredFirst(existing: seq<Container>, desired: seq<Container>, i: nat)
    requires i < |desired|
    ensures |Merged(existing, desired)| >= |desired|
    ensures var m, have := Merged(existing, desired)[i], LastNamed(existing, desired[i].name);
            && m == desired[i].(unowned := m.unowned)
            && m.unowned == (if have.None? then desired[i].unowned else have.value.unowned)
  {
  }

  /** Every other container survives unchanged and in order. */
  lemma MergeKeepsForeign(existing: seq<Container>, desired: seq<Container>)
    ensures Without(Merged(existing, desired), Names(desired)) == Without(existing, Names(desired))
    ensures Merged(existing, desired)[|desired|..] == Without(existing, Names(desired))
  {
    var names := Names(desired);
    MergedDesiredNames(existing, desired);
    WithoutConcat(MergedDesired(existing, desired), Without(existing, names), names);
    WithoutAll(MergedDesired(existing, desired), names);
    WithoutNone(Without(existing, names), names);
  }

  /** Looking a desired name up in a merge finds the merged container. */
  lemma MergedLookup(existing: seq<Container>, desired: seq<Container>, i: nat)
    requires i < |desired| && UniqueNames(desired)
    ensures LastNamed(Merged(existing, desired), desired[i].name) == Some(MergedOne(existing, desired[i]))
  {
    var front, back := MergedDesired(existing, desired), Without(existing, Names(desired));
    MergedDesiredNames(existing, desired);
    LastNamedConcat(front, back, desired[i].name);
    LastNamedUnique(front, i);
  }

  /** Merging again changes nothing. */
  lemma MergeIsIdempotent(existing: seq<Container>, desired: seq<Container>)
    requires UniqueNames(desired)
    ensures Merged(Merged(existing, desired), desired) == Merged(existing, desired)
  {
    var once := Merged(existing, desired);
    forall i | 0 <= i < |desired| ensures MergedOne(once, desired[i]) == MergedOne(existing, desired[i]) {
      MergedLookup(existing, desired, i);
    }
    assert MergedDesired(once, desired) == MergedDesired(existing, desired);
    MergeKeepsForeign(existing, desired);
  }

  // ----- settling under server defaulting

  /** Defaulting leaves every operator-owned field of `want` as the builder set it. */
  predicate SpelledOut(want: Container) {
    DefaultContainer(want) == want.(unowned := DefaultContainer(want).unowned)
  }

  lemma MergeAgainAt(existing: seq<Container>, desired: seq<Container>, i: nat)
    requires UniqueNames(desired) && i < |desired|
    ensures MergedOne(DefaultContainers(Merged(existing, desired)), desired[i])
         == Overlay(DefaultContainer(MergedOne(existing, desired[i])), desired[i])
  {
    MergedLookup(existing, desired, i);
    DefaultsThroughLastNamed(Merged(existing, desired), desired[i].name);
  }

  /** The foreign part of a stored merge is always left alone by the next merge. */
  lemma MergeAgainForeign(existing: seq<Container>, desired: seq<Container>)
    ensures var once := Merged(existing, desired);
            Without(DefaultContainers(once), Names(desired)) == DefaultContainers(once)[|desired|..]
  {
    var once := Merged(existing, desired);
    MergeKeepsForeign(existing, desired);
    DefaultsThroughWithout(once, Names(desired));
    DefaultsThroughDrop(once, |desired|);
  }

  lemma DefaultsThroughDrop(cs: seq<Container>, n: nat)
    requires n <= |cs|
    ensures DefaultContainers(cs)[n..] == DefaultContainers(cs[n..])
  {
  }

  lemma MergeAgainSplit(existing: seq<Container>, desired: seq<Container>)
    ensures var stored := DefaultContainers(Merged(existing, desired));
            Merged(stored, desired) == stored <==> MergedDesired(stored, desired) == stored[..|desired|]
  {
    var stored := DefaultContainers(Merged(existing, desired));
    MergeAgainForeign(existing, desired);
    assert stored == stored[..|desired|] + stored[|desired|..];
    assert Merged(stored, desired)[..|desired|] == MergedDesired(stored, desired);
  }

  /** A stored merge is left alone by the next merge exactly when the builder spells out
      every field the server would otherwise default. */
  lemma MergeSettlesIffSpelledOut(existing: seq<Container>, desired: seq<Container>)
    requires UniqueNames(desired)
    ensures var stored := DefaultContainers(Merged(existing, desired));
            Merged(stored, desired) == stored <==> forall i :: 0 <= i < |desired| ==> SpelledOut(desired[i])
  {
    var stored := DefaultContainers(Merged(existing, desired));
    MergeAgainSplit(existing, desired);
    var again := MergedDesired(stored, desired);
    forall i | 0 <= i < |desired| ensures again[i] == stored[i] <==> SpelledOut(desired[i]) {
      MergeAgainAt(existing, desired, i);
      OverlaySettles(existing, desired[i]);
    }
  }

  lemma OverlaySettles(existing: seq<Container>, want: Container)
    ensures var d := DefaultContainer(MergedOne(existing, want));
            Overlay(d, want) == d <==> SpelledOut(want)
  {
  }
}
