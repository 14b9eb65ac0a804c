/** When keeping only three certificates at every merge loses one that a single merge at
    the end would have kept (maxRetainedCAs in webhookcerts.go). */
module CATruncation {
  import opened Wrappers
  import opened CABundle

  function Expiry(parse: Parser, b: Block): int
    requires Parses(parse, b)
  {
    parse(b.bytes).value.notAfter
  }

  /** The members issued later than x. */
  ghost function LaterIn(parse: Parser, pool: set<Block>, x: Block): (later: set<Block>)
    requires Parses(parse, x)
    ensures forall b :: b in later <==> b in pool && Parses(parse, b) && Issued(parse, b) > Issued(parse, x)
  {
    set b | b in pool && Parses(parse, b) && Issued(parse, b) > Issued(parse, x)
  }

  /** Those of them that expire no sooner than x. */
  ghost function OutlivingIn(parse: Parser, pool: set<Block>, x: Block): (outliving: set<Block>)
    requires Parses(parse, x)
    ensures forall b :: b in outliving <==> b in LaterIn(parse, pool, x) && Expiry(parse, b) >= Expiry(parse, x)
  {
    set b | b in LaterIn(parse, pool, x) && Expiry(parse, b) >= Expiry(parse, x)
  }

  /** Chains from an empty bundle that offer the members of the pool, each at least once,
      and nothing else. */
  ghost predicate OffersExactly(history: seq<Merge>, bundles: seq<seq<Block>>, pool: set<Block>) {
    && history != [] && |bundles| == |history| + 1 && bundles[0] == []
    && EverOffered([], history) == pool
  }

  /** The chain ends with what one merge of the whole pool at its last instant keeps. */
  ghost predicate EndsNewest(parse: Parser, history: seq<Merge>, bundles: seq<seq<Block>>, pool: set<Block>) {
    && history != [] && |bundles| == |history| + 1
    && Newest(parse, LivePool(parse, pool, history[|history| - 1].time), bundles[|history|])
  }

  /** Every certificate is still live when it is offered, as a freshly minted one is. */
  ghost predicate OffersLive(parse: Parser, history: seq<Merge>) {
    forall i :: 0 <= i < |history| ==> Live(parse, history[i].ca, history[i].time)
  }

  /** Truncating at every merge loses nothing, in any order and at any times. */
  ghost predicate NeverLoses(parse: Parser, pool: set<Block>) {
    forall history, bundles ::
      IsChain(parse, history, bundles) && InOrder(history) && OffersExactly(history, bundles, pool) ==>
        EndsNewest(parse, history, bundles, pool)
  }

  /** The same for chains of live offers only. */
  ghost predicate NeverLosesLive(parse: Parser, pool: set<Block>) {
    forall history, bundles ::
      IsChain(parse, history, bundles) && InOrder(history) && OffersExactly(history, bundles, pool)
      && OffersLive(parse, history) ==>
        EndsNewest(parse, history, bundles, pool)
  }

  // ----- picking the newest of a pool

  lemma NewestMember(parse: Parser, pool: set<Block>) returns (x: Block)
    requires pool != {} && forall b :: b in pool ==> Parses(parse, b)
    ensures x in pool && forall b :: b in pool ==> Issued(parse, b) <= Issued(parse, x)
    decreases |pool|
  {
    x :| x in pool;
    if pool != {x} {
      var y := NewestMember(parse, pool - {x});
      assert pool == pool - {x} + {x};
      x := if Issued(parse, y) > Issued(parse, x) then y else x;
    }
  }

  lemma Sorted(parse: Parser, pool: set<Block>) returns (s: seq<Block>)
    requires forall b :: b in pool ==> Parses(parse, b)
    ensures AllParse(parse, s) && NewestFirst(parse, s) && Distinct(s) && Elems(s) == pool
    decreases |pool|
  {
    s := [];
    if pool != {} {
      var x := NewestMember(parse, pool);
      var rest := Sorted(parse, pool - {x});
      assert forall b :: b in rest ==> b in Elems(rest);
      NewestOnTop(parse, x, rest);
      s := [x] + rest;
      assert Elems(s) == {x} + Elems(rest) == pool;
    }
  }

  lemma NewestOnTop(parse: Parser, x: Block, rest: seq<Block>)
    requires AllParse(parse, rest) && NewestFirst(parse, rest) && Distinct(rest) && Parses(parse, x) && x !in rest
    requires forall b :: b in rest ==> Parses(parse, b) && Issued(parse, b) <= Issued(parse, x)
    ensures AllParse(parse, [x] + rest) && NewestFirst(parse, [x] + rest) && Distinct([x] + rest)
  {
  }

  lemma NewestExists(parse: Parser, pool: set<Block>) returns (kept: seq<Block>)
    requires forall b :: b in pool ==> Parses(parse, b)
    ensures Newest(parse, pool, kept)
  {
    var s := Sorted(parse, pool);
    TruncationKeepsNewest(parse, s);
    kept := if |s| > MAX_RETAINED_CAS then s[..MAX_RETAINED_CAS] else s;
  }

  /** Whatever is kept has at most two later members. */
  lemma KeptHasFewLater(parse: Parser, pool: set<Block>, kept: seq<Block>, x: Block)
    requires Newest(parse, pool, kept) && x in kept
    ensures |LaterIn(parse, pool, x)| < MAX_RETAINED_CAS
  {
    DistinctCardinality(kept);
    assert LaterIn(parse, pool, x) <= Elems(kept) - {x};
    SubsetCardinality(LaterIn(parse, pool, x), Elems(kept) - {x});
  }

  /** Whatever is left behind has at least three. */
  lemma LeftHasManyLater(parse: Parser, pool: set<Block>, kept: seq<Block>, x: Block)
    requires DistinctIssue(parse, pool) && Newest(parse, pool, kept) && x in pool && x !in kept
    ensures |LaterIn(parse, pool, x)| >= MAX_RETAINED_CAS
  {
    DistinctCardinality(kept);
    if |kept| < MAX_RETAINED_CAS {
      assert Elems(kept) <= pool - {x};
      SubsetCardinality(Elems(kept), pool - {x});
      assert false;
    }
    assert Elems(kept) <= LaterIn(parse, pool, x);
    SubsetCardinality(Elems(kept), LaterIn(parse, pool, x));
  }

  /** A sorted list of at most three members is the newest ones if it misses no member
      with fewer than three later ones. */
  lemma NewestIfNothingMissed(parse: Parser, pool: set<Block>, kept: seq<Block>)
    requires DistinctIssue(parse, pool) && forall b :: b in pool ==> Parses(parse, b)
    requires Elems(kept) <= pool && |kept| <= MAX_RETAINED_CAS
    requires AllParse(parse, kept) && Distinct(kept) && NewestFirst(parse, kept)
    requires forall x :: x in pool && |LaterIn(parse, pool, x)| < MAX_RETAINED_CAS ==> x in kept
    ensures Newest(parse, pool, kept)
  {
    var best := NewestExists(parse, pool);
    forall x | x in best ensures x in kept {
      KeptHasFewLater(parse, pool, best, x);
    }
    assert Elems(best) <= Elems(kept);
    DistinctCardinality(best);
    DistinctCardinality(kept);
    if Elems(best) != Elems(kept) {
      var y :| y in kept && y !in best;
      SubsetCardinality(Elems(best) + {y}, Elems(kept));
      SubsetCardinality(Elems(best) + {y}, pool);
      assert false;
    }
    assert forall x :: x in best || x in kept ==> x in Elems(best) || x in Elems(kept);
    SortedSetsAreEqual(parse, pool, best, kept);
  }

  // ----- what a chain cannot lose

  lemma {:induction false} BundlesHoldOffers(parse: Parser, history: seq<Merge>, bundles: seq<seq<Block>>, k: nat)
    requires IsChain(parse, history, bundles) && bundles[0] == [] && k <= |history|
    ensures Elems(bundles[k]) <= EverOffered([], history)
  {
    if k > 0 {
      BundlesHoldOffers(parse, history, bundles, k - 1);
      assert Merged(parse, bundles[k - 1], [history[k - 1].ca], history[k - 1].time, bundles[k]);
      assert history[k - 1].ca in EverOffered([], history);
    }
  }

  /** A member with fewer than three later ones is never displaced. */
  lemma FewLaterIsKept(parse: Parser, history: seq<Merge>, bundles: seq<seq<Block>>, pool: set<Block>, x: Block)
    requires IsChain(parse, history, bundles) && InOrder(history) && OffersExactly(history, bundles, pool)
    requires DistinctIssue(parse, pool) && x in pool && Live(parse, x, history[|history| - 1].time)
    requires |LaterIn(parse, pool, x)| < MAX_RETAINED_CAS
    ensures x in bundles[|history|]
  {
    var i := OfferOf(history, pool, x);
    if x !in bundles[|history|] {
      var m := WhenItWent(parse, history, bundles, x, i);
      BundlesHoldOffers(parse, history, bundles, m + 1);
      DisplacedByLater(parse, pool, x, history[m].time, bundles[m + 1]);
    }
  }

  lemma OfferOf(history: seq<Merge>, pool: set<Block>, x: Block) returns (i: nat)
    requires EverOffered([], history) == pool && x in pool
    ensures i < |history| && history[i].ca == x
  {
    i :| 0 <= i < |history| && history[i].ca == x;
  }

  /** The merge at which a certificate still live at the end was displaced. */
  lemma WhenItWent(parse: Parser, history: seq<Merge>, bundles: seq<seq<Block>>, x: Block, i: nat) returns (m: nat)
    requires IsChain(parse, history, bundles) && InOrder(history)
    requires i < |history| && history[i].ca == x && x !in bundles[|history|]
    requires Live(parse, x, history[|history| - 1].time)
    ensures m < |history| && Displaced(parse, x, history[m].time, bundles[m + 1])
  {
    CertificateIsRetained(parse, history, bundles, i, |history|);
    m :| i <= m < |history| && (|| !Live(parse, x, history[m].time)
                                || Displaced(parse, x, history[m].time, bundles[m + 1]));
    assert history[m].time <= history[|history| - 1].time;
  }

  lemma DisplacedByLater(parse: Parser, pool: set<Block>, x: Block, now: int, bundle: seq<Block>)
    requires DistinctIssue(parse, pool) && x in pool && Parses(parse, x)
    requires Elems(bundle) <= pool && Displaced(parse, x, now, bundle)
    ensures |LaterIn(parse, pool, x)| >= MAX_RETAINED_CAS
  {
    DistinctCardinality(bundle);
    forall b | b in Elems(bundle) ensures b in LaterIn(parse, pool, x) {
      assert b in bundle;
    }
    SubsetCardinality(Elems(bundle), LaterIn(parse, pool, x));
  }

  /** If every live member with fewer than three later live ones is in the last bundle, the
      chain has ended with the newest. */
  lemma EndsNewestIfNothingMissed(parse: Parser, history: seq<Merge>, bundles: seq<seq<Block>>, pool: set<Block>)
    requires IsChain(parse, history, bundles) && OffersExactly(history, bundles, pool) && DistinctIssue(parse, pool)
    requires var live := LivePool(parse, pool, history[|history| - 1].time);
             forall x :: x in live && |LaterIn(parse, live, x)| < MAX_RETAINED_CAS ==> x in bundles[|history|]
    ensures EndsNewest(parse, history, bundles, pool)
  {
    var n := |history| - 1;
    assert Merged(parse, bundles[n], [history[n].ca], history[n].time, bundles[n + 1]);
    BundlesHoldOffers(parse, history, bundles, n + 1);
    NewestIfNothingMissed(parse, LivePool(parse, pool, history[n].time), bundles[n + 1]);
  }

  // ----- a chain that does lose

  lemma MergedExists(parse: Parser, existing: seq<Block>, ca: Block, now: int) returns (merged: seq<Block>)
    ensures Merged(parse, existing, [ca], now, merged)
  {
    merged := NewestExists(parse, LivePool(parse, Elems(existing) + Elems([ca]), now));
  }

  lemma {:induction false} ChainExists(parse: Parser, history: seq<Merge>) returns (bundles: seq<seq<Block>>)
    ensures IsChain(parse, history, bundles) && bundles[0] == []
  {
    if history == [] {
      bundles := [[]];
    } else {
      var n := |history| - 1;
      var front := ChainExists(parse, history[..n]);
      var last := MergedExists(parse, front[n], history[n].ca, history[n].time);
      bundles := front + [last];
      forall k | 0 <= k < |history|
        ensures Merged(parse, bundles[k], [history[k].ca], history[k].time, bundles[k + 1])
      {
        if k < n {
          assert Merged(parse, front[k], [history[..n][k].ca], history[..n][k].time, front[k + 1]);
        }
      }
    }
  }

  /** An instant, no later than `latest`, at which nothing has expired yet. */
  lemma BeforeAllExpiries(parse: Parser, pool: set<Block>, latest: int) returns (now: int)
    ensures now <= latest && forall b :: b in pool && Parses(parse, b) ==> Live(parse, b, now)
    decreases |pool|
  {
    now := latest;
    if pool != {} {
      var b :| b in pool;
      now := BeforeAllExpiries(parse, pool - {b}, latest);
      assert pool == pool - {b} + {b};
      if Parses(parse, b) && Expiry(parse, b) <= now {
        now := Expiry(parse, b) - 1;
      }
    }
  }

  lemma Listed(pool: set<Block>) returns (s: seq<Block>)
    ensures Elems(s) == pool
    decreases |pool|
  {
    s := [];
    if pool != {} {
      var b :| b in pool;
      var rest := Listed(pool - {b});
      s := [b] + rest;
      assert Elems(s) == {b} + Elems(rest) == pool;
    }
  }

  function AllAt(s: seq<Block>, now: int): seq<Merge> {
    seq(|s|, i requires 0 <= i < |s| => Merge(s[i], now))
  }

  lemma OffersOfAllAt(s: seq<Block>, now: int, m: Merge)
    ensures EverOffered([], AllAt(s, now)) == Elems(s)
    ensures EverOffered([], AllAt(s, now) + [m]) == Elems(s) + {m.ca}
  {
    var h := AllAt(s, now);
    forall b | b in s ensures b in EverOffered([], h) {
      var i :| 0 <= i < |s| && s[i] == b;
      assert h[i].ca == b;
    }
    OneMoreOffer([], h + [m]);
    assert (h + [m])[..|h + [m]| - 1] == h;
  }

  /** x has three later members, but at `last` at most two of them are live. */
  ghost predicate Loses(parse: Parser, pool: set<Block>, x: Block, last: int) {
    && x in pool && Live(parse, x, last)
    && |LaterIn(parse, pool, x)| >= MAX_RETAINED_CAS
    && |LaterIn(parse, LivePool(parse, pool, last), x)| < MAX_RETAINED_CAS
  }

  /** Then offering the whole pool early, and some other member at `last`, loses x. */
  lemma LosingChain(parse: Parser, pool: set<Block>, x: Block, last: int, m: Block)
      returns (history: seq<Merge>, bundles: seq<seq<Block>>)
    requires DistinctIssue(parse, pool) && Loses(parse, pool, x, last) && m in pool && m != x
    ensures IsChain(parse, history, bundles) && InOrder(history) && OffersExactly(history, bundles, pool)
    ensures !EndsNewest(parse, history, bundles, pool)
    ensures Live(parse, m, last) && (forall b :: b in pool ==> Parses(parse, b)) ==> OffersLive(parse, history)
  {
    var early := BeforeAllExpiries(parse, pool, last);
    var s := Listed(pool);
    history := EarlyThen(s, early, Merge(m, last));
    bundles := ChainExists(parse, history);
    assert x in Elems(s);
    EarlyThenOffers(parse, s, early, Merge(m, last));
    assert Elems(s) + {m} == pool;
    FrontDropsIt(parse, pool, x, AllAt(s, early), early, bundles[..|s| + 1], history, bundles);
    LastMissesIt(parse, pool, x, last, bundles[|s|], m, bundles[|s| + 1]);
  }

  function EarlyThen(s: seq<Block>, early: int, m: Merge): seq<Merge> {
    AllAt(s, early) + [m]
  }

  lemma EarlyThenOffers(parse: Parser, s: seq<Block>, early: int, m: Merge)
    requires early <= m.time
    ensures var h := EarlyThen(s, early, m);
            && |h| == |s| + 1 && h[..|s|] == AllAt(s, early) && h[|s|] == m && InOrder(h)
            && EverOffered([], AllAt(s, early)) == Elems(s) && EverOffered([], h) == Elems(s) + {m.ca}
            && (Live(parse, m.ca, m.time) && (forall b :: b in s ==> Live(parse, b, early)) ==> OffersLive(parse, h))
  {
    OffersOfAllAt(s, early, m);
  }

  lemma FrontDropsIt(parse: Parser, pool: set<Block>, x: Block, front: seq<Merge>, early: int, some: seq<seq<Block>>,
                     history: seq<Merge>, bundles: seq<seq<Block>>)
    requires DistinctIssue(parse, pool) && x in pool && Parses(parse, x)
    requires |LaterIn(parse, pool, x)| >= MAX_RETAINED_CAS
    requires forall b :: b in pool && Parses(parse, b) ==> Live(parse, b, early)
    requires front != [] && (forall i :: 0 <= i < |front| ==> front[i].time == early) && EverOffered([], front) == pool
    requires |history| == |front| + 1 && history[..|front|] == front
    requires IsChain(parse, history, bundles) && bundles[0] == [] && some == bundles[..|front| + 1]
    ensures x !in bundles[|front|]
  {
    forall k | 0 <= k < |front| ensures Merged(parse, some[k], [front[k].ca], front[k].time, some[k + 1]) {
      assert front[k] == history[k];
    }
    ChainKeepsNewest(parse, front, some);
    var live := LivePool(parse, pool, early);
    assert LaterIn(parse, live, x) == LaterIn(parse, pool, x);
    if x in bundles[|front|] {
      KeptHasFewLater(parse, live, bundles[|front|], x);
    }
  }

  lemma LastMissesIt(parse: Parser, pool: set<Block>, x: Block, last: int, before: seq<Block>, m: Block, after: seq<Block>)
    requires DistinctIssue(parse, pool) && Loses(parse, pool, x, last) && m != x && x !in before
    requires Merged(parse, before, [m], last, after)
    ensures !Newest(parse, LivePool(parse, pool, last), after)
  {
    assert x !in after;
    if Newest(parse, LivePool(parse, pool, last), after) {
      LeftHasManyLater(parse, LivePool(parse, pool, last), after, x);
    }
  }

  // ----- the exact conditions

  /** Each member that has three later ones has three that expire no sooner. */
  ghost predicate Outlived(parse: Parser, pool: set<Block>) {
    forall x :: x in pool && Parses(parse, x) && |LaterIn(parse, pool, x)| >= MAX_RETAINED_CAS ==>
                  |OutlivingIn(parse, pool, x)| >= MAX_RETAINED_CAS
  }

  /** Just before x expires, its later live members are those that expire no sooner. */
  lemma LiveAtTheEnd(parse: Parser, pool: set<Block>, x: Block)
    requires Parses(parse, x)
    ensures LaterIn(parse, LivePool(parse, pool, Expiry(parse, x) - 1), x) == OutlivingIn(parse, pool, x)
  {
  }

  /** Truncating at every merge loses nothing, over all chains that offer exactly this
      pool, if and only if each member with three later ones has three that outlive it. */
  lemma NeverLosesIff(parse: Parser, pool: set<Block>)
    requires DistinctIssue(parse, pool)
    ensures NeverLoses(parse, pool) <==> Outlived(parse, pool)
  {
    if Outlived(parse, pool) {
      forall history, bundles
        | IsChain(parse, history, bundles) && InOrder(history) && OffersExactly(history, bundles, pool)
        ensures EndsNewest(parse, history, bundles, pool)
      {
        OutlivedIsKept(parse, pool, history, bundles);
      }
    } else {
      var x :| x in pool && Parses(parse, x) && |LaterIn(parse, pool, x)| >= MAX_RETAINED_CAS
               && |OutlivingIn(parse, pool, x)| < MAX_RETAINED_CAS;
      var m :| m in LaterIn(parse, pool, x);
      LiveAtTheEnd(parse, pool, x);
      var history, bundles := LosingChain(parse, pool, x, Expiry(parse, x) - 1, m);
    }
  }

  lemma OutlivedIsKept(parse: Parser, pool: set<Block>, history: seq<Merge>, bundles: seq<seq<Block>>)
    requires DistinctIssue(parse, pool) && Outlived(parse, pool)
    requires IsChain(parse, history, bundles) && InOrder(history) && OffersExactly(history, bundles, pool)
    ensures EndsNewest(parse, history, bundles, pool)
  {
    var last := history[|history| - 1].time;
    var live := LivePool(parse, pool, last);
    forall x | x in live && |LaterIn(parse, live, x)| < MAX_RETAINED_CAS ensures x in bundles[|history|] {
      if |LaterIn(parse, pool, x)| >= MAX_RETAINED_CAS {
        assert OutlivingIn(parse, pool, x) <= LaterIn(parse, live, x);
        SubsetCardinality(OutlivingIn(parse, pool, x), LaterIn(parse, live, x));
        assert false;
      }
      FewLaterIsKept(parse, history, bundles, pool, x);
    }
    EndsNewestIfNothingMissed(parse, history, bundles, pool);
  }

  /** At any time at which x and some other member are live, three of the three or more
      later members of x are too. */
  ghost predicate OutlivedInCompany(parse: Parser, pool: set<Block>) {
    forall x, m, now :: Live(parse, x, now) && Live(parse, m, now) && x in pool && m in pool && x != m ==>
                          !Loses(parse, pool, x, now)
  }

  /** If nothing expired is ever offered, as no process does with the CA it just minted,
      a loss moreover needs another member live at the last merge, the one it offers. */
  lemma NeverLosesLiveIff(parse: Parser, pool: set<Block>)
    requires DistinctIssue(parse, pool) && forall b :: b in pool ==> Parses(parse, b)
    ensures NeverLosesLive(parse, pool) <==> OutlivedInCompany(parse, pool)
  {
    if OutlivedInCompany(parse, pool) {
      forall history, bundles
        | IsChain(parse, history, bundles) && InOrder(history) && OffersExactly(history, bundles, pool)
          && OffersLive(parse, history)
        ensures EndsNewest(parse, history, bundles, pool)
      {
        CompanyIsKept(parse, pool, history, bundles);
      }
    } else {
      var x, m, now :| Live(parse, x, now) && Live(parse, m, now) && x in pool && m in pool && x != m
                       && Loses(parse, pool, x, now);
      var history, bundles := LosingChain(parse, pool, x, now, m);
    }
  }

  lemma CompanyIsKept(parse: Parser, pool: set<Block>, history: seq<Merge>, bundles: seq<seq<Block>>)
    requires DistinctIssue(parse, pool) && OutlivedInCompany(parse, pool)
    requires IsChain(parse, history, bundles) && InOrder(history) && OffersExactly(history, bundles, pool)
    requires OffersLive(parse, history)
    ensures EndsNewest(parse, history, bundles, pool)
  {
    var n := |history| - 1;
    var last, m := history[n].time, history[n].ca;
    var live := LivePool(parse, pool, last);
    forall x | x in live && |LaterIn(parse, live, x)| < MAX_RETAINED_CAS ensures x in bundles[|history|] {
      if |LaterIn(parse, pool, x)| < MAX_RETAINED_CAS {
        FewLaterIsKept(parse, history, bundles, pool, x);
      } else {
        assert Loses(parse, pool, x, last);
        assert m in pool;
        assert x == m;
        LastOfferIsKept(parse, pool, history, bundles);
      }
    }
    EndsNewestIfNothingMissed(parse, history, bundles, pool);
  }

  /** The last offer stays unless three later live ones are in its place. */
  lemma LastOfferIsKept(parse: Parser, pool: set<Block>, history: seq<Merge>, bundles: seq<seq<Block>>)
    requires IsChain(parse, history, bundles) && OffersExactly(history, bundles, pool) && DistinctIssue(parse, pool)
    requires var n := |history| - 1;
             && Live(parse, history[n].ca, history[n].time)
             && |LaterIn(parse, LivePool(parse, pool, history[n].time), history[n].ca)| < MAX_RETAINED_CAS
    ensures history[|history| - 1].ca in bundles[|history|]
  {
    var n := |history| - 1;
    var x, live := history[n].ca, LivePool(parse, pool, history[n].time);
    assert Merged(parse, bundles[n], [x], history[n].time, bundles[n + 1]);
    OneMergeKeeps(parse, bundles[n], x, history[n].time, bundles[n + 1], x);
    if x !in bundles[n + 1] {
      BundlesHoldOffers(parse, history, bundles, n + 1);
      DistinctCardinality(bundles[n + 1]);
      assert x in pool;
      assert Elems(bundles[n + 1]) <= LaterIn(parse, live, x);
      SubsetCardinality(Elems(bundles[n + 1]), LaterIn(parse, live, x));
    }
  }

  /** One lifetime for all is enough. */
  lemma OneLifetimeNeverLoses(parse: Parser, pool: set<Block>)
    requires DistinctIssue(parse, pool) && ExpiryFollowsIssue(parse, pool)
    ensures NeverLoses(parse, pool)
  {
    forall x | x in pool && Parses(parse, x) ensures OutlivingIn(parse, pool, x) == LaterIn(parse, pool, x) {
    }
    NeverLosesIff(parse, pool);
  }

  // ----- an example

  /** The first certificate and the last live long, those between do not; longer ones
      were issued later. */
  function UnequalLifetimes(bytes: string): Option<Cert> {
    Some(Cert(|bytes|, if |bytes| == 0 || |bytes| == 4 then 100 else 10))
  }

  const OLD := Block(CERTIFICATE, "")
  const A := Block(CERTIFICATE, "a")
  const B := Block(CERTIFICATE, "bb")
  const C := Block(CERTIFICATE, "ccc")
  const D := Block(CERTIFICATE, "dddd")

  /** Three certificates push an older one out and expire before it; the next merge cannot
      bring it back, although one merge of everything at that moment would keep it. Every
      certificate is live when it is offered. */
  lemma UnequalLifetimesLoseACertificate()
    ensures IsChain(UnequalLifetimes, [Merge(C, 5), Merge(D, 50)], [[OLD, A, B], [C, B, A], [D]])
    ensures OffersLive(UnequalLifetimes, [Merge(C, 5), Merge(D, 50)])
    ensures Merged(UnequalLifetimes, [OLD, A, B], [C, D], 50, [D, OLD])
  {
    NewestThreeOfFour(UnequalLifetimes, OLD, A, B, C, 5);
    OnlyTheLast(UnequalLifetimes, A, B, C, D, 50);
    OldestAndLast(UnequalLifetimes, OLD, A, B, C, D, 50);
    TwoMerges(UnequalLifetimes, [OLD, A, B], Merge(C, 5), [C, B, A], Merge(D, 50), [D]);
  }

  lemma TwoMerges(parse: Parser, a: seq<Block>, m: Merge, b: seq<Block>, n: Merge, c: seq<Block>)
    requires Merged(parse, a, [m.ca], m.time, b) && Merged(parse, b, [n.ca], n.time, c)
    ensures IsChain(parse, [m, n], [a, b, c])
  {
  }

  lemma NewestThreeOfFour(parse: Parser, o: Block, a: Block, b: Block, c: Block, now: int)
    requires Live(parse, a, now) && Live(parse, b, now) && Live(parse, c, now) && Live(parse, o, now)
    requires Issued(parse, o) < Issued(parse, a) < Issued(parse, b) < Issued(parse, c)
    ensures Merged(parse, [o, a, b], [c], now, [c, b, a])
  {
    FourAlive(parse, o, a, b, c, now);
    ThreeOfFour(parse, o, a, b, c);
  }

  lemma ThreeOfFour(parse: Parser, o: Block, a: Block, b: Block, c: Block)
    requires Parses(parse, a) && Parses(parse, b) && Parses(parse, c) && Parses(parse, o)
    requires Issued(parse, o) < Issued(parse, a) < Issued(parse, b) < Issued(parse, c)
    ensures Newest(parse, Elems([c, b, a, o]), [c, b, a])
  {
    FourSorted(parse, o, a, b, c);
    TruncationKeepsNewest(parse, [c, b, a, o]);
    assert [c, b, a, o][..MAX_RETAINED_CAS] == [c, b, a];
  }

  lemma FourSorted(parse: Parser, o: Block, a: Block, b: Block, c: Block)
    requires Parses(parse, a) && Parses(parse, b) && Parses(parse, c) && Parses(parse, o)
    requires Issued(parse, o) < Issued(parse, a) < Issued(parse, b) < Issued(parse, c)
    ensures AllParse(parse, [c, b, a, o]) && NewestFirst(parse, [c, b, a, o]) && Distinct([c, b, a, o])
  {
  }

  lemma FourAlive(parse: Parser, o: Block, a: Block, b: Block, c: Block, now: int)
    requires Live(parse, a, now) && Live(parse, b, now) && Live(parse, c, now) && Live(parse, o, now)
    ensures Elems([c, b, a, o]) == LivePool(parse, Elems([o, a, b]) + Elems([c]), now)
  {
  }

  lemma OnlyTheLast(parse: Parser, a: Block, b: Block, c: Block, d: Block, now: int)
    requires !Live(parse, a, now) && !Live(parse, b, now) && !Live(parse, c, now) && Live(parse, d, now)
    ensures Merged(parse, [c, b, a], [d], now, [d])
  {
    assert LivePool(parse, Elems([c, b, a]) + Elems([d]), now) == {d};
  }

  lemma OldestAndLast(parse: Parser, o: Block, a: Block, b: Block, c: Block, d: Block, now: int)
    requires Live(parse, o, now) && Live(parse, d, now) && Issued(parse, o) < Issued(parse, d)
    requires !Live(parse, a, now) && !Live(parse, b, now) && !Live(parse, c, now)
    ensures Merged(parse, [o, a, b], [c, d], now, [d, o])
  {
    assert LivePool(parse, Elems([o, a, b]) + Elems([c, d]), now) == {d, o};
  }
}
