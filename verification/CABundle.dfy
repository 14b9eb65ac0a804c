/** The caBundle merge of the webhook certificate bootstrap (webhookcerts.go).

    A PEM bundle is the sequence of its decoded blocks. `parse` stands for
    x509.ParseCertificate, of which the merge only uses the two validity times. */
module CABundle {
  import opened Wrappers

  datatype Cert = Cert(notBefore: int, notAfter: int)

  datatype Block = Block(kind: string, bytes: string)

  type Parser = string -> Option<Cert>

  const CERTIFICATE := "CERTIFICATE"

  const MAX_RETAINED_CAS: nat := 3

  predicate Parses(parse: Parser, b: Block) {
    b.kind == CERTIFICATE && parse(b.bytes).Some?
  }

  function Issued(parse: Parser, b: Block): int
    requires Parses(parse, b)
  {
    parse(b.bytes).value.notBefore
  }

  predicate Live(parse: Parser, b: Block, now: int) {
    Parses(parse, b) && parse(b.bytes).value.notAfter > now
  }

  function Elems(s: seq<Block>): set<Block> {
    set b | b in s
  }

  ghost function LivePool(parse: Parser, pool: set<Block>, now: int): (live: set<Block>)
    ensures forall b :: b in live <==> b in pool && Live(parse, b, now)
  {
    set b | b in pool && Live(parse, b, now)
  }

  ghost predicate Distinct(s: seq<Block>) {
    forall i, j :: 0 <= i < j < |s| ==> s[i] != s[j]
  }

  ghost predicate AllParse(parse: Parser, s: seq<Block>) {
    forall i :: 0 <= i < |s| ==> Parses(parse, s[i])
  }

  ghost predicate NewestFirst(parse: Parser, s: seq<Block>)
    requires AllParse(parse, s)
  {
    forall i, j :: 0 <= i < j < |s| ==> Issued(parse, s[i]) >= Issued(parse, s[j])
  }

  /** `kept` lists, newest first and without repetition, as many members of `pool` as
      the cap allows, and nothing left behind was issued later than anything kept.
      Members issued at the same instant may stand in either order. */
  ghost predicate Newest(parse: Parser, pool: set<Block>, kept: seq<Block>) {
    && (forall b :: b in pool ==> Parses(parse, b))
    && (forall b :: b in kept ==> b in pool)
    && AllParse(parse, kept)
    && Distinct(kept)
    && |kept| == (if |pool| < MAX_RETAINED_CAS then |pool| else MAX_RETAINED_CAS)
    && NewestFirst(parse, kept)
    && (forall b, k :: b in pool && b !in kept && k in kept ==> Issued(parse, b) <= Issued(parse, k))
  }

  /** What one merge promises: the newest live certificates of both bundles. */
  ghost predicate Merged(parse: Parser, existing: seq<Block>, added: seq<Block>, now: int, merged: seq<Block>) {
    Newest(parse, LivePool(parse, Elems(existing) + Elems(added), now), merged)
  }

  /** A certificate that has not expired. */
  predicate Unexpired(parse: Parser, b: Block, now: int) {
    b.kind == "CERTIFICATE" && parse(b.bytes).Some? && parse(b.bytes).value.notAfter > now
  }

  predicate IssuedNoEarlier(parse: Parser, a: Block, b: Block) {
    && parse(a.bytes).Some? && parse(b.bytes).Some?
    && parse(a.bytes).value.notBefore >= parse(b.bytes).value.notBefore
  }

  /** Block by block: unexpired certificates of the two bundles, at most three, no two the
      same, newest first; one is left out only if three that are no older are in. */
  lemma MergedMeans(parse: Parser, existing: seq<Block>, added: seq<Block>, now: int, merged: seq<Block>)
    requires Merged(parse, existing, added, now, merged)
    ensures |merged| <= 3
    ensures forall b :: b in merged ==> (b in existing || b in added) && Unexpired(parse, b, now)
    ensures forall i, j :: 0 <= i < j < |merged| ==> merged[i] != merged[j] && IssuedNoEarlier(parse, merged[i], merged[j])
    ensures forall b :: (b in existing || b in added) && Unexpired(parse, b, now) && b !in merged ==>
              |merged| == 3 && forall k :: k in merged ==> IssuedNoEarlier(parse, k, b)
  {
    var pool := LivePool(parse, Elems(existing) + Elems(added), now);
    forall b | (b in existing || b in added) && Unexpired(parse, b, now) && b !in merged ensures |merged| == 3 {
      assert b in pool;
      if |merged| == |pool| {
        AllOfPool(pool, merged, b);
      }
    }
  }

  /** As many different members as the pool has are all of them. */
  lemma AllOfPool(pool: set<Block>, kept: seq<Block>, b: Block)
    requires Distinct(kept) && (forall k :: k in kept ==> k in pool) && |kept| == |pool|
    ensures b in pool ==> b in kept
  {
    DistinctCardinality(kept);
    SubsetIsAll(Elems(kept), pool);
  }

  lemma SubsetIsAll(a: set<Block>, b: set<Block>)
    requires a <= b && |a| == |b|
    ensures a == b
  {
    assert |b - a| == |b| - |a|;
  }

  // ----- the merge itself

  /** The keepValid closure: skips what is not a certificate, what does not parse, what
      has expired and what was seen before. */
  method KeepValid(parse: Parser, blocks: seq<Block>, now: int, seen0: set<string>, entries0: seq<Block>)
      returns (seen: set<string>, entries: seq<Block>)
    requires Distinct(entries0)
    requires forall b :: b in entries0 ==> Live(parse, b, now)
    requires seen0 == set b | b in entries0 :: b.bytes
    ensures Distinct(entries)
    ensures forall b :: b in entries ==> Live(parse, b, now)
    ensures Elems(entries) == Elems(entries0) + LivePool(parse, Elems(blocks), now)
    ensures seen == set b | b in entries :: b.bytes
  {
    seen, entries := seen0, entries0;
    for i := 0 to |blocks|
      invariant Distinct(entries)
      invariant forall b :: b in entries ==> Live(parse, b, now)
      invariant forall b :: b in entries <==> b in entries0 || (b in blocks[..i] && Live(parse, b, now))
      invariant seen == set b | b in entries :: b.bytes
    {
      var block := blocks[i];
      assert blocks[..i + 1] == blocks[..i] + [block];
      if block.kind != CERTIFICATE {
        continue;
      }
      var cert := parse(block.bytes);
      if cert.None? {
        continue;
      }
      if !(cert.value.notAfter > now) {
        continue;
      }
      if block.bytes in seen {
        var b :| b in entries && b.bytes == block.bytes;
        assert b == block;
        continue;
      }
      assert block !in entries;
      seen, entries := seen + {block.bytes}, entries + [block];
    }
    assert blocks[..|blocks|] == blocks;
  }

  /** Places `b` after every entry issued no earlier than it. */
  method InsertNewestFirst(parse: Parser, sorted: seq<Block>, b: Block) returns (r: seq<Block>)
    requires AllParse(parse, sorted) && NewestFirst(parse, sorted) && Distinct(sorted)
    requires Parses(parse, b) && b !in sorted
    ensures AllParse(parse, r) && NewestFirst(parse, r) && Distinct(r)
    ensures Elems(r) == Elems(sorted) + {b} && |r| == |sorted| + 1
  {
    var i := 0;
    while i < |sorted| && parse(sorted[i].bytes).value.notBefore >= parse(b.bytes).value.notBefore
      invariant 0 <= i <= |sorted|
      invariant forall j :: 0 <= j < i ==> Issued(parse, sorted[j]) >= Issued(parse, b)
    {
      i := i + 1;
    }
    r := sorted[..i] + [b] + sorted[i..];
    ElemsOfInsertion(sorted, i, b);
  }

  lemma ElemsOfInsertion(s: seq<Block>, i: nat, b: Block)
    requires i <= |s|
    ensures Elems(s[..i] + [b] + s[i..]) == Elems(s) + {b}
  {
    assert s == s[..i] + s[i..];
  }

  /** sort.Slice by NotBefore, latest first. Callers may rely on its contract only:
      the library promises no order among entries issued at the same instant. */
  method SortNewestFirst(parse: Parser, entries: seq<Block>) returns (sorted: seq<Block>)
    requires AllParse(parse, entries) && Distinct(entries)
    ensures AllParse(parse, sorted) && NewestFirst(parse, sorted) && Distinct(sorted)
    ensures Elems(sorted) == Elems(entries) && |sorted| == |entries|
  {
    sorted := [];
    for i := 0 to |entries|
      invariant AllParse(parse, sorted) && NewestFirst(parse, sorted) && Distinct(sorted)
      invariant Elems(sorted) == Elems(entries[..i]) && |sorted| == i
    {
      assert Elems(entries[..i + 1]) == Elems(entries[..i]) + {entries[i]};
      assert entries[i] !in entries[..i];
      assert entries[i] !in Elems(sorted);
      sorted := InsertNewestFirst(parse, sorted, entries[i]);
    }
    assert entries[..|entries|] == entries;
  }

  method MergeCABundle(parse: Parser, existing: seq<Block>, newCA: seq<Block>, now: int)
      returns (merged: seq<Block>)
    ensures Merged(parse, existing, newCA, now, merged)
  {
    var seen, entries := KeepValid(parse, existing, now, {}, []);
    seen, entries := KeepValid(parse, newCA, now, seen, entries);
    assert forall i :: 0 <= i < |entries| ==> entries[i] in entries;
    entries := SortNewestFirst(parse, entries);
    ghost var all := entries;
    if |entries| > MAX_RETAINED_CAS {
      entries := entries[..MAX_RETAINED_CAS];
    }
    merged := entries;
    assert Elems(all) == LivePool(parse, Elems(existing) + Elems(newCA), now);
    TruncationKeepsNewest(parse, all);
  }

  lemma TruncationKeepsNewest(parse: Parser, sorted: seq<Block>)
    requires AllParse(parse, sorted) && NewestFirst(parse, sorted) && Distinct(sorted)
    ensures Newest(parse, Elems(sorted), if |sorted| > MAX_RETAINED_CAS then sorted[..MAX_RETAINED_CAS] else sorted)
  {
    DistinctCardinality(sorted);
    if |sorted| > MAX_RETAINED_CAS {
      var kept := sorted[..MAX_RETAINED_CAS];
      forall b, k | b in Elems(sorted) && b !in kept && k in kept
        ensures Issued(parse, b) <= Issued(parse, k)
      {
        var i :| 0 <= i < |kept| && kept[i] == k;
        var j :| 0 <= j < |sorted| && sorted[j] == b;
        assert j >= |kept|;
      }
    }
  }

  lemma DistinctCardinality(s: seq<Block>)
    requires Distinct(s)
    ensures |Elems(s)| == |s|
  {
    if s == [] {
    } else {
      var last := |s| - 1;
      DistinctCardinality(s[..last]);
      assert Elems(s) == Elems(s[..last]) + {s[last]};
      assert s[last] !in s[..last];
    }
  }

  // ----- what a chain of merges keeps

  /** One process's CA, folded in at the given time. */
  datatype Merge = Merge(ca: Block, time: int)

  /** bundles[k + 1] is a possible result of merging history[k] into bundles[k]. */
  ghost predicate IsChain(parse: Parser, history: seq<Merge>, bundles: seq<seq<Block>>) {
    && |bundles| == |history| + 1
    && forall k :: 0 <= k < |history| ==>
                     Merged(parse, bundles[k], [history[k].ca], history[k].time, bundles[k + 1])
  }

  ghost predicate InOrder(history: seq<Merge>) {
    forall i, j :: 0 <= i < j < |history| ==> history[i].time <= history[j].time
  }

  /** Everything that was ever in the bundle or offered to it. */
  ghost function EverOffered(initial: seq<Block>, history: seq<Merge>): set<Block> {
    Elems(initial) + set i | 0 <= i < |history| :: history[i].ca
  }

  /** Issued later means expiring no sooner. */
  ghost predicate ExpiryFollowsIssue(parse: Parser, pool: set<Block>) {
    forall a, b :: a in pool && b in pool && Parses(parse, a) && Parses(parse, b) ==>
                     Issued(parse, a) <= Issued(parse, b) ==>
                       parse(a.bytes).value.notAfter <= parse(b.bytes).value.notAfter
  }

  /** Every CA the operator mints lives equally long, so expiry follows issue. */
  lemma CommonValidityOrdersExpiry(parse: Parser, pool: set<Block>, validity: int)
    requires forall b :: b in pool && Parses(parse, b) ==>
                           parse(b.bytes).value.notAfter == parse(b.bytes).value.notBefore + validity
    ensures ExpiryFollowsIssue(parse, pool)
  {
  }

  /** Three kept members bound the issue time of anything a larger pool's winners hold. */
  lemma WinnersOfLargerPool(parse: Parser, small: seq<Block>, pool: set<Block>, kept: seq<Block>, floor: int)
    requires Newest(parse, pool, kept)
    requires Distinct(small) && |small| == MAX_RETAINED_CAS
    requires forall b :: b in small ==> b in pool && Issued(parse, b) >= floor
    ensures |kept| == MAX_RETAINED_CAS
    ensures forall k :: k in kept ==> Issued(parse, k) >= floor
  {
    DistinctCardinality(small);
    assert Elems(small) <= pool;
    SubsetCardinality(Elems(small), pool);
    forall k | k in kept ensures Issued(parse, k) >= floor {
      if Issued(parse, k) < floor {
        // everything in small beats k, so it is all kept, and k besides
        assert Elems(small) <= Elems(kept) - {k};
        SubsetCardinality(Elems(small), Elems(kept) - {k});
        DistinctCardinality(kept);
        assert false;
      }
    }
  }

  lemma SubsetCardinality<T>(a: set<T>, b: set<T>)
    requires a <= b
    ensures |a| <= |b|
  {
    assert b == a + (b - a);
  }

  /** Truncating early loses nothing: merging one more certificate into the newest of a
      pool gives the newest of the enlarged pool, even though time has passed. */
  lemma MergeExtendsNewest(parse: Parser, ever: set<Block>, before: int, bundle: seq<Block>,
                           ca: Block, now: int, merged: seq<Block>)
    requires before <= now
    requires before == now || ExpiryFollowsIssue(parse, ever + {ca})
    requires Newest(parse, LivePool(parse, ever, before), bundle)
    requires Merged(parse, bundle, [ca], now, merged)
    ensures Newest(parse, LivePool(parse, ever + {ca}, now), merged)
  {
    var small := LivePool(parse, Elems(bundle) + Elems([ca]), now);
    var large := LivePool(parse, ever + {ca}, now);
    assert small <= large by {
      forall b | b in small ensures b in large {
        assert b in bundle || b == ca;
      }
    }
    if large <= small {
      assert small == large;
    } else {
      forall x | x in large && x !in small
        ensures |merged| == MAX_RETAINED_CAS
        ensures forall k :: k in merged ==> Issued(parse, k) >= Issued(parse, x)
      {
        OvershadowedForGood(parse, ever, before, bundle, ca, now, merged, x);
      }
      var x :| x in large && x !in small;
      assert |merged| == MAX_RETAINED_CAS;
      SubsetCardinality(small, large);
    }
  }

  /** A live certificate the earlier merge left out is still beaten by three live ones. */
  lemma OvershadowedForGood(parse: Parser, ever: set<Block>, before: int, bundle: seq<Block>,
                            ca: Block, now: int, merged: seq<Block>, x: Block)
    requires before <= now
    requires before == now || ExpiryFollowsIssue(parse, ever + {ca})
    requires Newest(parse, LivePool(parse, ever, before), bundle)
    requires Merged(parse, bundle, [ca], now, merged)
    requires x in ever && x !in bundle && Live(parse, x, now)
    ensures |merged| == MAX_RETAINED_CAS
    ensures forall k :: k in merged ==> Issued(parse, k) >= Issued(parse, x)
  {
    var pool := LivePool(parse, ever, before);
    assert x in pool;
    DistinctCardinality(bundle);
    if |bundle| < MAX_RETAINED_CAS {
      assert Elems(bundle) <= pool - {x};
      SubsetCardinality(Elems(bundle), pool - {x});
      assert false;
    }
    forall b | b in bundle
      ensures b in LivePool(parse, Elems(bundle) + Elems([ca]), now) && Issued(parse, b) >= Issued(parse, x)
    {
      assert b in pool && b in ever;
    }
    WinnersOfLargerPool(parse, bundle, LivePool(parse, Elems(bundle) + Elems([ca]), now), merged, Issued(parse, x));
  }

  lemma OneMoreOffer(initial: seq<Block>, history: seq<Merge>)
    requires history != []
    ensures EverOffered(initial, history)
         == EverOffered(initial, history[..|history| - 1]) + {history[|history| - 1].ca}
  {
    var n := |history| - 1;
    forall b | b in EverOffered(initial, history)
      ensures b in EverOffered(initial, history[..n]) + {history[n].ca}
    {
      if b !in Elems(initial) {
        var i :| 0 <= i < |history| && history[i].ca == b;
        assert i < n ==> history[..n][i].ca == b;
      }
    }
    forall b | b in EverOffered(initial, history[..n]) ensures b in EverOffered(initial, history) {
      if b !in Elems(initial) {
        var i :| 0 <= i < n && history[..n][i].ca == b;
        assert history[i].ca == b;
      }
    }
  }

  ghost predicate AtOnce(history: seq<Merge>) {
    forall i, j :: 0 <= i < j < |history| ==> history[i].time == history[j].time
  }

  /** After any merges at nondecreasing times the bundle is the newest live certificates
      among everything ever offered: if expiry follows issue, or if no time passes. */
  lemma {:induction false} ChainKeepsNewest(parse: Parser, history: seq<Merge>, bundles: seq<seq<Block>>)
    requires IsChain(parse, history, bundles) && InOrder(history) && history != []
    requires AtOnce(history) || ExpiryFollowsIssue(parse, EverOffered(bundles[0], history))
    ensures Newest(parse, LivePool(parse, EverOffered(bundles[0], history), history[|history| - 1].time),
                   bundles[|history|])
  {
    var n := |history| - 1;
    var last := history[n];
    OneMoreOffer(bundles[0], history);
    if n == 0 {
      assert LivePool(parse, EverOffered(bundles[0], history), last.time)
          == LivePool(parse, Elems(bundles[0]) + Elems([last.ca]), last.time);
    } else {
      ChainKeepsNewest(parse, history[..n], bundles[..n + 1]);
      MergeExtendsNewest(parse, EverOffered(bundles[0], history[..n]), history[n - 1].time, bundles[n],
                         last.ca, last.time, bundles[n + 1]);
    }
  }

  ghost predicate DistinctIssue(parse: Parser, pool: set<Block>) {
    forall a, b :: a in pool && b in pool && Parses(parse, a) && Parses(parse, b) ==>
                     (Issued(parse, a) == Issued(parse, b) ==> a == b)
  }

  /** With distinct issue times the newest certificates of a pool are one sequence. */
  lemma NewestIsUnique(parse: Parser, pool: set<Block>, a: seq<Block>, b: seq<Block>)
    requires DistinctIssue(parse, pool)
    requires Newest(parse, pool, a) && Newest(parse, pool, b)
    ensures a == b
  {
    SameWinners(parse, pool, a, b);
    SameWinners(parse, pool, b, a);
    SortedSetsAreEqual(parse, pool, a, b);
  }

  lemma SameWinners(parse: Parser, pool: set<Block>, a: seq<Block>, b: seq<Block>)
    requires DistinctIssue(parse, pool)
    requires Newest(parse, pool, a) && Newest(parse, pool, b)
    ensures Elems(a) <= Elems(b)
  {
    DistinctCardinality(a);
    DistinctCardinality(b);
    forall x | x in a ensures x in b {
      if x !in b {
        if Elems(b) <= Elems(a) {
          assert Elems(b) <= Elems(a) - {x};
          SubsetCardinality(Elems(b), Elems(a) - {x});
          assert false;
        }
        // some y was kept only in b: each of x and y was issued no later than the other
      }
    }
  }

  lemma {:induction false} SortedSetsAreEqual(parse: Parser, pool: set<Block>, a: seq<Block>, b: seq<Block>)
    requires DistinctIssue(parse, pool)
    requires forall x :: x in a || x in b ==> x in pool
    requires AllParse(parse, a) && AllParse(parse, b)
    requires Distinct(a) && Distinct(b)
    requires NewestFirst(parse, a) && NewestFirst(parse, b)
    requires Elems(a) == Elems(b)
    ensures a == b
  {
    DistinctCardinality(a);
    DistinctCardinality(b);
    if a != [] {
      assert a[0] in Elems(b) && b[0] in Elems(a);
      assert a[0] == b[0];
      assert Elems(a[1..]) == Elems(a) - {a[0]};
      assert Elems(b[1..]) == Elems(b) - {b[0]};
      SortedSetsAreEqual(parse, pool, a[1..], b[1..]);
    }
  }

  /** Order and grouping do not matter: two chains that were offered the same
      certificates and end at the same time hold the same bundle. */
  lemma ChainsAgree(parse: Parser, h1: seq<Merge>, c1: seq<seq<Block>>, h2: seq<Merge>, c2: seq<seq<Block>>)
    requires IsChain(parse, h1, c1) && InOrder(h1) && h1 != []
    requires IsChain(parse, h2, c2) && InOrder(h2) && h2 != []
    requires EverOffered(c1[0], h1) == EverOffered(c2[0], h2)
    requires h1[|h1| - 1].time == h2[|h2| - 1].time
    requires ExpiryFollowsIssue(parse, EverOffered(c1[0], h1))
    requires DistinctIssue(parse, EverOffered(c1[0], h1))
    ensures c1[|h1|] == c2[|h2|]
  {
    ChainKeepsNewest(parse, h1, c1);
    ChainKeepsNewest(parse, h2, c2);
    NewestIsUnique(parse, LivePool(parse, EverOffered(c1[0], h1), h1[|h1| - 1].time), c1[|h1|], c2[|h2|]);
  }

  /** Merging one at a time ends where a single merge of everything would. */
  lemma ChainMatchesOneShot(parse: Parser, history: seq<Merge>, bundles: seq<seq<Block>>,
                            all: seq<Block>, oneShot: seq<Block>)
    requires IsChain(parse, history, bundles) && InOrder(history) && history != []
    requires |all| == |history| && forall i :: 0 <= i < |all| ==> all[i] == history[i].ca
    requires Merged(parse, bundles[0], all, history[|history| - 1].time, oneShot)
    requires ExpiryFollowsIssue(parse, EverOffered(bundles[0], history))
    requires DistinctIssue(parse, EverOffered(bundles[0], history))
    ensures bundles[|history|] == oneShot
  {
    ChainKeepsNewest(parse, history, bundles);
    assert Elems(all) == set i | 0 <= i < |history| :: history[i].ca;
    NewestIsUnique(parse, LivePool(parse, EverOffered(bundles[0], history), history[|history| - 1].time),
                   bundles[|history|], oneShot);
  }

  /** Merging a certificate again, at once, changes nothing, whatever the lifetimes. */
  lemma MergeIsIdempotent(parse: Parser, existing: seq<Block>, ca: Block, now: int,
                          once: seq<Block>, twice: seq<Block>)
    requires DistinctIssue(parse, Elems(existing) + {ca})
    requires Merged(parse, existing, [ca], now, once)
    requires Merged(parse, once, [ca], now, twice)
    ensures once == twice
  {
    var m := Merge(ca, now);
    assert EverOffered(existing, [m, m]) == Elems(existing) + {ca} == EverOffered(existing, [m]) by {
      assert [m, m][0].ca == ca && [m][0].ca == ca;
    }
    ChainKeepsNewest(parse, [m, m], [existing, once, twice]);
    ChainKeepsNewest(parse, [m], [existing, once]);
    NewestIsUnique(parse, LivePool(parse, Elems(existing) + {ca}, now), once, twice);
  }

  // ----- how long one certificate is kept

  /** Three other live certificates, issued no earlier, hold every place. */
  ghost predicate Displaced(parse: Parser, ca: Block, now: int, bundle: seq<Block>) {
    && |bundle| == MAX_RETAINED_CAS && Distinct(bundle)
    && forall b :: b in bundle ==> b != ca && Live(parse, b, now) && Parses(parse, ca)
                                   && Issued(parse, b) >= Issued(parse, ca)
  }

  lemma OneMergeKeeps(parse: Parser, existing: seq<Block>, added: Block, now: int, merged: seq<Block>, ca: Block)
    requires Merged(parse, existing, [added], now, merged)
    requires ca in existing || ca == added
    requires Live(parse, ca, now)
    ensures ca in merged || Displaced(parse, ca, now, merged)
  {
    var pool := LivePool(parse, Elems(existing) + Elems([added]), now);
    assert ca in pool;
    if ca !in merged {
      DistinctCardinality(merged);
      if |merged| < MAX_RETAINED_CAS {
        assert Elems(merged) <= pool - {ca};
        SubsetCardinality(Elems(merged), pool - {ca});
        assert false;
      }
    }
  }

  /** A merged CA stays until some merge at or after its own finds it expired or finds
      three live CAs issued no earlier. */
  lemma {:induction false} CertificateIsRetained(parse: Parser, history: seq<Merge>, bundles: seq<seq<Block>>, i: nat, j: nat)
    requires IsChain(parse, history, bundles)
    requires i < j <= |history|
    ensures || history[i].ca in bundles[j]
            || exists m :: i <= m < j && (|| !Live(parse, history[i].ca, history[m].time)
                                          || Displaced(parse, history[i].ca, history[m].time, bundles[m + 1]))
    decreases j
  {
    var ca := history[i].ca;
    if j > i + 1 {
      CertificateIsRetained(parse, history, bundles, i, j - 1);
    }
    if (j == i + 1 || ca in bundles[j - 1]) && Live(parse, ca, history[j - 1].time) {
      OneMergeKeeps(parse, bundles[j - 1], history[j - 1].ca, history[j - 1].time, bundles[j], ca);
    }
  }
}
