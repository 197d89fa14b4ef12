/** Hierarchies that reach the limits of the resolver: one too deep, and for each depth one with too many rows. */
module ResolverLimits {
  import opened AddressModel
  import opened Resolver
  import opened Wrappers

  // ---------- a hierarchy too deep for the passes ----------

  // Objects 1 to n of one region, each the parent of the next.
  ghost function Chain(n: nat): Tree {
    Tree(map i | 1 <= i <= n :: Key(1, i) := Object(AddrObj, "a", "", "", None, None),
         map i | 2 <= i <= n :: Key(1, i) := Some(i - 1))
  }

  ghost function ChainPath(m: nat): seq<Key> {
    seq(m, i => Key(1, i + 1))
  }

  lemma ChainObject(n: nat, m: nat)
    requires 1 <= m <= n
    ensures Live(Chain(n), Key(1, m)) && Parent(Chain(n), Key(1, m)) == if m > 1 then Some(Key(1, m - 1)) else None
  {
    assert Key(1, m) in Chain(n).objects;
    assert m > 1 <==> Key(1, m) in Chain(n).parents;
  }

  lemma {:induction false} ChainIsPath(n: nat, m: nat)
    requires 1 <= m <= n
    ensures RootPath(Chain(n), ChainPath(m))
  {
    ChainObject(n, m);
    if m > 1 {
      ChainIsPath(n, m - 1);
      assert ChainPath(m)[..m - 1] == ChainPath(m - 1);
    }
  }

  /** One object more than there are passes: the last is reachable from its root and still orphaned. */
  lemma LongChainLosesItsEnd(b: Batch, pages: seq<set<Key>>)
    requires FreshBatch(b) && b.tree == Chain(PASSES + 1)
    requires ValidPages(IgnoreStep(b), pages) && Stopped(pages)
    ensures var k, c := Key(1, PASSES + 1), OrphanStep(AfterPages(IgnoreStep(b), pages));
            Reachable(b.tree, k) && k in c.states && c.states[k] == Orphan
  {
    FreshIsGrown(b);
    IgnoreSifts(b);
    ChainIsPath(PASSES + 1, PASSES + 1);
    TooDeepIsOrphaned(IgnoreStep(b), pages, ChainPath(PASSES + 1));
  }

  // ---------- for each depth, as many rows as the passes can miss ----------

  function Lower(a: int, b: int): int {
    if a < b then a else b
  }

  // Region 1: a chain of depth - 1 objects and under its end one leaf and some more; region 2: single objects, as many as
  // all but depth - 1 of the passes hold.
  ghost function Comb(depth: int, extra: nat): Tree {
    var keys := Span(1, 0, depth + extra) + Span(2, 0, Singles(depth));
    var below := if depth > 1 then Span(1, 1, depth + extra) else {};
    Tree(map k | k in keys :: Object(AddrObj, "a", "", "", None, None),
         map k | k in below :: Some(Lower(k.objectId, depth) - 1))
  }

  function Singles(depth: int): int {
    (PASSES - depth + 1) * PAGE
  }

  // The objects above lo and up to hi.
  ghost function Span(region: int, lo: int, hi: int): (span: set<Key>)
    ensures forall k :: k in span <==> k.region == region && lo < k.objectId <= hi
  {
    set i | lo < i <= hi :: Key(region, i)
  }

  lemma {:induction false} SpanSize(region: int, lo: int, hi: int)
    requires lo <= hi
    ensures |Span(region, lo, hi)| == hi - lo
    decreases hi - lo
  {
    if lo == hi {
      assert Span(region, lo, hi) == {};
    } else {
      SpanSize(region, lo, hi - 1);
      assert Span(region, lo, hi) == Span(region, lo, hi - 1) + {Key(region, hi)};
    }
  }

  lemma CombParents(depth: int, extra: nat, k: Key)
    requires 1 <= depth && k in Comb(depth, extra).objects
    ensures Parent(Comb(depth, extra), k) ==
            if k.region == 1 && Lower(k.objectId, depth) > 1 then Some(Key(1, Lower(k.objectId, depth) - 1)) else None
    ensures Live(Comb(depth, extra), k)
  {
  }

  lemma {:induction false} CombPathLength(depth: int, extra: nat, path: seq<Key>)
    requires 1 <= depth && RootPath(Comb(depth, extra), path)
    ensures var k := path[|path| - 1]; |path| == if k.region == 1 then Lower(k.objectId, depth) else 1
    decreases |path|
  {
    CombParents(depth, extra, path[|path| - 1]);
    if |path| > 1 { CombPathLength(depth, extra, path[..|path| - 1]); }
  }

  lemma {:induction false} CombIsReachable(depth: int, extra: nat, k: Key)
    requires 1 <= depth && k in Comb(depth, extra).objects
    ensures Reachable(Comb(depth, extra), k)
    decreases k.objectId
  {
    var t := Comb(depth, extra);
    CombParents(depth, extra, k);
    if k.region == 1 && Lower(k.objectId, depth) > 1 {
      var p := Key(1, Lower(k.objectId, depth) - 1);
      CombIsReachable(depth, extra, p);
      var above :| Leads(t, above, p);
      ExtendPath(t, above, p, k);
    } else {
      assert Leads(t, [k], k);
    }
  }

  lemma AllReachable(depth: int, extra: nat)
    requires 1 <= depth <= PASSES
    ensures ReachableKeys(Comb(depth, extra)) == Span(1, 0, depth + extra) + Span(2, 0, Singles(depth))
  {
    var t := Comb(depth, extra);
    assert t.objects.Keys == Span(1, 0, depth + extra) + Span(2, 0, Singles(depth));
    forall k | k in t.objects ensures Reachable(t, k) { CombIsReachable(depth, extra, k); }
  }

  lemma TwoSpans(s: set<Key>, n: int, m: int)
    requires 0 <= n && 0 <= m && s == Span(1, 0, n) + Span(2, 0, m)
    ensures |s| == n + m
  {
    SpanSize(1, 0, n);
    SpanSize(2, 0, m);
    Sizes(Span(1, 0, n), Span(2, 0, m));
  }

  lemma CombCounts(depth: int, extra: nat)
    requires 1 <= depth <= PASSES
    ensures |ReachableKeys(Comb(depth, extra))| == Limit(PASSES, depth) + extra
  {
    AllReachable(depth, extra);
    TwoSpans(ReachableKeys(Comb(depth, extra)), depth + extra, Singles(depth));
  }

  lemma CombDepth(depth: int, extra: nat)
    requires 1 <= depth <= PASSES
    ensures AtMostDeep(Comb(depth, extra), depth)
  {
    forall path | RootPath(Comb(depth, extra), path) ensures |path| <= depth { CombPathLength(depth, extra, path); }
  }

  // The pages: first the single objects, then the chain, one object a pass.
  ghost function CombPage(depth: int, i: nat): set<Key> {
    if i <= PASSES - depth + 1 then Span(2, (i - 1) * PAGE, i * PAGE) else {Key(1, i - (PASSES - depth + 1))}
  }

  // What the first i passes have applied.
  ghost function CombDone(depth: int, i: nat): set<Key> {
    Span(2, 0, Lower(i, PASSES - depth + 1) * PAGE) + Span(1, 0, i - (PASSES - depth + 1))
  }

  ghost predicate CombState(b: Batch, depth: int, extra: nat, i: nat) {
    Sifted(b) && Unmarked(b) && b.tree == Comb(depth, extra) && b.addresses.Keys == CombDone(depth, i)
  }

  lemma CombCandidates(b: Batch, depth: int, extra: nat, i: nat, k: Key)
    requires 1 <= depth <= PASSES && i < PASSES && CombState(b, depth, extra, i)
    ensures k in Candidates(b) <==>
            k in b.tree.objects && k !in CombDone(depth, i)
            && (k.region == 1 && Lower(k.objectId, depth) > 1 ==> Key(1, Lower(k.objectId, depth) - 1) in CombDone(depth, i))
  {
    if k in b.tree.objects { CombParents(depth, extra, k); }
    assert k in Candidates(b) <==> IsCandidate(b, k);
  }

  lemma SinglesPage(b: Batch, depth: int, extra: nat, i: nat)
    requires 1 <= depth <= PASSES && i < PASSES - depth + 1 && CombState(b, depth, extra, i)
    ensures IsPage(b, CombPage(depth, i + 1)) && CombPage(depth, i + 1) != {}
  {
    var page := CombPage(depth, i + 1);
    forall k | k in page ensures k in Candidates(b) { CombCandidates(b, depth, extra, i, k); }
    SpanSize(2, i * PAGE, (i + 1) * PAGE);
    SubsetSize(page, Candidates(b));
  }

  lemma DoneInChain(depth: int, i: nat)
    requires 1 <= depth <= PASSES && PASSES - depth + 1 <= i
    ensures CombDone(depth, i) == Span(2, 0, Singles(depth)) + Span(1, 0, i - (PASSES - depth + 1))
  {
    assert Lower(i, PASSES - depth + 1) == PASSES - depth + 1;
  }

  // The next object of the chain is the only candidate.
  lemma ChainCandidate(b: Batch, depth: int, extra: nat, i: nat, k: Key)
    requires 1 <= depth <= PASSES && PASSES - depth + 1 <= i < PASSES && CombState(b, depth, extra, i)
    ensures k in Candidates(b) <==> k == Key(1, i + 1 - (PASSES - depth + 1))
  {
    var c := i - (PASSES - depth + 1);
    CombCandidates(b, depth, extra, i, k);
    DoneInChain(depth, i);
    var keys := Span(1, 0, depth + extra) + Span(2, 0, Singles(depth));
    assert k in b.tree.objects <==> k in keys;
    if k.region == 1 && 0 < k.objectId {
      assert Lower(k.objectId, depth) > 1 ==>
        (Key(1, Lower(k.objectId, depth) - 1) in CombDone(depth, i) <==> Lower(k.objectId, depth) - 1 <= c);
    }
  }

  lemma ChainPage(b: Batch, depth: int, extra: nat, i: nat)
    requires 1 <= depth <= PASSES && PASSES - depth + 1 <= i < PASSES && CombState(b, depth, extra, i)
    ensures IsPage(b, CombPage(depth, i + 1)) && CombPage(depth, i + 1) != {}
  {
    var k := Key(1, i + 1 - (PASSES - depth + 1));
    assert CombPage(depth, i + 1) == {k};
    forall other ensures other in Candidates(b) <==> other == k { ChainCandidate(b, depth, extra, i, other); }
    assert Candidates(b) == {k};
  }

  lemma CombAdvances(depth: int, i: nat)
    requires 1 <= depth <= PASSES && i < PASSES
    ensures CombDone(depth, i + 1) == CombDone(depth, i) + CombPage(depth, i + 1)
  {
  }

  lemma PassAdds(b: Batch, page: set<Key>)
    requires Unmarked(b) && page <= Candidates(b)
    ensures var c := ApplyPage(b, page); c.addresses.Keys == b.addresses.Keys + page && Unmarked(c) && c.tree == b.tree
  {
  }

  lemma CombIsPage(b: Batch, depth: int, extra: nat, i: nat)
    requires 1 <= depth <= PASSES && i < PASSES && CombState(b, depth, extra, i)
    ensures IsPage(b, CombPage(depth, i + 1)) && CombPage(depth, i + 1) != {}
  {
    if i < PASSES - depth + 1 { SinglesPage(b, depth, extra, i); } else { ChainPage(b, depth, extra, i); }
  }

  lemma CombStep(b: Batch, depth: int, extra: nat, i: nat, page: set<Key>)
    requires 1 <= depth <= PASSES && i < PASSES && CombState(b, depth, extra, i)
    requires page == CombPage(depth, i + 1) && IsPage(b, page)
    ensures CombState(ApplyPage(b, page), depth, extra, i + 1)
  {
    PassKeepsSifted(b, page);
    PassAdds(b, page);
    CombAdvances(depth, i);
  }

  ghost predicate CombRun(b: Batch, depth: int, extra: nat, pages: seq<set<Key>>) {
    ValidPages(b, pages) && CombState(AfterPages(b, pages), depth, extra, |pages|) && NoneEmpty(pages)
  }

  lemma CombRunGrows(b: Batch, depth: int, extra: nat, pages: seq<set<Key>>)
    requires 1 <= depth <= PASSES && |pages| < PASSES && CombRun(b, depth, extra, pages)
    ensures CombRun(b, depth, extra, pages + [CombPage(depth, |pages| + 1)])
  {
    var page := CombPage(depth, |pages| + 1);
    var before := AfterPages(b, pages);
    CombIsPage(before, depth, extra, |pages|);
    OneMorePage(b, pages, page);
    CombStep(before, depth, extra, |pages|, page);
    NoneEmptySnoc(pages, page);
  }

  lemma {:induction false} CombRuns(b: Batch, depth: int, extra: nat, i: nat) returns (pages: seq<set<Key>>)
    requires 1 <= depth <= PASSES && i <= PASSES && CombState(b, depth, extra, 0)
    ensures |pages| == i && CombRun(b, depth, extra, pages)
    decreases i
  {
    if i == 0 {
      pages := [];
    } else {
      pages := CombRuns(b, depth, extra, i - 1);
      CombRunGrows(b, depth, extra, pages);
      pages := pages + [CombPage(depth, i)];
    }
  }

  lemma CombStarts(b: Batch, depth: int, extra: nat)
    requires 1 <= depth <= PASSES && FreshBatch(b) && b.tree == Comb(depth, extra)
    ensures CombState(IgnoreStep(b), depth, extra, 0)
  {
    FreshIsGrown(b);
    IgnoreSifts(b);
    assert CombDone(depth, 0) == {};
  }

  lemma CombLoses(b: Batch, depth: int, extra: nat)
    requires 1 <= depth <= PASSES && CombState(b, depth, extra, PASSES)
    ensures !Exact(OrphanStep(b))
  {
    var k := Key(1, depth);
    CombIsReachable(depth, extra, k);
    assert k in b.tree.objects && k !in CombDone(depth, PASSES);
    assert Reachable(OrphanStep(b).tree, k);
  }

  /** The limit is exact: for each depth up to the number of passes and each number of reachable rows from the limit on
      there is a batch, and pages that the order of the query picks when the single objects were staged first, that lose a
      reachable row. */
  lemma LimitIsTight(depth: int, extra: nat) returns (b: Batch, pages: seq<set<Key>>)
    requires 1 <= depth <= PASSES
    ensures FreshBatch(b) && ValidPages(IgnoreStep(b), pages) && Stopped(pages)
    ensures AtMostDeep(b.tree, depth) && |ReachableKeys(b.tree)| == Limit(PASSES, depth) + extra
    ensures !Exact(OrphanStep(AfterPages(IgnoreStep(b), pages)))
  {
    var t := Comb(depth, extra);
    b := Batch(t, map k | k in t.objects :: Valid, map[], {});
    CombCounts(depth, extra);
    CombDepth(depth, extra);
    CombStarts(b, depth, extra);
    pages := CombRuns(IgnoreStep(b), depth, extra, PASSES);
    NoneEmptyPrefix(pages);
    CombLoses(AfterPages(IgnoreStep(b), pages), depth, extra);
  }
}
