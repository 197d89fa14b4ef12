/** Which objects become addresses: exactly the current ones that hang from a root by current parents. */
module Resolver {
  import opened Wrappers
  import opened AddressModel

  predicate Live(t: Tree, k: Key) {
    k in t.objects && Current(t.objects[k])
  }

  // A chain of current objects from a root (an object without a parent) down to its last element.
  ghost predicate RootPath(t: Tree, path: seq<Key>)
    decreases |path|
  {
    && path != [] && Live(t, path[|path| - 1])
    && if |path| == 1 then Parent(t, path[0]).None?
       else Parent(t, path[|path| - 1]) == Some(path[|path| - 2]) && RootPath(t, path[..|path| - 1])
  }

  ghost predicate Leads(t: Tree, path: seq<Key>, k: Key) {
    RootPath(t, path) && path[|path| - 1] == k
  }

  ghost predicate Reachable(t: Tree, k: Key) {
    exists path :: Leads(t, path, k)
  }

  lemma {:induction false} PathIsUnique(t: Tree, p: seq<Key>, q: seq<Key>, k: Key)
    requires Leads(t, p, k) && Leads(t, q, k)
    ensures p == q
    decreases |p|
  {
    assert p == p[..|p| - 1] + [k] && q == q[..|q| - 1] + [k];
    if |p| > 1 {
      PathIsUnique(t, p[..|p| - 1], q[..|q| - 1], p[|p| - 2]);
    }
  }

  // The names down the path, folded as the passes fold them.
  ghost function FullAlong(t: Tree, path: seq<Key>): string
    requires RootPath(t, path)
    decreases |path|
  {
    FullAddress(if |path| == 1 then "" else FullAlong(t, path[..|path| - 1]), t.objects[path[|path| - 1]])
  }

  // ---------- the invariant ----------

  ghost predicate Grounded(b: Batch, k: Key) {
    && k in b.addresses && Live(b.tree, k)
    && b.addresses[k].parent == Parent(b.tree, k)
    && b.addresses[k].display == Display(b.tree.objects[k])
    && b.addresses[k].version == 1
    && Upsert(k, 1) in b.outbox
    && (Parent(b.tree, k).Some? ==> Parent(b.tree, k).value in b.addresses)
    && exists path :: Leads(b.tree, path, k) && b.addresses[k].full == FullAlong(b.tree, path)
  }

  ghost predicate Grown(b: Batch) {
    && b.states.Keys == b.tree.objects.Keys
    && (forall k :: k in b.addresses <==> k in b.states && b.states[k] == Applied)
    && (forall k {:trigger Grounded(b, k)} :: k in b.addresses ==> Grounded(b, k))
    && (forall k :: k in b.states && b.states[k] == Ignored ==> !Current(b.tree.objects[k]))
    && (forall k :: k in b.states && b.states[k] == Orphan ==> Current(b.tree.objects[k]))
  }

  // No row was marked ORPHAN by an earlier call.
  predicate Unmarked(b: Batch) {
    forall k :: k in b.states ==> b.states[k] != Orphan
  }

  // Every object that is not current has been set aside.
  ghost predicate Sifted(b: Batch) {
    Grown(b) && forall k :: k in b.states && !Current(b.tree.objects[k]) ==> b.states[k] == Ignored
  }

  // A batch straight from staging into an empty address table.
  ghost predicate FreshBatch(b: Batch) {
    b.states.Keys == b.tree.objects.Keys && b.addresses == map[] && forall k :: k in b.states ==> b.states[k] == Valid
  }

  lemma FreshIsGrown(b: Batch)
    requires FreshBatch(b)
    ensures Grown(b) && Unmarked(b)
  {
  }

  lemma IgnoreSifts(b: Batch)
    requires Grown(b)
    ensures Sifted(IgnoreStep(b)) && (Unmarked(b) <==> Unmarked(IgnoreStep(b)))
  {
    var c := IgnoreStep(b);
    forall k | k in c.addresses ensures Grounded(c, k) && k in c.states && c.states[k] == Applied {
      assert Grounded(b, k);
    }
    forall k | k in b.states && b.states[k] == Orphan ensures c.states[k] == Orphan {}
  }

  lemma OrphanKeepsSifted(b: Batch)
    requires Sifted(b)
    ensures Sifted(OrphanStep(b))
  {
    var c := OrphanStep(b);
    forall k | k in c.addresses ensures Grounded(c, k) && k in c.states && c.states[k] == Applied {
      assert Grounded(b, k);
    }
  }

  lemma ExtendPath(t: Tree, above: seq<Key>, p: Key, k: Key)
    requires Leads(t, above, p) && Live(t, k) && Parent(t, k) == Some(p)
    ensures Leads(t, above + [k], k)
    ensures FullAlong(t, above + [k]) == FullAddress(FullAlong(t, above), t.objects[k])
  {
    var path := above + [k];
    assert path[..|path| - 1] == above && path[|path| - 2] == p;
  }

  lemma CandidateIsReachable(b: Batch, k: Key)
    requires Sifted(b) && IsCandidate(b, k)
    ensures exists path :: Leads(b.tree, path, k)
                           && NewAddress(b, k).full == FullAlong(b.tree, path)
  {
    var parent := Parent(b.tree, k);
    assert Live(b.tree, k);
    if parent.None? {
      assert Leads(b.tree, [k], k);
      assert NewAddress(b, k).full == FullAlong(b.tree, [k]);
    } else {
      var p := parent.value;
      assert Grounded(b, p);
      var above :| Leads(b.tree, above, p) && b.addresses[p].full == FullAlong(b.tree, above);
      ExtendPath(b.tree, above, p, k);
    }
  }

  lemma NewIsGrounded(b: Batch, page: set<Key>, k: Key)
    requires Sifted(b) && page <= Candidates(b) && k in page
    ensures Grounded(ApplyPage(b, page), k)
  {
    var c := ApplyPage(b, page);
    CandidateIsReachable(b, k);
    assert c.addresses[k] == NewAddress(b, k);
    assert k !in b.addresses;
    assert Upsert(k, 1) in c.outbox;
  }

  lemma PassKeepsSifted(b: Batch, page: set<Key>)
    requires Sifted(b) && page <= Candidates(b)
    ensures Sifted(ApplyPage(b, page))
  {
    var c := ApplyPage(b, page);
    forall k | k in c.addresses ensures Grounded(c, k) {
      if k in page {
        NewIsGrounded(b, page, k);
      } else {
        assert Grounded(b, k);
      }
    }
  }

  lemma {:induction false} PassesKeepSifted(b: Batch, pages: seq<set<Key>>)
    requires Sifted(b) && ValidPages(b, pages)
    ensures Sifted(AfterPages(b, pages)) && AfterPages(b, pages).tree == b.tree
    ensures WithState(AfterPages(b, pages), Orphan) == WithState(b, Orphan)
    decreases |pages|
  {
    if pages != [] {
      PassesKeepSifted(b, pages[..|pages| - 1]);
      PassKeepsSifted(AfterPages(b, pages[..|pages| - 1]), pages[|pages| - 1]);
    }
  }

  // ---------- exactness ----------

  // With no candidate left, addresses are closed under parent links, unless an earlier call gave up on one.
  lemma {:induction false} PathIsApplied(b: Batch, path: seq<Key>)
    requires Sifted(b) && Candidates(b) == {} && RootPath(b.tree, path)
    requires forall k :: k in b.states && b.states[k] == Orphan ==> !Reachable(b.tree, k)
    ensures path[|path| - 1] in b.addresses
    decreases |path|
  {
    var k := path[|path| - 1];
    if |path| > 1 { PathIsApplied(b, path[..|path| - 1]); }
    assert Leads(b.tree, path, k);
    assert !IsCandidate(b, k) by { assert k !in Candidates(b); }
  }

  // The states ResolveBatch must end in.
  ghost predicate Exact(b: Batch) {
    && b.states.Keys == b.tree.objects.Keys
    && forall k {:trigger Reachable(b.tree, k)} :: k in b.states ==>
         b.states[k] == if !Current(b.tree.objects[k]) then Ignored
                        else if Reachable(b.tree, k) then Applied
                        else Orphan
  }

  /** Closing the batch is exact if and only if no candidate is left and no earlier call gave up on a reachable row. */
  lemma ExactAtFixpoint(b: Batch)
    requires Sifted(b)
    ensures Exact(OrphanStep(b)) <==>
            Candidates(b) == {} && forall k :: k in b.states && b.states[k] == Orphan ==> !Reachable(b.tree, k)
  {
    var c := OrphanStep(b);
    forall k | k in b.addresses ensures Reachable(b.tree, k) { assert Grounded(b, k); }
    if Candidates(b) == {} && forall k :: k in b.states && b.states[k] == Orphan ==> !Reachable(b.tree, k) {
      forall k | k in b.states && Reachable(b.tree, k) ensures b.states[k] == Applied {
        var path :| Leads(b.tree, path, k);
        PathIsApplied(b, path);
      }
      forall k | k in c.states
        ensures c.states[k] == if !Current(b.tree.objects[k]) then Ignored
                               else if Reachable(b.tree, k) then Applied else Orphan {}
    } else if Exact(c) {
      ExactLeavesNothing(b);
    }
  }

  lemma ExactLeavesNothing(b: Batch)
    requires Sifted(b) && Exact(OrphanStep(b))
    ensures Candidates(b) == {} && forall k :: k in b.states && b.states[k] == Orphan ==> !Reachable(b.tree, k)
  {
    var c := OrphanStep(b);
    forall k ensures k !in Candidates(b) {
      if k in Candidates(b) {
        CandidateIsReachable(b, k);
        assert Reachable(c.tree, k);
        assert false;
      }
    }
    forall k | k in b.states && b.states[k] == Orphan ensures !Reachable(b.tree, k) {
      assert c.states[k] == Orphan;
    }
  }

  // ---------- progress and the bound on passes ----------

  lemma PassMoves(b: Batch, page: set<Key>)
    requires page <= Candidates(b)
    ensures var c := ApplyPage(b, page);
            && WithState(c, Valid) == WithState(b, Valid) - page && page <= WithState(b, Valid)
            && WithState(c, Applied) == WithState(b, Applied) + page && page !! WithState(b, Applied)
  {
    var c := ApplyPage(b, page);
    forall k | k in page ensures k in b.states && b.states[k] == Valid { assert IsCandidate(b, k); }
    forall k ensures k in WithState(c, Valid) <==> k in WithState(b, Valid) && k !in page {}
    forall k ensures k in WithState(c, Applied) <==> k in WithState(b, Applied) || k in page {}
  }

  lemma Sizes(a: set<Key>, b: set<Key>)
    ensures b <= a ==> |a - b| == |a| - |b|
    ensures a !! b ==> |a + b| == |a| + |b|
  {
    if b <= a { assert a == a - b + b; }
  }

  /** A pass that applies anything shrinks what is left to resolve by as much. */
  lemma PassShrinksValid(b: Batch, page: set<Key>)
    requires page <= Candidates(b)
    ensures |WithState(ApplyPage(b, page), Valid)| == |WithState(b, Valid)| - |page|
    ensures |WithState(ApplyPage(b, page), Applied)| == |WithState(b, Applied)| + |page|
  {
    PassMoves(b, page);
    Sizes(WithState(b, Valid), page);
    Sizes(WithState(b, Applied), page);
  }

  // No pass reaches more than one level below what is already applied.
  ghost predicate Shallow(b: Batch, n: nat) {
    forall path {:trigger RootPath(b.tree, path)} ::
      RootPath(b.tree, path) && path[|path| - 1] in b.addresses ==> |path| <= n
  }

  lemma PassDeepensByOne(b: Batch, page: set<Key>, n: nat)
    requires Sifted(b) && page <= Candidates(b) && Shallow(b, n)
    ensures Shallow(ApplyPage(b, page), n + 1)
  {
    var c := ApplyPage(b, page);
    forall path | RootPath(c.tree, path) && path[|path| - 1] in c.addresses ensures |path| <= n + 1 {
      assert RootPath(b.tree, path);
      if path[|path| - 1] in page && |path| > 1 {
        assert RootPath(b.tree, path[..|path| - 1]);
      }
    }
  }

  lemma {:induction false} PassesReachTheirNumber(b: Batch, pages: seq<set<Key>>)
    requires Sifted(b) && b.addresses == map[] && ValidPages(b, pages)
    ensures Shallow(AfterPages(b, pages), |pages|)
    decreases |pages|
  {
    if pages != [] {
      PassesReachTheirNumber(b, pages[..|pages| - 1]);
      PassesKeepSifted(b, pages[..|pages| - 1]);
      PassDeepensByOne(AfterPages(b, pages[..|pages| - 1]), pages[|pages| - 1], |pages| - 1);
    }
  }

  // Everything within n levels of a root is applied.
  ghost predicate Filled(b: Batch, n: nat) {
    forall path {:trigger RootPath(b.tree, path)} ::
      RootPath(b.tree, path) && |path| <= n ==> path[|path| - 1] in b.addresses
  }

  // A pass that takes every candidate completes one more level.
  lemma WholePassFillsALevel(b: Batch, page: set<Key>, n: nat)
    requires Sifted(b) && Unmarked(b) && page == Candidates(b) && Filled(b, n)
    ensures Filled(ApplyPage(b, page), n + 1)
  {
    var c := ApplyPage(b, page);
    forall path | RootPath(c.tree, path) && |path| <= n + 1 ensures path[|path| - 1] in c.addresses {
      assert RootPath(b.tree, path);
      var k := path[|path| - 1];
      if |path| > 1 { assert RootPath(b.tree, path[..|path| - 1]); }
      if b.states[k] == Valid { assert k in Candidates(b); }
    }
  }

  lemma SubsetSize(a: set<Key>, b: set<Key>)
    requires a <= b
    ensures |a| <= |b| && (|a| == |b| ==> a == b)
  {
    assert b == a + (b - a);
  }

  lemma FilledStays(b: Batch, page: set<Key>, n: nat)
    requires page <= Candidates(b) && Filled(b, n)
    ensures Filled(ApplyPage(b, page), n)
  {
    var c := ApplyPage(b, page);
    forall path | RootPath(c.tree, path) && |path| <= n ensures path[|path| - 1] in c.addresses {
      assert RootPath(b.tree, path);
    }
  }

  lemma EmptyPassChangesNothing(b: Batch)
    ensures Candidates(b) == {} ==> ApplyPage(b, {}) == b
  {
    var c := ApplyPage(b, {});
    assert c.states == b.states && c.addresses == b.addresses && c.outbox == b.outbox;
  }

  // While a candidate is left, each pass either moves a full page or completes a level with at least one row.
  lemma {:induction false} PassesFill(b: Batch, pages: seq<set<Key>>) returns (full: nat)
    requires Sifted(b) && Unmarked(b) && ValidPages(b, pages) && Candidates(AfterPages(b, pages)) != {}
    ensures full <= |pages| && Filled(AfterPages(b, pages), |pages| - full)
    ensures |WithState(AfterPages(b, pages), Applied)| >= full * PAGE + (|pages| - full)
    decreases |pages|
  {
    if pages == [] {
      full := 0;
    } else {
      var rest, page := pages[..|pages| - 1], pages[|pages| - 1];
      var before := AfterPages(b, rest);
      EmptyPassChangesNothing(before);
      assert page != {};
      full := PassesFill(b, rest);
      PassesKeepSifted(b, rest);
      StaysUnmarked(b, rest);
      PassShrinksValid(before, page);
      if |page| == PAGE {
        FilledStays(before, page, |rest| - full);
        full := full + 1;
      } else {
        SubsetSize(page, Candidates(before));
        WholePassFillsALevel(before, page, |rest| - full);
      }
    }
  }

  lemma StaysUnmarked(b: Batch, pages: seq<set<Key>>)
    requires Sifted(b) && Unmarked(b) && ValidPages(b, pages)
    ensures Unmarked(AfterPages(b, pages))
  {
    PassesKeepSifted(b, pages);
    var c := AfterPages(b, pages);
    forall k | k in c.states ensures c.states[k] != Orphan { assert k !in WithState(c, Orphan); }
  }

  ghost predicate AtMostDeep(t: Tree, n: int) {
    forall path {:trigger RootPath(t, path)} :: RootPath(t, path) ==> |path| <= n
  }

  ghost function ReachableKeys(t: Tree): set<Key> {
    set k | k in t.objects && Reachable(t, k)
  }

  lemma CandidateBreaksFill(b: Batch, k: Key, n: nat)
    requires Sifted(b) && IsCandidate(b, k) && AtMostDeep(b.tree, n)
    ensures !Filled(b, n)
  {
    CandidateIsReachable(b, k);
    var path :| Leads(b.tree, path, k);
    assert RootPath(b.tree, path) && path[|path| - 1] !in b.addresses;
  }

  lemma AppliedAndOneMore(b: Batch, k: Key)
    requires Sifted(b) && IsCandidate(b, k)
    ensures |WithState(b, Applied)| + 1 <= |ReachableKeys(b.tree)|
  {
    CandidateIsReachable(b, k);
    var applied := WithState(b, Applied);
    forall a | a in applied ensures a in ReachableKeys(b.tree) { assert Grounded(b, a); }
    assert k !in applied && |applied + {k}| == |applied| + 1;
    SubsetSize(applied + {k}, ReachableKeys(b.tree));
  }

  // The number of reachable rows from which on a tree of that depth can be too much for that number of passes.
  function Limit(passes: int, depth: int): int {
    (passes - depth + 1) * PAGE + depth
  }

  lemma LimitIsReached(passes: nat, depth: nat, full: nat)
    requires full <= passes && passes - full < depth
    ensures full * PAGE + (passes - full) >= Limit(passes, depth) - 1
  {
    var more := full - (passes - depth + 1);
    assert full * PAGE + (passes - full) == (passes - depth + 1) * PAGE + (depth - 1) + more * (PAGE - 1);
  }

  /** The passes suffice for a tree of that depth with fewer reachable rows than the limit, whichever pages are picked. */
  lemma EnoughPasses(b: Batch, pages: seq<set<Key>>, depth: nat)
    requires Sifted(b) && Unmarked(b) && ValidPages(b, pages)
    requires AtMostDeep(b.tree, depth) && |ReachableKeys(b.tree)| < Limit(|pages|, depth)
    ensures Candidates(AfterPages(b, pages)) == {}
  {
    var c := AfterPages(b, pages);
    if Candidates(c) != {} {
      var k :| k in Candidates(c);
      PassesKeepSifted(b, pages);
      var full := PassesFill(b, pages);
      CandidateBreaksFill(c, k, if depth < |pages| - full then |pages| - full else depth);
      if |pages| - full >= depth {
        assert false;
      } else {
        LimitIsReached(|pages|, depth, full);
        AppliedAndOneMore(c, k);
        assert false;
      }
    }
  }

  /** From an empty table an object deeper than the number of passes is lost, reachable or not. */
  lemma TooDeepIsOrphaned(b: Batch, pages: seq<set<Key>>, path: seq<Key>)
    requires Sifted(b) && b.addresses == map[] && ValidPages(b, pages)
    requires RootPath(b.tree, path) && |path| > |pages|
    ensures var k, c := path[|path| - 1], OrphanStep(AfterPages(b, pages));
            k in c.states && c.states[k] == Orphan && Reachable(b.tree, k)
  {
    PassesKeepSifted(b, pages);
    PassesReachTheirNumber(b, pages);
    assert Leads(b.tree, path, path[|path| - 1]);
  }

  lemma {:induction false} PassesMoveAtMost(b: Batch, pages: seq<set<Key>>)
    requires Sifted(b) && b.addresses == map[] && ValidPages(b, pages)
    ensures |WithState(AfterPages(b, pages), Applied)| <= |pages| * PAGE
    decreases |pages|
  {
    if pages == [] {
      assert WithState(b, Applied) == {};
    } else {
      PassesMoveAtMost(b, pages[..|pages| - 1]);
      PassShrinksValid(AfterPages(b, pages[..|pages| - 1]), pages[|pages| - 1]);
    }
  }

  lemma NotAppliedIsOrphaned(b: Batch, k: Key)
    requires Sifted(b) && Reachable(b.tree, k) && k !in WithState(b, Applied)
    ensures k in OrphanStep(b).states && OrphanStep(b).states[k] == Orphan
  {
    var path :| Leads(b.tree, path, k);
    assert Live(b.tree, k);
  }

  /** From an empty table more reachable rows than the passes have room for cannot all be applied: one ends ORPHAN. */
  lemma TooManyAreOrphaned(b: Batch, pages: seq<set<Key>>)
    requires Sifted(b) && b.addresses == map[] && ValidPages(b, pages)
    requires |ReachableKeys(b.tree)| > |pages| * PAGE
    ensures var c := OrphanStep(AfterPages(b, pages));
            exists k :: k in c.states && c.states[k] == Orphan && Reachable(b.tree, k)
  {
    var c := AfterPages(b, pages);
    PassesKeepSifted(b, pages);
    PassesMoveAtMost(b, pages);
    var applied := WithState(c, Applied);
    if ReachableKeys(b.tree) <= applied {
      SubsetSize(ReachableKeys(b.tree), applied);
      assert false;
    } else {
      var k :| k in ReachableKeys(b.tree) && k !in applied;
      NotAppliedIsOrphaned(c, k);
    }
  }

  lemma OneMorePage(b: Batch, pages: seq<set<Key>>, page: set<Key>)
    requires ValidPages(b, pages) && IsPage(AfterPages(b, pages), page)
    ensures ValidPages(b, pages + [page])
    ensures AfterPages(b, pages + [page]) == ApplyPage(AfterPages(b, pages), page)
  {
    assert (pages + [page])[..|pages|] == pages;
  }

  predicate HasRows(pages: seq<set<Key>>, j: int) {
    0 <= j < |pages| ==> pages[j] != {}
  }

  ghost predicate NoneEmpty(pages: seq<set<Key>>) {
    forall j {:trigger HasRows(pages, j)} :: HasRows(pages, j)
  }

  lemma NoneEmptySnoc(pages: seq<set<Key>>, page: set<Key>)
    requires NoneEmpty(pages) && page != {}
    ensures NoneEmpty(pages + [page])
  {
    forall j ensures HasRows(pages + [page], j) { assert HasRows(pages, j); }
  }

  lemma NoneEmptyPrefix(pages: seq<set<Key>>)
    requires NoneEmpty(pages) && pages != []
    ensures NoneEmpty(pages[..|pages| - 1])
  {
    var rest := pages[..|pages| - 1];
    forall j ensures HasRows(rest, j) { assert HasRows(pages, j); }
  }

  // How ResolveBatch stops: out of passes, or on the first pass that applied nothing.
  ghost predicate Stopped(pages: seq<set<Key>>) {
    && 0 < |pages| <= PASSES && NoneEmpty(pages[..|pages| - 1])
    && (|pages| == PASSES || pages[|pages| - 1] == {})
  }

  lemma EmptyPassIsFixpoint(b: Batch, pages: seq<set<Key>>)
    requires ValidPages(b, pages) && pages != [] && pages[|pages| - 1] == {}
    ensures Candidates(AfterPages(b, pages)) == {}
  {
    EmptyPassChangesNothing(AfterPages(b, pages[..|pages| - 1]));
  }

  /** Below the limit of its depth a fresh batch ends exact, whichever pages are picked. */
  lemma ExactBelowLimit(b: Batch, pages: seq<set<Key>>, depth: nat)
    requires FreshBatch(b) && ValidPages(IgnoreStep(b), pages) && Stopped(pages)
    requires AtMostDeep(b.tree, depth) && |ReachableKeys(b.tree)| < Limit(PASSES, depth)
    ensures Exact(OrphanStep(AfterPages(IgnoreStep(b), pages)))
  {
    var start := IgnoreStep(b);
    FreshIsGrown(b);
    IgnoreSifts(b);
    PassesKeepSifted(start, pages);
    StaysUnmarked(start, pages);
    if |pages| < PASSES { EmptyPassIsFixpoint(start, pages); } else { EnoughPasses(start, pages, depth); }
    ExactAtFixpoint(AfterPages(start, pages));
  }

  /** Up to a page and as many more rows as there are passes, only depth matters: the run is exact if and only if the tree
      is no deeper than the passes. */
  lemma ExactWhenShallow(b: Batch, pages: seq<set<Key>>)
    requires FreshBatch(b) && ValidPages(IgnoreStep(b), pages) && Stopped(pages)
    requires |ReachableKeys(b.tree)| < PAGE + PASSES
    ensures Exact(OrphanStep(AfterPages(IgnoreStep(b), pages))) <==> AtMostDeep(b.tree, PASSES)
  {
    var start := IgnoreStep(b);
    var c := AfterPages(start, pages);
    FreshIsGrown(b);
    IgnoreSifts(b);
    PassesKeepSifted(start, pages);
    if AtMostDeep(b.tree, PASSES) { ExactBelowLimit(b, pages, PASSES); }
    if Exact(OrphanStep(c)) {
      forall path | RootPath(b.tree, path) ensures |path| <= PASSES {
        if |path| > PASSES {
          TooDeepIsOrphaned(start, pages, path);
          assert false;
        }
      }
    }
  }
}
