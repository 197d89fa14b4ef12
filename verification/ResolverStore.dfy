/** The resolver as it runs: passes over the staging and address tables until one applies nothing. */
module ResolverStore {
  import opened Wrappers
  import opened AddressModel
  import opened Resolver

  datatype Status = Staging | Resolving | Applying | Done | Failed

  datatype ResolveResult = ResolveResult(applied: nat, ignored: nat, orphans: nat, passes: nat)

  lemma SubsetOfSize(s: set<Key>, n: nat)
    requires n <= |s|
    ensures exists part :: part <= s && |part| == n
    decreases s
  {
    if n == |s| {
      assert s <= s;
    } else {
      var k :| k in s;
      SubsetOfSize(s - {k}, n);
      var part :| part <= s - {k} && |part| == n;
      assert part <= s;
    }
  }

  // The passes made so far.
  ghost predicate Passing(start: Batch, now: Batch, pages: seq<set<Key>>, applied: nat) {
    && Sifted(start) && ValidPages(start, pages) && now == AfterPages(start, pages) && Sifted(now)
    && applied == Count(now, Applied) - Count(start, Applied)
  }

  // The last pass, and no other, applied nothing.
  ghost predicate Ended(pages: seq<set<Key>>) {
    pages != [] && NoneEmpty(pages[..|pages| - 1]) && pages[|pages| - 1] == {}
  }

  lemma OnePass(start: Batch, here: Batch, pages: seq<set<Key>>, page: set<Key>, applied: nat)
    requires Passing(start, here, pages, applied) && IsPage(here, page) && NoneEmpty(pages)
    ensures Passing(start, ApplyPage(here, page), pages + [page], applied + |page|)
    ensures if |page| == 0 then Ended(pages + [page]) else NoneEmpty(pages + [page])
  {
    PassKeepsSifted(here, page);
    PassShrinksValid(here, page);
    OneMorePage(start, pages, page);
    if |page| == 0 {
      assert (pages + [page])[..|pages|] == pages && page == {};
    } else {
      NoneEmptySnoc(pages, page);
    }
  }

  lemma Stops(pages: seq<set<Key>>, ended: bool)
    requires |pages| <= PASSES && (if ended then Ended(pages) else NoneEmpty(pages) && |pages| == PASSES)
    ensures Stopped(pages)
  {
    if !ended { NoneEmptyPrefix(pages); }
  }

  class Repository {
    var status: Status
    var lastError: bool
    var appliedCount: nat
    const tree: Tree
    var states: map<Key, State>
    var addresses: map<Key, Address>
    var outbox: set<Upsert>

    ghost function View(): Batch
      reads this
    {
      Batch(tree, states, addresses, outbox)
    }

    constructor (tree: Tree)
      ensures this.tree == tree && status == Resolving && FreshBatch(View())
    {
      this.tree := tree;
      status := Resolving;
      lastError := false;
      appliedCount := 0;
      states := map k | k in tree.objects :: Valid;
      addresses := map[];
      outbox := {};
    }

    /** resolvePass: one transaction. Which candidates make up the page is left open. */
    method ResolvePass() returns (count: nat, ghost page: set<Key>)
      requires Sifted(View())
      modifies this`states, this`addresses, this`outbox
      ensures IsPage(old(View()), page) && count == |page|
      ensures View() == ApplyPage(old(View()), page)
    {
      var b := Batch(tree, states, addresses, outbox);
      var candidates := Candidates(b);
      var limit := if |candidates| < PAGE then |candidates| else PAGE;
      SubsetOfSize(candidates, limit);
      var chosen :| chosen <= candidates && |chosen| == limit;
      var c := ApplyPage(b, chosen);
      states, addresses, outbox := c.states, c.addresses, c.outbox;
      count, page := |chosen|, chosen;
    }

    method IgnoreHistory() returns (ignored: nat)
      requires Grown(View())
      modifies this`states
      ensures View() == IgnoreStep(old(View())) && Sifted(View())
      ensures ignored == Count(View(), Ignored) - Count(old(View()), Ignored)
      ensures Count(View(), Orphan) == Count(old(View()), Orphan)
    {
      ghost var before := View();
      var matched := set k | k in states && states[k] == Valid && k in tree.objects && !Current(tree.objects[k]);
      states := IgnoreStep(Batch(tree, states, addresses, outbox)).states;
      IgnoreSifts(before);
      IgnoreCounts(before, matched);
      ignored := |matched|;
    }

    method RunPasses() returns (applied: nat, passes: nat, ghost pages: seq<set<Key>>)
      requires Sifted(View())
      modifies this`states, this`addresses, this`outbox
      ensures ValidPages(old(View()), pages) && Stopped(pages) && passes == |pages|
      ensures View() == AfterPages(old(View()), pages) && Sifted(View())
      ensures applied == Count(View(), Applied) - Count(old(View()), Applied)
      ensures Count(View(), Orphan) == Count(old(View()), Orphan)
    {
      ghost var start := View();
      pages, applied, passes := [], 0, 0;
      var count := 1;
      while passes < PASSES && count != 0
        invariant |pages| == passes <= PASSES && Passing(start, View(), pages, applied)
        invariant if count == 0 then Ended(pages) else NoneEmpty(pages)
        decreases PASSES - passes
      {
        ghost var here := View();
        ghost var page;
        count, page := ResolvePass();
        OnePass(start, here, pages, page, applied);
        pages, passes, applied := pages + [page], passes + 1, applied + count;
      }
      PassesKeepSifted(start, pages);
      Stops(pages, count == 0);
    }

    method MarkOrphans() returns (orphans: nat)
      requires Sifted(View())
      modifies this`states
      ensures View() == OrphanStep(old(View()))
      ensures orphans == Count(View(), Orphan) - Count(old(View()), Orphan)
      ensures Count(View(), Applied) == Count(old(View()), Applied)
    {
      ghost var before := View();
      var matched := set k | k in states && states[k] == Valid;
      states := OrphanStep(Batch(tree, states, addresses, outbox)).states;
      OrphanCounts(before, matched);
      orphans := |matched|;
    }

    method Finish(orphans: nat)
      modifies this`status, this`lastError, this`appliedCount
      ensures status == Done && lastError == (orphans > 0) && appliedCount == Count(View(), Applied)
    {
      var done := set k | k in states && states[k] == Applied;
      assert done == WithState(View(), Applied);
      appliedCount, lastError, status := |done|, orphans > 0, Done;
    }

    /** ResolveBatch, from a batch fresh out of staging or one an earlier call left at any point, even with its orphans
        marked. The orphans it reports, and the error it records, are those it marked itself. */
    method ResolveBatch() returns (result: Option<ResolveResult>, ghost pages: seq<set<Key>>)
      requires Grown(View())
      modifies this
      ensures result.None? <==> old(status) != Resolving && old(status) != Applying
      ensures result.None? ==> View() == old(View()) && status == old(status)
      ensures result.Some? ==>
                var start := IgnoreStep(old(View()));
                && ValidPages(start, pages) && Stopped(pages)
                && View() == OrphanStep(AfterPages(start, pages))
                && Reports(result.value, old(View()), start, pages, View())
                && status == Done && lastError == (result.value.orphans > 0)
                && appliedCount == Count(View(), Applied)
      ensures result.Some? ==> (result.value.orphans == Count(View(), Orphan) <==> Unmarked(old(View())))
    {
      pages := [];
      if status != Resolving && status != Applying { return None, pages; }
      if status == Resolving { status := Applying; }
      ghost var before := View();
      var ignored := IgnoreHistory();
      ghost var start := View();
      var applied, passes;
      applied, passes, pages := RunPasses();
      var orphans := MarkOrphans();
      ghost var end := View();
      Finish(orphans);
      assert View() == end;
      result := Some(ResolveResult(applied, ignored, orphans, passes));
      assert Reports(result.value, before, start, pages, end);
      UnmarkedCounts(before);
    }
  }

  ghost function Count(b: Batch, s: State): nat {
    |WithState(b, s)|
  }

  // What the result says of a run from `before`, sifted into `start`, to `end`.
  ghost predicate Reports(r: ResolveResult, before: Batch, start: Batch, pages: seq<set<Key>>, end: Batch) {
    && r.passes == |pages| && r.orphans == Count(end, Orphan) - Count(before, Orphan)
    && r.ignored == Count(start, Ignored) - Count(before, Ignored)
    && r.applied == Count(end, Applied) - Count(start, Applied)
  }

  lemma IgnoreCounts(b: Batch, ignored: set<Key>)
    requires ignored == set k | k in b.states && b.states[k] == Valid && k in b.tree.objects && !Current(b.tree.objects[k])
    ensures |ignored| == |WithState(IgnoreStep(b), Ignored)| - |WithState(b, Ignored)|
    ensures WithState(IgnoreStep(b), Orphan) == WithState(b, Orphan)
  {
    assert WithState(IgnoreStep(b), Ignored) == WithState(b, Ignored) + ignored;
    Sizes(WithState(b, Ignored), ignored);
  }

  lemma OrphanMoves(b: Batch)
    ensures WithState(OrphanStep(b), Orphan) == WithState(b, Orphan) + WithState(b, Valid)
    ensures WithState(OrphanStep(b), Applied) == WithState(b, Applied)
  {
  }

  lemma OrphanCounts(b: Batch, orphans: set<Key>)
    requires orphans == set k | k in b.states && b.states[k] == Valid
    ensures |WithState(OrphanStep(b), Orphan)| == |WithState(b, Orphan)| + |orphans|
    ensures WithState(OrphanStep(b), Applied) == WithState(b, Applied)
  {
    OrphanMoves(b);
    assert orphans == WithState(b, Valid);
    Sizes(WithState(b, Orphan), orphans);
  }

  lemma UnmarkedCounts(b: Batch)
    ensures Count(b, Orphan) == 0 <==> Unmarked(b)
  {
    forall k ensures k in WithState(b, Orphan) <==> k in b.states && b.states[k] == Orphan {}
    assert |WithState(b, Orphan)| == 0 <==> WithState(b, Orphan) == {};
  }

  // ---------- a call that ends between marking the orphans and DONE ----------

  lemma {:induction false} NothingLeft(b: Batch, pages: seq<set<Key>>)
    requires Candidates(b) == {} && ValidPages(b, pages)
    ensures AfterPages(b, pages) == b && forall i :: 0 <= i < |pages| ==> pages[i] == {}
    decreases |pages|
  {
    if pages != [] {
      NothingLeft(b, pages[..|pages| - 1]);
      EmptyPassChangesNothing(b);
      forall i | 0 <= i < |pages| ensures pages[i] == {} {
        assert i < |pages| - 1 ==> pages[i] == pages[..|pages| - 1][i];
      }
    }
  }

  lemma SettledIsIgnored(b: Batch)
    requires forall k :: k in b.states ==> b.states[k] != Valid
    ensures IgnoreStep(b) == b && OrphanStep(b) == b && Candidates(b) == {}
  {
    assert IgnoreStep(b).states == b.states;
    assert OrphanStep(b).states == b.states;
  }

  // No row is VALID: what a call leaves once it has marked its orphans.
  lemma MarkedIsSettled(b: Batch)
    requires Sifted(b)
    ensures var left := OrphanStep(b);
            Grown(left) && IgnoreStep(left) == left && OrphanStep(left) == left && Candidates(left) == {}
  {
    OrphanKeepsSifted(b);
    SettledIsIgnored(OrphanStep(b));
  }

  // What a call does to a batch without VALID rows.
  lemma SettledStays(left: Batch, pages: seq<set<Key>>, r: ResolveResult)
    requires IgnoreStep(left) == left && OrphanStep(left) == left && Candidates(left) == {}
    requires ValidPages(left, pages) && Stopped(pages) && Reports(r, left, left, pages, OrphanStep(AfterPages(left, pages)))
    ensures pages == [{}] && AfterPages(left, pages) == left && r == ResolveResult(0, 0, 0, 1)
  {
    NothingLeft(left, pages);
    var rest := pages[..|pages| - 1];
    assert HasRows(rest, 0);
    assert rest == [];
  }

  /** A fresh batch whose call stopped after marking its orphans, resolved again: the second call makes one empty pass,
      changes no row and reports no orphan, however many there are. */
  lemma RestartForgetsOrphans(b: Batch, first: seq<set<Key>>, second: seq<set<Key>>, r: ResolveResult)
    requires FreshBatch(b) && ValidPages(IgnoreStep(b), first) && Stopped(first)
    requires var left := OrphanStep(AfterPages(IgnoreStep(b), first));
             ValidPages(IgnoreStep(left), second) && Stopped(second)
             && Reports(r, left, IgnoreStep(left), second, OrphanStep(AfterPages(IgnoreStep(left), second)))
    ensures var left := OrphanStep(AfterPages(IgnoreStep(b), first));
            && Grown(left) && second == [{}] && OrphanStep(AfterPages(IgnoreStep(left), second)) == left
            && r == ResolveResult(0, 0, 0, 1)
  {
    FreshIsGrown(b);
    IgnoreSifts(b);
    PassesKeepSifted(IgnoreStep(b), first);
    MarkedIsSettled(AfterPages(IgnoreStep(b), first));
    SettledStays(OrphanStep(AfterPages(IgnoreStep(b), first)), second, r);
  }

  // One object whose parent was never staged.
  const STRAY: Tree := Tree(map[Key(1, 1) := Object(AddrObj, "a", "", "", None, None)], map[Key(1, 1) := Some(2)])

  lemma StrayHasNoCandidate(b: Batch)
    requires FreshBatch(b) && b.tree == STRAY
    ensures Candidates(IgnoreStep(b)) == {} && WithState(IgnoreStep(b), Valid) == {Key(1, 1)}
    ensures WithState(IgnoreStep(b), Orphan) == {}
  {
    var start := IgnoreStep(b);
    forall k ensures k in b.states <==> k == Key(1, 1) { assert k in b.states <==> k in STRAY.objects; }
    assert Parent(STRAY, Key(1, 1)) == Some(Key(1, 2));
  }

  /** Such a batch has an orphan after its first call, so the call that restarts it reports too few. */
  lemma StrayIsForgotten(b: Batch, first: seq<set<Key>>)
    requires FreshBatch(b) && b.tree == STRAY && ValidPages(IgnoreStep(b), first) && Stopped(first)
    ensures Count(OrphanStep(AfterPages(IgnoreStep(b), first)), Orphan) == 1
  {
    var start := IgnoreStep(b);
    StrayHasNoCandidate(b);
    NothingLeft(start, first);
    OrphanMoves(start);
    assert WithState(OrphanStep(start), Orphan) == {Key(1, 1)};
  }
}
