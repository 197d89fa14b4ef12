/** LeaseApply, the lease that does not look for open reviews: which plans it loses, and exactly when. */
module OrgLeases {
  import opened Sets
  import opened Wrappers
  import opened OrgModel
  import opened OrgImport
  import opened OrgNumbers
  import opened OrgPlanners
  import opened OrgLaws

  ghost predicate OpenReview(s: State, b: int, p: int) {
    p in s.plans && s.plans[p].batch == b && s.plans[p].action == Review
  }

  // A plan that nobody rejected and that no step will apply: the checkpoint has passed it.
  ghost predicate Overtaken(s: State, p: int) {
    && p in s.plans && s.plans[p].batch in s.batches && !s.plans[p].applied && s.plans[p].action != Reject
    && p <= s.batches[s.plans[p].batch].checkpoint
  }

  // The step applies a later plan while this one is under review.
  ghost predicate Overtakes(s: State, op: Op, p: int) {
    && op.ApplyNext? && OpenReview(s, op.batch, p)
    && var outcome := ApplyNextStep(s, op.now, op.batch, op.worker, op.term).1;
    outcome.OneApplied? && p < outcome.plan
  }

  ghost predicate EverOvertaken(s: State, ops: seq<Op>, p: int)
    decreases |ops|
  {
    ops != [] && (EverOvertaken(s, ops[..|ops| - 1], p) || Overtakes(Run(s, ops[..|ops| - 1]), ops[|ops| - 1], p))
  }

  lemma QuietOvertakesNothing(s: State, t: State, p: int)
    requires Numbered(s) && Quiet(s, t)
    ensures p in s.plans ==> p in t.plans
    ensures Overtaken(t, p) <==> p in t.plans && t.plans[p].action != Reject && Overtaken(s, p)
  {
    if p in s.plans {
      assert NumberOk(s, p) && PlanStays(s, t, p);
    } else if p in t.plans {
      assert IsNewPlan(s, t, p);
    }
  }

  lemma CommitOvertakes(s: State, b: int, p: int, q: int, e: Effect, until: int)
    requires Numbered(s) && b in s.batches && IsDue(s, b, q) && e.Effect?
    requires forall other :: other in s.plans && IsDue(s, b, other) ==> q <= other
    ensures var t := Commit(s, b, q, e, until);
            Overtaken(t, p) <==>
            p in t.plans && t.plans[p].action != Reject && (Overtaken(s, p) || (OpenReview(s, b, p) && p < q))
  {
    if p in s.plans {
      assert NumberOk(s, p) && NumberOk(s, q);
      assert IsDue(s, b, p) ==> q <= p;
    }
  }

  lemma ApplyNextOvertakes(s: State, op: Op, p: int)
    requires Numbered(s) && op.ApplyNext?
    ensures p in s.plans ==> p in Step(s, op).plans
    ensures Overtaken(Step(s, op), p) <==> p in Step(s, op).plans && Step(s, op).plans[p].action != Reject
                                           && (Overtaken(s, p) || Overtakes(s, op, p))
  {
    var (t, outcome) := ApplyNextStep(s, op.now, op.batch, op.worker, op.term);
    if outcome.OneApplied? {
      NextIsDue(s, op.batch);
      CommitOvertakes(s, op.batch, p, outcome.plan, EffectOf(s, outcome.plan), op.now + op.term);
    } else {
      IdleApplyIsQuiet(s, op.now, op.batch, op.worker, op.term);
      QuietOvertakesNothing(s, t, p);
    }
  }

  lemma StepOvertakes(s: State, op: Op, p: int)
    requires Numbered(s)
    ensures p in s.plans ==> p in Step(s, op).plans
    ensures Overtaken(Step(s, op), p) <==> p in Step(s, op).plans && Step(s, op).plans[p].action != Reject
                                           && (Overtaken(s, p) || Overtakes(s, op, p))
  {
    if op.ApplyNext? {
      ApplyNextOvertakes(s, op, p);
    } else {
      OtherStepsAreQuiet(s, op);
      QuietOvertakesNothing(s, Step(s, op), p);
    }
  }

  // A rejected plan stays rejected.
  lemma RejectedBefore(s: State, op: Op, p: int)
    requires Numbered(s) && p in s.plans && s.plans[p].action == Reject
    ensures p in Step(s, op).plans && Step(s, op).plans[p].action == Reject
  {
    if op.ApplyNext? {
      AppliedIsCommit(s, op.now, op.batch, op.worker, op.term);
      if !ApplyNextStep(s, op.now, op.batch, op.worker, op.term).1.OneApplied? {
        IdleApplyTouchesBatches(s, op.now, op.batch, op.worker, op.term);
      }
    } else {
      OtherStepsAreQuiet(s, op);
      assert PlanStays(s, Step(s, op), p);
    }
  }

  /** Over any run, with LeaseApply or without, a plan is left behind the checkpoint without being applied or rejected
      if and only if some ApplyNext applied a later plan of the batch while this one was an open review. */
  lemma {:induction false} OvertakenIff(s: State, ops: seq<Op>, p: int)
    requires Initial(s)
    ensures EverOvertaken(s, ops, p) ==> p in Run(s, ops).plans
    ensures Overtaken(Run(s, ops), p) <==>
            p in Run(s, ops).plans && Run(s, ops).plans[p].action != Reject && EverOvertaken(s, ops, p)
    decreases |ops|
  {
    if ops != [] {
      var before := Run(s, ops[..|ops| - 1]);
      var op := ops[|ops| - 1];
      OvertakenIff(s, ops[..|ops| - 1], p);
      RunIsNumbered(s, ops[..|ops| - 1]);
      StepOvertakes(before, op, p);
      if p in before.plans && before.plans[p].action == Reject { RejectedBefore(before, op, p); }
    }
  }

  /** Over any run a planned change at or below the checkpoint was applied exactly once, or never if it was overtaken
      while it was an open review. */
  lemma AppliedUnlessOvertaken(s: State, ops: seq<Op>, p: int)
    requires Initial(s) && p in Run(s, ops).plans && Work(Run(s, ops).plans[p].action)
    ensures var t := Run(s, ops); var b := t.plans[p].batch;
            b in t.batches && (p <= t.batches[b].checkpoint ==> Times(t.log, p) == if EverOvertaken(s, ops, p) then 0 else 1)
  {
    RunIsNumbered(s, ops);
    RunIsLogged(s, ops);
    OvertakenIff(s, ops, p);
    assert NumberOk(Run(s, ops), p) && LoggedOnce(Run(s, ops), p);
  }

  // ---------- what a caller can see before the lease ----------

  // A plan that is due comes after an open review.
  ghost predicate IsExposed(s: State, b: int, p: int, q: int) {
    OpenReview(s, b, p) && p < q && q in Due(s, b)
  }

  ghost predicate Exposed(s: State, b: int) {
    exists p, q :: IsExposed(s, b, p, q)
  }

  ghost predicate IsPassed(s: State, b: int, p: int) {
    b in s.batches && OpenReview(s, b, p) && p <= s.batches[b].checkpoint
  }

  ghost predicate Passed(s: State, b: int) {
    exists p :: IsPassed(s, b, p)
  }

  predicate OnlyApplies(ops: seq<Op>) {
    forall i :: 0 <= i < |ops| ==> ops[i].ApplyNext?
  }

  ghost predicate SameKind(s: State, t: State, p: int) {
    && p in s.plans && p in t.plans && t.plans[p].batch == s.plans[p].batch && t.plans[p].staging == s.plans[p].staging
    && t.plans[p].action == s.plans[p].action
  }

  // What applying has done to a batch: the checkpoint moved to a plan that was due, over all the plans no longer due.
  ghost predicate Worked(s: State, t: State, b: int) {
    && b in s.batches && b in t.batches && PlansOk(t) && s.plans.Keys == t.plans.Keys
    && (forall p {:trigger SameKind(s, t, p)} :: p in s.plans ==> SameKind(s, t, p))
    && Due(t, b) <= Due(s, b)
    && (t.batches[b].checkpoint == s.batches[b].checkpoint || t.batches[b].checkpoint in Due(s, b))
    && (forall q :: q in Due(s, b) && q !in Due(t, b) ==> q <= t.batches[b].checkpoint)
  }

  lemma CommitWorks(s: State, t: State, b: int, c: int, p: int, e: Effect, until: int)
    requires Worked(s, t, b) && c in t.batches && t.batches[c].status == Applying && IsDue(t, c, p) && e.Effect?
    requires forall q :: q in t.plans && IsDue(t, c, q) ==> p <= q
    ensures Worked(s, Commit(t, c, p, e, until), b)
  {
    var u := Commit(t, c, p, e, until);
    CommitKeepsPlans(t, c, p, e, until);
    forall q | q in s.plans ensures SameKind(s, u, q) { assert SameKind(s, t, q); }
    assert PlanOk(t, p);
    if c == b {
      assert p in Due(t, b);
      forall q | q in Due(u, b) ensures q in Due(t, b) {}
      forall q | q in Due(t, b) && q !in Due(u, b) ensures q <= p { assert !IsDue(u, b, q); }
    } else {
      forall q ensures q in Due(u, b) <==> q in Due(t, b) {}
    }
  }

  lemma IdleWorks(s: State, t: State, u: State, b: int)
    requires Worked(s, t, b) && OnlyBatches(t, u)
    ensures Worked(s, u, b)
  {
    SamePlansSameSets(t, u, b);
    forall q | q in s.plans ensures SameKind(s, u, q) { assert SameKind(s, t, q); }
    forall q | q in u.plans ensures PlanOk(u, q) { assert PlanOk(t, q); }
  }

  lemma {:induction false} AppliesWork(s: State, ops: seq<Op>, b: int)
    requires PlansOk(s) && b in s.batches && OnlyApplies(ops)
    ensures Worked(s, Run(s, ops), b)
    decreases |ops|
  {
    if ops == [] {
      forall p | p in s.plans ensures SameKind(s, s, p) {}
    } else {
      var t := Run(s, ops[..|ops| - 1]);
      var op := ops[|ops| - 1];
      AppliesWork(s, ops[..|ops| - 1], b);
      var (u, outcome) := ApplyNextStep(t, op.now, op.batch, op.worker, op.term);
      if outcome.OneApplied? {
        NextIsDue(t, op.batch);
        CommitWorks(s, t, b, op.batch, outcome.plan, EffectOf(t, outcome.plan), op.now + op.term);
      } else {
        IdleApplyTouchesBatches(t, op.now, op.batch, op.worker, op.term);
        IdleWorks(s, t, u, b);
      }
    }
  }

  // A lease changes no plan, and the checkpoint stays.
  lemma LeaseKeepsPlansOk(s: State, now: int, b: int, worker: string, term: int)
    requires PlansOk(s)
    ensures PlansOk(LeaseApplyStep(s, now, b, worker, term))
  {
    BlindLeaseTouchesBatches(s, now, b, worker, term);
    var t := LeaseApplyStep(s, now, b, worker, term);
    forall p | p in t.plans ensures PlanOk(t, p) { assert PlanOk(s, p); }
  }

  lemma PassedWasExposed(s: State, t: State, b: int, p: int)
    requires Worked(s, t, b) && IsPassed(t, b, p) && p > s.batches[b].checkpoint
    ensures Exposed(s, b)
  {
    assert SameKind(s, t, p);
    var q := t.batches[b].checkpoint;
    assert q in Due(s, b) && q != p;
    assert IsExposed(s, b, p, q);
  }

  lemma ExposedIsPassed(s: State, t: State, b: int)
    requires Worked(s, t, b) && Exposed(s, b) && Due(t, b) == {}
    ensures Passed(t, b)
  {
    var p, q :| IsExposed(s, b, p, q);
    assert SameKind(s, t, p);
    assert q <= t.batches[b].checkpoint;
    assert IsPassed(t, b, p);
  }

  /** A batch leased without looking loses a review while it is applied only if some plan that is due comes after an open
      review; and if one does, then once nothing is due any more a review was lost. */
  lemma BlindLeaseOvertakesIff(s: State, now: int, b: int, worker: string, term: int, ops: seq<Op>)
    requires Sound(s) && LeaseApplyStep(s, now, b, worker, term) != s && OnlyApplies(ops)
    ensures var t := Run(LeaseApplyStep(s, now, b, worker, term), ops);
            && (Passed(t, b) ==> Exposed(s, b))
            && (Due(t, b) == {} ==> (Passed(t, b) <==> Exposed(s, b)))
  {
    var leased := LeaseApplyStep(s, now, b, worker, term);
    var t := Run(leased, ops);
    LeaseKeepsPlansOk(s, now, b, worker, term);
    BlindLeaseTouchesBatches(s, now, b, worker, term);
    SamePlansSameSets(s, leased, b);
    AppliesWork(leased, ops, b);
    ExposureSurvivesLease(s, leased, b);
    if Passed(t, b) {
      var p :| IsPassed(t, b, p);
      assert SameKind(leased, t, p) && PlanOk(s, p) && BatchOk(s, b);
      PassedWasExposed(leased, t, b, p);
    }
    if Exposed(s, b) && Due(t, b) == {} { ExposedIsPassed(leased, t, b); }
  }

  lemma ExposureSurvivesLease(s: State, t: State, b: int)
    requires OnlyBatches(s, t) && b in s.batches && Due(t, b) == Due(s, b)
    ensures Exposed(t, b) <==> Exposed(s, b)
  {
    forall p, q ensures IsExposed(t, b, p, q) == IsExposed(s, b, p, q) {}
  }

  // ---------- lost for good ----------

  lemma {:induction false} OvertakenStays(s: State, ops: seq<Op>, more: seq<Op>, p: int)
    requires EverOvertaken(s, ops, p)
    ensures EverOvertaken(s, ops + more, p)
    decreases |more|
  {
    if more == [] {
      assert ops + more == ops;
    } else {
      OvertakenStays(s, ops, more[..|more| - 1], p);
      assert (ops + more)[..|ops + more| - 1] == ops + more[..|more| - 1];
    }
  }

  /** A review that was overtaken is never applied, however it is decided and whatever runs afterwards. */
  lemma OvertakenIsLost(s: State, ops: seq<Op>, more: seq<Op>, p: int)
    requires Initial(s) && EverOvertaken(s, ops, p)
    ensures var t := Run(s, ops + more); p in t.plans && !t.plans[p].applied && Times(t.log, p) == 0
  {
    OvertakenStays(s, ops, more, p);
    OvertakenIff(s, ops + more, p);
    RunIsNumbered(s, ops + more);
    RunIsLogged(s, ops + more);
    assert NumberOk(Run(s, ops + more), p) && LoggedOnce(Run(s, ops + more), p);
  }
}
