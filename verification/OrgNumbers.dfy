/** What every step keeps, even LeaseApply and a planner that did not look at the status: numbers of plans rise, and a
    plan only changes while it is under review or when it is applied. */
module OrgNumbers {
  import opened Sets
  import opened Wrappers
  import opened OrgModel
  import opened OrgImport

  ghost predicate NumberOk(s: State, p: int) {
    && p in s.plans && 0 < p < s.nextPlan && s.plans[p].batch in s.batches && s.plans[p].staging in s.rows
    && (s.plans[p].applied ==> Work(s.plans[p].action))
  }

  ghost predicate Numbered(s: State) {
    && s.nextPlan > 0
    && (forall p {:trigger NumberOk(s, p)} :: p in s.plans ==> NumberOk(s, p))
    && (forall r :: r in s.rows ==> s.rows[r].batch in s.batches)
    && (forall b :: b in s.batches ==> 0 <= s.batches[b].checkpoint < s.nextPlan)
  }

  // The plan stays, but for what a review decides.
  ghost predicate PlanStays(s: State, t: State, p: int) {
    && p in s.plans && p in t.plans && t.plans[p].batch == s.plans[p].batch && t.plans[p].staging == s.plans[p].staging
    && t.plans[p].applied == s.plans[p].applied
    && (s.plans[p].action == Review || t.plans[p].action == s.plans[p].action)
  }

  ghost predicate IsNewPlan(s: State, t: State, p: int) {
    && p in t.plans && p == s.nextPlan && t.nextPlan == p + 1 && !t.plans[p].applied
    && t.plans[p].batch in t.batches && t.plans[p].staging in t.rows
  }

  ghost predicate RowsStay(s: State, t: State) {
    && s.rows.Keys <= t.rows.Keys && (forall r :: r in t.rows ==> t.rows[r].batch in t.batches)
  }

  ghost predicate BatchesStay(s: State, t: State) {
    && s.batches.Keys <= t.batches.Keys
    && forall b :: b in t.batches ==> t.batches[b].checkpoint == if b in s.batches then s.batches[b].checkpoint else 0
  }

  ghost predicate PlansStay(s: State, t: State) {
    && t.log == s.log && t.nextPlan >= s.nextPlan
    && (forall p {:trigger PlanStays(s, t, p)} :: p in s.plans ==> PlanStays(s, t, p))
    && (forall p {:trigger IsNewPlan(s, t, p)} :: p in t.plans && p !in s.plans ==> IsNewPlan(s, t, p))
  }

  // A step that applies nothing.
  ghost predicate Quiet(s: State, t: State) {
    RowsStay(s, t) && BatchesStay(s, t) && PlansStay(s, t)
  }

  lemma QuietKeepsNumbered(s: State, t: State)
    requires Numbered(s) && Quiet(s, t)
    ensures Numbered(t)
  {
    forall p | p in t.plans ensures NumberOk(t, p) {
      if p in s.plans {
        assert NumberOk(s, p) && PlanStays(s, t, p);
      } else {
        assert IsNewPlan(s, t, p);
      }
    }
  }

  lemma SamePlansAreQuiet(s: State, t: State)
    requires t.plans == s.plans && t.nextPlan == s.nextPlan && t.log == s.log
    ensures PlansStay(s, t)
  {
    forall p | p in s.plans ensures PlanStays(s, t, p) {}
  }

  lemma BatchesAreQuiet(s: State, t: State)
    requires Numbered(s) && t == s.(batches := t.batches) && BatchesStay(s, t)
    ensures Quiet(s, t)
  {
    SamePlansAreQuiet(s, t);
  }

  lemma CreateBatchKeepsBatches(s: State, b: int, mode: Mode)
    ensures BatchesStay(s, CreateBatchStep(s, b, mode))
  {
  }

  lemma CreateBatchIsQuiet(s: State, b: int, mode: Mode)
    requires Numbered(s)
    ensures Quiet(s, CreateBatchStep(s, b, mode))
  {
    CreateBatchKeepsBatches(s, b, mode);
    BatchesAreQuiet(s, CreateBatchStep(s, b, mode));
  }

  lemma OnlyBatchesAreQuiet(s: State, t: State)
    requires Numbered(s) && OnlyBatches(s, t)
    ensures Quiet(s, t)
  {
    BatchesAreQuiet(s, t);
  }

  lemma StageIsQuiet(s: State, op: Op)
    requires Numbered(s) && op.Stage?
    ensures Quiet(s, Step(s, op))
  {
    SamePlansAreQuiet(s, Step(s, op));
  }

  lemma FinishStagingTouchesBatches(s: State, b: int)
    ensures OnlyBatches(s, FinishStagingStep(s, b))
  {
  }

  lemma PromoteTouchesBatches(s: State, b: int)
    ensures OnlyBatches(s, PromoteStep(s, b))
  {
  }

  lemma ReadyLeaseTouchesBatches(s: State, now: int, b: int, worker: string, term: int, calm: bool)
    ensures OnlyBatches(s, LeaseReadyStep(s, now, b, worker, term, calm))
  {
  }

  lemma BlindLeaseTouchesBatches(s: State, now: int, b: int, worker: string, term: int)
    ensures OnlyBatches(s, LeaseApplyStep(s, now, b, worker, term))
  {
  }

  lemma StatusStepsTouchBatches(s: State, op: Op)
    requires op.FinishStaging? || op.PromoteDryRun? || op.LeaseReadyApply? || op.BlindLease?
    ensures OnlyBatches(s, Step(s, op))
  {
    match op
    case FinishStaging(b) => FinishStagingTouchesBatches(s, b);
    case PromoteDryRun(b) => PromoteTouchesBatches(s, b);
    case LeaseReadyApply(now, b, w, term, calm) => ReadyLeaseTouchesBatches(s, now, b, w, term, calm);
    case BlindLease(now, b, w, term) => BlindLeaseTouchesBatches(s, now, b, w, term);
  }

  lemma RequeueTouchesBatches(s: State, now: int)
    ensures OnlyBatches(s, RequeueStep(s, now))
  {
  }

  lemma PlannerStepsAreQuiet(s: State, op: Op)
    requires Numbered(s) && (op.StartPlanner? || op.StartUnchecked? || op.ReadPage? || op.StopPlanner?)
    ensures Quiet(s, Step(s, op))
  {
    PlannerStepsTouchNoTable(s, op);
    SamePlansAreQuiet(s, s);
    PlannersAreQuiet(s, s, Step(s, op));
  }

  lemma CompletePlanningIsQuiet(s: State, planner: int)
    requires Numbered(s)
    ensures Quiet(s, CompletePlanningStep(s, planner))
  {
    SamePlansAreQuiet(s, CompletePlanningStep(s, planner));
  }

  lemma ResolveReviewIsQuiet(s: State, r: int, d: Decision)
    requires Numbered(s)
    ensures Quiet(s, ResolveReviewStep(s, r, d))
  {
    var t := ResolveReviewStep(s, r, d);
    forall p | p in s.plans ensures PlanStays(s, t, p) {}
  }

  lemma NextIsUnused(s: State)
    requires Numbered(s)
    ensures s.nextPlan !in s.plans
  {
    forall p | p in s.plans ensures p < s.nextPlan { assert NumberOk(s, p); }
  }

  lemma SavePlanIsQuiet(s: State, r: int, action: Action, target: Option<int>, rule: string, review: set<int>)
    requires Numbered(s)
    ensures Quiet(s, SavePlanStep(s, r, action, target, rule, review))
  {
    var t := SavePlanStep(s, r, action, target, rule, review);
    NextIsUnused(s);
    forall p | p in s.plans ensures PlanStays(s, t, p) {}
  }

  lemma SaveNextIsQuiet(s: State, planner: int, action: Action, target: Option<int>, rule: string, review: set<int>)
    requires Numbered(s)
    ensures Quiet(s, SaveNextStep(s, planner, action, target, rule, review))
  {
    var t := SaveNextStep(s, planner, action, target, rule, review);
    if planner in s.planners && s.planners[planner].page != [] {
      var r := s.planners[planner].page[0];
      var saved := SavePlanStep(s, r, action, target, rule, review);
      SavePlanIsQuiet(s, r, action, target, rule, review);
      if CanSave(s, r, ByPlanner(action, target, rule)) {
        assert t == saved.(planners := t.planners);
        PlannersAreQuiet(s, saved, t);
      } else {
        SamePlansAreQuiet(s, t);
      }
    } else {
      SamePlansAreQuiet(s, t);
    }
  }

  lemma PlannersAreQuiet(s: State, t: State, u: State)
    requires Quiet(s, t) && u == t.(planners := u.planners)
    ensures Quiet(s, u)
  {
    forall p | p in s.plans ensures PlanStays(s, u, p) { assert PlanStays(s, t, p); }
    forall p | p in u.plans && p !in s.plans ensures IsNewPlan(s, u, p) { assert IsNewPlan(s, t, p); }
  }

  /** Every step but ApplyNext. */
  lemma OtherStepsAreQuiet(s: State, op: Op)
    requires Numbered(s) && !op.ApplyNext?
    ensures Quiet(s, Step(s, op))
  {
    match op
    case Stage(_, _) => StageIsQuiet(s, op);
    case ResolveReview(r, d) => ResolveReviewIsQuiet(s, r, d);
    case CreateBatch(b, mode) => CreateBatchIsQuiet(s, b, mode);
    case RequeueExpired(now) =>
      RequeueTouchesBatches(s, now);
      OnlyBatchesAreQuiet(s, Step(s, op));
    case SaveNext(planner, action, target, rule, review) => SaveNextIsQuiet(s, planner, action, target, rule, review);
    case CompletePlanning(planner) => CompletePlanningIsQuiet(s, planner);
    case StartPlanner(_, _) => PlannerStepsAreQuiet(s, op);
    case StartUnchecked(_, _) => PlannerStepsAreQuiet(s, op);
    case ReadPage(_, _) => PlannerStepsAreQuiet(s, op);
    case StopPlanner(_) => PlannerStepsAreQuiet(s, op);
    case _ =>
      StatusStepsTouchBatches(s, op);
      OnlyBatchesAreQuiet(s, Step(s, op));
  }

  lemma IdleApplyIsQuiet(s: State, now: int, b: int, worker: string, term: int)
    requires Numbered(s) && !ApplyNextStep(s, now, b, worker, term).1.OneApplied?
    ensures Quiet(s, ApplyNextStep(s, now, b, worker, term).0)
  {
    IdleApplyTouchesBatches(s, now, b, worker, term);
    OnlyBatchesAreQuiet(s, ApplyNextStep(s, now, b, worker, term).0);
  }

  lemma CommitKeepsNumbered(s: State, b: int, p: int, e: Effect, until: int)
    requires Numbered(s) && b in s.batches && IsDue(s, b, p) && e.Effect?
    ensures Numbered(Commit(s, b, p, e, until))
  {
    var t := Commit(s, b, p, e, until);
    forall q | q in t.plans ensures NumberOk(t, q) { assert NumberOk(s, q); }
    assert NumberOk(s, p);
  }

  lemma StepKeepsNumbered(s: State, op: Op)
    requires Numbered(s)
    ensures Numbered(Step(s, op))
  {
    if op.ApplyNext? {
      var (t, outcome) := ApplyNextStep(s, op.now, op.batch, op.worker, op.term);
      AppliedIsCommit(s, op.now, op.batch, op.worker, op.term);
      if outcome.OneApplied? {
        var e: Effect :| e.Effect? && t == Commit(s, op.batch, outcome.plan, e, op.now + op.term);
        CommitKeepsNumbered(s, op.batch, outcome.plan, e, op.now + op.term);
      } else {
        IdleApplyIsQuiet(s, op.now, op.batch, op.worker, op.term);
        QuietKeepsNumbered(s, t);
      }
    } else {
      OtherStepsAreQuiet(s, op);
      QuietKeepsNumbered(s, Step(s, op));
    }
  }

  lemma {:induction false} RunIsNumbered(s: State, ops: seq<Op>)
    requires Initial(s)
    ensures Numbered(Run(s, ops))
    decreases |ops|
  {
    if ops != [] {
      RunIsNumbered(s, ops[..|ops| - 1]);
      StepKeepsNumbered(Run(s, ops[..|ops| - 1]), ops[|ops| - 1]);
    }
  }
}
