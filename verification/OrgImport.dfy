/** Every interleaving of staging, planning, review, leases, applying and lease loss. */
module OrgImport {
  import opened Sets
  import opened Wrappers
  import opened OrgModel

  datatype Op =
    | CreateBatch(batch: int, mode: Mode)
    | Stage(staging: int, row: Row)
    | FinishStaging(batch: int)
    | StartPlanner(planner: int, batch: int)
    | StartUnchecked(planner: int, batch: int)
    | ReadPage(planner: int, limit: int)
    | SaveNext(planner: int, action: Action, target: Option<int>, rule: string, review: set<int>)
    | CompletePlanning(planner: int)
    | StopPlanner(planner: int)
    | ResolveReview(staging: int, decision: Decision)
    | PromoteDryRun(batch: int)
    | LeaseReadyApply(now: int, batch: int, worker: string, term: int, calm: bool)
    | BlindLease(now: int, batch: int, worker: string, term: int)
    | ApplyNext(now: int, batch: int, worker: string, term: int)
    | RequeueExpired(now: int)

  function Step(s: State, op: Op): State {
    match op
    case CreateBatch(b, mode) => CreateBatchStep(s, b, mode)
    case Stage(r, row) => StageStep(s, r, row)
    case FinishStaging(b) => FinishStagingStep(s, b)
    case StartPlanner(planner, b) => StartPlannerStep(s, planner, b)
    case StartUnchecked(planner, b) => StartUncheckedStep(s, planner, b)
    case ReadPage(planner, limit) => ReadPageStep(s, planner, limit)
    case SaveNext(planner, action, target, rule, review) => SaveNextStep(s, planner, action, target, rule, review)
    case CompletePlanning(planner) => CompletePlanningStep(s, planner)
    case StopPlanner(planner) => StopPlannerStep(s, planner)
    case ResolveReview(r, d) => ResolveReviewStep(s, r, d)
    case PromoteDryRun(b) => PromoteStep(s, b)
    case LeaseReadyApply(now, b, w, term, calm) => LeaseReadyStep(s, now, b, w, term, calm)
    case BlindLease(now, b, w, term) => LeaseApplyStep(s, now, b, w, term)
    case ApplyNext(now, b, w, term) => ApplyNextStep(s, now, b, w, term).0
    case RequeueExpired(now) => RequeueStep(s, now)
  }

  function Run(s: State, ops: seq<Op>): State
    decreases |ops|
  {
    if ops == [] then s else Step(Run(s, ops[..|ops| - 1]), ops[|ops| - 1])
  }

  // The steps the program takes: it starts planners only for batches it read as PLANNING, and leases by
  // LeaseReadyApply.
  predicate Usual(op: Op) {
    !op.StartUnchecked? && !op.BlindLease?
  }

  predicate AllUsual(ops: seq<Op>) {
    forall i :: 0 <= i < |ops| ==> Usual(ops[i])
  }

  // No import yet; organizations and links may already be there.
  ghost predicate Initial(s: State) {
    && s.batches == map[] && s.rows == map[] && s.plans == map[] && s.planOf == map[] && s.log == [] && s.nextPlan == 1
    && s.planners == map[] && Counted(s)
  }

  // ---------- organizations and their links ----------

  ghost function LinksTo(links: map<SourceId, Link>, place: int): set<SourceId> {
    set id | id in links && links[id].place == place
  }

  ghost predicate OrgOk(s: State, place: int) {
    place in s.orgs && place < s.nextPlace && s.orgs[place].sources == |LinksTo(s.links, place)|
  }

  // source_count is the number of source links of each organization.
  ghost predicate Counted(s: State) {
    && (forall id :: id in s.links ==> s.links[id].place in s.orgs)
    && (forall place {:trigger OrgOk(s, place)} :: place in s.orgs ==> OrgOk(s, place))
  }

  // ---------- plans, rows and checkpoints ----------

  ghost predicate PlanOk(s: State, p: int) {
    && p in s.plans && 0 < p < s.nextPlan
    && var plan := s.plans[p];
    && plan.batch in s.batches && plan.staging in s.rows && s.rows[plan.staging].batch == plan.batch
    && s.rows[plan.staging].state != Valid
    && plan.staging in s.planOf && s.planOf[plan.staging] == p
    && (plan.applied <==> Work(plan.action) && p <= s.batches[plan.batch].checkpoint)
  }

  ghost predicate PlansOk(s: State) {
    forall p {:trigger PlanOk(s, p)} :: p in s.plans ==> PlanOk(s, p)
  }

  ghost predicate RowOk(s: State, r: int) {
    && r in s.rows && r > 0 && s.rows[r].batch in s.batches
    && (s.rows[r].state == Valid ==> r !in s.planOf)
    && (s.rows[r].state == Scheduled || s.rows[r].state == Loaded ==> r in s.planOf)
    && (r in s.planOf ==> s.planOf[r] in s.plans && s.plans[s.planOf[r]].staging == r)
  }

  ghost predicate BatchOk(s: State, b: int) {
    && b in s.batches && var batch := s.batches[b];
    && batch.checkpoint >= 0
    && (batch.status == Staging || batch.status == Planning ==> batch.checkpoint == 0)
    && (batch.status != Staging && batch.status != Planning ==> NoValidRow(s, b))
    && (batch.checkpoint > 0 || batch.status == Applying || batch.status == Done ==>
          NoReview(s, b) && batch.mode == Apply)
    && (batch.status == Applying ==> batch.worker.Some?)
    && batch.appliedCount == |AppliedPlans(s, b)|
    && (batch.status == Done ==> Due(s, b) == {})
  }

  ghost predicate TablesOk(s: State) {
    && s.planOf.Keys <= s.rows.Keys && s.nextPlan > 0
    && PlansOk(s)
    && (forall r {:trigger RowOk(s, r)} :: r in s.rows ==> RowOk(s, r))
    && (forall b {:trigger BatchOk(s, b)} :: b in s.batches ==> BatchOk(s, b))
  }

  // ---------- planners ----------

  ghost predicate Ascending(page: seq<int>) {
    forall i, j :: 0 <= i < j < |page| ==> page[i] < page[j]
  }

  // What the planner has yet to see: the rest of its page, or what comes after it.
  ghost predicate Ahead(p: Planner, r: int) {
    r > p.after && (p.page == [] || r in p.page || r > p.page[|p.page| - 1])
  }

  ghost predicate IsWaiting(s: State, b: int, r: int) {
    r in s.rows && s.rows[r].batch == b && s.rows[r].state == Valid
  }

  // No row of its batch will be staged any more, and no row it has passed is still VALID.
  ghost predicate PlannerOk(s: State, planner: int) {
    && planner in s.planners && var p := s.planners[planner];
    && p.batch in s.batches && s.batches[p.batch].status != Staging && Ascending(p.page)
    && (forall r {:trigger IsWaiting(s, p.batch, r)} :: IsWaiting(s, p.batch, r) ==> Ahead(p, r) && !p.drained)
  }

  ghost predicate PlannersOk(s: State) {
    forall planner {:trigger PlannerOk(s, planner)} :: planner in s.planners ==> PlannerOk(s, planner)
  }

  ghost predicate Sound(s: State) {
    TablesOk(s) && PlannersOk(s)
  }

  // ---------- every step keeps the tables ----------

  // A batch stands as long as its own plans and rows do.
  lemma BatchFrame(s: State, t: State, b: int)
    requires TablesOk(s) && BatchOk(s, b) && b in t.batches && t.batches[b] == s.batches[b]
    requires forall p :: p in s.plans && s.plans[p].batch == b ==> p in t.plans && t.plans[p] == s.plans[p]
    requires forall p :: p in t.plans && t.plans[p].batch == b ==> p in s.plans && s.plans[p].batch == b
    requires s.batches[b].status == Staging || s.batches[b].status == Planning ||
             forall r :: r in t.rows && t.rows[r].batch == b && t.rows[r].state == Valid ==>
                           r in s.rows && s.rows[r].batch == b && s.rows[r].state == Valid
    ensures BatchOk(t, b)
  {
    forall p ensures p in AppliedPlans(t, b) <==> p in AppliedPlans(s, b) {}
    assert AppliedPlans(t, b) == AppliedPlans(s, b);
    forall p | IsDue(t, b, p) ensures IsDue(s, b, p) { assert PlanOk(s, p); }
    assert s.batches[b].status == Done ==> Due(s, b) == {};
    forall p | p in Due(t, b) ensures p in Due(s, b) {}
  }

  // The steps that change nothing but the status, mode or lease of batches.
  ghost predicate OnlyBatches(s: State, t: State) {
    && t == s.(batches := t.batches) && t.batches.Keys == s.batches.Keys
    && forall b :: b in s.batches ==> t.batches[b].checkpoint == s.batches[b].checkpoint
  }

  lemma OnlyBatchesKeeps(s: State, t: State)
    requires TablesOk(s) && OnlyBatches(s, t)
    requires forall b :: b in t.batches && t.batches[b] != s.batches[b] ==> BatchOk(t, b)
    ensures TablesOk(t)
  {
    forall p | p in t.plans ensures PlanOk(t, p) { assert PlanOk(s, p); }
    forall r | r in t.rows ensures RowOk(t, r) { assert RowOk(s, r); }
    forall b | b in t.batches && t.batches[b] == s.batches[b] ensures BatchOk(t, b) {
      assert BatchOk(s, b);
      BatchFrame(s, t, b);
    }
  }

  lemma SamePlansSameSets(s: State, t: State, b: int)
    requires OnlyBatches(s, t) && b in s.batches
    ensures AppliedPlans(t, b) == AppliedPlans(s, b) && Due(t, b) == Due(s, b)
    ensures NoReview(t, b) == NoReview(s, b) && NoValidRow(t, b) == NoValidRow(s, b)
  {
    forall p ensures IsDue(t, b, p) == IsDue(s, b, p) {}
  }

  lemma StatusKeeps(s: State, op: Op)
    requires TablesOk(s) && (op.FinishStaging? || op.PromoteDryRun? || op.LeaseReadyApply?)
    ensures TablesOk(Step(s, op))
  {
    var t := Step(s, op);
    if t != s {
      var b := op.batch;
      assert BatchOk(s, b);
      SamePlansSameSets(s, t, b);
      OnlyBatchesKeeps(s, t);
    }
  }

  lemma RequeueKeeps(s: State, now: int)
    requires TablesOk(s)
    ensures TablesOk(RequeueStep(s, now))
  {
    var t := RequeueStep(s, now);
    forall b | b in t.batches ensures BatchOk(t, b) {
      assert BatchOk(s, b);
      SamePlansSameSets(s, t, b);
    }
    OnlyBatchesKeeps(s, t);
  }

  lemma NewBatchIsOk(s: State, b: int, mode: Mode)
    requires TablesOk(s) && b !in s.batches
    ensures BatchOk(CreateBatchStep(s, b, mode), b)
  {
    var t := CreateBatchStep(s, b, mode);
    forall p | p in s.plans ensures s.plans[p].batch != b { assert PlanOk(s, p); }
    assert AppliedPlans(t, b) == {};
  }

  lemma CreateBatchKeeps(s: State, b: int, mode: Mode)
    requires TablesOk(s)
    ensures TablesOk(CreateBatchStep(s, b, mode))
  {
    var t := CreateBatchStep(s, b, mode);
    if b !in s.batches {
      forall p | p in t.plans ensures PlanOk(t, p) { assert PlanOk(s, p); }
      forall r | r in t.rows ensures RowOk(t, r) { assert RowOk(s, r); }
      NewBatchIsOk(s, b, mode);
      forall c | c in s.batches ensures BatchOk(t, c) {
        assert BatchOk(s, c);
        BatchFrame(s, t, c);
      }
    }
  }

  lemma StageKeeps(s: State, r: int, row: Row)
    requires TablesOk(s)
    ensures TablesOk(StageStep(s, r, row))
  {
    var t := StageStep(s, r, row);
    if t != s {
      forall p | p in t.plans ensures PlanOk(t, p) { assert PlanOk(s, p); }
      forall q | q in t.rows ensures RowOk(t, q) {
        if q in s.rows { assert RowOk(s, q); }
      }
      forall b | b in t.batches ensures BatchOk(t, b) {
        assert BatchOk(s, b);
        BatchFrame(s, t, b);
      }
    }
  }

  // A new plan appears only before planning is complete.
  lemma SavedHere(s: State, t: State, b: int)
    requires TablesOk(s) && BatchOk(s, b) && t.batches == s.batches && b in s.batches
    requires s.batches[b].status == Staging || s.batches[b].status == Planning
    requires forall p :: p in s.plans ==> p in t.plans && t.plans[p] == s.plans[p]
    requires forall p :: p in t.plans && p !in s.plans ==> !t.plans[p].applied
    ensures BatchOk(t, b)
  {
    forall p ensures p in AppliedPlans(t, b) <==> p in AppliedPlans(s, b) {}
    assert AppliedPlans(t, b) == AppliedPlans(s, b);
  }

  lemma NextPlanIsNew(s: State)
    requires TablesOk(s)
    ensures s.nextPlan !in s.plans
  {
    forall p | p in s.plans ensures p < s.nextPlan { assert PlanOk(s, p); }
  }

  lemma SavePlanKeepsPlansAndRows(s: State, r: int, action: Action, target: Option<int>, rule: string, review: set<int>)
    requires TablesOk(s) && SavePlanStep(s, r, action, target, rule, review) != s
    ensures var t := SavePlanStep(s, r, action, target, rule, review);
            (forall p :: p in t.plans ==> PlanOk(t, p)) && (forall q :: q in t.rows ==> RowOk(t, q))
  {
    var t := SavePlanStep(s, r, action, target, rule, review);
    assert RowOk(s, r) && BatchOk(s, s.rows[r].batch);
    NextPlanIsNew(s);
    forall p | p in t.plans ensures PlanOk(t, p) {
      if p in s.plans { assert PlanOk(s, p); }
    }
    forall q | q in t.rows ensures RowOk(t, q) { assert RowOk(s, q); }
  }

  lemma SavePlanKeeps(s: State, r: int, action: Action, target: Option<int>, rule: string, review: set<int>)
    requires TablesOk(s)
    ensures TablesOk(SavePlanStep(s, r, action, target, rule, review))
  {
    var t := SavePlanStep(s, r, action, target, rule, review);
    if t != s {
      assert RowOk(s, r);
      var owner := s.rows[r].batch;
      assert BatchOk(s, owner);
      NextPlanIsNew(s);
      forall b | b in t.batches ensures BatchOk(t, b) {
        assert BatchOk(s, b);
        if b == owner && r !in s.planOf { SavedHere(s, t, b); } else { BatchFrame(s, t, b); }
      }
      SavePlanKeepsPlansAndRows(s, r, action, target, rule, review);
    }
  }

  lemma ResolvedHere(s: State, r: int, d: Decision)
    requires TablesOk(s) && CanResolve(s, r, d)
    ensures var t := ResolveReviewStep(s, r, d); BatchOk(t, s.plans[s.planOf[r]].batch)
  {
    var t := ResolveReviewStep(s, r, d);
    var owner := s.plans[s.planOf[r]].batch;
    assert PlanOk(s, s.planOf[r]) && BatchOk(s, owner);
    forall p ensures p in AppliedPlans(t, owner) <==> p in AppliedPlans(s, owner) {}
    assert AppliedPlans(t, owner) == AppliedPlans(s, owner);
  }

  lemma ResolveReviewKeeps(s: State, r: int, d: Decision)
    requires TablesOk(s)
    ensures TablesOk(ResolveReviewStep(s, r, d))
  {
    var t := ResolveReviewStep(s, r, d);
    if CanResolve(s, r, d) {
      var chosen := s.planOf[r];
      var owner := s.plans[chosen].batch;
      assert PlanOk(s, chosen) && BatchOk(s, owner) && RowOk(s, r);
      forall p | p in t.plans ensures PlanOk(t, p) { assert PlanOk(s, p); }
      forall q | q in t.rows ensures RowOk(t, q) { assert RowOk(s, q); }
      ResolvedHere(s, r, d);
      forall b | b in t.batches && b != owner ensures BatchOk(t, b) {
        assert BatchOk(s, b);
        BatchFrame(s, t, b);
      }
    }
  }

  // ---------- applying one plan ----------

  lemma NextIsDue(s: State, b: int)
    requires Due(s, b) != {}
    ensures var p := Least(Due(s, b)); IsDue(s, b, p) && forall q :: q in s.plans && IsDue(s, b, q) ==> p <= q
  {
    forall q | q in s.plans && IsDue(s, b, q) ensures Least(Due(s, b)) <= q { assert q in Due(s, b); }
  }

  ghost predicate IsCommit(s: State, t: State, b: int, p: int, until: int) {
    && b in s.batches && s.batches[b].status == Applying && IsDue(s, b, p)
    && exists e: Effect :: e.Effect? && t == Commit(s, b, p, e, until)
  }

  lemma AppliedIsCommit(s: State, now: int, b: int, worker: string, term: int)
    ensures var (t, outcome) := ApplyNextStep(s, now, b, worker, term);
            outcome.OneApplied? ==> IsCommit(s, t, b, outcome.plan, now + term)
  {
    if ApplyNextStep(s, now, b, worker, term).1.OneApplied? { NextIsDue(s, b); }
  }

  lemma CommitKeepsPlans(s: State, b: int, p: int, e: Effect, until: int)
    requires PlansOk(s) && b in s.batches && s.batches[b].status == Applying
    requires IsDue(s, b, p) && e.Effect? && forall q :: q in s.plans && IsDue(s, b, q) ==> p <= q
    ensures PlansOk(Commit(s, b, p, e, until))
  {
    var t := Commit(s, b, p, e, until);
    forall q | q in s.plans ensures PlanOk(t, q) {
      assert PlanOk(s, q) && PlanOk(s, p);
      assert !IsDue(s, b, q) || p <= q;
    }
  }

  lemma CommitKeepsBatch(s: State, b: int, p: int, e: Effect, until: int)
    requires TablesOk(s) && b in s.batches && s.batches[b].status == Applying
    requires IsDue(s, b, p) && e.Effect?
    ensures BatchOk(Commit(s, b, p, e, until), b)
  {
    var t := Commit(s, b, p, e, until);
    assert BatchOk(s, b) && PlanOk(s, p);
    assert AppliedPlans(t, b) == AppliedPlans(s, b) + {p};
  }

  lemma CommitKeeps(s: State, b: int, p: int, e: Effect, until: int)
    requires TablesOk(s) && b in s.batches && s.batches[b].status == Applying
    requires IsDue(s, b, p) && e.Effect? && forall q :: q in s.plans && IsDue(s, b, q) ==> p <= q
    ensures TablesOk(Commit(s, b, p, e, until))
  {
    var t := Commit(s, b, p, e, until);
    CommitKeepsPlans(s, b, p, e, until);
    CommitKeepsBatch(s, b, p, e, until);
    assert PlanOk(s, p);
    forall r | r in t.rows ensures RowOk(t, r) { assert RowOk(s, r); }
    forall c | c in t.batches && c != b ensures BatchOk(t, c) {
      assert BatchOk(s, c);
      BatchFrame(s, t, c);
    }
  }

  lemma ApplyNextKeeps(s: State, now: int, b: int, worker: string, term: int)
    requires TablesOk(s)
    ensures TablesOk(ApplyNextStep(s, now, b, worker, term).0)
  {
    var (t, outcome) := ApplyNextStep(s, now, b, worker, term);
    if outcome.Finished? {
      assert BatchOk(s, b);
      SamePlansSameSets(s, t, b);
      OnlyBatchesKeeps(s, t);
    } else if outcome.OneApplied? {
      NextIsDue(s, b);
      CommitKeeps(s, b, outcome.plan, EffectOf(s, outcome.plan), now + term);
    }
  }

  lemma IdleApplyTouchesBatches(s: State, now: int, b: int, worker: string, term: int)
    requires !ApplyNextStep(s, now, b, worker, term).1.OneApplied?
    ensures OnlyBatches(s, ApplyNextStep(s, now, b, worker, term).0)
  {
  }

  lemma PlannerStepsTouchNoTable(s: State, op: Op)
    requires op.StartPlanner? || op.StartUnchecked? || op.ReadPage? || op.StopPlanner?
    ensures Step(s, op) == s.(planners := Step(s, op).planners)
  {
  }

  lemma RunSnoc(s: State, ops: seq<Op>, op: Op)
    ensures Run(s, ops + [op]) == Step(Run(s, ops), op)
  {
    assert (ops + [op])[..|ops|] == ops;
  }
}
