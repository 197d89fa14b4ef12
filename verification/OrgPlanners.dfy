/** Planners that run beside everything else: what each of them has passed has been planned, so a batch is complete
    when one of them finds no more rows. */
module OrgPlanners {
  import opened Sets
  import opened Wrappers
  import opened OrgModel
  import opened OrgImport

  // ---------- planning keeps the tables ----------

  // What the tables promise does not depend on the planners.
  lemma TablesFrame(s: State, t: State)
    requires TablesOk(s) && t == s.(planners := t.planners)
    ensures TablesOk(t)
  {
    forall p | p in t.plans ensures PlanOk(t, p) { assert PlanOk(s, p); }
    forall r | r in t.rows ensures RowOk(t, r) { assert RowOk(s, r); }
    forall b | b in t.batches ensures BatchOk(t, b) {
      assert BatchOk(s, b);
      BatchFrame(s, t, b);
    }
  }

  lemma PlannerStepKeepsTables(s: State, op: Op)
    requires TablesOk(s) && (op.StartPlanner? || op.StartUnchecked? || op.ReadPage? || op.StopPlanner?)
    ensures TablesOk(Step(s, op))
  {
    PlannerStepsTouchNoTable(s, op);
    TablesFrame(s, Step(s, op));
  }

  lemma SaveNextKeeps(s: State, planner: int, action: Action, target: Option<int>, rule: string, review: set<int>)
    requires TablesOk(s)
    ensures TablesOk(SaveNextStep(s, planner, action, target, rule, review))
  {
    if planner in s.planners && s.planners[planner].page != [] {
      var r := s.planners[planner].page[0];
      var t := SaveNextStep(s, planner, action, target, rule, review);
      if CanSave(s, r, ByPlanner(action, target, rule)) {
        SavePlanKeeps(s, r, action, target, rule, review);
        TablesFrame(SavePlanStep(s, r, action, target, rule, review), t);
      } else {
        TablesFrame(s, t);
      }
    }
  }

  lemma PlannedKeeps(s: State, b: int)
    requires TablesOk(s) && NoValidRow(s, b)
    ensures TablesOk(PlannedStep(s, b))
  {
    var t := PlannedStep(s, b);
    if t != s {
      assert BatchOk(s, b);
      SamePlansSameSets(s, t, b);
      OnlyBatchesKeeps(s, t);
    }
  }

  lemma DrainedHasNoValidRow(s: State, planner: int)
    requires PlannersOk(s) && planner in s.planners && s.planners[planner].drained
    ensures NoValidRow(s, s.planners[planner].batch)
  {
    var b := s.planners[planner].batch;
    assert PlannerOk(s, planner);
    forall r | r in s.rows && s.rows[r].batch == b ensures s.rows[r].state != Valid { assert !IsWaiting(s, b, r); }
  }

  lemma CompletePlanningKeeps(s: State, planner: int)
    requires Sound(s)
    ensures TablesOk(CompletePlanningStep(s, planner))
  {
    if planner in s.planners && s.planners[planner].drained {
      var b := s.planners[planner].batch;
      DrainedHasNoValidRow(s, planner);
      PlannedKeeps(s, b);
      TablesFrame(PlannedStep(s, b), CompletePlanningStep(s, planner));
    }
  }

  // ---------- every step keeps the planners ----------

  ghost predicate PastStaging(s: State, b: int) {
    b in s.batches && s.batches[b].status != Staging
  }

  // No batch is staging again.
  ghost predicate Onward(s: State, t: State) {
    forall b {:trigger PastStaging(t, b)} :: PastStaging(s, b) ==> PastStaging(t, b)
  }

  // In the batches past staging no row is waiting that was not.
  ghost predicate NothingNew(s: State, t: State) {
    && Onward(s, t)
    && forall b, r {:trigger IsWaiting(t, b, r)} :: PastStaging(s, b) && IsWaiting(t, b, r) ==> IsWaiting(s, b, r)
  }

  lemma PlannerFrame(s: State, t: State, planner: int)
    requires PlannerOk(s, planner) && NothingNew(s, t)
    requires planner in t.planners && t.planners[planner] == s.planners[planner]
    ensures PlannerOk(t, planner)
  {
    assert PastStaging(s, s.planners[planner].batch) && PastStaging(t, s.planners[planner].batch);
  }

  lemma SameRowsNothingNew(s: State, t: State)
    requires t.rows == s.rows && Onward(s, t)
    ensures NothingNew(s, t)
  {
    forall b, r | IsWaiting(t, b, r) ensures IsWaiting(s, b, r) {}
  }

  lemma StagingBringsNothingNew(s: State, op: Op)
    requires op.CreateBatch? || op.Stage? || op.FinishStaging?
    ensures NothingNew(s, Step(s, op))
  {
  }

  lemma ReviewBringsNothingNew(s: State, r: int, d: Decision)
    ensures NothingNew(s, ResolveReviewStep(s, r, d))
  {
  }

  lemma ReadyLeaseIsOnward(s: State, now: int, b: int, worker: string, term: int, calm: bool)
    ensures var t := LeaseReadyStep(s, now, b, worker, term, calm); t.rows == s.rows && Onward(s, t)
  {
  }

  lemma BlindLeaseIsOnward(s: State, now: int, b: int, worker: string, term: int)
    ensures var t := LeaseApplyStep(s, now, b, worker, term); t.rows == s.rows && Onward(s, t)
  {
  }

  lemma RequeueIsOnward(s: State, now: int)
    ensures RequeueStep(s, now).rows == s.rows && Onward(s, RequeueStep(s, now))
  {
  }

  lemma PromoteIsOnward(s: State, b: int)
    ensures PromoteStep(s, b).rows == s.rows && Onward(s, PromoteStep(s, b))
  {
  }

  lemma LeasingBringsNothingNew(s: State, op: Op)
    requires op.PromoteDryRun? || op.LeaseReadyApply? || op.BlindLease? || op.RequeueExpired?
    ensures NothingNew(s, Step(s, op))
  {
    match op {
      case PromoteDryRun(b) => PromoteIsOnward(s, b);
      case LeaseReadyApply(now, b, w, term, calm) => ReadyLeaseIsOnward(s, now, b, w, term, calm);
      case BlindLease(now, b, w, term) => BlindLeaseIsOnward(s, now, b, w, term);
      case RequeueExpired(now) => RequeueIsOnward(s, now);
    }
    SameRowsNothingNew(s, Step(s, op));
  }

  lemma CommitBringsNothingNew(s: State, b: int, p: int, e: Effect, until: int)
    requires b in s.batches && s.batches[b].status == Applying
    requires p in s.plans && s.plans[p].staging in s.rows && e.Effect?
    ensures NothingNew(s, Commit(s, b, p, e, until))
  {
  }

  lemma IdleApplyIsOnward(s: State, now: int, b: int, worker: string, term: int)
    requires !ApplyNextStep(s, now, b, worker, term).1.OneApplied?
    ensures var t := ApplyNextStep(s, now, b, worker, term).0; t.rows == s.rows && Onward(s, t)
  {
    IdleApplyTouchesBatches(s, now, b, worker, term);
  }

  lemma ApplyingBringsNothingNew(s: State, now: int, b: int, worker: string, term: int)
    ensures NothingNew(s, ApplyNextStep(s, now, b, worker, term).0)
  {
    var (t, outcome) := ApplyNextStep(s, now, b, worker, term);
    if outcome.OneApplied? {
      AppliedIsCommit(s, now, b, worker, term);
      var e: Effect :| e.Effect? && t == Commit(s, b, outcome.plan, e, now + term);
      CommitBringsNothingNew(s, b, outcome.plan, e, now + term);
    } else {
      IdleApplyIsOnward(s, now, b, worker, term);
      SameRowsNothingNew(s, t);
    }
  }

  ghost predicate OnlySchedules(s: State, t: State, r: int) {
    && t.batches == s.batches
    && (t.rows == s.rows || (r in s.rows && t.rows == s.rows[r := s.rows[r].(state := Scheduled)]))
  }

  lemma SavePlanOnlySchedules(s: State, r: int, action: Action, target: Option<int>, rule: string, review: set<int>)
    ensures OnlySchedules(s, SavePlanStep(s, r, action, target, rule, review), r)
  {
  }

  lemma SchedulingBringsNothingNew(s: State, t: State, r: int)
    requires OnlySchedules(s, t, r)
    ensures NothingNew(s, t)
  {
  }

  lemma SavingBringsNothingNew(s: State, planner: int, action: Action, target: Option<int>, rule: string, review: set<int>)
    ensures NothingNew(s, SaveNextStep(s, planner, action, target, rule, review))
  {
    if planner in s.planners && s.planners[planner].page != [] {
      var r := s.planners[planner].page[0];
      SavePlanOnlySchedules(s, r, action, target, rule, review);
      SchedulingBringsNothingNew(s, SaveNextStep(s, planner, action, target, rule, review), r);
    }
  }

  lemma PlannersBringNothingNew(s: State, op: Op)
    requires op.StartPlanner? || op.StartUnchecked? || op.ReadPage? || op.CompletePlanning? || op.StopPlanner?
    ensures NothingNew(s, Step(s, op))
  {
    if op.CompletePlanning? {
      assert CompletePlanningStep(s, op.planner).rows == s.rows;
    } else {
      PlannerStepsTouchNoTable(s, op);
    }
    SameRowsNothingNew(s, Step(s, op));
  }

  lemma NothingNewEver(s: State, op: Op)
    ensures NothingNew(s, Step(s, op))
  {
    match op
    case CreateBatch(_, _) => StagingBringsNothingNew(s, op);
    case Stage(_, _) => StagingBringsNothingNew(s, op);
    case FinishStaging(_) => StagingBringsNothingNew(s, op);
    case ResolveReview(r, d) => ReviewBringsNothingNew(s, r, d);
    case PromoteDryRun(_) => LeasingBringsNothingNew(s, op);
    case LeaseReadyApply(_, _, _, _, _) => LeasingBringsNothingNew(s, op);
    case BlindLease(_, _, _, _) => LeasingBringsNothingNew(s, op);
    case RequeueExpired(_) => LeasingBringsNothingNew(s, op);
    case ApplyNext(now, b, w, term) => ApplyingBringsNothingNew(s, now, b, w, term);
    case SaveNext(planner, action, target, rule, review) =>
      SavingBringsNothingNew(s, planner, action, target, rule, review);
    case _ => PlannersBringNothingNew(s, op);
  }

  lemma {:induction false} PageIsFront(waiting: set<int>, n: nat)
    ensures var page := Page(waiting, n);
            && Ascending(page) && (forall r :: r in page ==> r in waiting)
            && (forall r :: r in waiting ==> n == 0 || (page != [] && (r in page || r > page[|page| - 1])))
    decreases n
  {
    if n > 0 && waiting != {} {
      var least := Least(waiting);
      var rest := Page(waiting - {least}, n - 1);
      PageIsFront(waiting - {least}, n - 1);
      assert Page(waiting, n) == [least] + rest;
      forall i | 0 < i < |Page(waiting, n)| ensures least < Page(waiting, n)[i] { assert rest[i - 1] in rest; }
      forall r | r in waiting && r !in Page(waiting, n) ensures r > Page(waiting, n)[|Page(waiting, n)| - 1] {
        assert r != least && r !in rest;
      }
    }
  }

  lemma ReadPageKeepsPlanner(s: State, planner: int, limit: int)
    requires NeedsPage(s, planner) && PlannerOk(s, planner)
    ensures PlannerOk(ReadPageStep(s, planner, limit), planner)
  {
    var p := s.planners[planner];
    var waiting := WaitingRows(s, p.batch, p.after);
    var t := ReadPageStep(s, planner, limit);
    PageIsFront(waiting, PageSize(limit));
    forall r | IsWaiting(t, p.batch, r) ensures Ahead(t.planners[planner], r) && !t.planners[planner].drained {
      assert IsWaiting(s, p.batch, r);
      assert r in waiting;
    }
  }

  lemma StillAhead(p: Planner, r: int)
    requires p.page != [] && Ascending(p.page) && Ahead(p, r) && r != p.page[0]
    ensures Ahead(p.(after := p.page[0], page := p.page[1..]), r)
  {
  }

  // The next row is planned; whatever else is waiting is still ahead.
  lemma PassedRow(s: State, t: State, planner: int)
    requires PlannerOk(s, planner) && s.planners[planner].page != []
    requires OnlySchedules(s, t, s.planners[planner].page[0])
    requires s.planners[planner].page[0] in t.rows && t.rows[s.planners[planner].page[0]].state == Scheduled
    requires var p := s.planners[planner];
             planner in t.planners && t.planners[planner] == p.(after := p.page[0], page := p.page[1..])
    ensures PlannerOk(t, planner)
  {
    var p := s.planners[planner];
    forall r | IsWaiting(t, p.batch, r) ensures Ahead(t.planners[planner], r) && !p.drained {
      assert IsWaiting(s, p.batch, r) && r != p.page[0];
      StillAhead(p, r);
    }
  }

  lemma SavedIsScheduled(s: State, r: int, action: Action, target: Option<int>, rule: string, review: set<int>)
    requires CanSave(s, r, ByPlanner(action, target, rule))
    ensures var t := SavePlanStep(s, r, action, target, rule, review); r in t.rows && t.rows[r].state == Scheduled
  {
  }

  lemma SaveNextKeepsPlanner(s: State, planner: int, action: Action, target: Option<int>, rule: string, review: set<int>)
    requires planner in s.planners && PlannerOk(s, planner)
    ensures var t := SaveNextStep(s, planner, action, target, rule, review);
            planner in t.planners ==> PlannerOk(t, planner)
  {
    var p := s.planners[planner];
    if p.page != [] && CanSave(s, p.page[0], ByPlanner(action, target, rule)) {
      SavePlanOnlySchedules(s, p.page[0], action, target, rule, review);
      SavedIsScheduled(s, p.page[0], action, target, rule, review);
      PassedRow(s, SaveNextStep(s, planner, action, target, rule, review), planner);
    }
  }

  lemma StartPlannerKeepsPlanner(s: State, planner: int, b: int)
    requires TablesOk(s) && (planner in s.planners ==> PlannerOk(s, planner))
    requires planner in StartPlannerStep(s, planner, b).planners
    ensures PlannerOk(StartPlannerStep(s, planner, b), planner)
  {
    var t := StartPlannerStep(s, planner, b);
    if t != s {
      forall r | IsWaiting(t, b, r) ensures r > 0 { assert RowOk(s, r); }
    }
  }

  predicate IsPlannerStep(op: Op) {
    op.StartPlanner? || op.StartUnchecked? || op.ReadPage? || op.SaveNext? || op.CompletePlanning? || op.StopPlanner?
  }

  lemma ApplyNextLeavesPlanners(s: State, now: int, b: int, worker: string, term: int)
    ensures ApplyNextStep(s, now, b, worker, term).0.planners == s.planners
  {
    if ApplyNextStep(s, now, b, worker, term).1.OneApplied? {
      AppliedIsCommit(s, now, b, worker, term);
    } else {
      IdleApplyTouchesBatches(s, now, b, worker, term);
    }
  }

  lemma OtherStepsLeavePlanners(s: State, op: Op)
    requires !IsPlannerStep(op)
    ensures Step(s, op).planners == s.planners
  {
    if op.ApplyNext? { ApplyNextLeavesPlanners(s, op.now, op.batch, op.worker, op.term); }
  }

  // No planner but this one is new or has moved.
  ghost predicate OthersStay(s: State, t: State, planner: int) {
    forall q {:trigger q in t.planners} ::
      q in t.planners && q != planner ==> q in s.planners && t.planners[q] == s.planners[q]
  }

  lemma SaveNextMovesOne(s: State, planner: int, action: Action, target: Option<int>, rule: string, review: set<int>)
    ensures OthersStay(s, SaveNextStep(s, planner, action, target, rule, review), planner)
  {
    var t := SaveNextStep(s, planner, action, target, rule, review);
    assert t.planners == s.planners || t.planners == s.planners - {planner} ||
           (planner in t.planners && t.planners == s.planners[planner := t.planners[planner]]);
  }

  lemma StartMovesOne(s: State, planner: int, b: int)
    ensures OthersStay(s, StartUncheckedStep(s, planner, b), planner)
    ensures OthersStay(s, StartPlannerStep(s, planner, b), planner)
  {
  }

  lemma ReadPageMovesOne(s: State, planner: int, limit: int)
    ensures OthersStay(s, ReadPageStep(s, planner, limit), planner)
  {
  }

  lemma EndMovesOne(s: State, planner: int)
    ensures OthersStay(s, CompletePlanningStep(s, planner), planner)
    ensures OthersStay(s, StopPlannerStep(s, planner), planner)
  {
  }

  lemma PlannerStepMovesOne(s: State, op: Op)
    requires IsPlannerStep(op)
    ensures OthersStay(s, Step(s, op), op.planner)
  {
    match op
    case StartPlanner(planner, b) => StartMovesOne(s, planner, b);
    case StartUnchecked(planner, b) => StartMovesOne(s, planner, b);
    case ReadPage(planner, limit) => ReadPageMovesOne(s, planner, limit);
    case SaveNext(planner, action, target, rule, review) => SaveNextMovesOne(s, planner, action, target, rule, review);
    case CompletePlanning(planner) => EndMovesOne(s, planner);
    case StopPlanner(planner) => EndMovesOne(s, planner);
  }

  lemma OwnPlanner(s: State, op: Op, planner: int)
    requires Sound(s) && Usual(op) && planner in Step(s, op).planners
    requires IsPlannerStep(op) && planner == op.planner
    ensures PlannerOk(Step(s, op), planner)
  {
    if planner in s.planners { assert PlannerOk(s, planner); }
    match op
    case StartPlanner(_, b) => StartPlannerKeepsPlanner(s, planner, b);
    case ReadPage(_, limit) => if NeedsPage(s, planner) { ReadPageKeepsPlanner(s, planner, limit); }
    case SaveNext(_, action, target, rule, review) =>
      SaveNextKeepsPlanner(s, planner, action, target, rule, review);
    case CompletePlanning(_) =>
      assert Step(s, op) == s;
    case StopPlanner(_) =>
      assert false;
  }

  lemma StepKeepsPlanners(s: State, op: Op)
    requires Sound(s) && Usual(op)
    ensures PlannersOk(Step(s, op))
  {
    var t := Step(s, op);
    NothingNewEver(s, op);
    if IsPlannerStep(op) { PlannerStepMovesOne(s, op); } else { OtherStepsLeavePlanners(s, op); }
    forall planner | planner in t.planners ensures PlannerOk(t, planner) {
      if IsPlannerStep(op) && planner == op.planner {
        OwnPlanner(s, op, planner);
      } else {
        assert planner in s.planners && t.planners[planner] == s.planners[planner];
        assert PlannerOk(s, planner);
        PlannerFrame(s, t, planner);
      }
    }
  }

  lemma StepKeepsSound(s: State, op: Op)
    requires Sound(s) && Usual(op)
    ensures Sound(Step(s, op))
  {
    StepKeepsPlanners(s, op);
    match op
    case CreateBatch(b, mode) => CreateBatchKeeps(s, b, mode);
    case Stage(r, row) => StageKeeps(s, r, row);
    case ResolveReview(r, d) => ResolveReviewKeeps(s, r, d);
    case ApplyNext(now, b, w, term) => ApplyNextKeeps(s, now, b, w, term);
    case RequeueExpired(now) => RequeueKeeps(s, now);
    case StartPlanner(_, _) => PlannerStepKeepsTables(s, op);
    case ReadPage(_, _) => PlannerStepKeepsTables(s, op);
    case StopPlanner(_) => PlannerStepKeepsTables(s, op);
    case SaveNext(planner, action, target, rule, review) => SaveNextKeeps(s, planner, action, target, rule, review);
    case CompletePlanning(planner) => CompletePlanningKeeps(s, planner);
    case _ => StatusKeeps(s, op);
  }

  lemma {:induction false} RunKeepsSound(s: State, ops: seq<Op>)
    requires Sound(s) && AllUsual(ops)
    ensures Sound(Run(s, ops))
    decreases |ops|
  {
    if ops != [] {
      RunKeepsSound(s, ops[..|ops| - 1]);
      StepKeepsSound(Run(s, ops[..|ops| - 1]), ops[|ops| - 1]);
    }
  }

  lemma RunIsSound(s: State, ops: seq<Op>)
    requires Initial(s) && AllUsual(ops)
    ensures Sound(Run(s, ops))
  {
    RunKeepsSound(s, ops);
  }

  /** A batch past planning has no VALID row, and each of its rows was rejected or has a plan, whatever planners ran for
      it at the same time, and whenever they stopped. */
  lemma CompletedIsPlanned(s: State, ops: seq<Op>, b: int)
    requires Initial(s) && AllUsual(ops) && b in Run(s, ops).batches
    requires Run(s, ops).batches[b].status != Staging && Run(s, ops).batches[b].status != Planning
    ensures var t := Run(s, ops);
            && NoValidRow(t, b)
            && forall r :: r in t.rows && t.rows[r].batch == b ==> t.rows[r].state == Rejected || r in t.planOf
  {
    var t := Run(s, ops);
    RunIsSound(s, ops);
    assert BatchOk(t, b);
    forall r | r in t.rows && t.rows[r].batch == b ensures t.rows[r].state == Rejected || r in t.planOf {
      assert RowOk(t, r);
    }
  }
}
