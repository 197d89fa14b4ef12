/** Rows that stay without a plan: exactly those staged behind a planner that was already running. Over every run, the
    planner that did not look at the status included. */
module OrgLeftovers {
  import opened Sets
  import opened Wrappers
  import opened OrgModel
  import opened OrgImport
  import opened OrgNumbers
  import opened OrgPlanners

  // ---------- what holds in every run ----------

  ghost predicate RowWaits(s: State, r: int) {
    r in s.rows && r > 0 && (s.rows[r].state == Valid ==> r !in s.planOf)
  }

  ghost predicate PlanHasRow(s: State, p: int) {
    p in s.plans && s.plans[p].staging in s.rows && s.rows[s.plans[p].staging].state != Valid
  }

  ghost predicate CursorOk(p: Planner) {
    Ascending(p.page) && (p.page != [] ==> p.page[0] > p.after && !p.drained)
  }

  ghost predicate RowsWait(s: State) {
    && s.planOf.Keys <= s.rows.Keys
    && (forall r {:trigger RowWaits(s, r)} :: r in s.rows ==> RowWaits(s, r))
    && (forall p {:trigger PlanHasRow(s, p)} :: p in s.plans ==> PlanHasRow(s, p))
  }

  ghost predicate CursorsOk(s: State) {
    forall q {:trigger s.planners[q]} :: q in s.planners ==> CursorOk(s.planners[q])
  }

  // ---------- what makes a row wait, or no longer ----------

  // The row is staged by this step.
  predicate Stages(s: State, op: Op, r: int) {
    op.Stage? && op.staging == r && r !in s.rows && r in Step(s, op).rows
  }

  // Some planner saves a plan for the row.
  predicate Saves(s: State, op: Op, r: int) {
    && op.SaveNext? && op.planner in s.planners && s.planners[op.planner].page != []
    && s.planners[op.planner].page[0] == r && CanSave(s, r, ByPlanner(op.action, op.target, op.rule))
  }

  ghost predicate WaitsNow(s: State, t: State, op: Op, r: int) {
    forall b :: IsWaiting(t, b, r) <==>
      (Stages(s, op, r) && op.row.state == Valid && op.row.batch == b) || (IsWaiting(s, b, r) && !Saves(s, op, r))
  }

  lemma StageMoves(s: State, op: Op, r: int)
    requires op.Stage?
    ensures WaitsNow(s, Step(s, op), op, r)
  {
  }

  lemma StageKeepsRows(s: State, op: Op)
    requires RowsWait(s) && op.Stage?
    ensures RowsWait(Step(s, op))
  {
    var t := Step(s, op);
    forall r | r in t.rows ensures RowWaits(t, r) { if r in s.rows { assert RowWaits(s, r); } }
    forall p | p in t.plans ensures PlanHasRow(t, p) { assert PlanHasRow(s, p); }
  }

  // A step that leaves rows and plans alone.
  lemma SameRows(s: State, t: State)
    requires RowsWait(s) && t.rows == s.rows && t.plans == s.plans && t.planOf == s.planOf
    ensures RowsWait(t)
  {
    forall r | r in t.rows ensures RowWaits(t, r) { assert RowWaits(s, r); }
    forall p | p in t.plans ensures PlanHasRow(t, p) { assert PlanHasRow(s, p); }
  }

  lemma ReviewMoves(s: State, op: Op, r: int)
    requires RowsWait(s) && op.ResolveReview?
    ensures WaitsNow(s, Step(s, op), op, r)
  {
    if r in s.rows { assert RowWaits(s, r); }
  }

  lemma ReviewKeepsRows(s: State, r: int, d: Decision)
    requires RowsWait(s)
    ensures RowsWait(ResolveReviewStep(s, r, d))
  {
    var t := ResolveReviewStep(s, r, d);
    forall q | q in t.rows ensures RowWaits(t, q) { assert RowWaits(s, q); }
    forall p | p in t.plans ensures PlanHasRow(t, p) { assert PlanHasRow(s, p); }
  }

  lemma SchedulingMoves(s: State, t: State, q: int, r: int, b: int)
    requires OnlySchedules(s, t, q) && (q in t.rows ==> t.rows[q].state == Scheduled)
    ensures IsWaiting(t, b, r) <==> IsWaiting(s, b, r) && r != q
  {
  }

  lemma SaveMoves(s: State, op: Op, r: int)
    requires op.SaveNext?
    ensures WaitsNow(s, Step(s, op), op, r)
  {
    var t := Step(s, op);
    if op.planner in s.planners && s.planners[op.planner].page != [] {
      var q := s.planners[op.planner].page[0];
      if CanSave(s, q, ByPlanner(op.action, op.target, op.rule)) {
        SavePlanOnlySchedules(s, q, op.action, op.target, op.rule, op.review);
        SavedIsScheduled(s, q, op.action, op.target, op.rule, op.review);
        forall b ensures IsWaiting(t, b, r) <==> IsWaiting(s, b, r) && r != q { SchedulingMoves(s, t, q, r, b); }
      } else {
        assert t.rows == s.rows;
      }
    }
  }

  // The row is PLANNED, and at most one plan is new, the row's.
  ghost predicate IsSaved(s: State, t: State, r: int, p: int) {
    && r in s.rows && t.rows == s.rows[r := s.rows[r].(state := Scheduled)]
    && ((t.plans == s.plans && t.planOf == s.planOf) ||
        (p in t.plans && t.plans == s.plans[p := t.plans[p]] && t.plans[p].staging == r && t.planOf == s.planOf[r := p]))
  }

  lemma SavePlanIsSaved(s: State, r: int, action: Action, target: Option<int>, rule: string, review: set<int>)
    requires CanSave(s, r, ByPlanner(action, target, rule))
    ensures IsSaved(s, SavePlanStep(s, r, action, target, rule, review), r, s.nextPlan)
  {
  }

  lemma SavedRow(s: State, t: State, r: int, p: int, q: int)
    requires IsSaved(s, t, r, p) && RowWaits(s, q)
    ensures RowWaits(t, q)
  {
  }

  lemma SavedPlan(s: State, t: State, r: int, p: int, q: int)
    requires IsSaved(s, t, r, p) && q in t.plans && (q in s.plans ==> PlanHasRow(s, q))
    ensures PlanHasRow(t, q)
  {
  }

  lemma SavingKeepsRows(s: State, t: State, r: int, p: int)
    requires RowsWait(s) && IsSaved(s, t, r, p)
    ensures RowsWait(t)
  {
    forall q | q in t.rows ensures RowWaits(t, q) {
      assert RowWaits(s, q);
      SavedRow(s, t, r, p, q);
    }
    forall q | q in t.plans ensures PlanHasRow(t, q) {
      if q in s.plans { assert PlanHasRow(s, q); }
      SavedPlan(s, t, r, p, q);
    }
  }

  lemma SaveKeepsRows(s: State, planner: int, action: Action, target: Option<int>, rule: string, review: set<int>)
    requires RowsWait(s)
    ensures RowsWait(SaveNextStep(s, planner, action, target, rule, review))
  {
    var t := SaveNextStep(s, planner, action, target, rule, review);
    if planner in s.planners && s.planners[planner].page != [] {
      var r := s.planners[planner].page[0];
      if CanSave(s, r, ByPlanner(action, target, rule)) {
        SavePlanIsSaved(s, r, action, target, rule, review);
        SavingKeepsRows(s, SavePlanStep(s, r, action, target, rule, review), r, s.nextPlan);
        SameRows(SavePlanStep(s, r, action, target, rule, review), t);
      } else {
        SameRows(s, t);
      }
    }
  }

  lemma CommitMoves(s: State, b: int, p: int, e: Effect, until: int, r: int, c: int)
    requires RowsWait(s) && b in s.batches && p in s.plans && s.plans[p].staging in s.rows && e.Effect?
    ensures IsWaiting(Commit(s, b, p, e, until), c, r) <==> IsWaiting(s, c, r)
  {
    assert PlanHasRow(s, p);
  }

  lemma CommitKeepsRows(s: State, b: int, p: int, e: Effect, until: int)
    requires RowsWait(s) && b in s.batches && p in s.plans && s.plans[p].staging in s.rows && e.Effect?
    ensures RowsWait(Commit(s, b, p, e, until))
  {
    var t := Commit(s, b, p, e, until);
    forall q | q in t.rows ensures RowWaits(t, q) { assert RowWaits(s, q); }
    forall q | q in t.plans ensures PlanHasRow(t, q) { assert PlanHasRow(s, q); }
  }

  lemma ApplyMoves(s: State, op: Op, r: int)
    requires RowsWait(s) && op.ApplyNext?
    ensures WaitsNow(s, Step(s, op), op, r) && RowsWait(Step(s, op))
  {
    var (t, outcome) := ApplyNextStep(s, op.now, op.batch, op.worker, op.term);
    if outcome.OneApplied? {
      AppliedIsCommit(s, op.now, op.batch, op.worker, op.term);
      var e: Effect :| e.Effect? && t == Commit(s, op.batch, outcome.plan, e, op.now + op.term);
      CommitKeepsRows(s, op.batch, outcome.plan, e, op.now + op.term);
      forall c ensures IsWaiting(t, c, r) <==> IsWaiting(s, c, r) {
        CommitMoves(s, op.batch, outcome.plan, e, op.now + op.term, r, c);
      }
    } else {
      IdleApplyTouchesBatches(s, op.now, op.batch, op.worker, op.term);
      SameRows(s, t);
    }
  }

  lemma CreateTouchesNoRow(s: State, b: int, mode: Mode)
    ensures var t := CreateBatchStep(s, b, mode); t.rows == s.rows && t.plans == s.plans && t.planOf == s.planOf
  {
  }

  lemma CompletingTouchesNoRow(s: State, planner: int)
    ensures var t := CompletePlanningStep(s, planner); t.rows == s.rows && t.plans == s.plans && t.planOf == s.planOf
  {
  }

  lemma PlannerStepsTouchNoRow(s: State, op: Op)
    requires op.StartPlanner? || op.StartUnchecked? || op.ReadPage? || op.StopPlanner?
    ensures var t := Step(s, op); t.rows == s.rows && t.plans == s.plans && t.planOf == s.planOf
  {
    PlannerStepsTouchNoTable(s, op);
  }

  lemma StatusTouchesNoRow(s: State, t: State)
    requires OnlyBatches(s, t)
    ensures t.rows == s.rows && t.plans == s.plans && t.planOf == s.planOf
  {
  }

  predicate TouchesRows(op: Op) {
    op.Stage? || op.ResolveReview? || op.SaveNext? || op.ApplyNext?
  }

  lemma OtherStepsTouchNoRow(s: State, op: Op)
    requires !TouchesRows(op)
    ensures var t := Step(s, op); t.rows == s.rows && t.plans == s.plans && t.planOf == s.planOf
  {
    match op
    case CreateBatch(b, mode) => CreateTouchesNoRow(s, b, mode);
    case RequeueExpired(now) =>
      RequeueTouchesBatches(s, now);
      StatusTouchesNoRow(s, Step(s, op));
    case CompletePlanning(planner) => CompletingTouchesNoRow(s, planner);
    case StartPlanner(_, _) => PlannerStepsTouchNoRow(s, op);
    case StartUnchecked(_, _) => PlannerStepsTouchNoRow(s, op);
    case ReadPage(_, _) => PlannerStepsTouchNoRow(s, op);
    case StopPlanner(_) => PlannerStepsTouchNoRow(s, op);
    case _ =>
      StatusStepsTouchBatches(s, op);
      StatusTouchesNoRow(s, Step(s, op));
  }

  /** A row begins to wait when it is staged and stops when a planner saves a plan for it, in no other way. */
  lemma RowMoves(s: State, op: Op, r: int)
    requires RowsWait(s)
    ensures WaitsNow(s, Step(s, op), op, r) && RowsWait(Step(s, op))
  {
    match op
    case Stage(_, _) => StageMoves(s, op, r); StageKeepsRows(s, op);
    case ResolveReview(q, d) => ReviewMoves(s, op, r); ReviewKeepsRows(s, q, d);
    case SaveNext(planner, action, target, rule, review) =>
      SaveMoves(s, op, r);
      SaveKeepsRows(s, planner, action, target, rule, review);
    case ApplyNext(_, _, _, _) => ApplyMoves(s, op, r);
    case _ =>
      OtherStepsTouchNoRow(s, op);
      SameRows(s, Step(s, op));
  }

  // ---------- cursors ----------

  lemma ReadPageKeepsCursor(s: State, planner: int, limit: int)
    requires NeedsPage(s, planner)
    ensures CursorOk(ReadPageStep(s, planner, limit).planners[planner])
  {
    var p := s.planners[planner];
    var waiting := WaitingRows(s, p.batch, p.after);
    PageIsFront(waiting, PageSize(limit));
    var page := Page(waiting, PageSize(limit));
    if page != [] { assert page[0] in page; }
  }

  lemma StepKeepsCursor(s: State, op: Op)
    requires CursorsOk(s) && IsPlannerStep(op) && op.planner in Step(s, op).planners
    ensures CursorOk(Step(s, op).planners[op.planner])
  {
    if op.ReadPage? && NeedsPage(s, op.planner) {
      ReadPageKeepsCursor(s, op.planner, op.limit);
    } else if op.planner in s.planners {
      assert CursorOk(s.planners[op.planner]);
    }
  }

  lemma StepKeepsCursors(s: State, op: Op)
    requires CursorsOk(s)
    ensures CursorsOk(Step(s, op))
  {
    if IsPlannerStep(op) {
      PlannerStepMovesOne(s, op);
      if op.planner in Step(s, op).planners { StepKeepsCursor(s, op); }
    } else {
      OtherStepsLeavePlanners(s, op);
    }
  }

  lemma {:induction false} RunKeepsCursors(s: State, ops: seq<Op>)
    requires Initial(s)
    ensures RowsWait(Run(s, ops)) && CursorsOk(Run(s, ops))
    decreases |ops|
  {
    if ops != [] {
      RunKeepsCursors(s, ops[..|ops| - 1]);
      RowMoves(Run(s, ops[..|ops| - 1]), ops[|ops| - 1], 0);
      StepKeepsCursors(Run(s, ops[..|ops| - 1]), ops[|ops| - 1]);
    }
  }

  // ---------- the rows a planner leaves behind ----------

  // The planner will not come to the row: it read an empty page, or its cursor or its page is past the row.
  ghost predicate Behind(p: Planner, r: int) {
    p.drained || !Ahead(p, r)
  }

  // Staged behind the running planner, which is still running, and saved by no planner since.
  ghost predicate LeftBehind(s: State, ops: seq<Op>, planner: int, r: int)
    decreases |ops|
  {
    && ops != []
    && var before, op := Run(s, ops[..|ops| - 1]), ops[|ops| - 1];
    if Stages(before, op, r) then
      && op.row.state == Valid && planner in before.planners
      && before.planners[planner].batch == op.row.batch && Behind(before.planners[planner], r)
    else
      && LeftBehind(s, ops[..|ops| - 1], planner, r)
      && planner in Step(before, op).planners && !Saves(before, op, r)
  }

  ghost predicate WaitsBehind(s: State, planner: int, r: int) {
    planner in s.planners && IsWaiting(s, s.planners[planner].batch, r) && Behind(s.planners[planner], r)
  }

  lemma StillBehind(p: Planner, r: int)
    requires CursorOk(p) && p.page != [] && r != p.page[0]
    ensures Behind(p.(after := p.page[0], page := p.page[1..]), r) <==> Behind(p, r)
  {
    if |p.page| > 1 { assert p.page[0] < p.page[|p.page| - 1]; }
    if r in p.page { assert r in p.page[1..]; }
  }

  // A page read says nothing new about a row that is waiting.
  lemma ReadPageLeavesBehind(s: State, planner: int, limit: int, r: int)
    requires NeedsPage(s, planner) && IsWaiting(s, s.planners[planner].batch, r)
    ensures Behind(ReadPageStep(s, planner, limit).planners[planner], r) <==> Behind(s.planners[planner], r)
  {
    var p := s.planners[planner];
    var waiting := WaitingRows(s, p.batch, p.after);
    PageIsFront(waiting, PageSize(limit));
    assert r > p.after <==> r in waiting;
  }

  // Its own step: a running planner is the same or goes on by one row; a new one is ahead of everything.
  lemma OwnStepLeavesBehind(s: State, op: Op, planner: int, r: int)
    requires RowsWait(s) && CursorsOk(s) && IsPlannerStep(op) && op.planner == planner
    requires planner in Step(s, op).planners && IsWaiting(s, Step(s, op).planners[planner].batch, r) && !Saves(s, op, r)
    ensures planner in s.planners ==> s.planners[planner].batch == Step(s, op).planners[planner].batch
    ensures Behind(Step(s, op).planners[planner], r) <==> planner in s.planners && Behind(s.planners[planner], r)
  {
    assert RowWaits(s, r);
    if planner in s.planners {
      var p := s.planners[planner];
      assert CursorOk(p);
      if op.ReadPage? && NeedsPage(s, planner) {
        ReadPageLeavesBehind(s, planner, op.limit, r);
      } else if op.SaveNext? && p.page != [] {
        SaveLeavesBehind(s, op, r);
      } else {
        assert Step(s, op).planners == s.planners;
      }
    }
  }

  lemma SaveLeavesBehind(s: State, op: Op, r: int)
    requires op.SaveNext? && op.planner in s.planners && s.planners[op.planner].page != []
    requires CursorOk(s.planners[op.planner]) && IsWaiting(s, s.planners[op.planner].batch, r) && !Saves(s, op, r)
    requires op.planner in Step(s, op).planners
    ensures var p, q := s.planners[op.planner], Step(s, op).planners[op.planner];
            q.batch == p.batch && (Behind(q, r) <==> Behind(p, r))
  {
    StillBehind(s.planners[op.planner], r);
  }

  // Where the planner stands after a step, seen from a row that waits before and after it.
  lemma StepLeavesBehind(s: State, op: Op, planner: int, r: int)
    requires RowsWait(s) && CursorsOk(s)
    requires !Stages(s, op, r) && planner in Step(s, op).planners && !Saves(s, op, r)
    ensures WaitsBehind(Step(s, op), planner, r) <==> WaitsBehind(s, planner, r)
  {
    var t := Step(s, op);
    var b := t.planners[planner].batch;
    RowMoves(s, op, r);
    assert IsWaiting(t, b, r) <==> IsWaiting(s, b, r);
    if IsPlannerStep(op) && op.planner == planner {
      if IsWaiting(s, b, r) {
        OwnStepLeavesBehind(s, op, planner, r);
      } else if planner in s.planners {
        SameBatch(s, op);
      }
    } else if IsPlannerStep(op) {
      PlannerStepMovesOne(s, op);
    } else {
      OtherStepsLeavePlanners(s, op);
    }
  }

  lemma SameBatch(s: State, op: Op)
    requires IsPlannerStep(op) && op.planner in s.planners && op.planner in Step(s, op).planners
    ensures Step(s, op).planners[op.planner].batch == s.planners[op.planner].batch
  {
  }

  lemma StagedBehind(s: State, op: Op, planner: int, r: int)
    requires RowsWait(s) && Stages(s, op, r)
    ensures WaitsBehind(Step(s, op), planner, r) <==>
            op.row.state == Valid && planner in s.planners
            && s.planners[planner].batch == op.row.batch && Behind(s.planners[planner], r)
  {
    RowMoves(s, op, r);
    OtherStepsLeavePlanners(s, op);
  }

  /** A row waits behind a running planner exactly when it was staged behind it. */
  lemma {:induction false} WaitsBehindIff(s: State, ops: seq<Op>, planner: int, r: int)
    requires Initial(s)
    ensures WaitsBehind(Run(s, ops), planner, r) <==> LeftBehind(s, ops, planner, r)
    decreases |ops|
  {
    if ops != [] {
      var front := ops[..|ops| - 1];
      var before, op := Run(s, front), ops[|ops| - 1];
      WaitsBehindIff(s, front, planner, r);
      RunKeepsCursors(s, front);
      if Stages(before, op, r) {
        StagedBehind(before, op, planner, r);
      } else if planner in Step(before, op).planners {
        RowMoves(before, op, r);
        if !Saves(before, op, r) { StepLeavesBehind(before, op, planner, r); }
      }
    }
  }

  /** When a planner completes a batch, exactly the rows staged behind it are left without a plan. */
  lemma LeftoverIff(s: State, ops: seq<Op>, planner: int, r: int)
    requires Initial(s) && planner in Run(s, ops).planners && Run(s, ops).planners[planner].drained
    requires var t := Run(s, ops); var b := t.planners[planner].batch;
             b in t.batches && t.batches[b].status == Planning
    ensures var b := Run(s, ops).planners[planner].batch; var done := Run(s, ops + [CompletePlanning(planner)]);
            && b in done.batches && done.batches[b].status == Planned
            && (IsWaiting(done, b, r) <==> LeftBehind(s, ops, planner, r))
            && (IsWaiting(done, b, r) ==> r !in done.planOf)
  {
    var t := Run(s, ops);
    WaitsBehindIff(s, ops, planner, r);
    RunSnoc(s, ops, CompletePlanning(planner));
    RunKeepsCursors(s, ops + [CompletePlanning(planner)]);
    CompletingTouchesNoRow(t, planner);
    var done := Run(s, ops + [CompletePlanning(planner)]);
    if r in done.rows { assert RowWaits(done, r); }
  }

  /** A planner that was started for a batch it read as PLANNING leaves none. */
  lemma NothingIsLeftBehind(s: State, ops: seq<Op>, planner: int, r: int)
    requires Initial(s) && AllUsual(ops)
    ensures !LeftBehind(s, ops, planner, r)
  {
    WaitsBehindIff(s, ops, planner, r);
    RunIsSound(s, ops);
    var t := Run(s, ops);
    if planner in t.planners { assert PlannerOk(t, planner); }
  }
}
