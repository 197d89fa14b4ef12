/** What an import promises: each planned change once, no change of plan after leasing, counts and index events. */
module OrgLaws {
  import opened Sets
  import opened Wrappers
  import opened OrgModel
  import opened OrgImport
  import opened OrgNumbers
  import opened OrgPlanners

  // ---------- once and only once ----------

  ghost function Times(log: seq<Applied>, p: int): nat
    decreases |log|
  {
    if log == [] then 0
    else Times(log[..|log| - 1], p) + if log[|log| - 1].plan == p then 1 else 0
  }

  lemma TimesAppend(log: seq<Applied>, e: Applied, p: int)
    ensures Times(log + [e], p) == Times(log, p) + if e.plan == p then 1 else 0
  {
    assert (log + [e])[..|log|] == log;
  }

  ghost predicate LoggedOnce(s: State, p: int) {
    Times(s.log, p) == if p in s.plans && s.plans[p].applied then 1 else 0
  }

  // The log holds exactly one entry for each applied plan and none for any other.
  ghost predicate Logged(s: State) {
    forall p {:trigger LoggedOnce(s, p)} :: LoggedOnce(s, p)
  }

  lemma QuietKeepsLogged(s: State, t: State)
    requires Logged(s) && Quiet(s, t)
    ensures Logged(t)
  {
    forall p ensures LoggedOnce(t, p) {
      assert LoggedOnce(s, p);
      if p in s.plans {
        assert PlanStays(s, t, p);
      } else if p in t.plans {
        assert IsNewPlan(s, t, p);
      }
    }
  }

  lemma CommitKeepsLogged(s: State, b: int, p: int, e: Effect, until: int)
    requires Logged(s) && b in s.batches && IsDue(s, b, p) && e.Effect?
    ensures Logged(Commit(s, b, p, e, until))
  {
    var t := Commit(s, b, p, e, until);
    var entry := Applied(b, p, e.place, s.plans[p].action);
    forall q ensures LoggedOnce(t, q) {
      assert LoggedOnce(s, q);
      TimesAppend(s.log, entry, q);
    }
  }

  lemma ApplyNextKeepsLogged(s: State, now: int, b: int, worker: string, term: int)
    requires Numbered(s) && Logged(s)
    ensures Logged(ApplyNextStep(s, now, b, worker, term).0)
  {
    AppliedIsCommit(s, now, b, worker, term);
    var (t, outcome) := ApplyNextStep(s, now, b, worker, term);
    if outcome.OneApplied? {
      var e: Effect :| e.Effect? && t == Commit(s, b, outcome.plan, e, now + term);
      CommitKeepsLogged(s, b, outcome.plan, e, now + term);
    } else {
      IdleApplyIsQuiet(s, now, b, worker, term);
      QuietKeepsLogged(s, t);
    }
  }

  lemma StepKeepsLogged(s: State, op: Op)
    requires Numbered(s) && Logged(s)
    ensures Logged(Step(s, op))
  {
    if op.ApplyNext? {
      ApplyNextKeepsLogged(s, op.now, op.batch, op.worker, op.term);
    } else {
      OtherStepsAreQuiet(s, op);
      QuietKeepsLogged(s, Step(s, op));
    }
  }

  lemma {:induction false} RunIsLogged(s: State, ops: seq<Op>)
    requires Initial(s)
    ensures Logged(Run(s, ops))
    decreases |ops|
  {
    if ops == [] {
      forall p ensures LoggedOnce(s, p) {}
    } else {
      RunIsLogged(s, ops[..|ops| - 1]);
      RunIsNumbered(s, ops[..|ops| - 1]);
      StepKeepsLogged(Run(s, ops[..|ops| - 1]), ops[|ops| - 1]);
    }
  }

  /** A batch that reached DONE has applied each CREATE, UPDATE and NOOP plan exactly once and no other plan;
      before that, exactly those up to the checkpoint. */
  lemma AppliedExactlyOnce(s: State, ops: seq<Op>, p: int)
    requires Initial(s) && AllUsual(ops) && p in Run(s, ops).plans
    ensures var t := Run(s, ops); var plan := t.plans[p];
            && plan.batch in t.batches && var batch := t.batches[plan.batch];
            && Times(t.log, p) == (if Work(plan.action) && p <= batch.checkpoint then 1 else 0)
            && (batch.status == Done ==> Times(t.log, p) == if Work(plan.action) then 1 else 0)
  {
    var t := Run(s, ops);
    RunIsSound(s, ops);
    RunIsLogged(s, ops);
    assert PlanOk(t, p) && LoggedOnce(t, p);
    var b := t.plans[p].batch;
    assert BatchOk(t, b);
    assert !(p in Due(t, b)) ==> !IsDue(t, b, p);
  }

  /** applied_count is the number of plans applied, and at DONE of all planned changes. */
  lemma AppliedCountIsExact(s: State, ops: seq<Op>, b: int)
    requires Initial(s) && AllUsual(ops) && b in Run(s, ops).batches && Run(s, ops).batches[b].status == Done
    ensures var t := Run(s, ops);
            t.batches[b].appliedCount == |set p | p in t.plans && t.plans[p].batch == b && Work(t.plans[p].action)|
  {
    var t := Run(s, ops);
    RunIsSound(s, ops);
    assert BatchOk(t, b);
    forall p | p in t.plans && t.plans[p].batch == b ensures t.plans[p].applied <==> Work(t.plans[p].action) {
      assert PlanOk(t, p);
      assert !(p in Due(t, b)) ==> !IsDue(t, b, p);
    }
    assert AppliedPlans(t, b) == set p | p in t.plans && t.plans[p].batch == b && Work(t.plans[p].action);
  }

  // ---------- the plan is frozen once leased ----------

  predicate PastPlanning(s: State, b: int) {
    b in s.batches && s.batches[b].status != Staging && s.batches[b].status != Planning
  }

  ghost predicate Frozen(s: State, b: int) {
    PastPlanning(s, b) && NoReview(s, b) && NoValidRow(s, b)
  }

  ghost predicate SamePlan(s: State, t: State, p: int) {
    && p in s.plans && p in t.plans && t.plans[p].batch == s.plans[p].batch && t.plans[p].staging == s.plans[p].staging
    && t.plans[p].action == s.plans[p].action && t.plans[p].target == s.plans[p].target
  }

  // The same plans with the same actions and targets.
  ghost predicate SamePlans(s: State, t: State, b: int) {
    && (forall p {:trigger p in s.plans} {:trigger p in t.plans} ::
          p in s.plans && s.plans[p].batch == b <==> p in t.plans && t.plans[p].batch == b)
    && (forall p {:trigger SamePlan(s, t, p)} :: p in s.plans && s.plans[p].batch == b ==> SamePlan(s, t, p))
  }

  // A plan that is saved now belongs to another batch.
  ghost predicate SavedElsewhere(s: State, t: State, b: int) {
    t.plans == s.plans ||
    (s.nextPlan in t.plans && t.plans == s.plans[s.nextPlan := t.plans[s.nextPlan]] && t.plans[s.nextPlan].batch != b)
  }

  lemma SavePlanIsElsewhere(s: State, r: int, action: Action, target: Option<int>, rule: string, review: set<int>, b: int)
    requires Sound(s) && NoValidRow(s, b)
    ensures SavedElsewhere(s, SavePlanStep(s, r, action, target, rule, review), b)
  {
    if r in s.rows { assert RowOk(s, r); }
  }

  lemma SavePlanKeepsFrozen(s: State, r: int, action: Action, target: Option<int>, rule: string, review: set<int>, b: int)
    requires Sound(s) && Frozen(s, b)
    ensures var t := SavePlanStep(s, r, action, target, rule, review); Frozen(t, b) && SamePlans(s, t, b)
  {
    var t := SavePlanStep(s, r, action, target, rule, review);
    NextPlanIsNew(s);
    SavePlanIsElsewhere(s, r, action, target, rule, review, b);
    SavePlanOnlySchedules(s, r, action, target, rule, review);
    forall p | p in s.plans && s.plans[p].batch == b ensures SamePlan(s, t, p) {}
  }

  lemma SaveNextKeepsFrozen(s: State, op: Op, b: int)
    requires Sound(s) && Frozen(s, b) && op.SaveNext?
    ensures Frozen(Step(s, op), b) && SamePlans(s, Step(s, op), b)
  {
    var t := Step(s, op);
    if op.planner in s.planners && s.planners[op.planner].page != [] {
      var r := s.planners[op.planner].page[0];
      if CanSave(s, r, ByPlanner(op.action, op.target, op.rule)) {
        var saved := SavePlanStep(s, r, op.action, op.target, op.rule, op.review);
        SavePlanKeepsFrozen(s, r, op.action, op.target, op.rule, op.review, b);
        FrozenFrame(saved, t, b);
        SamePlansChain(s, saved, t, b);
      } else {
        FrozenFrame(s, t, b);
      }
    } else {
      FrozenFrame(s, t, b);
    }
  }

  lemma ResolveReviewKeepsFrozen(s: State, op: Op, b: int)
    requires Sound(s) && Frozen(s, b) && op.ResolveReview?
    ensures Frozen(Step(s, op), b) && SamePlans(s, Step(s, op), b)
  {
    if CanResolve(s, op.staging, op.decision) {
      assert PlanOk(s, s.planOf[op.staging]);
      assert s.plans[s.planOf[op.staging]].batch != b;
    }
  }

  lemma CommitKeepsFrozen(s: State, c: int, p: int, e: Effect, until: int, b: int)
    requires Frozen(s, b) && c in s.batches && s.batches[c].status == Applying && IsDue(s, c, p) && e.Effect?
    ensures var t := Commit(s, c, p, e, until); Frozen(t, b) && SamePlans(s, t, b)
  {
  }

  lemma FrozenFrame(s: State, t: State, b: int)
    requires Frozen(s, b) && t.plans == s.plans && PastPlanning(t, b)
    requires forall r :: r in t.rows && t.rows[r].batch == b ==> r in s.rows && t.rows[r] == s.rows[r]
    ensures Frozen(t, b) && SamePlans(s, t, b)
  {
  }

  lemma IdleApplyNext(s: State, now: int, c: int, worker: string, term: int, b: int)
    requires PastPlanning(s, b) && !ApplyNextStep(s, now, c, worker, term).1.OneApplied?
    ensures var t := ApplyNextStep(s, now, c, worker, term).0;
            PastPlanning(t, b) && t.plans == s.plans && t.rows == s.rows
  {
    IdleApplyTouchesBatches(s, now, c, worker, term);
  }

  lemma ApplyNextKeepsFrozen(s: State, now: int, c: int, worker: string, term: int, b: int)
    requires Frozen(s, b)
    ensures var t := ApplyNextStep(s, now, c, worker, term).0; Frozen(t, b) && SamePlans(s, t, b)
  {
    AppliedIsCommit(s, now, c, worker, term);
    var (t, outcome) := ApplyNextStep(s, now, c, worker, term);
    if outcome.OneApplied? {
      var e: Effect :| e.Effect? && t == Commit(s, c, outcome.plan, e, now + term);
      CommitKeepsFrozen(s, c, outcome.plan, e, now + term, b);
    } else {
      IdleApplyNext(s, now, c, worker, term, b);
      FrozenFrame(s, t, b);
    }
  }

  // Plans and rows stay, and the batch is still past planning.
  ghost predicate Untouched(s: State, t: State, b: int) {
    PastPlanning(t, b) && t.plans == s.plans && t.rows == s.rows
  }

  lemma LeaseStepTouchesNothing(s: State, now: int, c: int, worker: string, term: int, calm: bool, b: int)
    requires PastPlanning(s, b)
    ensures Untouched(s, LeaseReadyStep(s, now, c, worker, term, calm), b)
  {
  }

  lemma RequeueStepTouchesNothing(s: State, now: int, b: int)
    requires PastPlanning(s, b)
    ensures Untouched(s, RequeueStep(s, now), b)
  {
  }

  lemma CreateBatchTouchesNothing(s: State, c: int, mode: Mode, b: int)
    requires PastPlanning(s, b)
    ensures Untouched(s, CreateBatchStep(s, c, mode), b)
  {
  }

  lemma FinishStagingTouchesNothing(s: State, c: int, b: int)
    requires PastPlanning(s, b)
    ensures Untouched(s, FinishStagingStep(s, c), b)
  {
  }

  lemma PromoteTouchesNothing(s: State, c: int, b: int)
    requires PastPlanning(s, b)
    ensures Untouched(s, PromoteStep(s, c), b)
  {
  }

  lemma CompletePlanningTouchesNothing(s: State, planner: int, b: int)
    requires PastPlanning(s, b)
    ensures Untouched(s, CompletePlanningStep(s, planner), b)
  {
  }

  lemma PlannerStepsTouchNothing(s: State, op: Op, b: int)
    requires PastPlanning(s, b) && (op.StartPlanner? || op.ReadPage? || op.StopPlanner?)
    ensures Untouched(s, Step(s, op), b)
  {
    PlannerStepsTouchNoTable(s, op);
  }

  lemma StageKeepsFrozen(s: State, op: Op, b: int)
    requires Frozen(s, b) && op.Stage?
    ensures Frozen(Step(s, op), b) && SamePlans(s, Step(s, op), b)
  {
    FrozenFrame(s, Step(s, op), b);
  }

  lemma OtherStepsKeepFrozen(s: State, op: Op, b: int)
    requires Frozen(s, b) && Usual(op) && !op.Stage? && !op.SaveNext? && !op.ResolveReview? && !op.ApplyNext?
    ensures Frozen(Step(s, op), b) && SamePlans(s, Step(s, op), b)
  {
    match op {
      case LeaseReadyApply(now, c, w, term, calm) => LeaseStepTouchesNothing(s, now, c, w, term, calm, b);
      case RequeueExpired(now) => RequeueStepTouchesNothing(s, now, b);
      case CompletePlanning(planner) => CompletePlanningTouchesNothing(s, planner, b);
      case StartPlanner(_, _) => PlannerStepsTouchNothing(s, op, b);
      case ReadPage(_, _) => PlannerStepsTouchNothing(s, op, b);
      case StopPlanner(_) => PlannerStepsTouchNothing(s, op, b);
      case CreateBatch(c, mode) => CreateBatchTouchesNothing(s, c, mode, b);
      case FinishStaging(c) => FinishStagingTouchesNothing(s, c, b);
      case PromoteDryRun(c) => PromoteTouchesNothing(s, c, b);
    }
    FrozenFrame(s, Step(s, op), b);
  }

  lemma StepKeepsFrozen(s: State, op: Op, b: int)
    requires Sound(s) && Frozen(s, b) && Usual(op)
    ensures Frozen(Step(s, op), b) && SamePlans(s, Step(s, op), b)
  {
    match op
    case Stage(_, _) => StageKeepsFrozen(s, op, b);
    case SaveNext(_, _, _, _, _) => SaveNextKeepsFrozen(s, op, b);
    case ResolveReview(_, _) => ResolveReviewKeepsFrozen(s, op, b);
    case ApplyNext(now, c, w, term) => ApplyNextKeepsFrozen(s, now, c, w, term, b);
    case _ => OtherStepsKeepFrozen(s, op, b);
  }

  lemma SamePlansChain(s: State, t: State, u: State, b: int)
    requires SamePlans(s, t, b) && SamePlans(t, u, b)
    ensures SamePlans(s, u, b)
  {
    forall p | p in s.plans && s.plans[p].batch == b ensures SamePlan(s, u, p) {
      assert SamePlan(s, t, p) && SamePlan(t, u, p);
    }
  }

  lemma LeasedIsFrozen(s: State, b: int)
    requires Sound(s) && b in s.batches && (s.batches[b].status == Applying || s.batches[b].checkpoint > 0)
    ensures Frozen(s, b) && SamePlans(s, s, b)
  {
    assert BatchOk(s, b);
  }

  lemma NextRun(s: State, ops: seq<Op>, more: seq<Op>)
    requires more != []
    ensures Run(s, ops + more) == Step(Run(s, ops + more[..|more| - 1]), more[|more| - 1])
  {
    assert ops + more == ops + more[..|more| - 1] + [more[|more| - 1]];
    RunSnoc(s, ops + more[..|more| - 1], more[|more| - 1]);
  }

  lemma UsualParts(ops: seq<Op>, more: seq<Op>)
    requires AllUsual(ops + more) && more != []
    ensures AllUsual(ops + more[..|more| - 1]) && Usual(more[|more| - 1])
  {
    var rest := ops + more[..|more| - 1];
    forall i | 0 <= i < |rest| ensures Usual(rest[i]) { assert rest[i] == (ops + more)[i]; }
    assert more[|more| - 1] == (ops + more)[|ops + more| - 1];
  }

  /** From the first lease on no plan of the batch appears, disappears or changes: no review turns into work. */
  lemma {:induction false} LeasedPlansAreFrozen(s: State, ops: seq<Op>, more: seq<Op>, b: int)
    requires Initial(s) && AllUsual(ops + more) && b in Run(s, ops).batches
    requires Run(s, ops).batches[b].status == Applying || Run(s, ops).batches[b].checkpoint > 0
    ensures SamePlans(Run(s, ops), Run(s, ops + more), b)
    ensures Frozen(Run(s, ops + more), b)
    decreases |more|
  {
    if more == [] {
      assert ops + more == ops;
      RunIsSound(s, ops);
      LeasedIsFrozen(Run(s, ops), b);
    } else {
      var rest := more[..|more| - 1];
      UsualParts(ops, more);
      LeasedPlansAreFrozen(s, ops, rest, b);
      RunIsSound(s, ops + rest);
      StepKeepsFrozen(Run(s, ops + rest), more[|more| - 1], b);
      NextRun(s, ops, more);
      SamePlansChain(Run(s, ops), Run(s, ops + rest), Run(s, ops + more), b);
    }
  }

  // ---------- counts and index events ----------

  lemma LinkAdded(links: map<SourceId, Link>, id: SourceId, link: Link, place: int)
    requires id !in links
    ensures |LinksTo(links[id := link], place)| == |LinksTo(links, place)| + if link.place == place then 1 else 0
  {
    if link.place == place {
      assert LinksTo(links[id := link], place) == LinksTo(links, place) + {id};
    } else {
      assert LinksTo(links[id := link], place) == LinksTo(links, place);
    }
  }

  lemma EffectKeepsCounted(s: State, p: int)
    requires Counted(s) && p in s.plans && s.plans[p].staging in s.rows && EffectOf(s, p).Effect?
    ensures var e := EffectOf(s, p);
            Counted(s.(links := e.links, orgs := e.orgs, nextPlace := e.nextPlace))
  {
    var e := EffectOf(s, p);
    var t := s.(links := e.links, orgs := e.orgs, nextPlace := e.nextPlace);
    var row := s.rows[s.plans[p].staging];
    forall place | place in t.orgs ensures OrgOk(t, place) {
      if place in s.orgs { assert OrgOk(s, place); }
      if row.id !in s.links && e.links != s.links {
        LinkAdded(s.links, row.id, e.links[row.id], place);
        if place !in s.orgs { assert LinksTo(s.links, place) == {}; }
      } else {
        assert LinksTo(e.links, place) == LinksTo(s.links, place);
      }
    }
  }

  // Whether orgs are counted depends on three fields only.
  lemma CountedFrame(s: State, t: State)
    requires Counted(s) && t.links == s.links && t.orgs == s.orgs && t.nextPlace == s.nextPlace
    ensures Counted(t)
  {
    forall place | place in t.orgs ensures OrgOk(t, place) { assert OrgOk(s, place); }
  }

  lemma ApplyNextKeepsCounted(s: State, now: int, b: int, worker: string, term: int)
    requires Counted(s)
    ensures Counted(ApplyNextStep(s, now, b, worker, term).0)
  {
    var (t, outcome) := ApplyNextStep(s, now, b, worker, term);
    if outcome.OneApplied? {
      NextIsDue(s, b);
      var e := EffectOf(s, outcome.plan);
      EffectKeepsCounted(s, outcome.plan);
      CountedFrame(s.(links := e.links, orgs := e.orgs, nextPlace := e.nextPlace), t);
    } else {
      CountedFrame(s, t);
    }
  }

  // No organization, link or index event changes.
  ghost predicate SameOrgs(s: State, t: State) {
    t.links == s.links && t.orgs == s.orgs && t.nextPlace == s.nextPlace && t.outbox == s.outbox
  }

  lemma StagingSameOrgs(s: State, op: Op)
    requires op.CreateBatch? || op.Stage? || op.FinishStaging? || op.ResolveReview?
    ensures SameOrgs(s, Step(s, op))
  {
  }

  lemma SavePlanSameOrgs(s: State, r: int, action: Action, target: Option<int>, rule: string, review: set<int>)
    ensures SameOrgs(s, SavePlanStep(s, r, action, target, rule, review))
  {
  }

  lemma SaveNextSameOrgs(s: State, planner: int, action: Action, target: Option<int>, rule: string, review: set<int>)
    ensures SameOrgs(s, SaveNextStep(s, planner, action, target, rule, review))
  {
    if planner in s.planners && s.planners[planner].page != [] {
      SavePlanSameOrgs(s, s.planners[planner].page[0], action, target, rule, review);
    }
  }

  lemma LeaseSameOrgs(s: State, op: Op)
    requires op.PromoteDryRun? || op.LeaseReadyApply? || op.BlindLease? || op.RequeueExpired?
    ensures SameOrgs(s, Step(s, op))
  {
  }

  lemma CompletePlanningSameOrgs(s: State, planner: int)
    ensures SameOrgs(s, CompletePlanningStep(s, planner))
  {
  }

  lemma OtherStepsSameOrgs(s: State, op: Op)
    requires !op.ApplyNext?
    ensures SameOrgs(s, Step(s, op))
  {
    match op
    case SaveNext(planner, action, target, rule, review) =>
      SaveNextSameOrgs(s, planner, action, target, rule, review);
    case CompletePlanning(planner) => CompletePlanningSameOrgs(s, planner);
    case CreateBatch(_, _) => StagingSameOrgs(s, op);
    case Stage(_, _) => StagingSameOrgs(s, op);
    case FinishStaging(_) => StagingSameOrgs(s, op);
    case ResolveReview(_, _) => StagingSameOrgs(s, op);
    case StartPlanner(_, _) => PlannerStepsTouchNoTable(s, op);
    case StartUnchecked(_, _) => PlannerStepsTouchNoTable(s, op);
    case ReadPage(_, _) => PlannerStepsTouchNoTable(s, op);
    case StopPlanner(_) => PlannerStepsTouchNoTable(s, op);
    case _ => LeaseSameOrgs(s, op);
  }

  lemma StepKeepsCounted(s: State, op: Op)
    requires Counted(s)
    ensures Counted(Step(s, op))
  {
    if op.ApplyNext? {
      ApplyNextKeepsCounted(s, op.now, op.batch, op.worker, op.term);
    } else {
      OtherStepsSameOrgs(s, op);
      CountedFrame(s, Step(s, op));
    }
  }

  /** In every run each organization's source_count is the number of its source links. */
  lemma {:induction false} SourceCountIsLinks(s: State, ops: seq<Op>)
    requires Initial(s)
    ensures Counted(Run(s, ops))
    decreases |ops|
  {
    if ops != [] {
      SourceCountIsLinks(s, ops[..|ops| - 1]);
      StepKeepsCounted(Run(s, ops[..|ops| - 1]), ops[|ops| - 1]);
    }
  }

  ghost function VersionOf(s: State, place: int): nat {
    if place in s.orgs then s.orgs[place].version else 0
  }

  // Every version reached between s and t has its index event.
  ghost predicate Queued(s: State, t: State, place: int) {
    && VersionOf(s, place) <= VersionOf(t, place) && s.outbox <= t.outbox
    && forall v :: VersionOf(s, place) < v <= VersionOf(t, place) ==> Upsert(place, v) in t.outbox
  }

  lemma NextPlaceIsNew(s: State)
    requires Counted(s)
    ensures s.nextPlace !in s.orgs
  {
    forall place | place in s.orgs ensures place < s.nextPlace { assert OrgOk(s, place); }
  }

  lemma EffectQueues(s: State, p: int, place: int)
    requires Counted(s) && p in s.plans && s.plans[p].staging in s.rows && EffectOf(s, p).Effect?
    ensures var e := EffectOf(s, p);
            var version := if place in e.orgs then e.orgs[place].version else 0;
            version == if e.version > 0 && e.place == place then VersionOf(s, place) + 1 else VersionOf(s, place)
    ensures EffectOf(s, p).version > 0 ==> EffectOf(s, p).version == VersionOf(s, EffectOf(s, p).place) + 1
  {
    NextPlaceIsNew(s);
  }

  lemma ApplyNextQueues(s: State, now: int, b: int, worker: string, term: int, place: int)
    requires Counted(s)
    ensures Queued(s, ApplyNextStep(s, now, b, worker, term).0, place)
  {
    var (t, outcome) := ApplyNextStep(s, now, b, worker, term);
    if outcome.OneApplied? {
      NextIsDue(s, b);
      EffectQueues(s, outcome.plan, place);
    }
  }

  lemma StepQueues(s: State, op: Op, place: int)
    requires Counted(s)
    ensures Queued(s, Step(s, op), place)
  {
    if op.ApplyNext? {
      ApplyNextQueues(s, op.now, op.batch, op.worker, op.term, place);
    } else {
      OtherStepsSameOrgs(s, op);
    }
  }

  /** Every version an organization reaches during a run has an UPSERT event; one created in the run has all of its. */
  lemma {:induction false} EveryVersionIsQueued(s: State, ops: seq<Op>, place: int)
    requires Initial(s)
    ensures Queued(s, Run(s, ops), place)
    decreases |ops|
  {
    if ops != [] {
      var before := Run(s, ops[..|ops| - 1]);
      EveryVersionIsQueued(s, ops[..|ops| - 1], place);
      SourceCountIsLinks(s, ops[..|ops| - 1]);
      StepQueues(before, ops[|ops| - 1], place);
    }
  }

  // ---------- what several sources have said ----------

  ghost predicate Shared(s: State, place: int) {
    place in s.orgs && s.orgs[place].sources >= 2
  }

  // The name and every known detail are still the same.
  ghost predicate KeepsKnown(s: State, t: State, place: int) {
    && place in s.orgs && place in t.orgs && t.orgs[place].sources >= s.orgs[place].sources
    && t.orgs[place].name == s.orgs[place].name
    && forall d :: d in s.orgs[place].details ==>
         d in t.orgs[place].details && t.orgs[place].details[d] == s.orgs[place].details[d]
  }

  lemma EffectKeepsKnown(s: State, p: int, place: int)
    requires Counted(s) && Shared(s, place) && p in s.plans && s.plans[p].staging in s.rows && EffectOf(s, p).Effect?
    ensures KeepsKnown(s, s.(orgs := EffectOf(s, p).orgs), place)
  {
    NextPlaceIsNew(s);
  }

  lemma ApplyNextKeepsKnown(s: State, now: int, b: int, worker: string, term: int, place: int)
    requires Counted(s) && Shared(s, place)
    ensures KeepsKnown(s, ApplyNextStep(s, now, b, worker, term).0, place)
  {
    var (t, outcome) := ApplyNextStep(s, now, b, worker, term);
    if outcome.OneApplied? {
      NextIsDue(s, b);
      EffectKeepsKnown(s, outcome.plan, place);
      assert t.orgs == EffectOf(s, outcome.plan).orgs;
    } else {
      IdleApplyTouchesBatches(s, now, b, worker, term);
    }
  }

  lemma StepKeepsKnown(s: State, op: Op, place: int)
    requires Counted(s) && Shared(s, place)
    ensures KeepsKnown(s, Step(s, op), place)
  {
    if op.ApplyNext? {
      ApplyNextKeepsKnown(s, op.now, op.batch, op.worker, op.term, place);
    } else {
      OtherStepsSameOrgs(s, op);
    }
  }

  /** Once two sources vouch for an organization no import changes its name or a detail it knows: later rows only
      fill what is missing. */
  lemma {:induction false} SharedDetailsAreKept(s: State, ops: seq<Op>, more: seq<Op>, place: int)
    requires Initial(s) && Shared(Run(s, ops), place)
    ensures KeepsKnown(Run(s, ops), Run(s, ops + more), place)
    decreases |more|
  {
    if more == [] {
      assert ops + more == ops;
    } else {
      var rest := more[..|more| - 1];
      SharedDetailsAreKept(s, ops, rest, place);
      SourceCountIsLinks(s, ops + rest);
      NextRun(s, ops, more);
      StepKeepsKnown(Run(s, ops + rest), more[|more| - 1], place);
    }
  }

  // ---------- the planner's decision ----------

  lemma {:induction false} LowestIsPart(among: set<int>, n: nat)
    ensures Lowest(among, n) <= among && |Lowest(among, n)| == if |among| < n then |among| else n
    decreases n
  {
    if n > 0 && among != {} {
      LowestIsPart(among - {Least(among)}, n - 1);
    }
  }

  /** For a row with a name planRow always decides: it creates only when nothing matches, asks for review only among
      two to twenty strong matches, and otherwise names one organization that is linked or matches strongly. */
  lemma PlannerAlwaysDecides(links: map<SourceId, Link>, orgs: map<int, Org>, row: Row)
    requires row.name != ""
    ensures var strong := StrongCandidates(orgs, row);
            && PlanRow(links, orgs, row).Some? && var q := PlanRow(links, orgs, row).value;
            match q.action
            case Create => row.id !in links && strong == {} && q.target.None?
            case Review => row.id !in links && q.review <= strong && 2 <= |q.review| <= 20 && |strong| >= 2 && q.target.None?
            case Noop => row.id in links && q.target == Some(links[row.id].place) && links[row.id].hash == row.hash
            case Update =>
              if row.id in links then q.target == Some(links[row.id].place) && links[row.id].hash != row.hash
              else q.target.Some? && strong == {q.target.value}
            case Reject => false
  {
    var strong := StrongCandidates(orgs, row);
    var found := Lowest(strong, 20);
    LowestIsPart(strong, 20);
    if row.id !in links && |found| == 1 {
      var place := Least(found);
      assert place in strong && found == {place} by { assert |found - {place}| == 0; }
      assert strong == {place} by { assert |strong - {place}| == 0; }
    }
  }
}
