/** Two runs that go wrong: a review lost to LeaseApply, and a row left behind by a planner that did not look. */
module OrgScenarios {
  import opened Sets
  import opened Wrappers
  import opened OrgModel
  import opened OrgImport
  import opened OrgLaws
  import opened OrgLeases

  // ---------- a run that loses one ----------

  const TWICE: Row := Row(1, SourceId("s", "1"), "h1", "cafe", map[Phone := "1"], Valid)
  const ONCE: Row := Row(1, SourceId("s", "2"), "h2", "shop", map[], Valid)
  const CAFE: Org := Org(1, true, 1, "cafe", map[Phone := "1"])

  // Two organizations match the first row.
  const EMPTY: State :=
    State(map[], map[], map[], map[], map[], map[SourceId("t", "1") := Link(1, "g1"), SourceId("t", "2") := Link(2, "g2")],
          map[1 := CAFE, 2 := CAFE], {}, [], 1, 3, map[])

  const STAGED: State :=
    EMPTY.(batches := map[1 := Batch(Mode.Apply, Planning, 0, None, 0, 0)], rows := map[1 := TWICE, 2 := ONCE])

  const REVIEWED: Plan := Plan(1, 1, Review, None, ByPlanner(Review, None, "MULTIPLE_STRONG_MATCHES"), false)
  const CREATED: Plan := Plan(1, 2, Create, None, ByPlanner(Create, None, "NO_STRONG_MATCH"), false)

  // What the planner has read, then saved, row by row.
  const READING: State := STAGED.(planners := map[7 := Planner(1, 0, [1, 2], false)])

  const HALFWAY: State := STAGED.(
    rows := map[1 := TWICE.(state := Scheduled), 2 := ONCE], plans := map[1 := REVIEWED], planOf := map[1 := 1],
    candidates := map[1 := {1, 2}], nextPlan := 2, planners := map[7 := Planner(1, 1, [2], false)])

  const SAVED: State := STAGED.(
    rows := map[1 := TWICE.(state := Scheduled), 2 := ONCE.(state := Scheduled)],
    plans := map[1 := REVIEWED, 2 := CREATED], planOf := map[1 := 1, 2 := 2],
    candidates := map[1 := {1, 2}], nextPlan := 3, planners := map[7 := Planner(1, 2, [], false)])

  const PLANNED: State := EMPTY.(
    batches := map[1 := Batch(Mode.Apply, Planned, 0, None, 0, 0)],
    rows := map[1 := TWICE.(state := Scheduled), 2 := ONCE.(state := Scheduled)],
    plans := map[1 := REVIEWED, 2 := CREATED], planOf := map[1 := 1, 2 := 2], candidates := map[1 := {1, 2}], nextPlan := 3)

  // The later plan is applied over the open review.
  const AFTER: State := PLANNED.(
    batches := map[1 := Batch(Mode.Apply, Applying, 2, Some("w"), 61, 1)],
    rows := map[1 := TWICE.(state := Scheduled), 2 := ONCE.(state := Loaded)],
    plans := map[1 := REVIEWED, 2 := CREATED.(applied := true)],
    links := EMPTY.links[SourceId("s", "2") := Link(3, "h2")], orgs := EMPTY.orgs[3 := Org(1, true, 1, "shop", map[])],
    outbox := {Upsert(3, 1)}, nextPlace := 4, log := [Applied(1, 2, 3, Create)])

  lemma EmptyIsInitial()
    ensures Initial(EMPTY)
  {
    assert LinksTo(EMPTY.links, 1) == {SourceId("t", "1")};
    assert LinksTo(EMPTY.links, 2) == {SourceId("t", "2")};
    forall place | place in EMPTY.orgs ensures OrgOk(EMPTY, place) {}
  }

  lemma PlannerAsksForReview()
    ensures PlanRow(EMPTY.links, EMPTY.orgs, TWICE) == Some(Proposal(Review, None, "MULTIPLE_STRONG_MATCHES", {1, 2}))
    ensures PlanRow(EMPTY.links, EMPTY.orgs, ONCE) == Some(Proposal(Create, None, "NO_STRONG_MATCH", {}))
  {
    assert IsStrong(TWICE, CAFE) by { assert Agree(TWICE, CAFE, Phone); }
    var strong := StrongCandidates(EMPTY.orgs, TWICE);
    assert strong == {1, 2};
    LowestIsPart(strong, 20);
    var found := Lowest(strong, 20);
    assert found == strong by { assert |strong - found| == |strong| - |found|; }
    assert StrongCandidates(EMPTY.orgs, ONCE) == {};
  }

  lemma StagingRun() returns (ops: seq<Op>)
    ensures Run(EMPTY, ops) == STAGED
  {
    ops := [Op.CreateBatch(1, Mode.Apply)];
    var s1 := CreateBatchStep(EMPTY, 1, Mode.Apply);
    assert Run(EMPTY, ops) == s1;
    RunSnoc(EMPTY, ops, Op.Stage(1, TWICE));
    ops := ops + [Op.Stage(1, TWICE)];
    RunSnoc(EMPTY, ops, Op.Stage(2, ONCE));
    ops := ops + [Op.Stage(2, ONCE)];
    var s3 := s1.(rows := map[1 := TWICE, 2 := ONCE]);
    assert Run(EMPTY, ops) == s3;
    assert 1 in s3.rows && s3.rows[1].batch == 1;
    RunSnoc(EMPTY, ops, Op.FinishStaging(1));
    ops := ops + [Op.FinishStaging(1)];
  }

  lemma FirstPage(s: State)
    requires s.rows == map[1 := TWICE, 2 := ONCE]
    ensures Page(WaitingRows(s, 1, 0), 100) == [1, 2]
  {
    assert WaitingRows(s, 1, 0) == {1, 2};
    assert Least({1, 2}) == 1 && {1, 2} - {1} == {2} && Least({2}) == 2 && {2} - {2} == {};
    assert Page({2}, 99) == [2] + Page({}, 98);
  }

  // Two steps from a state the run has reached.
  lemma TwoSteps(ops: seq<Op>, s: State, first: Op, t: State, second: Op, u: State) returns (more: seq<Op>)
    requires Run(EMPTY, ops) == s && Step(s, first) == t && Step(t, second) == u
    ensures more == ops + [first] + [second] && Run(EMPTY, more) == u && Run(EMPTY, ops + [first]) == t
  {
    RunSnoc(EMPTY, ops, first);
    RunSnoc(EMPTY, ops + [first], second);
    more := ops + [first] + [second];
  }

  lemma Starts()
    ensures Step(STAGED, Op.StartPlanner(7, 1)) == STAGED.(planners := map[7 := Planner(1, 0, [], false)])
  {
  }

  lemma ReadsFirstPage()
    ensures Step(STAGED.(planners := map[7 := Planner(1, 0, [], false)]), Op.ReadPage(7, 100)) == READING
  {
    FirstPage(STAGED.(planners := map[7 := Planner(1, 0, [], false)]));
  }

  lemma SavesFirstPlan()
    ensures SavePlanStep(READING, 1, Review, None, "MULTIPLE_STRONG_MATCHES", {1, 2})
            == HALFWAY.(planners := READING.planners)
  {
    assert {1, 2} + {} == {1, 2};
  }

  lemma SavesReview()
    ensures Step(READING, Op.SaveNext(7, Review, None, "MULTIPLE_STRONG_MATCHES", {1, 2})) == HALFWAY
  {
    SavesFirstPlan();
    assert [1, 2][1..] == [2];
  }

  lemma SavesSecondPlan()
    ensures SavePlanStep(HALFWAY, 2, Create, None, "NO_STRONG_MATCH", {}) == SAVED.(planners := HALFWAY.planners)
  {
  }

  lemma SavesCreate()
    ensures Step(HALFWAY, Op.SaveNext(7, Create, None, "NO_STRONG_MATCH", {})) == SAVED
  {
    SavesSecondPlan();
    assert [2][1..] == [];
  }

  lemma NoneIsWaiting()
    ensures WaitingRows(SAVED, 1, 2) == {}
  {
    forall r | r in SAVED.rows ensures SAVED.rows[r].state == Scheduled {}
  }

  lemma ReadsEmptyPage()
    ensures Step(SAVED, Op.ReadPage(7, 100)) == SAVED.(planners := map[7 := Planner(1, 2, [], true)])
  {
    NoneIsWaiting();
    ReadsNothing(SAVED, 7, 100);
  }

  lemma ReadsNothing(s: State, planner: int, limit: int)
    requires NeedsPage(s, planner) && WaitingRows(s, s.planners[planner].batch, s.planners[planner].after) == {}
    ensures ReadPageStep(s, planner, limit) == s.(planners := s.planners[planner := s.planners[planner].(drained := true)])
  {
    assert s.planners[planner].(page := [], drained := true) == s.planners[planner].(drained := true);
  }

  lemma Completes()
    ensures Step(SAVED.(planners := map[7 := Planner(1, 2, [], true)]), Op.CompletePlanning(7)) == PLANNED
  {
  }

  lemma PlanningRun(ops: seq<Op>) returns (more: seq<Op>)
    requires Run(EMPTY, ops) == STAGED
    ensures Run(EMPTY, more) == PLANNED
  {
    Starts();
    ReadsFirstPage();
    more := TwoSteps(ops, STAGED, Op.StartPlanner(7, 1), STAGED.(planners := map[7 := Planner(1, 0, [], false)]),
                     Op.ReadPage(7, 100), READING);
    SavesReview();
    SavesCreate();
    more := TwoSteps(more, READING, Op.SaveNext(7, Review, None, "MULTIPLE_STRONG_MATCHES", {1, 2}), HALFWAY,
                     Op.SaveNext(7, Create, None, "NO_STRONG_MATCH", {}), SAVED);
    ReadsEmptyPage();
    Completes();
    more := TwoSteps(more, SAVED, Op.ReadPage(7, 100), SAVED.(planners := map[7 := Planner(1, 2, [], true)]),
                     Op.CompletePlanning(7), PLANNED);
  }

  const LEASED: State := PLANNED.(batches := map[1 := Batch(Mode.Apply, Applying, 0, Some("w"), 60, 0)])

  lemma SecondIsDue()
    ensures Due(LEASED, 1) == {2} && Least(Due(LEASED, 1)) == 2
  {
  }

  lemma AppliesSecond()
    ensures ApplyNextStep(LEASED, 1, 1, "w", 60) == (AFTER, OneApplied(2))
  {
    SecondIsDue();
    var e := EffectOf(LEASED, 2);
    assert e == Effect(AFTER.links, AFTER.orgs, 3, 1, 4);
    var t := Commit(LEASED, 1, 2, e, 61);
    assert t.plans == AFTER.plans && t.rows == AFTER.rows && t.batches == AFTER.batches;
    assert t.outbox == AFTER.outbox && t.log == AFTER.log;
  }

  lemma Leases()
    ensures Step(PLANNED, Op.BlindLease(0, 1, "w", 60)) == LEASED
  {
  }

  lemma Passes()
    ensures Step(LEASED, Op.ApplyNext(1, 1, "w", 60)) == AFTER && Overtakes(LEASED, Op.ApplyNext(1, 1, "w", 60), 1)
  {
    AppliesSecond();
  }

  lemma LeasedBlindly(ops: seq<Op>) returns (more: seq<Op>)
    requires Run(EMPTY, ops) == PLANNED
    ensures Run(EMPTY, more) == AFTER && EverOvertaken(EMPTY, more, 1)
  {
    var lease := Op.BlindLease(0, 1, "w", 60);
    var apply := Op.ApplyNext(1, 1, "w", 60);
    Leases();
    Passes();
    more := TwoSteps(ops, PLANNED, lease, LEASED, apply, AFTER);
    assert more[..|more| - 1] == ops + [lease];
  }

  const REQUEUED: State := AFTER.(batches := map[1 := Batch(Mode.Apply, Planned, 2, None, 0, 1)])

  // The decision, taken too late.
  const DECIDED: State := REQUEUED.(
    plans := map[1 := Plan(1, 1, Create, None, ByHand(Create, None), false), 2 := CREATED.(applied := true)],
    candidates := map[])

  const AGAIN: State := DECIDED.(batches := map[1 := Batch(Mode.Apply, Applying, 2, Some("w"), 161, 1)])

  lemma Requeues()
    ensures Step(AFTER, Op.RequeueExpired(100)) == REQUEUED
  {
  }

  lemma CreatesInstead(s: State, r: int)
    requires CanResolve(s, r, CreateNew)
    ensures var p := s.planOf[r];
            ResolveReviewStep(s, r, CreateNew)
            == s.(plans := s.plans[p := s.plans[p].(action := Create, target := None, hash := ByHand(Create, None))],
                  candidates := s.candidates - {r})
  {
  }

  lemma Decides()
    ensures Step(REQUEUED, Op.ResolveReview(1, CreateNew)) == DECIDED
  {
    assert CanResolve(REQUEUED, 1, CreateNew);
    CreatesInstead(REQUEUED, 1);
    assert map[1 := {1, 2}] - {1} == map[];
  }

  lemma LeasesAgain()
    ensures Step(DECIDED, Op.LeaseReadyApply(101, 1, "w", 60, true)) == AGAIN
  {
  }

  lemma NothingIsDue()
    ensures Due(AGAIN, 1) == {} && AppliedPlans(AGAIN, 1) == {2} && NoReview(AGAIN, 1)
  {
  }

  const FINISHED: State := AGAIN.(batches := map[1 := Batch(Mode.Apply, Done, 2, None, 0, 1)])

  lemma FinishesAt(s: State, now: int, worker: string)
    requires Holds(s, now, 1, worker) && worker != "" && Due(s, 1) == {} && NoReview(s, 1) && |AppliedPlans(s, 1)| == 1
    ensures Step(s, Op.ApplyNext(now, 1, worker, 60))
            == s.(batches := s.batches[1 := s.batches[1].(status := Done, worker := None, lease := 0, appliedCount := 1)])
  {
  }

  lemma Finishes()
    ensures Step(AGAIN, Op.ApplyNext(102, 1, "w", 60)) == FINISHED
  {
    NothingIsDue();
    FinishesAt(AGAIN, 102, "w");
    assert AGAIN.batches[1 := Batch(Mode.Apply, Done, 2, None, 0, 1)] == FINISHED.batches;
  }

  lemma DecidedTooLate(ops: seq<Op>) returns (more: seq<Op>)
    requires Run(EMPTY, ops) == AFTER
    ensures Run(EMPTY, ops + more) == FINISHED
  {
    Requeues();
    Decides();
    var all := TwoSteps(ops, AFTER, Op.RequeueExpired(100), REQUEUED, Op.ResolveReview(1, CreateNew), DECIDED);
    LeasesAgain();
    Finishes();
    all := TwoSteps(all, DECIDED, Op.LeaseReadyApply(101, 1, "w", 60, true), AGAIN, Op.ApplyNext(102, 1, "w", 60), FINISHED);
    more := all[|ops|..];
    assert ops + more == all;
  }

  /** From a database with two equal cafes: the planner asks for a review, LeaseApply takes the batch, the shop after it is
      created, and the decision to create the cafe comes too late: the batch ends DONE without it. */
  lemma BlindLeaseLosesReview() returns (ops: seq<Op>)
    ensures Initial(EMPTY) && EverOvertaken(EMPTY, ops, 1)
    ensures PlanRow(EMPTY.links, EMPTY.orgs, TWICE) == Some(Proposal(Review, None, "MULTIPLE_STRONG_MATCHES", {1, 2}))
    ensures PlanRow(EMPTY.links, EMPTY.orgs, ONCE) == Some(Proposal(Create, None, "NO_STRONG_MATCH", {}))
    ensures var t := Run(EMPTY, ops);
            && 1 in t.plans && t.plans[1].action == Create && !t.plans[1].applied && Times(t.log, 1) == 0
            && 1 in t.batches && t.batches[1].status == Done && t.batches[1].appliedCount == 1
  {
    EmptyIsInitial();
    PlannerAsksForReview();
    ops := StagingRun();
    ops := PlanningRun(ops);
    ops := LeasedBlindly(ops);
    var more := DecidedTooLate(ops);
    OvertakenIsLost(EMPTY, ops, more, 1);
    OvertakenStays(EMPTY, ops, more, 1);
    ops := ops + more;
  }

  // ---------- a planner that did not look ----------

  const OPENED: State := EMPTY.(batches := map[1 := Batch(Mode.Apply, Staging, 0, None, 0, 0)])
  const DRAINED: State := OPENED.(planners := map[7 := Planner(1, 0, [], true)])
  const LATE: State := DRAINED.(rows := map[1 := TWICE])
  const CLOSED: State := LATE.(batches := map[1 := Batch(Mode.Apply, Planning, 0, None, 0, 0)])
  const LEFTOVER: State := CLOSED.(batches := map[1 := Batch(Mode.Apply, Planned, 0, None, 0, 0)], planners := map[])

  lemma DrainsTooEarly()
    ensures Step(OPENED.(planners := map[7 := Planner(1, 0, [], false)]), Op.ReadPage(7, 100)) == DRAINED
  {
    assert WaitingRows(OPENED.(planners := map[7 := Planner(1, 0, [], false)]), 1, 0) == {};
  }

  lemma StagesLate()
    ensures Step(DRAINED, Op.Stage(1, TWICE)) == LATE && Step(LATE, Op.FinishStaging(1)) == CLOSED
  {
    assert 1 in LATE.rows && LATE.rows[1].batch == 1;
  }

  lemma CompletesTooEarly()
    ensures Step(CLOSED, Op.CompletePlanning(7)) == LEFTOVER
  {
  }

  /** PlanBatch without its callers' look at the status: begun while rows were still being staged, it completes the batch
      with a row that has no plan. */
  lemma UncheckedPlannerLeavesRow() returns (ops: seq<Op>)
    ensures Initial(EMPTY)
    ensures var t := Run(EMPTY, ops);
            1 in t.batches && t.batches[1].status == Planned && 1 in t.rows && t.rows[1] == TWICE && 1 !in t.planOf
  {
    EmptyIsInitial();
    ops := [Op.CreateBatch(1, Mode.Apply)];
    assert Run(EMPTY, ops) == OPENED;
    DrainsTooEarly();
    ops := TwoSteps(ops, OPENED, Op.StartUnchecked(7, 1), OPENED.(planners := map[7 := Planner(1, 0, [], false)]),
                    Op.ReadPage(7, 100), DRAINED);
    StagesLate();
    ops := TwoSteps(ops, DRAINED, Op.Stage(1, TWICE), LATE, Op.FinishStaging(1), CLOSED);
    CompletesTooEarly();
    RunSnoc(EMPTY, ops, Op.CompletePlanning(7));
    ops := ops + [Op.CompletePlanning(7)];
  }
}
