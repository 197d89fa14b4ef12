/** The import as it runs: tables as fields, one method for each transaction, and the planning and applying loops. */
module OrgStore {
  import opened Sets
  import opened Wrappers
  import opened OrgModel
  import opened OrgImport
  import opened OrgPlanners

  // ---------- the progress of a planning run ----------

  // The tables while one planner runs.
  ghost function Beside(s: State, p: Planner): State {
    s.(planners := map[0 := p])
  }

  lemma PageHead(todo: set<int>, n: nat, page: seq<int>)
    requires page != [] && page == Page(todo, n)
    ensures IsLeast(page[0], todo) && n > 0 && page[1..] == Page(todo - {page[0]}, n - 1)
  {
  }

  lemma ReadPageBeside(now: State, b: int, after: int, limit: int)
    ensures var page := Page(WaitingRows(now, b, after), PageSize(limit));
            ReadPageStep(Beside(now, Planner(b, after, [], false)), 0, limit)
            == Beside(now, Planner(b, after, page, page == []))
  {
    assert WaitingRows(Beside(now, Planner(b, after, [], false)), b, after) == WaitingRows(now, b, after);
  }

  lemma Reads(now: State, b: int, after: int, page: seq<int>, limit: int, s: State, ops: seq<Op>)
    requires Run(s, ops) == Beside(now, Planner(b, after, [], false))
    requires page == Page(WaitingRows(now, b, after), PageSize(limit))
    ensures Run(s, ops + [Op.ReadPage(0, limit)]) == Beside(now, Planner(b, after, page, page == []))
  {
    ReadPageBeside(now, b, after, limit);
    RunSnoc(s, ops, Op.ReadPage(0, limit));
  }

  // How the planner began: as its callers begin it when the batch is in PLANNING.
  function Start(s: State, b: int): Op {
    if b in s.batches && s.batches[b].status == Planning then Op.StartPlanner(0, b) else Op.StartUnchecked(0, b)
  }

  lemma Starts(s: State, b: int)
    requires s.planners == map[] && b > 0
    ensures Run(s, [Start(s, b)]) == Beside(s, Planner(b, 0, [], false))
  {
    assert [Start(s, b)][..0] == [];
  }

  // The first operation is the start, and all others are usual.
  ghost predicate IsPlanning(s: State, b: int, ops: seq<Op>) {
    ops != [] && ops[0] == Start(s, b) && AllUsual(ops[1..])
  }

  lemma Stops(now: State, p: Planner, s: State, ops: seq<Op>)
    requires Run(s, ops) == Beside(now, p) && now.planners == map[]
    ensures Run(s, ops + [Op.StopPlanner(0)]) == now
  {
    RunSnoc(s, ops, Op.StopPlanner(0));
  }

  lemma SavePlanBeside(now: State, p: Planner, r: int, q: Proposal)
    ensures SavePlanStep(Beside(now, p), r, q.action, q.target, q.rule, q.review)
            == Beside(SavePlanStep(now, r, q.action, q.target, q.rule, q.review), p)
  {
  }

  lemma SaveNextSaves(s: State, planner: int, q: Proposal)
    requires planner in s.planners && s.planners[planner].page != []
    requires CanSave(s, s.planners[planner].page[0], ByPlanner(q.action, q.target, q.rule))
    ensures var p := s.planners[planner];
            SaveNextStep(s, planner, q.action, q.target, q.rule, q.review)
            == SavePlanStep(s, p.page[0], q.action, q.target, q.rule, q.review)
               .(planners := s.planners[planner := p.(after := p.page[0], page := p.page[1..])])
  {
  }

  lemma Moves(s: State, p: Planner, q: Planner)
    ensures Beside(s, p).(planners := map[0 := p][0 := q]) == Beside(s, q)
  {
    assert map[0 := p][0 := q] == map[0 := q];
  }

  lemma SaveNextBeside(now: State, p: Planner, q: Proposal)
    requires p.page != [] && CanSave(now, p.page[0], ByPlanner(q.action, q.target, q.rule))
    ensures SaveNextStep(Beside(now, p), 0, q.action, q.target, q.rule, q.review)
            == Beside(SavePlanStep(now, p.page[0], q.action, q.target, q.rule, q.review),
                      p.(after := p.page[0], page := p.page[1..]))
  {
    SavePlanBeside(now, p, p.page[0], q);
    SaveNextSaves(Beside(now, p), 0, q);
    var saved := SavePlanStep(now, p.page[0], q.action, q.target, q.rule, q.review);
    Moves(saved, p, p.(after := p.page[0], page := p.page[1..]));
  }

  lemma Saves(now: State, p: Planner, q: Proposal, s: State, ops: seq<Op>)
    requires Run(s, ops) == Beside(now, p) && p.page != []
    requires CanSave(now, p.page[0], ByPlanner(q.action, q.target, q.rule))
    ensures Run(s, ops + [Op.SaveNext(0, q.action, q.target, q.rule, q.review)])
            == Beside(SavePlanStep(now, p.page[0], q.action, q.target, q.rule, q.review),
                      p.(after := p.page[0], page := p.page[1..]))
  {
    SaveNextBeside(now, p, q);
    RunSnoc(s, ops, Op.SaveNext(0, q.action, q.target, q.rule, q.review));
  }

  // The row's plan is the one planRow proposes.
  ghost predicate PlannedAs(s: State, r: int, row: Row) {
    && PlanRow(s.links, s.orgs, row).Some? && r in s.planOf && s.planOf[r] in s.plans
    && var q := PlanRow(s.links, s.orgs, row).value;
    s.plans[s.planOf[r]] == Plan(row.batch, r, q.action, q.target, ByPlanner(q.action, q.target, q.rule), false)
  }

  ghost predicate SameLinks(s: State, t: State) {
    t.links == s.links && t.orgs == s.orgs
  }

  ghost predicate SameBooks(s: State, t: State) {
    SameLinks(s, t) && t.batches == s.batches
  }

  // One waiting row got its plan; the plans of the others stay.
  ghost predicate OnePlanned(s: State, t: State, r: int) {
    && SameBooks(s, t) && r in s.rows && t.rows == s.rows[r := s.rows[r].(state := Scheduled)]
    && PlannedAs(t, r, s.rows[r])
    && forall q :: q in s.planOf && s.planOf[q] in s.plans && q != r ==>
         q in t.planOf && t.planOf[q] == s.planOf[q] && t.planOf[q] in t.plans
         && t.plans[t.planOf[q]] == s.plans[s.planOf[q]]
  }

  // The rows still to plan, those planned, and all rows as they were at the start.
  datatype Backlog = Backlog(todo: set<int>, done: set<int>, was: map<int, Row>)

  ghost predicate DoneRow(s: State, work: Backlog, r: int) {
    r in work.was && PlannedAs(s, r, work.was[r])
  }

  ghost predicate Progress(s: State, b: int, after: int, work: Backlog) {
    && work.todo == WaitingRows(s, b, 0)
    && (forall r :: r in work.todo ==> r > after && r in work.was && s.rows[r] == work.was[r])
    && (forall r {:trigger DoneRow(s, work, r)} :: r in work.done ==> DoneRow(s, work, r))
    && after >= 0 && work.todo !! work.done
  }

  ghost predicate Covers(work: Backlog, left: Backlog) {
    left.was == work.was && left.todo + left.done == work.todo + work.done && left.todo <= work.todo
  }

  lemma OneLess(work: Backlog, left: Backlog, next: Backlog, r: int)
    requires Covers(work, left) && r in left.todo && next == left.(todo := left.todo - {r}, done := left.done + {r})
    ensures Covers(work, next) && next.todo < work.todo
  {
    assert next.todo + next.done == left.todo + left.done;
    assert r !in next.todo && r in work.todo;
  }

  lemma StartOfProgress(s: State, b: int)
    ensures Progress(s, b, 0, Backlog(WaitingRows(s, b, 0), {}, s.rows))
  {
  }

  lemma TodoIsWaiting(s: State, b: int, after: int, work: Backlog)
    requires Progress(s, b, after, work) && after >= 0
    ensures work.todo == WaitingRows(s, b, after)
  {
  }

  lemma FrontIsWaiting(s: State, b: int, after: int, work: Backlog, r: int)
    requires Progress(s, b, after, work) && r in work.todo
    ensures r in s.rows && s.rows[r].state == Valid && r > 0
  {
  }

  lemma ProgressStep(s: State, t: State, b: int, after: int, work: Backlog, r: int)
    requires Progress(s, b, after, work) && r in work.todo && OnePlanned(s, t, r)
    requires forall q :: q in work.todo ==> r <= q
    ensures Progress(t, b, r, work.(todo := work.todo - {r}, done := work.done + {r}))
  {
    var next := work.(todo := work.todo - {r}, done := work.done + {r});
    forall q ensures q in next.todo <==> q in WaitingRows(t, b, 0) {}
    forall q | q in next.done ensures DoneRow(t, next, q) {
      if q != r { assert DoneRow(s, work, q); }
    }
  }

  // Every row that was waiting has the plan planRow proposes for it.
  ghost predicate AllPlanned(s: State, t: State, b: int) {
    forall r {:trigger PlannedAs(t, r, s.rows[r])} :: r in WaitingRows(s, b, 0) ==> PlannedAs(t, r, s.rows[r])
  }

  lemma CompletedStays(s: State, t: State, u: State, b: int)
    requires AllPlanned(s, t, b) && NoValidRow(t, b) && u == t.(batches := u.batches)
    ensures AllPlanned(s, u, b) && NoValidRow(u, b)
  {
    forall r | r in WaitingRows(s, b, 0) ensures PlannedAs(u, r, s.rows[r]) { assert PlannedAs(t, r, s.rows[r]); }
  }

  lemma EndOfProgress(s: State, t: State, b: int, after: int, work: Backlog)
    requires TablesOk(t) && Progress(t, b, after, work) && work.todo == {} && work.was == s.rows
    requires work.done == WaitingRows(s, b, 0)
    ensures NoValidRow(t, b) && AllPlanned(s, t, b)
  {
    forall r | r in t.rows && t.rows[r].batch == b ensures t.rows[r].state != Valid {
      assert RowOk(t, r) && r !in WaitingRows(t, b, 0);
    }
    forall r | r in WaitingRows(s, b, 0) ensures PlannedAs(t, r, s.rows[r]) { assert DoneRow(t, work, r); }
  }

  lemma PlannedBeside(now: State, p: Planner, b: int)
    ensures PlannedStep(Beside(now, p), b) == Beside(PlannedStep(now, b), p)
  {
  }

  lemma CompletesBeside(now: State, b: int, after: int)
    requires now.planners == map[]
    ensures CompletePlanningStep(Beside(now, Planner(b, after, [], true)), 0) == PlannedStep(now, b)
  {
    var p := Planner(b, after, [], true);
    PlannedBeside(now, p, b);
    assert map[0 := p] - {0} == map[];
    assert PlannedStep(now, b).planners == map[];
  }

  lemma Completes(s: State, now: State, b: int, after: int, ops: seq<Op>)
    requires Run(s, ops) == Beside(now, Planner(b, after, [], true)) && now.planners == map[]
    requires TablesOk(now) && NoValidRow(now, b) && AllPlanned(s, now, b)
    ensures var t := PlannedStep(now, b);
            Run(s, ops + [Op.CompletePlanning(0)]) == t && TablesOk(t) && NoValidRow(t, b) && AllPlanned(s, t, b)
  {
    RunSnoc(s, ops, Op.CompletePlanning(0));
    CompletesBeside(now, b, after);
    PlannedKeeps(now, b);
    CompletedStays(s, now, PlannedStep(now, b), b);
  }

  lemma PlanningGoesOn(s: State, b: int, ops: seq<Op>, op: Op)
    requires IsPlanning(s, b, ops) && Usual(op)
    ensures IsPlanning(s, b, ops + [op])
  {
    assert (ops + [op])[1..] == ops[1..] + [op];
  }

  // A planner of a batch in PLANNING takes usual steps only.
  lemma PlanningIsUsual(s: State, b: int, ops: seq<Op>)
    requires IsPlanning(s, b, ops) && b in s.batches && s.batches[b].status == Planning
    ensures AllUsual(ops)
  {
    forall i | 0 <= i < |ops| ensures Usual(ops[i]) { assert i == 0 || ops[i] == ops[1..][i - 1]; }
  }

  // In the middle of a page: n is how many more rows it may hold.
  ghost predicate Midway(now: State, s: State, p: Planner, n: nat, work: Backlog, ops: seq<Op>) {
    && TablesOk(now) && Progress(now, p.batch, p.after, work) && p.page == Page(work.todo, n) && !p.drained
    && Run(s, ops) == Beside(now, p) && IsPlanning(s, p.batch, ops)
  }

  class Repository {
    var batches: map<int, Batch>
    var rows: map<int, Row>
    var plans: map<int, Plan>
    var planOf: map<int, int>
    var candidates: map<int, set<int>>
    var links: map<SourceId, Link>
    var orgs: map<int, Org>
    var outbox: set<Upsert>
    var log: seq<Applied>
    var nextPlan: int
    var nextPlace: int

    // The planner that runs is the method PlanBatch itself.
    function View(): State
      reads this
    {
      State(batches, rows, plans, planOf, candidates, links, orgs, outbox, log, nextPlan, nextPlace, map[])
    }

    constructor (links: map<SourceId, Link>, orgs: map<int, Org>, nextPlace: int)
      requires Counted(State(map[], map[], map[], map[], map[], links, orgs, {}, [], 1, nextPlace, map[]))
      ensures Initial(View()) && this.links == links && this.orgs == orgs
    {
      this.links, this.orgs, this.nextPlace := links, orgs, nextPlace;
      batches, rows, plans, planOf, candidates, outbox, log, nextPlan := map[], map[], map[], map[], map[], {}, [], 1;
      new;
      var s := State(map[], map[], map[], map[], map[], links, orgs, {}, [], 1, nextPlace, map[]);
      forall place | place in orgs ensures OrgOk(View(), place) { assert OrgOk(s, place); }
    }

    // ---------- planning ----------

    method InsertPlan(r: int, proposal: Proposal)
      requires r in rows
      modifies this`plans, this`planOf, this`nextPlan
      ensures nextPlan == old(nextPlan) + 1 && planOf == old(planOf)[r := old(nextPlan)]
      ensures plans == old(plans)[old(nextPlan) := Plan(rows[r].batch, r, proposal.action, proposal.target,
                                                        ByPlanner(proposal.action, proposal.target, proposal.rule), false)]
    {
      var hash := ByPlanner(proposal.action, proposal.target, proposal.rule);
      plans := plans[nextPlan := Plan(rows[r].batch, r, proposal.action, proposal.target, hash, false)];
      planOf := planOf[r := nextPlan];
      nextPlan := nextPlan + 1;
    }

    method SavePlan(r: int, proposal: Proposal) returns (ok: bool)
      modifies this
      ensures View() == SavePlanStep(old(View()), r, proposal.action, proposal.target, proposal.rule, proposal.review)
      ensures ok == old(CanSave(View(), r, ByPlanner(proposal.action, proposal.target, proposal.rule)))
    {
      if r !in rows || (rows[r].state != Valid && rows[r].state != Scheduled) { return false; }
      var hash := ByPlanner(proposal.action, proposal.target, proposal.rule);
      if r in planOf {
        if planOf[r] !in plans || plans[planOf[r]].hash != hash { return false; }
      } else {
        InsertPlan(r, proposal);
      }
      if proposal.action == Review {
        candidates := candidates[r := proposal.review + if r in candidates then candidates[r] else {}];
      }
      rows := rows[r := rows[r].(state := Scheduled)];
      ok := true;
    }

    method CompletePlanning(b: int) returns (ok: bool)
      modifies this`batches
      ensures View() == PlannedStep(old(View()), b)
      ensures ok <==> b in old(batches) && old(batches)[b].status == Planning
    {
      ok := b in batches && batches[b].status == Planning;
      if ok { batches := batches[b := batches[b].(status := Planned)]; }
    }

    // ---------- review, promotion, leases ----------

    method ResolveReview(r: int, d: Decision) returns (ok: bool)
      modifies this`plans, this`candidates, this`rows
      ensures View() == ResolveReviewStep(old(View()), r, d) && ok == old(CanResolve(View(), r, d))
    {
      if r !in planOf || r !in rows || planOf[r] !in plans { return false; }
      var p := planOf[r];
      var plan := plans[p];
      if plan.action != Review || plan.batch !in batches || batches[plan.batch].status != Planned { return false; }
      var target := None;
      if d.Merge? {
        if r !in candidates || d.place !in candidates[r] { return false; }
        target := Some(d.place);
      }
      var action := DecidedAction(d);
      plans := plans[p := plan.(action := action, target := target, hash := ByHand(action, target))];
      candidates := candidates - {r};
      if d.RejectRow? { rows := rows[r := rows[r].(state := Rejected)]; }
      ok := true;
    }

    method PromoteDryRun(b: int) returns (ok: bool)
      modifies this`batches
      ensures View() == PromoteStep(old(View()), b) && ok == old(CanPromote(View(), b))
    {
      ok := b in batches && batches[b].mode == DryRun && batches[b].status == Planned
            && forall p :: p in plans && plans[p].batch == b ==> plans[p].action != Review;
      if ok { batches := batches[b := batches[b].(mode := Apply)]; }
    }

    method LeaseReadyApply(now: int, worker: string, term: int, calm: bool) returns (leased: Option<int>)
      modifies this`batches
      ensures leased.None? ==> View() == old(View())
                               && (worker != "" && term > 0 ==> forall b :: !CanLease(old(View()), b, calm))
      ensures leased.Some? ==> CanLease(old(View()), leased.value, calm)
                               && View() == LeaseReadyStep(old(View()), now, leased.value, worker, term, calm)
    {
      if worker == "" || term <= 0 { return None; }
      ghost var s := View();
      var ready := set b | b in batches && CanLease(View(), b, calm);
      if ready == {} {
        forall b ensures !CanLease(s, b, calm) { assert b !in ready; }
        return None;
      }
      var b := Least(ready);
      batches := batches[b := batches[b].(status := Applying, worker := Some(worker), lease := now + term)];
      leased := Some(b);
    }

    method RequeueExpiredApply(now: int) returns (count: nat)
      modifies this`batches
      ensures View() == RequeueStep(old(View()), now)
      ensures count == old(|set b | b in batches && Expired(batches[b], now)|)
    {
      count := |set b | b in batches && Expired(batches[b], now)|;
      batches := map b | b in batches ::
        if Expired(batches[b], now) then batches[b].(status := Planned, worker := None, lease := 0) else batches[b];
    }

    // ---------- applying ----------

    method ApplyNoop(row: Row) returns (place: int, ok: bool)
      ensures ok == old(OrgModel.ApplyNoop(View(), row)).Effect?
      ensures ok ==> place == OrgModel.ApplyNoop(View(), row).place
    {
      place, ok := 0, row.id in links && links[row.id].hash == row.hash;
      if ok { place := links[row.id].place; }
    }

    // `refused` is the error that ends the transaction without a change.
    method ApplyCreate(row: Row) returns (refused: Option<Outcome>, place: int, version: nat)
      modifies this`links, this`orgs, this`nextPlace
      ensures LoadedAs(OrgModel.ApplyCreate(old(View()), row), refused, place, version)
      ensures refused.Some? ==> View() == old(View())
    {
      refused, place, version := None, 0, 0;
      if row.id in links {
        if links[row.id].hash != row.hash { refused := Some(Conflict); return; }
        place := links[row.id].place;
        return;
      }
      place, version := nextPlace, 1;
      orgs := orgs[place := Org(1, true, 1, row.name, row.details)];
      links := links[row.id := Link(place, row.hash)];
      nextPlace := nextPlace + 1;
    }

    method ApplyUpdate(row: Row, target: int) returns (refused: Option<Outcome>, place: int, version: nat)
      modifies this`links, this`orgs
      ensures LoadedAs(OrgModel.ApplyUpdate(old(View()), row, target), refused, place, version)
      ensures refused.Some? ==> View() == old(View())
    {
      refused, place, version := None, target, 0;
      var linked := row.id in links;
      if linked && links[row.id].place != target { refused := Some(Conflict); return; }
      if linked && links[row.id].hash == row.hash { return; }
      if target !in orgs || !orgs[target].open { refused := Some(NotFound); return; }
      var org := orgs[target];
      var sources := org.sources;
      if !linked { sources := sources + 1; }
      links := links[row.id := Link(target, row.hash)];
      version := org.version + 1;
      if linked && sources <= 1 {
        org := org.(version := version, name := row.name, details := row.details, sources := sources);
      } else {
        org := org.(version := version, details := row.details + org.details, sources := sources);
      }
      orgs := orgs[target := org];
    }

    ghost predicate LoadedAs(e: Effect, refused: Option<Outcome>, place: int, version: nat)
      reads this
    {
      match e
      case Refused(reason) => refused == Some(reason)
      case Effect(l, o, at, v, n) => refused.None? && links == l && orgs == o && nextPlace == n && place == at && version == v
    }

    method Load(p: int) returns (refused: Option<Outcome>, place: int, version: nat)
      requires p in plans && plans[p].staging in rows
      modifies this`links, this`orgs, this`nextPlace
      ensures LoadedAs(EffectOf(old(View()), p), refused, place, version)
      ensures refused.Some? ==> View() == old(View())
    {
      var row := rows[plans[p].staging];
      match plans[p].action {
        case Noop =>
          var ok;
          place, ok := ApplyNoop(row);
          refused, version := (if ok then None else Some(Conflict)), 0;
        case Create =>
          refused, place, version := ApplyCreate(row);
        case Update =>
          if plans[p].target.None? { return Some(Conflict), 0, 0; }
          refused, place, version := ApplyUpdate(row, plans[p].target.value);
        case _ =>
          return Some(Conflict), 0, 0;
      }
    }

    // What the transaction writes after the plan took effect.
    method Record(b: int, p: int, place: int, version: nat, until: int, ghost s: State, ghost e: Effect)
      requires b in batches && p in plans && plans[p].staging in rows
      requires e.Effect? && LoadedAs(e, None, place, version)
      requires View() == s.(links := e.links, orgs := e.orgs, nextPlace := e.nextPlace)
      modifies this`outbox, this`log, this`plans, this`rows, this`batches
      ensures View() == Commit(s, b, p, e, until)
    {
      if version > 0 { outbox := outbox + {Upsert(place, version)}; }
      var r := plans[p].staging;
      log := log + [Applied(b, p, place, plans[p].action)];
      plans := plans[p := plans[p].(applied := true)];
      rows := rows[r := rows[r].(state := Loaded)];
      batches := batches[b := batches[b].(checkpoint := p, appliedCount := batches[b].appliedCount + 1, lease := until)];
    }

    method ApplyNext(now: int, b: int, worker: string, extension: int) returns (outcome: Outcome)
      modifies this
      ensures (View(), outcome) == ApplyNextStep(old(View()), now, b, worker, extension)
    {
      if b <= 0 || worker == "" || extension <= 0 { return Invalid; }
      if !Holds(View(), now, b, worker) { return LeaseLost; }
      var due := Due(View(), b);
      if due == {} {
        if !NoReview(View(), b) { return Conflict; }
        batches := batches[b := batches[b].(status := Done, worker := None, lease := 0,
                                            appliedCount := |AppliedPlans(View(), b)|)];
        return Finished;
      }
      var p := Least(due);
      ghost var s := View();
      var refused, place, version := Load(p);
      if refused.Some? { return refused.value; }
      Record(b, p, place, version, now + extension, s, EffectOf(s, p));
      outcome := OneApplied(p);
    }

    // ---------- the loops ----------

    // The first waiting rows in order of their numbers.
    method RowsForPlanning(b: int, after: int, limit: int) returns (page: seq<int>)
      ensures page == Page(WaitingRows(View(), b, after), PageSize(limit))
    {
      var size := PageSize(limit);
      var left := WaitingRows(View(), b, after);
      ghost var waiting := left;
      page := [];
      while |page| < size && left != {}
        invariant |page| <= size && Page(waiting, size) == page + Page(left, size - |page|)
        decreases left
      {
        var r := Least(left);
        assert Page(left, size - |page|) == [r] + Page(left - {r}, size - |page| - 1);
        page := page + [r];
        left := left - {r};
      }
    }

    method PlanOne(r: int) returns (ok: bool, proposal: Proposal)
      requires TablesOk(View()) && r in rows && rows[r].state == Valid
      modifies this
      ensures ok ==> CanSave(old(View()), r, ByPlanner(proposal.action, proposal.target, proposal.rule))
      ensures ok ==> View() == SavePlanStep(old(View()), r, proposal.action, proposal.target, proposal.rule, proposal.review)
                     && OnePlanned(old(View()), View(), r)
      ensures !ok ==> View() == old(View())
    {
      var decided := PlanRow(links, orgs, rows[r]);
      if decided.None? { return false, Proposal(Review, None, "", {}); }
      proposal := decided.value;
      assert RowOk(View(), r);
      NextPlanIsNew(View());
      ok := SavePlan(r, proposal);
    }

    // One turn of the loop over a page; a failure stops the planner.
    method PlanNext(ghost p: Planner, r: int, ghost n: nat, ghost work: Backlog, ghost s: State, ghost ops: seq<Op>)
      returns (ok: bool, ghost next: Planner, ghost left: Backlog, ghost allOps: seq<Op>)
      requires p.page != [] && p.page[0] == r && Midway(View(), s, p, n, work, ops)
      modifies this
      ensures SameBooks(old(View()), View())
      ensures next == p.(after := r, page := p.page[1..])
      ensures ok ==> n > 0 && Midway(View(), s, next, n - 1, left, allOps)
      ensures ok ==> r in work.todo && left == work.(todo := work.todo - {r}, done := work.done + {r})
      ensures !ok ==> View() == old(View()) && Run(s, allOps) == View() && IsPlanning(s, p.batch, allOps)
    {
      next, left, allOps := p.(after := r, page := p.page[1..]), work, ops;
      ghost var before := View();
      PageHead(work.todo, n, p.page);
      FrontIsWaiting(before, p.batch, p.after, work, r);
      var proposal;
      ok, proposal := PlanOne(r);
      if !ok {
        Stops(before, p, s, ops);
        PlanningGoesOn(s, p.batch, ops, Op.StopPlanner(0));
        allOps := ops + [Op.StopPlanner(0)];
        return;
      }
      SavePlanKeeps(before, r, proposal.action, proposal.target, proposal.rule, proposal.review);
      Saves(before, p, proposal, s, ops);
      ProgressStep(before, View(), p.batch, p.after, work, r);
      ghost var op := Op.SaveNext(0, proposal.action, proposal.target, proposal.rule, proposal.review);
      PlanningGoesOn(s, p.batch, ops, op);
      allOps := ops + [op];
      left := work.(todo := work.todo - {r}, done := work.done + {r});
    }

    method PlanPage(b: int, page: seq<int>, after: int, ghost size: nat, ghost work: Backlog, ghost s: State,
                    ghost ops: seq<Op>)
      returns (ok: bool, last: int, ghost left: Backlog, ghost allOps: seq<Op>)
      requires Midway(View(), s, Planner(b, after, page, false), size, work, ops)
      modifies this
      ensures SameBooks(old(View()), View())
      ensures ok ==> exists n: nat :: Midway(View(), s, Planner(b, last, [], false), n, left, allOps)
      ensures !ok ==> TablesOk(View()) && Run(s, allOps) == View() && IsPlanning(s, b, allOps)
      ensures ok ==> Covers(work, left) && (page != [] ==> left.todo < work.todo)
    {
      ok, last, left, allOps := true, after, work, ops;
      ghost var p := Planner(b, after, page, false);
      for i := 0 to |page|
        invariant SameBooks(old(View()), View()) && p == Planner(b, last, page[i..], false)
        invariant exists n: nat :: Midway(View(), s, p, n, left, allOps)
        invariant Covers(work, left) && (i > 0 ==> left.todo < work.todo)
      {
        ghost var before := left;
        ghost var n: nat :| Midway(View(), s, p, n, left, allOps);
        ok, p, left, allOps := PlanNext(p, page[i], n, left, s, allOps);
        if !ok { return; }
        OneLess(work, before, left, page[i]);
        last := page[i];
      }
    }

    // PlanBatch: every waiting row gets the plan planRow proposes, then planning is complete. It does not look at the
    // status; called for a batch in PLANNING, as its callers do, it takes usual steps.
    method PlanBatch(b: int, pageSize: int) returns (ok: bool, ghost ops: seq<Op>)
      requires TablesOk(View())
      modifies this
      ensures SameLinks(old(View()), View())
      ensures View() == Run(old(View()), ops) && TablesOk(View())
      ensures b > 0 ==> IsPlanning(old(View()), b, ops)
      ensures old(b in batches && batches[b].status == Planning) ==> AllUsual(ops)
      ensures ok ==> b in batches && batches[b].status == Planned && NoValidRow(View(), b)
      ensures ok ==> AllPlanned(old(View()), View(), b)
    {
      ops := [];
      if b <= 0 { return false, ops; }
      var size := PageSize(pageSize);
      ghost var s := View();
      ghost var work := Backlog(WaitingRows(s, b, 0), {}, rows);
      StartOfProgress(s, b);
      Starts(s, b);
      ops := [Start(s, b)];
      var after := 0;
      var page := RowsForPlanning(b, after, size);
      Reads(s, b, after, page, size, s, ops);
      PlanningGoesOn(s, b, ops, Op.ReadPage(0, size));
      ops := ops + [Op.ReadPage(0, size)];
      while page != []
        invariant SameBooks(s, View()) && TablesOk(View()) && IsPlanning(s, b, ops)
        invariant Run(s, ops) == Beside(View(), Planner(b, after, page, page == []))
        invariant Progress(View(), b, after, work) && work.was == s.rows
        invariant work.todo + work.done == WaitingRows(s, b, 0) && page == Page(work.todo, size)
        decreases work.todo
      {
        ok, after, work, ops := PlanPage(b, page, after, size, work, s, ops);
        if !ok {
          if b in s.batches && s.batches[b].status == Planning { PlanningIsUsual(s, b, ops); }
          return;
        }
        TodoIsWaiting(View(), b, after, work);
        page := RowsForPlanning(b, after, size);
        Reads(View(), b, after, page, size, s, ops);
        PlanningGoesOn(s, b, ops, Op.ReadPage(0, size));
        ops := ops + [Op.ReadPage(0, size)];
      }
      EndOfProgress(s, View(), b, after, work);
      Completes(s, View(), b, after, ops);
      PlanningGoesOn(s, b, ops, Op.CompletePlanning(0));
      ops := ops + [Op.CompletePlanning(0)];
      ok := CompletePlanning(b);
      if b in s.batches && s.batches[b].status == Planning { PlanningIsUsual(s, b, ops); }
    }

    // The inner loop of ApplyRunner.Run: apply until the batch is done or an error ends it.
    method Drain(b: int, worker: string, term: int, clock: nat -> int) returns (outcome: Outcome, ghost ops: seq<Op>)
      requires TablesOk(View())
      modifies this
      ensures View() == Run(old(View()), ops) && TablesOk(View())
      ensures !outcome.OneApplied?
      ensures outcome.Finished? ==> b in batches && batches[b].status == Done
      ensures forall i :: 0 <= i < |ops| ==> ops[i].ApplyNext? && ops[i].batch == b && ops[i].worker == worker
    {
      ghost var s := View();
      ops := [];
      var tick := 0;
      outcome := OneApplied(0);
      while outcome.OneApplied?
        invariant TablesOk(View()) && View() == Run(s, ops)
        invariant outcome.Finished? ==> b in batches && batches[b].status == Done
        invariant forall i :: 0 <= i < |ops| ==> ops[i].ApplyNext? && ops[i].batch == b && ops[i].worker == worker
        decreases Due(View(), b), outcome.OneApplied?
      {
        ghost var before := View();
        outcome := ApplyNext(clock(tick), b, worker, term);
        DrainStep(before, clock(tick), b, worker, term, s, ops);
        ops := ops + [Op.ApplyNext(clock(tick), b, worker, term)];
        tick := tick + 1;
      }
    }
  }

  lemma ApplyNextShrinksDue(s: State, now: int, b: int, worker: string, term: int)
    ensures var (t, outcome) := ApplyNextStep(s, now, b, worker, term);
            if outcome.OneApplied? then Due(t, b) < Due(s, b) else Due(t, b) <= Due(s, b)
  {
    var (t, outcome) := ApplyNextStep(s, now, b, worker, term);
    if outcome.OneApplied? {
      NextIsDue(s, b);
      assert outcome.plan in Due(s, b) && outcome.plan !in Due(t, b);
      forall p | p in Due(t, b) ensures p in Due(s, b) {}
    } else {
      forall p | p in Due(t, b) ensures p in Due(s, b) {}
    }
  }

  lemma FinishedIsDone(s: State, now: int, b: int, worker: string, term: int)
    requires ApplyNextStep(s, now, b, worker, term).1.Finished?
    ensures var t := ApplyNextStep(s, now, b, worker, term).0; b in t.batches && t.batches[b].status == Done
  {
  }

  lemma DrainStep(before: State, now: int, b: int, worker: string, term: int, s: State, ops: seq<Op>)
    requires TablesOk(before) && before == Run(s, ops)
    ensures var (t, outcome) := ApplyNextStep(before, now, b, worker, term);
            && TablesOk(t) && t == Run(s, ops + [Op.ApplyNext(now, b, worker, term)])
            && (if outcome.OneApplied? then Due(t, b) < Due(before, b) else Due(t, b) <= Due(before, b))
            && (outcome.Finished? ==> b in t.batches && t.batches[b].status == Done)
  {
    ApplyNextShrinksDue(before, now, b, worker, term);
    ApplyNextKeeps(before, now, b, worker, term);
    if ApplyNextStep(before, now, b, worker, term).1.Finished? { FinishedIsDone(before, now, b, worker, term); }
    RunSnoc(s, ops, Op.ApplyNext(now, b, worker, term));
  }
}
