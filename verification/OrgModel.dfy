/** Tables of the organization import and the transactions that change them. */
module OrgModel {
  import opened Sets
  import opened Wrappers

  datatype SourceId = SourceId(source: string, record: string)

  datatype Detail = City | Category | Phone | Website | AddressText | NormalizedAddress | Latitude | Longitude

  datatype RowState = Valid | Rejected | Scheduled | Loaded

  // A staging row with its normalised name; a missing detail is NULL. Scheduled and Loaded are the states
  // PLANNED and APPLIED.
  datatype Row = Row(batch: int, id: SourceId, hash: string, name: string, details: map<Detail, string>, state: RowState)

  datatype Action = Create | Update | Noop | Review | Reject

  // Hashing is injective: a plan hash is what was hashed.
  datatype PlanHash = ByPlanner(action: Action, target: Option<int>, rule: string) | ByHand(action: Action, target: Option<int>)

  datatype Plan = Plan(batch: int, staging: int, action: Action, target: Option<int>, hash: PlanHash, applied: bool)

  datatype Mode = DryRun | Apply

  datatype Status = Staging | Planning | Planned | Applying | Done

  datatype Batch = Batch(mode: Mode, status: Status, checkpoint: int, worker: Option<string>, lease: int, appliedCount: nat)

  datatype Link = Link(place: int, hash: string)

  // `open` stands for status ACTIVE or REVIEW.
  datatype Org = Org(version: nat, open: bool, sources: nat, name: string, details: map<Detail, string>)

  datatype Upsert = Upsert(place: int, version: nat)

  // An APPLY event.
  datatype Applied = Applied(batch: int, plan: int, place: int, action: Action)

  // A running call of PlanBatch: its cursor, the rest of the page it read, and whether it read an empty page.
  datatype Planner = Planner(batch: int, after: int, page: seq<int>, drained: bool)

  // The tables, and the planners that are running.
  datatype State = State(
    batches: map<int, Batch>, rows: map<int, Row>, plans: map<int, Plan>, planOf: map<int, int>,
    candidates: map<int, set<int>>, links: map<SourceId, Link>, orgs: map<int, Org>, outbox: set<Upsert>,
    log: seq<Applied>, nextPlan: int, nextPlace: int, planners: map<int, Planner>)

  datatype Decision = Merge(place: int) | CreateNew | RejectRow

  datatype Outcome = Finished | OneApplied(plan: int) | LeaseLost | Conflict | NotFound | Invalid

  predicate Work(a: Action) {
    a == Create || a == Update || a == Noop
  }

  predicate NoReview(s: State, b: int) {
    forall p :: p in s.plans && s.plans[p].batch == b ==> s.plans[p].action != Review
  }

  predicate NoValidRow(s: State, b: int) {
    forall r :: r in s.rows && s.rows[r].batch == b ==> s.rows[r].state != Valid
  }

  // ---------- staging and planning ----------

  function CreateBatchStep(s: State, b: int, mode: Mode): State {
    if b in s.batches then s else s.(batches := s.batches[b := Batch(mode, Staging, 0, None, 0, 0)])
  }

  // StageValid or StageRejected of a record not yet staged; a repeat changes nothing.
  function StageStep(s: State, r: int, row: Row): State {
    if row.batch in s.batches && s.batches[row.batch].status == Staging && r !in s.rows && r > 0
       && (row.state == Valid || row.state == Rejected)
    then s.(rows := s.rows[r := row]) else s
  }

  function FinishStagingStep(s: State, b: int): State {
    if b in s.batches && s.batches[b].status == Staging && (exists r :: r in s.rows && s.rows[r].batch == b)
    then s.(batches := s.batches[b := s.batches[b].(status := Planning)]) else s
  }

  // ---------- what the planner decides ----------

  predicate Agree(row: Row, org: Org, d: Detail) {
    d in row.details && d in org.details && row.details[d] == org.details[d]
  }

  predicate IsStrong(row: Row, org: Org) {
    org.open && org.name == row.name
    && (Agree(row, org, Phone) || Agree(row, org, Website) || Agree(row, org, NormalizedAddress))
  }

  function StrongCandidates(orgs: map<int, Org>, row: Row): set<int> {
    set place | place in orgs && IsStrong(row, orgs[place])
  }

  // The lowest n.
  function Lowest(among: set<int>, n: nat): set<int> {
    if n == 0 || among == {} then {} else {Least(among)} + Lowest(among - {Least(among)}, n - 1)
  }

  function StrongRule(row: Row, org: Org): string {
    if row.name == "" || row.name != org.name then ""
    else if Agree(row, org, Phone) then "NAME_PHONE"
    else if Agree(row, org, Website) then "NAME_WEBSITE"
    else if Agree(row, org, NormalizedAddress) then "NAME_ADDRESS"
    else ""
  }

  datatype Proposal = Proposal(action: Action, target: Option<int>, rule: string, review: set<int>)

  // planRow; None is the error of a candidate without a rule.
  function PlanRow(links: map<SourceId, Link>, orgs: map<int, Org>, row: Row): Option<Proposal> {
    if row.id in links then
      var link := links[row.id];
      Some(Proposal(if link.hash == row.hash then Noop else Update, Some(link.place), "SOURCE_IDENTITY", {}))
    else
      var found := Lowest(StrongCandidates(orgs, row), 20);
      if found == {} then Some(Proposal(Create, None, "NO_STRONG_MATCH", {}))
      else if |found| > 1 then Some(Proposal(Review, None, "MULTIPLE_STRONG_MATCHES", found))
      else
        var place := Least(found);
        if place !in orgs || StrongRule(row, orgs[place]) == "" then None
        else Some(Proposal(Update, Some(place), StrongRule(row, orgs[place]), {}))
  }

  // The row is still VALID or PLANNED, and a plan it already has is the same one.
  predicate CanSave(s: State, r: int, hash: PlanHash) {
    && r in s.rows && (s.rows[r].state == Valid || s.rows[r].state == Scheduled)
    && (r in s.planOf ==> s.planOf[r] in s.plans && s.plans[s.planOf[r]].hash == hash)
  }

  function SavePlanStep(s: State, r: int, action: Action, target: Option<int>, rule: string, review: set<int>): State {
    var hash := ByPlanner(action, target, rule);
    if !CanSave(s, r, hash) then s
    else
      var t := s.(rows := s.rows[r := s.rows[r].(state := Scheduled)],
                  candidates := if action != Review then s.candidates
                                else s.candidates[r := review + if r in s.candidates then s.candidates[r] else {}]);
      if r in s.planOf then t
      else t.(plans := s.plans[s.nextPlan := Plan(s.rows[r].batch, r, action, target, hash, false)],
              planOf := s.planOf[r := s.nextPlan], nextPlan := s.nextPlan + 1)
  }

  // ---------- planners ----------

  function WaitingRows(s: State, b: int, after: int): set<int> {
    set r | r in s.rows && s.rows[r].batch == b && s.rows[r].state == Valid && r > after
  }

  // The lowest elements in order, at most n.
  function Page(waiting: set<int>, n: nat): seq<int> {
    if n == 0 || waiting == {} then [] else [Least(waiting)] + Page(waiting - {Least(waiting)}, n - 1)
  }

  function PageSize(limit: int): nat {
    if limit <= 0 || limit > 500 then 100 else limit
  }

  // PlanBatch begins; it does not look at the status.
  function StartUncheckedStep(s: State, planner: int, b: int): State {
    if b > 0 && planner !in s.planners then s.(planners := s.planners[planner := Planner(b, 0, [], false)]) else s
  }

  // Its callers do: they call it for a batch they read as PLANNING.
  function StartPlannerStep(s: State, planner: int, b: int): State {
    if b in s.batches && s.batches[b].status == Planning then StartUncheckedStep(s, planner, b) else s
  }

  predicate NeedsPage(s: State, planner: int) {
    planner in s.planners && s.planners[planner].page == [] && !s.planners[planner].drained
  }

  function ReadPageStep(s: State, planner: int, limit: int): State {
    if !NeedsPage(s, planner) then s
    else
      var p := s.planners[planner];
      var page := Page(WaitingRows(s, p.batch, p.after), PageSize(limit));
      s.(planners := s.planners[planner := p.(page := page, drained := page == [])])
  }

  // SavePlan for the next row of the page, with whatever the planner found out about it before; an error ends it.
  function SaveNextStep(s: State, planner: int, action: Action, target: Option<int>, rule: string, review: set<int>): State {
    if planner !in s.planners || s.planners[planner].page == [] then s
    else
      var p := s.planners[planner];
      var r := p.page[0];
      if !CanSave(s, r, ByPlanner(action, target, rule)) then s.(planners := s.planners - {planner})
      else SavePlanStep(s, r, action, target, rule, review)
        .(planners := s.planners[planner := p.(after := r, page := p.page[1..])])
  }

  // The transaction looks at the status only.
  function PlannedStep(s: State, b: int): State {
    if b in s.batches && s.batches[b].status == Planning
    then s.(batches := s.batches[b := s.batches[b].(status := Planned)]) else s
  }

  // PlanBatch calls CompletePlanning after an empty page and returns.
  function CompletePlanningStep(s: State, planner: int): State {
    if planner in s.planners && s.planners[planner].drained
    then PlannedStep(s, s.planners[planner].batch).(planners := s.planners - {planner}) else s
  }

  // A planner may end at any time, by an error or a crash.
  function StopPlannerStep(s: State, planner: int): State {
    s.(planners := s.planners - {planner})
  }

  // ---------- review and promotion ----------

  function DecidedAction(d: Decision): Action {
    match d
    case Merge(_) => Update
    case CreateNew => Create
    case RejectRow => Reject
  }

  predicate CanResolve(s: State, r: int, d: Decision) {
    && r in s.planOf && r in s.rows && s.planOf[r] in s.plans
    && var p := s.plans[s.planOf[r]];
    && p.action == Review && p.batch in s.batches && s.batches[p.batch].status == Planned
    && (d.Merge? ==> r in s.candidates && d.place in s.candidates[r])
  }

  function ResolveReviewStep(s: State, r: int, d: Decision): State {
    if !CanResolve(s, r, d) then s
    else
      var p := s.planOf[r];
      var action := DecidedAction(d);
      var target := if d.Merge? then Some(d.place) else None;
      s.(plans := s.plans[p := s.plans[p].(action := action, target := target, hash := ByHand(action, target))],
         candidates := s.candidates - {r},
         rows := if d.RejectRow? then s.rows[r := s.rows[r].(state := Rejected)] else s.rows)
  }

  predicate CanPromote(s: State, b: int) {
    b in s.batches && s.batches[b].mode == DryRun && s.batches[b].status == Planned && NoReview(s, b)
  }

  function PromoteStep(s: State, b: int): State {
    if CanPromote(s, b) then s.(batches := s.batches[b := s.batches[b].(mode := Apply)]) else s
  }

  // ---------- leases ----------

  predicate CanLease(s: State, b: int, calm: bool) {
    b in s.batches && s.batches[b].mode == Apply && s.batches[b].status == Planned && calm && NoReview(s, b)
  }

  function Leased(s: State, b: int, worker: string, until: int): State
    requires b in s.batches
  {
    s.(batches := s.batches[b := s.batches[b].(status := Applying, worker := Some(worker), lease := until)])
  }

  // LeaseReadyApply on the batch it picks; `calm` is the check of the resource pressure setting.
  function LeaseReadyStep(s: State, now: int, b: int, worker: string, term: int, calm: bool): State {
    if worker != "" && term > 0 && CanLease(s, b, calm) then Leased(s, b, worker, now + term) else s
  }

  // LeaseApply, which does not look at the plans.
  function LeaseApplyStep(s: State, now: int, b: int, worker: string, term: int): State {
    if worker != "" && term > 0 && b in s.batches && s.batches[b].mode == Apply && s.batches[b].status == Planned
    then Leased(s, b, worker, now + term) else s
  }

  predicate Expired(b: Batch, now: int) {
    b.status == Applying && b.lease < now
  }

  function RequeueStep(s: State, now: int): State {
    s.(batches := map b | b in s.batches ::
      if Expired(s.batches[b], now) then s.batches[b].(status := Planned, worker := None, lease := 0) else s.batches[b])
  }

  // ---------- applying ----------

  predicate Holds(s: State, now: int, b: int, worker: string) {
    && b in s.batches && s.batches[b].mode == Apply && s.batches[b].status == Applying
    && s.batches[b].worker == Some(worker) && s.batches[b].lease > now
  }

  predicate IsDue(s: State, b: int, p: int) {
    && p in s.plans && b in s.batches && s.plans[p].batch == b && s.plans[p].staging in s.rows
    && p > s.batches[b].checkpoint && !s.plans[p].applied && Work(s.plans[p].action)
  }

  function Due(s: State, b: int): set<int> {
    set p | p in s.plans && IsDue(s, b, p)
  }

  // The effect of one plan on links and organizations; version 0 means no new version.
  datatype Effect = Refused(reason: Outcome)
    | Effect(links: map<SourceId, Link>, orgs: map<int, Org>, place: int, version: nat, nextPlace: int)

  function ApplyNoop(s: State, row: Row): Effect {
    if row.id !in s.links || s.links[row.id].hash != row.hash then Refused(Conflict)
    else Effect(s.links, s.orgs, s.links[row.id].place, 0, s.nextPlace)
  }

  function ApplyCreate(s: State, row: Row): Effect {
    if row.id in s.links then
      if s.links[row.id].hash != row.hash then Refused(Conflict)
      else Effect(s.links, s.orgs, s.links[row.id].place, 0, s.nextPlace)
    else
      var place := s.nextPlace;
      Effect(s.links[row.id := Link(place, row.hash)], s.orgs[place := Org(1, true, 1, row.name, row.details)],
             place, 1, place + 1)
  }

  // A second source only fills what is missing; the one source of an organization overwrites it.
  function Merged(org: Org, row: Row, linked: bool, sources: nat): Org {
    if linked && sources <= 1
    then org.(version := org.version + 1, name := row.name, details := row.details, sources := sources)
    else org.(version := org.version + 1, details := row.details + org.details, sources := sources)
  }

  function ApplyUpdate(s: State, row: Row, place: int): Effect {
    var linked := row.id in s.links;
    if linked && s.links[row.id].place != place then Refused(Conflict)
    else if linked && s.links[row.id].hash == row.hash then Effect(s.links, s.orgs, place, 0, s.nextPlace)
    else if place !in s.orgs || !s.orgs[place].open then Refused(NotFound)
    else
      var sources := s.orgs[place].sources + if linked then 0 else 1;
      var org := Merged(s.orgs[place], row, linked, sources);
      Effect(s.links[row.id := Link(place, row.hash)], s.orgs[place := org], place, org.version, s.nextPlace)
  }

  function EffectOf(s: State, p: int): Effect
    requires p in s.plans && s.plans[p].staging in s.rows
  {
    var row := s.rows[s.plans[p].staging];
    match s.plans[p].action
    case Noop => ApplyNoop(s, row)
    case Create => ApplyCreate(s, row)
    case Update =>
      if s.plans[p].target.None? then Refused(Conflict) else ApplyUpdate(s, row, s.plans[p].target.value)
    case _ => Refused(Conflict)
  }

  function Commit(s: State, b: int, p: int, e: Effect, until: int): State
    requires b in s.batches && p in s.plans && s.plans[p].staging in s.rows && e.Effect?
  {
    var plan := s.plans[p];
    var batch := s.batches[b];
    s.(links := e.links, orgs := e.orgs, nextPlace := e.nextPlace,
       outbox := if e.version > 0 then s.outbox + {Upsert(e.place, e.version)} else s.outbox,
       plans := s.plans[p := plan.(applied := true)],
       rows := s.rows[plan.staging := s.rows[plan.staging].(state := Loaded)],
       batches := s.batches[b := batch.(checkpoint := p, appliedCount := batch.appliedCount + 1, lease := until)],
       log := s.log + [Applied(b, p, e.place, plan.action)])
  }

  function AppliedPlans(s: State, b: int): set<int> {
    set p | p in s.plans && s.plans[p].batch == b && s.plans[p].applied
  }

  function ApplyNextStep(s: State, now: int, b: int, worker: string, extension: int): (State, Outcome) {
    if b <= 0 || worker == "" || extension <= 0 then (s, Invalid)
    else if !Holds(s, now, b, worker) then (s, LeaseLost)
    else if Due(s, b) == {} then
      if !NoReview(s, b) then (s, Conflict)
      else (s.(batches := s.batches[b := s.batches[b].(status := Done, worker := None, lease := 0,
                                                       appliedCount := |AppliedPlans(s, b)|)]), Finished)
    else
      var p := Least(Due(s, b));
      var e := EffectOf(s, p);
      if e.Refused? then (s, e.reason) else (Commit(s, b, p, e, now + extension), OneApplied(p))
  }
}
