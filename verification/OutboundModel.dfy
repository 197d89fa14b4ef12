/** Outbound mail delivery: the tables, the pure classifiers, and one specification
    function per database transaction. */
module OutboundModel {
  import opened Wrappers
  import Text

  // Instants and durations are nanoseconds.
  type Time = int

  const SECOND := 1_000_000_000
  const MINUTE := 60 * SECOND
  const DAY := 24 * 60 * MINUTE

  const MAX_MANUAL_DEAD_RETRIES := 3
  const MAX_ATTEMPTS := 8
  // The CHECK on the attempts column.
  const ATTEMPTS_CAP := 100
  const HARD_BOUNCE_THRESHOLD := 2
  const HARD_BOUNCE_WINDOW := 30 * DAY
  const HARD_BOUNCE_SUPPRESSION_TTL := 30 * DAY
  const PRESSURE_WINDOW := 15 * MINUTE
  const STALE_SUBMITTED_AFTER := DAY
  const GATEWAY_EVENT_RETENTION := 90 * DAY
  const OUTBOUND_EVENT_RETENTION := 180 * DAY
  const PRESSURE_RETENTION := 7 * DAY
  const SUPPRESSED_CODE := "RECIPIENT_SUPPRESSED"

  datatype Status = Ready | Leased | Retrying | Submitted | Delivered | Bounced | Dead

  datatype Action =
    Queue | Lease | LeaseExpire | Retry | Submit | Deliver | Bounce | Bury | DeadRetry | Suppress

  datatype Event = Event(delivery: nat, action: Action, attempt: nat, createdAt: Time)

  // A row of mail_outbound_deliveries joined with its external recipient. `address` is the
  // lower-cased address and stands for its hash; `domain` is the part after the '@'.
  datatype Delivery = Delivery(
    sender: nat, address: string, domain: string,
    status: Status, attempts: nat, nextAttemptAt: Time,
    leaseOwner: Option<string>, leaseUntil: Option<Time>,
    remoteQueueId: Option<string>, submittedAt: Option<Time>, errorCode: Option<string>)

  datatype Suppression = Suppression(count: nat, first: Time, last: Time, until: Option<Time>)

  datatype Pressure = Pressure(
    transient: nat, hard: nat, successes: nat,
    windowStarted: Time, cooldownUntil: Option<Time>, updatedAt: Time)

  datatype CallbackKind = DeliverReport | BounceReport | OtherReport

  datatype Callback = Callback(source: string, delivery: nat, kind: CallbackKind, remote: string, code: string)

  // A mail_gateway_events row that carries a source event id.
  datatype Receipt = Receipt(delivery: nat, kind: CallbackKind, createdAt: Time)

  // `history` is the event log with nothing pruned; only specifications read it. Its indices
  // are the event ids, so `events` holds the rows that are still in the table.
  datatype Db = Db(
    deliveries: map<nat, Delivery>,
    events: map<nat, Event>,
    history: seq<Event>,
    suppressions: map<(nat, string), Suppression>,
    pressure: map<string, Pressure>,
    receipts: map<string, Receipt>)

  const EMPTY := Db(map[], map[], [], map[], map[], map[])

  datatype Reply = Accepted | Duplicate | Invalid | Conflict | NotFound | Forbidden | RateLimited | Mismatch | CheckFailed

  datatype Recipient = Recipient(id: nat, address: string, domain: string)

  // ---------- classifiers ----------

  datatype FailureClass = Unknown | Transient | Hard

  predicate ValidStatusPrefix(code: string) {
    || (|code| >= 3 && '4' <= code[0] <= '5' && Text.IsDigit(code[1]) && Text.IsDigit(code[2]))
    || (|code| >= 5 && (code[0] == '4' || code[0] == '5') && code[1] == '.' && Text.IsDigit(code[2])
        && code[3] == '.' && Text.IsDigit(code[4]))
  }

  function Classify(raw: string): FailureClass {
    var code := Text.Trim(raw);
    if code == "" || !ValidStatusPrefix(code) then Unknown
    else if code[0] == '5' then Hard
    else if code[0] == '4' then Transient
    else Unknown
  }

  predicate RetryableDeadCode(raw: string) {
    var code := Text.ToUpper(Text.Trim(raw));
    || code in {"SUBMITTED_STALE", "MTA_UNAVAILABLE", "MTA_RESPONSE", "MTA_ERROR", "MTA_HTTP_429"}
    || (|code| == 12 && code[..10] == "MTA_HTTP_5" && Text.IsDigit(code[10]) && Text.IsDigit(code[11]))
  }

  function Cooldown(transient: nat): Time {
    if transient >= 10 then 30 * MINUTE
    else if transient >= 6 then 15 * MINUTE
    else if transient >= 3 then 5 * MINUTE
    else 0
  }

  function Pow2(n: int): nat {
    if n <= 0 then 1 else 2 * Pow2(n - 1)
  }

  // One minute doubled per attempt, at most 64 minutes. A leased row has attempts >= 1.
  function Backoff(attempt: nat): Time {
    MINUTE * Pow2(if attempt - 1 < 6 then attempt - 1 else 6)
  }

  function NonBlank(s: string): Option<string> {
    if s == "" then None else Some(s)
  }

  predicate Blank(s: string) {
    Text.Trim(s) == ""
  }

  predicate HasControl(s: string) {
    exists i :: 0 <= i < |s| && (s[i] == '\r' || s[i] == '\n' || s[i] == '\0')
  }

  // ---------- suppression and pressure rows ----------

  predicate SuppressedNow(db: Db, sender: nat, address: string, now: Time) {
    (sender, address) in db.suppressions
    && var until := db.suppressions[(sender, address)].until;
       until.Some? && until.value > now
  }

  // recordHardBounceTx, with the window and the lifetime as parameters.
  function HardBounced(prior: Option<Suppression>, now: Time, window: Time, ttl: Time): Suppression {
    match prior
    case None => Suppression(1, now, now, None)
    case Some(row) =>
      var reset := now - row.last > window;
      var count := if reset then 1 else row.count + 1;
      Suppression(count, if reset then now else row.first, now,
                  if count >= HARD_BOUNCE_THRESHOLD then Some(now + ttl) else None)
  }

  function Lookup<K, V>(m: map<K, V>, k: K): Option<V> {
    if k in m then Some(m[k]) else None
  }

  // recordDomainDeliveryOutcomeTx.
  function Observed(prior: Option<Pressure>, delivered: bool, class_: FailureClass, now: Time): Pressure {
    var row := if prior.Some? then prior.value else Pressure(0, 0, 0, now, None, now);
    var p := if now - row.windowStarted >= PRESSURE_WINDOW || now < row.windowStarted
             then Pressure(0, 0, 0, now,
                           if row.cooldownUntil.Some? && row.cooldownUntil.value <= now then None else row.cooldownUntil, now)
             else row.(updatedAt := now);
    if delivered then p.(successes := p.successes + 1)
    else match class_
         case Transient =>
           var candidate := now + Cooldown(p.transient + 1);
           var extend := Cooldown(p.transient + 1) > 0
                         && (p.cooldownUntil == None || candidate > p.cooldownUntil.value);
           p.(transient := p.transient + 1, cooldownUntil := if extend then Some(candidate) else p.cooldownUntil)
         case Hard => p.(hard := p.hard + 1)
         case Unknown => p
  }

  predicate CoolingDown(db: Db, domain: string, now: Time) {
    domain in db.pressure && db.pressure[domain].cooldownUntil.Some? && db.pressure[domain].cooldownUntil.value > now
  }

  // ---------- the row and log update every transaction is made of ----------

  function Note(db: Db, d: nat, action: Action, attempt: nat, now: Time): Db {
    var e := Event(d, action, attempt, now);
    db.(events := db.events[|db.history| := e], history := db.history + [e])
  }

  function Log(db: Db, d: nat, row: Delivery, action: Action, attempt: nat, now: Time): Db {
    Note(db.(deliveries := db.deliveries[d := row]), d, action, attempt, now)
  }

  function Released(row: Delivery, status: Status): Delivery {
    row.(status := status, leaseOwner := None, leaseUntil := None)
  }

  predicate HoldsLease(db: Db, d: nat, worker: string) {
    d in db.deliveries && db.deliveries[d].status == Leased && db.deliveries[d].leaseOwner == Some(worker)
  }

  // ---------- send ----------

  predicate HasQueueEvent(db: Db, d: nat) {
    exists i :: i in db.events && db.events[i].delivery == d && db.events[i].action == Queue
  }

  function SendRow(db: Db, sender: nat, r: Recipient, now: Time): Db {
    var row := Delivery(sender, r.address, r.domain, Ready, 0, now, None, None, None, None, None);
    var db1 := if r.id in db.deliveries then db else db.(deliveries := db.deliveries[r.id := row]);
    if HasQueueEvent(db, r.id) then db1 else Note(db1, r.id, Queue, 0, now)
  }

  function SendRows(db: Db, sender: nat, rs: seq<Recipient>, now: Time): Db
    decreases |rs|
  {
    if rs == [] then db else SendRow(SendRows(db, sender, rs[..|rs| - 1], now), sender, rs[|rs| - 1], now)
  }

  function SendStep(db: Db, sender: nat, rs: seq<Recipient>, allowed: bool, now: Time): (Db, Reply) {
    if rs != [] && !allowed then (db, Forbidden)
    else if exists i :: 0 <= i < |rs| && SuppressedNow(db, sender, rs[i].address, now) then (db, Conflict)
    else (SendRows(db, sender, rs, now), Accepted)
  }

  // ---------- lease ----------

  predicate Leasable(db: Db, d: nat, now: Time) {
    d in db.deliveries
    && var row := db.deliveries[d];
       row.status in {Ready, Retrying} && row.nextAttemptAt <= now && !CoolingDown(db, row.domain, now)
  }

  function EffectiveLimit(limit: int): nat {
    if limit <= 0 then 20 else if limit > 100 then 100 else limit
  }

  predicate Earlier(db: Db, a: nat, b: nat)
    requires a in db.deliveries && b in db.deliveries
  {
    var (x, y) := (db.deliveries[a].nextAttemptAt, db.deliveries[b].nextAttemptAt);
    x < y || (x == y && a <= b)
  }

  ghost predicate Distinct(ids: seq<nat>) {
    forall i, j :: 0 <= i < j < |ids| ==> ids[i] != ids[j]
  }

  // The answer of the SELECT ... FOR UPDATE SKIP LOCKED LIMIT: the first leasable rows by due
  // time and id among those no other transaction has locked.
  ghost predicate IsPicked(db: Db, now: Time, limit: int, locked: set<nat>, picked: seq<nat>) {
    && Distinct(picked)
    && |picked| <= EffectiveLimit(limit)
    && (forall d :: d in picked ==> Leasable(db, d, now) && d !in locked)
    && (forall d :: Leasable(db, d, now) && d !in locked && d !in picked ==>
          |picked| == EffectiveLimit(limit) && forall p :: p in picked ==> Leasable(db, p, now) && Earlier(db, p, d))
  }

  function LeaseExpiry(lease: Time, now: Time): Time
    requires lease > 0
  {
    now + SECOND * (if lease / SECOND < 1 then 1 else lease / SECOND)
  }

  function LeaseRow(db: Db, d: nat, worker: string, until: Time, now: Time): Db
    requires d in db.deliveries
  {
    var row := db.deliveries[d];
    var a := row.attempts + 1;
    if SuppressedNow(db, row.sender, row.address, now)
    then Log(Note(db, d, Suppress, a, now), d,
             Released(row, Dead).(attempts := a, errorCode := Some(SUPPRESSED_CODE)), Bury, a, now)
    else Log(db, d, row.(status := Leased, attempts := a, leaseOwner := Some(worker), leaseUntil := Some(until)), Lease, a, now)
  }

  function LeaseRows(db: Db, picked: seq<nat>, worker: string, until: Time, now: Time): (out: Db)
    requires forall d :: d in picked ==> d in db.deliveries
    ensures out.deliveries.Keys == db.deliveries.Keys
    decreases |picked|
  {
    if picked == [] then db
    else
      var before := LeaseRows(db, picked[..|picked| - 1], worker, until, now);
      assert picked[|picked| - 1] in picked;
      LeaseRow(before, picked[|picked| - 1], worker, until, now)
  }

  // The bulk UPDATE raises the attempts of every picked row, suppressed or not; one row beyond the CHECK fails it.
  predicate OverCap(db: Db, picked: seq<nat>) {
    exists d :: d in picked && d in db.deliveries && db.deliveries[d].attempts >= ATTEMPTS_CAP
  }

  function LeaseStep(db: Db, worker: string, limit: int, lease: Time, now: Time, picked: seq<nat>): (Db, Reply)
    requires forall d :: d in picked ==> d in db.deliveries
  {
    if Blank(worker) || lease <= 0 then (db, Invalid)
    else if OverCap(db, picked) then (db, CheckFailed)
    else (LeaseRows(db, picked, worker, LeaseExpiry(lease, now), now), Accepted)
  }

  // ---------- lease expiry ----------

  predicate Expired(db: Db, d: nat, now: Time) {
    d in db.deliveries && db.deliveries[d].status == Leased
    && db.deliveries[d].leaseUntil.Some? && db.deliveries[d].leaseUntil.value < now
  }

  function ExpireRow(db: Db, d: nat, now: Time): Db
    requires d in db.deliveries
  {
    var row := db.deliveries[d];
    Log(db, d, Released(row, Retrying).(nextAttemptAt := now), LeaseExpire, row.attempts, now)
  }

  function ExpireRows(db: Db, rows: seq<nat>, now: Time): (out: Db)
    requires forall d :: d in rows ==> d in db.deliveries
    ensures out.deliveries.Keys == db.deliveries.Keys
    decreases |rows|
  {
    if rows == [] then db
    else
      assert rows[|rows| - 1] in rows;
      ExpireRow(ExpireRows(db, rows[..|rows| - 1], now), rows[|rows| - 1], now)
  }

  // ---------- outcomes written by the worker that holds the lease ----------

  function RetryStep(db: Db, d: nat, worker: string, code: string, now: Time): (Db, Reply) {
    if Blank(worker) || |code| > 80 then (db, Invalid)
    else if !HoldsLease(db, d, worker) then (db, Conflict)
    else
      var row := db.deliveries[d];
      var exhausted := row.attempts >= MAX_ATTEMPTS;
      var next := Released(row, if exhausted then Dead else Retrying)
                  .(nextAttemptAt := now + (if exhausted then 0 else Backoff(row.attempts)), errorCode := NonBlank(code));
      (Log(db, d, next, if exhausted then Bury else Retry, row.attempts, now), Accepted)
  }

  function SubmitStep(db: Db, d: nat, worker: string, remote: string, now: Time): (Db, Reply) {
    if Blank(worker) || remote == "" || |remote| > 255 then (db, Invalid)
    else if !HoldsLease(db, d, worker) then (db, Conflict)
    else
      var row := db.deliveries[d];
      (Log(db, d, Released(row, Submitted).(remoteQueueId := Some(remote), submittedAt := Some(now)),
           Submit, row.attempts, now), Accepted)
  }

  function FinishStep(db: Db, d: nat, worker: string, delivered: bool, remote: string, code: string, now: Time): (Db, Reply) {
    if Blank(worker) || |remote| > 255 || |code| > 80 then (db, Invalid)
    else if !HoldsLease(db, d, worker) then (db, Conflict)
    else
      var row := db.deliveries[d];
      if delivered
      then (Log(db, d, Released(row, Delivered).(remoteQueueId := NonBlank(remote)), Deliver, row.attempts, now), Accepted)
      else (Log(db, d, Released(row, Bounced).(errorCode := NonBlank(code)), Bounce, row.attempts, now), Accepted)
  }

  function DeadStep(db: Db, d: nat, worker: string, code: string, now: Time): (Db, Reply) {
    if Blank(worker) || |code| > 80 then (db, Invalid)
    else if !HoldsLease(db, d, worker) then (db, Conflict)
    else
      var row := db.deliveries[d];
      (Log(db, d, Released(row, Dead).(errorCode := NonBlank(code)), Bury, row.attempts, now), Accepted)
  }

  // ---------- callbacks ----------

  ghost predicate InFanout(db: Db, sender: nat, address: string, d: nat) {
    d in db.deliveries && db.deliveries[d].sender == sender && db.deliveries[d].address == address
    && db.deliveries[d].status in {Ready, Retrying}
  }

  function BuryRow(db: Db, d: nat, code: string, now: Time): Db
    requires d in db.deliveries
  {
    var row := db.deliveries[d];
    Log(db, d, row.(status := Dead, errorCode := Some(code)), Bury, row.attempts, now)
  }

  function BuryRows(db: Db, rows: seq<nat>, code: string, now: Time): (out: Db)
    requires forall d :: d in rows ==> d in db.deliveries
    ensures out.deliveries.Keys == db.deliveries.Keys
    decreases |rows|
  {
    if rows == [] then db
    else
      assert rows[|rows| - 1] in rows;
      BuryRow(BuryRows(db, rows[..|rows| - 1], code, now), rows[|rows| - 1], code, now)
  }

  predicate ValidCallback(cb: Callback) {
    16 <= |cb.source| <= 160 && !HasControl(cb.source) && |cb.remote| <= 255 && |cb.code| <= 80 && cb.kind != OtherReport
  }

  function Receive(db: Db, cb: Callback, now: Time): Db {
    db.(receipts := db.receipts[cb.source := Receipt(cb.delivery, cb.kind, now)])
  }

  function Observe(db: Db, domain: string, delivered: bool, class_: FailureClass, now: Time): Db {
    db.(pressure := db.pressure[domain := Observed(Lookup(db.pressure, domain), delivered, class_, now)])
  }

  function DeliverReported(db: Db, cb: Callback, now: Time): Db
    requires cb.delivery in db.deliveries
  {
    var row := db.deliveries[cb.delivery];
    Observe(Log(db, cb.delivery, row.(status := Delivered, errorCode := None), Deliver, row.attempts, now),
            row.domain, true, Unknown, now)
  }

  function BounceReported(db: Db, cb: Callback, now: Time, fanout: seq<nat>): Db
    requires cb.delivery in db.deliveries
    requires forall d :: d in fanout ==> d in db.deliveries
  {
    var row := db.deliveries[cb.delivery];
    var class_ := Classify(cb.code);
    var db1 := Observe(Log(db, cb.delivery, row.(status := Bounced, errorCode := NonBlank(cb.code)), Bounce, row.attempts, now),
                       row.domain, false, class_, now);
    if class_ != Hard then db1
    else
      var key := (row.sender, row.address);
      var hit := HardBounced(Lookup(db1.suppressions, key), now, HARD_BOUNCE_WINDOW, HARD_BOUNCE_SUPPRESSION_TTL);
      var db2 := db1.(suppressions := db1.suppressions[key := hit]);
      if hit.until == None then db2
      else BuryRows(Note(db2, cb.delivery, Suppress, row.attempts, now), fanout, SUPPRESSED_CODE, now)
  }

  function CallbackStep(db: Db, cb: Callback, now: Time, fanout: seq<nat>): (Db, Reply)
    requires forall d :: d in fanout ==> d in db.deliveries
  {
    if !ValidCallback(cb) then (db, Invalid)
    else if cb.source in db.receipts then
      (db, if db.receipts[cb.source].delivery == cb.delivery && db.receipts[cb.source].kind == cb.kind
           then Duplicate else Mismatch)
    else if cb.delivery !in db.deliveries then (db, NotFound)
    else
      var row := db.deliveries[cb.delivery];
      if row.remoteQueueId.Some? && cb.remote != "" && row.remoteQueueId.value != cb.remote then (db, Mismatch)
      else if cb.kind == DeliverReport then
        if row.status == Delivered then (Receive(db, cb, now), Accepted)
        else if row.status != Submitted then (db, Conflict)
        else (Receive(DeliverReported(db, cb, now), cb, now), Accepted)
      else
        if row.status == Bounced then (Receive(db, cb, now), Accepted)
        else if row.status != Submitted && row.status != Delivered then (db, Conflict)
        else (Receive(BounceReported(db, cb, now, fanout), cb, now), Accepted)
  }

  // ---------- manual retry of a dead letter ----------

  function ManualIds(events: map<nat, Event>, d: nat): set<nat> {
    set i | i in events && events[i].delivery == d && events[i].action == DeadRetry
  }

  function DeadRetryStep(db: Db, d: nat, actor: string, now: Time): (Db, Reply) {
    if Blank(actor) || |actor| > 120 || HasControl(actor) then (db, Invalid)
    else if d !in db.deliveries then (db, NotFound)
    else
      var row := db.deliveries[d];
      if row.status != Dead then (db, Conflict)
      else if !RetryableDeadCode(if row.errorCode.Some? then row.errorCode.value else "") then (db, Forbidden)
      else if SuppressedNow(db, row.sender, row.address, now) then (db, Forbidden)
      else if |ManualIds(db.events, d)| >= MAX_MANUAL_DEAD_RETRIES then (db, RateLimited)
      else (Log(db, d, Released(row, Retrying).(attempts := 0, nextAttemptAt := now, errorCode := None, submittedAt := None),
                DeadRetry, row.attempts, now), Accepted)
  }

  // ---------- maintenance ----------

  predicate Stale(db: Db, d: nat, now: Time) {
    d in db.deliveries && db.deliveries[d].status == Submitted
    && db.deliveries[d].submittedAt.Some? && db.deliveries[d].submittedAt.value < now - STALE_SUBMITTED_AFTER
  }

  // What one bounded DELETE may pick: any rows that satisfy its predicate, up to its limit.
  datatype Doomed = Doomed(events: set<nat>, receipts: set<string>, pressure: set<string>)

  ghost predicate IsDoomed(db: Db, now: Time, x: Doomed) {
    && |x.events| <= 5000 && |x.receipts| <= 5000 && |x.pressure| <= 2000
    && (forall i :: i in x.events ==>
          i in db.events && db.events[i].createdAt < now - OUTBOUND_EVENT_RETENTION && db.events[i].action != DeadRetry)
    && (forall k :: k in x.receipts ==> k in db.receipts && db.receipts[k].createdAt < now - GATEWAY_EVENT_RETENTION)
    && (forall k :: k in x.pressure ==>
          k in db.pressure && db.pressure[k].updatedAt < now - PRESSURE_RETENTION
          && (db.pressure[k].cooldownUntil == None || db.pressure[k].cooldownUntil.value <= now))
  }

  function Pruned(db: Db, x: Doomed): Db {
    db.(events := db.events - x.events, receipts := db.receipts - x.receipts, pressure := db.pressure - x.pressure)
  }

  function MaintainStep(db: Db, now: Time, stale: seq<nat>, x: Doomed): Db
    requires forall d :: d in stale ==> d in db.deliveries
  {
    Pruned(BuryRows(db, stale, "SUBMITTED_STALE", now), x)
  }
}
