/** Runs that show the caps of OutboundRuns are exact and that attempts has none. */
module OutboundWitness {
  import opened Wrappers
  import opened OutboundModel
  import Text
  import opened OutboundLog
  import opened OutboundRuns
  import opened OutboundLaws

  const ROW := Recipient(0, "user@example.net", "example.net")

  // What a witness run tracks about its only delivery, number 0; `clock` has passed every
  // instant the row mentions.
  datatype Point = Point(status: Status, attempts: nat, manual: nat, retries: nat, submits: nat, clock: Time)

  predicate RowAt(row: Delivery, p: Point) {
    && row.status == p.status && row.attempts == p.attempts && row.nextAttemptAt <= p.clock
    && (row.leaseUntil.Some? ==> row.leaseUntil.value <= p.clock)
    && (row.submittedAt.Some? ==> row.submittedAt.value <= p.clock)
    && (p.status == Leased ==> row.leaseOwner == Some("w"))
    && (p.status == Dead ==> row.errorCode == Some("SUBMITTED_STALE"))
  }

  ghost predicate Counted(db: Db, p: Point) {
    && |ManualIds(db.events, 0)| == p.manual
    && Count(LogOf(db.history, 0), Retry) == p.retries && Count(LogOf(db.history, 0), Submit) == p.submits
  }

  ghost predicate Solo(db: Db, p: Point) {
    && Consistent(db) && db.deliveries.Keys == {0} && db.suppressions == map[] && db.pressure == map[]
    && RowAt(db.deliveries[0], p) && Counted(db, p)
  }

  lemma Counts(db: Db, row: Delivery, action: Action, attempt: nat, now: Time)
    requires Consistent(db)
    ensures var log, log' := LogOf(db.history, 0), LogOf(Log(db, 0, row, action, attempt, now).history, 0);
            && Count(log', Retry) == Count(log, Retry) + (if action == Retry then 1 else 0)
            && Count(log', Submit) == Count(log, Submit) + (if action == Submit then 1 else 0)
    ensures |ManualIds(Log(db, 0, row, action, attempt, now).events, 0)|
            == |ManualIds(db.events, 0)| + (if action == DeadRetry then 1 else 0)
  {
    var e := Event(0, action, attempt, now);
    LogOfAppend(db.history, e, 0);
    ReplayAppend(LogOf(db.history, 0), e);
    FreshId(db);
    ManualAfterEvent(db.events, |db.history|, e, 0);
  }

  // The only delivery is written with an event.
  lemma LogIsSolo(db: Db, p: Point, row: Delivery, action: Action, attempt: nat, now: Time, q: Point)
    requires Solo(db, p) && RowAt(row, q) && Consistent(Log(db, 0, row, action, attempt, now))
    requires q.manual == p.manual + (if action == DeadRetry then 1 else 0)
    requires q.retries == p.retries + (if action == Retry then 1 else 0)
    requires q.submits == p.submits + (if action == Submit then 1 else 0)
    ensures Solo(Log(db, 0, row, action, attempt, now), q)
  {
    Counts(db, row, action, attempt, now);
  }

  lemma LeaseIs(db: Db, p: Point) returns (row: Delivery)
    requires Solo(db, p) && p.status in {Ready, Retrying} && p.attempts < ATTEMPTS_CAP
    ensures IsPicked(db, p.clock, 1, {}, [0])
    ensures LeaseStep(db, "w", 1, MINUTE, p.clock, [0]) == (Log(db, 0, row, Lease, p.attempts + 1, p.clock), Accepted)
    ensures row == db.deliveries[0].(status := Leased, attempts := p.attempts + 1, leaseOwner := Some("w"),
                                     leaseUntil := Some(p.clock + MINUTE))
  {
    assert Leasable(db, 0, p.clock);
    assert !Blank("w");
    assert [0][..0] == [];
    row := db.deliveries[0].(status := Leased, attempts := p.attempts + 1, leaseOwner := Some("w"),
                             leaseUntil := Some(p.clock + MINUTE));
    var until := LeaseExpiry(MINUTE, p.clock);
    assert LeaseRows(db, [0], "w", until, p.clock) == LeaseRow(LeaseRows(db, [], "w", until, p.clock), 0, "w", until, p.clock);
  }

  lemma LeaseIt(db: Db, p: Point) returns (op: Op)
    requires Solo(db, p) && p.status in {Ready, Retrying} && p.attempts < ATTEMPTS_CAP
    ensures Enabled(db, op) && Solo(Step(db, op), p.(status := Leased, attempts := p.attempts + 1, clock := p.clock + MINUTE))
  {
    op := LeaseBatch("w", 1, MINUTE, {}, [0], p.clock);
    var row := LeaseIs(db, p);
    LeaseRowsKeep(db, [0], "w", LeaseExpiry(MINUTE, p.clock), p.clock);
    LogIsSolo(db, p, row, Lease, p.attempts + 1, p.clock, p.(status := Leased, attempts := p.attempts + 1, clock := p.clock + MINUTE));
  }

  lemma RetryIs(db: Db, p: Point) returns (row: Delivery)
    requires Solo(db, p) && p.status == Leased && p.attempts < MAX_ATTEMPTS
    ensures RetryStep(db, 0, "w", "", p.clock) == (Log(db, 0, row, Retry, p.attempts, p.clock), Accepted)
    ensures row == Released(db.deliveries[0], Retrying).(nextAttemptAt := row.nextAttemptAt, errorCode := None)
  {
    assert !Blank("w");
    row := Released(db.deliveries[0], Retrying).(nextAttemptAt := p.clock + Backoff(p.attempts), errorCode := None);
  }

  lemma RetryIt(db: Db, p: Point) returns (op: Op, clock: Time)
    requires Solo(db, p) && p.status == Leased && p.attempts < MAX_ATTEMPTS
    ensures Enabled(db, op)
    ensures Solo(Step(db, op), p.(status := Retrying, retries := p.retries + 1, clock := clock))
  {
    op := RetryLater(0, "w", "", p.clock);
    var row := RetryIs(db, p);
    clock := if row.nextAttemptAt < p.clock then p.clock else row.nextAttemptAt;
    RetryKeeps(db, 0, "w", "", p.clock);
    LogIsSolo(db, p, row, Retry, p.attempts, p.clock, p.(status := Retrying, retries := p.retries + 1, clock := clock));
  }

  lemma ExpireIt(db: Db, p: Point) returns (op: Op)
    requires Solo(db, p) && p.status == Leased
    ensures Enabled(db, op) && Solo(Step(db, op), p.(status := Retrying, clock := p.clock + 1))
  {
    var now := p.clock + 1;
    assert Explained(db, 0);
    op := RecoverExpired([0], now);
    assert Expired(db, 0, now);
    assert [0][..0] == [];
    assert ExpireRows(db, [0], now) == ExpireRow(ExpireRows(db, [], now), 0, now);
    StepKeeps(db, op);
    LogIsSolo(db, p, Released(db.deliveries[0], Retrying).(nextAttemptAt := now), LeaseExpire, p.attempts, now,
              p.(status := Retrying, clock := now));
  }

  lemma SubmitIs(db: Db, p: Point) returns (row: Delivery)
    requires Solo(db, p) && p.status == Leased
    ensures SubmitStep(db, 0, "w", "queue-id", p.clock) == (Log(db, 0, row, Submit, p.attempts, p.clock), Accepted)
    ensures row == Released(db.deliveries[0], Submitted).(remoteQueueId := Some("queue-id"), submittedAt := Some(p.clock))
  {
    assert !Blank("w");
    row := Released(db.deliveries[0], Submitted).(remoteQueueId := Some("queue-id"), submittedAt := Some(p.clock));
  }

  lemma SubmitIt(db: Db, p: Point) returns (op: Op)
    requires Solo(db, p) && p.status == Leased
    ensures Enabled(db, op) && Solo(Step(db, op), p.(status := Submitted, submits := p.submits + 1))
  {
    op := MarkSubmitted(0, "w", "queue-id", p.clock);
    var row := SubmitIs(db, p);
    SubmitKeeps(db, 0, "w", "queue-id", p.clock);
    LogIsSolo(db, p, row, Submit, p.attempts, p.clock, p.(status := Submitted, submits := p.submits + 1));
  }

  lemma StaleIs(db: Db, p: Point, now: Time)
    requires Solo(db, p) && p.status == Submitted && now == p.clock + 2 * DAY
    ensures Lists([0], (d: nat) => Stale(db, d, now)) && IsDoomed(db, now, Doomed({}, {}, {}))
    ensures MaintainStep(db, now, [0], Doomed({}, {}, {}))
            == Log(db, 0, db.deliveries[0].(status := Dead, errorCode := Some("SUBMITTED_STALE")), Bury, p.attempts, now)
  {
    assert Explained(db, 0);
    assert Stale(db, 0, now);
    assert [0][..0] == [];
    var mid := BuryRows(db, [0], "SUBMITTED_STALE", now);
    assert mid == BuryRow(BuryRows(db, [], "SUBMITTED_STALE", now), 0, "SUBMITTED_STALE", now);
    assert mid.events - {} == mid.events && mid.pressure - {} == mid.pressure && mid.receipts - {} == mid.receipts;
  }

  lemma StaleIt(db: Db, p: Point) returns (op: Op)
    requires Solo(db, p) && p.status == Submitted
    ensures Enabled(db, op) && Solo(Step(db, op), p.(status := Dead, clock := p.clock + 2 * DAY))
  {
    var now, row := p.clock + 2 * DAY, db.deliveries[0].(status := Dead, errorCode := Some("SUBMITTED_STALE"));
    op := Maintain([0], Doomed({}, {}, {}), now);
    StaleIs(db, p, now);
    MaintainKeeps(db, now, [0], Doomed({}, {}, {}));
    LogIsSolo(db, p, row, Bury, p.attempts, now, p.(status := Dead, clock := now));
  }

  lemma ReviveIs(db: Db, p: Point)
    requires Solo(db, p) && p.status == Dead && p.manual < MAX_MANUAL_DEAD_RETRIES
    ensures var row := Released(db.deliveries[0], Retrying)
                       .(attempts := 0, nextAttemptAt := p.clock, errorCode := None, submittedAt := None);
            DeadRetryStep(db, 0, "admin", p.clock) == (Log(db, 0, row, DeadRetry, p.attempts, p.clock), Accepted)
  {
    assert !Blank("admin");
    var code := "SUBMITTED_STALE";
    assert Text.Trim(code) == code && Text.ToUpper(code) == code;
  }

  lemma ReviveIt(db: Db, p: Point) returns (op: Op)
    requires Solo(db, p) && p.status == Dead && p.manual < MAX_MANUAL_DEAD_RETRIES
    ensures Enabled(db, op) && Solo(Step(db, op), p.(status := Retrying, attempts := 0, manual := p.manual + 1))
  {
    op := RetryDeadLetter(0, "admin", p.clock);
    var row := Released(db.deliveries[0], Retrying).(attempts := 0, nextAttemptAt := p.clock, errorCode := None, submittedAt := None);
    ReviveIs(db, p);
    DeadRetryKeeps(db, 0, "admin", p.clock);
    LogIsSolo(db, p, row, DeadRetry, p.attempts, p.clock, p.(status := Retrying, attempts := 0, manual := p.manual + 1));
  }

  lemma {:induction false} Extend(db: Db, ops: seq<Op>, op: Op)
    requires ValidRun(db, ops) && Enabled(Run(db, ops), op)
    ensures ValidRun(db, ops + [op]) && Run(db, ops + [op]) == Step(Run(db, ops), op)
    decreases |ops|
  {
    if ops == [] {
      assert [op][1..] == [];
    } else {
      Extend(Step(db, ops[0]), ops[1..], op);
      assert (ops + [op])[1..] == ops[1..] + [op];
    }
  }

  lemma Start() returns (ops: seq<Op>)
    ensures ValidRun(EMPTY, ops) && Solo(Run(EMPTY, ops), Point(Ready, 0, 0, 0, 0, 0))
  {
    var op := Send(1, [ROW], true, 0);
    assert [ROW][..0] == [];
    assert SendRows(EMPTY, 1, [ROW], 0) == SendRow(SendRows(EMPTY, 1, [], 0), 1, ROW, 0);
    StepKeeps(EMPTY, op);
    assert !HasQueueEvent(EMPTY, 0);
    Counts(EMPTY, Step(EMPTY, op).deliveries[0], Queue, 0, 0);
    ops := [op];
    Extend(EMPTY, [], op);
    assert [] + [op] == ops;
  }

  lemma {:induction false} RetryOften(ops0: seq<Op>, p: Point, n: nat) returns (ops: seq<Op>, clock: Time)
    requires ValidRun(EMPTY, ops0) && Solo(Run(EMPTY, ops0), p) && p.status in {Ready, Retrying} && p.attempts + n <= 7
    ensures ValidRun(EMPTY, ops)
    ensures Solo(Run(EMPTY, ops), p.(status := if n == 0 then p.status else Retrying, attempts := p.attempts + n,
                                     retries := p.retries + n, clock := clock))
    decreases n
  {
    if n == 0 {
      ops, clock := ops0, p.clock;
    } else {
      var op1 := LeaseIt(Run(EMPTY, ops0), p);
      Extend(EMPTY, ops0, op1);
      var q := p.(status := Leased, attempts := p.attempts + 1, clock := p.clock + MINUTE);
      var op2, next := RetryIt(Run(EMPTY, ops0 + [op1]), q);
      Extend(EMPTY, ops0 + [op1], op2);
      ops, clock := RetryOften(ops0 + [op1] + [op2], q.(status := Retrying, retries := q.retries + 1, clock := next), n - 1);
    }
  }

  // Seven retries and a submission that nobody confirms.
  lemma Epoch(ops0: seq<Op>, p: Point) returns (ops: seq<Op>, clock: Time)
    requires ValidRun(EMPTY, ops0) && Solo(Run(EMPTY, ops0), p) && p.status in {Ready, Retrying} && p.attempts == 0
    ensures ValidRun(EMPTY, ops)
    ensures Solo(Run(EMPTY, ops), Point(Dead, 8, p.manual, p.retries + 7, p.submits + 1, clock))
  {
    ops, clock := RetryOften(ops0, p, 7);
    var q := Point(Retrying, 7, p.manual, p.retries + 7, p.submits, clock);
    var op := LeaseIt(Run(EMPTY, ops), q);
    Extend(EMPTY, ops, op);
    ops, q := ops + [op], q.(status := Leased, attempts := 8, clock := q.clock + MINUTE);
    op := SubmitIt(Run(EMPTY, ops), q);
    Extend(EMPTY, ops, op);
    ops, q := ops + [op], q.(status := Submitted, submits := q.submits + 1);
    op := StaleIt(Run(EMPTY, ops), q);
    Extend(EMPTY, ops, op);
    ops, clock := ops + [op], q.clock + 2 * DAY;
  }

  lemma {:induction false} Epochs(n: nat) returns (ops: seq<Op>, clock: Time)
    requires n <= MAX_MANUAL_DEAD_RETRIES
    ensures ValidRun(EMPTY, ops) && Solo(Run(EMPTY, ops), Point(Dead, 8, n, 7 * n + 7, n + 1, clock))
  {
    if n == 0 {
      ops := Start();
      ops, clock := Epoch(ops, Point(Ready, 0, 0, 0, 0, 0));
    } else {
      ops, clock := Epochs(n - 1);
      var p := Point(Dead, 8, n - 1, 7 * n, n, clock);
      var op := ReviveIt(Run(EMPTY, ops), p);
      Extend(EMPTY, ops, op);
      ops, clock := Epoch(ops + [op], p.(status := Retrying, attempts := 0, manual := n));
    }
  }

  /** The three caps are reached together: no smaller ones would be true. */
  lemma CapsAreReached() returns (ops: seq<Op>)
    ensures ValidRun(EMPTY, ops) && 0 in Run(EMPTY, ops).deliveries
    ensures var log := LogOf(Run(EMPTY, ops).history, 0);
            Count(log, DeadRetry) == 3 && Count(log, Submit) == 4 && Count(log, Retry) == 28
  {
    var clock;
    ops, clock := Epochs(3);
    EventCaps(ops, 0);
  }

  /** Leases that expire raise the attempts up to the CHECK of the column, so the cap of OutboundCaps is exact. */
  lemma {:induction false} AttemptsReachTheCap(n: nat) returns (ops: seq<Op>, clock: Time)
    requires n <= ATTEMPTS_CAP
    ensures ValidRun(EMPTY, ops) && 0 in Run(EMPTY, ops).deliveries && Run(EMPTY, ops).deliveries[0].attempts == n
    ensures Solo(Run(EMPTY, ops), Point(if n == 0 then Ready else Retrying, n, 0, 0, 0, clock))
  {
    if n == 0 {
      ops := Start();
      clock := 0;
    } else {
      ops, clock := AttemptsReachTheCap(n - 1);
      var p := Point(if n == 1 then Ready else Retrying, n - 1, 0, 0, 0, clock);
      var op1 := LeaseIt(Run(EMPTY, ops), p);
      Extend(EMPTY, ops, op1);
      var q := p.(status := Leased, attempts := n, clock := clock + MINUTE);
      var op2 := ExpireIt(Run(EMPTY, ops + [op1]), q);
      Extend(EMPTY, ops + [op1], op2);
      ops, clock := ops + [op1] + [op2], q.clock + 1;
    }
  }
}
