/** Runs: any interleaving of the transactions of senders, workers, the mail gateway, the
    maintenance job and administrators; and what every run keeps. */
module OutboundRuns {
  import opened Wrappers
  import opened OutboundModel
  import opened OutboundLog

  // `picked`, `rows`, `fanout`, `stale` and `doomed` are the answers of the transaction's queries.
  datatype Op =
    | Send(sender: nat, recipients: seq<Recipient>, allowed: bool, now: Time)
    | LeaseBatch(worker: string, limit: int, lease: Time, locked: set<nat>, picked: seq<nat>, now: Time)
    | RecoverExpired(rows: seq<nat>, now: Time)
    | RetryLater(d: nat, worker: string, code: string, now: Time)
    | MarkSubmitted(d: nat, worker: string, remote: string, now: Time)
    | Finish(d: nat, worker: string, delivered: bool, remote: string, code: string, now: Time)
    | MarkDead(d: nat, worker: string, code: string, now: Time)
    | Report(cb: Callback, fanout: seq<nat>, now: Time)
    | RetryDeadLetter(d: nat, actor: string, now: Time)
    | Maintain(stale: seq<nat>, doomed: Doomed, now: Time)

  ghost predicate Lists(rows: seq<nat>, p: nat -> bool) {
    Distinct(rows) && forall d :: d in rows <==> p(d)
  }

  ghost predicate Enabled(db: Db, op: Op) {
    match op
    case LeaseBatch(_, limit, _, locked, picked, now) => IsPicked(db, now, limit, locked, picked)
    case RecoverExpired(rows, now) => Lists(rows, (d: nat) => Expired(db, d, now))
    case Report(cb, fanout, now) =>
      Lists(fanout, (d: nat) => cb.delivery in db.deliveries
                         && InFanout(db, db.deliveries[cb.delivery].sender, db.deliveries[cb.delivery].address, d))
    case Maintain(stale, doomed, now) => Lists(stale, (d: nat) => Stale(db, d, now)) && IsDoomed(db, now, doomed)
    case _ => true
  }

  ghost function Step(db: Db, op: Op): Db
    requires Enabled(db, op)
  {
    match op
    case Send(sender, rs, allowed, now) => SendStep(db, sender, rs, allowed, now).0
    case LeaseBatch(worker, limit, lease, _, picked, now) => LeaseStep(db, worker, limit, lease, now, picked).0
    case RecoverExpired(rows, now) => ExpireRows(db, rows, now)
    case RetryLater(d, worker, code, now) => RetryStep(db, d, worker, code, now).0
    case MarkSubmitted(d, worker, remote, now) => SubmitStep(db, d, worker, remote, now).0
    case Finish(d, worker, delivered, remote, code, now) => FinishStep(db, d, worker, delivered, remote, code, now).0
    case MarkDead(d, worker, code, now) => DeadStep(db, d, worker, code, now).0
    case Report(cb, fanout, now) => CallbackStep(db, cb, now, fanout).0
    case RetryDeadLetter(d, actor, now) => DeadRetryStep(db, d, actor, now).0
    case Maintain(stale, doomed, now) => MaintainStep(db, now, stale, doomed)
  }

  ghost predicate ValidRun(db: Db, ops: seq<Op>)
    decreases |ops|
  {
    ops == [] || (Enabled(db, ops[0]) && ValidRun(Step(db, ops[0]), ops[1..]))
  }

  ghost function Run(db: Db, ops: seq<Op>): Db
    requires ValidRun(db, ops)
    decreases |ops|
  {
    if ops == [] then db else Run(Step(db, ops[0]), ops[1..])
  }

  // ---------- the log explains the rows ----------

  ghost predicate LeaseFieldsOk(row: Delivery) {
    && (row.status == Leased <==> row.leaseOwner.Some?)
    && (row.leaseOwner.Some? <==> row.leaseUntil.Some?)
    && (row.status == Submitted ==> row.submittedAt.Some?)
  }

  ghost function FoldOf(db: Db, d: nat): Fold
    requires d in db.deliveries
  {
    At(db.deliveries[d].status, db.deliveries[d].attempts, |ManualIds(db.events, d)|)
  }

  ghost predicate Explained(db: Db, d: nat)
    requires d in db.deliveries
  {
    LeaseFieldsOk(db.deliveries[d]) && Replay(LogOf(db.history, d)) == FoldOf(db, d)
  }

  // The table holds some of the events of the complete log, under their own ids.
  ghost predicate EventOk(db: Db, i: nat) {
    && (i in db.events ==> i < |db.history| && db.events[i] == db.history[i])
    && (i < |db.history| ==> db.history[i].delivery in db.deliveries)
  }

  ghost predicate Indexed(db: Db) {
    forall i: nat {:trigger EventOk(db, i)} :: EventOk(db, i)
  }

  ghost predicate Consistent(db: Db) {
    Indexed(db) && forall d {:trigger Explained(db, d)} :: d in db.deliveries ==> Explained(db, d)
  }

  // Rows are never removed or given to another recipient; BOUNCED is final, and DELIVERED can
  // only turn into BOUNCED.
  ghost predicate Onward(a: Delivery, b: Delivery) {
    && SameRecipient(a, b)
    && (a.status == Bounced ==> b.status == Bounced)
    && (a.status == Delivered ==> b.status in {Delivered, Bounced})
  }

  ghost predicate RowAdvances(db: Db, db': Db, d: nat) {
    d in db.deliveries ==> d in db'.deliveries && Onward(db.deliveries[d], db'.deliveries[d])
  }

  ghost predicate Advances(db: Db, db': Db) {
    forall d: nat {:trigger RowAdvances(db, db', d)} :: RowAdvances(db, db', d)
  }

  predicate SameRecipient(a: Delivery, b: Delivery) {
    a.sender == b.sender && a.address == b.address && a.domain == b.domain
  }

  lemma AdvancesTransitive(a: Db, b: Db, c: Db)
    requires Advances(a, b) && Advances(b, c)
    ensures Advances(a, c)
  {
    forall d: nat ensures RowAdvances(a, c, d) {
      assert RowAdvances(a, b, d) && RowAdvances(b, c, d);
    }
  }

  lemma FreshId(db: Db)
    requires Indexed(db)
    ensures |db.history| !in db.events
  {
    assert EventOk(db, |db.history|);
  }

  lemma ManualAfterEvent(events: map<nat, Event>, k: nat, e: Event, d: nat)
    requires k !in events
    ensures |ManualIds(events[k := e], d)| ==
            |ManualIds(events, d)| + (if e.delivery == d && e.action == DeadRetry then 1 else 0)
  {
    var before, after := ManualIds(events, d), ManualIds(events[k := e], d);
    if e.delivery == d && e.action == DeadRetry {
      assert after == before + {k};
    } else {
      assert after == before;
    }
  }

  lemma IndexedAfter(db: Db, d: nat, row: Delivery, action: Action, attempt: nat, now: Time)
    requires Indexed(db)
    ensures Indexed(Log(db, d, row, action, attempt, now)) && |db.history| !in db.events
  {
    FreshId(db);
    forall i: nat ensures EventOk(Log(db, d, row, action, attempt, now), i) {
      assert EventOk(db, i);
    }
  }

  lemma OtherRowExplained(db: Db, db': Db, e: Event, x: nat)
    requires |db.history| !in db.events && x in db.deliveries && Explained(db, x) && e.delivery != x
    requires db'.history == db.history + [e] && db'.events == db.events[|db.history| := e]
    requires x in db'.deliveries && db'.deliveries[x] == db.deliveries[x]
    ensures Explained(db', x)
  {
    LogOfAppend(db.history, e, x);
    ManualAfterEvent(db.events, |db.history|, e, x);
  }

  /** One row update with its event keeps the invariant whenever the event is legal there. */
  lemma LogKeeps(db: Db, d: nat, row: Delivery, action: Action, attempt: nat, now: Time)
    requires Consistent(db) && d in db.deliveries
    requires LeaseFieldsOk(row) && SameRecipient(db.deliveries[d], row)
    requires Next(FoldOf(db, d), Event(d, action, attempt, now))
             == At(row.status, row.attempts, |ManualIds(db.events, d)| + (if action == DeadRetry then 1 else 0))
    ensures Consistent(Log(db, d, row, action, attempt, now))
    ensures Advances(db, Log(db, d, row, action, attempt, now))
  {
    var e := Event(d, action, attempt, now);
    var db' := Log(db, d, row, action, attempt, now);
    assert Explained(db, d);
    IndexedAfter(db, d, row, action, attempt, now);
    LogOfAppend(db.history, e, d);
    ReplayAppend(LogOf(db.history, d), e);
    ManualAfterEvent(db.events, |db.history|, e, d);
    assert Explained(db', d);
    forall x | x in db'.deliveries && x != d
      ensures Explained(db', x)
    {
      assert Explained(db, x);
      OtherRowExplained(db, db', e, x);
    }
  }

  lemma NoteKeeps(db: Db, d: nat, action: Action, attempt: nat, now: Time)
    requires Consistent(db) && d in db.deliveries && action != DeadRetry
    requires Next(FoldOf(db, d), Event(d, action, attempt, now)) == FoldOf(db, d)
    ensures Consistent(Note(db, d, action, attempt, now))
    ensures FoldOf(Note(db, d, action, attempt, now), d) == FoldOf(db, d)
    ensures Advances(db, Note(db, d, action, attempt, now))
  {
    assert Explained(db, d);
    var db' := Note(db, d, action, attempt, now);
    assert Log(db, d, db.deliveries[d], action, attempt, now) == db' by {
      assert db.deliveries[d := db.deliveries[d]] == db.deliveries;
    }
    LogKeeps(db, d, db.deliveries[d], action, attempt, now);
    FreshId(db);
    ManualAfterEvent(db.events, |db.history|, Event(d, action, attempt, now), d);
  }

  // ---------- every transaction keeps the invariant ----------

  lemma NothingLoggedYet(db: Db, d: nat)
    requires Indexed(db) && d !in db.deliveries
    ensures LogOf(db.history, d) == [] && !HasQueueEvent(db, d) && ManualIds(db.events, d) == {}
  {
    forall i: nat ensures i in db.events ==> db.events[i].delivery != d {
      assert EventOk(db, i);
    }
    forall i | 0 <= i < |db.history| ensures db.history[i].delivery != d {
      assert EventOk(db, i);
    }
    LogOfUnknown(db.history, d);
  }

  lemma NewRowExplained(db: Db, db': Db, e: Event)
    requires LogOf(db.history, e.delivery) == [] && ManualIds(db.events, e.delivery) == {}
    requires |db.history| !in db.events && e.action == Queue && e.attempt == 0
    requires db'.history == db.history + [e] && db'.events == db.events[|db.history| := e]
    requires e.delivery in db'.deliveries && LeaseFieldsOk(db'.deliveries[e.delivery])
    requires db'.deliveries[e.delivery].status == Ready && db'.deliveries[e.delivery].attempts == 0
    ensures Explained(db', e.delivery)
  {
    LogOfAppend(db.history, e, e.delivery);
    ReplayAppend([], e);
    ManualAfterEvent(db.events, |db.history|, e, e.delivery);
  }

  lemma NewRowKeeps(db: Db, d: nat, row: Delivery, now: Time)
    requires Consistent(db) && d !in db.deliveries
    requires LeaseFieldsOk(row) && row.status == Ready && row.attempts == 0
    ensures Consistent(Log(db, d, row, Queue, 0, now)) && Advances(db, Log(db, d, row, Queue, 0, now))
  {
    var db' := Log(db, d, row, Queue, 0, now);
    var e := Event(d, Queue, 0, now);
    IndexedAfter(db, d, row, Queue, 0, now);
    assert Explained(db', d) by {
      NothingLoggedYet(db, d);
      NewRowExplained(db, db', e);
    }
    forall x | x in db'.deliveries && x != d
      ensures Explained(db', x)
    {
      assert Explained(db, x);
      OtherRowExplained(db, db', e, x);
    }
  }

  lemma SendRowKeeps(db: Db, sender: nat, r: Recipient, now: Time)
    requires Consistent(db)
    ensures Consistent(SendRow(db, sender, r, now)) && Advances(db, SendRow(db, sender, r, now))
  {
    if r.id !in db.deliveries {
      NothingLoggedYet(db, r.id);
      NewRowKeeps(db, r.id, Delivery(sender, r.address, r.domain, Ready, 0, now, None, None, None, None, None), now);
    } else if !HasQueueEvent(db, r.id) {
      NoteKeeps(db, r.id, Queue, 0, now);
    }
  }

  lemma {:induction false} SendRowsKeep(db: Db, sender: nat, rs: seq<Recipient>, now: Time)
    requires Consistent(db)
    ensures Consistent(SendRows(db, sender, rs, now)) && Advances(db, SendRows(db, sender, rs, now))
    decreases |rs|
  {
    if rs != [] {
      SendRowsKeep(db, sender, rs[..|rs| - 1], now);
      SendRowKeeps(SendRows(db, sender, rs[..|rs| - 1], now), sender, rs[|rs| - 1], now);
      AdvancesTransitive(db, SendRows(db, sender, rs[..|rs| - 1], now), SendRows(db, sender, rs, now));
    }
  }

  lemma SuppressedLeaseKeeps(db: Db, d: nat, now: Time)
    requires Consistent(db) && d in db.deliveries && db.deliveries[d].status in {Ready, Retrying}
    ensures var a := db.deliveries[d].attempts + 1;
            var out := Log(Note(db, d, Suppress, a, now), d,
                           Released(db.deliveries[d], Dead).(attempts := a, errorCode := Some(SUPPRESSED_CODE)), Bury, a, now);
            Consistent(out) && Advances(db, out)
  {
    var row := db.deliveries[d];
    NoteKeeps(db, d, Suppress, row.attempts + 1, now);
    var noted := Note(db, d, Suppress, row.attempts + 1, now);
    LogKeeps(noted, d, Released(row, Dead).(attempts := row.attempts + 1, errorCode := Some(SUPPRESSED_CODE)),
             Bury, row.attempts + 1, now);
    AdvancesTransitive(db, noted, Log(noted, d, Released(row, Dead).(attempts := row.attempts + 1,
                                      errorCode := Some(SUPPRESSED_CODE)), Bury, row.attempts + 1, now));
  }

  lemma LeaseRowKeeps(db: Db, d: nat, worker: string, until: Time, now: Time)
    requires Consistent(db) && d in db.deliveries && db.deliveries[d].status in {Ready, Retrying}
    ensures Consistent(LeaseRow(db, d, worker, until, now)) && Advances(db, LeaseRow(db, d, worker, until, now))
  {
    var row := db.deliveries[d];
    if SuppressedNow(db, row.sender, row.address, now) {
      SuppressedLeaseKeeps(db, d, now);
    } else {
      LogKeeps(db, d, row.(status := Leased, attempts := row.attempts + 1, leaseOwner := Some(worker), leaseUntil := Some(until)),
               Lease, row.attempts + 1, now);
    }
  }

  // The rows of a batch are distinct, so each one is still as the query found it.
  lemma {:induction false} LeaseRowsKeep(db: Db, picked: seq<nat>, worker: string, until: Time, now: Time)
    requires Consistent(db) && Distinct(picked)
    requires forall d :: d in picked ==> d in db.deliveries && db.deliveries[d].status in {Ready, Retrying}
    ensures var out := LeaseRows(db, picked, worker, until, now);
            && Consistent(out) && Advances(db, out)
            && out.suppressions == db.suppressions && out.pressure == db.pressure && out.receipts == db.receipts
            && forall d :: d in db.deliveries && d !in picked ==> out.deliveries[d] == db.deliveries[d]
    decreases |picked|
  {
    if picked != [] {
      var rest, last := picked[..|picked| - 1], picked[|picked| - 1];
      LeaseRowsKeep(db, rest, worker, until, now);
      assert last in picked && last !in rest;
      LeaseRowKeeps(LeaseRows(db, rest, worker, until, now), last, worker, until, now);
      AdvancesTransitive(db, LeaseRows(db, rest, worker, until, now), LeaseRows(db, picked, worker, until, now));
    }
  }

  lemma {:induction false} ExpireRowsKeep(db: Db, rows: seq<nat>, now: Time)
    requires Consistent(db) && Distinct(rows)
    requires forall d :: d in rows ==> d in db.deliveries && db.deliveries[d].status == Leased
    ensures var out := ExpireRows(db, rows, now);
            && Consistent(out) && Advances(db, out)
            && out.suppressions == db.suppressions && out.pressure == db.pressure && out.receipts == db.receipts
            && forall d :: d in db.deliveries && d !in rows ==> out.deliveries[d] == db.deliveries[d]
    decreases |rows|
  {
    if rows != [] {
      var rest, last := rows[..|rows| - 1], rows[|rows| - 1];
      ExpireRowsKeep(db, rest, now);
      assert last in rows && last !in rest;
      var mid := ExpireRows(db, rest, now);
      assert Explained(mid, last);
      LogKeeps(mid, last, Released(mid.deliveries[last], Retrying).(nextAttemptAt := now), LeaseExpire, mid.deliveries[last].attempts, now);
      AdvancesTransitive(db, mid, ExpireRows(db, rows, now));
    }
  }

  lemma {:induction false} BuryRowsFrame(db: Db, rows: seq<nat>, code: string, now: Time)
    requires forall d :: d in rows ==> d in db.deliveries
    ensures var out := BuryRows(db, rows, code, now);
            && out.suppressions == db.suppressions && out.pressure == db.pressure && out.receipts == db.receipts
            && (forall d :: d in db.deliveries && d !in rows ==> out.deliveries[d] == db.deliveries[d])
            && |db.history| <= |out.history|
            && (forall i :: i in db.events && i < |db.history| ==> i in out.events && out.events[i] == db.events[i])
    decreases |rows|
  {
    if rows != [] {
      BuryRowsFrame(db, rows[..|rows| - 1], code, now);
      assert rows[|rows| - 1] in rows;
    }
  }

  lemma {:induction false} BuryRowsKeep(db: Db, rows: seq<nat>, code: string, now: Time)
    requires Consistent(db) && Distinct(rows)
    requires forall d :: d in rows ==> d in db.deliveries && db.deliveries[d].status in {Ready, Retrying, Submitted}
    ensures Consistent(BuryRows(db, rows, code, now)) && Advances(db, BuryRows(db, rows, code, now))
    decreases |rows|
  {
    if rows != [] {
      var rest, last := rows[..|rows| - 1], rows[|rows| - 1];
      BuryRowsKeep(db, rest, code, now);
      BuryRowsFrame(db, rest, code, now);
      assert last in rows && last !in rest;
      var mid := BuryRows(db, rest, code, now);
      assert Explained(mid, last);
      LogKeeps(mid, last, mid.deliveries[last].(status := Dead, errorCode := Some(code)), Bury, mid.deliveries[last].attempts, now);
      AdvancesTransitive(db, mid, BuryRows(db, rows, code, now));
    }
  }

  lemma LeasedHasAttempts(db: Db, d: nat)
    requires Consistent(db) && d in db.deliveries && db.deliveries[d].status == Leased
    ensures db.deliveries[d].attempts >= 1
  {
    assert Explained(db, d);
    AcceptedLogBounds(LogOf(db.history, d));
  }

  lemma RetryKeeps(db: Db, d: nat, worker: string, code: string, now: Time)
    requires Consistent(db)
    ensures Consistent(RetryStep(db, d, worker, code, now).0) && Advances(db, RetryStep(db, d, worker, code, now).0)
  {
    if HoldsLease(db, d, worker) {
      var row := db.deliveries[d];
      var exhausted := row.attempts >= MAX_ATTEMPTS;
      LogKeeps(db, d, Released(row, if exhausted then Dead else Retrying)
               .(nextAttemptAt := now + (if exhausted then 0 else Backoff(row.attempts)), errorCode := NonBlank(code)),
               if exhausted then Bury else Retry, row.attempts, now);
    }
  }

  lemma SubmitKeeps(db: Db, d: nat, worker: string, remote: string, now: Time)
    requires Consistent(db)
    ensures Consistent(SubmitStep(db, d, worker, remote, now).0) && Advances(db, SubmitStep(db, d, worker, remote, now).0)
  {
    if HoldsLease(db, d, worker) {
      var row := db.deliveries[d];
      LogKeeps(db, d, Released(row, Submitted).(remoteQueueId := Some(remote), submittedAt := Some(now)), Submit, row.attempts, now);
    }
  }

  lemma FinishKeeps(db: Db, d: nat, worker: string, delivered: bool, remote: string, code: string, now: Time)
    requires Consistent(db)
    ensures Consistent(FinishStep(db, d, worker, delivered, remote, code, now).0)
    ensures Advances(db, FinishStep(db, d, worker, delivered, remote, code, now).0)
  {
    if HoldsLease(db, d, worker) {
      var row := db.deliveries[d];
      if delivered {
        LogKeeps(db, d, Released(row, Delivered).(remoteQueueId := NonBlank(remote)), Deliver, row.attempts, now);
      } else {
        LogKeeps(db, d, Released(row, Bounced).(errorCode := NonBlank(code)), Bounce, row.attempts, now);
      }
    }
  }

  lemma DeadKeeps(db: Db, d: nat, worker: string, code: string, now: Time)
    requires Consistent(db)
    ensures Consistent(DeadStep(db, d, worker, code, now).0) && Advances(db, DeadStep(db, d, worker, code, now).0)
  {
    if HoldsLease(db, d, worker) {
      var row := db.deliveries[d];
      LogKeeps(db, d, Released(row, Dead).(errorCode := NonBlank(code)), Bury, row.attempts, now);
    }
  }

  lemma DeadRetryKeeps(db: Db, d: nat, actor: string, now: Time)
    requires Consistent(db)
    ensures Consistent(DeadRetryStep(db, d, actor, now).0) && Advances(db, DeadRetryStep(db, d, actor, now).0)
  {
    if DeadRetryStep(db, d, actor, now).1 == Accepted {
      var row := db.deliveries[d];
      LogKeeps(db, d, Released(row, Retrying).(attempts := 0, nextAttemptAt := now, errorCode := None, submittedAt := None),
               DeadRetry, row.attempts, now);
    }
  }

  lemma OtherTablesDoNotMatter(db0: Db, db: Db, db': Db)
    requires Consistent(db) && Advances(db0, db)
    requires db'.deliveries == db.deliveries && db'.events == db.events && db'.history == db.history
    ensures Consistent(db') && Advances(db0, db')
  {
    forall i: nat ensures EventOk(db', i) {
      assert EventOk(db, i);
    }
    forall d | d in db'.deliveries
      ensures Explained(db', d)
    {
      assert Explained(db, d);
    }
    forall d: nat ensures RowAdvances(db0, db', d) {
      assert RowAdvances(db0, db, d);
    }
  }

  // The row of the bounced delivery and the pressure table.
  ghost function BounceLogged(db: Db, cb: Callback, now: Time): Db
    requires cb.delivery in db.deliveries
  {
    var row := db.deliveries[cb.delivery];
    Observe(Log(db, cb.delivery, row.(status := Bounced, errorCode := NonBlank(cb.code)), Bounce, row.attempts, now),
            row.domain, false, Classify(cb.code), now)
  }

  lemma BounceLoggedKeeps(db: Db, cb: Callback, now: Time)
    requires Consistent(db) && cb.delivery in db.deliveries && db.deliveries[cb.delivery].status in {Submitted, Delivered}
    ensures Consistent(BounceLogged(db, cb, now)) && Advances(db, BounceLogged(db, cb, now))
  {
    var d, row := cb.delivery, db.deliveries[cb.delivery];
    assert Explained(db, d);
    var row' := row.(status := Bounced, errorCode := NonBlank(cb.code));
    LogKeeps(db, d, row', Bounce, row.attempts, now);
    OtherTablesDoNotMatter(db, Log(db, d, row', Bounce, row.attempts, now), BounceLogged(db, cb, now));
  }

  lemma SuppressAndBuryKeeps(db: Db, d: nat, fanout: seq<nat>, now: Time)
    requires Consistent(db) && d in db.deliveries && db.deliveries[d].status == Bounced
    requires Distinct(fanout)
    requires forall x :: x in fanout ==> x in db.deliveries && db.deliveries[x].status in {Ready, Retrying}
    ensures var out := BuryRows(Note(db, d, Suppress, db.deliveries[d].attempts, now), fanout, SUPPRESSED_CODE, now);
            Consistent(out) && Advances(db, out)
  {
    var noted := Note(db, d, Suppress, db.deliveries[d].attempts, now);
    NoteKeeps(db, d, Suppress, db.deliveries[d].attempts, now);
    BuryRowsKeep(noted, fanout, SUPPRESSED_CODE, now);
    AdvancesTransitive(db, noted, BuryRows(noted, fanout, SUPPRESSED_CODE, now));
  }

  lemma BounceReportedKeeps(db: Db, cb: Callback, now: Time, fanout: seq<nat>)
    requires Consistent(db) && Enabled(db, Report(cb, fanout, now))
    requires cb.delivery in db.deliveries && db.deliveries[cb.delivery].status in {Submitted, Delivered}
    ensures Consistent(BounceReported(db, cb, now, fanout)) && Advances(db, BounceReported(db, cb, now, fanout))
  {
    var row := db.deliveries[cb.delivery];
    var db1 := BounceLogged(db, cb, now);
    BounceLoggedKeeps(db, cb, now);
    if Classify(cb.code) == Hard {
      var key := (row.sender, row.address);
      var hit := HardBounced(Lookup(db1.suppressions, key), now, HARD_BOUNCE_WINDOW, HARD_BOUNCE_SUPPRESSION_TTL);
      var db2 := db1.(suppressions := db1.suppressions[key := hit]);
      OtherTablesDoNotMatter(db, db1, db2);
      if hit.until != None {
        SuppressAndBuryKeeps(db2, cb.delivery, fanout, now);
        AdvancesTransitive(db, db2, BounceReported(db, cb, now, fanout));
      }
    }
  }

  lemma CallbackKeeps(db: Db, cb: Callback, now: Time, fanout: seq<nat>)
    requires Consistent(db) && Enabled(db, Report(cb, fanout, now))
    ensures Consistent(CallbackStep(db, cb, now, fanout).0) && Advances(db, CallbackStep(db, cb, now, fanout).0)
  {
    if CallbackStep(db, cb, now, fanout).1 == Accepted {
      var row := db.deliveries[cb.delivery];
      if cb.kind == DeliverReport && row.status == Submitted {
        assert Explained(db, cb.delivery);
        var logged := Log(db, cb.delivery, row.(status := Delivered, errorCode := None), Deliver, row.attempts, now);
        LogKeeps(db, cb.delivery, row.(status := Delivered, errorCode := None), Deliver, row.attempts, now);
        OtherTablesDoNotMatter(db, logged, Receive(DeliverReported(db, cb, now), cb, now));
      } else if cb.kind == BounceReport && row.status != Bounced {
        BounceReportedKeeps(db, cb, now, fanout);
        OtherTablesDoNotMatter(db, BounceReported(db, cb, now, fanout), Receive(BounceReported(db, cb, now, fanout), cb, now));
      } else {
        OtherTablesDoNotMatter(db, db, Receive(db, cb, now));
      }
    }
  }

  // Pruning keeps every DEAD_RETRY event, so the manual retry count never falls.
  lemma PrunedKeeps(db0: Db, db: Db, x: Doomed)
    requires Consistent(db) && Advances(db0, db)
    requires forall i :: i in x.events && i in db.events ==> db.events[i].action != DeadRetry
    ensures Consistent(Pruned(db, x)) && Advances(db0, Pruned(db, x))
  {
    var db' := Pruned(db, x);
    forall i: nat ensures EventOk(db', i) {
      assert EventOk(db, i);
    }
    forall d | d in db'.deliveries
      ensures Explained(db', d)
    {
      assert Explained(db, d);
      assert ManualIds(db'.events, d) == ManualIds(db.events, d);
    }
    forall d: nat ensures RowAdvances(db0, db', d) {
      assert RowAdvances(db0, db, d);
    }
  }

  lemma MaintainKeeps(db: Db, now: Time, stale: seq<nat>, x: Doomed)
    requires Consistent(db) && Enabled(db, Maintain(stale, x, now))
    ensures Consistent(MaintainStep(db, now, stale, x)) && Advances(db, MaintainStep(db, now, stale, x))
  {
    BuryRowsKeep(db, stale, "SUBMITTED_STALE", now);
    var mid := BuryRows(db, stale, "SUBMITTED_STALE", now);
    forall i | i in x.events && i in mid.events ensures mid.events[i].action != DeadRetry {
      assert EventOk(db, i);
      BuryRowsFrame(db, stale, "SUBMITTED_STALE", now);
    }
    PrunedKeeps(db, mid, x);
  }

  /** Every transaction of every actor keeps the log and the rows in agreement. */
  lemma StepKeeps(db: Db, op: Op)
    requires Consistent(db) && Enabled(db, op)
    ensures Consistent(Step(db, op)) && Advances(db, Step(db, op))
  {
    match op
    case Send(sender, rs, allowed, now) => SendRowsKeep(db, sender, rs, now);
    case LeaseBatch(worker, limit, lease, _, picked, now) =>
      if !Blank(worker) && lease > 0 {
        LeaseRowsKeep(db, picked, worker, LeaseExpiry(lease, now), now);
      }
    case RecoverExpired(rows, now) => ExpireRowsKeep(db, rows, now);
    case Report(cb, fanout, now) => CallbackKeeps(db, cb, now, fanout);
    case RetryDeadLetter(d, actor, now) => DeadRetryKeeps(db, d, actor, now);
    case Maintain(stale, doomed, now) => MaintainKeeps(db, now, stale, doomed);
    case RetryLater(d, worker, code, now) => RetryKeeps(db, d, worker, code, now);
    case MarkSubmitted(d, worker, remote, now) => SubmitKeeps(db, d, worker, remote, now);
    case Finish(d, worker, delivered, remote, code, now) => FinishKeeps(db, d, worker, delivered, remote, code, now);
    case MarkDead(d, worker, code, now) => DeadKeeps(db, d, worker, code, now);
  }

  lemma {:induction false} RunKeeps(db: Db, ops: seq<Op>)
    requires Consistent(db) && ValidRun(db, ops)
    ensures Consistent(Run(db, ops)) && Advances(db, Run(db, ops))
    decreases |ops|
  {
    if ops != [] {
      StepKeeps(db, ops[0]);
      RunKeeps(Step(db, ops[0]), ops[1..]);
      AdvancesTransitive(db, Step(db, ops[0]), Run(db, ops));
    }
  }
}
