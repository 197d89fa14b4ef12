/** Safety of leases, callbacks, suppressions and domain cooldowns over whole runs. */
module OutboundSafety {
  import opened Wrappers
  import opened OutboundModel
  import opened OutboundLog
  import opened OutboundRuns

  // ---------- what a step may do to the other tables ----------

  // No row of the pressure table changes; maintenance may delete rows that are not cooling down.
  ghost predicate OnlyPruned(db: Db, db': Db, now: Time) {
    && db'.suppressions == db.suppressions
    && (forall k :: k in db'.pressure ==> k in db.pressure && db'.pressure[k] == db.pressure[k])
    && (forall k :: k in db.pressure && k !in db'.pressure ==>
          db.pressure[k].cooldownUntil == None || db.pressure[k].cooldownUntil.value <= now)
  }

  // The callback takes effect: it is accepted and the row was not yet in the reported state.
  ghost predicate TakesEffect(db: Db, cb: Callback, fanout: seq<nat>, now: Time)
    requires Enabled(db, Report(cb, fanout, now))
  {
    CallbackStep(db, cb, now, fanout).1 == Accepted
    && db.deliveries[cb.delivery].status != (if cb.kind == DeliverReport then Delivered else Bounced)
  }

  lemma {:induction false} SendRowsLeaveTables(db: Db, sender: nat, rs: seq<Recipient>, now: Time)
    ensures var out := SendRows(db, sender, rs, now);
            out.suppressions == db.suppressions && out.pressure == db.pressure
    decreases |rs|
  {
    if rs != [] {
      SendRowsLeaveTables(db, sender, rs[..|rs| - 1], now);
    }
  }

  ghost predicate OneRowWritten(db: Db, out: Db, d: nat) {
    && out.suppressions == db.suppressions && out.pressure == db.pressure
    && (forall x :: x in db.deliveries && x != d ==> x in out.deliveries && out.deliveries[x] == db.deliveries[x])
  }

  lemma RetryFrame(db: Db, d: nat, worker: string, code: string, now: Time)
    ensures OneRowWritten(db, RetryStep(db, d, worker, code, now).0, d)
    ensures !HoldsLease(db, d, worker) ==> RetryStep(db, d, worker, code, now).0 == db
  {}

  lemma FinishFrame(db: Db, d: nat, worker: string, delivered: bool, remote: string, code: string, now: Time)
    ensures OneRowWritten(db, FinishStep(db, d, worker, delivered, remote, code, now).0, d)
    ensures !HoldsLease(db, d, worker) ==> FinishStep(db, d, worker, delivered, remote, code, now).0 == db
  {}

  lemma SubmitFrame(db: Db, d: nat, worker: string, remote: string, now: Time)
    ensures OneRowWritten(db, SubmitStep(db, d, worker, remote, now).0, d)
    ensures !HoldsLease(db, d, worker) ==> SubmitStep(db, d, worker, remote, now).0 == db
  {}

  lemma DeadFrame(db: Db, d: nat, worker: string, code: string, now: Time)
    ensures OneRowWritten(db, DeadStep(db, d, worker, code, now).0, d)
    ensures !HoldsLease(db, d, worker) ==> DeadStep(db, d, worker, code, now).0 == db
  {}

  // An outcome is written only by the lease holder, and only to its own row.
  lemma OutcomeFrame(db: Db, op: Op)
    requires op.RetryLater? || op.MarkSubmitted? || op.Finish? || op.MarkDead?
    ensures OneRowWritten(db, Step(db, op), op.d)
    ensures !HoldsLease(db, op.d, op.worker) ==> Step(db, op) == db
  {
    match op
    case RetryLater(d, worker, code, now) => RetryFrame(db, d, worker, code, now);
    case Finish(d, worker, delivered, remote, code, now) => FinishFrame(db, d, worker, delivered, remote, code, now);
    case MarkSubmitted(d, worker, remote, now) => SubmitFrame(db, d, worker, remote, now);
    case MarkDead(d, worker, code, now) => DeadFrame(db, d, worker, code, now);
  }

  lemma DeadRetryFrame(db: Db, d: nat, actor: string, now: Time)
    ensures var out := DeadRetryStep(db, d, actor, now).0;
            && out.suppressions == db.suppressions && out.pressure == db.pressure
            && (forall x :: x in db.deliveries && db.deliveries[x].status != Dead ==>
                  x in out.deliveries && out.deliveries[x] == db.deliveries[x])
  {}

  /** A step that is not a report taking effect adds nothing to a pressure or suppression row. */
  lemma StepPrunes(db: Db, op: Op)
    requires Consistent(db) && Enabled(db, op)
    requires op.Report? ==> !TakesEffect(db, op.cb, op.fanout, op.now)
    ensures OnlyPruned(db, Step(db, op), op.now)
  {
    match op
    case Send(sender, rs, allowed, now) => SendRowsLeaveTables(db, sender, rs, now);
    case LeaseBatch(worker, limit, lease, _, picked, now) =>
      if !Blank(worker) && lease > 0 {
        LeaseRowsKeep(db, picked, worker, LeaseExpiry(lease, now), now);
      }
    case RecoverExpired(rows, now) => ExpireRowsKeep(db, rows, now);
    case Report(cb, fanout, now) =>
    case RetryDeadLetter(d, actor, now) => DeadRetryFrame(db, d, actor, now);
    case Maintain(stale, doomed, now) => BuryRowsFrame(db, stale, "SUBMITTED_STALE", now);
    case _ => OutcomeFrame(db, op);
  }

  lemma DeliverEffect(db: Db, cb: Callback, fanout: seq<nat>, now: Time)
    requires Enabled(db, Report(cb, fanout, now)) && cb.kind == DeliverReport && TakesEffect(db, cb, fanout, now)
    ensures var row, out := db.deliveries[cb.delivery], CallbackStep(db, cb, now, fanout).0;
            && row.status == Submitted
            && cb.delivery in out.deliveries && out.deliveries[cb.delivery].status == Delivered
            && out.suppressions == db.suppressions
            && out.pressure == db.pressure[row.domain := Observed(Lookup(db.pressure, row.domain), true, Unknown, now)]
  {}

  lemma BounceReportedFrame(db: Db, cb: Callback, fanout: seq<nat>, now: Time)
    requires cb.delivery in db.deliveries && cb.delivery !in fanout
    requires forall d :: d in fanout ==> d in db.deliveries && db.deliveries[d].status in {Ready, Retrying}
    ensures var row, out, class_ := db.deliveries[cb.delivery], BounceReported(db, cb, now, fanout), Classify(cb.code);
            var key := (row.sender, row.address);
            && cb.delivery in out.deliveries && out.deliveries[cb.delivery].status == Bounced
            && (forall d :: d in db.deliveries && d != cb.delivery && db.deliveries[d].status !in {Ready, Retrying} ==>
                  d in out.deliveries && out.deliveries[d] == db.deliveries[d])
            && out.pressure == db.pressure[row.domain := Observed(Lookup(db.pressure, row.domain), false, class_, now)]
            && out.suppressions == if class_ != Hard then db.suppressions else
                 db.suppressions[key := HardBounced(Lookup(db.suppressions, key), now, HARD_BOUNCE_WINDOW, HARD_BOUNCE_SUPPRESSION_TTL)]
  {
    var row := db.deliveries[cb.delivery];
    var key := (row.sender, row.address);
    var db1 := BounceLogged(db, cb, now);
    if Classify(cb.code) == Hard {
      var hit := HardBounced(Lookup(db1.suppressions, key), now, HARD_BOUNCE_WINDOW, HARD_BOUNCE_SUPPRESSION_TTL);
      BuryRowsFrame(Note(db1.(suppressions := db1.suppressions[key := hit]), cb.delivery, Suppress, row.attempts, now),
                    fanout, SUPPRESSED_CODE, now);
    }
  }

  lemma BounceEffect(db: Db, cb: Callback, fanout: seq<nat>, now: Time)
    requires Enabled(db, Report(cb, fanout, now)) && cb.kind == BounceReport && TakesEffect(db, cb, fanout, now)
    ensures var row, out, class_ := db.deliveries[cb.delivery], CallbackStep(db, cb, now, fanout).0, Classify(cb.code);
            var key := (row.sender, row.address);
            && row.status in {Submitted, Delivered}
            && cb.delivery in out.deliveries && out.deliveries[cb.delivery].status == Bounced
            && (forall d :: d in db.deliveries && d != cb.delivery && db.deliveries[d].status !in {Ready, Retrying} ==>
                  d in out.deliveries && out.deliveries[d] == db.deliveries[d])
            && out.pressure == db.pressure[row.domain := Observed(Lookup(db.pressure, row.domain), false, class_, now)]
            && out.suppressions == if class_ != Hard then db.suppressions else
                 db.suppressions[key := HardBounced(Lookup(db.suppressions, key), now, HARD_BOUNCE_WINDOW, HARD_BOUNCE_SUPPRESSION_TTL)]
  {
    BounceReportedFrame(db, cb, fanout, now);
  }

  // ---------- callbacks are counted once ----------

  ghost function Reached(db: Db, domain: string): set<nat> {
    set d | d in db.deliveries && db.deliveries[d].domain == domain && db.deliveries[d].status in {Delivered, Bounced}
  }

  ghost function BouncedIn(db: Db, domain: string): set<nat> {
    set d | d in db.deliveries && db.deliveries[d].domain == domain && db.deliveries[d].status == Bounced
  }

  ghost function BouncedAt(db: Db, key: (nat, string)): set<nat> {
    set d | d in db.deliveries && db.deliveries[d].sender == key.0 && db.deliveries[d].address == key.1
            && db.deliveries[d].status == Bounced
  }

  ghost predicate DomainCounted(db: Db, domain: string)
    requires domain in db.pressure
  {
    var p := db.pressure[domain];
    p.successes <= |Reached(db, domain)| && p.transient + p.hard <= |BouncedIn(db, domain)|
  }

  ghost predicate RecipientCounted(db: Db, key: (nat, string))
    requires key in db.suppressions
  {
    db.suppressions[key].count <= |BouncedAt(db, key)|
  }

  ghost predicate Counted(db: Db) {
    && (forall k {:trigger DomainCounted(db, k)} :: k in db.pressure ==> DomainCounted(db, k))
    && (forall k {:trigger RecipientCounted(db, k)} :: k in db.suppressions ==> RecipientCounted(db, k))
  }

  lemma Subset<T>(a: set<T>, b: set<T>)
    requires a <= b
    ensures |a| <= |b|
  {
    assert b == a + (b - a);
  }

  lemma OutcomesGrow(db: Db, db': Db, domain: string, key: (nat, string))
    requires Advances(db, db')
    ensures Reached(db, domain) <= Reached(db', domain) && |Reached(db, domain)| <= |Reached(db', domain)|
    ensures BouncedIn(db, domain) <= BouncedIn(db', domain) && |BouncedIn(db, domain)| <= |BouncedIn(db', domain)|
    ensures BouncedAt(db, key) <= BouncedAt(db', key) && |BouncedAt(db, key)| <= |BouncedAt(db', key)|
  {
    forall d | d in db.deliveries ensures d in db'.deliveries && Onward(db.deliveries[d], db'.deliveries[d]) {
      assert RowAdvances(db, db', d);
    }
    Subset(Reached(db, domain), Reached(db', domain));
    Subset(BouncedIn(db, domain), BouncedIn(db', domain));
    Subset(BouncedAt(db, key), BouncedAt(db', key));
  }

  lemma NewOutcome<T>(before: set<T>, after: set<T>, x: T)
    requires before <= after && x in after && x !in before
    ensures |before| + 1 <= |after|
  {
    Subset(before + {x}, after);
  }

  lemma PrunedStepCounted(db: Db, db': Db, now: Time)
    requires Counted(db) && Advances(db, db') && OnlyPruned(db, db', now)
    ensures Counted(db')
  {
    forall k | k in db'.pressure ensures DomainCounted(db', k) {
      assert DomainCounted(db, k);
      OutcomesGrow(db, db', k, (0, ""));
    }
    forall k | k in db'.suppressions ensures RecipientCounted(db', k) {
      assert RecipientCounted(db, k);
      OutcomesGrow(db, db', "", k);
    }
  }

  lemma ReportCounted(db: Db, cb: Callback, fanout: seq<nat>, now: Time)
    requires Consistent(db) && Counted(db) && Enabled(db, Report(cb, fanout, now)) && TakesEffect(db, cb, fanout, now)
    ensures Counted(CallbackStep(db, cb, now, fanout).0)
  {
    CallbackKeeps(db, cb, now, fanout);
    var row, db' := db.deliveries[cb.delivery], CallbackStep(db, cb, now, fanout).0;
    if cb.kind == DeliverReport {
      DeliverEffect(db, cb, fanout, now);
      DeliverCounted(db, db', cb.delivery, now);
    } else {
      BounceEffect(db, cb, fanout, now);
      BounceCounted(db, db', cb.delivery, Classify(cb.code), now);
    }
  }

  lemma DeliverCounted(db: Db, db': Db, d: nat, now: Time)
    requires Counted(db) && Advances(db, db') && d in db.deliveries && d in db'.deliveries
    requires db.deliveries[d].status == Submitted && db'.deliveries[d].status == Delivered
    requires db'.suppressions == db.suppressions
    requires var k := db.deliveries[d].domain;
             db'.pressure == db.pressure[k := Observed(Lookup(db.pressure, k), true, Unknown, now)]
    ensures Counted(db')
  {
    assert RowAdvances(db, db', d);
    forall k | k in db'.pressure ensures DomainCounted(db', k) {
      OutcomesGrow(db, db', k, (0, ""));
      if k in db.pressure { assert DomainCounted(db, k); }
      if k == db.deliveries[d].domain { NewOutcome(Reached(db, k), Reached(db', k), d); }
    }
    forall k | k in db'.suppressions ensures RecipientCounted(db', k) {
      OutcomesGrow(db, db', "", k);
      assert RecipientCounted(db, k);
    }
  }

  lemma BounceCounted(db: Db, db': Db, d: nat, class_: FailureClass, now: Time)
    requires Counted(db) && Advances(db, db') && d in db.deliveries && d in db'.deliveries
    requires db.deliveries[d].status in {Submitted, Delivered} && db'.deliveries[d].status == Bounced
    requires var k := db.deliveries[d].domain;
             db'.pressure == db.pressure[k := Observed(Lookup(db.pressure, k), false, class_, now)]
    requires var k := (db.deliveries[d].sender, db.deliveries[d].address);
             db'.suppressions == if class_ != Hard then db.suppressions else
               db.suppressions[k := HardBounced(Lookup(db.suppressions, k), now, HARD_BOUNCE_WINDOW, HARD_BOUNCE_SUPPRESSION_TTL)]
    ensures Counted(db')
  {
    assert RowAdvances(db, db', d);
    forall k | k in db'.pressure ensures DomainCounted(db', k) {
      OutcomesGrow(db, db', k, (0, ""));
      if k in db.pressure { assert DomainCounted(db, k); }
      if k == db.deliveries[d].domain { NewOutcome(BouncedIn(db, k), BouncedIn(db', k), d); }
    }
    forall k | k in db'.suppressions ensures RecipientCounted(db', k) {
      OutcomesGrow(db, db', "", k);
      if k in db.suppressions { assert RecipientCounted(db, k); }
      if k == (db.deliveries[d].sender, db.deliveries[d].address) { NewOutcome(BouncedAt(db, k), BouncedAt(db', k), d); }
    }
  }

  lemma {:induction false} RunCounted(db: Db, ops: seq<Op>)
    requires Consistent(db) && Counted(db) && ValidRun(db, ops)
    ensures Counted(Run(db, ops))
    decreases |ops|
  {
    if ops != [] {
      StepKeeps(db, ops[0]);
      if ops[0].Report? && TakesEffect(db, ops[0].cb, ops[0].fanout, ops[0].now) {
        ReportCounted(db, ops[0].cb, ops[0].fanout, ops[0].now);
      } else {
        StepPrunes(db, ops[0]);
        PrunedStepCounted(db, Step(db, ops[0]), ops[0].now);
      }
      RunCounted(Step(db, ops[0]), ops[1..]);
    }
  }

  /** So the counters stay within the deliveries: the successes counted for a domain never exceed its deliveries that
      got through, the failures never exceed its bounced deliveries, and the hard bounces of a recipient never exceed
      its bounced deliveries. */
  lemma CallbacksCountOnce(ops: seq<Op>)
    requires ValidRun(EMPTY, ops)
    ensures var db := Run(EMPTY, ops);
            && (forall k :: k in db.pressure ==>
                  && db.pressure[k].successes <= |Reached(db, k)|
                  && db.pressure[k].transient + db.pressure[k].hard <= |BouncedIn(db, k)|)
            && (forall k :: k in db.suppressions ==> db.suppressions[k].count <= |BouncedAt(db, k)|)
  {
    RunCounted(EMPTY, ops);
    var db := Run(EMPTY, ops);
    forall k | k in db.pressure ensures
      && db.pressure[k].successes <= |Reached(db, k)|
      && db.pressure[k].transient + db.pressure[k].hard <= |BouncedIn(db, k)| {
      assert DomainCounted(db, k);
    }
    forall k | k in db.suppressions ensures db.suppressions[k].count <= |BouncedAt(db, k)| {
      assert RecipientCounted(db, k);
    }
  }

  ghost predicate Settled(db: Db, cb: Callback) {
    cb.delivery in db.deliveries
    && db.deliveries[cb.delivery].status in (if cb.kind == DeliverReport then {Delivered, Bounced} else {Bounced})
  }

  lemma AcceptedCallbackSettles(db: Db, cb: Callback, fanout: seq<nat>, now: Time)
    requires Enabled(db, Report(cb, fanout, now)) && CallbackStep(db, cb, now, fanout).1 == Accepted
    ensures Settled(CallbackStep(db, cb, now, fanout).0, cb)
  {
    if TakesEffect(db, cb, fanout, now) {
      if cb.kind == DeliverReport {
        DeliverEffect(db, cb, fanout, now);
      } else {
        BounceEffect(db, cb, fanout, now);
      }
    }
  }

  // How many reports of that kind about a delivery take effect during a run.
  ghost function Effects(db: Db, ops: seq<Op>, d: nat, kind: CallbackKind): nat
    requires ValidRun(db, ops)
    decreases |ops|
  {
    if ops == [] then 0
    else
      var op := ops[0];
      (if op.Report? && op.cb.delivery == d && op.cb.kind == kind && TakesEffect(db, op.cb, op.fanout, op.now) then 1 else 0)
      + Effects(Step(db, op), ops[1..], d, kind)
  }

  predicate IsSettled(row: Delivery, kind: CallbackKind) {
    row.status in (if kind == DeliverReport then {Delivered, Bounced} else {Bounced})
  }

  lemma {:induction false} SettledHasNoEffects(db: Db, ops: seq<Op>, d: nat, kind: CallbackKind)
    requires Consistent(db) && ValidRun(db, ops) && d in db.deliveries && IsSettled(db.deliveries[d], kind)
    ensures Effects(db, ops, d, kind) == 0
    decreases |ops|
  {
    if ops != [] {
      var op := ops[0];
      StepKeeps(db, op);
      assert RowAdvances(db, Step(db, op), d);
      SettledHasNoEffects(Step(db, op), ops[1..], d, kind);
      if op.Report? && op.cb.delivery == d && op.cb.kind == kind && TakesEffect(db, op.cb, op.fanout, op.now) {
        EffectWasUnsettled(db, op.cb, op.fanout, op.now);
      }
    }
  }

  lemma EffectWasUnsettled(db: Db, cb: Callback, fanout: seq<nat>, now: Time)
    requires Enabled(db, Report(cb, fanout, now)) && TakesEffect(db, cb, fanout, now)
    ensures cb.delivery in db.deliveries && !IsSettled(db.deliveries[cb.delivery], cb.kind)
  {
    if cb.kind == DeliverReport { DeliverEffect(db, cb, fanout, now); } else { BounceEffect(db, cb, fanout, now); }
  }

  /** Whatever callbacks arrive, repeated and in any order, at most one delivery report and at most one bounce report of
      each delivery takes effect. By DeliverEffect, BounceEffect and StepPrunes only such a report adds to a counter, so a
      delivery adds at most one success, one failure and one hard bounce. */
  lemma {:induction false} EachDeliveryCountsOnce(db: Db, ops: seq<Op>, d: nat, kind: CallbackKind)
    requires Consistent(db) && ValidRun(db, ops)
    ensures Effects(db, ops, d, kind) <= 1
    decreases |ops|
  {
    if ops != [] {
      var op := ops[0];
      StepKeeps(db, op);
      EachDeliveryCountsOnce(Step(db, op), ops[1..], d, kind);
      if op.Report? && op.cb.delivery == d && op.cb.kind == kind && TakesEffect(db, op.cb, op.fanout, op.now) {
        AcceptedCallbackSettles(db, op.cb, op.fanout, op.now);
        SettledHasNoEffects(Step(db, op), ops[1..], d, kind);
      }
    }
  }

  lemma SettledCallbackOnlyReceipts(db: Db, cb: Callback, fanout: seq<nat>, now: Time)
    requires Settled(db, cb) && forall d :: d in fanout ==> d in db.deliveries
    ensures CallbackStep(db, cb, now, fanout).0.(receipts := db.receipts) == db
  {}

  /** A callback that was accepted once can be repeated at any later point of any run, even after
      its receipt was pruned: no delivery, event, suppression or pressure row changes. */
  lemma RepeatedCallbackIsHarmless(db: Db, cb: Callback, fanout: seq<nat>, now: Time,
                                   ops: seq<Op>, fanout2: seq<nat>, now2: Time)
    requires Consistent(db) && Enabled(db, Report(cb, fanout, now))
    requires CallbackStep(db, cb, now, fanout).1 == Accepted
    requires ValidRun(CallbackStep(db, cb, now, fanout).0, ops)
    requires Enabled(Run(CallbackStep(db, cb, now, fanout).0, ops), Report(cb, fanout2, now2))
    ensures var later := Run(CallbackStep(db, cb, now, fanout).0, ops);
            CallbackStep(later, cb, now2, fanout2).0.(receipts := later.receipts) == later
  {
    var db1 := CallbackStep(db, cb, now, fanout).0;
    CallbackKeeps(db, cb, now, fanout);
    AcceptedCallbackSettles(db, cb, fanout, now);
    RunKeeps(db1, ops);
    assert RowAdvances(db1, Run(db1, ops), cb.delivery);
    SettledCallbackOnlyReceipts(Run(db1, ops), cb, fanout2, now2);
  }

  // ---------- leases are exclusive ----------

  ghost predicate OutcomeBy(op: Op, d: nat, worker: string) {
    (op.RetryLater? || op.MarkSubmitted? || op.Finish? || op.MarkDead?) && op.d == d && op.worker == worker
  }

  lemma {:induction false} SendRowsKeepRow(db: Db, sender: nat, rs: seq<Recipient>, now: Time, d: nat)
    requires d in db.deliveries
    ensures var out := SendRows(db, sender, rs, now);
            d in out.deliveries && out.deliveries[d] == db.deliveries[d]
    decreases |rs|
  {
    if rs != [] {
      SendRowsKeepRow(db, sender, rs[..|rs| - 1], now, d);
    }
  }

  lemma LeasedRowUntouched(db: Db, op: Op, d: nat, worker: string, until: Time)
    requires Consistent(db) && Enabled(db, op)
    requires HoldsLease(db, d, worker) && db.deliveries[d].leaseUntil == Some(until)
    requires op.now <= until && !OutcomeBy(op, d, worker)
    ensures d in Step(db, op).deliveries && Step(db, op).deliveries[d] == db.deliveries[d]
  {
    match op
    case Send(sender, rs, allowed, now) => SendRowsKeepRow(db, sender, rs, now, d);
    case LeaseBatch(w, limit, lease, _, picked, now) =>
      if !Blank(w) && lease > 0 {
        LeaseRowsKeep(db, picked, w, LeaseExpiry(lease, now), now);
      }
    case RecoverExpired(rows, now) => ExpireRowsKeep(db, rows, now);
    case Report(cb, fanout, now) => ReportKeepsRow(db, cb, fanout, now, d);
    case RetryDeadLetter(x, actor, now) => DeadRetryFrame(db, x, actor, now);
    case Maintain(stale, doomed, now) => BuryRowsFrame(db, stale, "SUBMITTED_STALE", now);
    case _ => OutcomeFrame(db, op);
  }

  lemma ReportKeepsRow(db: Db, cb: Callback, fanout: seq<nat>, now: Time, d: nat)
    requires Enabled(db, Report(cb, fanout, now)) && d in db.deliveries
    requires db.deliveries[d].status == Leased
    ensures var out := CallbackStep(db, cb, now, fanout).0;
            d in out.deliveries && out.deliveries[d] == db.deliveries[d]
  {
    if TakesEffect(db, cb, fanout, now) && cb.kind == BounceReport {
      BounceEffect(db, cb, fanout, now);
    }
  }

  /** Until its lease runs out, only the worker that holds it can change a leased delivery, by
      reporting an outcome; no other actor's transactions touch the row in between. */
  lemma {:induction false} LeaseIsExclusive(db: Db, ops: seq<Op>, d: nat, worker: string, until: Time)
    requires Consistent(db) && ValidRun(db, ops)
    requires HoldsLease(db, d, worker) && db.deliveries[d].leaseUntil == Some(until)
    requires forall i :: 0 <= i < |ops| ==> ops[i].now <= until && !OutcomeBy(ops[i], d, worker)
    ensures d in Run(db, ops).deliveries && Run(db, ops).deliveries[d] == db.deliveries[d]
    decreases |ops|
  {
    if ops != [] {
      LeasedRowUntouched(db, ops[0], d, worker, until);
      StepKeeps(db, ops[0]);
      LeaseIsExclusive(Step(db, ops[0]), ops[1..], d, worker, until);
    }
  }

  // ---------- suppressions and cooldowns are never shortened ----------

  ghost predicate ClockRun(clock: Time, ops: seq<Op>)
    decreases |ops|
  {
    ops == [] || (clock <= ops[0].now && ClockRun(ops[0].now, ops[1..]))
  }

  ghost predicate SuppressionsTimed(db: Db, clock: Time) {
    forall k :: k in db.suppressions ==>
      var s := db.suppressions[k];
      s.last <= clock
      && (s.until.Some? ==> s.until.value == s.last + HARD_BOUNCE_SUPPRESSION_TTL && s.count >= HARD_BOUNCE_THRESHOLD)
  }

  ghost predicate SuppressedUntil(db: Db, key: (nat, string), until: Time) {
    key in db.suppressions && db.suppressions[key].until.Some? && db.suppressions[key].until.value >= until
  }

  lemma BounceTimed(prior: Option<Suppression>, now: Time)
    requires prior.Some? ==>
      var s := prior.value;
      s.last <= now && (s.until.Some? ==> s.until.value == s.last + HARD_BOUNCE_SUPPRESSION_TTL && s.count >= HARD_BOUNCE_THRESHOLD)
    ensures var s := HardBounced(prior, now, HARD_BOUNCE_WINDOW, HARD_BOUNCE_SUPPRESSION_TTL);
            && s.last == now
            && (s.until.Some? ==> s.until.value == s.last + HARD_BOUNCE_SUPPRESSION_TTL && s.count >= HARD_BOUNCE_THRESHOLD)
            && (prior.Some? && prior.value.until.Some? && now < prior.value.until.value ==>
                  s.until.Some? && s.until.value >= prior.value.until.value)
  {}

  lemma StepTimed(db: Db, op: Op, clock: Time)
    requires Consistent(db) && Enabled(db, op) && SuppressionsTimed(db, clock) && clock <= op.now
    ensures SuppressionsTimed(Step(db, op), op.now)
    ensures forall k, until :: SuppressedUntil(db, k, until) && op.now < until ==> SuppressedUntil(Step(db, op), k, until)
  {
    if op.Report? && TakesEffect(db, op.cb, op.fanout, op.now) {
      if op.cb.kind == DeliverReport {
        DeliverEffect(db, op.cb, op.fanout, op.now);
      } else {
        BounceEffect(db, op.cb, op.fanout, op.now);
        var row := db.deliveries[op.cb.delivery];
        BounceTimed(Lookup(db.suppressions, (row.sender, row.address)), op.now);
      }
    } else {
      StepPrunes(db, op);
    }
  }

  /** With a clock that does not run backwards, a suppression that is active is never shortened,
      lifted or deleted while it lasts. */
  lemma {:induction false} SuppressionLasts(db: Db, ops: seq<Op>, clock: Time, key: (nat, string), until: Time)
    requires Consistent(db) && SuppressionsTimed(db, clock) && ValidRun(db, ops) && ClockRun(clock, ops)
    requires SuppressedUntil(db, key, until)
    requires forall i :: 0 <= i < |ops| ==> ops[i].now < until
    ensures SuppressedUntil(Run(db, ops), key, until)
    decreases |ops|
  {
    if ops != [] {
      StepKeeps(db, ops[0]);
      StepTimed(db, ops[0], clock);
      SuppressionLasts(Step(db, ops[0]), ops[1..], ops[0].now, key, until);
    }
  }

  lemma {:induction false} RunTimed(db: Db, ops: seq<Op>, clock: Time)
    requires Consistent(db) && SuppressionsTimed(db, clock) && ValidRun(db, ops) && ClockRun(clock, ops)
    ensures SuppressionsTimed(Run(db, ops), if ops == [] then clock else ops[|ops| - 1].now)
    decreases |ops|
  {
    if ops != [] {
      StepKeeps(db, ops[0]);
      StepTimed(db, ops[0], clock);
      RunTimed(Step(db, ops[0]), ops[1..], ops[0].now);
    }
  }

  /** From the empty database: any suppression in force after any run outlives any continuation
      that ends before it does. */
  lemma ActiveSuppressionSurvives(before: seq<Op>, after: seq<Op>, start: Time, clock: Time, key: (nat, string), until: Time)
    requires ValidRun(EMPTY, before) && ClockRun(start, before)
    requires start <= clock && (before != [] ==> before[|before| - 1].now <= clock)
    requires ValidRun(Run(EMPTY, before), after) && ClockRun(clock, after)
    requires SuppressedUntil(Run(EMPTY, before), key, until)
    requires forall i :: 0 <= i < |after| ==> after[i].now < until
    ensures SuppressedUntil(Run(Run(EMPTY, before), after), key, until)
  {
    RunKeeps(EMPTY, before);
    RunTimed(EMPTY, before, start);
    SuppressionLasts(Run(EMPTY, before), after, clock, key, until);
  }

  ghost predicate KeepsActive(window: Time, ttl: Time) {
    forall s: Suppression, now: Time {:trigger HardBounced(Some(s), now, window, ttl)} ::
      s.count >= HARD_BOUNCE_THRESHOLD && s.until == Some(s.last + ttl) && s.last <= now < s.last + ttl ==>
        var s' := HardBounced(Some(s), now, window, ttl);
        s'.until.Some? && s'.until.value >= s.last + ttl
  }

  /** A further bounce can only prolong an active suppression exactly when the counting window is
      no shorter than the suppression's lifetime; the source sets both to 30 days. */
  lemma WindowMustCoverLifetime(window: Time, ttl: Time)
    requires ttl > 0
    ensures KeepsActive(window, ttl) <==> ttl <= window + 1
  {
    if ttl > window + 1 {
      var s := Suppression(HARD_BOUNCE_THRESHOLD, 0, 0, Some(ttl));
      assert HardBounced(Some(s), ttl - 1, window, ttl).until == None;
    }
  }

  ghost predicate CoolingUntil(db: Db, domain: string, until: Time) {
    domain in db.pressure && db.pressure[domain].cooldownUntil.Some? && db.pressure[domain].cooldownUntil.value >= until
  }

  lemma ObservedCools(p: Pressure, delivered: bool, class_: FailureClass, now: Time, until: Time)
    requires p.cooldownUntil.Some? && p.cooldownUntil.value >= until > now
    ensures var p' := Observed(Some(p), delivered, class_, now);
            p'.cooldownUntil.Some? && p'.cooldownUntil.value >= until
  {}

  lemma StepCools(db: Db, op: Op, domain: string, until: Time)
    requires Consistent(db) && Enabled(db, op) && CoolingUntil(db, domain, until) && op.now < until
    ensures CoolingUntil(Step(db, op), domain, until)
  {
    if op.Report? && TakesEffect(db, op.cb, op.fanout, op.now) {
      if op.cb.kind == DeliverReport {
        DeliverEffect(db, op.cb, op.fanout, op.now);
        ObservedCools(db.pressure[domain], true, Unknown, op.now, until);
      } else {
        BounceEffect(db, op.cb, op.fanout, op.now);
        ObservedCools(db.pressure[domain], false, Classify(op.cb.code), op.now, until);
      }
    } else {
      StepPrunes(db, op);
    }
  }

  /** An active domain cooldown survives every outcome, window reset and clean-up until it ends. */
  lemma {:induction false} CooldownLasts(db: Db, ops: seq<Op>, domain: string, until: Time)
    requires Consistent(db) && ValidRun(db, ops) && CoolingUntil(db, domain, until)
    requires forall i :: 0 <= i < |ops| ==> ops[i].now < until
    ensures CoolingUntil(Run(db, ops), domain, until)
    decreases |ops|
  {
    if ops != [] {
      StepKeeps(db, ops[0]);
      StepCools(db, ops[0], domain, until);
      CooldownLasts(Step(db, ops[0]), ops[1..], domain, until);
    }
  }

  /** No lease hands out a delivery whose recipient is suppressed at that moment: it ends DEAD. */
  lemma {:induction false} SuppressedIsNotLeased(db: Db, picked: seq<nat>, worker: string, until: Time, now: Time, d: nat)
    requires Consistent(db) && Distinct(picked) && d in picked
    requires forall x :: x in picked ==> x in db.deliveries && db.deliveries[x].status in {Ready, Retrying}
    ensures var row := db.deliveries[d];
            var row' := LeaseRows(db, picked, worker, until, now).deliveries[d];
            row'.status == (if SuppressedNow(db, row.sender, row.address, now) then Dead else Leased)
    decreases |picked|
  {
    var rest, last := picked[..|picked| - 1], picked[|picked| - 1];
    LeaseRowsKeep(db, rest, worker, until, now);
    assert last in picked && last !in rest;
    if d != last {
      SuppressedIsNotLeased(db, rest, worker, until, now, d);
    }
  }
}
