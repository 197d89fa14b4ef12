/** The CHECK on attempts: no run passes it, and what a row that has reached it does to the others. */
module OutboundCaps {
  import opened Wrappers
  import opened OutboundModel
  import opened OutboundRuns
  import opened OutboundSafety
  import opened OutboundCodes

  // ---------- no run passes the cap ----------

  ghost predicate RowCapped(db: Db, d: nat) {
    d in db.deliveries && db.deliveries[d].attempts <= ATTEMPTS_CAP
  }

  ghost predicate Capped(db: Db) {
    forall d {:trigger RowCapped(db, d)} :: d in db.deliveries ==> RowCapped(db, d)
  }

  // No row has more attempts than before; a new one has none.
  ghost predicate RowCalm(db: Db, t: Db, d: nat) {
    d in t.deliveries && t.deliveries[d].attempts <= if d in db.deliveries then db.deliveries[d].attempts else 0
  }

  ghost predicate Calm(db: Db, t: Db) {
    forall d {:trigger RowCalm(db, t, d)} :: d in t.deliveries ==> RowCalm(db, t, d)
  }

  lemma CalmKeepsCapped(db: Db, t: Db)
    requires Capped(db) && Calm(db, t)
    ensures Capped(t)
  {
    forall d | d in t.deliveries ensures RowCapped(t, d) {
      assert RowCalm(db, t, d);
      if d in db.deliveries { assert RowCapped(db, d); }
    }
  }

  lemma {:induction false} SendRowsAreCalm(db: Db, sender: nat, rs: seq<Recipient>, now: Time)
    ensures Calm(db, SendRows(db, sender, rs, now))
    decreases |rs|
  {
    var t := SendRows(db, sender, rs, now);
    if rs != [] {
      SendRowsAreCalm(db, sender, rs[..|rs| - 1], now);
      var before := SendRows(db, sender, rs[..|rs| - 1], now);
      forall d | d in t.deliveries ensures RowCalm(db, t, d) {
        if d in before.deliveries { assert RowCalm(db, before, d); }
        SendRowsKeepRows(db, sender, rs[..|rs| - 1], now);
      }
    } else {
      forall d | d in t.deliveries ensures RowCalm(db, t, d) {}
    }
  }

  lemma {:induction false} SendRowsKeepRows(db: Db, sender: nat, rs: seq<Recipient>, now: Time)
    ensures db.deliveries.Keys <= SendRows(db, sender, rs, now).deliveries.Keys
    decreases |rs|
  {
    if rs != [] { SendRowsKeepRows(db, sender, rs[..|rs| - 1], now); }
  }

  lemma {:induction false} ExpireRowsAreCalm(db: Db, rows: seq<nat>, now: Time)
    requires forall d :: d in rows ==> d in db.deliveries
    ensures Calm(db, ExpireRows(db, rows, now))
    decreases |rows|
  {
    var t := ExpireRows(db, rows, now);
    if rows != [] {
      assert rows[|rows| - 1] in rows;
      ExpireRowsAreCalm(db, rows[..|rows| - 1], now);
      forall d | d in t.deliveries ensures RowCalm(db, t, d) {
        assert RowCalm(db, ExpireRows(db, rows[..|rows| - 1], now), d);
      }
    } else {
      forall d | d in t.deliveries ensures RowCalm(db, t, d) {}
    }
  }

  lemma {:induction false} BuryRowsAreCalm(db: Db, rows: seq<nat>, code: string, now: Time)
    requires forall d :: d in rows ==> d in db.deliveries
    ensures Calm(db, BuryRows(db, rows, code, now))
    decreases |rows|
  {
    var t := BuryRows(db, rows, code, now);
    if rows != [] {
      assert rows[|rows| - 1] in rows;
      BuryRowsAreCalm(db, rows[..|rows| - 1], code, now);
      forall d | d in t.deliveries ensures RowCalm(db, t, d) {
        assert RowCalm(db, BuryRows(db, rows[..|rows| - 1], code, now), d);
      }
    } else {
      forall d | d in t.deliveries ensures RowCalm(db, t, d) {}
    }
  }

  lemma CalmChain(db: Db, s: Db, t: Db)
    requires Calm(db, s) && Calm(s, t) && s.deliveries.Keys == db.deliveries.Keys
    ensures Calm(db, t)
  {
    forall d | d in t.deliveries ensures RowCalm(db, t, d) {
      assert RowCalm(s, t, d);
      if d in s.deliveries { assert RowCalm(db, s, d); }
    }
  }

  lemma BounceIsCalm(db: Db, cb: Callback, now: Time, fanout: seq<nat>)
    requires cb.delivery in db.deliveries && forall d :: d in fanout ==> d in db.deliveries
    ensures Calm(db, BounceReported(db, cb, now, fanout))
  {
    var row := db.deliveries[cb.delivery];
    var logged := BounceLogged(db, cb, now);
    forall d | d in logged.deliveries ensures RowCalm(db, logged, d) {}
    if Classify(cb.code) == Hard {
      var key := (row.sender, row.address);
      var hit := HardBounced(Lookup(logged.suppressions, key), now, HARD_BOUNCE_WINDOW, HARD_BOUNCE_SUPPRESSION_TTL);
      var marked := logged.(suppressions := logged.suppressions[key := hit]);
      forall d | d in marked.deliveries ensures RowCalm(db, marked, d) {}
      if hit.until != None {
        var noted := Note(marked, cb.delivery, Suppress, row.attempts, now);
        forall d | d in noted.deliveries ensures RowCalm(db, noted, d) {}
        BuryRowsAreCalm(noted, fanout, SUPPRESSED_CODE, now);
        CalmChain(db, noted, BounceReported(db, cb, now, fanout));
      }
    }
  }

  lemma SameRowsAreCalm(db: Db, t: Db)
    requires t.deliveries == db.deliveries
    ensures Calm(db, t)
  {
    forall d | d in t.deliveries ensures RowCalm(db, t, d) {}
  }

  // At most one row was written, and its attempts did not rise.
  ghost predicate OneCalmRow(db: Db, t: Db, d: nat) {
    t.deliveries == db.deliveries
    || (d in db.deliveries && d in t.deliveries && t.deliveries == db.deliveries[d := t.deliveries[d]]
        && t.deliveries[d].attempts <= db.deliveries[d].attempts)
  }

  lemma OneRowIsCalm(db: Db, t: Db, d: nat)
    requires OneCalmRow(db, t, d)
    ensures Calm(db, t)
  {
    forall x | x in t.deliveries ensures RowCalm(db, t, x) {}
  }

  lemma DeliverWritesOne(db: Db, cb: Callback, now: Time)
    requires cb.delivery in db.deliveries
    ensures OneCalmRow(db, Receive(DeliverReported(db, cb, now), cb, now), cb.delivery)
  {
  }

  lemma CallbackIsCalm(db: Db, cb: Callback, now: Time, fanout: seq<nat>)
    requires forall d :: d in fanout ==> d in db.deliveries
    ensures Calm(db, CallbackStep(db, cb, now, fanout).0)
  {
    var t := CallbackStep(db, cb, now, fanout).0;
    if t.deliveries == db.deliveries {
      SameRowsAreCalm(db, t);
    } else if cb.kind == DeliverReport {
      DeliverWritesOne(db, cb, now);
      OneRowIsCalm(db, t, cb.delivery);
    } else {
      var bounced := BounceReported(db, cb, now, fanout);
      assert t == Receive(bounced, cb, now);
      BounceIsCalm(db, cb, now, fanout);
      forall d | d in t.deliveries ensures RowCalm(db, t, d) { assert RowCalm(db, bounced, d); }
    }
  }

  lemma RetryWritesOne(db: Db, d: nat, worker: string, code: string, now: Time)
    ensures OneCalmRow(db, RetryStep(db, d, worker, code, now).0, d)
  {
  }

  lemma SubmitWritesOne(db: Db, d: nat, worker: string, remote: string, now: Time)
    ensures OneCalmRow(db, SubmitStep(db, d, worker, remote, now).0, d)
  {
  }

  lemma FinishWritesOne(db: Db, d: nat, worker: string, delivered: bool, remote: string, code: string, now: Time)
    ensures OneCalmRow(db, FinishStep(db, d, worker, delivered, remote, code, now).0, d)
  {
  }

  lemma DeadWritesOne(db: Db, d: nat, worker: string, code: string, now: Time)
    ensures OneCalmRow(db, DeadStep(db, d, worker, code, now).0, d)
  {
  }

  lemma DeadRetryWritesOne(db: Db, d: nat, actor: string, now: Time)
    ensures OneCalmRow(db, DeadRetryStep(db, d, actor, now).0, d)
  {
  }

  lemma OutcomeIsCalm(db: Db, op: Op)
    requires op.RetryLater? || op.MarkSubmitted? || op.Finish? || op.MarkDead? || op.RetryDeadLetter?
    ensures Calm(db, Step(db, op))
  {
    match op {
      case RetryLater(d, worker, code, now) => RetryWritesOne(db, d, worker, code, now);
      case MarkSubmitted(d, worker, remote, now) => SubmitWritesOne(db, d, worker, remote, now);
      case Finish(d, worker, delivered, remote, code, now) => FinishWritesOne(db, d, worker, delivered, remote, code, now);
      case MarkDead(d, worker, code, now) => DeadWritesOne(db, d, worker, code, now);
      case RetryDeadLetter(d, actor, now) => DeadRetryWritesOne(db, d, actor, now);
    }
    OneRowIsCalm(db, Step(db, op), op.d);
  }

  lemma {:induction false} LeaseRowsKeepCapped(db: Db, picked: seq<nat>, worker: string, until: Time, now: Time)
    requires Consistent(db) && Capped(db) && Distinct(picked) && !OverCap(db, picked)
    requires forall d :: d in picked ==> d in db.deliveries && db.deliveries[d].status in {Ready, Retrying}
    ensures Capped(LeaseRows(db, picked, worker, until, now))
    decreases |picked|
  {
    if picked != [] {
      var rest, last := picked[..|picked| - 1], picked[|picked| - 1];
      assert last in picked && last !in rest;
      LeaseRowsKeepCapped(db, rest, worker, until, now);
      LeaseRowsKeep(db, rest, worker, until, now);
      var before, t := LeaseRows(db, rest, worker, until, now), LeaseRows(db, picked, worker, until, now);
      forall d | d in t.deliveries ensures RowCapped(t, d) { assert RowCapped(before, d); }
    }
  }

  lemma StepKeepsCapped(db: Db, op: Op)
    requires Consistent(db) && Capped(db) && Enabled(db, op)
    ensures Capped(Step(db, op))
  {
    match op
    case LeaseBatch(worker, limit, lease, locked, picked, now) =>
      if LeaseStep(db, worker, limit, lease, now, picked).1 == Accepted {
        assert forall d :: d in picked ==> Leasable(db, d, now);
        LeaseRowsKeepCapped(db, picked, worker, LeaseExpiry(lease, now), now);
      }
    case Send(sender, rs, allowed, now) =>
      SendRowsAreCalm(db, sender, rs, now);
      if Step(db, op) != db { CalmKeepsCapped(db, Step(db, op)); }
    case RecoverExpired(rows, now) =>
      ExpireRowsAreCalm(db, rows, now);
      CalmKeepsCapped(db, Step(db, op));
    case Report(cb, fanout, now) =>
      CallbackIsCalm(db, cb, now, fanout);
      CalmKeepsCapped(db, Step(db, op));
    case Maintain(stale, doomed, now) => MaintainKeepsCapped(db, now, stale, doomed);
    case _ =>
      OutcomeIsCalm(db, op);
      CalmKeepsCapped(db, Step(db, op));
  }

  lemma MaintainKeepsCapped(db: Db, now: Time, stale: seq<nat>, x: Doomed)
    requires Capped(db) && forall d :: d in stale ==> d in db.deliveries
    ensures Capped(MaintainStep(db, now, stale, x))
  {
    var buried, t := BuryRows(db, stale, "SUBMITTED_STALE", now), MaintainStep(db, now, stale, x);
    BuryRowsAreCalm(db, stale, "SUBMITTED_STALE", now);
    CalmKeepsCapped(db, buried);
    forall d | d in t.deliveries ensures RowCapped(t, d) { assert RowCapped(buried, d); }
  }

  /** No run brings a delivery beyond 100 attempts. */
  lemma {:induction false} AttemptsAreCapped(db: Db, ops: seq<Op>)
    requires Consistent(db) && Capped(db) && ValidRun(db, ops)
    ensures Capped(Run(db, ops))
    decreases |ops|
  {
    if ops != [] {
      StepKeepsCapped(db, ops[0]);
      StepKeeps(db, ops[0]);
      AttemptsAreCapped(Step(db, ops[0]), ops[1..]);
    }
  }

  // ---------- a row at the cap ----------

  ghost predicate IsFull(db: Db, d: nat) {
    d in db.deliveries && db.deliveries[d].status in {Ready, Retrying} && db.deliveries[d].attempts >= ATTEMPTS_CAP
  }

  // Suppressed with its recipient.
  function Buried(row: Delivery): Delivery {
    row.(status := Dead, errorCode := Some(SUPPRESSED_CODE))
  }

  lemma {:induction false} BuryRowsBury(db: Db, rows: seq<nat>, now: Time, d: nat)
    requires (forall x :: x in rows ==> x in db.deliveries) && d in db.deliveries
    ensures BuryRows(db, rows, SUPPRESSED_CODE, now).deliveries[d]
            == if d in rows then Buried(db.deliveries[d]) else db.deliveries[d]
    decreases |rows|
  {
    if rows != [] {
      var rest, last := rows[..|rows| - 1], rows[|rows| - 1];
      assert rows == rest + [last] && last in rows;
      BuryRowsBury(db, rest, now, d);
    }
  }

  lemma FullRowAtReport(db: Db, cb: Callback, fanout: seq<nat>, now: Time, d: nat)
    requires Enabled(db, Report(cb, fanout, now)) && IsFull(db, d)
    ensures var t := CallbackStep(db, cb, now, fanout).0;
            d in t.deliveries && (t.deliveries[d] == db.deliveries[d] || t.deliveries[d] == Buried(db.deliveries[d]))
  {
    if TakesEffect(db, cb, fanout, now) {
      if cb.kind == DeliverReport {
        DeliverEffect(db, cb, fanout, now);
      } else {
        BounceEffect(db, cb, fanout, now);
        FullRowAtBounce(db, cb, fanout, now, d);
      }
    } else {
      IdleReport(db, cb, fanout, now);
    }
  }

  lemma FullRowAtBounce(db: Db, cb: Callback, fanout: seq<nat>, now: Time, d: nat)
    requires cb.delivery in db.deliveries && d != cb.delivery && IsFull(db, d)
    requires forall x :: x in fanout ==> x in db.deliveries
    ensures var t := BounceReported(db, cb, now, fanout);
            d in t.deliveries && (t.deliveries[d] == db.deliveries[d] || t.deliveries[d] == Buried(db.deliveries[d]))
  {
    var row, logged := db.deliveries[cb.delivery], BounceLogged(db, cb, now);
    if Classify(cb.code) == Hard {
      var key := (row.sender, row.address);
      var hit := HardBounced(Lookup(logged.suppressions, key), now, HARD_BOUNCE_WINDOW, HARD_BOUNCE_SUPPRESSION_TTL);
      var noted := Note(logged.(suppressions := logged.suppressions[key := hit]), cb.delivery, Suppress, row.attempts, now);
      BuryRowsBury(noted, fanout, now, d);
    }
  }

  lemma FullRowStep(db: Db, op: Op, d: nat)
    requires Consistent(db) && Enabled(db, op) && IsFull(db, d)
    ensures var t := Step(db, op);
            d in t.deliveries && (t.deliveries[d] == db.deliveries[d] || t.deliveries[d] == Buried(db.deliveries[d]))
  {
    match op
    case Send(sender, rs, allowed, now) => SendRowsKeepRow(db, sender, rs, now, d);
    case LeaseBatch(w, limit, lease, _, picked, now) =>
      if LeaseStep(db, w, limit, lease, now, picked).1 == Accepted {
        LeaseRowsKeep(db, picked, w, LeaseExpiry(lease, now), now);
      }
    case RecoverExpired(rows, now) => ExpireRowsKeep(db, rows, now);
    case Report(cb, fanout, now) => FullRowAtReport(db, cb, fanout, now, d);
    case RetryDeadLetter(x, actor, now) => DeadRetryFrame(db, x, actor, now);
    case Maintain(stale, doomed, now) => BuryRowsFrame(db, stale, "SUBMITTED_STALE", now);
    case _ => OutcomeFrame(db, op);
  }

  /** A row that is waiting with 100 attempts is never leased again, over any run: it stays as it is for good, or until a
      hard bounce of another delivery suppresses its recipient and buries it. */
  lemma {:induction false} FullRowIsNeverLeased(db: Db, ops: seq<Op>, d: nat)
    requires Consistent(db) && ValidRun(db, ops) && IsFull(db, d)
    ensures var t := Run(db, ops);
            d in t.deliveries && (t.deliveries[d] == db.deliveries[d] || t.deliveries[d] == Buried(db.deliveries[d]))
    decreases |ops|
  {
    if ops != [] {
      var t := Step(db, ops[0]);
      FullRowStep(db, ops[0], d);
      StepKeeps(db, ops[0]);
      if t.deliveries[d] == db.deliveries[d] {
        FullRowIsNeverLeased(t, ops[1..], d);
      } else {
        SuppressedIsOver();
        OverIsOver(t, ops[1..], d);
      }
    }
  }

  // ---------- what it does to the others ----------

  // The rows that a lease at that time takes before it.
  ghost function Ahead(db: Db, d: nat, now: Time, locked: set<nat>): set<nat>
    requires d in db.deliveries
  {
    set x | x in db.deliveries && Leasable(db, x, now) && x !in locked && x != d && Earlier(db, x, d)
  }

  ghost function Elements(ids: seq<nat>): set<nat> {
    set x | x in ids
  }

  lemma {:induction false} DistinctSize(ids: seq<nat>)
    requires Distinct(ids)
    ensures |Elements(ids)| == |ids|
    decreases |ids|
  {
    if ids == [] {
      assert Elements(ids) == {};
    } else {
      var rest, last := ids[..|ids| - 1], ids[|ids| - 1];
      DistinctSize(rest);
      assert ids == rest + [last] && last !in rest;
      assert Elements(ids) == Elements(rest) + {last} && last !in Elements(rest);
    }
  }

  lemma Fewer(a: set<nat>, b: set<nat>)
    requires a <= b
    ensures |a| <= |b|
  {
    assert b == a + (b - a);
  }

  lemma EarlyRowIsPicked(db: Db, now: Time, limit: int, locked: set<nat>, picked: seq<nat>, d: nat)
    requires IsPicked(db, now, limit, locked, picked) && Leasable(db, d, now) && d !in locked
    requires |Ahead(db, d, now, locked)| < EffectiveLimit(limit)
    ensures d in picked
  {
    if d !in picked {
      assert |picked| == EffectiveLimit(limit);
      DistinctSize(picked);
      forall x | x in Elements(picked) ensures x in Ahead(db, d, now, locked) {
        assert Leasable(db, x, now) && Earlier(db, x, d);
      }
      Fewer(Elements(picked), Ahead(db, d, now, locked));
    }
  }

  // A lease call that finds the row due, unlocked and among the first of its batch.
  ghost predicate MeetsRow(db: Db, op: Op, d: nat) {
    && op.LeaseBatch? && d in db.deliveries && Leasable(db, d, op.now) && d !in op.locked
    && |Ahead(db, d, op.now, op.locked)| < EffectiveLimit(op.limit)
  }

  /** While a waiting row with 100 attempts is due and among the first of a batch, no lease call leases anything: every
      one fails and changes nothing, for that row and for all others. */
  lemma {:induction false} FullRowBlocksLeasing(db: Db, ops: seq<Op>, d: nat)
    requires ValidRun(db, ops) && IsFull(db, d) && forall i :: 0 <= i < |ops| ==> MeetsRow(db, ops[i], d)
    ensures Run(db, ops) == db
    decreases |ops|
  {
    if ops != [] {
      var op := ops[0];
      assert MeetsRow(db, op, d);
      EarlyRowIsPicked(db, op.now, op.limit, op.locked, op.picked, d);
      assert OverCap(db, op.picked);
      FullRowBlocksLeasing(db, ops[1..], d);
    }
  }
}
