/** The transactions as they are executed: bulk UPDATEs followed by loops over the returned rows,
    each proved equal to its specification function. */
module OutboundStore {
  import opened Wrappers
  import opened OutboundModel
  import opened OutboundRuns

  // What the MTA client answered for one leased delivery.
  datatype MtaAnswer =
    | EnvelopeInvalid | MessageTooLarge
    | Sent(remote: string)
    | Refused(code: string, permanent: bool)
    | Failed

  // The transaction with which a worker reports an answer.
  function OutcomeOp(d: nat, worker: string, answer: MtaAnswer, now: Time): Op {
    match answer
    case EnvelopeInvalid => MarkDead(d, worker, "ENVELOPE_INVALID", now)
    case MessageTooLarge => MarkDead(d, worker, "MESSAGE_TOO_LARGE", now)
    case Sent(remote) => MarkSubmitted(d, worker, remote, now)
    case Refused(code, permanent) => if permanent then MarkDead(d, worker, code, now) else RetryLater(d, worker, code, now)
    case Failed => RetryLater(d, worker, "MTA_ERROR", now)
  }

  // The deliveries of a batch that are handed to the worker.
  function Handed(db: Db, picked: seq<nat>, now: Time): seq<nat>
    requires forall d :: d in picked ==> d in db.deliveries
    decreases |picked|
  {
    if picked == [] then []
    else
      var last := picked[|picked| - 1];
      assert last in picked;
      Handed(db, picked[..|picked| - 1], now)
      + if SuppressedNow(db, db.deliveries[last].sender, db.deliveries[last].address, now) then [] else [last]
  }

  // ---------- one UPDATE over all rows, then a loop, against row by row ----------

  // One event for each row, carrying the row's attempts.
  function LogEach(db: Db, rows: seq<nat>, action: Action, now: Time): (out: Db)
    requires forall d :: d in rows ==> d in db.deliveries
    ensures out.deliveries == db.deliveries
    decreases |rows|
  {
    if rows == [] then db
    else
      var last := rows[|rows| - 1];
      assert last in rows;
      Note(LogEach(db, rows[..|rows| - 1], action, now), last, action, db.deliveries[last].attempts, now)
  }

  function ExpireAtOnce(db: Db, rows: seq<nat>, now: Time): Db {
    db.(deliveries := map d | d in db.deliveries ::
        if d in rows
        then db.deliveries[d].(status := Retrying, leaseOwner := None, leaseUntil := None, nextAttemptAt := now)
        else db.deliveries[d])
  }

  function BuryAtOnce(db: Db, rows: seq<nat>, code: string): Db {
    db.(deliveries := map d | d in db.deliveries ::
        if d in rows then db.deliveries[d].(status := Dead, errorCode := Some(code)) else db.deliveries[d])
  }

  function LeaseAtOnce(db: Db, rows: seq<nat>, worker: string, until: Time): Db {
    db.(deliveries := map d | d in db.deliveries ::
        if d in rows
        then db.deliveries[d].(status := Leased, leaseOwner := Some(worker), leaseUntil := Some(until),
                               attempts := db.deliveries[d].attempts + 1)
        else db.deliveries[d])
  }

  lemma SplitLast(rows: seq<nat>)
    requires rows != [] && Distinct(rows)
    ensures rows[|rows| - 1] !in rows[..|rows| - 1] && Distinct(rows[..|rows| - 1])
    ensures forall d :: d in rows <==> d in rows[..|rows| - 1] || d == rows[|rows| - 1]
  {
    assert rows == rows[..|rows| - 1] + [rows[|rows| - 1]];
  }

  lemma {:induction false} ExpireRowsRow(db: Db, rows: seq<nat>, now: Time, d: nat)
    requires Distinct(rows) && (forall x :: x in rows ==> x in db.deliveries) && d in db.deliveries
    ensures var out := ExpireRows(db, rows, now);
            && out.suppressions == db.suppressions && out.pressure == db.pressure && out.receipts == db.receipts
            && out.deliveries[d]
               == (if d in rows then Released(db.deliveries[d], Retrying).(nextAttemptAt := now) else db.deliveries[d])
    decreases |rows|
  {
    if rows != [] {
      SplitLast(rows);
      ExpireRowsRow(db, rows[..|rows| - 1], now, d);
    }
  }

  lemma {:induction false} ExpireRowsLog(db: Db, bulk: Db, rows: seq<nat>, now: Time)
    requires Distinct(rows) && forall d :: d in rows ==> d in db.deliveries && d in bulk.deliveries
    requires forall d :: d in rows ==> bulk.deliveries[d].attempts == db.deliveries[d].attempts
    requires bulk.events == db.events && bulk.history == db.history
    ensures var out, log := ExpireRows(db, rows, now), LogEach(bulk, rows, LeaseExpire, now);
            out.events == log.events && out.history == log.history
    decreases |rows|
  {
    if rows != [] {
      SplitLast(rows);
      ExpireRowsLog(db, bulk, rows[..|rows| - 1], now);
      ExpireRowsRow(db, rows[..|rows| - 1], now, rows[|rows| - 1]);
    }
  }

  /** The expiry as executed is the row-by-row expiry. */
  lemma ExpireAtOnceIsExpireRows(db: Db, rows: seq<nat>, now: Time)
    requires Distinct(rows) && forall d :: d in rows ==> d in db.deliveries
    ensures LogEach(ExpireAtOnce(db, rows, now), rows, LeaseExpire, now) == ExpireRows(db, rows, now)
  {
    var bulk, out := ExpireAtOnce(db, rows, now), ExpireRows(db, rows, now);
    ExpireRowsLog(db, bulk, rows, now);
    LogEachFrame(bulk, rows, LeaseExpire, now);
    ExpireRowsTables(db, rows, now);
    forall d | d in db.deliveries ensures out.deliveries[d] == bulk.deliveries[d] {
      ExpireRowsRow(db, rows, now, d);
    }
    assert out.deliveries == bulk.deliveries;
  }

  lemma {:induction false} ExpireRowsTables(db: Db, rows: seq<nat>, now: Time)
    requires forall d :: d in rows ==> d in db.deliveries
    ensures var out := ExpireRows(db, rows, now);
            out.suppressions == db.suppressions && out.pressure == db.pressure && out.receipts == db.receipts
    decreases |rows|
  {
    if rows != [] {
      ExpireRowsTables(db, rows[..|rows| - 1], now);
      assert rows[|rows| - 1] in rows;
    }
  }

  lemma {:induction false} LogEachFrame(db: Db, rows: seq<nat>, action: Action, now: Time)
    requires forall d :: d in rows ==> d in db.deliveries
    ensures var out := LogEach(db, rows, action, now);
            out.suppressions == db.suppressions && out.pressure == db.pressure && out.receipts == db.receipts
    decreases |rows|
  {
    if rows != [] {
      LogEachFrame(db, rows[..|rows| - 1], action, now);
      assert rows[|rows| - 1] in rows;
    }
  }

  lemma {:induction false} BuryRowsRow(db: Db, rows: seq<nat>, code: string, now: Time, d: nat)
    requires Distinct(rows) && (forall x :: x in rows ==> x in db.deliveries) && d in db.deliveries
    ensures BuryRows(db, rows, code, now).deliveries[d]
            == (if d in rows then db.deliveries[d].(status := Dead, errorCode := Some(code)) else db.deliveries[d])
    decreases |rows|
  {
    if rows != [] {
      SplitLast(rows);
      BuryRowsRow(db, rows[..|rows| - 1], code, now, d);
    }
  }

  lemma {:induction false} BuryRowsLog(db: Db, bulk: Db, rows: seq<nat>, code: string, now: Time)
    requires Distinct(rows) && forall d :: d in rows ==> d in db.deliveries && d in bulk.deliveries
    requires forall d :: d in rows ==> bulk.deliveries[d].attempts == db.deliveries[d].attempts
    requires bulk.events == db.events && bulk.history == db.history
    ensures var out, log := BuryRows(db, rows, code, now), LogEach(bulk, rows, Bury, now);
            out.events == log.events && out.history == log.history
    decreases |rows|
  {
    if rows != [] {
      SplitLast(rows);
      BuryRowsLog(db, bulk, rows[..|rows| - 1], code, now);
      BuryRowsRow(db, rows[..|rows| - 1], code, now, rows[|rows| - 1]);
    }
  }

  /** Burying all rows in one UPDATE and then logging is burying them one by one. */
  lemma BuryAtOnceIsBuryRows(db: Db, rows: seq<nat>, code: string, now: Time)
    requires Distinct(rows) && forall d :: d in rows ==> d in db.deliveries
    ensures LogEach(BuryAtOnce(db, rows, code), rows, Bury, now) == BuryRows(db, rows, code, now)
  {
    var bulk, out := BuryAtOnce(db, rows, code), BuryRows(db, rows, code, now);
    BuryRowsLog(db, bulk, rows, code, now);
    LogEachFrame(bulk, rows, Bury, now);
    BuryRowsFrame(db, rows, code, now);
    forall d | d in db.deliveries ensures out.deliveries[d] == bulk.deliveries[d] {
      BuryRowsRow(db, rows, code, now, d);
    }
    assert out.deliveries == bulk.deliveries;
  }

  // The suppression check of one freshly leased row.
  function CheckRow(db: Db, d: nat, now: Time): Db
    requires d in db.deliveries
  {
    var row := db.deliveries[d];
    if SuppressedNow(db, row.sender, row.address, now)
    then Note(Note(db.(deliveries := db.deliveries[d := Released(row, Dead).(errorCode := Some(SUPPRESSED_CODE))]),
                   d, Suppress, row.attempts, now), d, Bury, row.attempts, now)
    else Note(db, d, Lease, row.attempts, now)
  }

  function CheckRows(db: Db, rows: seq<nat>, now: Time): (out: Db)
    requires forall d :: d in rows ==> d in db.deliveries
    ensures out.deliveries.Keys == db.deliveries.Keys
    ensures out.suppressions == db.suppressions && out.pressure == db.pressure && out.receipts == db.receipts
    decreases |rows|
  {
    if rows == [] then db
    else
      assert rows[|rows| - 1] in rows;
      CheckRow(CheckRows(db, rows[..|rows| - 1], now), rows[|rows| - 1], now)
  }

  lemma {:induction false} CheckRowsElsewhere(db: Db, rows: seq<nat>, now: Time, d: nat)
    requires (forall x :: x in rows ==> x in db.deliveries) && d in db.deliveries && d !in rows
    ensures CheckRows(db, rows, now).deliveries[d] == db.deliveries[d]
    decreases |rows|
  {
    if rows != [] {
      assert rows[|rows| - 1] in rows;
      CheckRowsElsewhere(db, rows[..|rows| - 1], now, d);
    }
  }

  lemma {:induction false} LeaseRowsElsewhere(db: Db, rows: seq<nat>, worker: string, until: Time, now: Time, d: nat)
    requires (forall x :: x in rows ==> x in db.deliveries) && d in db.deliveries && d !in rows
    ensures LeaseRows(db, rows, worker, until, now).deliveries[d] == db.deliveries[d]
    decreases |rows|
  {
    if rows != [] {
      assert rows[|rows| - 1] in rows;
      LeaseRowsElsewhere(db, rows[..|rows| - 1], worker, until, now, d);
    }
  }

  lemma {:induction false} LeaseRowsTables(db: Db, rows: seq<nat>, worker: string, until: Time, now: Time)
    requires forall x :: x in rows ==> x in db.deliveries
    ensures var out := LeaseRows(db, rows, worker, until, now);
            out.suppressions == db.suppressions && out.pressure == db.pressure && out.receipts == db.receipts
    decreases |rows|
  {
    if rows != [] {
      LeaseRowsTables(db, rows[..|rows| - 1], worker, until, now);
      assert rows[|rows| - 1] in rows;
    }
  }

  ghost predicate Bumped(db: Db, bulk: Db, rows: seq<nat>, worker: string, until: Time) {
    forall d :: d in rows ==>
      d in db.deliveries && d in bulk.deliveries
      && bulk.deliveries[d] == db.deliveries[d].(status := Leased, leaseOwner := Some(worker), leaseUntil := Some(until),
                                                 attempts := db.deliveries[d].attempts + 1)
  }

  lemma LeaseRowIsCheckRow(db: Db, bulk: Db, d: nat, worker: string, until: Time, now: Time)
    requires d in db.deliveries && d in bulk.deliveries
    requires bulk.deliveries[d] == db.deliveries[d].(status := Leased, leaseOwner := Some(worker), leaseUntil := Some(until),
                                                     attempts := db.deliveries[d].attempts + 1)
    requires bulk.events == db.events && bulk.history == db.history && bulk.suppressions == db.suppressions
    ensures var out, log := LeaseRow(db, d, worker, until, now), CheckRow(bulk, d, now);
            out.events == log.events && out.history == log.history && out.deliveries[d] == log.deliveries[d]
  {
    var row, bumped, a := db.deliveries[d], bulk.deliveries[d], db.deliveries[d].attempts + 1;
    if SuppressedNow(db, row.sender, row.address, now) {
      assert SuppressedNow(bulk, bumped.sender, bumped.address, now);
      assert Released(row, Dead).(attempts := a, errorCode := Some(SUPPRESSED_CODE))
          == Released(bumped, Dead).(errorCode := Some(SUPPRESSED_CODE));
    } else {
      assert !SuppressedNow(bulk, bumped.sender, bumped.address, now);
    }
  }

  lemma {:induction false} LeaseRowsLog(db: Db, bulk: Db, rows: seq<nat>, worker: string, until: Time, now: Time)
    requires Distinct(rows) && Bumped(db, bulk, rows, worker, until)
    requires bulk == db.(deliveries := bulk.deliveries)
    ensures var out, log := LeaseRows(db, rows, worker, until, now), CheckRows(bulk, rows, now);
            && out.events == log.events && out.history == log.history
            && (forall d :: d in rows ==> out.deliveries[d] == log.deliveries[d])
    decreases |rows|
  {
    if rows != [] {
      var rest, last := rows[..|rows| - 1], rows[|rows| - 1];
      SplitLast(rows);
      LeaseRowsLog(db, bulk, rest, worker, until, now);
      LeaseRowsElsewhere(db, rest, worker, until, now, last);
      CheckRowsElsewhere(bulk, rest, now, last);
      LeaseRowsTables(db, rest, worker, until, now);
      LeaseRowIsCheckRow(LeaseRows(db, rest, worker, until, now), CheckRows(bulk, rest, now), last, worker, until, now);
    }
  }

  lemma {:induction false} HandedAfterUpdate(db: Db, bulk: Db, rows: seq<nat>, worker: string, until: Time, now: Time)
    requires Bumped(db, bulk, rows, worker, until) && bulk.suppressions == db.suppressions
    ensures Handed(bulk, rows, now) == Handed(db, rows, now)
    decreases |rows|
  {
    if rows != [] {
      assert rows[|rows| - 1] in rows;
      HandedAfterUpdate(db, bulk, rows[..|rows| - 1], worker, until, now);
    }
  }

  /** The batch lease as executed is the row-by-row lease. */
  lemma LeaseAtOnceIsLeaseRows(db: Db, picked: seq<nat>, worker: string, until: Time, now: Time)
    requires Distinct(picked) && forall d :: d in picked ==> d in db.deliveries
    ensures CheckRows(LeaseAtOnce(db, picked, worker, until), picked, now) == LeaseRows(db, picked, worker, until, now)
  {
    var bulk := LeaseAtOnce(db, picked, worker, until);
    var out, log := LeaseRows(db, picked, worker, until, now), CheckRows(bulk, picked, now);
    LeaseRowsTables(db, picked, worker, until, now);
    LeaseRowsLog(db, bulk, picked, worker, until, now);
    forall d | d in db.deliveries ensures out.deliveries[d] == log.deliveries[d] {
      if d !in picked {
        LeaseRowsElsewhere(db, picked, worker, until, now, d);
        CheckRowsElsewhere(bulk, picked, now, d);
      }
    }
    assert out.deliveries == log.deliveries;
  }

  class MailRepository {
    var deliveries: map<nat, Delivery>
    var events: map<nat, Event>
    var nextEventId: nat
    var suppressions: map<(nat, string), Suppression>
    var pressure: map<string, Pressure>
    var receipts: map<string, Receipt>
    ghost var history: seq<Event>

    ghost predicate Valid()
      reads this
    {
      nextEventId == |history|
    }

    ghost function View(): Db
      reads this
    {
      Db(deliveries, events, history, suppressions, pressure, receipts)
    }

    constructor ()
      ensures Valid() && View() == EMPTY
    {
      deliveries, events, nextEventId, suppressions, pressure, receipts, history := map[], map[], 0, map[], map[], map[], [];
    }

    method InsertEvent(d: nat, action: Action, attempt: nat, now: Time)
      requires Valid()
      modifies this
      ensures Valid() && View() == Note(old(View()), d, action, attempt, now)
    {
      var e := Event(d, action, attempt, now);
      events := events[nextEventId := e];
      nextEventId := nextEventId + 1;
      history := history + [e];
    }

    predicate Suppressed(sender: nat, address: string, now: Time)
      reads this
      ensures Suppressed(sender, address, now) == SuppressedNow(View(), sender, address, now)
    {
      (sender, address) in suppressions
      && suppressions[(sender, address)].until.Some? && suppressions[(sender, address)].until.value > now
    }

    /** applySendRecipients for the external recipients; a suppressed one rolls everything back. */
    method ApplySendRecipients(sender: nat, recipients: seq<Recipient>, allowed: bool, now: Time) returns (reply: Reply)
      requires Valid()
      modifies this
      ensures Valid() && (View(), reply) == SendStep(old(View()), sender, recipients, allowed, now)
    {
      if |recipients| > 0 && !allowed { return Forbidden; }
      var savedDeliveries, savedEvents, savedId := deliveries, events, nextEventId;
      ghost var db, savedHistory := View(), history;
      for i := 0 to |recipients|
        invariant Valid()
        invariant forall k :: 0 <= k < i ==> !SuppressedNow(db, sender, recipients[k].address, now)
        invariant View() == SendRows(db, sender, recipients[..i], now)
        invariant suppressions == db.suppressions && pressure == db.pressure && receipts == db.receipts
      {
        var r := recipients[i];
        assert recipients[..i + 1][..i] == recipients[..i];
        if Suppressed(sender, r.address, now) {
          assert SuppressedNow(db, sender, recipients[i].address, now);
          deliveries, events, nextEventId, history := savedDeliveries, savedEvents, savedId, savedHistory;
          return Conflict;
        }
        var queued := exists k | k in events :: events[k].delivery == r.id && events[k].action == Queue;
        if r.id !in deliveries {
          deliveries := deliveries[r.id := Delivery(sender, r.address, r.domain, Ready, 0, now, None, None, None, None, None)];
        }
        if !queued { InsertEvent(r.id, Queue, 0, now); }
      }
      assert recipients[..|recipients|] == recipients;
      return Accepted;
    }

    // One row that the UPDATE returned: handed out, or buried when its recipient is suppressed.
    method CheckOne(d: nat, now: Time) returns (handed: bool)
      requires Valid() && d in deliveries
      modifies this
      ensures Valid() && View() == CheckRow(old(View()), d, now)
      ensures handed == !SuppressedNow(old(View()), old(deliveries)[d].sender, old(deliveries)[d].address, now)
    {
      var row := deliveries[d];
      handed := !Suppressed(row.sender, row.address, now);
      if handed {
        InsertEvent(d, Lease, row.attempts, now);
      } else {
        deliveries := deliveries[d := row.(status := Dead, leaseOwner := None, leaseUntil := None, errorCode := Some(SUPPRESSED_CODE))];
        InsertEvent(d, Suppress, row.attempts, now);
        InsertEvent(d, Bury, row.attempts, now);
      }
    }

    // The loop of LeaseOutbound over the rows its UPDATE returned.
    method CheckLeased(picked: seq<nat>, now: Time) returns (out: seq<nat>)
      requires Valid() && Distinct(picked) && forall d :: d in picked ==> d in deliveries
      modifies this
      ensures Valid() && View() == CheckRows(old(View()), picked, now)
      ensures out == Handed(old(View()), picked, now)
    {
      out := [];
      ghost var bulk := View();
      for i := 0 to |picked|
        invariant Valid() && (forall d :: d in picked[..i] ==> d in picked) && View() == CheckRows(bulk, picked[..i], now)
        invariant out == Handed(bulk, picked[..i], now)
      {
        var d := picked[i];
        assert picked[..i + 1] == picked[..i] + [d] && picked[..i + 1][..i] == picked[..i] && d in picked;
        assert d !in picked[..i];
        CheckRowsElsewhere(bulk, picked[..i], now, d);
        var handed := CheckOne(d, now);
        if handed { out := out + [d]; }
      }
      assert picked[..|picked|] == picked;
    }

    /** LeaseOutbound: one UPDATE over the picked rows, then a suppression check for each. */
    method LeaseOutbound(worker: string, limit: int, lease: Time, now: Time, ghost locked: set<nat>, picked: seq<nat>)
      returns (reply: Reply, out: seq<nat>)
      requires Valid() && IsPicked(View(), now, limit, locked, picked)
      modifies this
      ensures Valid() && (View(), reply) == LeaseStep(old(View()), worker, limit, lease, now, picked)
      ensures out == if reply == Accepted then Handed(old(View()), picked, now) else []
    {
      if Blank(worker) || lease <= 0 { return Invalid, []; }
      ghost var db := View();
      assert forall d :: d in picked ==> Leasable(db, d, now);
      if exists d :: d in picked && d in deliveries && deliveries[d].attempts >= ATTEMPTS_CAP {
        assert OverCap(db, picked);
        return CheckFailed, [];
      }
      var until := LeaseExpiry(lease, now);
      deliveries := map d | d in deliveries ::
        if d in picked
        then deliveries[d].(status := Leased, leaseOwner := Some(worker), leaseUntil := Some(until), attempts := deliveries[d].attempts + 1)
        else deliveries[d];
      assert View() == LeaseAtOnce(db, picked, worker, until);
      HandedAfterUpdate(db, View(), picked, worker, until, now);
      out := CheckLeased(picked, now);
      LeaseAtOnceIsLeaseRows(db, picked, worker, until, now);
      return Accepted, out;
    }

    method InsertEvents(rows: seq<nat>, action: Action, now: Time)
      requires Valid() && forall d :: d in rows ==> d in deliveries
      modifies this
      ensures Valid() && View() == LogEach(old(View()), rows, action, now)
    {
      ghost var db := View();
      for i := 0 to |rows|
        invariant Valid() && (forall d :: d in rows[..i] ==> d in rows) && View() == LogEach(db, rows[..i], action, now)
      {
        assert rows[..i + 1] == rows[..i] + [rows[i]] && rows[..i + 1][..i] == rows[..i] && rows[i] in rows;
        InsertEvent(rows[i], action, deliveries[rows[i]].attempts, now);
      }
      assert rows[..|rows|] == rows;
    }

    /** RecoverExpiredOutboundLeases. */
    method RecoverExpiredOutboundLeases(now: Time, rows: seq<nat>)
      requires Valid() && Enabled(View(), RecoverExpired(rows, now))
      modifies this
      ensures Valid() && View() == ExpireRows(old(View()), rows, now)
    {
      ghost var db := View();
      assert forall d :: d in rows ==> Expired(db, d, now);
      deliveries := map d | d in deliveries ::
        if d in rows
        then deliveries[d].(status := Retrying, leaseOwner := None, leaseUntil := None, nextAttemptAt := now)
        else deliveries[d];
      assert View() == ExpireAtOnce(db, rows, now);
      InsertEvents(rows, LeaseExpire, now);
      ExpireAtOnceIsExpireRows(db, rows, now);
    }

    // UPDATE ... SET status='DEAD' over a set of rows, then one DEAD event for each.
    method BuryAll(rows: seq<nat>, code: string, now: Time)
      requires Valid() && Distinct(rows) && forall d :: d in rows ==> d in deliveries
      modifies this
      ensures Valid() && View() == BuryRows(old(View()), rows, code, now)
    {
      ghost var db := View();
      deliveries := map d | d in deliveries ::
        if d in rows then deliveries[d].(status := Dead, errorCode := Some(code)) else deliveries[d];
      assert View() == BuryAtOnce(db, rows, code);
      InsertEvents(rows, Bury, now);
      BuryAtOnceIsBuryRows(db, rows, code, now);
    }

    method RetryOutbound(d: nat, worker: string, code: string, now: Time) returns (reply: Reply)
      requires Valid()
      modifies this
      ensures Valid() && (View(), reply) == RetryStep(old(View()), d, worker, code, now)
    {
      if Blank(worker) || |code| > 80 { return Invalid; }
      if d !in deliveries || deliveries[d].status != Leased || deliveries[d].leaseOwner != Some(worker) { return Conflict; }
      var attempt := deliveries[d].attempts;
      var status, action, delay := Retrying, Retry, Backoff(attempt);
      if attempt >= MAX_ATTEMPTS { status, action, delay := Dead, Bury, 0; }
      deliveries := deliveries[d := deliveries[d].(status := status, leaseOwner := None, leaseUntil := None,
                                                   nextAttemptAt := now + delay, errorCode := NonBlank(code))];
      InsertEvent(d, action, attempt, now);
      return Accepted;
    }

    method MarkOutboundSubmitted(d: nat, worker: string, remote: string, now: Time) returns (reply: Reply)
      requires Valid()
      modifies this
      ensures Valid() && (View(), reply) == SubmitStep(old(View()), d, worker, remote, now)
    {
      if Blank(worker) || remote == "" || |remote| > 255 { return Invalid; }
      if d !in deliveries || deliveries[d].status != Leased || deliveries[d].leaseOwner != Some(worker) { return Conflict; }
      var attempt := deliveries[d].attempts;
      deliveries := deliveries[d := deliveries[d].(status := Submitted, leaseOwner := None, leaseUntil := None,
                                                   remoteQueueId := Some(remote), submittedAt := Some(now))];
      InsertEvent(d, Submit, attempt, now);
      return Accepted;
    }

    method FinishOutbound(d: nat, worker: string, delivered: bool, remote: string, code: string, now: Time) returns (reply: Reply)
      requires Valid()
      modifies this
      ensures Valid() && (View(), reply) == FinishStep(old(View()), d, worker, delivered, remote, code, now)
    {
      if Blank(worker) || |remote| > 255 || |code| > 80 { return Invalid; }
      if d !in deliveries || deliveries[d].status != Leased || deliveries[d].leaseOwner != Some(worker) { return Conflict; }
      var attempt := deliveries[d].attempts;
      if delivered {
        deliveries := deliveries[d := deliveries[d].(status := Delivered, leaseOwner := None, leaseUntil := None,
                                                     remoteQueueId := NonBlank(remote))];
        InsertEvent(d, Deliver, attempt, now);
      } else {
        deliveries := deliveries[d := deliveries[d].(status := Bounced, leaseOwner := None, leaseUntil := None,
                                                     errorCode := NonBlank(code))];
        InsertEvent(d, Bounce, attempt, now);
      }
      return Accepted;
    }

    method MarkOutboundDead(d: nat, worker: string, code: string, now: Time) returns (reply: Reply)
      requires Valid()
      modifies this
      ensures Valid() && (View(), reply) == DeadStep(old(View()), d, worker, code, now)
    {
      if Blank(worker) || |code| > 80 { return Invalid; }
      if d !in deliveries || deliveries[d].status != Leased || deliveries[d].leaseOwner != Some(worker) { return Conflict; }
      var attempt := deliveries[d].attempts;
      deliveries := deliveries[d := deliveries[d].(status := Dead, leaseOwner := None, leaseUntil := None, errorCode := NonBlank(code))];
      InsertEvent(d, Bury, attempt, now);
      return Accepted;
    }

    /** GatewayWorker.process: whatever the MTA answers, the delivery leaves the worker's lease,
        unless the lease was already lost or the MTA returned an unusable queue id or code. */
    method Process(d: nat, worker: string, answer: MtaAnswer, now: Time) returns (reply: Reply)
      requires Valid()
      modifies this
      ensures Valid() && View() == Step(old(View()), OutcomeOp(d, worker, answer, now))
      ensures reply == Accepted <==> View() != old(View())
      ensures reply == Accepted ==> !HoldsLease(View(), d, worker)
    {
      match answer
      case EnvelopeInvalid => reply := MarkOutboundDead(d, worker, "ENVELOPE_INVALID", now);
      case MessageTooLarge => reply := MarkOutboundDead(d, worker, "MESSAGE_TOO_LARGE", now);
      case Sent(remote) => reply := MarkOutboundSubmitted(d, worker, remote, now);
      case Refused(code, permanent) =>
        if permanent { reply := MarkOutboundDead(d, worker, code, now); } else { reply := RetryOutbound(d, worker, code, now); }
      case Failed => reply := RetryOutbound(d, worker, "MTA_ERROR", now);
    }

    // recordDomainDeliveryOutcomeTx.
    method RecordDomainOutcome(domain: string, delivered: bool, class_: FailureClass, now: Time)
      requires Valid()
      modifies this
      ensures Valid() && View() == Observe(old(View()), domain, delivered, class_, now)
    {
      var transient: nat, hard: nat, successes: nat := 0, 0, 0;
      var windowStarted, cooldownUntil := now, None;
      if domain in pressure {
        var row := pressure[domain];
        transient, hard, successes := row.transient, row.hard, row.successes;
        windowStarted, cooldownUntil := row.windowStarted, row.cooldownUntil;
      }
      if now - windowStarted >= PRESSURE_WINDOW || now < windowStarted {
        transient, hard, successes, windowStarted := 0, 0, 0, now;
        if cooldownUntil.Some? && !(cooldownUntil.value > now) { cooldownUntil := None; }
      }
      if delivered {
        successes := successes + 1;
      } else if class_ == Transient {
        transient := transient + 1;
        var d := Cooldown(transient);
        if d > 0 && (cooldownUntil == None || now + d > cooldownUntil.value) { cooldownUntil := Some(now + d); }
      } else if class_ == Hard {
        hard := hard + 1;
      }
      pressure := pressure[domain := Pressure(transient, hard, successes, windowStarted, cooldownUntil, now)];
    }

    // recordHardBounceTx: whether the recipient is suppressed from now on.
    method RecordHardBounce(sender: nat, address: string, now: Time) returns (created: bool)
      requires Valid()
      modifies this`suppressions
      ensures Valid()
      ensures var hit := HardBounced(Lookup(old(suppressions), (sender, address)), now, HARD_BOUNCE_WINDOW, HARD_BOUNCE_SUPPRESSION_TTL);
              suppressions == old(suppressions)[(sender, address) := hit] && created == hit.until.Some?
    {
      var key := (sender, address);
      if key !in suppressions {
        suppressions := suppressions[key := Suppression(1, now, now, None)];
        return false;
      }
      var count, first := suppressions[key].count, suppressions[key].first;
      if now - suppressions[key].last > HARD_BOUNCE_WINDOW { count, first := 0, now; }
      count := count + 1;
      var until := None;
      if count >= HARD_BOUNCE_THRESHOLD { until := Some(now + HARD_BOUNCE_SUPPRESSION_TTL); }
      suppressions := suppressions[key := Suppression(count, first, now, until)];
      return until.Some?;
    }

    /** ApplyOutboundCallback; `fanout` is what its UPDATE over the suppressed recipient returns. */
    method ApplyOutboundCallback(cb: Callback, now: Time, fanout: seq<nat>) returns (reply: Reply)
      requires Valid() && Enabled(View(), Report(cb, fanout, now))
      modifies this
      ensures Valid() && (View(), reply) == CallbackStep(old(View()), cb, now, fanout)
    {
      if !ValidCallback(cb) { return Invalid; }
      if cb.source in receipts {
        var seen := receipts[cb.source];
        if seen.delivery != cb.delivery || seen.kind != cb.kind { return Mismatch; }
        return Duplicate;
      }
      if cb.delivery !in deliveries { return NotFound; }
      var row := deliveries[cb.delivery];
      if row.remoteQueueId.Some? && cb.remote != "" && row.remoteQueueId.value != cb.remote { return Mismatch; }
      if cb.kind == DeliverReport {
        if row.status != Delivered {
          if row.status != Submitted { return Conflict; }
          deliveries := deliveries[cb.delivery := row.(status := Delivered, errorCode := None)];
          InsertEvent(cb.delivery, Deliver, row.attempts, now);
          RecordDomainOutcome(row.domain, true, Unknown, now);
        }
      } else if row.status != Bounced {
        if row.status != Submitted && row.status != Delivered { return Conflict; }
        var class_ := Classify(cb.code);
        deliveries := deliveries[cb.delivery := row.(status := Bounced, errorCode := NonBlank(cb.code))];
        InsertEvent(cb.delivery, Bounce, row.attempts, now);
        RecordDomainOutcome(row.domain, false, class_, now);
        if class_ == Hard {
          var created := RecordHardBounce(row.sender, row.address, now);
          if created {
            InsertEvent(cb.delivery, Suppress, row.attempts, now);
            BuryAll(fanout, SUPPRESSED_CODE, now);
          }
        }
      }
      receipts := receipts[cb.source := Receipt(cb.delivery, cb.kind, now)];
      return Accepted;
    }

    method RetryDeadLetter(d: nat, actor: string, now: Time) returns (reply: Reply)
      requires Valid()
      modifies this
      ensures Valid() && (View(), reply) == DeadRetryStep(old(View()), d, actor, now)
    {
      if Blank(actor) || |actor| > 120 || HasControl(actor) { return Invalid; }
      if d !in deliveries { return NotFound; }
      var row := deliveries[d];
      if row.status != Dead { return Conflict; }
      if !RetryableDeadCode(if row.errorCode.Some? then row.errorCode.value else "") { return Forbidden; }
      if Suppressed(row.sender, row.address, now) { return Forbidden; }
      if |ManualIds(events, d)| >= MAX_MANUAL_DEAD_RETRIES { return RateLimited; }
      deliveries := deliveries[d := row.(status := Retrying, attempts := 0, nextAttemptAt := now, leaseOwner := None,
                                         leaseUntil := None, errorCode := None, submittedAt := None)];
      InsertEvent(d, DeadRetry, row.attempts, now);
      return Accepted;
    }

    method MaintainDeliverability(now: Time, stale: seq<nat>, doomed: Doomed)
      requires Valid() && Enabled(View(), Maintain(stale, doomed, now))
      modifies this
      ensures Valid() && View() == MaintainStep(old(View()), now, stale, doomed)
    {
      BuryAll(stale, "SUBMITTED_STALE", now);
      receipts := receipts - doomed.receipts;
      events := events - doomed.events;
      pressure := pressure - doomed.pressure;
    }
  }
}
