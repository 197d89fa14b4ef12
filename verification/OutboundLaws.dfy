/** The log of a delivery explains its row, and its events are capped over every run. */
module OutboundLaws {
  import opened Wrappers
  import opened OutboundModel
  import opened OutboundLog
  import opened OutboundRuns

  /** In every reachable state, replaying the complete log of a delivery gives its row's status
      and attempts, and a row carries a lease exactly while it is LEASED. */
  lemma LogExplainsRow(ops: seq<Op>, d: nat)
    requires ValidRun(EMPTY, ops) && d in Run(EMPTY, ops).deliveries
    ensures var db := Run(EMPTY, ops);
            var row := db.deliveries[d];
            && Replay(LogOf(db.history, d)) == At(row.status, row.attempts, |ManualIds(db.events, d)|)
            && (row.status == Leased <==> row.leaseOwner.Some? && row.leaseUntil.Some?)
            && (row.status != Leased <==> row.leaseOwner == None && row.leaseUntil == None)
            && (row.status == Leased ==> row.attempts >= 1)
  {
    RunKeeps(EMPTY, ops);
    var db := Run(EMPTY, ops);
    assert Explained(db, d);
    if db.deliveries[d].status == Leased {
      LeasedHasAttempts(db, d);
    }
  }

  /** Over any run, however long and however interleaved, one delivery sees at most 3 manual
      retries, 4 submissions to the MTA and 28 retries; the manual retries counted are those of
      the pruned table, the other events those of the complete log. */
  lemma EventCaps(ops: seq<Op>, d: nat)
    requires ValidRun(EMPTY, ops) && d in Run(EMPTY, ops).deliveries
    ensures var db := Run(EMPTY, ops);
            var log := LogOf(db.history, d);
            && |ManualIds(db.events, d)| == Count(log, DeadRetry) <= 3
            && Count(log, Submit) <= 4
            && Count(log, Retry) <= 28
            && Count(log, Deliver) <= 1
            && Count(log, Bounce) <= 1
            && Count(log, LeaseExpire) + Count(log, Retry) + Count(log, Submit) <= Count(log, Lease)
  {
    RunKeeps(EMPTY, ops);
    assert Explained(Run(EMPTY, ops), d);
    AcceptedLogBounds(LogOf(Run(EMPTY, ops).history, d));
  }
}
