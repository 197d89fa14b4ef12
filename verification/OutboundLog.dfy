/** The life of one delivery as a finite automaton over its event log, and what every
    accepted log satisfies. */
module OutboundLog {
  import opened OutboundModel

  datatype Fold = Unqueued | At(status: Status, attempts: nat, manual: nat) | Rejected

  // The status, attempts and number of manual retries after one more event, or Rejected when
  // the event cannot happen there.
  function Next(f: Fold, e: Event): Fold {
    match f
    case Rejected => Rejected
    case Unqueued => if e.action == Queue && e.attempt == 0 then At(Ready, 0, 0) else Rejected
    case At(st, a, m) =>
      match e.action
      case Queue => if e.attempt == 0 then f else Rejected
      case Lease => if st in {Ready, Retrying} && e.attempt == a + 1 then At(Leased, a + 1, m) else Rejected
      case LeaseExpire => if st == Leased && e.attempt == a then At(Retrying, a, m) else Rejected
      case Retry => if st == Leased && e.attempt == a && a < MAX_ATTEMPTS then At(Retrying, a, m) else Rejected
      case Submit => if st == Leased && e.attempt == a then At(Submitted, a, m) else Rejected
      case Deliver => if st in {Leased, Submitted} && e.attempt == a then At(Delivered, a, m) else Rejected
      case Bounce => if st in {Leased, Submitted, Delivered} && e.attempt == a then At(Bounced, a, m) else Rejected
      case Suppress =>
        // A suppressed lease counts the attempt before it buries the row; a bounce only annotates.
        if (st in {Ready, Retrying} && e.attempt == a + 1) || (st == Bounced && e.attempt == a) then f else Rejected
      case Bury =>
        if (st in {Ready, Retrying} && a <= e.attempt <= a + 1) || (st in {Leased, Submitted} && e.attempt == a)
        then At(Dead, e.attempt, m) else Rejected
      case DeadRetry =>
        if st == Dead && e.attempt == a && m < MAX_MANUAL_DEAD_RETRIES then At(Retrying, 0, m + 1) else Rejected
  }

  function Replay(log: seq<Event>): Fold
    decreases |log|
  {
    if log == [] then Unqueued else Next(Replay(log[..|log| - 1]), log[|log| - 1])
  }

  function Count(log: seq<Event>, action: Action): nat
    decreases |log|
  {
    if log == [] then 0
    else Count(log[..|log| - 1], action) + (if log[|log| - 1].action == action then 1 else 0)
  }

  function LogOf(history: seq<Event>, d: nat): seq<Event>
    decreases |history|
  {
    if history == [] then []
    else
      var rest := LogOf(history[..|history| - 1], d);
      if history[|history| - 1].delivery == d then rest + [history[|history| - 1]] else rest
  }

  lemma LogOfAppend(history: seq<Event>, e: Event, d: nat)
    ensures LogOf(history + [e], d) == if e.delivery == d then LogOf(history, d) + [e] else LogOf(history, d)
  {
    assert (history + [e])[..|history|] == history;
  }

  lemma ReplayAppend(log: seq<Event>, e: Event)
    ensures Replay(log + [e]) == Next(Replay(log), e)
    ensures forall action :: Count(log + [e], action) == Count(log, action) + (if e.action == action then 1 else 0)
  {
    assert (log + [e])[..|log|] == log;
  }

  lemma {:induction false} LogOfUnknown(history: seq<Event>, d: nat)
    requires forall i :: 0 <= i < |history| ==> history[i].delivery != d
    ensures LogOf(history, d) == []
    decreases |history|
  {
    if history != [] {
      LogOfUnknown(history[..|history| - 1], d);
    }
  }

  function Min(a: int, b: int): int { if a < b then a else b }

  // What holds at each point of an accepted log. Attempts strictly grow between manual retries,
  // a RETRY uses up one of the attempts 1..7 of its epoch, and every expiry, retry and
  // submission consumes a lease of its own.
  ghost predicate Bounded(f: Fold, n: Action -> nat) {
    match f
    case Rejected => false
    case Unqueued => forall action :: n(action) == 0
    case At(st, a, m) =>
      && m <= MAX_MANUAL_DEAD_RETRIES
      && n(DeadRetry) == m
      && n(Submit) <= m + (if st in {Submitted, Delivered, Bounced, Dead} then 1 else 0)
      && n(Retry) <= 7 * m + Min(7, if st == Leased then a - 1 else a)
      && (st == Leased ==> a >= 1)
      && n(Deliver) <= (if st in {Delivered, Bounced} then 1 else 0)
      && n(Bounce) == (if st == Bounced then 1 else 0)
      && n(LeaseExpire) + n(Retry) + n(Submit) + (if st == Leased then 1 else 0) <= n(Lease)
  }

  lemma BoundedStep(f: Fold, e: Event, n: Action -> nat, n': Action -> nat)
    requires Bounded(f, n) && Next(f, e) != Rejected
    requires forall action :: n'(action) == n(action) + (if e.action == action then 1 else 0)
    ensures Bounded(Next(f, e), n')
  {
    match f
    case Unqueued =>
    case At(st, a, m) =>
      match e.action
      case Queue =>
      case Lease =>
      case LeaseExpire =>
      case Retry =>
      case Submit =>
      case Deliver =>
      case Bounce =>
      case Suppress =>
      case Bury =>
      case DeadRetry =>
  }

  /** Every accepted log respects the caps, however its events interleave. */
  lemma {:induction false} AcceptedLogBounds(log: seq<Event>)
    requires Replay(log) != Rejected
    ensures Bounded(Replay(log), action => Count(log, action))
    ensures Count(log, DeadRetry) <= 3 && Count(log, Submit) <= 4 && Count(log, Retry) <= 28
    ensures Count(log, Deliver) <= 1 && Count(log, Bounce) <= 1
    ensures Count(log, LeaseExpire) + Count(log, Retry) + Count(log, Submit) <= Count(log, Lease)
    decreases |log|
  {
    if log != [] {
      var rest := log[..|log| - 1];
      AcceptedLogBounds(rest);
      BoundedStep(Replay(rest), log[|log| - 1], action => Count(rest, action), action => Count(log, action));
    }
  }
}
