/** What codes and counters lead to: failure classes, retry delays, cooldowns, and which dead letters can come back. */
module OutboundCodes {
  import opened Wrappers
  import opened OutboundModel
  import opened OutboundRuns
  import opened OutboundSafety
  import Text

  // ---------- failure classes ----------

  predicate HasReplyCode(code: string) {
    |code| >= 3 && Text.IsDigit(code[0]) && Text.IsDigit(code[1]) && Text.IsDigit(code[2])
  }

  predicate HasEnhancedCode(code: string) {
    |code| >= 5 && Text.IsDigit(code[0]) && code[1] == '.' && Text.IsDigit(code[2]) && code[3] == '.' && Text.IsDigit(code[4])
  }

  lemma {:induction false} DigitsAreKept(space: string, code: string)
    requires (forall i :: 0 <= i < |space| ==> Text.IsSpace(space[i])) && code != "" && !Text.IsSpace(code[0])
    ensures Text.TrimLeft(space + code) == code
    decreases |space|
  {
    if space == "" {
      assert space + code == code;
    } else {
      assert (space + code)[1..] == space[1..] + code;
      DigitsAreKept(space[1..], code);
    }
  }

  lemma {:induction false} TrimRightKeepsStart(s: string, n: nat)
    requires 0 < n <= |s| && !Text.IsSpace(s[n - 1])
    ensures |Text.TrimRight(s)| >= n && Text.TrimRight(s)[..n] == s[..n]
    decreases |s|
  {
    if Text.IsSpace(s[|s| - 1]) {
      TrimRightKeepsStart(s[..|s| - 1], n);
      assert s[..|s| - 1][..n] == s[..n];
    }
  }

  /** The first digit of a reply code (RFC 5321) or an enhanced status code (RFC 3463) decides: 5 is a permanent
      failure, 4 a transient one, anything else tells nothing. Leading white space and trailing text do not matter. */
  lemma FirstDigitDecides(space: string, code: string)
    requires forall i :: 0 <= i < |space| ==> Text.IsSpace(space[i])
    requires HasReplyCode(code) || HasEnhancedCode(code)
    ensures Classify(space + code) == if code[0] == '5' then Hard else if code[0] == '4' then Transient else Unknown
  {
    DigitsAreKept(space, code);
    var n := if HasReplyCode(code) then 3 else 5;
    TrimRightKeepsStart(code, n);
    var t := Text.TrimRight(code);
    assert forall i :: 0 <= i < n ==> t[i] == t[..n][i] == code[..n][i] == code[i];
  }

  /** A code that allows a manual retry is one of the worker's own: it never counts as a reply of the remote server,
      so no hard or transient failure is retried by hand. */
  lemma RetryableCodesAreOurs(raw: string)
    requires RetryableDeadCode(raw)
    ensures Classify(raw) == Unknown
  {
    var upper := Text.ToUpper(Text.Trim(raw));
    assert upper[0] == 'S' || upper[0] == 'M';
  }

  // ---------- cooldowns ----------

  // An outcome of a delivery to the domain.
  datatype Seen = Seen(delivered: bool, class_: FailureClass, at: Time)

  // The pressure row after these outcomes.
  function After(prior: Option<Pressure>, seen: seq<Seen>): Option<Pressure>
    decreases |seen|
  {
    if seen == [] then prior
    else
      var last := seen[|seen| - 1];
      Some(Observed(After(prior, seen[..|seen| - 1]), last.delivered, last.class_, last.at))
  }

  function Successes(seen: seq<Seen>): nat
    decreases |seen|
  {
    if seen == [] then 0 else Successes(seen[..|seen| - 1]) + if seen[|seen| - 1].delivered then 1 else 0
  }

  predicate Failed(s: Seen, class_: FailureClass) {
    !s.delivered && s.class_ == class_
  }

  function Failures(seen: seq<Seen>, class_: FailureClass): nat
    decreases |seen|
  {
    if seen == [] then 0 else Failures(seen[..|seen| - 1], class_) + if Failed(seen[|seen| - 1], class_) then 1 else 0
  }

  // When the last transient failure happened.
  function LastFailure(seen: seq<Seen>): Time
    requires Failures(seen, Transient) > 0
    decreases |seen|
  {
    if Failed(seen[|seen| - 1], Transient) then seen[|seen| - 1].at else LastFailure(seen[..|seen| - 1])
  }

  function CoolsUntil(seen: seq<Seen>): Option<Time> {
    var n := Failures(seen, Transient);
    if n >= 10 then Some(LastFailure(seen) + 30 * MINUTE) else if n >= 6 then Some(LastFailure(seen) + 15 * MINUTE)
    else if n >= 3 then Some(LastFailure(seen) + 5 * MINUTE) else None
  }

  // The later of two ends; none is the earliest.
  function Later(a: Option<Time>, b: Option<Time>): Option<Time> {
    if a.None? || (b.Some? && b.value > a.value) then b else a
  }

  // A cooldown that is still running when a new window starts.
  function Carried(prior: Option<Pressure>, now: Time): Option<Time> {
    if prior.Some? && prior.value.cooldownUntil.Some? && prior.value.cooldownUntil.value > now
    then prior.value.cooldownUntil else None
  }

  predicate WindowIsOver(prior: Option<Pressure>, now: Time) {
    prior.Some? ==> now - prior.value.windowStarted >= PRESSURE_WINDOW || now < prior.value.windowStarted
  }

  predicate InOneWindow(seen: seq<Seen>) {
    seen != [] && Ascending(seen) && seen[|seen| - 1].at < seen[0].at + PRESSURE_WINDOW
  }

  lemma {:induction false} LastFailureIsInside(seen: seq<Seen>)
    requires Failures(seen, Transient) > 0 && Ascending(seen)
    ensures LastFailure(seen) <= seen[|seen| - 1].at
    decreases |seen|
  {
    if !Failed(seen[|seen| - 1], Transient) { LastFailureIsInside(seen[..|seen| - 1]); }
  }

  predicate Ascending(seen: seq<Seen>) {
    forall i, j :: 0 <= i < j < |seen| ==> seen[i].at <= seen[j].at
  }

  // Each cooldown ends no earlier than those before it.
  lemma CoolsLonger(seen: seq<Seen>)
    requires seen != [] && Ascending(seen) && Failed(seen[|seen| - 1], Transient)
    ensures var n, now := Failures(seen, Transient), seen[|seen| - 1].at;
            && CoolsUntil(seen) == (if Cooldown(n) > 0 then Some(now + Cooldown(n)) else None)
            && (forall c :: Later(Later(c, CoolsUntil(seen[..|seen| - 1])), CoolsUntil(seen)) == Later(c, CoolsUntil(seen)))
  {
    var rest := seen[..|seen| - 1];
    if Failures(rest, Transient) > 0 { LastFailureIsInside(rest); }
  }

  lemma OtherOutcomesCoolTheSame(seen: seq<Seen>)
    requires seen != [] && !Failed(seen[|seen| - 1], Transient)
    ensures CoolsUntil(seen) == CoolsUntil(seen[..|seen| - 1])
  {
  }

  lemma ObservedInWindow(p: Pressure, delivered: bool, class_: FailureClass, now: Time)
    requires p.windowStarted <= now < p.windowStarted + PRESSURE_WINDOW
    ensures var q := Observed(Some(p), delivered, class_, now);
            && q.windowStarted == p.windowStarted
            && q.successes == p.successes + (if delivered then 1 else 0)
            && q.transient == p.transient + (if !delivered && class_ == Transient then 1 else 0)
            && q.hard == p.hard + (if !delivered && class_ == Hard then 1 else 0)
            && var own := if Cooldown(q.transient) > 0 then Some(now + Cooldown(q.transient)) else None;
            q.cooldownUntil == if delivered || class_ != Transient then p.cooldownUntil else Later(p.cooldownUntil, own)
  {
  }

  /** Whatever is observed within one pressure window, every outcome is counted once; transient failures cool the domain
      down for 5 minutes after the third, 15 after the sixth and 30 after the tenth and each further one; successes and
      other failures do not matter, and a cooldown carried over from the window before only ends later. */
  lemma {:induction false} FailuresCoolDown(prior: Option<Pressure>, seen: seq<Seen>)
    requires InOneWindow(seen) && WindowIsOver(prior, seen[0].at)
    ensures var p := After(prior, seen).value;
            && p.successes == Successes(seen) && p.transient == Failures(seen, Transient) && p.hard == Failures(seen, Hard)
            && p.windowStarted == seen[0].at
            && p.cooldownUntil == Later(Carried(prior, seen[0].at), CoolsUntil(seen))
    decreases |seen|
  {
    var rest, last := seen[..|seen| - 1], seen[|seen| - 1];
    if rest == [] {
      assert Failures(rest, Transient) == 0 && Failures(rest, Hard) == 0 && Successes(rest) == 0;
    } else {
      FailuresCoolDown(prior, rest);
      ObservedInWindow(After(prior, rest).value, last.delivered, last.class_, last.at);
      if Failed(last, Transient) { CoolsLonger(seen); } else { OtherOutcomesCoolTheSame(seen); }
    }
  }

  // ---------- deliveries that are over ----------

  // Bounced, or dead for a reason no operator may override.
  predicate IsOver(row: Delivery) {
    row.status == Bounced
    || (row.status == Dead && !RetryableDeadCode(if row.errorCode.Some? then row.errorCode.value else ""))
  }

  lemma OverReportKeepsRow(db: Db, cb: Callback, fanout: seq<nat>, now: Time, d: nat)
    requires Enabled(db, Report(cb, fanout, now)) && d in db.deliveries && IsOver(db.deliveries[d])
    ensures var out := CallbackStep(db, cb, now, fanout).0;
            d in out.deliveries && out.deliveries[d] == db.deliveries[d]
  {
    if TakesEffect(db, cb, fanout, now) {
      if cb.kind == BounceReport { BounceEffect(db, cb, fanout, now); } else { DeliverEffect(db, cb, fanout, now); }
    } else {
      IdleReport(db, cb, fanout, now);
    }
  }

  lemma IdleReport(db: Db, cb: Callback, fanout: seq<nat>, now: Time)
    requires Enabled(db, Report(cb, fanout, now)) && !TakesEffect(db, cb, fanout, now)
    ensures CallbackStep(db, cb, now, fanout).0.deliveries == db.deliveries
  {
  }

  lemma OverRowUntouched(db: Db, op: Op, d: nat)
    requires Consistent(db) && Enabled(db, op) && d in db.deliveries && IsOver(db.deliveries[d])
    ensures d in Step(db, op).deliveries && Step(db, op).deliveries[d] == db.deliveries[d]
  {
    match op
    case Send(sender, rs, allowed, now) => SendRowsKeepRow(db, sender, rs, now, d);
    case LeaseBatch(w, limit, lease, _, picked, now) =>
      if !Blank(w) && lease > 0 {
        LeaseRowsKeep(db, picked, w, LeaseExpiry(lease, now), now);
      }
    case RecoverExpired(rows, now) => ExpireRowsKeep(db, rows, now);
    case Report(cb, fanout, now) => OverReportKeepsRow(db, cb, fanout, now, d);
    case RetryDeadLetter(x, actor, now) => DeadRetryFrame(db, x, actor, now);
    case Maintain(stale, doomed, now) => BuryRowsFrame(db, stale, "SUBMITTED_STALE", now);
    case _ => OutcomeFrame(db, op);
  }

  /** A bounced delivery, and a dead one whose code allows no manual retry, never changes again. */
  lemma {:induction false} OverIsOver(db: Db, ops: seq<Op>, d: nat)
    requires Consistent(db) && ValidRun(db, ops) && d in db.deliveries && IsOver(db.deliveries[d])
    ensures d in Run(db, ops).deliveries && Run(db, ops).deliveries[d] == db.deliveries[d]
    decreases |ops|
  {
    if ops != [] {
      OverRowUntouched(db, ops[0], d);
      StepKeeps(db, ops[0]);
      OverIsOver(Step(db, ops[0]), ops[1..], d);
    }
  }

  // A letter dead for a suppressed recipient is over.
  lemma SuppressedIsOver()
    ensures !RetryableDeadCode(SUPPRESSED_CODE)
  {
    assert Text.Trim(SUPPRESSED_CODE) == SUPPRESSED_CODE && |Text.ToUpper(SUPPRESSED_CODE)| == 20;
    assert Text.ToUpper(SUPPRESSED_CODE)[0] == 'R';
  }
}
