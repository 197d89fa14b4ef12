/** What every stream of payment events, new subscriptions and reconciliations keeps. */
module BillingLaws {
  import opened Sets
  import opened Wrappers
  import opened BillingModel

  datatype Op =
    | Pay(event: PaymentEvent)
    | Create(account: int, plan: int, price: int, currency: string, periodEnd: int, sub: int, invoice: int)
    | Reconcile(now: int)

  function Step(db: Db, op: Op): Db {
    match op
    case Pay(e) => ApplyStep(db, e).0
    case Create(a, p, price, c, end, s, i) => CreateStep(db, a, p, price, c, end, s, i)
    case Reconcile(now) => ReconcileStep(db, now)
  }

  function Run(db: Db, ops: seq<Op>): Db
    decreases |ops|
  {
    if ops == [] then db else Step(Run(db, ops[..|ops| - 1]), ops[|ops| - 1])
  }

  const EMPTY := Db(map[], map[], map[], [])

  // ---------- one entry for each key ----------

  predicate MovesMoney(k: EventKind) {
    k == PaymentSucceeded || k == RefundSucceeded || k == Chargeback
  }

  ghost function Times(ledger: seq<Entry>, key: LedgerKey): nat
    decreases |ledger|
  {
    if ledger == [] then 0
    else Times(ledger[..|ledger| - 1], key) + if ledger[|ledger| - 1].key == key then 1 else 0
  }

  lemma AppendEntry(ledger: seq<Entry>, e: Entry, key: LedgerKey, invoice: int, kind: EntryKind)
    ensures Times(ledger + [e], key) == Times(ledger, key) + if e.key == key then 1 else 0
    ensures Total(ledger + [e], invoice, kind)
            == Total(ledger, invoice, kind) + if e.invoice == invoice && e.kind == kind then e.amount else 0
  {
    assert (ledger + [e])[..|ledger|] == ledger;
  }

  lemma {:induction false} HasKeyIsTimes(ledger: seq<Entry>, key: LedgerKey)
    ensures HasKey(ledger, key) <==> Times(ledger, key) > 0
    decreases |ledger|
  {
    if ledger != [] {
      var rest := ledger[..|ledger| - 1];
      HasKeyIsTimes(rest, key);
      if HasKey(ledger, key) && ledger[|ledger| - 1].key != key {
        var i :| 0 <= i < |ledger| && ledger[i].key == key;
        assert rest[i].key == key;
      }
      if HasKey(rest, key) {
        var i :| 0 <= i < |rest| && rest[i].key == key;
        assert ledger[i].key == key;
      }
    }
  }

  // Some processed event that moved money has this key text.
  ghost predicate Spent(db: Db, k: EventKey) {
    k in db.events && db.events[k].processed && MovesMoney(db.events[k].kind)
  }

  ghost predicate SpentText(db: Db, text: string) {
    exists k :: Spent(db, k) && KeyText(k) == text
  }

  ghost predicate TextOk(db: Db, text: string) {
    Times(db.ledger, ForEvent(text)) == if SpentText(db, text) then 1 else 0
  }

  ghost predicate Booking(db: Db) {
    forall text {:trigger TextOk(db, text)} :: TextOk(db, text)
  }

  lemma BookedOnce(ledger: seq<Entry>, e: Entry, key: LedgerKey)
    requires Times(ledger, key) <= 1
    ensures Times(Booked(ledger, e), key) == if e.key == key then 1 else Times(ledger, key)
  {
    HasKeyIsTimes(ledger, e.key);
    AppendEntry(ledger, e, key, e.invoice, e.kind);
  }

  lemma PayKeepsText(db: Db, e: PaymentEvent, text: string)
    requires TextOk(db, text)
    ensures TextOk(ApplyClean(db, e).0, text)
  {
    var (next, result) := ApplyClean(db, e);
    if next != db {
      var key := KeyOf(e);
      var entry := EntryOf(e, if e.kind == PaymentSucceeded then Payment else Refund,
                           if e.kind == PaymentSucceeded then -e.amount else e.amount);
      assert next.ledger == if MovesMoney(e.kind) then Booked(db.ledger, entry) else db.ledger;
      BookedOnce(db.ledger, entry, ForEvent(text));
      assert !Spent(db, key) && (Spent(next, key) <==> MovesMoney(e.kind));
      assert forall k :: k != key ==> (Spent(next, k) <==> Spent(db, k));
      assert SpentText(next, text) <==> SpentText(db, text) || (MovesMoney(e.kind) && KeyText(key) == text);
    }
  }

  lemma StepKeepsBooking(db: Db, op: Op)
    requires Booking(db)
    ensures Booking(Step(db, op))
  {
    forall text ensures TextOk(Step(db, op), text) {
      assert TextOk(db, text);
      match op
      case Pay(e) => PayKeepsText(db, Clean(e), text);
      case Create(a, p, price, c, end, s, i) =>
        AppendEntry(db.ledger, Entry(ForInvoice(i), i, None, Charge, price), ForEvent(text), i, Charge);
        assert forall k :: Spent(Step(db, op), k) <==> Spent(db, k);
      case Reconcile(now) =>
        assert forall k :: Spent(Step(db, op), k) <==> Spent(db, k);
    }
  }

  /** In every run the ledger holds one entry for each key text of the processed money events, and no other. */
  lemma {:induction false} LedgerHoldsEachTextOnce(ops: seq<Op>)
    ensures Booking(Run(EMPTY, ops))
    decreases |ops|
  {
    if ops == [] {
      forall text ensures TextOk(EMPTY, text) {}
    } else {
      LedgerHoldsEachTextOnce(ops[..|ops| - 1]);
      StepKeepsBooking(Run(EMPTY, ops[..|ops| - 1]), ops[|ops| - 1]);
    }
  }

  // ---------- key texts and keys ----------

  predicate NoColon(provider: string) {
    ':' !in provider
  }

  function FirstColon(s: string): nat {
    if s == "" || s[0] == ':' then 0 else 1 + FirstColon(s[1..])
  }

  lemma {:induction false} ColonEndsProvider(provider: string, id: string)
    requires NoColon(provider)
    ensures FirstColon(provider + ":" + id) == |provider|
    decreases |provider|
  {
    var t := provider + ":" + id;
    if provider == "" {
      assert t[0] == ':';
    } else {
      ColonEndsProvider(provider[1..], id);
      assert t[0] == provider[0] && provider[0] in provider;
      assert t[1..] == provider[1..] + ":" + id;
    }
  }

  lemma TextDeterminesKey(a: EventKey, b: EventKey)
    requires NoColon(a.provider) && NoColon(b.provider) && KeyText(a) == KeyText(b)
    ensures a == b
  {
    ColonEndsProvider(a.provider, a.id);
    ColonEndsProvider(b.provider, b.id);
    var t, n := KeyText(a), |a.provider|;
    assert a.provider == t[..n] && b.provider == t[..n];
    assert a.id == t[n + 1..] && b.id == t[n + 1..];
  }

  ghost predicate PlainProviders(ops: seq<Op>) {
    forall i :: 0 <= i < |ops| && ops[i].Pay? ==> NoColon(Clean(ops[i].event).provider)
  }

  ghost predicate PlainKeys(db: Db) {
    forall k :: k in db.events ==> NoColon(k.provider)
  }

  lemma {:induction false} KeysArePlain(ops: seq<Op>)
    requires PlainProviders(ops)
    ensures PlainKeys(Run(EMPTY, ops))
    decreases |ops|
  {
    if ops != [] {
      KeysArePlain(ops[..|ops| - 1]);
    }
  }

  /** With providers free of ':' each processed payment, refund or chargeback has exactly one ledger entry,
      and an event that is not processed has none. */
  lemma OneEntryForEachEvent(ops: seq<Op>, k: EventKey)
    requires PlainProviders(ops) && k in Run(EMPTY, ops).events
    ensures var db := Run(EMPTY, ops);
            Times(db.ledger, ForEvent(KeyText(k))) == if Spent(db, k) then 1 else 0
  {
    var db := Run(EMPTY, ops);
    LedgerHoldsEachTextOnce(ops);
    KeysArePlain(ops);
    assert TextOk(db, KeyText(k));
    if SpentText(db, KeyText(k)) {
      var other :| Spent(db, other) && KeyText(other) == KeyText(k);
      TextDeterminesKey(other, k);
    }
  }

  /** A ':' in a provider breaks this: the second invoice is paid and nothing is booked on it. */
  lemma ColonLosesEntry()
    ensures var born := CreateStep(CreateStep(EMPTY, 1, 1, 100, "RUB", 0, 1, 1), 2, 1, 100, "RUB", 0, 2, 2);
            var first := PaymentEvent("PAY", "X:1", PaymentSucceeded, 1, 100, "RUB", "");
            var second := PaymentEvent("PAY:X", "1", PaymentSucceeded, 2, 100, "RUB", "");
            var db := ApplyClean(ApplyClean(born, first).0, second).0;
            2 in db.invoices && db.invoices[2].status == Paid && Total(db.ledger, 2, Payment) == 0
  {
    var half := CreateStep(EMPTY, 1, 1, 100, "RUB", 0, 1, 1);
    var born := CreateStep(half, 2, 1, 100, "RUB", 0, 2, 2);
    assert half.ledger == [Entry(ForInvoice(1), 1, None, Charge, 100)];
    assert born.ledger == half.ledger + [Entry(ForInvoice(2), 2, None, Charge, 100)];
    var first := PaymentEvent("PAY", "X:1", PaymentSucceeded, 1, 100, "RUB", "");
    var second := PaymentEvent("PAY:X", "1", PaymentSucceeded, 2, 100, "RUB", "");
    var paid := ApplyClean(born, first).0;
    var entry := EntryOf(first, Payment, -100);
    assert paid.ledger == born.ledger + [entry];
    assert KeyText(KeyOf(first)) == "PAY:X:1" == KeyText(KeyOf(second));
    assert paid.ledger[2].key == EntryOf(second, Payment, -100).key;
    assert ApplyClean(paid, second).0.ledger == paid.ledger;
    AppendEntry([], half.ledger[0], entry.key, 2, Payment);
    AppendEntry(half.ledger, Entry(ForInvoice(2), 2, None, Charge, 100), entry.key, 2, Payment);
    AppendEntry(born.ledger, entry, entry.key, 2, Payment);
    assert [] + [half.ledger[0]] == half.ledger;
  }

  // ---------- invoices and their refunds ----------

  ghost function Refunds(db: Db, v: int): int {
    Total(db.ledger, v, Refund)
  }

  ghost function Payments(db: Db, v: int): int {
    -Total(db.ledger, v, Payment)
  }

  ghost predicate InvoiceOk(db: Db, v: int) {
    && v in db.invoices && var invoice := db.invoices[v];
    && invoice.amount >= 0 && invoice.subscription in db.subs
    && 0 <= Refunds(db, v) <= invoice.amount && Refunds(db, v) <= Payments(db, v)
    && (invoice.status == Refunded <==> Refunds(db, v) == invoice.amount && invoice.amount > 0)
    && (invoice.status == Paid || invoice.status == Refunded ==> Payments(db, v) >= invoice.amount)
    && (Refunds(db, v) > 0 ==> invoice.status == Paid || invoice.status == Refunded)
    && (invoice.status == Refunded ==> db.subs[invoice.subscription].status == Canceled)
  }

  ghost predicate Books(db: Db) {
    && (forall v {:trigger InvoiceOk(db, v)} :: v in db.invoices ==> InvoiceOk(db, v))
    && (forall v, w :: v in db.invoices && w in db.invoices && db.invoices[v].subscription == db.invoices[w].subscription
                       ==> v == w)
    && (forall i :: 0 <= i < |db.ledger| ==> db.ledger[i].invoice in db.invoices)
  }

  lemma {:induction false} NoEntriesNoTotal(ledger: seq<Entry>, v: int, kind: EntryKind)
    requires forall i :: 0 <= i < |ledger| ==> ledger[i].invoice != v
    ensures Total(ledger, v, kind) == 0
    decreases |ledger|
  {
    if ledger != [] { NoEntriesNoTotal(ledger[..|ledger| - 1], v, kind); }
  }

  // An unprocessed event has no entry yet.
  lemma FreshKey(db: Db, e: PaymentEvent)
    requires Booking(db) && PlainKeys(db) && NoColon(e.provider) && !(KeyOf(e) in db.events && db.events[KeyOf(e)].processed)
    ensures !HasKey(db.ledger, ForEvent(KeyText(KeyOf(e))))
  {
    var text := KeyText(KeyOf(e));
    assert TextOk(db, text);
    HasKeyIsTimes(db.ledger, ForEvent(text));
    if SpentText(db, text) {
      var other :| Spent(db, other) && KeyText(other) == text;
      TextDeterminesKey(other, KeyOf(e));
      assert false;
    }
  }

  // What settling an event books.
  ghost function Bookings(e: PaymentEvent): seq<Entry> {
    if e.kind == PaymentSucceeded then [EntryOf(e, Payment, -e.amount)]
    else if e.kind == PaymentFailed then []
    else [EntryOf(e, Refund, e.amount)]
  }

  lemma PayBooks(db: Db, e: PaymentEvent)
    requires Booking(db) && PlainKeys(db) && NoColon(e.provider) && ApplyClean(db, e).0 != db
    ensures ApplyClean(db, e).0.ledger == db.ledger + Bookings(e)
  {
    FreshKey(db, e);
  }

  lemma TotalsAfter(db: Db, e: PaymentEvent, v: int)
    requires IsValid(e)
    ensures Total(db.ledger + Bookings(e), v, Refund)
            == Refunds(db, v) + if v == e.invoice && e.kind != PaymentSucceeded && e.kind != PaymentFailed then e.amount else 0
    ensures -Total(db.ledger + Bookings(e), v, Payment)
            == Payments(db, v) + if v == e.invoice && e.kind == PaymentSucceeded then e.amount else 0
  {
    if e.kind == PaymentFailed {
      assert db.ledger + [] == db.ledger;
    } else {
      var entry := Bookings(e)[0];
      AppendEntry(db.ledger, entry, entry.key, v, Refund);
      AppendEntry(db.ledger, entry, entry.key, v, Payment);
    }
  }

  lemma PayKeepsInvoice(db: Db, e: PaymentEvent, v: int)
    requires Books(db) && Booking(db) && PlainKeys(db) && NoColon(e.provider) && v in db.invoices
    ensures InvoiceOk(ApplyClean(db, e).0, v)
  {
    assert InvoiceOk(db, v);
    var next := ApplyClean(db, e).0;
    if next != db {
      PayBooks(db, e);
      TotalsAfter(db, e, v);
    }
  }

  lemma PayKeepsBooks(db: Db, e: PaymentEvent)
    requires Books(db) && Booking(db) && PlainKeys(db) && NoColon(e.provider)
    ensures Books(ApplyClean(db, e).0)
  {
    var next := ApplyClean(db, e).0;
    if next != db {
      forall v | v in next.invoices ensures InvoiceOk(next, v) { PayKeepsInvoice(db, e, v); }
      PayBooks(db, e);
    }
  }

  lemma CreateKeepsBooks(db: Db, op: Op)
    requires Books(db) && op.Create?
    ensures Books(Step(db, op))
  {
    var next := Step(db, op);
    if next != db {
      var entry := Entry(ForInvoice(op.invoice), op.invoice, None, Charge, op.price);
      NoEntriesNoTotal(db.ledger, op.invoice, Refund);
      NoEntriesNoTotal(db.ledger, op.invoice, Payment);
      forall v | v in next.invoices ensures InvoiceOk(next, v) {
        AppendEntry(db.ledger, entry, entry.key, v, Refund);
        AppendEntry(db.ledger, entry, entry.key, v, Payment);
        if v != op.invoice { assert InvoiceOk(db, v); }
      }
      forall v | v in db.invoices ensures db.invoices[v].subscription != op.sub { assert InvoiceOk(db, v); }
    }
  }

  lemma ReconcileKeepsBooks(db: Db, now: int)
    requires Books(db)
    ensures Books(ReconcileStep(db, now))
  {
    var next := ReconcileStep(db, now);
    forall v | v in next.invoices ensures InvoiceOk(next, v) { assert InvoiceOk(db, v); }
  }

  /** In every run with plain providers refunds stay within the amount and within what was paid, an invoice is
      REFUNDED exactly when its positive amount went back, and then its subscription is CANCELED. */
  lemma {:induction false} RefundsAreCovered(ops: seq<Op>)
    requires PlainProviders(ops)
    ensures Books(Run(EMPTY, ops))
    decreases |ops|
  {
    if ops != [] {
      var rest, op := ops[..|ops| - 1], ops[|ops| - 1];
      var db := Run(EMPTY, rest);
      RefundsAreCovered(rest);
      LedgerHoldsEachTextOnce(rest);
      KeysArePlain(rest);
      match op
      case Pay(e) => PayKeepsBooks(db, Clean(e));
      case Create(_, _, _, _, _, _, _) => CreateKeepsBooks(db, op);
      case Reconcile(now) => ReconcileKeepsBooks(db, now);
    }
  }

  lemma RefundedStays(db: Db, op: Op, v: int)
    requires InvoiceOk(db, v) && db.invoices[v].status == Refunded
    ensures v in Step(db, op).invoices && Step(db, op).invoices[v].status == Refunded
  {
  }

  lemma PlainPrefix(ops: seq<Op>, n: nat)
    requires PlainProviders(ops) && n <= |ops|
    ensures PlainProviders(ops[..n])
  {
  }

  lemma NextRun(db: Db, ops: seq<Op>, more: seq<Op>)
    requires more != []
    ensures (ops + more)[..|ops + more| - 1] == ops + more[..|more| - 1]
    ensures Run(db, ops + more) == Step(Run(db, ops + more[..|more| - 1]), more[|more| - 1])
  {
    var all := ops + more;
    assert all[..|all| - 1] == ops + more[..|more| - 1] && all[|all| - 1] == more[|more| - 1];
  }

  lemma {:induction false} RefundedStaysInRun(ops: seq<Op>, more: seq<Op>, v: int)
    requires PlainProviders(ops + more) && v in Run(EMPTY, ops).invoices && Run(EMPTY, ops).invoices[v].status == Refunded
    ensures v in Run(EMPTY, ops + more).invoices && Run(EMPTY, ops + more).invoices[v].status == Refunded
    decreases |more|
  {
    if more == [] {
      assert ops + more == ops;
    } else {
      var rest := ops + more[..|more| - 1];
      NextRun(EMPTY, ops, more);
      PlainPrefix(ops + more, |ops + more| - 1);
      RefundedStaysInRun(ops, more[..|more| - 1], v);
      RefundsAreCovered(rest);
      assert InvoiceOk(Run(EMPTY, rest), v);
      RefundedStays(Run(EMPTY, rest), more[|more| - 1], v);
    }
  }

  /** REFUNDED with CANCELED is final: no event, subscription or reconciliation leaves it. */
  lemma RefundedIsFinal(ops: seq<Op>, more: seq<Op>, v: int)
    requires PlainProviders(ops + more) && v in Run(EMPTY, ops).invoices && Run(EMPTY, ops).invoices[v].status == Refunded
    ensures var db := Run(EMPTY, ops + more);
            && v in db.invoices && db.invoices[v].status == Refunded
            && db.invoices[v].subscription in db.subs && db.subs[db.invoices[v].subscription].status == Canceled
  {
    RefundedStaysInRun(ops, more, v);
    RefundsAreCovered(ops + more);
    assert InvoiceOk(Run(EMPTY, ops + more), v);
  }

  // ---------- repeats ----------

  // Once processed, an event stays as it is.
  lemma ProcessedStays(db: Db, op: Op, k: EventKey)
    requires k in db.events && db.events[k].processed
    ensures k in Step(db, op).events && Step(db, op).events[k] == db.events[k]
  {
  }

  lemma {:induction false} ProcessedStaysInRun(db: Db, ops: seq<Op>, k: EventKey)
    requires k in db.events && db.events[k].processed
    ensures k in Run(db, ops).events && Run(db, ops).events[k] == db.events[k]
    decreases |ops|
  {
    if ops != [] {
      ProcessedStaysInRun(db, ops[..|ops| - 1], k);
      ProcessedStays(Run(db, ops[..|ops| - 1]), ops[|ops| - 1], k);
    }
  }

  lemma {:induction false} RunSplits(db: Db, a: seq<Op>, b: seq<Op>)
    ensures Run(db, a + b) == Run(Run(db, a), b)
    decreases |b|
  {
    if b == [] {
      assert a + b == a;
    } else {
      RunSplits(db, a, b[..|b| - 1]);
      assert (a + b)[..|a + b| - 1] == a + b[..|b| - 1];
    }
  }

  // A second delivery of a processed event, with whatever content.
  lemma RepeatIsIdle(db: Db, e: PaymentEvent)
    requires var k := KeyOf(Clean(e)); k in db.events && db.events[k].processed
    ensures ApplyStep(db, e).0 == db
    ensures IsValid(Clean(e)) && !SameContent(db.events[KeyOf(Clean(e))], Clean(e))
            ==> ApplyStep(db, e).1 == Err(Mismatch)
  {
  }

  /** A repeat of an accepted event, anywhere later in the stream, changes nothing then or afterwards; a repeat
      with other content is refused. */
  lemma RepeatsAreHarmless(db: Db, before: seq<Op>, e: PaymentEvent, between: seq<Op>, again: PaymentEvent, after: seq<Op>)
    requires ApplyStep(Run(db, before), e).1.Ok? && KeyOf(Clean(again)) == KeyOf(Clean(e))
    ensures Run(db, before + [Pay(e)] + between + [Pay(again)] + after) == Run(db, before + [Pay(e)] + between + after)
    ensures IsValid(Clean(again))
            && !SameContent(Stored(Clean(e).kind, Clean(e).invoice, Clean(e).amount,
                                   Clean(e).currency, e.payload, true), Clean(again))
            ==> ApplyStep(Run(db, before + [Pay(e)] + between), again).1 == Err(Mismatch)
  {
    var k := KeyOf(Clean(e));
    var prefix := before + [Pay(e)];
    assert prefix[..|prefix| - 1] == before;
    var accepted := Run(db, prefix);
    assert accepted == Step(Run(db, before), Pay(e));
    assert k in accepted.events && accepted.events[k].processed;
    RunSplits(db, prefix, between);
    ProcessedStaysInRun(accepted, between, k);
    var later := Run(db, prefix + between);
    RepeatIsIdle(later, again);
    var repeated := prefix + between + [Pay(again)];
    assert repeated[..|repeated| - 1] == prefix + between;
    assert Run(db, repeated) == later;
    RunSplits(db, repeated, after);
    RunSplits(db, prefix + between, after);
  }

  /** An event that failed leaves no trace: the rest of the stream, a retry included, goes as if it was never sent. */
  lemma FailureLeavesNoTrace(db: Db, before: seq<Op>, e: PaymentEvent, after: seq<Op>)
    requires ApplyStep(Run(db, before), e).1.Err?
    ensures Run(db, before + [Pay(e)] + after) == Run(db, before + after)
  {
    var sent := before + [Pay(e)];
    assert sent[..|sent| - 1] == before;
    RunSplits(db, sent, after);
    RunSplits(db, before, after);
  }

  // ---------- lifecycle ----------

  /** Reconciling at an earlier time first makes no difference. */
  lemma ReconcileOnceIsEnough(db: Db, t1: int, t2: int)
    requires t1 <= t2
    ensures ReconcileStep(ReconcileStep(db, t1), t2) == ReconcileStep(db, t2)
  {
    var once, twice := ReconcileStep(db, t2), ReconcileStep(ReconcileStep(db, t1), t2);
    forall s | s in db.subs ensures once.subs[s] == twice.subs[s] {}
    assert once.subs == twice.subs;
  }

  // Grace ends three days after the period, and a subscription in grace knows it.
  ghost predicate GraceIsDated(db: Db) {
    forall s :: s in db.subs ==>
      && (db.subs[s].status == Grace ==> db.subs[s].graceUntil.Some?)
      && (db.subs[s].graceUntil.Some? ==> db.subs[s].graceUntil.value == db.subs[s].periodEnd + GRACE)
  }

  lemma StepKeepsDated(db: Db, op: Op)
    requires GraceIsDated(db)
    ensures GraceIsDated(Step(db, op))
  {
  }

  lemma {:induction false} RunIsDated(ops: seq<Op>)
    ensures GraceIsDated(Run(EMPTY, ops))
    decreases |ops|
  {
    if ops != [] {
      RunIsDated(ops[..|ops| - 1]);
      StepKeepsDated(Run(EMPTY, ops[..|ops| - 1]), ops[|ops| - 1]);
    }
  }

  // Its grace has not run out.
  predicate InTime(s: Sub, now: int) {
    now < s.periodEnd + GRACE
  }

  // Reconciling keeps a granting subscription that is in time, and that one gives access; it expires any other.
  lemma ReconciledSub(db: Db, s: int, now: int)
    requires GraceIsDated(db) && s in db.subs
    ensures var was, sub := db.subs[s], ReconcileStep(db, now).subs[s];
            && sub.account == was.account && sub.plan == was.plan
            && (sub.status == Active || sub.status == Grace <==>
                (was.status == Active || was.status == Grace) && InTime(was, now))
            && (sub.status == Active || sub.status == Grace ==> GivesAccess(sub, now))
  {
  }

  lemma ReconciledGrants(db: Db, account: int, plans: set<int>, now: int)
    requires GraceIsDated(db)
    ensures Granting(ReconcileStep(db, now), account, plans) ==
            set s | s in Granting(db, account, plans) && InTime(db.subs[s], now)
  {
    var after := ReconcileStep(db, now);
    forall s | s in db.subs
      ensures s in Granting(after, account, plans) <==> s in Granting(db, account, plans) && InTime(db.subs[s], now)
    {
      ReconciledSub(db, s, now);
    }
  }

  /** After reconciling, an account has access exactly when some subscription that granted before is within its grace. */
  lemma ReconciledAccess(ops: seq<Op>, account: int, plans: set<int>, now: int)
    ensures var db := Run(EMPTY, ops);
            Entitled(ReconcileStep(db, now), account, plans, now) <==>
            exists s :: s in Granting(db, account, plans) && InTime(db.subs[s], now)
  {
    var db := Run(EMPTY, ops);
    RunIsDated(ops);
    ReconciledGrants(db, account, plans, now);
    var granting := Granting(ReconcileStep(db, now), account, plans);
    if granting == {} {
      forall s | s in Granting(db, account, plans) ensures !InTime(db.subs[s], now) { assert s !in granting; }
    } else {
      assert Greatest(granting) in granting;
      ReconciledSub(db, Greatest(granting), now);
    }
  }

  /** Before reconciling, the answer is another exactly in two cases, a paying customer being without access in both: the
      period of the latest subscription has ended, its grace has not, and nobody has noted it; or its grace has ended
      too, and hides an older subscription that is in time. */
  lemma AccessGapIff(ops: seq<Op>, account: int, plans: set<int>, now: int)
    ensures var db := Run(EMPTY, ops); var granting := Granting(db, account, plans);
            Entitled(db, account, plans, now) != Entitled(ReconcileStep(db, now), account, plans, now) <==>
            && granting != {} && var latest := db.subs[Greatest(granting)];
            if InTime(latest, now) then latest.status == Active && latest.periodEnd <= now
            else exists s :: s in granting && InTime(db.subs[s], now)
  {
    var db := Run(EMPTY, ops);
    RunIsDated(ops);
    ReconciledAccess(ops, account, plans, now);
    var granting := Granting(db, account, plans);
    if granting != {} {
      var g := Greatest(granting);
      assert g in granting;
      if InTime(db.subs[g], now) { assert Entitled(ReconcileStep(db, now), account, plans, now); }
    }
  }
}
