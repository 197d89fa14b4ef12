/** Invoices, subscriptions, payment events and the ledger. */
module BillingModel {
  import opened Sets
  import opened Wrappers
  import Text

  datatype EventKind = PaymentSucceeded | PaymentFailed | RefundSucceeded | Chargeback | OtherKind

  datatype PaymentEvent = PaymentEvent(provider: string, id: string, kind: EventKind, invoice: int, amount: int,
                                       currency: string, payload: string)

  datatype EventKey = EventKey(provider: string, id: string)

  // The payload stands for its hash.
  datatype Stored = Stored(kind: EventKind, invoice: int, amount: int, currency: string, payload: string, processed: bool)

  datatype InvoiceStatus = Open | Paid | Failed | Refunded | Void

  datatype Invoice = Invoice(status: InvoiceStatus, amount: int, currency: string, account: int, subscription: int)

  datatype SubStatus = Pending | Active | PastDue | Grace | Expired | Canceled

  datatype Sub = Sub(account: int, plan: int, status: SubStatus, periodEnd: int, graceUntil: Option<int>)

  datatype EntryKind = Charge | Payment | Refund

  // idempotency_key: the two prefixes keep invoices and events apart, the rest of an event key is plain text.
  datatype LedgerKey = ForInvoice(invoice: int) | ForEvent(text: string)

  datatype Entry = Entry(key: LedgerKey, invoice: int, event: Option<EventKey>, kind: EntryKind, amount: int)

  datatype Db = Db(events: map<EventKey, Stored>, invoices: map<int, Invoice>, subs: map<int, Sub>, ledger: seq<Entry>)

  datatype Error = Invalid | NotFound | Conflict | Mismatch

  datatype Result = Ok(processed: bool, invoice: InvoiceStatus, sub: SubStatus) | Err(error: Error)

  const GRACE := 3 * 24 * 3600

  // ---------- payment events ----------

  function Clean(e: PaymentEvent): PaymentEvent {
    e.(provider := Text.ToUpper(Text.Trim(e.provider)), id := Text.Trim(e.id),
       currency := Text.ToUpper(Text.Trim(e.currency)))
  }

  predicate IsValid(e: PaymentEvent) {
    2 <= |e.provider| <= 32 && 1 <= |e.id| <= 160 && e.invoice > 0 && e.amount >= 0 && e.currency == "RUB"
    && e.kind != OtherKind
  }

  function KeyOf(e: PaymentEvent): EventKey {
    EventKey(e.provider, e.id)
  }

  function KeyText(k: EventKey): string {
    k.provider + ":" + k.id
  }

  predicate SameContent(s: Stored, e: PaymentEvent) {
    s.payload == e.payload && s.kind == e.kind && s.invoice == e.invoice && s.amount == e.amount && s.currency == e.currency
  }

  predicate HasKey(ledger: seq<Entry>, key: LedgerKey) {
    exists i :: 0 <= i < |ledger| && ledger[i].key == key
  }

  // INSERT ... ON CONFLICT(idempotency_key) DO NOTHING.
  function Booked(ledger: seq<Entry>, e: Entry): seq<Entry> {
    if HasKey(ledger, e.key) then ledger else ledger + [e]
  }

  function EntryOf(e: PaymentEvent, kind: EntryKind, amount: int): Entry {
    Entry(ForEvent(KeyText(KeyOf(e))), e.invoice, Some(KeyOf(e)), kind, amount)
  }

  // The total of the entries of one kind on an invoice.
  function Total(ledger: seq<Entry>, invoice: int, kind: EntryKind): int
    decreases |ledger|
  {
    if ledger == [] then 0
    else Total(ledger[..|ledger| - 1], invoice, kind)
         + var e := ledger[|ledger| - 1]; if e.invoice == invoice && e.kind == kind then e.amount else 0
  }

  // The effect on an unprocessed event's invoice, subscription and the ledger.
  datatype Settled = Settled(invoice: InvoiceStatus, sub: Sub, ledger: seq<Entry>) | Rejected(error: Error)

  function SettlePayment(db: Db, e: PaymentEvent, invoice: Invoice, sub: Sub): Settled {
    if e.amount != invoice.amount then Rejected(Mismatch)
    else if invoice.status == Void || invoice.status == Refunded then Rejected(Conflict)
    else Settled(Paid, sub.(status := Active, graceUntil := Some(sub.periodEnd + GRACE)),
                 Booked(db.ledger, EntryOf(e, Payment, -e.amount)))
  }

  function SettleFailure(db: Db, invoice: Invoice, sub: Sub): Settled {
    Settled(if invoice.status == Open then Failed else invoice.status,
            if sub.status == Pending then sub.(status := PastDue) else sub, db.ledger)
  }

  function SettleRefund(db: Db, e: PaymentEvent, invoice: Invoice, sub: Sub): Settled {
    if invoice.status != Paid && invoice.status != Refunded then Rejected(Conflict)
    else if e.amount <= 0 then Rejected(Mismatch)
    else
      var already := Total(db.ledger, e.invoice, Refund);
      if already + e.amount > invoice.amount then Rejected(Mismatch)
      else
        var ledger := Booked(db.ledger, EntryOf(e, Refund, e.amount));
        if already + e.amount == invoice.amount then Settled(Refunded, sub.(status := Canceled), ledger)
        else Settled(invoice.status, sub, ledger)
  }

  function Settle(db: Db, e: PaymentEvent, invoice: Invoice, sub: Sub): Settled {
    match e.kind
    case PaymentSucceeded => SettlePayment(db, e, invoice, sub)
    case PaymentFailed => SettleFailure(db, invoice, sub)
    case _ => SettleRefund(db, e, invoice, sub)
  }

  // ApplyPaymentEvent after the input is cleaned; an error rolls everything back.
  function ApplyClean(db: Db, e: PaymentEvent): (Db, Result) {
    var key := KeyOf(e);
    if !IsValid(e) then (db, Err(Invalid))
    else if key in db.events && !SameContent(db.events[key], e) then (db, Err(Mismatch))
    else if e.invoice !in db.invoices then (db, Err(NotFound))
    else if db.invoices[e.invoice].currency != e.currency then (db, Err(Mismatch))
    else
      var invoice := db.invoices[e.invoice];
      if invoice.subscription !in db.subs then (db, Err(NotFound))
      else
        var sub := db.subs[invoice.subscription];
        if key in db.events && db.events[key].processed then (db, Ok(false, invoice.status, sub.status))
        else
          match Settle(db, e, invoice, sub)
          case Rejected(error) => (db, Err(error))
          case Settled(status, newSub, ledger) =>
            (Db(db.events[key := Stored(e.kind, e.invoice, e.amount, e.currency, e.payload, true)],
                db.invoices[e.invoice := invoice.(status := status)],
                db.subs[invoice.subscription := newSub], ledger),
             Ok(true, status, newSub.status))
  }

  function ApplyStep(db: Db, e: PaymentEvent): (Db, Result) {
    ApplyClean(db, Clean(e))
  }

  // ---------- birth and lifecycle ----------

  predicate IsLive(s: SubStatus) {
    s == Pending || s == Active || s == Grace || s == PastDue
  }

  // CreatePendingSubscription once account and plan are found; sub and invoice are the next identities.
  function CreateStep(db: Db, account: int, plan: int, price: int, currency: string, periodEnd: int,
                      sub: int, invoice: int): Db {
    if sub in db.subs || invoice in db.invoices || price < 0
       || (exists s :: s in db.subs && db.subs[s].account == account && db.subs[s].plan == plan && IsLive(db.subs[s].status))
    then db
    else db.(subs := db.subs[sub := Sub(account, plan, Pending, periodEnd, None)],
             invoices := db.invoices[invoice := Invoice(Open, price, currency, account, sub)],
             ledger := db.ledger + [Entry(ForInvoice(invoice), invoice, None, Charge, price)])
  }

  function Lapsed(s: Sub, now: int): Sub {
    if s.status == Active && s.periodEnd <= now
    then s.(status := Grace, graceUntil := if s.graceUntil.Some? then s.graceUntil else Some(s.periodEnd + GRACE))
    else s
  }

  function Deadline(s: Sub): int {
    if s.graceUntil.Some? then s.graceUntil.value else s.periodEnd
  }

  function Closed(s: Sub, now: int): Sub {
    if (s.status == Grace || s.status == PastDue) && Deadline(s) <= now then s.(status := Expired) else s
  }

  // ReconcileLifecycle: the two updates of one transaction.
  function ReconcileStep(db: Db, now: int): Db {
    db.(subs := map s | s in db.subs :: Closed(Lapsed(db.subs[s], now), now))
  }

  // Whether a subscription that Entitlement selected gives access.
  predicate GivesAccess(s: Sub, now: int) {
    now < s.periodEnd || (s.status == Grace && s.graceUntil.Some? && now < s.graceUntil.value)
  }

  // The ACTIVE and GRACE subscriptions of an account to a product's plans.
  function Granting(db: Db, account: int, plans: set<int>): set<int> {
    set s | s in db.subs && db.subs[s].account == account && db.subs[s].plan in plans
            && (db.subs[s].status == Active || db.subs[s].status == Grace)
  }

  // Entitlement looks at the latest of them.
  predicate Entitled(db: Db, account: int, plans: set<int>, now: int) {
    var granting := Granting(db, account, plans);
    granting != {} && GivesAccess(db.subs[Greatest(granting)], now)
  }
}
