/** Billing as it runs: one transaction for each payment event, one for each reconciliation. */
module BillingStore {
  import opened Wrappers
  import opened BillingModel

  class Repository {
    var events: map<EventKey, Stored>
    var invoices: map<int, Invoice>
    var subs: map<int, Sub>
    var ledger: seq<Entry>

    ghost function View(): Db
      reads this
    {
      Db(events, invoices, subs, ledger)
    }

    constructor ()
      ensures View() == Db(map[], map[], map[], [])
    {
      events, invoices, subs, ledger := map[], map[], map[], [];
    }

    method CreatePendingSubscription(account: int, plan: int, price: int, currency: string, periodEnd: int,
                                     sub: int, invoice: int) returns (ok: bool)
      modifies this
      ensures View() == CreateStep(old(View()), account, plan, price, currency, periodEnd, sub, invoice)
      ensures !ok ==> View() == old(View())
    {
      ok := !(sub in subs || invoice in invoices || price < 0
              || exists s :: s in subs && subs[s].account == account && subs[s].plan == plan && IsLive(subs[s].status));
      if ok {
        subs := subs[sub := Sub(account, plan, Pending, periodEnd, None)];
        invoices := invoices[invoice := Invoice(Open, price, currency, account, sub)];
        ledger := ledger + [Entry(ForInvoice(invoice), invoice, None, Charge, price)];
      }
    }

    // INSERT ... ON CONFLICT(idempotency_key) DO NOTHING.
    method Book(e: Entry)
      modifies this`ledger
      ensures ledger == Booked(old(ledger), e)
    {
      var i := 0;
      while i < |ledger| && ledger[i].key != e.key
        invariant 0 <= i <= |ledger| && ledger == old(ledger)
        invariant forall j :: 0 <= j < i ==> ledger[j].key != e.key
      {
        i := i + 1;
      }
      if i == |ledger| { ledger := ledger + [e]; }
    }

    method SumRefunds(invoice: int) returns (already: int)
      ensures already == Total(ledger, invoice, Refund)
    {
      already := 0;
      for i := 0 to |ledger|
        invariant already == Total(ledger[..i], invoice, Refund)
      {
        assert ledger[..i + 1][..i] == ledger[..i];
        if ledger[i].invoice == invoice && ledger[i].kind == Refund { already := already + ledger[i].amount; }
      }
      assert ledger[..|ledger|] == ledger;
    }

    // The branch of the event's type; on an error nothing was written.
    method SettleEvent(e: PaymentEvent) returns (error: Option<Error>)
      requires e.invoice in invoices && invoices[e.invoice].subscription in subs
      modifies this`invoices, this`subs, this`ledger
      ensures match Settle(old(View()), e, old(invoices[e.invoice]), old(subs[invoices[e.invoice].subscription]))
              case Rejected(reason) => error == Some(reason) && View() == old(View())
              case Settled(status, sub, book) =>
                && error.None? && ledger == book
                && invoices == old(invoices[e.invoice := invoices[e.invoice].(status := status)])
                && subs == old(subs)[old(invoices[e.invoice].subscription) := sub]
    {
      var invoice := invoices[e.invoice];
      var sub := subs[invoice.subscription];
      var status := invoice.status;
      match e.kind {
        case PaymentSucceeded =>
          if e.amount != invoice.amount { return Some(Mismatch); }
          if status == Void || status == Refunded { return Some(Conflict); }
          status := Paid;
          sub := sub.(status := Active, graceUntil := Some(sub.periodEnd + BillingModel.GRACE));
          Book(EntryOf(e, Payment, -e.amount));
        case PaymentFailed =>
          if status == Open { status := Failed; }
          if sub.status == Pending { sub := sub.(status := PastDue); }
        case _ =>
          if status != Paid && status != Refunded { return Some(Conflict); }
          if e.amount <= 0 { return Some(Mismatch); }
          var already := SumRefunds(e.invoice);
          if already + e.amount > invoice.amount { return Some(Mismatch); }
          Book(EntryOf(e, Refund, e.amount));
          if already + e.amount == invoice.amount {
            status := Refunded;
            sub := sub.(status := Canceled);
          }
      }
      invoices := invoices[e.invoice := invoice.(status := status)];
      subs := subs[invoice.subscription := sub];
      error := None;
    }

    method ApplyPaymentEvent(input: PaymentEvent) returns (result: Result)
      modifies this
      ensures (View(), result) == ApplyStep(old(View()), input)
    {
      var e := Clean(input);
      if !IsValid(e) { return Err(Invalid); }
      var key := KeyOf(e);
      if key in events && !SameContent(events[key], e) { return Err(Mismatch); }
      if e.invoice !in invoices { return Err(NotFound); }
      if invoices[e.invoice].currency != e.currency { return Err(Mismatch); }
      var subscription := invoices[e.invoice].subscription;
      if subscription !in subs { return Err(NotFound); }
      if key in events && events[key].processed {
        return Ok(false, invoices[e.invoice].status, subs[subscription].status);
      }
      var error := SettleEvent(e);
      if error.Some? { return Err(error.value); }
      events := events[key := Stored(e.kind, e.invoice, e.amount, e.currency, e.payload, true)];
      result := Ok(true, invoices[e.invoice].status, subs[subscription].status);
    }

    method StartGrace(now: int) returns (graced: nat)
      modifies this`subs
      ensures subs == map s | s in old(subs) :: Lapsed(old(subs)[s], now)
      ensures graced == old(|set s | s in subs && subs[s].status == Active && subs[s].periodEnd <= now|)
    {
      graced := |set s | s in subs && subs[s].status == Active && subs[s].periodEnd <= now|;
      subs := map s | s in subs :: Lapsed(subs[s], now);
    }

    method ExpireDue(now: int) returns (expired: nat)
      modifies this`subs
      ensures subs == map s | s in old(subs) :: Closed(old(subs)[s], now)
      ensures expired == |old(DueSubs(subs, now))|
    {
      expired := |DueSubs(subs, now)|;
      subs := map s | s in subs :: Closed(subs[s], now);
    }

    method ReconcileLifecycle(now: int) returns (graced: nat, expired: nat)
      modifies this`subs
      ensures View() == ReconcileStep(old(View()), now)
      ensures graced == old(|set s | s in subs && subs[s].status == Active && subs[s].periodEnd <= now|)
      ensures expired == |DueSubs(map s | s in old(subs) :: Lapsed(old(subs)[s], now), now)|
    {
      graced := StartGrace(now);
      ghost var lapsed := subs;
      expired := ExpireDue(now);
      assert forall s :: s in subs ==> subs[s] == Closed(lapsed[s], now);
    }
  }

  function DueSubs(subs: map<int, Sub>, now: int): set<int> {
    set s | s in subs && (subs[s].status == Grace || subs[s].status == PastDue) && Deadline(subs[s]) <= now
  }
}
