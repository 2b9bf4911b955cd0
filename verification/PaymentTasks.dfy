/** payments/tasks.py: the handlers of webhook events, each updating the books in place. */
module PaymentTasks {
  import opened Wrappers
  import opened Text
  import opened Payments
  import opened PaymentTheorems
  import opened PaymentService

  /** `.order_by("-created_at", "-id").first()` over the rows with these keys. */
  method First(keys: set<nat>) returns (r: Option<nat>)
    ensures r == Newest(keys)
  {
    if keys == {} {
      return None;
    }
    var left := keys;
    var top: nat :| top in keys;
    while left != {}
      invariant left <= keys && top in keys
      invariant forall k <- keys :: k in left || k <= top
      decreases |left|
    {
      var k :| k in left;
      left := left - {k};
      if k > top {
        top := k;
      }
    }
    r := Some(top);
  }

  method FindSubscriptionByProviderId(books: Ledger, providerId: string) returns (r: Option<nat>)
    ensures r == SubByProviderId(books.View(), providerId)
  {
    r := First(set s | s in books.subs && books.subs[s].providerId == providerId
      && books.subs[s].status != SubReplaced);
  }

  method FindSubscriptionByEmail(books: Ledger, email: string) returns (r: Option<nat>)
    ensures r == SubByEmail(books.View(), email)
  {
    r := First(set s | s in books.subs && books.subs[s].email == email && books.subs[s].status != SubReplaced);
  }

  method FindSubscriptionByCustomer(books: Ledger, customerCode: string) returns (r: Option<nat>)
    ensures r == SubByCustomer(books.View(), customerCode)
  {
    r := First(set s | s in books.subs && books.subs[s].customerCode == customerCode
      && books.subs[s].status != SubReplaced);
  }

  /** The four queries of subscription.create, the first that finds a row winning. */
  method FindCreatedSubscription(books: Ledger, customerCode: string, customerEmail: string) returns (r: Option<nat>)
    ensures r == CreatedSub(books.View(), customerCode, customerEmail)
  {
    r := First(set s | s in books.subs && books.subs[s].customerCode == customerCode
                 && books.subs[s].providerId == "" && books.subs[s].status != SubReplaced);
    if r.None? {
      r := First(set s | s in books.subs && books.subs[s].email == customerEmail
                   && books.subs[s].providerId == "" && books.subs[s].status != SubReplaced);
    }
    if r.None? {
      r := FindSubscriptionByCustomer(books, customerCode);
    }
    if r.None? {
      r := FindSubscriptionByEmail(books, customerEmail);
    }
  }

  method FindCheckoutOfSubscription(books: Ledger, s: nat, customerEmail: string) returns (r: Option<nat>)
    ensures r == CheckoutOfSub(books.View(), s, customerEmail)
  {
    r := First(set c | c in books.checkouts && books.checkouts[c].activated == Some(s));
    if r.None? && customerEmail != "" {
      r := First(set c | c in books.checkouts && books.checkouts[c].account in books.accounts
                   && books.accounts[books.checkouts[c].account].email == customerEmail
                   && books.checkouts[c].status in OPEN_STATUSES + {ProviderCreated});
    }
  }

  /** _cancel_replaced_subscription */
  method CancelReplacedSubscription(books: Ledger, former: nat, successor: nat)
    modifies books`subs
    ensures books.subs == Replace(old(books.subs), former, successor)
  {
    if former !in books.subs || books.subs[former].status == SubReplaced {
      return;
    }
    books.subs := books.subs[former := books.subs[former].(
      status := SubReplaced, cancelAtEnd := false, replacedBy := Some(successor))];
  }

  /** _handle_subscription_create */
  method HandleSubscriptionCreate(books: Ledger, e: PaystackEvent)
    requires e.SubscriptionCreate?
    modifies books`subs, books`checkouts
    ensures books.View() == OnSubscriptionCreate(old(books.View()), e)
  {
    var found := FindCreatedSubscription(books, e.customerCode, e.customerEmail);
    if found.None? || found.value !in books.subs {
      return;
    }
    var s := found.value;
    books.subs := books.subs[s := books.subs[s].(
      providerId := e.providerId, status := SubActive, periodStart := e.start, periodEnd := e.nextPayment,
      cancelAtEnd := false)];
    var c := FindCheckoutOfSubscription(books, s, e.customerEmail);
    if c.None? {
      return;
    }
    books.checkouts := books.checkouts[c.value := books.checkouts[c.value].(
      activated := Some(s), status := ProviderCreated)];
    if books.checkouts[c.value].supersedes.Some? {
      CancelReplacedSubscription(books, books.checkouts[c.value].supersedes.value, s);
    }
  }

  /** _handle_subscription_disable */
  method HandleSubscriptionDisable(books: Ledger, providerId: string)
    modifies books`subs
    ensures books.View() == OnSubscriptionDisable(old(books.View()), providerId)
  {
    var found := FindSubscriptionByProviderId(books, providerId);
    if found.None? || found.value !in books.subs {
      return;
    }
    books.subs := books.subs[found.value := books.subs[found.value].(status := SubCancelled, cancelAtEnd := true)];
  }

  /** _handle_invoice_payment_failed */
  method HandleInvoicePaymentFailed(books: Ledger, e: PaystackEvent)
    requires e.InvoicePaymentFailed?
    modifies books`subs, books`invoices
    ensures books.View() == OnPaymentFailed(old(books.View()), e)
  {
    var found := FindSubscriptionByProviderId(books, e.providerId);
    if found.None? {
      found := FindSubscriptionByEmail(books, e.customerEmail);
    }
    if found.None? || found.value !in books.subs {
      return;
    }
    var s := found.value;
    books.subs := books.subs[s := books.subs[s].(status := SubPastDue)];
    if e.reference != "" && e.reference !in books.invoices {
      books.invoices := books.invoices[e.reference := Invoice(
        books.subs[s].account, s, e.amount, e.currency, false, None, None, None)];
    }
  }

  /** _handle_invoice_update */
  method HandleInvoiceUpdate(books: Ledger, e: PaystackEvent)
    requires e.InvoiceUpdate?
    modifies books`subs, books`invoices
    ensures books.View() == OnInvoiceUpdate(old(books.View()), e)
  {
    if !e.paid {
      return;
    }
    var found := FindSubscriptionByProviderId(books, e.providerId);
    if found.None? || found.value !in books.subs {
      return;
    }
    var s := found.value;
    var sub := books.subs[s];
    if e.periodEnd.Some? {
      sub := sub.(periodEnd := e.periodEnd);
    }
    if e.periodStart.Some? {
      sub := sub.(periodStart := e.periodStart);
    }
    sub := sub.(status := SubActive, cancelAtEnd := false);
    books.subs := books.subs[s := sub];
    books.invoices := books.invoices[e.reference := Invoice(
      sub.account, s, e.amount, e.currency, true, e.periodStart, e.periodEnd, Some(books.today))];
  }

  method Dispatch(t: Alphabet, books: Ledger, e: PaystackEvent) returns (raised: bool)
    requires RefsUnique(books.View())
    modifies books
    ensures (books.View(), raised) == Handle(t, old(books.View()), e)
  {
    match e {
      case ChargeSuccess(d) =>
        var verdict := books.ReconcileVerifiedCharge(t, d);
        return verdict == Raised;
      case SubscriptionCreate(_, _, _, _, _) => HandleSubscriptionCreate(books, e);
      case SubscriptionDisable(providerId) => HandleSubscriptionDisable(books, providerId);
      case InvoicePaymentFailed(_, _, _, _, _) => HandleInvoicePaymentFailed(books, e);
      case InvoiceUpdate(_, _, _, _, _, _, _) => HandleInvoiceUpdate(books, e);
      case OtherEvent =>
    }
    return false;
  }

  /** The first step of process_payment_event: the event is read, unless processed. */
  method Fetch(books: Ledger, worker: nat, id: string)
    modifies books`log
    ensures books.View() == FetchEvent(old(books.View()), worker, id)
  {
    if id !in books.log.rows || books.log.rows[id].processed || worker in books.log.running {
      return;
    }
    books.log := books.log.(running := books.log.running[worker := Fetched(id)]);
  }

  /** The second step: the handler runs, in its own transactions. */
  method RunHandler(t: Alphabet, books: Ledger, worker: nat)
    requires RefsUnique(books.View())
    modifies books
    ensures books.View() == RunEvent(t, old(books.View()), worker)
  {
    var e := EventOf(books.View(), worker);
    if e.None? {
      return;
    }
    var log := books.log;
    var raised := Dispatch(t, books, e.value);
    books.log := log.(running := log.running[worker := Ran(log.running[worker].id, raised)]);
  }

  /** The last step: the row is marked, with whatever others wrote to it since. */
  method MarkRow(books: Ledger, worker: nat)
    modifies books`log
    ensures books.View() == MarkEvent(old(books.View()), worker)
  {
    if worker !in books.log.running || !books.log.running[worker].Ran? {
      return;
    }
    var id, raised := books.log.running[worker].id, books.log.running[worker].raised;
    books.log := books.log.(running := books.log.running - {worker});
    if id in books.log.rows {
      var row := books.log.rows[id];
      row := if raised then row.(failed := true) else row.(processed := true, failed := false);
      books.log := books.log.(rows := books.log.rows[id := row]);
    }
  }

  /** process_payment_event by a worker that nothing interrupts. */
  method ProcessPaymentEvent(t: Alphabet, books: Ledger, worker: nat, id: string)
    requires Linked(books.View())
    modifies books
    ensures books.View() == ProcessEvent(t, old(books.View()), worker, id)
  {
    ghost var b := books.View();
    Fetch(books, worker, id);
    FetchingKeepsLinks(b, worker, id);
    RunHandler(t, books, worker);
    MarkRow(books, worker);
  }

  lemma FetchingKeepsLinks(b: Books, worker: nat, id: string)
    requires Linked(b)
    ensures RefsUnique(FetchEvent(b, worker, id))
  {
  }
}
