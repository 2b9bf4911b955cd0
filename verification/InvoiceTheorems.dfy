/** What the provider's notices add up to: failed renewals, paid invoices, and subscriptions that end. */
module InvoiceTheorems {
  import opened Wrappers
  import opened Text
  import opened Calendar
  import opened Payments

  // ---- A paid invoice stays paid ----

  predicate IsPaid(b: Books, reference: string) {
    reference in b.invoices && b.invoices[reference].paid
  }

  lemma ChargeKeepsPaid(t: Alphabet, b: Books, d: Charge, reference: string)
    requires IsPaid(b, reference)
    ensures IsPaid(Reconcile(t, b, d).books, reference)
  {
    hide ChargeFits, AddOneMonth, CheckoutByRef, RecoveryApplied, PeriodBase;
  }

  lemma EventKeepsPaid(t: Alphabet, b: Books, e: PaystackEvent, reference: string)
    requires IsPaid(b, reference)
    ensures IsPaid(Handle(t, b, e).0, reference)
  {
    hide Reconcile, SubByProviderId, SubByEmail, CreatedSub, CheckoutOfSub;
    if e.ChargeSuccess? {
      ChargeKeepsPaid(t, b, e.charge, reference);
    }
  }

  lemma PaidStep(t: Alphabet, b: Books, a: Call, reference: string)
    requires IsPaid(b, reference)
    ensures IsPaid(Next(t, b, a), reference)
  {
    hide Handle, Reconcile, CheckoutByRef, HasOpenCheckout, CurrentSub, Lapsed;
    match a
    case Run(worker) =>
      if EventOf(b, worker).Some? {
        EventKeepsPaid(t, b, EventOf(b, worker).value, reference);
      }
    case PollStatus(_, _, Success(d)) => ChargeKeepsPaid(t, b, d, reference);
    case _ =>
  }

  /** No later call, a failed-payment notice for the same reference included, makes a paid invoice unpaid. */
  lemma {:induction false} PaidStaysPaid(t: Alphabet, h: History, i: nat, j: nat, reference: string)
    requires h.Valid(t) && i <= j < |h.states| && IsPaid(h.states[i], reference)
    ensures IsPaid(h.states[j], reference)
  {
    hide Next, IsPaid;
    if i < j {
      PaidStaysPaid(t, h, i, j - 1, reference);
      assert h.Follows(t, j - 1);
      PaidStep(t, h.states[j - 1], h.calls[j - 1], reference);
    }
  }

  // ---- Failed, then paid ----

  /** The two notices are about the same invoice of the same subscription. */
  predicate SameInvoice(failed: PaystackEvent, paid: PaystackEvent) {
    && failed.InvoicePaymentFailed? && paid.InvoiceUpdate? && paid.paid
    && failed.providerId == paid.providerId && failed.reference == paid.reference
  }

  lemma SameNewest(a: set<nat>, b: set<nat>)
    requires a == b
    ensures Newest(a) == Newest(b)
  {
  }

  function PastDue(b: Books, s: nat, invoices: map<string, Invoice>): Books
    requires s in b.subs
  {
    b.(subs := b.subs[s := b.subs[s].(status := SubPastDue)], invoices := invoices)
  }

  lemma PastDueKeepsLookup(b: Books, s: nat, invoices: map<string, Invoice>, providerId: string)
    requires s in b.subs && b.subs[s].status != SubReplaced
    ensures SubByProviderId(PastDue(b, s, invoices), providerId) == SubByProviderId(b, providerId)
  {
    var after := PastDue(b, s, invoices);
    SameNewest(set k | k in after.subs && after.subs[k].providerId == providerId && after.subs[k].status != SubReplaced,
               set k | k in b.subs && b.subs[k].providerId == providerId && b.subs[k].status != SubReplaced);
  }

  lemma PastDueKeepsCurrent(b: Books, s: nat, invoices: map<string, Invoice>, account: nat)
    requires s in b.subs && b.subs[s].status in CURRENT_STATUSES
    ensures CurrentSub(PastDue(b, s, invoices), account) == CurrentSub(b, account)
  {
    var after := PastDue(b, s, invoices);
    SameNewest(set k | k in after.subs && after.subs[k].account == account && after.subs[k].status in CURRENT_STATUSES,
               set k | k in b.subs && b.subs[k].account == account && b.subs[k].status in CURRENT_STATUSES);
  }

  lemma FoundIsNotReplaced(b: Books, providerId: string)
    ensures var found := SubByProviderId(b, providerId);
      found.Some? ==> found.value in b.subs && b.subs[found.value].status != SubReplaced
  {
  }

  /** A paid notice after a failed one leaves the books as if the payment had never failed. */
  lemma PaidUndoesFailed(b: Books, failed: PaystackEvent, paid: PaystackEvent)
    requires SameInvoice(failed, paid) && SubByProviderId(b, paid.providerId).Some?
    ensures OnInvoiceUpdate(OnPaymentFailed(b, failed), paid) == OnInvoiceUpdate(b, paid)
  {
    var b1, s := OnPaymentFailed(b, failed), SubByProviderId(b, paid.providerId).value;
    FoundIsNotReplaced(b, paid.providerId);
    PastDueKeepsLookup(b, s, b1.invoices, paid.providerId);
    hide SubByProviderId, SubByEmail;
    assert OnInvoiceUpdate(b1, paid).subs == OnInvoiceUpdate(b, paid).subs;
    assert OnInvoiceUpdate(b1, paid).invoices == OnInvoiceUpdate(b, paid).invoices;
  }

  /** A failed renewal opens the way to a recovery payment: the account's newest current subscription can be
      paid for exactly on its own plan, and while no checkout is open. */
  lemma FailedOpensRecovery(b: Books, failed: PaystackEvent, account: nat, planId: string, reference: string)
    requires failed.InvoicePaymentFailed? && account in b.accounts && CheckoutByRef(b.checkouts, reference).None?
    requires CurrentSub(b, account).Some? && SubByProviderId(b, failed.providerId) == CurrentSub(b, account)
    ensures InitiateRecovery(OnPaymentFailed(b, failed), account, planId, reference, true).Some? <==>
      planId in PLAN_PRICES && planId == b.subs[CurrentSub(b, account).value].planId && !HasOpenCheckout(b, account)
  {
    var b1, s := OnPaymentFailed(b, failed), CurrentSub(b, account).value;
    PastDueKeepsCurrent(b, s, b1.invoices, account);
    assert s in b.subs && b.subs[s].planId == b1.subs[s].planId;
    assert CurrentSub(b1, account) == Some(s);
    assert HasOpenCheckout(b1, account) == HasOpenCheckout(b, account);
    hide SubByProviderId, CheckoutByRef, CurrentSub, HasOpenCheckout;
  }

  // ---- Disabled, then lapsed ----

  /** The account goes back to the basic plan exactly when one of its subscriptions lapses. */
  predicate Lapses(b: Books, account: nat) {
    exists s :: s in b.subs && b.subs[s].account == account && Lapsed(b.subs[s], b.today)
  }

  /** A disabled subscription is paid out: its plan stays until the day after the period's end, when the
      daily task ends it and takes the account back to the basic plan; one without an end never lapses. */
  lemma DisabledRunsToItsEnd(b: Books, providerId: string, s: nat, date: RealDate)
    requires SubByProviderId(b, providerId) == Some(s) && b.subs[s].account in b.accounts
    ensures var disabled := OnSubscriptionDisable(b, providerId).(today := date);
      var after, end, account := ExpireLapsed(disabled), b.subs[s].periodEnd, b.subs[s].account;
      && disabled.accounts == b.accounts
      && after.subs[s].status == (if end.Some? && end.value.Before(date) then SubExpired else SubCancelled)
      && (end.Some? && end.value.Before(date) ==> after.accounts[account].plan == BASIC_PLAN)
      && (!Lapses(disabled, account) ==> after.accounts[account] == b.accounts[account])
  {
    FoundIsNotReplaced(b, providerId);
    hide SubByProviderId;
    var disabled := OnSubscriptionDisable(b, providerId).(today := date);
    assert s in disabled.subs;
  }
}
