/** The provider's notices: which rows each means, what it changes there, and where every invoice comes from. */
module NoticeTheorems {
  import opened Wrappers
  import opened Text
  import opened Calendar
  import opened Payments
  import opened PaymentTheorems
  import opened ChargeTheorems
  import opened InvoiceTheorems

  // ---- The subscription a notice means ----

  /** How well a subscription answers to a notice, best first: a new subscription is looked for by customer,
      then by address, unconfirmed ones before confirmed ones; a replaced one never answers. */
  predicate Answers(b: Books, k: nat, e: PaystackEvent, rank: nat) {
    && k in b.subs && b.subs[k].status != SubReplaced
    && match e
       case SubscriptionCreate(_, customerCode, customerEmail, _, _) =>
         || (rank == 0 && b.subs[k].customerCode == customerCode && b.subs[k].providerId == "")
         || (rank == 1 && b.subs[k].email == customerEmail && b.subs[k].providerId == "")
         || (rank == 2 && b.subs[k].customerCode == customerCode)
         || (rank == 3 && b.subs[k].email == customerEmail)
       case SubscriptionDisable(providerId) => rank == 0 && b.subs[k].providerId == providerId
       case InvoicePaymentFailed(providerId, customerEmail, _, _, _) =>
         || (rank == 0 && b.subs[k].providerId == providerId)
         || (rank == 1 && b.subs[k].email == customerEmail)
       case InvoiceUpdate(paid, providerId, _, _, _, _, _) => rank == 0 && paid && b.subs[k].providerId == providerId
       case _ => false
  }

  function Answering(b: Books, e: PaystackEvent, rank: nat): set<nat> {
    set k | k in b.subs && Answers(b, k, e, rank)
  }

  ghost predicate IsNewest(keys: set<nat>, k: nat) {
    k in keys && forall l <- keys :: l <= k
  }

  /** The newest of those that answer best. */
  ghost predicate Means(b: Books, e: PaystackEvent, s: nat) {
    exists rank: nat :: IsNewest(Answering(b, e, rank), s) && forall better: nat :: better < rank ==>
      Answering(b, e, better) == {}
  }

  ghost predicate MeansNone(b: Books, e: PaystackEvent) {
    forall rank: nat :: Answering(b, e, rank) == {}
  }

  lemma OnlyOneMeant(b: Books, e: PaystackEvent, s: nat, k: nat)
    requires Means(b, e, s) && Means(b, e, k)
    ensures s == k
  {
    var i: nat :| IsNewest(Answering(b, e, i), s) && forall better: nat :: better < i ==> Answering(b, e, better) == {};
    var j: nat :| IsNewest(Answering(b, e, j), k) && forall better: nat :: better < j ==> Answering(b, e, better) == {};
    assert i == j;
  }

  /** What a lookup of `rank` finds is meant if nothing answers better. */
  lemma FindsMeant(b: Books, e: PaystackEvent, rank: nat)
    requires forall better: nat :: better < rank ==> Answering(b, e, better) == {}
    ensures var found := Newest(Answering(b, e, rank));
      if found.Some? then Means(b, e, found.value) else Answering(b, e, rank) == {}
  {
    var found := Newest(Answering(b, e, rank));
    if found.Some? {
      assert IsNewest(Answering(b, e, rank), found.value);
    }
  }

  lemma NoneBelow(b: Books, e: PaystackEvent, last: nat)
    requires forall rank: nat :: rank <= last ==> Answering(b, e, rank) == {}
    requires last >= 3
    ensures MeansNone(b, e)
  {
    forall rank: nat ensures Answering(b, e, rank) == {} {
    }
  }

  lemma ByIdFinds(b: Books, e: PaystackEvent)
    requires e.SubscriptionDisable? || e.InvoicePaymentFailed? || (e.InvoiceUpdate? && e.paid)
    ensures SubByProviderId(b, e.providerId) == Newest(Answering(b, e, 0))
  {
    SameNewest((set s | s in b.subs && b.subs[s].providerId == e.providerId && b.subs[s].status != SubReplaced),
               Answering(b, e, 0));
  }

  lemma ByEmailFinds(b: Books, e: PaystackEvent)
    requires e.InvoicePaymentFailed?
    ensures SubByEmail(b, e.customerEmail) == Newest(Answering(b, e, 1))
  {
    SameNewest((set s | s in b.subs && b.subs[s].email == e.customerEmail && b.subs[s].status != SubReplaced),
               Answering(b, e, 1));
  }

  /** The lookups of a notice's handler find the subscription it means. */
  lemma LookupMeans(b: Books, e: PaystackEvent)
    requires e.SubscriptionDisable? || e.InvoicePaymentFailed? || (e.InvoiceUpdate? && e.paid)
    ensures var byId := SubByProviderId(b, e.providerId);
      var found := if byId.None? && e.InvoicePaymentFailed? then SubByEmail(b, e.customerEmail) else byId;
      if found.Some? then Means(b, e, found.value) else MeansNone(b, e)
  {
    ByIdFinds(b, e);
    FindsMeant(b, e, 0);
    if e.InvoicePaymentFailed? {
      ByEmailFinds(b, e);
    }
    hide SubByProviderId, SubByEmail, Newest;
    if Answering(b, e, 0) == {} {
      FindsMeant(b, e, 1);
      if Answering(b, e, 1) == {} {
        NoneBelow(b, e, 3);
      }
    }
  }

  lemma CreatedFinds(b: Books, e: PaystackEvent)
    requires e.SubscriptionCreate?
    ensures var a0, a1, a2, a3 := Newest(Answering(b, e, 0)), Newest(Answering(b, e, 1)),
        Newest(Answering(b, e, 2)), Newest(Answering(b, e, 3));
      CreatedSub(b, e.customerCode, e.customerEmail) ==
        if a0.Some? then a0 else if a1.Some? then a1 else if a2.Some? then a2 else a3
  {
    SameNewest((set s | s in b.subs && b.subs[s].customerCode == e.customerCode
                 && b.subs[s].providerId == "" && b.subs[s].status != SubReplaced), Answering(b, e, 0));
    SameNewest((set s | s in b.subs && b.subs[s].email == e.customerEmail
                 && b.subs[s].providerId == "" && b.subs[s].status != SubReplaced), Answering(b, e, 1));
    SameNewest((set s | s in b.subs && b.subs[s].customerCode == e.customerCode && b.subs[s].status != SubReplaced),
               Answering(b, e, 2));
    SameNewest((set s | s in b.subs && b.subs[s].email == e.customerEmail && b.subs[s].status != SubReplaced),
               Answering(b, e, 3));
  }

  lemma CreatedMeans(b: Books, e: PaystackEvent)
    requires e.SubscriptionCreate?
    ensures var found := CreatedSub(b, e.customerCode, e.customerEmail);
      if found.Some? then Means(b, e, found.value) else MeansNone(b, e)
  {
    CreatedFinds(b, e);
    hide CreatedSub, Newest, Answering, Means, MeansNone;
    FindsMeant(b, e, 0);
    if Answering(b, e, 0) == {} {
      FindsMeant(b, e, 1);
      if Answering(b, e, 1) == {} {
        FindsMeant(b, e, 2);
        if Answering(b, e, 2) == {} {
          FindsMeant(b, e, 3);
          if Answering(b, e, 3) == {} {
            NoneBelow(b, e, 3);
          }
        }
      }
    }
  }

  // ---- What a notice changes ----

  lemma NoneMeant(t: Alphabet, b: Books, e: PaystackEvent)
    requires MeansNone(b, e) && !e.ChargeSuccess?
    ensures Handle(t, b, e) == (b, false)
  {
    if e.SubscriptionCreate? {
      CreatedMeans(b, e);
    } else if e.SubscriptionDisable? || e.InvoicePaymentFailed? || (e.InvoiceUpdate? && e.paid) {
      LookupMeans(b, e);
    }
    hide SubByProviderId, SubByEmail, CreatedSub;
  }

  /** A disabled subscription is cancelled for its period's end. */
  lemma DisableNotice(t: Alphabet, b: Books, e: PaystackEvent, s: nat)
    requires e.SubscriptionDisable? && Means(b, e, s)
    ensures s in b.subs && Handle(t, b, e).0 ==
      b.(subs := b.subs[s := b.subs[s].(status := SubCancelled, cancelAtEnd := true)])
  {
    LookupMeans(b, e);
    MeantIsFound(b, e, s);
    hide SubByProviderId;
  }

  lemma MeantIsFound(b: Books, e: PaystackEvent, s: nat)
    requires Means(b, e, s)
    ensures s in b.subs && b.subs[s].status != SubReplaced && !MeansNone(b, e)
    ensures forall k :: Means(b, e, k) ==> k == s
  {
    forall k | Means(b, e, k) ensures k == s {
      OnlyOneMeant(b, e, s, k);
    }
  }

  /** A failed payment makes its subscription past due and leaves an unpaid invoice, unless there is one. */
  lemma FailedNotice(t: Alphabet, b: Books, e: PaystackEvent, s: nat)
    requires e.InvoicePaymentFailed? && Means(b, e, s)
    ensures s in b.subs
    ensures var after := Handle(t, b, e).0;
      && after == b.(subs := b.subs[s := b.subs[s].(status := SubPastDue)], invoices := after.invoices)
      && after.invoices ==
         (if e.reference == "" || e.reference in b.invoices then b.invoices else b.invoices[e.reference :=
           Invoice(b.subs[s].account, s, e.amount, e.currency, false, None, None, None)])
  {
    LookupMeans(b, e);
    MeantIsFound(b, e, s);
    hide SubByProviderId, SubByEmail, Means, MeansNone;
  }

  /** A paid one makes it active again, moves its period where it names one, and leaves a paid invoice. */
  lemma PaidNotice(t: Alphabet, b: Books, e: PaystackEvent, s: nat)
    requires e.InvoiceUpdate? && Means(b, e, s)
    ensures s in b.subs && e.paid
    ensures var after := Handle(t, b, e).0;
      && s in after.subs && after == b.(subs := b.subs[s := after.subs[s]], invoices := after.invoices)
      && after.subs[s] == b.subs[s].(status := SubActive, cancelAtEnd := false,
           periodStart := after.subs[s].periodStart, periodEnd := after.subs[s].periodEnd)
      && after.subs[s].periodStart in {e.periodStart, b.subs[s].periodStart}
      && after.subs[s].periodEnd in {e.periodEnd, b.subs[s].periodEnd}
      && (after.subs[s].periodStart != e.periodStart ==> e.periodStart == None)
      && (after.subs[s].periodEnd != e.periodEnd ==> e.periodEnd == None)
      && after.invoices == b.invoices[e.reference :=
           Invoice(b.subs[s].account, s, e.amount, e.currency, true, e.periodStart, e.periodEnd, Some(b.today))]
  {
    LookupMeans(b, e);
    MeantIsFound(b, e, s);
    hide SubByProviderId, Means, MeansNone;
  }

  // ---- A new subscription ----

  /** The newest checkout that has the subscription or, if none has, the newest one of an account with the
      customer's address that is under way. */
  ghost predicate Ties(b: Books, e: PaystackEvent, s: nat, c: nat)
    requires e.SubscriptionCreate?
  {
    var own := set k | k in b.checkouts && b.checkouts[k].activated == Some(s);
    IsNewest(own, c) || (own == {} && e.customerEmail != "" && IsNewest(Underway(b, e.customerEmail), c))
  }

  function Underway(b: Books, email: string): set<nat> {
    set k | k in b.checkouts && b.checkouts[k].account in b.accounts
      && b.accounts[b.checkouts[k].account].email == email
      && b.checkouts[k].status in {CheckoutPending, Charged, ProviderCreated}
  }

  lemma TiedIsFound(b: Books, e: PaystackEvent, s: nat)
    requires e.SubscriptionCreate?
    ensures var found := CheckoutOfSub(b, s, e.customerEmail);
      if found.Some? then Ties(b, e, s, found.value) else forall c: nat :: !Ties(b, e, s, c)
    ensures forall c, k :: Ties(b, e, s, c) && Ties(b, e, s, k) ==> c == k
  {
    SameNewest((set c | c in b.checkouts && b.checkouts[c].account in b.accounts
                 && b.accounts[b.checkouts[c].account].email == e.customerEmail
                 && b.checkouts[c].status in OPEN_STATUSES + {ProviderCreated}), Underway(b, e.customerEmail));
  }

  function Confirmed(sub: Subscription, e: PaystackEvent): Subscription
    requires e.SubscriptionCreate?
  {
    sub.(providerId := e.providerId, status := SubActive, periodStart := e.start, periodEnd := e.nextPayment,
         cancelAtEnd := false)
  }

  /** The subscription is confirmed, its checkout settled, and the one it supersedes replaced by it. */
  lemma CreateNotice(t: Alphabet, b: Books, e: PaystackEvent, s: nat, c: nat)
    requires e.SubscriptionCreate? && Means(b, e, s) && Ties(b, e, s, c)
    ensures s in b.subs && c in b.checkouts
    ensures var after, former := Handle(t, b, e).0, b.checkouts[c].supersedes;
      && after == b.(subs := after.subs, checkouts := after.checkouts)
      && after.checkouts == b.checkouts[c := b.checkouts[c].(activated := Some(s), status := ProviderCreated)]
      && after.subs.Keys == b.subs.Keys
      && (forall k :: k in b.subs && k != s && former != Some(k) ==> after.subs[k] == b.subs[k])
      && (former != Some(s) ==> after.subs[s] == Confirmed(b.subs[s], e))
      && (former.Some? && former.value in b.subs ==> Ended(b.subs[former.value], after.subs[former.value], s))
  {
    CreatedMeans(b, e);
    MeantIsFound(b, e, s);
    TiedIsFound(b.(subs := b.subs[s := Confirmed(b.subs[s], e)]), e, s);
    assert Ties(b.(subs := b.subs[s := Confirmed(b.subs[s], e)]), e, s, c) by {
      assert Underway(b.(subs := b.subs[s := Confirmed(b.subs[s], e)]), e.customerEmail)
        == Underway(b, e.customerEmail);
    }
    hide CreatedSub, CheckoutOfSub, Means, MeansNone, Ties, Underway;
  }

  /** The former subscription is over: replaced by s now, or by another one before. */
  predicate Ended(before: Subscription, after: Subscription, s: nat) {
    && after.status == SubReplaced && after.account == before.account && after.planId == before.planId
    && (before.status == SubReplaced ==> after == before)
    && (before.status != SubReplaced ==> after.replacedBy == Some(s) && !after.cancelAtEnd)
  }

  /** Without a checkout it is confirmed alone. */
  lemma CreateAloneNotice(t: Alphabet, b: Books, e: PaystackEvent, s: nat)
    requires e.SubscriptionCreate? && Means(b, e, s) && forall c: nat :: !Ties(b, e, s, c)
    ensures s in b.subs && Handle(t, b, e).0 == b.(subs := b.subs[s := Confirmed(b.subs[s], e)])
  {
    var confirmed := b.(subs := b.subs[s := Confirmed(b.subs[s], e)]);
    CreatedMeans(b, e);
    MeantIsFound(b, e, s);
    TiedIsFound(confirmed, e, s);
    assert Underway(confirmed, e.customerEmail) == Underway(b, e.customerEmail);
    forall c: nat ensures !Ties(confirmed, e, s, c) {
      assert !Ties(b, e, s, c);
    }
    hide CreatedSub, CheckoutOfSub, Means, MeansNone, Ties, Underway;
  }

  // ---- In a run ----

  /** Step i handles a notice from the provider that means the subscription. */
  ghost predicate Notices(h: History, i: nat, e: PaystackEvent, s: nat)
    requires |h.states| == |h.calls| + 1
  {
    && i < |h.calls| && h.calls[i].Run? && EventOf(h.states[i], h.calls[i].worker) == Some(e)
    && !e.ChargeSuccess? && Means(h.states[i], e, s)
  }

  /** The invoice a recovery payment leaves. */
  predicate InvoiceOfMonth(b: Books, d: Charge, c: nat, s: nat, end: RealDate, invoice: Invoice)
    requires c in b.checkouts && s in b.subs
  {
    invoice == Invoice(b.checkouts[c].account, s, d.amount, d.currency, true,
                       Some(MonthStart(b, s)), Some(end), Some(b.today))
  }

  /** The invoice a notice leaves: paid or failed, as the provider says, for the amount it says. */
  predicate InvoiceOfNotice(b: Books, e: PaystackEvent, s: nat, invoice: Invoice)
    requires s in b.subs
  {
    match e
    case InvoiceUpdate(paid, _, _, amount, currency, start, end) =>
      paid && invoice == Invoice(b.subs[s].account, s, amount, currency, true, start, end, Some(b.today))
    case InvoicePaymentFailed(_, _, _, amount, currency) =>
      invoice == Invoice(b.subs[s].account, s, amount, currency, false, None, None, None)
    case _ => false
  }

  /** Step i is an exact recovery payment under the reference and leaves that invoice. */
  ghost predicate InvoicedByPayment(t: Alphabet, h: History, i: nat, reference: string, invoice: Invoice)
    requires |h.states| == |h.calls| + 1
  {
    exists d, c, s, end :: Delivers(h, i, d, Some(c)) && BuysMonth(t, h.states[i], d, c, s, end)
      && d.reference == reference && InvoiceOfMonth(h.states[i], d, c, s, end, invoice)
  }

  /** Step i is a notice for the reference and leaves that invoice. */
  ghost predicate InvoicedByNotice(h: History, i: nat, reference: string, invoice: Invoice)
    requires |h.states| == |h.calls| + 1
  {
    exists e, s :: Notices(h, i, e, s) && s in h.states[i].subs && InvoiceOfNotice(h.states[i], e, s, invoice)
      && e.reference == reference
  }

  predicate Shows(b: Books, reference: string, invoice: Invoice) {
    reference in b.invoices && b.invoices[reference] == invoice
  }

  lemma QuietInvoices(t: Alphabet, b: Books, a: Call)
    requires ChargeIn(b, a).None? && !(a.Run? && EventOf(b, a.worker).Some?)
    ensures Next(t, b, a).invoices == b.invoices
  {
    hide Handle, Reconcile, CheckoutByRef, HasOpenCheckout, Lapsed, CurrentSub;
  }

  lemma NoticeInvoices(t: Alphabet, h: History, i: nat, e: PaystackEvent, reference: string, invoice: Invoice)
    requires |h.states| == |h.calls| + 1 && i < |h.calls| && h.calls[i].Run?
    requires EventOf(h.states[i], h.calls[i].worker) == Some(e) && !e.ChargeSuccess?
    requires Shows(Handle(t, h.states[i], e).0, reference, invoice) && !Shows(h.states[i], reference, invoice)
    ensures InvoicedByNotice(h, i, reference, invoice)
  {
    var b := h.states[i];
    if e.InvoicePaymentFailed? || (e.InvoiceUpdate? && e.paid) {
      LookupMeans(b, e);
      hide SubByProviderId, SubByEmail, Handle, Means, MeansNone;
      if s: nat :| Means(b, e, s) {
        if e.InvoiceUpdate? {
          PaidNotice(t, b, e, s);
        } else {
          FailedNotice(t, b, e, s);
        }
        assert Notices(h, i, e, s);
      } else {
        NoneMeant(t, b, e);
      }
    } else {
      hide SubByProviderId, CreatedSub, CheckoutOfSub;
    }
  }

  lemma ChargeInvoices(t: Alphabet, h: History, i: nat, d: Charge, reference: string, invoice: Invoice)
    requires h.Valid(t) && i < |h.calls| && ChargeIn(h.states[i], h.calls[i]) == Some(d)
    requires Shows(h.states[i + 1], reference, invoice) && !Shows(h.states[i], reference, invoice)
    ensures InvoicedByPayment(t, h, i, reference, invoice)
  {
    hide Next, Linked, Reconcile, ChargeIn, PaysExactly, AddOneMonth;
    var b := h.states[i];
    var found := CheckoutOf(b, d);
    ChargeMoves(t, h, i, d);
    if d.hasPlan {
      PlanChargeExactly(t, b, d, found);
      if a: nat, p: string :| Buys(t, b, d, found, a, p) {
        PlanChargeBuys(t, b, d, found, a, p);
      }
    } else if found.None? {
      UnknownChargeIgnored(t, b, d);
    } else {
      MonthChargeExactly(t, b, d, found.value);
      var s: nat, end: RealDate :| BuysMonth(t, b, d, found.value, s, end);
      MonthChargeBuys(t, b, d, found.value, s, end);
      assert InvoiceOfMonth(b, d, found.value, s, end, invoice);
    }
  }

  /** Where an invoice comes from, in every run: an exact recovery payment, or a notice of the provider with
      just that amount and outcome, after which it never changed. */
  lemma {:induction false} InvoiceIsNoticed(t: Alphabet, h: History, n: nat, reference: string, invoice: Invoice)
    returns (i: nat)
    requires h.Valid(t) && n < |h.states| && Shows(h.states[n], reference, invoice)
    ensures i < n && (InvoicedByPayment(t, h, i, reference, invoice) || InvoicedByNotice(h, i, reference, invoice))
    ensures forall k :: i < k <= n ==> Shows(h.states[k], reference, invoice)
  {
    hide Next, InvoicedByPayment, InvoicedByNotice, Handle, ChargeIn;
    i := n - 1;
    if Shows(h.states[i], reference, invoice) {
      i := InvoiceIsNoticed(t, h, i, reference, invoice);
    } else {
      InvoiceStep(t, h, i, reference, invoice);
    }
  }

  lemma InvoiceStep(t: Alphabet, h: History, i: nat, reference: string, invoice: Invoice)
    requires h.Valid(t) && i < |h.calls|
    requires Shows(h.states[i + 1], reference, invoice) && !Shows(h.states[i], reference, invoice)
    ensures InvoicedByPayment(t, h, i, reference, invoice) || InvoicedByNotice(h, i, reference, invoice)
  {
    hide InvoicedByPayment, InvoicedByNotice, Handle, Poll, Initiate, InitiateRecovery;
    var b, a := h.states[i], h.calls[i];
    assert h.Follows(t, i);
    if ChargeIn(b, a).Some? {
      ChargeInvoices(t, h, i, ChargeIn(b, a).value, reference, invoice);
    } else if a.Run? && EventOf(b, a.worker).Some? {
      NoticeInvoices(t, h, i, EventOf(b, a.worker).value, reference, invoice);
    } else {
      QuietInvoices(t, b, a);
    }
  }

  // ---- Replaced subscriptions ----

  predicate IsReplaced(b: Books, s: nat) {
    s in b.subs && b.subs[s].status == SubReplaced
  }

  lemma NoticeKeepsReplaced(t: Alphabet, b: Books, e: PaystackEvent, s: nat)
    requires !e.ChargeSuccess? && IsReplaced(b, s)
    ensures IsReplaced(Handle(t, b, e).0, s)
  {
    hide CheckoutOfSub;
  }

  lemma QuietKeepsReplaced(t: Alphabet, b: Books, a: Call, s: nat)
    requires ChargeIn(b, a).None? && IsReplaced(b, s)
    ensures IsReplaced(Next(t, b, a), s)
  {
    hide Handle, Reconcile, CheckoutByRef, HasOpenCheckout;
    if a.Run? && EventOf(b, a.worker).Some? {
      NoticeKeepsReplaced(t, b, EventOf(b, a.worker).value, s);
    }
  }

  lemma ReplacedStep(t: Alphabet, h: History, i: nat, s: nat)
    requires h.Valid(t) && i < |h.calls| && IsReplaced(h.states[i], s) && !IsReplaced(h.states[i + 1], s)
    ensures (exists account: nat, planId: string :: BuysAt(t, h, i, account, planId, s))
      || exists account: nat :: BuysMonthAt(t, h, i, account, s)
  {
    hide Next, Linked, Reconcile, ChargeIn, PaysExactly, Names, AddOneMonth, SubFor;
    var b, a := h.states[i], h.calls[i];
    assert h.Follows(t, i);
    if ChargeIn(b, a).None? {
      QuietKeepsReplaced(t, b, a, s);
    } else {
      var d := ChargeIn(b, a).value;
      ChargeMoves(t, h, i, d);
      ReplacedCharge(t, h, i, d, CheckoutOf(b, d), s);
    }
  }

  lemma ReplacedCharge(t: Alphabet, h: History, i: nat, d: Charge, found: Option<nat>, s: nat)
    requires h.Valid(t) && i < |h.calls| && Delivers(h, i, d, found) && Linked(h.states[i])
    requires IsReplaced(h.states[i], s) && !IsReplaced(Reconcile(t, h.states[i], d).books, s)
    ensures (exists account: nat, planId: string :: BuysAt(t, h, i, account, planId, s))
      || exists account: nat :: BuysMonthAt(t, h, i, account, s)
  {
    hide Next, Linked, Reconcile, ChargeIn, PaysExactly, AddOneMonth, SubFor;
    var b := h.states[i];
    if d.hasPlan {
      PlanChargeExactly(t, b, d, found);
      var a: nat, p: string :| Buys(t, b, d, found, a, p);
      PlanChargeBuys(t, b, d, found, a, p);
      assert BuysAt(t, h, i, a, p, SubFor(b, found));
    } else if found.None? {
      UnknownChargeIgnored(t, b, d);
    } else {
      MonthChargeExactly(t, b, d, found.value);
      var k: nat, end: RealDate :| BuysMonth(t, b, d, found.value, k, end);
      MonthChargeBuys(t, b, d, found.value, k, end);
      assert BuysMonthAt(t, h, i, b.checkouts[found.value].account, k);
    }
  }

  /** A subscription that was replaced stays so, whatever notices about it arrive, until an exact payment is
      made for it. */
  lemma {:induction false} ReplacedUntilPaid(t: Alphabet, h: History, s: nat, i: nat, j: nat) returns (k: nat)
    requires h.Valid(t) && i < j < |h.states| && IsReplaced(h.states[i], s) && !IsReplaced(h.states[j], s)
    ensures i <= k < j
    ensures (exists account: nat, planId: string :: BuysAt(t, h, k, account, planId, s))
      || exists account: nat :: BuysMonthAt(t, h, k, account, s)
  {
    hide Next, BuysAt, BuysMonthAt, IsReplaced;
    k := j - 1;
    if IsReplaced(h.states[k], s) {
      ReplacedStep(t, h, k, s);
    } else {
      k := ReplacedUntilPaid(t, h, s, i, k);
    }
  }
}
