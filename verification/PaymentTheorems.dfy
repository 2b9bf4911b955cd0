/** A charge delivered again: how often it creates a subscription or extends a period. */
module PaymentTheorems {
  import opened Wrappers
  import opened Text
  import opened Calendar
  import opened Payments

  // ---- What the tables' keys keep true ----

  ghost predicate RefsUnique(b: Books) {
    forall c, e ::
      c in b.checkouts && e in b.checkouts && b.checkouts[c].reference == b.checkouts[e].reference ==> c == e
  }

  /** Keys come from the counter, and a checkout points at existing rows. */
  ghost predicate CheckoutLinked(b: Books, c: nat, checkout: Checkout) {
    && c < b.nextPk && checkout.account in b.accounts
    && (checkout.activated.Some? ==> checkout.activated.value in b.subs)
    && (checkout.recovery.Some? ==> checkout.recovery.value in b.subs)
    && (checkout.supersedes.Some? ==> checkout.supersedes.value in b.subs)
  }

  ghost predicate Linked(b: Books) {
    && RefsUnique(b)
    && (forall c :: c in b.checkouts ==> CheckoutLinked(b, c, b.checkouts[c]))
    && (forall s :: s in b.subs ==> s < b.nextPk && b.subs[s].account in b.accounts)
    && (forall a :: a in b.accounts ==> a < b.nextPk)
  }

  /** Rows are never deleted; a checkout keeps its reference, its account and its links, and once it has
      a subscription it always has one. */
  ghost predicate Grows(b: Books, after: Books) {
    && b.nextPk <= after.nextPk && b.accounts.Keys <= after.accounts.Keys && b.subs.Keys <= after.subs.Keys
    && (forall s :: s in b.subs ==> after.subs[s].account == b.subs[s].account)
    && (forall c :: c in b.checkouts ==> c in after.checkouts && CheckoutKept(b.checkouts[c], after.checkouts[c]))
  }

  ghost predicate CheckoutKept(before: Checkout, after: Checkout) {
    && after == before.(status := after.status, activated := after.activated)
    && (before.activated.Some? ==> after.activated.Some?)
  }

  lemma MarkingGrows(b: Books, c: Option<nat>)
    ensures Grows(b, b.(checkouts := MarkFailed(b.checkouts, c)))
    ensures Linked(b) ==> Linked(b.(checkouts := MarkFailed(b.checkouts, c)))
  {
    var after := b.(checkouts := MarkFailed(b.checkouts, c));
    if Linked(b) {
      forall e | e in after.checkouts ensures CheckoutLinked(after, e, after.checkouts[e]) {
        assert CheckoutLinked(b, e, b.checkouts[e]);
      }
    }
  }

  lemma ActivatingGrows(b: Books, d: Charge, found: Option<nat>, account: nat, planId: string)
    requires Linked(b) && account in b.accounts && (found.Some? ==> found.value in b.checkouts)
    ensures var after := Activate(b, d, found, account, planId); Grows(b, after) && Linked(after)
    ensures found.Some? ==> Activate(b, d, found, account, planId).checkouts[found.value].activated.Some?
  {
    var after := Activate(b, d, found, account, planId);
    forall e | e in after.checkouts ensures CheckoutLinked(after, e, after.checkouts[e]) {
      assert CheckoutLinked(b, e, b.checkouts[e]);
    }
  }

  lemma ExtendingGrows(b: Books, d: Charge, c: nat, s: nat, base: RealDate, end: RealDate)
    requires Linked(b) && c in b.checkouts && s in b.subs
    ensures var after := Extend(b, d, c, s, base, end); Grows(b, after) && Linked(after)
    ensures var after := Extend(b, d, c, s, base, end); after.subs.Keys == b.subs.Keys && after.log == b.log
  {
    var after := Extend(b, d, c, s, base, end);
    forall e | e in after.checkouts ensures CheckoutLinked(after, e, after.checkouts[e]) {
      assert CheckoutLinked(b, e, b.checkouts[e]);
    }
  }

  lemma RecoveringGrows(t: Alphabet, b: Books, d: Charge, c: nat)
    requires Linked(b) && c in b.checkouts
    ensures var r := ReconcileRecovery(t, b, d, c); Grows(b, r.books) && Linked(r.books)
    ensures var r := ReconcileRecovery(t, b, d, c); r.books.subs.Keys == b.subs.Keys && r.books.log == b.log
  {
    hide ChargeFits, AddOneMonth, Linked, Grows, Extend, MarkFailed, RecoveryApplied;
    MarkingGrows(b, Some(c));
    NothingGrows(b);
    var r := ReconcileRecovery(t, b, d, c);
    if r.verdict == Applied {
      var s := b.checkouts[c].recovery.value;
      ExtendingGrows(b, d, c, s, PeriodBase(b, s), AddOneMonth(PeriodBase(b, s)).value);
    }
  }

  /** Only an accepted subscription charge whose checkout has no subscription adds one. */
  lemma ReconcileGrows(t: Alphabet, b: Books, d: Charge)
    requires Linked(b)
    ensures var r := Reconcile(t, b, d); Grows(b, r.books) && Linked(r.books)
    ensures Reconcile(t, b, d).books.log == b.log
    ensures var r := Reconcile(t, b, d); r.books.subs.Keys != b.subs.Keys ==> AddsSub(b, r.books, d)
  {
    hide ChargeFits, Linked, ReconcileRecovery, Activate, MarkFailed, Grows;
    var found := if d.reference != "" then CheckoutByRef(b.checkouts, d.reference) else None;
    MarkingGrows(b, found);
    if found.Some? {
      RecoveringGrows(t, b, d, found.value);
    }
    NothingGrows(b);
    var r := Reconcile(t, b, d);
    if d.hasPlan && r.verdict == Applied {
      var (account, planId) := TargetOf(b, d, found);
      ActivatingGrows(b, d, found, account.value, planId);
      ActivatingAdds(b, d, found, account.value, planId);
    }
  }

  lemma NothingGrows(b: Books)
    ensures Grows(b, b)
  {
  }

  ghost function CheckoutOf(b: Books, d: Charge): Option<nat> {
    if d.reference != "" then CheckoutByRef(b.checkouts, d.reference) else None
  }

  /** The step from b added the next key as a subscription of charge d, for the charge's checkout if it
      has one: that checkout had none before and has this one now. */
  ghost predicate AddsSub(b: Books, after: Books, d: Charge) {
    && d.hasPlan && after.subs.Keys == b.subs.Keys + {b.nextPk}
    && (CheckoutOf(b, d).Some? ==> b.checkouts[CheckoutOf(b, d).value].activated.None?)
    && (CheckoutOf(b, d).Some? ==> Activates(after, CheckoutOf(b, d).value, b.nextPk))
  }

  predicate Activates(after: Books, c: nat, s: nat) {
    c in after.checkouts && after.checkouts[c].activated == Some(s)
  }

  lemma ActivatingAdds(b: Books, d: Charge, found: Option<nat>, account: nat, planId: string)
    requires Linked(b) && account in b.accounts && (found.Some? ==> found.value in b.checkouts)
    ensures var after := Activate(b, d, found, account, planId);
      if found.Some? && b.checkouts[found.value].activated.Some? then after.subs.Keys == b.subs.Keys
      else after.subs.Keys == b.subs.Keys + {b.nextPk} && (found.Some? ==> Activates(after, found.value, b.nextPk))
    ensures Activate(b, d, found, account, planId).log == b.log
  {
    if found.Some? {
      assert CheckoutLinked(b, found.value, b.checkouts[found.value]);
    }
  }

  // ---- Every call ----

  /** The charge a call delivers, if it delivers one: from a webhook event a worker has read, or from a poll
      of a checkout that is neither cancelled nor failed. */
  ghost function ChargeIn(b: Books, a: Call): Option<Charge> {
    match a
    case Run(worker) =>
      var e := EventOf(b, worker);
      if e.Some? && e.value.ChargeSuccess? then Some(e.value.charge) else None
    case PollStatus(account, reference, Success(d)) =>
      var found := CheckoutByRef(b.checkouts, reference);
      if found.Some? && b.checkouts[found.value].account == account
         && b.checkouts[found.value].status !in {CheckoutCancelled, CheckoutFailed} then Some(d) else None
    case _ => None
  }

  ghost predicate StepGrows(b: Books, after: Books) {
    Grows(b, after) && Linked(after) && after.subs.Keys == b.subs.Keys
  }

  /** Changing rows other than a checkout's links keeps the books linked. */
  lemma SameLinks(b: Books, after: Books)
    requires Linked(b)
    requires b.nextPk <= after.nextPk && after.accounts.Keys == b.accounts.Keys
    requires after.subs.Keys == b.subs.Keys && forall s :: s in b.subs ==> after.subs[s].account == b.subs[s].account
    requires after.checkouts.Keys == b.checkouts.Keys
    requires forall c :: c in b.checkouts ==> CheckoutKept(b.checkouts[c], after.checkouts[c])
    requires forall c :: c in b.checkouts && after.checkouts[c].activated.Some? ==>
      after.checkouts[c].activated.value in b.subs
    ensures StepGrows(b, after)
  {
    forall c | c in after.checkouts ensures CheckoutLinked(after, c, after.checkouts[c]) {
      assert CheckoutLinked(b, c, b.checkouts[c]) && CheckoutKept(b.checkouts[c], after.checkouts[c]);
    }
    assert RefsUnique(after) by {
      assert forall c :: c in b.checkouts ==> CheckoutKept(b.checkouts[c], after.checkouts[c]);
    }
  }

  lemma LinksInSubs(b: Books)
    requires Linked(b)
    ensures forall c :: c in b.checkouts && b.checkouts[c].activated.Some? ==> b.checkouts[c].activated.value in b.subs
  {
    forall c | c in b.checkouts && b.checkouts[c].activated.Some? ensures b.checkouts[c].activated.value in b.subs {
      assert CheckoutLinked(b, c, b.checkouts[c]);
    }
  }

  lemma CreateEventStep(b: Books, e: PaystackEvent)
    requires Linked(b) && e.SubscriptionCreate?
    ensures StepGrows(b, OnSubscriptionCreate(b, e))
  {
    hide Linked, StepGrows, CreatedSub, CheckoutOfSub;
    LinksInSubs(b);
    SameLinks(b, OnSubscriptionCreate(b, e));
  }

  lemma FailedEventStep(b: Books, e: PaystackEvent)
    requires Linked(b) && e.InvoicePaymentFailed?
    ensures StepGrows(b, OnPaymentFailed(b, e))
  {
    hide Linked, StepGrows, SubByProviderId, SubByEmail;
    LinksInSubs(b);
    SameLinks(b, OnPaymentFailed(b, e));
  }

  lemma UpdateEventStep(b: Books, e: PaystackEvent)
    requires Linked(b) && e.InvoiceUpdate?
    ensures StepGrows(b, OnInvoiceUpdate(b, e))
  {
    hide Linked, StepGrows, SubByProviderId;
    LinksInSubs(b);
    SameLinks(b, OnInvoiceUpdate(b, e));
  }

  lemma DisableEventStep(b: Books, providerId: string)
    requires Linked(b)
    ensures StepGrows(b, OnSubscriptionDisable(b, providerId))
  {
    hide Linked, StepGrows, SubByProviderId;
    LinksInSubs(b);
    SameLinks(b, OnSubscriptionDisable(b, providerId));
  }

  lemma EventStep(t: Alphabet, b: Books, e: PaystackEvent)
    requires Linked(b) && !e.ChargeSuccess?
    ensures StepGrows(b, Handle(t, b, e).0)
  {
    hide Linked, StepGrows, OnSubscriptionCreate, OnPaymentFailed, OnInvoiceUpdate, OnSubscriptionDisable, Reconcile;
    if e.SubscriptionCreate? {
      CreateEventStep(b, e);
    } else if e.OtherEvent? {
      LinksInSubs(b);
      SameLinks(b, b);
    } else if e.InvoicePaymentFailed? {
      FailedEventStep(b, e);
    } else if e.InvoiceUpdate? {
      UpdateEventStep(b, e);
    } else {
      DisableEventStep(b, e.providerId);
    }
  }

  lemma NewCheckout(b: Books, checkout: Checkout)
    requires Linked(b) && CheckoutLinked(b.(nextPk := b.nextPk + 1), b.nextPk, checkout)
    requires checkout.activated.None? && CheckoutByRef(b.checkouts, checkout.reference).None?
    ensures StepGrows(b, b.(checkouts := b.checkouts[b.nextPk := checkout], nextPk := b.nextPk + 1))
  {
    var after := b.(checkouts := b.checkouts[b.nextPk := checkout], nextPk := b.nextPk + 1);
    forall c | c in b.checkouts ensures c < b.nextPk {
      assert CheckoutLinked(b, c, b.checkouts[c]);
    }
    forall c | c in after.checkouts ensures CheckoutLinked(after, c, after.checkouts[c]) {
      assert c in b.checkouts ==> CheckoutLinked(b, c, b.checkouts[c]);
    }
  }

  lemma StartSteps(b: Books, account: nat, planId: string, reference: string, ready: bool)
    requires Linked(b)
    ensures StepGrows(b, Or(Initiate(b, account, planId, reference, ready), b))
    ensures StepGrows(b, Or(InitiateRecovery(b, account, planId, reference, ready), b))
  {
    hide Linked, StepGrows;
    LinksInSubs(b);
    SameLinks(b, b);
    var current := CurrentSub(b, account);
    if Initiate(b, account, planId, reference, ready).Some? {
      NewCheckout(b, Checkout(account, reference, planId, ForSubscription, CheckoutPending, current, None, None));
    }
    if InitiateRecovery(b, account, planId, reference, ready).Some? {
      NewCheckout(b, Checkout(account, reference, planId, ForRecovery, CheckoutPending, None, None, current));
    }
  }

  lemma RegisterStep(b: Books, email: string)
    requires Linked(b)
    ensures StepGrows(b, b.(accounts := b.accounts[b.nextPk := Account(BASIC_PLAN, email)], nextPk := b.nextPk + 1))
  {
    var after := b.(accounts := b.accounts[b.nextPk := Account(BASIC_PLAN, email)], nextPk := b.nextPk + 1);
    forall c | c in after.checkouts ensures CheckoutLinked(after, c, after.checkouts[c]) {
      assert CheckoutLinked(b, c, b.checkouts[c]);
    }
  }

  /** Rows written by a call that delivers no charge. */
  lemma QuietStep(t: Alphabet, b: Books, a: Call)
    requires Linked(b) && ChargeIn(b, a).None?
    ensures StepGrows(b, Next(t, b, a))
  {
    hide Linked, StepGrows, RunEvent, FetchEvent, MarkEvent, EventOf, Initiate, InitiateRecovery, Poll;
    hide Lapsed, CancelSubscription;
    LinksInSubs(b);
    if a.Fetch? || a.Mark? || a.Receive? || a.Lose? {
      LogCall(t, b, a);
      return;
    }
    match a
    case Run(worker) => QuietRun(t, b, worker);
    case StartSubscription(account, planId, reference, ready) => StartSteps(b, account, planId, reference, ready);
    case StartRecovery(account, planId, reference, ready) => StartSteps(b, account, planId, reference, ready);
    case Register(email) => RegisterStep(b, email);
    case PollStatus(account, reference, remote) => PollStep(t, b, account, reference, remote);
    case StopSubscription(account, confirmed) => StopStep(b, account, confirmed);
    case _ => SameLinks(b, Next(t, b, a));
  }

  lemma StopStep(b: Books, account: nat, confirmed: bool)
    requires Linked(b)
    ensures StepGrows(b, Or(CancelSubscription(b, account, confirmed), b))
  {
    hide Linked, StepGrows, ActiveSubs;
    LinksInSubs(b);
    SameLinks(b, Or(CancelSubscription(b, account, confirmed), b));
  }

  lemma LogCall(t: Alphabet, b: Books, a: Call)
    requires Linked(b) && (a.Fetch? || a.Mark? || a.Receive? || a.Lose?)
    ensures StepGrows(b, Next(t, b, a))
  {
    hide Linked, StepGrows, FetchEvent, MarkEvent;
    LogOnly(b, Next(t, b, a).log);
  }

  lemma LogOnly(b: Books, log: Log)
    requires Linked(b)
    ensures StepGrows(b, b.(log := log))
  {
    hide Linked, StepGrows;
    LinksInSubs(b);
    SameLinks(b, b.(log := log));
  }

  lemma QuietRun(t: Alphabet, b: Books, worker: nat)
    requires Linked(b) && ChargeIn(b, Run(worker)).None?
    ensures StepGrows(b, RunEvent(t, b, worker))
  {
    hide Linked, StepGrows, Handle;
    LogOnly(b, b.log);
    if EventOf(b, worker).Some? {
      EventStep(t, b, EventOf(b, worker).value);
      LogAside(b, Handle(t, b, EventOf(b, worker).value).0, RunEvent(t, b, worker));
    }
  }

  lemma LogAside(b: Books, mid: Books, after: Books)
    requires StepGrows(b, mid) && after == mid.(log := after.log)
    ensures StepGrows(b, after)
  {
    forall c | c in after.checkouts ensures CheckoutLinked(after, c, after.checkouts[c]) {
      assert CheckoutLinked(mid, c, mid.checkouts[c]);
    }
  }

  lemma PollStep(t: Alphabet, b: Books, account: nat, reference: string, remote: Remote)
    requires Linked(b) && ChargeIn(b, PollStatus(account, reference, remote)).None?
    ensures StepGrows(b, Or(Poll(t, b, account, reference, remote), b))
  {
    hide Linked, StepGrows, Reconcile;
    LinksInSubs(b);
    SameLinks(b, Or(Poll(t, b, account, reference, remote), b));
  }

  /** What a call with a charge leaves is what reconciling it leaves, but for the event log; a raise in a
      poll undoes it. */
  lemma ChargeCall(t: Alphabet, b: Books, a: Call, d: Charge)
    requires ChargeIn(b, a) == Some(d)
    ensures Next(t, b, a) == b
      || Next(t, b, a) == Reconcile(t, b, d).books.(log := Next(t, b, a).log)
    ensures Reconcile(t, b, d).verdict != Raised ==>
      Next(t, b, a) == Reconcile(t, b, d).books.(log := Next(t, b, a).log)
  {
    hide Reconcile;
  }

  lemma ChargeStep(t: Alphabet, b: Books, a: Call, d: Charge)
    requires Linked(b) && ChargeIn(b, a) == Some(d)
    ensures var after := Next(t, b, a); Grows(b, after) && Linked(after)
    ensures Next(t, b, a).subs.Keys != b.subs.Keys ==> AddsSub(b, Next(t, b, a), d)
  {
    ReconcileGrows(t, b, d);
    ChargeCall(t, b, a, d);
    NothingGrows(b);
    hide Next, Reconcile, ChargeIn;
    var mid, after := Reconcile(t, b, d).books, Next(t, b, a);
    if after != b {
      SameButEvents(b, mid, after, d);
    }
  }

  lemma SameButEvents(b: Books, mid: Books, after: Books, d: Charge)
    requires after == mid.(log := after.log)
    ensures Grows(b, mid) ==> Grows(b, after)
    ensures Linked(mid) ==> Linked(after)
    ensures AddsSub(b, mid, d) ==> AddsSub(b, after, d)
  {
    if Linked(mid) {
      forall c | c in after.checkouts ensures CheckoutLinked(after, c, after.checkouts[c]) {
        assert CheckoutLinked(mid, c, mid.checkouts[c]);
      }
    }
  }

  /** Only a charge adds a subscription, and then one. */
  lemma Step(t: Alphabet, b: Books, a: Call)
    requires Linked(b)
    ensures var after := Next(t, b, a); Grows(b, after) && Linked(after)
    ensures Next(t, b, a).subs.Keys != b.subs.Keys ==>
      ChargeIn(b, a).Some? && AddsSub(b, Next(t, b, a), ChargeIn(b, a).value)
  {
    hide Next, AddsSub, Grows, Linked, ChargeIn;
    if ChargeIn(b, a).Some? {
      ChargeStep(t, b, a, ChargeIn(b, a).value);
    } else {
      QuietStep(t, b, a);
    }
  }

  lemma {:induction false} AlwaysLinked(t: Alphabet, h: History, n: nat)
    requires h.Valid(t) && n < |h.states|
    ensures Linked(h.states[n])
  {
    hide Next;
    if n > 0 {
      AlwaysLinked(t, h, n - 1);
      hide Linked;
      assert h.Follows(t, n - 1);
      Step(t, h.states[n - 1], h.calls[n - 1]);
    }
  }

  // ---- At most one subscription per checkout ----

  /** Step i created a subscription from a charge on checkout c. */
  ghost predicate CreatesFor(h: History, c: nat, i: nat)
    requires |h.states| == |h.calls| + 1 && i < |h.calls|
  {
    && h.states[i + 1].subs.Keys != h.states[i].subs.Keys
    && ChargeIn(h.states[i], h.calls[i]).Some?
    && CheckoutOf(h.states[i], ChargeIn(h.states[i], h.calls[i]).value) == Some(c)
  }

  ghost function Creations(h: History, c: nat, n: nat): nat
    requires |h.states| == |h.calls| + 1 && n <= |h.calls|
  {
    if n == 0 then 0 else Creations(h, c, n - 1) + if CreatesFor(h, c, n - 1) then 1 else 0
  }

  ghost predicate HasSub(b: Books, c: nat) {
    c in b.checkouts && b.checkouts[c].activated.Some?
  }

  lemma StepAt(t: Alphabet, h: History, i: nat, c: nat)
    requires h.Valid(t) && i < |h.calls|
    ensures HasSub(h.states[i], c) ==> HasSub(h.states[i + 1], c)
    ensures CreatesFor(h, c, i) ==> !HasSub(h.states[i], c) && HasSub(h.states[i + 1], c)
  {
    hide Next, Linked, ChargeIn, CheckoutByRef;
    AlwaysLinked(t, h, i);
    assert h.Follows(t, i);
    Step(t, h.states[i], h.calls[i]);
    assert HasSub(h.states[i], c) ==> CheckoutKept(h.states[i].checkouts[c], h.states[i + 1].checkouts[c]);
  }

  /** However often and by whichever way its charge is delivered, between whatever other calls, a
      checkout gets at most one subscription. */
  lemma {:induction false} AtMostOneSubscription(t: Alphabet, h: History, c: nat, n: nat)
    requires h.Valid(t) && n < |h.states|
    ensures Creations(h, c, n) <= 1
    ensures Creations(h, c, n) == 1 ==> HasSub(h.states[n], c)
  {
    hide Next, ChargeIn, CreatesFor, HasSub;
    if n > 0 {
      AtMostOneSubscription(t, h, c, n - 1);
      StepAt(t, h, n - 1, c);
    }
  }

  // ---- The same charge twice ----

  /** A charge that fits a plan and an account but no checkout. */
  ghost predicate Stray(t: Alphabet, b: Books, d: Charge) {
    && CheckoutOf(b, d).None? && d.hasPlan
    && d.account.Some? && d.account.value in b.accounts
    && d.planId in PLAN_PRICES && ChargeFits(t, None, ExpectedAmount(d.planId).value, d)
  }

  lemma SameCheckout(b: Books, after: Books, d: Charge)
    requires RefsUnique(b) && after.checkouts.Keys == b.checkouts.Keys
    requires forall c :: c in b.checkouts ==> after.checkouts[c].reference == b.checkouts[c].reference
    ensures CheckoutOf(after, d) == CheckoutOf(b, d)
  {
  }

  lemma ReconcileKeepsCheckouts(t: Alphabet, b: Books, d: Charge)
    requires Linked(b)
    ensures CheckoutOf(Reconcile(t, b, d).books, d) == CheckoutOf(b, d)
  {
    hide ChargeFits, AddOneMonth, Linked, RecoveryApplied, CheckoutByRef;
    assert RefsUnique(b) by { LinkedRefs(b); }
    SameCheckout(b, Reconcile(t, b, d).books, d);
  }

  lemma LinkedRefs(b: Books)
    requires Linked(b)
    ensures RefsUnique(b)
  {
  }

  lemma RecoveryTwice(t: Alphabet, b: Books, d: Charge, c: nat)
    requires Linked(b) && c in b.checkouts
    ensures var b1 := ReconcileRecovery(t, b, d, c).books;
      c in b1.checkouts && ReconcileRecovery(t, b1, d, c).books == b1
  {
    hide ChargeFits, AddOneMonth;
    assert CheckoutLinked(b, c, b.checkouts[c]);
  }

  lemma StrayVerdict(t: Alphabet, b: Books, d: Charge)
    ensures CheckoutOf(b, d).None? ==> (Reconcile(t, b, d).verdict == Applied <==> Stray(t, b, d))
    ensures Stray(t, b, d) ==> b.nextPk < Reconcile(t, b, d).books.nextPk
    ensures CheckoutOf(b, d).None? && !Stray(t, b, d) ==> Reconcile(t, b, d).books == b
  {
    hide ChargeFits;
  }

  lemma PlanTwice(t: Alphabet, b: Books, d: Charge)
    requires Linked(b) && d.hasPlan && CheckoutOf(b, d).Some?
    requires CheckoutOf(Reconcile(t, b, d).books, d) == CheckoutOf(b, d)
    ensures var b1 := Reconcile(t, b, d).books; Reconcile(t, b1, d).books == b1
  {
    hide ChargeFits, CheckoutByRef;
    var c := CheckoutOf(b, d).value;
    assert CheckoutLinked(b, c, b.checkouts[c]);
  }

  lemma StrayStays(t: Alphabet, b: Books, d: Charge)
    requires Stray(t, b, d) && CheckoutOf(Reconcile(t, b, d).books, d) == CheckoutOf(b, d)
    ensures Stray(t, Reconcile(t, b, d).books, d)
  {
    hide ChargeFits;
  }

  /** Delivering a charge twice in a row leaves the books as one delivery does, exactly unless it is a
      stray charge: those make a new subscription every time. */
  lemma TwiceIsOnce(t: Alphabet, b: Books, d: Charge)
    requires Linked(b)
    ensures var b1 := Reconcile(t, b, d).books;
      Reconcile(t, b1, d).books == b1 <==> !Stray(t, b, d)
  {
    var b1 := Reconcile(t, b, d).books;
    ReconcileKeepsCheckouts(t, b, d);
    StrayVerdict(t, b, d);
    StrayVerdict(t, b1, d);
    if CheckoutOf(b, d).Some? {
      if d.hasPlan {
        PlanTwice(t, b, d);
      } else {
        RecoveryTwice(t, b, d, CheckoutOf(b, d).value);
      }
    } else if Stray(t, b, d) {
      StrayStays(t, b, d);
    }
  }

  lemma ExtendIgnoresLog(b: Books, d: Charge, c: nat, s: nat, base: RealDate, end: RealDate, log: Log)
    requires c in b.checkouts && s in b.subs
    ensures Extend(b.(log := log), d, c, s, base, end) == Extend(b, d, c, s, base, end).(log := log)
    ensures RecoveryApplied(b.(log := log), c, s) == RecoveryApplied(b, c, s)
    ensures PeriodBase(b.(log := log), s) == PeriodBase(b, s)
  {
  }

  lemma RecoveryIgnoresLog(t: Alphabet, b: Books, d: Charge, c: nat, log: Log)
    requires c in b.checkouts
    ensures var r, l := ReconcileRecovery(t, b, d, c), ReconcileRecovery(t, b.(log := log), d, c);
      l.books == r.books.(log := log) && l.verdict == r.verdict
  {
    hide ChargeFits, AddOneMonth, MarkFailed, Extend, RecoveryApplied, PeriodBase;
    var s := b.checkouts[c].recovery;
    if s.Some? && s.value in b.subs {
      var end := AddOneMonth(PeriodBase(b, s.value));
      ExtendIgnoresLog(b, d, c, s.value, PeriodBase(b, s.value), if end.Some? then end.value else b.today, log);
    }
  }

  lemma ActivateIgnoresLog(b: Books, d: Charge, found: Option<nat>, account: nat, planId: string, log: Log)
    requires account in b.accounts && (found.Some? ==> found.value in b.checkouts)
    ensures Activate(b.(log := log), d, found, account, planId) ==
      Activate(b, d, found, account, planId).(log := log)
  {
  }

  /** The event log plays no part in reconciling. */
  lemma LogDoesNotMatter(t: Alphabet, b: Books, d: Charge, log: Log)
    ensures var r, l := Reconcile(t, b, d), Reconcile(t, b.(log := log), d);
      l.books == r.books.(log := log) && l.verdict == r.verdict
  {
    hide ChargeFits, CheckoutByRef, ReconcileRecovery, Activate, MarkFailed, ExpectedAmount;
    var found := CheckoutOf(b, d);
    if found.Some? && !d.hasPlan {
      RecoveryIgnoresLog(t, b, d, found.value, log);
    } else if d.hasPlan {
      var (account, planId) := TargetOf(b, d, found);
      if account.Some? && account.value in b.accounts {
        ActivateIgnoresLog(b, d, found, account.value, planId, log);
      }
    }
  }

  /** A charge the webhook has processed changes nothing when a poll delivers it next, exactly unless it
      is a stray one. */
  lemma WebhookThenPoll(t: Alphabet, b: Books, worker: nat, account: nat, reference: string, d: Charge)
    requires Linked(b) && ChargeIn(b, Run(worker)) == Some(d)
    requires var b1 := Next(t, b, Run(worker)); ChargeIn(b1, PollStatus(account, reference, Success(d))) == Some(d)
    ensures var b1 := Next(t, b, Run(worker));
      Next(t, b1, PollStatus(account, reference, Success(d))) == b1 <==> !Stray(t, b, d)
  {
    hide Linked, Reconcile, Stray;
    var b1 := Next(t, b, Run(worker));
    var r := Reconcile(t, b, d);
    assert b1 == r.books.(log := b1.log);
    TwiceIsOnce(t, b, d);
    LogDoesNotMatter(t, r.books, d, b1.log);
    ReconcileGrows(t, b, d);
    ReconcileGrows(t, r.books, d);
    EventsAside(r.books, Reconcile(t, r.books, d).books, b1.log);
    RaisedChangesNothing(t, b1, d);
    hide CheckoutByRef;
  }

  lemma EventsAside(x: Books, y: Books, log: Log)
    requires x.log == y.log
    ensures x == y <==> x.(log := log) == y.(log := log)
  {
  }

  lemma RaisedChangesNothing(t: Alphabet, b: Books, d: Charge)
    ensures Reconcile(t, b, d).verdict == Raised ==> Reconcile(t, b, d).books == b
  {
    hide ChargeFits, AddOneMonth;
  }
}
