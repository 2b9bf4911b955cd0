/** What a charge has to be before it buys anything, and just what it buys then. */
module ChargeTheorems {
  import opened Wrappers
  import opened Text
  import opened Calendar
  import opened Payments
  import opened PaymentTheorems
  import opened RecoveryTheorems

  // ---- A charge by its fields ----

  /** What a month of the plan costs, in pesewas. */
  predicate IsPrice(planId: string, amount: int) {
    || (planId == "personal_basic" && amount == 4900)
    || (planId == "personal_plus" && amount == 7900)
    || (planId == "personal_protect" && amount == 9900)
    || (planId == "enterprise_standard" && amount == 40000)
    || (planId == "enterprise_plus" && amount == 120000)
  }

  /** The checkout with the charge's reference, if there is one. */
  ghost predicate Names(b: Books, d: Charge, found: Option<nat>) {
    if found.Some?
    then d.reference != "" && found.value in b.checkouts && b.checkouts[found.value].reference == d.reference
    else d.reference == "" || forall c :: c in b.checkouts ==> b.checkouts[c].reference != d.reference
  }

  lemma NamesItsCheckout(b: Books, d: Charge, found: Option<nat>)
    requires RefsUnique(b)
    ensures Names(b, d, found) <==> CheckoutOf(b, d) == found
  {
  }

  /** The charge pays the plan's price to the pesewa, in cedis, under its checkout's own reference. */
  ghost predicate PaysExactly(t: Alphabet, b: Books, d: Charge, found: Option<nat>, planId: string)
    requires found.Some? ==> found.value in b.checkouts
  {
    && IsPrice(planId, d.amount)
    && Strip(t, Upper(t, d.currency)) in {"", "GHS"}
    && (found.Some? ==> Strip(t, d.reference) in {"", b.checkouts[found.value].reference})
  }

  lemma ExactIsFitting(t: Alphabet, b: Books, d: Charge, found: Option<nat>, planId: string)
    requires found.Some? ==> found.value in b.checkouts
    ensures var reference := if found.Some? then Some(b.checkouts[found.value].reference) else None;
      PaysExactly(t, b, d, found, planId) <==>
        ExpectedAmount(planId).Some? && ChargeFits(t, reference, ExpectedAmount(planId).value, d)
  {
    hide Strip, Upper;
  }

  // ---- Subscription charges ----

  /** The account and plan the charge is for: those of its checkout or, without one, of its metadata. */
  ghost predicate IsFor(b: Books, d: Charge, found: Option<nat>, account: nat, planId: string)
    requires found.Some? ==> found.value in b.checkouts
  {
    if found.Some? then b.checkouts[found.value].account == account && b.checkouts[found.value].planId == planId
    else d.account == Some(account) && d.planId == planId
  }

  /** The checkout has its subscription, and its account is on the plan. */
  predicate InEffect(b: Books, c: nat, account: nat, planId: string)
    requires c in b.checkouts && account in b.accounts
  {
    && b.checkouts[c].status in {Charged, ProviderCreated} && b.checkouts[c].activated.Some?
    && b.accounts[account].plan == planId
  }

  /** The charge buys the account the plan. */
  ghost predicate Buys(t: Alphabet, b: Books, d: Charge, found: Option<nat>, account: nat, planId: string)
    requires found.Some? ==> found.value in b.checkouts
  {
    && d.hasPlan && IsFor(b, d, found, account, planId) && account in b.accounts
    && PaysExactly(t, b, d, found, planId) && (found.Some? ==> !InEffect(b, found.value, account, planId))
  }

  /** Nothing that is paid for changed. */
  predicate SameGoods(b: Books, after: Books) {
    after.subs == b.subs && after.accounts == b.accounts && after.invoices == b.invoices && after.nextPk == b.nextPk
  }

  lemma RefusingKeepsGoods(b: Books, found: Option<nat>)
    ensures SameGoods(b, b.(checkouts := MarkFailed(b.checkouts, found)))
  {
  }

  /** A subscription charge is applied exactly if it buys some account some plan; else it changes nothing
      that is paid for. */
  lemma PlanChargeExactly(t: Alphabet, b: Books, d: Charge, found: Option<nat>)
    requires Linked(b) && d.hasPlan && Names(b, d, found)
    ensures var r := Reconcile(t, b, d);
      && (r.verdict == Applied <==> exists account: nat, planId: string :: Buys(t, b, d, found, account, planId))
      && (r.verdict != Applied ==> SameGoods(b, r.books))
  {
    LinkedRefs(b);
    NamesItsCheckout(b, d, found);
    RefusingKeepsGoods(b, found);
    var (account, planId) := TargetOf(b, d, found);
    ExactIsFitting(t, b, d, found, planId);
    hide ChargeFits, CheckoutByRef, Linked, RefsUnique, PaysExactly, MarkFailed, SameGoods, Activate;
    var r := Reconcile(t, b, d);
    if r.verdict == Applied {
      assert Buys(t, b, d, found, account.value, planId);
    }
    if a: nat, p: string :| Buys(t, b, d, found, a, p) {
      assert account == Some(a) && planId == p;
      PaidPlanIsNamed(t, b, d, found, p);
    }
  }

  lemma PaidPlanIsNamed(t: Alphabet, b: Books, d: Charge, found: Option<nat>, planId: string)
    requires (found.Some? ==> found.value in b.checkouts) && PaysExactly(t, b, d, found, planId)
    ensures planId != ""
  {
    hide Strip, Upper;
  }

  /** The subscription a charge pays for: the one its checkout has, or a new one. */
  ghost function SubFor(b: Books, found: Option<nat>): nat
    requires found.Some? ==> found.value in b.checkouts
  {
    if found.Some? && b.checkouts[found.value].activated.Some? then b.checkouts[found.value].activated.value
    else b.nextPk
  }

  /** The subscription as paid for: on the plan, active, or waiting where it is to replace another one. */
  ghost predicate PaidSub(b: Books, sub: Subscription, d: Charge, found: Option<nat>, planId: string)
    requires found.Some? ==> found.value in b.checkouts
  {
    && sub.planId == planId && sub.customerCode == d.customerCode && !sub.cancelAtEnd
    && sub.status == (if found.Some? && b.checkouts[found.value].supersedes.Some? then SubPending else SubActive)
    && (d.customerEmail != "" ==> sub.email == d.customerEmail)
  }

  /** A new subscription starts without a period, under the provider's plan code. */
  predicate FreshSub(b: Books, sub: Subscription, d: Charge, account: nat)
    requires account in b.accounts
  {
    && sub.account == account && sub.planCode == d.planCode && sub.providerId == ""
    && sub.periodStart == None && sub.periodEnd == None && sub.replacedBy == None
    && (d.customerEmail == "" ==> sub.email == b.accounts[account].email)
  }

  /** A subscription paid for again keeps what the charge does not name. */
  predicate KeptSub(before: Subscription, sub: Subscription, d: Charge) {
    && sub.account == before.account && sub.providerId == before.providerId
    && sub.periodStart == before.periodStart && sub.periodEnd == before.periodEnd
    && sub.replacedBy == before.replacedBy
    && sub.planCode == (if d.planCode != "" then d.planCode else before.planCode)
    && (d.customerEmail == "" ==> sub.email == before.email)
  }

  /** What it buys: one subscription on the plan and the plan for the account, no one else's touched. */
  lemma PlanChargeBuys(t: Alphabet, b: Books, d: Charge, found: Option<nat>, account: nat, planId: string)
    requires Linked(b) && Names(b, d, found) && Buys(t, b, d, found, account, planId)
    ensures var after, s := Reconcile(t, b, d).books, SubFor(b, found);
      && s in after.subs && after.subs == b.subs[s := after.subs[s]]
      && PaidSub(b, after.subs[s], d, found, planId)
      && (s !in b.subs ==> FreshSub(b, after.subs[s], d, account))
      && (s in b.subs ==> KeptSub(b.subs[s], after.subs[s], d))
      && after.accounts == b.accounts[account := Account(planId, b.accounts[account].email)]
      && after.nextPk == (if s in b.subs then b.nextPk else b.nextPk + 1)
      && after.invoices == b.invoices && after.today == b.today && after.log == b.log
    ensures var after, s := Reconcile(t, b, d).books, SubFor(b, found);
      if found.None? then after.checkouts == b.checkouts else
      after.checkouts == b.checkouts[found.value :=
        b.checkouts[found.value].(status := Charged, activated := Some(s))]
  {
    LinkedRefs(b);
    NamesItsCheckout(b, d, found);
    ExactIsFitting(t, b, d, found, planId);
    PaidPlanIsNamed(t, b, d, found, planId);
    SubForIsKnown(b, found);
    hide ChargeFits, CheckoutByRef, Linked, RefsUnique, PaysExactly, MarkFailed;
  }

  lemma SubForIsKnown(b: Books, found: Option<nat>)
    requires Linked(b) && (found.Some? ==> found.value in b.checkouts)
    ensures SubFor(b, found) in b.subs <==> found.Some? && b.checkouts[found.value].activated.Some?
  {
    if found.Some? {
      assert CheckoutLinked(b, found.value, b.checkouts[found.value]);
    }
  }

  // ---- Recovery charges ----

  /** The recovery checkout was paid, and its subscription is active and its account on the plan since. */
  predicate StillInForce(b: Books, c: nat, s: nat)
    requires c in b.checkouts && s in b.subs
  {
    && b.checkouts[c].status == ProviderCreated && b.checkouts[c].activated == Some(s) && b.subs[s].status == SubActive
    && b.checkouts[c].account in b.accounts && b.accounts[b.checkouts[c].account].plan == b.subs[s].planId
  }

  /** The day the paid month starts: the end of the period or, without one, today. */
  function MonthStart(b: Books, s: nat): RealDate
    requires s in b.subs
  {
    match b.subs[s].periodEnd
    case Some(end) => end
    case None => b.today
  }

  /** The charge buys subscription s the month up to `end`, through recovery checkout c. */
  ghost predicate BuysMonth(t: Alphabet, b: Books, d: Charge, c: nat, s: nat, end: RealDate)
    requires c in b.checkouts
  {
    && !d.hasPlan && b.checkouts[c].kind == ForRecovery && b.checkouts[c].recovery == Some(s) && s in b.subs
    && PaysExactly(t, b, d, Some(c), b.checkouts[c].planId) && !StillInForce(b, c, s)
    && AddOneMonth(MonthStart(b, s)) == Some(end)
  }

  /** A charge without a plan is applied exactly if it buys some subscription a month; else it changes nothing
      that is paid for. */
  lemma MonthChargeExactly(t: Alphabet, b: Books, d: Charge, c: nat)
    requires Linked(b) && !d.hasPlan && Names(b, d, Some(c))
    ensures var r := Reconcile(t, b, d);
      && (r.verdict == Applied <==> exists s: nat, end: RealDate :: BuysMonth(t, b, d, c, s, end))
      && (r.verdict != Applied ==> SameGoods(b, r.books))
  {
    LinkedRefs(b);
    NamesItsCheckout(b, d, Some(c));
    RefusingKeepsGoods(b, Some(c));
    ExactIsFitting(t, b, d, Some(c), b.checkouts[c].planId);
    hide ChargeFits, CheckoutByRef, Linked, RefsUnique, PaysExactly, MarkFailed, SameGoods, AddOneMonth;
    var r := Reconcile(t, b, d);
    if r.verdict == Applied {
      var s := b.checkouts[c].recovery.value;
      assert BuysMonth(t, b, d, c, s, AddOneMonth(MonthStart(b, s)).value);
    }
  }

  /** What it buys: the next month for the subscription, its account put back on its plan, a paid invoice. */
  lemma MonthChargeBuys(t: Alphabet, b: Books, d: Charge, c: nat, s: nat, end: RealDate)
    requires Linked(b) && Names(b, d, Some(c)) && BuysMonth(t, b, d, c, s, end)
    ensures var after, start, account := Reconcile(t, b, d).books, MonthStart(b, s), b.checkouts[c].account;
      && after.subs == b.subs[s := b.subs[s].(
           periodStart := Some(start), periodEnd := Some(end), status := SubActive, cancelAtEnd := false,
           customerCode := after.subs[s].customerCode, email := after.subs[s].email)]
      && after.subs[s].customerCode in {d.customerCode, b.subs[s].customerCode}
      && after.subs[s].email in {d.customerEmail, b.subs[s].email}
      && (after.subs[s].customerCode != d.customerCode ==> d.customerCode == "")
      && (after.subs[s].email != d.customerEmail ==> d.customerEmail == "")
      && account in b.accounts
      && after.accounts == b.accounts[account := Account(b.subs[s].planId, b.accounts[account].email)]
      && after.checkouts == b.checkouts[c := b.checkouts[c].(status := ProviderCreated, activated := Some(s))]
      && after.invoices == b.invoices[d.reference :=
           Invoice(account, s, d.amount, d.currency, true, Some(start), Some(end), Some(b.today))]
      && after.nextPk == b.nextPk && after.today == b.today && after.log == b.log
  {
    LinkedRefs(b);
    NamesItsCheckout(b, d, Some(c));
    ExactIsFitting(t, b, d, Some(c), b.checkouts[c].planId);
    assert CheckoutLinked(b, c, b.checkouts[c]);
    hide ChargeFits, CheckoutByRef, Linked, RefsUnique, PaysExactly, MarkFailed, AddOneMonth;
  }

  /** The month is paid for at the price of its own plan exactly if the checkout was opened for that plan. */
  lemma MonthPriceExactly(t: Alphabet, b: Books, d: Charge, c: nat, s: nat, end: RealDate)
    requires c in b.checkouts && BuysMonth(t, b, d, c, s, end)
    ensures IsPrice(b.subs[s].planId, d.amount) <==> b.checkouts[c].planId == b.subs[s].planId
  {
    hide Strip, Upper, AddOneMonth;
  }

  /** A charge with neither a plan nor a checkout changes nothing at all. */
  lemma UnknownChargeIgnored(t: Alphabet, b: Books, d: Charge)
    requires Linked(b) && !d.hasPlan && Names(b, d, None)
    ensures Reconcile(t, b, d) == Reconciled(b, Skipped)
  {
    LinkedRefs(b);
    NamesItsCheckout(b, d, None);
    hide Linked, RefsUnique, CheckoutByRef;
  }

  // ---- Charges that are refused ----

  /** The charge is compared with its checkout's plan: one with a plan always, one without on an open recovery. */
  ghost predicate IsCompared(b: Books, d: Charge, c: nat)
    requires c in b.checkouts
  {
    d.hasPlan || (b.checkouts[c].kind == ForRecovery
      && exists s :: s in b.subs && b.checkouts[c].recovery == Some(s) && !StillInForce(b, c, s))
  }

  /** One that differs in amount, currency or reference fails its checkout, unless that is over already, and
      does nothing else. */
  lemma WrongChargeFails(t: Alphabet, b: Books, d: Charge, c: nat)
    requires Linked(b) && Names(b, d, Some(c)) && IsCompared(b, d, c)
    requires b.checkouts[c].planId in PLAN_PRICES && !PaysExactly(t, b, d, Some(c), b.checkouts[c].planId)
    ensures var after, checkout := Reconcile(t, b, d).books, b.checkouts[c];
      && after == b.(checkouts := after.checkouts)
      && after.checkouts == b.checkouts[c := checkout.(status := after.checkouts[c].status)]
      && after.checkouts[c].status ==
         (if checkout.status in {CheckoutCancelled, Superseded} then checkout.status else CheckoutFailed)
  {
    LinkedRefs(b);
    NamesItsCheckout(b, d, Some(c));
    ExactIsFitting(t, b, d, Some(c), b.checkouts[c].planId);
    hide ChargeFits, CheckoutByRef, Linked, RefsUnique, PaysExactly, AddOneMonth;
  }

  // ---- Charges in a run ----

  /** Step i of the run delivers the charge, which names that checkout. */
  ghost predicate Delivers(h: History, i: nat, d: Charge, found: Option<nat>)
    requires |h.states| == |h.calls| + 1
  {
    i < |h.calls| && ChargeIn(h.states[i], h.calls[i]) == Some(d) && Names(h.states[i], d, found)
  }

  /** Step i is an exact payment for the plan, on that account and subscription. */
  ghost predicate BuysAt(t: Alphabet, h: History, i: nat, account: nat, planId: string, s: nat)
    requires |h.states| == |h.calls| + 1
  {
    exists d, found :: Delivers(h, i, d, found) && Buys(t, h.states[i], d, found, account, planId)
      && SubFor(h.states[i], found) == s
  }

  /** Step i is an exact payment of a recovery checkout of the account, for a month of the subscription. */
  ghost predicate BuysMonthAt(t: Alphabet, h: History, i: nat, account: nat, s: nat)
    requires |h.states| == |h.calls| + 1
  {
    exists d, c, end :: Delivers(h, i, d, Some(c)) && BuysMonth(t, h.states[i], d, c, s, end)
      && h.states[i].checkouts[c].account == account
  }

  predicate OnPlan(b: Books, account: nat, planId: string) {
    account in b.accounts && b.accounts[account].plan == planId
  }

  predicate SubOnPlan(b: Books, s: nat, planId: string) {
    s in b.subs && b.subs[s].planId == planId
  }

  /** A call that delivers no charge puts no account on a plan but the basic one, and moves no subscription. */
  lemma QuietPlans(t: Alphabet, b: Books, a: Call, account: nat, s: nat, planId: string)
    requires ChargeIn(b, a).None?
    ensures OnPlan(Next(t, b, a), account, planId) ==> OnPlan(b, account, planId) || planId == "personal_basic"
    ensures SubOnPlan(Next(t, b, a), s, planId) ==> SubOnPlan(b, s, planId)
  {
    hide Handle, Reconcile, CheckoutByRef, HasOpenCheckout, Lapsed;
    if a.Run? && EventOf(b, a.worker).Some? {
      QuietEventPlans(t, b, EventOf(b, a.worker).value, account, s, planId);
    }
  }

  lemma QuietEventPlans(t: Alphabet, b: Books, e: PaystackEvent, account: nat, s: nat, planId: string)
    requires !e.ChargeSuccess?
    ensures OnPlan(Handle(t, b, e).0, account, planId) == OnPlan(b, account, planId)
    ensures SubOnPlan(Handle(t, b, e).0, s, planId) == SubOnPlan(b, s, planId)
  {
    hide SubByProviderId, SubByEmail, CreatedSub, CheckoutOfSub;
  }

  lemma ChargeMoves(t: Alphabet, h: History, i: nat, d: Charge)
    requires h.Valid(t) && i < |h.calls| && ChargeIn(h.states[i], h.calls[i]) == Some(d)
    ensures Linked(h.states[i])
    ensures var b, after := h.states[i], h.states[i + 1];
      && Delivers(h, i, d, CheckoutOf(b, d))
      && (SameGoods(b, after) || SameGoods(Reconcile(t, b, d).books, after))
  {
    hide Next, Linked, Reconcile, ChargeIn;
    AlwaysLinked(t, h, i);
    assert h.Follows(t, i);
    ChargeCall(t, h.states[i], h.calls[i], d);
    LinkedRefs(h.states[i]);
    NamesItsCheckout(h.states[i], d, CheckoutOf(h.states[i], d));
  }

  /** A step after which the account is on another plan, or on a plan it was not on, is an exact payment. */
  lemma PlanStep(t: Alphabet, h: History, i: nat, account: nat, planId: string)
    requires h.Valid(t) && i < |h.calls| && planId != "personal_basic"
    requires OnPlan(h.states[i + 1], account, planId) && !OnPlan(h.states[i], account, planId)
    ensures (exists s :: BuysAt(t, h, i, account, planId, s))
      || exists s :: BuysMonthAt(t, h, i, account, s) && SubOnPlan(h.states[i], s, planId)
  {
    hide Next, Linked, Reconcile, ChargeIn, PaysExactly, Names;
    var b, a := h.states[i], h.calls[i];
    assert h.Follows(t, i);
    if ChargeIn(b, a).None? {
      QuietPlans(t, b, a, account, 0, planId);
    } else {
      var d := ChargeIn(b, a).value;
      ChargeMoves(t, h, i, d);
      PlanCharge(t, h, i, d, CheckoutOf(b, d), account, planId);
    }
  }

  lemma PlanCharge(t: Alphabet, h: History, i: nat, d: Charge, found: Option<nat>, account: nat, planId: string)
    requires h.Valid(t) && i < |h.calls| && Delivers(h, i, d, found) && Linked(h.states[i])
    requires OnPlan(Reconcile(t, h.states[i], d).books, account, planId) && !OnPlan(h.states[i], account, planId)
    ensures (exists s :: BuysAt(t, h, i, account, planId, s))
      || exists s :: BuysMonthAt(t, h, i, account, s) && SubOnPlan(h.states[i], s, planId)
  {
    hide Next, Linked, Reconcile, ChargeIn, PaysExactly, AddOneMonth, SubFor;
    var b := h.states[i];
    if d.hasPlan {
      PlanChargeExactly(t, b, d, found);
      var a: nat, p: string :| Buys(t, b, d, found, a, p);
      PlanChargeBuys(t, b, d, found, a, p);
      assert BuysAt(t, h, i, account, planId, SubFor(b, found));
    } else if found.None? {
      UnknownChargeIgnored(t, b, d);
    } else {
      MonthChargeExactly(t, b, d, found.value);
      var s: nat, end: RealDate :| BuysMonth(t, b, d, found.value, s, end);
      MonthChargeBuys(t, b, d, found.value, s, end);
      assert BuysMonthAt(t, h, i, account, s);
    }
  }

  /** A step after which the subscription is on another plan is an exact payment for that plan. */
  lemma SubPlanStep(t: Alphabet, h: History, i: nat, s: nat, planId: string)
    requires h.Valid(t) && i < |h.calls| && SubOnPlan(h.states[i + 1], s, planId) && !SubOnPlan(h.states[i], s, planId)
    ensures exists account: nat :: BuysAt(t, h, i, account, planId, s)
  {
    hide Next, Linked, Reconcile, ChargeIn, PaysExactly, Names;
    var b, a := h.states[i], h.calls[i];
    assert h.Follows(t, i);
    if ChargeIn(b, a).None? {
      QuietPlans(t, b, a, 0, s, planId);
    } else {
      var d := ChargeIn(b, a).value;
      ChargeMoves(t, h, i, d);
      SubPlanCharge(t, h, i, d, CheckoutOf(b, d), s, planId);
    }
  }

  lemma SubPlanCharge(t: Alphabet, h: History, i: nat, d: Charge, found: Option<nat>, s: nat, planId: string)
    requires h.Valid(t) && i < |h.calls| && Delivers(h, i, d, found) && Linked(h.states[i])
    requires SubOnPlan(Reconcile(t, h.states[i], d).books, s, planId) && !SubOnPlan(h.states[i], s, planId)
    ensures exists account: nat :: BuysAt(t, h, i, account, planId, s)
  {
    hide Next, Linked, Reconcile, ChargeIn, PaysExactly, AddOneMonth, SubFor;
    var b := h.states[i];
    if d.hasPlan {
      PlanChargeExactly(t, b, d, found);
      var a: nat, p: string :| Buys(t, b, d, found, a, p);
      PlanChargeBuys(t, b, d, found, a, p);
      assert BuysAt(t, h, i, a, planId, SubFor(b, found));
    } else if found.None? {
      UnknownChargeIgnored(t, b, d);
    } else {
      MonthChargeExactly(t, b, d, found.value);
      var k: nat, end: RealDate :| BuysMonth(t, b, d, found.value, k, end);
      MonthChargeBuys(t, b, d, found.value, k, end);
    }
  }

  /** Every subscription was paid for: the run has a charge of exactly the price of its plan that made it or
      put it on that plan, where it stayed. */
  lemma {:induction false} SubWasPaid(t: Alphabet, h: History, s: nat, n: nat, planId: string)
    returns (i: nat, account: nat)
    requires h.Valid(t) && n < |h.states| && SubOnPlan(h.states[n], s, planId)
    ensures i < n && BuysAt(t, h, i, account, planId, s)
    ensures forall k :: i < k <= n ==> SubOnPlan(h.states[k], s, planId)
  {
    hide Next, BuysAt;
    i := n - 1;
    if SubOnPlan(h.states[i], s, planId) {
      i, account := SubWasPaid(t, h, s, i, planId);
    } else {
      SubPlanStep(t, h, i, s, planId);
      account :| BuysAt(t, h, i, account, planId, s);
    }
  }

  /** So is every account that is not on the basic plan: it got its plan from a charge of exactly that plan's
      price, or from an exact recovery payment of a subscription that had been paid for so, and kept it. */
  lemma {:induction false} PlanWasPaid(t: Alphabet, h: History, account: nat, n: nat, planId: string)
    returns (i: nat, s: nat, j: nat, buyer: nat)
    requires h.Valid(t) && n < |h.states| && OnPlan(h.states[n], account, planId) && planId != "personal_basic"
    ensures j <= i < n && BuysAt(t, h, j, buyer, planId, s)
    ensures if j == i then buyer == account else BuysMonthAt(t, h, i, account, s) && SubOnPlan(h.states[i], s, planId)
    ensures forall k :: i < k <= n ==> OnPlan(h.states[k], account, planId)
  {
    hide Next, BuysAt, BuysMonthAt;
    i := n - 1;
    if OnPlan(h.states[i], account, planId) {
      i, s, j, buyer := PlanWasPaid(t, h, account, i, planId);
    } else {
      PlanStep(t, h, i, account, planId);
      if k: nat :| BuysAt(t, h, i, account, planId, k) {
        s, j, buyer := k, i, account;
      } else {
        s :| BuysMonthAt(t, h, i, account, s) && SubOnPlan(h.states[i], s, planId);
        j, buyer := SubWasPaid(t, h, s, i, planId);
      }
    }
  }

  /** A step that moves a subscription's period, and not by the provider's word, is an exact payment of a
      recovery checkout for it. */
  lemma PeriodStep(t: Alphabet, h: History, i: nat, s: nat)
    requires h.Valid(t) && i < |h.calls| && !ProviderSetsPeriod(h.states[i], h.calls[i])
    requires PeriodEnd(h.states[i + 1], s) != PeriodEnd(h.states[i], s)
    ensures exists account: nat :: BuysMonthAt(t, h, i, account, s)
  {
    hide Next, Linked, Reconcile, ChargeIn, Names, PeriodEnd, PeriodStart, ProviderSetsPeriod;
    var b, a := h.states[i], h.calls[i];
    assert h.Follows(t, i);
    if ChargeIn(b, a).None? {
      QuietPeriod(t, b, a, s);
    } else {
      var d := ChargeIn(b, a).value;
      ChargeMoves(t, h, i, d);
      SameSubsSamePeriod(b, h.states[i + 1], s);
      SameSubsSamePeriod(Reconcile(t, b, d).books, h.states[i + 1], s);
      PeriodCharge(t, h, i, d, CheckoutOf(b, d), s);
    }
  }

  lemma SameSubsSamePeriod(b: Books, after: Books, s: nat)
    ensures SameGoods(b, after) ==> PeriodEnd(after, s) == PeriodEnd(b, s)
  {
  }

  lemma PeriodCharge(t: Alphabet, h: History, i: nat, d: Charge, found: Option<nat>, s: nat)
    requires h.Valid(t) && i < |h.calls| && Delivers(h, i, d, found) && Linked(h.states[i])
    requires PeriodEnd(Reconcile(t, h.states[i], d).books, s) != PeriodEnd(h.states[i], s)
    ensures exists account: nat :: BuysMonthAt(t, h, i, account, s)
  {
    hide Next, Linked, Reconcile, ChargeIn, PaysExactly, AddOneMonth;
    var b := h.states[i];
    if d.hasPlan {
      PlanMovesNoPeriod(t, b, d, s);
    } else if found.None? {
      UnknownChargeIgnored(t, b, d);
    } else {
      MonthChargeExactly(t, b, d, found.value);
      var k: nat, end: RealDate :| BuysMonth(t, b, d, found.value, k, end);
      MonthChargeBuys(t, b, d, found.value, k, end);
      assert BuysMonthAt(t, h, i, b.checkouts[found.value].account, k);
    }
  }

  /** The charge pays exactly for no plan it could be for. */
  ghost predicate NowhereExact(t: Alphabet, b: Books, d: Charge, found: Option<nat>)
    requires found.Some? ==> found.value in b.checkouts
  {
    forall account: nat, planId: string :: IsFor(b, d, found, account, planId) ==> !PaysExactly(t, b, d, found, planId)
  }

  /** And a step that delivers a charge of the wrong amount, currency or reference buys nothing. */
  lemma WrongChargeStep(t: Alphabet, h: History, i: nat, d: Charge, found: Option<nat>)
    requires h.Valid(t) && Delivers(h, i, d, found) && NowhereExact(t, h.states[i], d, found)
    ensures SameGoods(h.states[i], h.states[i + 1])
  {
    var b := h.states[i];
    ChargeMoves(t, h, i, d);
    hide Next, Linked, Reconcile, ChargeIn, PaysExactly, AddOneMonth;
    if d.hasPlan {
      PlanChargeExactly(t, b, d, found);
    } else if found.None? {
      UnknownChargeIgnored(t, b, d);
    } else {
      assert IsFor(b, d, found, b.checkouts[found.value].account, b.checkouts[found.value].planId);
      MonthChargeExactly(t, b, d, found.value);
    }
  }
}
