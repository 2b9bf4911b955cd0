/** A run of the payment service in which a month of the dearest plan is bought at the price of a cheap one. */
module ChargeRuns {
  import opened Wrappers
  import opened Text
  import opened Calendar
  import opened Payments
  import opened Histories
  import opened PaymentTheorems
  import opened RecoveryTheorems
  import opened PaymentRuns
  import opened ChargeTheorems

  /** A checkout for enterprise_plus, opened by an account that has no subscription yet. */
  function DearCheckout(status: CheckoutStatus, activated: Option<nat>): Checkout {
    Checkout(0, "R1", "enterprise_plus", ForSubscription, status, None, activated, None)
  }

  function DearCharge(): Charge {
    Charge("R1", true, "PLN_2", None, "", "CUS_1", EMAIL, 120000, "GHS")
  }

  /** The subscription once the dear checkout is paid, past due until then. */
  function Upgraded(start: RealDate, end: RealDate): map<nat, Subscription> {
    map[2 := Member(SubActive, start, end)[2].(planId := "enterprise_plus", planCode := "PLN_2")]
  }

  lemma OpensDear(b: Books)
    requires Holding(b, 1, BASIC_PLAN, map[], map[])
    ensures var after := Initiate(b, 0, "enterprise_plus", "R1", true);
      after.Some? && after.value.log == b.log
      && Holding(after.value, 2, BASIC_PLAN, map[], map[1 := DearCheckout(CheckoutPending, None)])
  {
    assert (set s | s in b.subs && b.subs[s].account == 0 && b.subs[s].status in CURRENT_STATUSES) == {};
  }

  /** A charge for another plan, on no checkout, makes the subscription. */
  lemma StrayBuys(t: Alphabet, b: Books)
    requires Holding(b, 2, BASIC_PLAN, map[], map[1 := DearCheckout(CheckoutPending, None)])
    ensures var r := Reconcile(t, b, Unknown());
      r.verdict == Applied
      && Holding(r.books, 3, "personal_plus", map[2 := Bought()], map[1 := DearCheckout(CheckoutPending, None)])
  {
    hide Strip, Upper;
    CurrencyFits(t, "");
    assert Stray(t, b, Unknown());
    StrayAdds(t, b, Unknown());
  }

  /** The provider's notice ties it to the dear checkout, the newest one open for the same address. */
  lemma CreatedTies(b: Books)
    requires Holding(b, 3, "personal_plus", map[2 := Bought()], map[1 := DearCheckout(CheckoutPending, None)])
    ensures Holding(OnSubscriptionCreate(b, SubscriptionCreate("SUB_1", "CUS_1", EMAIL, Some(JANUARY), Some(FEBRUARY))),
                    3, "personal_plus", Member(SubActive, JANUARY, FEBRUARY),
                    map[1 := DearCheckout(ProviderCreated, Some(2))])
  {
    OnlyOne(set s | s in b.subs && b.subs[s].customerCode == "CUS_1"
              && b.subs[s].providerId == "" && b.subs[s].status != SubReplaced, 2);
    assert CreatedSub(b, "CUS_1", EMAIL) == Some(2);
    assert (set c | c in b.checkouts && b.checkouts[c].activated == Some(2)) == {};
    OnlyOne(set c | c in b.checkouts && b.checkouts[c].account in b.accounts
              && b.accounts[b.checkouts[c].account].email == EMAIL
              && b.checkouts[c].status in OPEN_STATUSES + {ProviderCreated}, 1);
    hide CreatedSub;
    assert forall subs :: CheckoutOfSub(b.(subs := subs), 2, EMAIL) == Some(1);
  }

  lemma OwesCheap(b: Books)
    requires Holding(b, 3, "personal_plus", Member(SubPastDue, JANUARY, FEBRUARY),
                     map[1 := DearCheckout(ProviderCreated, Some(2))])
    ensures var after := InitiateRecovery(b, 0, "personal_plus", "R2", true);
      after.Some? && after.value.log == b.log
      && Holding(after.value, 4, "personal_plus", Member(SubPastDue, JANUARY, FEBRUARY),
                 map[1 := DearCheckout(ProviderCreated, Some(2)), 3 := RecoveryCheckout(CheckoutPending, None)])
  {
    OnlyOne(set s | s in b.subs && b.subs[s].account == 0 && b.subs[s].status in CURRENT_STATUSES, 2);
  }

  lemma FindsDear(b: Books)
    requires b.checkouts.Keys == {1, 3} && b.checkouts[1].reference == "R1" && b.checkouts[3].reference == "R2"
    ensures CheckoutByRef(b.checkouts, "R1") == Some(1)
  {
  }

  /** The dear checkout is paid, and its subscription moves to the dear plan. */
  lemma DearPays(t: Alphabet, b: Books)
    requires Holding(b, 4, "personal_plus", Member(SubPastDue, JANUARY, FEBRUARY),
                     map[1 := DearCheckout(ProviderCreated, Some(2)), 3 := RecoveryCheckout(CheckoutPending, None)])
    ensures var r := Reconcile(t, b, DearCharge());
      r.verdict == Applied
      && Holding(r.books, 4, "enterprise_plus", Upgraded(JANUARY, FEBRUARY),
                 map[1 := DearCheckout(Charged, Some(2)), 3 := RecoveryCheckout(CheckoutPending, None)])
  {
    hide Strip, Upper, ReconcileRecovery, CheckoutByRef;
    CurrencyFits(t, "R1");
    FindsDear(b);
  }

  /** The recovery of the cheap plan is paid, and the dear plan is extended. */
  lemma CheapExtends(t: Alphabet, b: Books)
    requires Holding(b, 4, "enterprise_plus", Upgraded(JANUARY, FEBRUARY),
                     map[1 := DearCheckout(Charged, Some(2)), 3 := RecoveryCheckout(CheckoutPending, None)])
    ensures Names(b, Recovery(), Some(3)) && BuysMonth(t, b, Recovery(), 3, 2, MARCH)
    ensures var r := Reconcile(t, b, Recovery());
      r.verdict == Applied && r.books.subs == Upgraded(FEBRUARY, MARCH)
  {
    hide Strip, Upper;
    assert b.checkouts[3].reference == "R2";
    CurrencyFits(t, "R2");
  }

  lemma TiedRun(t: Alphabet) returns (h: History)
    ensures h.Valid(t) && Idle(h, {"E1", "E2"})
    ensures Holding(Last(h), 3, "personal_plus", Member(SubActive, JANUARY, FEBRUARY),
                    map[1 := DearCheckout(ProviderCreated, Some(2))])
  {
    hide Initiate, Reconcile, OnSubscriptionCreate;
    h := Start(t, JANUARY);
    h := Do(t, h, Register(EMAIL));
    OpensDear(Last(h));
    h := Do(t, h, StartSubscription(0, "enterprise_plus", "R1", true));
    StrayBuys(t, Taken(Last(h), "E1", ChargeSuccess(Unknown())));
    h := Deliver(t, h, "E1", ChargeSuccess(Unknown()));
    var e := SubscriptionCreate("SUB_1", "CUS_1", EMAIL, Some(JANUARY), Some(FEBRUARY));
    CreatedTies(Taken(Last(h), "E2", e));
    h := Deliver(t, h, "E2", e);
  }

  lemma UpgradedRun(t: Alphabet) returns (h: History)
    ensures h.Valid(t) && Idle(h, {"E1", "E2", "E3", "E4"})
    ensures Holding(Last(h), 4, "enterprise_plus", Upgraded(JANUARY, FEBRUARY),
                    map[1 := DearCheckout(Charged, Some(2)), 3 := RecoveryCheckout(CheckoutPending, None)])
  {
    hide InitiateRecovery, Reconcile, OnPaymentFailed;
    h := TiedRun(t);
    var f := RenewalFailed("INV_1");
    Fails(Taken(Last(h), "E3", f), JANUARY, FEBRUARY, Last(h).checkouts, "INV_1");
    h := Deliver(t, h, "E3", f);
    OwesCheap(Last(h));
    h := Do(t, h, StartRecovery(0, "personal_plus", "R2", true));
    DearPays(t, Taken(Last(h), "E4", ChargeSuccess(DearCharge())));
    h := Deliver(t, h, "E4", ChargeSuccess(DearCharge()));
  }

  /** A recovery checkout opened for personal_plus, and paid at its price, extends a subscription that was put
      on enterprise_plus in between by a month. */
  lemma UnderpaidMonthRun(t: Alphabet) returns (h: History, i: nat)
    ensures h.Valid(t) && Delivers(h, i, Recovery(), Some(3)) && Recovery().amount == 7900
    ensures BuysMonth(t, h.states[i], Recovery(), 3, 2, MARCH)
    ensures SubOnPlan(h.states[i], 2, "enterprise_plus") && !IsPrice("enterprise_plus", 7900)
    ensures SubOnPlan(Last(h), 2, "enterprise_plus") && PeriodEnd(Last(h), 2) == Some(MARCH)
  {
    hide Next, Reconcile, BuysMonth;
    var before := UpgradedRun(t);
    i := |before.calls| + 2;
    CheapExtends(t, Taken(Last(before), "E5", ChargeSuccess(Recovery())));
    h := Deliver(t, before, "E5", ChargeSuccess(Recovery()));
  }
}
