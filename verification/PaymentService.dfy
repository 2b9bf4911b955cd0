/** payments/services.py and the daily task of payments/tasks.py: the methods that update the books in
    place. */
module PaymentService {
  import opened Wrappers
  import opened Text
  import opened Calendar
  import opened Payments
  import opened PaymentTheorems

  class Ledger {
    var today: RealDate
    var nextPk: nat
    var accounts: map<nat, Account>
    var subs: map<nat, Subscription>
    var checkouts: map<nat, Checkout>
    var invoices: map<string, Invoice>
    var log: Log

    constructor (today: RealDate)
      ensures View() == Books(today, 1, map[], map[], map[], map[], Log(map[], map[]))
    {
      this.today, nextPk := today, 1;
      accounts, subs, checkouts := map[], map[], map[];
      invoices, log := map[], Log(map[], map[]);
    }

    function View(): Books
      reads this
    {
      Books(today, nextPk, accounts, subs, checkouts, invoices, log)
    }

    /** `.filter(reference=reference).first()` over a column with distinct values. */
    method FindCheckout(reference: string) returns (found: Option<nat>)
      requires RefsUnique(View())
      ensures found == CheckoutByRef(checkouts, reference)
    {
      var left := checkouts.Keys;
      while left != {}
        invariant left <= checkouts.Keys
        invariant forall c :: c in checkouts && c !in left ==> checkouts[c].reference != reference
        decreases |left|
      {
        var c :| c in left;
        if checkouts[c].reference == reference {
          return Some(c);
        }
        left := left - {c};
      }
      return None;
    }

    /** _mark_checkout_verification_failed */
    method MarkVerificationFailed(c: Option<nat>)
      modifies `checkouts
      ensures checkouts == MarkFailed(old(checkouts), c)
    {
      if c.None? || c.value !in checkouts {
        return;
      }
      if checkouts[c.value].status in {CheckoutPending, Charged, ProviderCreated} {
        checkouts := checkouts[c.value := checkouts[c.value].(status := CheckoutFailed)];
      }
    }

    /** _validate_verified_checkout; None is the unknown plan's DomainError. */
    method ValidateVerifiedCheckout(t: Alphabet, c: Option<nat>, planId: string, d: Charge) returns (fits: Option<bool>)
      requires c.Some? ==> c.value in checkouts
      modifies `checkouts
      ensures fits.None? <==> ExpectedAmount(planId).None?
      ensures fits.Some? ==> fits.value == ChargeFits(
        t, if c.Some? then Some(old(checkouts)[c.value].reference) else None, ExpectedAmount(planId).value, d)
      ensures checkouts == if fits == Some(false) then MarkFailed(old(checkouts), c) else old(checkouts)
    {
      var reference := Strip(t, d.reference);
      var currency := Strip(t, Upper(t, d.currency));
      var expected := ExpectedAmount(planId);
      if expected.None? {
        return None;
      }
      if c.Some? && reference != "" && reference != checkouts[c.value].reference {
        MarkVerificationFailed(c);
        return Some(false);
      }
      if d.amount != expected.value {
        MarkVerificationFailed(c);
        return Some(false);
      }
      if currency != "" && currency != "GHS" {
        MarkVerificationFailed(c);
        return Some(false);
      }
      return Some(true);
    }

    /** _reconcile_recovery_checkout */
    method ReconcileRecoveryCheckout(t: Alphabet, d: Charge, c: nat) returns (verdict: Verdict)
      requires c in checkouts
      modifies this
      ensures Reconciled(View(), verdict) == ReconcileRecovery(t, old(View()), d, c)
    {
      var checkout := checkouts[c];
      if checkout.kind != ForRecovery || checkout.recovery.None? || checkout.recovery.value !in subs {
        return Skipped;
      }
      var s := checkout.recovery.value;
      if RecoveryApplied(View(), c, s) {
        return AlreadyApplied;
      }
      var fits := ValidateVerifiedCheckout(t, Some(c), checkout.planId, d);
      if fits.None? {
        return Raised;
      }
      if !fits.value {
        return Mismatch;
      }
      var base := if subs[s].periodEnd.Some? then subs[s].periodEnd.value else today;
      var end := AddOneMonth(base);
      if end.None? {
        return Raised;
      }
      WriteRecovery(d, c, s, base, end.value);
      return Applied;
    }

    method WriteRecovery(d: Charge, c: nat, s: nat, base: RealDate, end: RealDate)
      requires c in checkouts && s in subs
      modifies `subs, `checkouts, `accounts, `invoices
      ensures View() == Extend(old(View()), d, c, s, base, end)
    {
      var sub := subs[s].(periodStart := Some(base), periodEnd := Some(end), status := SubActive, cancelAtEnd := false);
      if d.customerCode != "" {
        sub := sub.(customerCode := d.customerCode);
      }
      if d.customerEmail != "" {
        sub := sub.(email := d.customerEmail);
      }
      subs := subs[s := sub];
      var account := checkouts[c].account;
      checkouts := checkouts[c := checkouts[c].(status := ProviderCreated, activated := Some(s))];
      accounts := PlanSwitched(accounts, account, sub.planId);
      invoices := invoices[d.reference := Invoice(
          account, s, d.amount, d.currency, true, sub.periodStart, sub.periodEnd, Some(today))];
    }

    /** The writes of reconcile_verified_charge: reuse the checkout's subscription or create one. */
    method WriteActivation(d: Charge, found: Option<nat>, account: nat, planId: string)
      requires found.Some? ==> found.value in checkouts
      requires account in accounts
      modifies `nextPk, `subs, `checkouts, `accounts
      ensures View() == Activate(old(View()), d, found, account, planId)
    {
      var status := SubActive;
      var s: Option<nat> := None;
      if found.Some? {
        if checkouts[found.value].supersedes.Some? {
          status := SubPending;
        }
        if checkouts[found.value].activated.Some? && checkouts[found.value].activated.value in subs {
          s := checkouts[found.value].activated;
        }
      }
      if s.None? {
        s := Some(nextPk);
        subs := subs[nextPk := NewSub(View(), d, account, planId, status)];
        nextPk := nextPk + 1;
      } else {
        subs := subs[s.value := Reused(subs[s.value], d, planId, status)];
      }
      if found.Some? {
        checkouts := checkouts[found.value := checkouts[found.value].(status := Charged, activated := s)];
      }
      accounts := PlanSwitched(accounts, account, planId);
    }

    /** reconcile_verified_charge */
    method ReconcileVerifiedCharge(t: Alphabet, d: Charge) returns (verdict: Verdict)
      requires RefsUnique(View())
      modifies this
      ensures Reconciled(View(), verdict) == Reconcile(t, old(View()), d)
    {
      var found: Option<nat> := None;
      if d.reference != "" {
        found := FindCheckout(d.reference);
      }
      if !d.hasPlan {
        if found.Some? {
          verdict := ReconcileRecoveryCheckout(t, d, found.value);
          return;
        }
        return Skipped;
      }
      var account, planId := d.account, d.planId;
      if found.Some? {
        account, planId := Some(checkouts[found.value].account), checkouts[found.value].planId;
      }
      if account.None? || planId == "" {
        return Skipped;
      }
      var fits := ValidateVerifiedCheckout(t, found, planId, d);
      if fits.None? {
        return Raised;
      }
      if !fits.value {
        return Mismatch;
      }
      if account.value !in accounts {
        return Skipped;
      }
      if found.Some? && checkouts[found.value].status in {Charged, ProviderCreated}
         && checkouts[found.value].activated.Some? && accounts[account.value].plan == planId {
        return AlreadyApplied;
      }
      WriteActivation(d, found, account.value, planId);
      return Applied;
    }

    /** get_checkout_status: what the provider says about a checkout that is neither cancelled nor failed. */
    method GetCheckoutStatus(t: Alphabet, account: nat, reference: string, remote: Remote) returns (raised: bool)
      requires RefsUnique(View())
      modifies this
      ensures raised <==> Poll(t, old(View()), account, reference, remote).None?
      ensures View() == Or(Poll(t, old(View()), account, reference, remote), old(View()))
    {
      var found := FindCheckout(reference);
      if found.None? || checkouts[found.value].account != account {
        return true;
      }
      var c := found.value;
      if checkouts[c].status in {CheckoutCancelled, CheckoutFailed} {
        return false;
      }
      match remote {
        case Success(d) =>
          ghost var before := View();
          var verdict := ReconcileVerifiedCharge(t, d);
          RaisedChangesNothing(t, before, d);
          return verdict == Raised;
        case Abandoned =>
          if checkouts[c].status in {CheckoutPending, Charged, ProviderCreated} {
            checkouts := checkouts[c := checkouts[c].(status := CheckoutCancelled)];
          }
        case FailedOrReversed =>
          if checkouts[c].status in {CheckoutPending, Charged, ProviderCreated} {
            checkouts := checkouts[c := checkouts[c].(status := CheckoutFailed)];
          }
        case _ =>
      }
      return false;
    }

    /** The body of the loop: end one subscription, and put its account back on the basic plan. */
    method ExpireOne(s: nat, ghost before: Books, ghost done: set<nat>)
      requires s in before.subs && s !in done
      requires subs == ExpiredSubs(before.subs, done) && accounts == Downgraded(before, done)
      modifies `subs, `accounts
      ensures subs == ExpiredSubs(before.subs, done + {s}) && accounts == Downgraded(before, done + {s})
    {
      ExpireOneMore(before, done, s);
      hide ExpiredSubs, Downgraded;
      subs := subs[s := subs[s].(status := SubExpired)];
      var account := subs[s].account;
      if account in accounts && accounts[account].plan != BASIC_PLAN {
        accounts := accounts[account := accounts[account].(plan := BASIC_PLAN)];
      }
    }

    /** expire_lapsed_subscriptions: one lapsed subscription at a time. */
    method ExpireLapsedSubscriptions()
      modifies `subs, `accounts
      ensures View() == ExpireLapsed(old(View()))
    {
      var lapsed := LapsedSubs(subs, today);
      ghost var before, all := View(), lapsed;
      ghost var done: set<nat> := {};
      NoneExpired(before);
      hide ExpiredSubs, Downgraded;
      while lapsed != {}
        invariant lapsed !! done && lapsed + done == all
        invariant subs == ExpiredSubs(before.subs, done) && accounts == Downgraded(before, done)
        decreases |lapsed|
      {
        var s :| s in lapsed;
        ExpireOne(s, before, done);
        lapsed, done := lapsed - {s}, done + {s};
      }
      AllExpired(before, all);
    }
  }

  function LapsedSubs(subs: map<nat, Subscription>, today: RealDate): (r: set<nat>)
    ensures r <= subs.Keys
  {
    set s | s in subs && Lapsed(subs[s], today)
  }

  function ExpiredSubs(subs: map<nat, Subscription>, done: set<nat>): map<nat, Subscription> {
    map s | s in subs :: if s in done then subs[s].(status := SubExpired) else subs[s]
  }

  /** The accounts once the subscriptions in `done` have ended. */
  function Downgraded(b: Books, done: set<nat>): map<nat, Account> {
    map a | a in b.accounts ::
      if exists s <- done :: s in b.subs && b.subs[s].account == a
        then b.accounts[a].(plan := BASIC_PLAN) else b.accounts[a]
  }

  lemma NoneExpired(b: Books)
    ensures ExpiredSubs(b.subs, {}) == b.subs && Downgraded(b, {}) == b.accounts
  {
  }

  lemma ExpireOneMore(b: Books, done: set<nat>, s: nat)
    requires s in b.subs && s !in done
    ensures s in ExpiredSubs(b.subs, done) && ExpiredSubs(b.subs, done)[s] == b.subs[s]
    ensures ExpiredSubs(b.subs, done + {s}) == ExpiredSubs(b.subs, done)[s := b.subs[s].(status := SubExpired)]
    ensures Downgraded(b, done).Keys == b.accounts.Keys
    ensures var a, before := b.subs[s].account, Downgraded(b, done);
      Downgraded(b, done + {s}) == if a in before then before[a := before[a].(plan := BASIC_PLAN)] else before
  {
    var a, before, after := b.subs[s].account, Downgraded(b, done), Downgraded(b, done + {s});
    forall c | c in b.accounts && c != a ensures after[c] == before[c] {
      assert forall k <- done + {s} :: k in done || k == s;
    }
    if a in b.accounts {
      assert s in done + {s};
    }
  }

  lemma AllExpired(b: Books, all: set<nat>)
    requires all == LapsedSubs(b.subs, b.today)
    ensures ExpireLapsed(b) == b.(subs := ExpiredSubs(b.subs, all), accounts := Downgraded(b, all))
  {
    forall a | a in b.accounts
      ensures (exists s <- all :: s in b.subs && b.subs[s].account == a) <==>
        exists s :: s in b.subs && b.subs[s].account == a && Lapsed(b.subs[s], b.today)
    {
    }
  }

  /** A second run on the same day finds nothing left to expire. */
  lemma ExpiringTwice(b: Books)
    ensures ExpireLapsed(ExpireLapsed(b)) == ExpireLapsed(b)
  {
    var once := ExpireLapsed(b);
    assert forall s :: s in once.subs ==> !Lapsed(once.subs[s], once.today);
  }
}
