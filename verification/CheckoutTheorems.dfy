/** Opening, polling and dropping checkouts, stopping a subscription and the daily task: when each goes
    through, and which rows it changes. */
module CheckoutTheorems {
  import opened Wrappers
  import opened Text
  import opened Calendar
  import opened Payments
  import opened PaymentTheorems
  import opened InvoiceTheorems
  import opened ChargeTheorems
  import opened NoticeTheorems

  // ---- Opening a checkout ----

  predicate IsOpen(b: Books, c: nat, account: nat) {
    c in b.checkouts && b.checkouts[c].account == account && b.checkouts[c].status in {CheckoutPending, Charged}
  }

  function CurrentSubs(b: Books, account: nat): set<nat> {
    set s | s in b.subs && b.subs[s].account == account && b.subs[s].status in {SubActive, SubPastDue, SubCancelled}
  }

  ghost predicate IsNewestOrNone(keys: set<nat>, k: Option<nat>) {
    if k.Some? then IsNewest(keys, k.value) else keys == {}
  }

  lemma CurrentIsNewest(b: Books, account: nat)
    ensures CurrentSub(b, account) == Newest(CurrentSubs(b, account))
    ensures IsNewestOrNone(CurrentSubs(b, account), CurrentSub(b, account))
  {
    SameNewest((set s | s in b.subs && b.subs[s].account == account && b.subs[s].status in CURRENT_STATUSES),
               CurrentSubs(b, account));
  }

  /** What both kinds of checkout ask for: a plan that is sold, an account, a gateway that answers, no other
      checkout of the account under way, and a reference of no other one. */
  ghost predicate MayOpen(b: Books, account: nat, planId: string, reference: string, ready: bool) {
    && ready && planId in PLAN_PRICES && account in b.accounts
    && (forall c :: c in b.checkouts ==> !IsOpen(b, c, account))
    && (forall c :: c in b.checkouts ==> b.checkouts[c].reference != reference)
  }

  lemma OpenIsOpen(b: Books, account: nat)
    ensures HasOpenCheckout(b, account) <==> exists c :: c in b.checkouts && IsOpen(b, c, account)
  {
    if HasOpenCheckout(b, account) {
      var c :| c in b.checkouts && b.checkouts[c].account == account && b.checkouts[c].status in OPEN_STATUSES;
      assert IsOpen(b, c, account);
    }
  }

  function Opened(b: Books, checkout: Checkout): Books {
    b.(checkouts := b.checkouts[b.nextPk := checkout], nextPk := b.nextPk + 1)
  }

  /** A subscription checkout is opened exactly if the account is not active on the plan already by its newest
      subscription, which the new one is to supersede. */
  lemma StartsExactly(b: Books, account: nat, planId: string, reference: string, ready: bool)
    ensures Initiate(b, account, planId, reference, ready).Some? <==>
      && MayOpen(b, account, planId, reference, ready)
      && forall s :: IsNewest(CurrentSubs(b, account), s) ==>
        b.subs[s].status != SubActive || b.subs[s].planId != planId
    ensures var after := Initiate(b, account, planId, reference, ready);
      after.Some? ==> exists supersedes ::
        && IsNewestOrNone(CurrentSubs(b, account), supersedes)
        && after.value ==
           Opened(b, Checkout(account, reference, planId, ForSubscription, CheckoutPending, supersedes, None, None))
  {
    CurrentIsNewest(b, account);
    OpenIsOpen(b, account);
    hide CurrentSub, HasOpenCheckout, IsOpen;
  }

  /** The account's newest current subscription is on the plan and past due. */
  ghost predicate Owes(b: Books, account: nat, s: nat, planId: string) {
    IsNewest(CurrentSubs(b, account), s) && b.subs[s].status == SubPastDue && b.subs[s].planId == planId
  }

  /** A recovery checkout is opened exactly if that subscription is past due, and on the plan. */
  lemma StartsRecoveryExactly(b: Books, account: nat, planId: string, reference: string, ready: bool)
    ensures InitiateRecovery(b, account, planId, reference, ready).Some? <==>
      MayOpen(b, account, planId, reference, ready) && exists s :: Owes(b, account, s, planId)
    ensures var after := InitiateRecovery(b, account, planId, reference, ready);
      after.Some? ==> exists s ::
        && Owes(b, account, s, planId)
        && after.value ==
           Opened(b, Checkout(account, reference, planId, ForRecovery, CheckoutPending, None, None, Some(s)))
  {
    CurrentIsNewest(b, account);
    OpenIsOpen(b, account);
    hide CurrentSub, HasOpenCheckout, IsOpen;
    if InitiateRecovery(b, account, planId, reference, ready).Some? {
      assert Owes(b, account, CurrentSub(b, account).value, planId);
    }
    if s: nat :| Owes(b, account, s, planId) {
      assert CurrentSub(b, account) == Some(s);
    }
  }

  // ---- Polling ----

  predicate IsClosed(status: CheckoutStatus) {
    status in {CheckoutCancelled, CheckoutFailed}
  }

  function Settled(b: Books, c: nat, status: CheckoutStatus): Books
    requires c in b.checkouts
  {
    if IsClosed(b.checkouts[c].status) || b.checkouts[c].status == Superseded then b
    else b.(checkouts := b.checkouts[c := b.checkouts[c].(status := status)])
  }

  /** A poll of an account's own checkout settles it as the gateway says, unless it is closed. */
  lemma PollsExactly(t: Alphabet, b: Books, account: nat, reference: string, remote: Remote, c: nat)
    requires RefsUnique(b) && c in b.checkouts && b.checkouts[c].reference == reference
    ensures var after, checkout := Poll(t, b, account, reference, remote), b.checkouts[c];
      if checkout.account != account then after == None
      else if IsClosed(checkout.status) || remote.NoAnswer? || remote.StillOpen? then after == Some(b)
      else if remote.Abandoned? then after == Some(Settled(b, c, CheckoutCancelled))
      else if remote.FailedOrReversed? then after == Some(Settled(b, c, CheckoutFailed))
      else var r := Reconcile(t, b, remote.charge);
        after == if r.verdict == Raised then None else Some(r.books)
  {
    hide Reconcile;
  }

  /** A poll of a reference that names no checkout is an error. */
  lemma PollsNothing(t: Alphabet, b: Books, account: nat, reference: string, remote: Remote)
    requires forall c :: c in b.checkouts ==> b.checkouts[c].reference != reference
    ensures Poll(t, b, account, reference, remote) == None
  {
    hide Reconcile;
  }

  // ---- Stopping and dropping ----

  ghost predicate MayStop(b: Books, account: nat, s: nat) {
    && IsNewest(CurrentSubs(b, account), s) && b.subs[s].status == SubActive && b.subs[s].providerId != ""
    && forall k <- CurrentSubs(b, account) :: b.subs[k].status == SubActive ==> k == s
  }

  /** A subscription is stopped exactly if the gateway agrees, it is the account's newest current one, confirmed
      by the provider, and its only active one; it is only marked to end with its period. */
  lemma StopsExactly(b: Books, account: nat, confirmed: bool)
    ensures CancelSubscription(b, account, confirmed).Some? <==> confirmed && exists s :: MayStop(b, account, s)
    ensures var after := CancelSubscription(b, account, confirmed);
      after.Some? ==> exists s ::
        MayStop(b, account, s) && after.value == b.(subs := b.subs[s := b.subs[s].(cancelAtEnd := true)])
  {
    CurrentIsNewest(b, account);
    var current := CurrentSub(b, account);
    if current.Some? && b.subs[current.value].status == SubActive {
      OneActive(b, account, current.value);
    }
    hide CurrentSub, ActiveSubs;
    if CancelSubscription(b, account, confirmed).Some? {
      assert MayStop(b, account, current.value);
    }
    if s: nat :| MayStop(b, account, s) {
      assert current == Some(s);
    }
  }

  lemma OneActive(b: Books, account: nat, s: nat)
    requires s in CurrentSubs(b, account) && b.subs[s].status == SubActive
    ensures |ActiveSubs(b, account)| == 1 <==>
      forall k <- CurrentSubs(b, account) :: b.subs[k].status == SubActive ==> k == s
  {
    var active := ActiveSubs(b, account);
    assert s in active && active == {s} + (active - {s});
    if forall k <- CurrentSubs(b, account) :: b.subs[k].status == SubActive ==> k == s {
      assert forall k <- active :: k in CurrentSubs(b, account);
      assert active == {s};
    } else {
      var k :| k in CurrentSubs(b, account) && b.subs[k].status == SubActive && k != s;
      assert k in active - {s};
    }
  }

  /** Dropping cancels the account's open checkouts, and nothing else. */
  lemma DropsExactly(b: Books, account: nat, c: nat)
    requires c in b.checkouts
    ensures var after := CancelCheckouts(b, account);
      && after == b.(checkouts := after.checkouts) && after.checkouts.Keys == b.checkouts.Keys
      && after.checkouts[c] ==
         if IsOpen(b, c, account) then b.checkouts[c].(status := CheckoutCancelled) else b.checkouts[c]
  {
  }

  // ---- The daily task ----

  /** Paid up or not, the subscription runs no longer: cancelled or past due, its period is over. */
  predicate IsOver(b: Books, s: nat) {
    && s in b.subs && b.subs[s].status in {SubCancelled, SubPastDue}
    && b.subs[s].periodEnd.Some? && Ordinal(b.subs[s].periodEnd.value) < Ordinal(b.today)
  }

  lemma OverIsLapsed(b: Books, s: nat)
    requires s in b.subs
    ensures IsOver(b, s) <==> Lapsed(b.subs[s], b.today)
  {
    if b.subs[s].periodEnd.Some? {
      OrdinalOrders(b.subs[s].periodEnd.value, b.today);
    }
    hide Ordinal;
  }

  /** Exactly those end, and exactly their accounts go back to the basic plan. */
  lemma ExpiresExactly(b: Books, s: nat, account: nat)
    requires s in b.subs && account in b.accounts
    ensures var after := ExpireLapsed(b);
      && after == b.(subs := after.subs, accounts := after.accounts)
      && after.subs.Keys == b.subs.Keys && after.accounts.Keys == b.accounts.Keys
      && after.subs[s] == (if IsOver(b, s) then b.subs[s].(status := SubExpired) else b.subs[s])
      && after.accounts[account] == (if exists k :: k in b.subs && IsOver(b, k) && b.subs[k].account == account
           then b.accounts[account].(plan := "personal_basic") else b.accounts[account])
  {
    forall k | k in b.subs ensures IsOver(b, k) <==> Lapsed(b.subs[k], b.today) {
      OverIsLapsed(b, k);
    }
    hide IsOver, Lapsed;
  }

  // ---- In a run ----

  predicate IsPending(b: Books, c: nat, account: nat) {
    c in b.checkouts && b.checkouts[c].account == account && b.checkouts[c].status == CheckoutPending
  }

  lemma ChargeOpensNone(t: Alphabet, b: Books, d: Charge, c: nat, account: nat)
    ensures IsPending(Reconcile(t, b, d).books, c, account) ==> IsPending(b, c, account)
  {
    hide ChargeFits, AddOneMonth, RecoveryApplied;
  }

  lemma NoticeOpensNone(t: Alphabet, b: Books, e: PaystackEvent, c: nat, account: nat)
    ensures IsPending(Handle(t, b, e).0, c, account) ==> IsPending(b, c, account)
  {
    hide Reconcile, SubByProviderId, SubByEmail, CreatedSub;
    if e.ChargeSuccess? {
      ChargeOpensNone(t, b, e.charge, c, account);
    }
  }

  /** A checkout is pending after a call only if it was before, or if the call opened it while none was open. */
  lemma PendingStep(t: Alphabet, b: Books, a: Call, c: nat, account: nat)
    requires IsPending(Next(t, b, a), c, account) && !IsPending(b, c, account)
    ensures c == b.nextPk && forall e :: e in b.checkouts ==> !IsOpen(b, e, account)
  {
    hide Handle, Reconcile, Lapsed, CurrentSub;
    match a
    case Run(worker) =>
      if EventOf(b, worker).Some? {
        NoticeOpensNone(t, b, EventOf(b, worker).value, c, account);
      }
    case PollStatus(_, _, Success(d)) => ChargeOpensNone(t, b, d, c, account);
    case _ => OpenIsOpen(b, account);
  }

  /** In every run, an account has at most one checkout that waits for its payment. */
  lemma {:induction false} OnePending(t: Alphabet, h: History, n: nat, c: nat, e: nat, account: nat)
    requires h.Valid(t) && n < |h.states| && IsPending(h.states[n], c, account) && IsPending(h.states[n], e, account)
    ensures c == e
  {
    hide Next;
    if n > 0 {
      var b, a := h.states[n - 1], h.calls[n - 1];
      assert h.Follows(t, n - 1);
      if IsPending(b, c, account) && IsPending(b, e, account) {
        OnePending(t, h, n - 1, c, e, account);
      } else {
        if !IsPending(b, c, account) {
          PendingStep(t, b, a, c, account);
        }
        if !IsPending(b, e, account) {
          PendingStep(t, b, a, e, account);
        }
        assert IsPending(b, c, account) ==> IsOpen(b, c, account);
        assert IsPending(b, e, account) ==> IsOpen(b, e, account);
      }
    }
  }

  /** A subscription of the account is over. */
  ghost predicate RunsOut(b: Books, account: nat) {
    exists s :: s in b.subs && IsOver(b, s) && b.subs[s].account == account
  }

  lemma QuietLeavesPlan(t: Alphabet, b: Books, a: Call, account: nat, planId: string)
    requires ChargeIn(b, a).None? && OnPlan(b, account, planId) && !OnPlan(Next(t, b, a), account, planId)
    requires account < b.nextPk
    ensures a.Expire? && RunsOut(b, account)
  {
    hide Handle, Reconcile, CheckoutByRef, HasOpenCheckout, Lapsed, CurrentSub;
    if a.Run? && EventOf(b, a.worker).Some? {
      QuietEventPlans(t, b, EventOf(b, a.worker).value, account, 0, planId);
    } else if a.Expire? {
      var s :| s in b.subs && b.subs[s].account == account && Lapsed(b.subs[s], b.today);
      OverIsLapsed(b, s);
    }
  }

  lemma ChargeLeavesPlan(t: Alphabet, h: History, i: nat, d: Charge, found: Option<nat>, account: nat, planId: string)
    requires h.Valid(t) && i < |h.calls| && Delivers(h, i, d, found) && Linked(h.states[i])
    requires OnPlan(h.states[i], account, planId) && !OnPlan(Reconcile(t, h.states[i], d).books, account, planId)
    ensures (exists p, s :: BuysAt(t, h, i, account, p, s)) || exists s :: BuysMonthAt(t, h, i, account, s)
  {
    hide Next, Linked, Reconcile, ChargeIn, PaysExactly, AddOneMonth, SubFor;
    var b := h.states[i];
    if d.hasPlan {
      PlanChargeExactly(t, b, d, found);
      var a: nat, p: string :| Buys(t, b, d, found, a, p);
      PlanChargeBuys(t, b, d, found, a, p);
      assert BuysAt(t, h, i, account, p, SubFor(b, found));
    } else if found.None? {
      UnknownChargeIgnored(t, b, d);
    } else {
      MonthChargeExactly(t, b, d, found.value);
      var s: nat, end: RealDate :| BuysMonth(t, b, d, found.value, s, end);
      MonthChargeBuys(t, b, d, found.value, s, end);
      assert BuysMonthAt(t, h, i, account, s);
    }
  }

  /** An account leaves its plan only by an exact payment of its own, or on the day after one of its
      subscriptions ended. */
  lemma PlanIsLeft(t: Alphabet, h: History, i: nat, account: nat, planId: string)
    requires h.Valid(t) && i < |h.calls| && OnPlan(h.states[i], account, planId)
    requires !OnPlan(h.states[i + 1], account, planId)
    ensures || (exists p, s :: BuysAt(t, h, i, account, p, s))
            || (exists s :: BuysMonthAt(t, h, i, account, s))
            || (h.calls[i].Expire? && RunsOut(h.states[i], account))
  {
    hide Next, Reconcile, ChargeIn, Names;
    var b, a := h.states[i], h.calls[i];
    assert h.Follows(t, i);
    if ChargeIn(b, a).None? {
      AlwaysLinked(t, h, i);
      QuietLeavesPlan(t, b, a, account, planId);
    } else {
      hide Linked;
      var d := ChargeIn(b, a).value;
      ChargeMoves(t, h, i, d);
      ChargeLeavesPlan(t, h, i, d, CheckoutOf(b, d), account, planId);
    }
  }
}
