/** Payments that recover a past-due subscription: how far each extends it, and where many of them end. */
module RecoveryTheorems {
  import opened Wrappers
  import opened Text
  import opened Calendar
  import opened Payments
  import opened PaymentTheorems

  // ---- Recovery payments ----

  /** The charge is an accepted payment of recovery checkout c for subscription s, which still has a
      next month in the calendar. */
  ghost predicate PaysRecovery(t: Alphabet, b: Books, d: Charge, c: nat, s: nat) {
    && !d.hasPlan && CheckoutOf(b, d) == Some(c)
    && b.checkouts[c].kind == ForRecovery && b.checkouts[c].recovery == Some(s) && s in b.subs
    && b.checkouts[c].planId in PLAN_PRICES
    && ChargeFits(t, Some(b.checkouts[c].reference), ExpectedAmount(b.checkouts[c].planId).value, d)
    && AddOneMonth(PeriodBase(b, s)).Some?
  }

  /** A recovery payment moves the subscription on by one month from the end of its period, exactly when
      its recovery is not already in force; else it changes nothing. */
  lemma RecoveryExtendsExactly(t: Alphabet, b: Books, d: Charge, c: nat, s: nat)
    requires PaysRecovery(t, b, d, c, s)
    ensures var after := Reconcile(t, b, d).books;
      if RecoveryApplied(b, c, s) then after == b else
      && s in after.subs && after.subs[s].status == SubActive
      && after.subs[s].periodStart == Some(PeriodBase(b, s))
      && after.subs[s].periodEnd == AddOneMonth(PeriodBase(b, s))
      && after.subs - {s} == b.subs - {s}
  {
    hide ChargeFits, AddOneMonth;
  }

  /** Delivered twice in a row, it still extends the period by one month only. */
  lemma RecoveryTwiceExtendsOnce(t: Alphabet, b: Books, d: Charge, c: nat, s: nat)
    requires Linked(b) && PaysRecovery(t, b, d, c, s) && !RecoveryApplied(b, c, s)
    ensures var after := Reconcile(t, Reconcile(t, b, d).books, d).books;
      s in after.subs && after.subs[s].periodEnd == AddOneMonth(PeriodBase(b, s))
  {
    hide Linked, Reconcile, PaysRecovery, RecoveryApplied;
    RecoveryExtendsExactly(t, b, d, c, s);
    TwiceIsOnce(t, b, d);
    PaidIsNotStray(t, b, d, c, s);
  }

  lemma PaidIsNotStray(t: Alphabet, b: Books, d: Charge, c: nat, s: nat)
    requires PaysRecovery(t, b, d, c, s)
    ensures !Stray(t, b, d)
  {
  }

  /** With a failed renewal in between, the same recovery charge extends the period once more. */
  lemma FailedRenewalAllowsAnother(t: Alphabet, b: Books, d: Charge, c: nat, s: nat, e: PaystackEvent)
    requires Linked(b) && PaysRecovery(t, b, d, c, s) && !RecoveryApplied(b, c, s)
    requires var b1 := Reconcile(t, b, d).books;
      e.InvoicePaymentFailed? && SubByProviderId(b1, e.providerId) == Some(s)
    requires AddMonths(PeriodBase(b, s), 2).Some?
    ensures var b1 := Reconcile(t, b, d).books;
      var after := Reconcile(t, OnPaymentFailed(b1, e), d).books;
      s in after.subs && after.subs[s].periodEnd == AddMonths(PeriodBase(b, s), 2)
  {
    hide ChargeFits, Reconcile, AddOneMonth, CheckoutByRef;
    var b1 := Reconcile(t, b, d).books;
    RecoveryExtendsExactly(t, b, d, c, s);
    PaidKeepsCheckout(t, b, d, c, s);
    var b2 := OnPaymentFailed(b1, e);
    assert b2.checkouts == b1.checkouts && b2.subs[s].periodEnd == b1.subs[s].periodEnd;
    TwoMonths(PeriodBase(b, s));
    RecoveryExtendsExactly(t, b2, d, c, s);
  }

  lemma TwoMonths(d: RealDate)
    requires AddMonths(d, 2).Some?
    ensures AddOneMonth(d).Some? && AddMonths(d, 2) == AddOneMonth(AddOneMonth(d).value)
  {
    assert AddMonths(d, 1) == AddOneMonth(d);
  }

  lemma PaidKeepsCheckout(t: Alphabet, b: Books, d: Charge, c: nat, s: nat)
    requires Linked(b) && PaysRecovery(t, b, d, c, s)
    ensures var b1 := Reconcile(t, b, d).books;
      && CheckoutOf(b1, d) == Some(c)
      && b1.checkouts[c] == b.checkouts[c].(status := b1.checkouts[c].status, activated := b1.checkouts[c].activated)
  {
    ReconcileKeepsCheckouts(t, b, d);
    hide ChargeFits, AddOneMonth, CheckoutByRef;
  }

  // ---- Recovery payments in a run ----

  function PeriodStart(b: Books, s: nat): Option<RealDate> {
    if s in b.subs then b.subs[s].periodStart else None
  }

  function PeriodEnd(b: Books, s: nat): Option<RealDate> {
    if s in b.subs then b.subs[s].periodEnd else None
  }

  /** The call delivers an accepted recovery payment for s through checkout c, not in force yet. */
  ghost predicate Extends(t: Alphabet, b: Books, a: Call, c: nat, s: nat) {
    && ChargeIn(b, a).Some? && PaysRecovery(t, b, ChargeIn(b, a).value, c, s) && !RecoveryApplied(b, c, s)
  }

  /** The call lets the provider set a subscription's period. */
  predicate ProviderSetsPeriod(b: Books, a: Call) {
    && a.Run? && EventOf(b, a.worker).Some?
    && (EventOf(b, a.worker).value.SubscriptionCreate? || EventOf(b, a.worker).value.InvoiceUpdate?)
  }

  lemma PaidIsApplied(t: Alphabet, b: Books, d: Charge, c: nat, s: nat)
    requires Linked(b) && PaysRecovery(t, b, d, c, s)
    ensures Reconcile(t, b, d).verdict in {Applied, AlreadyApplied}
    ensures var after := Reconcile(t, b, d).books;
      c in after.checkouts && s in after.subs && RecoveryApplied(after, c, s)
  {
    hide ChargeFits, AddOneMonth, CheckoutByRef;
    assert CheckoutLinked(b, c, b.checkouts[c]);
  }

  lemma LogIsNotRecovery(b: Books, c: nat, s: nat, log: Log)
    requires c in b.checkouts && s in b.subs
    ensures RecoveryApplied(b.(log := log), c, s) == RecoveryApplied(b, c, s)
  {
  }

  lemma ExtendingMoves(t: Alphabet, b: Books, a: Call, c: nat, s: nat)
    requires Linked(b) && Extends(t, b, a, c, s)
    ensures var after := Next(t, b, a);
      && s in b.subs && s in after.subs && PeriodStart(after, s) == Some(PeriodBase(b, s))
      && PeriodEnd(after, s).Some? && PeriodEnd(after, s) == AddOneMonth(PeriodBase(b, s))
      && c in after.checkouts && RecoveryApplied(after, c, s)
  {
    var d := ChargeIn(b, a).value;
    ChargeCall(t, b, a, d);
    RecoveryExtendsExactly(t, b, d, c, s);
    PaidIsApplied(t, b, d, c, s);
    hide Next, Reconcile, RecoveryApplied, ChargeIn, AddOneMonth, Linked, ChargeFits;
    LogIsNotRecovery(Reconcile(t, b, d).books, c, s, Next(t, b, a).log);
  }

  predicate SamePeriod(b: Books, after: Books, s: nat) {
    PeriodStart(after, s) == PeriodStart(b, s) && PeriodEnd(after, s) == PeriodEnd(b, s)
  }

  lemma PlanMovesNoPeriod(t: Alphabet, b: Books, d: Charge, s: nat)
    requires Linked(b) && d.hasPlan
    ensures SamePeriod(b, Reconcile(t, b, d).books, s)
  {
    hide ChargeFits, CheckoutByRef, ReconcileRecovery;
  }

  lemma RecoveryMovesPeriod(t: Alphabet, b: Books, d: Charge, c: nat, s: nat)
    requires !d.hasPlan && CheckoutOf(b, d) == Some(c)
    ensures SamePeriod(b, ReconcileRecovery(t, b, d, c).books, s)
      || (PaysRecovery(t, b, d, c, s) && !RecoveryApplied(b, c, s))
  {
    hide ChargeFits, AddOneMonth, CheckoutByRef, RecoveryApplied;
  }

  /** A charge moves a period only as an accepted recovery payment that is not in force yet. */
  lemma ChargeMovesPeriod(t: Alphabet, b: Books, d: Charge, s: nat)
    requires Linked(b)
    ensures var after := Reconcile(t, b, d).books;
      SamePeriod(b, after, s)
      || (CheckoutOf(b, d).Some? && PaysRecovery(t, b, d, CheckoutOf(b, d).value, s)
          && !RecoveryApplied(b, CheckoutOf(b, d).value, s))
  {
    hide ReconcileRecovery, PaysRecovery, RecoveryApplied, CheckoutByRef, Activate, ChargeFits;
    if d.hasPlan {
      PlanMovesNoPeriod(t, b, d, s);
    } else if CheckoutOf(b, d).Some? {
      RecoveryMovesPeriod(t, b, d, CheckoutOf(b, d).value, s);
    }
  }

  lemma EventMovesPeriod(t: Alphabet, b: Books, e: PaystackEvent, s: nat)
    requires !e.ChargeSuccess? && !e.SubscriptionCreate? && !e.InvoiceUpdate?
    ensures SamePeriod(b, Handle(t, b, e).0, s)
  {
    hide SubByProviderId, SubByEmail;
  }

  lemma QuietPeriod(t: Alphabet, b: Books, a: Call, s: nat)
    requires ChargeIn(b, a).None? && !ProviderSetsPeriod(b, a)
    ensures SamePeriod(b, Next(t, b, a), s)
  {
    hide Handle, Reconcile, CheckoutByRef, HasOpenCheckout, Lapsed;
    if a.Run? && EventOf(b, a.worker).Some? {
      EventMovesPeriod(t, b, EventOf(b, a.worker).value, s);
    }
  }

  /** What moves a period: the provider, or an accepted recovery payment by its month. */
  lemma PeriodMoves(t: Alphabet, b: Books, a: Call, s: nat)
    requires Linked(b) && !ProviderSetsPeriod(b, a)
    ensures SamePeriod(b, Next(t, b, a), s) || exists c :: Extends(t, b, a, c, s)
  {
    if ChargeIn(b, a).None? {
      QuietPeriod(t, b, a, s);
    } else {
      var d := ChargeIn(b, a).value;
      ChargeCall(t, b, a, d);
      ChargeMovesPeriod(t, b, d, s);
      hide Next, Reconcile, Linked, PaysRecovery, RecoveryApplied, ChargeIn;
      if !SamePeriod(b, Reconcile(t, b, d).books, s) {
        assert Extends(t, b, a, CheckoutOf(b, d).value, s);
      }
    }
  }

  /** Step i of the run extends the period of s by a recovery payment. */
  ghost predicate ExtendsAt(t: Alphabet, h: History, s: nat, i: nat)
    requires |h.states| == |h.calls| + 1 && i < |h.calls|
  {
    exists c :: Extends(t, h.states[i], h.calls[i], c, s)
  }

  /** How many steps from i to n extend the period. */
  ghost function Extensions(t: Alphabet, h: History, s: nat, i: nat, n: nat): nat
    requires |h.states| == |h.calls| + 1 && i <= n <= |h.calls|
  {
    if n == i then 0 else Extensions(t, h, s, i, n - 1) + if ExtendsAt(t, h, s, n - 1) then 1 else 0
  }

  ghost predicate LeftByProvider(h: History, i: nat, n: nat)
    requires |h.states| == |h.calls| + 1 && i <= n <= |h.calls|
  {
    forall k :: i <= k < n ==> !ProviderSetsPeriod(h.states[k], h.calls[k])
  }

  lemma ExtendsAtMoves(t: Alphabet, h: History, s: nat, i: nat)
    requires h.Valid(t) && i < |h.calls| && ExtendsAt(t, h, s, i)
    ensures s in h.states[i].subs
    ensures PeriodStart(h.states[i + 1], s) == Some(PeriodBase(h.states[i], s))
    ensures PeriodEnd(h.states[i + 1], s).Some?
    ensures PeriodEnd(h.states[i + 1], s) == AddOneMonth(PeriodBase(h.states[i], s))
  {
    hide Next, Linked, Extends, AddOneMonth;
    AlwaysLinked(t, h, i);
    assert h.Follows(t, i);
    var c :| Extends(t, h.states[i], h.calls[i], c, s);
    ExtendingMoves(t, h.states[i], h.calls[i], c, s);
  }

  lemma PeriodMovesAt(t: Alphabet, h: History, s: nat, i: nat)
    requires h.Valid(t) && i < |h.calls|
    requires !ProviderSetsPeriod(h.states[i], h.calls[i]) && !ExtendsAt(t, h, s, i)
    ensures SamePeriod(h.states[i], h.states[i + 1], s)
  {
    hide Next, Linked, Extends, ProviderSetsPeriod, SamePeriod;
    AlwaysLinked(t, h, i);
    assert h.Follows(t, i);
    PeriodMoves(t, h.states[i], h.calls[i], s);
  }

  /** While the provider sets no period, the recovery payments of a run add their months one after the
      other: from the first on, the period ends as many months after the day that one extended from as
      payments were accepted. */
  lemma {:induction false} PaymentsAddMonths(t: Alphabet, h: History, s: nat, i: nat, n: nat)
    requires h.Valid(t) && i < n <= |h.calls| && ExtendsAt(t, h, s, i) && LeftByProvider(h, i, n)
    ensures s in h.states[i].subs && Extensions(t, h, s, i, n) > 0 && PeriodEnd(h.states[n], s).Some?
    ensures PeriodEnd(h.states[n], s) == AddMonths(PeriodBase(h.states[i], s), Extensions(t, h, s, i, n))
  {
    hide Next, ExtendsAt, AddOneMonth, ProviderSetsPeriod;
    if n == i + 1 {
      ExtendsAtMoves(t, h, s, i);
      assert AddMonths(PeriodBase(h.states[i], s), 1) == AddOneMonth(PeriodBase(h.states[i], s));
    } else {
      PaymentsAddMonths(t, h, s, i, n - 1);
      if ExtendsAt(t, h, s, n - 1) {
        ExtendsAtMoves(t, h, s, n - 1);
      } else {
        PeriodMovesAt(t, h, s, n - 1);
      }
    }
  }

  /** Each of those payments starts its period on the day the one before ended. */
  lemma PeriodsMeet(t: Alphabet, h: History, s: nat, i: nat, k: nat)
    requires h.Valid(t) && i < k < |h.calls| && LeftByProvider(h, i, k)
    requires ExtendsAt(t, h, s, i) && ExtendsAt(t, h, s, k)
    ensures PeriodStart(h.states[k + 1], s).Some? && PeriodStart(h.states[k + 1], s) == PeriodEnd(h.states[k], s)
  {
    hide Next, ExtendsAt, AddOneMonth, ProviderSetsPeriod, AddMonths;
    PaymentsAddMonths(t, h, s, i, k);
    ExtendsAtMoves(t, h, s, k);
  }

  /** Where the period ends then: that many calendar months on, 28 to 31 days each, on the day the first
      payment extended from or, where a month landed in was shorter, on the shortest one's last. */
  lemma PaymentsLand(t: Alphabet, h: History, s: nat, i: nat, n: nat)
    requires h.Valid(t) && i < n <= |h.calls| && ExtendsAt(t, h, s, i) && LeftByProvider(h, i, n)
    ensures s in h.states[i].subs && PeriodEnd(h.states[n], s).Some?
    ensures var base, end, k :=
        PeriodBase(h.states[i], s), PeriodEnd(h.states[n], s).value, Extensions(t, h, s, i, n);
      && MonthIndex(end) == MonthIndex(base) + k
      && end.day == Min(base.day, ShortestLanded(MonthIndex(base), k))
      && 28 * k <= Ordinal(end) - Ordinal(base) <= 31 * k
  {
    PaymentsAddMonths(t, h, s, i, n);
    hide Next, ExtendsAt, Ordinal, MonthIndex, ShortestLanded, AddMonths;
    var base, k := PeriodBase(h.states[i], s), Extensions(t, h, s, i, n);
    AddMonthsLands(base, k);
    AddMonthsLength(base, k);
  }

  // ---- Two months through one checkout ----

  ghost predicate InForce(b: Books, c: nat, s: nat) {
    c in b.checkouts && s in b.subs && RecoveryApplied(b, c, s)
  }

  /** The calls that can undo a recovery in force: an event that is neither an accepted payment of it nor
      a paid invoice, a poll with an answer of that kind, and the daily task. */
  ghost predicate MayUndo(t: Alphabet, b: Books, a: Call, c: nat, s: nat) {
    && (ChargeIn(b, a).Some? ==> !PaysRecovery(t, b, ChargeIn(b, a).value, c, s))
    && match a
       case Run(worker) =>
         var e := EventOf(b, worker);
         e.Some? && !e.value.InvoiceUpdate? && !e.value.OtherEvent?
       case PollStatus(_, _, remote) => !remote.NoAnswer? && !remote.StillOpen?
       case Expire => true
       case _ => false
  }

  lemma PaidAgainStays(t: Alphabet, b: Books, a: Call, c: nat, s: nat)
    requires Linked(b) && InForce(b, c, s)
    requires ChargeIn(b, a).Some? && PaysRecovery(t, b, ChargeIn(b, a).value, c, s)
    ensures InForce(Next(t, b, a), c, s)
  {
    var d := ChargeIn(b, a).value;
    ChargeCall(t, b, a, d);
    PaidIsApplied(t, b, d, c, s);
    hide Next, Reconcile, RecoveryApplied, ChargeIn, PaysRecovery;
    LogIsNotRecovery(Reconcile(t, b, d).books, c, s, Next(t, b, a).log);
  }

  lemma InvoiceKeepsRecovery(b: Books, e: PaystackEvent, c: nat, s: nat)
    requires InForce(b, c, s) && e.InvoiceUpdate?
    ensures InForce(OnInvoiceUpdate(b, e), c, s)
  {
    hide SubByProviderId;
  }

  lemma RunKeepsRecovery(t: Alphabet, b: Books, worker: nat, c: nat, s: nat)
    requires InForce(b, c, s) && ChargeIn(b, Run(worker)).None? && !MayUndo(t, b, Run(worker), c, s)
    ensures InForce(RunEvent(t, b, worker), c, s)
  {
    hide OnInvoiceUpdate;
    if EventOf(b, worker).Some? && EventOf(b, worker).value.InvoiceUpdate? {
      InvoiceKeepsRecovery(b, EventOf(b, worker).value, c, s);
    }
  }

  lemma OtherKeepsRecovery(t: Alphabet, b: Books, a: Call, c: nat, s: nat)
    requires Linked(b) && InForce(b, c, s) && !MayUndo(t, b, a, c, s) && !a.Run? && ChargeIn(b, a).None?
    ensures InForce(Next(t, b, a), c, s)
  {
    hide PaysRecovery, Reconcile, CheckoutByRef, CurrentSub, HasOpenCheckout, Lapsed, RunEvent;
    assert c < b.nextPk && b.checkouts[c].account < b.nextPk by {
      assert CheckoutLinked(b, c, b.checkouts[c]);
    }
    hide Linked;
  }

  lemma KeptUnlessUndone(t: Alphabet, b: Books, a: Call, c: nat, s: nat)
    requires Linked(b) && InForce(b, c, s) && !MayUndo(t, b, a, c, s)
    ensures InForce(Next(t, b, a), c, s)
  {
    hide Linked, InForce, PaysRecovery, RunEvent;
    if ChargeIn(b, a).Some? {
      ChargesMayUndo(t, b, a, c, s);
      PaidAgainStays(t, b, a, c, s);
    } else if a.Run? {
      RunKeepsRecovery(t, b, a.worker, c, s);
    } else {
      OtherKeepsRecovery(t, b, a, c, s);
    }
  }

  lemma ChargesMayUndo(t: Alphabet, b: Books, a: Call, c: nat, s: nat)
    requires ChargeIn(b, a).Some? && !MayUndo(t, b, a, c, s)
    ensures PaysRecovery(t, b, ChargeIn(b, a).value, c, s)
  {
    hide PaysRecovery;
  }

  lemma {:induction false} UndoneBetween(t: Alphabet, h: History, c: nat, s: nat, i: nat, j: nat)
    returns (k: nat)
    requires h.Valid(t) && i < j <= |h.calls| && InForce(h.states[i], c, s) && !InForce(h.states[j], c, s)
    ensures i <= k < j && InForce(h.states[k], c, s) && !InForce(h.states[k + 1], c, s)
    ensures MayUndo(t, h.states[k], h.calls[k], c, s)
  {
    hide Next, InForce, MayUndo, Linked;
    if InForce(h.states[j - 1], c, s) {
      k := j - 1;
      AlwaysLinked(t, h, k);
      assert h.Follows(t, k);
      if !MayUndo(t, h.states[k], h.calls[k], c, s) {
        KeptUnlessUndone(t, h.states[k], h.calls[k], c, s);
      }
    } else {
      k := UndoneBetween(t, h, c, s, i, j - 1);
    }
  }

  lemma ExtendsAnew(t: Alphabet, b: Books, a: Call, c: nat, s: nat)
    requires Extends(t, b, a, c, s)
    ensures !InForce(b, c, s)
  {
    hide PaysRecovery;
  }

  /** One recovery checkout pays for a second month only after something other than its own payments
      undid the first, whatever workers and polls deliver its charge in between. */
  lemma SecondMonthNeedsUndoing(t: Alphabet, h: History, c: nat, s: nat, i: nat, j: nat) returns (k: nat)
    requires h.Valid(t) && i < j < |h.calls|
    requires Extends(t, h.states[i], h.calls[i], c, s) && Extends(t, h.states[j], h.calls[j], c, s)
    ensures i < k < j && InForce(h.states[k], c, s) && !InForce(h.states[k + 1], c, s)
    ensures MayUndo(t, h.states[k], h.calls[k], c, s)
  {
    hide Next, MayUndo, Linked, Extends;
    AlwaysLinked(t, h, i);
    assert h.Follows(t, i);
    ExtendingMoves(t, h.states[i], h.calls[i], c, s);
    ExtendsAnew(t, h.states[j], h.calls[j], c, s);
    k := UndoneBetween(t, h, c, s, i + 1, j);
  }
}
