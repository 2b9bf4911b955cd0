/** Two runs of the payment service: a charge without a checkout that makes two subscriptions, and a
    recovery payment that adds two months. */
module PaymentRuns {
  import opened Wrappers
  import opened Text
  import opened Calendar
  import opened Payments
  import opened Histories
  import opened PaymentTheorems
  import opened EventTheorems
  import opened RecoveryTheorems

  // ---- Building a run ----

  function Empty(today: RealDate): Books {
    Books(today, 0, map[], map[], map[], map[], Log(map[], map[]))
  }

  lemma Start(t: Alphabet, today: RealDate) returns (h: History)
    ensures h.Valid(t) && h.calls == [] && Last(h) == Empty(today)
  {
    h := History([Empty(today)], []);
  }

  /** What a worker has before it when it runs the handler of a new event. */
  function Taken(b: Books, id: string, e: PaystackEvent): Books {
    b.(log := Log(b.log.rows[id := EventRow(e, false, false)], map[0 := Fetched(id)]))
  }

  lemma TakeUp(t: Alphabet, h: History, id: string, e: PaystackEvent) returns (after: History)
    requires h.Valid(t) && id !in Last(h).log.rows && Last(h).log.running == map[]
    ensures after.Valid(t) && Prolongs(h, after) && |after.calls| == |h.calls| + 2
    ensures Last(after) == Taken(Last(h), id, e)
  {
    after := Do(t, h, Receive(id, e));
    after := Do(t, after, Fetch(0, id));
  }

  /** A webhook event is received and one worker handles it. */
  lemma Deliver(t: Alphabet, h: History, id: string, e: PaystackEvent) returns (after: History)
    requires h.Valid(t) && id !in Last(h).log.rows && Last(h).log.running == map[]
    requires !Handle(t, Taken(Last(h), id, e), e).1
    ensures after.Valid(t) && Prolongs(h, after) && |after.calls| == |h.calls| + 4
    ensures after.calls[|h.calls| + 2] == Run(0) && after.states[|h.calls| + 2] == Taken(Last(h), id, e)
    ensures Last(after) == Handle(t, Taken(Last(h), id, e), e).0.(
      log := Log(Last(h).log.rows[id := EventRow(e, true, false)], map[]))
  {
    hide Handle;
    var taken := TakeUp(t, h, id, e);
    var ran := Do(t, taken, Call.Run(0));
    after := Do(t, ran, Mark(0));
  }

  // ---- A charge without a checkout, two workers ----

  const EMAIL := "ama@example.com"

  function Plain(reference: string, hasPlan: bool, account: Option<nat>, planId: string): Charge {
    Charge(reference, hasPlan, if hasPlan then "PLN_1" else "", account, planId, "CUS_1", EMAIL, 7900, "GHS")
  }

  /** A charge that names an account and a plan, on a reference of no checkout. */
  function Unknown(): Charge {
    Plain("T1", true, Some(0), "personal_plus")
  }

  lemma CurrencyFits(t: Alphabet, reference: string)
    requires Trimmed(t, reference)
    ensures Strip(t, reference) == reference
    ensures Strip(t, Upper(t, "GHS")) == "GHS"
  {
    StripOfTrimmed(t, reference);
    UpperUnchanged(t, "GHS");
    StripOfTrimmed(t, "GHS");
  }

  lemma UnknownIsStray(t: Alphabet, b: Books)
    requires b.checkouts == map[] && 0 in b.accounts
    ensures Stray(t, b, Unknown())
  {
    hide Strip, Upper;
    CurrencyFits(t, "");
  }

  /** A stray charge adds a subscription under the next key. */
  lemma StrayAdds(t: Alphabet, b: Books, d: Charge)
    requires Stray(t, b, d)
    ensures var after := Reconcile(t, b, d).books;
      && Reconcile(t, b, d).verdict == Applied
      && after.subs == b.subs[b.nextPk := NewSub(b, d, d.account.value, d.planId, SubActive)]
      && after.nextPk == b.nextPk + 1 && after.checkouts == b.checkouts
      && after.accounts == PlanSwitched(b.accounts, d.account.value, d.planId)
      && after.log == b.log
  {
    hide ChargeFits, CheckoutByRef;
  }

  /** Two workers read the event before either is done with it. */
  lemma TwoWorkers(t: Alphabet) returns (h: History)
    ensures h.Valid(t) && |h.calls| == 4 && Last(h).subs == map[] && Last(h).checkouts == map[]
    ensures Last(h).nextPk == 1 && Last(h).accounts == map[0 := Account(BASIC_PLAN, EMAIL)]
    ensures Last(h).log == Log(map["E1" := EventRow(ChargeSuccess(Unknown()), false, false)],
                               map[0 := Fetched("E1"), 1 := Fetched("E1")])
  {
    hide Handle;
    h := Start(t, Date(2024, 1, 31));
    h := Do(t, h, Register(EMAIL));
    h := Do(t, h, Receive("E1", ChargeSuccess(Unknown())));
    h := Do(t, h, Fetch(0, "E1"));
    h := Do(t, h, Fetch(1, "E1"));
  }

  lemma WorkerRuns(t: Alphabet, b: Books, worker: nat)
    requires b.checkouts == map[] && 0 in b.accounts && EventOf(b, worker) == Some(ChargeSuccess(Unknown()))
    ensures var after := RunEvent(t, b, worker);
      && after.subs == b.subs[b.nextPk := NewSub(b, Unknown(), 0, "personal_plus", SubActive)]
      && after.nextPk == b.nextPk + 1 && after.checkouts == map[]
      && after.accounts == PlanSwitched(b.accounts, 0, "personal_plus")
      && after.log == b.log.(running := b.log.running[worker := Ran(b.log.running[worker].id, false)])
  {
    hide Reconcile, Stray;
    UnknownIsStray(t, b);
    StrayAdds(t, b, Unknown());
  }

  function Bought(): Subscription {
    Subscription(0, "personal_plus", "PLN_1", EMAIL, "CUS_1", "", SubActive, None, None, false, None)
  }

  lemma BothRun(t: Alphabet) returns (h: History)
    ensures h.Valid(t) && Last(h).checkouts == map[] && Last(h).subs == map[1 := Bought(), 2 := Bought()]
    ensures Last(h).log.running == map[0 := Ran("E1", false), 1 := Ran("E1", false)]
    ensures Last(h).log.rows == map["E1" := EventRow(ChargeSuccess(Unknown()), false, false)]
  {
    hide RunEvent, Reconcile;
    h := TwoWorkers(t);
    WorkerRuns(t, Last(h), 0);
    h := Do(t, h, Run(0));
    WorkerRuns(t, Last(h), 1);
    h := Do(t, h, Run(1));
  }

  /** One charge without a checkout, received once as one event: two workers that overlap make two active
      subscriptions of it. */
  lemma StrayRun(t: Alphabet) returns (h: History)
    ensures h.Valid(t) && Last(h).log.rows.Keys == {"E1"} && IsProcessed(Last(h), "E1")
    ensures Last(h).checkouts == map[] && ActiveSubs(Last(h), 0) == {1, 2}
    ensures Last(h).subs == map[1 := Bought(), 2 := Bought()]
  {
    h := BothRun(t);
    h := Do(t, h, Mark(0));
    h := Do(t, h, Mark(1));
  }

  // ---- A worker that is lost ----

  /** No worker but the first was ever busy. */
  ghost predicate OneWorker(h: History) {
    h.states != [] && forall b <- h.states :: b.log.running.Keys <= {0}
  }

  lemma DoAlone(t: Alphabet, h: History, a: Call) returns (after: History)
    requires h.Valid(t) && OneWorker(h) && Next(t, Last(h), a).log.running.Keys <= {0}
    ensures after.Valid(t) && OneWorker(after) && after.calls == h.calls + [a] && Last(after) == Next(t, Last(h), a)
  {
    hide Next;
    after := Do(t, h, a);
    forall b | b in after.states ensures b.log.running.Keys <= {0} {
      var i :| 0 <= i < |after.states| && after.states[i] == b;
      assert i < |h.states| ==> b == h.states[i] && b in h.states;
      assert i >= |h.states| ==> b == Last(after);
    }
  }

  /** One worker has read the event, and its row alone is in the log. */
  ghost predicate FirstReads(b: Books) {
    && b.checkouts == map[] && 0 in b.accounts
    && b.log == Log(map["E1" := EventRow(ChargeSuccess(Unknown()), false, false)], map[0 := Fetched("E1")])
  }

  lemma ReadAlone(t: Alphabet) returns (h: History)
    ensures h.Valid(t) && OneWorker(h) && |h.calls| == 3 && Last(h).subs == map[] && Last(h).nextPk == 1
    ensures Last(h).accounts == map[0 := Account(BASIC_PLAN, EMAIL)] && FirstReads(Last(h))
  {
    hide Handle;
    h := Start(t, Date(2024, 1, 31));
    h := DoAlone(t, h, Register(EMAIL));
    h := DoAlone(t, h, Receive("E1", ChargeSuccess(Unknown())));
    h := DoAlone(t, h, Fetch(0, "E1"));
  }

  /** The worker is lost after its handler ran, and the event is read again. */
  lemma LostAndRead(t: Alphabet) returns (h: History)
    ensures h.Valid(t) && OneWorker(h) && |h.calls| == 6 && FirstReads(Last(h))
    ensures Last(h).subs == map[1 := Bought()] && Last(h).nextPk == 2
    ensures Last(h).accounts == map[0 := Account("personal_plus", EMAIL)]
  {
    hide RunEvent;
    h := ReadAlone(t);
    WorkerRuns(t, Last(h), 0);
    h := DoAlone(t, h, Run(0));
    h := DoAlone(t, h, Lose(0));
    h := DoAlone(t, h, Fetch(0, "E1"));
  }

  lemma AloneIsNoOverlap(h: History, id: string)
    requires OneWorker(h)
    ensures forall b <- h.states :: !Overlaps(b, id)
  {
    forall b | b in h.states ensures !Overlaps(b, id) {
      assert b.log.running.Keys <= {0};
    }
  }

  /** Without any two workers on the event at once: a worker is lost between the handler and the mark, and the
      event, read again, makes a second active subscription of the one charge. */
  lemma LostWorkerRun(t: Alphabet) returns (h: History)
    ensures h.Valid(t) && IsProcessed(Last(h), "E1") && Last(h).log.rows.Keys == {"E1"}
    ensures forall b <- h.states :: !Overlaps(b, "E1")
    ensures Last(h).checkouts == map[] && ActiveSubs(Last(h), 0) == {1, 2}
    ensures Last(h).subs == map[1 := Bought(), 2 := Bought()]
  {
    hide RunEvent, Overlaps;
    h := LostAndRead(t);
    WorkerRuns(t, Last(h), 0);
    h := DoAlone(t, h, Run(0));
    h := DoAlone(t, h, Mark(0));
    AloneIsNoOverlap(h, "E1");
  }

  // ---- Two months for one recovery payment ----

  predicate Holding(b: Books, nextPk: nat, plan: string, subs: map<nat, Subscription>, checkouts: map<nat, Checkout>) {
    b.nextPk == nextPk && b.accounts == map[0 := Account(plan, EMAIL)] && b.subs == subs && b.checkouts == checkouts
  }

  function Member(status: SubStatus, start: RealDate, end: RealDate): map<nat, Subscription> {
    map[2 := Bought().(providerId := "SUB_1", status := status, periodStart := Some(start), periodEnd := Some(end))]
  }

  function FirstCheckout(status: CheckoutStatus, activated: Option<nat>): Checkout {
    Checkout(0, "R1", "personal_plus", ForSubscription, status, None, activated, None)
  }

  function RecoveryCheckout(status: CheckoutStatus, activated: Option<nat>): Checkout {
    Checkout(0, "R2", "personal_plus", ForRecovery, status, None, activated, Some(2))
  }

  const JANUARY: RealDate := Date(2024, 1, 31)
  const FEBRUARY: RealDate := Date(2024, 2, 29)
  const MARCH: RealDate := Date(2024, 3, 29)
  const APRIL: RealDate := Date(2024, 4, 29)

  lemma OnlyOne(keys: set<nat>, k: nat)
    requires keys == {k}
    ensures Newest(keys) == Some(k)
  {
  }

  lemma Subscribes(b: Books)
    requires Holding(b, 1, BASIC_PLAN, map[], map[])
    ensures var after := Initiate(b, 0, "personal_plus", "R1", true);
      after.Some? && after.value.log == b.log
      && Holding(after.value, 2, BASIC_PLAN, map[], map[1 := FirstCheckout(CheckoutPending, None)])
  {
    assert (set s | s in b.subs && b.subs[s].account == 0 && b.subs[s].status in CURRENT_STATUSES) == {};
  }

  lemma FirstCharge(t: Alphabet, b: Books)
    requires Holding(b, 2, BASIC_PLAN, map[], map[1 := FirstCheckout(CheckoutPending, None)])
    ensures var r := Reconcile(t, b, Plain("R1", true, None, ""));
      r.verdict == Applied
      && Holding(r.books, 3, "personal_plus", map[2 := Bought()], map[1 := FirstCheckout(Charged, Some(2))])
  {
    hide Strip, Upper;
    assert b.checkouts[1].reference == "R1";
    assert Trimmed(t, "R1");
    CurrencyFits(t, "R1");
  }

  lemma Created(b: Books)
    requires Holding(b, 3, "personal_plus", map[2 := Bought()], map[1 := FirstCheckout(Charged, Some(2))])
    ensures Holding(OnSubscriptionCreate(b, SubscriptionCreate("SUB_1", "CUS_1", EMAIL, Some(JANUARY), Some(FEBRUARY))),
                    3, "personal_plus", Member(SubActive, JANUARY, FEBRUARY),
                    map[1 := FirstCheckout(ProviderCreated, Some(2))])
  {
    OnlyOne(set s | s in b.subs && b.subs[s].customerCode == "CUS_1"
              && b.subs[s].providerId == "" && b.subs[s].status != SubReplaced, 2);
    OnlyOne(set c | c in b.checkouts && b.checkouts[c].activated == Some(2), 1);
    assert CreatedSub(b, "CUS_1", EMAIL) == Some(2);
    hide CreatedSub;
    assert forall subs :: CheckoutOfSub(b.(subs := subs), 2, EMAIL) == Some(1);
  }

  function RenewalFailed(reference: string): PaystackEvent {
    InvoicePaymentFailed("SUB_1", EMAIL, reference, 7900, "GHS")
  }

  lemma Fails(b: Books, start: RealDate, end: RealDate, checkouts: map<nat, Checkout>, reference: string)
    requires Holding(b, b.nextPk, "personal_plus", Member(SubActive, start, end), checkouts)
    ensures Holding(OnPaymentFailed(b, RenewalFailed(reference)),
                    b.nextPk, "personal_plus", Member(SubPastDue, start, end), checkouts)
  {
    OnlyOne(set s | s in b.subs && b.subs[s].providerId == "SUB_1" && b.subs[s].status != SubReplaced, 2);
  }

  lemma Owes(b: Books)
    requires Holding(b, 3, "personal_plus", Member(SubPastDue, JANUARY, FEBRUARY),
                     map[1 := FirstCheckout(ProviderCreated, Some(2))])
    ensures var after := InitiateRecovery(b, 0, "personal_plus", "R2", true);
      after.Some? && after.value.log == b.log
      && Holding(after.value, 4, "personal_plus", Member(SubPastDue, JANUARY, FEBRUARY),
                 map[1 := FirstCheckout(ProviderCreated, Some(2)), 3 := RecoveryCheckout(CheckoutPending, None)])
  {
    OnlyOne(set s | s in b.subs && b.subs[s].account == 0 && b.subs[s].status in CURRENT_STATUSES, 2);
  }

  function Recovery(): Charge {
    Plain("R2", false, None, "")
  }

  /** The same charge on the recovery checkout, whatever became of it, extends a past-due subscription. */
  lemma Pays(t: Alphabet, b: Books, start: RealDate, end: RealDate, recovery: Checkout)
    requires recovery.reference == "R2" && recovery.kind == ForRecovery && recovery.recovery == Some(2)
    requires recovery.planId == "personal_plus" && recovery.account == 0
    requires Holding(b, 4, "personal_plus", Member(SubPastDue, start, end),
                     map[1 := FirstCheckout(ProviderCreated, Some(2)), 3 := recovery])
    requires AddOneMonth(end).Some?
    ensures PaysRecovery(t, b, Recovery(), 3, 2) && !RecoveryApplied(b, 3, 2)
    ensures var r := Reconcile(t, b, Recovery());
      r.verdict == Applied
      && Holding(r.books, 4, "personal_plus", Member(SubActive, end, AddOneMonth(end).value),
                 map[1 := FirstCheckout(ProviderCreated, Some(2)),
                     3 := recovery.(status := ProviderCreated, activated := Some(2))])
  {
    hide Strip, Upper, AddOneMonth;
    assert b.checkouts[3].reference == "R2";
    CurrencyFits(t, "R2");
  }

  ghost predicate Idle(h: History, rows: set<string>) {
    h.states != [] && Last(h).log.running == map[] && Last(h).log.rows.Keys == rows
  }

  lemma CheckoutRun(t: Alphabet) returns (h: History)
    ensures h.Valid(t) && Idle(h, {})
    ensures Holding(Last(h), 2, BASIC_PLAN, map[], map[1 := FirstCheckout(CheckoutPending, None)])
  {
    hide Initiate;
    h := Start(t, JANUARY);
    h := Do(t, h, Register(EMAIL));
    Subscribes(Last(h));
    h := Do(t, h, StartSubscription(0, "personal_plus", "R1", true));
  }

  lemma ChargedRun(t: Alphabet) returns (h: History)
    ensures h.Valid(t) && Idle(h, {"E1"})
    ensures Holding(Last(h), 3, "personal_plus", map[2 := Bought()], map[1 := FirstCheckout(Charged, Some(2))])
  {
    hide Reconcile;
    h := CheckoutRun(t);
    var e := ChargeSuccess(Plain("R1", true, None, ""));
    FirstCharge(t, Taken(Last(h), "E1", e));
    h := Deliver(t, h, "E1", e);
  }

  /** Subscribed until the end of February, and the renewal failed. */
  lemma PastDueRun(t: Alphabet) returns (h: History)
    ensures h.Valid(t) && Idle(h, {"E1", "E2", "E3"})
    ensures Holding(Last(h), 3, "personal_plus", Member(SubPastDue, JANUARY, FEBRUARY),
                    map[1 := FirstCheckout(ProviderCreated, Some(2))])
  {
    hide OnSubscriptionCreate, OnPaymentFailed;
    h := ChargedRun(t);
    var e := SubscriptionCreate("SUB_1", "CUS_1", EMAIL, Some(JANUARY), Some(FEBRUARY));
    Created(Taken(Last(h), "E2", e));
    h := Deliver(t, h, "E2", e);
    var f := RenewalFailed("INV_1");
    Fails(Taken(Last(h), "E3", f), JANUARY, FEBRUARY, Last(h).checkouts, "INV_1");
    h := Deliver(t, h, "E3", f);
  }

  lemma OwingRun(t: Alphabet) returns (h: History)
    ensures h.Valid(t) && Idle(h, {"E1", "E2", "E3"})
    ensures Holding(Last(h), 4, "personal_plus", Member(SubPastDue, JANUARY, FEBRUARY),
                    map[1 := FirstCheckout(ProviderCreated, Some(2)), 3 := RecoveryCheckout(CheckoutPending, None)])
  {
    hide InitiateRecovery;
    h := PastDueRun(t);
    Owes(Last(h));
    h := Do(t, h, StartRecovery(0, "personal_plus", "R2", true));
  }

  /** The payment is made: paid until 29 March. The step i ran its webhook. */
  lemma PaidRun(t: Alphabet) returns (h: History, i: nat)
    ensures h.Valid(t) && Idle(h, {"E1", "E2", "E3", "E4"}) && i < |h.calls|
    ensures Extends(t, h.states[i], h.calls[i], 3, 2) && ChargeIn(h.states[i], h.calls[i]) == Some(Recovery())
    ensures Holding(Last(h), 4, "personal_plus", Member(SubActive, FEBRUARY, MARCH),
                    map[1 := FirstCheckout(ProviderCreated, Some(2)), 3 := RecoveryCheckout(ProviderCreated, Some(2))])
  {
    hide Reconcile, PaysRecovery, RecoveryApplied;
    var before := OwingRun(t);
    var e := ChargeSuccess(Recovery());
    i := |before.calls| + 2;
    Pays(t, Taken(Last(before), "E4", e), JANUARY, FEBRUARY, RecoveryCheckout(CheckoutPending, None));
    h := Deliver(t, before, "E4", e);
  }

  lemma FailedAgainRun(t: Alphabet) returns (h: History, i: nat)
    ensures h.Valid(t) && i < |h.calls|
    ensures Extends(t, h.states[i], h.calls[i], 3, 2) && ChargeIn(h.states[i], h.calls[i]) == Some(Recovery())
    ensures Holding(Last(h), 4, "personal_plus", Member(SubPastDue, FEBRUARY, MARCH),
                    map[1 := FirstCheckout(ProviderCreated, Some(2)), 3 := RecoveryCheckout(ProviderCreated, Some(2))])
  {
    hide OnPaymentFailed, Extends, ChargeIn;
    var before, k := PaidRun(t);
    var f := RenewalFailed("INV_2");
    Fails(Taken(Last(before), "E5", f), FEBRUARY, MARCH, Last(before).checkouts, "INV_2");
    h := Deliver(t, before, "E5", f);
    i := k;
    assert h.states[i] == before.states[i] && h.calls[i] == before.calls[i];
  }

  /** One recovery payment that adds two months: the webhook delivers it, the next renewal fails, and a
      status poll of the same checkout delivers it again. */
  lemma SecondMonthRun(t: Alphabet) returns (h: History, i: nat, j: nat)
    ensures h.Valid(t) && i < j < |h.calls| && j + 1 < |h.states|
    ensures Extends(t, h.states[i], h.calls[i], 3, 2) && Extends(t, h.states[j], h.calls[j], 3, 2)
    ensures ChargeIn(h.states[i], h.calls[i]) == ChargeIn(h.states[j], h.calls[j]) == Some(Recovery())
    ensures h.states[j + 1].subs == Member(SubActive, MARCH, APRIL)
  {
    hide Next, Extends, ChargeIn;
    var before, k := FailedAgainRun(t);
    Polls(t, Last(before));
    h := Do(t, before, PollRecovery());
    i, j := k, |before.calls|;
    assert h.states[i] == before.states[i] && h.calls[i] == before.calls[i];
    assert h.states[j] == Last(before);
  }

  function PollRecovery(): Call {
    PollStatus(0, "R2", Success(Recovery()))
  }

  lemma Polls(t: Alphabet, b: Books)
    requires Holding(b, 4, "personal_plus", Member(SubPastDue, FEBRUARY, MARCH),
                     map[1 := FirstCheckout(ProviderCreated, Some(2)), 3 := RecoveryCheckout(ProviderCreated, Some(2))])
    ensures Extends(t, b, PollRecovery(), 3, 2) && ChargeIn(b, PollRecovery()) == Some(Recovery())
    ensures Next(t, b, PollRecovery()).subs == Member(SubActive, MARCH, APRIL)
  {
    hide Reconcile, PaysRecovery, RecoveryApplied, CheckoutByRef;
    Pays(t, b, FEBRUARY, MARCH, RecoveryCheckout(ProviderCreated, Some(2)));
    Polled(t, b);
    ChargeCall(t, b, PollRecovery(), Recovery());
    hide ChargeIn, Next;
  }

  /** The poll reads the recovery checkout. */
  lemma Polled(t: Alphabet, b: Books)
    requires b.checkouts ==
      map[1 := FirstCheckout(ProviderCreated, Some(2)), 3 := RecoveryCheckout(ProviderCreated, Some(2))]
    ensures ChargeIn(b, PollStatus(0, "R2", Success(Recovery()))) == Some(Recovery())
  {
    assert b.checkouts[3].reference == "R2";
  }
}
