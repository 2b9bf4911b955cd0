/** payments/services.py and payments/tasks.py as changes of one set of books: accounts, subscriptions,
    checkouts, invoices and webhook events. */
module Payments {
  import opened Wrappers
  import opened Text
  import opened Calendar

  datatype Account = Account(plan: string, email: string)

  datatype SubStatus = SubPending | SubActive | SubPaused | SubCancelled | SubPastDue | SubExpired | SubReplaced

  datatype Subscription = Subscription(
    account: nat, planId: string, planCode: string, email: string, customerCode: string, providerId: string,
    status: SubStatus, periodStart: Option<RealDate>, periodEnd: Option<RealDate>,
    cancelAtEnd: bool, replacedBy: Option<nat>)

  datatype CheckoutKind = ForSubscription | ForRecovery

  datatype CheckoutStatus =
    | CheckoutPending | Charged | ProviderCreated | CheckoutCancelled | CheckoutFailed | Superseded

  datatype Checkout = Checkout(
    account: nat, reference: string, planId: string, kind: CheckoutKind, status: CheckoutStatus,
    supersedes: Option<nat>, activated: Option<nat>, recovery: Option<nat>)

  datatype Invoice = Invoice(
    account: nat, subscription: nat, amount: int, currency: string, paid: bool,
    periodStart: Option<RealDate>, periodEnd: Option<RealDate>, paidOn: Option<RealDate>)

  /** A verified charge as Paystack reports it; `account` and `planId` come from its metadata. */
  datatype Charge = Charge(
    reference: string, hasPlan: bool, planCode: string, account: Option<nat>, planId: string,
    customerCode: string, customerEmail: string, amount: int, currency: string)

  datatype PaystackEvent =
    | ChargeSuccess(charge: Charge)
    | SubscriptionCreate(providerId: string, customerCode: string, customerEmail: string,
                         start: Option<RealDate>, nextPayment: Option<RealDate>)
    | SubscriptionDisable(providerId: string)
    | InvoicePaymentFailed(providerId: string, customerEmail: string, reference: string, amount: int, currency: string)
    | InvoiceUpdate(paid: bool, providerId: string, reference: string, amount: int, currency: string,
                    periodStart: Option<RealDate>, periodEnd: Option<RealDate>)
    | OtherEvent

  datatype EventRow = EventRow(event: PaystackEvent, processed: bool, failed: bool)

  /** What a worker is doing with an event: it has read the row, or has run the handler. */
  datatype Task = Fetched(id: string) | Ran(id: string, raised: bool)

  /** The recorded webhook events, and the workers busy with them. */
  datatype Log = Log(rows: map<string, EventRow>, running: map<nat, Task>)

  datatype Books = Books(
    today: RealDate, nextPk: nat,
    accounts: map<nat, Account>, subs: map<nat, Subscription>, checkouts: map<nat, Checkout>,
    invoices: map<string, Invoice>, log: Log)

  /** How a call on a charge ended; Raised is an exception. */
  datatype Verdict = Skipped | Mismatch | AlreadyApplied | Applied | Raised

  datatype Reconciled = Reconciled(books: Books, verdict: Verdict)

  const BASIC_PLAN := "personal_basic"
  const PLAN_PRICES := map[
    "personal_basic" := 49, "personal_plus" := 79, "personal_protect" := 99,
    "enterprise_standard" := 400, "enterprise_plus" := 1200]

  const OPEN_STATUSES := {CheckoutPending, Charged}
  const CURRENT_STATUSES := {SubActive, SubPastDue, SubCancelled}

  // ---- Queries ----

  lemma HasNewest(keys: set<nat>)
    requires keys != {}
    ensures exists k :: k in keys && forall l <- keys :: l <= k
  {
    var k :| k in keys;
    if keys != {k} {
      HasNewest(keys - {k});
      var m :| m in keys - {k} && forall l <- keys - {k} :: l <= m;
      assert forall l <- keys :: l == k || l in keys - {k};
      var top := if m < k then k else m;
      assert top in keys && forall l <- keys :: l <= top;
    } else {
      assert forall l <- keys :: l <= k;
    }
  }

  /** `.order_by("-created_at", "-id").first()`: keys grow with creation. */
  ghost function Newest(keys: set<nat>): (r: Option<nat>)
    ensures r.None? <==> keys == {}
    ensures r.Some? ==> r.value in keys && forall l <- keys :: l <= r.value
  {
    if keys == {} then None else
    HasNewest(keys);
    var k :| k in keys && forall l <- keys :: l <= k;
    Some(k)
  }

  /** `.filter(reference=reference).first()`; a reference names one checkout. */
  ghost function CheckoutByRef(checkouts: map<nat, Checkout>, reference: string): (r: Option<nat>)
    ensures r.Some? ==> r.value in checkouts && checkouts[r.value].reference == reference
    ensures r.None? ==> forall c :: c in checkouts ==> checkouts[c].reference != reference
  {
    if c :| c in checkouts && checkouts[c].reference == reference then Some(c) else None
  }

  ghost function CurrentSub(b: Books, account: nat): Option<nat> {
    Newest(set s | s in b.subs && b.subs[s].account == account && b.subs[s].status in CURRENT_STATUSES)
  }

  ghost predicate HasOpenCheckout(b: Books, account: nat) {
    exists c :: c in b.checkouts && b.checkouts[c].account == account && b.checkouts[c].status in OPEN_STATUSES
  }

  ghost function SubByProviderId(b: Books, providerId: string): Option<nat> {
    Newest(set s | s in b.subs && b.subs[s].providerId == providerId && b.subs[s].status != SubReplaced)
  }

  ghost function SubByCustomer(b: Books, customerCode: string): Option<nat> {
    Newest(set s | s in b.subs && b.subs[s].customerCode == customerCode && b.subs[s].status != SubReplaced)
  }

  ghost function SubByEmail(b: Books, email: string): Option<nat> {
    Newest(set s | s in b.subs && b.subs[s].email == email && b.subs[s].status != SubReplaced)
  }

  // ---- Reconciling a charge ----

  /** What _validate_verified_checkout compares the charge with; None is an unknown plan's DomainError. */
  function ExpectedAmount(planId: string): Option<int> {
    if planId in PLAN_PRICES then Some(PLAN_PRICES[planId] * 100) else None
  }

  predicate ChargeFits(t: Alphabet, reference: Option<string>, expected: int, d: Charge) {
    && (reference.Some? && Strip(t, d.reference) != "" ==> Strip(t, d.reference) == reference.value)
    && d.amount == expected
    && (Strip(t, Upper(t, d.currency)) != "" ==> Strip(t, Upper(t, d.currency)) == "GHS")
  }

  /** _mark_checkout_verification_failed */
  function MarkFailed(checkouts: map<nat, Checkout>, c: Option<nat>): map<nat, Checkout> {
    if c.Some? && c.value in checkouts && checkouts[c.value].status in {CheckoutPending, Charged, ProviderCreated}
    then checkouts[c.value := checkouts[c.value].(status := CheckoutFailed)]
    else checkouts
  }

  function PlanSwitched(accounts: map<nat, Account>, account: nat, planId: string): map<nat, Account> {
    if account in accounts then accounts[account := accounts[account].(plan := planId)] else accounts
  }

  /** The recovery was applied and nothing undid it since. */
  predicate RecoveryApplied(b: Books, c: nat, s: nat)
    requires c in b.checkouts && s in b.subs
  {
    && b.checkouts[c].status == ProviderCreated && b.checkouts[c].activated == Some(s)
    && b.subs[s].status == SubActive
    && b.checkouts[c].account in b.accounts && b.accounts[b.checkouts[c].account].plan == b.subs[s].planId
  }

  /** The day a recovery payment extends from. */
  function PeriodBase(b: Books, s: nat): RealDate
    requires s in b.subs
  {
    if b.subs[s].periodEnd.Some? then b.subs[s].periodEnd.value else b.today
  }

  function Recovered(sub: Subscription, d: Charge, base: RealDate, end: RealDate): Subscription {
    sub.(periodStart := Some(base), periodEnd := Some(end), status := SubActive, cancelAtEnd := false,
         customerCode := if d.customerCode != "" then d.customerCode else sub.customerCode,
         email := if d.customerEmail != "" then d.customerEmail else sub.email)
  }

  /** The writes of an accepted recovery payment. */
  function Extend(b: Books, d: Charge, c: nat, s: nat, base: RealDate, end: RealDate): Books
    requires c in b.checkouts && s in b.subs
  {
    var checkout := b.checkouts[c];
    var invoice := Invoice(checkout.account, s, d.amount, d.currency, true, Some(base), Some(end), Some(b.today));
    b.(subs := b.subs[s := Recovered(b.subs[s], d, base, end)],
       checkouts := b.checkouts[c := checkout.(status := ProviderCreated, activated := Some(s))],
       accounts := PlanSwitched(b.accounts, checkout.account, b.subs[s].planId),
       invoices := b.invoices[d.reference := invoice])
  }

  /** _reconcile_recovery_checkout */
  ghost function ReconcileRecovery(t: Alphabet, b: Books, d: Charge, c: nat): (r: Reconciled)
    requires c in b.checkouts
  {
    var checkout := b.checkouts[c];
    if checkout.kind != ForRecovery || checkout.recovery.None? || checkout.recovery.value !in b.subs
    then Reconciled(b, Skipped) else
    var s := checkout.recovery.value;
    var sub := b.subs[s];
    if RecoveryApplied(b, c, s) then Reconciled(b, AlreadyApplied) else
    var expected := ExpectedAmount(checkout.planId);
    if expected.None? then Reconciled(b, Raised) else
    if !ChargeFits(t, Some(checkout.reference), expected.value, d)
    then Reconciled(b.(checkouts := MarkFailed(b.checkouts, Some(c))), Mismatch) else
    var base := PeriodBase(b, s);
    var end := AddOneMonth(base);
    if end.None? then Reconciled(b, Raised) else
    Reconciled(Extend(b, d, c, s, base, end.value), Applied)
  }

  /** The account and plan a charge is for: the checkout's, or the metadata's. */
  ghost function TargetOf(b: Books, d: Charge, found: Option<nat>): (Option<nat>, string)
    requires found.Some? ==> found.value in b.checkouts
  {
    if found.Some? then (Some(b.checkouts[found.value].account), b.checkouts[found.value].planId)
    else (d.account, d.planId)
  }

  /** reconcile_verified_charge, which the webhook and the status poll both call. */
  ghost function Reconcile(t: Alphabet, b: Books, d: Charge): (r: Reconciled) {
    var found := if d.reference != "" then CheckoutByRef(b.checkouts, d.reference) else None;
    if !d.hasPlan then
      if found.Some? then ReconcileRecovery(t, b, d, found.value) else Reconciled(b, Skipped)
    else
    var (account, planId) := TargetOf(b, d, found);
    if account.None? || planId == "" then Reconciled(b, Skipped) else
    var expected := ExpectedAmount(planId);
    if expected.None? then Reconciled(b, Raised) else
    var checkout := if found.Some? then Some(b.checkouts[found.value]) else None;
    var reference := if found.Some? then Some(b.checkouts[found.value].reference) else None;
    if !ChargeFits(t, reference, expected.value, d)
    then Reconciled(b.(checkouts := MarkFailed(b.checkouts, found)), Mismatch) else
    if account.value !in b.accounts then Reconciled(b, Skipped) else
    if checkout.Some? && checkout.value.status in {Charged, ProviderCreated} && checkout.value.activated.Some?
       && b.accounts[account.value].plan == planId
    then Reconciled(b, AlreadyApplied) else
    Reconciled(Activate(b, d, found, account.value, planId), Applied)
  }

  function NewSub(b: Books, d: Charge, account: nat, planId: string, status: SubStatus): Subscription
    requires account in b.accounts
  {
    Subscription(account, planId, d.planCode,
                 if d.customerEmail != "" then d.customerEmail else b.accounts[account].email,
                 d.customerCode, "", status, None, None, false, None)
  }

  function Reused(sub: Subscription, d: Charge, planId: string, status: SubStatus): Subscription {
    sub.(planId := planId, planCode := if d.planCode != "" then d.planCode else sub.planCode, status := status,
         customerCode := d.customerCode, cancelAtEnd := false,
         email := if d.customerEmail != "" then d.customerEmail else sub.email)
  }

  /** The writes of an accepted subscription charge: a new subscription, or the checkout's own. */
  ghost function Activate(b: Books, d: Charge, found: Option<nat>, account: nat, planId: string): Books
    requires found.Some? ==> found.value in b.checkouts
    requires account in b.accounts
  {
    var checkout := if found.Some? then Some(b.checkouts[found.value]) else None;
    var status := if checkout.Some? && checkout.value.supersedes.Some? then SubPending else SubActive;
    var known := if checkout.Some? && checkout.value.activated.Some? && checkout.value.activated.value in b.subs
      then checkout.value.activated else None;
    var s := if known.Some? then known.value else b.nextPk;
    var sub := if known.Some? then Reused(b.subs[s], d, planId, status) else NewSub(b, d, account, planId, status);
    b.(nextPk := if known.Some? then b.nextPk else b.nextPk + 1,
       subs := b.subs[s := sub],
       checkouts := if found.Some?
         then b.checkouts[found.value := checkout.value.(status := Charged, activated := Some(s))] else b.checkouts,
       accounts := PlanSwitched(b.accounts, account, planId))
  }

  // ---- The other webhook events ----

  ghost function CreatedSub(b: Books, customerCode: string, customerEmail: string): Option<nat> {
    var byCustomer := Newest(set s | s in b.subs && b.subs[s].customerCode == customerCode
                               && b.subs[s].providerId == "" && b.subs[s].status != SubReplaced);
    if byCustomer.Some? then byCustomer else
    var byEmail := Newest(set s | s in b.subs && b.subs[s].email == customerEmail
                            && b.subs[s].providerId == "" && b.subs[s].status != SubReplaced);
    if byEmail.Some? then byEmail else
    var known := SubByCustomer(b, customerCode);
    if known.Some? then known else SubByEmail(b, customerEmail)
  }

  ghost function CheckoutOfSub(b: Books, s: nat, customerEmail: string): (r: Option<nat>)
    ensures r.Some? ==> r.value in b.checkouts
  {
    var own := Newest(set c | c in b.checkouts && b.checkouts[c].activated == Some(s));
    if own.Some? || customerEmail == "" then own else
    Newest(set c | c in b.checkouts && b.checkouts[c].account in b.accounts
             && b.accounts[b.checkouts[c].account].email == customerEmail
             && b.checkouts[c].status in OPEN_STATUSES + {ProviderCreated})
  }

  /** _cancel_replaced_subscription; what the provider answers does not matter. */
  function Replace(subs: map<nat, Subscription>, former: nat, successor: nat): map<nat, Subscription> {
    if former !in subs || subs[former].status == SubReplaced then subs
    else subs[former := subs[former].(status := SubReplaced, cancelAtEnd := false, replacedBy := Some(successor))]
  }

  /** _handle_subscription_create */
  ghost function OnSubscriptionCreate(b: Books, e: PaystackEvent): Books
    requires e.SubscriptionCreate?
  {
    var found := CreatedSub(b, e.customerCode, e.customerEmail);
    if found.None? || found.value !in b.subs then b else
    var s := found.value;
    var subs := b.subs[s := b.subs[s].(providerId := e.providerId, status := SubActive, periodStart := e.start,
                                       periodEnd := e.nextPayment, cancelAtEnd := false)];
    var c := CheckoutOfSub(b.(subs := subs), s, e.customerEmail);
    if c.None? then b.(subs := subs) else
    var checkout := b.checkouts[c.value].(activated := Some(s), status := ProviderCreated);
    b.(subs := if checkout.supersedes.Some? then Replace(subs, checkout.supersedes.value, s) else subs,
       checkouts := b.checkouts[c.value := checkout])
  }

  ghost function OnSubscriptionDisable(b: Books, providerId: string): Books {
    var found := SubByProviderId(b, providerId);
    if found.None? || found.value !in b.subs then b
    else b.(subs := b.subs[found.value := b.subs[found.value].(status := SubCancelled, cancelAtEnd := true)])
  }

  /** _handle_invoice_payment_failed; its save leaves cancel_at_period_end out. */
  ghost function OnPaymentFailed(b: Books, e: PaystackEvent): Books
    requires e.InvoicePaymentFailed?
  {
    var known := SubByProviderId(b, e.providerId);
    var found := if known.Some? then known else SubByEmail(b, e.customerEmail);
    if found.None? || found.value !in b.subs then b else
    var s := found.value;
    var invoice := Invoice(b.subs[s].account, s, e.amount, e.currency, false, None, None, None);
    b.(subs := b.subs[s := b.subs[s].(status := SubPastDue)],
       invoices := if e.reference != "" && e.reference !in b.invoices
         then b.invoices[e.reference := invoice] else b.invoices)
  }

  ghost function OnInvoiceUpdate(b: Books, e: PaystackEvent): Books
    requires e.InvoiceUpdate?
  {
    var found := SubByProviderId(b, e.providerId);
    if !e.paid || found.None? || found.value !in b.subs then b else
    var s := found.value;
    var sub := b.subs[s].(
      periodEnd := if e.periodEnd.Some? then e.periodEnd else b.subs[s].periodEnd,
      periodStart := if e.periodStart.Some? then e.periodStart else b.subs[s].periodStart,
      status := SubActive, cancelAtEnd := false);
    var invoice := Invoice(sub.account, s, e.amount, e.currency, true, e.periodStart, e.periodEnd, Some(b.today));
    b.(subs := b.subs[s := sub], invoices := b.invoices[e.reference := invoice])
  }

  /** The handler of an event, and whether it raised. */
  ghost function Handle(t: Alphabet, b: Books, e: PaystackEvent): (Books, bool) {
    match e
    case ChargeSuccess(d) => var r := Reconcile(t, b, d); (r.books, r.verdict == Raised)
    case SubscriptionCreate(_, _, _, _, _) => (OnSubscriptionCreate(b, e), false)
    case SubscriptionDisable(providerId) => (OnSubscriptionDisable(b, providerId), false)
    case InvoicePaymentFailed(_, _, _, _, _) => (OnPaymentFailed(b, e), false)
    case InvoiceUpdate(_, _, _, _, _, _, _) => (OnInvoiceUpdate(b, e), false)
    case OtherEvent => (b, false)
  }

  // process_payment_event has no transaction and takes no lock: a worker reads the event, runs its
  // handler and marks the row in three steps, between which anything else may happen.

  predicate IsProcessed(b: Books, id: string) {
    id in b.log.rows && b.log.rows[id].processed
  }

  /** A worker takes up an event that is recorded and not processed. */
  function FetchEvent(b: Books, worker: nat, id: string): (r: Books)
    ensures r == b.(log := r.log)
  {
    if id !in b.log.rows || IsProcessed(b, id) || worker in b.log.running then b
    else b.(log := b.log.(running := b.log.running[worker := Fetched(id)]))
  }

  /** The event a worker is about to handle. */
  function EventOf(b: Books, worker: nat): Option<PaystackEvent> {
    if worker in b.log.running && b.log.running[worker].Fetched? && b.log.running[worker].id in b.log.rows
    then Some(b.log.rows[b.log.running[worker].id].event) else None
  }

  ghost function RunEvent(t: Alphabet, b: Books, worker: nat): Books {
    var e := EventOf(b, worker);
    if e.None? then b else
    var (after, raised) := Handle(t, b, e.value);
    after.(log := b.log.(running := b.log.running[worker := Ran(b.log.running[worker].id, raised)]))
  }

  /** Success sets the processed mark; a failure only records its error. */
  function MarkEvent(b: Books, worker: nat): (r: Books)
    ensures r == b.(log := r.log)
  {
    if worker !in b.log.running || !b.log.running[worker].Ran? then b else
    var id := b.log.running[worker].id;
    var idle := b.log.(running := b.log.running - {worker});
    if id !in b.log.rows then b.(log := idle)
    else if b.log.running[worker].raised
    then b.(log := idle.(rows := b.log.rows[id := b.log.rows[id].(failed := true)]))
    else b.(log := idle.(rows := b.log.rows[id := b.log.rows[id].(processed := true, failed := false)]))
  }

  /** process_payment_event run by one worker with nothing in between. */
  ghost function ProcessEvent(t: Alphabet, b: Books, worker: nat, id: string): Books {
    MarkEvent(RunEvent(t, FetchEvent(b, worker, id), worker), worker)
  }

  // ---- Calls from the API ----

  datatype Remote = NoAnswer | Success(charge: Charge) | Abandoned | FailedOrReversed | StillOpen

  /** get_checkout_status; None is a raised error. */
  ghost function Poll(t: Alphabet, b: Books, account: nat, reference: string, remote: Remote): Option<Books> {
    var found := CheckoutByRef(b.checkouts, reference);
    if found.None? || b.checkouts[found.value].account != account then None else
    var c := found.value;
    if b.checkouts[c].status in {CheckoutCancelled, CheckoutFailed} then Some(b) else
    match remote
    case Success(d) => var r := Reconcile(t, b, d); if r.verdict == Raised then None else Some(r.books)
    case Abandoned =>
      if b.checkouts[c].status in {CheckoutPending, Charged, ProviderCreated}
      then Some(b.(checkouts := b.checkouts[c := b.checkouts[c].(status := CheckoutCancelled)])) else Some(b)
    case FailedOrReversed => Some(b.(checkouts := MarkFailed(b.checkouts, Some(c))))
    case _ => Some(b)
  }

  /** initiate_subscription; the reference is a fresh random one, `ready` says that the plan has a
      provider code and the gateway answered. */
  ghost function Initiate(b: Books, account: nat, planId: string, reference: string, ready: bool): Option<Books> {
    var current := CurrentSub(b, account);
    if planId !in PLAN_PRICES || account !in b.accounts || !ready then None
    else if current.Some? && b.subs[current.value].status == SubActive
      && b.subs[current.value].planId == planId then None
    else if HasOpenCheckout(b, account) || CheckoutByRef(b.checkouts, reference).Some? then None
    else
      var checkout := Checkout(account, reference, planId, ForSubscription, CheckoutPending, current, None, None);
      Some(b.(checkouts := b.checkouts[b.nextPk := checkout], nextPk := b.nextPk + 1))
  }

  /** initiate_recovery_payment */
  ghost function InitiateRecovery(b: Books, account: nat, planId: string, reference: string,
      ready: bool): Option<Books> {
    var current := CurrentSub(b, account);
    if planId !in PLAN_PRICES || account !in b.accounts || !ready then None
    else if HasOpenCheckout(b, account) || CheckoutByRef(b.checkouts, reference).Some? then None
    else if current.None? || b.subs[current.value].status != SubPastDue
      || b.subs[current.value].planId != planId then None
    else
      var checkout := Checkout(account, reference, planId, ForRecovery, CheckoutPending, None, None, current);
      Some(b.(checkouts := b.checkouts[b.nextPk := checkout], nextPk := b.nextPk + 1))
  }

  ghost function ActiveSubs(b: Books, account: nat): set<nat> {
    set s | s in b.subs && b.subs[s].account == account && b.subs[s].status == SubActive
  }

  /** cancel_subscription; `confirmed` is the gateway's answer. */
  ghost function CancelSubscription(b: Books, account: nat, confirmed: bool): Option<Books> {
    var current := CurrentSub(b, account);
    if current.None? || b.subs[current.value].status != SubActive || b.subs[current.value].providerId == ""
      || !confirmed
    then None
    else if |ActiveSubs(b, account)| != 1 then None
    else Some(b.(subs := b.subs[current.value := b.subs[current.value].(cancelAtEnd := true)]))
  }

  /** The cancel-checkout endpoint. */
  ghost function CancelCheckouts(b: Books, account: nat): Books {
    b.(checkouts := map c | c in b.checkouts ::
         if b.checkouts[c].account == account && b.checkouts[c].status in OPEN_STATUSES
         then b.checkouts[c].(status := CheckoutCancelled) else b.checkouts[c])
  }

  // ---- The daily task ----

  predicate Lapsed(sub: Subscription, today: RealDate) {
    sub.status in {SubCancelled, SubPastDue} && sub.periodEnd.Some? && sub.periodEnd.value.Before(today)
  }

  /** expire_lapsed_subscriptions: lapsed subscriptions end, and their accounts go back to the basic plan. */
  function ExpireLapsed(b: Books): Books {
    b.(subs := map s | s in b.subs ::
         if Lapsed(b.subs[s], b.today) then b.subs[s].(status := SubExpired) else b.subs[s],
       accounts := map a | a in b.accounts ::
         if exists s :: s in b.subs && b.subs[s].account == a && Lapsed(b.subs[s], b.today)
         then b.accounts[a].(plan := BASIC_PLAN) else b.accounts[a])
  }

  // ---- Runs ----

  datatype Call =
    | Tomorrow(date: RealDate, otherRows: nat)
    | Register(email: string)
    | Receive(id: string, event: PaystackEvent)
    | Fetch(worker: nat, id: string)
    | Run(worker: nat)
    | Mark(worker: nat)
    | Lose(worker: nat)
    | PollStatus(account: nat, reference: string, remote: Remote)
    | StartSubscription(account: nat, planId: string, reference: string, ready: bool)
    | StartRecovery(account: nat, planId: string, reference: string, ready: bool)
    | StopSubscription(account: nat, confirmed: bool)
    | DropCheckouts(account: nat)
    | Expire

  function Or(after: Option<Books>, before: Books): Books {
    if after.Some? then after.value else before
  }

  /** What a call leaves; a raise leaves the books as they were. */
  ghost function Next(t: Alphabet, b: Books, a: Call): Books {
    match a
    case Tomorrow(date, otherRows) => b.(today := date, nextPk := b.nextPk + otherRows)
    case Register(email) => b.(accounts := b.accounts[b.nextPk := Account(BASIC_PLAN, email)], nextPk := b.nextPk + 1)
    case Receive(id, e) =>
      if id in b.log.rows then b else b.(log := b.log.(rows := b.log.rows[id := EventRow(e, false, false)]))
    case Fetch(worker, id) => FetchEvent(b, worker, id)
    case Run(worker) => RunEvent(t, b, worker)
    case Mark(worker) => MarkEvent(b, worker)
    case Lose(worker) => b.(log := b.log.(running := b.log.running - {worker}))
    case PollStatus(account, reference, remote) => Or(Poll(t, b, account, reference, remote), b)
    case StartSubscription(account, planId, reference, ready) => Or(Initiate(b, account, planId, reference, ready), b)
    case StartRecovery(account, planId, reference, ready) =>
      Or(InitiateRecovery(b, account, planId, reference, ready), b)
    case StopSubscription(account, confirmed) => Or(CancelSubscription(b, account, confirmed), b)
    case DropCheckouts(account) => CancelCheckouts(b, account)
    case Expire => ExpireLapsed(b)
  }

  datatype History = History(states: seq<Books>, calls: seq<Call>) {
    ghost predicate Valid(t: Alphabet) {
      && |states| == |calls| + 1
      && states[0].accounts == map[] && states[0].subs == map[] && states[0].checkouts == map[]
      && states[0].invoices == map[] && states[0].log == Log(map[], map[])
      && forall i: nat :: i < |calls| ==> Follows(t, i)
    }

    ghost predicate Follows(t: Alphabet, i: nat)
      requires i < |calls| && |states| == |calls| + 1
    {
      states[i + 1] == Next(t, states[i], calls[i])
    }
  }
}
