/** billing/services.py and billing/selectors.py: month windows, the sealing cap and the misuse check,
    over all agreements of one creator. */
module Billing {
  import opened Wrappers
  import opened Calendar
  import opened Lifecycle
  import opened SealTheorems

  datatype Plan = Plan(personal: bool, cap: nat, soft: bool)

  const PLANS := map[
    "personal_basic" := Plan(true, 1, false), "personal_plus" := Plan(true, 3, false),
    "personal_protect" := Plan(true, 7, false),
    "enterprise_standard" := Plan(false, 20, true), "enterprise_plus" := Plan(false, 80, true)]

  /** get_plan: an unknown plan counts as the basic one. */
  function GetPlan(id: string): Plan {
    if id in PLANS then PLANS[id] else PLANS["personal_basic"]
  }

  // ---- Month windows ----

  /** d - timedelta(days=1); None before the first year. */
  function DayBefore(d: RealDate): Option<RealDate> {
    if d.day > 1 then Some(Date(d.year, d.month, d.day - 1))
    else if d.month > 1 then Some(Date(d.year, d.month - 1, DaysIn(d.year, d.month - 1)))
    else if d.year > 1 then Some(Date(d.year - 1, 12, 31))
    else None
  }

  lemma DayBeforeIsPrevious(d: RealDate)
    ensures DayBefore(d).Some? ==> Ordinal(DayBefore(d).value) == Ordinal(d) - 1
    ensures d.day == 1 && DayBefore(d).Some? ==> MonthIndex(DayBefore(d).value) == MonthIndex(d) - 1
  {
    OrdinalOfIndex(d);
    var b := DayBefore(d);
    if b.Some? {
      OrdinalOfIndex(b.value);
      if d.day == 1 {
        NextIndex(MonthIndex(b.value));
      }
    }
  }

  function FirstOfMonth(d: RealDate): RealDate {
    Date(d.year, d.month, 1)
  }

  /** _month_window */
  function MonthWindow(today: RealDate): (RealDate, RealDate) {
    var first := FirstOfMonth(today);
    if today.month == 12 then (first, Date(today.year, 12, 31))
    else
      var last := DayBefore(Date(today.year, today.month + 1, 1));
      (first, if last.Some? then last.value else first)
  }

  predicate Within(d: RealDate, window: (RealDate, RealDate)) {
    !d.Before(window.0) && !window.1.Before(d)
  }

  /** A day lies in a month's window exactly when it is a day of that month: the windows tile the
      calendar, the next one starting the day after. */
  lemma WindowsTile(d: RealDate, today: RealDate)
    ensures Within(d, MonthWindow(today)) <==> MonthIndex(d) == MonthIndex(today)
    ensures AddOneMonth(FirstOfMonth(today)).Some? ==>
      Ordinal(AddOneMonth(FirstOfMonth(today)).value) == Ordinal(MonthWindow(today).1) + 1
  {
    var window := MonthWindow(today);
    assert window.1 == Date(today.year, today.month, DaysIn(today.year, today.month));
    OrdinalOfIndex(window.1);
    NextMonth(FirstOfMonth(today));
    if AddOneMonth(FirstOfMonth(today)).Some? {
      OrdinalOfIndex(AddOneMonth(FirstOfMonth(today)).value);
      NextIndex(MonthIndex(today));
    }
  }

  // ---- Counting sealed agreements ----

  datatype Agreement = Agreement(status: Status, sealedOn: Option<RealDate>)

  predicate Counts(a: Agreement, window: (RealDate, RealDate)) {
    a.status == Sealed && a.sealedOn.Some? && Within(a.sealedOn.value, window)
  }

  function Counted(agreements: map<nat, Agreement>, window: (RealDate, RealDate)): set<nat> {
    set k | k in agreements && Counts(agreements[k], window)
  }

  /** _sealed_in_window */
  function SealedInWindow(agreements: map<nat, Agreement>, window: (RealDate, RealDate)): nat {
    |Counted(agreements, window)|
  }

  /** check_seal_allowed: false is PLAN_CAP_REACHED. */
  predicate SealAllowed(plan: Plan, agreements: map<nat, Agreement>, today: RealDate) {
    plan.soft || SealedInWindow(agreements, MonthWindow(today)) < plan.cap
  }

  // ---- The cap over a creator's agreements ----

  datatype Desk = Desk(today: RealDate, agreements: map<nat, Agreement>)

  datatype Call =
    | Stay                      // a call that changes no status
    | NextDay(date: RealDate)
    | Create(key: nat)
    | Move(key: nat, to: Status)

  /** A cancelled reopen request: the agreement is sealed again without a check. */
  predicate CancelsReopen(d: Desk, a: Call) {
    a.Move? && a.key in d.agreements && d.agreements[a.key].status == ReopenRequested && a.to == Sealed
  }

  /** Sealing, as against going back to a seal that was never given up. */
  predicate Seals(d: Desk, a: Call) {
    a.Move? && a.key in d.agreements && d.agreements[a.key].status in {PendingConsent, Active} && a.to == Sealed
  }

  /** The calls that can happen: time does not run backwards, and an agreement's status moves along the
      protocol's edges, into a new seal only if the plan allows it. */
  predicate Possible(plan: Plan, d: Desk, a: Call) {
    match a
    case Stay => true
    case NextDay(date) => !date.Before(d.today)
    case Create(key) => key !in d.agreements
    case Move(key, to) =>
      && key in d.agreements && Edge(d.agreements[key].status, to)
      && (Seals(d, a) ==> SealAllowed(plan, d.agreements, d.today))
  }

  function Moved(d: Desk, agreement: Agreement, to: Status): Agreement {
    Agreement(to,
              if to == Sealed && agreement.status != ReopenRequested then Some(d.today)
              else if to == Active then None
              else agreement.sealedOn)
  }

  function Next(d: Desk, a: Call): Desk {
    match a
    case Stay => d
    case NextDay(date) => d.(today := date)
    case Create(key) => d.(agreements := d.agreements[key := Agreement(Status.Draft, None)])
    case Move(key, to) =>
      if key in d.agreements then d.(agreements := d.agreements[key := Moved(d, d.agreements[key], to)]) else d
  }

  datatype History = History(states: seq<Desk>, calls: seq<Call>) {
    ghost predicate Valid(plan: Plan) {
      && |states| == |calls| + 1 && states[0].agreements == map[]
      && forall i: nat :: i < |calls| ==> Follows(plan, i)
    }

    ghost predicate Follows(plan: Plan, i: nat)
      requires i < |calls| && |states| == |calls| + 1
    {
      Possible(plan, states[i], calls[i]) && states[i + 1] == Next(states[i], calls[i])
    }

    ghost predicate NoCancel() {
      forall i: nat :: i < |calls| && i < |states| ==> !CancelsReopen(states[i], calls[i])
    }
  }

  function CountNow(d: Desk): nat {
    SealedInWindow(d.agreements, MonthWindow(d.today))
  }

  /** No seal lies in the future. */
  ghost predicate SealsPast(d: Desk) {
    forall k :: k in d.agreements && d.agreements[k].sealedOn.Some? ==> !d.today.Before(d.agreements[k].sealedOn.value)
  }

  lemma SmallerSet(a: set<nat>, b: set<nat>)
    requires a <= b
    ensures |a| <= |b|
  {
    assert b == a + (b - a);
  }

  /** In a new month nothing counts yet; within the month the count stays. */
  lemma DayStep(d: Desk, date: RealDate)
    requires SealsPast(d) && !date.Before(d.today)
    ensures SealsPast(d.(today := date)) && CountNow(d.(today := date)) <= CountNow(d)
  {
    var after := d.(today := date);
    forall k | k in d.agreements && Counts(d.agreements[k], MonthWindow(date))
      ensures Counts(d.agreements[k], MonthWindow(d.today))
    {
      var s := d.agreements[k].sealedOn.value;
      WindowsTile(s, date);
      WindowsTile(s, d.today);
      assert !d.today.Before(s);
    }
    SmallerSet(Counted(d.agreements, MonthWindow(date)), Counted(d.agreements, MonthWindow(d.today)));
  }

  function One(b: bool): nat {
    if b then 1 else 0
  }

  /** Changing one agreement changes the count by that agreement. */
  lemma ChangeCounts(agreements: map<nat, Agreement>, key: nat, x: Agreement, window: (RealDate, RealDate))
    requires key in agreements
    ensures SealedInWindow(agreements[key := x], window) + One(Counts(agreements[key], window)) ==
      SealedInWindow(agreements, window) + One(Counts(x, window))
  {
    hide Counts;
    OneDiffers(Counted(agreements, window), Counted(agreements[key := x], window), key);
  }

  lemma OneDiffers(a: set<nat>, b: set<nat>, key: nat)
    requires forall k :: k != key ==> (k in b <==> k in a)
    ensures |b| + One(key in a) == |a| + One(key in b)
  {
    assert a == (a - {key}) + (if key in a then {key} else {});
    assert b == (a - {key}) + (if key in b then {key} else {});
  }

  lemma SealsPastStep(plan: Plan, d: Desk, a: Call)
    requires SealsPast(d) && Possible(plan, d, a)
    ensures SealsPast(Next(d, a))
  {
  }

  lemma {:induction false} AlwaysPast(plan: Plan, h: History, n: nat)
    requires h.Valid(plan) && n < |h.states|
    ensures SealsPast(h.states[n])
  {
    if n > 0 {
      hide SealsPast, Next, Possible;
      AlwaysPast(plan, h, n - 1);
      assert h.Follows(plan, n - 1);
      SealsPastStep(plan, h.states[n - 1], h.calls[n - 1]);
    }
  }

  /** A cancelled reopen request that brings a seal of this month back. */
  predicate BringsBack(d: Desk, a: Call) {
    CancelsReopen(d, a)
    && d.agreements[a.key].sealedOn.Some? && Within(d.agreements[a.key].sealedOn.value, MonthWindow(d.today))
  }

  /** What a call does to the count: only a seal the plan allowed and a reopen request cancelled raise it,
      each by one. */
  lemma CountStep(plan: Plan, d: Desk, a: Call)
    requires SealsPast(d) && Possible(plan, d, a)
    ensures BringsBack(d, a) ==> CountNow(Next(d, a)) == CountNow(d) + 1
    ensures !BringsBack(d, a) && Seals(d, a) ==>
      SealAllowed(plan, d.agreements, d.today) && CountNow(Next(d, a)) == CountNow(d) + 1
    ensures !BringsBack(d, a) && !Seals(d, a) ==> CountNow(Next(d, a)) <= CountNow(d)
  {
    match a
    case Stay =>
    case NextDay(date) => DayStep(d, date);
    case Create(key) =>
      assert Counted(Next(d, a).agreements, MonthWindow(d.today)) == Counted(d.agreements, MonthWindow(d.today));
    case Move(key, to) =>
      WindowsTile(d.today, d.today);
      ChangeCounts(d.agreements, key, Moved(d, d.agreements[key], to), MonthWindow(d.today));
  }

  /** On a hard-capped plan, and as long as no reopen request is cancelled, the agreements sealed this
      month never exceed the cap. */
  lemma {:induction false} CapHolds(plan: Plan, h: History, n: nat)
    requires h.Valid(plan) && h.NoCancel() && !plan.soft && n < |h.states|
    ensures CountNow(h.states[n]) <= plan.cap
  {
    if n > 0 {
      hide Next, CountNow, Seals;
      CapHolds(plan, h, n - 1);
      AlwaysPast(plan, h, n - 1);
      assert h.Follows(plan, n - 1);
      CountStep(plan, h.states[n - 1], h.calls[n - 1]);
      if Seals(h.states[n - 1], h.calls[n - 1]) {
        AllowedMeansUnder(plan, h.states[n - 1]);
      }
    } else {
      NoneYet(plan, h);
    }
  }

  lemma NoneYet(plan: Plan, h: History)
    requires h.Valid(plan)
    ensures CountNow(h.states[0]) == 0
  {
    assert Counted(h.states[0].agreements, MonthWindow(h.states[0].today)) == {};
  }

  lemma AllowedMeansUnder(plan: Plan, d: Desk)
    requires !plan.soft && SealAllowed(plan, d.agreements, d.today)
    ensures CountNow(d) < plan.cap
  {
  }

  /** A cancelled reopen request brings a seal of this month back while others have used up the cap. */
  ghost predicate CancelsAtCap(plan: Plan, d: Desk, a: Call) {
    BringsBack(d, a) && CountNow(d) == plan.cap
  }

  lemma PassesByCancel(plan: Plan, d: Desk, a: Call)
    requires SealsPast(d) && Possible(plan, d, a) && !plan.soft
    requires CountNow(d) <= plan.cap && CountNow(Next(d, a)) > plan.cap
    ensures CancelsAtCap(plan, d, a)
  {
    hide Next, BringsBack, CountNow, SealAllowed;
    CountStep(plan, d, a);
    if !BringsBack(d, a) {
      AllowedMeansUnder(plan, d);
      assert false;
    }
  }

  /** The first call that exceeds the cap. */
  lemma {:induction false} CapIsPassed(plan: Plan, h: History, n: nat) returns (i: nat)
    requires h.Valid(plan) && !plan.soft && n < |h.states| && CountNow(h.states[n]) > plan.cap
    ensures i < n && CancelsAtCap(plan, h.states[i], h.calls[i])
  {
    hide Next, Seals, BringsBack, CountNow;
    NoneYet(plan, h);
    if CountNow(h.states[n - 1]) > plan.cap {
      i := CapIsPassed(plan, h, n - 1);
    } else {
      i := n - 1;
      assert h.Follows(plan, i);
      AlwaysPast(plan, h, i);
      PassesByCancel(plan, h.states[i], h.calls[i]);
    }
  }

  /** In a run on a hard-capped plan the cap is exceeded at some time if and only if some cancelled reopen
      request brings back a seal of its month with the cap used up. */
  lemma CapExceededExactly(plan: Plan, h: History)
    requires h.Valid(plan) && !plan.soft
    ensures (exists n: nat :: n < |h.states| && CountNow(h.states[n]) > plan.cap) <==>
      (exists i: nat :: i < |h.calls| && CancelsAtCap(plan, h.states[i], h.calls[i]))
  {
    hide Next, CountNow, CancelsAtCap;
    if n: nat :| n < |h.states| && CountNow(h.states[n]) > plan.cap {
      var i := CapIsPassed(plan, h, n);
    }
    if i: nat :| i < |h.calls| && CancelsAtCap(plan, h.states[i], h.calls[i]) {
      AlwaysPast(plan, h, i);
      assert h.Follows(plan, i);
      CancelPasses(plan, h.states[i], h.calls[i]);
      assert CountNow(h.states[i + 1]) > plan.cap;
    }
  }

  lemma CancelPasses(plan: Plan, d: Desk, a: Call)
    requires SealsPast(d) && Possible(plan, d, a) && CancelsAtCap(plan, d, a)
    ensures CountNow(Next(d, a)) > plan.cap
  {
    CountStep(plan, d, a);
  }

  // ---- The misuse check ----

  const MISUSE_MONTHS := 3
  const MISUSE_ROLLING := 15

  /** The first day of the month i months before today's. */
  function MonthsBack(today: RealDate, i: nat): (r: Option<RealDate>)
    ensures r.Some? ==> MonthIndex(r.value) == MonthIndex(today) - i
  {
    if i == 0 then Some(today) else
    var later := MonthsBack(today, i - 1);
    if later.None? then None else
    DayBeforeIsPrevious(FirstOfMonth(later.value));
    DayBefore(FirstOfMonth(later.value))
  }

  /** today - timedelta(days=n) */
  function DaysBack(d: RealDate, n: nat): (r: Option<RealDate>)
    ensures r.Some? ==> Ordinal(r.value) == Ordinal(d) - n
  {
    if n == 0 then Some(d) else
    var later := DaysBack(d, n - 1);
    if later.None? then None else
    DayBeforeIsPrevious(later.value);
    DayBefore(later.value)
  }

  lemma BackFromYearTwo(today: RealDate, i: nat)
    requires today.year >= 2 && i <= 3
    ensures MonthsBack(today, i).Some?
  {
    if i > 0 {
      BackFromYearTwo(today, i - 1);
    }
  }

  predicate SealedInMonthOf(a: Agreement, index: int) {
    a.status == Sealed && a.sealedOn.Some? && MonthIndex(a.sealedOn.value) == index
  }

  /** The agreements sealed in the month with this index. */
  function SealedInMonth(agreements: map<nat, Agreement>, index: int): nat {
    |set k | k in agreements && SealedInMonthOf(agreements[k], index)|
  }

  lemma WindowIsMonth(agreements: map<nat, Agreement>, d: RealDate)
    ensures SealedInWindow(agreements, MonthWindow(d)) == SealedInMonth(agreements, MonthIndex(d))
  {
    forall k | k in agreements
      ensures Counts(agreements[k], MonthWindow(d)) <==> SealedInMonthOf(agreements[k], MonthIndex(d))
    {
      hide MonthWindow, Within;
      if agreements[k].sealedOn.Some? {
        WindowsTile(agreements[k].sealedOn.value, d);
      }
    }
    hide Counts, SealedInMonthOf, MonthWindow;
    assert Counted(agreements, MonthWindow(d)) ==
      set k | k in agreements && SealedInMonthOf(agreements[k], MonthIndex(d));
  }

  /** What a plan lets its account seal: a business any number, a person so many a month, and one if the plan is
      not known. */
  lemma SealAllowedExactly(id: string, agreements: map<nat, Agreement>, today: RealDate)
    ensures SealAllowed(GetPlan(id), agreements, today) <==>
      var sealedNow := SealedInMonth(agreements, MonthIndex(today));
      || id in {"enterprise_standard", "enterprise_plus"}
      || (id == "personal_protect" && sealedNow < 7)
      || (id == "personal_plus" && sealedNow < 3)
      || sealedNow == 0
  {
    WindowIsMonth(agreements, today);
    hide SealedInWindow, SealedInMonth, MonthWindow;
  }

  /** The cap was reached in the month i months before this one. */
  ghost predicate AtCap(plan: Plan, agreements: map<nat, Agreement>, today: RealDate, i: nat) {
    SealedInMonth(agreements, MonthIndex(today) - i) >= plan.cap
  }

  /** The cap was reached in each of the last n months, this one included. */
  ghost predicate AtCapFor(plan: Plan, agreements: map<nat, Agreement>, today: RealDate, n: nat) {
    forall i: nat :: i < n ==> AtCap(plan, agreements, today, i)
  }

  predicate SealedLately(a: Agreement, today: RealDate) {
    a.status == Sealed && a.sealedOn.Some? && Ordinal(today) - 90 <= Ordinal(a.sealedOn.value) <= Ordinal(today)
  }

  /** The seals of the last ninety days, today included, in day numbers. */
  function RollingCount(agreements: map<nat, Agreement>, today: RealDate): nat {
    |set k | k in agreements && SealedLately(agreements[k], today)|
  }

  lemma {:induction false} DaysBackExists(d: RealDate, n: nat)
    requires n < Ordinal(d)
    ensures DaysBack(d, n).Some?
  {
    if n > 0 {
      hide Ordinal, DayBefore;
      DaysBackExists(d, n - 1);
      if DayBefore(DaysBack(d, n - 1).value).None? {
        OnlyFirstDay(DaysBack(d, n - 1).value);
      }
    }
  }

  lemma OnlyFirstDay(d: RealDate)
    requires DayBefore(d).None?
    ensures Ordinal(d) == 1
  {
  }

  lemma NinetyDaysBack(today: RealDate)
    requires today.year >= 2
    ensures DaysBack(today, 90).Some?
  {
    OrdinalOfIndex(today);
    LaterOrSame(24, MonthIndex(today));
    assert DaysBeforeIndex(24) == 365 by { YearLength(1); }
    hide Ordinal, DaysBeforeIndex;
    DaysBackExists(today, 90);
  }

  lemma WithinByNumber(d: RealDate, start: RealDate, end: RealDate)
    ensures Within(d, (start, end)) <==> Ordinal(start) <= Ordinal(d) <= Ordinal(end)
  {
    hide Ordinal;
    OrdinalOrders(d, start);
    OrdinalOrders(end, d);
  }

  lemma RollingWindow(agreements: map<nat, Agreement>, today: RealDate)
    requires today.year >= 2
    ensures DaysBack(today, 90).Some?
    ensures SealedInWindow(agreements, (DaysBack(today, 90).value, today)) == RollingCount(agreements, today)
  {
    NinetyDaysBack(today);
    var start := DaysBack(today, 90).value;
    forall k | k in agreements ensures Counts(agreements[k], (start, today)) <==> SealedLately(agreements[k], today) {
      hide Ordinal, Within, DaysBack;
      if agreements[k].sealedOn.Some? {
        WithinByNumber(agreements[k].sealedOn.value, start, today);
      }
    }
    hide Counts, SealedLately, DaysBack;
    assert Counted(agreements, (start, today)) == set k | k in agreements && SealedLately(agreements[k], today);
  }

  lemma LaterOrSame(i: nat, j: nat)
    requires i <= j
    ensures DaysBeforeIndex(j) >= DaysBeforeIndex(i)
  {
    if i < j {
      LaterIndex(i, j);
    }
  }

  lemma WindowStarts(d: RealDate)
    ensures MonthWindow(d).0 == FirstOfMonth(d)
  {
  }

  /** _check_business_misuse: fifteen seals in the last ninety days, or the cap reached in exactly the
      three latest months. */
  method CheckBusinessMisuse(plan: Plan, agreements: map<nat, Agreement>, today: RealDate) returns (misuse: bool)
    requires today.year >= 2
    ensures misuse <==>
      && plan.personal
      && (RollingCount(agreements, today) >= 15 || AtCapFor(plan, agreements, today, 3))
  {
    hide RollingCount, SealedInWindow, SealedInMonth, DaysBack, Ordinal, MonthWindow, DayBefore, FirstOfMonth;
    if !plan.personal {
      return false;
    }
    RollingWindow(agreements, today);
    var rollingStart := DaysBack(today, 90).value;
    if SealedInWindow(agreements, (rollingStart, today)) >= MISUSE_ROLLING {
      return true;
    }
    var monthsAtCap := 0;
    var checkDate := today;
    for i := 0 to MISUSE_MONTHS
      invariant monthsAtCap == i && AtCapFor(plan, agreements, today, i)
      invariant MonthsBack(today, i) == Some(checkDate)
    {
      var window := MonthWindow(checkDate);
      WindowIsMonth(agreements, checkDate);
      assert AtCap(plan, agreements, today, i) <==> SealedInWindow(agreements, window) >= plan.cap;
      if SealedInWindow(agreements, window) < plan.cap {
        return false;
      }
      monthsAtCap := monthsAtCap + 1;
      BackFromYearTwo(today, i + 1);
      WindowStarts(checkDate);
      var earlier := DayBefore(window.0);
      checkDate := earlier.value;
    }
    return monthsAtCap >= MISUSE_MONTHS;
  }
}
