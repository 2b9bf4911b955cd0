/** auth/services.py: login codes of one phone that is not a demo account: when they may be sent, and
    how often they may be tried. */
module LoginCodes {
  import opened Wrappers

  const SEND_GAP := 60             // _OTP_RATE_TTL_SECONDS
  const HOUR := 3600
  const SENDS_PER_HOUR := 5        // _OTP_RATE_LIMIT_PER_HOUR
  const CODE_LIFE := 300           // _OTP_TTL_SECONDS
  const MAX_TRIES := 5             // _OTP_MAX_ATTEMPTS
  const LOCK := 900                // _OTP_LOCKOUT_SECONDS

  datatype Code = Code(hash: string, expiresAt: int, tries: nat, used: bool)

  datatype Tally = Tally(count: nat, deadline: int)

  /** The rows of one phone, in the order they were made, and its three cache entries. */
  datatype Desk = Desk(now: int, codes: seq<Code>, gap: Option<int>, hourly: Option<Tally>, lock: Option<int>)

  predicate Holds(deadline: Option<int>, now: int) {
    deadline.Some? && now < deadline.value
  }

  function SentThisHour(d: Desk): nat {
    if d.hourly.Some? && d.now < d.hourly.value.deadline then d.hourly.value.count else 0
  }

  /** send_otp; None is a DomainError. */
  function Send(d: Desk, hash: string): Option<Desk> {
    if Holds(d.lock, d.now) || Holds(d.gap, d.now) || SentThisHour(d) >= SENDS_PER_HOUR then None
    else Some(d.(gap := Some(d.now + SEND_GAP), hourly := Some(Tally(SentThisHour(d) + 1, d.now + HOUR)),
                 codes := d.codes + [Code(hash, d.now + CODE_LIFE, 0, false)]))
  }

  predicate Usable(c: Code, now: int) {
    !c.used && c.expiresAt >= now
  }

  /** The newest unused code that has not expired. */
  function NewestUsable(codes: seq<Code>, now: int): (r: Option<nat>)
    ensures r.Some? ==> r.value < |codes| && Usable(codes[r.value], now)
    ensures forall i :: (if r.Some? then r.value + 1 else 0) <= i < |codes| ==> !Usable(codes[i], now)
  {
    if codes == [] then None
    else if Usable(codes[|codes| - 1], now) then Some(|codes| - 1)
    else NewestUsable(codes[..|codes| - 1], now)
  }

  datatype Verdict = LockedOut | NoCode | Exhausted | Wrong(code: nat) | LoggedIn(code: nat)

  /** verify_otp; its failures are raised after the transaction, so what they wrote stays. */
  function Verify(check: (string, string) -> bool, d: Desk, otp: string): (Desk, Verdict) {
    if Holds(d.lock, d.now) then (d, LockedOut) else
    var found := NewestUsable(d.codes, d.now);
    if found.None? then (d, NoCode) else
    var i := found.value;
    var c := d.codes[i];
    if c.tries >= MAX_TRIES then (d.(lock := Some(d.now + LOCK)), Exhausted)
    else if !check(otp, c.hash) then
      var missed := d.(codes := d.codes[i := c.(tries := c.tries + 1)]);
      (if c.tries + 1 >= MAX_TRIES then missed.(lock := Some(d.now + LOCK)) else missed, Wrong(i))
    else (d.(lock := None, codes := d.codes[i := c.(used := true)]), LoggedIn(i))
  }

  datatype Call = Wait(seconds: nat) | SendCode(hash: string) | TryCode(otp: string)

  function Next(check: (string, string) -> bool, d: Desk, a: Call): Desk {
    match a
    case Wait(seconds) => d.(now := d.now + seconds)
    case SendCode(hash) => var r := Send(d, hash); if r.Some? then r.value else d
    case TryCode(otp) => Verify(check, d, otp).0
  }

  datatype History = History(states: seq<Desk>, calls: seq<Call>) {
    ghost predicate Valid(check: (string, string) -> bool) {
      && |states| == |calls| + 1
      && states[0].codes == [] && states[0].gap == None && states[0].hourly == None && states[0].lock == None
      && forall i: nat :: i < |calls| ==> Follows(check, i)
    }

    ghost predicate Follows(check: (string, string) -> bool, i: nat)
      requires i < |calls| && |states| == |calls| + 1
    {
      states[i + 1] == Next(check, states[i], calls[i])
    }
  }

  // ---- How often codes are sent ----

  /** Step i sent a code. */
  predicate Sends(h: History, i: nat)
    requires |h.states| == |h.calls| + 1 && i < |h.calls|
  {
    h.calls[i].SendCode? && Send(h.states[i], h.calls[i].hash).Some?
  }

  /** The times of the first n steps' sends, in order. */
  function SendTimes(h: History, n: nat): seq<int>
    requires |h.states| == |h.calls| + 1 && n <= |h.calls|
  {
    if n == 0 then []
    else SendTimes(h, n - 1) + if Sends(h, n - 1) then [h.states[n - 1].now] else []
  }

  /** The number of sends at the end of the list that follow each other within an hour. */
  function Burst(times: seq<int>): nat {
    if |times| <= 1 then |times|
    else if times[|times| - 1] - times[|times| - 2] < 3600 then Burst(times[..|times| - 1]) + 1
    else 1
  }

  function GapAfter(times: seq<int>, i: nat): int
    requires i < |times| - 1
  {
    times[i + 1] - times[i]
  }

  ghost predicate Spaced(times: seq<int>) {
    && (forall i: nat :: i < |times| - 1 ==> GapAfter(times, i) >= SEND_GAP)
    && (forall n :: 0 <= n <= |times| ==> Burst(times[..n]) <= SENDS_PER_HOUR)
  }

  /** The cache remembers the last send for a minute, and the burst for an hour after it. */
  ghost predicate Counted(d: Desk, times: seq<int>) {
    if times == [] then d.gap.None? && d.hourly.None? else
    var last := times[|times| - 1];
    last <= d.now && d.gap == Some(last + SEND_GAP) && d.hourly == Some(Tally(Burst(times), last + HOUR))
  }

  lemma SendingSpaces(d: Desk, times: seq<int>, hash: string)
    requires Spaced(times) && Counted(d, times) && Send(d, hash).Some?
    ensures Spaced(times + [d.now]) && Counted(Send(d, hash).value, times + [d.now])
  {
    var after := times + [d.now];
    assert after[..|times|] == times;
    forall i: nat | i < |after| - 1 ensures GapAfter(after, i) >= SEND_GAP {
      assert i < |times| - 1 ==> GapAfter(after, i) == GapAfter(times, i);
    }
    forall n | 0 <= n <= |after| ensures Burst(after[..n]) <= SENDS_PER_HOUR {
      if n <= |times| {
        assert after[..n] == times[..n];
      } else {
        assert after[..n] == after;
      }
    }
  }

  lemma CountedStep(check: (string, string) -> bool, d: Desk, a: Call, times: seq<int>)
    requires Counted(d, times) && !(a.SendCode? && Send(d, a.hash).Some?)
    ensures Counted(Next(check, d, a), times)
  {
  }

  lemma {:induction false} SendsAreSpaced(check: (string, string) -> bool, h: History, n: nat)
    requires h.Valid(check) && n < |h.states|
    ensures Spaced(SendTimes(h, n)) && Counted(h.states[n], SendTimes(h, n))
  {
    if n > 0 {
      SendsAreSpaced(check, h, n - 1);
      assert h.Follows(check, n - 1);
      var times := SendTimes(h, n - 1);
      if Sends(h, n - 1) {
        SendingSpaces(h.states[n - 1], times, h.calls[n - 1].hash);
      } else {
        assert SendTimes(h, n) == times;
        CountedStep(check, h.states[n - 1], h.calls[n - 1], times);
      }
    }
  }

  /** In every run a code is sent exactly if the phone is not locked, the last send is a minute ago, and five
      sends have not followed each other up to less than an hour ago. */
  lemma SendsExactly(check: (string, string) -> bool, h: History, n: nat)
    requires h.Valid(check) && n < |h.calls| && h.calls[n].SendCode?
    ensures var d, times := h.states[n], SendTimes(h, n);
      Sends(h, n) <==>
        && !Holds(d.lock, d.now)
        && (times == [] || d.now - times[|times| - 1] >= 60)
        && (times == [] || d.now - times[|times| - 1] >= 3600 || Burst(times) < 5)
  {
    SendsAreSpaced(check, h, n);
  }

  lemma {:induction false} BurstOf(times: seq<int>, i: nat)
    requires i < |times| && forall k: nat :: i <= k < |times| - 1 ==> GapAfter(times, k) < HOUR
    ensures Burst(times) >= |times| - i
  {
    if i < |times| - 1 {
      var front := times[..|times| - 1];
      assert GapAfter(times, |times| - 2) < HOUR;
      assert forall k: nat :: i <= k < |front| - 1 ==> GapAfter(front, k) == GapAfter(times, k);
      BurstOf(front, i);
    }
  }

  /** Sends are a minute apart, and at most five follow each other with less than an hour in between. */
  lemma AtMostFiveInARow(check: (string, string) -> bool, h: History, n: nat, i: nat, j: nat)
    requires h.Valid(check) && n < |h.states| && i <= j < |SendTimes(h, n)|
    requires forall k: nat :: i <= k < j ==> GapAfter(SendTimes(h, n), k) < 3600
    ensures j - i + 1 <= 5
    ensures SendTimes(h, n)[j] - SendTimes(h, n)[i] >= 60 * (j - i)
  {
    var times := SendTimes(h, n);
    SendsAreSpaced(check, h, n);
    var front := times[..j + 1];
    forall k: nat | i <= k < j ensures GapAfter(front, k) < HOUR {
      assert GapAfter(times, k) < HOUR;
    }
    BurstOf(front, i);
    SpreadOut(times, i, j);
  }

  lemma {:induction false} SpreadOut(times: seq<int>, i: nat, j: nat)
    requires Spaced(times) && i <= j < |times|
    ensures times[j] - times[i] >= SEND_GAP * (j - i)
  {
    if i < j {
      SpreadOut(times, i, j - 1);
      assert GapAfter(times, j - 1) >= SEND_GAP;
    }
  }

  /** So at most five fall into any 3600 seconds. */
  lemma AtMostFiveAnHour(check: (string, string) -> bool, h: History, n: nat, i: nat, j: nat)
    requires h.Valid(check) && n < |h.states| && i <= j < |SendTimes(h, n)|
    requires SendTimes(h, n)[j] - SendTimes(h, n)[i] < 3600
    ensures j - i + 1 <= 5
  {
    var times := SendTimes(h, n);
    SendsAreSpaced(check, h, n);
    forall k: nat | i <= k < j ensures GapAfter(times, k) < HOUR {
      SpreadOut(times, i, k);
      SpreadOut(times, k + 1, j);
    }
    AtMostFiveInARow(check, h, n, i, j);
  }

  // ---- How often a code is used ----

  /** Step i logged in with code c. */
  ghost predicate UsesCode(check: (string, string) -> bool, h: History, i: nat, c: nat)
    requires |h.states| == |h.calls| + 1 && i < |h.calls|
  {
    h.calls[i].TryCode? && Verify(check, h.states[i], h.calls[i].otp).1 == LoggedIn(c)
  }

  predicate IsUsed(d: Desk, c: nat) {
    c < |d.codes| && d.codes[c].used
  }

  lemma {:induction false} UsedStays(check: (string, string) -> bool, h: History, i: nat, j: nat, c: nat)
    requires h.Valid(check) && i <= j < |h.states| && IsUsed(h.states[i], c)
    ensures IsUsed(h.states[j], c)
  {
    if i < j {
      UsedStays(check, h, i, j - 1, c);
      assert h.Follows(check, j - 1);
    }
  }

  /** Each code logs in at most once. */
  lemma CodeUsedOnce(check: (string, string) -> bool, h: History, i: nat, j: nat, c: nat)
    requires h.Valid(check) && i < |h.calls| && j < |h.calls|
    requires UsesCode(check, h, i, c) && UsesCode(check, h, j, c)
    ensures i == j
  {
    var first, second := if i <= j then i else j, if i <= j then j else i;
    assert h.Follows(check, first);
    if first < second {
      UsedStays(check, h, first + 1, second, c);
    }
  }

  /** Code c is the newest that is unused and has not expired, with tries left, and the phone is not locked. */
  predicate Takes(d: Desk, c: nat) {
    && (d.lock.None? || d.lock.value <= d.now)
    && c < |d.codes| && !d.codes[c].used && d.now <= d.codes[c].expiresAt && d.codes[c].tries < 5
    && forall i :: c < i < |d.codes| ==> d.codes[i].used || d.codes[i].expiresAt < d.now
  }

  lemma NewestTakes(d: Desk, c: nat)
    ensures Takes(d, c) <==>
      !Holds(d.lock, d.now) && NewestUsable(d.codes, d.now) == Some(c) && d.codes[c].tries < MAX_TRIES
  {
    var found := NewestUsable(d.codes, d.now);
    if Takes(d, c) {
      assert found.Some? && found.value == c;
    }
  }

  /** In every run a try logs in with a code exactly if that code takes tries and the entered one checks
      against its hash; it is a wrong try on it exactly if the check fails. */
  lemma LogsInExactly(check: (string, string) -> bool, h: History, n: nat, c: nat)
    requires h.Valid(check) && n < |h.calls| && h.calls[n].TryCode?
    ensures UsesCode(check, h, n, c) <==> Takes(h.states[n], c) && check(h.calls[n].otp, h.states[n].codes[c].hash)
    ensures MissesCode(check, h, n, c) <==> Takes(h.states[n], c) && !check(h.calls[n].otp, h.states[n].codes[c].hash)
  {
    NewestTakes(h.states[n], c);
  }

  /** Step i was a wrong try on code c. */
  ghost predicate MissesCode(check: (string, string) -> bool, h: History, i: nat, c: nat)
    requires |h.states| == |h.calls| + 1 && i < |h.calls|
  {
    h.calls[i].TryCode? && Verify(check, h.states[i], h.calls[i].otp).1 == Wrong(c)
  }

  ghost function MissesOn(check: (string, string) -> bool, h: History, c: nat, n: nat): nat
    requires |h.states| == |h.calls| + 1 && n <= |h.calls|
  {
    if n == 0 then 0 else MissesOn(check, h, c, n - 1) + if MissesCode(check, h, n - 1, c) then 1 else 0
  }

  /** Step i sent code c: its hash and its time are the code's. */
  predicate SentAt(h: History, i: nat, c: nat, code: Code)
    requires |h.states| == |h.calls| + 1 && i < |h.calls|
  {
    && Sends(h, i) && |h.states[i].codes| == c
    && code.hash == h.calls[i].hash && code.expiresAt == h.states[i].now + 300
  }

  lemma StepKeepsCode(check: (string, string) -> bool, d: Desk, a: Call, c: nat)
    requires c < |d.codes|
    ensures var d' := Next(check, d, a);
      && c < |d'.codes| && d'.codes[c].hash == d.codes[c].hash && d'.codes[c].expiresAt == d.codes[c].expiresAt
      && d'.codes[c].tries == d.codes[c].tries +
           if a.TryCode? && Verify(check, d, a.otp).1 == Wrong(c) then 1 else 0
  {
  }

  /** Every code was sent once, and counts the wrong tries on it. */
  lemma {:induction false} SentAndCounted(check: (string, string) -> bool, h: History, n: nat, c: nat) returns (i: nat)
    requires h.Valid(check) && n < |h.states| && c < |h.states[n].codes|
    ensures i < n && SentAt(h, i, c, h.states[n].codes[c])
    ensures h.states[n].codes[c].tries == MissesOn(check, h, c, n)
  {
    assert h.Follows(check, n - 1);
    if c < |h.states[n - 1].codes| {
      StepKeepsCode(check, h.states[n - 1], h.calls[n - 1], c);
      i := SentAndCounted(check, h, n - 1, c);
    } else {
      i := n - 1;
      NotMissedYet(check, h, n, c);
    }
  }

  lemma {:induction false} NotMissedYet(check: (string, string) -> bool, h: History, n: nat, c: nat)
    requires h.Valid(check) && n < |h.states| && (n == 0 || |h.states[n - 1].codes| <= c)
    ensures MissesOn(check, h, c, n) == 0
  {
    if n > 0 {
      assert h.Follows(check, n - 1);
      if n > 1 {
        assert h.Follows(check, n - 2);
      }
      NotMissedYet(check, h, n - 1, c);
    }
  }

  /** A login is the entry of a code sent at most 300 seconds before, with fewer than five wrong tries on it,
      and checks against what was sent. */
  lemma LoginNeedsSend(check: (string, string) -> bool, h: History, n: nat, c: nat) returns (i: nat)
    requires h.Valid(check) && n < |h.calls| && UsesCode(check, h, n, c)
    ensures i < n && Sends(h, i) && |h.states[i].codes| == c && check(h.calls[n].otp, h.calls[i].hash)
    ensures h.states[n].now - h.states[i].now <= 300 && MissesOn(check, h, c, n) < 5
  {
    LogsInExactly(check, h, n, c);
    i := SentAndCounted(check, h, n, c);
  }

  // ---- The lock ----

  /** Step i was the fifth wrong try on a code. */
  ghost predicate FifthMiss(check: (string, string) -> bool, h: History, i: nat)
    requires |h.states| == |h.calls| + 1 && i < |h.calls|
  {
    && h.calls[i].TryCode?
    && var v := Verify(check, h.states[i], h.calls[i].otp).1;
    v.Wrong? && v.code < |h.states[i].codes| && h.states[i].codes[v.code].tries + 1 == 5
  }

  lemma {:induction false} LockStays(check: (string, string) -> bool, h: History, i: nat, j: nat, until: int)
    requires h.Valid(check) && i <= j < |h.states|
    requires h.states[i].lock.Some? && h.states[i].lock.value >= until && h.states[j].now < until
    ensures h.states[j].lock.Some? && h.states[j].lock.value >= until
    ensures h.states[i].now <= h.states[j].now
  {
    if i < j {
      assert h.Follows(check, j - 1);
      assert h.states[j - 1].now <= h.states[j].now;
      LockStays(check, h, i, j - 1, until);
    }
  }

  /** After the fifth wrong try on a code, no code logs this phone in, or is sent, for 900 seconds. */
  lemma FifthMissLocks(check: (string, string) -> bool, h: History, i: nat, j: nat, c: nat)
    requires h.Valid(check) && i < j < |h.calls| && FifthMiss(check, h, i)
    requires h.states[j].now < h.states[i].now + 900
    ensures !UsesCode(check, h, j, c) && !Sends(h, j)
  {
    assert h.Follows(check, i);
    LockStays(check, h, i + 1, j, h.states[i].now + LOCK);
  }

  /** A try while the newest usable code has no tries left logs nobody in and locks the phone anew. */
  lemma ExhaustedLocksAgain(check: (string, string) -> bool, h: History, n: nat, c: nat)
    requires h.Valid(check) && n < |h.calls| && h.calls[n].TryCode?
    requires var d := h.states[n];
      && (d.lock.None? || d.lock.value <= d.now) && c < |d.codes| && d.codes[c].tries >= 5
      && !d.codes[c].used && d.now <= d.codes[c].expiresAt
      && forall i :: c < i < |d.codes| ==> d.codes[i].used || d.codes[i].expiresAt < d.now
    ensures h.states[n + 1] == h.states[n].(lock := Some(h.states[n].now + 900))
    ensures forall k :: !UsesCode(check, h, n, k)
  {
    assert h.Follows(check, n);
    var found := NewestUsable(h.states[n].codes, h.states[n].now);
    assert found == Some(c);
  }

  /** Code c is the newest that is unused and has not expired, and the phone is not locked. */
  predicate IsTried(d: Desk, c: nat) {
    && (d.lock.None? || d.lock.value <= d.now)
    && c < |d.codes| && !d.codes[c].used && d.now <= d.codes[c].expiresAt
    && forall i :: c < i < |d.codes| ==> d.codes[i].used || d.codes[i].expiresAt < d.now
  }

  /** A call locks the phone, for 900 seconds, exactly if it is a try on a code that has no tries left or a
      wrong one that takes its last; only a login unlocks it before. */
  lemma LocksExactly(check: (string, string) -> bool, h: History, n: nat)
    requires h.Valid(check) && n < |h.calls|
    ensures var d, a := h.states[n], h.calls[n];
      h.states[n + 1].lock ==
        if a.TryCode? && exists c: nat :: IsTried(d, c) && LastTry(check, d, c, a.otp) then Some(d.now + 900)
        else if a.TryCode? && exists c: nat :: UsesCode(check, h, n, c) then None
        else d.lock
  {
    var d := h.states[n];
    assert h.Follows(check, n);
    var found := NewestUsable(d.codes, d.now);
    if found.Some? && !Holds(d.lock, d.now) {
      assert IsTried(d, found.value);
    }
    if h.calls[n].TryCode? && Verify(check, d, h.calls[n].otp).1.LoggedIn? {
      assert UsesCode(check, h, n, found.value);
    }
  }

  predicate LastTry(check: (string, string) -> bool, d: Desk, c: nat, otp: string)
    requires c < |d.codes|
  {
    d.codes[c].tries >= 5 || (d.codes[c].tries == 4 && !check(otp, d.codes[c].hash))
  }

  ghost predicate TriesBounded(d: Desk) {
    forall c <- d.codes :: c.tries <= 5
  }

  /** No code is ever tried wrongly more than five times. */
  lemma {:induction false} AtMostFiveMisses(check: (string, string) -> bool, h: History, n: nat)
    requires h.Valid(check) && n < |h.states|
    ensures TriesBounded(h.states[n])
  {
    if n > 0 {
      AtMostFiveMisses(check, h, n - 1);
      assert h.Follows(check, n - 1);
      TriesStep(check, h.states[n - 1], h.calls[n - 1]);
    }
  }

  lemma TriesStep(check: (string, string) -> bool, d: Desk, a: Call)
    requires TriesBounded(d)
    ensures TriesBounded(Next(check, d, a))
  {
    var d' := Next(check, d, a);
    forall i | 0 <= i < |d'.codes| ensures d'.codes[i].tries <= MAX_TRIES {
      assert i < |d.codes| ==> d.codes[i] in d.codes;
    }
  }

  // ---- The rows, updated in place ----

  class OtpDesk {
    var now: int
    var codes: seq<Code>
    var gap: Option<int>
    var hourly: Option<Tally>
    var lock: Option<int>

    function View(): Desk
      reads this
    {
      Desk(now, codes, gap, hourly, lock)
    }

    /** send_otp */
    method SendOtp(hash: string) returns (sent: bool)
      modifies `gap, `hourly, `codes
      ensures sent == Send(old(View()), hash).Some?
      ensures View() == if sent then Send(old(View()), hash).value else old(View())
    {
      if Holds(lock, now) || Holds(gap, now) {
        return false;
      }
      var count := if hourly.Some? && now < hourly.value.deadline then hourly.value.count else 0;
      if count >= SENDS_PER_HOUR {
        return false;
      }
      gap := Some(now + SEND_GAP);
      hourly := Some(Tally(count + 1, now + HOUR));
      codes := codes + [Code(hash, now + CODE_LIFE, 0, false)];
      return true;
    }

    method FindUsable() returns (found: Option<nat>)
      ensures found == NewestUsable(codes, now)
    {
      var i := |codes|;
      while i > 0
        invariant 0 <= i <= |codes|
        invariant NewestUsable(codes, now) == NewestUsable(codes[..i], now)
      {
        assert codes[..i][..i - 1] == codes[..i - 1];
        i := i - 1;
        if Usable(codes[i], now) {
          return Some(i);
        }
      }
      return None;
    }

    /** verify_otp */
    method VerifyOtp(check: (string, string) -> bool, otp: string) returns (verdict: Verdict)
      modifies `codes, `lock
      ensures (View(), verdict) == Verify(check, old(View()), otp)
    {
      if Holds(lock, now) {
        return LockedOut;
      }
      var found := FindUsable();
      if found.None? {
        return NoCode;
      }
      var i := found.value;
      if codes[i].tries >= MAX_TRIES {
        lock := Some(now + LOCK);
        return Exhausted;
      }
      if !check(otp, codes[i].hash) {
        codes := codes[i := codes[i].(tries := codes[i].tries + 1)];
        if codes[i].tries >= MAX_TRIES {
          lock := Some(now + LOCK);
        }
        return Wrong(i);
      }
      lock := None;
      codes := codes[i := codes[i].(used := true)];
      return LoggedIn(i);
    }
  }
}
