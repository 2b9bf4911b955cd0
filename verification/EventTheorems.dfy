/** A webhook event and the workers that handle it: when its handler can run, and run again. */
module EventTheorems {
  import opened Wrappers
  import opened Text
  import opened Payments
  import opened PaymentTheorems
  import opened Histories

  /** The worker has the event in hand. */
  predicate Holds(b: Books, worker: nat, id: string) {
    worker in b.log.running && b.log.running[worker].id == id
  }

  /** The worker has read the event and not run its handler yet. */
  predicate HasRead(b: Books, worker: nat, id: string) {
    Holds(b, worker, id) && b.log.running[worker].Fetched?
  }

  /** What a call does to the log: processed events stay so, and only an unprocessed one is taken up. */
  ghost predicate LogMoves(b: Books, after: Books) {
    && (forall id :: IsProcessed(b, id) ==> IsProcessed(after, id))
    && (forall worker, id :: Holds(after, worker, id) && !Holds(b, worker, id) ==> !IsProcessed(b, id))
    && (forall worker, id :: HasRead(after, worker, id) && !HasRead(b, worker, id) ==> !IsProcessed(b, id))
  }

  lemma LogStep(t: Alphabet, b: Books, a: Call)
    requires Linked(b)
    ensures LogMoves(b, Next(t, b, a))
  {
    hide Linked, LogMoves, FetchEvent, MarkEvent, RunEvent;
    hide Poll, Initiate, InitiateRecovery, CancelSubscription, Lapsed;
    match a
    case Receive(id, e) => ReceivingMoves(t, b, id, e);
    case Fetch(worker, id) => FetchingMoves(b, worker, id);
    case Run(worker) => RunningMoves(t, b, worker);
    case Mark(worker) => MarkingMoves(b, worker);
    case Lose(worker) => LosingMoves(t, b, worker);
    case PollStatus(account, reference, remote) =>
      PollKeepsLog(t, b, account, reference, remote);
      SameLogMoves(b, Next(t, b, a));
    case _ =>
      StartsKeepLog(b, a);
      SameLogMoves(b, Next(t, b, a));
  }

  lemma SameLogMoves(b: Books, after: Books)
    requires after.log == b.log
    ensures LogMoves(b, after)
  {
  }

  lemma ReceivingMoves(t: Alphabet, b: Books, id: string, e: PaystackEvent)
    ensures LogMoves(b, Next(t, b, Receive(id, e)))
  {
  }

  lemma FetchingMoves(b: Books, worker: nat, id: string)
    ensures LogMoves(b, FetchEvent(b, worker, id))
  {
  }

  lemma RunningMoves(t: Alphabet, b: Books, worker: nat)
    ensures LogMoves(b, RunEvent(t, b, worker))
  {
    hide Handle;
  }

  lemma MarkingMoves(b: Books, worker: nat)
    ensures LogMoves(b, MarkEvent(b, worker))
  {
  }

  lemma LosingMoves(t: Alphabet, b: Books, worker: nat)
    ensures LogMoves(b, Next(t, b, Lose(worker)))
  {
  }

  lemma PollKeepsLog(t: Alphabet, b: Books, account: nat, reference: string, remote: Remote)
    requires Linked(b)
    ensures Or(Poll(t, b, account, reference, remote), b).log == b.log
  {
    hide Reconcile, Linked;
    if remote.Success? {
      ReconcileGrows(t, b, remote.charge);
    }
  }

  lemma StartsKeepLog(b: Books, a: Call)
    ensures a.StartSubscription? ==>
      Or(Initiate(b, a.account, a.planId, a.reference, a.ready), b).log == b.log
    ensures a.StartRecovery? ==>
      Or(InitiateRecovery(b, a.account, a.planId, a.reference, a.ready), b).log == b.log
    ensures a.StopSubscription? ==> Or(CancelSubscription(b, a.account, a.confirmed), b).log == b.log
  {
    hide CheckoutByRef, CurrentSub, HasOpenCheckout;
  }

  lemma LogStepAt(t: Alphabet, h: History, i: nat)
    requires h.Valid(t) && i < |h.calls|
    ensures LogMoves(h.states[i], h.states[i + 1])
  {
    hide Next, LogMoves;
    AlwaysLinked(t, h, i);
    assert h.Follows(t, i);
    LogStep(t, h.states[i], h.calls[i]);
  }

  /** Once an event is processed, only the workers that have it in hand by then can still handle it. */
  lemma {:induction false} ProcessedIsNotTakenUp(t: Alphabet, h: History, i: nat, j: nat, worker: nat, id: string)
    requires h.Valid(t) && i <= j < |h.states| && IsProcessed(h.states[i], id)
    ensures IsProcessed(h.states[j], id)
    ensures Holds(h.states[j], worker, id) ==> Holds(h.states[i], worker, id)
  {
    hide Next, IsProcessed, Holds;
    if i < j {
      ProcessedIsNotTakenUp(t, h, i, j - 1, worker, id);
      LogStepAt(t, h, j - 1);
    }
  }

  /** Step i marked the event processed. */
  predicate Marks(h: History, i: nat, id: string)
    requires |h.states| == |h.calls| + 1 && i < |h.calls|
  {
    && h.calls[i].Mark? && Holds(h.states[i], h.calls[i].worker, id)
    && h.states[i].log.running[h.calls[i].worker].Ran? && !h.states[i].log.running[h.calls[i].worker].raised
    && id in h.states[i].log.rows
  }

  /** Two workers have the event in hand at once. */
  ghost predicate Overlaps(b: Books, id: string) {
    exists u, v :: u != v && Holds(b, u, id) && Holds(b, v, id)
  }

  lemma MarkingFrees(t: Alphabet, h: History, i: nat, id: string, v: nat)
    requires h.Valid(t) && i < |h.calls| && Marks(h, i, id)
    ensures IsProcessed(h.states[i + 1], id)
    ensures Holds(h.states[i + 1], v, id) ==> v != h.calls[i].worker && Holds(h.states[i], v, id)
  {
    assert h.Follows(t, i);
  }

  /** An event is marked processed twice only if two workers had it in hand at once, at the time the first of
      them marked it. */
  lemma MarkedTwiceMeansOverlap(t: Alphabet, h: History, i: nat, j: nat, id: string)
    requires h.Valid(t) && i < j < |h.calls| && Marks(h, i, id) && Marks(h, j, id)
    ensures Overlaps(h.states[i], id)
  {
    hide Next, IsProcessed, Holds;
    var u, v := h.calls[i].worker, h.calls[j].worker;
    MarkingFrees(t, h, i, id, v);
    ProcessedIsNotTakenUp(t, h, i + 1, j, v, id);
    assert Holds(h.states[j], v, id) && Holds(h.states[i], u, id) && Holds(h.states[i], v, id) && u != v;
  }

  /** And then it is: two workers that have both read an event both run its handler. */
  lemma OverlapRunsTwice(t: Alphabet, b: Books, u: nat, v: nat, id: string)
    requires Linked(b) && u != v && Holds(b, u, id) && Holds(b, v, id) && id in b.log.rows
    requires b.log.running[u].Fetched? && b.log.running[v].Fetched?
    ensures var e, once := b.log.rows[id].event, RunEvent(t, b, u);
      && EventOf(once, v) == Some(e)
      && RunEvent(t, once, v) ==
         Handle(t, once, e).0.(log := RunEvent(t, once, v).log)
  {
    hide Handle, Linked;
  }

  /** A worker that marks its event frees itself; a handler that raised leaves the event to be read again, with a
      note, and one that did not settles it. */
  lemma MarksExactly(b: Books, worker: nat, id: string, raised: bool)
    requires worker in b.log.running && b.log.running[worker] == Ran(id, raised)
    ensures var after := MarkEvent(b, worker);
      && after == b.(log := after.log) && after.log.running == b.log.running - {worker}
      && after.log.rows == (if id in b.log.rows then b.log.rows[id := after.log.rows[id]] else b.log.rows)
      && (id in b.log.rows ==>
            && after.log.rows[id].event == b.log.rows[id].event && after.log.rows[id].failed == raised
            && (after.log.rows[id].processed <==> !raised || b.log.rows[id].processed))
  {
  }

  // ---- When the handler can still run ----

  /** Step i ran the handler of the event. */
  predicate RunsHandler(h: History, i: nat, id: string)
    requires |h.states| == |h.calls| + 1
  {
    && i < |h.calls| && h.calls[i].Run?
    && HasRead(h.states[i], h.calls[i].worker, id) && EventOf(h.states[i], h.calls[i].worker).Some?
  }

  /** The event is not processed, or some worker has read it. */
  ghost predicate CanStillRun(b: Books, id: string) {
    !IsProcessed(b, id) || exists worker :: HasRead(b, worker, id)
  }

  /** Its handler runs only while that is so. */
  lemma {:induction false} RunsOnlyWhile(t: Alphabet, h: History, i: nat, j: nat, id: string)
    requires h.Valid(t) && i <= j < |h.states| && CanStillRun(h.states[j], id)
    ensures CanStillRun(h.states[i], id)
  {
    hide Next, IsProcessed, HasRead;
    if i < j {
      LogStepAt(t, h, j - 1);
      RunsOnlyWhile(t, h, i, j - 1, id);
    }
  }

  lemma FreeWorker(b: Books) returns (worker: nat)
    ensures worker !in b.log.running
  {
    if b.log.running == map[] {
      worker := 0;
    } else {
      HasNewest(b.log.running.Keys);
      var top :| top in b.log.running.Keys && forall l <- b.log.running.Keys :: l <= top;
      worker := top + 1;
    }
  }

  /** A worker that has read a recorded event runs its handler. */
  lemma ReaderRuns(t: Alphabet, h: History, worker: nat, id: string) returns (after: History)
    requires h.Valid(t) && HasRead(Last(h), worker, id) && id in Last(h).log.rows
    ensures after.Valid(t) && Prolongs(h, after) && RunsHandler(after, |h.calls|, id)
  {
    hide Next;
    after := Do(t, h, Run(worker));
    assert after.states[|h.calls|] == Last(h);
  }

  /** A recorded event that is not processed is read by a free worker. */
  lemma FreeReads(t: Alphabet, h: History, id: string) returns (after: History, worker: nat)
    requires h.Valid(t) && id in Last(h).log.rows && !IsProcessed(Last(h), id)
    ensures after.Valid(t) && Prolongs(h, after) && |after.calls| == |h.calls| + 1
    ensures HasRead(Last(after), worker, id) && id in Last(after).log.rows
  {
    worker := FreeWorker(Last(h));
    after := Do(t, h, Fetch(worker, id));
  }

  lemma Recorded(t: Alphabet, h: History, id: string) returns (after: History)
    requires h.Valid(t) && !IsProcessed(Last(h), id)
    ensures after.Valid(t) && Prolongs(h, after)
    ensures id in Last(after).log.rows && !IsProcessed(Last(after), id)
  {
    after := Do(t, h, Receive(id, OtherEvent));
  }

  ghost predicate RunsLater(t: Alphabet, h: History, after: History, j: nat, id: string) {
    after.Valid(t) && Prolongs(h, after) && |h.calls| <= j && RunsHandler(after, j, id)
  }

  lemma RunsOnce(t: Alphabet, h: History, id: string) returns (after: History, j: nat)
    requires h.Valid(t) && CanStillRun(Last(h), id)
    ensures RunsLater(t, h, after, j, id)
  {
    hide Next, RunsHandler;
    if IsProcessed(Last(h), id) {
      var worker :| HasRead(Last(h), worker, id);
      after := ReaderRuns(t, h, worker, id);
      j := |h.calls|;
    } else {
      var recorded := Recorded(t, h, id);
      var read, worker := FreeReads(t, recorded, id);
      after := ReaderRuns(t, read, worker, id);
      j := |read.calls|;
    }
  }

  /** After any run, the handler of an event can run, again or for the first time, if and only if the event
      is not processed or some worker has read it and not run the handler yet. */
  lemma CanRunExactly(t: Alphabet, h: History, id: string)
    requires h.Valid(t)
    ensures (exists after: History, j: nat :: RunsLater(t, h, after, j, id)) <==> CanStillRun(Last(h), id)
  {
    hide Next, IsProcessed, RunsLater;
    if CanStillRun(Last(h), id) {
      var after, j := RunsOnce(t, h, id);
    }
    if after: History, j: nat :| RunsLater(t, h, after, j, id) {
      LaterIsRun(t, h, after, j, id);
      RunsOnlyWhile(t, after, |h.calls|, j, id);
    }
  }

  lemma LaterIsRun(t: Alphabet, h: History, after: History, j: nat, id: string)
    requires h.Valid(t) && RunsLater(t, h, after, j, id)
    ensures after.Valid(t) && |h.calls| <= j < |after.states| && CanStillRun(after.states[j], id)
    ensures after.states[|h.calls|] == Last(h)
  {
    hide Next, IsProcessed;
  }
}
