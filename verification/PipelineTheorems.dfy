/** What the pipeline guarantees, over whole runs. */
module PipelineTheorems {
  import opened Errors
  import opened Models
  import opened Broker
  import opened AsyncService
  import opened ServiceCalls
  import opened Pipeline
  import opened PipelineSafety

  /** Some number of consumers can get here from the empty system. */
  ghost predicate Reachable(r: RetryStrategy, s: State) {
    exists workers: nat, updaters: nat, steps: seq<Step> ::
      Legal(r, Init(workers, updaters), steps) && s == Exec(r, Init(workers, updaters), steps)
  }

  lemma ReachableInv(r: RetryStrategy, s: State)
    requires Reachable(r, s)
    ensures Inv(r, s)
  {
    var workers: nat, updaters: nat, steps: seq<Step> :|
      Legal(r, Init(workers, updaters), steps) && s == Exec(r, Init(workers, updaters), steps);
    InvInit(r, workers, updaters);
    InvAlong(r, Init(workers, updaters), steps);
  }

  lemma ReachableOn(r: RetryStrategy, s: State, more: seq<Step>)
    requires Reachable(r, s) && Legal(r, s, more)
    ensures Reachable(r, Exec(r, s, more))
  {
    var workers: nat, updaters: nat, steps: seq<Step> :|
      Legal(r, Init(workers, updaters), steps) && s == Exec(r, Init(workers, updaters), steps);
    ExecAppend(r, Init(workers, updaters), steps, more);
  }

  /** In every reachable state, with any number of consumers, in any interleaving, through crashes, redeliveries,
      ambiguous writes, duplicated publications and expiry: an order has at most one row; at most one notification
      of its receipt was sent, and only if it has that row; no message copy was lost or duplicated; and, if the
      strategy allows an attempt at all, every acknowledged message of either queue has a row, and only unreadable
      bodies were dropped. */
  lemma SafetyOfEveryRun(r: RetryStrategy, s: State, o: OrderId)
    requires Reachable(r, s)
    ensures CountReceived(s.notes, o) <= CountRows(s.db, o) <= 1
    ensures Conserved(s.payments) && Conserved(s.statuses)
    ensures r.maxAttempts >= 1 ==>
              && (forall b | b in s.payments.acked :: b.Json? && CountRows(s.db, b.msg.orderId) == 1)
              && (forall b | b in s.statuses.acked :: b.Json? && CountRows(s.db, b.msg.orderId) == 1)
              && (forall b | b in s.payments.dropped :: b.Malformed?)
              && (forall b | b in s.statuses.dropped :: b.Malformed?)
  {
    ReachableInv(r, s);
    assert Receipts(s, o) <= if Has(s.db, o) then 1 else 0;
    UniqueMeansOneRow(s.db, o);
    if r.maxAttempts >= 1 {
      forall b | b in s.payments.acked ensures b.Json? && CountRows(s.db, b.msg.orderId) == 1 {
        assert Recorded(s.db, Some(b));
        UniqueMeansOneRow(s.db, b.msg.orderId);
      }
      forall b | b in s.statuses.acked ensures b.Json? && CountRows(s.db, b.msg.orderId) == 1 {
        assert StatusRecorded(s.db, Some(b));
        UniqueMeansOneRow(s.db, b.msg.orderId);
      }
    }
  }

  // ---------------------------------------------------------------------------------------
  // Published, drained, recorded
  // ---------------------------------------------------------------------------------------

  ghost predicate PaymentsDrained(s: State) {
    && s.payments.ready == multiset{}
    && forall i: nat | i < |s.payments.unacked| :: s.payments.unacked[i] == None
  }

  /** Once the payments queue has drained, every payment message of which a copy did not expire has exactly one row. */
  lemma DrainedIsRecorded(r: RetryStrategy, s: State, msg: PaymentMessage)
    requires Reachable(r, s) && r.maxAttempts >= 1 && PaymentsDrained(s)
    requires s.payments.published[Json(msg)] > s.payments.expired[Json(msg)]
    ensures CountRows(s.db, msg.orderId) == 1
  {
    ReachableInv(r, s);
    GatherNothing(s.payments.unacked, HeldBySlot);
    assert Json(msg) !in s.payments.dropped;
    assert Json(msg) in s.payments.acked;
    assert Recorded(s.db, Some(Json(msg)));
    UniqueMeansOneRow(s.db, msg.orderId);
  }

  /** The exception is needed: whatever its strategy, the system can reach a state with a payment and a status message
      published, both queues drained, and no row. */
  lemma ExpiryLosesMessages(r: RetryStrategy, msg: PaymentMessage, change: StatusMessage) returns (s: State)
    ensures Reachable(r, s) && s.db == [] && PaymentsDrained(s)
    ensures s.payments.published == multiset{Json(msg)} == s.payments.expired
    ensures s.statuses.published == multiset{Json(change)} == s.statuses.expired && s.statuses.ready == multiset{}
  {
    var s0 := Init(0, 0);
    assert Legal(r, s0, []);
    assert Reachable(r, s0);
    var s1 := ReachableStep(r, s0, PublishPayment(Json(msg)));
    var s2 := ReachableStep(r, s1, ExpirePayment(Json(msg)));
    var s3 := ReachableStep(r, s2, PublishStatus(Json(change)));
    s := ReachableStep(r, s3, ExpireStatus(Json(change)));
  }

  lemma ReachableStep(r: RetryStrategy, s: State, step: Step) returns (t: State)
    requires Reachable(r, s) && Enabled(s, step)
    ensures t == Apply(r, s, step) && Reachable(r, t)
  {
    OneStep(r, s, step);
    ReachableOn(r, s, [step]);
    t := Apply(r, s, step);
  }

  lemma {:induction false} OverStays(r: RetryStrategy, s: State, steps: seq<Step>, i: nat)
    requires Legal(r, s, steps) && i < |s.desk.calls| && s.desk.calls[i].Over?
    ensures i < |Exec(r, s, steps).desk.calls| && Exec(r, s, steps).desk.calls[i] == s.desk.calls[i]
    decreases steps
  {
    if |steps| > 0 {
      if steps[0].Serve? {
        OneCallMoves(r, s.db, s.desk, steps[0].call);
      }
      OverStays(r, Apply(r, s, steps[0]), steps[1..], i);
    }
  }

  /** The payment message whose publication returned nil. */
  ghost function ReturnedNil(c: Call): multiset<PaymentMessage> {
    if NilPublication(c) then multiset{c.end.out.payment} else multiset{}
  }

  /** The one of which the copy it returned nil for was lost. */
  ghost function SilentlyLost(c: Call): multiset<PaymentMessage> {
    if NilPublication(c) && c.end.silent then multiset{c.end.out.payment} else multiset{}
  }

  lemma {:induction false} NilIsConfirmedOrLost(calls: seq<Call>, msg: PaymentMessage)
    ensures Gather(calls, ReturnedNil)[msg] == Gather(calls, Confirmed)[msg] + Gather(calls, SilentlyLost)[msg]
  {
    if |calls| > 0 {
      NilIsConfirmedOrLost(calls[1..], msg);
    }
  }

  /** End to end, with the publisher one of the parties: other steps may come between its attempts and its pauses. If
      a call of ProcessPaymentAsync has returned nil, then whatever happens afterwards, once the payments queue has
      drained the order has exactly one row; unless, counting the copies of the message that expired and those that
      were lost without an error, they are as many as its publications that returned nil. */
  lemma AsyncPaymentIsRecorded(r: RetryStrategy, s: State, i: nat, msg: PaymentMessage, silent: bool, after: seq<Step>)
    requires Reachable(r, s) && r.maxAttempts >= 1
    requires i < |s.desk.calls| && s.desk.calls[i] == Over(true, AfterSending(PaymentOut(msg), silent))
    requires Legal(r, s, after) && PaymentsDrained(Exec(r, s, after))
    ensures var t := Exec(r, s, after);
            || CountRows(t.db, msg.orderId) == 1
            || t.payments.expired[Json(msg)] + Gather(t.desk.calls, SilentlyLost)[msg]
               >= Gather(t.desk.calls, ReturnedNil)[msg] >= 1
  {
    ReachableOn(r, s, after);
    OverStays(r, s, after, i);
    ReturnedAndDrained(r, Exec(r, s, after), i, msg, silent);
  }

  lemma ReturnedAndDrained(r: RetryStrategy, t: State, i: nat, msg: PaymentMessage, silent: bool)
    requires Reachable(r, t) && r.maxAttempts >= 1 && PaymentsDrained(t)
    requires i < |t.desk.calls| && t.desk.calls[i] == Over(true, AfterSending(PaymentOut(msg), silent))
    ensures || CountRows(t.db, msg.orderId) == 1
            || t.payments.expired[Json(msg)] + Gather(t.desk.calls, SilentlyLost)[msg]
               >= Gather(t.desk.calls, ReturnedNil)[msg] >= 1
  {
    ReachableInv(r, t);
    GatherUpdate(t.desk.calls, ReturnedNil, i, FAILED);
    assert ReturnedNil(t.desk.calls[i])[msg] == 1;
    NilIsConfirmedOrLost(t.desk.calls, msg);
    assert Gather(t.desk.calls, Confirmed)[msg] <= t.payments.published[Json(msg)];
    if t.payments.expired[Json(msg)] < t.payments.published[Json(msg)] {
      DrainedIsRecorded(r, t, msg);
    }
  }

  // ---------------------------------------------------------------------------------------
  // Status messages and statuses
  // ---------------------------------------------------------------------------------------

  /** While an order has no row, every copy of a status message for it is still ready, in flight, or expired. */
  lemma EarlyStatusOnlyExpires(r: RetryStrategy, s: State, msg: StatusMessage)
    requires Reachable(r, s) && r.maxAttempts >= 1 && !Has(s.db, msg.orderId)
    ensures var q := s.statuses;
            q.published[Json(msg)] == q.ready[Json(msg)] + InFlight(q)[Json(msg)] + q.expired[Json(msg)]
  {
    ReachableInv(r, s);
    assert Json(msg) in s.statuses.acked ==> StatusRecorded(s.db, Some(Json(msg)));
    assert Json(msg) !in s.statuses.acked && Json(msg) !in s.statuses.dropped;
  }

  /** A provider said this status of the transaction. */
  ghost predicate SaidOf(answers: set<Answer>, tid: string, st: Status) {
    || SaidStatus(tid, st) in answers
    || SaidEvent(tid, st) in answers
    || (st == Refunded && SaidRefunded(tid) in answers)
  }

  /** In every reachable state a row's status was put into a message for that order by a caller; or a provider
      answered with it when the order was charged; or it is failed and a charge of the order ended in an error; or a
      provider said it of a transaction, one it had given to that order itself, or none at all. And the row's
      transaction, if it has one, was given to it. */
  lemma StatusProvenance(r: RetryStrategy, s: State, o: OrderId)
    requires Reachable(r, s) && Has(s.db, o)
    ensures var row, said := Find(s.db, o).value, s.desk.answers;
            && (|| (o, row.status) in s.desk.claimed
                || (exists tid: string :: SaidCharged(o, tid, row.status) in said)
                || (row.status == Failed && SaidError(o) in said)
                || (exists tid: string :: Owns(said, o, tid) && SaidOf(said, tid, row.status)))
            && Owns(said, o, row.transactionId)
  {
    ReachableInv(r, s);
    FindSome(s.db, o);
    var row := Find(s.db, o).value;
    var i: nat :| i < |s.db| && s.db[i] == row;
    assert RowSourced(s.desk, s.db[i]);
    if (o, row.status) !in s.desk.claimed {
      var a: Answer :| a in s.desk.answers && Gives(s.desk.answers, a, o, row.status);
      assert !a.SaidCharged? && !a.SaidError? ==> SaidOf(s.desk.answers, a.transactionId, row.status);
    }
  }

  /** What the history says a provider said, it said in a step of the run. */
  lemma {:induction false} AnswersAreSteps(r: RetryStrategy, s: State, steps: seq<Step>, a: Answer) returns (k: nat)
    requires Legal(r, s, steps) && a in Exec(r, s, steps).desk.answers && a !in s.desk.answers
    ensures k < |steps| && Legal(r, s, steps[..k]) && steps[k].Serve?
    ensures a in Heard(Exec(r, s, steps[..k]).desk, steps[k].call)
    decreases steps
  {
    var next := Apply(r, s, steps[0]);
    if a in next.desk.answers {
      k := 0;
      assert steps[..0] == [];
    } else {
      var m := AnswersAreSteps(r, next, steps[1..], a);
      k := m + 1;
      assert steps[..k][1..] == steps[1..][..m];
    }
  }

  predicate ClaimsStatus(step: Step, o: OrderId, st: Status) {
    match step
    case PublishPayment(b) => b.Json? && b.msg.orderId == o && b.msg.status == st
    case PublishStatus(b) => b.Json? && b.msg.orderId == o && b.msg.newStatus == st
    case Serve(call) => (o, st) in Claims(call)
    case _ => false
  }

  /** And what it says a caller claimed was in a message of the run. */
  lemma {:induction false} ClaimsAreSteps(r: RetryStrategy, s: State, steps: seq<Step>, o: OrderId,
                                          st: Status) returns (k: nat)
    requires Legal(r, s, steps) && (o, st) in Exec(r, s, steps).desk.claimed && (o, st) !in s.desk.claimed
    ensures k < |steps| && ClaimsStatus(steps[k], o, st)
    decreases steps
  {
    var next := Apply(r, s, steps[0]);
    if (o, st) in next.desk.claimed {
      k := 0;
    } else {
      var m := ClaimsAreSteps(r, next, steps[1..], o, st);
      k := m + 1;
    }
  }

  // ---------------------------------------------------------------------------------------
  // Redelivery
  // ---------------------------------------------------------------------------------------

  /** The step may write the status of an order's row: a status consumer updating it, or the payment service saving
      it. */
  predicate WritesStatus(s: State, step: Step, o: OrderId) {
    || Saves(s, step, o)
    || (step.Update? && HoldsStatus(s, step.updater) && StatusMsg(s, step.updater).orderId == o)
  }

  ghost predicate StatusUntouched(r: RetryStrategy, s: State, steps: seq<Step>, o: OrderId)
    requires Legal(r, s, steps)
    decreases steps
  {
    |steps| > 0 ==> !WritesStatus(s, steps[0], o) && StatusUntouched(r, Apply(r, s, steps[0]), steps[1..], o)
  }

  lemma RecordedRowNext(s: State, step: Step, o: OrderId)
    requires TableFit(s) && Enabled(s, step) && Has(s.db, o) && !WritesStatus(s, step, o)
    ensures Find(TableNext(s, step), o) == Find(s.db, o)
  {
    match step {
      case Create(i, w) =>
        if !Has(s.db, Msg(s, i).orderId) {
          FindAfterInsert(s.db, RowOf(Msg(s, i)), o);
        }
      case Update(i, w) => FindAfterSetStatus(s.db, StatusMsg(s, i).orderId, StatusMsg(s, i).newStatus, o);
      case Serve(Save(i, w)) => SaveStep(s.db, s.desk.calls[i].payment, w, o);
      case _ =>
    }
  }

  lemma RecordedReceipts(r: RetryStrategy, s: State, step: Step, o: OrderId)
    requires WellFormed(r, s) && Enabled(s, step) && Has(s.db, o)
    ensures Receipts(Apply(r, s, step), o) <= Receipts(s, o)
  {
    ReceivedStep(r, s, step, o);
    AnnouncingStep(r, s, step, o);
    if MovedWorker(step).Some? {
      AnnounceAfterCommit(r, s, step, MovedWorker(step).value, o);
    }
  }

  /** Once an order has its row, then in every run, whatever all parties do and however often its payment message is
      delivered, retried or lost by a crash: no more receipts are sent for it than had been sent or were about to be;
      and its row stays as it is, unless a status consumer updates it or the payment service saves it. */
  lemma {:induction false} RedeliveriesChangeNothing(r: RetryStrategy, s: State, steps: seq<Step>, o: OrderId)
    requires WellFormed(r, s) && Legal(r, s, steps) && Has(s.db, o)
    ensures Receipts(Exec(r, s, steps), o) <= Receipts(s, o)
    ensures StatusUntouched(r, s, steps, o) ==> Find(Exec(r, s, steps).db, o) == Find(s.db, o)
    decreases steps
  {
    if |steps| > 0 {
      WellFormedKept(r, s, steps[0]);
      RecordedReceipts(r, s, steps[0], o);
      RowStep(r, s, steps[0], o);
      if !WritesStatus(s, steps[0], o) {
        TableStep(r, s, steps[0]);
        RecordedRowNext(s, steps[0], o);
      }
      RedeliveriesChangeNothing(r, Apply(r, s, steps[0]), steps[1..], o);
    }
  }
}
