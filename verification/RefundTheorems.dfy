/** Refunds over whole runs of the protocol: any number of RefundPayment calls, each at its own point between the
    provider, the refunds table and the payments table, among all the other parties. */
module RefundTheorems {
  import opened Errors
  import opened Models
  import opened Broker
  import opened AsyncService
  import opened PaymentService
  import opened ServiceCalls
  import opened Pipeline
  import opened PipelineSafety
  import opened PipelineTheorems

  /** Accepted, and about to be recorded. */
  ghost function Awaiting(c: Call): multiset<Refund> {
    if c.StoringRefund? then multiset{Entry(c.payment, c.amount)} else multiset{}
  }

  /** The row that this call stored and reported stored. */
  ghost function Stored(c: Call): multiset<Refund> {
    if c.Saving? && c.next.ThenRefunded? then multiset{c.next.entry}
    else if c.Over? && c.ok && c.end.AfterRefund? then multiset{c.end.entry}
    else multiset{}
  }

  /** The step ends a call whose refund the provider accepted with no row stored: the provider's acceptance reached
      the call as an error, the row's insert took no effect, or the call died before it. */
  predicate LosesRefund(d: Desk, step: CallStep, e: Refund) {
    && !step.Begin? && step.call < |d.calls|
    && var c := d.calls[step.call];
       match step
       case RefundReturns(_, answer) => c.Refunding? && Entry(c.payment, c.amount) == e && answer.AcceptedWithError?
       case StoreRefund(_, insert, _) => c.StoringRefund? && Entry(c.payment, c.amount) == e && insert.NotCommitted?
       case Die(_) => c.StoringRefund? && Entry(c.payment, c.amount) == e
       case _ => false
  }

  predicate Loses(s: State, step: Step, e: Refund) {
    step.Serve? && LosesRefund(s.desk, step.call, e)
  }

  /** How many steps of a run do. */
  ghost function CountLost(r: RetryStrategy, s: State, steps: seq<Step>, e: Refund): nat
    requires Legal(r, s, steps)
    decreases steps
  {
    if |steps| == 0 then 0
    else (if Loses(s, steps[0], e) then 1 else 0) + CountLost(r, Apply(r, s, steps[0]), steps[1..], e)
  }

  // ---------------------------------------------------------------------------------------
  // One step
  // ---------------------------------------------------------------------------------------

  ghost function Before(d: Desk, step: CallStep, held: Call -> multiset<Refund>): multiset<Refund> {
    if step.Begin? || step.call >= |d.calls| then multiset{} else held(d.calls[step.call])
  }

  /** How a step changes what the calls hold. */
  lemma GatherStep(r: RetryStrategy, db: Table, d: Desk, step: CallStep, held: Call -> multiset<Refund>, e: Refund)
    requires CallEnabled(db, d, step)
    ensures Gather(DeskAfter(r, db, d, step).calls, held)[e] + Before(d, step, held)[e]
         == Gather(d.calls, held)[e] + held(Place(r, db, d, step))[e]
  {
    if step.Begin? {
      GatherAppend(d.calls, held, Place(r, db, d, step));
    } else {
      GatherUpdate(d.calls, held, step.call, Place(r, db, d, step));
    }
  }

  /** What the call a step moves holds after it. */
  lemma AwaitingPlace(r: RetryStrategy, db: Table, d: Desk, step: CallStep)
    requires CallEnabled(db, d, step)
    ensures Awaiting(Place(r, db, d, step))
         == if step.RefundReturns? && step.refund.Accepted?
            then multiset{Entry(d.calls[step.call].payment, d.calls[step.call].amount)} else multiset{}
  {
  }

  lemma OtherStepsStoreNothing(r: RetryStrategy, db: Table, d: Desk, step: CallStep)
    requires CallEnabled(db, d, step) && !step.StoreRefund? && !step.Save?
    ensures Stored(Place(r, db, d, step)) == multiset{}
  {
  }

  lemma SavesKeepStored(r: RetryStrategy, db: Table, d: Desk, step: CallStep)
    requires CallEnabled(db, d, step) && step.Save?
    ensures Stored(Place(r, db, d, step)) <= Stored(d.calls[step.call])
  {
  }

  lemma StoredPlace(r: RetryStrategy, db: Table, d: Desk, step: CallStep)
    requires CallEnabled(db, d, step)
    ensures Stored(Place(r, db, d, step))
         <= if step.StoreRefund? && step.insert.Committed?
            then multiset{Entry(d.calls[step.call].payment, d.calls[step.call].amount)} else Before(d, step, Stored)
  {
    if step.Save? {
      SavesKeepStored(r, db, d, step);
    } else if !step.StoreRefund? {
      OtherStepsStoreNothing(r, db, d, step);
    }
  }

  /** What a step adds to the accepted refunds it adds to the rows, to the losses, or to what its call holds. */
  lemma AwaitingStep(db: Table, d: Desk, step: CallStep, b: Books, now: multiset<Refund>, e: Refund)
    requires CallEnabled(db, d, step) && b == BooksAfter(d, step)
    requires now == if step.RefundReturns? && step.refund.Accepted?
                    then multiset{Entry(d.calls[step.call].payment, d.calls[step.call].amount)} else multiset{}
    ensures b.accepted[e] + d.books.stored[e] + Before(d, step, Awaiting)[e]
         == d.books.accepted[e] + b.stored[e] + now[e] + if LosesRefund(d, step, e) then 1 else 0
  {
    if step.RefundReturns? || step.StoreRefund? || step.Die? {
      var c := d.calls[step.call];
      assert c.Refunding? || c.StoringRefund?
          ==> multiset{Entry(c.payment, c.amount)}[e] == if Entry(c.payment, c.amount) == e then 1 else 0;
    }
  }

  /** A call holds no stored row that its step has not stored. */
  lemma StoredStep(db: Table, d: Desk, step: CallStep, b: Books, now: multiset<Refund>, e: Refund)
    requires CallEnabled(db, d, step) && b == BooksAfter(d, step)
    requires now <= if step.StoreRefund? && step.insert.Committed?
                    then multiset{Entry(d.calls[step.call].payment, d.calls[step.call].amount)}
                    else Before(d, step, Stored)
    ensures d.books.stored[e] + now[e] <= b.stored[e] + Before(d, step, Stored)[e]
  {
  }

  // ---------------------------------------------------------------------------------------
  // Whole runs
  // ---------------------------------------------------------------------------------------

  lemma BooksStep(r: RetryStrategy, s: State, step: Step, t: Desk, e: Refund)
    requires Enabled(s, step) && t == Apply(r, s, step).desk
    ensures t.books.accepted[e] + s.desk.books.stored[e] + Gather(s.desk.calls, Awaiting)[e]
         == s.desk.books.accepted[e] + t.books.stored[e] + Gather(t.calls, Awaiting)[e]
            + if Loses(s, step, e) then 1 else 0
    ensures Gather(s.desk.calls, Stored)[e] <= s.desk.books.stored[e]
            ==> Gather(t.calls, Stored)[e] <= t.books.stored[e]
  {
    if step.Serve? {
      var c := Place(r, s.db, s.desk, step.call);
      GatherStep(r, s.db, s.desk, step.call, Awaiting, e);
      GatherStep(r, s.db, s.desk, step.call, Stored, e);
      AwaitingPlace(r, s.db, s.desk, step.call);
      StoredPlace(r, s.db, s.desk, step.call);
      AwaitingStep(s.db, s.desk, step.call, t.books, Awaiting(c), e);
      StoredStep(s.db, s.desk, step.call, t.books, Stored(c), e);
    } else {
      OthersKeepCalls(r, s, step);
    }
  }

  /** What became of the refunds accepted in a run. */
  lemma {:induction false} BooksAlong(r: RetryStrategy, s: State, steps: seq<Step>, e: Refund)
    requires Legal(r, s, steps)
    ensures var t := Exec(r, s, steps).desk;
            && t.books.accepted[e] + s.desk.books.stored[e] + Gather(s.desk.calls, Awaiting)[e]
               == s.desk.books.accepted[e] + t.books.stored[e] + Gather(t.calls, Awaiting)[e]
                   + CountLost(r, s, steps, e)
            && (Gather(s.desk.calls, Stored)[e] <= s.desk.books.stored[e]
                ==> Gather(t.calls, Stored)[e] <= t.books.stored[e])
    decreases steps
  {
    if |steps| > 0 {
      var next := Apply(r, s, steps[0]);
      BooksStep(r, s, steps[0], next.desk, e);
      BooksAlong(r, next, steps[1..], e);
    }
  }

  /** Over every run of all parties, failing anywhere: the refund rows are a sub-multiset of the refunds the providers
      accepted; what is missing of each refund is as many as the run has steps that lose it, and those that calls
      still at work are about to record; and the calls that returned nil have each their own row. */
  lemma RefundsAgree(r: RetryStrategy, workers: nat, updaters: nat, steps: seq<Step>, e: Refund)
    requires Legal(r, Init(workers, updaters), steps)
    ensures var d := Exec(r, Init(workers, updaters), steps).desk;
            var lost := CountLost(r, Init(workers, updaters), steps, e);
            && d.books.stored <= d.books.accepted
            && d.books.accepted[e] == d.books.stored[e] + lost + Gather(d.calls, Awaiting)[e]
            && ((forall i: nat | i < |d.calls| :: !d.calls[i].StoringRefund?)
                ==> d.books.accepted[e] - d.books.stored[e] == lost)
            && Gather(d.calls, Stored)[e] <= d.books.stored[e]
  {
    var s := Init(workers, updaters);
    var d := Exec(r, s, steps).desk;
    BooksAlong(r, s, steps, e);
    forall x: Refund ensures d.books.stored[x] <= d.books.accepted[x] {
      BooksAlong(r, s, steps, x);
    }
    if forall i: nat | i < |d.calls| :: !d.calls[i].StoringRefund? {
      GatherNothing(d.calls, Awaiting);
    }
  }

  // ---------------------------------------------------------------------------------------
  // A refund that returned nil
  // ---------------------------------------------------------------------------------------

  /** A call about to save a refund holds the refunded payment that the row is for. */
  ghost predicate RefundsFit(d: Desk) {
    forall i: nat | i < |d.calls| && d.calls[i].Saving? && d.calls[i].next.ThenRefunded? ::
      d.calls[i].payment.status == Refunded && d.calls[i].next.entry.paymentId == d.calls[i].payment.id
  }

  lemma RefundsFitKept(r: RetryStrategy, s: State, step: Step)
    requires Enabled(s, step) && RefundsFit(s.desk)
    ensures RefundsFit(Apply(r, s, step).desk)
  {
    if step.Serve? {
      OneCallMoves(r, s.db, s.desk, step.call);
    } else {
      OthersKeepCalls(r, s, step);
    }
  }

  /** The order's row is that payment's and says refunded. */
  predicate SaysRefunded(t: Table, e: Refund) {
    && Has(t, e.paymentId.orderId)
    && Find(t, e.paymentId.orderId).value.id == e.paymentId
    && Find(t, e.paymentId.orderId).value.status == Refunded
  }

  /** A call comes to return nil for a refund only by storing the refunded payment. */
  lemma ReturningSaves(r: RetryStrategy, s: State, step: Step, i: nat, e: Refund)
    requires TableFit(s) && RefundsFit(s.desk) && Enabled(s, step)
    requires i < |Apply(r, s, step).desk.calls| && Apply(r, s, step).desk.calls[i] == Over(true, AfterRefund(e))
    requires i < |s.desk.calls| ==> s.desk.calls[i] != Over(true, AfterRefund(e))
    ensures SaysRefunded(Apply(r, s, step).db, e)
  {
    if !step.Serve? {
      OthersKeepCalls(r, s, step);
      assert false;
    } else {
      OneCallMoves(r, s.db, s.desk, step.call);
      SavesRefunded(r, s, step.call, e);
    }
  }

  lemma SavesRefunded(r: RetryStrategy, s: State, step: CallStep, e: Refund)
    requires TableFit(s) && RefundsFit(s.desk) && CallEnabled(s.db, s.desk, step)
    requires Place(r, s.db, s.desk, step) == Over(true, AfterRefund(e))
    ensures SaysRefunded(TableAfter(s.db, s.desk, step), e)
  {
    var p := s.desk.calls[step.call].payment;
    FindAfterUpsert(s.db, p, p.orderId);
  }

  predicate HasReturned(d: Desk, i: nat, e: Refund) {
    i < |d.calls| && d.calls[i] == Over(true, AfterRefund(e))
  }

  predicate NotOver(d: Desk, i: nat) {
    i < |d.calls| ==> !d.calls[i].Over?
  }

  /** Step k - 1 of the run is the one in which the call returned. */
  ghost predicate ReturnsAt(r: RetryStrategy, s: State, steps: seq<Step>, k: nat, i: nat, e: Refund) {
    && 0 < k <= |steps| && Legal(r, s, steps[..k - 1]) && Legal(r, s, steps[..k])
    && NotOver(Exec(r, s, steps[..k - 1]).desk, i)
    && HasReturned(Exec(r, s, steps[..k]).desk, i, e)
  }

  lemma ReturnsNow(r: RetryStrategy, s: State, steps: seq<Step>, i: nat, e: Refund)
    requires |steps| > 0 && Enabled(s, steps[0]) && NotOver(s.desk, i) && HasReturned(Apply(r, s, steps[0]).desk, i, e)
    ensures ReturnsAt(r, s, steps, 1, i, e) && Exec(r, s, steps[..1]) == Apply(r, s, steps[0])
  {
    assert steps[..0] == [] && steps[..1] == [steps[0]];
    OneStep(r, s, steps[0]);
  }

  lemma ReturnsLater(r: RetryStrategy, s: State, steps: seq<Step>, m: nat, i: nat, e: Refund)
    requires |steps| > 0 && Enabled(s, steps[0]) && ReturnsAt(r, Apply(r, s, steps[0]), steps[1..], m, i, e)
    ensures ReturnsAt(r, s, steps, m + 1, i, e)
    ensures Exec(r, s, steps[..m + 1]) == Exec(r, Apply(r, s, steps[0]), steps[1..][..m])
  {
    assert steps[..m + 1][1..] == steps[1..][..m];
    assert steps[..m][1..] == steps[1..][..m - 1];
  }

  /** The moment a refund call returned nil. */
  lemma {:induction false} NilRefundMoment(r: RetryStrategy, s: State, steps: seq<Step>, i: nat,
                                           e: Refund) returns (k: nat)
    requires WellFormed(r, s) && RefundsFit(s.desk) && Legal(r, s, steps)
    requires HasReturned(Exec(r, s, steps).desk, i, e) && NotOver(s.desk, i)
    ensures ReturnsAt(r, s, steps, k, i, e)
    ensures WellFormed(r, Exec(r, s, steps[..k])) && SaysRefunded(Exec(r, s, steps[..k]).db, e)
    decreases steps
  {
    var next := Apply(r, s, steps[0]);
    WellFormedKept(r, s, steps[0]);
    RefundsFitKept(r, s, steps[0]);
    if NotOver(next.desk, i) {
      var m := NilRefundMoment(r, next, steps[1..], i, e);
      ReturnsLater(r, s, steps, m, i, e);
      k := m + 1;
    } else {
      OverStays(r, next, steps[1..], i);
      ReturningSaves(r, s, steps[0], i, e);
      ReturnsNow(r, s, steps, i, e);
      k := 1;
    }
  }

  lemma ReturnedHasRow(r: RetryStrategy, workers: nat, updaters: nat, steps: seq<Step>, i: nat, e: Refund)
    requires Legal(r, Init(workers, updaters), steps)
    requires HasReturned(Exec(r, Init(workers, updaters), steps).desk, i, e)
    ensures e in Exec(r, Init(workers, updaters), steps).desk.books.stored
  {
    RefundsAgree(r, workers, updaters, steps, e);
    GatherUpdate(Exec(r, Init(workers, updaters), steps).desk.calls, Stored, i, FAILED);
  }

  lemma SplitAt(r: RetryStrategy, s: State, steps: seq<Step>, k: nat)
    requires k <= |steps| && Legal(r, s, steps)
    ensures Legal(r, s, steps[..k]) && Legal(r, Exec(r, s, steps[..k]), steps[k..])
    ensures Exec(r, Exec(r, s, steps[..k]), steps[k..]) == Exec(r, s, steps)
  {
    assert steps[..k] + steps[k..] == steps;
    ExecSplit(r, s, steps[..k], steps[k..]);
  }

  lemma StaysRefunded(r: RetryStrategy, u: State, steps: seq<Step>, e: Refund)
    requires WellFormed(r, u) && Legal(r, u, steps) && SaysRefunded(u.db, e)
    ensures StatusUntouched(r, u, steps, e.paymentId.orderId) ==> SaysRefunded(Exec(r, u, steps).db, e)
  {
    RedeliveriesChangeNothing(r, u, steps, e.paymentId.orderId);
  }

  /** In every run of all parties, a RefundPayment that returned nil has its row, and at the moment it returned the
      payment's row said refunded; and it still does, unless a status consumer or the payment service has written that
      order's row since. */
  lemma NilRefundIsStored(r: RetryStrategy, workers: nat, updaters: nat, steps: seq<Step>, i: nat,
                          e: Refund) returns (k: nat)
    requires Legal(r, Init(workers, updaters), steps)
    requires HasReturned(Exec(r, Init(workers, updaters), steps).desk, i, e)
    ensures var s0 := Init(workers, updaters);
            && ReturnsAt(r, s0, steps, k, i, e)
            && var u, s := Exec(r, s0, steps[..k]), Exec(r, s0, steps);
               && e in s.desk.books.stored
               && SaysRefunded(u.db, e)
               && Legal(r, u, steps[k..])
               && (StatusUntouched(r, u, steps[k..], e.paymentId.orderId) ==> SaysRefunded(s.db, e))
  {
    var s0 := Init(workers, updaters);
    InvInit(r, workers, updaters);
    k := NilRefundMoment(r, s0, steps, i, e);
    SplitAt(r, s0, steps, k);
    ReturnedHasRow(r, workers, updaters, steps, i, e);
    StaysRefunded(r, Exec(r, s0, steps[..k]), steps[k..], e);
  }
}
