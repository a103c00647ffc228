/** What every step of the pipeline keeps, and what therefore holds in every reachable state. */
module PipelineSafety {
  import opened Errors
  import opened Models
  import opened Broker
  import opened AsyncService
  import opened PaymentService
  import opened ServiceCalls
  import opened Pipeline

  // ---------------------------------------------------------------------------------------
  // The shape of a state
  // ---------------------------------------------------------------------------------------

  /** A worker's place in its iteration agrees with what its slot holds. */
  ghost predicate Fit(r: RetryStrategy, pc: PaymentPc, slot: Option<Body<PaymentMessage>>) {
    && (pc.Idle? <==> slot.None?)
    && (!pc.Idle? && !pc.Received? ==> slot.value.Json?)
    && (pc.Checking? || pc.Creating? ==> pc.attempt < r.maxAttempts)
    && (pc.Announcing? ==> pc.note == ReceivedNote(slot.value.msg))
  }

  ghost predicate StatusFit(r: RetryStrategy, pc: StatusPc, slot: Option<Body<StatusMessage>>) {
    && (pc.Waiting? <==> slot.None?)
    && (!pc.Waiting? && !pc.Arriving? ==> slot.value.Json?)
    && (pc.Looking? || pc.Updating? ==> pc.attempt < r.maxAttempts)
    && (pc.Updating? || pc.Telling? ==> pc.note.StatusUpdated?)
  }

  ghost predicate WorkersFit(r: RetryStrategy, s: State) {
    && |s.workers| == |s.payments.unacked|
    && forall i: nat | i < |s.workers| :: Fit(r, s.workers[i], s.payments.unacked[i])
  }

  ghost predicate UpdatersFit(r: RetryStrategy, s: State) {
    && |s.updaters| == |s.statuses.unacked|
    && forall i: nat | i < |s.updaters| :: StatusFit(r, s.updaters[i], s.statuses.unacked[i])
  }

  /** The payment a call holds. */
  function Held(c: Call): Option<Row> {
    match c
    case Charging(p) => Some(p)
    case Refunding(p, _) => Some(p)
    case StoringRefund(p, _) => Some(p)
    case Asking(p) => Some(p)
    case Saving(p, _) => Some(p)
    case _ => None
  }

  ghost predicate CallsIdentified(d: Desk) {
    forall i: nat | i < |d.calls| && Held(d.calls[i]).Some? :: Held(d.calls[i]).value.Identified()
  }

  ghost predicate TableFit(s: State) {
    UniqueOrders(s.db) && AllIdentified(s.db) && CallsIdentified(s.desk)
  }

  ghost predicate WellFormed(r: RetryStrategy, s: State) {
    && WorkersFit(r, s)
    && UpdatersFit(r, s)
    && TableFit(s)
  }

  /** The payment worker a step moves, if any. */
  function MovedWorker(step: Step): Option<nat> {
    match step
    case Take(i, _) => Some(i)
    case Read(i) => Some(i)
    case Check(i, _) => Some(i)
    case Create(i, _) => Some(i)
    case Announce(i, _) => Some(i)
    case Finish(i) => Some(i)
    case Crash(i) => Some(i)
    case _ => None
  }

  function MovedUpdater(step: Step): Option<nat> {
    match step
    case TakeStatus(i, _) => Some(i)
    case ReadStatus(i) => Some(i)
    case Look(i, _) => Some(i)
    case Update(i, _) => Some(i)
    case Tell(i, _) => Some(i)
    case FinishStatus(i) => Some(i)
    case CrashStatus(i) => Some(i)
    case _ => None
  }

  lemma NoWorkerMoves(r: RetryStrategy, s: State, step: Step)
    requires Enabled(s, step) && MovedWorker(step) == None
    ensures var t := Apply(r, s, step); t.workers == s.workers && t.payments.unacked == s.payments.unacked
  {
  }

  lemma ThisWorkerMoves(r: RetryStrategy, s: State, step: Step, i: nat)
    requires Enabled(s, step) && WorkersFit(r, s) && MovedWorker(step) == Some(i)
    ensures var t := Apply(r, s, step);
            && i < |s.workers|
            && |t.workers| == |s.workers| && t.workers == s.workers[i := t.workers[i]]
            && |t.payments.unacked| == |s.workers|
               && t.payments.unacked == s.payments.unacked[i := t.payments.unacked[i]]
            && Fit(r, t.workers[i], t.payments.unacked[i])
  {
  }

  /** A step changes the place and the slot of the worker it moves, and no other. */
  lemma OneWorkerMoves(r: RetryStrategy, s: State, step: Step)
    requires Enabled(s, step) && WorkersFit(r, s)
    ensures var t := Apply(r, s, step);
            match MovedWorker(step)
            case None => t.workers == s.workers && t.payments.unacked == s.payments.unacked
            case Some(i) =>
              && i < |s.workers|
              && |t.workers| == |s.workers| && t.workers == s.workers[i := t.workers[i]]
              && |t.payments.unacked| == |s.workers|
                 && t.payments.unacked == s.payments.unacked[i := t.payments.unacked[i]]
              && Fit(r, t.workers[i], t.payments.unacked[i])
  {
    match MovedWorker(step) {
      case None => NoWorkerMoves(r, s, step);
      case Some(i) => ThisWorkerMoves(r, s, step, i);
    }
  }

  lemma NoUpdaterMoves(r: RetryStrategy, s: State, step: Step)
    requires Enabled(s, step) && MovedUpdater(step) == None
    ensures var t := Apply(r, s, step); t.updaters == s.updaters && t.statuses.unacked == s.statuses.unacked
  {
  }

  lemma ThisUpdaterMoves(r: RetryStrategy, s: State, step: Step, i: nat)
    requires Enabled(s, step) && UpdatersFit(r, s) && MovedUpdater(step) == Some(i)
    ensures var t := Apply(r, s, step);
            && i < |s.updaters|
            && |t.updaters| == |s.updaters| && t.updaters == s.updaters[i := t.updaters[i]]
            && |t.statuses.unacked| == |s.updaters|
               && t.statuses.unacked == s.statuses.unacked[i := t.statuses.unacked[i]]
            && StatusFit(r, t.updaters[i], t.statuses.unacked[i])
  {
  }

  lemma OneUpdaterMoves(r: RetryStrategy, s: State, step: Step)
    requires Enabled(s, step) && UpdatersFit(r, s)
    ensures var t := Apply(r, s, step);
            match MovedUpdater(step)
            case None => t.updaters == s.updaters && t.statuses.unacked == s.statuses.unacked
            case Some(i) =>
              && i < |s.updaters|
              && |t.updaters| == |s.updaters| && t.updaters == s.updaters[i := t.updaters[i]]
              && |t.statuses.unacked| == |s.updaters|
                 && t.statuses.unacked == s.statuses.unacked[i := t.statuses.unacked[i]]
              && StatusFit(r, t.updaters[i], t.statuses.unacked[i])
  {
    match MovedUpdater(step) {
      case None => NoUpdaterMoves(r, s, step);
      case Some(i) => ThisUpdaterMoves(r, s, step, i);
    }
  }

  lemma WellFormedKept(r: RetryStrategy, s: State, step: Step)
    requires WellFormed(r, s) && Enabled(s, step)
    ensures WellFormed(r, Apply(r, s, step))
  {
    OneWorkerMoves(r, s, step);
    OneUpdaterMoves(r, s, step);
    TableKept(r, s, step);
    if step.Serve? {
      CallsIdentifiedKept(r, s, step.call);
    }
  }

  /** What a step does to the table. */
  function TableNext(s: State, step: Step): Table
    requires Enabled(s, step)
  {
    match step
    case Create(i, w) => CreateRow(s.db, Msg(s, i), w).0
    case Update(i, w) => UpdateRow(s.db, StatusMsg(s, i), w).0
    case Serve(call) => TableAfter(s.db, s.desk, call)
    case _ => s.db
  }

  lemma TableStep(r: RetryStrategy, s: State, step: Step)
    requires Enabled(s, step)
    ensures Apply(r, s, step).db == TableNext(s, step)
  {
  }

  lemma TableNextFit(s: State, step: Step)
    requires TableFit(s) && Enabled(s, step)
    ensures UniqueOrders(TableNext(s, step)) && AllIdentified(TableNext(s, step))
  {
    match step {
      case Create(i, w) => WritesKeepUnique(s.db, RowOf(Msg(s, i)), "", Pending);
      case Update(i, w) =>
        var msg := StatusMsg(s, i);
        SetStatusKeepsOrders(s.db, msg.orderId, msg.newStatus);
        SetStatusRows(s.db, msg.orderId, msg.newStatus);
      case Serve(Save(i, w)) => FindAfterUpsert(s.db, s.desk.calls[i].payment, "");
      case _ =>
    }
  }

  lemma TableKept(r: RetryStrategy, s: State, step: Step)
    requires TableFit(s) && Enabled(s, step)
    ensures UniqueOrders(Apply(r, s, step).db) && AllIdentified(Apply(r, s, step).db)
  {
    TableStep(r, s, step);
    TableNextFit(s, step);
  }

  /** A step of a call changes its own place, or adds one. */
  lemma OneCallMoves(r: RetryStrategy, db: Table, d: Desk, step: CallStep)
    requires CallEnabled(db, d, step)
    ensures var calls := DeskAfter(r, db, d, step).calls;
            var i := if step.Begin? then |d.calls| else step.call;
            && i < |calls| && calls[i] == Place(r, db, d, step)
            && |d.calls| <= |calls|
            && forall j: nat | j < |calls| && j != i :: j < |d.calls| && calls[j] == d.calls[j]
  {
  }

  /** The payment a call holds after a step: read from the table, brought by the caller, or the one it held, with other
      values in its mutable fields. */
  lemma HeldAfter(r: RetryStrategy, db: Table, d: Desk, step: CallStep)
    requires CallEnabled(db, d, step) && Held(Place(r, db, d, step)).Some?
    ensures var p := Held(Place(r, db, d, step)).value;
            || (step.Begin? && Presented(db, p))
            || (step.Locate? && exists row | row in db :: p == WebhookFields(row, d.calls[step.call].event, step.now))
            || (!step.Begin? && Held(d.calls[step.call]).Some?
                && var q := Held(d.calls[step.call]).value;
                   p.id == q.id && p.orderId == q.orderId && p.details == q.details
                   && (p.transactionId == q.transactionId
                       || (step.ChargeReturns? && step.charge.Charged?
                           && p.transactionId == step.charge.transactionId)))
  {
  }

  lemma CallsIdentifiedKept(r: RetryStrategy, s: State, step: CallStep)
    requires TableFit(s) && CallEnabled(s.db, s.desk, step)
    ensures CallsIdentified(DeskAfter(r, s.db, s.desk, step))
  {
    OneCallMoves(r, s.db, s.desk, step);
    if Held(Place(r, s.db, s.desk, step)).Some? {
      HeldAfter(r, s.db, s.desk, step);
    }
  }

  // ---------------------------------------------------------------------------------------
  // The table only grows, and keeps what it was told first
  // ---------------------------------------------------------------------------------------

  /** The row a step commits, if it is one that inserts a row for order o. */
  function Commits(s: State, step: Step, o: OrderId): Option<Row> {
    if Has(s.db, o) then None
    else
      match step
      case Create(i, w) =>
        if Holds(s, i) && Msg(s, i).orderId == o && !w.NotCommitted? then Some(RowOf(Msg(s, i))) else None
      case Serve(Save(i, w)) =>
        if Saves(s, step, o) && !w.NotCommitted? then Some(s.desk.calls[i].payment) else None
      case _ => None
  }

  /** The step is the payment service saving a payment of order o. */
  predicate Saves(s: State, step: Step, o: OrderId) {
    && step.Serve? && step.call.Save? && step.call.call < |s.desk.calls|
    && var c := s.desk.calls[step.call.call]; c.Saving? && c.payment.orderId == o
  }

  lemma RowNext(s: State, step: Step, t: Table, o: OrderId)
    requires Enabled(s, step) && TableFit(s) && t == TableNext(s, step)
    ensures Commits(s, step, o).Some? ==> Find(t, o) == Commits(s, step, o)
    ensures Commits(s, step, o).None? ==> (Has(t, o) <==> Has(s.db, o))
    ensures Has(s.db, o) ==> Has(t, o) && SamePayment(Find(s.db, o).value, Find(t, o).value)
    ensures Has(s.db, o) && !Saves(s, step, o) ==> OnlyStatus(Find(s.db, o).value, Find(t, o).value)
  {
    match step {
      case Create(i, w) =>
        if !Has(s.db, Msg(s, i).orderId) {
          FindAfterInsert(s.db, RowOf(Msg(s, i)), o);
        }
      case Update(i, w) => FindAfterSetStatus(s.db, StatusMsg(s, i).orderId, StatusMsg(s, i).newStatus, o);
      case Serve(Save(i, w)) => SaveStep(s.db, s.desk.calls[i].payment, w, o);
      case _ =>
    }
  }

  /** What a step does to one order's row. It appears, exactly when the step commits it and with exactly the committed
      fields; or it stays. Its key and its immutable fields never change, not even when the payment service saves all
      columns; and anything but that save changes its status at most. */
  lemma RowStep(r: RetryStrategy, s: State, step: Step, o: OrderId)
    requires Enabled(s, step) && TableFit(s)
    ensures var t := Apply(r, s, step);
            && (Commits(s, step, o).Some? ==> Find(t.db, o) == Commits(s, step, o))
            && (Commits(s, step, o).None? ==> (Has(t.db, o) <==> Has(s.db, o)))
            && (Has(s.db, o) ==> Has(t.db, o) && SamePayment(Find(s.db, o).value, Find(t.db, o).value))
            && (Has(s.db, o) && !Saves(s, step, o) ==> OnlyStatus(Find(s.db, o).value, Find(t.db, o).value))
  {
    TableStep(r, s, step);
    RowNext(s, step, Apply(r, s, step).db, o);
  }

  predicate SamePayment(x: Row, y: Row) {
    x.id == y.id && x.orderId == y.orderId && x.details == y.details
  }

  predicate OnlyStatus(x: Row, y: Row) {
    y == x.(status := y.status)
  }

  lemma SaveStep(t: Table, p: Row, w: Write, o: OrderId)
    requires UniqueOrders(t) && AllIdentified(t) && p.Identified()
    ensures var u := SaveRow(t, p, w).0;
            && (o != p.orderId ==> Find(u, o) == Find(t, o))
            && (o == p.orderId && !Has(t, o) ==> Find(u, o) == if w.NotCommitted? then None else Some(p))
            && (o == p.orderId && Has(t, o) ==> Has(u, o) && SamePayment(Find(t, o).value, Find(u, o).value))
  {
    FindAfterUpsert(t, p, o);
    if Has(t, p.orderId) {
      FindSome(t, p.orderId);
    }
  }

  /** How many steps of a run commit a row for order o. */
  ghost function CountCommits(r: RetryStrategy, s: State, steps: seq<Step>, o: OrderId): nat
    requires Legal(r, s, steps)
    decreases steps
  {
    if |steps| == 0 then 0
    else (if Commits(s, steps[0], o).Some? then 1 else 0) + CountCommits(r, Apply(r, s, steps[0]), steps[1..], o)
  }

  ghost predicate NeverSaves(r: RetryStrategy, s: State, steps: seq<Step>, o: OrderId)
    requires Legal(r, s, steps)
    decreases steps
  {
    |steps| > 0 ==> !Saves(s, steps[0], o) && NeverSaves(r, Apply(r, s, steps[0]), steps[1..], o)
  }

  /** Exactly-once effect over any run from any well-formed state: the order is committed as often as it gained a row,
      so at most once, and never again once it has one. Its key and immutable fields never change, and in a run in
      which the payment service does not save it nothing but its status does. */
  lemma {:induction false} ExactlyOnceEffect(r: RetryStrategy, s: State, steps: seq<Step>, o: OrderId)
    requires WellFormed(r, s) && Legal(r, s, steps)
    ensures var t := Exec(r, s, steps);
            && WellFormed(r, t)
            && CountRows(t.db, o) == CountRows(s.db, o) + CountCommits(r, s, steps, o) <= 1
            && (Has(s.db, o) ==> Has(t.db, o) && SamePayment(Find(s.db, o).value, Find(t.db, o).value))
            && (Has(s.db, o) && NeverSaves(r, s, steps, o) ==> OnlyStatus(Find(s.db, o).value, Find(t.db, o).value))
    decreases steps
  {
    UniqueMeansOneRow(s.db, o);
    if |steps| > 0 {
      var next := Apply(r, s, steps[0]);
      WellFormedKept(r, s, steps[0]);
      RowStep(r, s, steps[0], o);
      UniqueMeansOneRow(next.db, o);
      ExactlyOnceEffect(r, next, steps[1..], o);
    }
  }

  /** An order that gained a row during a run got it from one step of that run, and still has the key and the
      immutable fields that step wrote. */
  lemma {:induction false} FirstCommitDecides(r: RetryStrategy, s: State, steps: seq<Step>, o: OrderId) returns (n: nat)
    requires WellFormed(r, s) && Legal(r, s, steps)
    requires !Has(s.db, o) && Has(Exec(r, s, steps).db, o)
    ensures n < |steps| && Legal(r, s, steps[..n])
    ensures var commit := Commits(Exec(r, s, steps[..n]), steps[n], o);
            commit.Some? && SamePayment(commit.value, Find(Exec(r, s, steps).db, o).value)
    decreases steps
  {
    var next := Apply(r, s, steps[0]);
    WellFormedKept(r, s, steps[0]);
    RowStep(r, s, steps[0], o);
    if Has(next.db, o) {
      n := 0;
      assert steps[..0] == [];
      ExactlyOnceEffect(r, next, steps[1..], o);
    } else {
      var m := FirstCommitDecides(r, next, steps[1..], o);
      n := m + 1;
      assert steps[..n][1..] == steps[1..][..m];
    }
  }

  // ---------------------------------------------------------------------------------------
  // Conservation
  // ---------------------------------------------------------------------------------------

  ghost predicate QueuesConserved(s: State) {
    Conserved(s.payments) && Conserved(s.statuses)
  }

  lemma QueuesConservedKept(r: RetryStrategy, s: State, step: Step)
    requires QueuesConserved(s) && Enabled(s, step)
    ensures QueuesConserved(Apply(r, s, step))
  {
    PaymentsConserved(r, s, step);
    StatusesConserved(r, s, step);
  }

  lemma PaymentsConserved(r: RetryStrategy, s: State, step: Step)
    requires Conserved(s.payments) && Enabled(s, step)
    ensures Conserved(Apply(r, s, step).payments)
  {
    match step {
      case PublishPayment(b) => EnqueueConserves(s.payments, b);
      case Take(i, b) => DeliverConserves(s.payments, i, b);
      case Read(i) => SettleConserves(s.payments, i, Dropped);
      case Finish(i) => SettleConserves(s.payments, i, if s.workers[i].err.None? then Acked else Requeued);
      case Crash(i) => SettleConserves(s.payments, i, Requeued);
      case ExpirePayment(b) => ExpireConserves(s.payments, b);
      case Serve(call) =>
        var out := Enqueued(s.db, s.desk, call);
        if out.Some? && out.value.PaymentOut? {
          EnqueueConserves(s.payments, Json(out.value.payment));
        }
      case _ =>
    }
  }

  lemma StatusesConserved(r: RetryStrategy, s: State, step: Step)
    requires Conserved(s.statuses) && Enabled(s, step)
    ensures Conserved(Apply(r, s, step).statuses)
  {
    match step {
      case PublishStatus(b) => EnqueueConserves(s.statuses, b);
      case Serve(call) =>
        var out := Enqueued(s.db, s.desk, call);
        if out.Some? && out.value.StatusOut? {
          EnqueueConserves(s.statuses, Json(out.value.change));
        }
      case TakeStatus(i, b) => DeliverConserves(s.statuses, i, b);
      case ReadStatus(i) => SettleConserves(s.statuses, i, Dropped);
      case FinishStatus(i) => SettleConserves(s.statuses, i, if s.updaters[i].err.None? then Acked else Requeued);
      case CrashStatus(i) => SettleConserves(s.statuses, i, Requeued);
      case ExpireStatus(b) => ExpireConserves(s.statuses, b);
      case _ =>
    }
  }

  // ---------------------------------------------------------------------------------------
  // Acknowledged means recorded
  // ---------------------------------------------------------------------------------------

  /** A worker in this place will acknowledge its message, or has already made sure of its row. */
  predicate Promises(pc: PaymentPc) {
    pc.Announcing? || pc == Returned(None)
  }

  predicate StatusPromises(pc: StatusPc) {
    pc.Updating? || pc.Telling? || pc == Done(None)
  }

  ghost predicate Recorded(t: Table, slot: Option<Body<PaymentMessage>>) {
    slot.Some? && slot.value.Json? && Has(t, slot.value.msg.orderId)
  }

  ghost predicate StatusRecorded(t: Table, slot: Option<Body<StatusMessage>>) {
    slot.Some? && slot.value.Json? && Has(t, slot.value.msg.orderId)
  }

  ghost predicate PaymentsDurable(s: State) {
    && |s.workers| == |s.payments.unacked|
    && (forall i: nat | i < |s.workers| && Promises(s.workers[i]) :: Recorded(s.db, s.payments.unacked[i]))
    && (forall b | b in s.payments.acked :: Recorded(s.db, Some(b)))
    && (forall b | b in s.payments.dropped :: b.Malformed?)
  }

  ghost predicate StatusesDurable(s: State) {
    && |s.updaters| == |s.statuses.unacked|
    && (forall i: nat | i < |s.updaters| && StatusPromises(s.updaters[i]) :: StatusRecorded(s.db,
       s.statuses.unacked[i]))
    && (forall b | b in s.statuses.acked :: StatusRecorded(s.db, Some(b)))
    && (forall b | b in s.statuses.dropped :: b.Malformed?)
  }

  /** The payments queue's two client-side sinks grow only when a worker settles. */
  lemma PaymentSinks(r: RetryStrategy, s: State, step: Step)
    requires Enabled(s, step)
    ensures var t := Apply(r, s, step);
            match step
            case Read(i) =>
              t.payments.acked == s.payments.acked
              && t.payments.dropped == s.payments.dropped
                 + (if s.payments.unacked[i].value.Malformed? then multiset{s.payments.unacked[i].value}
                    else multiset{})
            case Finish(i) =>
              t.payments.acked == s.payments.acked + (if s.workers[i] == Returned(None)
                                                      then multiset{s.payments.unacked[i].value} else multiset{})
              && t.payments.dropped == s.payments.dropped
            case _ => t.payments.acked == s.payments.acked && t.payments.dropped == s.payments.dropped
  {
  }

  lemma StatusSinks(r: RetryStrategy, s: State, step: Step)
    requires Enabled(s, step)
    ensures var t := Apply(r, s, step);
            match step
            case ReadStatus(i) =>
              t.statuses.acked == s.statuses.acked
              && t.statuses.dropped == s.statuses.dropped
                 + (if s.statuses.unacked[i].value.Malformed? then multiset{s.statuses.unacked[i].value}
                    else multiset{})
            case FinishStatus(i) =>
              t.statuses.acked == s.statuses.acked + (if s.updaters[i] == Done(None)
                                                      then multiset{s.statuses.unacked[i].value} else multiset{})
              && t.statuses.dropped == s.statuses.dropped
            case _ => t.statuses.acked == s.statuses.acked && t.statuses.dropped == s.statuses.dropped
  {
  }

  lemma OtherStepsPromiseNothing(r: RetryStrategy, s: State, step: Step, i: nat)
    requires Enabled(s, step) && MovedWorker(step) == Some(i) && r.maxAttempts >= 1
    requires step.Take? || step.Read? || step.Finish? || step.Crash?
    ensures i < |Apply(r, s, step).workers| && !Promises(Apply(r, s, step).workers[i])
  {
  }

  lemma HandlerPromises(r: RetryStrategy, s: State, step: Step, i: nat)
    requires WellFormed(r, s) && Enabled(s, step) && MovedWorker(step) == Some(i)
    requires step.Check? || step.Create? || step.Announce?
    requires Promises(s.workers[i]) ==> Recorded(s.db, s.payments.unacked[i])
    ensures var t := Apply(r, s, step);
            && i < |t.workers| && t.payments.unacked == s.payments.unacked
            && (Promises(t.workers[i]) ==> Recorded(t.db, s.payments.unacked[i]))
  {
    match step {
      case Check(_, _) => ProcessedIsTheRow(s.db, Msg(s, i).orderId);
      case Create(_, _) =>
        if !Has(s.db, Msg(s, i).orderId) {
          FindAfterInsert(s.db, RowOf(Msg(s, i)), Msg(s, i).orderId);
        }
      case _ =>
    }
  }

  /** A worker only gets into a promising place when the row is there. */
  lemma PromiseIsKept(r: RetryStrategy, s: State, step: Step, i: nat)
    requires WellFormed(r, s) && Enabled(s, step) && MovedWorker(step) == Some(i) && r.maxAttempts >= 1
    requires Promises(s.workers[i]) ==> Recorded(s.db, s.payments.unacked[i])
    ensures var t := Apply(r, s, step);
            |t.workers| == |t.payments.unacked| == |s.workers| && i < |s.workers|
            && (Promises(t.workers[i]) ==> Recorded(t.db, t.payments.unacked[i]))
  {
    ThisWorkerMoves(r, s, step, i);
    if step.Check? || step.Create? || step.Announce? {
      HandlerPromises(r, s, step, i);
    } else {
      OtherStepsPromiseNothing(r, s, step, i);
    }
  }

  lemma StatusOtherStepsPromiseNothing(r: RetryStrategy, s: State, step: Step, i: nat)
    requires Enabled(s, step) && MovedUpdater(step) == Some(i) && r.maxAttempts >= 1
    requires step.TakeStatus? || step.ReadStatus? || step.FinishStatus? || step.CrashStatus?
    ensures i < |Apply(r, s, step).updaters| && !StatusPromises(Apply(r, s, step).updaters[i])
  {
  }

  lemma StatusHandlerPromises(r: RetryStrategy, s: State, step: Step, i: nat)
    requires WellFormed(r, s) && Enabled(s, step) && MovedUpdater(step) == Some(i)
    requires step.Look? || step.Update? || step.Tell?
    requires StatusPromises(s.updaters[i]) ==> StatusRecorded(s.db, s.statuses.unacked[i])
    ensures var t := Apply(r, s, step);
            && i < |t.updaters| && t.statuses.unacked == s.statuses.unacked
            && (StatusPromises(t.updaters[i]) ==> StatusRecorded(t.db, s.statuses.unacked[i]))
  {
    match step {
      case Update(_, _) =>
        var msg := StatusMsg(s, i);
        FindAfterSetStatus(s.db, msg.orderId, msg.newStatus, msg.orderId);
      case _ =>
    }
  }

  lemma StatusPromiseIsKept(r: RetryStrategy, s: State, step: Step, i: nat)
    requires WellFormed(r, s) && Enabled(s, step) && MovedUpdater(step) == Some(i) && r.maxAttempts >= 1
    requires StatusPromises(s.updaters[i]) ==> StatusRecorded(s.db, s.statuses.unacked[i])
    ensures var t := Apply(r, s, step);
            |t.updaters| == |t.statuses.unacked| == |s.updaters| && i < |s.updaters|
            && (StatusPromises(t.updaters[i]) ==> StatusRecorded(t.db, t.statuses.unacked[i]))
  {
    ThisUpdaterMoves(r, s, step, i);
    if step.Look? || step.Update? || step.Tell? {
      StatusHandlerPromises(r, s, step, i);
    } else {
      StatusOtherStepsPromiseNothing(r, s, step, i);
    }
  }

  lemma PaymentAcked(r: RetryStrategy, s: State, step: Step)
    requires Enabled(s, step) && PaymentsDurable(s)
    ensures forall b | b in Apply(r, s, step).payments.acked :: Recorded(s.db, Some(b))
    ensures forall b | b in Apply(r, s, step).payments.dropped :: b.Malformed?
  {
    PaymentSinks(r, s, step);
  }

  lemma PaymentPlace(r: RetryStrategy, s: State, step: Step, t: State, i: nat)
    requires WellFormed(r, s) && Enabled(s, step) && r.maxAttempts >= 1 && PaymentsDurable(s)
    requires t == Apply(r, s, step) && i < |t.workers| && Promises(t.workers[i])
    ensures |t.workers| == |t.payments.unacked| && Recorded(t.db, t.payments.unacked[i])
  {
    OneWorkerMoves(r, s, step);
    if MovedWorker(step) == Some(i) {
      PromiseIsKept(r, s, step, i);
    } else {
      assert t.workers[i] == s.workers[i] && t.payments.unacked[i] == s.payments.unacked[i];
      RowStep(r, s, step, s.payments.unacked[i].value.msg.orderId);
    }
  }

  lemma PaymentsDurableKept(r: RetryStrategy, s: State, step: Step)
    requires WellFormed(r, s) && Enabled(s, step) && r.maxAttempts >= 1
    requires PaymentsDurable(s)
    ensures PaymentsDurable(Apply(r, s, step))
  {
    var t := Apply(r, s, step);
    OneWorkerMoves(r, s, step);
    PaymentAcked(r, s, step);
    forall b | b in t.payments.acked ensures Recorded(t.db, Some(b)) {
      RowStep(r, s, step, b.msg.orderId);
    }
    forall i: nat | i < |t.workers| && Promises(t.workers[i]) ensures Recorded(t.db, t.payments.unacked[i]) {
      PaymentPlace(r, s, step, t, i);
    }
  }

  lemma StatusAcked(r: RetryStrategy, s: State, step: Step)
    requires Enabled(s, step) && StatusesDurable(s)
    ensures forall b | b in Apply(r, s, step).statuses.acked :: StatusRecorded(s.db, Some(b))
    ensures forall b | b in Apply(r, s, step).statuses.dropped :: b.Malformed?
  {
    StatusSinks(r, s, step);
  }

  lemma StatusPlace(r: RetryStrategy, s: State, step: Step, t: State, i: nat)
    requires WellFormed(r, s) && Enabled(s, step) && r.maxAttempts >= 1 && StatusesDurable(s)
    requires t == Apply(r, s, step) && i < |t.updaters| && StatusPromises(t.updaters[i])
    ensures |t.updaters| == |t.statuses.unacked| && StatusRecorded(t.db, t.statuses.unacked[i])
  {
    OneUpdaterMoves(r, s, step);
    if MovedUpdater(step) == Some(i) {
      StatusPromiseIsKept(r, s, step, i);
    } else {
      assert t.updaters[i] == s.updaters[i] && t.statuses.unacked[i] == s.statuses.unacked[i];
      RowStep(r, s, step, s.statuses.unacked[i].value.msg.orderId);
    }
  }

  lemma StatusesDurableKept(r: RetryStrategy, s: State, step: Step)
    requires WellFormed(r, s) && Enabled(s, step) && r.maxAttempts >= 1
    requires StatusesDurable(s)
    ensures StatusesDurable(Apply(r, s, step))
  {
    var t := Apply(r, s, step);
    OneUpdaterMoves(r, s, step);
    StatusAcked(r, s, step);
    forall b | b in t.statuses.acked ensures StatusRecorded(t.db, Some(b)) {
      RowStep(r, s, step, b.msg.orderId);
    }
    forall i: nat | i < |t.updaters| && StatusPromises(t.updaters[i]) ensures StatusRecorded(t.db,
        t.statuses.unacked[i]) {
      StatusPlace(r, s, step, t, i);
    }
  }

  // ---------------------------------------------------------------------------------------
  // At most one notification of receipt
  // ---------------------------------------------------------------------------------------

  function CountReceived(notes: seq<Notification>, o: OrderId): nat {
    if |notes| == 0 then 0
    else
      var last := notes[|notes| - 1];
      CountReceived(notes[..|notes| - 1], o) + if last.PaymentReceived? && last.orderId == o then 1 else 0
  }

  /** The order a worker is about to announce. */
  ghost function Announced(pc: PaymentPc): multiset<OrderId> {
    if pc.Announcing? then multiset{pc.note.orderId} else multiset{}
  }

  /** Notifications of receipt, sent or about to be sent, for one order. */
  ghost function Receipts(s: State, o: OrderId): nat {
    CountReceived(s.notes, o) + Gather(s.workers, Announced)[o]
  }

  ghost predicate AnnouncedOnce(s: State) {
    forall o: OrderId :: Receipts(s, o) <= if Has(s.db, o) then 1 else 0
  }

  lemma NoteCounts(notes: seq<Notification>, n: Notification, d: Delivery, o: OrderId)
    ensures CountReceived(Note(notes, n, d), o)
         <= CountReceived(notes, o) + if n.PaymentReceived? && n.orderId == o then 1 else 0
  {
    assert (notes + [n])[..|notes|] == notes;
  }

  lemma ReceivedStep(r: RetryStrategy, s: State, step: Step, o: OrderId)
    requires Enabled(s, step) && UpdatersFit(r, s)
    ensures CountReceived(Apply(r, s, step).notes, o)
         <= CountReceived(s.notes, o) + match step
                                        case Announce(i, _) => if s.workers[i].note.orderId == o then 1 else 0
                                        case _ => 0
  {
    match step {
      case Announce(i, d) => NoteCounts(s.notes, s.workers[i].note, d, o);
      case Tell(i, d) => NoteCounts(s.notes, s.updaters[i].note, d, o);
      case _ =>
    }
  }

  lemma AnnouncingStep(r: RetryStrategy, s: State, step: Step, o: OrderId)
    requires Enabled(s, step) && WorkersFit(r, s)
    ensures Gather(Apply(r, s, step).workers, Announced)[o]
            + (if MovedWorker(step).Some? then Announced(s.workers[MovedWorker(step).value])[o] else 0)
         == Gather(s.workers, Announced)[o]
            + (if MovedWorker(step).Some? then Announced(Apply(r, s, step).workers[MovedWorker(step).value])[o] else 0)
  {
    OneWorkerMoves(r, s, step);
    match MovedWorker(step) {
      case None =>
      case Some(i) => GatherUpdate(s.workers, Announced, i, Apply(r, s, step).workers[i]);
    }
  }

  /** The only way to be about to announce an order is to have just committed its row. */
  lemma AnnounceAfterCommit(r: RetryStrategy, s: State, step: Step, i: nat, o: OrderId)
    requires Enabled(s, step) && WorkersFit(r, s) && MovedWorker(step) == Some(i)
    ensures Announced(Apply(r, s, step).workers[i])[o] <= if Commits(s, step, o).Some? then 1 else 0
  {
  }

  lemma AnnouncedOnceKept(r: RetryStrategy, s: State, step: Step)
    requires WellFormed(r, s) && Enabled(s, step) && AnnouncedOnce(s)
    ensures AnnouncedOnce(Apply(r, s, step))
  {
    var t := Apply(r, s, step);
    forall o: OrderId ensures Receipts(t, o) <= if Has(t.db, o) then 1 else 0 {
      assert Receipts(s, o) <= if Has(s.db, o) then 1 else 0;
      RowStep(r, s, step, o);
      ReceivedStep(r, s, step, o);
      AnnouncingStep(r, s, step, o);
      if MovedWorker(step).Some? {
        AnnounceAfterCommit(r, s, step, MovedWorker(step).value, o);
      }
    }
  }

  // ---------------------------------------------------------------------------------------
  // Where statuses come from
  // ---------------------------------------------------------------------------------------

  /** The transaction is one a provider gave to the order, or none. */
  ghost predicate Owns(answers: set<Answer>, o: OrderId, tid: string) {
    tid == "" || exists st: Status :: SaidCharged(o, tid, st) in answers
  }

  /** This answer, among all of them, gives order o the status st. */
  ghost predicate Gives(answers: set<Answer>, a: Answer, o: OrderId, st: Status) {
    match a
    case SaidCharged(order, _, status) => order == o && status == st
    case SaidError(order) => order == o && st == Failed
    case SaidRefunded(tid) => st == Refunded && Owns(answers, o, tid)
    case SaidStatus(tid, status) => status == st && Owns(answers, o, tid)
    case SaidEvent(tid, status) => status == st && Owns(answers, o, tid)
  }

  /** A caller put this status into a message for this order, or a provider's answer gives it to the order. */
  ghost predicate Sourced(d: Desk, o: OrderId, st: Status) {
    (o, st) in d.claimed || exists a: Answer | a in d.answers :: Gives(d.answers, a, o, st)
  }

  ghost predicate RowSourced(d: Desk, row: Row) {
    Sourced(d, row.orderId, row.status) && Owns(d.answers, row.orderId, row.transactionId)
  }

  ghost predicate RowsSourced(s: State) {
    forall i: nat | i < |s.db| :: RowSourced(s.desk, s.db[i])
  }

  ghost predicate OutSourced(d: Desk, out: Outgoing) {
    match out
    case PaymentOut(msg) => (msg.orderId, msg.status) in d.claimed
    case StatusOut(msg) => Sourced(d, msg.orderId, msg.newStatus)
  }

  ghost predicate CallSourced(d: Desk, c: Call) {
    match c
    case Charging(p) => Owns(d.answers, p.orderId, p.transactionId)
    case Refunding(p, _) => Owns(d.answers, p.orderId, p.transactionId)
    case StoringRefund(p, _) => Owns(d.answers, p.orderId, p.transactionId)
        && SaidRefunded(p.transactionId) in d.answers
    case Asking(p) => Owns(d.answers, p.orderId, p.transactionId)
    case Locating(e) => SaidEvent(e.transactionId, e.status) in d.answers
    case Saving(p, _) => RowSourced(d, p)
    case Sending(out, _) => OutSourced(d, out)
    case Pausing(out, _) => OutSourced(d, out)
    case Over(_, _) => true
  }

  ghost predicate CallsSourced(d: Desk) {
    forall i: nat | i < |d.calls| :: CallSourced(d, d.calls[i])
  }

  ghost predicate MessagesSourced(s: State) {
    && (forall b | b in s.payments.published && b.Json? :: (b.msg.orderId, b.msg.status) in s.desk.claimed)
    && (forall b | b in s.statuses.published && b.Json? :: Sourced(s.desk, b.msg.orderId, b.msg.newStatus))
  }

  ghost predicate AllSourced(s: State) {
    RowsSourced(s) && CallsSourced(s.desk) && MessagesSourced(s)
  }

  lemma InFlightWasPublished<M>(q: Queue<M>, i: nat)
    requires Conserved(q) && Busy(q, i)
    ensures q.unacked[i].value in q.published
  {
    GatherUpdate(q.unacked, HeldBySlot, i, None);
    assert q.unacked[i].value in InFlight(q);
  }

  ghost predicate Grown(d: Desk, e: Desk) {
    d.claimed <= e.claimed && d.answers <= e.answers
  }

  lemma SourcesGrow(r: RetryStrategy, s: State, step: Step)
    requires Enabled(s, step)
    ensures Grown(s.desk, Apply(r, s, step).desk)
  {
  }

  lemma OwnsStays(x: set<Answer>, y: set<Answer>, o: OrderId, tid: string)
    requires x <= y && Owns(x, o, tid)
    ensures Owns(y, o, tid)
  {
  }

  /** What was sourced stays so. */
  lemma SourcedStays(d: Desk, e: Desk, o: OrderId, st: Status)
    requires Grown(d, e) && Sourced(d, o, st)
    ensures Sourced(e, o, st)
  {
    if (o, st) !in d.claimed {
      var a: Answer :| a in d.answers && Gives(d.answers, a, o, st);
      if a.SaidRefunded? || a.SaidStatus? || a.SaidEvent? {
        OwnsStays(d.answers, e.answers, o, a.transactionId);
      }
      assert Gives(e.answers, a, o, st);
    }
  }

  lemma RowSourcedStays(d: Desk, e: Desk, row: Row)
    requires Grown(d, e) && RowSourced(d, row)
    ensures RowSourced(e, row)
  {
    SourcedStays(d, e, row.orderId, row.status);
    OwnsStays(d.answers, e.answers, row.orderId, row.transactionId);
  }

  lemma CallSourcedStays(d: Desk, e: Desk, c: Call)
    requires Grown(d, e) && CallSourced(d, c)
    ensures CallSourced(e, c)
  {
    if Held(c).Some? {
      OwnsStays(d.answers, e.answers, Held(c).value.orderId, Held(c).value.transactionId);
    }
    match c {
      case Saving(p, _) => SourcedStays(d, e, p.orderId, p.status);
      case Sending(StatusOut(msg), _) => SourcedStays(d, e, msg.orderId, msg.newStatus);
      case Pausing(StatusOut(msg), _) => SourcedStays(d, e, msg.orderId, msg.newStatus);
      case _ =>
    }
  }

  /** Every place a step takes its call to holds what is sourced by what has been said by then. */
  lemma PlaceIsSourced(r: RetryStrategy, s: State, step: CallStep)
    requires CallEnabled(s.db, s.desk, step) && RowsSourced(s) && CallsSourced(s.desk)
    ensures CallSourced(DeskAfter(r, s.db, s.desk, step), Place(r, s.db, s.desk, step))
  {
    var e := DeskAfter(r, s.db, s.desk, step);
    SourcesGrow(r, s, Serve(step));
    if step.Begin? {
      FirstPlaceIsSourced(r, s, step.request);
    } else {
      var c := s.desk.calls[step.call];
      CallSourcedStays(s.desk, e, c);
      match step {
        case ChargeReturns(_, answer, now) => ChargeIsSourced(e, c.payment, answer, now);
        case StoreRefund(_, _, now) => RefundIsSourced(e, c.payment, now);
        case StatusReturns(_, answer, now) =>
          if answer.Some? {
            StatusIsSourced(e, c.payment, answer.value, now);
          }
        case Locate(_, readFails, now) => EventIsSourced(s, c.event, readFails, now);
        case _ => PassedOnIsSourced(r, s, step, e);
      }
    }
  }

  /** Other steps hold on to what their call held. */
  lemma PassedOnIsSourced(r: RetryStrategy, s: State, step: CallStep, e: Desk)
    requires CallEnabled(s.db, s.desk, step) && e == DeskAfter(r, s.db, s.desk, step)
    requires step.RefundReturns? || step.Save? || step.Send? || step.Wake? || step.GiveUp? || step.Die?
    requires CallSourced(e, s.desk.calls[step.call])
    ensures CallSourced(e, Place(r, s.db, s.desk, step))
  {
  }

  lemma RefundIsSourced(e: Desk, p: Row, now: int)
    requires Owns(e.answers, p.orderId, p.transactionId) && SaidRefunded(p.transactionId) in e.answers
    ensures RowSourced(e, StatusFields(p, Refunded, now))
  {
    assert Gives(e.answers, SaidRefunded(p.transactionId), p.orderId, Refunded);
  }

  lemma StatusIsSourced(e: Desk, p: Row, st: Status, now: int)
    requires Owns(e.answers, p.orderId, p.transactionId) && SaidStatus(p.transactionId, st) in e.answers
    ensures RowSourced(e, StatusFields(p, st, now))
  {
    assert Gives(e.answers, SaidStatus(p.transactionId, st), p.orderId, st);
  }

  lemma FirstPlaceIsSourced(r: RetryStrategy, s: State, request: Request)
    requires CallEnabled(s.db, s.desk, Begin(request)) && RowsSourced(s)
    ensures CallSourced(DeskAfter(r, s.db, s.desk, Begin(request)), FirstPlace(r, request))
  {
    var d, e := s.desk, DeskAfter(r, s.db, s.desk, Begin(request));
    forall p: Row | Presented(s.db, p) ensures Owns(e.answers, p.orderId, p.transactionId) {
      if p in s.db {
        RowSourcedStays(d, e, p);
      }
    }
  }

  lemma ChargeIsSourced(e: Desk, p: Row, answer: ChargeAnswer, now: int)
    requires Owns(e.answers, p.orderId, p.transactionId)
    requires (if answer.Charged? then SaidCharged(p.orderId, answer.transactionId, answer.status)
              else SaidError(p.orderId)) in e.answers
    ensures RowSourced(e, ChargedFields(p, answer, now))
  {
    var a := if answer.Charged? then SaidCharged(p.orderId, answer.transactionId, answer.status)
        else SaidError(p.orderId);
    assert Gives(e.answers, a, p.orderId, if answer.Charged? then answer.status else Failed);
  }

  /** The row an event finds has the event's transaction, so a provider gave it to that order or the event names
      none. */
  lemma EventIsSourced(s: State, event: WebhookEvent, readFails: bool, now: int)
    requires RowsSourced(s) && SaidEvent(event.transactionId, event.status) in s.desk.answers
    ensures var row := Located(s.db, event, readFails);
            row.Some? ==> RowSourced(s.desk, WebhookFields(row.value, event, now))
  {
    var i := IndexOfTransaction(s.db, event.transactionId);
    if i < |s.db| {
      assert RowSourced(s.desk, s.db[i]);
      assert Gives(s.desk.answers, SaidEvent(event.transactionId, event.status), s.db[i].orderId, event.status);
    }
  }

  lemma CallsSourcedKept(r: RetryStrategy, s: State, step: Step)
    requires Enabled(s, step) && RowsSourced(s) && CallsSourced(s.desk)
    ensures CallsSourced(Apply(r, s, step).desk)
  {
    var e := Apply(r, s, step).desk;
    SourcesGrow(r, s, step);
    if step.Serve? {
      OneCallMoves(r, s.db, s.desk, step.call);
      PlaceIsSourced(r, s, step.call);
    }
    forall i: nat | i < |e.calls| ensures CallSourced(e, e.calls[i]) {
      if i < |s.desk.calls| && e.calls[i] == s.desk.calls[i] {
        CallSourcedStays(s.desk, e, e.calls[i]);
      }
    }
  }

  /** The row a step may write into the table, as the writer would have it. */
  function Written(s: State, step: Step): Option<(OrderId, Status)> {
    match step
    case Create(i, _) => if Holds(s, i) then Some((Msg(s, i).orderId, Msg(s, i).status)) else None
    case Update(i, _) => if HoldsStatus(s, i) then Some((StatusMsg(s, i).orderId, StatusMsg(s, i).newStatus)) else None
    case _ => None
  }

  /** A row after a step was there before, or has the status the step's message carries and no transaction but that of
      a row of its order, or is the object the step saves. */
  ghost predicate ComesFrom(s: State, step: Step, row: Row) {
    || row in s.db
    || (Written(s, step) == Some((row.orderId, row.status))
        && (row.transactionId == "" || exists was: Row | was in s.db ::
              was.orderId == row.orderId && was.transactionId == row.transactionId))
    || (Saves(s, step, row.orderId) && row == s.desk.calls[step.call.call].payment)
  }

  lemma CreatedRows(s: State, i: nat, w: Write, row: Row)
    requires Enabled(s, Create(i, w)) && row in CreateRow(s.db, Msg(s, i), w).0
    ensures ComesFrom(s, Create(i, w), row)
  {
  }

  lemma UpdatedRows(s: State, i: nat, w: Write, row: Row)
    requires Enabled(s, Update(i, w)) && row in UpdateRow(s.db, StatusMsg(s, i), w).0
    ensures ComesFrom(s, Update(i, w), row)
  {
    var msg := StatusMsg(s, i);
    SetStatusRows(s.db, msg.orderId, msg.newStatus);
    if row !in s.db {
      var k: nat :| k < |s.db| && SetStatus(s.db, msg.orderId, msg.newStatus)[k] == row;
      assert s.db[k] in s.db;
    }
  }

  lemma SavedRows(s: State, step: CallStep, row: Row)
    requires CallEnabled(s.db, s.desk, step) && row in TableAfter(s.db, s.desk, step)
    ensures ComesFrom(s, Serve(step), row)
  {
  }

  lemma RowsStep(r: RetryStrategy, s: State, step: Step, row: Row)
    requires Enabled(s, step) && row in Apply(r, s, step).db
    ensures ComesFrom(s, step, row)
  {
    TableStep(r, s, step);
    match step {
      case Create(i, w) => CreatedRows(s, i, w, row);
      case Update(i, w) => UpdatedRows(s, i, w, row);
      case Serve(call) => SavedRows(s, call, row);
      case _ =>
    }
  }

  lemma WrittenIsSourced(s: State, step: Step)
    requires Enabled(s, step) && MessagesSourced(s) && QueuesConserved(s)
    ensures Written(s, step).Some? ==> Sourced(s.desk, Written(s, step).value.0, Written(s, step).value.1)
  {
    match step {
      case Create(i, _) => InFlightWasPublished(s.payments, i);
      case Update(i, _) => InFlightWasPublished(s.statuses, i);
      case _ =>
    }
  }

  lemma RowsSourcedKept(r: RetryStrategy, s: State, step: Step)
    requires Enabled(s, step) && AllSourced(s) && QueuesConserved(s)
    ensures RowsSourced(Apply(r, s, step))
  {
    var t := Apply(r, s, step);
    SourcesGrow(r, s, step);
    WrittenIsSourced(s, step);
    forall i: nat | i < |t.db| ensures RowSourced(t.desk, t.db[i]) {
      RowsStep(r, s, step, t.db[i]);
      NewRowSourced(s, step, t.db[i]);
      RowSourcedStays(s.desk, t.desk, t.db[i]);
    }
  }

  lemma NewRowSourced(s: State, step: Step, row: Row)
    requires RowsSourced(s) && CallsSourced(s.desk)
    requires Written(s, step).Some? ==> Sourced(s.desk, Written(s, step).value.0, Written(s, step).value.1)
    requires ComesFrom(s, step, row)
    ensures RowSourced(s.desk, row)
  {
    if row !in s.db && !Saves(s, step, row.orderId) && row.transactionId != "" {
      var was: Row :| was in s.db && was.orderId == row.orderId && was.transactionId == row.transactionId;
      assert RowSourced(s.desk, was);
    } else if row !in s.db && Saves(s, step, row.orderId) && row == s.desk.calls[step.call.call].payment {
      assert CallSourced(s.desk, s.desk.calls[step.call.call]);
    }
  }

  /** The bodies a step publishes. */
  function NewPayment(s: State, step: Step): multiset<Body<PaymentMessage>>
    requires Enabled(s, step)
  {
    match step
    case PublishPayment(b) => multiset{b}
    case Serve(call) =>
      var out := Enqueued(s.db, s.desk, call);
      if out.Some? && out.value.PaymentOut? then multiset{Json(out.value.payment)} else multiset{}
    case _ => multiset{}
  }

  function NewStatus(s: State, step: Step): multiset<Body<StatusMessage>>
    requires Enabled(s, step)
  {
    match step
    case PublishStatus(b) => multiset{b}
    case Serve(call) =>
      var out := Enqueued(s.db, s.desk, call);
      if out.Some? && out.value.StatusOut? then multiset{Json(out.value.change)} else multiset{}
    case _ => multiset{}
  }

  lemma PaymentsPublished(r: RetryStrategy, s: State, step: Step)
    requires Enabled(s, step)
    ensures Apply(r, s, step).payments.published == s.payments.published + NewPayment(s, step)
  {
  }

  lemma StatusesPublished(r: RetryStrategy, s: State, step: Step)
    requires Enabled(s, step)
    ensures Apply(r, s, step).statuses.published == s.statuses.published + NewStatus(s, step)
  {
  }

  /** What a step publishes is sourced by then. */
  lemma NewPaymentSourced(r: RetryStrategy, s: State, step: Step, b: Body<PaymentMessage>)
    requires Enabled(s, step) && CallsSourced(s.desk) && b in NewPayment(s, step) && b.Json?
    ensures (b.msg.orderId, b.msg.status) in Apply(r, s, step).desk.claimed
  {
    SourcesGrow(r, s, step);
    if step.Serve? {
      assert CallSourced(s.desk, s.desk.calls[step.call.call]);
    }
  }

  lemma NewStatusSourced(r: RetryStrategy, s: State, step: Step, b: Body<StatusMessage>)
    requires Enabled(s, step) && CallsSourced(s.desk) && b in NewStatus(s, step) && b.Json?
    ensures Sourced(Apply(r, s, step).desk, b.msg.orderId, b.msg.newStatus)
  {
    SourcesGrow(r, s, step);
    if step.Serve? {
      assert CallSourced(s.desk, s.desk.calls[step.call.call]);
      SourcedStays(s.desk, Apply(r, s, step).desk, b.msg.orderId, b.msg.newStatus);
    }
  }

  lemma MessagesSourcedKept(r: RetryStrategy, s: State, step: Step)
    requires Enabled(s, step) && MessagesSourced(s) && CallsSourced(s.desk)
    ensures MessagesSourced(Apply(r, s, step))
  {
    var t := Apply(r, s, step);
    SourcesGrow(r, s, step);
    PaymentsPublished(r, s, step);
    StatusesPublished(r, s, step);
    forall b | b in t.payments.published && b.Json? ensures (b.msg.orderId, b.msg.status) in t.desk.claimed {
      if b !in s.payments.published {
        NewPaymentSourced(r, s, step, b);
      }
    }
    forall b | b in t.statuses.published && b.Json? ensures Sourced(t.desk, b.msg.orderId, b.msg.newStatus) {
      if b in s.statuses.published {
        SourcedStays(s.desk, t.desk, b.msg.orderId, b.msg.newStatus);
      } else {
        NewStatusSourced(r, s, step, b);
      }
    }
  }

  // ---------------------------------------------------------------------------------------
  // Publications that returned nil
  // ---------------------------------------------------------------------------------------

  /** The payment message whose publication returned nil for a copy that arrived. */
  ghost function Confirmed(c: Call): multiset<PaymentMessage> {
    if NilPublication(c) && !c.end.silent then multiset{c.end.out.payment} else multiset{}
  }

  predicate NilPublication(c: Call) {
    c.Over? && c.ok && c.end.AfterSending? && c.end.out.PaymentOut?
  }

  /** As many copies of a message reached the queue as publications of it returned nil and were not lost. */
  ghost predicate ConfirmedArePublished(s: State) {
    forall msg: PaymentMessage :: Gather(s.desk.calls, Confirmed)[msg] <= s.payments.published[Json(msg)]
  }

  lemma ConfirmedCalls(r: RetryStrategy, db: Table, d: Desk, step: CallStep, msg: PaymentMessage)
    requires CallEnabled(db, d, step)
    ensures Gather(DeskAfter(r, db, d, step).calls, Confirmed)[msg]
         <= Gather(d.calls, Confirmed)[msg] + Confirmed(Place(r, db, d, step))[msg]
  {
    if step.Begin? {
      GatherAppend(d.calls, Confirmed, Place(r, db, d, step));
    } else {
      GatherUpdate(d.calls, Confirmed, step.call, Place(r, db, d, step));
    }
  }

  lemma ConfirmedServe(r: RetryStrategy, s: State, step: CallStep, msg: PaymentMessage)
    requires CallEnabled(s.db, s.desk, step) && r.maxAttempts >= 1
    ensures Gather(DeskAfter(r, s.db, s.desk, step).calls, Confirmed)[msg]
         <= Gather(s.desk.calls, Confirmed)[msg] + NewPayment(s, Serve(step))[Json(msg)]
  {
    ConfirmedCalls(r, s.db, s.desk, step, msg);
    ConfirmedPlace(r, s, step, msg);
  }

  lemma OthersKeepCalls(r: RetryStrategy, s: State, step: Step)
    requires Enabled(s, step) && !step.Serve?
    ensures Apply(r, s, step).desk.calls == s.desk.calls && Apply(r, s, step).desk.books == s.desk.books
  {
  }

  lemma ConfirmedStep(r: RetryStrategy, s: State, step: Step, d: Desk, msg: PaymentMessage)
    requires Enabled(s, step) && r.maxAttempts >= 1 && d == Apply(r, s, step).desk
    ensures Gather(d.calls, Confirmed)[msg] <= Gather(s.desk.calls, Confirmed)[msg] + NewPayment(s, step)[Json(msg)]
  {
    if step.Serve? {
      ConfirmedServe(r, s, step.call, msg);
    } else {
      OthersKeepCalls(r, s, step);
    }
  }

  /** A publication returns nil for a copy that arrives only in the step that puts it into the queue. */
  lemma ConfirmedPlace(r: RetryStrategy, s: State, step: CallStep, msg: PaymentMessage)
    requires CallEnabled(s.db, s.desk, step) && r.maxAttempts >= 1
    ensures Confirmed(Place(r, s.db, s.desk, step))[msg] <= NewPayment(s, Serve(step))[Json(msg)]
  {
  }

  lemma ConfirmedKept(r: RetryStrategy, s: State, step: Step)
    requires Enabled(s, step) && ConfirmedArePublished(s) && r.maxAttempts >= 1
    ensures ConfirmedArePublished(Apply(r, s, step))
  {
    var t := Apply(r, s, step);
    forall msg: PaymentMessage ensures Gather(t.desk.calls, Confirmed)[msg] <= t.payments.published[Json(msg)] {
      assert Gather(s.desk.calls, Confirmed)[msg] <= s.payments.published[Json(msg)];
      ConfirmedStep(r, s, step, t.desk, msg);
      PaymentsPublished(r, s, step);
    }
  }

  // ---------------------------------------------------------------------------------------
  // Every reachable state
  // ---------------------------------------------------------------------------------------

  ghost predicate Inv(r: RetryStrategy, s: State) {
    && WellFormed(r, s)
    && QueuesConserved(s)
    && (r.maxAttempts >= 1 ==> PaymentsDurable(s) && StatusesDurable(s) && ConfirmedArePublished(s))
    && AnnouncedOnce(s)
    && AllSourced(s)
  }

  lemma InvInit(r: RetryStrategy, workers: nat, updaters: nat)
    ensures Inv(r, Init(workers, updaters))
  {
    EmptyIsConserved<PaymentMessage>(workers);
    EmptyIsConserved<StatusMessage>(updaters);
    GatherNothing(Init(workers, updaters).workers, Announced);
  }

  /** Every step of every party keeps the invariant. */
  lemma InvKept(r: RetryStrategy, s: State, step: Step)
    requires Inv(r, s) && Enabled(s, step)
    ensures Inv(r, Apply(r, s, step))
  {
    WellFormedKept(r, s, step);
    QueuesConservedKept(r, s, step);
    if r.maxAttempts >= 1 {
      PaymentsDurableKept(r, s, step);
      StatusesDurableKept(r, s, step);
      ConfirmedKept(r, s, step);
    }
    AnnouncedOnceKept(r, s, step);
    RowsSourcedKept(r, s, step);
    CallsSourcedKept(r, s, step);
    MessagesSourcedKept(r, s, step);
  }

  lemma {:induction false} InvAlong(r: RetryStrategy, s: State, steps: seq<Step>)
    requires Inv(r, s) && Legal(r, s, steps)
    ensures Inv(r, Exec(r, s, steps))
    decreases steps
  {
    if |steps| > 0 {
      InvKept(r, s, steps[0]);
      InvAlong(r, Apply(r, s, steps[0]), steps[1..]);
    }
  }
}
