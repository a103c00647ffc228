/** The asynchronous handlers and publishers (internal/service/async_service.go).

    A handler's operation is given in three or four small effects, so that the sequential handler
    below and the interleaved protocol (module Pipeline) are made of the same parts. */
module AsyncService {
  import opened Errors
  import opened Models
  import opened Broker
  import opened Retry

  /** What the handlers change: the payments table, and the notifications queue as the log of the
      copies that reached it. */
  datatype World = World(payments: Table, notes: seq<Notification>)

  /** A database write either happened or not, and may have happened although an error came back. */
  datatype Write = Committed | NotCommitted | CommittedWithError

  /** What the outside did to one attempt of each operation. */
  datatype PaymentFaults = PaymentFaults(readFails: bool, create: Write, notify: Delivery)
  datatype StatusFaults = StatusFaults(readFails: bool, update: Write, notify: Delivery)

  function CreateError(o: OrderId): Error { PaymentErr(Database, "DB_ERROR", o, true) }
  function NotFoundError(o: OrderId): Error { PaymentErr(Database, "PAYMENT_NOT_FOUND", o, false) }
  function UpdateError(o: OrderId): Error { PaymentErr(Database, "STATUS_UPDATE_ERROR", o, true) }
  function PublishError(o: OrderId): Error { PaymentErr(Messaging, "PUBLISH_ERROR", o, true) }
  function StatusPublishError(o: OrderId): Error { PaymentErr(Messaging, "STATUS_PUBLISH_ERROR", o, true) }

  // ---------------------------------------------------------------------------------------
  // The effects
  // ---------------------------------------------------------------------------------------

  /** The row made for a message; the columns the message says nothing about are empty. */
  function RowOf(msg: PaymentMessage): Row {
    Row(Key(msg.orderId, msg.details, Sequence), msg.orderId, msg.details, msg.status, "", "", map[], 0)
  }

  /** The check treats a failed read like a row that is not there. */
  predicate SeesProcessed(t: Table, o: OrderId, readFails: bool) {
    !readFails && HasProcessed(t, o)
  }

  /** The create: the table it leaves and whether it reports success. */
  function CreateRow(t: Table, msg: PaymentMessage, w: Write): (Table, bool) {
    match Insert(t, RowOf(msg))
    case None => (t, false)
    case Some(grown) => (if w.NotCommitted? then t else grown, w.Committed?)
  }

  function UpdateRow(t: Table, msg: StatusMessage, w: Write): (Table, bool) {
    (if w.NotCommitted? then t else SetStatus(t, msg.orderId, msg.newStatus), w.Committed?)
  }

  /** `db.Save`: the table it leaves and whether it reports success. */
  function SaveRow(t: Table, row: Row, w: Write): (Table, bool) {
    match Upsert(t, row)
    case None => (t, false)
    case Some(saved) => (if w.NotCommitted? then t else saved, w.Committed?)
  }

  function Note(notes: seq<Notification>, n: Notification, d: Delivery): seq<Notification> {
    if d.Arrives() then notes + [n] else notes
  }

  function ReceivedNote(msg: PaymentMessage): Notification {
    PaymentReceived(msg.details.customerEmail, msg.orderId, msg.details.amount, msg.details.currency)
  }

  function UpdatedNote(t: Table, msg: StatusMessage): Notification
    requires Has(t, msg.orderId)
  {
    StatusUpdated(Find(t, msg.orderId).value.details.customerEmail, msg.orderId, msg.newStatus)
  }

  // ---------------------------------------------------------------------------------------
  // The operations
  // ---------------------------------------------------------------------------------------

  function PaymentOp(w: World, msg: PaymentMessage, f: PaymentFaults): (World, Option<Error>) {
    if SeesProcessed(w.payments, msg.orderId, f.readFails) then (w, None)
    else
      var (table, created) := CreateRow(w.payments, msg, f.create);
      if !created then (w.(payments := table), Some(CreateError(msg.orderId)))
      else (World(table, Note(w.notes, ReceivedNote(msg), f.notify)), None)
  }

  function StatusOp(w: World, msg: StatusMessage, f: StatusFaults): (World, Option<Error>) {
    if f.readFails || !Has(w.payments, msg.orderId) then (w, Some(NotFoundError(msg.orderId)))
    else
      var (table, updated) := UpdateRow(w.payments, msg, f.update);
      if !updated then (w.(payments := table), Some(UpdateError(msg.orderId)))
      else (World(table, Note(w.notes, UpdatedNote(w.payments, msg), f.notify)), None)
  }

  function PaymentOperation(msg: PaymentMessage, faults: nat -> PaymentFaults): (World, nat) -> (World, Option<Error>) {
    (w: World, k: nat) => PaymentOp(w, msg, faults(k))
  }

  function StatusOperation(msg: StatusMessage, faults: nat -> StatusFaults): (World, nat) -> (World, Option<Error>) {
    (w: World, k: nat) => StatusOp(w, msg, faults(k))
  }

  /** A connection's sending side: the queue and the counters it keeps. */
  datatype Wire<M> = Wire(queue: Queue<M>, counters: Counters)

  function PublishOperation<M(==)>(error: Error, msg: M, outcomes: nat -> Delivery)
    : (Wire<M>, nat) -> (Wire<M>, Option<Error>)
  {
    (w: Wire<M>, k: nat) =>
      (Wire(Published(w.queue, msg, outcomes(k)), CountPublish(w.counters, outcomes(k))),
       if outcomes(k).Reports() then None else Some(error))
  }

  class Service {
    var db: Table
    var notes: seq<Notification>
    const payments: Client<PaymentMessage>
    const statuses: Client<StatusMessage>
    const strategy: RetryStrategy := DEFAULT_RETRY_STRATEGY

    constructor (db: Table, payments: Client<PaymentMessage>, statuses: Client<StatusMessage>)
      ensures this.db == db && notes == []
      ensures this.payments == payments && this.statuses == statuses
    {
      this.db := db;
      notes := [];
      this.payments := payments;
      this.statuses := statuses;
    }

    /** A new order whose first inserts take no effect and whose next one succeeds has its row and its receipt, unless
        that was lost, and nil is returned. */
    method HandlePayment(msg: PaymentMessage, faults: nat -> PaymentFaults) returns (err: Option<Error>)
      modifies this
      ensures var r := Run(PaymentOperation(msg, faults), BACKGROUND, strategy, World(old(db), old(notes)));
              World(db, notes) == r.world && err == r.err
      ensures forall k: nat | k < strategy.maxAttempts && faults(k).create.Committed?
                              && (forall j: nat | j < k :: faults(j).create.NotCommitted?) ::
                UniqueOrders(old(db)) && !Has(old(db), msg.orderId) ==>
                  var d := msg.details;
                  && err == None
                  && db == old(db) + [Row(Key(msg.orderId, d, Sequence), msg.orderId, d, msg.status, "", "", map[], 0)]
                  && notes == old(notes) + if faults(k).notify.Arrives() then
                                             [PaymentReceived(d.customerEmail, msg.orderId, d.amount, d.currency)]
                                           else []
    {
      forall k: nat | k < strategy.maxAttempts && faults(k).create.Committed?
                      && (forall j: nat | j < k :: faults(j).create.NotCommitted?)
                      && UniqueOrders(db) && !Has(db, msg.orderId)
      {
        DeliveryRecords(strategy, World(db, notes), msg, faults, k);
      }
      var world, calls, slept;
      world, err, calls, slept := WithRetry(PaymentOperation(msg, faults), BACKGROUND, strategy, World(db, notes));
      db, notes := world.payments, world.notes;
    }

    /** A recorded order whose row can be read and whose first updates report errors, and whose next one does not, has
        the new status, its customer is told unless that was lost, and nil is returned. */
    method HandlePaymentStatus(msg: StatusMessage, faults: nat -> StatusFaults) returns (err: Option<Error>)
      modifies this
      ensures var r := Run(StatusOperation(msg, faults), BACKGROUND, strategy, World(old(db), old(notes)));
              World(db, notes) == r.world && err == r.err
      ensures forall k: nat | k < strategy.maxAttempts && !faults(k).readFails && faults(k).update.Committed?
                              && (forall j: nat | j < k :: !faults(j).readFails && !faults(j).update.Committed?) ::
                Has(old(db), msg.orderId) ==>
                  var row := Find(old(db), msg.orderId).value;
                  && err == None
                  && Find(db, msg.orderId) == Some(row.(status := msg.newStatus))
                  && notes == old(notes) + if faults(k).notify.Arrives() then
                                             [StatusUpdated(row.details.customerEmail, msg.orderId, msg.newStatus)]
                                           else []
      ensures !Has(old(db), msg.orderId) || faults(0).readFails ==>
                && db == old(db) && notes == old(notes)
                && err == Some(PaymentErr(ErrorType.Database, "PAYMENT_NOT_FOUND", msg.orderId, false))
    {
      forall k: nat | k < strategy.maxAttempts && !faults(k).readFails && faults(k).update.Committed?
                      && (forall j: nat | j < k :: !faults(j).readFails && !faults(j).update.Committed?)
                      && Has(db, msg.orderId)
      {
        StatusDeliverySucceeds(strategy, World(db, notes), msg, faults, k, "");
      }
      if !Has(db, msg.orderId) || faults(0).readFails {
        EarlyStatusWaits(strategy, World(db, notes), msg, faults);
      }
      var world, calls, slept;
      world, err, calls, slept := WithRetry(StatusOperation(msg, faults), BACKGROUND, strategy, World(db, notes));
      db, notes := world.payments, world.notes;
    }

    method ProcessPaymentAsync(ctx: Context, payment: Row, now: int,
                               outcomes: nat -> Delivery) returns (err: Option<Error>)
      modifies payments
      ensures var msg := PaymentMessage(payment.orderId, payment.details.(paymentDate := now), payment.status);
              var error := PaymentErr(Messaging, "PUBLISH_ERROR", payment.orderId, true);
              var r := Run(PublishOperation(error, msg, outcomes), ctx, strategy,
                           Wire(old(payments.queue), old(payments.counters)));
              Wire(payments.queue, payments.counters) == r.world && err == r.err
    {
      var msg := PaymentMessage(payment.orderId, payment.details.(paymentDate := now), payment.status);
      var world, calls, slept;
      world, err, calls, slept := WithRetry(PublishOperation(PublishError(payment.orderId), msg, outcomes), ctx,
                                            strategy,
                                            Wire(payments.queue, payments.counters));
      payments.queue, payments.counters := world.queue, world.counters;
    }

    method UpdatePaymentStatusAsync(ctx: Context, orderId: OrderId, oldStatus: Status, newStatus: Status,
                                    outcomes: nat -> Delivery) returns (err: Option<Error>)
      modifies statuses
      ensures var msg := StatusMessage(orderId, oldStatus, newStatus);
              var error := PaymentErr(Messaging, "STATUS_PUBLISH_ERROR", orderId, true);
              var r := Run(PublishOperation(error, msg, outcomes), ctx, strategy,
                           Wire(old(statuses.queue), old(statuses.counters)));
              Wire(statuses.queue, statuses.counters) == r.world && err == r.err
    {
      var msg := StatusMessage(orderId, oldStatus, newStatus);
      var world, calls, slept;
      world, err, calls, slept := WithRetry(PublishOperation(StatusPublishError(orderId), msg, outcomes), ctx, strategy,
                                            Wire(statuses.queue, statuses.counters));
      statuses.queue, statuses.counters := world.queue, world.counters;
    }
  }

  // ---------------------------------------------------------------------------------------
  // One payment delivery, undisturbed
  // ---------------------------------------------------------------------------------------

  function HandlePayment(s: RetryStrategy, w: World, msg: PaymentMessage,
                         faults: nat -> PaymentFaults): Outcome<World> {
    Run(PaymentOperation(msg, faults), BACKGROUND, s, w)
  }

  /** What one call of the payment operation can do to the world: nothing; or, only if the order had
      no row, add the message's row and at most one notification, and that only when it succeeds. */
  ghost predicate PaymentEffect(w: World, msg: PaymentMessage, v: World, ok: bool) {
    || v == w
    || (&& !Has(w.payments, msg.orderId)
        && v.payments == w.payments + [RowOf(msg)]
        && (v.notes == w.notes || (ok && v.notes == w.notes + [ReceivedNote(msg)])))
  }

  lemma {:induction false} PaymentFrom(s: RetryStrategy, w: World, msg: PaymentMessage, faults: nat -> PaymentFaults,
                                       attempt: nat, lastErr: Option<Error>)
    requires UniqueOrders(w.payments) && (attempt > 0 ==> lastErr.Some?)
    ensures var r := RetryFrom(PaymentOperation(msg, faults), BACKGROUND, s, attempt, w, lastErr);
            && PaymentEffect(w, msg, r.world, r.err == None)
            && (r.err == None && (s.maxAttempts >= 1 || attempt > 0) ==> Has(r.world.payments, msg.orderId))
    decreases s.maxAttempts - attempt
  {
    if attempt < s.maxAttempts {
      var (next, err) := PaymentOp(w, msg, faults(attempt));
      ProcessedIsTheRow(w.payments, msg.orderId);
      if !Has(w.payments, msg.orderId) {
        FindAfterInsert(w.payments, RowOf(msg), msg.orderId);
        WritesKeepUnique(w.payments, RowOf(msg), msg.orderId, Pending);
      }
      if err.Some? {
        PaymentFrom(s, next, msg, faults, attempt + 1, err);
      }
    }
  }

  /** Whatever faults one delivery meets: it adds at most one row, for its own order and only when
      there was none, with the message's own fields; at most one notification, and only for that row;
      and it changes nothing else. If it is going to be acknowledged the order has a row, provided the
      strategy allows an attempt at all. */
  lemma OnePaymentDelivery(s: RetryStrategy, w: World, msg: PaymentMessage, faults: nat -> PaymentFaults)
    requires UniqueOrders(w.payments)
    ensures var r := HandlePayment(s, w, msg, faults);
            && PaymentEffect(w, msg, r.world, r.err == None)
            && UniqueOrders(r.world.payments)
            && (s.maxAttempts >= 1 && r.err == None ==> Has(r.world.payments, msg.orderId))
            && (s.maxAttempts <= 0 ==> r.err == None && r.world == w)
  {
    PaymentFrom(s, w, msg, faults, 0, None);
    WritesKeepUnique(w.payments, RowOf(msg), msg.orderId, Pending);
  }

  /** While reads succeed, a redelivery of a recorded order changes nothing, and is acknowledged
      exactly when the recorded status is not pending; otherwise every attempt runs into the unique
      index and the delivery goes back to the queue. */
  lemma RedeliveryOfRecordedOrder(s: RetryStrategy, w: World, msg: PaymentMessage, faults: nat -> PaymentFaults)
    requires UniqueOrders(w.payments) && Has(w.payments, msg.orderId) && s.maxAttempts >= 1
    requires forall j: nat :: !faults(j).readFails
    ensures var r := HandlePayment(s, w, msg, faults);
            && r.world == w
            && (r.err == None <==> Find(w.payments, msg.orderId).value.status != Pending)
            && (r.err == None ==> r.calls == 1)
            && (r.err.Some? ==>
                  && r.calls == s.maxAttempts
                  && r.err == Some(PaymentErr(ErrorType.Database, "DB_ERROR", msg.orderId, true)))
  {
    var op := PaymentOperation(msg, faults);
    ProcessedIsTheRow(w.payments, msg.orderId);
    var answer := if Find(w.payments, msg.orderId).value.status != Pending then None
                  else Some(CreateError(msg.orderId));
    forall j: nat ensures op(w, j) == (w, answer) {
      assert op(w, j) == PaymentOp(w, msg, faults(j));
    }
    var k := RunEndsAtFirstDecision(op, BACKGROUND, s, w);
    StuckWorld(op, w, k);
    EndingIsNotPassing(op, BACKGROUND, s, w, Run(op, BACKGROUND, s, w), k);
    if answer == None {
      StuckWorld(op, w, 1);
      assert !PassesAttempt(op, BACKGROUND, w, 0);
    } else if k > 0 {
      StuckWorld(op, w, k - 1);
    }
  }

  // ---------------------------------------------------------------------------------------
  // What a delivery of a payment message comes to, fault by fault
  // ---------------------------------------------------------------------------------------

  /** One attempt. A recorded order that is not pending is done; any other recorded order, or one whose row cannot be
      read, runs into the unique index; an order without a row gets one with the message's fields, and if the insert
      reports success, and only then, its customer is told, which nothing depends on. */
  lemma OnePaymentAttempt(w: World, msg: PaymentMessage, f: PaymentFaults)
    requires UniqueOrders(w.payments)
    ensures var (v, err) := PaymentOp(w, msg, f);
            var found := Find(w.payments, msg.orderId);
            var failed := Some(PaymentErr(ErrorType.Database, "DB_ERROR", msg.orderId, true));
            var row := Row(Key(msg.orderId, msg.details, Sequence), msg.orderId, msg.details, msg.status, "", "",
                           map[], 0);
            var told := PaymentReceived(msg.details.customerEmail, msg.orderId, msg.details.amount,
                                        msg.details.currency);
            && (found.Some? && found.value.status != Pending && !f.readFails ==> v == w && err == None)
            && (found.Some? && (found.value.status == Pending || f.readFails) ==> v == w && err == failed)
            && (found.None? && f.create.NotCommitted? ==> v == w && err == failed)
            && (found.None? && f.create.CommittedWithError? ==>
                  v == World(w.payments + [row], w.notes) && err == failed)
            && (found.None? && f.create.Committed? ==>
                  && err == None && v.payments == w.payments + [row]
                  && v.notes == if f.notify.Arrives() then w.notes + [told] else w.notes)
  {
    ProcessedIsTheRow(w.payments, msg.orderId);
  }

  /** A new order's delivery whose k first inserts take no effect and whose next one succeeds: nil, after k + 1
      attempts, with the row, and with the customer told unless that notification was lost. */
  lemma DeliveryRecords(s: RetryStrategy, w: World, msg: PaymentMessage, faults: nat -> PaymentFaults, k: nat)
    requires UniqueOrders(w.payments) && !Has(w.payments, msg.orderId) && k < s.maxAttempts
    requires (forall j: nat | j < k :: faults(j).create.NotCommitted?) && faults(k).create.Committed?
    ensures var r := HandlePayment(s, w, msg, faults);
            var row := Row(Key(msg.orderId, msg.details, Sequence), msg.orderId, msg.details, msg.status, "", "",
                           map[], 0);
            var told := PaymentReceived(msg.details.customerEmail, msg.orderId, msg.details.amount,
                                        msg.details.currency);
            && r.err == None && r.calls == k + 1 && |r.slept| == k
            && r.world.payments == w.payments + [row]
            && r.world.notes == if faults(k).notify.Arrives() then w.notes + [told] else w.notes
  {
    var op, at := PaymentOperation(msg, faults), (j: nat) => w;
    forall j: nat | j < k ensures Fails(op, at, j) {
      OnePaymentAttempt(w, msg, faults(j));
    }
    OnePaymentAttempt(w, msg, faults(k));
    EndsAfterFailures(op, s, w, at, k);
  }

  /** If no insert takes effect, the delivery fails with the insert's error after every attempt allowed, and nothing
      has changed. */
  lemma DeliveryFails(s: RetryStrategy, w: World, msg: PaymentMessage, faults: nat -> PaymentFaults)
    requires UniqueOrders(w.payments) && !Has(w.payments, msg.orderId) && s.maxAttempts >= 1
    requires forall j: nat | j < s.maxAttempts :: faults(j).create.NotCommitted?
    ensures var r := HandlePayment(s, w, msg, faults);
            && r.world == w && r.calls == s.maxAttempts
            && r.err == Some(PaymentErr(ErrorType.Database, "DB_ERROR", msg.orderId, true))
  {
    var op, at := PaymentOperation(msg, faults), (j: nat) => w;
    forall j: nat | j < s.maxAttempts ensures Fails(op, at, j) {
      OnePaymentAttempt(w, msg, faults(j));
    }
    OnePaymentAttempt(w, msg, faults(s.maxAttempts - 1));
    FailuresExhaust(op, s, w, at, s.maxAttempts);
  }

  /** If an insert takes effect and reports an error, the row is there and its customer is not told, in this delivery
      or any other. With reads that succeed, the next attempt finds the order processed and ends in nil, unless the
      message said pending; then every attempt that is left runs into the unique index. */
  lemma AmbiguousInsertIsNotAnnounced(s: RetryStrategy, w: World, msg: PaymentMessage, faults: nat -> PaymentFaults,
                                      k: nat)
    requires UniqueOrders(w.payments) && !Has(w.payments, msg.orderId) && k < s.maxAttempts
    requires (forall j: nat | j < k :: faults(j).create.NotCommitted?) && faults(k).create.CommittedWithError?
    requires forall j: nat | j > k :: !faults(j).readFails
    ensures var r := HandlePayment(s, w, msg, faults);
            var row := Row(Key(msg.orderId, msg.details, Sequence), msg.orderId, msg.details, msg.status, "", "",
                           map[], 0);
            && r.world == World(w.payments + [row], w.notes)
            && (msg.status != Pending && k + 1 < s.maxAttempts ==> r.err == None && r.calls == k + 2)
            && (msg.status == Pending || k + 1 == s.maxAttempts ==>
                  && r.calls == s.maxAttempts
                  && r.err == Some(PaymentErr(ErrorType.Database, "DB_ERROR", msg.orderId, true)))
  {
    var row := Row(Key(msg.orderId, msg.details, Sequence), msg.orderId, msg.details, msg.status, "", "", map[], 0);
    var v := World(w.payments + [row], w.notes);
    var op, at := PaymentOperation(msg, faults), (j: nat) => if j <= k then w else v;
    WritesKeepUnique(w.payments, row, "", Pending);
    FindAfterInsert(w.payments, row, msg.orderId);
    forall j: nat | j <= k || msg.status == Pending ensures Fails(op, at, j) {
      OnePaymentAttempt(at(j), msg, faults(j));
    }
    if msg.status != Pending && k + 1 < s.maxAttempts {
      OnePaymentAttempt(v, msg, faults(k + 1));
      EndsAfterFailures(op, s, w, at, k + 1);
    } else {
      OnePaymentAttempt(at(s.maxAttempts - 1), msg, faults(s.maxAttempts - 1));
      FailuresExhaust(op, s, w, at, s.maxAttempts);
    }
  }

  lemma {:induction false} StuckWorld(op: (World, nat) -> (World, Option<Error>), w: World, k: nat)
    requires forall j: nat :: op(w, j).0 == w
    ensures WorldAt(op, w, k) == w
  {
    if k > 0 {
      StuckWorld(op, w, k - 1);
    }
  }

  /** The handler as the payment consumer calls it: faults(k, j) strikes attempt j of the k-th delivery. */
  function PaymentHandler(s: RetryStrategy, faults: (nat, nat) -> PaymentFaults)
    : (World, PaymentMessage, nat) -> (World, bool)
  {
    (w: World, msg: PaymentMessage, k: nat) =>
      var r := HandlePayment(s, w, msg, (j: nat) => faults(k, j));
      (r.world, r.err.None?)
  }

  /** The consumer loop with this handler, for any deliveries and any faults: the orders of all acknowledged messages
      end with a row, orders stay unique, and rows that were there are untouched. */
  lemma {:induction false} PaymentLoop(s: RetryStrategy, faults: (nat, nat) -> PaymentFaults, w: World,
                                       bodies: seq<Body<PaymentMessage>>, o: OrderId)
    requires UniqueOrders(w.payments) && s.maxAttempts >= 1
    ensures var (end, rounds) := Replay(PaymentHandler(s, faults), w, bodies);
            && |rounds| == |bodies|
            && UniqueOrders(end.payments)
            && (Has(w.payments, o) ==> Find(end.payments, o) == Find(w.payments, o))
            && (forall k: nat | k < |rounds| && rounds[k].how.Acked? ::
                  rounds[k].body.Json? && (rounds[k].body.msg.orderId == o ==> Has(end.payments, o)))
  {
    OnlyMalformedDropped(PaymentHandler(s, faults), w, bodies);
    if |bodies| > 0 {
      var n := |bodies| - 1;
      var (before, rounds) := Replay(PaymentHandler(s, faults), w, bodies[..n]);
      PaymentLoop(s, faults, w, bodies[..n], o);
      if bodies[n].Json? {
        var msg := bodies[n].msg;
        OnePaymentDelivery(s, before, msg, (j: nat) => faults(n, j));
        if !Has(before.payments, msg.orderId) {
          FindAfterInsert(before.payments, RowOf(msg), o);
        }
      }
    }
  }

  /** Each message it receives is handled in the world the ones before left, and acknowledged if the handler returns
      nil, requeued if it does not. */
  lemma LoopSettlesByHandler(s: RetryStrategy, faults: (nat, nat) -> PaymentFaults, w: World,
                             bodies: seq<Body<PaymentMessage>>, k: nat)
    requires k < |bodies| && bodies[k].Json?
    ensures |Replay(PaymentHandler(s, faults), w, bodies).1| == |bodies|
    ensures var handler := PaymentHandler(s, faults);
            var before := Replay(handler, w, bodies[..k]).0;
            var r := HandlePayment(s, before, bodies[k].msg, (j: nat) => faults(k, j));
            && Replay(handler, w, bodies).1[k].how == (if r.err == None then Acked else Requeued)
            && Replay(handler, w, bodies[..k + 1]).0 == r.world
  {
    ReplayRound(PaymentHandler(s, faults), w, bodies, k);
  }

  // ---------------------------------------------------------------------------------------
  // One status delivery, undisturbed
  // ---------------------------------------------------------------------------------------

  function HandlePaymentStatus(s: RetryStrategy, w: World, msg: StatusMessage,
                               faults: nat -> StatusFaults): Outcome<World> {
    Run(StatusOperation(msg, faults), BACKGROUND, s, w)
  }

  /** One attempt of the retried status operation. */
  lemma StatusRetryUnfolds(r: RetryStrategy, w: World, msg: StatusMessage, faults: nat -> StatusFaults,
                           k: nat, lastErr: Option<Error>)
    requires k < r.maxAttempts
    ensures var out := RetryFrom(StatusOperation(msg, faults), BACKGROUND, r, k, w, lastErr);
            var (next, err) := StatusOp(w, msg, faults(k));
            if err.None? || !Retryable(err.value) then out.world == next && out.err == err
            else
              var rest := RetryFrom(StatusOperation(msg, faults), BACKGROUND, r, k + 1, next, err);
              out.world == rest.world && out.err == rest.err
  {
  }

  /** What a status operation, or a delivery, can do to the world: leave the table or set the status; and if it
      succeeds, set it and send at most one notification, which needs the row to be there. */
  ghost predicate StatusEffect(w: World, msg: StatusMessage, v: World, ok: bool) {
    && v.payments in [w.payments, SetStatus(w.payments, msg.orderId, msg.newStatus)]
    && w.notes <= v.notes <= w.notes + (if Has(w.payments, msg.orderId) && ok then [UpdatedNote(w.payments, msg)]
                                        else [])
    && (ok ==> Has(w.payments, msg.orderId) && v.payments == SetStatus(w.payments, msg.orderId, msg.newStatus))
  }

  lemma OneStatusOp(w: World, msg: StatusMessage, f: StatusFaults)
    ensures var (next, err) := StatusOp(w, msg, f); StatusEffect(w, msg, next, err == None)
  {
  }

  lemma StatusEffectTwice(w: World, msg: StatusMessage, next: World, v: World, ok: bool)
    requires StatusEffect(w, msg, next, false) && StatusEffect(next, msg, v, ok)
    ensures StatusEffect(w, msg, v, ok)
  {
    SetStatusTwice(w.payments, msg.orderId, msg.newStatus);
    FindAfterSetStatus(w.payments, msg.orderId, msg.newStatus, msg.orderId);
  }

  lemma {:induction false} StatusFrom(s: RetryStrategy, w: World, msg: StatusMessage, faults: nat -> StatusFaults,
                                      attempt: nat, lastErr: Option<Error>)
    requires attempt > 0 ==> lastErr.Some?
    ensures var r := RetryFrom(StatusOperation(msg, faults), BACKGROUND, s, attempt, w, lastErr);
            StatusEffect(w, msg, r.world, r.err == None && (s.maxAttempts >= 1 || attempt > 0))
    decreases s.maxAttempts - attempt
  {
    if attempt < s.maxAttempts {
      var (next, err) := StatusOp(w, msg, faults(attempt));
      OneStatusOp(w, msg, faults(attempt));
      StatusRetryUnfolds(s, w, msg, faults, attempt, lastErr);
      if err.Some? && Retryable(err.value) {
        StatusFrom(s, next, msg, faults, attempt + 1, err);
        var r := RetryFrom(StatusOperation(msg, faults), BACKGROUND, s, attempt + 1, next, err);
        StatusEffectTwice(w, msg, next, r.world, r.err == None);
      }
    }
  }

  lemma {:induction false} SetStatusTwice(t: Table, o: OrderId, st: Status)
    ensures SetStatus(SetStatus(t, o, st), o, st) == SetStatus(t, o, st)
  {
    if |t| > 0 && t[0].orderId != o {
      SetStatusTwice(t[1..], o, st);
      assert ([t[0]] + SetStatus(t[1..], o, st))[1..] == SetStatus(t[1..], o, st);
    } else if |t| > 0 {
      assert ([t[0].(status := st)] + t[1..])[1..] == t[1..];
    }
  }

  /** Whatever faults one status delivery meets, the table is the old one or the one with the status
      set; if it is going to be acknowledged the status has been set, and at most one notification
      went out. Statuses of other orders and all other fields stay. */
  lemma OneStatusDelivery(s: RetryStrategy, w: World, msg: StatusMessage, faults: nat -> StatusFaults, p: OrderId)
    requires s.maxAttempts >= 1
    ensures var r := HandlePaymentStatus(s, w, msg, faults);
            && r.world.payments in [w.payments, SetStatus(w.payments, msg.orderId, msg.newStatus)]
            && w.notes <= r.world.notes && |r.world.notes| <= |w.notes| + 1
            && (r.err == None ==> Has(r.world.payments, msg.orderId)
                                  && Find(r.world.payments, msg.orderId).value.status == msg.newStatus)
            && (p != msg.orderId ==> Find(r.world.payments, p) == Find(w.payments, p))
            && (Has(w.payments, p) ==>
                  && Has(r.world.payments, p)
                  && var row := Find(r.world.payments, p).value;
                     row == Find(w.payments, p).value.(status := row.status))
  {
    StatusFrom(s, w, msg, faults, 0, None);
    FindAfterSetStatus(w.payments, msg.orderId, msg.newStatus, msg.orderId);
    FindAfterSetStatus(w.payments, msg.orderId, msg.newStatus, p);
  }

  // ---------------------------------------------------------------------------------------
  // What a delivery of a status message comes to, fault by fault
  // ---------------------------------------------------------------------------------------

  /** One attempt. A row that is not there or cannot be read is an error that is not retried; an update that reports
      an error is one that is; and after an update that reports success, and only then, the row's customer is told the
      new status. */
  lemma OneStatusAttempt(w: World, msg: StatusMessage, f: StatusFaults)
    ensures var (v, err) := StatusOp(w, msg, f);
            var found := Find(w.payments, msg.orderId);
            && (found.None? || f.readFails ==>
                  v == w && err == Some(PaymentErr(ErrorType.Database, "PAYMENT_NOT_FOUND", msg.orderId, false)))
            && (found.Some? && !f.readFails ==>
                  && (f.update.NotCommitted? ==> v.payments == w.payments)
                  && (!f.update.NotCommitted? ==>
                        && Find(v.payments, msg.orderId) == Some(found.value.(status := msg.newStatus))
                        && v.payments == SetStatus(w.payments, msg.orderId, msg.newStatus))
                  && (!f.update.Committed? ==>
                        && v.notes == w.notes
                        && err == Some(PaymentErr(ErrorType.Database, "STATUS_UPDATE_ERROR", msg.orderId, true)))
                  && (f.update.Committed? ==>
                        && err == None
                        && var told := StatusUpdated(found.value.details.customerEmail, msg.orderId, msg.newStatus);
                           v.notes == if f.notify.Arrives() then w.notes + [told] else w.notes))
  {
    FindAfterSetStatus(w.payments, msg.orderId, msg.newStatus, msg.orderId);
  }

  /** One of the first k updates takes effect although it reports an error. */
  predicate EarlyCommit(faults: nat -> StatusFaults, k: nat) {
    k > 0 && (faults(k - 1).update.CommittedWithError? || EarlyCommit(faults, k - 1))
  }

  /** The world before attempt j of a status delivery whose updates so far reported errors. */
  function Updating(w: World, msg: StatusMessage, faults: nat -> StatusFaults, j: nat): World {
    if EarlyCommit(faults, j) then w.(payments := SetStatus(w.payments, msg.orderId, msg.newStatus)) else w
  }

  lemma UpdatingFails(w: World, msg: StatusMessage, faults: nat -> StatusFaults, j: nat)
    requires Has(w.payments, msg.orderId) && !faults(j).readFails && !faults(j).update.Committed?
    ensures Fails(StatusOperation(msg, faults), (i: nat) => Updating(w, msg, faults, i), j)
  {
    var at := (i: nat) => Updating(w, msg, faults, i);
    OneStatusAttempt(at(j), msg, faults(j));
    FindAfterSetStatus(w.payments, msg.orderId, msg.newStatus, msg.orderId);
    SetStatusTwice(w.payments, msg.orderId, msg.newStatus);
    assert StatusOperation(msg, faults)(at(j), j) == StatusOp(at(j), msg, faults(j));
  }

  /** A recorded order's status delivery whose k first updates report errors, having taken effect or not, and whose
      next one reports success: nil, after k + 1 attempts, with the new status and nothing else changed, and with the
      customer told once, unless that notification was lost. */
  lemma StatusDeliverySucceeds(s: RetryStrategy, w: World, msg: StatusMessage, faults: nat -> StatusFaults, k: nat,
                               p: OrderId)
    requires Has(w.payments, msg.orderId) && k < s.maxAttempts && (forall j: nat | j <= k :: !faults(j).readFails)
    requires (forall j: nat | j < k :: !faults(j).update.Committed?) && faults(k).update.Committed?
    ensures var r := HandlePaymentStatus(s, w, msg, faults);
            var row := Find(w.payments, msg.orderId).value;
            var told := StatusUpdated(row.details.customerEmail, msg.orderId, msg.newStatus);
            && r.err == None && r.calls == k + 1 && |r.slept| == k
            && Find(r.world.payments, msg.orderId) == Some(row.(status := msg.newStatus))
            && (p != msg.orderId ==> Find(r.world.payments, p) == Find(w.payments, p))
            && r.world.notes == if faults(k).notify.Arrives() then w.notes + [told] else w.notes
  {
    var op, at := StatusOperation(msg, faults), (j: nat) => Updating(w, msg, faults, j);
    forall j: nat | j < k ensures Fails(op, at, j) {
      UpdatingFails(w, msg, faults, j);
    }
    OneStatusAttempt(at(k), msg, faults(k));
    EndsAfterFailures(op, s, w, at, k);
    assert op(at(k), k) == StatusOp(at(k), msg, faults(k));
    FindAfterSetStatus(w.payments, msg.orderId, msg.newStatus, msg.orderId);
    FindAfterSetStatus(w.payments, msg.orderId, msg.newStatus, p);
    SetStatusTwice(w.payments, msg.orderId, msg.newStatus);
  }

  /** If every update reports an error, the delivery fails with the update's error after every attempt allowed; nobody
      is told, and the status is set if and only if one of the updates took effect. */
  lemma StatusDeliveryFails(s: RetryStrategy, w: World, msg: StatusMessage, faults: nat -> StatusFaults)
    requires Has(w.payments, msg.orderId) && s.maxAttempts >= 1
    requires forall j: nat | j < s.maxAttempts :: !faults(j).readFails && !faults(j).update.Committed?
    ensures var r := HandlePaymentStatus(s, w, msg, faults);
            var row := Find(w.payments, msg.orderId).value;
            && r.calls == s.maxAttempts && r.world.notes == w.notes
            && r.err == Some(PaymentErr(ErrorType.Database, "STATUS_UPDATE_ERROR", msg.orderId, true))
            && Find(r.world.payments, msg.orderId)
               == Some(if EarlyCommit(faults, s.maxAttempts) then row.(status := msg.newStatus) else row)
  {
    var op, at := StatusOperation(msg, faults), (j: nat) => Updating(w, msg, faults, j);
    forall j: nat | j < s.maxAttempts ensures Fails(op, at, j) {
      UpdatingFails(w, msg, faults, j);
    }
    var last := s.maxAttempts - 1;
    OneStatusAttempt(at(last), msg, faults(last));
    FindAfterSetStatus(w.payments, msg.orderId, msg.newStatus, msg.orderId);
    assert op(at(last), last) == StatusOp(at(last), msg, faults(last));
    FailuresExhaust(op, s, w, at, s.maxAttempts);
  }

  /** While the order has no row, the operation runs exactly once, whatever the strategy allows beyond that, nothing
      changes, and the delivery goes back to the queue; and a row that cannot be read is taken for one that is not
      there. */
  lemma EarlyStatusWaits(s: RetryStrategy, w: World, msg: StatusMessage, faults: nat -> StatusFaults)
    requires s.maxAttempts >= 1 && (faults(0).readFails || !Has(w.payments, msg.orderId))
    ensures var r := HandlePaymentStatus(s, w, msg, faults);
            && r.world == w && r.calls == 1 && r.slept == []
            && r.err == Some(PaymentErr(ErrorType.Database, "PAYMENT_NOT_FOUND", msg.orderId, false))
  {
    OneStatusAttempt(w, msg, faults(0));
    assert StatusOperation(msg, faults)(w, 0) == StatusOp(w, msg, faults(0));
    assert !BACKGROUND.done(0);
  }

  /** A pending order keeps sending its payment message back; once a status delivery has moved it off pending, the next
      redelivery whose reads succeed is acknowledged, and changes nothing. */
  lemma StatusUpdateUnblocks(s: RetryStrategy, w: World, msg: PaymentMessage, change: StatusMessage,
                             statusFaults: nat -> StatusFaults, faults: nat -> PaymentFaults)
    requires UniqueOrders(w.payments) && s.maxAttempts >= 1 && (forall j: nat :: !faults(j).readFails)
    requires Has(w.payments, msg.orderId) && Find(w.payments, msg.orderId).value.status == Pending
    requires change.orderId == msg.orderId && change.newStatus != Pending
    requires HandlePaymentStatus(s, w, change, statusFaults).err == None
    ensures HandlePayment(s, w, msg, faults).err.Some?
    ensures var moved := HandlePaymentStatus(s, w, change, statusFaults).world;
            var r := HandlePayment(s, moved, msg, faults);
            r.err == None && r.world == moved
  {
    var moved := HandlePaymentStatus(s, w, change, statusFaults).world;
    OneStatusDelivery(s, w, change, statusFaults, msg.orderId);
    WritesKeepUnique(w.payments, RowOf(msg), change.orderId, change.newStatus);
    RedeliveryOfRecordedOrder(s, w, msg, faults);
    RedeliveryOfRecordedOrder(s, moved, msg, faults);
  }

  // ---------------------------------------------------------------------------------------
  // Publishing
  // ---------------------------------------------------------------------------------------

  function More<X(==)>(m: multiset<X>, x: X, n: nat): multiset<X> {
    m[x := m[x] + n]
  }

  /** The queue with n more copies of a body. */
  function WithCopies<M(==)>(q: Queue<M>, b: Body<M>, n: nat): Queue<M> {
    q.(published := More(q.published, b, n), ready := More(q.ready, b, n))
  }

  lemma OneMore<X>(m: multiset<X>, x: X, n: nat)
    ensures More(m, x, n) + multiset{x} == More(m, x, n + 1)
    ensures More(m, x, 0) == m
  {
  }

  lemma OneMoreCopy<M>(q: Queue<M>, b: Body<M>, n: nat)
    ensures Enqueue(WithCopies(q, b, n), b) == WithCopies(q, b, n + 1)
    ensures WithCopies(q, b, 0) == q
  {
    OneMore(q.published, b, n);
    OneMore(q.ready, b, n);
  }

  lemma CopiesFirst<M>(q: Queue<M>, b: Body<M>, n: nat)
    ensures WithCopies(Enqueue(q, b), b, n) == WithCopies(q, b, n + 1)
    ensures WithCopies(q, b, 0) == q
  {
    assert More(q.ready + multiset{b}, b, n) == More(q.ready, b, n + 1);
    assert More(q.published + multiset{b}, b, n) == More(q.published, b, n + 1);
    OneMoreCopy(q, b, 0);
  }

  /** What a retried publication comes to: whether it returns nil, how many copies reach the queue, and whether it
      returned nil for a copy that was lost. */
  datatype Amount = Amount(ok: bool, copies: nat, silent: bool)

  /** The retry loop around a publication, from attempt k on. */
  function Sends(s: RetryStrategy, ctx: Context, outcomes: nat -> Delivery, k: nat): Amount
    decreases s.maxAttempts - k
  {
    if k >= s.maxAttempts then Amount(k == 0, 0, false)
    else if ctx.done(k) then Amount(false, 0, false)
    else
      var n := if outcomes(k).Arrives() then 1 else 0;
      if outcomes(k).Reports() then Amount(true, n, outcomes(k).Vanished?)
      else if ctx.wait(k).Interrupted? then Amount(false, n, false)
      else
        var rest := Sends(s, ctx, outcomes, k + 1);
        rest.(copies := n + rest.copies)
  }

  lemma SendThenMore<M>(q: Queue<M>, msg: M, d: Delivery, n: nat)
    ensures WithCopies(Published(q, msg, d), Json(msg), n)
            == WithCopies(q, Json(msg), (if d.Arrives() then 1 else 0) + n)
  {
    CopiesFirst(q, Json(msg), n);
  }

  lemma SendOnce<M>(q: Queue<M>, msg: M, d: Delivery)
    ensures Published(q, msg, d) == WithCopies(q, Json(msg), if d.Arrives() then 1 else 0)
  {
    OneMoreCopy(q, Json(msg), 0);
  }

  /** The loop stops before attempt k. */
  lemma LoopStops<M>(s: RetryStrategy, ctx: Context, error: Error, msg: M, outcomes: nat -> Delivery, k: nat,
                     w: Wire<M>, lastErr: Option<Error>)
    requires k >= s.maxAttempts || ctx.done(k)
    ensures RetryFrom(PublishOperation(error, msg, outcomes), ctx, s, k, w, lastErr)
         == Outcome(w, if k >= s.maxAttempts then lastErr else Some(ctx.err), 0, [])
  {
  }

  /** Attempt k is the last. */
  lemma LoopEnds<M>(s: RetryStrategy, ctx: Context, error: Error, msg: M, outcomes: nat -> Delivery, k: nat,
                    w: Wire<M>, lastErr: Option<Error>)
    requires Retryable(error) && k < s.maxAttempts && !ctx.done(k)
             && (outcomes(k).Reports() || ctx.wait(k).Interrupted?)
    ensures var out := RetryFrom(PublishOperation(error, msg, outcomes), ctx, s, k, w, lastErr);
            (out.err.None? <==> outcomes(k).Reports()) && out.world.queue == Published(w.queue, msg, outcomes(k))
  {
  }

  /** It is not. */
  lemma LoopGoesOn<M>(s: RetryStrategy, ctx: Context, error: Error, msg: M, outcomes: nat -> Delivery, k: nat,
                      w: Wire<M>, lastErr: Option<Error>)
    requires Retryable(error) && k < s.maxAttempts && !ctx.done(k) && !outcomes(k).Reports() && ctx.wait(k).Elapsed?
    ensures var out := RetryFrom(PublishOperation(error, msg, outcomes), ctx, s, k, w, lastErr);
            var next := Wire(Published(w.queue, msg, outcomes(k)), CountPublish(w.counters, outcomes(k)));
            var rest := RetryFrom(PublishOperation(error, msg, outcomes), ctx, s, k + 1, next, Some(error));
            out.world == rest.world && out.err == rest.err
  {
  }

  /** An outcome of the loop, as its verdict and the copies it sent. */
  ghost predicate Amounts<M>(out: Outcome<Wire<M>>, sends: Amount, q: Queue<M>, msg: M) {
    (out.err == None <==> sends.ok) && out.world.queue == WithCopies(q, Json(msg), sends.copies)
  }

  lemma StopAmounts<M>(out: Outcome<Wire<M>>, w: Wire<M>, ok: bool, msg: M)
    requires out.world == w && (out.err == None <==> ok)
    ensures Amounts(out, Amount(ok, 0, false), w.queue, msg)
  {
    OneMoreCopy(w.queue, Json(msg), 0);
  }

  lemma EndAmounts<M>(out: Outcome<Wire<M>>, q: Queue<M>, msg: M, d: Delivery)
    requires out.world.queue == Published(q, msg, d) && (out.err == None <==> d.Reports())
    ensures Amounts(out, Amount(d.Reports(), if d.Arrives() then 1 else 0, d.Vanished?), q, msg)
  {
    SendOnce(q, msg, d);
  }

  lemma AmountsToMore<M>(out: Outcome<Wire<M>>, rest: Outcome<Wire<M>>, sends: Amount, q: Queue<M>, msg: M, d: Delivery)
    requires out.world == rest.world && out.err == rest.err && Amounts(rest, sends, Published(q, msg, d), msg)
    ensures Amounts(out, sends.(copies := (if d.Arrives() then 1 else 0) + sends.copies), q, msg)
  {
    SendThenMore(q, msg, d, sends.copies);
  }

  lemma {:induction false} SendsAreTheLoop<M>(s: RetryStrategy, ctx: Context, error: Error, msg: M,
                                              outcomes: nat -> Delivery, k: nat, w: Wire<M>, lastErr: Option<Error>)
    requires Retryable(error) && (k == 0 <==> lastErr.None?)
    ensures Amounts(RetryFrom(PublishOperation(error, msg, outcomes), ctx, s, k, w, lastErr),
                    Sends(s, ctx, outcomes, k), w.queue, msg)
    decreases s.maxAttempts - k
  {
    var out := RetryFrom(PublishOperation(error, msg, outcomes), ctx, s, k, w, lastErr);
    if k >= s.maxAttempts || ctx.done(k) {
      LoopStops(s, ctx, error, msg, outcomes, k, w, lastErr);
      StopAmounts(out, w, k == 0 && k >= s.maxAttempts, msg);
    } else if outcomes(k).Reports() || ctx.wait(k).Interrupted? {
      LoopEnds(s, ctx, error, msg, outcomes, k, w, lastErr);
      EndAmounts(out, w.queue, msg, outcomes(k));
    } else {
      var next := Wire(Published(w.queue, msg, outcomes(k)), CountPublish(w.counters, outcomes(k)));
      LoopGoesOn(s, ctx, error, msg, outcomes, k, w, lastErr);
      SendsAreTheLoop(s, ctx, error, msg, outcomes, k + 1, next, Some(error));
      AmountsToMore(out, RetryFrom(PublishOperation(error, msg, outcomes), ctx, s, k + 1, next, Some(error)),
                    Sends(s, ctx, outcomes, k + 1), w.queue, msg, outcomes(k));
    }
  }

  /** One of the attempts allowed loses its message without an error. */
  ghost predicate SilentLoss(outcomes: nat -> Delivery, max: int) {
    exists k: nat :: k < max && outcomes(k).Vanished?
  }

  lemma {:induction false} SendsBounded(s: RetryStrategy, ctx: Context, outcomes: nat -> Delivery, k: nat)
    requires k <= s.maxAttempts
    ensures var sends := Sends(s, ctx, outcomes, k);
            && sends.copies <= s.maxAttempts - k
            && (sends.ok && k < s.maxAttempts ==> sends.copies >= 1 || sends.silent)
            && (sends.silent ==> SilentLoss(outcomes, s.maxAttempts))
    decreases s.maxAttempts - k
  {
    if k < s.maxAttempts {
      SendsBounded(s, ctx, outcomes, k + 1);
    }
  }

  /** A publication has put at most MaxAttempts copies of its message into the queue, and if it returned nil
      at least one, unless the one it returned nil for was lost. Nothing else about the queue changes. */
  lemma PublishedCopies<M>(s: RetryStrategy, ctx: Context, w: Wire<M>, error: Error, msg: M, outcomes: nat -> Delivery)
    returns (n: nat)
    requires s.maxAttempts >= 1 && Retryable(error)
    ensures var r := Run(PublishOperation(error, msg, outcomes), ctx, s, w);
            && n <= s.maxAttempts
            && r.world.queue == WithCopies(w.queue, Json(msg), n)
            && (r.err == None ==> n >= 1 || SilentLoss(outcomes, s.maxAttempts))
  {
    n := Sends(s, ctx, outcomes, 0).copies;
    SendsAreTheLoop(s, ctx, error, msg, outcomes, 0, w, None);
    SendsBounded(s, ctx, outcomes, 0);
  }

  /** How many of n attempts, from attempt k on, put a copy into the queue. */
  function Arrived(outcomes: nat -> Delivery, k: nat, n: nat): nat
    decreases n
  {
    if n == 0 then 0 else (if outcomes(k).Arrives() then 1 else 0) + Arrived(outcomes, k + 1, n - 1)
  }

  lemma {:induction false} SendsArrived<M>(s: RetryStrategy, ctx: Context, error: Error, msg: M,
                                           outcomes: nat -> Delivery, k: nat, w: Wire<M>, lastErr: Option<Error>)
    requires Retryable(error)
    ensures var r := RetryFrom(PublishOperation(error, msg, outcomes), ctx, s, k, w, lastErr);
            Sends(s, ctx, outcomes, k).copies == Arrived(outcomes, k, r.calls)
    decreases s.maxAttempts - k
  {
    if k < s.maxAttempts && !ctx.done(k) {
      assert Arrived(outcomes, k, 1) == if outcomes(k).Arrives() then 1 else 0;
      if !outcomes(k).Reports() && ctx.wait(k).Elapsed? {
        var next := Wire(Published(w.queue, msg, outcomes(k)), CountPublish(w.counters, outcomes(k)));
        SendsArrived(s, ctx, error, msg, outcomes, k + 1, next, Some(error));
      }
    }
  }

  lemma {:induction false} CountersFrom<M>(s: RetryStrategy, ctx: Context, error: Error, msg: M,
                                           outcomes: nat -> Delivery, k: nat, w: Wire<M>, lastErr: Option<Error>)
    requires Retryable(error) && (k > 0 ==> lastErr.Some?)
    ensures var r := RetryFrom(PublishOperation(error, msg, outcomes), ctx, s, k, w, lastErr);
            var nils := if r.err == None && k < s.maxAttempts then 1 else 0;
            && nils <= r.calls
            && r.world.counters == w.counters.(published := w.counters.published + nils,
                                               errors := w.counters.errors + r.calls - nils)
    decreases s.maxAttempts - k
  {
    if k < s.maxAttempts && !ctx.done(k) && !outcomes(k).Reports() && ctx.wait(k).Elapsed? {
      var next := Wire(Published(w.queue, msg, outcomes(k)), CountPublish(w.counters, outcomes(k)));
      CountersFrom(s, ctx, error, msg, outcomes, k + 1, next, Some(error));
    }
  }

  /** What a retried publication leaves: one copy more for every attempt made that arrived, and in the counters one nil
      return, if it returned nil, and one error for every other attempt made. */
  lemma PublicationCounted<M>(s: RetryStrategy, ctx: Context, w: Wire<M>, error: Error, msg: M,
                              outcomes: nat -> Delivery)
    requires Retryable(error) && s.maxAttempts >= 1
    ensures var r := Run(PublishOperation(error, msg, outcomes), ctx, s, w);
            var nils := if r.err == None then 1 else 0;
            && r.world.queue == WithCopies(w.queue, Json(msg), Arrived(outcomes, 0, r.calls))
            && nils <= r.calls
            && r.world.counters == w.counters.(published := w.counters.published + nils,
                                               errors := w.counters.errors + r.calls - nils)
  {
    SendsAreTheLoop(s, ctx, error, msg, outcomes, 0, w, None);
    SendsArrived(s, ctx, error, msg, outcomes, 0, w, None);
    CountersFrom(s, ctx, error, msg, outcomes, 0, w, None);
  }

  /** A publication whose k first attempts report errors and whose next one does not returns nil after k + 1 attempts;
      one whose attempts all report errors returns that error after as many as are allowed. */
  lemma PublicationRetries<M>(s: RetryStrategy, w: Wire<M>, error: Error, msg: M, outcomes: nat -> Delivery, k: nat)
    requires Retryable(error) && 1 <= s.maxAttempts && k <= s.maxAttempts
    requires forall j: nat | j < k :: !outcomes(j).Reports()
    requires k < s.maxAttempts ==> outcomes(k).Reports()
    ensures var r := Run(PublishOperation(error, msg, outcomes), BACKGROUND, s, w);
            && (k < s.maxAttempts ==> r.err == None && r.calls == k + 1)
            && (k == s.maxAttempts ==> r.err == Some(error) && r.calls == k)
  {
    var op := PublishOperation(error, msg, outcomes);
    var at := (j: nat) => WorldAt(op, w, j);
    forall j: nat | j < k ensures Fails(op, at, j) {
      assert op(at(j), j).1 == Some(error);
    }
    if k < s.maxAttempts {
      EndsAfterFailures(op, s, w, at, k);
    } else {
      FailuresExhaust(op, s, w, at, k);
    }
  }
}
