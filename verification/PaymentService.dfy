/** The synchronous payment service (internal/service/payment_service.go): it calls a provider, writes the database,
    and publishes status changes; each of these can fail, and a write or a call may have taken effect although an
    error came back.

    The provider is its ledger: the charges and refunds it accepted. A *models.Payment is an object holding the
    fields of one record. */
module PaymentService {
  import opened Errors
  import opened Models
  import opened Broker
  import opened Retry
  import opened AsyncService

  class Payment {
    var fields: Row

    constructor (fields: Row)
      ensures this.fields == fields
    {
      this.fields := fields;
    }
  }

  datatype Refund = Refund(paymentId: Key, amount: real, currency: string)

  /** A refund the provider accepted. */
  datatype Payout = Payout(transactionId: string, amount: real)

  datatype WebhookEvent = WebhookEvent(transactionId: string, status: Status, paymentDetails: map<string, string>)

  // ---------------------------------------------------------------------------------------
  // What the methods assign to a payment
  // ---------------------------------------------------------------------------------------

  /** What the provider did with a request to charge. */
  datatype ChargeAnswer =
    | Charged(transactionId: string, status: Status, details: map<string, string>)
    | Declined(message: string)
    | ChargedWithError(transactionId: string, message: string)

  /** What the provider did with a request to refund. */
  datatype RefundAnswer = Accepted | Rejected | AcceptedWithError

  function ChargedFields(p: Row, answer: ChargeAnswer, now: int): Row {
    if answer.Charged? then
      p.(transactionId := answer.transactionId, status := answer.status, paymentDetails := answer.details,
         updatedAt := now)
    else p.(status := Failed, errorMessage := answer.message)
  }

  function StatusFields(p: Row, status: Status, now: int): Row {
    p.(status := status, updatedAt := now)
  }

  function WebhookFields(p: Row, event: WebhookEvent, now: int): Row {
    StatusFields(p, event.status, now).(paymentDetails := event.paymentDetails)
  }

  // ---------------------------------------------------------------------------------------
  // Webhooks
  // ---------------------------------------------------------------------------------------

  /** The row a webhook works on. */
  function Located(t: Table, event: WebhookEvent, readFails: bool): Option<Row> {
    var i := IndexOfTransaction(t, event.transactionId);
    if i == |t| || readFails then None else Some(t[i])
  }

  /** The table after a webhook: the first row with the event's transaction id is rewritten, if there is one. */
  function AfterWebhook(t: Table, event: WebhookEvent, readFails: bool, w: Write, now: int): Table {
    match Located(t, event, readFails)
    case None => t
    case Some(row) => SaveRow(t, WebhookFields(row, event, now), w).0
  }

  /** The events of Stripe's webhook; every other type falls through the switch that maps them
      (internal/payment/stripe_provider.go). */
  datatype StripeEvent =
    | ChargeSucceeded(chargeId: string, details: map<string, string>)
    | ChargeFailed(chargeId: string, details: map<string, string>)
    | ChargeRefunded(chargeId: string, details: map<string, string>)
    | OtherEvent(eventType: string)

  function StripeWebhook(e: StripeEvent): WebhookEvent {
    match e
    case ChargeSucceeded(id, details) => WebhookEvent(id, Completed, details)
    case ChargeFailed(id, details) => WebhookEvent(id, Failed, details)
    case ChargeRefunded(id, details) => WebhookEvent(id, Refunded, details)
    case OtherEvent(_) => WebhookEvent("", Unset, map[])
  }

  /** PayPal's: the adapter reads the capture of every event about one, and only then looks at the event's type
      (internal/payment/paypal_provider.go). */
  datatype PayPalEvent =
    | CaptureEvent(captureId: string, kind: CaptureKind, details: map<string, string>)
    | OtherResource(resourceType: string)

  datatype CaptureKind = CaptureCompleted | CaptureDenied | CaptureRefunded | OtherKind(eventType: string)

  function PayPalWebhook(e: PayPalEvent): WebhookEvent {
    match e
    case CaptureEvent(id, CaptureCompleted, details) => WebhookEvent(id, Completed, details)
    case CaptureEvent(id, CaptureDenied, details) => WebhookEvent(id, Failed, details)
    case CaptureEvent(id, CaptureRefunded, details) => WebhookEvent(id, Refunded, details)
    case CaptureEvent(id, OtherKind(_), details) => WebhookEvent(id, Unset, details)
    case OtherResource(_) => WebhookEvent("", Unset, map[])
  }

  ghost predicate UniqueIds(t: Table) {
    forall i: nat, j: nat | i < j < |t| :: t[i].id != t[j].id
  }

  /** Saving a row over the one with its key and order replaces that one. */
  lemma SavedInPlace(t: Table, i: nat, row: Row)
    requires UniqueIds(t) && UniqueOrders(t) && i < |t| && row.id == t[i].id && row.orderId == t[i].orderId
    ensures Upsert(t, row) == Some(t[i := row])
    ensures UniqueIds(t[i := row]) && UniqueOrders(t[i := row])
  {
    LookupIsIndex(t, row.id, i);
    assert !OrderTaken(t, i, row.orderId);
  }

  /** A webhook rewrites the first row with the event's transaction id, if it can be read and the save takes effect, and
      no other: status and details are the event's, and everything but them and the time is as it was. */
  lemma WebhookTouchesItsRow(t: Table, event: WebhookEvent, readFails: bool, w: Write, now: int)
    requires UniqueIds(t) && UniqueOrders(t)
    ensures var after := AfterWebhook(t, event, readFails, w, now);
            var i := IndexOfTransaction(t, event.transactionId);
            && UniqueIds(after) && UniqueOrders(after)
            && after == if i < |t| && !readFails && !w.NotCommitted? then
                          t[i := t[i].(status := event.status, updatedAt := now,
                                       paymentDetails := event.paymentDetails)]
                        else t
  {
    var i := IndexOfTransaction(t, event.transactionId);
    if i < |t| {
      SavedInPlace(t, i, WebhookFields(t[i], event, now));
    }
  }

  /** An event of Stripe's about a charge that is in the table, read and saved: the status of its row by the event's
      type. */
  lemma StripeEventSetsStatus(t: Table, e: StripeEvent, now: int)
    requires UniqueIds(t) && UniqueOrders(t)
    requires !e.OtherEvent? && IndexOfTransaction(t, e.chargeId) < |t|
    ensures var i := IndexOfTransaction(t, e.chargeId);
            var row := t[i].(paymentDetails := e.details, updatedAt := now);
            AfterWebhook(t, StripeWebhook(e), false, Committed, now)
            == t[i := match e
                      case ChargeSucceeded(_, _) => row.(status := Completed)
                      case ChargeFailed(_, _) => row.(status := Failed)
                      case ChargeRefunded(_, _) => row.(status := Refunded)]
  {
    WebhookTouchesItsRow(t, StripeWebhook(e), false, Committed, now);
  }

  /** And one of PayPal's about a capture that is; here an unmapped type takes the status away. */
  lemma PayPalEventSetsStatus(t: Table, e: PayPalEvent, now: int)
    requires UniqueIds(t) && UniqueOrders(t)
    requires e.CaptureEvent? && IndexOfTransaction(t, e.captureId) < |t|
    ensures var i := IndexOfTransaction(t, e.captureId);
            var row := t[i].(paymentDetails := e.details, updatedAt := now);
            AfterWebhook(t, PayPalWebhook(e), false, Committed, now)
            == t[i := match e.kind
                      case CaptureCompleted => row.(status := Completed)
                      case CaptureDenied => row.(status := Failed)
                      case CaptureRefunded => row.(status := Refunded)
                      case OtherKind(_) => row.(status := Unset)]
  {
    WebhookTouchesItsRow(t, PayPalWebhook(e), false, Committed, now);
  }

  /** An event of a type the adapter does not map should change nothing. If reads and writes succeed, it does exactly
      when no row has the transaction id the adapter left in the event; otherwise the first such row loses its status.
      (Every row was last changed before now.) */
  lemma UnmappedEventIsNoOpIff(t: Table, event: WebhookEvent, now: int)
    requires event.status == Unset
    requires UniqueIds(t) && UniqueOrders(t) && (forall i: nat | i < |t| :: t[i].updatedAt < now)
    ensures var after := AfterWebhook(t, event, false, Committed, now);
            var i := IndexOfTransaction(t, event.transactionId);
            && (after == t <==> forall k: nat | k < |t| :: t[k].transactionId != event.transactionId)
            && (i < |t| ==> |after| == |t| && after[i].status == Unset)
  {
    var i := IndexOfTransaction(t, event.transactionId);
    if i < |t| {
      WebhookTouchesItsRow(t, event, false, Committed, now);
      assert AfterWebhook(t, event, false, Committed, now)[i].updatedAt == now;
    }
  }

  /** At Stripe that is: when no row lacks a transaction id. */
  lemma UnmappedStripeEventIsNoOpIff(t: Table, e: StripeEvent, now: int)
    requires e.OtherEvent?
    requires UniqueIds(t) && UniqueOrders(t) && (forall i: nat | i < |t| :: t[i].updatedAt < now)
    ensures AfterWebhook(t, StripeWebhook(e), false, Committed, now) == t
       <==> forall k: nat | k < |t| :: t[k].transactionId != ""
  {
    UnmappedEventIsNoOpIff(t, StripeWebhook(e), now);
  }

  /** At PayPal an event about a capture carries the capture's id whatever its type, so an unmapped one blanks the
      status of the very payment it is about; it changes nothing exactly when that payment is not in the table. */
  lemma UnmappedPayPalEventIsNoOpIff(t: Table, e: PayPalEvent, now: int)
    requires e.CaptureEvent? ==> e.kind.OtherKind?
    requires UniqueIds(t) && UniqueOrders(t) && (forall i: nat | i < |t| :: t[i].updatedAt < now)
    ensures AfterWebhook(t, PayPalWebhook(e), false, Committed, now) == t
       <==> forall k: nat | k < |t| :: t[k].transactionId != if e.CaptureEvent? then e.captureId else ""
    ensures var i := IndexOfTransaction(t, PayPalWebhook(e).transactionId);
            var after := AfterWebhook(t, PayPalWebhook(e), false, Committed, now);
            i < |t| ==> |after| == |t| && after[i].status == Unset
  {
    UnmappedEventIsNoOpIff(t, PayPalWebhook(e), now);
  }

  /** The status queue after a record's status was published with retries: at most MaxAttempts more copies of its
      message, and at least one if the publication returned nil for no copy that was lost. */
  ghost predicate Announced(before: Queue<StatusMessage>, after: Queue<StatusMessage>, rec: Row, max: int, ok: bool,
                            outcomes: nat -> Delivery) {
    exists n: nat :: (ok ==> n >= 1 || SilentLoss(outcomes, max)) && n <= max
        && after == WithCopies(before, Json(StatusMessage(rec.orderId, Unset, rec.status)), n)
  }

  /** The retried publication of a record's status. */
  function StatusPublication(wire: Wire<StatusMessage>, rec: Row, ctx: Context, strategy: RetryStrategy,
                             outcomes: nat -> Delivery): Outcome<Wire<StatusMessage>> {
    Run(PublishOperation(StatusPublishError(rec.orderId), StatusMessage(rec.orderId, Unset, rec.status), outcomes),
        ctx, strategy, wire)
  }

  /** RefundPayment with a registered provider, as its effect on the tables and its success. */
  function RefundEffect(records: Table, refunds: multiset<Refund>, payment: Row, amount: real,
                        answer: RefundAnswer, create: Write, save: Write, now: int): (Table, multiset<Refund>, bool) {
    if !answer.Accepted? then (records, refunds, false)
    else
      var stored := if create.NotCommitted? then refunds
                    else refunds + multiset{Refund(payment.id, amount, payment.details.currency)};
      if !create.Committed? then (records, stored, false)
      else
        var (saved, ok) := SaveRow(records, StatusFields(payment, Refunded, now), save);
        (saved, stored, ok)
  }

  class Service {
    var records: Table
    var refunds: multiset<Refund>
    var registered: set<string>
    const async: AsyncService.Service
    // the providers' side
    var charges: seq<(OrderId, string)>
    var payouts: multiset<Payout>

    constructor (registered: set<string>, async: AsyncService.Service)
      ensures records == [] && refunds == multiset{} && charges == [] && payouts == multiset{}
      ensures this.registered == registered && this.async == async
    {
      records, refunds, charges, payouts := [], multiset{}, [], multiset{};
      this.registered := registered;
      this.async := async;
    }

    /** A nil return means that the provider charged the order once and that the record holds the transaction and the
        status it answered with. The provider has charged an order whose record says failed exactly when it
        reported an error after charging; and it has charged one that left no trace in the table exactly when
        the save that follows took no effect. */
    method ProcessPayment(p: Payment, answer: ChargeAnswer, save: Write, now: int) returns (err: Option<Error>)
      modifies this, p
      ensures unchanged(this`refunds) && unchanged(this`payouts) && unchanged(this`registered)
      ensures old(p.fields.details.provider) !in registered ==>
                err.Some? && unchanged(p) && unchanged(this)
      ensures old(p.fields.details.provider) in registered ==>
                && charges == old(charges) + (if answer.Declined? then []
                                              else [(p.fields.orderId, answer.transactionId)])
                && p.fields == (if answer.Charged? then
                                  old(p.fields).(transactionId := answer.transactionId, status := answer.status,
                                                 paymentDetails := answer.details, updatedAt := now)
                                else old(p.fields).(status := Failed, errorMessage := answer.message))
                && var saved := Upsert(old(records), p.fields);
                   && records == (if saved.Some? && !save.NotCommitted? then saved.value else old(records))
                   && (err == None <==> answer.Charged? && saved.Some? && save.Committed?)
      ensures old(p.fields.details.provider) in registered ==>
                && p.fields == ChargedFields(old(p.fields), answer, now)
                && records == SaveRow(old(records), p.fields, save).0
      ensures err == None ==>
                && Lookup(records, p.fields.id) == Some(p.fields)
                && p.fields.status == answer.status
                && charges == old(charges) + [(p.fields.orderId, p.fields.transactionId)]
      ensures forall id: Key | id != p.fields.id :: Lookup(records, id) == Lookup(old(records), id)
    {
      if p.fields.details.provider !in registered {
        return Some(Plain("unsupported payment provider"));
      }
      match answer {
        case Charged(tid, status, details) =>
          charges := charges + [(p.fields.orderId, tid)];
          p.fields := p.fields.(transactionId := tid, status := status, paymentDetails := details, updatedAt := now);
        case ChargedWithError(tid, message) =>
          charges := charges + [(p.fields.orderId, tid)];
          p.fields := p.fields.(status := Failed, errorMessage := message);
        case Declined(message) =>
          p.fields := p.fields.(status := Failed, errorMessage := message);
      }
      forall id: Key | Upsert(records, p.fields).Some?
        ensures Lookup(Upsert(records, p.fields).value, id)
             == if id == p.fields.id then Some(p.fields) else Lookup(records, id)
      {
        SavedRow(records, p.fields, id);
      }
      var saved := SaveRow(records, p.fields, save);
      records := saved.0;
      if answer.Charged? && saved.1 {
        return None;
      }
      err := Some(Plain(if answer.Charged? then "failed to save payment" else "failed to process payment"));
    }

    /** A nil return means that the provider accepted the refund, that a row for it is stored, and that the payment's
        record says refunded. Otherwise the accepted refund has no row exactly when the provider answered with an
        error or the row's insert took no effect. */
    method RefundPayment(p: Payment, amount: real, answer: RefundAnswer, create: Write, save: Write, now: int)
      returns (err: Option<Error>)
      modifies this, p
      ensures unchanged(this`charges) && unchanged(this`registered)
      ensures old(p.fields.details.provider) !in registered ==> err.Some? && unchanged(this) && unchanged(p)
      ensures old(p.fields.details.provider) in registered ==>
                && payouts == old(payouts) + (if answer.Rejected? then multiset{}
                                              else multiset{Payout(old(p.fields.transactionId), amount)})
                && refunds == old(refunds)
                              + (if answer.Accepted? && !create.NotCommitted? then
                                   multiset{Refund(old(p.fields.id), amount, old(p.fields.details.currency))}
                                 else multiset{})
                && if answer.Accepted? && create.Committed? then
                     && p.fields == old(p.fields).(status := Refunded, updatedAt := now)
                     && var saved := Upsert(old(records), p.fields);
                        && records == (if saved.Some? && !save.NotCommitted? then saved.value else old(records))
                        && (err == None <==> saved.Some? && save.Committed?)
                   else p.fields == old(p.fields) && records == old(records) && err.Some?
      ensures old(p.fields.details.provider) in registered ==>
                var e := RefundEffect(old(records), old(refunds), old(p.fields), amount, answer, create, save, now);
                records == e.0 && refunds == e.1 && (err == None <==> e.2)
      ensures err == None ==>
                && Refund(p.fields.id, amount, p.fields.details.currency) in refunds
                && Payout(p.fields.transactionId, amount) in payouts
                && Lookup(records, p.fields.id) == Some(p.fields) && p.fields.status == Refunded
      ensures |payouts| - |refunds| - (|old(payouts)| - |old(refunds)|)
           == if old(p.fields.details.provider) in registered
               && (answer.AcceptedWithError? || (answer.Accepted? && create.NotCommitted?)) then 1 else 0
    {
      if p.fields.details.provider !in registered {
        return Some(Plain("unsupported payment provider"));
      }
      ghost var r := Refund(p.fields.id, amount, p.fields.details.currency);
      if !answer.Rejected? {
        payouts := payouts + multiset{Payout(p.fields.transactionId, amount)};
      }
      if !answer.Accepted? {
        return Some(Plain("failed to refund payment"));
      }
      if !create.NotCommitted? {
        refunds := refunds + multiset{Refund(p.fields.id, amount, p.fields.details.currency)};
      }
      if !create.Committed? {
        return Some(Plain("failed to save refund"));
      }
      p.fields := p.fields.(status := Refunded, updatedAt := now);
      if Upsert(records, p.fields).Some? {
        SavedRow(records, p.fields, p.fields.id);
      }
      var saved := SaveRow(records, p.fields, save);
      records := saved.0;
      if !saved.1 {
        return Some(Plain("failed to update payment status"));
      }
      assert r in refunds;
      err := None;
    }

    /** A webhook changes at most the first record with the event's transaction id, and only its status, details and
        time; a nil return means that the status is stored and that at least one and at most MaxAttempts copies of the
        message announcing it were added to the status queue, unless one was lost without an error. An event that
        fails validation changes nothing. */
    method HandleWebhook(provider: string, event: Option<WebhookEvent>, readFails: bool, save: Write, now: int,
                         ctx: Context, outcomes: nat -> Delivery) returns (err: Option<Error>)
      modifies this, async.statuses
      ensures unchanged(this`refunds) && unchanged(this`payouts) && unchanged(this`charges)
              && unchanged(this`registered)
      ensures provider !in registered || event == None ==> err.Some? && unchanged(this) && unchanged(async.statuses)
      ensures provider in registered && event.Some? ==>
                && records == AfterWebhook(old(records), event.value, readFails, save, now)
                && var i := IndexOfTransaction(old(records), event.value.transactionId);
                   if i == |old(records)| || readFails then
                     err.Some? && records == old(records) && unchanged(async.statuses)
                   else
                     var rec := old(records)[i].(status := event.value.status, updatedAt := now,
                                                 paymentDetails := event.value.paymentDetails);
                     var saved := Upsert(old(records), rec);
                     && records == (if saved.Some? && !save.NotCommitted? then saved.value else old(records))
                     && if saved.Some? && save.Committed? then
                          && Lookup(records, rec.id) == Some(rec)
                          && Announced(old(async.statuses.queue), async.statuses.queue, rec,
                                       async.strategy.maxAttempts, err == None, outcomes)
                          && var pub := StatusPublication(Wire(old(async.statuses.queue),
                                                               old(async.statuses.counters)),
                                                          rec, ctx, async.strategy, outcomes);
                             Wire(async.statuses.queue, async.statuses.counters) == pub.world
                                 && (err == None <==> pub.err == None)
                        else err.Some? && unchanged(async.statuses)
    {
      if provider !in registered || event == None {
        return Some(Plain("unsupported payment provider or invalid webhook"));
      }
      var i := IndexOfTransaction(records, event.value.transactionId);
      if i == |records| || readFails {
        return Some(Plain("payment not found"));
      }
      var rec := WebhookFields(records[i], event.value, now);
      var ok := SaveAndPublish(rec, save, ctx, outcomes);
      err := if ok then None else Some(Plain("failed to update payment"));
    }

    /** The status is returned even when it could not be stored or announced. The record is written, and the change
        announced, only if the provider's answer differs from what the caller's payment said. */
    method GetPaymentStatus(p: Payment, answer: Option<Status>, save: Write, now: int,
                            ctx: Context, outcomes: nat -> Delivery) returns (status: Status, err: Option<Error>)
      modifies this, p, async.statuses
      ensures unchanged(this`refunds) && unchanged(this`payouts) && unchanged(this`charges)
              && unchanged(this`registered)
      ensures old(p.fields.details.provider) !in registered || answer == None ==>
                status == Unknown && err.Some? && unchanged(this) && unchanged(p) && unchanged(async.statuses)
      ensures old(p.fields.details.provider) in registered && answer.Some? ==>
                && status == answer.value && p.fields.status == answer.value
                && (answer.value == old(p.fields.status) ==>
                      err == None && unchanged(this) && unchanged(p) && unchanged(async.statuses))
                && (answer.value != old(p.fields.status) ==>
                      && p.fields == old(p.fields).(status := answer.value, updatedAt := now)
                      && p.fields == StatusFields(old(p.fields), answer.value, now)
                      && var saved := Upsert(old(records), p.fields);
                         && records == (if saved.Some? && !save.NotCommitted? then saved.value else old(records))
                         && if saved.Some? && save.Committed? then
                              && Lookup(records, p.fields.id) == Some(p.fields)
                              && Announced(old(async.statuses.queue), async.statuses.queue, p.fields,
                                           async.strategy.maxAttempts, err == None, outcomes)
                              && var pub := StatusPublication(Wire(old(async.statuses.queue),
                                                                   old(async.statuses.counters)),
                                                              p.fields, ctx, async.strategy, outcomes);
                                 Wire(async.statuses.queue, async.statuses.counters) == pub.world
                                     && (err == None <==> pub.err == None)
                            else err.Some? && unchanged(async.statuses))
    {
      if p.fields.details.provider !in registered || answer == None {
        return Unknown, Some(Plain("unsupported payment provider or failed to get payment status"));
      }
      status, err := answer.value, None;
      if status != p.fields.status {
        p.fields := p.fields.(status := status, updatedAt := now);
        var ok := SaveAndPublish(p.fields, save, ctx, outcomes);
        err := if ok then None else Some(Plain("failed to update or publish payment status"));
      }
    }

    /** The dual write both of them end with: save the record, then publish its status; a failed save publishes
        nothing. */
    method SaveAndPublish(rec: Row, save: Write, ctx: Context, outcomes: nat -> Delivery) returns (ok: bool)
      modifies this`records, async.statuses
      ensures var saved := Upsert(old(records), rec);
              && records == (if saved.Some? && !save.NotCommitted? then saved.value else old(records))
              && records == SaveRow(old(records), rec, save).0
              && if saved.Some? && save.Committed? then
                   && Lookup(records, rec.id) == Some(rec)
                   && Announced(old(async.statuses.queue), async.statuses.queue, rec, async.strategy.maxAttempts, ok,
                                outcomes)
                   && var wire := Wire(old(async.statuses.queue), old(async.statuses.counters));
                      var pub := Run(PublishOperation(PaymentErr(Messaging, "STATUS_PUBLISH_ERROR", rec.orderId, true),
                                                      StatusMessage(rec.orderId, Unset, rec.status), outcomes),
                                     ctx, async.strategy, wire);
                      && Wire(async.statuses.queue, async.statuses.counters) == pub.world && ok == (pub.err == None)
                      && pub == StatusPublication(wire, rec, ctx, async.strategy, outcomes)
                 else !ok && unchanged(async.statuses)
    {
      if Upsert(records, rec).Some? {
        SavedRow(records, rec, rec.id);
      }
      var saved := SaveRow(records, rec, save);
      records := saved.0;
      if !saved.1 {
        return false;
      }
      ghost var n := PublishedCopies(async.strategy, ctx, Wire(async.statuses.queue, async.statuses.counters),
                                     StatusPublishError(rec.orderId),
                                     StatusMessage(rec.orderId, Unset, rec.status), outcomes);
      var err := async.UpdatePaymentStatusAsync(ctx, rec.orderId, Unset, rec.status, outcomes);
      ok := err == None;
    }
  }
}
