/** The calls in progress at the two services, taken apart into one provider, database or broker operation per step:
    the four methods of the payment service, and the publications of the asynchronous service, those the payment
    service makes and those its callers make.

    What the providers said is kept as a history, per transaction: an answer to a status request and a webhook event
    name a transaction, not an order. */
module ServiceCalls {
  import opened Errors
  import opened Models
  import opened Broker
  import opened Retry
  import opened AsyncService
  import opened PaymentService

  /** A message a retried publication sends. */
  datatype Outgoing = PaymentOut(payment: PaymentMessage) | StatusOut(change: StatusMessage)

  /** What a provider said. */
  datatype Answer =
    | SaidCharged(order: OrderId, transactionId: string, status: Status)
    | SaidError(order: OrderId)
    | SaidRefunded(transactionId: string)
    | SaidStatus(transactionId: string, status: Status)
    | SaidEvent(transactionId: string, status: Status)

  /** What becomes of the call after its db.Save: the error of a failed charge is returned whatever the save does, a
      charge or a refund is over, and a new status is published. */
  datatype AfterSave = ThenFail | ThenReturn | ThenRefunded(entry: Refund) | ThenPublish

  /** What a call had come to when it ended: publishing, the last copy lost without an error or not; or having saved a
      refund. */
  datatype Ending = Plainly | AfterSending(out: Outgoing, silent: bool) | AfterRefund(entry: Refund)

  /** Where a call is, with the objects it holds. */
  datatype Call =
    | Charging(payment: Row)                          // about to ask the provider to charge
    | Refunding(payment: Row, amount: real)           // about to ask it for a refund
    | StoringRefund(payment: Row, amount: real)       // the refund was accepted; about to insert its row
    | Asking(payment: Row)                            // about to ask for the payment's status
    | Locating(event: WebhookEvent)                   // a valid event; about to look up its payment
    | Saving(payment: Row, next: AfterSave)           // the fields are assigned; about to save them
    | Sending(out: Outgoing, attempt: nat)            // about to publish
    | Pausing(out: Outgoing, attempt: nat)            // that failed; waiting for the next attempt
    | Over(ok: bool, end: Ending)                     // returned, nil if `ok`, or dead

  /** What a caller asks for. */
  datatype Request =
    | ChargeRequest(payment: Row)
    | RefundRequest(payment: Row, amount: real)
    | StatusRequest(payment: Row)
    | Webhook(event: WebhookEvent)
    | Publication(out: Outgoing)

  /** The refunds table, and every refund a provider accepted, whatever it answered. */
  datatype Books = Books(stored: multiset<Refund>, accepted: multiset<Refund>)

  datatype Desk = Desk(
    calls: seq<Call>,
    books: Books,
    answers: set<Answer>,                  // everything the providers ever said
    claimed: set<(OrderId, Status)>)       // the statuses callers put into messages

  const EMPTY_DESK := Desk([], Books(multiset{}, multiset{}), {}, {})

  datatype CallStep =
    | Begin(request: Request)
    | ChargeReturns(call: nat, charge: ChargeAnswer, now: int)
    | RefundReturns(call: nat, refund: RefundAnswer)
    | StoreRefund(call: nat, insert: Write, now: int)
    | StatusReturns(call: nat, reported: Option<Status>, now: int)
    | Locate(call: nat, readFails: bool, now: int)
    | Save(call: nat, save: Write)
    | Send(call: nat, delivery: Delivery)
    | Wake(call: nat)
    | GiveUp(call: nat)                    // the context is done
    | Die(call: nat)                       // the process is

  function Entry(p: Row, amount: real): Refund {
    Refund(p.id, amount, p.details.currency)
  }

  /** The payments callers come with: read from the table, or made for the call and not yet with any provider. */
  predicate Presented(db: Table, p: Row) {
    p in db || (p.Identified() && p.id.maker.Uuid? && p.transactionId == "")
  }

  predicate Acceptable(db: Table, request: Request) {
    match request
    case ChargeRequest(p) => Presented(db, p)
    case RefundRequest(p, _) => Presented(db, p)
    case StatusRequest(p) => Presented(db, p)
    case _ => true
  }

  predicate CallEnabled(db: Table, d: Desk, step: CallStep) {
    if step.Begin? then Acceptable(db, step.request)
    else
      && step.call < |d.calls|
      && var c := d.calls[step.call];
         match step
         case ChargeReturns(_, _, _) => c.Charging?
         case RefundReturns(_, _) => c.Refunding?
         case StoreRefund(_, _, _) => c.StoringRefund?
         case StatusReturns(_, _, _) => c.Asking?
         case Locate(_, _, _) => c.Locating?
         case Save(_, _) => c.Saving?
         case Send(_, _) => c.Sending?
         case Wake(_) => c.Pausing?
         case GiveUp(_) => c.Sending? || c.Pausing?
         case Die(_) => !c.Over?
  }

  /** The retry loop between two attempts of a publication; before the first, it fails only if there is none. */
  function SendAttempt(r: RetryStrategy, out: Outgoing, k: nat): Call {
    if k < r.maxAttempts then Sending(out, k) else Over(k == 0, AfterSending(out, false))
  }

  function FirstPlace(r: RetryStrategy, request: Request): Call {
    match request
    case ChargeRequest(p) => Charging(p)
    case RefundRequest(p, amount) => Refunding(p, amount)
    case StatusRequest(p) => Asking(p)
    case Webhook(event) => Locating(event)
    case Publication(out) => SendAttempt(r, out, 0)
  }

  function StatusOutOf(p: Row): Outgoing {
    StatusOut(StatusMessage(p.orderId, Unset, p.status))
  }

  const FAILED := Over(false, Plainly)

  /** Where a step of a publication leaves it. */
  function NextCall(r: RetryStrategy, c: Call, step: CallStep): Call
    requires c.Sending? || c.Pausing?
  {
    match step
    case Send(_, d) => if d.Reports() then Over(true, AfterSending(c.out, d.Vanished?)) else Pausing(c.out, c.attempt)
    case Wake(_) => SendAttempt(r, c.out, c.attempt + 1)
    case _ => Over(false, AfterSending(c.out, false))
  }

  /** Where a step leaves the call it moves. */
  function Place(r: RetryStrategy, db: Table, d: Desk, step: CallStep): Call
    requires CallEnabled(db, d, step)
  {
    match step
    case Begin(request) => FirstPlace(r, request)
    case ChargeReturns(i, answer, now) =>
      Saving(ChargedFields(d.calls[i].payment, answer, now), if answer.Charged? then ThenReturn else ThenFail)
    case RefundReturns(i, answer) =>
      if answer.Accepted? then StoringRefund(d.calls[i].payment, d.calls[i].amount) else FAILED
    case StoreRefund(i, w, now) =>
      var c := d.calls[i];
      if w.Committed? then Saving(StatusFields(c.payment, Refunded, now), ThenRefunded(Entry(c.payment, c.amount)))
      else FAILED
    case StatusReturns(i, answer, now) =>
      var p := d.calls[i].payment;
      if answer.None? then FAILED
      else if answer.value == p.status then Over(true, Plainly)
      else Saving(StatusFields(p, answer.value, now), ThenPublish)
    case Locate(i, readFails, now) =>
      (match Located(db, d.calls[i].event, readFails)
       case None => FAILED
       case Some(row) => Saving(WebhookFields(row, d.calls[i].event, now), ThenPublish))
    case Save(i, w) =>
      var c := d.calls[i];
      if c.next.ThenFail? || !SaveRow(db, c.payment, w).1 then FAILED
      else if c.next.ThenReturn? then Over(true, Plainly)
      else if c.next.ThenRefunded? then Over(true, AfterRefund(c.next.entry))
      else SendAttempt(r, StatusOutOf(c.payment), 0)
    case Send(i, _) => NextCall(r, d.calls[i], step)
    case Wake(i) => NextCall(r, d.calls[i], step)
    case GiveUp(i) => NextCall(r, d.calls[i], step)
    case Die(i) => FAILED
  }

  /** What the provider says in a step. */
  function Heard(d: Desk, step: CallStep): set<Answer> {
    match step
    case Begin(Webhook(event)) => {SaidEvent(event.transactionId, event.status)}
    case ChargeReturns(i, answer, _) =>
      if i < |d.calls| && d.calls[i].Charging? then
        (if answer.Charged? then {SaidCharged(d.calls[i].payment.orderId, answer.transactionId, answer.status)}
         else {SaidError(d.calls[i].payment.orderId)})
      else {}
    case RefundReturns(i, answer) =>
      if i < |d.calls| && d.calls[i].Refunding? && answer.Accepted?
      then {SaidRefunded(d.calls[i].payment.transactionId)} else {}
    case StatusReturns(i, answer, _) =>
      if i < |d.calls| && d.calls[i].Asking? && answer.Some?
      then {SaidStatus(d.calls[i].payment.transactionId, answer.value)} else {}
    case _ => {}
  }

  /** What a caller claims in a step. */
  function Claims(step: CallStep): set<(OrderId, Status)> {
    match step
    case Begin(Publication(PaymentOut(msg))) => {(msg.orderId, msg.status)}
    case Begin(Publication(StatusOut(msg))) => {(msg.orderId, msg.newStatus)}
    case _ => {}
  }

  /** What a step enters into the books. */
  function BooksAfter(d: Desk, step: CallStep): Books
    requires !step.Begin? ==> step.call < |d.calls|
    requires step.RefundReturns? ==> d.calls[step.call].Refunding?
    requires step.StoreRefund? ==> d.calls[step.call].StoringRefund?
  {
    if step.RefundReturns? && !step.refund.Rejected? then
      d.books.(accepted := d.books.accepted + multiset{Entry(d.calls[step.call].payment, d.calls[step.call].amount)})
    else if step.StoreRefund? && !step.insert.NotCommitted? then
      d.books.(stored := d.books.stored + multiset{Entry(d.calls[step.call].payment, d.calls[step.call].amount)})
    else d.books
  }

  function DeskAfter(r: RetryStrategy, db: Table, d: Desk, step: CallStep): Desk
    requires CallEnabled(db, d, step)
  {
    var place := Place(r, db, d, step);
    Desk(
      if step.Begin? then d.calls + [place] else d.calls[step.call := place],
      BooksAfter(d, step),
      d.answers + Heard(d, step),
      d.claimed + Claims(step))
  }

  function TableAfter(db: Table, d: Desk, step: CallStep): Table
    requires CallEnabled(db, d, step)
  {
    if step.Save? then SaveRow(db, d.calls[step.call].payment, step.save).0 else db
  }

  /** The message a step puts into its queue. */
  function Enqueued(db: Table, d: Desk, step: CallStep): Option<Outgoing>
    requires CallEnabled(db, d, step)
  {
    if step.Send? && step.delivery.Arrives() then Some(d.calls[step.call].out) else None
  }

  function PaymentsAfter(q: Queue<PaymentMessage>, out: Option<Outgoing>): Queue<PaymentMessage> {
    if out.Some? && out.value.PaymentOut? then Enqueue(q, Json(out.value.payment)) else q
  }

  function StatusesAfter(q: Queue<StatusMessage>, out: Option<Outgoing>): Queue<StatusMessage> {
    if out.Some? && out.value.StatusOut? then Enqueue(q, Json(out.value.change)) else q
  }

  // ---------------------------------------------------------------------------------------
  // A retried publication by itself
  // ---------------------------------------------------------------------------------------

  /** The step is one of those of a publication that call i can take at this place. */
  predicate IsSend(i: nat, out: Outgoing, c: Call, step: CallStep) {
    && !step.Begin? && step.call == i
    && (c.Sending? || c.Pausing?) && c.out == out
    && ((step.Send? && c.Sending?) || (step.Wake? && c.Pausing?) || step.GiveUp?)
  }

  function CopiesOf(step: CallStep): nat {
    if step.Send? && step.delivery.Arrives() then 1 else 0
  }

  /** The steps take a publication that has come to c and sent m copies to e and n copies. */
  predicate Publishes(r: RetryStrategy, i: nat, out: Outgoing, c: Call, m: nat, steps: seq<CallStep>, e: Call, n: nat)
    decreases steps
  {
    if |steps| == 0 then c == e && m == n
    else
      && IsSend(i, out, c, steps[0])
      && Publishes(r, i, out, NextCall(r, c, steps[0]), m + CopiesOf(steps[0]), steps[1..], e, n)
  }

  lemma First(r: RetryStrategy, i: nat, out: Outgoing, c: Call, m: nat, step: CallStep, rest: seq<CallStep>, e: Call,
              n: nat)
    requires IsSend(i, out, c, step) && Publishes(r, i, out, NextCall(r, c, step), m + CopiesOf(step), rest, e, n)
    ensures Publishes(r, i, out, c, m, [step] + rest, e, n)
  {
    assert ([step] + rest)[1..] == rest;
  }

  /** The retry loop around a publication is one such sequence of steps. */
  lemma {:induction false} LoopPublishes(r: RetryStrategy, i: nat, out: Outgoing, ctx: Context,
                                         outcomes: nat -> Delivery, k: nat, m: nat)
    returns (steps: seq<CallStep>)
    ensures var sends := Sends(r, ctx, outcomes, k);
            Publishes(r, i, out, SendAttempt(r, out, k), m, steps, Over(sends.ok, AfterSending(out, sends.silent)),
                      m + sends.copies)
    decreases r.maxAttempts - k
  {
    var stop := Over(false, AfterSending(out, false));
    if k >= r.maxAttempts {
      steps := [];
    } else if ctx.done(k) {
      First(r, i, out, Sending(out, k), m, GiveUp(i), [], stop, m);
      steps := [GiveUp(i)] + [];
    } else {
      var d := outcomes(k);
      var m1 := m + if d.Arrives() then 1 else 0;
      if d.Reports() {
        First(r, i, out, Sending(out, k), m, Send(i, d), [], Over(true, AfterSending(out, d.Vanished?)), m1);
        steps := [Send(i, d)] + [];
      } else if ctx.wait(k).Interrupted? {
        First(r, i, out, Pausing(out, k), m1, GiveUp(i), [], stop, m1);
        First(r, i, out, Sending(out, k), m, Send(i, d), [GiveUp(i)] + [], stop, m1);
        steps := [Send(i, d)] + ([GiveUp(i)] + []);
      } else {
        var sends := Sends(r, ctx, outcomes, k + 1);
        var end := Over(sends.ok, AfterSending(out, sends.silent));
        var rest := LoopPublishes(r, i, out, ctx, outcomes, k + 1, m1);
        First(r, i, out, Pausing(out, k), m1, Wake(i), rest, end, m1 + sends.copies);
        First(r, i, out, Sending(out, k), m, Send(i, d), [Wake(i)] + rest, end, m1 + sends.copies);
        steps := [Send(i, d)] + ([Wake(i)] + rest);
      }
    }
  }
}
