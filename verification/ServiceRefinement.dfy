/** The methods of the payment service and the retried publications are runs of the protocol: a call that is left
    alone takes exactly its method's steps, whatever the providers answer and whatever fails, and has the effect and
    the verdict that the method's contract states. */
module ServiceRefinement {
  import opened Errors
  import opened Models
  import opened Broker
  import opened Retry
  import opened AsyncService
  import opened PaymentService
  import opened ServiceCalls
  import opened Pipeline
  import opened PipelineSafety
  import opened PipelineTheorems
  import opened PipelineRefinement

  lemma One(r: RetryStrategy, s: State, step: CallStep)
    requires CallEnabled(s.db, s.desk, step)
    ensures Leads(r, s, [Serve(step)], Served(r, s, step))
  {
    OneStep(r, s, Serve(step));
  }

  // ---------------------------------------------------------------------------------------
  // Retried publications
  // ---------------------------------------------------------------------------------------

  function PaymentCopies(q: Queue<PaymentMessage>, out: Outgoing, n: nat): Queue<PaymentMessage> {
    if out.PaymentOut? then WithCopies(q, Json(out.payment), n) else q
  }

  function StatusCopies(q: Queue<StatusMessage>, out: Outgoing, n: nat): Queue<StatusMessage> {
    if out.StatusOut? then WithCopies(q, Json(out.change), n) else q
  }

  /** The state with call i at `c` and n more copies of a message in its queue. */
  function AfterSends(s: State, i: nat, c: Call, out: Outgoing, n: nat): State
    requires i < |s.desk.calls|
  {
    s.(desk := s.desk.(calls := s.desk.calls[i := c]),
       payments := PaymentCopies(s.payments, out, n), statuses := StatusCopies(s.statuses, out, n))
  }

  lemma AfterSendsTwice(s: State, i: nat, c: Call, out: Outgoing, m: nat, e: Call, n: nat)
    requires i < |s.desk.calls|
    ensures AfterSends(AfterSends(s, i, c, out, m), i, e, out, n) == AfterSends(s, i, e, out, m + n)
  {
    assert s.desk.calls[i := c][i := e] == s.desk.calls[i := e];
    if out.PaymentOut? {
      Copies(s.payments, Json(out.payment), m, n);
    } else {
      Copies(s.statuses, Json(out.change), m, n);
    }
  }

  lemma Copies<M>(q: Queue<M>, b: Body<M>, m: nat, n: nat)
    ensures WithCopies(WithCopies(q, b, m), b, n) == WithCopies(q, b, m + n)
  {
    assert More(More(q.ready, b, m), b, n) == More(q.ready, b, m + n);
    assert More(More(q.published, b, m), b, n) == More(q.published, b, m + n);
  }

  lemma SendDesk(r: RetryStrategy, db: Table, d: Desk, i: nat, out: Outgoing, step: CallStep)
    requires i < |d.calls| && IsSend(i, out, d.calls[i], step)
    ensures CallEnabled(db, d, step) && TableAfter(db, d, step) == db
    ensures DeskAfter(r, db, d, step) == d.(calls := d.calls[i := NextCall(r, d.calls[i], step)])
    ensures Enqueued(db, d, step) == if CopiesOf(step) == 1 then Some(out) else None
  {
    assert d.answers + {} == d.answers && d.claimed + {} == d.claimed;
  }

  lemma OneCopy<M>(q: Queue<M>, b: Body<M>)
    ensures WithCopies(q, b, 0) == q && WithCopies(q, b, 1) == Enqueue(q, b)
  {
    OneMoreCopy(q, b, 0);
  }

  lemma SendQueues(p: Queue<PaymentMessage>, q: Queue<StatusMessage>, out: Outgoing, n: nat)
    requires n <= 1
    ensures PaymentsAfter(p, if n == 1 then Some(out) else None) == PaymentCopies(p, out, n)
    ensures StatusesAfter(q, if n == 1 then Some(out) else None) == StatusCopies(q, out, n)
  {
    match out {
      case PaymentOut(msg) => OneCopy(p, Json(msg));
      case StatusOut(msg) => OneCopy(q, Json(msg));
    }
  }

  lemma ServedSend(r: RetryStrategy, s: State, i: nat, out: Outgoing, step: CallStep)
    requires i < |s.desk.calls| && IsSend(i, out, s.desk.calls[i], step)
    ensures CallEnabled(s.db, s.desk, step)
    ensures Served(r, s, step) == AfterSends(s, i, NextCall(r, s.desk.calls[i], step), out, CopiesOf(step))
  {
    SendDesk(r, s.db, s.desk, i, out, step);
    SendQueues(s.payments, s.statuses, out, CopiesOf(step));
  }

  /** One step of a publication that has come to c and sent m copies. */
  lemma SendStep(r: RetryStrategy, s: State, i: nat, out: Outgoing, c: Call, m: nat, step: CallStep)
    requires i < |s.desk.calls| && IsSend(i, out, c, step)
    ensures Leads(r, AfterSends(s, i, c, out, m), [Serve(step)],
                  AfterSends(s, i, NextCall(r, c, step), out, m + CopiesOf(step)))
  {
    var t := AfterSends(s, i, c, out, m);
    ServedSend(r, t, i, out, step);
    One(r, t, step);
    AfterSendsTwice(s, i, c, out, m, NextCall(r, c, step), CopiesOf(step));
  }

  lemma NoCopies(s: State, i: nat, out: Outgoing)
    requires i < |s.desk.calls|
    ensures AfterSends(s, i, s.desk.calls[i], out, 0) == s
  {
    CopiesFirst(s.payments, if out.PaymentOut? then Json(out.payment) else Malformed(""), 0);
    CopiesFirst(s.statuses, if out.StatusOut? then Json(out.change) else Malformed(""), 0);
    assert s.desk.calls[i := s.desk.calls[i]] == s.desk.calls;
  }

  lemma Nowhere(r: RetryStrategy, s: State)
    ensures Leads(r, s, [], s)
  {
  }

  lemma Onwards(r: RetryStrategy, s: State, i: nat, out: Outgoing, c: Call, m: nat, step: CallStep, rest: seq<Step>,
                u: State)
    requires i < |s.desk.calls| && IsSend(i, out, c, step)
    requires Leads(r, AfterSends(s, i, NextCall(r, c, step), out, m + CopiesOf(step)), rest, u)
    ensures Leads(r, AfterSends(s, i, c, out, m), [Serve(step)] + rest, u)
  {
    SendStep(r, s, i, out, c, m, step);
    Chain(r, AfterSends(s, i, c, out, m), [Serve(step)],
          AfterSends(s, i, NextCall(r, c, step), out, m + CopiesOf(step)), rest, u);
  }

  /** A publication's own steps, as steps of call i. */
  lemma {:induction false} SendsAreARun(r: RetryStrategy, s: State, i: nat, out: Outgoing, c: Call, m: nat,
                                        own: seq<CallStep>,
                                        e: Call, n: nat, u: State) returns (steps: seq<Step>)
    requires i < |s.desk.calls| && Publishes(r, i, out, c, m, own, e, n) && u == AfterSends(s, i, e, out, n)
    ensures Leads(r, AfterSends(s, i, c, out, m), steps, u)
    decreases own
  {
    if |own| == 0 {
      steps := [];
      Nowhere(r, u);
    } else {
      steps := SendsAreARun(r, s, i, out, NextCall(r, c, own[0]), m + CopiesOf(own[0]), own[1..], e, n, u);
      Onwards(r, s, i, out, c, m, own[0], steps, u);
      steps := [Serve(own[0])] + steps;
    }
  }

  // ---------------------------------------------------------------------------------------
  // The calls
  // ---------------------------------------------------------------------------------------

  /** The state with one more call, at c, that has left the tables like this and heard that. */
  function At(s: State, db: Table, books: Books, heard: set<Answer>, c: Call): State {
    s.(db := db, desk := s.desk.(calls := s.desk.calls + [c], books := books, answers := s.desk.answers + heard))
  }

  lemma Begins(r: RetryStrategy, s: State, request: Request, heard: set<Answer>)
    requires Acceptable(s.db, request) && !request.Publication?
    requires heard == if request.Webhook? then {SaidEvent(request.event.transactionId, request.event.status)} else {}
    ensures Leads(r, s, [Serve(Begin(request))], At(s, s.db, s.desk.books, heard, FirstPlace(r, request)))
  {
    One(r, s, Begin(request));
    assert s.desk.claimed + {} == s.desk.claimed;
  }

  lemma DeskAt(r: RetryStrategy, s: State, db: Table, books: Books, heard: set<Answer>, c: Call, step: CallStep)
    requires !step.Begin? && step.call == |s.desk.calls| && CallEnabled(db, At(s, db, books, heard, c).desk, step)
    ensures var d := At(s, db, books, heard, c).desk;
            var e := DeskAfter(r, db, d, step);
            e == s.desk.(calls := s.desk.calls + [Place(r, db, d, step)], books := e.books,
                         answers := s.desk.answers + (heard + Heard(d, step)))
  {
    var d := At(s, db, books, heard, c).desk;
    assert (s.desk.calls + [c])[|s.desk.calls| := Place(r, db, d, step)] == s.desk.calls + [Place(r, db, d, step)];
    assert s.desk.answers + (heard + Heard(d, step)) == s.desk.answers + heard + Heard(d, step);
    assert s.desk.claimed + {} == s.desk.claimed;
  }

  /** A step of that call, other than publishing. */
  lemma Moves(r: RetryStrategy, s: State, db: Table, books: Books, heard: set<Answer>, c: Call, step: CallStep)
    returns (t: State)
    requires !step.Begin? && !step.Send? && step.call == |s.desk.calls|
             && CallEnabled(db, At(s, db, books, heard, c).desk, step)
    ensures var d := At(s, db, books, heard, c).desk;
            t == At(s, TableAfter(db, d, step), DeskAfter(r, db, d, step).books, heard + Heard(d, step),
                    Place(r, db, d, step))
    ensures Leads(r, At(s, db, books, heard, c), [Serve(step)], t)
  {
    var u := At(s, db, books, heard, c);
    One(r, u, step);
    DeskAt(r, s, db, books, heard, c, step);
    t := Served(r, u, step);
  }

  /** ProcessPayment, with a registered provider: the table and the verdict are those of the method's contract, and the
      provider's word is on record. */
  lemma ProcessPaymentIsARun(r: RetryStrategy, s: State, p: Row, answer: ChargeAnswer, save: Write, now: int)
    returns (steps: seq<Step>)
    requires Presented(s.db, p)
    ensures var (table, ok) := SaveRow(s.db, ChargedFields(p, answer, now), save);
            var said := if answer.Charged? then SaidCharged(p.orderId, answer.transactionId, answer.status)
                        else SaidError(p.orderId);
            Leads(r, s, steps, At(s, table, s.desk.books, {said}, Over(answer.Charged? && ok, Plainly)))
  {
    var i, q := |s.desk.calls|, ChargedFields(p, answer, now);
    var said := if answer.Charged? then SaidCharged(p.orderId, answer.transactionId, answer.status)
                else SaidError(p.orderId);
    Begins(r, s, ChargeRequest(p), {});
    var t0 := At(s, s.db, s.desk.books, {}, Charging(p));
    var t1 := Moves(r, s, s.db, s.desk.books, {}, Charging(p), ChargeReturns(i, answer, now));
    assert {} + {said} == {said};
    var t2 := Moves(r, s, s.db, s.desk.books, {said}, Saving(q, if answer.Charged? then ThenReturn else ThenFail),
                    Save(i, save));
    assert {said} + {} == {said};
    steps := [Serve(Begin(ChargeRequest(p)))] + [Serve(ChargeReturns(i, answer, now))] + [Serve(Save(i, save))];
    Chain(r, s, [Serve(Begin(ChargeRequest(p)))], t0, [Serve(ChargeReturns(i, answer, now))], t1);
    Chain(r, s, [Serve(Begin(ChargeRequest(p)))] + [Serve(ChargeReturns(i, answer, now))], t1, [Serve(Save(i, save))],
          t2);
  }

  /** What follows an accepted refund. */
  lemma RefundIsStored(r: RetryStrategy, s: State, b: Books, heard: set<Answer>, p: Row, amount: real, create: Write,
                       save: Write,
                       now: int) returns (steps: seq<Step>, t: State)
    ensures Leads(r, At(s, s.db, b, heard, StoringRefund(p, amount)), steps, t)
    ensures var stored := b.(stored := b.stored + multiset{Entry(p, amount)});
            var (table, ok) := SaveRow(s.db, StatusFields(p, Refunded, now), save);
            t == match create
                 case NotCommitted => At(s, s.db, b, heard, FAILED)
                 case CommittedWithError => At(s, s.db, stored, heard, FAILED)
                 case Committed => At(s, table, stored, heard, if ok then Over(true, AfterRefund(Entry(p, amount)))
                                      else FAILED)
  {
    var i, x := |s.desk.calls|, Entry(p, amount);
    assert heard + {} == heard;
    t := Moves(r, s, s.db, b, heard, StoringRefund(p, amount), StoreRefund(i, create, now));
    steps := [Serve(StoreRefund(i, create, now))];
    if create.Committed? {
      var stored := b.(stored := b.stored + multiset{x});
      var u := Moves(r, s, s.db, stored, heard, Saving(StatusFields(p, Refunded, now), ThenRefunded(x)), Save(i, save));
      Chain(r, At(s, s.db, b, heard, StoringRefund(p, amount)), steps, t, [Serve(Save(i, save))], u);
      steps, t := steps + [Serve(Save(i, save))], u;
    }
  }

  /** RefundPayment, likewise, with the refunds table and the refunds the provider accepted. */
  lemma RefundPaymentIsARun(r: RetryStrategy, s: State, p: Row, amount: real, answer: RefundAnswer, create: Write,
                            save: Write,
                            now: int) returns (steps: seq<Step>)
    requires Presented(s.db, p)
    ensures var e := RefundEffect(s.db, s.desk.books.stored, p, amount, answer, create, save, now);
            var accepted := s.desk.books.accepted + if answer.Rejected? then multiset{} else multiset{Entry(p, amount)};
            var heard := if answer.Accepted? then {SaidRefunded(p.transactionId)} else {};
            Leads(r, s, steps, At(s, e.0, Books(e.1, accepted), heard,
                                  if e.2 then Over(true, AfterRefund(Entry(p, amount))) else FAILED))
  {
    var i, x := |s.desk.calls|, Entry(p, amount);
    var heard := if answer.Accepted? then {SaidRefunded(p.transactionId)} else {};
    var b0 := s.desk.books;
    var b1 := if answer.Rejected? then b0 else b0.(accepted := b0.accepted + multiset{x});
    Begins(r, s, RefundRequest(p, amount), {});
    var t1 := Moves(r, s, s.db, b0, {}, Refunding(p, amount), RefundReturns(i, answer));
    assert {} + heard == heard && heard + {} == heard && b0.accepted + multiset{} == b0.accepted;
    steps := [Serve(Begin(RefundRequest(p, amount)))] + [Serve(RefundReturns(i, answer))];
    Chain(r, s, [Serve(Begin(RefundRequest(p, amount)))], At(s, s.db, b0, {}, Refunding(p, amount)),
          [Serve(RefundReturns(i, answer))], t1);
    if answer.Accepted? {
      var t;
      var more;
      more, t := RefundIsStored(r, s, b1, heard, p, amount, create, save, now);
      Chain(r, s, steps, t1, more, t);
      steps := steps + more;
    }
  }

  /** A publication that has returned. */
  function Ended(ok: bool, out: Outgoing, r: RetryStrategy, ctx: Context, outcomes: nat -> Delivery): Call {
    Over(ok, AfterSending(out, Sends(r, ctx, outcomes, 0).silent))
  }

  /** That state with copies of a message in its queue. */
  function Published(t: State, out: Outgoing, n: nat): State {
    t.(payments := PaymentCopies(t.payments, out, n), statuses := StatusCopies(t.statuses, out, n))
  }

  lemma CallPublishes(r: RetryStrategy, s: State, db: Table, books: Books, heard: set<Answer>, out: Outgoing,
                      ctx: Context, outcomes: nat -> Delivery) returns (steps: seq<Step>)
    ensures var sends := Sends(r, ctx, outcomes, 0);
            Leads(r, At(s, db, books, heard, SendAttempt(r, out, 0)), steps,
                  Published(At(s, db, books, heard, Over(sends.ok, AfterSending(out, sends.silent))), out,
                            sends.copies))
  {
    var i, sends := |s.desk.calls|, Sends(r, ctx, outcomes, 0);
    var t := At(s, db, books, heard, SendAttempt(r, out, 0));
    var e := Over(sends.ok, AfterSending(out, sends.silent));
    var own := LoopPublishes(r, i, out, ctx, outcomes, 0, 0);
    NoCopies(t, i, out);
    assert (s.desk.calls + [SendAttempt(r, out, 0)])[i := e] == s.desk.calls + [e];
    steps := SendsAreARun(r, t, i, out, SendAttempt(r, out, 0), 0, own, e, sends.copies,
                          AfterSends(t, i, e, out, sends.copies));
  }

  /** A save that is followed by the publication of the new status. */
  lemma SaveAndPublishIsARun(r: RetryStrategy, s: State, heard: set<Answer>, rec: Row, save: Write, counters: Counters,
                             ctx: Context, outcomes: nat -> Delivery) returns (steps: seq<Step>, t: State)
    ensures Leads(r, At(s, s.db, s.desk.books, heard, Saving(rec, ThenPublish)), steps, t)
    ensures var (table, ok) := SaveRow(s.db, rec, save);
            var pub := StatusPublication(Wire(s.statuses, counters), rec, ctx, r, outcomes);
            t == if ok then At(s, table, s.desk.books, heard,
                               Ended(pub.err == None, StatusOutOf(rec), r, ctx, outcomes)).(statuses := pub.world.queue)
                 else At(s, table, s.desk.books, heard, FAILED)
  {
    var c := Saving(rec, ThenPublish);
    var (table, ok) := SaveRow(s.db, rec, save);
    var t1 := Moves(r, s, s.db, s.desk.books, heard, c, Save(|s.desk.calls|, save));
    assert heard + {} == heard;
    steps, t := [Serve(Save(|s.desk.calls|, save))], t1;
    if ok {
      var msg := StatusMessage(rec.orderId, Unset, rec.status);
      SendsAreTheLoop(r, ctx, StatusPublishError(rec.orderId), msg, outcomes, 0, Wire(s.statuses, counters), None);
      var more := CallPublishes(r, s, table, s.desk.books, heard, StatusOutOf(rec), ctx, outcomes);
      var sends := Sends(r, ctx, outcomes, 0);
      t := Published(At(s, table, s.desk.books, heard, Over(sends.ok, AfterSending(StatusOutOf(rec), sends.silent))),
                     StatusOutOf(rec), sends.copies);
      Chain(r, At(s, s.db, s.desk.books, heard, c), steps, t1, more, t);
      steps := steps + more;
    }
  }

  /** GetPaymentStatus, likewise. */
  lemma GetPaymentStatusIsARun(r: RetryStrategy, s: State, p: Row, answer: Option<Status>, save: Write, now: int,
                               counters: Counters,
                               ctx: Context, outcomes: nat -> Delivery) returns (steps: seq<Step>, t: State)
    requires Presented(s.db, p)
    ensures Leads(r, s, steps, t)
    ensures answer.None? ==> t == At(s, s.db, s.desk.books, {}, FAILED)
    ensures answer.Some? && answer.value == p.status ==>
              t == At(s, s.db, s.desk.books, {SaidStatus(p.transactionId, answer.value)}, Over(true, Plainly))
    ensures answer.Some? && answer.value != p.status ==>
              var q := StatusFields(p, answer.value, now);
              var heard := {SaidStatus(p.transactionId, answer.value)};
              var (table, ok) := SaveRow(s.db, q, save);
              var pub := StatusPublication(Wire(s.statuses, counters), q, ctx, r, outcomes);
              t == if ok then At(s, table, s.desk.books, heard,
                                 Ended(pub.err == None, StatusOutOf(q), r, ctx, outcomes)).(statuses := pub.world.queue)
                   else At(s, table, s.desk.books, heard, FAILED)
  {
    var i := |s.desk.calls|;
    var heard := if answer.None? then {} else {SaidStatus(p.transactionId, answer.value)};
    Begins(r, s, StatusRequest(p), {});
    var t1 := Moves(r, s, s.db, s.desk.books, {}, Asking(p), StatusReturns(i, answer, now));
    assert {} + heard == heard;
    Chain(r, s, [Serve(Begin(StatusRequest(p)))], At(s, s.db, s.desk.books, {}, Asking(p)),
          [Serve(StatusReturns(i, answer, now))], t1);
    steps, t := [Serve(Begin(StatusRequest(p)))] + [Serve(StatusReturns(i, answer, now))], t1;
    if answer.Some? && answer.value != p.status {
      var more;
      more, t := SaveAndPublishIsARun(r, s, heard, StatusFields(p, answer.value, now), save, counters, ctx, outcomes);
      Chain(r, s, steps, t1, more, t);
      steps := steps + more;
    }
  }

  /** HandleWebhook with a valid event, likewise. */
  lemma HandleWebhookIsARun(r: RetryStrategy, s: State, event: WebhookEvent, readFails: bool, save: Write, now: int,
                            counters: Counters,
                            ctx: Context, outcomes: nat -> Delivery) returns (steps: seq<Step>, t: State)
    ensures Leads(r, s, steps, t)
    ensures t.db == AfterWebhook(s.db, event, readFails, save, now)
    ensures var heard := {SaidEvent(event.transactionId, event.status)};
            match Located(s.db, event, readFails)
            case None => t == At(s, s.db, s.desk.books, heard, FAILED)
            case Some(row) =>
              var rec := WebhookFields(row, event, now);
              var pub := StatusPublication(Wire(s.statuses, counters), rec, ctx, r, outcomes);
              t == if SaveRow(s.db, rec, save).1 then
                     At(s, t.db, s.desk.books, heard, Ended(pub.err == None, StatusOutOf(rec), r, ctx, outcomes))
                     .(statuses := pub.world.queue)
                   else At(s, t.db, s.desk.books, heard, FAILED)
  {
    var i := |s.desk.calls|;
    var heard := {SaidEvent(event.transactionId, event.status)};
    Begins(r, s, Webhook(event), heard);
    var t1 := Moves(r, s, s.db, s.desk.books, heard, Locating(event), Locate(i, readFails, now));
    assert heard + {} == heard;
    Chain(r, s, [Serve(Begin(Webhook(event)))], At(s, s.db, s.desk.books, heard, Locating(event)),
          [Serve(Locate(i, readFails, now))], t1);
    steps, t := [Serve(Begin(Webhook(event)))] + [Serve(Locate(i, readFails, now))], t1;
    if Located(s.db, event, readFails).Some? {
      var more;
      more, t := SaveAndPublishIsARun(r, s, heard, WebhookFields(Located(s.db, event, readFails).value, event, now),
                                      save, counters, ctx, outcomes);
      Chain(r, s, steps, t1, more, t);
      steps := steps + more;
    }
  }

  /** The state with one more publication begun. */
  function Claimed(s: State, out: Outgoing): State {
    s.(desk := s.desk.(claimed := s.desk.claimed + Claims(Begin(Publication(out)))))
  }

  lemma PublicationIsARun(r: RetryStrategy, s: State, out: Outgoing, ctx: Context,
                          outcomes: nat -> Delivery) returns (steps: seq<Step>)
    ensures var sends := Sends(r, ctx, outcomes, 0);
            Leads(r, s, steps, Published(At(Claimed(s, out), s.db, s.desk.books, {},
                                            Over(sends.ok, AfterSending(out, sends.silent))), out, sends.copies))
  {
    var sends := Sends(r, ctx, outcomes, 0);
    var u := Claimed(s, out);
    var t := At(u, s.db, s.desk.books, {}, SendAttempt(r, out, 0));
    One(r, s, Begin(Publication(out)));
    var more := CallPublishes(r, u, s.db, s.desk.books, {}, out, ctx, outcomes);
    Chain(r, s, [Serve(Begin(Publication(out)))], t, more,
          Published(At(u, s.db, s.desk.books, {}, Over(sends.ok, AfterSending(out, sends.silent))), out, sends.copies));
    steps := [Serve(Begin(Publication(out)))] + more;
  }

  /** ProcessPaymentAsync on the system's queue. */
  lemma ProcessPaymentAsyncIsARun(r: RetryStrategy, s: State, counters: Counters, msg: PaymentMessage, ctx: Context,
                                  outcomes: nat -> Delivery)
    returns (steps: seq<Step>)
    ensures var pub := Run(PublishOperation(PublishError(msg.orderId), msg, outcomes), ctx, r,
                           Wire(s.payments, counters));
            Leads(r, s, steps, At(Claimed(s, PaymentOut(msg)), s.db, s.desk.books, {},
                                  Ended(pub.err == None, PaymentOut(msg), r, ctx, outcomes))
                               .(payments := pub.world.queue))
  {
    SendsAreTheLoop(r, ctx, PublishError(msg.orderId), msg, outcomes, 0, Wire(s.payments, counters), None);
    steps := PublicationIsARun(r, s, PaymentOut(msg), ctx, outcomes);
  }

  /** UpdatePaymentStatusAsync called by anyone but the payment service. */
  lemma UpdatePaymentStatusAsyncIsARun(r: RetryStrategy, s: State, counters: Counters, msg: StatusMessage,
                                       ctx: Context, outcomes: nat -> Delivery)
    returns (steps: seq<Step>)
    ensures var pub := Run(PublishOperation(StatusPublishError(msg.orderId), msg, outcomes), ctx, r,
                           Wire(s.statuses, counters));
            Leads(r, s, steps, At(Claimed(s, StatusOut(msg)), s.db, s.desk.books, {},
                                  Ended(pub.err == None, StatusOut(msg), r, ctx, outcomes))
                               .(statuses := pub.world.queue))
  {
    SendsAreTheLoop(r, ctx, StatusPublishError(msg.orderId), msg, outcomes, 0, Wire(s.statuses, counters), None);
    steps := PublicationIsARun(r, s, StatusOut(msg), ctx, outcomes);
  }

  // ---------------------------------------------------------------------------------------
  // The exception in the provenance of statuses
  // ---------------------------------------------------------------------------------------

  /** A first delivery that meets no fault records the message. */
  lemma FirstDelivery(r: RetryStrategy, msg: PaymentMessage)
    requires r.maxAttempts >= 1
    ensures HandlePayment(r, World([], []), msg, (k: nat) => PaymentFaults(false, Committed, Sent)).world.payments
            == [RowOf(msg)]
  {
    var faults := (k: nat) => PaymentFaults(false, Committed, Sent);
    var w := World([], []);
    assert !SeesProcessed(w.payments, msg.orderId, false);
    assert CreateRow(w.payments, msg, Committed) == ([] + [RowOf(msg)], true);
    assert PaymentOperation(msg, faults)(w, 0) == PaymentOp(w, msg, faults(0));
    assert !BACKGROUND.done(0);
  }

  lemma FirstMessage(r: RetryStrategy, msg: PaymentMessage) returns (s: State)
    ensures Reachable(r, s) && WellFormed(r, s) && CanDeliver(s.payments, 0, Json(msg))
    ensures s.db == [] && s.notes == []
    ensures s.desk == Desk([], Books(multiset{}, multiset{}), {}, {(msg.orderId, msg.status)})
  {
    var s0 := Init(1, 0);
    InvInit(r, 1, 0);
    OneStep(r, s0, PublishPayment(Json(msg)));
    WellFormedKept(r, s0, PublishPayment(Json(msg)));
    s := Apply(r, s0, PublishPayment(Json(msg)));
    assert {} + {(msg.orderId, msg.status)} == {(msg.orderId, msg.status)};
  }

  /** One payment message recorded. */
  lemma RecordedFirst(r: RetryStrategy, msg: PaymentMessage) returns (s: State)
    requires r.maxAttempts >= 1
    ensures Reachable(r, s) && s.db == [RowOf(msg)]
            && s.desk == Desk([], Books(multiset{}, multiset{}), {}, {(msg.orderId, msg.status)})
  {
    var s1 := FirstMessage(r, msg);
    var steps := IterationIsARun(r, s1, 0, msg, (k: nat) => PaymentFaults(false, Committed, Sent));
    FirstDelivery(r, msg);
    ReachableOn(r, s1, steps);
    s := Exec(r, s1, steps);
  }

  /** It is real: an order whose row has no transaction loses its status to any event of a type Stripe's adapter does
      not map, although no provider ever said anything about that order. */
  lemma NamelessEventHitsAnyOrder(r: RetryStrategy, msg: PaymentMessage, eventType: string) returns (s: State)
    requires r.maxAttempts >= 1
    ensures Reachable(r, s) && s.db == [RowOf(msg).(status := Unset, updatedAt := 1)]
    ensures s.desk.claimed == {(msg.orderId, msg.status)} && s.desk.answers == {SaidEvent("", Unset)}
  {
    var s0 := RecordedFirst(r, msg);
    var event := StripeWebhook(OtherEvent(eventType));
    var steps;
    steps, s := HandleWebhookIsARun(r, s0, event, false, Committed, 1, Counters(0, 0, 0, 0, 0), BACKGROUND,
                                    (k: nat) => Sent);
    ReachableOn(r, s0, steps);
    assert IndexOfTransaction(s0.db, "") == 0;
    assert s.db == [WebhookFields(RowOf(msg), event, 1)];
  }
}
