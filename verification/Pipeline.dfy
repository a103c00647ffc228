/** The asynchronous pipeline as an interleaved protocol: any number of payment and status consumers, each going
    through its handler one database or broker operation at a time, together with any number of calls to the payment
    service and of retried publications (module ServiceCalls), other publishers, crashes, and message expiry.

    A step is what one party does atomically; its parameters are the choices of the outside world (which message is
    delivered, whether a read fails, whether a write commits). The handlers' effects are those of module AsyncService,
    the queues those of module Broker. */
module Pipeline {
  import opened Errors
  import opened Models
  import opened Broker
  import opened AsyncService
  import opened ServiceCalls

  /** Where a payment consumer is in its iteration. */
  datatype PaymentPc =
    | Idle
    | Received                      // delivered, not yet unmarshalled
    | Checking(attempt: nat)        // about to look for a processed payment
    | Creating(attempt: nat)        // about to insert the row
    | Announcing(note: Notification) // the insert reported success; about to publish the notification
    | Returned(err: Option<Error>)  // the retry loop has returned; about to settle

  datatype StatusPc =
    | Waiting
    | Arriving
    | Looking(attempt: nat)
    | Updating(attempt: nat, note: Notification)
    | Telling(note: Notification)
    | Done(err: Option<Error>)

  datatype State = State(
    db: Table,
    payments: Queue<PaymentMessage>,
    workers: seq<PaymentPc>,
    statuses: Queue<StatusMessage>,
    updaters: seq<StatusPc>,
    notes: seq<Notification>,
    desk: Desk)

  datatype Step =
    // other publishers, whose bodies may be unreadable
    | PublishPayment(payment: Body<PaymentMessage>)
    | PublishStatus(status: Body<StatusMessage>)
    // a call to the services
    | Serve(call: CallStep)
    // a payment consumer
    | Take(worker: nat, delivery: Body<PaymentMessage>)
    | Read(worker: nat)
    | Check(worker: nat, readFails: bool)
    | Create(worker: nat, write: Write)
    | Announce(worker: nat, sent: Delivery)
    | Finish(worker: nat)
    | Crash(worker: nat)
    | ExpirePayment(payment: Body<PaymentMessage>)
    // a status consumer
    | TakeStatus(updater: nat, change: Body<StatusMessage>)
    | ReadStatus(updater: nat)
    | Look(updater: nat, readFails: bool)
    | Update(updater: nat, write: Write)
    | Tell(updater: nat, sent: Delivery)
    | FinishStatus(updater: nat)
    | CrashStatus(updater: nat)
    | ExpireStatus(status: Body<StatusMessage>)

  function Init(workers: nat, updaters: nat): State {
    State([], EmptyQueue(workers), seq(workers, i => Idle), EmptyQueue(updaters), seq(updaters, i => Waiting), [],
          EMPTY_DESK)
  }

  /** The retry loop between two attempts: the k-th one starts if it is allowed. */
  function Attempt(r: RetryStrategy, k: nat, lastErr: Option<Error>): PaymentPc {
    if k < r.maxAttempts then Checking(k) else Returned(lastErr)
  }

  function AfterError(r: RetryStrategy, k: nat, err: Error): PaymentPc {
    if ShouldRetry(r, k, err) then Attempt(r, k + 1, Some(err)) else Returned(Some(err))
  }

  function StatusAttempt(r: RetryStrategy, k: nat, lastErr: Option<Error>): StatusPc {
    if k < r.maxAttempts then Looking(k) else Done(lastErr)
  }

  function StatusAfterError(r: RetryStrategy, k: nat, err: Error): StatusPc {
    if ShouldRetry(r, k, err) then StatusAttempt(r, k + 1, Some(err)) else Done(Some(err))
  }

  /** Worker i is at work on a readable message. */
  predicate Holds(s: State, i: nat) {
    i < |s.workers| && i < |s.payments.unacked| && s.payments.unacked[i].Some? && s.payments.unacked[i].value.Json?
  }

  function Msg(s: State, i: nat): PaymentMessage
    requires Holds(s, i)
  {
    s.payments.unacked[i].value.msg
  }

  predicate HoldsStatus(s: State, i: nat) {
    i < |s.updaters| && i < |s.statuses.unacked| && s.statuses.unacked[i].Some? && s.statuses.unacked[i].value.Json?
  }

  function StatusMsg(s: State, i: nat): StatusMessage
    requires HoldsStatus(s, i)
  {
    s.statuses.unacked[i].value.msg
  }

  predicate Enabled(s: State, step: Step) {
    match step
    case PublishPayment(_) => true
    case PublishStatus(_) => true
    case Serve(call) => CallEnabled(s.db, s.desk, call)
    case Take(i, b) => i < |s.workers| && s.workers[i].Idle? && CanDeliver(s.payments, i, b)
    case Read(i) => i < |s.workers| && s.workers[i].Received? && Busy(s.payments, i)
    case Check(i, _) => Holds(s, i) && s.workers[i].Checking?
    case Create(i, _) => Holds(s, i) && s.workers[i].Creating?
    case Announce(i, _) => Holds(s, i) && s.workers[i].Announcing?
    case Finish(i) => Holds(s, i) && s.workers[i].Returned?
    case Crash(i) => i < |s.workers| && Busy(s.payments, i)
    case ExpirePayment(b) => b in s.payments.ready
    case TakeStatus(i, b) => i < |s.updaters| && s.updaters[i].Waiting? && CanDeliver(s.statuses, i, b)
    case ReadStatus(i) => i < |s.updaters| && s.updaters[i].Arriving? && Busy(s.statuses, i)
    case Look(i, _) => HoldsStatus(s, i) && s.updaters[i].Looking?
    case Update(i, _) => HoldsStatus(s, i) && s.updaters[i].Updating?
    case Tell(i, _) => HoldsStatus(s, i) && s.updaters[i].Telling?
    case FinishStatus(i) => HoldsStatus(s, i) && s.updaters[i].Done?
    case CrashStatus(i) => i < |s.updaters| && Busy(s.statuses, i)
    case ExpireStatus(b) => b in s.statuses.ready
  }

  function Claim(s: State, o: OrderId, st: Status): State {
    s.(desk := s.desk.(claimed := s.desk.claimed + {(o, st)}))
  }

  function Served(r: RetryStrategy, s: State, call: CallStep): State
    requires CallEnabled(s.db, s.desk, call)
  {
    var out := Enqueued(s.db, s.desk, call);
    s.(db := TableAfter(s.db, s.desk, call), desk := DeskAfter(r, s.db, s.desk, call),
       payments := PaymentsAfter(s.payments, out), statuses := StatusesAfter(s.statuses, out))
  }

  function Settled(s: State, i: nat, how: Settlement): State
    requires i < |s.workers| && Busy(s.payments, i)
  {
    s.(payments := Settle(s.payments, i, how), workers := s.workers[i := Idle])
  }

  function SettledStatus(s: State, i: nat, how: Settlement): State
    requires i < |s.updaters| && Busy(s.statuses, i)
  {
    s.(statuses := Settle(s.statuses, i, how), updaters := s.updaters[i := Waiting])
  }

  function Moved(s: State, i: nat, pc: PaymentPc): State
    requires i < |s.workers|
  {
    s.(workers := s.workers[i := pc])
  }

  function MovedStatus(s: State, i: nat, pc: StatusPc): State
    requires i < |s.updaters|
  {
    s.(updaters := s.updaters[i := pc])
  }

  function ApplyCheck(s: State, i: nat, readFails: bool): State
    requires Enabled(s, Check(i, readFails))
  {
    Moved(s, i, if SeesProcessed(s.db, Msg(s, i).orderId, readFails) then Returned(None)
                else Creating(s.workers[i].attempt))
  }

  function ApplyCreate(r: RetryStrategy, s: State, i: nat, w: Write): State
    requires Enabled(s, Create(i, w))
  {
    var (table, created) := CreateRow(s.db, Msg(s, i), w);
    Moved(s, i, if created then Announcing(ReceivedNote(Msg(s, i)))
                else AfterError(r, s.workers[i].attempt, CreateError(Msg(s, i).orderId))).(db := table)
  }

  function ApplyLook(r: RetryStrategy, s: State, i: nat, readFails: bool): State
    requires Enabled(s, Look(i, readFails))
  {
    var msg := StatusMsg(s, i);
    MovedStatus(s, i, if readFails || !Has(s.db, msg.orderId) then
                        StatusAfterError(r, s.updaters[i].attempt, NotFoundError(msg.orderId))
                      else Updating(s.updaters[i].attempt, UpdatedNote(s.db, msg)))
  }

  function ApplyUpdate(r: RetryStrategy, s: State, i: nat, w: Write): State
    requires Enabled(s, Update(i, w))
  {
    var (table, updated) := UpdateRow(s.db, StatusMsg(s, i), w);
    MovedStatus(s, i, if updated then Telling(s.updaters[i].note)
                      else StatusAfterError(r, s.updaters[i].attempt,
                                            UpdateError(StatusMsg(s, i).orderId))).(db := table)
  }

  function Apply(r: RetryStrategy, s: State, step: Step): State
    requires Enabled(s, step)
  {
    match step
    case PublishPayment(b) =>
      var next := s.(payments := Enqueue(s.payments, b));
      if b.Json? then Claim(next, b.msg.orderId, b.msg.status) else next
    case PublishStatus(b) =>
      var next := s.(statuses := Enqueue(s.statuses, b));
      if b.Json? then Claim(next, b.msg.orderId, b.msg.newStatus) else next
    case Serve(call) => Served(r, s, call)
    case Take(i, b) => Moved(s, i, Received).(payments := Deliver(s.payments, i, b))
    case Read(i) =>
      if s.payments.unacked[i].value.Malformed? then Settled(s, i, Dropped) else Moved(s, i, Attempt(r, 0, None))
    case Check(i, readFails) => ApplyCheck(s, i, readFails)
    case Create(i, w) => ApplyCreate(r, s, i, w)
    case Announce(i, d) => Moved(s, i, Returned(None)).(notes := Note(s.notes, s.workers[i].note, d))
    case Finish(i) => Settled(s, i, if s.workers[i].err.None? then Acked else Requeued)
    case Crash(i) => Settled(s, i, Requeued)
    case ExpirePayment(b) => s.(payments := Expire(s.payments, b))
    case TakeStatus(i, b) => MovedStatus(s, i, Arriving).(statuses := Deliver(s.statuses, i, b))
    case ReadStatus(i) =>
      if s.statuses.unacked[i].value.Malformed? then SettledStatus(s, i, Dropped)
      else MovedStatus(s, i, StatusAttempt(r, 0, None))
    case Look(i, readFails) => ApplyLook(r, s, i, readFails)
    case Update(i, w) => ApplyUpdate(r, s, i, w)
    case Tell(i, d) => MovedStatus(s, i, Done(None)).(notes := Note(s.notes, s.updaters[i].note, d))
    case FinishStatus(i) => SettledStatus(s, i, if s.updaters[i].err.None? then Acked else Requeued)
    case CrashStatus(i) => SettledStatus(s, i, Requeued)
    case ExpireStatus(b) => s.(statuses := Expire(s.statuses, b))
  }

  /** A run: every step is possible where it is taken. */
  ghost predicate Legal(r: RetryStrategy, s: State, steps: seq<Step>)
    decreases steps
  {
    |steps| > 0 ==> Enabled(s, steps[0]) && Legal(r, Apply(r, s, steps[0]), steps[1..])
  }

  ghost function Exec(r: RetryStrategy, s: State, steps: seq<Step>): State
    requires Legal(r, s, steps)
    decreases steps
  {
    if |steps| == 0 then s else Exec(r, Apply(r, s, steps[0]), steps[1..])
  }

  lemma {:induction false} ExecAppend(r: RetryStrategy, s: State, xs: seq<Step>, ys: seq<Step>)
    requires Legal(r, s, xs) && Legal(r, Exec(r, s, xs), ys)
    ensures Legal(r, s, xs + ys) && Exec(r, s, xs + ys) == Exec(r, Exec(r, s, xs), ys)
    decreases xs
  {
    if |xs| == 0 {
      assert xs + ys == ys;
    } else {
      assert (xs + ys)[1..] == xs[1..] + ys;
      ExecAppend(r, Apply(r, s, xs[0]), xs[1..], ys);
    }
  }

  lemma {:induction false} ExecSplit(r: RetryStrategy, s: State, xs: seq<Step>, ys: seq<Step>)
    requires Legal(r, s, xs + ys)
    ensures Legal(r, s, xs) && Legal(r, Exec(r, s, xs), ys) && Exec(r, s, xs + ys) == Exec(r, Exec(r, s, xs), ys)
    decreases xs
  {
    if |xs| == 0 {
      assert xs + ys == ys;
    } else {
      assert (xs + ys)[1..] == xs[1..] + ys;
      ExecSplit(r, Apply(r, s, xs[0]), xs[1..], ys);
    }
  }

  lemma OneStep(r: RetryStrategy, s: State, step: Step)
    requires Enabled(s, step)
    ensures Legal(r, s, [step]) && Exec(r, s, [step]) == Apply(r, s, step)
  {
    assert [step][1..] == [];
    assert Legal(r, Apply(r, s, step), []);
  }

  /** The steps lead from s to t. */
  ghost predicate Leads(r: RetryStrategy, s: State, steps: seq<Step>, t: State) {
    Legal(r, s, steps) && Exec(r, s, steps) == t
  }

  lemma Chain(r: RetryStrategy, s: State, xs: seq<Step>, t: State, ys: seq<Step>, u: State)
    requires Leads(r, s, xs, t) && Leads(r, t, ys, u)
    ensures Leads(r, s, xs + ys, u)
  {
    ExecAppend(r, s, xs, ys);
  }
}
