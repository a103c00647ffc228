/** The sequential handlers of module AsyncService are runs of the protocol: a consumer that is left alone takes exactly
    its handler's steps, whatever faults they meet, and has exactly its effect on the queue, the table and the
    notifications. */
module PipelineRefinement {
  import opened Errors
  import opened Models
  import opened Broker
  import opened Retry
  import opened AsyncService
  import opened Pipeline
  import opened PipelineSafety
  import opened PipelineTheorems

  // ---------------------------------------------------------------------------------------
  // A payment consumer
  // ---------------------------------------------------------------------------------------

  /** The state with worker i at `pc` and the world the handler left. */
  function After(s: State, i: nat, w: World, pc: PaymentPc): State
    requires i < |s.workers|
  {
    s.(db := w.payments, notes := w.notes, workers := s.workers[i := pc])
  }

  lemma CheckStep(r: RetryStrategy, s: State, i: nat, msg: PaymentMessage, k: nat, f: PaymentFaults)
    requires Holds(s, i) && Msg(s, i) == msg && s.workers[i] == Checking(k)
    ensures Enabled(s, Check(i, f.readFails))
    ensures Apply(r, s, Check(i, f.readFails))
         == After(s, i, World(s.db, s.notes), if SeesProcessed(s.db, msg.orderId, f.readFails) then Returned(None)
                  else Creating(k))
  {
  }

  lemma CreateStep(r: RetryStrategy, s: State, i: nat, msg: PaymentMessage, k: nat, f: PaymentFaults)
    requires Holds(s, i) && Msg(s, i) == msg && s.workers[i] == Creating(k)
    ensures Enabled(s, Create(i, f.create))
    ensures var (table, created) := CreateRow(s.db, msg, f.create);
            var pc := if created then Announcing(ReceivedNote(msg)) else AfterError(r, k, CreateError(msg.orderId));
            Apply(r, s, Create(i, f.create)) == After(s, i, World(table, s.notes), pc)
  {
  }

  lemma AnnounceStep(r: RetryStrategy, s: State, i: nat, msg: PaymentMessage, f: PaymentFaults)
    requires Holds(s, i) && Msg(s, i) == msg && s.workers[i] == Announcing(ReceivedNote(msg))
    ensures Enabled(s, Announce(i, f.notify))
    ensures Apply(r, s, Announce(i, f.notify))
         == After(s, i, World(s.db, Note(s.notes, ReceivedNote(msg), f.notify)), Returned(None))
  {
  }

  /** One attempt of the operation, taken by worker i alone, as steps of the protocol. */
  lemma AttemptIsARun(r: RetryStrategy, s: State, i: nat, msg: PaymentMessage, k: nat,
                      f: PaymentFaults) returns (steps: seq<Step>)
    requires Holds(s, i) && Msg(s, i) == msg && s.workers[i] == Checking(k)
    ensures Legal(r, s, steps)
    ensures var (next, err) := PaymentOp(World(s.db, s.notes), msg, f);
            && Exec(r, s, steps) == After(s, i, next, if err.None? then Returned(None) else AfterError(r, k, err.value))
  {
    steps := [Check(i, f.readFails)];
    CheckStep(r, s, i, msg, k, f);
    OneStep(r, s, Check(i, f.readFails));
    if !SeesProcessed(s.db, msg.orderId, f.readFails) {
      var s1 := Apply(r, s, Check(i, f.readFails));
      CreateStep(r, s1, i, msg, k, f);
      OneStep(r, s1, Create(i, f.create));
      ExecAppend(r, s, steps, [Create(i, f.create)]);
      steps := steps + [Create(i, f.create)];
      if CreateRow(s.db, msg, f.create).1 {
        var s2 := Apply(r, s1, Create(i, f.create));
        AnnounceStep(r, s2, i, msg, f);
        OneStep(r, s2, Announce(i, f.notify));
        ExecAppend(r, s, steps, [Announce(i, f.notify)]);
        steps := steps + [Announce(i, f.notify)];
      }
    }
  }

  lemma RetryUnfolds(r: RetryStrategy, w: World, msg: PaymentMessage, faults: nat -> PaymentFaults, k: nat,
                     lastErr: Option<Error>)
    requires k < r.maxAttempts
    ensures var out := RetryFrom(PaymentOperation(msg, faults), BACKGROUND, r, k, w, lastErr);
            var (next, err) := PaymentOp(w, msg, faults(k));
            if err.None? then out.world == next && out.err == None
            else
              var rest := RetryFrom(PaymentOperation(msg, faults), BACKGROUND, r, k + 1, next, err);
              && out.world == rest.world && out.err == rest.err
              && AfterError(r, k, err.value) == Attempt(r, k + 1, err)
  {
  }

  /** The sequential handler is one of the protocol's runs: whatever faults it meets, worker i can take
      exactly its steps, ending with the same table, the same notifications and the same verdict. */
  lemma {:induction false} HandlerIsARun(r: RetryStrategy, s: State, i: nat, msg: PaymentMessage,
                                         faults: nat -> PaymentFaults,
                                         k: nat, lastErr: Option<Error>) returns (steps: seq<Step>)
    requires Holds(s, i) && Msg(s, i) == msg && s.workers[i] == Attempt(r, k, lastErr)
    ensures Legal(r, s, steps)
    ensures var out := RetryFrom(PaymentOperation(msg, faults), BACKGROUND, r, k, World(s.db, s.notes), lastErr);
            Exec(r, s, steps) == After(s, i, out.world, Returned(out.err))
    decreases r.maxAttempts - k
  {
    if k >= r.maxAttempts {
      steps := [];
    } else {
      var (next, err) := PaymentOp(World(s.db, s.notes), msg, faults(k));
      steps := AttemptIsARun(r, s, i, msg, k, faults(k));
      RetryUnfolds(r, World(s.db, s.notes), msg, faults, k, lastErr);
      if err.Some? {
        var s1 := Exec(r, s, steps);
        AfterAfter(s, i, next, AfterError(r, k, err.value));
        var rest := HandlerIsARun(r, s1, i, msg, faults, k + 1, err);
        ExecAppend(r, s, steps, rest);
        steps := steps + rest;
      }
    }
  }

  lemma AfterAfter(s: State, i: nat, w: World, pc: PaymentPc)
    requires i < |s.workers|
    ensures var t := After(s, i, w, pc);
            && World(t.db, t.notes) == w && t.workers[i] == pc && t.payments == s.payments
            && forall v: World, qc: PaymentPc :: After(t, i, v, qc) == After(s, i, v, qc)
  {
    forall v: World, qc: PaymentPc ensures After(After(s, i, w, pc), i, v, qc) == After(s, i, v, qc) {
      assert s.workers[i := pc][i := qc] == s.workers[i := qc];
    }
  }

  lemma IterationBegins(r: RetryStrategy, s: State, i: nat, msg: PaymentMessage) returns (steps: seq<Step>, t: State)
    requires WellFormed(r, s) && CanDeliver(s.payments, i, Json(msg))
    ensures Legal(r, s, steps) && Exec(r, s, steps) == t
    ensures t == s.(payments := Deliver(s.payments, i, Json(msg)), workers := t.workers)
    ensures |t.workers| == |s.workers| && i < |s.workers| && t.workers == s.workers[i := Attempt(r, 0, None)]
  {
    assert Fit(r, s.workers[i], s.payments.unacked[i]);
    OneStep(r, s, Take(i, Json(msg)));
    var s1 := Apply(r, s, Take(i, Json(msg)));
    OneStep(r, s1, Read(i));
    ExecAppend(r, s, [Take(i, Json(msg))], [Read(i)]);
    steps := [Take(i, Json(msg))] + [Read(i)];
    t := Apply(r, s1, Read(i));
    assert s.workers[i := Received][i := Attempt(r, 0, None)] == s.workers[i := Attempt(r, 0, None)];
  }

  /** Settling, at the end of an iteration that began in s. */
  lemma FinishStep(r: RetryStrategy, s: State, i: nat, msg: PaymentMessage, s1: State, w: World, err: Option<Error>)
    requires CanDeliver(s.payments, i, Json(msg)) && i < |s.workers|
    requires s1 == s.(payments := Deliver(s.payments, i, Json(msg)), workers := s.workers[i := Attempt(r, 0, None)])
    ensures var how := if err.None? then Acked else Requeued;
            Leads(r, After(s1, i, w, Returned(err)), [Finish(i)],
                  After(s, i, w, Idle).(payments := Turn(s.payments, i, Round(Json(msg), how))))
  {
    var s2 := After(s1, i, w, Returned(err));
    assert s2.workers[i := Idle] == s.workers[i := Idle];
    OneStep(r, s2, Finish(i));
  }

  /** A whole iteration of the consumer loop, undisturbed, is a run of the protocol with the same effect on
      the queue, the table and the notifications. */
  lemma IterationIsARun(r: RetryStrategy, s: State, i: nat, msg: PaymentMessage, faults: nat -> PaymentFaults)
    returns (steps: seq<Step>)
    requires WellFormed(r, s) && CanDeliver(s.payments, i, Json(msg))
    ensures Legal(r, s, steps)
    ensures var out := HandlePayment(r, World(s.db, s.notes), msg, faults);
            var how := if out.err.None? then Acked else Requeued;
            Exec(r, s, steps) == After(s, i, out.world, Idle).(payments := Turn(s.payments, i, Round(Json(msg), how)))
  {
    var begun, inside;
    var s1: State;
    begun, s1 := IterationBegins(r, s, i, msg);
    inside := HandlerIsARun(r, s1, i, msg, faults, 0, None);
    var out := HandlePayment(r, World(s.db, s.notes), msg, faults);
    var end := After(s, i, out.world, Idle)
               .(payments := Turn(s.payments, i, Round(Json(msg), if out.err.None? then Acked else Requeued)));
    FinishStep(r, s, i, msg, s1, out.world, out.err);
    Chain(r, s, begun, s1, inside, After(s1, i, out.world, Returned(out.err)));
    Chain(r, s, begun + inside, After(s1, i, out.world, Returned(out.err)), [Finish(i)], end);
    steps := begun + inside + [Finish(i)];
  }

  /** A crash anywhere in an iteration is made up for by the redelivery: the message can be taken again at once, and
      then table and notifications are what the handler makes of those the crash left. */
  lemma CrashIsMadeUpFor(r: RetryStrategy, s: State, i: nat, msg: PaymentMessage, faults: nat -> PaymentFaults)
    returns (steps: seq<Step>)
    requires WellFormed(r, s) && Holds(s, i) && Msg(s, i) == msg
    ensures Legal(r, s, [Crash(i)] + steps)
    ensures var out := HandlePayment(r, World(s.db, s.notes), msg, faults);
            var t := Exec(r, s, [Crash(i)] + steps);
            && World(t.db, t.notes) == out.world
            && (if out.err == None then Json(msg) in t.payments.acked else Json(msg) in t.payments.ready)
  {
    OneStep(r, s, Crash(i));
    WellFormedKept(r, s, Crash(i));
    steps := IterationIsARun(r, Apply(r, s, Crash(i)), i, msg, faults);
    ExecAppend(r, s, [Crash(i)], steps);
  }

  /** With a strategy that allows no attempt acknowledging guarantees nothing: the retry loop returns nil without
      running the handler, and the message is acknowledged with no row behind it. */
  lemma NoAttemptLosesThePayment(r: RetryStrategy, msg: PaymentMessage) returns (s: State)
    requires r.maxAttempts <= 0
    ensures Reachable(r, s) && Json(msg) in s.payments.acked && !Has(s.db, msg.orderId)
  {
    var s0 := Init(1, 0);
    OneStep(r, s0, PublishPayment(Json(msg)));
    var s1 := Apply(r, s0, PublishPayment(Json(msg)));
    InvInit(r, 1, 0);
    WellFormedKept(r, s0, PublishPayment(Json(msg)));
    var steps := IterationIsARun(r, s1, 0, msg, (k: nat) => PaymentFaults(false, Committed, Sent));
    ExecAppend(r, s0, [PublishPayment(Json(msg))], steps);
    s := Exec(r, s0, [PublishPayment(Json(msg))] + steps);
  }

  // ---------------------------------------------------------------------------------------
  // A status consumer
  // ---------------------------------------------------------------------------------------

  function StatusAfter(s: State, i: nat, w: World, pc: StatusPc): State
    requires i < |s.updaters|
  {
    s.(db := w.payments, notes := w.notes, updaters := s.updaters[i := pc])
  }

  lemma LookStep(r: RetryStrategy, s: State, i: nat, msg: StatusMessage, k: nat, f: StatusFaults)
    requires HoldsStatus(s, i) && StatusMsg(s, i) == msg && s.updaters[i] == Looking(k)
    ensures Enabled(s, Look(i, f.readFails))
    ensures var pc := if f.readFails || !Has(s.db, msg.orderId) then Done(Some(NotFoundError(msg.orderId)))
                      else Updating(k, UpdatedNote(s.db, msg));
            Apply(r, s, Look(i, f.readFails)) == StatusAfter(s, i, World(s.db, s.notes), pc)
  {
  }

  lemma UpdateStep(r: RetryStrategy, s: State, i: nat, msg: StatusMessage, k: nat, note: Notification, f: StatusFaults)
    requires HoldsStatus(s, i) && StatusMsg(s, i) == msg && s.updaters[i] == Updating(k, note)
    ensures Enabled(s, Update(i, f.update))
    ensures var (table, updated) := UpdateRow(s.db, msg, f.update);
            var pc := if updated then Telling(note) else StatusAfterError(r, k, UpdateError(msg.orderId));
            Apply(r, s, Update(i, f.update)) == StatusAfter(s, i, World(table, s.notes), pc)
  {
  }

  lemma TellStep(r: RetryStrategy, s: State, i: nat, note: Notification, f: StatusFaults)
    requires HoldsStatus(s, i) && s.updaters[i] == Telling(note)
    ensures Enabled(s, Tell(i, f.notify))
    ensures Apply(r, s, Tell(i, f.notify)) == StatusAfter(s, i, World(s.db, Note(s.notes, note, f.notify)), Done(None))
  {
  }

  lemma StatusAttemptIsARun(r: RetryStrategy, s: State, i: nat, msg: StatusMessage, k: nat,
                            f: StatusFaults) returns (steps: seq<Step>)
    requires HoldsStatus(s, i) && StatusMsg(s, i) == msg && s.updaters[i] == Looking(k)
    ensures Legal(r, s, steps)
    ensures var (next, err) := StatusOp(World(s.db, s.notes), msg, f);
            && Exec(r, s, steps) == StatusAfter(s, i, next, if err.None? then Done(None)
                                                else StatusAfterError(r, k, err.value))
  {
    steps := [Look(i, f.readFails)];
    LookStep(r, s, i, msg, k, f);
    OneStep(r, s, Look(i, f.readFails));
    if !f.readFails && Has(s.db, msg.orderId) {
      var note := UpdatedNote(s.db, msg);
      var s1 := Apply(r, s, Look(i, f.readFails));
      UpdateStep(r, s1, i, msg, k, note, f);
      OneStep(r, s1, Update(i, f.update));
      ExecAppend(r, s, steps, [Update(i, f.update)]);
      steps := steps + [Update(i, f.update)];
      if f.update.Committed? {
        var s2 := Apply(r, s1, Update(i, f.update));
        TellStep(r, s2, i, note, f);
        OneStep(r, s2, Tell(i, f.notify));
        ExecAppend(r, s, steps, [Tell(i, f.notify)]);
        steps := steps + [Tell(i, f.notify)];
      }
    }
  }

  lemma StatusAfterAfter(s: State, i: nat, w: World, pc: StatusPc)
    requires i < |s.updaters|
    ensures var t := StatusAfter(s, i, w, pc);
            && World(t.db, t.notes) == w && t.updaters[i] == pc && t.statuses == s.statuses
            && forall v: World, qc: StatusPc :: StatusAfter(t, i, v, qc) == StatusAfter(s, i, v, qc)
  {
    forall v: World, qc: StatusPc ensures StatusAfter(StatusAfter(s, i, w, pc), i, v, qc) == StatusAfter(s, i, v, qc) {
      assert s.updaters[i := pc][i := qc] == s.updaters[i := qc];
    }
  }

  /** The sequential status handler is one of the protocol's runs. */
  lemma {:induction false} StatusHandlerIsARun(r: RetryStrategy, s: State, i: nat, msg: StatusMessage,
                                               faults: nat -> StatusFaults,
                                               k: nat, lastErr: Option<Error>) returns (steps: seq<Step>)
    requires HoldsStatus(s, i) && StatusMsg(s, i) == msg && s.updaters[i] == StatusAttempt(r, k, lastErr)
    ensures Legal(r, s, steps)
    ensures var out := RetryFrom(StatusOperation(msg, faults), BACKGROUND, r, k, World(s.db, s.notes), lastErr);
            Exec(r, s, steps) == StatusAfter(s, i, out.world, Done(out.err))
    decreases r.maxAttempts - k
  {
    if k >= r.maxAttempts {
      steps := [];
    } else {
      var (next, err) := StatusOp(World(s.db, s.notes), msg, faults(k));
      steps := StatusAttemptIsARun(r, s, i, msg, k, faults(k));
      StatusRetryUnfolds(r, World(s.db, s.notes), msg, faults, k, lastErr);
      if err.Some? && ShouldRetry(r, k, err.value) {
        var s1 := Exec(r, s, steps);
        StatusAfterAfter(s, i, next, StatusAfterError(r, k, err.value));
        var rest := StatusHandlerIsARun(r, s1, i, msg, faults, k + 1, err);
        ExecAppend(r, s, steps, rest);
        steps := steps + rest;
      }
    }
  }

  lemma StatusIterationBegins(r: RetryStrategy, s: State, i: nat, msg: StatusMessage) returns (steps: seq<Step>,
      t: State)
    requires WellFormed(r, s) && CanDeliver(s.statuses, i, Json(msg))
    ensures Legal(r, s, steps) && Exec(r, s, steps) == t
    ensures t == s.(statuses := Deliver(s.statuses, i, Json(msg)), updaters := t.updaters)
    ensures |t.updaters| == |s.updaters| && i < |s.updaters| && t.updaters == s.updaters[i := StatusAttempt(r, 0, None)]
  {
    assert StatusFit(r, s.updaters[i], s.statuses.unacked[i]);
    OneStep(r, s, TakeStatus(i, Json(msg)));
    var s1 := Apply(r, s, TakeStatus(i, Json(msg)));
    OneStep(r, s1, ReadStatus(i));
    ExecAppend(r, s, [TakeStatus(i, Json(msg))], [ReadStatus(i)]);
    steps := [TakeStatus(i, Json(msg))] + [ReadStatus(i)];
    t := Apply(r, s1, ReadStatus(i));
    assert s.updaters[i := Arriving][i := StatusAttempt(r, 0, None)] == s.updaters[i := StatusAttempt(r, 0, None)];
  }

  /** Settling, at the end of an iteration that began in s. */
  lemma StatusFinishStep(r: RetryStrategy, s: State, i: nat, msg: StatusMessage, s1: State, w: World,
                         err: Option<Error>)
    requires CanDeliver(s.statuses, i, Json(msg)) && i < |s.updaters|
    requires s1 == s.(statuses := Deliver(s.statuses, i, Json(msg)),
                      updaters := s.updaters[i := StatusAttempt(r, 0, None)])
    ensures var how := if err.None? then Acked else Requeued;
            Leads(r, StatusAfter(s1, i, w, Done(err)), [FinishStatus(i)],
                  StatusAfter(s, i, w, Waiting).(statuses := Turn(s.statuses, i, Round(Json(msg), how))))
  {
    var s2 := StatusAfter(s1, i, w, Done(err));
    assert s2.updaters[i := Waiting] == s.updaters[i := Waiting];
    OneStep(r, s2, FinishStatus(i));
  }

  /** A whole iteration of the status consumer's loop, undisturbed, is a run of the protocol. */
  lemma StatusIterationIsARun(r: RetryStrategy, s: State, i: nat, msg: StatusMessage, faults: nat -> StatusFaults)
    returns (steps: seq<Step>)
    requires WellFormed(r, s) && CanDeliver(s.statuses, i, Json(msg))
    ensures Legal(r, s, steps)
    ensures var out := HandlePaymentStatus(r, World(s.db, s.notes), msg, faults);
            var how := if out.err.None? then Acked else Requeued;
            Exec(r, s, steps) == StatusAfter(s, i, out.world,
                                             Waiting).(statuses := Turn(s.statuses, i, Round(Json(msg), how)))
  {
    var begun, inside;
    var s1: State;
    begun, s1 := StatusIterationBegins(r, s, i, msg);
    inside := StatusHandlerIsARun(r, s1, i, msg, faults, 0, None);
    var out := HandlePaymentStatus(r, World(s.db, s.notes), msg, faults);
    var end := StatusAfter(s, i, out.world, Waiting)
               .(statuses := Turn(s.statuses, i, Round(Json(msg), if out.err.None? then Acked else Requeued)));
    StatusFinishStep(r, s, i, msg, s1, out.world, out.err);
    Chain(r, s, begun, s1, inside, StatusAfter(s1, i, out.world, Done(out.err)));
    Chain(r, s, begun + inside, StatusAfter(s1, i, out.world, Done(out.err)), [FinishStatus(i)], end);
    steps := begun + inside + [FinishStatus(i)];
  }
}
