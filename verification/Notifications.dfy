/** Sending notifications (internal/service/notification_service.go), alone and behind any number of consumers of the
    notifications queue. */
module Notifications {
  import opened Errors
  import opened Broker

  datatype Kind = Email | SMS | Push | Webhook | Unsupported(name: string)

  datatype NotificationStatus = Pending | Sent | Failed | Delivered

  datatype Message = Message(id: string, kind: Kind, recipient: string, subject: string, content: string)

  /** The message a handler works on: the fields it reads, and those it sets. */
  class Letter {
    const message: Message
    var status: NotificationStatus
    var sentAt: Option<int>
    var updatedAt: int

    constructor (message: Message, status: NotificationStatus, updatedAt: int)
      ensures this.message == message && this.status == status && sentAt == None && this.updatedAt == updatedAt
    {
      this.message := message;
      this.status := status;
      sentAt := None;
      this.updatedAt := updatedAt;
    }
  }

  /** What the mail server did: took the mail, did not, or took it although an error came back. */
  datatype Mailing = Took | Refused | TookWithError

  /** Only mail is ever delivered, and reported delivered only if the mail server says so. */
  predicate Delivers(m: Message, outcome: Mailing) {
    m.kind.Email? && outcome.Took?
  }

  /** What goes out. */
  function Posts(m: Message, outcome: Mailing): multiset<Message> {
    if m.kind.Email? && !outcome.Refused? then multiset{m} else multiset{}
  }

  class Service {
    var mails: multiset<Message>     // handed over to the mail server
    var consumed: nat
    var errors: nat

    constructor ()
      ensures mails == multiset{} && consumed == errors == 0
    {
      mails, consumed, errors := multiset{}, 0, 0;
    }

    /** Only mail can be sent; every other kind is an error whatever the outside does. A mail may have gone out although
        an error came back, and then the message is not marked as sent. */
    method ProcessNotification(letter: Letter, outcome: Mailing, now: int) returns (err: Option<Error>)
      modifies this, letter
      ensures err == None <==> letter.message.kind.Email? && outcome.Took?
      ensures mails == old(mails) + (if letter.message.kind.Email? && !outcome.Refused? then multiset{letter.message}
                                     else multiset{})
      ensures if err == None then letter.status == NotificationStatus.Sent && letter.sentAt == Some(now)
              && letter.updatedAt == now
              else unchanged(letter)
      ensures consumed == old(consumed) + if err == None then 1 else 0
      ensures errors == old(errors) + if err == None then 0 else 1
    {
      match letter.message.kind {
        case Email => err := SendEmail(letter, outcome, now);
        case SMS => err := Some(Plain("SMS notifications not implemented yet"));
        case Push => err := Some(Plain("push notifications not implemented yet"));
        case Webhook => err := Some(Plain("webhook notifications not implemented yet"));
        case Unsupported(name) => err := Some(Plain("unsupported notification type: " + name));
      }
      if err.Some? {
        errors := errors + 1;
      } else {
        consumed := consumed + 1;
      }
    }

    method SendEmail(letter: Letter, outcome: Mailing, now: int) returns (err: Option<Error>)
      modifies this`mails, letter
      ensures err == None <==> outcome.Took?
      ensures mails == old(mails) + (if outcome.Refused? then multiset{} else multiset{letter.message})
      ensures if err == None then letter.status == NotificationStatus.Sent && letter.sentAt == Some(now)
              && letter.updatedAt == now
              else unchanged(letter)
    {
      if !outcome.Refused? {
        mails := mails + multiset{letter.message};
      }
      if !outcome.Took? {
        return Some(Plain("failed to send email"));
      }
      letter.status := NotificationStatus.Sent;
      letter.sentAt := Some(now);
      letter.updatedAt := now;
      err := None;
    }
  }

  // ---------------------------------------------------------------------------------------
  // Behind the queue
  // ---------------------------------------------------------------------------------------

  /** Where a notification consumer is: `Mailed` has sent its mail and not yet counted it, `Over` has returned from the
      handler and not yet settled. */
  datatype Pc = Idle | Fetched | Sending | Mailed(sent: Message) | Over(done: Option<Message>)

  datatype State = State(
    queue: Queue<Message>,
    workers: seq<Pc>,
    mails: multiset<Message>,
    consumed: nat,
    crashedCounted: nat)     // consumers that crashed between counting their message and acknowledging it

  datatype Step =
    | Publish(body: Body<Message>)
    | Take(worker: nat, delivery: Body<Message>)
    | Read(worker: nat)
    | Send(worker: nat, outcome: Mailing)
    | Count(worker: nat)
    | Settle(worker: nat)
    | Crash(worker: nat)
    | Expire(body: Body<Message>)

  function Start(workers: nat): State {
    State(EmptyQueue(workers), seq(workers, i => Idle), multiset{}, 0, 0)
  }

  predicate Enabled(s: State, step: Step) {
    match step
    case Publish(_) => true
    case Take(i, b) => i < |s.workers| && s.workers[i].Idle? && CanDeliver(s.queue, i, b)
    case Read(i) => i < |s.workers| && s.workers[i].Fetched? && Busy(s.queue, i)
    case Send(i, _) => i < |s.workers| && s.workers[i].Sending? && Busy(s.queue, i) && s.queue.unacked[i].value.Json?
    case Count(i) => i < |s.workers| && s.workers[i].Mailed? && Busy(s.queue, i)
    case Settle(i) => i < |s.workers| && s.workers[i].Over? && Busy(s.queue, i)
    case Crash(i) => i < |s.workers| && Busy(s.queue, i)
    case Expire(b) => b in s.queue.ready
  }

  function Moved(s: State, i: nat, pc: Pc): State
    requires i < |s.workers|
  {
    s.(workers := s.workers[i := pc])
  }

  function Next(s: State, step: Step): State
    requires Enabled(s, step)
  {
    match step
    case Publish(b) => s.(queue := Enqueue(s.queue, b))
    case Take(i, b) => Moved(s, i, Fetched).(queue := Deliver(s.queue, i, b))
    case Read(i) =>
      if s.queue.unacked[i].value.Malformed? then Moved(s, i, Idle).(queue := Broker.Settle(s.queue, i, Dropped))
      else Moved(s, i, Sending)
    case Send(i, outcome) =>
      var m := s.queue.unacked[i].value.msg;
      if !m.kind.Email? then Moved(s, i, Over(None))
      else Moved(s, i, if outcome.Took? then Mailed(m) else Over(None)).(
             mails := s.mails + if outcome.Refused? then multiset{} else multiset{m})
    case Count(i) => Moved(s, i, Over(Some(s.workers[i].sent))).(consumed := s.consumed + 1)
    case Settle(i) =>
      if s.workers[i].done.None? then Moved(s, i, Idle).(queue := Broker.Settle(s.queue, i, Requeued))
      else Moved(s, i, Idle).(queue := Broker.Settle(s.queue, i, Acked), consumed := s.consumed + 1)
    case Crash(i) =>
      Moved(s, i, Idle).(queue := Broker.Settle(s.queue, i, Requeued),
                         crashedCounted := s.crashedCounted + if Counted(s.workers[i]) then 1 else 0)
    case Expire(b) => s.(queue := Broker.Expire(s.queue, b))
  }

  /** The handler has returned nil and counted its message. */
  predicate Counted(pc: Pc) {
    pc.Over? && pc.done.Some?
  }

  ghost predicate Legal(s: State, steps: seq<Step>)
    decreases steps
  {
    |steps| > 0 ==> Enabled(s, steps[0]) && Legal(Next(s, steps[0]), steps[1..])
  }

  ghost function Exec(s: State, steps: seq<Step>): State
    requires Legal(s, steps)
    decreases steps
  {
    if |steps| == 0 then s else Exec(Next(s, steps[0]), steps[1..])
  }

  /** The message this consumer has mailed and not yet settled. */
  ghost function Posted(pc: Pc): multiset<Message> {
    if pc.Mailed? then multiset{pc.sent} else if Counted(pc) then multiset{pc.done.value} else multiset{}
  }

  /** One mark per consumer that has counted and not yet settled. */
  ghost function Marks(pc: Pc): multiset<bool> {
    if Counted(pc) then multiset{true} else multiset{}
  }

  ghost predicate Fit(pc: Pc, slot: Option<Body<Message>>) {
    && (pc.Idle? <==> slot.None?)
    && (pc.Sending? ==> slot.value.Json?)
    && (pc.Mailed? ==> slot == Some(Json(pc.sent)) && pc.sent.kind.Email?)
    && (Counted(pc) ==> slot == Some(Json(pc.done.value)) && pc.done.value.kind.Email?)
  }

  ghost predicate WorkersFit(s: State) {
    && |s.workers| == |s.queue.unacked|
    && forall i: nat | i < |s.workers| :: Fit(s.workers[i], s.queue.unacked[i])
  }

  ghost predicate AckedWereMailed(s: State) {
    && (forall m: Message :: s.queue.acked[Json(m)] + Gather(s.workers, Posted)[m] <= s.mails[m])
    && (forall b | b in s.queue.acked :: b.Json? && b.msg.kind.Email?)
    && (forall b | b in s.queue.dropped :: b.Malformed?)
  }

  ghost predicate CountsTwice(s: State) {
    s.consumed == 2 * |s.queue.acked| + Gather(s.workers, Marks)[true] + s.crashedCounted
  }

  function MovedWorker(step: Step): Option<nat> {
    match step
    case Publish(_) => None
    case Expire(_) => None
    case _ => Some(step.worker)
  }

  lemma OneWorkerMoves(s: State, step: Step)
    requires Enabled(s, step) && WorkersFit(s)
    ensures var t := Next(s, step);
            match MovedWorker(step)
            case None => t.workers == s.workers && t.queue.unacked == s.queue.unacked
            case Some(i) =>
              && i < |s.workers|
              && |t.workers| == |s.workers| && t.workers == s.workers[i := t.workers[i]]
              && |t.queue.unacked| == |s.workers| && t.queue.unacked == s.queue.unacked[i := t.queue.unacked[i]]
              && Fit(t.workers[i], t.queue.unacked[i])
  {
  }

  lemma GatherStep<X>(s: State, step: Step, held: Pc -> multiset<X>, x: X)
    requires Enabled(s, step) && WorkersFit(s)
    ensures WorkersFit(Next(s, step))
    ensures match MovedWorker(step)
            case None => Gather(Next(s, step).workers, held)[x] == Gather(s.workers, held)[x]
            case Some(i) =>
              && i < |s.workers| == |Next(s, step).workers|
              && Gather(Next(s, step).workers, held)[x] + held(s.workers[i])[x]
              == Gather(s.workers, held)[x] + held(Next(s, step).workers[i])[x]
  {
    OneWorkerMoves(s, step);
    if MovedWorker(step).Some? {
      GatherUpdate(s.workers, held, MovedWorker(step).value, Next(s, step).workers[MovedWorker(step).value]);
    }
  }

  /** How a step changes the sinks, the counters and the mails. */
  lemma SinkStep(s: State, step: Step)
    requires Enabled(s, step) && WorkersFit(s)
    ensures var t := Next(s, step);
            && t.queue.acked == (if step.Settle? && Counted(s.workers[step.worker])
                                 then s.queue.acked + multiset{Json(s.workers[step.worker].done.value)}
                                 else s.queue.acked)
            && t.queue.dropped == (if step.Read? && s.queue.unacked[step.worker].value.Malformed?
                                   then s.queue.dropped + multiset{s.queue.unacked[step.worker].value}
                                   else s.queue.dropped)
  {
    if step.Settle? {
      assert Fit(s.workers[step.worker], s.queue.unacked[step.worker]);
    }
  }

  lemma CounterStep(s: State, step: Step)
    requires Enabled(s, step)
    ensures var t := Next(s, step);
            && t.consumed == s.consumed + (if step.Count? || (step.Settle? && Counted(s.workers[step.worker]))
                                           then 1 else 0)
            && t.crashedCounted == s.crashedCounted + (if step.Crash? && Counted(s.workers[step.worker]) then 1 else 0)
  {
  }

  lemma MailStep(s: State, step: Step)
    requires Enabled(s, step)
    ensures s.mails <= Next(s, step).mails
    ensures step.Send? ==> Posted(Next(s, step).workers[step.worker]) + s.mails <= Next(s, step).mails
  {
  }

  /** What the moved consumer has posted, before and after. */
  lemma PostedNow(s: State, step: Step, i: nat)
    requires Enabled(s, step) && WorkersFit(s) && MovedWorker(step) == Some(i)
    ensures i < |s.workers| == |Next(s, step).workers|
    ensures step.Count? ==> Posted(Next(s, step).workers[i]) == Posted(s.workers[i])
    ensures !step.Count? && !step.Send? ==> Posted(Next(s, step).workers[i]) == multiset{}
    ensures step.Send? ==> Posted(s.workers[i]) == multiset{}
  {
  }

  lemma MarkedNow(s: State, step: Step, i: nat)
    requires Enabled(s, step) && MovedWorker(step) == Some(i)
    ensures i < |s.workers| == |Next(s, step).workers|
    ensures Marks(Next(s, step).workers[i]) == if step.Count? then multiset{true} else multiset{}
  {
  }

  lemma MailedAt(s: State, step: Step, t: State, m: Message)
    requires Enabled(s, step) && WorkersFit(s) && t == Next(s, step)
    requires s.queue.acked[Json(m)] + Gather(s.workers, Posted)[m] <= s.mails[m]
    ensures t.queue.acked[Json(m)] + Gather(t.workers, Posted)[m] <= t.mails[m]
  {
    GatherStep(s, step, Posted, m);
    SinkStep(s, step);
    MailStep(s, step);
    if MovedWorker(step).Some? {
      PostedNow(s, step, MovedWorker(step).value);
    }
    assert step.Send? ==> (Posted(t.workers[step.worker]) + s.mails)[m] <= t.mails[m];
  }

  lemma SinksAt(s: State, step: Step, t: State)
    requires Enabled(s, step) && WorkersFit(s) && AckedWereMailed(s) && t == Next(s, step)
    ensures forall b | b in t.queue.acked :: b.Json? && b.msg.kind.Email?
    ensures forall b | b in t.queue.dropped :: b.Malformed?
  {
    SinkStep(s, step);
    if step.Settle? {
      assert Fit(s.workers[step.worker], s.queue.unacked[step.worker]);
    }
  }

  lemma AckedWereMailedKept(s: State, step: Step)
    requires Enabled(s, step) && WorkersFit(s) && AckedWereMailed(s)
    ensures AckedWereMailed(Next(s, step))
  {
    var t := Next(s, step);
    forall m: Message ensures t.queue.acked[Json(m)] + Gather(t.workers, Posted)[m] <= t.mails[m] {
      MailedAt(s, step, t, m);
    }
    SinksAt(s, step, t);
  }

  lemma CountsTwiceKept(s: State, step: Step)
    requires Enabled(s, step) && WorkersFit(s) && CountsTwice(s)
    ensures CountsTwice(Next(s, step))
  {
    GatherStep(s, step, Marks, true);
    SinkStep(s, step);
    CounterStep(s, step);
    if MovedWorker(step).Some? {
      MarkedNow(s, step, MovedWorker(step).value);
    }
  }

  lemma QueueConserved(s: State, step: Step)
    requires Enabled(s, step) && Conserved(s.queue)
    ensures Conserved(Next(s, step).queue)
  {
    match step {
      case Publish(b) => EnqueueConserves(s.queue, b);
      case Take(i, b) => DeliverConserves(s.queue, i, b);
      case Read(i) => SettleConserves(s.queue, i, Dropped);
      case Settle(i) => SettleConserves(s.queue, i, if s.workers[i].done.None? then Requeued else Acked);
      case Crash(i) => SettleConserves(s.queue, i, Requeued);
      case Expire(b) => ExpireConserves(s.queue, b);
      case _ =>
    }
  }

  ghost predicate Inv(s: State) {
    WorkersFit(s) && AckedWereMailed(s) && CountsTwice(s) && Conserved(s.queue)
  }

  lemma {:induction false} InvAlong(s: State, steps: seq<Step>)
    requires Inv(s) && Legal(s, steps)
    ensures Inv(Exec(s, steps))
    decreases steps
  {
    if |steps| > 0 {
      GatherStep(s, steps[0], Marks, true);
      AckedWereMailedKept(s, steps[0]);
      CountsTwiceKept(s, steps[0]);
      QueueConserved(s, steps[0]);
      InvAlong(Next(s, steps[0]), steps[1..]);
    }
  }

  lemma InvStart(workers: nat)
    ensures Inv(Start(workers))
  {
    EmptyIsConserved<Message>(workers);
    GatherNothing(Start(workers).workers, Posted);
    GatherNothing(Start(workers).workers, Marks);
  }

  /** What is neither acknowledged nor dropped is waiting, in flight, or expired. */
  lemma Unacknowledged(s: State, m: Message)
    requires Conserved(s.queue) && Json(m) !in s.queue.acked && Json(m) !in s.queue.dropped
    ensures var q := s.queue; q.published[Json(m)] == q.ready[Json(m)] + InFlight(q)[Json(m)] + q.expired[Json(m)]
  {
  }

  lemma MailedBeforeAcked(s: State, m: Message)
    requires AckedWereMailed(s)
    ensures s.queue.acked[Json(m)] <= s.mails[m]
    ensures !m.kind.Email? ==> Json(m) !in s.queue.acked && Json(m) !in s.queue.dropped
  {
    assert s.queue.acked[Json(m)] + Gather(s.workers, Posted)[m] <= s.mails[m];
  }

  lemma SettledFacts(s: State, m: Message)
    requires Inv(s)
    ensures s.queue.acked[Json(m)] <= s.mails[m]
    ensures !m.kind.Email? ==>
              s.queue.published[Json(m)] == s.queue.ready[Json(m)] + InFlight(s.queue)[Json(m)]
                  + s.queue.expired[Json(m)]
  {
    MailedBeforeAcked(s, m);
    if !m.kind.Email? {
      Unacknowledged(s, m);
    }
  }

  lemma InvOfRun(workers: nat, steps: seq<Step>, s: State)
    requires Legal(Start(workers), steps) && s == Exec(Start(workers), steps)
    ensures Inv(s)
  {
    InvStart(workers);
    InvAlong(Start(workers), steps);
  }

  lemma InvMeans(s: State)
    requires Inv(s)
    ensures Conserved(s.queue)
    ensures forall b | b in s.queue.acked :: b.Json? && b.msg.kind.Email?
    ensures forall b | b in s.queue.dropped :: b.Malformed?
    ensures s.consumed == 2 * |s.queue.acked| + Gather(s.workers, Marks)[true] + s.crashedCounted
  {
  }

  /** Over every run of any number of consumers: no copy is lost or duplicated, and only unreadable bodies are
      dropped; each message has been mailed at least as often as acknowledged; only mail is ever acknowledged, so
      every other kind is still waiting, in flight, or expired; and the consumed counter is twice the
      acknowledgements, plus one for every consumer that has counted its message and not settled it, or crashed in
      between. */
  lemma NotificationsSettle(workers: nat, steps: seq<Step>, m: Message, s: State)
    requires Legal(Start(workers), steps) && s == Exec(Start(workers), steps)
    ensures Conserved(s.queue)
    ensures forall b | b in s.queue.acked :: b.Json? && b.msg.kind.Email?
    ensures forall b | b in s.queue.dropped :: b.Malformed?
    ensures s.queue.acked[Json(m)] <= s.mails[m]
    ensures !m.kind.Email? ==>
              s.queue.published[Json(m)] == s.queue.ready[Json(m)] + InFlight(s.queue)[Json(m)]
                  + s.queue.expired[Json(m)]
    ensures s.consumed == 2 * |s.queue.acked| + Gather(s.workers, Marks)[true] + s.crashedCounted
  {
    InvOfRun(workers, steps, s);
    InvMeans(s);
    SettledFacts(s, m);
  }

  /** In a run without crashes the counter of a system at rest is exactly twice the acknowledgements, because the
      handler and the consumer both increment it. */
  lemma CounterDoubles(workers: nat, steps: seq<Step>, s: State)
    requires Legal(Start(workers), steps) && s == Exec(Start(workers), steps)
    requires forall k: nat | k < |steps| :: !steps[k].Crash?
    requires forall i: nat | i < |s.workers| :: s.workers[i].Idle?
    ensures s.consumed == 2 * |s.queue.acked|
  {
    NotificationsSettle(workers, steps, Message("", Email, "", "", ""), s);
    NoCrashesCounted(Start(workers), steps);
    NobodyMarks(s.workers);
  }

  lemma NobodyMarks(workers: seq<Pc>)
    requires forall i: nat | i < |workers| :: workers[i].Idle?
    ensures Gather(workers, Marks) == multiset{}
  {
    GatherNothing(workers, Marks);
  }

  lemma {:induction false} NoCrashesCounted(s: State, steps: seq<Step>)
    requires Legal(s, steps) && (forall k: nat | k < |steps| :: !steps[k].Crash?)
    ensures Exec(s, steps).crashedCounted == s.crashedCounted
    decreases steps
  {
    if |steps| > 0 {
      forall k: nat | k < |steps[1..]| ensures !steps[1..][k].Crash? {
        assert !steps[k + 1].Crash?;
      }
      NoCrashesCounted(Next(s, steps[0]), steps[1..]);
    }
  }

  // ---------------------------------------------------------------------------------------
  // One consumer left alone
  // ---------------------------------------------------------------------------------------

  lemma Then(s: State, steps: seq<Step>, last: Step)
    requires Legal(s, steps) && Enabled(Exec(s, steps), last)
    ensures Legal(s, steps + [last]) && Exec(s, steps + [last]) == Next(Exec(s, steps), last)
    decreases steps
  {
    if |steps| > 0 {
      assert (steps + [last])[1..] == steps[1..] + [last];
      Then(Next(s, steps[0]), steps[1..], last);
    } else {
      assert (steps + [last])[1..] == [];
      assert Legal(Next(s, last), []);
    }
  }

  /** What is not mail leaves its queue only by expiring, and it can. */
  lemma ExpiryLosesTheMessage(m: Message) returns (steps: seq<Step>)
    ensures Legal(Start(0), steps)
    ensures var s := Exec(Start(0), steps);
            s.queue.ready == multiset{} && s.queue.published == multiset{Json(m)} == s.queue.expired && |s.mails| == 0
  {
    assert Legal(Start(0), []);
    Then(Start(0), [], Publish(Json(m)));
    steps := [] + [Publish(Json(m))];
    Then(Start(0), steps, Expire(Json(m)));
    steps := steps + [Expire(Json(m))];
  }

  /** The state with worker i at pc, and these mails and counts. */
  function After(s: State, i: nat, pc: Pc, q: Queue<Message>, posted: multiset<Message>, counted: nat): State
    requires i < |s.workers|
  {
    s.(queue := q, workers := s.workers[i := pc], mails := s.mails + posted, consumed := s.consumed + counted)
  }

  /** Taking a message off the queue and reading it. */
  lemma Fetching(s: State, i: nat, m: Message) returns (steps: seq<Step>)
    requires i < |s.workers| && s.workers[i].Idle? && CanDeliver(s.queue, i, Json(m))
    ensures Legal(s, steps) && Exec(s, steps) == After(s, i, Sending, Deliver(s.queue, i, Json(m)), multiset{}, 0)
  {
    assert Legal(s, []);
    Then(s, [], Take(i, Json(m)));
    steps := [] + [Take(i, Json(m))];
    Then(s, steps, Read(i));
    steps := steps + [Read(i)];
    assert s.workers[i := Fetched][i := Sending] == s.workers[i := Sending];
  }

  /** The handler's steps. */
  lemma Handling(s: State, i: nat, m: Message, outcome: Mailing) returns (steps: seq<Step>)
    requires i < |s.workers| && s.workers[i].Sending? && Busy(s.queue, i) && s.queue.unacked[i] == Some(Json(m))
    ensures Legal(s, steps)
    ensures var ok := Delivers(m, outcome);
            Exec(s, steps) == After(s, i, Over(if ok then Some(m) else None), s.queue, Posts(m, outcome),
                                    if ok then 1 else 0)
  {
    assert Legal(s, []);
    Then(s, [], Send(i, outcome));
    steps := [] + [Send(i, outcome)];
    if Delivers(m, outcome) {
      Then(s, steps, Count(i));
      steps := steps + [Count(i)];
      assert s.workers[i := Mailed(m)][i := Over(Some(m))] == s.workers[i := Over(Some(m))];
    }
    assert s.mails + multiset{} == s.mails;
  }

  lemma {:induction false} Append(s: State, xs: seq<Step>, ys: seq<Step>)
    requires Legal(s, xs) && Legal(Exec(s, xs), ys)
    ensures Legal(s, xs + ys) && Exec(s, xs + ys) == Exec(Exec(s, xs), ys)
    decreases xs
  {
    if |xs| == 0 {
      assert xs + ys == ys;
    } else {
      assert (xs + ys)[1..] == xs[1..] + ys;
      Append(Next(s, xs[0]), xs[1..], ys);
    }
  }

  lemma AfterTwice(s: State, i: nat, pc: Pc, q: Queue<Message>, posted: multiset<Message>, k: nat,
                   end: Pc, rest: Queue<Message>, more: multiset<Message>, n: nat)
    requires i < |s.workers| && (posted == multiset{} || more == multiset{})
    ensures After(After(s, i, pc, q, posted, k), i, end, rest, more, n)
            == After(s, i, end, rest, if posted == multiset{} then more else posted, k + n)
  {
    assert s.workers[i := pc][i := end] == s.workers[i := end];
    assert s.mails + posted + more == s.mails + if posted == multiset{} then more else posted;
  }

  /** Taking the message and handling it. */
  lemma FetchAndHandle(s: State, i: nat, m: Message, outcome: Mailing) returns (steps: seq<Step>)
    requires i < |s.workers| && s.workers[i].Idle? && CanDeliver(s.queue, i, Json(m))
    ensures Legal(s, steps)
    ensures var ok := Delivers(m, outcome);
            Exec(s, steps) == After(s, i, Over(if ok then Some(m) else None), Deliver(s.queue, i, Json(m)),
                                    Posts(m, outcome), if ok then 1 else 0)
  {
    var ok, q := Delivers(m, outcome), Deliver(s.queue, i, Json(m));
    var fetch := Fetching(s, i, m);
    var handle := Handling(After(s, i, Sending, q, multiset{}, 0), i, m, outcome);
    Append(s, fetch, handle);
    AfterTwice(s, i, Sending, q, multiset{}, 0, Over(if ok then Some(m) else None), q, Posts(m, outcome),
               if ok then 1 else 0);
    steps := fetch + handle;
  }

  lemma Settling(s: State, i: nat, done: Option<Message>)
    requires i < |s.workers| && s.workers[i] == Over(done) && Busy(s.queue, i)
    ensures Enabled(s, Settle(i))
    ensures Next(s, Settle(i)) == After(s, i, Idle, Broker.Settle(s.queue, i, if done.Some? then Acked else Requeued),
                                        multiset{},
                                        if done.Some? then 1 else 0)
  {
    assert s.mails + multiset{} == s.mails;
  }

  lemma HandledAndSettled(s: State, i: nat, m: Message, outcome: Mailing) returns (steps: seq<Step>)
    requires i < |s.workers| && s.workers[i].Idle? && CanDeliver(s.queue, i, Json(m))
    ensures Legal(s, steps)
    ensures var ok := Delivers(m, outcome);
            Exec(s, steps) == After(s, i, Idle, Turn(s.queue, i, Round(Json(m), if ok then Acked else Requeued)),
                                    Posts(m, outcome), if ok then 2 else 0)
  {
    var done := if Delivers(m, outcome) then Some(m) else None;
    var q, k := Deliver(s.queue, i, Json(m)), if Delivers(m, outcome) then 1 else 0;
    steps := FetchAndHandle(s, i, m, outcome);
    Settling(After(s, i, Over(done), q, Posts(m, outcome), k), i, done);
    Then(s, steps, Settle(i));
    AfterTwice(s, i, Over(done), q, Posts(m, outcome), k, Idle,
               Turn(s.queue, i, Round(Json(m), if done.Some? then Acked else Requeued)), multiset{}, k);
    steps := steps + [Settle(i)];
  }

  /** An undisturbed iteration of the consumer loop around ProcessNotification is a run: the queue takes the loop's
      turn, the mails are those of the handler, and a delivered message is counted by the handler and by the loop. */
  lemma IterationIsARun(s: State, i: nat, m: Message, outcome: Mailing) returns (steps: seq<Step>)
    requires i < |s.workers| && s.workers[i].Idle? && CanDeliver(s.queue, i, Json(m))
    ensures Legal(s, steps)
    ensures var ok := m.kind.Email? && outcome.Took?;
            var t := Exec(s, steps);
            && t.queue == Turn(s.queue, i, Round(Json(m), if ok then Acked else Requeued))
            && t.workers == s.workers && t.crashedCounted == s.crashedCounted
            && t.mails == s.mails + (if m.kind.Email? && !outcome.Refused? then multiset{m} else multiset{})
            && t.consumed == s.consumed + if ok then 2 else 0
  {
    steps := HandledAndSettled(s, i, m, outcome);
    assert s.workers[i := Idle] == s.workers;
  }

  /** And so is one that meets a body it cannot read. */
  lemma UnreadableIterationIsARun(s: State, i: nat, raw: string) returns (steps: seq<Step>)
    requires i < |s.workers| && s.workers[i].Idle? && CanDeliver(s.queue, i, Malformed(raw))
    ensures Legal(s, steps)
    ensures Exec(s, steps) == s.(queue := Turn(s.queue, i, Round(Malformed(raw), Dropped)))
  {
    assert Legal(s, []);
    Then(s, [], Take(i, Malformed(raw)));
    steps := [] + [Take(i, Malformed(raw))];
    Then(s, steps, Read(i));
    steps := steps + [Read(i)];
    assert s.workers[i := Fetched][i := Idle] == s.workers;
  }
}
