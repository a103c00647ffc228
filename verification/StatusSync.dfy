/** The dual write of payment statuses: HandleWebhook and GetPaymentStatus save a status to the row and then publish
    it, while a consumer writes queued statuses to the same rows, ignoring the old status they carry.

    One first-in-first-out status queue with one active consumer, as section 4.7 of AMQP 0-9-1 orders deliveries;
    a delivery that fails, or whose consumer dies before acknowledging it, is back at the head. Messages that wait may
    expire. Service writes of one order do not overlap, but the consumer, expiry and the writes of other orders go on
    between a save and its publication. */
module StatusSync {
  import opened Errors
  import opened Models
  import opened Retry
  import opened Broker
  import opened AsyncService
  import opened PaymentService

  /** A service write under way: the status saved, and how many copies its retried publication has enqueued. */
  datatype Writing = Writing(status: Status, copies: nat)

  datatype State = State(
    db: Table,
    queue: seq<StatusMessage>,        // ready, and the head perhaps delivered
    applied: bool,                    // the head's update has been reported done; only its ack is missing
    writing: map<OrderId, Writing>,
    last: map<OrderId, Status>)       // the status each order was last given by the service

  datatype Step =
    | Save(row: Row)                              // db.Save took effect
    | Publish(order: OrderId, previous: Status)   // a copy reached the queue
    | End(order: OrderId)                         // the publication returned, nil or not, or the process died
    | Apply(reported: bool)                       // the consumer's update of the head commits
    | Ack
    | Redeliver                                   // the consumer died between the two
    | Expire(index: nat)                          // the TTL takes a message that waits
    | Record(row: Row)                            // the payment consumer inserts a row

  function Start(db: Table): State {
    State(db, [], false, map[], map[])
  }

  predicate Enabled(s: State, step: Step) {
    match step
    case Save(row) => row.Identified() && row.orderId !in s.writing && Has(s.db, row.orderId)
        && Find(s.db, row.orderId).value.id == row.id
    case Publish(o, _) => o in s.writing
    case End(o) => o in s.writing
    case Apply(_) => |s.queue| > 0 && !s.applied && Has(s.db, s.queue[0].orderId)
    case Ack => |s.queue| > 0 && s.applied
    case Redeliver => |s.queue| > 0 && s.applied
    case Expire(k) => k < |s.queue| && (k == 0 ==> !s.applied)
    case Record(row) => row.Identified() && !Has(s.db, row.orderId)
  }

  function Next(s: State, step: Step): State
    requires Enabled(s, step)
  {
    match step
    case Save(row) =>
      s.(db := SaveRow(s.db, row, Committed).0, writing := s.writing[row.orderId := Writing(row.status, 0)],
         last := s.last[row.orderId := row.status])
    case Publish(o, previous) =>
      var w := s.writing[o];
      s.(queue := s.queue + [StatusMessage(o, previous, w.status)],
         writing := s.writing[o := w.(copies := w.copies + 1)])
    case End(o) => s.(writing := s.writing - {o})
    case Apply(reported) => s.(db := SetStatus(s.db, s.queue[0].orderId, s.queue[0].newStatus), applied := reported)
    case Ack => s.(queue := s.queue[1..], applied := false)
    case Redeliver => s.(applied := false)
    case Expire(k) => s.(queue := Without(s.queue, k))
    case Record(row) => s.(db := s.db + [row])
  }

  function Without(q: seq<StatusMessage>, k: nat): seq<StatusMessage>
    requires k < |q|
  {
    q[..k] + q[k + 1..]
  }

  ghost predicate Legal(s: State, steps: seq<Step>)
    decreases steps
  {
    |steps| > 0 ==> Enabled(s, steps[0]) && Legal(Next(s, steps[0]), steps[1..])
  }

  ghost function Exec(s: State, steps: seq<Step>): State
    requires Legal(s, steps)
    decreases steps
  {
    if |steps| == 0 then s else Exec(Next(s, steps[0]), steps[1..])
  }

  predicate ByConsumer(step: Step) {
    step.Apply? || step.Ack? || step.Redeliver?
  }

  /** The status the last message for order o carries. */
  function LastFor(q: seq<StatusMessage>, o: OrderId): Option<Status> {
    if |q| == 0 then None
    else if q[|q| - 1].orderId == o then Some(q[|q| - 1].newStatus)
    else LastFor(q[..|q| - 1], o)
  }

  /** Where order o's status is heading: its last message that is not acknowledged, or the row if there is none. */
  function Heading(s: State, o: OrderId): Option<Status> {
    match LastFor(s.queue, o)
    case Some(st) => Some(st)
    case None => if Has(s.db, o) then Some(Find(s.db, o).value.status) else None
  }

  /** Acknowledging the head would not lose a status of order o: the row has it, or another message for o follows. */
  predicate Reflected(s: State, o: OrderId) {
    s.applied && |s.queue| > 0 && s.queue[0].orderId == o ==>
      || LastFor(s.queue[1..], o).Some?
      || (Has(s.db, o) && Find(s.db, o).value.status == s.queue[0].newStatus)
  }

  lemma {:induction false} LastForHead(q: seq<StatusMessage>, o: OrderId)
    requires |q| > 0
    ensures LastFor(q, o) == match LastFor(q[1..], o)
                             case Some(st) => Some(st)
                             case None => if q[0].orderId == o then Some(q[0].newStatus) else None
  {
    if |q| > 1 {
      assert q[..|q| - 1][1..] == q[1..][..|q| - 2];
      LastForHead(q[..|q| - 1], o);
    }
  }

  lemma LastForAppend(q: seq<StatusMessage>, m: StatusMessage, o: OrderId)
    ensures LastFor(q + [m], o) == if m.orderId == o then Some(m.newStatus) else LastFor(q, o)
  {
    assert (q + [m])[..|q|] == q;
  }

  lemma {:induction false} LastForConcat(p: seq<StatusMessage>, q: seq<StatusMessage>, o: OrderId)
    ensures LastFor(p + q, o) == if LastFor(q, o).Some? then LastFor(q, o) else LastFor(p, o)
  {
    if |q| == 0 {
      assert p + q == p;
    } else {
      var n := |q| - 1;
      LastForConcat(p, q[..n], o);
      assert p + q == (p + q[..n]) + [q[n]];
      LastForAppend(p + q[..n], q[n], o);
    }
  }

  /** The message at k is not followed by another for its order. */
  predicate IsLast(q: seq<StatusMessage>, k: nat)
    requires k < |q|
  {
    LastFor(q[k + 1..], q[k].orderId).None?
  }

  /** Taking out a message that is not its order's last changes no order's last. */
  lemma LastForWithout(q: seq<StatusMessage>, k: nat, o: OrderId)
    requires k < |q|
    ensures q[k].orderId != o || !IsLast(q, k) ==> LastFor(Without(q, k), o) == LastFor(q, o)
    ensures q[k].orderId == o && IsLast(q, k) ==> LastFor(q, o) == Some(q[k].newStatus)
  {
    assert q == q[..k] + q[k..];
    LastForConcat(q[..k], q[k..], o);
    LastForConcat(q[..k], q[k + 1..], o);
    LastForHead(q[k..], o);
    assert q[k..][1..] == q[k + 1..];
  }

  /** Whatever the consumer does, failed updates, repetitions and redeliveries included, leaves an order's heading
      where it was, except when it acknowledges an applied status that the service has overwritten since and not yet
      followed by a message. */
  lemma ConsumerKeepsHeading(s: State, step: Step, o: OrderId)
    requires Enabled(s, step) && ByConsumer(step)
    ensures Heading(Next(s, step), o) == Heading(s, o) <==> !step.Ack? || Reflected(s, o)
    ensures Reflected(s, o) ==> Reflected(Next(s, step), o)
  {
    LastForHead(s.queue, o);
    if step.Apply? {
      FindAfterSetStatus(s.db, s.queue[0].orderId, s.queue[0].newStatus, o);
    }
  }

  // ---------------------------------------------------------------------------------------
  // Continuations in which the service leaves an order alone
  // ---------------------------------------------------------------------------------------

  ghost predicate Sound(s: State) {
    UniqueOrders(s.db) && AllIdentified(s.db) && (s.applied ==> |s.queue| > 0)
  }

  lemma SoundKept(s: State, step: Step)
    requires Sound(s) && Enabled(s, step)
    ensures Sound(Next(s, step))
  {
    match step {
      case Save(row) => FindAfterUpsert(s.db, row, row.orderId);
      case Apply(_) =>
        SetStatusKeepsOrders(s.db, s.queue[0].orderId, s.queue[0].newStatus);
        SetStatusRows(s.db, s.queue[0].orderId, s.queue[0].newStatus);
      case Record(row) => WritesKeepUnique(s.db, row, "", Pending);
      case _ =>
    }
  }

  /** The step is not the service saving or announcing a status of order o. */
  predicate LeavesAlone(step: Step, o: OrderId) {
    match step
    case Save(row) => row.orderId != o
    case Publish(p, _) => p != o
    case _ => true
  }

  ghost predicate AllLeaveAlone(steps: seq<Step>, o: OrderId) {
    forall k: nat | k < |steps| :: LeavesAlone(steps[k], o)
  }

  /** The message at k expires as its order's last, and its status is not what the order is left with: the row's, and
      that of the message that is then the last, if there is one. */
  predicate LosesMessage(s: State, k: nat)
    requires k < |s.queue|
  {
    var m := s.queue[k];
    && IsLast(s.queue, k)
    && !(&& Has(s.db, m.orderId) && Find(s.db, m.orderId).value.status == m.newStatus
         && LastFor(Without(s.queue, k), m.orderId) in {None, Some(m.newStatus)})
  }

  /** Nor does it lose one of its messages. */
  predicate Quiet(s: State, step: Step, o: OrderId) {
    && LeavesAlone(step, o)
    && (step.Expire? && step.index < |s.queue| && s.queue[step.index].orderId == o ==> !LosesMessage(s, step.index))
  }

  ghost predicate AllQuiet(s: State, steps: seq<Step>, o: OrderId)
    requires Legal(s, steps)
    decreases steps
  {
    |steps| > 0 ==> Quiet(s, steps[0], o) && AllQuiet(Next(s, steps[0]), steps[1..], o)
  }

  lemma RowsStay(s: State, step: Step, o: OrderId)
    requires Sound(s) && Enabled(s, step) && Has(s.db, o)
    ensures Has(Next(s, step).db, o)
  {
    match step {
      case Save(row) => FindAfterUpsert(s.db, row, o);
      case Apply(_) => FindAfterSetStatus(s.db, s.queue[0].orderId, s.queue[0].newStatus, o);
      case Record(row) => FindAfterInsert(s.db, row, o);
      case _ =>
    }
  }

  lemma TableKeepsHeading(s: State, t: State, o: OrderId)
    requires t.queue == s.queue && t.applied == s.applied && Find(t.db, o) == Find(s.db, o)
    ensures Heading(t, o) == Heading(s, o) && Reflected(t, o) == Reflected(s, o)
  {
  }

  lemma OtherPublishKeepsHeading(s: State, p: OrderId, previous: Status, o: OrderId)
    requires Sound(s) && Enabled(s, Publish(p, previous)) && p != o
    ensures var t := Next(s, Publish(p, previous));
            Heading(t, o) == Heading(s, o) && (Reflected(s, o) ==> Reflected(t, o))
  {
    var m := StatusMessage(p, previous, s.writing[p].status);
    LastForAppend(s.queue, m, o);
    if |s.queue| > 0 {
      assert (s.queue + [m])[1..] == s.queue[1..] + [m];
      LastForAppend(s.queue[1..], m, o);
    }
  }

  lemma ExpiryKeepsHeading(s: State, k: nat, o: OrderId)
    requires Enabled(s, Expire(k)) && Quiet(s, Expire(k), o) && Reflected(s, o)
    ensures var t := Next(s, Expire(k)); Heading(t, o) == Heading(s, o) && Reflected(t, o)
  {
    LastForWithout(s.queue, k, o);
    if s.applied {
      var rest := s.queue[1..];
      assert rest[(k - 1) + 1..] == s.queue[k + 1..];
      LastForWithout(rest, k - 1, o);
      assert Without(s.queue, k)[1..] == Without(rest, k - 1);
      LastForHead(Without(s.queue, k), o);
    }
  }

  lemma OthersKeepHeading(s: State, step: Step, o: OrderId)
    requires Sound(s) && Enabled(s, step) && Quiet(s, step, o) && Has(s.db, o) && Reflected(s, o)
    ensures Has(Next(s, step).db, o) && Heading(Next(s, step), o) == Heading(s, o) && Reflected(Next(s, step), o)
  {
    RowsStay(s, step, o);
    match step {
      case Publish(p, previous) => OtherPublishKeepsHeading(s, p, previous, o);
      case Save(row) =>
        FindAfterUpsert(s.db, row, o);
        TableKeepsHeading(s, Next(s, step), o);
      case Record(row) =>
        FindAfterInsert(s.db, row, o);
        TableKeepsHeading(s, Next(s, step), o);
      case End(_) =>
      case Expire(k) => ExpiryKeepsHeading(s, k, o);
      case _ => ConsumerKeepsHeading(s, step, o);
    }
  }

  /** Once no message for the order is left, its row has the status it was heading for: from any state in which
      acknowledging the head would not lose that status, and whatever the consumer, the payment consumer, expiry of
      other messages and the service's writes of other orders did meanwhile. */
  lemma {:induction false} DrainEndsAtHeading(s: State, steps: seq<Step>, o: OrderId)
    requires Sound(s) && Legal(s, steps) && AllQuiet(s, steps, o) && Has(s.db, o) && Reflected(s, o)
    ensures Has(Exec(s, steps).db, o) && Heading(Exec(s, steps), o) == Heading(s, o)
    ensures LastFor(Exec(s, steps).queue, o).None? ==> Some(Find(Exec(s, steps).db, o).value.status) == Heading(s, o)
    decreases steps
  {
    if |steps| > 0 {
      OthersKeepHeading(s, steps[0], o);
      SoundKept(s, steps[0]);
      DrainEndsAtHeading(Next(s, steps[0]), steps[1..], o);
    }
  }

  // ---------------------------------------------------------------------------------------
  // Convergence
  // ---------------------------------------------------------------------------------------

  /** The service has saved a status that no copy of its message follows yet. */
  predicate Unpublished(s: State, o: OrderId) {
    o in s.writing && s.writing[o].copies == 0
  }

  /** The step ends a write of whose message no copy reached the queue, or loses a message. */
  predicate Loses(s: State, step: Step) {
    || (step.End? && Unpublished(s, step.order))
    || (step.Expire? && step.index < |s.queue| && LosesMessage(s, step.index))
  }

  ghost predicate NothingLost(s: State, steps: seq<Step>)
    requires Legal(s, steps)
    decreases steps
  {
    |steps| > 0 ==> !Loses(s, steps[0]) && NothingLost(Next(s, steps[0]), steps[1..])
  }

  ghost predicate InSync(s: State) {
    && Sound(s)
    && (forall o | o in s.writing :: o in s.last && s.writing[o].status == s.last[o])
    && (forall o | o in s.last ::
          Has(s.db, o) && (Unpublished(s, o) || (Heading(s, o) == Some(s.last[o]) && Reflected(s, o))))
  }

  lemma PublishHeads(s: State, o: OrderId, previous: Status)
    requires Sound(s) && Enabled(s, Publish(o, previous))
    ensures var t := Next(s, Publish(o, previous));
            Heading(t, o) == Some(s.writing[o].status) && Reflected(t, o)
  {
    var m := StatusMessage(o, previous, s.writing[o].status);
    LastForAppend(s.queue, m, o);
    if |s.queue| > 0 {
      assert (s.queue + [m])[1..] == s.queue[1..] + [m];
      LastForAppend(s.queue[1..], m, o);
    }
  }

  lemma InSyncKept(s: State, step: Step)
    requires InSync(s) && Enabled(s, step) && !Loses(s, step)
    ensures InSync(Next(s, step))
  {
    var t := Next(s, step);
    SoundKept(s, step);
    forall o | o in t.last
      ensures Has(t.db, o) && (Unpublished(t, o) || (Heading(t, o) == Some(t.last[o]) && Reflected(t, o)))
    {
      RowsStay(s, step, o);
      if step.Publish? && step.order == o {
        PublishHeads(s, o, step.previous);
      } else if !LeavesAlone(step, o) {
        assert Unpublished(t, o);
      } else if !Unpublished(s, o) {
        OthersKeepHeading(s, step, o);
      }
    }
  }

  lemma {:induction false} InSyncAlong(s: State, steps: seq<Step>)
    requires InSync(s) && Legal(s, steps) && NothingLost(s, steps)
    ensures InSync(Exec(s, steps))
    decreases steps
  {
    if |steps| > 0 {
      InSyncKept(s, steps[0]);
      InSyncAlong(Next(s, steps[0]), steps[1..]);
    }
  }

  /** In every run in which each of the service's writes got a copy of its message into the queue and no order's last
      message expired with a status of its own, through failed and repeated updates, consumers that die before
      acknowledging and expiry of other messages: once that copy is there, either no message for the order is left and
      its row holds the status the service wrote last, or the last message carries that status; and in every such
      continuation in which the service leaves the order alone, once the order's messages have drained, the row holds
      it. */
  lemma StatusesConverge(db: Table, steps: seq<Step>, more: seq<Step>, o: OrderId)
    requires UniqueOrders(db) && AllIdentified(db)
    requires Legal(Start(db), steps) && NothingLost(Start(db), steps)
    requires var s := Exec(Start(db), steps);
             o in s.last && !Unpublished(s, o) && Legal(s, more) && AllQuiet(s, more, o)
    ensures var s := Exec(Start(db), steps);
            && Has(s.db, o)
            && (match LastFor(s.queue, o)
                case None => Find(s.db, o).value.status == s.last[o]
                case Some(st) => st == s.last[o])
            && (LastFor(Exec(s, more).queue, o).None? ==>
                  Has(Exec(s, more).db, o) && Find(Exec(s, more).db, o).value.status == s.last[o])
  {
    var s := Exec(Start(db), steps);
    InSyncAlong(Start(db), steps);
    DrainEndsAtHeading(s, more, o);
  }

  // ---------------------------------------------------------------------------------------
  // When the publication fails
  // ---------------------------------------------------------------------------------------

  /** In every continuation in which the service leaves the order alone, whatever expires, once the order's messages
      have drained its row has the status. */
  ghost predicate StillConverges(t: State, o: OrderId, st: Status) {
    forall more: seq<Step> | Legal(t, more) && AllLeaveAlone(more, o) && LastFor(Exec(t, more).queue, o).None? ::
      Has(Exec(t, more).db, o) && Find(Exec(t, more).db, o).value.status == st
  }

  /** Every message for the order carries the status. */
  ghost predicate AllCarry(q: seq<StatusMessage>, o: OrderId, st: Status) {
    forall k: nat | k < |q| && q[k].orderId == o :: q[k].newStatus == st
  }

  ghost predicate Uniform(s: State, o: OrderId, st: Status) {
    Has(s.db, o) && Find(s.db, o).value.status == st && AllCarry(s.queue, o, st)
  }

  lemma UniformKept(s: State, step: Step, o: OrderId, st: Status)
    requires Sound(s) && Enabled(s, step) && LeavesAlone(step, o) && Uniform(s, o, st)
    ensures Uniform(Next(s, step), o, st)
  {
    match step {
      case Save(row) => FindAfterUpsert(s.db, row, o);
      case Apply(_) => FindAfterSetStatus(s.db, s.queue[0].orderId, s.queue[0].newStatus, o);
      case Record(row) => FindAfterInsert(s.db, row, o);
      case _ =>
    }
  }

  lemma {:induction false} UniformAlong(s: State, steps: seq<Step>, o: OrderId, st: Status)
    requires Sound(s) && Legal(s, steps) && AllLeaveAlone(steps, o) && Uniform(s, o, st)
    ensures Uniform(Exec(s, steps), o, st)
    decreases steps
  {
    if |steps| > 0 {
      UniformKept(s, steps[0], o, st);
      SoundKept(s, steps[0]);
      forall k: nat | k < |steps[1..]| ensures LeavesAlone(steps[1..][k], o) {
        assert LeavesAlone(steps[k + 1], o);
      }
      UniformAlong(Next(s, steps[0]), steps[1..], o, st);
    }
  }

  lemma {:induction false} Append(s: State, xs: seq<Step>, ys: seq<Step>)
    requires Legal(s, xs) && Legal(Exec(s, xs), ys)
    ensures Legal(s, xs + ys) && Exec(s, xs + ys) == Exec(Exec(s, xs), ys)
    ensures NothingLost(s, xs) && NothingLost(Exec(s, xs), ys) ==> NothingLost(s, xs + ys)
    decreases xs
  {
    if |xs| == 0 {
      assert xs + ys == ys;
    } else {
      assert (xs + ys)[1..] == xs[1..] + ys;
      Append(Next(s, xs[0]), xs[1..], ys);
    }
  }

  lemma Single(s: State, step: Step)
    requires Enabled(s, step)
    ensures Legal(s, [step]) && Exec(s, [step]) == Next(s, step) && (NothingLost(s, [step]) <==> !Loses(s, step))
  {
    assert [step][1..] == [];
    assert Legal(Next(s, step), []);
  }

  /** A run and one more step. */
  lemma Then(s: State, steps: seq<Step>, step: Step)
    requires Legal(s, steps) && Enabled(Exec(s, steps), step)
    ensures Legal(s, steps + [step]) && Exec(s, steps + [step]) == Next(Exec(s, steps), step)
  {
    Single(Exec(s, steps), step);
    Append(s, steps, [step]);
  }

  ghost predicate OnlyExpiry(steps: seq<Step>) {
    forall k: nat | k < |steps| :: steps[k].Expire?
  }

  /** Everything but one message expires. */
  lemma {:induction false} Isolate(s: State, k: nat) returns (steps: seq<Step>)
    requires !s.applied && k < |s.queue|
    ensures Legal(s, steps) && Exec(s, steps) == s.(queue := [s.queue[k]]) && OnlyExpiry(steps)
    decreases |s.queue|
  {
    if |s.queue| == 1 {
      steps := [];
    } else {
      var step := Expire(if k < |s.queue| - 1 then |s.queue| - 1 else 0);
      var rest := Isolate(Next(s, step), if k < |s.queue| - 1 then k else k - 1);
      Single(s, step);
      Append(s, [step], rest);
      steps := [step] + rest;
    }
  }

  /** Any message for an order with a row can be the one that its row is left with. */
  lemma LeftWith(t: State, k: nat) returns (more: seq<Step>)
    requires Sound(t) && k < |t.queue| && Has(t.db, t.queue[k].orderId)
    ensures Legal(t, more) && Exec(t, more).queue == [] && (forall o: OrderId :: AllLeaveAlone(more, o))
    ensures Exec(t, more).db == SetStatus(t.db, t.queue[k].orderId, t.queue[k].newStatus)
  {
    more := [];
    if t.applied {
      Single(t, Redeliver);
      more := [Redeliver];
    }
    var u := Exec(t, more);
    var alone := Isolate(u, k);
    Append(t, more, alone);
    more := more + alone;
    Then(t, more, Apply(true));
    more := more + [Apply(true)];
    Then(t, more, Ack);
    more := more + [Ack];
  }

  /** After a save that no message follows, that is so exactly when, before the save, every unacknowledged message for
      the order already carried the saved status. */
  lemma AbandonedWriteConvergesIff(s: State, row: Row)
    requires Sound(s) && Enabled(s, Save(row))
    ensures var o := row.orderId;
            StillConverges(Next(Next(s, Save(row)), End(o)), o, row.status) <==> AllCarry(s.queue, o, row.status)
  {
    var o, st := row.orderId, row.status;
    var t := Next(Next(s, Save(row)), End(o));
    SoundKept(s, Save(row));
    FindAfterUpsert(s.db, row, o);
    if AllCarry(s.queue, o, st) {
      forall more: seq<Step> | Legal(t, more) && AllLeaveAlone(more, o) && LastFor(Exec(t, more).queue, o).None?
        ensures Has(Exec(t, more).db, o) && Find(Exec(t, more).db, o).value.status == st
      {
        UniformAlong(t, more, o, st);
      }
    } else {
      var k: nat :| k < |s.queue| && s.queue[k].orderId == o && s.queue[k].newStatus != st;
      var more := LeftWith(t, k);
      FindAfterSetStatus(t.db, o, t.queue[k].newStatus, o);
      assert Legal(t, more) && AllLeaveAlone(more, o) && LastFor(Exec(t, more).queue, o).None?;
    }
  }

  lemma OneRowSaved(row: Row, st: Status)
    ensures SaveRow([row], row.(status := st), Committed).0 == [row.(status := st)]
  {
    assert IndexOfId([row], row.id) == 0;
  }

  /** A service write with one copy of its message. */
  lemma PublishedWrite(row: Row, st: Status) returns (steps: seq<Step>)
    requires row.Identified()
    ensures var s := Start([row]);
            && Legal(s, steps)
            && Exec(s, steps) == State([row.(status := st)], [StatusMessage(row.orderId, row.status, st)], false,
                                       map[], map[row.orderId := st])
  {
    var o, s := row.orderId, Start([row]);
    OneRowSaved(row, st);
    Single(s, Save(row.(status := st)));
    steps := [Save(row.(status := st))];
    Then(s, steps, Publish(o, row.status));
    steps := steps + [Publish(o, row.status)];
    Then(s, steps, End(o));
    steps := steps + [End(o)];
    assert Exec(s, steps).writing == map[];
  }

  /** So the failure is real: two service writes, the second not published, and the queue drains back to the first. */
  lemma LostPublicationDiverges(row: Row) returns (steps: seq<Step>, end: State)
    requires row.Identified()
    ensures Legal(Start([row]), steps) && end == Exec(Start([row]), steps)
    ensures end.queue == [] && end.writing == map[] && end.last == map[row.orderId := Refunded]
    ensures end.db == [row.(status := Completed)]
  {
    var o, s := row.orderId, Start([row]);
    steps := PublishedWrite(row, Completed);
    OneRowSaved(row.(status := Completed), Refunded);
    Then(s, steps, Save(row.(status := Refunded)));
    steps := steps + [Save(row.(status := Refunded))];
    Then(s, steps, End(o));
    steps := steps + [End(o)];
    Then(s, steps, Apply(true));
    steps := steps + [Apply(true)];
    Then(s, steps, Ack);
    steps := steps + [Ack];
    end := Exec(s, steps);
    assert end.writing == map[];
  }

  // ---------------------------------------------------------------------------------------
  // The service's methods and the consumer are runs of this protocol
  // ---------------------------------------------------------------------------------------

  function Copies(m: StatusMessage, n: nat): seq<StatusMessage> {
    seq(n, i => m)
  }

  /** n copies of the message that a write under way publishes. */
  lemma {:induction false} CopiesAreARun(s: State, o: OrderId, n: nat) returns (steps: seq<Step>)
    requires o in s.writing
    ensures Legal(s, steps) && NothingLost(s, steps)
    ensures var w := s.writing[o];
            Exec(s, steps) == s.(queue := s.queue + Copies(StatusMessage(o, Unset, w.status), n),
                                 writing := s.writing[o := w.(copies := w.copies + n)])
  {
    var w := s.writing[o];
    var m := StatusMessage(o, Unset, w.status);
    steps := [];
    if n == 0 {
      assert s.queue + Copies(m, 0) == s.queue && s.writing[o := w] == s.writing;
    } else {
      steps := CopiesAreARun(s, o, n - 1);
      var t := Exec(s, steps);
      Single(t, Publish(o, Unset));
      Append(s, steps, [Publish(o, Unset)]);
      assert t.queue + [m] == s.queue + Copies(m, n);
      assert t.writing[o := w.(copies := w.copies + n)] == s.writing[o := w.(copies := w.copies + n)];
      steps := steps + [Publish(o, Unset)];
    }
  }

  /** What follows a save that took effect: n copies, and the end of the write. */
  lemma WriteIsARun(s: State, row: Row, n: nat) returns (steps: seq<Step>)
    requires Sound(s) && Enabled(s, Save(row))
    ensures Legal(s, steps) && (n > 0 ==> NothingLost(s, steps))
    ensures Exec(s, steps) == s.(db := SaveRow(s.db, row, Committed).0, last := s.last[row.orderId := row.status],
                                 queue := s.queue + Copies(StatusMessage(row.orderId, Unset, row.status), n))
  {
    var o := row.orderId;
    Single(s, Save(row));
    var s1 := Next(s, Save(row));
    var more := CopiesAreARun(s1, o, n);
    Append(s, [Save(row)], more);
    var s2 := Exec(s1, more);
    Single(s2, End(o));
    Append(s, [Save(row)] + more, [End(o)]);
    steps := [Save(row)] + more + [End(o)];
    assert s2.writing - {o} == s.writing;
  }

  /** Saving a row of an order that has one and publishing its status, as the payment service does it, is a run of this
      protocol, whatever fails; and one that loses nothing if a copy arrived, as it has if the publication returned nil
      and lost none without an error. */
  lemma SaveAndPublishIsARun(s: State, row: Row, save: Write, r: RetryStrategy, wire: Wire<StatusMessage>, ctx: Context,
                             outcomes: nat -> Delivery) returns (steps: seq<Step>, n: nat)
    requires Sound(s) && Enabled(s, Save(row))
    ensures Legal(s, steps)
    ensures var (table, ok) := SaveRow(s.db, row, save);
            var msg := StatusMessage(row.orderId, Unset, row.status);
            var pub := StatusPublication(wire, row, ctx, r, outcomes);
            && Exec(s, steps) == s.(db := table, last := if save.NotCommitted? then s.last
                                    else s.last[row.orderId := row.status],
                                    queue := s.queue + Copies(msg, n))
            && (if ok then pub.world.queue == WithCopies(wire.queue, Json(msg), n) else n == 0)
            && (n >= 1 ==> NothingLost(s, steps))
            && (ok && pub.err == None && r.maxAttempts >= 1 ==> n >= 1 || SilentLoss(outcomes, r.maxAttempts))
  {
    FindAfterUpsert(s.db, row, row.orderId);
    assert s.queue + Copies(StatusMessage(row.orderId, Unset, row.status), 0) == s.queue;
    steps, n := [], 0;
    if save.Committed? {
      SendsAreTheLoop(r, ctx, StatusPublishError(row.orderId), StatusMessage(row.orderId, Unset, row.status), outcomes,
                      0, wire, None);
      if r.maxAttempts >= 1 {
        SendsBounded(r, ctx, outcomes, 0);
      }
      n := Sends(r, ctx, outcomes, 0).copies;
    }
    if !save.NotCommitted? {
      steps := WriteIsARun(s, row, n);
    }
  }

  /** One attempt of the status operation, as what it commits. */
  lemma AttemptIsARun(s: State, notes: seq<Notification>, f: StatusFaults) returns (steps: seq<Step>)
    requires |s.queue| > 0 && !s.applied
    ensures Legal(s, steps) && (forall j: nat | j < |steps| :: ByConsumer(steps[j]))
    ensures var (next, err) := StatusOp(World(s.db, notes), s.queue[0], f);
            Exec(s, steps) == s.(db := next.payments, applied := err == None)
  {
    steps := [];
    if !f.readFails && Has(s.db, s.queue[0].orderId) && !f.update.NotCommitted? {
      steps := [Apply(f.update.Committed?)];
      Single(s, Apply(f.update.Committed?));
    }
  }

  lemma {:induction false} HandlerIsARun(s: State, r: RetryStrategy, notes: seq<Notification>,
                                         faults: nat -> StatusFaults, k: nat,
                                         lastErr: Option<Error>) returns (steps: seq<Step>)
    requires |s.queue| > 0 && !s.applied && (k > 0 ==> lastErr.Some?) && (k > 0 || r.maxAttempts >= 1)
    ensures Legal(s, steps) && (forall j: nat | j < |steps| :: ByConsumer(steps[j]))
    ensures var out := RetryFrom(StatusOperation(s.queue[0], faults), BACKGROUND, r, k, World(s.db, notes), lastErr);
            Exec(s, steps) == s.(db := out.world.payments, applied := out.err == None)
    decreases r.maxAttempts - k
  {
    steps := [];
    if k < r.maxAttempts {
      var (next, err) := StatusOp(World(s.db, notes), s.queue[0], faults(k));
      steps := AttemptIsARun(s, notes, faults(k));
      StatusRetryUnfolds(r, World(s.db, notes), s.queue[0], faults, k, lastErr);
      if err.Some? && Retryable(err.value) {
        var rest := HandlerIsARun(Exec(s, steps), r, next.notes, faults, k + 1, err);
        Append(s, steps, rest);
        steps := steps + rest;
      }
    }
  }

  /** Delivering the head to the status handler, with any faults, and settling it as the consumer loop does: its table
      is the handler's, and the message leaves the queue exactly when the handler returned nil. */
  lemma DeliveryIsARun(s: State, r: RetryStrategy, notes: seq<Notification>,
                       faults: nat -> StatusFaults) returns (steps: seq<Step>)
    requires |s.queue| > 0 && !s.applied && r.maxAttempts >= 1
    ensures Legal(s, steps) && (forall j: nat | j < |steps| :: ByConsumer(steps[j]))
    ensures var out := HandlePaymentStatus(r, World(s.db, notes), s.queue[0], faults);
            Exec(s, steps) == s.(db := out.world.payments, queue := if out.err == None then s.queue[1..] else s.queue)
  {
    steps := HandlerIsARun(s, r, notes, faults, 0, None);
    if HandlePaymentStatus(r, World(s.db, notes), s.queue[0], faults).err == None {
      Single(Exec(s, steps), Ack);
      Append(s, steps, [Ack]);
      steps := steps + [Ack];
    }
  }

  /** A delivery to the payment handler, with any faults, is a run too: its table is the handler's. */
  lemma PaymentDeliveryIsARun(s: State, r: RetryStrategy, notes: seq<Notification>, msg: PaymentMessage,
                              faults: nat -> PaymentFaults) returns (steps: seq<Step>)
    requires UniqueOrders(s.db)
    ensures Legal(s, steps) && |steps| <= 1 && (forall j: nat | j < |steps| :: steps[j].Record?)
    ensures Exec(s, steps) == s.(db := HandlePayment(r, World(s.db, notes), msg, faults).world.payments)
  {
    steps := [];
    OnePaymentDelivery(r, World(s.db, notes), msg, faults);
    if HandlePayment(r, World(s.db, notes), msg, faults).world.payments != s.db {
      Single(s, Record(RowOf(msg)));
      steps := [Record(RowOf(msg))];
    }
  }
}
