/** The queues as the client sees them, and the client's publishing and consuming
    (internal/messaging/rabbitmq.go).

    The broker itself is not part of the program. A queue is modelled by what the protocol gives the
    client: ready messages in no particular order, one unacknowledged delivery per consumer slot, and
    three sinks: acknowledged, dropped by Reject(false), and expired by the TTL. The dead-letter
    exchange has no queue bound to it, so the last two are where messages end. */
module Broker {
  import opened Errors

  /** A message body: what json.Unmarshal makes of it. */
  datatype Body<+M> = Json(msg: M) | Malformed(raw: string)

  datatype Queue<M(==)> = Queue(
    published: multiset<Body<M>>,        // every copy that ever reached the queue
    ready: multiset<Body<M>>,
    unacked: seq<Option<Body<M>>>,       // per consumer slot
    acked: multiset<Body<M>>,
    dropped: multiset<Body<M>>,
    expired: multiset<Body<M>>)

  function EmptyQueue<M(==)>(slots: nat): Queue<M> {
    Queue(multiset{}, multiset{}, seq(slots, i => None), multiset{}, multiset{}, multiset{})
  }

  function Enqueue<M(==)>(q: Queue<M>, b: Body<M>): Queue<M> {
    q.(published := q.published + multiset{b}, ready := q.ready + multiset{b})
  }

  predicate Busy<M(==)>(q: Queue<M>, i: nat) {
    i < |q.unacked| && q.unacked[i].Some?
  }

  predicate CanDeliver<M(==)>(q: Queue<M>, i: nat, b: Body<M>) {
    i < |q.unacked| && q.unacked[i].None? && b in q.ready
  }

  function Deliver<M(==)>(q: Queue<M>, i: nat, b: Body<M>): Queue<M>
    requires CanDeliver(q, i, b)
  {
    q.(ready := q.ready - multiset{b}, unacked := q.unacked[i := Some(b)])
  }

  /** The three ways a delivery is settled. A lost connection requeues like Reject(true). */
  datatype Settlement = Acked | Requeued | Dropped

  function Settle<M(==)>(q: Queue<M>, i: nat, how: Settlement): Queue<M>
    requires Busy(q, i)
  {
    var b := multiset{q.unacked[i].value};
    var free := q.(unacked := q.unacked[i := None]);
    match how
    case Acked => free.(acked := q.acked + b)
    case Requeued => free.(ready := q.ready + b)
    case Dropped => free.(dropped := q.dropped + b)
  }

  /** The TTL applies to messages waiting in the queue. */
  function Expire<M(==)>(q: Queue<M>, b: Body<M>): Queue<M>
    requires b in q.ready
  {
    q.(ready := q.ready - multiset{b}, expired := q.expired + multiset{b})
  }

  // ---------------------------------------------------------------------------------------
  // Conservation
  // ---------------------------------------------------------------------------------------

  /** The union of what each element of a sequence holds. */
  ghost function Gather<T, X>(s: seq<T>, held: T -> multiset<X>): multiset<X> {
    if |s| == 0 then multiset{} else held(s[0]) + Gather(s[1..], held)
  }

  lemma {:induction false} GatherUpdate<T, X>(s: seq<T>, held: T -> multiset<X>, i: nat, t: T)
    requires i < |s|
    ensures held(s[i]) <= Gather(s, held)
    ensures Gather(s[i := t], held) == Gather(s, held) - held(s[i]) + held(t)
  {
    if i == 0 {
      assert s[0 := t][1..] == s[1..];
    } else {
      assert s[i := t][1..] == s[1..][i - 1 := t];
      GatherUpdate(s[1..], held, i - 1, t);
    }
  }

  lemma {:induction false} GatherNothing<T, X>(s: seq<T>, held: T -> multiset<X>)
    requires forall i: nat | i < |s| :: held(s[i]) == multiset{}
    ensures Gather(s, held) == multiset{}
  {
    if |s| > 0 {
      forall i: nat | i < |s[1..]| ensures held(s[1..][i]) == multiset{} {
        assert s[1..][i] == s[i + 1];
      }
      GatherNothing(s[1..], held);
    }
  }

  lemma {:induction false} GatherAppend<T, X>(s: seq<T>, held: T -> multiset<X>, t: T)
    ensures Gather(s + [t], held) == Gather(s, held) + held(t)
  {
    if |s| > 0 {
      assert (s + [t])[1..] == s[1..] + [t];
      GatherAppend(s[1..], held, t);
    } else {
      assert (s + [t])[1..] == [];
    }
  }

  ghost function HeldBySlot<M>(slot: Option<Body<M>>): multiset<Body<M>> {
    if slot.None? then multiset{} else multiset{slot.value}
  }

  ghost function InFlight<M>(q: Queue<M>): multiset<Body<M>> {
    Gather(q.unacked, HeldBySlot)
  }

  /** Every copy that reached the queue is in exactly one place. */
  ghost predicate Conserved<M>(q: Queue<M>) {
    q.published == q.ready + InFlight(q) + q.acked + q.dropped + q.expired
  }

  lemma EmptyIsConserved<M>(slots: nat)
    ensures Conserved(EmptyQueue<M>(slots))
  {
    GatherNothing(EmptyQueue<M>(slots).unacked, HeldBySlot);
  }

  lemma EnqueueConserves<M>(q: Queue<M>, b: Body<M>)
    requires Conserved(q)
    ensures Conserved(Enqueue(q, b))
  {
  }

  lemma DeliverConserves<M>(q: Queue<M>, i: nat, b: Body<M>)
    requires Conserved(q) && CanDeliver(q, i, b)
    ensures Conserved(Deliver(q, i, b))
  {
    GatherUpdate(q.unacked, HeldBySlot, i, Some(b));
  }

  lemma SettleConserves<M>(q: Queue<M>, i: nat, how: Settlement)
    requires Conserved(q) && Busy(q, i)
    ensures Conserved(Settle(q, i, how))
  {
    GatherUpdate(q.unacked, HeldBySlot, i, None);
  }

  lemma ExpireConserves<M>(q: Queue<M>, b: Body<M>)
    requires Conserved(q) && b in q.ready
    ensures Conserved(Expire(q, b))
  {
  }

  // ---------------------------------------------------------------------------------------
  // The client
  // ---------------------------------------------------------------------------------------

  /** What publishing did. The channel is not in confirm mode, so a message can be lost although publishing returned
      nil. */
  datatype Delivery = Sent | Lost | SentWithError | Vanished {
    /** The message reached the queue. */
    predicate Arrives() { Sent? || SentWithError? }

    /** Publishing returned nil. */
    predicate Reports() { Sent? || Vanished? }
  }

  function Published<M(==)>(q: Queue<M>, msg: M, d: Delivery): Queue<M> {
    if d.Arrives() then Enqueue(q, Json(msg)) else q
  }

  function CountPublish(c: Counters, d: Delivery): Counters {
    if d.Reports() then c.(published := c.published + 1) else c.(errors := c.errors + 1)
  }

  /** One iteration of a consumer loop: the body received and how it was settled. */
  datatype Round<+M> = Round(body: Body<M>, how: Settlement)

  /** What a consumer does with the k-th body it receives. */
  function HandleBody<M, W>(handler: (W, M, nat) -> (W, bool), world: W, body: Body<M>, k: nat): (W, Settlement) {
    match body
    case Malformed(_) => (world, Dropped)
    case Json(msg) =>
      var (next, ok) := handler(world, msg, k);
      (next, if ok then Acked else Requeued)
  }

  /** The world and the settlements that a sequence of received bodies leads to. */
  function Replay<M, W>(handler: (W, M, nat) -> (W, bool), start: W, bodies: seq<Body<M>>): (W, seq<Round<M>>) {
    if |bodies| == 0 then (start, [])
    else
      var n := |bodies| - 1;
      var (world, rounds) := Replay(handler, start, bodies[..n]);
      var (next, how) := HandleBody(handler, world, bodies[n], n);
      (next, rounds + [Round(bodies[n], how)])
  }

  /** The bodies of the rounds settled in a given way. */
  ghost function SettledAs<M>(rounds: seq<Round<M>>, how: Settlement): multiset<Body<M>> {
    if |rounds| == 0 then multiset{}
    else
      var last := rounds[|rounds| - 1];
      SettledAs(rounds[..|rounds| - 1], how) + if last.how == how then multiset{last.body} else multiset{}
  }

  /** The queue after a consumer received and settled one body. */
  function Turn<M(==)>(q: Queue<M>, slot: nat, r: Round<M>): Queue<M> {
    if CanDeliver(q, slot, r.body) then Settle(Deliver(q, slot, r.body), slot, r.how) else q
  }

  function Turns<M(==)>(q: Queue<M>, slot: nat, rounds: seq<Round<M>>): Queue<M> {
    if |rounds| == 0 then q
    else Turn(Turns(q, slot, rounds[..|rounds| - 1]), slot, rounds[|rounds| - 1])
  }

  /** Every round took a body that was ready when it began. */
  ghost predicate Delivered<M>(q: Queue<M>, slot: nat, rounds: seq<Round<M>>) {
    |rounds| > 0 ==>
      var n := |rounds| - 1;
      Delivered(q, slot, rounds[..n]) && CanDeliver(Turns(q, slot, rounds[..n]), slot, rounds[n].body)
  }

  /** The counters of one queue. */
  datatype Counters = Counters(published: nat, consumed: nat, deadLetters: nat, retryAttempts: nat, errors: nat)

  function CountRound(c: Counters, how: Settlement): Counters {
    match how
    case Acked => c.(consumed := c.consumed + 1)
    case Requeued => c.(errors := c.errors + 1, retryAttempts := c.retryAttempts + 1)
    case Dropped => c.(errors := c.errors + 1, deadLetters := c.deadLetters + 1)
  }

  lemma TurnKeeps<M>(q: Queue<M>, slot: nat, r: Round<M>)
    requires CanDeliver(q, slot, r.body)
    ensures var t := Turn(q, slot, r);
            t.unacked == q.unacked && t.published == q.published && t.expired == q.expired
  {
    assert q.unacked[slot := Some(r.body)][slot := None] == q.unacked;
  }

  lemma TurnReady<M>(q: Queue<M>, slot: nat, r: Round<M>)
    requires CanDeliver(q, slot, r.body)
    ensures Turn(q, slot, r).ready + (if r.how.Requeued? then multiset{} else multiset{r.body}) == q.ready
  {
  }

  lemma {:induction false} TurnsKeep<M>(q: Queue<M>, slot: nat, rounds: seq<Round<M>>)
    requires Delivered(q, slot, rounds)
    ensures var t := Turns(q, slot, rounds);
            t.unacked == q.unacked && t.published == q.published && t.expired == q.expired
  {
    if |rounds| > 0 {
      var n := |rounds| - 1;
      TurnsKeep(q, slot, rounds[..n]);
      TurnKeeps(Turns(q, slot, rounds[..n]), slot, rounds[n]);
    }
  }

  lemma {:induction false} TurnsAck<M>(q: Queue<M>, slot: nat, rounds: seq<Round<M>>)
    requires Delivered(q, slot, rounds)
    ensures Turns(q, slot, rounds).acked == q.acked + SettledAs(rounds, Acked)
  {
    if |rounds| > 0 {
      TurnsAck(q, slot, rounds[..|rounds| - 1]);
    }
  }

  lemma {:induction false} TurnsDrop<M>(q: Queue<M>, slot: nat, rounds: seq<Round<M>>)
    requires Delivered(q, slot, rounds)
    ensures Turns(q, slot, rounds).dropped == q.dropped + SettledAs(rounds, Dropped)
  {
    if |rounds| > 0 {
      TurnsDrop(q, slot, rounds[..|rounds| - 1]);
    }
  }

  /** What the rounds took out of the ready messages for good. */
  ghost function Taken<M>(rounds: seq<Round<M>>): multiset<Body<M>> {
    if |rounds| == 0 then multiset{}
    else
      var last := rounds[|rounds| - 1];
      (if last.how.Requeued? then multiset{} else multiset{last.body}) + Taken(rounds[..|rounds| - 1])
  }

  lemma {:induction false} TakenIsSettled<M>(rounds: seq<Round<M>>)
    ensures Taken(rounds) == SettledAs(rounds, Acked) + SettledAs(rounds, Dropped)
  {
    if |rounds| > 0 {
      TakenIsSettled(rounds[..|rounds| - 1]);
    }
  }

  lemma Regroup<X>(a: multiset<X>, b: multiset<X>, c: multiset<X>)
    ensures a + (b + c) == (a + b) + c
  {
  }

  lemma {:induction false} TurnsTake<M>(q: Queue<M>, slot: nat, rounds: seq<Round<M>>)
    requires Delivered(q, slot, rounds)
    ensures Turns(q, slot, rounds).ready + Taken(rounds) == q.ready
  {
    if |rounds| > 0 {
      var n := |rounds| - 1;
      var before, r := Turns(q, slot, rounds[..n]), rounds[n];
      TurnsTake(q, slot, rounds[..n]);
      TurnReady(before, slot, r);
      Regroup(Turn(before, slot, r).ready, if r.how.Requeued? then multiset{} else multiset{r.body},
              Taken(rounds[..n]));
    }
  }

  /** Whatever a consumer loop does, each delivery ends in exactly one place: acknowledged bodies are
      those of the rounds that ended well, dropped ones those that could not be read, and the rest of
      what was ready still is. Nothing is published, expired or left in flight. */
  lemma TurnsEffect<M>(q: Queue<M>, slot: nat, rounds: seq<Round<M>>)
    requires Delivered(q, slot, rounds)
    ensures var t := Turns(q, slot, rounds);
            && t.unacked == q.unacked && t.published == q.published && t.expired == q.expired
            && t.acked == q.acked + SettledAs(rounds, Acked)
            && t.dropped == q.dropped + SettledAs(rounds, Dropped)
            && t.ready + (SettledAs(rounds, Acked) + SettledAs(rounds, Dropped)) == q.ready
  {
    TurnsKeep(q, slot, rounds);
    TurnsAck(q, slot, rounds);
    TurnsDrop(q, slot, rounds);
    TurnsTake(q, slot, rounds);
    TakenIsSettled(rounds);
  }

  /** And no copy is lost or duplicated on the way. */
  lemma {:induction false} TurnsConserve<M>(q: Queue<M>, slot: nat, rounds: seq<Round<M>>)
    requires Delivered(q, slot, rounds) && Conserved(q)
    ensures Conserved(Turns(q, slot, rounds))
  {
    if |rounds| > 0 {
      var n := |rounds| - 1;
      TurnsConserve(q, slot, rounds[..n]);
      var before := Turns(q, slot, rounds[..n]);
      DeliverConserves(before, slot, rounds[n].body);
      SettleConserves(Deliver(before, slot, rounds[n].body), slot, rounds[n].how);
    }
  }

  /** In a replayed loop a body is dropped exactly when it cannot be read, whatever the handler says. */
  lemma {:induction false} OnlyMalformedDropped<M, W>(handler: (W, M, nat) -> (W, bool), start: W, bodies: seq<Body<M>>)
    ensures var rounds := Replay(handler, start, bodies).1;
            && |rounds| == |bodies|
            && (forall k: nat | k < |rounds| ::
                  rounds[k].body == bodies[k] && (rounds[k].how.Dropped? <==> bodies[k].Malformed?))
  {
    if |bodies| > 0 {
      OnlyMalformedDropped(handler, start, bodies[..|bodies| - 1]);
    }
  }

  lemma {:induction false} ReplayOfPrefix<M, W>(handler: (W, M, nat) -> (W, bool), start: W,
                                                bodies: seq<Body<M>>, k: nat)
    requires k <= |bodies|
    ensures |Replay(handler, start, bodies).1| == |bodies|
    ensures Replay(handler, start, bodies[..k]).1 == Replay(handler, start, bodies).1[..k]
  {
    OnlyMalformedDropped(handler, start, bodies);
    if k < |bodies| {
      var n := |bodies| - 1;
      assert bodies[..n][..k] == bodies[..k];
      ReplayOfPrefix(handler, start, bodies[..n], k);
    } else {
      assert bodies[..k] == bodies;
    }
  }

  /** What a consumer loop does with the k-th body, in the world that the ones before it left: a readable one is given
      to the handler once, and acknowledged if the handler returns nil, requeued if it does not; an unreadable one
      never gets there, and is dropped. */
  lemma ReplayRound<M, W>(handler: (W, M, nat) -> (W, bool), start: W, bodies: seq<Body<M>>, k: nat)
    requires k < |bodies|
    ensures Replay(handler, start, []).0 == start
    ensures |Replay(handler, start, bodies).1| == |bodies|
    ensures var before := Replay(handler, start, bodies[..k]).0;
            var after := Replay(handler, start, bodies[..k + 1]).0;
            var round := Replay(handler, start, bodies).1[k];
            && round.body == bodies[k]
            && match bodies[k]
               case Malformed(_) => after == before && round.how == Dropped
               case Json(msg) =>
                 && after == handler(before, msg, k).0
                 && (round.how == Acked <==> handler(before, msg, k).1)
                 && (round.how == Requeued <==> !handler(before, msg, k).1)
  {
    ReplayOfPrefix(handler, start, bodies, k + 1);
    assert bodies[..k + 1][..k] == bodies[..k];
    assert Replay(handler, start, bodies[..k + 1]).1[k] == Replay(handler, start, bodies).1[k];
  }

  /** The counters of one queue after a loop: one more per settlement of the matching kind. */
  ghost predicate Counted<M>(before: Counters, after: Counters, rounds: seq<Round<M>>) {
    && after.consumed == before.consumed + |SettledAs(rounds, Acked)|
    && after.deadLetters == before.deadLetters + |SettledAs(rounds, Dropped)|
    && after.retryAttempts == before.retryAttempts + |SettledAs(rounds, Requeued)|
    && after.errors == before.errors + |SettledAs(rounds, Dropped)| + |SettledAs(rounds, Requeued)|
    && after.published == before.published
    && |rounds| == |SettledAs(rounds, Acked)| + |SettledAs(rounds, Dropped)| + |SettledAs(rounds, Requeued)|
  }

  lemma CountedOneMore<M>(before: Counters, after: Counters, rounds: seq<Round<M>>, r: Round<M>)
    requires Counted(before, after, rounds)
    ensures Counted(before, CountRound(after, r.how), rounds + [r])
  {
    assert (rounds + [r])[..|rounds|] == rounds;
  }

  lemma DeliveredOneMore<M>(q: Queue<M>, slot: nat, rounds: seq<Round<M>>, r: Round<M>)
    requires Delivered(q, slot, rounds) && CanDeliver(Turns(q, slot, rounds), slot, r.body)
    ensures Delivered(q, slot, rounds + [r]) && Turns(q, slot, rounds + [r]) == Turn(Turns(q, slot, rounds), slot, r)
  {
    assert (rounds + [r])[..|rounds|] == rounds;
  }

  function Bodies<M>(rounds: seq<Round<M>>): seq<Body<M>> {
    seq(|rounds|, k requires 0 <= k < |rounds| => rounds[k].body)
  }

  lemma ReplayOneMore<M, W>(handler: (W, M, nat) -> (W, bool), start: W, rounds: seq<Round<M>>, world: W, body: Body<M>)
    requires (world, rounds) == Replay(handler, start, Bodies(rounds))
    ensures var (next, how) := HandleBody(handler, world, body, |rounds|);
            var more := rounds + [Round(body, how)];
            (next, more) == Replay(handler, start, Bodies(more))
  {
    var (next, how) := HandleBody(handler, world, body, |rounds|);
    var more := rounds + [Round(body, how)];
    assert Bodies(more)[..|rounds|] == Bodies(rounds);
  }

  /** The rounds are those of the offers that could be delivered: each that was ready when the slot was free, and no
      other. */
  ghost predicate TakesOffers<M>(q: Queue<M>, slot: nat, offers: seq<Body<M>>, rounds: seq<Round<M>>) {
    if |offers| == 0 then rounds == []
    else
      var n := |offers| - 1;
      || (&& |rounds| > 0 && rounds[|rounds| - 1].body == offers[n]
          && CanDeliver(Turns(q, slot, rounds[..|rounds| - 1]), slot, offers[n])
          && TakesOffers(q, slot, offers[..n], rounds[..|rounds| - 1]))
      || (!CanDeliver(Turns(q, slot, rounds), slot, offers[n]) && TakesOffers(q, slot, offers[..n], rounds))
  }

  lemma TakesOneMore<M>(q: Queue<M>, slot: nat, offers: seq<Body<M>>, n: nat, rounds: seq<Round<M>>, how: Settlement)
    requires n < |offers| && TakesOffers(q, slot, offers[..n], rounds)
    ensures CanDeliver(Turns(q, slot, rounds), slot, offers[n]) ==>
              TakesOffers(q, slot, offers[..n + 1], rounds + [Round(offers[n], how)])
    ensures !CanDeliver(Turns(q, slot, rounds), slot, offers[n]) ==> TakesOffers(q, slot, offers[..n + 1], rounds)
  {
    assert offers[..n + 1][..n] == offers[..n];
    assert (rounds + [Round(offers[n], how)])[..|rounds|] == rounds;
  }

  lemma PrefixFits<X>(xs: seq<X>, n: nat, room: multiset<X>)
    requires n < |xs| && multiset(xs) <= room
    ensures multiset(xs[..n]) + multiset{xs[n]} <= room
  {
    assert xs == xs[..n] + [xs[n]] + xs[n + 1..];
  }

  /** As long as all offers so far were taken, the next one of those that were ready can be delivered to the free
      slot. */
  lemma NextIsDeliverable<M>(q: Queue<M>, slot: nat, offers: seq<Body<M>>, n: nat, rounds: seq<Round<M>>)
    requires n < |offers| && multiset(offers) <= q.ready
    requires slot < |q.unacked| && q.unacked[slot] == None
    requires Delivered(q, slot, rounds) && Bodies(rounds) == offers[..n]
    ensures CanDeliver(Turns(q, slot, rounds), slot, offers[n])
  {
    PrefixFits(offers, n, q.ready);
    StillReady(q, slot, offers[..n], rounds, offers[n]);
  }

  lemma BodiesOneMore<M>(rounds: seq<Round<M>>, last: Round<M>, offers: seq<Body<M>>, n: nat)
    requires n < |offers| && Bodies(rounds) == offers[..n] && last.body == offers[n]
    ensures Bodies(rounds + [last]) == offers[..n + 1]
  {
    assert forall k: nat | k < n :: Bodies(rounds + [last])[k] == Bodies(rounds)[k];
  }

  lemma StillReady<M>(q: Queue<M>, slot: nat, taken: seq<Body<M>>, rounds: seq<Round<M>>, b: Body<M>)
    requires Delivered(q, slot, rounds) && Bodies(rounds) == taken
    requires slot < |q.unacked| && q.unacked[slot] == None && multiset(taken) + multiset{b} <= q.ready
    ensures CanDeliver(Turns(q, slot, rounds), slot, b)
  {
    TurnsKeep(q, slot, rounds);
    TurnsTake(q, slot, rounds);
    TakenAreBodies(rounds);
  }

  lemma {:induction false} TakenAreBodies<M>(rounds: seq<Round<M>>)
    ensures Taken(rounds) <= multiset(Bodies(rounds))
  {
    if |rounds| > 0 {
      var n := |rounds| - 1;
      TakenAreBodies(rounds[..n]);
      assert Bodies(rounds) == Bodies(rounds[..n]) + [rounds[n].body];
    }
  }

  /** A connection's view of one queue, with the counters it keeps. The three consumers and the three
      publishers of the program differ only in the message type and the queue's name. */
  class Client<M(==)> {
    var queue: Queue<M>
    var counters: Counters

    constructor (slots: nat)
      ensures queue == EmptyQueue(slots) && counters == Counters(0, 0, 0, 0, 0)
    {
      queue := EmptyQueue(slots);
      counters := Counters(0, 0, 0, 0, 0);
    }

    method Publish(msg: M, outcome: Delivery) returns (ok: bool)
      modifies this
      ensures ok <==> outcome.Sent? || outcome.Vanished?
      ensures queue == Published(old(queue), msg, outcome)
      ensures var copies := if outcome.Sent? || outcome.SentWithError? then multiset{Json(msg)} else multiset{};
              queue.ready == old(queue.ready) + copies && queue.published == old(queue.published) + copies
      ensures queue == old(queue).(ready := queue.ready, published := queue.published)
      ensures counters == CountPublish(old(counters), outcome)
      ensures counters.published == old(counters.published) + (if ok then 1 else 0)
      ensures counters.errors == old(counters.errors) + (if ok then 0 else 1)
      ensures counters == old(counters).(published := counters.published, errors := counters.errors)
    {
      if outcome.Arrives() {
        queue := Enqueue(queue, Json(msg));
      }
      if outcome.Reports() {
        counters := counters.(published := counters.published + 1);
      } else {
        counters := counters.(errors := counters.errors + 1);
      }
      ok := outcome.Reports();
    }

    /** The consumer loop. `offers` is the broker's choice: in each round it delivers the offered body
        if that can be delivered, and nothing otherwise. */
    method Consume<W>(slot: nat, offers: seq<Body<M>>, handler: (W, M, nat) -> (W, bool), start: W)
      returns (world: W, rounds: seq<Round<M>>)
      modifies this
      ensures (world, rounds) == Replay(handler, start, Bodies(rounds))
      ensures queue == Turns(old(queue), slot, rounds) && Delivered(old(queue), slot, rounds)
      ensures TakesOffers(old(queue), slot, offers, rounds)
      ensures slot < |old(queue).unacked| && old(queue).unacked[slot] == None
              && multiset(offers) <= old(queue).ready ==>
                Bodies(rounds) == offers
      ensures Counted(old(counters), counters, rounds)
    {
      world, rounds := start, [];
      ghost var allReady := slot < |queue.unacked| && queue.unacked[slot] == None && multiset(offers) <= queue.ready;
      for k := 0 to |offers|
        invariant (world, rounds) == Replay(handler, start, Bodies(rounds))
        invariant queue == Turns(old(queue), slot, rounds) && Delivered(old(queue), slot, rounds)
        invariant TakesOffers(old(queue), slot, offers[..k], rounds)
        invariant allReady ==> Bodies(rounds) == offers[..k]
        invariant Counted(old(counters), counters, rounds)
      {
        TakesOneMore(old(queue), slot, offers, k, rounds, Acked);
        if allReady {
          NextIsDeliverable(old(queue), slot, offers, k, rounds);
        }
        if CanDeliver(queue, slot, offers[k]) {
          ghost var had := counters;
          ReplayOneMore(handler, start, rounds, world, offers[k]);
          var how: Settlement;
          world, how := Iterate(slot, offers[k], handler, world, |rounds|);
          TakesOneMore(old(queue), slot, offers, k, rounds, how);
          DeliveredOneMore(old(queue), slot, rounds, Round(offers[k], how));
          if allReady {
            BodiesOneMore(rounds, Round(offers[k], how), offers, k);
          }
          CountedOneMore(old(counters), had, rounds, Round(offers[k], how));
          rounds := rounds + [Round(offers[k], how)];
        }
      }
      assert offers[..|offers|] == offers;
    }

    /** The loop's body: receive, unmarshal, handle, settle, count. */
    method Iterate<W>(slot: nat, body: Body<M>, handler: (W, M, nat) -> (W, bool), start: W, k: nat)
      returns (world: W, how: Settlement)
      requires CanDeliver(queue, slot, body)
      modifies this
      ensures (world, how) == HandleBody(handler, start, body, k)
      ensures queue == Turn(old(queue), slot, Round(body, how))
      ensures counters == CountRound(old(counters), how)
      ensures var one := multiset{body};
              match body
              case Malformed(_) =>
                && world == start && how == Dropped
                && queue == old(queue).(ready := old(queue.ready) - one, dropped := old(queue.dropped) + one)
                && counters == old(counters).(errors := old(counters.errors) + 1,
                                              deadLetters := old(counters.deadLetters) + 1)
              case Json(msg) =>
                && world == handler(start, msg, k).0
                && if handler(start, msg, k).1 then
                     && how == Acked
                     && queue == old(queue).(ready := old(queue.ready) - one, acked := old(queue.acked) + one)
                     && counters == old(counters).(consumed := old(counters.consumed) + 1)
                   else
                     && how == Requeued && queue == old(queue)
                     && counters == old(counters).(errors := old(counters.errors) + 1,
                                                   retryAttempts := old(counters.retryAttempts) + 1)
    {
      assert queue.unacked[slot := Some(body)][slot := None] == queue.unacked;
      assert queue.ready - multiset{body} + multiset{body} == queue.ready;
      queue := Deliver(queue, slot, body);
      match body {
        case Malformed(_) =>
          world, how := start, Dropped;
          queue := Settle(queue, slot, Dropped);
          counters := counters.(errors := counters.errors + 1, deadLetters := counters.deadLetters + 1);
        case Json(msg) =>
          var (next, ok) := handler(start, msg, k);
          world := next;
          if !ok {
            how := Requeued;
            queue := Settle(queue, slot, Requeued);
            counters := counters.(errors := counters.errors + 1, retryAttempts := counters.retryAttempts + 1);
          } else {
            how := Acked;
            queue := Settle(queue, slot, Acked);
            counters := counters.(consumed := counters.consumed + 1);
          }
      }
    }
  }
}
