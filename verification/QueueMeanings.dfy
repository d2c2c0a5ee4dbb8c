/** What the queue's operations hand out, keep, forget and answer, in every run. */
module QueueMeanings {
  import opened Common
  import opened Queue
  import opened QueueRuns

  // ---- Consuming ----

  /** Besides what was in flight, exactly the first `m` waiting keys are, under consecutive delivery ids. */
  ghost predicate TookOff(q: State, q': State, channel: Name, m: nat) {
    && m <= |Waiting(q, channel)|
    && (forall d :: d in q'.inFlight <==> d in q.inFlight || q.nextDelivery <= d < q.nextDelivery + m)
    && (forall d :: d in q.inFlight && d < q.nextDelivery ==> d in q'.inFlight && q'.inFlight[d] == q.inFlight[d])
    && (forall i :: 0 <= i < m ==>
          var k := Waiting(q, channel)[i];
          && k in q.liveIds && q.nextDelivery + i in q'.inFlight
          && q'.inFlight[q.nextDelivery + i] == Flight(channel, k, q.liveIds[k]))
  }

  lemma {:induction false} TookOne(q: State, q1: State, channel: Name, m: nat)
    requires FrontOk(q1, channel) && Advanced(q, q1, channel, m) && TookOff(q, q1, channel, m) && m < |Waiting(q, channel)|
    ensures TookOff(q, Delivered(q1, channel), channel, m + 1)
  {
    var k := Waiting(q, channel)[m];
    assert Waiting(q1, channel)[0] == k;
    var q2 := Delivered(q1, channel);
    assert q2.inFlight == q1.inFlight[q.nextDelivery + m := Flight(channel, k, q.liveIds[k])];
  }

  lemma {:induction false} TakenTookOff(q: State, channel: Name, n: nat)
    requires Coupled(q)
    ensures TookOff(q, Taken(q, channel, n), channel, Min(n, |Waiting(q, channel)|))
  {
    if n > 0 {
      TakenTookOff(q, channel, n - 1);
      TakenAdvances(q, channel, n - 1);
      TakenFront(q, channel, n - 1);
      if n - 1 < |Waiting(q, channel)| {
        TookOne(q, Taken(q, channel, n - 1), channel, n - 1);
      }
    }
  }

  /** How many messages a consumer gets: as many as it asks for, at least one, and no more than there are. */
  function Share(max: nat, waiting: nat): nat { if max == 0 then Min(1, waiting) else Min(max, waiting) }

  /** What consuming makes of the queue, and what it hands out. */
  ghost predicate Consumed(q: State, channel: Name, n: nat, q': State, out: seq<Delivery>) {
    && n <= |Waiting(q, channel)| && |out| == n && Waiting(q', channel) == Waiting(q, channel)[n..]
    && TookOff(q, q', channel, n)
    && (forall i :: 0 <= i < n ==>
          var k := Waiting(q, channel)[i];
          out[i] == Delivery(q.nextDelivery + i, k.id, q.liveIds[k]))
  }

  lemma {:induction false} ConsumeGives(q: State, channel: Name, max: nat)
    requires Coupled(q)
    ensures var (q', out) := Queue.Consume(q, channel, max); Consumed(q, channel, Share(max, |Waiting(q, channel)|), q', out)
  {
    var n := if max == 0 then 1 else max;
    ParcelsAreFront(q, channel, n);
    TakenAdvances(q, channel, n);
    TakenTookOff(q, channel, n);
    PrunedOrder(Taken(q, channel, n), channel, channel);
  }

  /**
   * In every run a consumer gets the first messages of the channel, as many as it asks for, at least one
   * and no more than wait, each with the payload it was accepted with; exactly those are now in flight.
   */
  lemma {:induction false} ConsumeMeans(capacity: nat, ops: seq<Op>, channel: Name, max: nat)
    ensures var q := Run(capacity, ops);
            var (q', out) := Queue.Consume(q, channel, max);
            && Consumed(q, channel, Share(max, |Waiting(q, channel)|), q', out)
            && forall i :: 0 <= i < |out| ==> LastAccepted(capacity, ops, Waiting(q, channel)[i]) == Some(out[i].payload)
  {
    var q := Run(capacity, ops);
    QueueAccounts(capacity, ops, Key(channel, channel));
    ConsumeGives(q, channel, max);
    var out := Queue.Consume(q, channel, max).1;
    forall i | 0 <= i < |out| ensures LastAccepted(capacity, ops, Waiting(q, channel)[i]) == Some(out[i].payload) {
      IndexIsLastAccepted(capacity, ops, Waiting(q, channel)[i]);
    }
  }

  // ---- Publishing and settling ----

  /** A message that is let in waits last in its channel, with its payload, and nothing in flight moves. */
  ghost predicate LetIn(q: State, k: Key, p: Payload, q': State) {
    && Waiting(q', k.stream) == Waiting(q, k.stream) + [k] && k in q'.queued && k in q'.liveIds
    && q'.liveIds[k] == p && q'.inFlight == q.inFlight
  }

  lemma {:induction false} EnqueuedLetIn(q: State, k: Key, p: Payload, q1: State, q': State)
    requires q1 == Enqueue(q, k, p) && SameBut(q1, q')
    ensures LetIn(q, k, p, q')
  {
    assert Active(q1, k);
  }

  lemma {:induction false} AcceptLetsIn(q: State, capacity: nat, k: Key, p: Payload)
    requires Coupled(q) && k !in q.liveIds && Occupied(q) < capacity
    ensures var (q', r) := Queue.Publish(q, capacity, k, p); r == Ok(k.id) && LetIn(q, k, p, q')
  {
    var q1 := Enqueue(q, k, p);
    EnqueueKeeps(q, k, p);
    EvictKeeps(q1, 0);
    EnqueuedLetIn(q, k, p, q1, Evict(q1, 0));
  }

  /**
   * In every run: a remembered id is confirmed with its last accepted payload and refused with any other;
   * a new one is refused exactly when the live messages fill the capacity, and else let in.
   */
  lemma {:induction false} PublishMeans(capacity: nat, ops: seq<Op>, k: Key, p: Payload)
    ensures var q := Run(capacity, ops);
            var (q', r) := Queue.Publish(q, capacity, k, p);
            if k in q.liveIds then
              q' == q && r == if LastAccepted(capacity, ops, k) == Some(p) then Ok(k.id) else Err(Conflict)
            else if |q.queued| + |q.inFlight| >= capacity then q' == q && r == Err(ResourceExhausted)
            else r == Ok(k.id) && LetIn(q, k, p, q')
  {
    var q := Run(capacity, ops);
    QueueAccounts(capacity, ops, k);
    if k in q.liveIds {
      IndexIsLastAccepted(capacity, ops, k);
    } else if Occupied(q) < capacity {
      AcceptLetsIn(q, capacity, k, p);
    }
  }

  /** An acknowledgement ends exactly the delivery it names, and an unknown one changes nothing. */
  lemma {:induction false} AckMeans(capacity: nat, ops: seq<Op>, d: nat)
    ensures var q := Run(capacity, ops);
            var (q', r) := Queue.Ack(q, d);
            if d in q.inFlight then
              r == Ok(()) && q'.inFlight == q.inFlight - {d} && q'.queued == q.queued && q'.pending == q.pending && q'.messages == q.messages
            else q' == q && r == Err(NotFound)
  {
    var q := Run(capacity, ops);
    if d in q.inFlight {
      QueueAccounts(capacity, ops, q.inFlight[d].key);
      LandKeeps(q, d);
      EvictKeeps(q.(inFlight := q.inFlight - {d}), 0);
    }
  }
}
