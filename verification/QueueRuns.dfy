/** The queue object, and what holds after any sequence of operations on it. */
module QueueRuns {
  import opened Common
  import opened Queue

  // ---- The object ----

  class InMemoryQueue {
    var liveIds: map<Key, Payload>
    var liveOrder: seq<Key>
    var pending: map<Name, seq<Key>>
    var queued: set<Key>
    var messages: map<Key, Payload>
    var inFlight: map<nat, Flight>
    var nextDelivery: nat
    const capacity: nat

    function View(): State
      reads this
    {
      State(liveIds, liveOrder, pending, queued, messages, inFlight, nextDelivery)
    }

    constructor (capacity: nat)
      ensures View() == Empty && this.capacity == capacity
    {
      liveIds, liveOrder, pending, queued, messages, inFlight, nextDelivery := map[], [], map[], {}, map[], map[], 1;
      this.capacity := capacity;
    }

    method EvictTombstones()
      modifies this`liveIds, this`liveOrder
      ensures View() == Evict(old(View()), 0)
    {
      var scanned := 0;
      while |liveIds| > TOMBSTONE_CAP && scanned < |liveOrder|
        invariant Evict(old(View()), 0) == Evict(View(), scanned)
        decreases |liveOrder| - scanned
      {
        ghost var q := View();
        EvictGoesOn(q, scanned);
        scanned := scanned + 1;
        var key := liveOrder[0];
        var active := key in queued || exists d :: d in inFlight && inFlight[d].key == key;
        assert active == Active(View(), key);
        liveOrder := liveOrder[1..];
        if active {
          liveOrder := liveOrder + [key];
        } else {
          liveIds := liveIds - {key};
        }
        assert View() == Scanned(q);
      }
    }

    method Publish(k: Key, p: Payload) returns (r: Result<Name, QueueError>)
      modifies this
      ensures (View(), r) == Queue.Publish(old(View()), capacity, k, p)
    {
      if k in liveIds {
        if liveIds[k] == p { return Ok(k.id); }
        return Err(Conflict);
      }
      if |queued| + |inFlight| >= capacity { return Err(ResourceExhausted); }
      liveIds := liveIds[k := p];
      liveOrder := liveOrder + [k];
      pending := pending[k.stream := (if k.stream in pending then pending[k.stream] else []) + [k]];
      queued := queued + {k};
      messages := messages[k := p];
      assert View() == Enqueue(old(View()), k, p);
      EvictTombstones();
      r := Ok(k.id);
    }

    method Consume(channel: Name, max: nat) returns (out: seq<Delivery>)
      modifies this
      ensures (View(), out) == Queue.Consume(old(View()), channel, max)
    {
      var n := if max == 0 then 1 else max;
      out := [];
      var i := 0;
      while i < n && channel in pending && pending[channel] != []
        invariant i <= n && View() == Taken(old(View()), channel, i) && out == Parcels(old(View()), channel, i)
      {
        var one := DeliverFront(channel);
        out := out + one;
        i := i + 1;
      }
      TakenRest(old(View()), channel, i, n);
      if channel in pending && pending[channel] == [] {
        pending := pending - {channel};
      }
    }

    method DeliverFront(channel: Name) returns (out: seq<Delivery>)
      requires channel in pending && pending[channel] != []
      modifies this
      ensures View() == Delivered(old(View()), channel) && out == Parcel(old(View()), channel)
    {
      var key := pending[channel][0];
      pending := pending[channel := pending[channel][1..]];
      queued := queued - {key};
      if key !in messages {
        assert messages - {key} == messages;
        return [];
      }
      var payload := messages[key];
      messages := messages - {key};
      var d := nextDelivery;
      nextDelivery := nextDelivery + 1;
      inFlight := inFlight[d := Flight(channel, key, payload)];
      out := [Delivery(d, key.id, payload)];
    }

    method Ack(d: nat) returns (r: Result<(), QueueError>)
      modifies this
      ensures (View(), r) == Queue.Ack(old(View()), d)
    {
      if d !in inFlight { return Err(NotFound); }
      inFlight := inFlight - {d};
      EvictTombstones();
      r := Ok(());
    }

    method Nack(d: nat) returns (r: Result<(), QueueError>)
      modifies this
      ensures (View(), r) == Queue.Nack(old(View()), d)
    {
      if d !in inFlight { return Err(NotFound); }
      var f := inFlight[d];
      inFlight := inFlight - {d};
      pending := pending[f.channel := [f.key] + (if f.channel in pending then pending[f.channel] else [])];
      queued := queued + {f.key};
      messages := messages[f.key := f.payload];
      r := Ok(());
    }
  }

  /** Once the channel is empty, further turns of the loop change nothing. */
  lemma {:induction false} TakenRest(q: State, channel: Name, i: nat, n: nat)
    requires i <= n && (i == n || Waiting(Taken(q, channel, i), channel) == [])
    ensures Taken(q, channel, n) == Taken(q, channel, i) && Parcels(q, channel, n) == Parcels(q, channel, i)
    decreases n
  {
    if i < n {
      TakenRest(q, channel, i, n - 1);
    }
  }

  // ---- Runs ----

  datatype Op =
    | Publish(key: Key, payload: Payload)
    | Consume(channel: Name, max: nat)
    | Ack(delivery: nat)
    | Nack(delivery: nat)

  function Step(q: State, capacity: nat, op: Op): State {
    match op
    case Publish(k, p) => Queue.Publish(q, capacity, k, p).0
    case Consume(channel, max) => Queue.Consume(q, channel, max).0
    case Ack(d) => Queue.Ack(q, d).0
    case Nack(d) => Queue.Nack(q, d).0
  }

  function Run(capacity: nat, ops: seq<Op>): State {
    if ops == [] then Empty else Step(Run(capacity, ops[..|ops| - 1]), capacity, ops[|ops| - 1])
  }

  /** The operation enqueued a new message under `k`. */
  predicate Accepts(q: State, capacity: nat, op: Op, k: Key) {
    op.Publish? && op.key == k && k !in q.liveIds && Occupied(q) < capacity
  }

  /** The operation acknowledged a delivery of `k`. */
  predicate Settles(q: State, op: Op, k: Key) { op.Ack? && op.delivery in q.inFlight && q.inFlight[op.delivery].key == k }

  function Bit(b: bool): nat { if b then 1 else 0 }

  function Accepted(capacity: nat, ops: seq<Op>, k: Key): nat {
    if ops == [] then 0
    else
      var n := |ops| - 1;
      Accepted(capacity, ops[..n], k) + Bit(Accepts(Run(capacity, ops[..n]), capacity, ops[n], k))
  }

  function Settled(capacity: nat, ops: seq<Op>, k: Key): nat {
    if ops == [] then 0
    else
      var n := |ops| - 1;
      Settled(capacity, ops[..n], k) + Bit(Settles(Run(capacity, ops[..n]), ops[n], k))
  }

  /** All messages accepted and all deliveries acknowledged, whatever their key. */
  function AcceptedTotal(capacity: nat, ops: seq<Op>): nat {
    if ops == [] then 0
    else
      var n := |ops| - 1;
      AcceptedTotal(capacity, ops[..n]) + Bit(ops[n].Publish? && Accepts(Run(capacity, ops[..n]), capacity, ops[n], ops[n].key))
  }

  function SettledTotal(capacity: nat, ops: seq<Op>): nat {
    if ops == [] then 0
    else
      var n := |ops| - 1;
      SettledTotal(capacity, ops[..n]) + Bit(ops[n].Ack? && ops[n].delivery in Run(capacity, ops[..n]).inFlight)
  }

  // ---- One step ----

  lemma {:induction false} StepKeeps(q: State, capacity: nat, op: Op)
    requires Coupled(q)
    ensures Coupled(Step(q, capacity, op))
  {
    match op
    case Publish(k, p) => PublishKeeps(q, capacity, k, p);
    case Consume(channel, max) => ConsumeKeeps(q, channel, max);
    case Ack(d) => AckKeeps(q, d);
    case Nack(d) => NackKeeps(q, d);
  }

  lemma {:induction false} PublishOccupied(q: State, capacity: nat, k: Key, p: Payload)
    requires Coupled(q)
    ensures Occupied(Queue.Publish(q, capacity, k, p).0) == Occupied(q) + Bit(Accepts(q, capacity, Publish(k, p), k))
  {
    if Accepts(q, capacity, Publish(k, p), k) {
      EnqueueKeeps(q, k, p);
      EvictKeeps(Enqueue(q, k, p), 0);
    }
  }

  lemma {:induction false} AckOccupied(q: State, d: nat)
    requires Coupled(q)
    ensures Occupied(Queue.Ack(q, d).0) + Bit(d in q.inFlight) == Occupied(q)
  {
    if d in q.inFlight {
      LandKeeps(q, d);
      EvictKeeps(q.(inFlight := q.inFlight - {d}), 0);
    }
  }

  lemma {:induction false} StepOccupied(q: State, capacity: nat, op: Op)
    requires Coupled(q)
    ensures Occupied(Step(q, capacity, op)) + Bit(op.Ack? && op.delivery in q.inFlight) ==
              Occupied(q) + Bit(op.Publish? && Accepts(q, capacity, op, op.key))
  {
    match op
    case Publish(k, p) => PublishOccupied(q, capacity, k, p);
    case Consume(channel, max) => ConsumeKeeps(q, channel, max);
    case Ack(d) => AckOccupied(q, d);
    case Nack(d) => NackKeeps(q, d);
  }

  lemma {:induction false} SameButActive(q: State, q': State, k: Key)
    requires q'.queued == q.queued && q'.inFlight == q.inFlight
    ensures Active(q', k) == Active(q, k)
  {
    assert Flying(q', k) == Flying(q, k);
  }

  lemma {:induction false} AttemptActive(q: State, channel: Name, k: Key)
    requires Coupled(q)
    ensures Active(Attempt(q, channel), k) == Active(q, k)
  {
    if Waiting(q, channel) != [] {
      FrontKey(q, channel);
      DeliverFlying(q, channel, k);
    }
  }

  /** The last of `n` turns leaves a key's standing as it was. */
  lemma {:induction false} TurnActive(q: State, channel: Name, n: nat, k: Key)
    requires n > 0 && Coupled(q)
    ensures Active(Taken(q, channel, n), k) == Active(Taken(q, channel, n - 1), k)
  {
    TakeKeeps(q, channel, n - 1);
    AttemptActive(Taken(q, channel, n - 1), channel, k);
  }

  lemma {:induction false} TakenActive(q: State, channel: Name, n: nat, k: Key)
    requires Coupled(q)
    ensures Active(Taken(q, channel, n), k) == Active(q, k)
  {
    if n > 0 {
      TurnActive(q, channel, n, k);
      TakenActive(q, channel, n - 1, k);
    }
  }

  /** A key is live exactly once between its acceptance and its acknowledgement. */
  lemma {:induction false} StepActive(q: State, capacity: nat, op: Op, k: Key)
    requires Coupled(q)
    ensures Bit(Active(Step(q, capacity, op), k)) + Bit(Settles(q, op, k)) == Bit(Active(q, k)) + Bit(Accepts(q, capacity, op, k))
  {
    match op
    case Publish(key, p) => PublishActive(q, capacity, key, p, k);
    case Consume(channel, max) =>
      var n := if max == 0 then 1 else max;
      TakenActive(q, channel, n, k);
      SameButActive(Taken(q, channel, n), Prune(Taken(q, channel, n), channel), k);
    case Ack(d) => AckActive(q, d, k);
    case Nack(d) => NackActive(q, d, k);
  }

  lemma {:induction false} PublishActive(q: State, capacity: nat, key: Key, p: Payload, k: Key)
    requires Coupled(q)
    ensures Bit(Active(Queue.Publish(q, capacity, key, p).0, k)) == Bit(Active(q, k)) + Bit(Accepts(q, capacity, Publish(key, p), k))
  {
    if Accepts(q, capacity, Publish(key, p), key) {
      var q1 := Enqueue(q, key, p);
      EnqueueKeeps(q, key, p);
      EvictKeeps(q1, 0);
      SameButActive(q1, Evict(q1, 0), k);
      assert Flying(q1, k) == Flying(q, k);
    }
  }

  lemma {:induction false} AckActive(q: State, d: nat, k: Key)
    requires Coupled(q)
    ensures Bit(Active(Queue.Ack(q, d).0, k)) + Bit(Settles(q, Ack(d), k)) == Bit(Active(q, k))
  {
    if d in q.inFlight {
      var q1 := q.(inFlight := q.inFlight - {d});
      LandKeeps(q, d);
      LandedKey(q, d, k);
      EvictKeeps(q1, 0);
      SameButActive(q1, Evict(q1, 0), k);
      FlyingKey(q, d);
    }
  }

  lemma {:induction false} FlyingKey(q: State, d: nat)
    requires Coupled(q) && d in q.inFlight
    ensures Flying(q, q.inFlight[d].key) && q.inFlight[d].key !in q.queued
  {
    assert KeyOk(q, q.inFlight[d].key);
  }

  lemma {:induction false} NackActive(q: State, d: nat, k: Key)
    requires Coupled(q)
    ensures Active(Queue.Nack(q, d).0, k) == Active(q, k)
  {
    if d in q.inFlight {
      LandedKey(q, d, k);
      FlyingKey(q, d);
      assert Flying(Requeue(q, d), k) == Flying(q.(inFlight := q.inFlight - {d}), k);
    }
  }

  // ---- Every run ----

  lemma {:induction false} EmptyCoupled()
    ensures Coupled(Empty)
  {
  }

  /**
   * After any operations: the seven collections agree, live messages never exceed the capacity, and
   * per key as well as in total everything accepted is pending, in flight or acknowledged.
   */
  lemma {:induction false} QueueAccounts(capacity: nat, ops: seq<Op>, k: Key)
    ensures var q := Run(capacity, ops);
            && Coupled(q)
            && Occupied(q) <= capacity
            && AcceptedTotal(capacity, ops) == Occupied(q) + SettledTotal(capacity, ops)
            && Accepted(capacity, ops, k) == Bit(Active(q, k)) + Settled(capacity, ops, k)
  {
    if ops == [] {
      EmptyCoupled();
    } else {
      var n := |ops| - 1;
      var q := Run(capacity, ops[..n]);
      QueueAccounts(capacity, ops[..n], k);
      StepKeeps(q, capacity, ops[n]);
      StepOccupied(q, capacity, ops[n]);
      StepActive(q, capacity, ops[n], k);
    }
  }

  // ---- The size of the dedupe index ----

  lemma {:induction false} TakenIndex(q: State, channel: Name, n: nat)
    ensures Taken(q, channel, n).liveIds == q.liveIds
  {
    if n > 0 {
      TakenIndex(q, channel, n - 1);
    }
  }

  lemma {:induction false} EnqueueSizes(q: State, k: Key, p: Payload)
    requires Coupled(q) && k !in q.liveIds
    ensures OrderOk(Enqueue(q, k, p)) && |Enqueue(q, k, p).liveIds| == |q.liveIds| + 1 && Occupied(Enqueue(q, k, p)) == Occupied(q) + 1
  {
    assert Enqueue(q, k, p).liveIds.Keys == q.liveIds.Keys + {k};
    EnqueueKeeps(q, k, p);
  }

  lemma {:induction false} PublishIndex(q: State, capacity: nat, k: Key, p: Payload)
    requires Coupled(q) && Occupied(q) <= capacity <= TOMBSTONE_CAP && |q.liveIds| <= TOMBSTONE_CAP
    ensures |Queue.Publish(q, capacity, k, p).0.liveIds| <= TOMBSTONE_CAP
  {
    if k !in q.liveIds && Occupied(q) < capacity {
      EnqueueSizes(q, k, p);
      EvictBounds(Enqueue(q, k, p), capacity);
    }
  }

  lemma {:induction false} AckIndex(q: State, capacity: nat, d: nat)
    requires Coupled(q) && Occupied(q) <= capacity <= TOMBSTONE_CAP && |q.liveIds| <= TOMBSTONE_CAP
    ensures |Queue.Ack(q, d).0.liveIds| <= TOMBSTONE_CAP
  {
    if d in q.inFlight {
      LandKeeps(q, d);
      EvictBounds(q.(inFlight := q.inFlight - {d}), capacity);
    }
  }

  lemma {:induction false} StepIndex(q: State, capacity: nat, op: Op)
    requires Coupled(q) && Occupied(q) <= capacity <= TOMBSTONE_CAP && |q.liveIds| <= TOMBSTONE_CAP
    ensures |Step(q, capacity, op).liveIds| <= TOMBSTONE_CAP
  {
    match op
    case Publish(k, p) => PublishIndex(q, capacity, k, p);
    case Consume(channel, max) => TakenIndex(q, channel, if max == 0 then 1 else max);
    case Ack(d) => AckIndex(q, capacity, d);
    case Nack(d) =>
  }

  lemma {:induction false} IndexStaysBounded(capacity: nat, ops: seq<Op>)
    requires capacity <= TOMBSTONE_CAP
    ensures |Run(capacity, ops).liveIds| <= TOMBSTONE_CAP
  {
    if ops != [] {
      var n := |ops| - 1;
      IndexStaysBounded(capacity, ops[..n]);
      QueueAccounts(capacity, ops[..n], Key(Name(""), Name("")));
      StepIndex(Run(capacity, ops[..n]), capacity, ops[n]);
    }
  }

  /** Distinct message ids, one per number. */
  function Numbered(n: nat): Key { Key(Name(""), Name(seq(n, _ => 'm'))) }

  function Fill(n: nat): seq<Op> { seq(n, i requires 0 <= i < n => Publish(Numbered(i), [])) }

  lemma {:induction false} NumberedDistinct(m: nat, n: nat)
    requires m != n
    ensures Numbered(m) != Numbered(n)
  {
    assert |Numbered(m).id.text| == m && |Numbered(n).id.text| == n;
  }

  /** Eviction forgets nothing while every indexed key is live. */
  lemma {:induction false} EvictAllLive(q: State, scanned: nat)
    requires forall k :: k in q.liveOrder ==> k in q.queued
    ensures Evict(q, scanned).liveIds == q.liveIds && Evict(q, scanned).queued == q.queued && Evict(q, scanned).inFlight == q.inFlight
    ensures forall k :: k in Evict(q, scanned).liveOrder ==> k in q.queued
    decreases |q.liveOrder| - scanned
  {
    if |q.liveIds| > TOMBSTONE_CAP && scanned < |q.liveOrder| {
      assert q.liveOrder[0] in q.liveOrder;
      EvictAllLive(Rotated(q), scanned + 1);
    }
  }

  /** `n` numbered messages are queued, and nothing else ever was. */
  ghost predicate Filled(q: State, n: nat) {
    && |q.queued| == n && q.inFlight == map[] && q.liveIds.Keys == q.queued
    && (forall k :: k in q.liveOrder ==> k in q.queued)
    && (forall k :: k in q.queued ==> exists i :: 0 <= i < n && k == Numbered(i))
  }

  lemma {:induction false} NumberIsNew(q: State, n: nat)
    requires Filled(q, n)
    ensures Numbered(n) !in q.queued
  {
    forall x | x in q.queued ensures x != Numbered(n) {
      var i :| 0 <= i < n && x == Numbered(i);
      NumberedDistinct(i, n);
    }
  }

  lemma {:induction false} FillStep(capacity: nat, n: nat, q: State)
    requires n < capacity && Filled(q, n)
    ensures Filled(Step(q, capacity, Publish(Numbered(n), [])), n + 1)
  {
    NumberIsNew(q, n);
    var q1 := Enqueue(q, Numbered(n), []);
    assert q1.liveIds.Keys == q.liveIds.Keys + {Numbered(n)};
    EvictAllLive(q1, 0);
  }

  lemma {:induction false} FillOneMore(capacity: nat, n: nat)
    ensures Run(capacity, Fill(n + 1)) == Step(Run(capacity, Fill(n)), capacity, Publish(Numbered(n), []))
  {
    assert Fill(n + 1)[..n] == Fill(n);
  }

  lemma {:induction false} FillMore(capacity: nat, n: nat)
    requires 0 < n <= capacity && Filled(Run(capacity, Fill(n - 1)), n - 1)
    ensures Filled(Run(capacity, Fill(n)), n)
  {
    FillOneMore(capacity, n - 1);
    FillStep(capacity, n - 1, Run(capacity, Fill(n - 1)));
  }

  lemma {:induction false} FillNone(capacity: nat)
    ensures Filled(Run(capacity, Fill(0)), 0)
  {
    assert Fill(0) == [];
  }

  lemma {:induction false} FillState(capacity: nat, n: nat)
    requires n <= capacity
    ensures Filled(Run(capacity, Fill(n)), n)
  {
    if n == 0 {
      FillNone(capacity);
    } else {
      FillState(capacity, n - 1);
      FillMore(capacity, n);
    }
  }

  lemma {:induction false} FilledSize(q: State, n: nat)
    requires Filled(q, n)
    ensures |q.liveIds| == n
  {
    assert |q.liveIds.Keys| == |q.liveIds|;
  }

  /** The dedupe index stays within its cap in every run exactly when the capacity does. */
  lemma {:induction false} IndexBoundedIff(capacity: nat)
    ensures (forall ops :: |Run(capacity, ops).liveIds| <= TOMBSTONE_CAP) <==> capacity <= TOMBSTONE_CAP
  {
    if capacity <= TOMBSTONE_CAP {
      forall ops ensures |Run(capacity, ops).liveIds| <= TOMBSTONE_CAP {
        IndexStaysBounded(capacity, ops);
      }
    } else {
      var ops := Fill(TOMBSTONE_CAP + 1);
      FillState(capacity, TOMBSTONE_CAP + 1);
      FilledSize(Run(capacity, ops), TOMBSTONE_CAP + 1);
      assert |Run(capacity, ops).liveIds| > TOMBSTONE_CAP;
    }
  }

  // ---- Payloads ----

  /** The payload of the last message accepted under `k`. */
  function LastAccepted(capacity: nat, ops: seq<Op>, k: Key): Option<Payload> {
    if ops == [] then None
    else
      var n := |ops| - 1;
      if Accepts(Run(capacity, ops[..n]), capacity, ops[n], k) then Some(ops[n].payload)
      else LastAccepted(capacity, ops[..n], k)
  }

  ghost predicate IndexMoves(q: State, capacity: nat, op: Op, q': State, k: Key) {
    k in q'.liveIds ==>
      if Accepts(q, capacity, op, k) then q'.liveIds[k] == op.payload else k in q.liveIds && q'.liveIds[k] == q.liveIds[k]
  }

  lemma {:induction false} PublishMoves(q: State, capacity: nat, key: Key, p: Payload, k: Key)
    requires Coupled(q)
    ensures IndexMoves(q, capacity, Publish(key, p), Queue.Publish(q, capacity, key, p).0, k)
  {
    if Accepts(q, capacity, Publish(key, p), key) {
      EnqueueKeeps(q, key, p);
      EvictKeeps(Enqueue(q, key, p), 0);
    }
  }

  lemma {:induction false} StepMoves(q: State, capacity: nat, op: Op, k: Key)
    requires Coupled(q)
    ensures IndexMoves(q, capacity, op, Step(q, capacity, op), k)
  {
    match op
    case Publish(key, p) => PublishMoves(q, capacity, key, p, k);
    case Consume(channel, max) => TakenIndex(q, channel, if max == 0 then 1 else max);
    case Ack(d) =>
      if d in q.inFlight {
        LandKeeps(q, d);
        EvictKeeps(q.(inFlight := q.inFlight - {d}), 0);
      }
    case Nack(d) =>
  }

  /** What the index remembers of a key is the payload last accepted under it. */
  lemma {:induction false} IndexIsLastAccepted(capacity: nat, ops: seq<Op>, k: Key)
    requires k in Run(capacity, ops).liveIds
    ensures LastAccepted(capacity, ops, k) == Some(Run(capacity, ops).liveIds[k])
  {
    if ops != [] {
      var n := |ops| - 1;
      QueueAccounts(capacity, ops[..n], k);
      StepMoves(Run(capacity, ops[..n]), capacity, ops[n], k);
      if k in Run(capacity, ops[..n]).liveIds {
        IndexIsLastAccepted(capacity, ops[..n], k);
      }
    }
  }

  lemma {:induction false} ActiveIsIndexed(q: State, k: Key)
    requires Coupled(q) && Active(q, k)
    ensures k in q.liveIds
  {
    assert KeyOk(q, k);
    if d :| d in q.inFlight && q.inFlight[d].key == k {
      assert FlightOk(q, d);
    }
  }

  /** However often it is handed out again, a message carries the payload it was accepted with. */
  lemma {:induction false} DeliveriesCarryAccepted(capacity: nat, ops: seq<Op>, d: nat)
    requires d in Run(capacity, ops).inFlight
    ensures var f := Run(capacity, ops).inFlight[d]; LastAccepted(capacity, ops, f.key) == Some(f.payload)
  {
    var f := Run(capacity, ops).inFlight[d];
    QueueAccounts(capacity, ops, f.key);
    assert FlightOk(Run(capacity, ops), d);
    IndexIsLastAccepted(capacity, ops, f.key);
  }

  /**
   * Until it is acknowledged, publishing a message again changes nothing: the accepted payload is
   * confirmed, whatever room there is, and any other one is a conflict.
   */
  lemma {:induction false} RetryIsIdempotent(capacity: nat, ops: seq<Op>, k: Key, p: Payload)
    requires Active(Run(capacity, ops), k)
    ensures Queue.Publish(Run(capacity, ops), capacity, k, p) ==
              (Run(capacity, ops), if Some(p) == LastAccepted(capacity, ops, k) then Ok(k.id) else Err(Conflict))
  {
    QueueAccounts(capacity, ops, k);
    ActiveIsIndexed(Run(capacity, ops), k);
    IndexIsLastAccepted(capacity, ops, k);
  }

  // ---- Order ----

  /** The keys accepted on a channel, oldest first. */
  function AcceptedKeys(capacity: nat, ops: seq<Op>, channel: Name): seq<Key> {
    if ops == [] then []
    else
      var n := |ops| - 1;
      AcceptedKeys(capacity, ops[..n], channel)
      + if ops[n].Publish? && ops[n].key.stream == channel && Accepts(Run(capacity, ops[..n]), capacity, ops[n], ops[n].key)
        then [ops[n].key] else []
  }

  /** The keys an operation hands out on a channel. */
  function HandedBy(q: State, op: Op, channel: Name): seq<Key> {
    if op.Consume? && op.channel == channel
    then Map(Queue.Consume(q, channel, op.max).1, (d: Delivery) => Key(channel, d.messageId)) else []
  }

  function HandedKeys(capacity: nat, ops: seq<Op>, channel: Name): seq<Key> {
    if ops == [] then []
    else
      var n := |ops| - 1;
      HandedKeys(capacity, ops[..n], channel) + HandedBy(Run(capacity, ops[..n]), ops[n], channel)
  }

  /** Without a nack, an operation takes from the front of a channel and adds to its back. */
  ghost predicate Moves(q: State, capacity: nat, op: Op, q': State, channel: Name) {
    HandedBy(q, op, channel) + Waiting(q', channel) ==
      Waiting(q, channel)
      + if op.Publish? && op.key.stream == channel && Accepts(q, capacity, op, op.key) then [op.key] else []
  }

  lemma {:induction false} PublishOrder(q: State, capacity: nat, k: Key, p: Payload, channel: Name)
    requires Coupled(q)
    ensures Moves(q, capacity, Publish(k, p), Queue.Publish(q, capacity, k, p).0, channel)
  {
    if Accepts(q, capacity, Publish(k, p), k) {
      EnqueueKeeps(q, k, p);
      EvictKeeps(Enqueue(q, k, p), 0);
    }
  }

  lemma {:induction false} OtherChannel(q: State, c: Name, n: nat, channel: Name)
    requires c != channel
    ensures Waiting(Taken(q, c, n), channel) == Waiting(q, channel)
  {
    if n > 0 {
      OtherChannel(q, c, n - 1, channel);
    }
  }

  lemma {:induction false} PrunedOrder(q: State, c: Name, channel: Name)
    ensures Waiting(Prune(q, c), channel) == Waiting(q, channel)
  {
  }

  lemma {:induction false} FrontKeys(q: State, channel: Name, out: seq<Delivery>)
    requires Coupled(q) && IsFront(q, channel, out)
    ensures Map(out, (d: Delivery) => Key(channel, d.messageId)) == Waiting(q, channel)[..|out|]
  {
    assert ChannelOk(q, channel);
    forall i | 0 <= i < |out| ensures Key(channel, out[i].messageId) == Waiting(q, channel)[i] {
      assert out[i] == Handed(q, channel, i) && Waiting(q, channel)[i].stream == channel;
    }
  }

  lemma {:induction false} ConsumeOrder(q: State, capacity: nat, c: Name, max: nat, channel: Name)
    requires Coupled(q)
    ensures Moves(q, capacity, Consume(c, max), Queue.Consume(q, c, max).0, channel)
  {
    var n := if max == 0 then 1 else max;
    PrunedOrder(Taken(q, c, n), c, channel);
    if c == channel {
      ParcelsAreFront(q, c, n);
      TakenAdvances(q, c, n);
      FrontKeys(q, c, Parcels(q, c, n));
    } else {
      OtherChannel(q, c, n, channel);
    }
  }

  lemma {:induction false} StepOrder(q: State, capacity: nat, op: Op, channel: Name)
    requires Coupled(q) && !op.Nack?
    ensures Moves(q, capacity, op, Step(q, capacity, op), channel)
  {
    match op
    case Publish(k, p) => PublishOrder(q, capacity, k, p, channel);
    case Consume(c, max) => ConsumeOrder(q, capacity, c, max, channel);
    case Ack(d) =>
      if d in q.inFlight {
        LandKeeps(q, d);
        EvictKeeps(q.(inFlight := q.inFlight - {d}), 0);
      }
  }

  /** Unless something is nacked, a channel is first in, first out: what was handed out, then what waits, is what was accepted. */
  lemma {:induction false} FirstInFirstOut(capacity: nat, ops: seq<Op>, channel: Name)
    requires forall i :: 0 <= i < |ops| ==> !ops[i].Nack?
    ensures HandedKeys(capacity, ops, channel) + Waiting(Run(capacity, ops), channel) == AcceptedKeys(capacity, ops, channel)
  {
    if ops != [] {
      var n := |ops| - 1;
      var q := Run(capacity, ops[..n]);
      FirstInFirstOut(capacity, ops[..n], channel);
      QueueAccounts(capacity, ops[..n], Key(channel, channel));
      StepOrder(q, capacity, ops[n], channel);
      Associative(HandedKeys(capacity, ops[..n], channel), HandedBy(q, ops[n], channel), Waiting(Run(capacity, ops), channel));
      Associative(HandedKeys(capacity, ops[..n], channel), Waiting(q, channel),
        if ops[n].Publish? && ops[n].key.stream == channel && Accepts(q, capacity, ops[n], ops[n].key) then [ops[n].key] else []);
    }
  }

  lemma {:induction false} NackHandsOut(q: State, d: nat)
    requires d in q.inFlight && FlightOk(q, d)
    ensures var f, q' := q.inFlight[d], Queue.Nack(q, d).0;
            && Waiting(q', f.key.stream) == [f.key] + Waiting(q, f.key.stream)
            && d !in q'.inFlight
            && Queue.Consume(q', f.key.stream, 1).1 == [Delivery(q.nextDelivery, f.key.id, f.payload)]
  {
    var f := q.inFlight[d];
    assert Parcels(Requeue(q, d), f.channel, 1) == [] + Handout(Taken(Requeue(q, d), f.channel, 0), f.channel);
    assert Waiting(Requeue(q, d), f.channel)[0] == f.key;
  }

  /** A nacked delivery goes back to the very front of its channel, so it is the next one handed out. */
  lemma {:induction false} NackedIsNext(capacity: nat, ops: seq<Op>, d: nat)
    requires d in Run(capacity, ops).inFlight
    ensures var q, q' := Run(capacity, ops), Queue.Nack(Run(capacity, ops), d).0;
            var f := q.inFlight[d];
            && Waiting(q', f.key.stream) == [f.key] + Waiting(q, f.key.stream)
            && d !in q'.inFlight
            && Queue.Consume(q', f.key.stream, 1).1 == [Delivery(q.nextDelivery, f.key.id, f.payload)]
  {
    QueueAccounts(capacity, ops, Run(capacity, ops).inFlight[d].key);
    NackHandsOut(Run(capacity, ops), d);
  }
}
