/** The in-memory message queue: seven coupled collections behind one lock (message-queue/src/in_memory.rs). */
module Queue {
  import opened Common

  datatype Name = Name(text: string)

  /** The dedupe key: stream and message id. */
  datatype Key = Key(stream: Name, id: Name)

  type Payload = seq<byte>

  datatype Flight = Flight(channel: Name, key: Key, payload: Payload)

  /** Delivery `n` is the delivery id "d-n". */
  datatype State = State(
    liveIds: map<Key, Payload>, liveOrder: seq<Key>,
    pending: map<Name, seq<Key>>, queued: set<Key>, messages: map<Key, Payload>,
    inFlight: map<nat, Flight>, nextDelivery: nat)

  datatype QueueError = Conflict | ResourceExhausted | NotFound

  datatype Delivery = Delivery(id: nat, messageId: Name, payload: Payload)

  const CAPACITY := 1024

  const TOMBSTONE_CAP := CAPACITY * 4

  const Empty := State(map[], [], map[], {}, map[], map[], 1)

  function Occupied(q: State): nat { |q.queued| + |q.inFlight| }

  predicate Flying(q: State, k: Key) { exists d :: d in q.inFlight && q.inFlight[d].key == k }

  predicate Active(q: State, k: Key) { k in q.queued || Flying(q, k) }

  function Waiting(q: State, channel: Name): seq<Key> { if channel in q.pending then q.pending[channel] else [] }

  // ---- Specification ----

  function Rotated(q: State): State
    requires q.liveOrder != []
  {
    q.(liveOrder := q.liveOrder[1..] + [q.liveOrder[0]])
  }

  function Forgot(q: State): (r: State)
    requires q.liveOrder != []
    ensures |r.liveIds| >= |q.liveIds| - 1
  {
    assert (q.liveIds - {q.liveOrder[0]}).Keys == q.liveIds.Keys - {q.liveOrder[0]};
    q.(liveOrder := q.liveOrder[1..], liveIds := q.liveIds - {q.liveOrder[0]})
  }

  /** One turn of the scan. */
  function Scanned(q: State): State
    requires q.liveOrder != []
  {
    if Active(q, q.liveOrder[0]) then Rotated(q) else Forgot(q)
  }

  /**
   * Scans the dedupe order from the front: active keys go to the back, tombstones are forgotten, until
   * the cap is met and no further.
   */
  function Evict(q: State, scanned: nat): (r: State)
    ensures if |q.liveIds| <= TOMBSTONE_CAP then r == q else TOMBSTONE_CAP <= |r.liveIds|
    ensures OrderOk(q) ==> Evicted(q, r)
    decreases |q.liveOrder| - scanned
  {
    if |q.liveIds| <= TOMBSTONE_CAP || scanned >= |q.liveOrder| then q
    else
      var q1 := Scanned(q);
      var r := Evict(q1, scanned + 1);
      TurnEvicts(q, r);
      r
  }

  function Enqueue(q: State, k: Key, p: Payload): State {
    q.(liveIds := q.liveIds[k := p], liveOrder := q.liveOrder + [k],
       pending := q.pending[k.stream := Waiting(q, k.stream) + [k]],
       queued := q.queued + {k}, messages := q.messages[k := p])
  }

  function Publish(q: State, capacity: nat, k: Key, p: Payload): (State, Result<Name, QueueError>) {
    if k in q.liveIds then (q, if q.liveIds[k] == p then Ok(k.id) else Err(Conflict))
    else if Occupied(q) >= capacity then (q, Err(ResourceExhausted))
    else (Evict(Enqueue(q, k, p), 0), Ok(k.id))
  }

  /** The front key leaves its channel. */
  function Popped(q: State, channel: Name): State
    requires Waiting(q, channel) != []
  {
    var queue := Waiting(q, channel);
    q.(pending := q.pending[channel := queue[1..]], queued := q.queued - {queue[0]}, messages := q.messages - {queue[0]})
  }

  /** Moves the front of a channel into flight; a key without a stored payload is dropped. */
  function Delivered(q: State, channel: Name): State
    requires Waiting(q, channel) != []
  {
    var key := Waiting(q, channel)[0];
    if key !in q.messages then Popped(q, channel)
    else
      Popped(q, channel).(inFlight := q.inFlight[q.nextDelivery := Flight(channel, key, q.messages[key])],
                          nextDelivery := q.nextDelivery + 1)
  }

  function Parcel(q: State, channel: Name): seq<Delivery>
    requires Waiting(q, channel) != []
  {
    var key := Waiting(q, channel)[0];
    if key !in q.messages then [] else [Delivery(q.nextDelivery, key.id, q.messages[key])]
  }

  function Attempt(q: State, channel: Name): State { if Waiting(q, channel) == [] then q else Delivered(q, channel) }

  function Handout(q: State, channel: Name): seq<Delivery> { if Waiting(q, channel) == [] then [] else Parcel(q, channel) }

  /** Up to `n` deliveries from a channel: the state they leave, and what is handed out. */
  function Taken(q: State, channel: Name, n: nat): State {
    if n == 0 then q else Attempt(Taken(q, channel, n - 1), channel)
  }

  function Parcels(q: State, channel: Name, n: nat): seq<Delivery> {
    if n == 0 then [] else Parcels(q, channel, n - 1) + Handout(Taken(q, channel, n - 1), channel)
  }

  /** A drained channel is dropped from the map. */
  function Prune(q: State, channel: Name): State {
    if channel in q.pending && q.pending[channel] == [] then q.(pending := q.pending - {channel}) else q
  }

  function Consume(q: State, channel: Name, max: nat): (State, seq<Delivery>) {
    var n := if max == 0 then 1 else max;
    (Prune(Taken(q, channel, n), channel), Parcels(q, channel, n))
  }

  function Ack(q: State, d: nat): (State, Result<(), QueueError>) {
    if d !in q.inFlight then (q, Err(NotFound)) else (Evict(q.(inFlight := q.inFlight - {d}), 0), Ok(()))
  }

  function Requeue(q: State, d: nat): State
    requires d in q.inFlight
  {
    var f := q.inFlight[d];
    q.(inFlight := q.inFlight - {d}, pending := q.pending[f.channel := [f.key] + Waiting(q, f.channel)],
       queued := q.queued + {f.key}, messages := q.messages[f.key := f.payload])
  }

  function Nack(q: State, d: nat): (State, Result<(), QueueError>) {
    if d !in q.inFlight then (q, Err(NotFound)) else (Requeue(q, d), Ok(()))
  }

  // ---- The invariant ----

  /** A channel's queue: only its own stream's keys, each once, all queued. */
  ghost predicate ChannelOk(q: State, channel: Name) {
    && Distinct(Waiting(q, channel))
    && (forall i :: 0 <= i < |Waiting(q, channel)| ==> Waiting(q, channel)[i].stream == channel && Waiting(q, channel)[i] in q.queued)
  }

  ghost predicate KeyOk(q: State, k: Key) {
    && (k in q.queued <==> k in q.messages)
    && (k in q.queued <==> k in Waiting(q, k.stream))
    && (k in q.queued ==> !Flying(q, k) && k in q.liveIds && q.messages[k] == q.liveIds[k])
  }

  ghost predicate FlightOk(q: State, d: nat) {
    d in q.inFlight ==>
      var f := q.inFlight[d];
      && d < q.nextDelivery && f.channel == f.key.stream && f.key in q.liveIds && f.payload == q.liveIds[f.key]
      && (forall e :: e in q.inFlight && q.inFlight[e].key == f.key ==> e == d)
  }

  ghost predicate OrderOk(q: State) {
    && Distinct(q.liveOrder)
    && (forall k :: k in q.liveOrder <==> k in q.liveIds)
  }

  ghost predicate Coupled(q: State) {
    && (forall c :: ChannelOk(q, c))
    && (forall k :: KeyOk(q, k))
    && (forall d :: FlightOk(q, d))
    && OrderOk(q)
  }

  // ---- Eviction ----

  lemma {:induction false} RotateOrder(q: State)
    requires OrderOk(q) && q.liveOrder != []
    ensures OrderOk(Rotated(q)) && SameBut(q, Rotated(q))
  {
    var s, q' := q.liveOrder, Rotated(q);
    var n := |s|;
    assert forall i :: 0 <= i < n ==> q'.liveOrder[i] == s[if i < n - 1 then i + 1 else 0];
    forall k ensures k in q'.liveOrder <==> k in q'.liveIds {
      if k in s {
        var i :| 0 <= i < n && s[i] == k;
        assert q'.liveOrder[if i == 0 then n - 1 else i - 1] == k;
      }
    }
  }

  lemma {:induction false} ForgetOrder(q: State)
    requires OrderOk(q) && q.liveOrder != [] && !Active(q, q.liveOrder[0])
    ensures OrderOk(Forgot(q)) && SameBut(q, Forgot(q))
  {
    var s, q' := q.liveOrder, Forgot(q);
    forall k ensures k in q'.liveOrder <==> k in q'.liveIds {
      assert s == [s[0]] + s[1..];
    }
  }

  /** The same queue with another dedupe index that keeps every active key. */
  ghost predicate SameBut(q: State, q': State) {
    && q' == q.(liveIds := q'.liveIds, liveOrder := q'.liveOrder)
    && (forall k :: k in q'.liveIds ==> k in q.liveIds && q'.liveIds[k] == q.liveIds[k])
    && (forall k :: k in q.liveIds && Active(q, k) ==> k in q'.liveIds)
  }

  lemma {:induction false} SameButKey(q: State, q': State, k: Key)
    requires SameBut(q, q') && KeyOk(q, k)
    ensures KeyOk(q', k)
  {
    assert Flying(q', k) == Flying(q, k);
    if k in q.queued { assert Active(q, k); }
  }

  lemma {:induction false} SameButFlight(q: State, q': State, d: nat)
    requires SameBut(q, q') && FlightOk(q, d)
    ensures FlightOk(q', d)
  {
    if d in q.inFlight { assert Active(q, q.inFlight[d].key); }
  }

  lemma {:induction false} SameButCoupled(q: State, q': State)
    requires Coupled(q) && SameBut(q, q') && OrderOk(q')
    ensures Coupled(q')
  {
    forall c ensures ChannelOk(q', c) { assert ChannelOk(q, c); }
    forall k ensures KeyOk(q', k) { SameButKey(q, q', k); }
    forall d ensures FlightOk(q', d) { SameButFlight(q, q', d); }
  }

  lemma {:induction false} SameButTransitive(q: State, q1: State, q2: State)
    requires SameBut(q, q1) && SameBut(q1, q2)
    ensures SameBut(q, q2)
  {
    forall k ensures Active(q1, k) == Active(q, k) {
      assert Flying(q1, k) == Flying(q, k);
    }
  }

  lemma {:induction false} ScannedKeeps(q: State)
    requires OrderOk(q) && q.liveOrder != []
    ensures SameBut(q, Scanned(q)) && OrderOk(Scanned(q))
  {
    if Active(q, q.liveOrder[0]) {
      RotateOrder(q);
    } else {
      ForgetOrder(q);
    }
  }

  lemma {:induction false} EvictGoesOn(q: State, scanned: nat)
    requires |q.liveIds| > TOMBSTONE_CAP && scanned < |q.liveOrder|
    ensures Evict(q, scanned) == Evict(Scanned(q), scanned + 1)
  {
  }

  /** `r` is what eviction may leave of `q`. */
  ghost predicate Evicted(q: State, r: State) { SameBut(q, r) && OrderOk(r) }

  lemma {:induction false} TurnEvicts(q: State, r: State)
    requires q.liveOrder != []
    ensures OrderOk(q) ==> OrderOk(Scanned(q)) && (Evicted(Scanned(q), r) ==> Evicted(q, r))
  {
    if OrderOk(q) {
      ScannedKeeps(q);
      if Evicted(Scanned(q), r) {
        SameButTransitive(q, Scanned(q), r);
      }
    }
  }

  /** Eviction terminates, forgets only keys that are neither queued nor in flight, and keeps the order an index of the map. */
  lemma {:induction false} EvictKeeps(q: State, scanned: nat)
    requires OrderOk(q)
    ensures SameBut(q, Evict(q, scanned)) && OrderOk(Evict(q, scanned))
  {
    assert Evicted(q, Evict(q, scanned));
  }

  lemma {:induction false} OrderSize(q: State)
    requires OrderOk(q)
    ensures |q.liveOrder| == |q.liveIds|
  {
    DistinctCardinality(q.liveOrder);
    assert (set k | k in q.liveOrder) == q.liveIds.Keys;
  }

  function FlightKeys(m: map<nat, Flight>): set<Key> { set d | d in m :: m[d].key }

  lemma {:induction false} FlightKeysSize(m: map<nat, Flight>)
    ensures |FlightKeys(m)| <= |m|
  {
    if m != map[] {
      var d :| d in m;
      var rest := m - {d};
      FlightKeysSize(rest);
      assert FlightKeys(m) == FlightKeys(rest) + {m[d].key};
      assert m.Keys == rest.Keys + {d};
    } else {
      assert FlightKeys(m) == {};
    }
  }

  lemma {:induction false} SubsetSize<T>(a: set<T>, b: set<T>)
    requires a <= b
    ensures |a| <= |b|
  {
    assert b == a + (b - a);
  }

  /** When the index outnumbers the live messages it holds a tombstone. */
  lemma {:induction false} TombstoneExists(q: State) returns (i: nat)
    requires OrderOk(q) && Occupied(q) < |q.liveOrder|
    ensures i < |q.liveOrder| && !Active(q, q.liveOrder[i])
  {
    if i' :| 0 <= i' < |q.liveOrder| && !Active(q, q.liveOrder[i']) {
      i := i';
    } else {
      var all, active := (set k | k in q.liveOrder), q.queued + FlightKeys(q.inFlight);
      DistinctCardinality(q.liveOrder);
      FlightKeysSize(q.inFlight);
      SubsetSize(all, active);
      assert false;
    }
  }

  ghost predicate Indexed(q: State) { forall k :: k in q.liveOrder ==> k in q.liveIds }

  lemma {:induction false} RotateTombstone(q: State, i: nat)
    requires Indexed(q) && 0 < i < |q.liveOrder| && !Active(q, q.liveOrder[i])
    ensures Indexed(Rotated(q)) && !Active(Rotated(q), Rotated(q).liveOrder[i - 1])
  {
    assert Rotated(q).liveOrder[i - 1] == q.liveOrder[i];
    assert Flying(Rotated(q), q.liveOrder[i]) == Flying(q, q.liveOrder[i]);
  }

  lemma {:induction false} EvictForgets(q: State, scanned: nat)
    requires Indexed(q) && |q.liveIds| == TOMBSTONE_CAP + 1 && scanned < |q.liveOrder| && !Active(q, q.liveOrder[0])
    ensures |Evict(q, scanned).liveIds| == TOMBSTONE_CAP
  {
    assert q.liveOrder[0] in q.liveIds;
    assert Forgot(q).liveIds.Keys == q.liveIds.Keys - {q.liveOrder[0]};
  }

  /** One key over the cap, and a tombstone among the keys not scanned yet: eviction reaches it. */
  lemma {:induction false} EvictReaches(q: State, scanned: nat, i: nat)
    requires Indexed(q) && |q.liveIds| == TOMBSTONE_CAP + 1
    requires i + scanned < |q.liveOrder| && !Active(q, q.liveOrder[i])
    ensures |Evict(q, scanned).liveIds| == TOMBSTONE_CAP
    decreases i
  {
    if i == 0 || !Active(q, q.liveOrder[0]) {
      EvictForgets(q, scanned);
    } else {
      RotateTombstone(q, i);
      EvictReaches(Rotated(q), scanned + 1, i - 1);
    }
  }

  lemma {:induction false} EvictBounds(q: State, capacity: nat)
    requires OrderOk(q) && Occupied(q) <= capacity <= TOMBSTONE_CAP && |q.liveIds| <= TOMBSTONE_CAP + 1
    ensures |Evict(q, 0).liveIds| <= TOMBSTONE_CAP
  {
    if |q.liveIds| > TOMBSTONE_CAP {
      OrderSize(q);
      var i := TombstoneExists(q);
      EvictReaches(q, 0, i);
    }
  }

  // ---- Each operation keeps the collections coupled ----

  lemma {:induction false} EnqueueKeeps(q: State, k: Key, p: Payload)
    requires Coupled(q) && k !in q.liveIds
    ensures Coupled(Enqueue(q, k, p)) && k !in q.queued && !Flying(q, k)
  {
    var q' := Enqueue(q, k, p);
    assert KeyOk(q, k) && ChannelOk(q, k.stream);
    NotFlying(q, k);
    forall c ensures ChannelOk(q', c) {
      assert ChannelOk(q, c);
    }
    forall x ensures KeyOk(q', x) {
      assert KeyOk(q, x) && Flying(q', x) == Flying(q, x);
    }
    forall d ensures FlightOk(q', d) {
      assert FlightOk(q, d);
    }
    assert OrderOk(q');
  }

  lemma {:induction false} NotFlying(q: State, k: Key)
    requires Coupled(q) && k !in q.liveIds
    ensures !Flying(q, k)
  {
    forall d | d in q.inFlight ensures q.inFlight[d].key != k {
      assert FlightOk(q, d);
    }
  }

  lemma {:induction false} PublishKeeps(q: State, capacity: nat, k: Key, p: Payload)
    requires Coupled(q)
    ensures Coupled(Publish(q, capacity, k, p).0)
  {
    if k !in q.liveIds && Occupied(q) < capacity {
      EnqueueKeeps(q, k, p);
      EvictKeeps(Enqueue(q, k, p), 0);
      SameButCoupled(Enqueue(q, k, p), Evict(Enqueue(q, k, p), 0));
    }
  }

  /** The front of a channel is a stored key of that stream, in no flight. */
  lemma {:induction false} FrontKey(q: State, channel: Name)
    requires Coupled(q) && Waiting(q, channel) != []
    ensures var k := Waiting(q, channel)[0];
            k.stream == channel && k in q.queued && k in q.messages && k in q.liveIds && q.messages[k] == q.liveIds[k] && !Flying(q, k)
  {
    assert ChannelOk(q, channel);
    assert KeyOk(q, Waiting(q, channel)[0]);
  }

  lemma {:induction false} DeliverChannel(q: State, channel: Name, c: Name)
    requires Coupled(q) && Waiting(q, channel) != []
    ensures ChannelOk(Delivered(q, channel), c)
  {
    FrontKey(q, channel);
    assert ChannelOk(q, c) && ChannelOk(q, channel);
    var q', queue := Delivered(q, channel), Waiting(q, channel);
    if c == channel {
      assert Waiting(q', c) == queue[1..];
      forall i | 0 <= i < |queue[1..]| ensures queue[1..][i].stream == c && queue[1..][i] in q'.queued {
        assert queue[1..][i] == queue[i + 1];
      }
    } else {
      assert Waiting(q', c) == Waiting(q, c);
    }
  }

  lemma {:induction false} DeliverFlying(q: State, channel: Name, k: Key)
    requires Coupled(q) && Waiting(q, channel) != []
    ensures Flying(Delivered(q, channel), k) <==> Flying(q, k) || k == Waiting(q, channel)[0]
  {
    FrontKey(q, channel);
    var q', d := Delivered(q, channel), q.nextDelivery;
    assert FlightOk(q, d);
    assert q'.inFlight[d].key == Waiting(q, channel)[0];
    if e :| e in q.inFlight && q.inFlight[e].key == k {
      assert FlightOk(q, e);
      assert q'.inFlight[e].key == k;
    }
  }

  lemma {:induction false} DeliverKey(q: State, channel: Name, k: Key)
    requires Coupled(q) && Waiting(q, channel) != []
    ensures KeyOk(Delivered(q, channel), k)
  {
    FrontKey(q, channel);
    DeliverFlying(q, channel, k);
    assert KeyOk(q, k) && ChannelOk(q, channel);
    var q', queue := Delivered(q, channel), Waiting(q, channel);
    if k.stream == channel {
      assert queue == [queue[0]] + queue[1..];
      assert Waiting(q', channel) == queue[1..];
    } else {
      assert Waiting(q', k.stream) == Waiting(q, k.stream);
    }
  }

  lemma {:induction false} DeliverFlight(q: State, channel: Name, d: nat)
    requires Coupled(q) && Waiting(q, channel) != []
    ensures FlightOk(Delivered(q, channel), d)
  {
    FrontKey(q, channel);
    var q', key, next := Delivered(q, channel), Waiting(q, channel)[0], q.nextDelivery;
    assert FlightOk(q, d) && FlightOk(q, next);
    if d in q'.inFlight {
      forall e | e in q'.inFlight && q'.inFlight[e].key == q'.inFlight[d].key ensures e == d {
        assert FlightOk(q, e);
        if d != next && e != next {
          assert q.inFlight[e].key == q.inFlight[d].key;
        }
      }
    }
  }

  lemma {:induction false} DeliverKeeps(q: State, channel: Name)
    requires Coupled(q) && Waiting(q, channel) != []
    ensures Coupled(Delivered(q, channel)) && Occupied(Delivered(q, channel)) == Occupied(q)
  {
    FrontKey(q, channel);
    var q' := Delivered(q, channel);
    forall c ensures ChannelOk(q', c) { DeliverChannel(q, channel, c); }
    forall k ensures KeyOk(q', k) { DeliverKey(q, channel, k); }
    forall d ensures FlightOk(q', d) { DeliverFlight(q, channel, d); }
    assert FlightOk(q, q.nextDelivery);
    assert q'.inFlight.Keys == q.inFlight.Keys + {q.nextDelivery};
  }

  lemma {:induction false} PruneKeeps(q: State, channel: Name)
    requires Coupled(q)
    ensures Coupled(Prune(q, channel)) && Occupied(Prune(q, channel)) == Occupied(q)
  {
    var q' := Prune(q, channel);
    forall c ensures ChannelOk(q', c) {
      assert ChannelOk(q, c) && Waiting(q', c) == Waiting(q, c);
    }
    forall k ensures KeyOk(q', k) {
      assert KeyOk(q, k) && Waiting(q', k.stream) == Waiting(q, k.stream) && Flying(q', k) == Flying(q, k);
    }
    forall d ensures FlightOk(q', d) {
      assert FlightOk(q, d);
    }
  }

  lemma {:induction false} AttemptKeeps(q: State, channel: Name)
    requires Coupled(q)
    ensures Coupled(Attempt(q, channel)) && Occupied(Attempt(q, channel)) == Occupied(q)
  {
    if Waiting(q, channel) != [] {
      DeliverKeeps(q, channel);
    }
  }

  lemma {:induction false} TakeKeeps(q: State, channel: Name, n: nat)
    requires Coupled(q)
    ensures Coupled(Taken(q, channel, n)) && Occupied(Taken(q, channel, n)) == Occupied(q)
  {
    if n > 0 {
      TakeKeeps(q, channel, n - 1);
      AttemptKeeps(Taken(q, channel, n - 1), channel);
    }
  }

  lemma {:induction false} ConsumeKeeps(q: State, channel: Name, max: nat)
    requires Coupled(q)
    ensures Coupled(Consume(q, channel, max).0) && Occupied(Consume(q, channel, max).0) == Occupied(q)
  {
    var n := if max == 0 then 1 else max;
    TakeKeeps(q, channel, n);
    PruneKeeps(Taken(q, channel, n), channel);
  }

  /** What a delivery of the `i`-th waiting key looks like. */
  function Handed(q: State, channel: Name, i: nat): Delivery
    requires i < |Waiting(q, channel)| && Waiting(q, channel)[i] in q.liveIds
  {
    Delivery(q.nextDelivery + i, Waiting(q, channel)[i].id, q.liveIds[Waiting(q, channel)[i]])
  }

  /** `q'` is `q` with the first `m` keys of the channel handed out. */
  ghost predicate Advanced(q: State, q': State, channel: Name, m: nat) {
    && m <= |Waiting(q, channel)| && Waiting(q', channel) == Waiting(q, channel)[m..]
    && q'.liveIds == q.liveIds && q'.nextDelivery == q.nextDelivery + m
  }

  /** The key at the front, if any, has its published payload stored. */
  ghost predicate FrontOk(q: State, channel: Name) {
    Waiting(q, channel) != [] ==>
      var k := Waiting(q, channel)[0]; k in q.messages && k in q.liveIds && q.messages[k] == q.liveIds[k]
  }

  lemma {:induction false} CoupledFront(q: State, channel: Name)
    requires Coupled(q)
    ensures FrontOk(q, channel)
  {
    if Waiting(q, channel) != [] { FrontKey(q, channel); }
  }

  lemma {:induction false} AdvancedOne(q: State, q1: State, channel: Name, m: nat)
    requires FrontOk(q1, channel) && Advanced(q, q1, channel, m) && m < |Waiting(q, channel)|
    ensures Advanced(q, Delivered(q1, channel), channel, m + 1)
    ensures Waiting(q, channel)[m] in q.liveIds && Parcel(q1, channel) == [Handed(q, channel, m)]
  {
    assert Waiting(q1, channel)[0] == Waiting(q, channel)[m];
    assert Waiting(q, channel)[m..][1..] == Waiting(q, channel)[m + 1..];
  }

  lemma {:induction false} AdvancedAttempt(q: State, q1: State, channel: Name, n: nat)
    requires FrontOk(q1, channel) && Advanced(q, q1, channel, Min(n, |Waiting(q, channel)|))
    ensures Advanced(q, Attempt(q1, channel), channel, Min(n + 1, |Waiting(q, channel)|))
  {
    if n < |Waiting(q, channel)| {
      AdvancedOne(q, q1, channel, n);
    }
  }

  lemma {:induction false} TakenFront(q: State, channel: Name, n: nat)
    requires Coupled(q)
    ensures FrontOk(Taken(q, channel, n), channel)
  {
    TakeKeeps(q, channel, n);
    CoupledFront(Taken(q, channel, n), channel);
  }

  lemma {:induction false} TakenAdvances(q: State, channel: Name, n: nat)
    requires Coupled(q)
    ensures Advanced(q, Taken(q, channel, n), channel, Min(n, |Waiting(q, channel)|))
  {
    if n > 0 {
      TakenAdvances(q, channel, n - 1);
      TakenFront(q, channel, n - 1);
      AdvancedAttempt(q, Taken(q, channel, n - 1), channel, n - 1);
    }
  }

  /** `out` is what handing out the first keys of the channel gives. */
  ghost predicate IsFront(q: State, channel: Name, out: seq<Delivery>) {
    && |out| <= |Waiting(q, channel)|
    && forall i :: 0 <= i < |out| ==> Waiting(q, channel)[i] in q.liveIds && out[i] == Handed(q, channel, i)
  }

  /** One more turn of the loop, from a state that has handed out `out`. */
  lemma {:induction false} FrontGrows(q: State, channel: Name, out: seq<Delivery>, q1: State)
    requires IsFront(q, channel, out) && FrontOk(q1, channel) && Advanced(q, q1, channel, |out|)
    ensures IsFront(q, channel, out + Handout(q1, channel))
    ensures |Handout(q1, channel)| == if |out| < |Waiting(q, channel)| then 1 else 0
  {
    if |out| < |Waiting(q, channel)| {
      AdvancedOne(q, q1, channel, |out|);
    } else {
      assert out + [] == out;
    }
  }

  lemma {:induction false} TurnFront(q: State, channel: Name, n: nat, out: seq<Delivery>)
    requires Coupled(q) && |out| == Min(n, |Waiting(q, channel)|) && IsFront(q, channel, out)
    ensures var more := out + Handout(Taken(q, channel, n), channel);
            |more| == Min(n + 1, |Waiting(q, channel)|) && IsFront(q, channel, more)
  {
    TakenAdvances(q, channel, n);
    TakenFront(q, channel, n);
    FrontGrows(q, channel, out, Taken(q, channel, n));
  }

  /** Deliveries are the front of the channel in order, with the published payloads and consecutive ids. */
  lemma {:induction false} ParcelsAreFront(q: State, channel: Name, n: nat)
    requires Coupled(q)
    ensures |Parcels(q, channel, n)| == Min(n, |Waiting(q, channel)|) && IsFront(q, channel, Parcels(q, channel, n))
  {
    if n > 0 {
      ParcelsAreFront(q, channel, n - 1);
      TurnFront(q, channel, n - 1, Parcels(q, channel, n - 1));
    }
  }

  lemma {:induction false} LandKeeps(q: State, d: nat)
    requires Coupled(q) && d in q.inFlight
    ensures var q' := q.(inFlight := q.inFlight - {d}); Coupled(q') && Occupied(q') == Occupied(q) - 1
  {
    var q' := q.(inFlight := q.inFlight - {d});
    forall c ensures ChannelOk(q', c) { assert ChannelOk(q, c); }
    forall k ensures KeyOk(q', k) {
      assert KeyOk(q, k);
      assert Flying(q', k) ==> Flying(q, k);
    }
    forall e ensures FlightOk(q', e) { assert FlightOk(q, e); }
    assert q'.inFlight.Keys == q.inFlight.Keys - {d};
  }

  lemma {:induction false} AckKeeps(q: State, d: nat)
    requires Coupled(q)
    ensures Coupled(Ack(q, d).0)
  {
    if d in q.inFlight {
      var q' := q.(inFlight := q.inFlight - {d});
      LandKeeps(q, d);
      EvictKeeps(q', 0);
      SameButCoupled(q', Evict(q', 0));
    }
  }

  lemma {:induction false} LandedKey(q: State, d: nat, k: Key)
    requires Coupled(q) && d in q.inFlight
    ensures Flying(q.(inFlight := q.inFlight - {d}), k) <==> Flying(q, k) && k != q.inFlight[d].key
  {
    var q' := q.(inFlight := q.inFlight - {d});
    if e :| e in q.inFlight && q.inFlight[e].key == k {
      assert FlightOk(q, d);
      if e != d {
        assert e in q'.inFlight && q'.inFlight[e].key == k;
      }
    }
    if k == q.inFlight[d].key {
      forall e | e in q'.inFlight ensures q'.inFlight[e].key != k {
        assert FlightOk(q, d);
      }
    }
  }

  lemma {:induction false} NackKeeps(q: State, d: nat)
    requires Coupled(q)
    ensures Coupled(Nack(q, d).0) && (d in q.inFlight ==> Occupied(Nack(q, d).0) == Occupied(q))
  {
    if d in q.inFlight {
      var f, q' := q.inFlight[d], Requeue(q, d);
      assert FlightOk(q, d) && KeyOk(q, f.key) && ChannelOk(q, f.channel);
      assert Flying(q, f.key);
      forall c ensures ChannelOk(q', c) {
        assert ChannelOk(q, c);
        RequeueChannel(q, d, c);
      }
      forall k ensures KeyOk(q', k) {
        assert KeyOk(q, k);
        LandedKey(q, d, k);
        RequeueKey(q, d, k);
      }
      forall e ensures FlightOk(q', e) { assert FlightOk(q, e); }
      assert q'.inFlight.Keys == q.inFlight.Keys - {d};
    }
  }

  lemma {:induction false} RequeueChannel(q: State, d: nat, c: Name)
    requires d in q.inFlight && ChannelOk(q, c) && FlightOk(q, d) && KeyOk(q, q.inFlight[d].key) && q.inFlight[d].key !in q.queued
    ensures ChannelOk(Requeue(q, d), c)
  {
    var f, q' := q.inFlight[d], Requeue(q, d);
    if c == f.channel {
      assert Waiting(q', c) == [f.key] + Waiting(q, c);
      forall i | 0 <= i < |Waiting(q, c)| ensures Waiting(q, c)[i] != f.key {
        assert Waiting(q, c)[i] in q.queued;
      }
    } else {
      assert Waiting(q', c) == Waiting(q, c);
    }
  }

  lemma {:induction false} RequeueKey(q: State, d: nat, k: Key)
    requires d in q.inFlight && KeyOk(q, k) && FlightOk(q, d)
    requires Flying(q.(inFlight := q.inFlight - {d}), k) <==> Flying(q, k) && k != q.inFlight[d].key
    ensures KeyOk(Requeue(q, d), k)
  {
    var f, q' := q.inFlight[d], Requeue(q, d);
    assert Flying(q', k) == Flying(q.(inFlight := q.inFlight - {d}), k);
    assert Waiting(q', k.stream) == if k.stream == f.channel then [f.key] + Waiting(q, k.stream) else Waiting(q, k.stream);
  }
}
