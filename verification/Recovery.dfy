/**
 * Nothing is ever lost for good: from every state of a single dispatcher, a crash, one fault-free
 * iteration and a resume bring a client everything that was committed on its stream.
 */
module Recovery {
  import opened Common
  import opened Envelopes
  import opened Outbox
  import opened Batches
  import opened Journal
  import opened Pipeline
  import opened PipelineDurability
  import opened PipelineDelivery
  import opened Dispatcher
  import opened Subscription
  import opened Refinement
  import EndToEnd

  lemma {:induction false} StoresAreSound(s: System)
    requires Durable(s)
    ensures Sound(s.store, s.journal)
  {
    forall k ensures StreamDurable(Still(s.store, s.journal), k) {
      assert StreamDurable(s, k);
    }
  }

  // ---- After a clean iteration ----

  /** The whole outbox is journaled. */
  ghost predicate CaughtUp(st: Store, j: Log) { forall k :: |Recorded(j, k)| == |Events(st, k)| }

  lemma {:induction false} NothingOpen(st: Store, k: StreamKey)
    requires Backlog(st) == []
    ensures Marked(Rows(st, k)) == |Rows(st, k)|
  {
    var n := Marked(Rows(st, k));
    if n < |Rows(st, k)| {
      BacklogMember(st, Rows(st, k)[n]);
    }
  }

  lemma {:induction false} EmptyBacklogIsCaughtUp(st: Store, j: Log)
    requires Sound(st, j) && Backlog(st) == []
    ensures CaughtUp(st, j)
  {
    forall k ensures |Recorded(j, k)| == |Events(st, k)| {
      assert StreamDurable(Still(st, j), k);
      NothingOpen(st, k);
    }
  }

  lemma {:induction false} CleanIteration(st: Store, j: Log)
    requires Sound(st, j) && Canonical(Backlog(st))
    ensures var (st', j', published, r) := Dispatch(st, j, Outbox.Scan(st, |Backlog(st)|), NoFault, true);
            r.Ok? && CaughtUp(st', j') && Sound(st', j') && forall k :: Events(st', k) == Events(st, k)
  {
    var n := |Backlog(st)|;
    assert Outbox.Scan(st, n) == Backlog(st);
    DispatchOutcome(st, j, n, NoFault, true);
    var (st', j', published, r) := Dispatch(st, j, Outbox.Scan(st, n), NoFault, true);
    EmptyBacklogIsCaughtUp(st', j');
    forall k ensures Events(st', k) == Events(st, k) {
      MarkTouchesOnlyFlags(st, Ids(Map(Backlog(st), EnvelopeFromRow)), k);
    }
  }

  // ---- The client ----

  lemma {:induction false} CrashDrops(s: System, id: nat)
    requires id in s.clients && |s.workers| == 1
    ensures var s1 := Next(s, Crash);
            && s1.workers == [Idle] && s1.store == s.store && s1.journal == s.journal
            && id in s1.clients && !Attached(s1.clients[id]) && s1.clients[id] == s.clients[id].(phase := s1.clients[id].phase)
  {
  }

  lemma {:induction false} RestMatches(s: System, k: StreamKey, from: nat)
    requires Durable(s) && from <= |Recorded(s.journal, k)|
    ensures RowsMatch(Recorded(s.journal, k)[from..|Recorded(s.journal, k)|], k, from)
  {
    assert StreamValid(s.store, k) && StreamDurable(s, k);
    PageRowsMatch(s, k, from, |Recorded(s.journal, k)|);
    assert PageRows(Recorded(s.journal, k), from, |Recorded(s.journal, k)|) == Recorded(s.journal, k)[from..|Recorded(s.journal, k)|];
  }

  /** A resumed client replays to the head of a journal that holds everything. */
  lemma {:induction false} ResumeReplays(s: System, id: nat) returns (more: seq<Step>)
    requires Durable(s) && id in s.clients && !Attached(s.clients[id]) && CaughtUp(s.store, s.journal)
    ensures var s', c := Run(s, more), s.clients[id];
            && s'.store == s.store && id in s'.clients && s'.clients[id].phase.Live?
            && s'.clients[id].last == if c.last <= |Events(s.store, c.stream)| then |Events(s.store, c.stream)| else c.last
  {
    var c := s.clients[id];
    var s1 := Next(s, Resume(id));
    RunOne(s, Resume(id));
    VolatileKeepsDurable(s, s1);
    var rest, c' := ReplayIsRun(s1, id);
    RunAppend(s, [Resume(id)], rest);
    more := [Resume(id)] + rest;
    if c.last < |Recorded(s.journal, c.stream)| {
      RestMatches(s, c.stream, c.last);
    }
  }

  lemma {:induction false} StreamStays(s: System, steps: seq<Step>, id: nat)
    requires id in s.clients
    ensures id in Run(s, steps).clients
    ensures Run(s, steps).clients[id].stream == s.clients[id].stream && Run(s, steps).clients[id].after == s.clients[id].after
  {
    if steps != [] {
      StreamStays(s, steps[..|steps| - 1], id);
      EndToEnd.SubscriptionStays(Run(s, steps[..|steps| - 1]), steps[|steps| - 1], id);
    }
  }

  // ---- The theorem ----

  /**
   * Whatever happened before, there is a way on: the client ends live, at the end of its stream, and has
   * been sent every event committed since its starting point.
   */
  lemma {:induction false} RecoveryDelivers(capacity: nat, steps: seq<Step>, id: nat) returns (more: seq<Step>)
    requires var s := Run(Init(1, capacity), steps); id in s.clients && Canonical(Backlog(s.store))
    ensures var s, s' := Run(Init(1, capacity), steps), Run(Init(1, capacity), steps + more);
            && (forall k :: Events(s'.store, k) == Events(s.store, k))
            && id in s'.clients && s'.clients[id].phase.Live?
            && var c := s'.clients[id];
               && c.stream == s.clients[id].stream && c.after == s.clients[id].after
               && c.last >= |Events(s.store, c.stream)| && |c.seen| == c.last - c.after
               && (s.clients[id].last <= |Events(s.store, c.stream)| ==> c.last == |Events(s.store, c.stream)|)
  {
    var s := Run(Init(1, capacity), steps);
    RunDelivers(capacity, steps);
    var s1 := Next(s, Crash);
    CrashDrops(s, id);
    StoresAreSound(s);
    CleanIteration(s.store, s.journal);
    var dispatch := DispatchIsRun(s1, 0, |Backlog(s.store)|, NoFault, true);
    var s2 := Run(s1, dispatch);
    RunOne(s, Crash);
    var first := [Crash] + dispatch;
    RunAppend(s, [Crash], dispatch);
    RunAppend(Init(1, capacity), steps, first);
    RunDelivers(capacity, steps + first);
    var replay := ResumeReplays(s2, id);
    RunAppend(Init(1, capacity), steps + first, replay);
    more := first + replay;
    Associative(steps, first, replay);
    GapFreeDelivery(capacity, steps + more, id);
    StreamStays(s2, replay, id);
  }
}
