/** Gap-free delivery needs a single dispatcher: with more, a live client can miss an event for good. */
module TwoDispatchers {
  import opened Common
  import opened Text
  import opened Envelopes
  import opened Outbox
  import opened Batches
  import opened Journal
  import opened Pipeline
  import opened PipelineDelivery

  const STREAM := RUN_A

  function DraftOf(id: string): Draft
    requires id != ""
  {
    Draft(IdText(id), STREAM, "", [], Public, Standard, None, None)
  }

  function RowOf(id: string, sequence: nat): Row
    requires id != ""
  {
    IntoNew(DraftOf(id), sequence, 0)
  }

  const R1 := RowOf("1", 1)
  const R2 := RowOf("2", 2)
  const G1 := Group(STREAM, [R1.event])
  const G2 := Group(STREAM, [R2.event])

  const FRESH := Client(STREAM, 0, Live, 0, [], 0)

  const NOTHING := Store(map[], map[])
  const ONE := Store(map[STREAM := 1], map[STREAM := [R1]])
  const ONE_MARKED := Store(map[STREAM := 1], map[STREAM := [R1.(published := true)]])
  const TWO := Store(map[STREAM := 2], map[STREAM := [R1.(published := true), R2]])
  const TWO_MARKED := Store(map[STREAM := 2], map[STREAM := [R1.(published := true), R2.(published := true)]])

  const J1: Log := map[STREAM := [ToWire(R1.event)]]
  const J2: Log := map[STREAM := [ToWire(R1.event), ToWire(R2.event)]]

  /** Two dispatchers and one client; `out` is what went live so far. */
  function State(cap: nat, st: Store, j: Log, w0: Worker, w1: Worker, out: seq<Envelope>, c: Client): System {
    System(st, j, [w0, w1], out, out, cap, map[0 := c])
  }

  lemma {:induction false} OneKey(st: Store)
    requires st.outbox.Keys == {STREAM}
    ensures Keys(st) == [STREAM]
  {
    assert Texts(st) == {STREAM.text};
    var keys := Ascending(Texts(st));
    assert STREAM.text in keys;
    DistinctCardinality(keys);
    assert (set x | x in keys) == {STREAM.text};
    assert keys[0] in keys;
    assert keys == [STREAM.text];
  }

  lemma {:induction false} OneOpen(st: Store, r: Row)
    requires st.outbox.Keys == {STREAM} && OpenRows(st.outbox[STREAM]) == [r]
    ensures Outbox.Scan(st, 1) == [r]
  {
    OneKey(st);
    assert [STREAM][1..] == [];
    assert Unpublished(st, [STREAM]) == OpenRows(Rows(st, STREAM)) + Unpublished(st, []);
    assert Backlog(st) == [r];
  }

  /** A scan that finds one open row. */
  lemma {:induction false} ScanOne(st: Store, r: Row)
    requires st.outbox.Keys == {STREAM} && OpenRows(st.outbox[STREAM]) == [r] && r.event.streamKey == STREAM
    ensures ScanWorker(st, 1) == Reading([Group(STREAM, [r.event])], 0)
  {
    OneOpen(st, r);
    RunKeyIsCanonical();
    assert GroupRows([r]) == PushRow(GroupRows([]), r);
  }

  /** The second dispatcher scans while the first one publishes. */
  lemma {:induction false} ScanLate(cap: nat, st: Store, j: Log, w0: Worker, r: Row)
    requires st.outbox.Keys == {STREAM} && OpenRows(st.outbox[STREAM]) == [r] && r.event.streamKey == STREAM
    ensures Next(State(cap, st, j, w0, Idle, [], FRESH), Scan(1, 1)) ==
              State(cap, st, j, w0, Reading([Group(STREAM, [r.event])], 0), [], FRESH)
  {
    ScanOne(st, r);
  }

  /** A read-back that finds nothing of a batch that starts at the head. */
  lemma {:induction false} ReadNothing(j: Log, g: Group)
    requires |Recorded(j, g.stream)| == First(g) && g.batch != []
    ensures ReadWorker(j, Reading([g], 0)) == Appending([g], 0, 0)
  {
    assert PageRows(Recorded(j, g.stream), First(g), |g.batch|) == [];
  }

  lemma {:induction false} AppendNext(j: Log, e: Envelope)
    requires e.streamKey == STREAM && e.sequence == |Recorded(j, STREAM)| + 1 && !RecordedId(j, e.eventId)
    ensures AppendWorker(j, Appending([Group(STREAM, [e])], 0, 0)) ==
              (j[STREAM := Recorded(j, STREAM) + [ToWire(e)]], Reading([Group(STREAM, [e])], 1))
  {
    assert [e][0..] == [e];
    assert ValidBatch(STREAM, |Recorded(j, STREAM)|, [e]) && FreshIds(j, [e]);
    assert Wires([e]) == [ToWire(e)];
  }

  // ---- More dispatchers than a run uses ----

  predicate Within(step: Step, n: nat) {
    match step
    case Scan(w, _) => w < n
    case Read(w) => w < n
    case Append(w) => w < n
    case Abort(w) => w < n
    case Mark(w) => w < n
    case Publish(w) => w < n
    case _ => true
  }

  predicate AllWithin(steps: seq<Step>, n: nat) { forall i :: 0 <= i < |steps| ==> Within(steps[i], n) }

  /** The same system with `n` more dispatchers, all idle. */
  function Wider(s: System, n: nat): System { s.(workers := s.workers + seq(n, _ => Idle)) }

  lemma {:induction false} UpdateFirst(a: seq<Worker>, b: seq<Worker>, i: nat, w: Worker)
    requires i < |a|
    ensures (a + b)[i := w] == a[i := w] + b
  {
  }

  lemma {:induction false} WiderDispatch(s: System, n: nat, step: Step, w: nat)
    requires w < |s.workers| && step in {Read(w), Append(w), Abort(w), Mark(w), Publish(w)}
    ensures Next(Wider(s, n), step) == Wider(Next(s, step), n)
  {
    UpdateFirst(s.workers, seq(n, _ => Idle), w, Next(s, step).workers[w]);
    UpdateFirst(s.workers, seq(n, _ => Idle), w, s.workers[w]);
  }

  lemma {:induction false} WiderStep(s: System, n: nat, step: Step)
    requires Within(step, |s.workers|)
    ensures Next(Wider(s, n), step) == Wider(Next(s, step), n) && |Next(s, step).workers| == |s.workers|
  {
    match step
    case Scan(w, limit) => UpdateFirst(s.workers, seq(n, _ => Idle), w, ScanWorker(s.store, limit));
    case Read(w) => WiderDispatch(s, n, step, w);
    case Append(w) => WiderDispatch(s, n, step, w);
    case Abort(w) => WiderDispatch(s, n, step, w);
    case Mark(w) => WiderDispatch(s, n, step, w);
    case Publish(w) => WiderDispatch(s, n, step, w);
    case Crash => assert seq(|s.workers| + n, _ => Idle) == seq(|s.workers|, _ => Idle) + seq(n, _ => Idle);
    case _ =>
  }

  lemma {:induction false} WiderRun(s: System, n: nat, steps: seq<Step>)
    requires AllWithin(steps, |s.workers|)
    ensures Run(Wider(s, n), steps) == Wider(Run(s, steps), n) && |Run(s, steps).workers| == |s.workers|
  {
    if steps != [] {
      var most := steps[..|steps| - 1];
      WiderRun(s, n, most);
      WiderStep(Run(s, most), n, steps[|steps| - 1]);
    }
  }

  /** The same step by the next dispatcher. */
  function Shifted(step: Step): Step {
    match step
    case Scan(w, limit) => Scan(w + 1, limit)
    case Read(w) => Read(w + 1)
    case Append(w) => Append(w + 1)
    case Abort(w) => Abort(w + 1)
    case Mark(w) => Mark(w + 1)
    case Publish(w) => Publish(w + 1)
    case _ => step
  }

  lemma {:induction false} NoneStep(s: System, step: Step)
    requires s.workers == []
    ensures Next(Wider(s, 1), Shifted(step)) == Wider(Next(s, step), 1) && Next(s, step).workers == []
  {
    assert seq(1, _ => Idle) == [] + seq(1, _ => Idle);
  }

  /** Without a dispatcher every run is one of a system whose single dispatcher stays idle. */
  lemma {:induction false} NoneRun(s: System, steps: seq<Step>)
    requires s.workers == []
    ensures Run(Wider(s, 1), Map(steps, Shifted)) == Wider(Run(s, steps), 1) && Run(s, steps).workers == []
  {
    if steps != [] {
      var most := steps[..|steps| - 1];
      NoneRun(s, most);
      NoneStep(Run(s, most), steps[|steps| - 1]);
      assert Map(steps, Shifted)[..|steps| - 1] == Map(most, Shifted);
    }
  }

  // ---- The run, step by step ----

  lemma {:induction false} RunOneMore(s: System, steps: seq<Step>, step: Step)
    ensures Run(s, steps + [step]) == Next(Run(s, steps), step)
  {
    assert (steps + [step])[..|steps|] == steps;
  }

  lemma {:induction false} Attach(cap: nat)
    ensures var s1 := Next(Init(2, cap), Subscribe(0, STREAM, 0)); Next(s1, Page(0)) == State(cap, NOTHING, map[], Idle, Idle, [], FRESH)
  {
    RunKeyIsCanonical();
    assert seq(2, _ => Idle) == [Idle, Idle];
    assert PageRows([], 0, PAGE) == [];
  }

  lemma {:induction false} StageFirst(cap: nat, s: System)
    requires s == State(cap, NOTHING, map[], Idle, Idle, [], FRESH)
    ensures Next(s, Stage(DraftOf("1"), 0)) == State(cap, ONE, map[], Idle, Idle, [], FRESH)
  {
    assert Rows(NOTHING, STREAM) + [R1] == [R1];
    assert !IdTaken(NOTHING, R1.event.eventId);
  }

  lemma {:induction false} ScanFirst(cap: nat, s: System)
    requires s == State(cap, ONE, map[], Idle, Idle, [], FRESH)
    ensures Next(s, Scan(0, 1)) == State(cap, ONE, map[], Reading([G1], 0), Idle, [], FRESH)
  {
    assert OpenRows([R1]) == [R1] + OpenRows([]);
    ScanOne(ONE, R1);
  }

  lemma {:induction false} ReadFirst(cap: nat, s: System)
    requires s == State(cap, ONE, map[], Reading([G1], 0), Idle, [], FRESH)
    ensures Next(s, Read(0)) == State(cap, ONE, map[], Appending([G1], 0, 0), Idle, [], FRESH)
  {
    ReadNothing(map[], G1);
  }

  lemma {:induction false} AppendFirst(cap: nat, s: System)
    requires s == State(cap, ONE, map[], Appending([G1], 0, 0), Idle, [], FRESH)
    ensures Next(s, Append(0)) == State(cap, ONE, J1, Reading([G1], 1), Idle, [], FRESH)
  {
    AppendNext(map[], R1.event);
    assert [] + [ToWire(R1.event)] == [ToWire(R1.event)];
  }

  lemma {:induction false} MarkFirst(cap: nat, s: System)
    requires s == State(cap, ONE, J1, Reading([G1], 1), Idle, [], FRESH)
    ensures Next(s, Mark(0)) == State(cap, ONE_MARKED, J1, Publishing([R1.event]), Idle, [], FRESH)
  {
    assert Flat([G1]) == [R1.event] + Flat([]);
    assert Flat([G1]) == [R1.event];
    assert Ids([R1.event]) == {R1.event.eventId} + Ids([]);
    var marked := MarkPublished(ONE, Ids([R1.event])).outbox;
    assert marked[STREAM] == [R1.(published := true)];
    assert marked == ONE_MARKED.outbox;
  }

  lemma {:induction false} StageSecond(cap: nat, s: System)
    requires s == State(cap, ONE_MARKED, J1, Publishing([R1.event]), Idle, [], FRESH)
    ensures Next(s, Stage(DraftOf("2"), 0)) == State(cap, TWO, J1, Publishing([R1.event]), Idle, [], FRESH)
  {
    assert Rows(ONE_MARKED, STREAM) + [R2] == [R1.(published := true), R2];
    assert R1.event.eventId != R2.event.eventId;
    assert !IdTaken(ONE_MARKED, R2.event.eventId);
    assert Insertable(ONE_MARKED, R2.event);
  }

  lemma {:induction false} SecondIsOpen()
    ensures OpenRows([R1.(published := true), R2]) == [R2]
  {
    var rows := [R1.(published := true), R2];
    assert rows[1..] == [R2] && [R2][1..] == [];
    assert OpenRows([R2]) == [R2] + OpenRows([]);
    assert OpenRows(rows) == [] + OpenRows([R2]);
  }

  lemma {:induction false} ScanSecond(cap: nat, s: System)
    requires s == State(cap, TWO, J1, Publishing([R1.event]), Idle, [], FRESH)
    ensures Next(s, Scan(1, 1)) == State(cap, TWO, J1, Publishing([R1.event]), Reading([G2], 0), [], FRESH)
  {
    SecondIsOpen();
    ScanLate(cap, TWO, J1, Publishing([R1.event]), R2);
  }

  lemma {:induction false} ReadSecond(cap: nat, s: System)
    requires s == State(cap, TWO, J1, Publishing([R1.event]), Reading([G2], 0), [], FRESH)
    ensures Next(s, Read(1)) == State(cap, TWO, J1, Publishing([R1.event]), Appending([G2], 0, 0), [], FRESH)
  {
    ReadNothing(J1, G2);
  }

  lemma {:induction false} AppendSecond(cap: nat, s: System)
    requires s == State(cap, TWO, J1, Publishing([R1.event]), Appending([G2], 0, 0), [], FRESH)
    ensures Next(s, Append(1)) == State(cap, TWO, J2, Publishing([R1.event]), Reading([G2], 1), [], FRESH)
  {
    assert R1.event.eventId != R2.event.eventId;
    AppendNext(J1, R2.event);
    assert [ToWire(R1.event)] + [ToWire(R2.event)] == [ToWire(R1.event), ToWire(R2.event)];
  }

  lemma {:induction false} MarkSecond(cap: nat, s: System)
    requires s == State(cap, TWO, J2, Publishing([R1.event]), Reading([G2], 1), [], FRESH)
    ensures Next(s, Mark(1)) == State(cap, TWO_MARKED, J2, Publishing([R1.event]), Publishing([R2.event]), [], FRESH)
  {
    assert Flat([G2]) == [R2.event] + Flat([]);
    assert Flat([G2]) == [R2.event];
    assert Ids([R2.event]) == {R2.event.eventId} + Ids([]);
    assert R1.event.eventId != R2.event.eventId;
    var marked := MarkPublished(TWO, Ids([R2.event])).outbox;
    assert marked[STREAM] == [R1.(published := true), R2.(published := true)];
    assert marked == TWO_MARKED.outbox;
  }

  lemma {:induction false} PublishSecond(cap: nat, s: System)
    requires s == State(cap, TWO_MARKED, J2, Publishing([R1.event]), Publishing([R2.event]), [], FRESH)
    ensures Next(s, Publish(1)) == State(cap, TWO_MARKED, J2, Publishing([R1.event]), Publishing([]), [R2.event], FRESH)
  {
    assert 0 in s.clients && Attached(s.clients[0]);
    assert HasReceiver(s);
    assert [R2.event][1..] == [] && [] + [R2.event] == [R2.event];
    assert Next(s, Publish(1)).workers == [Publishing([R1.event]), Publishing([])];
  }

  const MISSED := Client(STREAM, 0, Live, 2, [Project(R2.event)], 1)

  lemma {:induction false} TakeSecond(cap: nat, s: System)
    requires 1 <= cap && s == State(cap, TWO_MARKED, J2, Publishing([R1.event]), Publishing([]), [R2.event], FRESH)
    ensures Next(s, Take(0)) == State(cap, TWO_MARKED, J2, Publishing([R1.event]), Publishing([]), [R2.event], MISSED)
  {
    assert [] + [Project(R2.event)] == [Project(R2.event)];
  }

  lemma {:induction false} FirstHalf(cap: nat) returns (steps: seq<Step>)
    ensures Run(Init(2, cap), steps) == State(cap, ONE_MARKED, J1, Publishing([R1.event]), Idle, [], FRESH)
    ensures AllWithin(steps, 2)
  {
    steps := [];
    steps := Then(cap, steps, Subscribe(0, STREAM, 0));
    steps := Then(cap, steps, Page(0));
    Attach(cap);
    steps := Then(cap, steps, Stage(DraftOf("1"), 0));
    StageFirst(cap, State(cap, NOTHING, map[], Idle, Idle, [], FRESH));
    steps := Then(cap, steps, Scan(0, 1));
    ScanFirst(cap, State(cap, ONE, map[], Idle, Idle, [], FRESH));
    steps := Then(cap, steps, Read(0));
    ReadFirst(cap, State(cap, ONE, map[], Reading([G1], 0), Idle, [], FRESH));
    steps := Then(cap, steps, Append(0));
    AppendFirst(cap, State(cap, ONE, map[], Appending([G1], 0, 0), Idle, [], FRESH));
    steps := Then(cap, steps, Mark(0));
    MarkFirst(cap, State(cap, ONE, J1, Reading([G1], 1), Idle, [], FRESH));
  }

  lemma {:induction false} Then(cap: nat, steps: seq<Step>, step: Step) returns (more: seq<Step>)
    requires AllWithin(steps, 2) && Within(step, 2)
    ensures Run(Init(2, cap), more) == Next(Run(Init(2, cap), steps), step) && AllWithin(more, 2)
  {
    more := steps + [step];
    RunOneMore(Init(2, cap), steps, step);
  }

  /**
   * The first dispatcher has journaled and marked event 1 but not published it yet; the second publishes
   * event 2 first. The live client takes it, moves its cursor to 2, and will skip event 1 when it arrives:
   * it was sent one event for two positions, and the one it was sent is not the first.
   */
  lemma {:induction false} LiveClientMissesEvent(cap: nat) returns (steps: seq<Step>)
    requires 1 <= cap
    ensures AllWithin(steps, 2)
    ensures var s := Run(Init(2, cap), steps);
            && 0 in s.clients && s.clients[0].phase.Live? && s.clients[0].after == 0 && s.clients[0].last == 2
            && |Events(s.store, STREAM)| == 2 && Project(Events(s.store, STREAM)[0]) != Project(Events(s.store, STREAM)[1])
            && s.clients[0].seen == [Project(Events(s.store, STREAM)[1])]
  {
    steps := FirstHalf(cap);
    steps := Then(cap, steps, Stage(DraftOf("2"), 0));
    StageSecond(cap, State(cap, ONE_MARKED, J1, Publishing([R1.event]), Idle, [], FRESH));
    steps := Then(cap, steps, Scan(1, 1));
    ScanSecond(cap, State(cap, TWO, J1, Publishing([R1.event]), Idle, [], FRESH));
    steps := Then(cap, steps, Read(1));
    ReadSecond(cap, State(cap, TWO, J1, Publishing([R1.event]), Reading([G2], 0), [], FRESH));
    steps := Then(cap, steps, Append(1));
    AppendSecond(cap, State(cap, TWO, J1, Publishing([R1.event]), Appending([G2], 0, 0), [], FRESH));
    steps := Then(cap, steps, Mark(1));
    MarkSecond(cap, State(cap, TWO, J2, Publishing([R1.event]), Reading([G2], 1), [], FRESH));
    steps := Then(cap, steps, Publish(1));
    PublishSecond(cap, State(cap, TWO_MARKED, J2, Publishing([R1.event]), Publishing([R2.event]), [], FRESH));
    steps := Then(cap, steps, Take(0));
    TakeSecond(cap, State(cap, TWO_MARKED, J2, Publishing([R1.event]), Publishing([]), [R2.event], FRESH));
    assert Project(R1.event).sequence == 1 && Project(R2.event).sequence == 2;
  }

  lemma {:induction false} FewDispatchersDeliver(workers: nat, capacity: nat, steps: seq<Step>, id: nat)
    requires workers <= 1 && id in Run(Init(workers, capacity), steps).clients
    ensures GapFree(Run(Init(workers, capacity), steps), Run(Init(workers, capacity), steps).clients[id])
  {
    if workers == 1 {
      GapFreeDelivery(capacity, steps, id);
    } else {
      NoneRun(Init(0, capacity), steps);
      assert Wider(Init(0, capacity), 1).workers == Init(1, capacity).workers;
      GapFreeDelivery(capacity, Map(steps, Shifted), id);
    }
  }

  lemma {:induction false} ManyDispatchersMiss(workers: nat, capacity: nat) returns (steps: seq<Step>)
    requires 2 <= workers && 1 <= capacity
    ensures 0 in Run(Init(workers, capacity), steps).clients
    ensures !GapFree(Run(Init(workers, capacity), steps), Run(Init(workers, capacity), steps).clients[0])
  {
    steps := LiveClientMissesEvent(capacity);
    WiderRun(Init(2, capacity), workers - 2, steps);
    assert Wider(Init(2, capacity), workers - 2).workers == Init(workers, capacity).workers;
  }

  /** Delivery is gap-free in every run exactly when there is at most one dispatcher; a bus has room for an event. */
  lemma {:induction false} GapFreeIff(workers: nat, capacity: nat)
    requires 1 <= capacity
    ensures (forall steps, id :: id in Run(Init(workers, capacity), steps).clients ==>
               GapFree(Run(Init(workers, capacity), steps), Run(Init(workers, capacity), steps).clients[id]))
            <==> workers <= 1
  {
    if workers <= 1 {
      forall steps, id | id in Run(Init(workers, capacity), steps).clients
        ensures GapFree(Run(Init(workers, capacity), steps), Run(Init(workers, capacity), steps).clients[id])
      {
        FewDispatchersDeliver(workers, capacity, steps, id);
      }
    } else {
      var steps := ManyDispatchersMiss(workers, capacity);
      assert 0 in Run(Init(workers, capacity), steps).clients;
    }
  }
}
