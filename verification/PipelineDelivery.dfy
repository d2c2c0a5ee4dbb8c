/** What a subscribed client sees, for every run with a single dispatcher. */
module PipelineDelivery {
  import opened Common
  import opened Envelopes
  import opened Outbox
  import opened Batches
  import opened Journal
  import opened Pipeline
  import opened PipelineDurability

  /** The events of one stream, in order. */
  function OnStream(events: seq<Envelope>, k: StreamKey): seq<Envelope> {
    if events == [] then []
    else if events[0].streamKey == k then [events[0]] + OnStream(events[1..], k)
    else OnStream(events[1..], k)
  }

  lemma {:induction false} OnStreamAppend(a: seq<Envelope>, b: seq<Envelope>, k: StreamKey)
    ensures OnStream(a + b, k) == OnStream(a, k) + OnStream(b, k)
  {
    if a == [] {
      assert a + b == b;
    } else {
      OnStreamAppend(a[1..], b, k);
      assert (a + b)[1..] == a[1..] + b;
    }
  }

  lemma {:induction false} OnStreamAll(events: seq<Envelope>, k: StreamKey)
    requires forall i :: 0 <= i < |events| ==> events[i].streamKey == k
    ensures OnStream(events, k) == events
  {
    if events != [] {
      OnStreamAll(events[1..], k);
    }
  }

  lemma {:induction false} OnStreamNone(events: seq<Envelope>, k: StreamKey)
    requires forall i :: 0 <= i < |events| ==> events[i].streamKey != k
    ensures OnStream(events, k) == []
  {
    if events != [] {
      OnStreamNone(events[1..], k);
    }
  }

  // ---- One stream seen from a client ----

  /** A stream's committed events, how many are journaled and how many went past the live sink. */
  datatype View = View(events: seq<Envelope>, journaled: nat, released: nat)

  /** Everything sent so far is the run of committed events right after `after`. */
  ghost predicate SeenOk(c: Client, v: View) {
    && c.after <= c.last
    && |c.seen| == c.last - c.after
    && (c.last > c.after ==> c.last <= v.journaled)
    && v.journaled <= |v.events|
    && (forall i :: 0 <= i < |c.seen| ==> c.seen[i] == Project(v.events[c.after + i]))
  }

  /** What waits on the bus is a contiguous run of the stream that ends where publication stands. */
  ghost predicate QueueOk(queue: seq<Envelope>, v: View) {
    && |queue| <= v.released <= |v.events|
    && queue == v.events[v.released - |queue|..v.released]
  }

  ghost predicate AttachedOk(c: Client, v: View, bus: seq<Envelope>) {
    && c.pos <= |bus|
    && QueueOk(OnStream(bus[c.pos..], c.stream), v)
    && (c.phase.Live? ==> v.released - |OnStream(bus[c.pos..], c.stream)| <= c.last)
  }

  ghost predicate ClientOk(c: Client, v: View, bus: seq<Envelope>) {
    && SeenOk(c, v)
    && v.released <= v.journaled
    && (Attached(c) ==> AttachedOk(c, v, bus))
  }

  /** Commits and appends only add to what the client relies on. */
  lemma {:induction false} ViewGrows(c: Client, v: View, v': View, bus: seq<Envelope>)
    requires ClientOk(c, v, bus)
    requires v.events <= v'.events && v.journaled <= v'.journaled <= |v'.events| && v'.released == v.released
    ensures ClientOk(c, v', bus)
  {
    assert v'.events[..|v.events|] == v.events;
  }

  /** Publishing the next event of the client's own stream lengthens its queue by that event. */
  lemma {:induction false} PublishOwn(c: Client, v: View, bus: seq<Envelope>, e: Envelope)
    requires ClientOk(c, v, bus) && Attached(c) && e.streamKey == c.stream
    requires v.released < v.journaled && v.events[v.released] == e
    ensures ClientOk(c, v.(released := v.released + 1), bus + [e])
  {
    var queue := OnStream(bus[c.pos..], c.stream);
    assert (bus + [e])[c.pos..] == bus[c.pos..] + [e];
    OnStreamAppend(bus[c.pos..], [e], c.stream);
    OnStreamAll([e], c.stream);
    assert queue + [e] == v.events[v.released - |queue|..v.released + 1];
  }

  lemma {:induction false} PublishForeign(c: Client, v: View, bus: seq<Envelope>, e: Envelope)
    requires ClientOk(c, v, bus) && Attached(c) && e.streamKey != c.stream
    ensures ClientOk(c, v, bus + [e])
  {
    assert (bus + [e])[c.pos..] == bus[c.pos..] + [e];
    OnStreamAppend(bus[c.pos..], [e], c.stream);
    OnStreamNone([e], c.stream);
  }

  /** A client that is not attached depends on the journal only. */
  lemma {:induction false} DetachedClient(c: Client, v: View, v': View, bus: seq<Envelope>, bus': seq<Envelope>)
    requires ClientOk(c, v, bus) && !Attached(c)
    requires v'.events == v.events && v'.journaled == v.journaled && v'.released <= v.journaled
    ensures ClientOk(c, v', bus')
  {
  }

  /** Attaching starts with an empty queue. */
  lemma {:induction false} AttachClient(c: Client, v: View, bus: seq<Envelope>, c': Client)
    requires SeenOk(c, v) && v.released <= v.journaled
    requires c' == c.(phase := Replaying, pos := |bus|)
    ensures ClientOk(c', v, bus)
  {
    assert bus[|bus|..] == [];
  }

  lemma {:induction false} QueueHead(bus: seq<Envelope>, pos: nat, k: StreamKey)
    requires pos < |bus|
    ensures OnStream(bus[pos..], k) ==
              if bus[pos].streamKey == k then [bus[pos]] + OnStream(bus[pos + 1..], k) else OnStream(bus[pos + 1..], k)
  {
    assert bus[pos..][1..] == bus[pos + 1..];
  }

  lemma {:induction false} QueueTail(e: Envelope, queue: seq<Envelope>, v: View)
    requires QueueOk([e] + queue, v)
    ensures QueueOk(queue, v) && e == v.events[v.released - |queue| - 1]
  {
    var a := v.released - |queue| - 1;
    assert ([e] + queue)[0] == v.events[a];
    assert ([e] + queue)[1..] == queue;
    assert v.events[a..v.released][1..] == v.events[a + 1..v.released];
  }

  lemma {:induction false} SeenNext(c: Client, v: View, e: Envelope)
    requires SeenOk(c, v) && c.last < v.journaled && e == v.events[c.last] && e.sequence == c.last + 1
    ensures SeenOk(c.(pos := c.pos + 1, last := e.sequence, seen := c.seen + [Project(e)]), v)
  {
  }

  /** Taking the next bus item: skipped when foreign or already sent, else it is the very next event. */
  lemma {:induction false} TakeEvent(c: Client, v: View, bus: seq<Envelope>)
    requires ClientOk(c, v, bus) && c.phase.Live? && c.pos < |bus|
    requires forall i :: 0 <= i < |v.events| ==> v.events[i].sequence == i + 1
    ensures ClientOk(OnEvent(c, bus[c.pos]), v, bus)
  {
    var e := bus[c.pos];
    QueueHead(bus, c.pos, c.stream);
    if e.streamKey == c.stream {
      QueueTail(e, OnStream(bus[c.pos + 1..], c.stream), v);
      if e.sequence > c.last {
        SeenNext(c, v, e);
      }
    }
  }

  /** Replaying a page sends the next journaled events; an empty page means the client caught up. */
  lemma {:induction false} TakePage(c: Client, v: View, bus: seq<Envelope>, page: seq<Envelope>)
    requires ClientOk(c, v, bus) && c.phase.Replaying?
    requires |page| == Min(c.last + PAGE, v.journaled) - Min(c.last, v.journaled)
    requires forall i :: 0 <= i < |page| ==>
               c.last + i < v.journaled && page[i].sequence == c.last + i + 1 && Project(page[i]) == Project(v.events[c.last + i])
    ensures ClientOk(OnPage(c, Ok(page)), v, bus)
  {
    if page != [] {
      var c' := OnPage(c, Ok(page));
      assert c'.last == c.last + |page|;
      forall i | 0 <= i < |c'.seen| ensures c'.seen[i] == Project(v.events[c.after + i]) {
        if i >= |c.seen| {
          assert c'.seen[i] == Project(page[i - |c.seen|]);
        }
      }
    }
  }

  // ---- The whole system, with one dispatcher ----

  /** Events the lone dispatcher has marked but not yet handed to the live sink. */
  function Pending(s: System): seq<Envelope> {
    if |s.workers| == 1 && s.workers[0].Publishing? then s.workers[0].rest else []
  }

  function Mark(s: System, k: StreamKey): nat { Marked(Rows(s.store, k)) }

  /** How far publication of a stream has come: its marks minus what the dispatcher still holds. */
  function Released(s: System, k: StreamKey): nat {
    var held := |OnStream(Pending(s), k)|;
    if held <= Mark(s, k) then Mark(s, k) - held else 0
  }

  ghost predicate PendingOk(s: System, k: StreamKey) {
    && |OnStream(Pending(s), k)| <= Mark(s, k)
    && OnStream(Pending(s), k) == Events(s.store, k)[Released(s, k)..Mark(s, k)]
  }

  /** The lone dispatcher's groups still start at the first unmarked row, and its read is current. */
  ghost predicate LoneWorker(st: Store, j: Log, w: Worker) {
    && (w.Reading? || w.Appending? ==>
          forall i :: 0 <= i < |w.groups| ==> First(w.groups[i]) == Marked(Rows(st, w.groups[i].stream)))
    && (w.Appending? && w.next < |w.groups| ==>
          First(w.groups[w.next]) + w.matched == |Recorded(j, w.groups[w.next].stream)|)
  }

  function ViewOf(s: System, k: StreamKey): View {
    View(Events(s.store, k), |Recorded(s.journal, k)|, Released(s, k))
  }

  /** Every hand-off was a committed event at or below what the stream has released. */
  ghost predicate HandedOver(s: System, e: Envelope) {
    && 1 <= e.sequence <= Released(s, e.streamKey)
    && e.sequence <= |Rows(s.store, e.streamKey)|
    && Events(s.store, e.streamKey)[e.sequence - 1] == e
  }

  ghost predicate AscendingPerStream(sink: seq<Envelope>) {
    forall i, j :: 0 <= i < j < |sink| && sink[i].streamKey == sink[j].streamKey ==> sink[i].sequence < sink[j].sequence
  }

  ghost predicate SinkOk(s: System) {
    (forall i :: 0 <= i < |s.sink| ==> HandedOver(s, s.sink[i])) && AscendingPerStream(s.sink)
  }

  ghost predicate ClientsOk(s: System) {
    forall c :: c in s.clients ==> ClientOk(s.clients[c], ViewOf(s, s.clients[c].stream), s.bus)
  }

  ghost predicate Delivering(s: System) {
    && |s.workers| == 1
    && Durable(s)
    && LoneWorker(s.store, s.journal, s.workers[0])
    && (forall k :: PendingOk(s, k))
    && SinkOk(s)
    && ClientsOk(s)
  }

  /** A step of the durable side: streams grow, and publication stays where it was. */
  ghost predicate StreamStep(s: System, s': System, k: StreamKey) {
    && Events(s.store, k) <= Events(s'.store, k)
    && |Recorded(s.journal, k)| <= |Recorded(s'.journal, k)|
    && Released(s', k) == Released(s, k)
    && PendingOk(s', k)
  }

  lemma {:induction false} SinkGrows(s: System, s': System, e: Envelope)
    requires HandedOver(s, e) && Events(s.store, e.streamKey) <= Events(s'.store, e.streamKey)
    requires Released(s, e.streamKey) <= Released(s', e.streamKey)
    ensures HandedOver(s', e)
  {
  }

  lemma {:induction false} DurableSideStep(s: System, s': System)
    requires Delivering(s) && Durable(s') && |s'.workers| == 1
    requires s'.sink == s.sink && s'.bus == s.bus && s'.clients == s.clients
    requires LoneWorker(s'.store, s'.journal, s'.workers[0])
    requires forall k :: StreamStep(s, s', k)
    ensures Delivering(s')
  {
    forall k ensures PendingOk(s', k) {
      assert StreamStep(s, s', k);
    }
    forall i | 0 <= i < |s'.sink| ensures HandedOver(s', s'.sink[i]) {
      assert StreamStep(s, s', s.sink[i].streamKey);
      SinkGrows(s, s', s.sink[i]);
    }
    forall c | c in s'.clients ensures ClientOk(s'.clients[c], ViewOf(s', s'.clients[c].stream), s'.bus) {
      var k := s.clients[c].stream;
      assert StreamStep(s, s', k) && StreamDurable(s', k);
      ViewGrows(s.clients[c], ViewOf(s, k), ViewOf(s', k), s.bus);
    }
  }

  lemma {:induction false} SameMarks(s: System, s': System, k: StreamKey)
    requires PendingOk(s, k) && Pending(s') == Pending(s) && Mark(s', k) == Mark(s, k)
    requires Events(s.store, k) <= Events(s'.store, k) && |Recorded(s.journal, k)| <= |Recorded(s'.journal, k)|
    ensures StreamStep(s, s', k)
  {
    assert Events(s'.store, k)[..|Events(s.store, k)|] == Events(s.store, k);
  }

  /** A step that replaces only the dispatcher's volatile progress, with nothing left to publish. */
  lemma {:induction false} ProgressStep(s: System, s': System)
    requires Delivering(s) && Durable(s') && |s'.workers| == 1
    requires s' == s.(workers := s'.workers) && Pending(s') == Pending(s)
    requires LoneWorker(s.store, s.journal, s'.workers[0])
    ensures Delivering(s')
  {
    forall k ensures StreamStep(s, s', k) {
      assert PendingOk(s, k);
      SameMarks(s, s', k);
    }
    DurableSideStep(s, s');
  }

  lemma {:induction false} StageKeepsDelivering(s: System, d: Draft, ms: int)
    requires Delivering(s)
    ensures Delivering(Next(s, Stage(d, ms)))
  {
    StageExtends(s.store, d, ms);
    if StageAt(s.store, d, ms).Some? {
      var s' := Next(s, Stage(d, ms));
      StageKeepsDurable(s, d, ms);
      var row := IntoNew(d, |Rows(s.store, d.streamKey)| + 1, ms);
      forall k ensures StreamStep(s, s', k) && Mark(s', k) == Mark(s, k) {
        assert StreamDurable(s, k) && PendingOk(s, k);
        StageKeepsStream(s, s', row, k);
        SameMarks(s, s', k);
      }
      assert LoneWorker(s'.store, s'.journal, s'.workers[0]) by {
        SameLoneWorker(s, s');
      }
      DurableSideStep(s, s');
    }
  }

  lemma {:induction false} SameLoneWorker(s: System, s': System)
    requires |s.workers| == 1 && s'.workers == s.workers && s'.journal == s.journal
    requires LoneWorker(s.store, s.journal, s.workers[0]) && forall k :: Mark(s', k) == Mark(s, k)
    ensures LoneWorker(s'.store, s'.journal, s'.workers[0])
  {
    var w := s.workers[0];
    if w.Reading? || w.Appending? {
      forall i | 0 <= i < |w.groups| ensures First(w.groups[i]) == Marked(Rows(s'.store, w.groups[i].stream)) {
        assert Mark(s', w.groups[i].stream) == Mark(s, w.groups[i].stream);
      }
    }
  }

  /** The dispatcher moves on without touching anything durable. */
  lemma {:induction false} ProgressWorker(s: System, w: Worker)
    requires Delivering(s) && !s.workers[0].Publishing? && !w.Publishing?
    requires WorkerOk(s.store, s.journal, w) && LoneWorker(s.store, s.journal, w)
    ensures Delivering(s.(workers := s.workers[0 := w]))
  {
    var s' := s.(workers := s.workers[0 := w]);
    OnlyWorkerChanged(s, s', 0);
    ProgressStep(s, s');
  }

  lemma {:induction false} LoneScan(st: Store, j: Log, limit: nat)
    requires Outbox.Valid(st)
    ensures WorkerOk(st, j, ScanWorker(st, limit)) && LoneWorker(st, j, ScanWorker(st, limit)) && !ScanWorker(st, limit).Publishing?
  {
    ScanWorkerOk(st, j, limit);
  }

  lemma {:induction false} ScanKeepsDelivering(s: System, w: nat, limit: nat)
    requires Delivering(s)
    ensures Delivering(Next(s, Scan(w, limit)))
  {
    if w == 0 && s.workers[0].Idle? {
      LoneScan(s.store, s.journal, limit);
      ProgressWorker(s, ScanWorker(s.store, limit));
    }
  }

  /** What a lone dispatcher reads back is current: nobody else appends. */
  lemma {:induction false} LoneRead(s: System, w: Worker)
    requires w.Reading? && w.next < |w.groups| && WorkerOk(s.store, s.journal, w) && LoneWorker(s.store, s.journal, w)
    requires StreamWellFormed(s.store, w.groups[w.next].stream) && StreamDurable(s, w.groups[w.next].stream)
    ensures var w' := ReadWorker(s.journal, w);
            WorkerOk(s.store, s.journal, w') && LoneWorker(s.store, s.journal, w') && !w'.Publishing?
  {
    ReadWorkerOk(s, w);
  }

  lemma {:induction false} ReadKeepsDelivering(s: System, w: nat)
    requires Delivering(s)
    ensures Delivering(Next(s, Read(w)))
  {
    if w == 0 && s.workers[0].Reading? && s.workers[0].next < |s.workers[0].groups| {
      var worker := s.workers[0];
      assert WorkerOk(s.store, s.journal, worker);
      var k := worker.groups[worker.next].stream;
      assert StreamValid(s.store, k) && StreamDurable(s, k);
      LoneRead(s, worker);
      ProgressWorker(s, ReadWorker(s.journal, worker));
    }
  }

  /** The lone dispatcher's append succeeds and it moves to the next group. */
  lemma {:induction false} LoneAppend(s: System) returns (j': Log, r: Result<nat, JournalError>)
    requires Delivering(s) && s.workers[0].Appending?
    ensures var w := s.workers[0];
            && w.next < |w.groups| && w.matched < |w.groups[w.next].batch|
            && AppendWorker(s.journal, w) == (j', Reading(w.groups, w.next + 1)) && Appended(s, w.groups[w.next], j', r)
  {
    var w := s.workers[0];
    assert WorkerOk(s.store, s.journal, w);
    r := AppendWorkerOk(s, w);
    j' := AppendWorker(s.journal, w).0;
  }

  lemma {:induction false} AppendStep(s: System, s': System, r: Result<nat, JournalError>)
    requires Delivering(s) && s.workers[0].Appending? && Durable(s') && s.workers[0].next < |s.workers[0].groups|
    requires s' == s.(journal := s'.journal, workers := s.workers[0 := Reading(s.workers[0].groups, s.workers[0].next + 1)])
    requires Appended(s, s.workers[0].groups[s.workers[0].next], s'.journal, r)
    ensures Delivering(s')
  {
    forall k ensures StreamStep(s, s', k) {
      assert PendingOk(s, k);
      AppendedGrows(s, s.workers[0].groups[s.workers[0].next], s'.journal, r, k);
      SameMarks(s, s', k);
    }
    DurableSideStep(s, s');
  }

  lemma {:induction false} AppendKeepsDelivering(s: System, w: nat)
    requires Delivering(s)
    ensures Delivering(Next(s, Append(w)))
  {
    if w == 0 && s.workers[0].Appending? {
      AppendKeepsDurable(s, 0);
      var j', r := LoneAppend(s);
      AppendStep(s, Next(s, Append(0)), r);
    }
  }

  lemma {:induction false} AppendedGrows(s: System, g: Group, j': Log, r: Result<nat, JournalError>, k: StreamKey)
    requires Appended(s, g, j', r)
    ensures |Recorded(s.journal, k)| <= |Recorded(j', k)|
  {
  }

  // ---- Marking ----

  ghost predicate Uniform(g: Group) { forall i :: 0 <= i < |g.batch| ==> g.batch[i].streamKey == g.stream }

  lemma {:induction false} GroupIsUniform(st: Store, g: Group)
    requires StreamValid(st, g.stream) && GroupOk(st, g)
    ensures Uniform(g)
  {
    forall i | 0 <= i < |g.batch| ensures g.batch[i].streamKey == g.stream {
      BatchPosition(st, g, i);
    }
  }

  lemma {:induction false} GroupOnStream(g: Group, k: StreamKey)
    requires Uniform(g)
    ensures OnStream(g.batch, k) == if g.stream == k then g.batch else []
  {
    if g.stream == k {
      OnStreamAll(g.batch, k);
    } else {
      OnStreamNone(g.batch, k);
    }
  }

  lemma {:induction false} FlatElsewhere(groups: seq<Group>, k: StreamKey)
    requires forall i :: 0 <= i < |groups| ==> Uniform(groups[i]) && groups[i].stream != k
    ensures OnStream(Flat(groups), k) == []
  {
    if groups != [] {
      GroupOnStream(groups[0], k);
      FlatElsewhere(groups[1..], k);
      OnStreamAppend(groups[0].batch, Flat(groups[1..]), k);
    }
  }

  /** The dispatched events of one stream are its group's batch. */
  lemma {:induction false} FlatOnStream(groups: seq<Group>, n: nat, k: StreamKey)
    requires n < |groups| && groups[n].stream == k && (forall i :: 0 <= i < |groups| ==> Uniform(groups[i]))
    requires forall i :: 0 <= i < |groups| && i != n ==> groups[i].stream != k
    ensures OnStream(Flat(groups), k) == groups[n].batch
  {
    var tail := groups[1..];
    GroupOnStream(groups[0], k);
    OnStreamAppend(groups[0].batch, Flat(tail), k);
    if n == 0 {
      FlatElsewhere(tail, k);
      assert groups[0].batch + [] == groups[0].batch;
    } else {
      FlatOnStream(tail, n - 1, k);
      assert [] + groups[n].batch == groups[n].batch;
    }
  }

  /** The dispatcher now holds `batch`, the rows its mark just passed. */
  lemma {:induction false} HoldsBatch(s: System, s': System, batch: seq<Envelope>, k: StreamKey)
    requires Pending(s) == [] && OnStream(Pending(s'), k) == batch
    requires s'.journal == s.journal && Events(s'.store, k) == Events(s.store, k)
    requires Mark(s', k) == Mark(s, k) + |batch| && batch == Events(s.store, k)[Mark(s, k)..Mark(s', k)]
    ensures StreamStep(s, s', k)
  {
  }

  lemma {:induction false} MarkedOwn(s: System, groups: seq<Group>, n: nat, s': System)
    requires n < |groups| && DistinctStreams(groups) && GroupOk(s.store, groups[n]) && MarkMoves(s.store, groups, s'.store, groups[n].stream)
    requires forall i :: 0 <= i < |groups| ==> Uniform(groups[i])
    requires First(groups[n]) == Mark(s, groups[n].stream) && Events(s'.store, groups[n].stream) == Events(s.store, groups[n].stream)
    requires s'.journal == s.journal && Pending(s) == [] && Pending(s') == Flat(groups)
    ensures StreamStep(s, s', groups[n].stream)
  {
    FlatOnStream(groups, n, groups[n].stream);
    HoldsBatch(s, s', groups[n].batch, groups[n].stream);
  }

  lemma {:induction false} MarkedOther(s: System, groups: seq<Group>, s': System, k: StreamKey)
    requires MarkMoves(s.store, groups, s'.store, k) && forall i :: 0 <= i < |groups| ==> Uniform(groups[i]) && groups[i].stream != k
    requires s'.journal == s.journal && Events(s'.store, k) == Events(s.store, k) && Pending(s) == [] && Pending(s') == Flat(groups)
    ensures StreamStep(s, s', k)
  {
    FlatElsewhere(groups, k);
    HoldsBatch(s, s', [], k);
  }

  /** Marking moves a stream's mark by exactly what the dispatcher then still has to publish. */
  lemma {:induction false} MarkedStream(s: System, groups: seq<Group>, s': System, k: StreamKey)
    requires UniqueIds(s.store) && StreamValid(s.store, k) && Pending(s) == [] && DistinctStreams(groups)
    requires forall i :: 0 <= i < |groups| ==> GroupOk(s.store, groups[i]) && Uniform(groups[i])
    requires forall i :: 0 <= i < |groups| ==> First(groups[i]) == Marked(Rows(s.store, groups[i].stream))
    requires s'.journal == s.journal && s'.store == MarkPublished(s.store, Ids(Flat(groups))) && Pending(s') == Flat(groups)
    ensures StreamStep(s, s', k)
  {
    MarkTouchesOnlyFlags(s.store, Ids(Flat(groups)), k);
    MarkStream(s.store, groups, k);
    if n :| 0 <= n < |groups| && groups[n].stream == k {
      MarkedOwn(s, groups, n, s');
    } else {
      MarkedOther(s, groups, s', k);
    }
  }

  lemma {:induction false} MarkKeepsDelivering(s: System, w: nat)
    requires Delivering(s)
    ensures Delivering(Next(s, Step.Mark(w)))
  {
    if w == 0 && s.workers[0].Reading? && s.workers[0].next == |s.workers[0].groups| {
      var s' := Next(s, Step.Mark(0));
      MarkKeepsDurable(s, w);
      var groups := s.workers[0].groups;
      assert WorkerOk(s.store, s.journal, s.workers[0]);
      forall i | 0 <= i < |groups| ensures GroupOk(s.store, groups[i]) && Uniform(groups[i]) {
        assert StreamValid(s.store, groups[i].stream);
        GroupIsUniform(s.store, groups[i]);
      }
      forall k ensures StreamStep(s, s', k) {
        assert StreamValid(s.store, k);
        MarkedStream(s, groups, s', k);
      }
      DurableSideStep(s, s');
    }
  }

  // ---- Publishing ----

  lemma {:induction false} PublishStream(s: System, s': System, e: Envelope, k: StreamKey)
    requires PendingOk(s, k) && Pending(s) == [e] + Pending(s') && s'.store == s.store
    requires StreamWellFormed(s.store, k)
    ensures PendingOk(s', k)
    ensures Released(s', k) == if k == e.streamKey then Released(s, k) + 1 else Released(s, k)
    ensures k == e.streamKey ==>
              Released(s, k) < Mark(s, k) && e.sequence == Released(s, k) + 1 && Events(s.store, k)[Released(s, k)] == e
  {
    OnStreamAppend([e], Pending(s'), k);
    if k == e.streamKey {
      OnStreamAll([e], k);
      var a, m, events := Released(s, k), Mark(s, k), Events(s.store, k);
      assert events[a..m][0] == e;
      assert events[a..m][1..] == events[a + 1..m];
      assert ([e] + OnStream(Pending(s'), k))[1..] == OnStream(Pending(s'), k);
    } else {
      OnStreamNone([e], k);
      assert [] + OnStream(Pending(s'), k) == OnStream(Pending(s'), k);
    }
  }

  lemma {:induction false} PublishClient(s: System, s': System, e: Envelope, c: Client)
    requires s'.store == s.store && s'.journal == s.journal && StreamDurable(s, c.stream)
    requires PendingOk(s, c.stream) && Pending(s) == [e] + Pending(s') && StreamWellFormed(s.store, c.stream)
    requires ClientOk(c, ViewOf(s, c.stream), s.bus) && (Attached(c) ==> s'.bus == s.bus + [e])
    ensures ClientOk(c, ViewOf(s', c.stream), s'.bus)
  {
    PublishStream(s, s', e, c.stream);
    if !Attached(c) {
      DetachedClient(c, ViewOf(s, c.stream), ViewOf(s', c.stream), s.bus, s'.bus);
    } else if e.streamKey == c.stream {
      PublishOwn(c, ViewOf(s, c.stream), s.bus, e);
    } else {
      PublishForeign(c, ViewOf(s, c.stream), s.bus, e);
    }
  }

  lemma {:induction false} PublishSink(s: System, s': System, e: Envelope)
    requires (forall k :: PendingOk(s, k)) && StreamsValid(s.store) && SinkOk(s)
    requires Pending(s) == [e] + Pending(s') && s'.store == s.store && s'.sink == s.sink + [e]
    ensures SinkOk(s')
  {
    forall i | 0 <= i < |s'.sink| ensures HandedOver(s', s'.sink[i]) && (i < |s.sink| ==> HandedOver(s, s.sink[i])) {
      var k := s'.sink[i].streamKey;
      assert PendingOk(s, k) && StreamValid(s.store, k);
      PublishStream(s, s', e, k);
      if i < |s.sink| {
        SinkGrows(s, s', s.sink[i]);
      }
    }
    assert PendingOk(s, e.streamKey) && StreamValid(s.store, e.streamKey);
    PublishStream(s, s', e, e.streamKey);
  }

  lemma {:induction false} PublishEvent(s: System, s': System, e: Envelope)
    requires Delivering(s) && Durable(s') && |s'.workers| == 1 && s'.workers[0].Publishing?
    requires Pending(s) == [e] + Pending(s') && s'.store == s.store && s'.journal == s.journal
    requires s'.sink == s.sink + [e] && s'.bus == (if HasReceiver(s) then s.bus + [e] else s.bus) && s'.clients == s.clients
    ensures Delivering(s')
  {
    PublishSink(s, s', e);
    forall k ensures PendingOk(s', k) {
      assert PendingOk(s, k) && StreamValid(s.store, k);
      PublishStream(s, s', e, k);
    }
    forall c | c in s'.clients ensures ClientOk(s'.clients[c], ViewOf(s', s'.clients[c].stream), s'.bus) {
      var k := s.clients[c].stream;
      assert PendingOk(s, k) && StreamValid(s.store, k) && StreamDurable(s, k);
      PublishClient(s, s', e, s.clients[c]);
    }
  }

  lemma {:induction false} PublishKeepsDelivering(s: System, w: nat)
    requires Delivering(s)
    ensures Delivering(Next(s, Publish(w)))
  {
    if w == 0 && s.workers[0].Publishing? {
      var s', rest := Next(s, Publish(0)), s.workers[0].rest;
      VolatileKeepsDurable(s, s');
      if rest == [] {
        ProgressStep(s, s');
      } else {
        assert rest == [rest[0]] + rest[1..];
        PublishEvent(s, s', rest[0]);
      }
    }
  }

  // ---- Crashing ----

  /** What the dispatcher had not handed over is lost to the bus: publication jumps to the mark. */
  lemma {:induction false} CrashStream(s: System, s': System, k: StreamKey)
    requires s'.store == s.store && Pending(s') == []
    ensures PendingOk(s', k) && Released(s, k) <= Released(s', k) == Mark(s, k)
  {
  }

  lemma {:induction false} CrashKeepsDelivering(s: System)
    requires Delivering(s)
    ensures Delivering(Next(s, Crash))
  {
    var s' := Next(s, Crash);
    VolatileKeepsDurable(s, s');
    forall k ensures PendingOk(s', k) {
      CrashStream(s, s', k);
    }
    forall i | 0 <= i < |s'.sink| ensures HandedOver(s', s'.sink[i]) {
      CrashStream(s, s', s.sink[i].streamKey);
      SinkGrows(s, s', s.sink[i]);
    }
    forall c | c in s'.clients ensures ClientOk(s'.clients[c], ViewOf(s', s'.clients[c].stream), s'.bus) {
      var k := s.clients[c].stream;
      CrashStream(s, s', k);
      assert StreamDurable(s, k);
      DroppedClient(s.clients[c], ViewOf(s, k), ViewOf(s', k), s.bus, s'.bus);
    }
  }

  lemma {:induction false} DroppedClient(c: Client, v: View, v': View, bus: seq<Envelope>, bus': seq<Envelope>)
    requires ClientOk(c, v, bus) && v' == v.(released := v'.released) && v'.released <= v.journaled
    ensures ClientOk(Drop(c), v', bus')
  {
  }

  // ---- Clients ----

  lemma {:induction false} ClientStep(s: System, s': System, c: nat)
    requires Delivering(s) && c in s'.clients && s' == s.(clients := s.clients[c := s'.clients[c]])
    requires ClientOk(s'.clients[c], ViewOf(s, s'.clients[c].stream), s.bus)
    ensures Delivering(s')
  {
    VolatileKeepsDurable(s, s');
    forall k ensures PendingOk(s', k) {
      assert PendingOk(s, k);
    }
    forall i | 0 <= i < |s'.sink| ensures HandedOver(s', s'.sink[i]) {
      assert HandedOver(s, s.sink[i]);
    }
    forall d | d in s'.clients ensures ClientOk(s'.clients[d], ViewOf(s', s'.clients[d].stream), s'.bus) {
      assert ViewOf(s', s'.clients[d].stream) == ViewOf(s, s'.clients[d].stream);
    }
  }

  lemma {:induction false} SubscribeKeepsDelivering(s: System, c: nat, stream: StreamKey, after: nat)
    requires Delivering(s)
    ensures Delivering(Next(s, Subscribe(c, stream, after)))
  {
    var s' := Next(s, Subscribe(c, stream, after));
    if s' != s {
      assert StreamDurable(s, stream);
      AttachClient(s'.clients[c], ViewOf(s, stream), s.bus, s'.clients[c]);
      ClientStep(s, s', c);
    }
  }

  lemma {:induction false} ResumeKeepsDelivering(s: System, c: nat)
    requires Delivering(s)
    ensures Delivering(Next(s, Resume(c)))
  {
    var s' := Next(s, Resume(c));
    if s' != s {
      AttachClient(s.clients[c], ViewOf(s, s.clients[c].stream), s.bus, s'.clients[c]);
      ClientStep(s, s', c);
    }
  }

  lemma {:induction false} PageKeepsDelivering(s: System, c: nat)
    requires Delivering(s)
    ensures Delivering(Next(s, Page(c)))
  {
    var s' := Next(s, Page(c));
    if s' != s {
      var client := s.clients[c];
      assert StreamValid(s.store, client.stream) && StreamDurable(s, client.stream);
      PageContents(s, client.stream, client.last, PAGE);
      PageClient(s, client);
      ClientStep(s, s', c);
    }
  }

  lemma {:induction false} PageClient(s: System, c: Client)
    requires ClientOk(c, ViewOf(s, c.stream), s.bus) && c.phase.Replaying?
    requires StreamWellFormed(s.store, c.stream) && StreamDurable(s, c.stream)
    ensures ClientOk(OnPage(c, ReadPage(s.journal, c.stream, c.last, PAGE)), ViewOf(s, c.stream), s.bus)
  {
    PageContents(s, c.stream, c.last, PAGE);
    var page := ReadPage(s.journal, c.stream, c.last, PAGE).value;
    var v := ViewOf(s, c.stream);
    forall i | 0 <= i < |page| ensures c.last + i < v.journaled && page[i].sequence == c.last + i + 1
                                       && Project(page[i]) == Project(v.events[c.last + i]) {
      assert PageEvent(s, c.stream, c.last + i, page[i]);
    }
    TakePage(c, v, s.bus, page);
  }

  lemma {:induction false} TakeClient(c: Client, v: View, bus: seq<Envelope>, capacity: nat)
    requires ClientOk(c, v, bus) && c.phase.Live?
    requires forall i :: 0 <= i < |v.events| ==> v.events[i].sequence == i + 1
    ensures ClientOk(OnBus(c, bus, capacity), v, bus) && OnBus(c, bus, capacity).stream == c.stream
  {
    if c.pos < |bus| && |bus| - c.pos <= capacity {
      TakeEvent(c, v, bus);
    }
  }

  lemma {:induction false} TakeKeepsDelivering(s: System, c: nat)
    requires Delivering(s)
    ensures Delivering(Next(s, Take(c)))
  {
    if c in s.clients && s.clients[c].phase.Live? {
      var client := s.clients[c];
      assert StreamValid(s.store, client.stream);
      TakeClient(client, ViewOf(s, client.stream), s.bus, s.capacity);
      ClientStep(s, Next(s, Take(c)), c);
    }
  }

  lemma {:induction false} DisconnectKeepsDelivering(s: System, c: nat)
    requires Delivering(s)
    ensures Delivering(Next(s, Disconnect(c)))
  {
    var s' := Next(s, Disconnect(c));
    if s' != s {
      var v := ViewOf(s, s.clients[c].stream);
      DroppedClient(s.clients[c], v, v, s.bus, s.bus);
      ClientStep(s, s', c);
    }
  }

  // ---- Every run ----

  lemma {:induction false} AbortKeepsDelivering(s: System, w: nat)
    requires Delivering(s)
    ensures Delivering(Next(s, Abort(w)))
  {
    if w == 0 && !s.workers[0].Publishing? {
      ProgressWorker(s, Idle);
    }
  }

  lemma {:induction false} StepKeepsDelivering(s: System, step: Step)
    requires Delivering(s)
    ensures Delivering(Next(s, step))
  {
    match step
    case Stage(d, ms) => StageKeepsDelivering(s, d, ms);
    case Scan(w, limit) => ScanKeepsDelivering(s, w, limit);
    case Read(w) => ReadKeepsDelivering(s, w);
    case Append(w) => AppendKeepsDelivering(s, w);
    case Abort(w) => AbortKeepsDelivering(s, w);
    case Mark(w) => MarkKeepsDelivering(s, w);
    case Publish(w) => PublishKeepsDelivering(s, w);
    case Crash => CrashKeepsDelivering(s);
    case Subscribe(c, stream, after) => SubscribeKeepsDelivering(s, c, stream, after);
    case Page(c) => PageKeepsDelivering(s, c);
    case Take(c) => TakeKeepsDelivering(s, c);
    case Disconnect(c) => DisconnectKeepsDelivering(s, c);
    case Resume(c) => ResumeKeepsDelivering(s, c);
  }

  lemma {:induction false} RunDelivers(capacity: nat, steps: seq<Step>)
    ensures Delivering(Run(Init(1, capacity), steps))
  {
    if steps == [] {
      EmptyIsValid();
    } else {
      RunDelivers(capacity, steps[..|steps| - 1]);
      StepKeepsDelivering(Run(Init(1, capacity), steps[..|steps| - 1]), steps[|steps| - 1]);
    }
  }

  /** What a client was sent since `after` is exactly the committed events `after + 1 .. last` of its stream, all durable. */
  ghost predicate GapFree(s: System, c: Client) {
    && c.after <= c.last
    && |c.seen| == c.last - c.after
    && (c.seen != [] ==> c.last <= |Recorded(s.journal, c.stream)| <= |Events(s.store, c.stream)|)
    && (forall i :: 0 <= i < |c.seen| ==> c.seen[i] == Project(Events(s.store, c.stream)[c.after + i]))
  }

  /**
   * With one dispatcher, replay and live delivery join without gap, duplicate or reordering, across
   * lag, disconnects, resumes and crashes. A live client that has drained the bus is at or past
   * everything published.
   */
  lemma {:induction false} GapFreeDelivery(capacity: nat, steps: seq<Step>, id: nat)
    requires id in Run(Init(1, capacity), steps).clients
    ensures var s := Run(Init(1, capacity), steps);
            var c := s.clients[id];
            GapFree(s, c) && (c.phase.Live? && c.pos == |s.bus| ==> Released(s, c.stream) <= c.last)
  {
    RunDelivers(capacity, steps);
  }

  /**
   * The live sink is at most once and in stream order, and it never runs ahead of durability:
   * whatever was handed over is committed, journaled and marked.
   */
  lemma {:induction false} SinkAtMostOnce(capacity: nat, steps: seq<Step>, i: nat)
    requires i < |Run(Init(1, capacity), steps).sink|
    ensures var s := Run(Init(1, capacity), steps);
            var e := s.sink[i];
            && 1 <= e.sequence <= Mark(s, e.streamKey) <= |Recorded(s.journal, e.streamKey)| <= |Events(s.store, e.streamKey)|
            && Events(s.store, e.streamKey)[e.sequence - 1] == e
            && (forall j :: i < j < |s.sink| && s.sink[j].streamKey == e.streamKey ==> e.sequence < s.sink[j].sequence)
  {
    RunDelivers(capacity, steps);
    var s := Run(Init(1, capacity), steps);
    assert HandedOver(s, s.sink[i]) && StreamDurable(s, s.sink[i].streamKey);
  }

  /** The append a worker is about to issue starts at the journal's head. */
  ghost predicate AtHead(s: System, w: Worker) {
    && w.Appending? && w.next < |w.groups| && w.matched < |w.groups[w.next].batch|
    && AppendFrom(w.groups[w.next], w.matched) == |Recorded(s.journal, w.groups[w.next].stream)|
  }

  lemma {:induction false} LoneAppendAtHead(s: System)
    requires Delivering(s) && s.workers[0].Appending?
    ensures AtHead(s, s.workers[0])
  {
    var w := s.workers[0];
    assert WorkerOk(s.store, s.journal, w) && GroupOk(s.store, w.groups[w.next]) && StreamValid(s.store, w.groups[w.next].stream);
    if w.matched > 0 {
      BatchPosition(s.store, w.groups[w.next], w.matched - 1);
    }
  }

  /** A lone dispatcher never meets a precondition failure: its append is issued at the true journal head and succeeds. */
  lemma {:induction false} LoneAppendSucceeds(capacity: nat, steps: seq<Step>)
    requires var s := Run(Init(1, capacity), steps); |s.workers| == 1 && s.workers[0].Appending?
    ensures var s := Run(Init(1, capacity), steps);
            var w, w' := s.workers[0], Next(s, Append(0)).workers[0];
            AtHead(s, w) && w' == Reading(w.groups, w.next + 1)
  {
    RunDelivers(capacity, steps);
    LoneAppendAtHead(Run(Init(1, capacity), steps));
    var j', r := LoneAppend(Run(Init(1, capacity), steps));
  }

  // ---- Redaction, with any number of dispatchers ----

  predicate Redacted(frames: seq<Wire>) { forall i :: 0 <= i < |frames| && frames[i].sensitivity.Secret? ==> frames[i].payload == [] }

  ghost predicate AllRedacted(s: System) { forall c :: c in s.clients ==> Redacted(s.clients[c].seen) }

  lemma {:induction false} StepKeepsRedacted(s: System, step: Step)
    requires AllRedacted(s)
    ensures AllRedacted(Next(s, step))
  {
    forall c | c in Next(s, step).clients ensures Redacted(Next(s, step).clients[c].seen) {
      if c in s.clients {
        assert Redacted(s.clients[c].seen);
      }
    }
  }

  /** No client frame ever carries the payload of a `Secret` event. */
  lemma {:induction false} SecretsNeverShip(workers: nat, capacity: nat, steps: seq<Step>, id: nat, i: nat)
    requires var s := Run(Init(workers, capacity), steps); id in s.clients && i < |s.clients[id].seen|
    ensures var frame := Run(Init(workers, capacity), steps).clients[id].seen[i];
            frame.sensitivity.Secret? ==> frame.payload == []
  {
    RunIsRedacted(workers, capacity, steps);
    assert Redacted(Run(Init(workers, capacity), steps).clients[id].seen);
  }

  lemma {:induction false} RunIsRedacted(workers: nat, capacity: nat, steps: seq<Step>)
    ensures AllRedacted(Run(Init(workers, capacity), steps))
  {
    if steps != [] {
      RunIsRedacted(workers, capacity, steps[..|steps| - 1]);
      StepKeepsRedacted(Run(Init(workers, capacity), steps[..|steps| - 1]), steps[|steps| - 1]);
    }
  }
}
