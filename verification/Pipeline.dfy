/**
 * The whole event pipeline as a state machine: staging, any number of dispatchers, the journal,
 * the live bus and subscribed clients, interleaved step by step.
 */
module Pipeline {
  import opened Common
  import opened Envelopes
  import opened Outbox
  import opened Batches
  import opened Journal

  // ---- State ----

  /** Where a `dispatch_once` iteration stands; everything in it is lost in a crash. */
  datatype Worker =
    | Idle
    | Reading(groups: seq<Group>, next: nat)
    | Appending(groups: seq<Group>, next: nat, matched: nat)
    | Publishing(rest: seq<Envelope>)

  datatype Phase = Replaying | Live | Lagged | Gone

  /** A subscription: `seen` is what was sent since `after`, `pos` its place on the bus. */
  datatype Client = Client(stream: StreamKey, after: nat, phase: Phase, last: nat, seen: seq<Wire>, pos: nat)

  /** `sink` records every live hand-off since the beginning; `bus` only those since the last crash. */
  datatype System = System(
    store: Store, journal: Log, workers: seq<Worker>,
    sink: seq<Envelope>, bus: seq<Envelope>, capacity: nat, clients: map<nat, Client>)

  function Init(workers: nat, capacity: nat): System {
    System(Outbox.Empty, map[], seq(workers, _ => Idle), [], [], capacity, map[])
  }

  // ---- Steps ----

  datatype Step =
    | Stage(draft: Draft, occurredMs: int)
    | Scan(worker: nat, limit: nat)
    | Read(worker: nat)
    | Append(worker: nat)
    | Abort(worker: nat)
    | Mark(worker: nat)
    | Publish(worker: nat)
    | Crash
    | Subscribe(client: nat, stream: StreamKey, after: nat)
    | Page(client: nat)
    | Take(client: nat)
    | Disconnect(client: nat)
    | Resume(client: nat)

  const PAGE := 256

  predicate Attached(c: Client) { c.phase.Replaying? || c.phase.Live? }

  /** The expected sequence of a batch: the first row's sequence minus one, saturating. */
  function First(g: Group): nat {
    if g.batch == [] || g.batch[0].sequence == 0 then 0 else g.batch[0].sequence - 1
  }

  ghost function ScanWorker(st: Store, limit: nat): Worker {
    var rows := Outbox.Scan(st, limit);
    if forall r :: r in rows ==> IsCanonicalStream(r.event.streamKey) then Reading(GroupRows(rows), 0) else Idle
  }

  /** How much of a batch the journal already holds; `None` when it cannot be read or diverges. */
  function Found(j: Log, g: Group): Option<nat> {
    match ReadPage(j, g.stream, First(g), |g.batch|)
    case Err(_) => None
    case Ok(page) => MatchedPrefix(page, g.batch)
  }

  function AfterRead(w: Worker, found: Option<nat>): Worker
    requires w.Reading? && w.next < |w.groups|
  {
    match found
    case None => Idle
    case Some(n) =>
      if n < |w.groups[w.next].batch| then Appending(w.groups, w.next, n) else Reading(w.groups, w.next + 1)
  }

  /** Looks up what the journal already holds of the next batch. */
  function ReadWorker(j: Log, w: Worker): Worker
    requires w.Reading? && w.next < |w.groups|
  {
    AfterRead(w, Found(j, w.groups[w.next]))
  }

  /** Where the missing part of a batch is appended. */
  function AppendFrom(g: Group, matched: nat): nat
    requires matched < |g.batch|
  {
    if matched == 0 then First(g) else g.batch[matched - 1].sequence
  }

  /** Appends the unrecorded suffix of the batch; any failure ends the iteration. */
  ghost function AppendWorker(j: Log, w: Worker): (Log, Worker)
    requires w.Appending? && w.next < |w.groups| && w.matched < |w.groups[w.next].batch|
  {
    var g := w.groups[w.next];
    var (j', r) := AppendTo(j, g.stream, AppendFrom(g, w.matched), g.batch[w.matched..]);
    (j', if r.Ok? then Reading(w.groups, w.next + 1) else Idle)
  }

  function Ids(events: seq<Envelope>): set<Id> {
    if events == [] then {} else {events[0].eventId} + Ids(events[1..])
  }

  ghost predicate HasReceiver(s: System) { exists c :: c in s.clients && Attached(s.clients[c]) }

  /** One journal page: an empty one ends the replay. */
  function OnPage(c: Client, page: Result<seq<Envelope>, JournalError>): Client {
    match page
    case Err(_) => c.(phase := Gone)
    case Ok(events) =>
      if events == [] then c.(phase := Live)
      else c.(last := events[|events| - 1].sequence, seen := c.seen + Map(events, Project))
  }

  /** One live item: foreign streams and sequences already sent are skipped. */
  function OnEvent(c: Client, e: Envelope): Client {
    var c := c.(pos := c.pos + 1);
    if e.streamKey != c.stream || e.sequence <= c.last then c
    else c.(last := e.sequence, seen := c.seen + [Project(e)])
  }

  function OnBus(c: Client, bus: seq<Envelope>, capacity: nat): Client {
    if c.pos >= |bus| then c
    else if |bus| - c.pos > capacity then c.(phase := Lagged)
    else OnEvent(c, bus[c.pos])
  }

  function Drop(c: Client): Client { if Attached(c) then c.(phase := Gone) else c }

  /** A step that is not enabled leaves the system as it is. */
  ghost function Next(s: System, step: Step): System {
    match step
    case Stage(d, ms) =>
      var r := StageAt(s.store, d, ms);
      if r.Some? then s.(store := r.value) else s
    case Scan(w, limit) =>
      if w < |s.workers| && s.workers[w].Idle? then s.(workers := s.workers[w := ScanWorker(s.store, limit)]) else s
    case Read(w) =>
      if w < |s.workers| && s.workers[w].Reading? && s.workers[w].next < |s.workers[w].groups|
      then s.(workers := s.workers[w := ReadWorker(s.journal, s.workers[w])]) else s
    case Append(w) =>
      if w < |s.workers| && s.workers[w].Appending? && s.workers[w].next < |s.workers[w].groups|
         && s.workers[w].matched < |s.workers[w].groups[s.workers[w].next].batch|
      then
        var (j', w') := AppendWorker(s.journal, s.workers[w]);
        s.(journal := j', workers := s.workers[w := w'])
      else s
    case Abort(w) =>
      if w < |s.workers| && !s.workers[w].Publishing? then s.(workers := s.workers[w := Idle]) else s
    case Mark(w) =>
      if w < |s.workers| && s.workers[w].Reading? && s.workers[w].next == |s.workers[w].groups|
      then
        var events := Flat(s.workers[w].groups);
        s.(store := MarkPublished(s.store, Ids(events)), workers := s.workers[w := Publishing(events)])
      else s
    case Publish(w) =>
      if w < |s.workers| && s.workers[w].Publishing? then
        var rest := s.workers[w].rest;
        if rest == [] then s.(workers := s.workers[w := Idle])
        else s.(workers := s.workers[w := Publishing(rest[1..])], sink := s.sink + [rest[0]],
                bus := if HasReceiver(s) then s.bus + [rest[0]] else s.bus)
      else s
    case Crash =>
      s.(workers := seq(|s.workers|, _ => Idle), bus := [], clients := map c | c in s.clients :: Drop(s.clients[c]))
    case Subscribe(c, stream, after) =>
      if c !in s.clients && IsCanonicalStream(stream)
      then s.(clients := s.clients[c := Client(stream, after, Replaying, after, [], |s.bus|)]) else s
    case Page(c) =>
      if c in s.clients && s.clients[c].phase.Replaying?
      then s.(clients := s.clients[c := OnPage(s.clients[c], ReadPage(s.journal, s.clients[c].stream, s.clients[c].last, PAGE))])
      else s
    case Take(c) =>
      if c in s.clients && s.clients[c].phase.Live?
      then s.(clients := s.clients[c := OnBus(s.clients[c], s.bus, s.capacity)]) else s
    case Disconnect(c) =>
      if c in s.clients then s.(clients := s.clients[c := Drop(s.clients[c])]) else s
    case Resume(c) =>
      if c in s.clients && !Attached(s.clients[c])
      then s.(clients := s.clients[c := s.clients[c].(phase := Replaying, pos := |s.bus|)]) else s
  }

  ghost function Run(s: System, steps: seq<Step>): System {
    if steps == [] then s else Next(Run(s, steps[..|steps| - 1]), steps[|steps| - 1])
  }
}
