/**
 * The written loops refine the state machine: one `dispatch_once` is a run of a dispatcher's steps, and
 * following the bus sends what a client's steps add, however other steps fall in between.
 */
module Refinement {
  import opened Common
  import opened Envelopes
  import opened Outbox
  import opened Batches
  import opened Journal
  import opened Pipeline
  import opened Dispatcher
  import opened Subscription

  // ---- Runs ----

  lemma {:induction false} RunOne(s: System, step: Step)
    ensures Run(s, [step]) == Next(s, step)
  {
    assert [step][..0] == [];
  }

  lemma {:induction false} RunAppend(s: System, a: seq<Step>, b: seq<Step>)
    ensures Run(s, a + b) == Run(Run(s, a), b)
    decreases |b|
  {
    if b == [] {
      assert a + b == a;
    } else {
      var n := |b| - 1;
      RunAppend(s, a, b[..n]);
      assert (a + b)[..|a + b| - 1] == a + b[..n];
    }
  }

  // ---- One iteration of a dispatcher ----

  /** The system with worker `w` in another place. */
  function At(s: System, w: nat, worker: Worker): System
    requires w < |s.workers|
  {
    s.(workers := s.workers[w := worker])
  }

  /** Worker `w` has read, and where needed appended, one more group; `e` is why it stopped, if it did. */
  lemma {:induction false} GroupIsRun(s: System, w: nat, groups: seq<Group>, next: nat, fault: bool) returns (steps: seq<Step>)
    requires w < |s.workers| && s.workers[w] == Reading(groups, next) && next < |groups|
    ensures var (j, e) := JournalGroup(s.journal, groups[next], fault);
            Run(s, steps) == At(s.(journal := j), w, if e.None? then Reading(groups, next + 1) else Idle)
  {
    var g := groups[next];
    var found := Found(s.journal, g);
    var s1 := At(s, w, AfterRead(s.workers[w], found));
    RunOne(s, Read(w));
    assert Run(s, [Read(w)]) == s1;
    steps := [Read(w)];
    if found.Some? && found.value < |g.batch| {
      var rest := AppendIsRun(s, s1, w, groups, next, found.value, fault);
      RunAppend(s, steps, rest);
      steps := steps + rest;
    }
  }

  lemma {:induction false} AppendIsRun(s: System, s1: System, w: nat, groups: seq<Group>, next: nat, matched: nat, fault: bool)
    returns (steps: seq<Step>)
    requires w < |s.workers| && next < |groups| && matched < |groups[next].batch|
    requires s1 == At(s, w, Appending(groups, next, matched))
    ensures var (j, e) := AppendMissing(s.journal, groups[next], matched, fault);
            Run(s1, steps) == At(s.(journal := j), w, if e.None? then Reading(groups, next + 1) else Idle)
  {
    RunOne(s1, Append(w));
    steps := [Append(w)];
    var (j, w') := AppendWorker(s.journal, s1.workers[w]);
    assert Run(s1, steps) == At(s.(journal := j), w, w');
    if w'.Reading? && fault {
      RunOne(Run(s1, steps), Abort(w));
      RunAppend(s1, steps, [Abort(w)]);
      steps := steps + [Abort(w)];
    }
  }

  /** The journaling loop from group `next` on. */
  lemma {:induction false} GroupsAreRun(s: System, w: nat, groups: seq<Group>, next: nat, fault: StreamKey -> bool)
    returns (steps: seq<Step>)
    requires w < |s.workers| && s.workers[w] == Reading(groups, next) && next <= |groups|
    ensures var (j, e) := JournalGroups(s.journal, groups[next..], fault);
            Run(s, steps) == At(s.(journal := j), w, if e.None? then Reading(groups, |groups|) else Idle)
    decreases |groups| - next
  {
    if next == |groups| {
      steps := [];
      assert At(s, w, s.workers[w]) == s;
    } else {
      var g := groups[next];
      assert groups[next..][0] == g && groups[next..][1..] == groups[next + 1..];
      JournalGroupsStep(s.journal, groups[next..], fault);
      steps := GroupIsRun(s, w, groups, next, fault(g.stream));
      var s1 := Run(s, steps);
      if JournalGroup(s.journal, g, fault(g.stream)).1.None? {
        var rest := GroupsAreRun(s1, w, groups, next + 1, fault);
        RunAppend(s, steps, rest);
        steps := steps + rest;
      }
    }
  }

  /** The hand-off to the live sink, which reaches the bus only when somebody listens. */
  function Handed(s: System, events: seq<Envelope>, heard: bool): System {
    s.(sink := s.sink + events, bus := if heard then s.bus + events else s.bus)
  }

  lemma {:induction false} NothingHanded(s: System, heard: bool)
    ensures Handed(s, [], heard) == s
  {
    assert s.sink + [] == s.sink && s.bus + [] == s.bus;
  }

  lemma {:induction false} HandedOne(s: System, e: Envelope, rest: seq<Envelope>, heard: bool)
    ensures Handed(Handed(s, [e], heard), rest, heard) == Handed(s, [e] + rest, heard)
  {
    Associative(s.sink, [e], rest);
    Associative(s.bus, [e], rest);
  }

  lemma {:induction false} PublishStep(s: System, w: nat, events: seq<Envelope>)
    requires w < |s.workers| && s.workers[w] == Publishing(events)
    ensures Run(s, [Pipeline.Publish(w)]) ==
              if events == [] then At(s, w, Idle) else At(Handed(s, [events[0]], HasReceiver(s)), w, Publishing(events[1..]))
  {
    RunOne(s, Pipeline.Publish(w));
  }

  lemma {:induction false} PublishRest(s: System, w: nat, e: Envelope, rest: seq<Envelope>, s1: System)
    requires w < |s.workers| && s1 == At(Handed(s, [e], HasReceiver(s)), w, Publishing(rest))
    ensures HasReceiver(s1) == HasReceiver(s)
    ensures At(Handed(s1, rest, HasReceiver(s)), w, Idle) == At(Handed(s, [e] + rest, HasReceiver(s)), w, Idle)
  {
    HandedOne(s, e, rest, HasReceiver(s));
  }

  lemma {:induction false} PublishIsRun(s: System, w: nat, events: seq<Envelope>) returns (steps: seq<Step>)
    requires w < |s.workers| && s.workers[w] == Publishing(events)
    ensures Run(s, steps) == At(Handed(s, events, HasReceiver(s)), w, Idle)
    decreases |events|
  {
    steps := [Pipeline.Publish(w)];
    PublishStep(s, w, events);
    if events == [] {
      NothingHanded(s, HasReceiver(s));
    } else {
      var s1 := At(Handed(s, [events[0]], HasReceiver(s)), w, Publishing(events[1..]));
      var rest := PublishIsRun(s1, w, events[1..]);
      RunAppend(s, steps, rest);
      steps := steps + rest;
      PublishRest(s, w, events[0], events[1..], s1);
      assert [events[0]] + events[1..] == events;
    }
  }

  /** Marking and publishing a journaled scan. */
  lemma {:induction false} FinishIsRun(s: System, w: nat, groups: seq<Group>) returns (steps: seq<Step>)
    requires w < |s.workers| && s.workers[w] == Reading(groups, |groups|)
    ensures Run(s, steps) == At(Handed(s.(store := MarkPublished(s.store, Ids(Flat(groups)))), Flat(groups), HasReceiver(s)), w, Idle)
  {
    RunOne(s, Mark(w));
    var s1 := Next(s, Mark(w));
    var rest := PublishIsRun(s1, w, Flat(groups));
    RunAppend(s, [Mark(w)], rest);
    steps := [Mark(w)] + rest;
    assert HasReceiver(s1) == HasReceiver(s);
  }

  lemma {:induction false} FlatLast(groups: seq<Group>, g: Group)
    ensures Flat(groups + [g]) == Flat(groups) + g.batch
  {
    if groups == [] {
      assert [g][1..] == [];
      assert g.batch + [] == g.batch && [] + g.batch == g.batch;
    } else {
      FlatLast(groups[1..], g);
      assert (groups + [g])[1..] == groups[1..] + [g];
      Associative(groups[0].batch, Flat(groups[1..]), g.batch);
    }
  }

  lemma {:induction false} PushKeepsEvents(groups: seq<Group>, r: Row)
    ensures Flat(PushRow(groups, r)) == Flat(groups) + [EnvelopeFromRow(r)]
  {
    var n := |groups|;
    FlatLast(groups, Group(r.event.streamKey, [EnvelopeFromRow(r)]));
    if n > 0 {
      FlatLast(groups[..n - 1], groups[n - 1]);
      FlatLast(groups[..n - 1], Group(r.event.streamKey, groups[n - 1].batch + [EnvelopeFromRow(r)]));
      assert groups == groups[..n - 1] + [groups[n - 1]];
      Associative(Flat(groups[..n - 1]), groups[n - 1].batch, [EnvelopeFromRow(r)]);
    }
  }

  /** Grouping loses, repeats and reorders nothing. */
  lemma {:induction false} GroupingKeepsEvents(rows: seq<Row>)
    ensures Flat(GroupRows(rows)) == Map(rows, EnvelopeFromRow)
  {
    if rows != [] {
      var n := |rows| - 1;
      GroupingKeepsEvents(rows[..n]);
      PushKeepsEvents(GroupRows(rows[..n]), rows[n]);
      assert rows == rows[..n] + [rows[n]];
    }
  }

  lemma {:induction false} ScanStep(s: System, w: nat, limit: nat)
    requires w < |s.workers| && s.workers[w].Idle?
    ensures var rows := Outbox.Scan(s.store, limit);
            Run(s, [Pipeline.Scan(w, limit)]) == if Canonical(rows) then At(s, w, Reading(GroupRows(rows), 0)) else s
  {
    RunOne(s, Pipeline.Scan(w, limit));
    assert At(s, w, s.workers[w]) == s;
  }

  lemma {:induction false} JournalingIsRun(s: System, w: nat, groups: seq<Group>, fault: StreamKey -> bool) returns (steps: seq<Step>)
    requires w < |s.workers| && s.workers[w].Idle?
    ensures var (j, e) := JournalGroups(s.journal, groups, fault);
            Run(At(s, w, Reading(groups, 0)), steps) == At(s.(journal := j), w, if e.None? then Reading(groups, |groups|) else Idle)
  {
    var s1 := At(s, w, Reading(groups, 0));
    assert groups[0..] == groups;
    steps := GroupsAreRun(s1, w, groups, 0, fault);
  }

  /** The end of an iteration whose groups are all journaled: it commits and publishes, or gives up. */
  lemma {:induction false} EndIsRun(s: System, w: nat, rows: seq<Row>, commits: bool) returns (steps: seq<Step>)
    requires w < |s.workers| && s.workers[w].Idle?
    ensures var events := Map(rows, EnvelopeFromRow);
            Run(At(s, w, Reading(GroupRows(rows), |GroupRows(rows)|)), steps) ==
              if rows != [] && !commits then s
              else Handed(s.(store := MarkPublished(s.store, Ids(events))), events, HasReceiver(s))
  {
    var groups := GroupRows(rows);
    var s1 := At(s, w, Reading(groups, |groups|));
    assert At(s, w, Idle) == s;
    if rows != [] && !commits {
      RunOne(s1, Abort(w));
      steps := [Abort(w)];
    } else {
      steps := FinishIsRun(s1, w, groups);
      GroupingKeepsEvents(rows);
      assert HasReceiver(s1) == HasReceiver(s);
    }
  }

  /** What `dispatch_once` leaves of the system when worker `w` runs it. */
  ghost function DispatchedSystem(s: System, limit: nat, fault: StreamKey -> bool, commits: bool): System {
    var (st, j, published, r) := Dispatch(s.store, s.journal, Outbox.Scan(s.store, limit), fault, commits);
    Handed(s.(store := st, journal := j), published, HasReceiver(s))
  }

  /** The steps of a canonical scan. */
  lemma {:induction false} ScannedIsRun(s: System, w: nat, limit: nat, fault: StreamKey -> bool, commits: bool) returns (steps: seq<Step>)
    requires w < |s.workers| && s.workers[w].Idle? && Canonical(Outbox.Scan(s.store, limit))
    ensures Run(At(s, w, Reading(GroupRows(Outbox.Scan(s.store, limit)), 0)), steps) == DispatchedSystem(s, limit, fault, commits)
  {
    var rows := Outbox.Scan(s.store, limit);
    var (j, e) := JournalGroups(s.journal, GroupRows(rows), fault);
    steps := JournalingIsRun(s, w, GroupRows(rows), fault);
    var s1, s2 := At(s, w, Reading(GroupRows(rows), 0)), s.(journal := j);
    assert At(s2, w, Idle) == s2;
    NothingHanded(s2, HasReceiver(s));
    if e.None? {
      var rest := EndIsRun(s2, w, rows, commits);
      RunAppend(s1, steps, rest);
      steps := steps + rest;
      assert HasReceiver(s2) == HasReceiver(s);
    }
  }

  /** One `dispatch_once` is a run of one dispatcher's steps, from any state, with any fault and any commit outcome. */
  lemma {:induction false} DispatchIsRun(s: System, w: nat, limit: nat, fault: StreamKey -> bool, commits: bool) returns (steps: seq<Step>)
    requires w < |s.workers| && s.workers[w].Idle?
    ensures Run(s, steps) == DispatchedSystem(s, limit, fault, commits)
  {
    ScanStep(s, w, limit);
    steps := [Pipeline.Scan(w, limit)];
    if Canonical(Outbox.Scan(s.store, limit)) {
      var rest := ScannedIsRun(s, w, limit, fault, commits);
      RunAppend(s, steps, rest);
      steps := steps + rest;
    } else {
      NothingHanded(s, HasReceiver(s));
    }
  }

  // ---- A client's replay ----

  /** The system with another state of client `id`. */
  function With(s: System, id: nat, c: Client): System { s.(clients := s.clients[id := c]) }

  lemma {:induction false} UpdateTwice(m: map<nat, Client>, id: nat, c: Client, d: Client)
    ensures m[id := c][id := d] == m[id := d]
  {
  }

  lemma {:induction false} PageStep(s: System, id: nat, c: Client, c': Client)
    requires c.phase.Replaying? && c' == OnPage(c, ReadPage(s.journal, c.stream, c.last, PAGE))
    ensures Run(With(s, id, c), [Page(id)]) == With(s, id, c')
  {
    RunOne(With(s, id, c), Page(id));
    UpdateTwice(s.clients, id, c, c');
  }

  lemma {:induction false} EmptyPage(j: Log, c: Client)
    requires c.last >= |Recorded(j, c.stream)|
    ensures OnPage(c, ReadPage(j, c.stream, c.last, PAGE)) == c.(phase := Live)
  {
    assert PageRows(Recorded(j, c.stream), c.last, PAGE) == [];
  }

  lemma {:induction false} AllSent(rec: seq<Wire>, c: Client, c1: Client)
    requires Sent(rec, c, c1) && c1.last == |rec|
    ensures Replayed(rec, c, c1.(phase := Live))
  {
    if c.last == |rec| {
      assert rec[c.last..|rec|] == [] && c.seen + [] == c.seen;
    }
  }

  lemma {:induction false} BrokenOff(rec: seq<Wire>, c: Client, c1: Client)
    requires Sent(rec, c, c1) && !RowsMatch(rec[c.last..|rec|], c.stream, c.last)
    ensures Replayed(rec, c, c1.(phase := Gone))
  {
  }

  /** From `c1`, which was sent an exact prefix, page steps lead where the loop leads. */
  lemma {:induction false} PagesAreRun(s: System, id: nat, c: Client, c1: Client) returns (steps: seq<Step>, c': Client)
    requires c.phase.Replaying? && Sent(Recorded(s.journal, c.stream), c, c1)
    ensures Run(With(s, id, c1), steps) == With(s, id, c') && Replayed(Recorded(s.journal, c.stream), c, c')
    decreases |Recorded(s.journal, c.stream)| - c1.last
  {
    var rec := Recorded(s.journal, c.stream);
    c' := OnPage(c1, ReadPage(s.journal, c.stream, c1.last, PAGE));
    PageStep(s, id, c1, c');
    steps := [Page(id)];
    if c1.last == |rec| {
      EmptyPage(s.journal, c1);
      AllSent(rec, c, c1);
    } else {
      PageSent(s.journal, c, c1);
      if c'.phase.Replaying? {
        var rest, last := PagesAreRun(s, id, c, c');
        RunAppend(With(s, id, c1), steps, rest);
        steps, c' := steps + rest, last;
      } else {
        BrokenOff(rec, c, c1);
      }
    }
  }

  /** The replay loop of a subscription is a run of its page steps. */
  lemma {:induction false} ReplayIsRun(s: System, id: nat) returns (steps: seq<Step>, c': Client)
    requires id in s.clients && s.clients[id].phase.Replaying?
    ensures Run(s, steps) == With(s, id, c') && Replayed(Recorded(s.journal, s.clients[id].stream), s.clients[id], c')
  {
    var c := s.clients[id];
    assert With(s, id, c) == s;
    if c.last > |Recorded(s.journal, c.stream)| {
      c' := c.(phase := Live);
      EmptyPage(s.journal, c);
      PageStep(s, id, c, c');
      steps := [Page(id)];
    } else {
      assert Map(Recorded(s.journal, c.stream)[c.last..c.last], Frame) == [] && c.seen + [] == c.seen;
      steps, c' := PagesAreRun(s, id, c, c);
    }
  }

  // ---- A client on the bus ----

  /** The item a step gives to a client: only its own turn does, while it is live. */
  function Heard(s: System, step: Step, id: nat): seq<LiveItem> {
    if step == Take(id) && id in s.clients && s.clients[id].phase.Live? && s.clients[id].pos <= |s.bus| then
      match NextItem(s.bus, s.clients[id].pos, s.capacity, true)
      case Some(item) => [item]
      case None => []
    else []
  }

  /** Everything the client is given during a run. */
  ghost function Items(s: System, steps: seq<Step>, id: nat): seq<LiveItem> {
    if steps == [] then []
    else var n := |steps| - 1; Items(s, steps[..n], id) + Heard(Run(s, steps[..n]), steps[n], id)
  }

  /** `c'` is where following the items leaves the live client `c`. */
  ghost predicate Followed(c: Client, items: seq<LiveItem>, c': Client) {
    var sent := Fresh(items, c.stream, c.last);
    && Terminal(items) in {None, Some(Overrun)}
    && c' == c.(phase := if Terminal(items).None? then Live else Lagged,
                last := LastSent(sent, c.last), seen := c.seen + Map(sent, Project), pos := c'.pos)
  }

  lemma {:induction false} LastSentAppend(a: seq<Envelope>, b: seq<Envelope>, last: nat)
    ensures LastSent(a + b, last) == LastSent(b, LastSent(a, last))
  {
    if b == [] { assert a + b == a; }
  }

  lemma {:induction false} FreshOne(items: seq<LiveItem>, item: LiveItem, stream: StreamKey, last: nat)
    requires Terminal(items).None?
    ensures Terminal(items + [item]) == if item.Event? then None else Some(item)
    ensures Fresh(items + [item], stream, last) ==
              Fresh(items, stream, last) + Fresh([item], stream, LastSent(Fresh(items, stream, last), last))
    decreases |items|
  {
    if items == [] {
      assert items + [item] == [item] && [item][1..] == [];
    } else {
      var e := items[0].event;
      assert (items + [item])[1..] == items[1..] + [item];
      if e.streamKey == stream && e.sequence > last {
        FreshOne(items[1..], item, stream, e.sequence);
        var rest := Fresh(items[1..], stream, e.sequence);
        LastSentAppend([e], rest, last);
        Associative([e], rest, Fresh([item], stream, LastSent(rest, e.sequence)));
      } else {
        FreshOne(items[1..], item, stream, last);
      }
    }
  }

  lemma {:induction false} FreshSingle(e: Envelope, stream: StreamKey, last: nat)
    ensures Fresh([Event(e)], stream, last) == if e.streamKey == stream && e.sequence > last then [e] else []
  {
    assert [Event(e)][1..] == [];
  }

  /** One event more, taken off the bus. */
  lemma {:induction false} FollowedEvent(c: Client, items: seq<LiveItem>, c1: Client, e: Envelope)
    requires Followed(c, items, c1) && c1.phase.Live?
    ensures Followed(c, items + [Event(e)], OnEvent(c1, e))
  {
    var sent := Fresh(items, c.stream, c.last);
    FreshOne(items, Event(e), c.stream, c.last);
    FreshSingle(e, c.stream, c1.last);
    var more := Fresh([Event(e)], c.stream, c1.last);
    LastSentAppend(sent, more, c.last);
    MapAppend(sent, more, Project);
    Associative(c.seen, Map(sent, Project), Map(more, Project));
    assert c1.seen + [] == c1.seen;
  }

  lemma {:induction false} FollowedLag(c: Client, items: seq<LiveItem>, c1: Client)
    requires Followed(c, items, c1) && c1.phase.Live?
    ensures Followed(c, items + [Overrun], c1.(phase := Lagged))
  {
    FreshOne(items, Overrun, c.stream, c.last);
    assert Fresh(items, c.stream, c.last) + [] == Fresh(items, c.stream, c.last);
  }

  /** The step neither ends nor restarts the subscription from outside. */
  predicate Undisturbed(step: Step, id: nat) { !step.Crash? && step != Disconnect(id) && step != Resume(id) }

  lemma {:induction false} TakeFollows(s: System, id: nat, c: Client, items: seq<LiveItem>)
    requires id in s.clients && Followed(c, items, s.clients[id])
    ensures Followed(c, items + Heard(s, Take(id), id), Next(s, Take(id)).clients[id])
  {
    var c1 := s.clients[id];
    assert items + [] == items;
    if c1.phase.Live? && c1.pos < |s.bus| {
      if |s.bus| - c1.pos > s.capacity {
        FollowedLag(c, items, c1);
      } else {
        FollowedEvent(c, items, c1, s.bus[c1.pos]);
      }
    }
  }

  lemma {:induction false} OtherStep(s: System, id: nat, step: Step)
    requires id in s.clients && !s.clients[id].phase.Replaying? && Undisturbed(step, id) && step != Take(id)
    ensures id in Next(s, step).clients && Next(s, step).clients[id] == s.clients[id] && Heard(s, step, id) == []
  {
  }

  /**
   * Whatever else happens meanwhile, a live client has been sent exactly what following the items it was
   * given sends, stands at the last sequence sent, and is lagged exactly when they end in an overrun.
   */
  lemma {:induction false} FollowIsRun(s: System, steps: seq<Step>, id: nat)
    requires id in s.clients && s.clients[id].phase.Live? && forall i :: 0 <= i < |steps| ==> Undisturbed(steps[i], id)
    ensures id in Run(s, steps).clients && Followed(s.clients[id], Items(s, steps, id), Run(s, steps).clients[id])
  {
    if steps == [] {
      assert s.clients[id].seen + [] == s.clients[id].seen;
    } else {
      var n := |steps| - 1;
      var s1 := Run(s, steps[..n]);
      FollowIsRun(s, steps[..n], id);
      if steps[n] == Take(id) {
        TakeFollows(s1, id, s.clients[id], Items(s, steps[..n], id));
      } else {
        OtherStep(s1, id, steps[n]);
        assert Items(s, steps[..n], id) + [] == Items(s, steps[..n], id);
      }
    }
  }
}
