/** One dispatcher iteration run to its end, and how iterations drain the outbox (events/src/dispatcher.rs). */
module Dispatcher {
  import opened Common
  import opened Envelopes
  import opened Outbox
  import opened Batches
  import opened Journal
  import opened Pipeline
  import opened PipelineDurability

  // ---- What an iteration leaves in the backlog ----

  lemma {:induction false} OpenAfterMark(st: Store, st': Store, k: StreamKey, n: nat)
    requires MarkedIsPrefix(Rows(st, k)) && MarkedIsPrefix(Rows(st', k)) && Events(st', k) == Events(st, k)
    requires Marked(Rows(st', k)) == Marked(Rows(st, k)) + n
    ensures n <= |OpenRows(Rows(st, k))| && OpenRows(Rows(st', k)) == OpenRows(Rows(st, k))[n..]
  {
    var rows, rows' := Rows(st, k), Rows(st', k);
    OpenIsSuffix(rows);
    OpenIsSuffix(rows');
    var m := Marked(rows');
    assert |rows'| == |Events(st', k)| == |rows|;
    forall i | m <= i < |rows| ensures rows'[i] == rows[i] {
      assert Events(st', k)[i] == rows'[i].event && Events(st, k)[i] == rows[i].event;
    }
    assert rows'[m..] == rows[m..] == rows[Marked(rows)..][n..];
  }

  /** How `st'` stands to `st` once the groups of a scan are marked. */
  ghost predicate MarkedGroups(st: Store, groups: seq<Group>, st': Store, k: StreamKey) {
    MarkMoves(st, groups, st', k) && MarkedIsPrefix(Rows(st', k)) && Events(st', k) == Events(st, k)
  }

  lemma {:induction false} GroupMoves(st: Store, groups: seq<Group>, st': Store, n: nat)
    requires n < |groups| && StreamValid(st, groups[n].stream) && Scanned(st, groups[n])
    requires MarkMoves(st, groups, st', groups[n].stream)
    ensures Marked(Rows(st', groups[n].stream)) == Marked(Rows(st, groups[n].stream)) + |groups[n].batch|
  {
    SliceStart(st, groups[n]);
  }

  lemma {:induction false} LaterGroup(st: Store, keys: seq<StreamKey>, left: nat, i: nat)
    requires StreamsValid(st) && keys != [] && Distinct(keys) && i < |CutGroups(st, keys[1..], left)|
    ensures CutGroups(st, keys[1..], left)[i].stream != keys[0]
  {
    HeadIsNew(keys);
    CutGroupsScanned(st, keys[1..], left, i);
  }

  lemma {:induction false} SkipHead(st: Store, keys: seq<StreamKey>, left: nat)
    requires StreamsValid(st) && keys != [] && Quota(st, keys[0], left) == 0
    ensures CutGroups(st, keys, left) == CutGroups(st, keys[1..], left)
  {
    assert StreamValid(st, keys[0]);
    HeadGroup(st, keys[0], left);
  }

  lemma {:induction false} NoGroup(st: Store, done: seq<Group>, keys: seq<StreamKey>, left: nat, i: nat)
    requires StreamsValid(st) && keys != [] && Distinct(keys) && Quota(st, keys[0], left) == 0
    requires forall n :: 0 <= n < |done| ==> done[n].stream !in keys
    requires i < |done + CutGroups(st, keys, left)|
    ensures (done + CutGroups(st, keys, left))[i].stream != keys[0]
  {
    SkipHead(st, keys, left);
    if i >= |done| {
      LaterGroup(st, keys, left, i - |done|);
    }
  }

  lemma {:induction false} StreamQuota(st: Store, done: seq<Group>, keys: seq<StreamKey>, left: nat, groups: seq<Group>, st': Store)
    requires StreamsValid(st) && keys != [] && Distinct(keys) && groups == done + CutGroups(st, keys, left)
    requires forall i :: 0 <= i < |done| ==> done[i].stream !in keys
    requires MarkMoves(st, groups, st', keys[0])
    ensures Marked(Rows(st', keys[0])) == Marked(Rows(st, keys[0])) + Quota(st, keys[0], left)
  {
    var k := keys[0];
    assert StreamValid(st, k);
    if Quota(st, k, left) == 0 {
      forall i | 0 <= i < |groups| ensures groups[i].stream != k {
        NoGroup(st, done, keys, left, i);
      }
    } else {
      HeadGroup(st, k, left);
      assert groups[|done|] == StreamGroup(st, k, left)[0];
      GroupMoves(st, groups, st', |done|);
    }
  }

  lemma {:induction false} SliceStart(st: Store, g: Group)
    requires StreamValid(st, g.stream) && SliceAt(st, g, Marked(Rows(st, g.stream)))
    ensures First(g) == Marked(Rows(st, g.stream))
  {
    assert g.batch[0] == Events(st, g.stream)[Marked(Rows(st, g.stream))];
  }

  lemma {:induction false} CutSizes(st: Store, keys: seq<StreamKey>, left: nat)
    requires keys != []
    ensures var q := Quota(st, keys[0], left);
            && |Cut(st, keys, left)| == q + |Cut(st, keys[1..], left - q)|
            && |Cut(st, keys[1..], left - q)| <= |Unpublished(st, keys[1..])|
            && (q < |OpenRows(Rows(st, keys[0]))| ==> |Cut(st, keys[1..], left - q)| == 0)
  {
    CutIsBacklogPrefix(st, keys[1..], left - Quota(st, keys[0], left));
  }

  /** The groups before `keys[1..]`: those before `keys` and the one of `keys[0]`. */
  lemma {:induction false} NextDone(st: Store, done: seq<Group>, keys: seq<StreamKey>, left: nat)
    requires keys != [] && Distinct(keys) && forall i :: 0 <= i < |done| ==> done[i].stream !in keys
    ensures var done' := done + StreamGroup(st, keys[0], left);
            && (forall i :: 0 <= i < |done'| ==> done'[i].stream !in keys[1..])
            && done + CutGroups(st, keys, left) == done' + CutGroups(st, keys[1..], left - Quota(st, keys[0], left))
  {
    HeadIsNew(keys);
    forall i | 0 <= i < |done| ensures done[i].stream !in keys[1..] {
      assert done[i].stream !in keys;
    }
  }

  /** Stream by stream, the scanned rows are gone and the rest stays in order. */
  ghost predicate Leaves(st: Store, st': Store, keys: seq<StreamKey>, left: nat) {
    keys == [] ||
    var q := Quota(st, keys[0], left);
    OpenRows(Rows(st', keys[0])) == OpenRows(Rows(st, keys[0]))[q..] && Leaves(st, st', keys[1..], left - q)
  }

  lemma {:induction false} HeadLeaves(st: Store, done: seq<Group>, keys: seq<StreamKey>, left: nat, groups: seq<Group>, st': Store)
    requires StreamsValid(st) && keys != [] && Distinct(keys) && groups == done + CutGroups(st, keys, left)
    requires forall i :: 0 <= i < |done| ==> done[i].stream !in keys
    requires MarkedGroups(st, groups, st', keys[0])
    ensures OpenRows(Rows(st', keys[0])) == OpenRows(Rows(st, keys[0]))[Quota(st, keys[0], left)..]
  {
    StreamQuota(st, done, keys, left, groups, st');
    assert StreamValid(st, keys[0]);
    OpenAfterMark(st, st', keys[0], Quota(st, keys[0], left));
  }

  lemma {:induction false} GroupsLeave(st: Store, done: seq<Group>, keys: seq<StreamKey>, left: nat, groups: seq<Group>, st': Store)
    requires StreamsValid(st) && Distinct(keys) && groups == done + CutGroups(st, keys, left)
    requires forall i :: 0 <= i < |done| ==> done[i].stream !in keys
    requires forall k :: MarkedGroups(st, groups, st', k)
    ensures Leaves(st, st', keys, left)
    decreases |keys|
  {
    if keys != [] {
      assert MarkedGroups(st, groups, st', keys[0]);
      HeadLeaves(st, done, keys, left, groups, st');
      HeadIsNew(keys);
      NextDone(st, done, keys, left);
      GroupsLeave(st, done + StreamGroup(st, keys[0], left), keys[1..], left - Quota(st, keys[0], left), groups, st');
    }
  }

  lemma {:induction false} CutLeaves(st: Store, st': Store, keys: seq<StreamKey>, left: nat)
    requires Leaves(st, st', keys, left)
    ensures |Cut(st, keys, left)| <= |Unpublished(st, keys)|
    ensures Unpublished(st', keys) == Unpublished(st, keys)[|Cut(st, keys, left)|..]
    decreases |keys|
  {
    if keys != [] {
      var q := Quota(st, keys[0], left);
      CutLeaves(st, st', keys[1..], left - q);
      CutSizes(st, keys, left);
      CutTail(OpenRows(Rows(st, keys[0])), Unpublished(st, keys[1..]), q, |Cut(st, keys[1..], left - q)|);
    }
  }

  lemma {:induction false} CutTail<T>(open: seq<T>, rest: seq<T>, q: nat, n: nat)
    requires q <= |open| && n <= |rest| && (q < |open| ==> n == 0)
    ensures (open + rest)[q + n..] == open[q..] + rest[n..]
  {
  }

  predicate Canonical(rows: seq<Row>) { forall r :: r in rows ==> IsCanonicalStream(r.event.streamKey) }

  ghost function ScannedEvents(st: Store, limit: nat): seq<Envelope> { Map(Outbox.Scan(st, limit), EnvelopeFromRow) }

  /** The store after an iteration that met no obstacle. */
  ghost function Dispatched(st: Store, limit: nat): Store { MarkPublished(st, Ids(ScannedEvents(st, limit))) }

  lemma {:induction false} ScannedGroups(st: Store, limit: nat)
    requires Outbox.Valid(st) && Canonical(Outbox.Scan(st, limit))
    ensures var groups := GroupRows(Outbox.Scan(st, limit));
            && DistinctStreams(groups) && Flat(groups) == ScannedEvents(st, limit)
            && forall i :: 0 <= i < |groups| ==> GroupOk(st, groups[i])
  {
    var rows := Outbox.Scan(st, limit);
    var groups := GroupRows(rows);
    ScanGroups(st, limit);
    forall i | 0 <= i < |groups| ensures GroupOk(st, groups[i]) {
      ScannedGroup(st, rows, groups, i);
    }
  }

  lemma {:induction false} DispatchedStream(st: Store, limit: nat, k: StreamKey)
    requires Outbox.Valid(st) && Canonical(Outbox.Scan(st, limit))
    ensures MarkedGroups(st, GroupRows(Outbox.Scan(st, limit)), Dispatched(st, limit), k)
    ensures StreamValid(Dispatched(st, limit), k)
  {
    var groups := GroupRows(Outbox.Scan(st, limit));
    ScannedGroups(st, limit);
    assert StreamValid(st, k);
    MarkStream(st, groups, k);
    MarkTouchesOnlyFlags(st, Ids(Flat(groups)), k);
  }

  lemma {:induction false} ScanIsCut(st: Store, limit: nat)
    requires StreamsValid(st)
    ensures Outbox.Scan(st, limit) == Cut(st, Keys(st), limit)
    ensures GroupRows(Outbox.Scan(st, limit)) == CutGroups(st, Keys(st), limit)
  {
    KeysOf(st);
    CutIsBacklogPrefix(st, Keys(st), limit);
    GroupsOfCut(st, Keys(st), limit);
  }

  lemma {:induction false} MarkKeepsKeys(st: Store, ids: set<Id>)
    ensures Keys(MarkPublished(st, ids)) == Keys(st)
  {
    assert Texts(MarkPublished(st, ids)) == Texts(st);
  }

  lemma {:induction false} DispatchLeaves(st: Store, limit: nat)
    requires Outbox.Valid(st) && Canonical(Outbox.Scan(st, limit))
    ensures Outbox.Valid(Dispatched(st, limit)) && Leaves(st, Dispatched(st, limit), Keys(st), limit)
  {
    var st' := Dispatched(st, limit);
    ScanIsCut(st, limit);
    var groups := GroupRows(Outbox.Scan(st, limit));
    forall k ensures MarkedGroups(st, groups, st', k) && StreamValid(st', k) {
      DispatchedStream(st, limit, k);
    }
    MarkKeepsUniqueIds(st, Ids(ScannedEvents(st, limit)));
    KeysOf(st);
    assert groups == [] + CutGroups(st, Keys(st), limit);
    GroupsLeave(st, [], Keys(st), limit, groups, st');
  }

  /** An iteration removes exactly the scanned rows from the backlog and keeps the rest in order. */
  lemma {:induction false} DispatchShrinksBacklog(st: Store, limit: nat)
    requires Outbox.Valid(st) && Canonical(Outbox.Scan(st, limit))
    ensures Outbox.Valid(Dispatched(st, limit))
    ensures Dropped(Backlog(st), limit, Backlog(Dispatched(st, limit)))
  {
    DispatchLeaves(st, limit);
    CutLeaves(st, Dispatched(st, limit), Keys(st), limit);
    CutIsBacklogPrefix(st, Keys(st), limit);
    MarkKeepsKeys(st, Ids(ScannedEvents(st, limit)));
  }

  /** `t` is `s` without its first `n` elements, or empty when there are fewer. */
  ghost predicate Dropped<T>(s: seq<T>, n: nat, t: seq<T>) { t == s[Min(n, |s|)..] }

  // ---- One iteration ----

  datatype DispatchError = NotCanonical | ReadFailed(error: JournalError) | Diverged | AppendFailed(error: JournalError)
                         | FaultAfterAppend | MarkFailed

  datatype Outcome = Outcome(scanned: nat, published: nat, backlog: nat)

  ghost function AppendMissing(j: Log, g: Group, matched: nat, fault: bool): (Log, Option<DispatchError>)
    requires matched < |g.batch|
  {
    var (j', r) := AppendTo(j, g.stream, AppendFrom(g, matched), g.batch[matched..]);
    (j', if r.Err? then Some(AppendFailed(r.error)) else if fault then Some(FaultAfterAppend) else None)
  }

  /** Reads the recorded prefix back and appends only what is missing. */
  ghost function JournalGroup(j: Log, g: Group, fault: bool): (Log, Option<DispatchError>) {
    match ReadPage(j, g.stream, First(g), |g.batch|)
    case Err(e) => (j, Some(ReadFailed(e)))
    case Ok(page) =>
      match MatchedPrefix(page, g.batch)
      case None => (j, Some(Diverged))
      case Some(n) => if n < |g.batch| then AppendMissing(j, g, n, fault) else (j, None)
  }

  ghost function JournalGroups(j: Log, groups: seq<Group>, fault: StreamKey -> bool): (Log, Option<DispatchError>)
    decreases |groups|
  {
    if groups == [] then (j, None)
    else
      var (j', e) := JournalGroup(j, groups[0], fault(groups[0].stream));
      if e.Some? then (j', e) else JournalGroups(j', groups[1..], fault)
  }

  /** What an iteration over `rows` leaves behind: store, journal, what it published, and its result. */
  ghost function Dispatch(st: Store, j: Log, rows: seq<Row>, fault: StreamKey -> bool, commits: bool)
    : (Store, Log, seq<Envelope>, Result<Outcome, DispatchError>)
  {
    if !Canonical(rows) then (st, j, [], Err(NotCanonical))
    else
      var (j', e) := JournalGroups(j, GroupRows(rows), fault);
      if e.Some? then (st, j', [], Err(e.value))
      else if rows != [] && !commits then (st, j', [], Err(MarkFailed))
      else
        var events := Map(rows, EnvelopeFromRow);
        (MarkPublished(st, Ids(events)), j', events, Ok(Outcome(|rows|, |rows|, 0)))
  }

  lemma {:induction false} MarkOneMore(st: Store, events: seq<Envelope>, e: Envelope)
    ensures MarkPublished(MarkPublished(st, Ids(events)), {e.eventId}) == MarkPublished(st, Ids(events + [e]))
  {
    IdsAppend(events, [e]);
    assert [e][1..] == [];
    assert Ids([e]) == {e.eventId};
    var left, right := MarkPublished(MarkPublished(st, Ids(events)), {e.eventId}), MarkPublished(st, Ids(events + [e]));
    forall k | k in st.outbox ensures left.outbox[k] == right.outbox[k] {
    }
    assert left.outbox == right.outbox;
  }

  class OutboxDispatcher {
    var store: Store
    const journal: EventJournal
    var sink: seq<Envelope>

    constructor (st: Store, j: EventJournal)
      ensures store == st && journal == j && sink == []
    {
      store := st;
      journal := j;
      sink := [];
    }

    method AppendGroup(g: Group, fault: bool) returns (e: Option<DispatchError>)
      modifies journal
      ensures (journal.log, e) == JournalGroup(old(journal.log), g, fault)
    {
      var recorded := journal.ReadStream(g.stream, First(g), |g.batch|);
      if recorded.Err? { return Some(ReadFailed(recorded.error)); }
      var matched := RecordedPrefix(recorded.value, g.batch);
      if matched.None? { return Some(Diverged); }
      if matched.value < |g.batch| {
        var appended := journal.Append(g.stream, AppendFrom(g, matched.value), g.batch[matched.value..]);
        if appended.Err? { return Some(AppendFailed(appended.error)); }
        if fault { return Some(FaultAfterAppend); }
      }
      e := None;
    }

    method MarkRows(rows: seq<Row>)
      modifies this`store
      ensures store == MarkPublished(old(store), Ids(Map(rows, EnvelopeFromRow)))
    {
      var st, events := store, Map(rows, EnvelopeFromRow);
      MarkNone(st);
      for i := 0 to |rows|
        invariant store == old(store) && st == MarkPublished(old(store), Ids(events[..i]))
      {
        MarkOneMore(old(store), events[..i], events[i]);
        assert events[..i + 1] == events[..i] + [events[i]];
        st := MarkPublished(st, {rows[i].event.eventId});
      }
      assert events[..|rows|] == events;
      store := st;
    }

    method JournalAll(groups: seq<Group>, fault: StreamKey -> bool) returns (e: Option<DispatchError>)
      modifies journal
      ensures (journal.log, e) == JournalGroups(old(journal.log), groups, fault)
    {
      for i := 0 to |groups|
        invariant JournalGroups(old(journal.log), groups, fault) == JournalGroups(journal.log, groups[i..], fault)
      {
        assert groups[i..][1..] == groups[i + 1..];
        e := AppendGroup(groups[i], fault(groups[i].stream));
        if e.Some? { return; }
      }
      e := None;
    }

    method Publish(events: seq<Envelope>)
      modifies this`sink
      ensures sink == old(sink) + events
    {
      for n := 0 to |events|
        invariant sink == old(sink) + events[..n]
      {
        sink := sink + [events[n]];
      }
    }

    /** Scan results in, one iteration out; `fault` and `commits` are what the environment decides. */
    method DispatchOnce(rows: seq<Row>, fault: StreamKey -> bool, commits: bool) returns (r: Result<Outcome, DispatchError>)
      modifies this, journal
      ensures var (st, j, published, out) := Dispatch(old(store), old(journal.log), rows, fault, commits);
              store == st && journal.log == j && sink == old(sink) + published && r == out
    {
      var groups := BuildGroups(rows);
      if groups.None? { return Err(NotCanonical); }
      var e := JournalAll(groups.value, fault);
      if e.Some? { return Err(e.value); }
      if rows != [] && !commits { return Err(MarkFailed); }
      MarkRows(rows);
      var events := Map(rows, EnvelopeFromRow);
      Publish(events);
      r := Ok(Outcome(|rows|, |events|, |rows| - |events|));
    }
  }

  lemma {:induction false} MarkNone(st: Store)
    ensures MarkPublished(st, {}) == st
  {
    var st' := MarkPublished(st, {});
    forall k | k in st.outbox ensures st'.outbox[k] == st.outbox[k] {
    }
    assert st'.outbox == st.outbox;
  }

  // ---- What an iteration achieves from any reachable store and journal ----

  /** The batch has rows the journal lacks, so this iteration appends. */
  predicate NeedsAppend(j: Log, g: Group) { |Recorded(j, g.stream)| < First(g) + |g.batch| }

  ghost function Still(st: Store, j: Log): System { System(st, j, [Idle], [], [], 0, map[]) }

  ghost predicate Sound(st: Store, j: Log) { Durable(Still(st, j)) }

  /** `j'` holds at least what `j` holds, stream by stream, in the same order. */
  ghost predicate LogGrows(j: Log, j': Log) { forall k :: Recorded(j, k) <= Recorded(j', k) }

  lemma {:induction false} AppendKeepsSound(st: Store, j: Log, g: Group, j': Log, r: Result<nat, JournalError>)
    requires Sound(st, j) && GroupOk(st, g) && Appended(Still(st, j), g, j', r)
    ensures Sound(st, j') && LogGrows(j, j')
  {
    forall k ensures StreamDurable(Still(st, j'), k) && Recorded(j, k) <= Recorded(j', k) {
      assert StreamDurable(Still(st, j), k);
      AppendedStream(Still(st, j), Still(st, j'), g, r, k);
    }
  }

  /** What journaling one group does: everything in it is recorded, nothing else moves. */
  ghost predicate GroupJournaled(st: Store, j: Log, g: Group, j': Log) {
    && Sound(st, j') && LogGrows(j, j') && Journaled(j', g)
    && (forall k :: k != g.stream ==> Recorded(j', k) == Recorded(j, k))
  }

  lemma {:induction false} AppendMissingSound(st: Store, j: Log, g: Group, fault: bool)
    requires Sound(st, j) && GroupOk(st, g) && NeedsAppend(j, g) && First(g) <= |Recorded(j, g.stream)|
    ensures var (j', e) := AppendMissing(j, g, |Recorded(j, g.stream)| - First(g), fault);
            GroupJournaled(st, j, g, j') && e == if fault then Some(FaultAfterAppend) else None
  {
    var s, n := Still(st, j), |Recorded(j, g.stream)| - First(g);
    assert StreamValid(st, g.stream);
    SuffixIsValidBatch(st, g, n);
    var j', out := AppendSuffix(s, g, n);
    AppendKeepsSound(st, j, g, j', out);
  }

  lemma {:induction false} JournalGroupIs(j: Log, g: Group, n: nat, fault: bool)
    requires Found(j, g) == Some(n) && n <= |g.batch|
    ensures JournalGroup(j, g, fault) == if n < |g.batch| then AppendMissing(j, g, n, fault) else (j, None)
  {
  }

  lemma {:induction false} JournalGroupSound(st: Store, j: Log, g: Group, fault: bool)
    requires Sound(st, j) && GroupOk(st, g)
    ensures var (j', e) := JournalGroup(j, g, fault);
            GroupJournaled(st, j, g, j') && e == if NeedsAppend(j, g) && fault then Some(FaultAfterAppend) else None
  {
    assert StreamValid(st, g.stream) && StreamDurable(Still(st, j), g.stream);
    ReadFinds(Still(st, j), g);
    JournalGroupIs(j, g, Min(|Recorded(j, g.stream)| - First(g), |g.batch|), fault);
    if NeedsAppend(j, g) {
      AppendMissingSound(st, j, g, fault);
    }
  }

  /** No group of the iteration is both behind and hit by the fault point. */
  ghost predicate Unfaulted(j: Log, groups: seq<Group>, fault: StreamKey -> bool) {
    forall i :: 0 <= i < |groups| ==> !(NeedsAppend(j, groups[i]) && fault(groups[i].stream))
  }

  lemma {:induction false} UnfaultedTail(j: Log, j': Log, groups: seq<Group>, fault: StreamKey -> bool)
    requires groups != [] && DistinctStreams(groups) && !(NeedsAppend(j, groups[0]) && fault(groups[0].stream))
    requires forall k :: k != groups[0].stream ==> Recorded(j', k) == Recorded(j, k)
    ensures Unfaulted(j, groups, fault) <==> Unfaulted(j', groups[1..], fault)
  {
    var tail := groups[1..];
    forall i | 0 <= i < |tail| ensures NeedsAppend(j', tail[i]) == NeedsAppend(j, groups[i + 1]) {
      assert tail[i].stream != groups[0].stream;
    }
    if Unfaulted(j', tail, fault) {
      forall i | 0 <= i < |groups| ensures !(NeedsAppend(j, groups[i]) && fault(groups[i].stream)) {
        if i > 0 {
          assert !(NeedsAppend(j', tail[i - 1]) && fault(tail[i - 1].stream));
        }
      }
    }
  }

  ghost predicate AllJournaled(j: Log, groups: seq<Group>) { forall i :: 0 <= i < |groups| ==> Journaled(j, groups[i]) }

  lemma {:induction false} JournaledGrows(j: Log, j': Log, g: Group)
    requires LogGrows(j, j') && Journaled(j, g)
    ensures Journaled(j', g)
  {
  }

  /** What journaling a list of groups comes to: only the fault point can stop it. */
  ghost predicate GroupsJournaled(st: Store, j: Log, groups: seq<Group>, fault: StreamKey -> bool, j': Log, e: Option<DispatchError>) {
    && Sound(st, j') && LogGrows(j, j')
    && e == (if Unfaulted(j, groups, fault) then None else Some(FaultAfterAppend))
    && (e.None? ==> AllJournaled(j', groups))
  }

  lemma {:induction false} GrowsTransitively(j: Log, j1: Log, j': Log)
    requires LogGrows(j, j1) && LogGrows(j1, j')
    ensures LogGrows(j, j')
  {
    forall k ensures Recorded(j, k) <= Recorded(j', k) {
      assert Recorded(j, k) <= Recorded(j1, k) && Recorded(j1, k) <= Recorded(j', k);
    }
  }

  lemma {:induction false} HeadJournaled(
    st: Store, j: Log, groups: seq<Group>, fault: StreamKey -> bool, j1: Log, j': Log, e: Option<DispatchError>)
    requires groups != [] && DistinctStreams(groups) && GroupJournaled(st, j, groups[0], j1)
    requires !(NeedsAppend(j, groups[0]) && fault(groups[0].stream))
    requires GroupsJournaled(st, j1, groups[1..], fault, j', e)
    ensures GroupsJournaled(st, j, groups, fault, j', e)
  {
    GrowsTransitively(j, j1, j');
    UnfaultedTail(j, j1, groups, fault);
    JournaledGrows(j1, j', groups[0]);
    if e.None? {
      forall i | 0 <= i < |groups| ensures Journaled(j', groups[i]) {
        if i > 0 {
          assert Journaled(j', groups[1..][i - 1]);
        }
      }
    }
  }

  lemma {:induction false} HeadFaulted(st: Store, j: Log, groups: seq<Group>, fault: StreamKey -> bool, j1: Log)
    requires groups != [] && GroupJournaled(st, j, groups[0], j1) && NeedsAppend(j, groups[0]) && fault(groups[0].stream)
    ensures GroupsJournaled(st, j, groups, fault, j1, Some(FaultAfterAppend))
  {
  }

  lemma {:induction false} JournalGroupsStep(j: Log, groups: seq<Group>, fault: StreamKey -> bool)
    requires groups != []
    ensures var (j1, e1) := JournalGroup(j, groups[0], fault(groups[0].stream));
            JournalGroups(j, groups, fault) == if e1.Some? then (j1, e1) else JournalGroups(j1, groups[1..], fault)
  {
  }

  lemma {:induction false} TailGroups(st: Store, groups: seq<Group>)
    requires groups != [] && DistinctStreams(groups) && forall i :: 0 <= i < |groups| ==> GroupOk(st, groups[i])
    ensures DistinctStreams(groups[1..]) && forall i :: 0 <= i < |groups[1..]| ==> GroupOk(st, groups[1..][i])
  {
  }

  lemma {:induction false} JournalGroupsSound(st: Store, j: Log, groups: seq<Group>, fault: StreamKey -> bool)
    requires Sound(st, j) && DistinctStreams(groups) && forall i :: 0 <= i < |groups| ==> GroupOk(st, groups[i])
    ensures var (j', e) := JournalGroups(j, groups, fault); GroupsJournaled(st, j, groups, fault, j', e)
    decreases |groups|
  {
    if groups != [] {
      var g := groups[0];
      JournalGroupSound(st, j, g, fault(g.stream));
      JournalGroupsStep(j, groups, fault);
      var j1 := JournalGroup(j, g, fault(g.stream)).0;
      if NeedsAppend(j, g) && fault(g.stream) {
        HeadFaulted(st, j, groups, fault, j1);
      } else {
        TailGroups(st, groups);
        JournalGroupsSound(st, j1, groups[1..], fault);
        var (j', e) := JournalGroups(j1, groups[1..], fault);
        HeadJournaled(st, j, groups, fault, j1, j', e);
      }
    }
  }

  /**
   * An iteration over a scan succeeds exactly when every scanned key is canonical, no append it makes
   * meets the fault point and the marking transaction commits. Then it marks and publishes exactly the
   * first `limit` rows of the backlog, all of them journaled; otherwise it marks and publishes nothing.
   */
  lemma {:induction false} DispatchOutcome(st: Store, j: Log, limit: nat, fault: StreamKey -> bool, commits: bool)
    requires Sound(st, j)
    ensures var rows := Outbox.Scan(st, limit);
            var (st', j', published, r) := Dispatch(st, j, rows, fault, commits);
            && Sound(st', j') && LogGrows(j, j')
            && (r.Ok? <==> Canonical(rows) && Unfaulted(j, GroupRows(rows), fault) && (rows == [] || commits))
            && (r.Ok? ==> r.value == Outcome(|rows|, |rows|, 0) && st' == Dispatched(st, limit) && published == Map(rows, EnvelopeFromRow)
                          && Dropped(Backlog(st), limit, Backlog(st')))
            && (r.Err? ==> st' == st && published == [])
  {
    var rows := Outbox.Scan(st, limit);
    if Canonical(rows) {
      var groups := GroupRows(rows);
      ScanGroups(st, limit);
      forall i | 0 <= i < |groups| ensures GroupOk(st, groups[i]) {
        ScannedGroup(st, rows, groups, i);
      }
      JournalGroupsSound(st, j, groups, fault);
      var (j', e) := JournalGroups(j, groups, fault);
      if e.None? && (rows == [] || commits) {
        DispatchShrinksBacklog(st, limit);
        MarkKeepsSound(st, j', groups);
      }
    }
  }

  lemma {:induction false} MarkKeepsSound(st: Store, j: Log, groups: seq<Group>)
    requires Sound(st, j) && DistinctStreams(groups) && AllJournaled(j, groups)
    requires forall i :: 0 <= i < |groups| ==> GroupOk(st, groups[i])
    ensures Sound(MarkPublished(st, Ids(Flat(groups))), j)
  {
    var s, s' := Still(st, j), Still(MarkPublished(st, Ids(Flat(groups))), j);
    MarkKeepsUniqueIds(st, Ids(Flat(groups)));
    forall k ensures StreamValid(s'.store, k) && StreamDurable(s', k) {
      assert StreamValid(st, k) && StreamDurable(s, k);
      MarkKeepsStream(s, groups, s', k);
    }
  }

  // ---- Iteration after iteration ----

  /** One call of the dispatcher: its limit, where the fault point fires, and whether the marks commit. */
  datatype Call = Call(limit: nat, fault: StreamKey -> bool, commits: bool)

  /** What calls leave behind: store, journal, everything published, and the limits of the calls that succeeded. */
  datatype Progress = Progress(store: Store, journal: Log, published: seq<Envelope>, covered: nat)

  ghost function Called(p: Progress, call: Call): Progress {
    var (st, j, published, r) := Dispatch(p.store, p.journal, Outbox.Scan(p.store, call.limit), call.fault, call.commits);
    Progress(st, j, p.published + published, p.covered + if r.Ok? then call.limit else 0)
  }

  ghost function After(st: Store, j: Log, calls: seq<Call>): Progress {
    if calls == [] then Progress(st, j, [], 0) else Called(After(st, j, calls[..|calls| - 1]), calls[|calls| - 1])
  }

  lemma {:induction false} DropTwice<T>(s: seq<T>, a: nat, t: seq<T>, b: nat, u: seq<T>)
    requires Dropped(s, a, t) && Dropped(t, b, u)
    ensures Dropped(s, a + b, u)
  {
  }

  /** The events of the first `n` rows. */
  function Front(rows: seq<Row>, n: nat): seq<Envelope> { Map(rows[..Min(n, |rows|)], EnvelopeFromRow) }

  lemma {:induction false} FrontTwice(rows: seq<Row>, a: nat, rest: seq<Row>, b: nat)
    requires Dropped(rows, a, rest)
    ensures Front(rows, a) + Front(rest, b) == Front(rows, a + b)
  {
    var m := Min(a, |rows|);
    assert rows[..m] + rest[..Min(b, |rest|)] == rows[..Min(a + b, |rows|)];
    MapAppend(rows[..m], rest[..Min(b, |rest|)], EnvelopeFromRow);
  }

  /** `p'` is `p` after `n` more rows of its backlog went to the sink. */
  ghost predicate Advances(p: Progress, p': Progress, n: nat) {
    && p'.covered == p.covered + n && p'.published == p.published + Front(Backlog(p.store), n)
    && Dropped(Backlog(p.store), n, Backlog(p'.store))
  }

  /** `rows` splits into what went to the sink and what is left. */
  ghost predicate Splits(rows: seq<Row>, p: Progress) {
    p.published == Front(rows, p.covered) && Dropped(rows, p.covered, Backlog(p.store))
  }

  lemma {:induction false} SplitsOne(rows: seq<Row>, p: Progress, p': Progress, n: nat)
    requires Splits(rows, p) && Advances(p, p', n)
    ensures Splits(rows, p')
  {
    FrontTwice(rows, p.covered, Backlog(p.store), n);
    DropTwice(rows, p.covered, Backlog(p.store), n, Backlog(p'.store));
  }

  lemma {:induction false} NoRows(rows: seq<Row>)
    ensures Front(rows, 0) == [] && Dropped(rows, 0, rows)
  {
  }

  lemma {:induction false} CallIsSound(p: Progress, call: Call)
    requires Sound(p.store, p.journal)
    ensures Sound(Called(p, call).store, Called(p, call).journal) && LogGrows(p.journal, Called(p, call).journal)
  {
    DispatchOutcome(p.store, p.journal, call.limit, call.fault, call.commits);
  }

  lemma {:induction false} SuccessAdvances(p: Progress, p': Progress, limit: nat)
    requires p'.covered == p.covered + limit && Dropped(Backlog(p.store), limit, Backlog(p'.store))
    requires p'.published == p.published + ScannedEvents(p.store, limit)
    ensures Advances(p, p', limit)
  {
  }

  lemma {:induction false} FailureAdvances(p: Progress, p': Progress)
    requires p'.covered == p.covered && p'.store == p.store && p'.published == p.published + []
    ensures Advances(p, p', 0)
  {
    NoRows(Backlog(p.store));
  }

  lemma {:induction false} CallOutcome(p: Progress, call: Call) returns (p': Progress, ok: bool)
    requires Sound(p.store, p.journal)
    ensures p' == Called(p, call) && p'.covered == p.covered + if ok then call.limit else 0
    ensures ok ==> p'.published == p.published + ScannedEvents(p.store, call.limit)
                   && Dropped(Backlog(p.store), call.limit, Backlog(p'.store))
    ensures !ok ==> p'.store == p.store && p'.published == p.published + []
  {
    DispatchOutcome(p.store, p.journal, call.limit, call.fault, call.commits);
    p' := Called(p, call);
    ok := Dispatch(p.store, p.journal, Outbox.Scan(p.store, call.limit), call.fault, call.commits).3.Ok?;
  }

  lemma {:induction false} CallAdvances(p: Progress, call: Call)
    requires Sound(p.store, p.journal)
    ensures Advances(p, Called(p, call), Called(p, call).covered - p.covered)
  {
    var p', ok := CallOutcome(p, call);
    if ok {
      SuccessAdvances(p, p', call.limit);
    } else {
      FailureAdvances(p, p');
    }
  }

  /** Whatever faults strike, the journal only grows and still explains the store. */
  lemma {:induction false} CallsAreSound(st: Store, j: Log, calls: seq<Call>)
    requires Sound(st, j)
    ensures Sound(After(st, j, calls).store, After(st, j, calls).journal) && LogGrows(j, After(st, j, calls).journal)
  {
    if calls != [] {
      var p := After(st, j, calls[..|calls| - 1]);
      CallsAreSound(st, j, calls[..|calls| - 1]);
      CallIsSound(p, calls[|calls| - 1]);
      GrowsTransitively(j, p.journal, After(st, j, calls).journal);
    }
  }

  lemma {:induction false} CallSplits(rows: seq<Row>, p: Progress, call: Call)
    requires Sound(p.store, p.journal) && Splits(rows, p)
    ensures Splits(rows, Called(p, call))
  {
    CallAdvances(p, call);
    SplitsOne(rows, p, Called(p, call), Called(p, call).covered - p.covered);
  }

  lemma {:induction false} CallsSplit(st: Store, j: Log, calls: seq<Call>)
    requires Sound(st, j)
    ensures Splits(Backlog(st), After(st, j, calls))
  {
    if calls == [] {
      NoRows(Backlog(st));
    } else {
      CallsSplit(st, j, calls[..|calls| - 1]);
      CallsAreSound(st, j, calls[..|calls| - 1]);
      CallSplits(Backlog(st), After(st, j, calls[..|calls| - 1]), calls[|calls| - 1]);
    }
  }

  lemma {:induction false} SplitsWhole(rows: seq<Row>, p: Progress)
    requires Splits(rows, p)
    ensures p.published + Map(Backlog(p.store), EnvelopeFromRow) == Map(rows, EnvelopeFromRow)
  {
    var n := Min(p.covered, |rows|);
    MapAppend(rows[..n], rows[n..], EnvelopeFromRow);
    assert rows[..n] + rows[n..] == rows;
  }

  /**
   * Whatever faults strike, the sink receives the backlog from its front, in order, once: what was
   * published, followed by what is left, is the backlog there was.
   */
  lemma {:induction false} CallsPublishInOrder(st: Store, j: Log, calls: seq<Call>)
    requires Sound(st, j)
    ensures var p := After(st, j, calls);
            p.published + Map(Backlog(p.store), EnvelopeFromRow) == Map(Backlog(st), EnvelopeFromRow)
  {
    CallsSplit(st, j, calls);
    SplitsWhole(Backlog(st), After(st, j, calls));
  }

  function Total(limits: seq<nat>): nat {
    if limits == [] then 0 else Total(limits[..|limits| - 1]) + limits[|limits| - 1]
  }

  predicate NoFault(k: StreamKey) { false }

  /** Calls that meet no fault and whose marks commit. */
  function Clean(limits: seq<nat>): seq<Call> { Map(limits, (limit: nat) => Call(limit, NoFault, true)) }

  lemma {:induction false} CanonicalTail(rows: seq<Row>, n: nat)
    requires Canonical(rows) && n <= |rows|
    ensures Canonical(rows[..n]) && Canonical(rows[n..])
  {
  }

  lemma {:induction false} CleanCallSucceeds(rows: seq<Row>, p: Progress, limit: nat)
    requires Sound(p.store, p.journal) && Splits(rows, p) && Canonical(rows)
    ensures Called(p, Call(limit, NoFault, true)).covered == p.covered + limit
  {
    CanonicalTail(rows, Min(p.covered, |rows|));
    CanonicalTail(Backlog(p.store), Min(limit, |Backlog(p.store)|));
    DispatchOutcome(p.store, p.journal, limit, NoFault, true);
  }

  lemma {:induction false} CleanOneMore(limits: seq<nat>)
    requires limits != []
    ensures var n := |limits| - 1; Clean(limits)[..n] == Clean(limits[..n]) && Clean(limits)[n] == Call(limits[n], NoFault, true)
  {
  }

  lemma {:induction false} CleanCallsCover(st: Store, j: Log, limits: seq<nat>)
    requires Sound(st, j) && Canonical(Backlog(st))
    ensures After(st, j, Clean(limits)).covered == Total(limits)
  {
    if limits != [] {
      var n := |limits| - 1;
      CleanOneMore(limits);
      CleanCallsCover(st, j, limits[..n]);
      CallsSplit(st, j, Clean(limits[..n]));
      CallsAreSound(st, j, Clean(limits[..n]));
      CleanCallSucceeds(Backlog(st), After(st, j, Clean(limits[..n])), limits[n]);
    }
  }

  /**
   * Over a canonical backlog, calls without faults all succeed: they take the sum of their limits off
   * its front and hand exactly that to the sink, in order, so enough of them empty it.
   */
  lemma {:induction false} DispatcherDrains(st: Store, j: Log, limits: seq<nat>)
    requires Sound(st, j) && Canonical(Backlog(st))
    ensures var p := After(st, j, Clean(limits));
            p.published == Front(Backlog(st), Total(limits)) && Dropped(Backlog(st), Total(limits), Backlog(p.store))
  {
    CleanCallsCover(st, j, limits);
    CallsSplit(st, j, Clean(limits));
  }
}
