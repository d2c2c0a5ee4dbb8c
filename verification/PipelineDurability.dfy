/** What every step keeps about the durable side: the journal, the outbox and the marks. */
module PipelineDurability {
  import opened Common
  import opened Envelopes
  import opened Outbox
  import opened Batches
  import opened Journal
  import opened Pipeline

  /** The stream's journal is a prefix of its committed events, and only journaled rows are marked. */
  ghost predicate StreamDurable(s: System, k: StreamKey) {
    var rec, events := Recorded(s.journal, k), Events(s.store, k);
    && |rec| <= |events|
    && rec == Wires(events)[..|rec|]
    && Marked(Rows(s.store, k)) <= |rec|
    && (rec != [] ==> IsCanonicalStream(k))
  }

  ghost predicate GroupOk(st: Store, g: Group) {
    && IsCanonicalStream(g.stream)
    && g.batch != []
    && SliceAt(st, g, First(g))
    && First(g) <= Marked(Rows(st, g.stream))
  }

  ghost predicate Journaled(j: Log, g: Group) {
    First(g) + |g.batch| <= |Recorded(j, g.stream)|
  }

  ghost predicate GroupsOk(st: Store, j: Log, groups: seq<Group>, done: nat) {
    && done <= |groups|
    && (forall i :: 0 <= i < |groups| ==> GroupOk(st, groups[i]))
    && (forall i :: 0 <= i < done ==> Journaled(j, groups[i]))
    && DistinctStreams(groups)
  }

  ghost predicate WorkerOk(st: Store, j: Log, w: Worker) {
    match w
    case Idle => true
    case Reading(groups, next) => GroupsOk(st, j, groups, next)
    case Appending(groups, next, matched) =>
      && GroupsOk(st, j, groups, next)
      && next < |groups|
      && matched < |groups[next].batch|
      && First(groups[next]) + matched <= |Recorded(j, groups[next].stream)|
    case Publishing(_) => true
  }

  ghost predicate Durable(s: System) {
    && Outbox.Valid(s.store)
    && (forall k :: StreamDurable(s, k))
    && (forall w :: 0 <= w < |s.workers| ==> WorkerOk(s.store, s.journal, s.workers[w]))
  }

  // ---- Growth: what one step may do to a stream ----

  ghost predicate Grows(st: Store, j: Log, st': Store, j': Log) {
    forall k ::
      && Events(st, k) <= Events(st', k)
      && Marked(Rows(st, k)) <= Marked(Rows(st', k))
      && |Recorded(j, k)| <= |Recorded(j', k)|
  }

  lemma {:induction false} GroupOkGrows(st: Store, j: Log, st': Store, j': Log, g: Group)
    requires Grows(st, j, st', j') && GroupOk(st, g)
    ensures GroupOk(st', g)
  {
    var k := g.stream;
    assert Events(st, k) <= Events(st', k) && Marked(Rows(st, k)) <= Marked(Rows(st', k));
    assert Events(st', k)[..|Events(st, k)|] == Events(st, k);
  }

  lemma {:induction false} GroupsOkGrows(st: Store, j: Log, st': Store, j': Log, groups: seq<Group>, done: nat)
    requires Grows(st, j, st', j') && GroupsOk(st, j, groups, done)
    ensures GroupsOk(st', j', groups, done)
  {
    forall i | 0 <= i < |groups| ensures GroupOk(st', groups[i]) {
      GroupOkGrows(st, j, st', j', groups[i]);
    }
    forall i | 0 <= i < done ensures Journaled(j', groups[i]) {
      assert Journaled(j, groups[i]);
    }
  }

  lemma {:induction false} WorkerOkGrows(st: Store, j: Log, st': Store, j': Log, w: Worker)
    requires Grows(st, j, st', j') && WorkerOk(st, j, w)
    ensures WorkerOk(st', j', w)
  {
    if w.Reading? || w.Appending? {
      GroupsOkGrows(st, j, st', j', w.groups, w.next);
    }
  }

  // ---- Staging ----

  lemma {:induction false} StageKeepsStream(s: System, s': System, row: Row, k: StreamKey)
    requires StreamDurable(s, k) && Extends(s.store, row, s'.store) && s'.journal == s.journal && !row.published
    ensures StreamDurable(s', k)
    ensures Events(s.store, k) <= Events(s'.store, k) && Marked(Rows(s.store, k)) == Marked(Rows(s'.store, k))
  {
    MarkedIs(Rows(s'.store, k), Marked(Rows(s.store, k)));
  }

  lemma {:induction false} StageKeepsDurable(s: System, d: Draft, ms: int)
    requires Durable(s)
    ensures Durable(Next(s, Stage(d, ms)))
  {
    StageExtends(s.store, d, ms);
    if StageAt(s.store, d, ms).Some? {
      var s' := Next(s, Stage(d, ms));
      var row := IntoNew(d, |Rows(s.store, d.streamKey)| + 1, ms);
      forall k ensures StreamDurable(s', k) && Events(s.store, k) <= Events(s'.store, k)
                       && Marked(Rows(s.store, k)) <= Marked(Rows(s'.store, k)) {
        assert StreamDurable(s, k);
        StageKeepsStream(s, s', row, k);
      }
      forall w | 0 <= w < |s'.workers| ensures WorkerOk(s'.store, s'.journal, s'.workers[w]) {
        WorkerOkGrows(s.store, s.journal, s'.store, s'.journal, s'.workers[w]);
      }
    }
  }

  // ---- Marking ----

  lemma {:induction false} IdsAppend(a: seq<Envelope>, b: seq<Envelope>)
    ensures Ids(a + b) == Ids(a) + Ids(b)
  {
    if a == [] {
      assert a + b == b;
    } else {
      IdsAppend(a[1..], b);
      assert (a + b)[1..] == a[1..] + b;
    }
  }

  lemma {:induction false} IdIndex(events: seq<Envelope>, id: Id)
    ensures id in Ids(events) <==> exists m :: 0 <= m < |events| && events[m].eventId == id
  {
    if events != [] {
      var tail := events[1..];
      IdIndex(tail, id);
      if m :| 0 <= m < |tail| && tail[m].eventId == id {
        assert events[m + 1].eventId == id;
      }
      if m :| 0 < m < |events| && events[m].eventId == id {
        assert tail[m - 1].eventId == id;
      }
    }
  }

  ghost predicate HoldsId(g: Group, id: Id) { exists m :: 0 <= m < |g.batch| && g.batch[m].eventId == id }

  lemma {:induction false} FlatIds(groups: seq<Group>, id: Id)
    ensures id in Ids(Flat(groups)) <==> exists n :: 0 <= n < |groups| && HoldsId(groups[n], id)
  {
    if groups != [] {
      var tail := groups[1..];
      FlatIds(tail, id);
      IdsAppend(groups[0].batch, Flat(tail));
      IdIndex(groups[0].batch, id);
      if n :| 0 <= n < |tail| && HoldsId(tail[n], id) {
        assert HoldsId(groups[n + 1], id);
      }
      if n :| 0 < n < |groups| && HoldsId(groups[n], id) {
        assert HoldsId(tail[n - 1], id);
      }
    }
  }

  ghost predicate Covers(g: Group, k: StreamKey, i: nat) {
    g.batch != [] && g.stream == k && First(g) <= i < First(g) + |g.batch|
  }

  lemma {:induction false} SameRow(st: Store, s: StreamKey, i: nat, t: StreamKey, j: nat)
    requires UniqueIds(st) && i < |Rows(st, s)| && j < |Rows(st, t)|
    requires Rows(st, s)[i].event.eventId == Rows(st, t)[j].event.eventId
    ensures s == t && i == j
  {
  }

  lemma {:induction false} OtherRow(st: Store, s: StreamKey, i: nat, t: StreamKey, j: nat)
    requires UniqueIds(st) && i < |Rows(st, s)| && j < |Rows(st, t)| && (s != t || i != j)
    ensures Rows(st, s)[i].event.eventId != Rows(st, t)[j].event.eventId
  {
  }

  lemma {:induction false} BatchPosition(st: Store, g: Group, m: nat)
    requires GroupOk(st, g) && m < |g.batch|
    ensures First(g) + m < |Rows(st, g.stream)| && Rows(st, g.stream)[First(g) + m].event == g.batch[m]
  {
    assert Events(st, g.stream)[First(g) + m] == g.batch[m];
  }

  lemma {:induction false} CoveredId(st: Store, groups: seq<Group>, n: nat, k: StreamKey, i: nat)
    requires n < |groups| && GroupOk(st, groups[n]) && Covers(groups[n], k, i)
    ensures i < |Rows(st, k)| && Rows(st, k)[i].event.eventId in Ids(Flat(groups))
  {
    var m := i - First(groups[n]);
    BatchPosition(st, groups[n], m);
    assert HoldsId(groups[n], groups[n].batch[m].eventId);
    FlatIds(groups, groups[n].batch[m].eventId);
  }

  lemma {:induction false} FindId(groups: seq<Group>, id: Id) returns (n: nat, m: nat)
    requires id in Ids(Flat(groups))
    ensures n < |groups| && m < |groups[n].batch| && groups[n].batch[m].eventId == id
  {
    FlatIds(groups, id);
    n :| 0 <= n < |groups| && HoldsId(groups[n], id);
    m :| 0 <= m < |groups[n].batch| && groups[n].batch[m].eventId == id;
  }

  lemma {:induction false} SameIdCovers(st: Store, g: Group, m: nat, k: StreamKey, i: nat)
    requires UniqueIds(st) && i < |Rows(st, k)| && GroupOk(st, g)
    requires m < |g.batch| && g.batch[m].eventId == Rows(st, k)[i].event.eventId
    ensures Covers(g, k, i)
  {
    BatchPosition(st, g, m);
    SameRow(st, k, i, g.stream, First(g) + m);
  }

  /** Marking by event id marks exactly the rows the groups hold. */
  lemma {:induction false} IdCovered(st: Store, groups: seq<Group>, k: StreamKey, i: nat)
    requires UniqueIds(st) && i < |Rows(st, k)|
    requires forall n :: 0 <= n < |groups| ==> GroupOk(st, groups[n])
    requires Rows(st, k)[i].event.eventId in Ids(Flat(groups))
    ensures exists n :: 0 <= n < |groups| && Covers(groups[n], k, i)
  {
    var n, m := FindId(groups, Rows(st, k)[i].event.eventId);
    SameIdCovers(st, groups[n], m, k, i);
  }

  /** The mark a stream ends with: a group that reaches past the old one moves it, nothing else does. */
  ghost predicate MarkMoves(st: Store, groups: seq<Group>, st': Store, k: StreamKey) {
    var m, m' := Marked(Rows(st, k)), Marked(Rows(st', k));
    && (forall n :: 0 <= n < |groups| && groups[n].stream == k && groups[n].batch != [] ==>
          m' == if m <= First(groups[n]) + |groups[n].batch| then First(groups[n]) + |groups[n].batch| else m)
    && ((forall n :: 0 <= n < |groups| ==> groups[n].stream != k) ==> m' == m)
  }

  lemma {:induction false} MarkedRow(st: Store, groups: seq<Group>, k: StreamKey, i: nat)
    requires UniqueIds(st) && i < |Rows(st, k)|
    requires forall n :: 0 <= n < |groups| ==> GroupOk(st, groups[n])
    ensures Rows(MarkPublished(st, Ids(Flat(groups))), k)[i].published <==>
              Rows(st, k)[i].published || exists n :: 0 <= n < |groups| && Covers(groups[n], k, i)
  {
    if Rows(st, k)[i].event.eventId in Ids(Flat(groups)) {
      IdCovered(st, groups, k, i);
    }
    if n :| 0 <= n < |groups| && Covers(groups[n], k, i) {
      CoveredId(st, groups, n, k, i);
    }
  }

  lemma {:induction false} MarkStream(st: Store, groups: seq<Group>, k: StreamKey)
    requires UniqueIds(st) && StreamValid(st, k) && DistinctStreams(groups)
    requires forall n :: 0 <= n < |groups| ==> GroupOk(st, groups[n])
    ensures var st' := MarkPublished(st, Ids(Flat(groups)));
            MarkMoves(st, groups, st', k) && MarkedIsPrefix(Rows(st', k))
  {
    var rows, rows' := Rows(st, k), Rows(MarkPublished(st, Ids(Flat(groups))), k);
    var m := Marked(rows);
    var end := 0;
    if n :| 0 <= n < |groups| && groups[n].stream == k {
      assert GroupOk(st, groups[n]);
      end := First(groups[n]) + |groups[n].batch|;
    }
    var m' := if m <= end then end else m;
    forall i | 0 <= i < |rows| ensures rows'[i].published <==> i < m' {
      MarkedRow(st, groups, k, i);
      assert rows[i].published <==> i < m;
      if n :| 0 <= n < |groups| && groups[n].stream == k {
        assert GroupOk(st, groups[n]);
        assert m <= i < end ==> Covers(groups[n], k, i);
      }
    }
    MarkedIs(rows', m');
  }

  lemma {:induction false} MarkKeepsUniqueIds(st: Store, ids: set<Id>)
    requires UniqueIds(st)
    ensures UniqueIds(MarkPublished(st, ids))
  {
    var st' := MarkPublished(st, ids);
    forall s, i, t, j |
      0 <= i < |Rows(st', s)| && 0 <= j < |Rows(st', t)| && Rows(st', s)[i].event.eventId == Rows(st', t)[j].event.eventId
      ensures s == t && i == j
    {
      SameRow(st, s, i, t, j);
    }
  }

  lemma {:induction false} MarkWithinJournal(st: Store, j: Log, groups: seq<Group>, st': Store, k: StreamKey)
    requires GroupsOk(st, j, groups, |groups|) && MarkMoves(st, groups, st', k) && Marked(Rows(st, k)) <= |Recorded(j, k)|
    ensures Marked(Rows(st, k)) <= Marked(Rows(st', k)) <= |Recorded(j, k)|
  {
    if n :| 0 <= n < |groups| && groups[n].stream == k {
      assert GroupOk(st, groups[n]) && Journaled(j, groups[n]);
    }
  }

  lemma {:induction false} MarkKeepsWellFormed(st: Store, ids: set<Id>, k: StreamKey)
    requires StreamWellFormed(st, k)
    ensures StreamWellFormed(MarkPublished(st, ids), k)
  {
    MarkTouchesOnlyFlags(st, ids, k);
  }

  /** Marks reach no further than the journal. */
  lemma {:induction false} MarkKeepsStream(s: System, groups: seq<Group>, s': System, k: StreamKey)
    requires UniqueIds(s.store) && StreamValid(s.store, k) && StreamDurable(s, k)
    requires GroupsOk(s.store, s.journal, groups, |groups|)
    requires s'.journal == s.journal && s'.store == MarkPublished(s.store, Ids(Flat(groups)))
    ensures StreamValid(s'.store, k) && StreamDurable(s', k)
    ensures Events(s'.store, k) == Events(s.store, k) && Marked(Rows(s.store, k)) <= Marked(Rows(s'.store, k))
  {
    MarkTouchesOnlyFlags(s.store, Ids(Flat(groups)), k);
    MarkKeepsWellFormed(s.store, Ids(Flat(groups)), k);
    MarkStream(s.store, groups, k);
    MarkWithinJournal(s.store, s.journal, groups, s'.store, k);
  }

  lemma {:induction false} MarkKeepsDurable(s: System, w: nat)
    requires Durable(s)
    ensures Durable(Next(s, Mark(w)))
  {
    if w < |s.workers| && s.workers[w].Reading? && s.workers[w].next == |s.workers[w].groups| {
      var s' := Next(s, Mark(w));
      var groups := s.workers[w].groups;
      assert WorkerOk(s.store, s.journal, s.workers[w]);
      MarkKeepsUniqueIds(s.store, Ids(Flat(groups)));
      forall k ensures StreamValid(s'.store, k) && StreamDurable(s', k) && Events(s'.store, k) == Events(s.store, k)
                       && Marked(Rows(s.store, k)) <= Marked(Rows(s'.store, k)) {
        assert StreamValid(s.store, k) && StreamDurable(s, k);
        MarkKeepsStream(s, groups, s', k);
      }
      forall v | 0 <= v < |s'.workers| ensures WorkerOk(s'.store, s'.journal, s'.workers[v]) {
        if v != w {
          WorkerOkGrows(s.store, s.journal, s'.store, s'.journal, s.workers[v]);
        }
      }
    }
  }

  // ---- Reading back ----

  /** What is recorded decodes to the committed event, up to re-encoding. */
  lemma {:induction false} RecordedDecodes(s: System, k: StreamKey, i: nat)
    requires StreamWellFormed(s.store, k) && StreamDurable(s, k) && i < |Recorded(s.journal, k)|
    ensures var w := Recorded(s.journal, k)[i];
            && w == ToWire(Events(s.store, k)[i])
            && RowMatches(w, k, i)
            && ToWire(FromWire(w).value) == w
            && Project(FromWire(w).value) == Project(Events(s.store, k)[i])
  {
    var e := Events(s.store, k)[i];
    assert Recorded(s.journal, k)[i] == Wires(Events(s.store, k))[i];
    StoredEnvelopeSurvives(e);
  }

  /** `page` holds the recorded events after `from`, as the client will see them. */
  ghost predicate PageOf(s: System, k: StreamKey, from: nat, page: seq<Envelope>) {
    forall i :: 0 <= i < |page| ==> PageEvent(s, k, from + i, page[i])
  }

  ghost predicate PageEvent(s: System, k: StreamKey, i: nat, e: Envelope) {
    && i < |Recorded(s.journal, k)| <= |Events(s.store, k)|
    && e.sequence == i + 1
    && ToWire(e) == ToWire(Events(s.store, k)[i])
    && Project(e) == Project(Events(s.store, k)[i])
  }

  lemma {:induction false} PageRowsMatch(s: System, k: StreamKey, from: nat, limit: nat)
    requires StreamWellFormed(s.store, k) && StreamDurable(s, k)
    ensures var rec := Recorded(s.journal, k); RowsMatch(PageRows(rec, from, limit), k, Min(from, |rec|))
  {
    var rec := Recorded(s.journal, k);
    var lo, rows := Min(from, |rec|), PageRows(rec, from, limit);
    forall i | 0 <= i < |rows| ensures RowMatches(rows[i], k, lo + i) {
      RecordedDecodes(s, k, lo + i);
    }
  }

  lemma {:induction false} PageEventAt(s: System, k: StreamKey, from: nat, limit: nat, i: nat)
    requires StreamWellFormed(s.store, k) && StreamDurable(s, k) && ReadPage(s.journal, k, from, limit).Ok?
    requires i < |ReadPage(s.journal, k, from, limit).value|
    ensures PageEvent(s, k, from + i, ReadPage(s.journal, k, from, limit).value[i])
  {
    RecordedDecodes(s, k, from + i);
  }

  /** A page is never corrupt and stops only at its limit or at the head. */
  lemma {:induction false} PageContents(s: System, k: StreamKey, from: nat, limit: nat)
    requires StreamWellFormed(s.store, k) && StreamDurable(s, k)
    ensures var rec, page := Recorded(s.journal, k), ReadPage(s.journal, k, from, limit);
            && page.Ok?
            && |page.value| == Min(from + limit, |rec|) - Min(from, |rec|)
            && PageOf(s, k, from, page.value)
  {
    PageRowsMatch(s, k, from, limit);
    var page := ReadPage(s.journal, k, from, limit).value;
    forall i | 0 <= i < |page| ensures PageEvent(s, k, from + i, page[i]) {
      PageEventAt(s, k, from, limit, i);
    }
  }

  lemma {:induction false} MatchesWhole(page: seq<Envelope>, batch: seq<Envelope>)
    requires |page| <= |batch| && forall i :: 0 <= i < |page| ==> ToWire(page[i]) == ToWire(batch[i])
    ensures MatchedPrefix(page, batch) == Some(|page|)
  {
    if page != [] {
      assert ToWire(page[0]) == ToWire(batch[0]);
      MatchesWhole(page[1..], batch[1..]);
    }
  }

  lemma {:induction false} PageMatches(s: System, g: Group, page: seq<Envelope>, i: nat)
    requires GroupOk(s.store, g) && PageOf(s, g.stream, First(g), page) && i < |page| <= |g.batch|
    ensures ToWire(page[i]) == ToWire(g.batch[i])
  {
    assert PageEvent(s, g.stream, First(g) + i, page[i]);
    BatchPosition(s.store, g, i);
  }

  lemma {:induction false} PageIsMatched(s: System, g: Group, page: seq<Envelope>)
    requires GroupOk(s.store, g) && PageOf(s, g.stream, First(g), page) && |page| <= |g.batch|
    ensures MatchedPrefix(page, g.batch) == Some(|page|)
  {
    forall i | 0 <= i < |page| ensures ToWire(page[i]) == ToWire(g.batch[i]) {
      PageMatches(s, g, page, i);
    }
    MatchesWhole(page, g.batch);
  }

  lemma {:induction false} FoundIs(j: Log, g: Group, n: nat)
    requires var page := ReadPage(j, g.stream, First(g), |g.batch|); page.Ok? && MatchedPrefix(page.value, g.batch) == Some(n)
    ensures Found(j, g) == Some(n)
  {
  }

  /** The read-back finds exactly the part of the batch that is journaled: there is no divergence. */
  lemma {:induction false} ReadFinds(s: System, g: Group)
    requires StreamWellFormed(s.store, g.stream) && StreamDurable(s, g.stream) && GroupOk(s.store, g)
    ensures Found(s.journal, g) == Some(Min(|Recorded(s.journal, g.stream)| - First(g), |g.batch|))
  {
    PageContents(s, g.stream, First(g), |g.batch|);
    var page := ReadPage(s.journal, g.stream, First(g), |g.batch|).value;
    PageIsMatched(s, g, page);
    FoundIs(s.journal, g, |page|);
  }

  lemma {:induction false} OneMoreJournaled(st: Store, j: Log, groups: seq<Group>, done: nat)
    requires GroupsOk(st, j, groups, done) && done < |groups| && Journaled(j, groups[done])
    ensures GroupsOk(st, j, groups, done + 1)
  {
  }

  lemma {:induction false} AfterReadOk(st: Store, j: Log, w: Worker, n: nat)
    requires w.Reading? && w.next < |w.groups| && WorkerOk(st, j, w)
    requires First(w.groups[w.next]) + n <= |Recorded(j, w.groups[w.next].stream)| && n <= |w.groups[w.next].batch|
    ensures WorkerOk(st, j, AfterRead(w, Some(n)))
  {
    if n == |w.groups[w.next].batch| {
      OneMoreJournaled(st, j, w.groups, w.next);
    }
  }

  /** After the read the worker appends exactly at the head it saw, or has nothing to append. */
  lemma {:induction false} ReadWorkerOk(s: System, w: Worker)
    requires w.Reading? && w.next < |w.groups| && WorkerOk(s.store, s.journal, w)
    requires StreamWellFormed(s.store, w.groups[w.next].stream) && StreamDurable(s, w.groups[w.next].stream)
    ensures WorkerOk(s.store, s.journal, ReadWorker(s.journal, w))
    ensures var g, w' := w.groups[w.next], ReadWorker(s.journal, w);
            if |Recorded(s.journal, g.stream)| < First(g) + |g.batch|
            then w' == Appending(w.groups, w.next, |Recorded(s.journal, g.stream)| - First(g))
            else w' == Reading(w.groups, w.next + 1)
  {
    var g := w.groups[w.next];
    assert GroupOk(s.store, g);
    ReadFinds(s, g);
    AfterReadOk(s.store, s.journal, w, Min(|Recorded(s.journal, g.stream)| - First(g), |g.batch|));
  }

  lemma {:induction false} ReadKeepsDurable(s: System, w: nat)
    requires Durable(s)
    ensures Durable(Next(s, Read(w)))
  {
    if w < |s.workers| && s.workers[w].Reading? && s.workers[w].next < |s.workers[w].groups| {
      var s' := Next(s, Read(w));
      var worker := s.workers[w];
      assert WorkerOk(s.store, s.journal, worker);
      var k := worker.groups[worker.next].stream;
      assert StreamValid(s.store, k) && StreamDurable(s, k);
      ReadWorkerOk(s, worker);
      OnlyWorkerChanged(s, s', w);
    }
  }

  /** A step that replaces one worker by a sound one keeps the durable invariant. */
  lemma {:induction false} OnlyWorkerChanged(s: System, s': System, w: nat)
    requires Durable(s) && w < |s.workers| && s'.store == s.store && s'.journal == s.journal
    requires |s'.workers| == |s.workers| && WorkerOk(s.store, s.journal, s'.workers[w])
    requires forall v :: 0 <= v < |s.workers| && v != w ==> s'.workers[v] == s.workers[v]
    ensures Durable(s')
  {
    forall k ensures StreamDurable(s', k) {
      assert StreamDurable(s, k);
    }
  }

  // ---- Appending ----

  /** The pending part of a batch is well formed for an append right after its recorded part. */
  lemma {:induction false} SuffixIsValidBatch(st: Store, g: Group, matched: nat)
    requires StreamWellFormed(st, g.stream) && GroupOk(st, g) && matched < |g.batch|
    ensures ValidBatch(g.stream, First(g) + matched, g.batch[matched..])
    ensures AppendFrom(g, matched) == First(g) + matched
  {
    forall i | 0 <= i < |g.batch| ensures g.batch[i].streamKey == g.stream && g.batch[i].sequence == First(g) + 1 + i {
      BatchPosition(st, g, i);
    }
  }

  lemma {:induction false} RecordedElsewhere(s: System, t: StreamKey, j: nat, k: StreamKey, i: nat)
    requires UniqueIds(s.store) && StreamDurable(s, t)
    requires |Recorded(s.journal, k)| <= i < |Rows(s.store, k)| && j < |Recorded(s.journal, t)|
    ensures Recorded(s.journal, t)[j].eventId != Rows(s.store, k)[i].event.eventId
  {
    assert Recorded(s.journal, t)[j] == Wires(Events(s.store, t))[j];
    OtherRow(s.store, t, j, k, i);
  }

  /** An id past the journal's head is not recorded anywhere. */
  lemma {:induction false} IdNotRecorded(s: System, k: StreamKey, i: nat)
    requires UniqueIds(s.store) && (forall t :: StreamDurable(s, t))
    requires |Recorded(s.journal, k)| <= i < |Rows(s.store, k)|
    ensures !RecordedId(s.journal, Rows(s.store, k)[i].event.eventId)
  {
    forall t, j | 0 <= j < |Recorded(s.journal, t)|
      ensures Recorded(s.journal, t)[j].eventId != Rows(s.store, k)[i].event.eventId
    {
      assert StreamDurable(s, t);
      RecordedElsewhere(s, t, j, k, i);
    }
  }

  lemma {:induction false} SuffixIsFresh(s: System, g: Group, matched: nat)
    requires UniqueIds(s.store) && (forall t :: StreamDurable(s, t))
    requires GroupOk(s.store, g) && matched < |g.batch| && |Recorded(s.journal, g.stream)| == First(g) + matched
    ensures FreshIds(s.journal, g.batch[matched..])
  {
    var batch := g.batch[matched..];
    forall i | 0 <= i < |batch| ensures !RecordedId(s.journal, batch[i].eventId) {
      BatchPosition(s.store, g, matched + i);
      IdNotRecorded(s, g.stream, First(g) + matched + i);
    }
    forall i, k | 0 <= i < k < |batch| ensures batch[i].eventId != batch[k].eventId {
      BatchPosition(s.store, g, matched + i);
      BatchPosition(s.store, g, matched + k);
      OtherRow(s.store, g.stream, First(g) + matched + i, g.stream, First(g) + matched + k);
    }
  }

  /** Appending the committed rows right after a recorded prefix gives a longer recorded prefix. */
  lemma {:induction false} LongerPrefix(st: Store, rec: seq<Wire>, g: Group, matched: nat)
    requires GroupOk(st, g) && matched < |g.batch|
    requires |rec| == First(g) + matched && rec == Wires(Events(st, g.stream))[..|rec|]
    ensures var n := First(g) + |g.batch|;
            rec + Wires(g.batch[matched..]) == Wires(Events(st, g.stream))[..n]
  {
    var all := Wires(Events(st, g.stream));
    var n := First(g) + |g.batch|;
    var longer := rec + Wires(g.batch[matched..]);
    assert |longer| == n;
    forall i | 0 <= i < n ensures longer[i] == all[i] {
      if i < |rec| {
        assert rec[i] == all[..|rec|][i];
      } else {
        BatchPosition(st, g, i - First(g));
      }
    }
  }

  /** What an append of a batch's pending part does, whoever else is appending. */
  ghost predicate Appended(s: System, g: Group, j': Log, r: Result<nat, JournalError>) {
    && (forall k :: k != g.stream ==> Recorded(j', k) == Recorded(s.journal, k))
    && |Recorded(s.journal, g.stream)| <= |Recorded(j', g.stream)| <= |Events(s.store, g.stream)|
    && Recorded(j', g.stream) == Wires(Events(s.store, g.stream))[..|Recorded(j', g.stream)|]
    && r != Err(Conflict) && r != Err(InvalidArgument)
    && (r.Ok? ==> First(g) + |g.batch| <= |Recorded(j', g.stream)|)
  }

  lemma {:induction false} AppendFresh(j: Log, k: StreamKey, batch: seq<Envelope>)
    requires ValidBatch(k, |Recorded(j, k)|, batch) && FreshIds(j, batch)
    ensures AppendTo(j, k, |Recorded(j, k)|, batch) ==
              (j[k := Recorded(j, k) + Wires(batch)], Ok(|Recorded(j, k)| + |batch|))
  {
  }

  lemma {:induction false} AppendAtHead(s: System, g: Group, matched: nat)
    requires UniqueIds(s.store) && StreamWellFormed(s.store, g.stream) && (forall t :: StreamDurable(s, t))
    requires GroupOk(s.store, g) && matched < |g.batch| && First(g) + matched == |Recorded(s.journal, g.stream)|
    ensures var (j', r) := AppendTo(s.journal, g.stream, First(g) + matched, g.batch[matched..]);
            Appended(s, g, j', r) && r == Ok(First(g) + |g.batch|)
  {
    SuffixIsValidBatch(s.store, g, matched);
    SuffixIsFresh(s, g, matched);
    AppendFresh(s.journal, g.stream, g.batch[matched..]);
    assert StreamDurable(s, g.stream);
    LongerPrefix(s.store, Recorded(s.journal, g.stream), g, matched);
  }

  lemma {:induction false} VerifyNeverConflicts(rec: seq<Wire>, batch: seq<Envelope>, all: seq<Wire>)
    requires |rec| <= |all| && rec == all[..|rec|]
    requires forall i :: 0 <= i < |batch| ==> 1 <= batch[i].sequence <= |all| && all[batch[i].sequence - 1] == ToWire(batch[i])
    ensures VerifyRecorded(rec, batch).Some? ==> VerifyRecorded(rec, batch) == Some(FailedPrecondition)
    decreases |batch|
  {
    if batch != [] {
      assert forall i :: 0 <= i < |batch[1..]| ==> batch[1..][i] == batch[i + 1];
      VerifyNeverConflicts(rec, batch[1..], all);
    }
  }

  lemma {:induction false} CommittedRow(st: Store, s: StreamKey, p: nat, e: Envelope)
    requires StreamWellFormed(st, s) && p < |Rows(st, s)| && Rows(st, s)[p].event == e
    ensures e.sequence == p + 1 <= |Wires(Events(st, s))| && Wires(Events(st, s))[p] == ToWire(e)
  {
  }

  lemma {:induction false} CommittedAt(st: Store, g: Group, m: nat)
    requires StreamWellFormed(st, g.stream) && GroupOk(st, g) && m < |g.batch|
    ensures var all, e := Wires(Events(st, g.stream)), g.batch[m];
            e.sequence == First(g) + m + 1 <= |all| && all[e.sequence - 1] == ToWire(e)
  {
    BatchPosition(st, g, m);
    CommittedRow(st, g.stream, First(g) + m, g.batch[m]);
  }

  lemma {:induction false} SuffixIsCommitted(st: Store, g: Group, matched: nat, i: nat)
    requires StreamWellFormed(st, g.stream) && GroupOk(st, g) && matched + i < |g.batch|
    ensures var all, e := Wires(Events(st, g.stream)), g.batch[matched..][i];
            e.sequence == First(g) + matched + i + 1 <= |all| && all[e.sequence - 1] == ToWire(e)
  {
    CommittedAt(st, g, matched + i);
    assert g.batch[matched..][i] == g.batch[matched + i];
  }

  lemma {:induction false} SuffixNeverConflicts(s: System, g: Group, matched: nat)
    requires StreamWellFormed(s.store, g.stream) && StreamDurable(s, g.stream)
    requires GroupOk(s.store, g) && matched < |g.batch|
    ensures var v := VerifyRecorded(Recorded(s.journal, g.stream), g.batch[matched..]); v.Some? ==> v == Some(FailedPrecondition)
  {
    var batch, all := g.batch[matched..], Wires(Events(s.store, g.stream));
    forall i | 0 <= i < |batch| ensures 1 <= batch[i].sequence <= |all| && all[batch[i].sequence - 1] == ToWire(batch[i]) {
      SuffixIsCommitted(s.store, g, matched, i);
    }
    VerifyNeverConflicts(Recorded(s.journal, g.stream), batch, all);
  }

  lemma {:induction false} VerifySuffix(s: System, g: Group, matched: nat)
    requires StreamWellFormed(s.store, g.stream) && StreamDurable(s, g.stream)
    requires GroupOk(s.store, g) && matched < |g.batch|
    ensures var v := VerifyRecorded(Recorded(s.journal, g.stream), g.batch[matched..]);
            if v.Some? then v == Some(FailedPrecondition) else First(g) + |g.batch| <= |Recorded(s.journal, g.stream)|
  {
    SuffixNeverConflicts(s, g, matched);
    var rec, batch := Recorded(s.journal, g.stream), g.batch[matched..];
    if VerifyRecorded(rec, batch).None? {
      VerifiedPosition(rec, batch, |batch| - 1);
      SuffixIsCommitted(s.store, g, matched, |batch| - 1);
    }
  }

  lemma {:induction false} AppendBehindHead(s: System, g: Group, matched: nat)
    requires StreamWellFormed(s.store, g.stream) && StreamDurable(s, g.stream)
    requires GroupOk(s.store, g) && matched < |g.batch| && First(g) + matched < |Recorded(s.journal, g.stream)|
    ensures var (j', r) := AppendTo(s.journal, g.stream, First(g) + matched, g.batch[matched..]);
            j' == s.journal && Appended(s, g, j', r)
  {
    SuffixIsValidBatch(s.store, g, matched);
    VerifySuffix(s, g, matched);
  }

  lemma {:induction false} AppendSuffix(s: System, g: Group, matched: nat) returns (j': Log, r: Result<nat, JournalError>)
    requires UniqueIds(s.store) && StreamWellFormed(s.store, g.stream) && (forall t :: StreamDurable(s, t))
    requires GroupOk(s.store, g) && matched < |g.batch| && First(g) + matched <= |Recorded(s.journal, g.stream)|
    ensures (j', r) == AppendTo(s.journal, g.stream, First(g) + matched, g.batch[matched..])
    ensures Appended(s, g, j', r)
    ensures First(g) + matched == |Recorded(s.journal, g.stream)| ==> r.Ok?
  {
    var append := AppendTo(s.journal, g.stream, First(g) + matched, g.batch[matched..]);
    j', r := append.0, append.1;
    assert StreamDurable(s, g.stream);
    if First(g) + matched == |Recorded(s.journal, g.stream)| {
      AppendAtHead(s, g, matched);
    } else {
      AppendBehindHead(s, g, matched);
    }
  }

  lemma {:induction false} AppendWorkerOk(s: System, w: Worker) returns (r: Result<nat, JournalError>)
    requires w.Appending? && WorkerOk(s.store, s.journal, w)
    requires Outbox.Valid(s.store) && (forall k :: StreamDurable(s, k))
    ensures var (j', w') := AppendWorker(s.journal, w);
            Appended(s, w.groups[w.next], j', r) && w' == if r.Ok? then Reading(w.groups, w.next + 1) else Idle
    ensures First(w.groups[w.next]) + w.matched == |Recorded(s.journal, w.groups[w.next].stream)| ==> r.Ok?
  {
    var g := w.groups[w.next];
    assert StreamValid(s.store, g.stream);
    SuffixIsValidBatch(s.store, g, w.matched);
    var j';
    j', r := AppendSuffix(s, g, w.matched);
  }

  lemma {:induction false} AppendedStream(s: System, s': System, g: Group, r: Result<nat, JournalError>, k: StreamKey)
    requires Appended(s, g, s'.journal, r) && s'.store == s.store && GroupOk(s.store, g) && StreamDurable(s, k)
    ensures StreamDurable(s', k)
  {
  }

  lemma {:induction false} AppendedWorker(s: System, g: Group, j': Log, r: Result<nat, JournalError>, w: Worker)
    requires Appended(s, g, j', r) && WorkerOk(s.store, s.journal, w)
    ensures WorkerOk(s.store, j', w)
  {
    WorkerOkGrows(s.store, s.journal, s.store, j', w);
  }

  lemma {:induction false} AppendKeepsDurable(s: System, w: nat)
    requires Durable(s)
    ensures Durable(Next(s, Append(w)))
  {
    if w < |s.workers| && s.workers[w].Appending? {
      var s' := Next(s, Append(w));
      var worker := s.workers[w];
      assert WorkerOk(s.store, s.journal, worker);
      var r := AppendWorkerOk(s, worker);
      var g := worker.groups[worker.next];
      assert GroupOk(s.store, g);
      forall k ensures StreamDurable(s', k) {
        assert StreamDurable(s, k);
        AppendedStream(s, s', g, r, k);
      }
      AppendedWorker(s, g, s'.journal, r, worker);
      forall v | 0 <= v < |s'.workers| ensures WorkerOk(s'.store, s'.journal, s'.workers[v]) {
        if v != w {
          AppendedWorker(s, g, s'.journal, r, s.workers[v]);
        }
      }
    }
  }

  // ---- Scanning ----

  lemma {:induction false} ScanWorkerOk(st: Store, j: Log, limit: nat)
    requires Outbox.Valid(st)
    ensures WorkerOk(st, j, ScanWorker(st, limit))
    ensures ScanWorker(st, limit).Reading? ==>
              forall g :: g in ScanWorker(st, limit).groups ==> g.batch != [] && First(g) == Marked(Rows(st, g.stream))
  {
    ScanGroups(st, limit);
    var rows := Outbox.Scan(st, limit);
    var groups := GroupRows(rows);
    if ScanWorker(st, limit).Reading? {
      forall i | 0 <= i < |groups| ensures GroupOk(st, groups[i]) && First(groups[i]) == Marked(Rows(st, groups[i].stream)) {
        ScannedGroup(st, rows, groups, i);
      }
    }
  }

  lemma {:induction false} ScannedGroup(st: Store, rows: seq<Row>, groups: seq<Group>, i: nat)
    requires StreamsValid(st) && WellGrouped(st, rows, groups) && i < |groups|
    requires forall r :: r in rows ==> IsCanonicalStream(r.event.streamKey)
    ensures GroupOk(st, groups[i]) && First(groups[i]) == Marked(Rows(st, groups[i].stream))
  {
    var g := groups[i];
    var m := Marked(Rows(st, g.stream));
    assert Scanned(st, g) && StreamValid(st, g.stream);
    assert g.batch[0] == Events(st, g.stream)[m];
    var at := FlatIndex(groups, i);
    assert Map(rows, EnvelopeFromRow)[at] == g.batch[0];
    assert rows[at] in rows;
  }

  lemma {:induction false} FlatIndex(groups: seq<Group>, i: nat) returns (at: nat)
    requires i < |groups| && groups[i].batch != []
    ensures at < |Flat(groups)| && Flat(groups)[at] == groups[i].batch[0]
  {
    if i == 0 {
      at := 0;
    } else {
      var k := FlatIndex(groups[1..], i - 1);
      at := |groups[0].batch| + k;
    }
  }

  // ---- Every step, every run ----

  lemma {:induction false} ScanKeepsDurable(s: System, w: nat, limit: nat)
    requires Durable(s)
    ensures Durable(Next(s, Scan(w, limit)))
  {
    if w < |s.workers| && s.workers[w].Idle? {
      var s' := Next(s, Scan(w, limit));
      ScanWorkerOk(s.store, s.journal, limit);
      OnlyWorkerChanged(s, s', w);
    }
  }

  /** Only the volatile side changes: workers lose their progress at most. */
  lemma {:induction false} VolatileKeepsDurable(s: System, s': System)
    requires Durable(s) && s'.store == s.store && s'.journal == s.journal && |s'.workers| == |s.workers|
    requires forall v :: 0 <= v < |s.workers| ==>
               s'.workers[v] == s.workers[v] || s'.workers[v].Idle? || s'.workers[v].Publishing?
    ensures Durable(s')
  {
    forall k ensures StreamDurable(s', k) {
      assert StreamDurable(s, k);
    }
  }

  lemma {:induction false} StepKeepsDurable(s: System, step: Step)
    requires Durable(s)
    ensures Durable(Next(s, step))
  {
    match step
    case Stage(d, ms) => StageKeepsDurable(s, d, ms);
    case Scan(w, limit) => ScanKeepsDurable(s, w, limit);
    case Read(w) => ReadKeepsDurable(s, w);
    case Append(w) => AppendKeepsDurable(s, w);
    case Mark(w) => MarkKeepsDurable(s, w);
    case Abort(_) => VolatileKeepsDurable(s, Next(s, step));
    case Publish(_) => VolatileKeepsDurable(s, Next(s, step));
    case Crash => VolatileKeepsDurable(s, Next(s, step));
    case Subscribe(_, _, _) => VolatileKeepsDurable(s, Next(s, step));
    case Page(_) => VolatileKeepsDurable(s, Next(s, step));
    case Take(_) => VolatileKeepsDurable(s, Next(s, step));
    case Disconnect(_) => VolatileKeepsDurable(s, Next(s, step));
    case Resume(_) => VolatileKeepsDurable(s, Next(s, step));
  }

  /**
   * Whatever interleaving of commits, scans, appends, marks, aborts and crashes, by any number of
   * dispatchers: every stream's journal is a prefix of its committed outbox, marked rows are
   * journaled, and unmarked rows form a contiguous suffix.
   */
  lemma {:induction false} JournalIsOutboxPrefix(workers: nat, capacity: nat, steps: seq<Step>)
    ensures Durable(Run(Init(workers, capacity), steps))
  {
    if steps == [] {
      EmptyIsValid();
    } else {
      JournalIsOutboxPrefix(workers, capacity, steps[..|steps| - 1]);
      StepKeepsDurable(Run(Init(workers, capacity), steps[..|steps| - 1]), steps[|steps| - 1]);
    }
  }
}
