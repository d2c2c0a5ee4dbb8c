/**
 * The transactional outbox: sequence allocation, insertion, the ordered unpublished scan and
 * publication marks (events/src/outbox.rs, kernel-store-sqlite/src/repos/streams.rs).
 */
module Outbox {
  import opened Common
  import opened Text
  import opened Envelopes

  /** `event_stream_heads` and `outbox_events`; a stream's rows are kept in sequence order. */
  datatype Store = Store(heads: map<StreamKey, nat>, outbox: map<StreamKey, seq<Row>>)

  function Head(st: Store, s: StreamKey): nat { if s in st.heads then st.heads[s] else 0 }

  function Rows(st: Store, s: StreamKey): seq<Row> { if s in st.outbox then st.outbox[s] else [] }

  function Events(st: Store, s: StreamKey): seq<Envelope> { Map(Rows(st, s), EnvelopeFromRow) }

  // ---- Invariant ----

  ghost predicate StreamWellFormed(st: Store, s: StreamKey) {
    && Head(st, s) == |Rows(st, s)|
    && (forall i :: 0 <= i < |Rows(st, s)| ==>
          var r := Rows(st, s)[i].event;
          r.streamKey == s && r.sequence == i + 1 && !r.sensitivity.NoSensitivity? && !r.retention.NoRetention?)
  }

  ghost predicate UniqueIds(st: Store) {
    forall s, i, t, j ::
      0 <= i < |Rows(st, s)| && 0 <= j < |Rows(st, t)| && Rows(st, s)[i].event.eventId == Rows(st, t)[j].event.eventId
      ==> s == t && i == j
  }

  /** Published rows of a stream come before its unpublished ones. */
  ghost predicate MarkedIsPrefix(rows: seq<Row>) {
    forall i, j :: 0 <= i < j < |rows| && rows[j].published ==> rows[i].published
  }

  ghost predicate StreamValid(st: Store, s: StreamKey) { StreamWellFormed(st, s) && MarkedIsPrefix(Rows(st, s)) }

  ghost predicate StreamsValid(st: Store) { forall s :: StreamValid(st, s) }

  ghost predicate Valid(st: Store) { StreamsValid(st) && UniqueIds(st) }

  const Empty := Store(map[], map[])

  lemma {:induction false} EmptyIsValid()
    ensures Valid(Empty)
  {
  }

  /** Number of leading published rows. */
  function Marked(rows: seq<Row>): (n: nat)
    ensures n <= |rows|
    ensures forall i :: 0 <= i < n ==> rows[i].published
    ensures n < |rows| ==> !rows[n].published
  {
    if rows == [] || !rows[0].published then 0 else 1 + Marked(rows[1..])
  }

  lemma {:induction false} MarkedIs(rows: seq<Row>, n: nat)
    requires n <= |rows|
    requires forall i :: 0 <= i < n ==> rows[i].published
    requires n < |rows| ==> !rows[n].published
    ensures Marked(rows) == n
  {
  }

  // ---- Staging ----

  ghost predicate IdTaken(st: Store, id: Id) {
    exists s, i :: 0 <= i < |Rows(st, s)| && Rows(st, s)[i].event.eventId == id
  }

  /** The schema constraints `insert_outbox` can trip over. */
  ghost predicate Insertable(st: Store, r: Envelope) {
    && !IdTaken(st, r.eventId)
    && (forall i :: 0 <= i < |Rows(st, r.streamKey)| ==> Rows(st, r.streamKey)[i].event.sequence != r.sequence)
    && !r.sensitivity.NoSensitivity? && !r.retention.NoRetention?
  }

  /** Allocates the next position and inserts the row; a constraint failure aborts the transaction. */
  ghost function StageAt(st: Store, d: Draft, occurredMs: int): Option<Store> {
    var sequence := Head(st, d.streamKey) + 1;
    var row := IntoNew(d, sequence, occurredMs);
    if Insertable(st, row.event)
    then Some(Store(st.heads[d.streamKey := sequence],
                    st.outbox[d.streamKey := Rows(st, d.streamKey) + [row]]))
    else None
  }

  /** `st'` is `st` with `row` appended to its stream at the head position. */
  ghost predicate Extends(st: Store, row: Row, st': Store) {
    && (forall s :: s != row.event.streamKey ==> Rows(st', s) == Rows(st, s) && Head(st', s) == Head(st, s))
    && Rows(st', row.event.streamKey) == Rows(st, row.event.streamKey) + [row]
    && Head(st', row.event.streamKey) == Head(st, row.event.streamKey) + 1 == row.event.sequence
  }

  lemma {:induction false} ExtendKeepsStream(st: Store, row: Row, st': Store, s: StreamKey)
    requires Extends(st, row, st')
    requires StreamValid(st, s)
    requires !row.published && !row.event.sensitivity.NoSensitivity? && !row.event.retention.NoRetention?
    ensures StreamValid(st', s)
  {
  }

  lemma {:induction false} NewRowIsFresh(st: Store, row: Row, st': Store, s: StreamKey, i: nat)
    requires Extends(st, row, st') && !IdTaken(st, row.event.eventId)
    requires i < |Rows(st', s)|
    ensures if s == row.event.streamKey && i == |Rows(st, s)| then Rows(st', s)[i] == row
            else i < |Rows(st, s)| && Rows(st', s)[i] == Rows(st, s)[i] && Rows(st', s)[i].event.eventId != row.event.eventId
  {
  }

  lemma {:induction false} ExtendKeepsUniqueIds(st: Store, row: Row, st': Store)
    requires Extends(st, row, st') && !IdTaken(st, row.event.eventId) && UniqueIds(st)
    ensures UniqueIds(st')
  {
    forall s, i, t, j |
      0 <= i < |Rows(st', s)| && 0 <= j < |Rows(st', t)| && Rows(st', s)[i].event.eventId == Rows(st', t)[j].event.eventId
      ensures s == t && i == j
    {
      NewRowIsFresh(st, row, st', s, i);
      NewRowIsFresh(st, row, st', t, j);
    }
  }

  /**
   * Staging succeeds exactly when the event id is new and both classes are set; it then extends one
   * stream by an unpublished row that says what the draft says, at the next contiguous sequence, and
   * touches nothing else.
   */
  lemma {:induction false} StageExtends(st: Store, d: Draft, occurredMs: int)
    requires Valid(st)
    ensures StageAt(st, d, occurredMs).Some? <==>
              !IdTaken(st, d.eventId) && !d.sensitivity.NoSensitivity? && !d.retention.NoRetention?
    ensures StageAt(st, d, occurredMs).Some? ==>
              var st' := StageAt(st, d, occurredMs).value;
              Valid(st') && Extends(st, IntoNew(d, |Rows(st, d.streamKey)| + 1, occurredMs), st')
    ensures StageAt(st, d, occurredMs).Some? ==>
              var n, rows' := |Rows(st, d.streamKey)|, Rows(StageAt(st, d, occurredMs).value, d.streamKey);
              |rows'| == n + 1 && Records(rows'[n].event, d, occurredMs, n + 1) && !rows'[n].published
  {
    var row := IntoNew(d, Head(st, d.streamKey) + 1, occurredMs);
    assert StreamValid(st, d.streamKey);
    if StageAt(st, d, occurredMs).Some? {
      var st' := StageAt(st, d, occurredMs).value;
      assert Extends(st, row, st');
      forall s ensures StreamValid(st', s) {
        ExtendKeepsStream(st, row, st', s);
      }
      ExtendKeepsUniqueIds(st, row, st');
    }
  }

  // ---- Publication marks ----

  function MarkRow(r: Row, ids: set<Id>): Row { if r.event.eventId in ids then r.(published := true) else r }

  /** One `UPDATE ... WHERE event_id = ?` per scanned row, in one transaction. */
  function MarkPublished(st: Store, ids: set<Id>): Store {
    st.(outbox := map s | s in st.outbox :: Map(st.outbox[s], (r: Row) => MarkRow(r, ids)))
  }

  lemma {:induction false} MarkTouchesOnlyFlags(st: Store, ids: set<Id>, s: StreamKey)
    ensures Rows(MarkPublished(st, ids), s) == Map(Rows(st, s), (r: Row) => MarkRow(r, ids))
    ensures Events(MarkPublished(st, ids), s) == Events(st, s)
    ensures forall i :: 0 <= i < |Rows(st, s)| ==>
              var r, r' := Rows(st, s)[i], Rows(MarkPublished(st, ids), s)[i];
              r'.event == r.event && (r'.published <==> r.published || r.event.eventId in ids)
  {
  }

  // ---- The ordered scan ----

  function OpenRows(rows: seq<Row>): seq<Row> { Filter(rows, (r: Row) => !r.published) }

  /** Unpublished rows of the listed streams, stream by stream. */
  function Unpublished(st: Store, keys: seq<StreamKey>): seq<Row> {
    if keys == [] then [] else OpenRows(Rows(st, keys[0])) + Unpublished(st, keys[1..])
  }

  ghost function Texts(st: Store): set<string> { set k | k in st.outbox :: k.text }

  /** The streams with rows, in collation order. */
  ghost function Keys(st: Store): seq<StreamKey> { Map(Ascending(Texts(st)), (t: string) => StreamKey(t)) }

  lemma {:induction false} KeysOf(st: Store)
    ensures Distinct(Keys(st))
    ensures forall k :: k in Keys(st) <==> k in st.outbox
  {
    var texts, keys := Ascending(Texts(st)), Keys(st);
    forall k ensures k in keys <==> k in st.outbox {
      if k in keys {
        var i :| 0 <= i < |keys| && keys[i] == k;
        assert texts[i] in Texts(st);
      }
      if k in st.outbox {
        assert k.text in texts;
        var i :| 0 <= i < |texts| && texts[i] == k.text;
        assert keys[i] == k;
      }
    }
  }

  /** `WHERE journal_published_at_ms IS NULL ORDER BY stream_key, sequence`. */
  ghost function Backlog(st: Store): seq<Row> { Unpublished(st, Keys(st)) }

  /** The scan: the backlog cut at `limit`. */
  ghost function Scan(st: Store, limit: nat): seq<Row> { Backlog(st)[..Min(limit, |Backlog(st)|)] }

  lemma {:induction false} OpenIsSuffix(rows: seq<Row>)
    requires MarkedIsPrefix(rows)
    ensures OpenRows(rows) == rows[Marked(rows)..]
  {
    if rows != [] {
      if rows[0].published {
        OpenIsSuffix(rows[1..]);
        assert rows[Marked(rows)..] == rows[1..][Marked(rows[1..])..];
      } else {
        FilterAll(rows, (r: Row) => !r.published);
      }
    }
  }

  // ---- What the scan returns ----

  lemma {:induction false} OpenMember(rows: seq<Row>, r: Row)
    ensures r in OpenRows(rows) <==> r in rows && !r.published
  {
    if rows != [] {
      OpenMember(rows[1..], r);
      assert rows == [rows[0]] + rows[1..];
    }
  }

  lemma {:induction false} UnpublishedMember(st: Store, keys: seq<StreamKey>, r: Row)
    ensures r in Unpublished(st, keys) <==> exists i :: 0 <= i < |keys| && r in Rows(st, keys[i]) && !r.published
  {
    if keys != [] {
      UnpublishedMember(st, keys[1..], r);
      OpenMember(Rows(st, keys[0]), r);
      if i :| 0 <= i < |keys| && r in Rows(st, keys[i]) && !r.published {
        if i > 0 { assert keys[1..][i - 1] == keys[i]; }
      }
      if i :| 0 <= i < |keys[1..]| && r in Rows(st, keys[1..][i]) && !r.published {
        assert keys[i + 1] == keys[1..][i];
      }
    }
  }

  /** The backlog is every row that is not published, and nothing else. */
  lemma {:induction false} BacklogMember(st: Store, r: Row)
    ensures r in Backlog(st) <==> exists k :: r in Rows(st, k) && !r.published
  {
    UnpublishedMember(st, Keys(st), r);
    KeysOf(st);
    if k :| r in Rows(st, k) && !r.published {
      assert k in Keys(st);
    }
  }

  /** `ORDER BY stream_key, sequence`. */
  ghost predicate Before(a: Row, b: Row) {
    || Below(a.event.streamKey.text, b.event.streamKey.text)
    || (a.event.streamKey == b.event.streamKey && a.event.sequence < b.event.sequence)
  }

  ghost predicate Ordered(rows: seq<Row>) { forall i, j :: 0 <= i < j < |rows| ==> Before(rows[i], rows[j]) }

  ghost predicate AscendingKeys(keys: seq<StreamKey>) { forall i, j :: 0 <= i < j < |keys| ==> Below(keys[i].text, keys[j].text) }

  lemma {:induction false} StreamOrdered(st: Store, k: StreamKey)
    requires StreamValid(st, k)
    ensures Ordered(OpenRows(Rows(st, k))) && forall r :: r in OpenRows(Rows(st, k)) ==> r.event.streamKey == k
  {
    OpenIsSuffix(Rows(st, k));
  }

  lemma {:induction false} AppendOrdered(a: seq<Row>, b: seq<Row>)
    requires Ordered(a) && Ordered(b) && forall x, y :: x in a && y in b ==> Before(x, y)
    ensures Ordered(a + b)
  {
  }

  lemma {:induction false} UnpublishedStream(st: Store, keys: seq<StreamKey>, r: Row)
    requires StreamsValid(st) && r in Unpublished(st, keys)
    ensures r.event.streamKey in keys
  {
    UnpublishedMember(st, keys, r);
    var i :| 0 <= i < |keys| && r in Rows(st, keys[i]) && !r.published;
    assert StreamValid(st, keys[i]);
  }

  lemma {:induction false} UnpublishedOrdered(st: Store, keys: seq<StreamKey>)
    requires StreamsValid(st) && AscendingKeys(keys)
    ensures Ordered(Unpublished(st, keys))
  {
    if keys != [] {
      var head, tail := OpenRows(Rows(st, keys[0])), Unpublished(st, keys[1..]);
      assert StreamValid(st, keys[0]);
      StreamOrdered(st, keys[0]);
      UnpublishedOrdered(st, keys[1..]);
      forall x, y | x in head && y in tail ensures Before(x, y) {
        UnpublishedStream(st, keys[1..], y);
        var i :| 0 <= i < |keys[1..]| && keys[1..][i] == y.event.streamKey;
        assert keys[i + 1] == y.event.streamKey;
      }
      AppendOrdered(head, tail);
    }
  }

  /** The backlog lists all unpublished rows, and only those, by stream key and then by sequence. */
  lemma {:induction false} BacklogIsOrdered(st: Store)
    requires StreamsValid(st)
    ensures Ordered(Backlog(st)) && forall r :: r in Backlog(st) <==> exists k :: r in Rows(st, k) && !r.published
  {
    assert forall i :: 0 <= i < |Keys(st)| ==> Keys(st)[i].text == Ascending(Texts(st))[i];
    UnpublishedOrdered(st, Keys(st));
    forall r ensures r in Backlog(st) <==> exists k :: r in Rows(st, k) && !r.published {
      BacklogMember(st, r);
    }
  }
}
