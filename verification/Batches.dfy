/** How a scan of the outbox becomes per-stream batches (events/src/dispatcher.rs, lines 96-112). */
module Batches {
  import opened Common
  import opened Envelopes
  import opened Outbox

  datatype Group = Group(stream: StreamKey, batch: seq<Envelope>)

  /** Adds one row to the groups: to the last one when the stream repeats, else to a new one. */
  function PushRow(groups: seq<Group>, r: Row): seq<Group> {
    var n := |groups|;
    if n > 0 && groups[n - 1].stream == r.event.streamKey
    then groups[..n - 1] + [Group(r.event.streamKey, groups[n - 1].batch + [EnvelopeFromRow(r)])]
    else groups + [Group(r.event.streamKey, [EnvelopeFromRow(r)])]
  }

  function GroupRows(rows: seq<Row>): seq<Group> {
    if rows == [] then [] else PushRow(GroupRows(rows[..|rows| - 1]), rows[|rows| - 1])
  }

  /** The grouping loop; a row whose stream key is not canonical fails the iteration. */
  method BuildGroups(rows: seq<Row>) returns (r: Option<seq<Group>>)
    ensures r.Some? <==> forall x :: x in rows ==> IsCanonicalStream(x.event.streamKey)
    ensures r.Some? ==> r.value == GroupRows(rows)
  {
    var groups := [];
    for i := 0 to |rows|
      invariant groups == GroupRows(rows[..i])
      invariant forall k :: 0 <= k < i ==> IsCanonicalStream(rows[k].event.streamKey)
    {
      if !IsCanonicalStream(rows[i].event.streamKey) { return None; }
      assert rows[..i + 1][..i] == rows[..i];
      groups := PushRow(groups, rows[i]);
    }
    assert rows[..|rows|] == rows;
    r := Some(groups);
  }

  /** Every event of the groups, in order. */
  function Flat(groups: seq<Group>): seq<Envelope> {
    if groups == [] then [] else groups[0].batch + Flat(groups[1..])
  }

  lemma {:induction false} GroupRowsLast(rows: seq<Row>)
    requires rows != []
    ensures var g := GroupRows(rows); g != [] && g[|g| - 1].stream == rows[|rows| - 1].event.streamKey
  {
  }

  lemma {:induction false} GroupUniform(rows: seq<Row>, s: StreamKey)
    requires rows != [] && forall r :: r in rows ==> r.event.streamKey == s
    ensures GroupRows(rows) == [Group(s, Map(rows, EnvelopeFromRow))]
  {
    var n := |rows| - 1;
    var init := rows[..n];
    assert rows == init + [rows[n]];
    if n == 0 {
      assert GroupRows(init) == [];
      assert Map(rows, EnvelopeFromRow) == [EnvelopeFromRow(rows[n])];
    } else {
      GroupUniform(init, s);
      assert Map(rows, EnvelopeFromRow) == Map(init, EnvelopeFromRow) + [EnvelopeFromRow(rows[n])];
    }
  }

  /** Grouping works stream by stream when the boundary separates two streams. */
  lemma {:induction false} GroupAppend(a: seq<Row>, b: seq<Row>)
    requires a == [] || b == [] || a[|a| - 1].event.streamKey != b[0].event.streamKey
    ensures GroupRows(a + b) == GroupRows(a) + GroupRows(b)
  {
    if b == [] {
      assert a + b == a;
    } else if a == [] {
      assert a + b == b;
    } else {
      var n := |b| - 1;
      var init := b[..n];
      assert (a + b)[..|a + b| - 1] == a + init && (a + b)[|a + b| - 1] == b[n];
      var ga := GroupRows(a);
      if n == 0 {
        assert a + init == a && b == [b[0]];
        GroupRowsLast(a);
        assert PushRow(ga, b[0]) == ga + [Group(b[0].event.streamKey, [EnvelopeFromRow(b[0])])];
        GroupUniform(b, b[0].event.streamKey);
      } else {
        GroupAppend(a, init);
        GroupRowsLast(init);
        PushAfter(ga, GroupRows(init), b[n]);
      }
    }
  }

  lemma {:induction false} PushAfter(a: seq<Group>, b: seq<Group>, r: Row)
    requires b != []
    ensures PushRow(a + b, r) == a + PushRow(b, r)
  {
    var n := |a + b|;
    assert (a + b)[n - 1] == b[|b| - 1];
    assert (a + b)[..n - 1] == a + b[..|b| - 1];
  }

  /** `g` holds the rows of its stream at positions `a`, `a + 1`, ... */
  ghost predicate SliceAt(st: Store, g: Group, a: nat) {
    && g.batch != []
    && a + |g.batch| <= |Rows(st, g.stream)|
    && (forall i :: 0 <= i < |g.batch| ==> g.batch[i] == Events(st, g.stream)[a + i])
  }

  ghost predicate DistinctStreams(groups: seq<Group>) {
    forall i, j :: 0 <= i < j < |groups| ==> groups[i].stream != groups[j].stream
  }

  // ---- The scan, stream by stream ----

  /** How many rows of the first stream a scan takes. */
  function Quota(st: Store, k: StreamKey, limit: nat): nat { Min(limit, |OpenRows(Rows(st, k))|) }

  function TakenRows(st: Store, k: StreamKey, limit: nat): seq<Row> { OpenRows(Rows(st, k))[..Quota(st, k, limit)] }

  /** What is left of the limit goes to the next stream. */
  function Cut(st: Store, keys: seq<StreamKey>, limit: nat): seq<Row> {
    if keys == [] then []
    else TakenRows(st, keys[0], limit) + Cut(st, keys[1..], limit - Quota(st, keys[0], limit))
  }

  lemma {:induction false} CutIsBacklogPrefix(st: Store, keys: seq<StreamKey>, limit: nat)
    ensures Cut(st, keys, limit) == Unpublished(st, keys)[..Min(limit, |Unpublished(st, keys)|)]
  {
    if keys != [] {
      var open := OpenRows(Rows(st, keys[0]));
      var n := Min(limit, |open|);
      CutIsBacklogPrefix(st, keys[1..], limit - n);
      if n < |open| {
        assert Cut(st, keys[1..], 0) == [];
      } else {
        assert open[..n] == open;
      }
    }
  }

  function StreamGroup(st: Store, k: StreamKey, limit: nat): seq<Group> {
    var taken := TakenRows(st, k, limit);
    if taken == [] then [] else [Group(k, Map(taken, EnvelopeFromRow))]
  }

  function CutGroups(st: Store, keys: seq<StreamKey>, limit: nat): seq<Group> {
    if keys == [] then []
    else StreamGroup(st, keys[0], limit) + CutGroups(st, keys[1..], limit - Quota(st, keys[0], limit))
  }

  lemma {:induction false} TakenIsSlice(st: Store, k: StreamKey, limit: nat)
    requires StreamValid(st, k)
    ensures forall r :: r in TakenRows(st, k, limit) ==> r.event.streamKey == k
    ensures forall g :: g in StreamGroup(st, k, limit) ==> g.stream == k && SliceAt(st, g, Marked(Rows(st, k)))
  {
    var rows := Rows(st, k);
    OpenIsSuffix(rows);
    var taken := TakenRows(st, k, limit);
    assert taken == rows[Marked(rows)..Marked(rows) + |taken|];
  }

  /** A group starts at its stream's first unpublished row. */
  ghost predicate Scanned(st: Store, g: Group) { SliceAt(st, g, Marked(Rows(st, g.stream))) }

  lemma {:induction false} HeadGroup(st: Store, k: StreamKey, left: nat)
    requires StreamValid(st, k)
    ensures Quota(st, k, left) == 0 ==> StreamGroup(st, k, left) == []
    ensures Quota(st, k, left) > 0 ==>
              var head := StreamGroup(st, k, left);
              |head| == 1 && head[0].stream == k && |head[0].batch| == Quota(st, k, left) && Scanned(st, head[0])
  {
    TakenIsSlice(st, k, left);
    if Quota(st, k, left) > 0 {
      assert StreamGroup(st, k, left)[0] in StreamGroup(st, k, left);
    }
  }

  lemma {:induction false} CutHead(st: Store, keys: seq<StreamKey>, limit: nat)
    requires StreamsValid(st) && Cut(st, keys, limit) != []
    ensures Cut(st, keys, limit)[0].event.streamKey in keys
  {
    assert StreamValid(st, keys[0]);
    TakenIsSlice(st, keys[0], limit);
    if TakenRows(st, keys[0], limit) == [] {
      CutHead(st, keys[1..], limit);
    } else {
      assert Cut(st, keys, limit)[0] == TakenRows(st, keys[0], limit)[0];
    }
  }

  lemma {:induction false} HeadIsNew<T>(keys: seq<T>)
    requires keys != [] && Distinct(keys)
    ensures keys[0] !in keys[1..] && Distinct(keys[1..])
  {
  }

  lemma {:induction false} GroupStream(st: Store, k: StreamKey, limit: nat, rest: seq<Row>)
    requires StreamValid(st, k) && (rest != [] ==> rest[0].event.streamKey != k)
    ensures GroupRows(TakenRows(st, k, limit) + rest) == StreamGroup(st, k, limit) + GroupRows(rest)
  {
    var taken := TakenRows(st, k, limit);
    TakenIsSlice(st, k, limit);
    if taken == [] {
      assert taken + rest == rest;
    } else {
      GroupAppend(taken, rest);
      GroupUniform(taken, k);
    }
  }

  /** What follows a stream's rows in the scan belongs to another stream. */
  lemma {:induction false} RestIsElsewhere(st: Store, keys: seq<StreamKey>, left: nat)
    requires StreamsValid(st) && keys != [] && Distinct(keys)
    ensures var rest := Cut(st, keys[1..], left); rest != [] ==> rest[0].event.streamKey != keys[0]
  {
    HeadIsNew(keys);
    if Cut(st, keys[1..], left) != [] { CutHead(st, keys[1..], left); }
  }

  /** The grouping loop turns the scan into one group per stream. */
  lemma {:induction false} GroupsOfCut(st: Store, keys: seq<StreamKey>, limit: nat)
    requires StreamsValid(st) && Distinct(keys)
    ensures GroupRows(Cut(st, keys, limit)) == CutGroups(st, keys, limit)
    decreases |keys|
  {
    if keys != [] {
      var left := limit - Quota(st, keys[0], limit);
      HeadIsNew(keys);
      GroupsOfCut(st, keys[1..], left);
      RestIsElsewhere(st, keys, left);
      assert StreamValid(st, keys[0]);
      GroupStream(st, keys[0], limit, Cut(st, keys[1..], left));
    }
  }

  lemma {:induction false} CutGroupsAt(st: Store, keys: seq<StreamKey>, limit: nat, i: nat)
    requires i < |CutGroups(st, keys, limit)|
    ensures keys != []
    ensures var head, tail := StreamGroup(st, keys[0], limit), CutGroups(st, keys[1..], limit - Quota(st, keys[0], limit));
            if i < |head| then CutGroups(st, keys, limit)[i] == head[i]
            else i - |head| < |tail| && CutGroups(st, keys, limit)[i] == tail[i - |head|]
  {
  }

  lemma {:induction false} HeadScanned(st: Store, k: StreamKey, limit: nat, i: nat)
    requires StreamValid(st, k) && i < |StreamGroup(st, k, limit)|
    ensures var g := StreamGroup(st, k, limit)[i]; g.stream == k && Scanned(st, g)
  {
    HeadGroup(st, k, limit);
  }

  lemma {:induction false} CutGroupsScanned(st: Store, keys: seq<StreamKey>, limit: nat, i: nat)
    requires StreamsValid(st) && i < |CutGroups(st, keys, limit)|
    ensures var g := CutGroups(st, keys, limit)[i]; g.stream in keys && Scanned(st, g)
    decreases |keys|
  {
    CutGroupsAt(st, keys, limit, i);
    var n := |StreamGroup(st, keys[0], limit)|;
    if i < n {
      assert StreamValid(st, keys[0]);
      HeadScanned(st, keys[0], limit, i);
    } else {
      CutGroupsScanned(st, keys[1..], limit - Quota(st, keys[0], limit), i - n);
    }
  }

  lemma {:induction false} CutGroupsDistinct(st: Store, keys: seq<StreamKey>, limit: nat)
    requires StreamsValid(st) && Distinct(keys)
    ensures DistinctStreams(CutGroups(st, keys, limit))
  {
    if keys != [] {
      var left := limit - Quota(st, keys[0], limit);
      HeadIsNew(keys);
      CutGroupsDistinct(st, keys[1..], left);
      var head, tail := StreamGroup(st, keys[0], limit), CutGroups(st, keys[1..], left);
      forall i | 0 <= i < |tail| ensures tail[i].stream != keys[0] {
        CutGroupsScanned(st, keys[1..], left, i);
      }
    }
  }

  lemma {:induction false} FlatHead(head: seq<Group>, tail: seq<Group>)
    requires |head| <= 1
    ensures Flat(head + tail) == Flat(head) + Flat(tail)
  {
    if head != [] {
      assert (head + tail)[1..] == tail && head[1..] == [];
    } else {
      assert head + tail == tail;
    }
  }

  lemma {:induction false} CutGroupsFlat(st: Store, keys: seq<StreamKey>, limit: nat)
    ensures Flat(CutGroups(st, keys, limit)) == Map(Cut(st, keys, limit), EnvelopeFromRow)
  {
    if keys != [] {
      var left := limit - Quota(st, keys[0], limit);
      var taken, rest := TakenRows(st, keys[0], limit), Cut(st, keys[1..], left);
      CutGroupsFlat(st, keys[1..], left);
      FlatHead(StreamGroup(st, keys[0], limit), CutGroups(st, keys[1..], left));
      assert Flat(StreamGroup(st, keys[0], limit)) == Map(taken, EnvelopeFromRow);
      MapAppend(taken, rest, EnvelopeFromRow);
    }
  }

  /** What the dispatcher gets out of a scan. */
  ghost predicate WellGrouped(st: Store, rows: seq<Row>, groups: seq<Group>) {
    && (forall i :: 0 <= i < |groups| ==> Scanned(st, groups[i]))
    && DistinctStreams(groups)
    && Flat(groups) == Map(rows, EnvelopeFromRow)
  }

  /**
   * Each group of a scan is a contiguous run of one stream that starts at its first unpublished row,
   * no stream has two groups, and the groups hold exactly the scanned rows in order.
   */
  lemma {:induction false} ScanGroups(st: Store, limit: nat)
    requires StreamsValid(st)
    ensures WellGrouped(st, Outbox.Scan(st, limit), GroupRows(Outbox.Scan(st, limit)))
  {
    var keys := Keys(st);
    KeysOf(st);
    CutIsBacklogPrefix(st, keys, limit);
    assert Outbox.Scan(st, limit) == Cut(st, keys, limit);
    GroupsOfCut(st, keys, limit);
    forall i | 0 <= i < |CutGroups(st, keys, limit)| ensures Scanned(st, CutGroups(st, keys, limit)[i]) {
      CutGroupsScanned(st, keys, limit, i);
    }
    CutGroupsDistinct(st, keys, limit);
    CutGroupsFlat(st, keys, limit);
  }
}
