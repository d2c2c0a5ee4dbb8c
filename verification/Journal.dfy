/** The durable event journal: guarded append and forward reads (event-journal-sqlite/src/lib.rs). */
module Journal {
  import opened Common
  import opened Envelopes

  datatype JournalError = InvalidArgument | FailedPrecondition | Conflict | Corrupt

  /** Recorded blobs per stream; position `i` holds sequence `i + 1`, so the length is the head. */
  type Log = map<StreamKey, seq<Wire>>

  function Recorded(j: Log, s: StreamKey): seq<Wire> { if s in j then j[s] else [] }

  function Wires(batch: seq<Envelope>): seq<Wire> { Map(batch, ToWire) }

  // ---- Specification ----

  ghost predicate ValidBatch(s: StreamKey, expected: nat, batch: seq<Envelope>) {
    batch != [] && forall i :: 0 <= i < |batch| ==> batch[i].streamKey == s && batch[i].sequence == expected + 1 + i
  }

  ghost predicate RecordedId(j: Log, id: IdText) {
    exists s, i :: 0 <= i < |Recorded(j, s)| && Recorded(j, s)[i].eventId == id
  }

  /** The primary key on `event_id` lets the whole batch in. */
  ghost predicate FreshIds(j: Log, batch: seq<Envelope>) {
    && (forall i :: 0 <= i < |batch| ==> !RecordedId(j, batch[i].eventId))
    && (forall i, k :: 0 <= i < k < |batch| ==> batch[i].eventId != batch[k].eventId)
  }

  /** Position-by-position comparison of a batch with what is recorded. */
  function VerifyRecorded(rec: seq<Wire>, batch: seq<Envelope>): Option<JournalError> {
    if batch == [] then None
    else
      var k := batch[0].sequence;
      if k < 1 || k > |rec| then Some(FailedPrecondition)
      else if rec[k - 1] != ToWire(batch[0]) then Some(Conflict)
      else VerifyRecorded(rec, batch[1..])
  }

  lemma {:induction false} VerifiedPosition(rec: seq<Wire>, batch: seq<Envelope>, i: nat)
    requires VerifyRecorded(rec, batch).None? && i < |batch|
    ensures 1 <= batch[i].sequence <= |rec| && rec[batch[i].sequence - 1] == ToWire(batch[i])
  {
    if i > 0 {
      VerifiedPosition(rec, batch[1..], i - 1);
    }
  }

  ghost function AppendTo(j: Log, s: StreamKey, expected: nat, batch: seq<Envelope>): (Log, Result<nat, JournalError>) {
    if !ValidBatch(s, expected, batch) then (j, Err(InvalidArgument))
    else if |Recorded(j, s)| == expected then
      if FreshIds(j, batch) then (j[s := Recorded(j, s) + Wires(batch)], Ok(expected + |batch|)) else (j, Err(Conflict))
    else
      match VerifyRecorded(Recorded(j, s), batch)
      case None => (j, Ok(expected + |batch|))
      case Some(e) => (j, Err(e))
  }

  predicate RowMatches(w: Wire, s: StreamKey, position: nat) {
    w.streamKey == s && w.sequence == position + 1 && FromWire(w).Some?
  }

  ghost predicate Valid(j: Log) {
    forall s, i :: 0 <= i < |Recorded(j, s)| ==> RowMatches(Recorded(j, s)[i], s, i)
  }

  /** Rows with `sequence > from`, ascending, at most `limit`. */
  function PageRows(rec: seq<Wire>, from: nat, limit: nat): seq<Wire> {
    rec[Min(from, |rec|)..Min(from + limit, |rec|)]
  }

  predicate RowsMatch(rows: seq<Wire>, s: StreamKey, from: nat) {
    forall i :: 0 <= i < |rows| ==> RowMatches(rows[i], s, from + i)
  }

  function DecodeAll(rows: seq<Wire>, s: StreamKey, from: nat): Result<seq<Envelope>, JournalError> {
    if RowsMatch(rows, s, from)
    then Ok(seq(|rows|, i requires 0 <= i < |rows| => FromWire(rows[i]).value))
    else Err(Corrupt)
  }

  /** One forward page; a row that disagrees with its envelope fails the whole read. */
  function ReadPage(j: Log, s: StreamKey, from: nat, limit: nat): Result<seq<Envelope>, JournalError> {
    DecodeAll(PageRows(Recorded(j, s), from, limit), s, Min(from, |Recorded(j, s)|))
  }

  /** Length of the batch prefix the recorded page already holds; `None` is a divergence. */
  function MatchedPrefix(recorded: seq<Envelope>, batch: seq<Envelope>): (r: Option<nat>)
    ensures r.Some? ==> r.value <= |recorded| && r.value <= |batch|
  {
    if recorded == [] || batch == [] || recorded[0].sequence != batch[0].sequence then Some(0)
    else if recorded[0].eventId != batch[0].eventId || ToWire(recorded[0]) != ToWire(batch[0]) then None
    else match MatchedPrefix(recorded[1..], batch[1..])
         case None => None
         case Some(n) => Some(n + 1)
  }

  // ---- The journal object ----

  class EventJournal {
    var log: Log

    constructor ()
      ensures log == map[]
    {
      log := map[];
    }

    /** Validates, then inserts at the head or confirms an already recorded batch. */
    method Append(s: StreamKey, expected: nat, batch: seq<Envelope>) returns (r: Result<nat, JournalError>)
      modifies this
      ensures (log, r) == AppendTo(old(log), s, expected, batch)
    {
      var ok := ValidateBatch(s, expected, batch);
      if !ok { return Err(InvalidArgument); }
      var rec := Recorded(log, s);
      if |rec| == expected {
        var unused := CheckIds(log, batch);
        if !unused { return Err(Conflict); }
        log := log[s := rec + Wires(batch)];
      } else {
        var i := 0;
        while i < |batch|
          invariant 0 <= i <= |batch|
          invariant VerifyRecorded(rec, batch) == VerifyRecorded(rec, batch[i..])
        {
          var k := batch[i].sequence;
          if k < 1 || k > |rec| { return Err(FailedPrecondition); }
          if rec[k - 1] != ToWire(batch[i]) { return Err(Conflict); }
          assert batch[i..][1..] == batch[i + 1..];
          i := i + 1;
        }
      }
      r := Ok(expected + |batch|);
    }

    /** Builds the page row by row. */
    method ReadStream(s: StreamKey, from: nat, limit: nat) returns (r: Result<seq<Envelope>, JournalError>)
      ensures r == ReadPage(log, s, from, limit)
    {
      var rec := Recorded(log, s);
      var lo, hi := Min(from, |rec|), Min(from + limit, |rec|);
      var rows := rec[lo..hi];
      var events := [];
      for i := 0 to |rows|
        invariant forall k :: 0 <= k < i ==> RowMatches(rows[k], s, lo + k)
        invariant |events| == i && forall k :: 0 <= k < i ==> events[k] == FromWire(rows[k]).value
      {
        var decoded := FromWire(rows[i]);
        if decoded.None? || rows[i].streamKey != s || decoded.value.sequence != lo + i + 1 {
          assert !RowMatches(rows[i], s, lo + i) && !RowsMatch(rows, s, lo);
          return Err(Corrupt);
        }
        events := events + [decoded.value];
      }
      assert events == DecodeAll(rows, s, lo).value;
      r := Ok(events);
    }
  }

  method ValidateBatch(s: StreamKey, expected: nat, batch: seq<Envelope>) returns (ok: bool)
    ensures ok <==> ValidBatch(s, expected, batch)
  {
    if batch == [] { return false; }
    var next := expected + 1;
    for i := 0 to |batch|
      invariant next == expected + 1 + i
      invariant forall k :: 0 <= k < i ==> batch[k].streamKey == s && batch[k].sequence == expected + 1 + k
    {
      if batch[i].streamKey != s || batch[i].sequence != next { return false; }
      next := next + 1;
    }
    ok := true;
  }

  /** What the primary key on `event_id` decides, one insert after the other. */
  method CheckIds(j: Log, batch: seq<Envelope>) returns (unused: bool)
    ensures unused <==> FreshIds(j, batch)
  {
    var taken := set s, w | s in j && w in j[s] :: w.eventId;
    forall id: IdText ensures id in taken <==> RecordedId(j, id) {
      if id in taken {
        var s, w :| s in j && w in j[s] && w.eventId == id;
        var i :| 0 <= i < |j[s]| && j[s][i] == w;
        assert Recorded(j, s)[i].eventId == id;
      }
    }
    for i := 0 to |batch|
      invariant forall k :: 0 <= k < i ==> !RecordedId(j, batch[k].eventId)
      invariant forall k, m :: 0 <= k < m < i ==> batch[k].eventId != batch[m].eventId
      invariant forall id: IdText :: id in taken <==> RecordedId(j, id) || exists k :: 0 <= k < i && batch[k].eventId == id
    {
      if batch[i].eventId in taken { return false; }
      taken := taken + {batch[i].eventId};
    }
    unused := true;
  }

  /** The dispatcher's counter loop over a recorded page and a pending batch. */
  method RecordedPrefix(recorded: seq<Envelope>, batch: seq<Envelope>) returns (r: Option<nat>)
    ensures r == MatchedPrefix(recorded, batch)
  {
    var matched := 0;
    while matched < |recorded| && matched < |batch|
      invariant 0 <= matched <= |recorded| && matched <= |batch|
      invariant MatchedPrefix(recorded, batch) ==
                match MatchedPrefix(recorded[matched..], batch[matched..])
                case None => None
                case Some(n) => Some(matched + n)
    {
      var existing, pending := recorded[matched], batch[matched];
      if existing.sequence != pending.sequence { break; }
      if existing.eventId != pending.eventId || ToWire(existing) != ToWire(pending) { return None; }
      assert recorded[matched..][1..] == recorded[matched + 1..];
      assert batch[matched..][1..] == batch[matched + 1..];
      matched := matched + 1;
    }
    r := Some(matched);
  }

  // ---- Every sequence of appends ----

  /** The batch sits in the record right after position `from`. */
  ghost predicate Sits(rec: seq<Wire>, batch: seq<Envelope>, from: nat) {
    && from + |batch| <= |rec|
    && forall i :: 0 <= i < |batch| ==> batch[i].sequence == from + 1 + i && rec[from + i] == ToWire(batch[i])
  }

  lemma {:induction false} VerifiesAt(rec: seq<Wire>, batch: seq<Envelope>, from: nat)
    requires Sits(rec, batch, from)
    ensures VerifyRecorded(rec, batch).None?
    decreases |batch|
  {
    if batch != [] {
      VerifiesAt(rec, batch[1..], from + 1);
    }
  }

  lemma {:induction false} SitsAtEnd(rec: seq<Wire>, s: StreamKey, batch: seq<Envelope>)
    requires ValidBatch(s, |rec|, batch)
    ensures Sits(rec + Wires(batch), batch, |rec|)
  {
  }

  lemma {:induction false} ConfirmsBehindHead(j: Log, s: StreamKey, expected: nat, batch: seq<Envelope>)
    requires ValidBatch(s, expected, batch) && |Recorded(j, s)| != expected && VerifyRecorded(Recorded(j, s), batch).None?
    ensures AppendTo(j, s, expected, batch) == (j, Ok(expected + |batch|))
  {
  }

  /** An append that succeeded can be repeated: it succeeds again and changes nothing. */
  lemma {:induction false} AppendIsIdempotent(j: Log, s: StreamKey, expected: nat, batch: seq<Envelope>)
    requires AppendTo(j, s, expected, batch).1.Ok?
    ensures var (j', r) := AppendTo(j, s, expected, batch); AppendTo(j', s, expected, batch) == (j', r)
  {
    if |Recorded(j, s)| == expected {
      SitsAtEnd(Recorded(j, s), s, batch);
      VerifiesAt(Recorded(j, s) + Wires(batch), batch, expected);
      ConfirmsBehindHead(j[s := Recorded(j, s) + Wires(batch)], s, expected, batch);
    }
  }

  /** The first `n` events of the batch are recorded right after `from`, byte for byte. */
  ghost predicate RecordedUpTo(rec: seq<Wire>, batch: seq<Envelope>, from: nat, n: nat) {
    n <= |batch| && from + n <= |rec| && forall i :: 0 <= i < n ==> rec[from + i] == ToWire(batch[i])
  }

  /** Verification is decided at the first event that is not recorded as it is: none, past the head, or different. */
  lemma {:induction false} VerifyMeans(rec: seq<Wire>, batch: seq<Envelope>, from: nat) returns (n: nat)
    requires from <= |rec| && forall i :: 0 <= i < |batch| ==> batch[i].sequence == from + 1 + i
    ensures RecordedUpTo(rec, batch, from, n)
    ensures VerifyRecorded(rec, batch) ==
              if n == |batch| then None else if from + n == |rec| then Some(FailedPrecondition) else Some(Conflict)
    ensures n < |batch| && from + n < |rec| ==> rec[from + n] != ToWire(batch[n])
    decreases |batch|
  {
    if batch == [] || from == |rec| || rec[from] != ToWire(batch[0]) {
      n := 0;
    } else {
      var m := VerifyMeans(rec, batch[1..], from + 1);
      n := m + 1;
      forall i | 0 <= i < n ensures rec[from + i] == ToWire(batch[i]) {
        if i > 0 { assert batch[1..][i - 1] == batch[i]; }
      }
    }
  }

  /**
   * What an append answers and does. A malformed batch is refused. At the head it is inserted exactly when
   * its ids are new. Elsewhere nothing is written: it succeeds exactly when it is recorded at its place.
   */
  lemma {:induction false} AppendMeans(j: Log, s: StreamKey, expected: nat, batch: seq<Envelope>)
    ensures var (j', r) := AppendTo(j, s, expected, batch);
            && (r == Err(InvalidArgument) <==> !ValidBatch(s, expected, batch))
            && (forall k :: k != s ==> Recorded(j', k) == Recorded(j, k))
            && (r.Ok? ==> r.value == expected + |batch|)
            && (ValidBatch(s, expected, batch) && |Recorded(j, s)| == expected ==>
                  if FreshIds(j, batch) then r.Ok? && Recorded(j', s) == Recorded(j, s) + Wires(batch)
                  else r == Err(Conflict) && j' == j)
            && (ValidBatch(s, expected, batch) && |Recorded(j, s)| != expected ==>
                  j' == j && (r.Ok? <==> RecordedUpTo(Recorded(j, s), batch, expected, |batch|)))
  {
    if ValidBatch(s, expected, batch) && |Recorded(j, s)| > expected {
      var n := VerifyMeans(Recorded(j, s), batch, expected);
      if n < |batch| && expected + n < |Recorded(j, s)| {
        assert !RecordedUpTo(Recorded(j, s), batch, expected, |batch|);
      }
    }
  }

  /**
   * The recorded prefix is decided at the first place where page and batch differ: where one ends or the
   * sequences part it is the length so far; where only identity or bytes differ it is a divergence.
   */
  lemma {:induction false} PrefixMeans(recorded: seq<Envelope>, batch: seq<Envelope>) returns (n: nat)
    ensures n <= |recorded| && n <= |batch|
    ensures forall i :: 0 <= i < n ==>
              recorded[i].sequence == batch[i].sequence && recorded[i].eventId == batch[i].eventId && ToWire(recorded[i]) == ToWire(batch[i])
    ensures n < |recorded| && n < |batch| && recorded[n].sequence == batch[n].sequence ==>
              recorded[n].eventId != batch[n].eventId || ToWire(recorded[n]) != ToWire(batch[n])
    ensures MatchedPrefix(recorded, batch) ==
              if n < |recorded| && n < |batch| && recorded[n].sequence == batch[n].sequence then None else Some(n)
    decreases |batch|
  {
    if recorded == [] || batch == [] || recorded[0].sequence != batch[0].sequence
       || recorded[0].eventId != batch[0].eventId || ToWire(recorded[0]) != ToWire(batch[0]) {
      n := 0;
    } else {
      var m := PrefixMeans(recorded[1..], batch[1..]);
      n := m + 1;
      forall i | 0 <= i < n
        ensures recorded[i].sequence == batch[i].sequence && recorded[i].eventId == batch[i].eventId && ToWire(recorded[i]) == ToWire(batch[i])
      {
        if i > 0 { assert recorded[1..][i - 1] == recorded[i] && batch[1..][i - 1] == batch[i]; }
      }
    }
  }

  datatype AppendCall = AppendCall(stream: StreamKey, expected: nat, batch: seq<Envelope>)

  ghost function LogAfter(calls: seq<AppendCall>): Log {
    if calls == [] then map[]
    else
      var call := calls[|calls| - 1];
      AppendTo(LogAfter(calls[..|calls| - 1]), call.stream, call.expected, call.batch).0
  }

  ghost predicate AllStorable(batch: seq<Envelope>) { forall i :: 0 <= i < |batch| ==> Storable(batch[i]) }

  lemma {:induction false} AppendKeepsValid(j: Log, s: StreamKey, expected: nat, batch: seq<Envelope>)
    requires Valid(j) && AllStorable(batch)
    ensures Valid(AppendTo(j, s, expected, batch).0)
  {
    var j' := AppendTo(j, s, expected, batch).0;
    forall t, i | 0 <= i < |Recorded(j', t)| ensures RowMatches(Recorded(j', t)[i], t, i) {
      if t == s && i >= |Recorded(j, s)| {
        StoredEnvelopeSurvives(batch[i - expected]);
      } else {
        assert RowMatches(Recorded(j, t)[i], t, i);
      }
    }
  }

  lemma {:induction false} LogIsValid(calls: seq<AppendCall>)
    requires forall i :: 0 <= i < |calls| ==> AllStorable(calls[i].batch)
    ensures Valid(LogAfter(calls))
  {
    if calls != [] {
      var n := |calls| - 1;
      LogIsValid(calls[..n]);
      AppendKeepsValid(LogAfter(calls[..n]), calls[n].stream, calls[n].expected, calls[n].batch);
    }
  }

  /** The page holds the next events of the stream, consecutively, up to the limit or the head. */
  ghost predicate IsPage(rec: seq<Wire>, s: StreamKey, from: nat, limit: nat, page: seq<Envelope>) {
    && |page| == Min(limit, |rec| - Min(from, |rec|))
    && forall i :: 0 <= i < |page| ==>
         page[i].streamKey == s && page[i].sequence == from + 1 + i && FromWire(rec[from + i]) == Some(page[i])
  }

  lemma {:induction false} ValidPageRows(j: Log, s: StreamKey, from: nat, limit: nat)
    requires Valid(j)
    ensures RowsMatch(PageRows(Recorded(j, s), from, limit), s, Min(from, |Recorded(j, s)|))
  {
    var rec, at := Recorded(j, s), Min(from, |Recorded(j, s)|);
    forall i | 0 <= i < |PageRows(rec, from, limit)| ensures RowMatches(PageRows(rec, from, limit)[i], s, at + i) {
      assert RowMatches(rec[at + i], s, at + i);
    }
  }

  lemma {:induction false} ValidReads(j: Log, s: StreamKey, from: nat, limit: nat)
    requires Valid(j)
    ensures ReadPage(j, s, from, limit).Ok? && IsPage(Recorded(j, s), s, from, limit, ReadPage(j, s, from, limit).value)
  {
    ValidPageRows(j, s, from, limit);
  }

  /** The row is an event of the stream, at its own place, with everything an envelope must have. */
  predicate Readable(w: Wire, s: StreamKey, position: nat) {
    && w.streamKey == s && w.sequence == position + 1 && w.eventId.text != "" && IsCanonicalStream(s)
    && !w.sensitivity.NoSensitivity? && !w.retention.NoRetention?
  }

  /** A page is read exactly when each of its rows is readable, whatever else the journal holds. */
  lemma {:induction false} ReadMeans(j: Log, s: StreamKey, from: nat, limit: nat)
    ensures var rec, page := Recorded(j, s), ReadPage(j, s, from, limit);
            && (page.Ok? <==> forall p :: from <= p < from + limit && p < |rec| ==> Readable(rec[p], s, p))
            && (page.Ok? ==> IsPage(rec, s, from, limit, page.value))
  {
    var rec, rows := Recorded(j, s), PageRows(Recorded(j, s), from, limit);
    var at := Min(from, |rec|);
    forall i | 0 <= i < |rows| ensures RowMatches(rows[i], s, at + i) == Readable(rec[from + i], s, from + i) {
    }
    if RowsMatch(rows, s, at) {
      forall p | from <= p < from + limit && p < |rec| ensures Readable(rec[p], s, p) {
        assert RowMatches(rows[p - from], s, at + (p - from));
      }
    }
  }

  /**
   * A journal that only ever saw decodable envelopes reads back without an error, whatever was refused
   * on the way.
   */
  lemma {:induction false} JournalReadsBack(calls: seq<AppendCall>, s: StreamKey, from: nat, limit: nat)
    requires forall i :: 0 <= i < |calls| ==> AllStorable(calls[i].batch)
    ensures var page := ReadPage(LogAfter(calls), s, from, limit);
            page.Ok? && IsPage(Recorded(LogAfter(calls), s), s, from, limit, page.value)
  {
    LogIsValid(calls);
    ValidReads(LogAfter(calls), s, from, limit);
  }
}
