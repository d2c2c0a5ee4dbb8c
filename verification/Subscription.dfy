/** The two loops of a subscription: paged replay, then live items (control-api/src/event_service.rs). */
module Subscription {
  import opened Common
  import opened Envelopes
  import opened Journal
  import opened Pipeline

  // ---- Replay ----

  /** The client frame of a recorded row that decodes. */
  function Frame(w: Wire): Wire { if FromWire(w).Some? then Project(FromWire(w).value) else w }

  lemma {:induction false} PageFrames(log: Log, stream: StreamKey, from: nat, limit: nat)
    requires from <= |Recorded(log, stream)|
    ensures var rec, page := Recorded(log, stream), ReadPage(log, stream, from, limit);
            var rows := rec[from..Min(from + limit, |rec|)];
            && (page.Ok? <==> RowsMatch(rows, stream, from))
            && (page.Ok? ==> |page.value| == |rows| && Map(page.value, Project) == Map(rows, Frame))
            && (page.Ok? && rows != [] ==> page.value[|rows| - 1].sequence == from + |rows|)
  {
  }

  lemma {:induction false} PageMatches(rec: seq<Wire>, stream: StreamKey, lo: nat, mid: nat, hi: nat)
    requires lo <= mid <= hi <= |rec|
    ensures RowsMatch(rec[lo..hi], stream, lo) <==> RowsMatch(rec[lo..mid], stream, lo) && RowsMatch(rec[mid..hi], stream, mid)
  {
    if RowsMatch(rec[lo..hi], stream, lo) {
      assert forall i :: 0 <= i < mid - lo ==> rec[lo..mid][i] == rec[lo..hi][i];
      assert forall i :: 0 <= i < hi - mid ==> rec[mid..hi][i] == rec[lo..hi][mid - lo + i];
    }
    if RowsMatch(rec[lo..mid], stream, lo) && RowsMatch(rec[mid..hi], stream, mid) {
      forall i | 0 <= i < hi - lo ensures RowMatches(rec[lo..hi][i], stream, lo + i) {
        if i < mid - lo {
          assert rec[lo..hi][i] == rec[lo..mid][i];
        } else {
          assert rec[lo..hi][i] == rec[mid..hi][i - (mid - lo)];
        }
      }
    }
  }

  lemma {:induction false} FramesAppend(rec: seq<Wire>, lo: nat, mid: nat, hi: nat)
    requires lo <= mid <= hi <= |rec|
    ensures Map(rec[lo..mid], Frame) + Map(rec[mid..hi], Frame) == Map(rec[lo..hi], Frame)
  {
  }

  /** `c'` is `c` after it was sent the rows from its cursor up to `c'.last`. */
  ghost predicate Sent(rec: seq<Wire>, c: Client, c': Client) {
    && c.last <= c'.last <= |rec|
    && c' == c.(last := c'.last, seen := c.seen + Map(rec[c.last..c'.last], Frame))
    && RowsMatch(rec[c.last..c'.last], c.stream, c.last)
  }

  lemma {:induction false} MoreSent(rec: seq<Wire>, c: Client, c': Client, hi: nat)
    requires Sent(rec, c, c') && c'.last <= hi <= |rec| && RowsMatch(rec[c'.last..hi], c.stream, c'.last)
    ensures Sent(rec, c, c'.(last := hi, seen := c'.seen + Map(rec[c'.last..hi], Frame)))
  {
    FramesAppend(rec, c.last, c'.last, hi);
    Associative(c.seen, Map(rec[c.last..c'.last], Frame), Map(rec[c'.last..hi], Frame));
    PageMatches(rec, c.stream, c.last, c'.last, hi);
  }

  lemma {:induction false} BadRows(rec: seq<Wire>, stream: StreamKey, lo: nat, mid: nat, hi: nat)
    requires lo <= mid <= hi <= |rec| && !RowsMatch(rec[mid..hi], stream, mid)
    ensures !RowsMatch(rec[lo..|rec|], stream, lo)
  {
    PageMatches(rec, stream, lo, mid, |rec|);
    PageMatches(rec, stream, mid, hi, |rec|);
  }

  lemma {:induction false} PageMoves(log: Log, c: Client, hi: nat)
    requires c.last < |Recorded(log, c.stream)| && hi == Min(c.last + PAGE, |Recorded(log, c.stream)|)
    requires ReadPage(log, c.stream, c.last, PAGE).Ok?
    ensures RowsMatch(Recorded(log, c.stream)[c.last..hi], c.stream, c.last)
    ensures OnPage(c, ReadPage(log, c.stream, c.last, PAGE)) ==
              c.(last := hi, seen := c.seen + Map(Recorded(log, c.stream)[c.last..hi], Frame))
  {
    PageFrames(log, c.stream, c.last, PAGE);
  }

  lemma {:induction false} PageSent(log: Log, c: Client, c': Client)
    requires Sent(Recorded(log, c.stream), c, c') && c'.last < |Recorded(log, c.stream)|
    ensures var rec, page := Recorded(log, c.stream), ReadPage(log, c.stream, c'.last, PAGE);
            var next := OnPage(c', page);
            && (page.Ok? ==> c'.last < next.last && Sent(rec, c, next))
            && (page.Err? ==> next == c'.(phase := Gone) && !RowsMatch(rec[c.last..|rec|], c.stream, c.last))
  {
    var rec := Recorded(log, c.stream);
    var hi := Min(c'.last + PAGE, |rec|);
    if ReadPage(log, c.stream, c'.last, PAGE).Ok? {
      PageMoves(log, c', hi);
      MoreSent(rec, c, c', hi);
    } else {
      PageFrames(log, c.stream, c'.last, PAGE);
      BadRows(rec, c.stream, c.last, c'.last, hi);
    }
  }

  /** What replaying a journal with rows `rec` makes of a client. */
  ghost predicate Replayed(rec: seq<Wire>, c: Client, c': Client) {
    if c.last >= |rec| then c' == c.(phase := Live)
    else if RowsMatch(rec[c.last..|rec|], c.stream, c.last)
    then c' == c.(phase := Live, last := |rec|, seen := c.seen + Map(rec[c.last..|rec|], Frame))
    else c'.phase.Gone? && Sent(rec, c.(phase := Gone), c')
  }

  /**
   * Reading 256 rows at a time sends exactly what one unbounded read after the cursor holds; a row
   * that fails to decode ends the replay, and what was sent before it is still an exact prefix. A
   * cursor at or past the head replays nothing.
   */
  method Replay(log: Log, c: Client) returns (c': Client)
    requires c.phase.Replaying?
    ensures Replayed(Recorded(log, c.stream), c, c')
  {
    var rec := Recorded(log, c.stream);
    c' := c;
    if c.last < |rec| {
      assert Map(rec[c.last..c.last], Frame) == [] && c.seen + [] == c.seen;
      while c'.last < |rec|
        invariant Sent(rec, c, c')
        decreases |rec| - c'.last
      {
        var page := ReadPage(log, c.stream, c'.last, PAGE);
        PageSent(log, c, c');
        c' := OnPage(c', page);
        if page.Err? { return; }
      }
    }
    c' := c'.(phase := Live);
  }

  // ---- The bus subscription ----

  datatype LiveItem = Event(event: Envelope) | Overrun | Closed

  datatype Cursor = Cursor(stream: StreamKey, sequence: nat)

  function CursorOf(e: Envelope): Cursor { Cursor(e.streamKey, e.sequence) }

  /** What a receiver at `pos` is given; on an open bus without news it goes on waiting. */
  function NextItem(bus: seq<Envelope>, pos: nat, capacity: nat, open: bool): Option<LiveItem>
    requires pos <= |bus|
  {
    if |bus| - pos > capacity then Some(Overrun)
    else if pos < |bus| then Some(Event(bus[pos]))
    else if open then None
    else Some(Closed)
  }

  /** A receiver on the bounded bus; everything it delivered is a contiguous run of what was broadcast. */
  class LiveSubscription {
    var pos: nat
    var lastDelivered: Option<Cursor>
    var ended: bool
    const start: nat

    ghost predicate Valid(bus: seq<Envelope>)
      reads this
    {
      && start <= pos <= |bus|
      && (!ended ==> lastDelivered == if pos == start then None else Some(CursorOf(bus[pos - 1])))
    }

    constructor (bus: seq<Envelope>)
      ensures Valid(bus) && start == pos == |bus| && !ended
    {
      pos, start, lastDelivered, ended := |bus|, |bus|, None, false;
    }

    /**
     * The next item: the event right after the last one, unless more than `capacity` wait; none yet while
     * an open bus holds nothing new. Lag and closure end the subscription; the cursor reported on lag is
     * the last one delivered, or none.
     */
    method Next(bus: seq<Envelope>, capacity: nat, open: bool) returns (item: Option<LiveItem>, resume: Option<Cursor>)
      requires Valid(bus) && !ended
      modifies this
      ensures Valid(bus)
      ensures item == NextItem(bus, old(pos), capacity, open)
      ensures item == Some(Overrun) <==> |bus| - old(pos) > capacity
      ensures item.Some? && item.value.Event? ==> old(pos) < |bus| && item.value.event == bus[old(pos)]
      ensures |bus| - old(pos) <= capacity && old(pos) < |bus| ==> item.Some? && item.value.Event?
      ensures item.None? <==> open && old(pos) == |bus|
      ensures pos == if item.Some? && item.value.Event? then old(pos) + 1 else old(pos)
      ensures ended <==> item.Some? && !item.value.Event?
      ensures item == Some(Overrun) ==> resume == if pos == start then None else Some(CursorOf(bus[pos - 1]))
    {
      item, resume := None, None;
      if |bus| - pos > capacity {
        ended := true;
        resume := lastDelivered;
        lastDelivered := None;
        item := Some(Overrun);
      } else if pos < |bus| {
        lastDelivered := Some(CursorOf(bus[pos]));
        item := Some(Event(bus[pos]));
        pos := pos + 1;
      } else if !open {
        ended := true;
        item := Some(Closed);
      }
    }
  }

  // ---- Live ----

  /** Frames sent to the client in the live phase; a lag notice carries where to resume. */
  datatype Notice = NoNotice | Lag(resume: nat)

  /** The items of the client's own stream that move its cursor, in order. */
  function Fresh(items: seq<LiveItem>, stream: StreamKey, last: nat): seq<Envelope>
    decreases |items|
  {
    if items == [] || !items[0].Event? then []
    else
      var e := items[0].event;
      if e.streamKey == stream && e.sequence > last then [e] + Fresh(items[1..], stream, e.sequence)
      else Fresh(items[1..], stream, last)
  }

  /** The item that ends the live phase, if it ends. */
  function Terminal(items: seq<LiveItem>): Option<LiveItem>
    decreases |items|
  {
    if items == [] then None else if !items[0].Event? then Some(items[0]) else Terminal(items[1..])
  }

  function LastSent(events: seq<Envelope>, last: nat): nat { if events == [] then last else events[|events| - 1].sequence }

  /** Follows the bus to its first terminal item; a lag notice names the last sequence sent. */
  method Follow(items: seq<LiveItem>, stream: StreamKey, after: nat) returns (sent: seq<Wire>, last: nat, notice: Notice)
    ensures sent == Map(Fresh(items, stream, after), Project)
    ensures last == LastSent(Fresh(items, stream, after), after)
    ensures notice == if Terminal(items) == Some(Overrun) then Lag(last) else NoNotice
  {
    var i := 0;
    ghost var taken := [];
    sent, last, notice := [], after, NoNotice;
    while i < |items|
      invariant 0 <= i <= |items|
      invariant Fresh(items, stream, after) == taken + Fresh(items[i..], stream, last)
      invariant sent == Map(taken, Project) && last == LastSent(taken, after) && notice == NoNotice
      invariant Terminal(items) == Terminal(items[i..])
    {
      var item := items[i];
      assert items[i..][0] == item && items[i..][1..] == items[i + 1..];
      if item.Event? {
        var e := item.event;
        if e.streamKey == stream && e.sequence > last {
          assert taken + ([e] + Fresh(items[i + 1..], stream, e.sequence)) == (taken + [e]) + Fresh(items[i + 1..], stream, e.sequence);
          taken := taken + [e];
          last := e.sequence;
          sent := sent + [Project(e)];
        }
      } else {
        if item.Overrun? { notice := Lag(last); }
        return;
      }
      i := i + 1;
    }
  }

  lemma {:induction false} FreshAscends(items: seq<LiveItem>, stream: StreamKey, last: nat, i: nat)
    requires i < |Fresh(items, stream, last)|
    ensures var sent := Fresh(items, stream, last);
            sent[i].streamKey == stream && sent[i].sequence > (if i == 0 then last else sent[i - 1].sequence)
    decreases |items|
  {
    var e := items[0].event;
    if e.streamKey == stream && e.sequence > last {
      if i > 0 {
        FreshAscends(items[1..], stream, e.sequence, i - 1);
      }
    } else {
      FreshAscends(items[1..], stream, last, i);
    }
  }
}
