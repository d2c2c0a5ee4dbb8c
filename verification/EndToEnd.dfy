/**
 * From a staged draft to a client's frame, on fields: what a client is sent are the committed drafts of
 * the stream it asked for, one after the other from the position it asked for.
 */
module EndToEnd {
  import opened Common
  import opened Envelopes
  import opened Outbox
  import opened Journal
  import opened Pipeline
  import opened PipelineDurability
  import opened PipelineDelivery

  // ---- Which drafts are committed ----

  /** The step stages a draft on the stream, and the schema lets it in. */
  ghost predicate Commits(s: System, step: Step, k: StreamKey) {
    && step.Stage? && step.draft.streamKey == k && !IdTaken(s.store, step.draft.eventId)
    && !step.draft.sensitivity.NoSensitivity? && !step.draft.retention.NoRetention?
  }

  /** The staging steps of a run that committed on a stream, in order. */
  ghost function Committed(workers: nat, capacity: nat, steps: seq<Step>, k: StreamKey): seq<Step> {
    if steps == [] then []
    else
      var n := |steps| - 1;
      Committed(workers, capacity, steps[..n], k)
      + if Commits(Run(Init(workers, capacity), steps[..n]), steps[n], k) then [steps[n]] else []
  }

  lemma {:induction false} CommittedIsStaged(workers: nat, capacity: nat, steps: seq<Step>, k: StreamKey, p: nat)
    requires p < |Committed(workers, capacity, steps, k)|
    ensures var step := Committed(workers, capacity, steps, k)[p]; step in steps && step.Stage? && step.draft.streamKey == k
  {
    var n := |steps| - 1;
    if p < |Committed(workers, capacity, steps[..n], k)| {
      CommittedIsStaged(workers, capacity, steps[..n], k, p);
    }
  }

  // ---- What the store holds ----

  /** The events record the drafts, position by position. */
  ghost predicate Hold(events: seq<Envelope>, staged: seq<Step>) {
    && |events| == |staged|
    && forall p :: 0 <= p < |events| ==>
         staged[p].Stage? && Records(events[p], staged[p].draft, staged[p].occurredMs, p + 1)
  }

  lemma {:induction false} StageEvents(s: System, d: Draft, ms: int, k: StreamKey)
    requires Outbox.Valid(s.store)
    ensures var events, events' := Events(s.store, k), Events(Next(s, Stage(d, ms)).store, k);
            if Commits(s, Stage(d, ms), k) then
              |events'| == |events| + 1 && events'[..|events|] == events && Records(events'[|events|], d, ms, |events| + 1)
            else events' == events
  {
    StageExtends(s.store, d, ms);
    if StageAt(s.store, d, ms).Some? {
      var st' := StageAt(s.store, d, ms).value;
      var row := IntoNew(d, |Rows(s.store, d.streamKey)| + 1, ms);
      if k == d.streamKey {
        MapAppend(Rows(s.store, k), [row], EnvelopeFromRow);
      }
    }
  }

  lemma {:induction false} OtherEvents(s: System, step: Step, k: StreamKey)
    requires !step.Stage?
    ensures Events(Next(s, step).store, k) == Events(s.store, k)
  {
    if step.Mark? && step.worker < |s.workers| && s.workers[step.worker].Reading? {
      MarkTouchesOnlyFlags(s.store, Ids(Batches.Flat(s.workers[step.worker].groups)), k);
    }
  }

  /** A stream's committed events are its committed drafts, in order: none lost, added or altered. */
  lemma {:induction false} StoreHoldsDrafts(workers: nat, capacity: nat, steps: seq<Step>, k: StreamKey)
    ensures Hold(Events(Run(Init(workers, capacity), steps).store, k), Committed(workers, capacity, steps, k))
  {
    if steps != [] {
      var n := |steps| - 1;
      StoreHoldsDrafts(workers, capacity, steps[..n], k);
      JournalIsOutboxPrefix(workers, capacity, steps[..n]);
      var s := Run(Init(workers, capacity), steps[..n]);
      if steps[n].Stage? {
        StageEvents(s, steps[n].draft, steps[n].occurredMs, k);
      } else {
        OtherEvents(s, steps[n], k);
      }
    }
  }

  // ---- What a client is sent ----

  /** A subscription's stream and starting point are those some step asked for. */
  lemma {:induction false} SubscriptionWasAsked(workers: nat, capacity: nat, steps: seq<Step>, id: nat)
    requires id in Run(Init(workers, capacity), steps).clients
    ensures var c := Run(Init(workers, capacity), steps).clients[id]; Subscribe(id, c.stream, c.after) in steps
  {
    var n := |steps| - 1;
    var s := Run(Init(workers, capacity), steps[..n]);
    if id in s.clients {
      SubscriptionWasAsked(workers, capacity, steps[..n], id);
      SubscriptionStays(s, steps[n], id);
      var c := s.clients[id];
      var i :| 0 <= i < n && steps[..n][i] == Subscribe(id, c.stream, c.after);
      assert steps[i] == Subscribe(id, c.stream, c.after);
    } else {
      assert steps[n] in steps;
    }
  }

  lemma {:induction false} SubscriptionStays(s: System, step: Step, id: nat)
    requires id in s.clients
    ensures id in Next(s, step).clients
    ensures Next(s, step).clients[id].stream == s.clients[id].stream && Next(s, step).clients[id].after == s.clients[id].after
  {
  }

  /**
   * With one dispatcher, the frames a client was sent since `after` are the committed drafts after + 1,
   * after + 2, ... of the stream it subscribed to: same identity, type, classes, time, correlation and
   * causation, and the same payload unless it is secret.
   */
  lemma {:induction false} FramesCarryDrafts(capacity: nat, steps: seq<Step>, id: nat, i: nat)
    requires var s := Run(Init(1, capacity), steps); id in s.clients && i < |s.clients[id].seen|
    ensures var c := Run(Init(1, capacity), steps).clients[id];
            var staged := Committed(1, capacity, steps, c.stream);
            && Subscribe(id, c.stream, c.after) in steps
            && c.after + i < |staged| && staged[c.after + i] in steps && staged[c.after + i].Stage?
            && Carries(c.seen[i], staged[c.after + i].draft, staged[c.after + i].occurredMs, c.after + i + 1)
  {
    var s := Run(Init(1, capacity), steps);
    var c := s.clients[id];
    GapFreeDelivery(capacity, steps, id);
    StoreHoldsDrafts(1, capacity, steps, c.stream);
    SubscriptionWasAsked(1, capacity, steps, id);
    var step := Committed(1, capacity, steps, c.stream)[c.after + i];
    CommittedIsStaged(1, capacity, steps, c.stream, c.after + i);
    FrameCarries(Events(s.store, c.stream)[c.after + i], step.draft, step.occurredMs, c.after + i + 1);
  }
}
