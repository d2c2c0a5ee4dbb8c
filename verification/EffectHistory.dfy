/**
 * The staged events are a faithful history of the effect table: the latest event of an effect carries
 * its present row, and the rows of its events walk the transition table from `Prepared` on.
 */
module EffectHistory {
  import opened Common
  import opened Effects
  import opened EffectRuns

  /** The row of an effect's latest event. */
  function Latest(events: seq<Event>, id: EffectId): Option<Row> {
    if events == [] then None
    else
      var n := |events| - 1;
      if events[n].id == id then Some(events[n].row) else Latest(events[..n], id)
  }

  function Stored(db: Db, id: EffectId): Option<Row> { if id in db.effects then Some(db.effects[id]) else None }

  predicate Fits(kind: Kind, state: State) {
    match kind
    case PreparedEvent => state.Prepared?
    case ClaimedEvent => state.Claimed?
    case DispatchedEvent => state.Dispatched?
    case AcknowledgedEvent => state.Acknowledged?
    case CommittedEvent => state.Committed?
    case FailedEvent => state.Failed?
    case CancelledEvent => state.Cancelled?
    case UnknownEvent => state.Unknown?
    case ReconciledEvent => true
  }

  /** How an event may follow the effect's previous one: a legal transition, or a note on the row as it stands. */
  predicate Follows(previous: Option<Row>, e: Event) {
    && Fits(e.kind, e.row.state)
    && match previous
       case None => e.kind.PreparedEvent?
       case Some(r) => if e.kind.ReconciledEvent? then e.row == r else CanTransition(r.state, e.row.state)
  }

  predicate LegalAt(events: seq<Event>, i: nat)
    requires i < |events|
  {
    Follows(Latest(events[..i], events[i].id), events[i])
  }

  ghost predicate Faithful(db: Db) {
    && (forall id :: Latest(db.events, id) == Stored(db, id))
    && (forall i :: 0 <= i < |db.events| ==> LegalAt(db.events, i))
  }

  // ---- One event ----

  lemma {:induction false} LatestOne(events: seq<Event>, e: Event, id: EffectId)
    ensures Latest(events + [e], id) == if e.id == id then Some(e.row) else Latest(events, id)
  {
    assert (events + [e])[..|events|] == events;
  }

  lemma {:induction false} LegalOne(events: seq<Event>, e: Event, i: nat)
    requires i <= |events| && (i < |events| ==> LegalAt(events, i)) && Follows(Latest(events, e.id), e)
    ensures LegalAt(events + [e], i)
  {
    assert (events + [e])[..i] == events[..i];
    assert events[..|events|] == events;
  }

  lemma {:induction false} WriteIsFaithful(db: Db, id: EffectId, kind: Kind, row: Row)
    requires Faithful(db) && Follows(Stored(db, id), Event(id, kind, row))
    ensures Faithful(Db(db.effects[id := row], db.events + [Event(id, kind, row)]))
  {
    var e := Event(id, kind, row);
    forall x ensures Latest(db.events + [e], x) == Stored(Db(db.effects[id := row], db.events + [e]), x) {
      LatestOne(db.events, e, x);
    }
    forall i | 0 <= i < |db.events + [e]| ensures LegalAt(db.events + [e], i) {
      LegalOne(db.events, e, i);
    }
  }

  lemma {:induction false} NoteIsFaithful(db: Db, id: EffectId)
    requires Faithful(db) && id in db.effects
    ensures Faithful(StageReconciled(db, id, db.effects[id]))
  {
    WriteIsFaithful(db, id, ReconciledEvent, db.effects[id]);
    assert db.effects[id := db.effects[id]] == db.effects;
  }

  // ---- Every operation ----

  lemma {:induction false} TransitionIsFaithful(
    db: Db, id: EffectId, actor: Option<ExecutorRef>, kind: Kind, p: Patch, epoch: nat, now: int)
    requires Faithful(db) && Fits(kind, p.state) && !kind.ReconciledEvent?
    ensures var (db', r) := Transition(db, id, actor, kind, p, epoch, now);
            Faithful(db') && (r.Ok? ==> id in db'.effects && db'.effects[id] == r.value)
  {
    if Transition(db, id, actor, kind, p, epoch, now).1.Ok? {
      WriteIsFaithful(db, id, kind, PatchRow(db.effects[id], p));
    }
  }

  lemma {:induction false} ClaimIsFaithful(db: Db, id: EffectId, who: ExecutorId, epoch: nat, now: int)
    requires Faithful(db)
    ensures Faithful(ClaimEffect(db, id, who, epoch, now).0)
  {
    if id in db.effects && Claimable(db.effects[id], now) {
      WriteIsFaithful(db, id, ClaimedEvent, ClaimRow(db.effects[id], who, epoch, now + LEASE_MS));
    }
  }

  lemma {:induction false} ApplyIsFaithful(db: Db, id: EffectId, m: Move, epoch: nat, now: int)
    requires Faithful(db)
    ensures Faithful(Effects.Apply(db, id, m, epoch, now).0)
  {
    TransitionIsFaithful(db, id, Presenter(m), Target(m).0, Target(m).1, epoch, now);
  }

  lemma {:induction false} SuccessIsFaithful(db: Db, id: EffectId, result: string, epoch: nat, now: int)
    requires Faithful(db)
    ensures Faithful(ApplyObserved(db, id, Settle(Succeeded(result)), epoch, now).0)
  {
    var first := Patch(Acknowledged, NoRefs.(result := Some(result)));
    TransitionIsFaithful(db, id, None, AcknowledgedEvent, first, epoch, now);
    var db1 := Transition(db, id, None, AcknowledgedEvent, first, epoch, now).0;
    TransitionIsFaithful(db1, id, None, CommittedEvent, Patch(Committed, NoRefs), epoch, now);
    var db2 := Transition(db1, id, None, CommittedEvent, Patch(Committed, NoRefs), epoch, now).0;
    if id in db2.effects { NoteIsFaithful(db2, id); }
  }

  lemma {:induction false} FailureIsFaithful(db: Db, id: EffectId, code: string, epoch: nat, now: int)
    requires Faithful(db)
    ensures Faithful(ApplyObserved(db, id, Settle(FailedWith(code)), epoch, now).0)
  {
    var p := Patch(Failed, NoRefs.(error := Some(code)));
    TransitionIsFaithful(db, id, None, FailedEvent, p, epoch, now);
    var db1 := Transition(db, id, None, FailedEvent, p, epoch, now).0;
    if id in db1.effects { NoteIsFaithful(db1, id); }
  }

  lemma {:induction false} ObserveIsFaithful(db: Db, id: EffectId, plan: Plan, epoch: nat, now: int)
    requires Faithful(db)
    ensures Faithful(ApplyObserved(db, id, plan, epoch, now).0)
  {
    match plan
    case Settle(Succeeded(result)) => SuccessIsFaithful(db, id, result, epoch, now);
    case Settle(FailedWith(code)) => FailureIsFaithful(db, id, code, epoch, now);
    case Redispatch => TransitionIsFaithful(db, id, None, PreparedEvent, Patch(Prepared, NoRefs), epoch, now);
    case _ => TransitionIsFaithful(db, id, None, UnknownEvent, Patch(Unknown, NoRefs), epoch, now);
  }

  lemma {:induction false} ResolveIsFaithful(
    db: Db, id: EffectId, how: Resolution, result: Option<string>, reason: string, epoch: nat, now: int)
    requires Faithful(db)
    ensures Faithful(ApplyResolution(db, id, how, result, reason, epoch, now).0)
  {
    var (kind, p) := ResolutionTarget(how, result, reason);
    TransitionIsFaithful(db, id, None, kind, p, epoch, now);
    var db1 := Transition(db, id, None, kind, p, epoch, now).0;
    if id in db1.effects { NoteIsFaithful(db1, id); }
  }

  lemma {:induction false} BodyIsFaithful(k: Kernel, act: Act, epoch: nat, now: int)
    requires Faithful(k.db) && Body(k, act, epoch, now).Some?
    ensures Faithful(Body(k, act, epoch, now).value)
  {
    match act
    case Prepare(id, i) => WriteIsFaithful(k.db, id, PreparedEvent, NewRow(i));
    case Claim(id, who) => ClaimIsFaithful(k.db, id, who, epoch, now);
    case Apply(id, m) => ApplyIsFaithful(k.db, id, m, epoch, now);
    case Observe(id, plan) => ObserveIsFaithful(k.db, id, plan, epoch, now);
    case Resolve(id, how, result, reason) => ResolveIsFaithful(k.db, id, how, result, reason, epoch, now);
  }

  lemma {:induction false} RunIsFaithful(steps: seq<Step>)
    ensures Faithful(Run(Init, steps).db)
  {
    if steps != [] {
      var k, step := Run(Init, steps[..|steps| - 1]), steps[|steps| - 1];
      RunIsFaithful(steps[..|steps| - 1]);
      if step.Write? && Body(k, step.act, step.epoch, step.now).Some? {
        BodyIsFaithful(k, step.act, step.epoch, step.now);
      }
    }
  }

  // ---- Every history ----

  /** The table can be rebuilt from the events: an effect is stored exactly when it has an event, with the latest one's row. */
  lemma {:induction false} EventsRebuildTable(steps: seq<Step>, id: EffectId)
    ensures var db := Run(Init, steps).db; Latest(db.events, id) == if id in db.effects then Some(db.effects[id]) else None
  {
    RunIsFaithful(steps);
  }

  /** An effect's events start with its preparation and follow the transition table; a reconciliation note repeats the row. */
  lemma {:induction false} HistoryIsLegal(steps: seq<Step>, i: nat)
    requires i < |Run(Init, steps).db.events|
    ensures var events := Run(Init, steps).db.events;
            var e, previous := events[i], Latest(events[..i], events[i].id);
            && Fits(e.kind, e.row.state)
            && (previous.None? ==> e.kind.PreparedEvent?)
            && (previous.Some? && !e.kind.ReconciledEvent? ==> CanTransition(previous.value.state, e.row.state))
            && (e.kind.ReconciledEvent? ==> previous == Some(e.row))
  {
    RunIsFaithful(steps);
    assert LegalAt(Run(Init, steps).db.events, i);
  }
}
