/** What each operation on an effect does and answers, written out on states, references and fields. */
module EffectMeanings {
  import opened Common
  import opened Effects

  /** The transition table, read from its targets. */
  lemma {:induction false} TransitionSources(from: State, to: State)
    ensures CanTransition(from, to) <==>
              match to
              case Prepared => from in {Dispatched, Unknown}
              case Claimed => from in {Prepared, Claimed}
              case Dispatched => from == Claimed
              case Acknowledged => from == Dispatched
              case Committed => from in {Acknowledged, Unknown}
              case Failed => from in {Dispatched, Acknowledged, Unknown}
              case Cancelled => from in {Prepared, Claimed, Dispatched}
              case Unknown => from == Dispatched
    ensures from in {Committed, Failed, Cancelled} ==> !CanTransition(from, to)
  {
  }

  /**
   * A claim wins exactly on a prepared effect or one whose claim has run out; it then stamps the next
   * token, the executor, the epoch and a lease of thirty seconds, and stages the row it wrote.
   */
  lemma {:induction false} ClaimMeans(db: Db, id: EffectId, who: ExecutorId, epoch: nat, now: int)
    ensures var (db', a) := ClaimEffect(db, id, who, epoch, now);
            if id !in db.effects then db' == db && a == Err(NotFound)
            else
              var r := db.effects[id];
              if r.state == Prepared || (r.state == Claimed && r.lease.Some? && r.lease.value <= now) then
                && id in db'.effects && db'.effects == db.effects[id := db'.effects[id]]
                && var r' := db'.effects[id];
                   && r'.state == Claimed && r'.executor == Some(who) && r'.epoch == Some(epoch) && r'.lease == Some(now + 30_000)
                   && r'.token == Some(if r.token.Some? then r.token.value + 1 else 1)
                   && r'.idempotency == r.idempotency && r'.refs == r.refs
                   && db'.events == db.events + [Event(id, ClaimedEvent, r')] && a == Ok(Won(r'.token.value, r'))
              else db' == db && a == Ok(Busy(r))
  {
  }

  /** Where each move may start. */
  predicate Starts(m: Move, from: State) {
    match m
    case Dispatch(_, _) => from == Claimed
    case Acknowledge(_, _) => from == Dispatched
    case Commit(_, _) => from in {Acknowledged, Unknown}
    case CommitDurable(_) => from in {Acknowledged, Unknown}
    case Fail(_, _) => from in {Dispatched, Acknowledged, Unknown}
    case GiveUp(_) => from == Dispatched
    case Cancel(_) => from in {Prepared, Claimed, Dispatched}
  }

  /** What each move makes of a row: its new state, and the one reference it may set. */
  predicate Ends(m: Move, r: Row, r': Row) {
    && SameHolder(r, r')
    && match m
       case Dispatch(_, provider) =>
         r'.state == Dispatched && r'.refs == if provider.Some? then r.refs.(provider := provider) else r.refs
       case Acknowledge(_, result) =>
         r'.state == Acknowledged && r'.refs == if result.Some? then r.refs.(result := result) else r.refs
       case Commit(_, result) =>
         r'.state == Committed && r'.refs == if result.Some? then r.refs.(result := result) else r.refs
       case CommitDurable(result) =>
         r'.state == Committed && r'.refs == if result.Some? then r.refs.(result := result) else r.refs
       case Fail(_, code) => r'.state == Failed && r'.refs == r.refs.(error := Some(code))
       case GiveUp(_) => r'.state == Unknown && r'.refs == r.refs
       case Cancel(_) => r'.state == Cancelled && r'.refs == r.refs
  }

  /** Who presents the move; a durable commit needs nobody, giving up and cancelling may do without. */
  function By(m: Move): Option<ExecutorRef> {
    if m.CommitDurable? then None
    else if m.GiveUp? || m.Cancel? then m.presenter
    else Some(m.actor)
  }

  /** Each answer to a move has its own condition, and only a move that succeeds changes anything. */
  lemma {:induction false} MoveMeans(db: Db, id: EffectId, m: Move, epoch: nat, now: int)
    ensures var (db', a) := Apply(db, id, m, epoch, now);
            if id !in db.effects then db' == db && a == Err(NotFound)
            else
              var r, who := db.effects[id], By(m);
              if !Starts(m, r.state) then db' == db && a == Err(IllegalTransition)
              else if who.Some? && (r.executor != Some(who.value.executor) || r.token != Some(who.value.token)) then
                db' == db && a == Err(StaleExecutor)
              else if who.Some? && r.epoch != Some(epoch) then db' == db && a == Err(StaleEpoch)
              else if who.Some? && r.lease.Some? && r.lease.value <= now then db' == db && a == Err(LeaseExpired)
              else
                && a.Ok? && Ends(m, r, a.value) && db'.effects == db.effects[id := a.value]
                && |db'.events| == |db.events| + 1 && db'.events[..|db.events|] == db.events
                && db'.events[|db.events|].id == id && db'.events[|db.events|].row == a.value
  {
  }

  /** What an observation makes of a dispatched effect. */
  predicate Settled(r: Row, o: Observed, r': Row) {
    && SameHolder(r, r')
    && match o
       case Succeeded(result) => r'.state == Committed && r'.refs == r.refs.(result := Some(result))
       case FailedWith(code) => r'.state == Failed && r'.refs == r.refs.(error := Some(code))
       case NoRecord =>
         && r'.refs == r.refs
         && r'.state == if r.idempotency in {NaturallyIdempotent, IdempotencyKeySupported} then Prepared else Unknown
       case Inconclusive => r'.state == Unknown && r'.refs == r.refs
  }

  /**
   * Probing a dispatched effect and applying the plan settles it as observed; an effect that was
   * settled otherwise in the meantime is left alone, whatever the plan.
   */
  lemma {:induction false} ObservationMeans(db: Db, id: EffectId, o: Observed, plan: Plan, epoch: nat, now: int)
    requires id in db.effects
    ensures db.effects[id].state == Dispatched ==>
              var (db', a) := ApplyObserved(db, id, ReconcilePlan(db.effects[id], o), epoch, now);
              a.Ok? && Settled(db.effects[id], o, a.value) && db'.effects == db.effects[id := a.value]
    ensures db.effects[id].state != Dispatched ==> ApplyObserved(db, id, plan, epoch, now) == (db, Ok(db.effects[id]))
  {
    if db.effects[id].state == Dispatched && o.Succeeded? {
      var db' := ApplyObserved(db, id, Settle(o), epoch, now).0;
      assert db'.effects == db.effects[id := db'.effects[id]];
    }
  }

  /** A plan made before the effect was dispatched only ever parks it. */
  lemma {:induction false} StalePlanParks(db: Db, id: EffectId, earlier: Row, o: Observed, epoch: nat, now: int)
    requires id in db.effects && db.effects[id].state == Dispatched && earlier.state != Dispatched
    ensures var (db', a) := ApplyObserved(db, id, ReconcilePlan(earlier, o), epoch, now);
            && a.Ok? && a.value.state == Unknown && a.value.refs == db.effects[id].refs && SameHolder(db.effects[id], a.value)
            && db'.effects == db.effects[id := a.value]
  {
  }

  /** An unknown effect ends as the operator says, with two events: the transition, and a note of the resolution. */
  lemma {:induction false} ResolutionMeans(
    db: Db, id: EffectId, how: Resolution, result: Option<string>, reason: string, epoch: nat, now: int)
    requires id in db.effects && db.effects[id].state == Unknown
    ensures var (db', a) := ApplyResolution(db, id, how, result, reason, epoch, now);
            && a.Ok? && Resolved(db.effects[id], how, result, reason, a.value) && db'.effects == db.effects[id := a.value]
            && |db'.events| == |db.events| + 2 && db'.events[|db.events|].row == a.value
            && db'.events[|db.events| + 1] == Event(id, ReconciledEvent, a.value)
  {
  }
}
