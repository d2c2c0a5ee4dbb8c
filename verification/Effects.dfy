/**
 * Effect records: claims, fenced transitions, reconciliation and operator resolution
 * (effects/src/executor.rs, reconcile.rs, record.rs, contract.rs and the SQL of the effect repository).
 */
module Effects {
  import opened Common

  // ---- Records ----

  datatype EffectId = EffectId(n: nat)

  datatype ExecutorId = ExecutorId(text: string)

  datatype State = Prepared | Claimed | Dispatched | Acknowledged | Committed | Failed | Cancelled | Unknown

  datatype Idempotency = NaturallyIdempotent | IdempotencyKeySupported | NotIdempotent | UnknownIdempotency

  /** Where the operation ran and what it returned. */
  datatype Refs = Refs(provider: Option<string>, result: Option<string>, error: Option<string>)

  datatype Row = Row(
    state: State, idempotency: Idempotency,
    executor: Option<ExecutorId>, token: Option<nat>, epoch: Option<nat>, lease: Option<int>, refs: Refs)

  datatype Kind = PreparedEvent | ClaimedEvent | DispatchedEvent | AcknowledgedEvent | CommittedEvent
                | FailedEvent | CancelledEvent | UnknownEvent | ReconciledEvent

  /** A staged event carries the row as it stood after the change. */
  datatype Event = Event(id: EffectId, kind: Kind, row: Row)

  /** What one write transaction sees: the effects table and the events staged so far. */
  datatype Db = Db(effects: map<EffectId, Row>, events: seq<Event>)

  datatype EffectError = NotFound | IllegalTransition | StaleExecutor | StaleEpoch | LeaseExpired | AlreadyPrepared

  const LEASE_MS := 30_000

  predicate CanTransition(from: State, to: State) {
    || (from.Prepared? && (to.Claimed? || to.Cancelled?))
    || (from.Claimed? && (to.Claimed? || to.Dispatched? || to.Cancelled?))
    || (from.Dispatched? && (to.Prepared? || to.Acknowledged? || to.Failed? || to.Cancelled? || to.Unknown?))
    || (from.Acknowledged? && (to.Committed? || to.Failed?))
    || (from.Unknown? && (to.Committed? || to.Failed? || to.Prepared?))
  }

  predicate IsTerminal(s: State) { s.Committed? || s.Failed? || s.Cancelled? }

  predicate Redispatchable(i: Idempotency) { i.NaturallyIdempotent? || i.IdempotencyKeySupported? }

  // ---- The two conditional updates ----

  function Coalesce<T>(a: Option<T>, b: Option<T>): Option<T> { if a.Some? then a else b }

  function TokenOf(r: Row): nat { if r.token.Some? then r.token.value else 0 }

  predicate Claimable(r: Row, now: int) { r.state.Prepared? || (r.state.Claimed? && r.lease.Some? && r.lease.value <= now) }

  function ClaimRow(r: Row, who: ExecutorId, epoch: nat, lease: int): Row {
    r.(state := Claimed, executor := Some(who), token := Some(TokenOf(r) + 1), epoch := Some(epoch), lease := Some(lease))
  }

  datatype Patch = Patch(state: State, refs: Refs)

  function PatchRow(r: Row, p: Patch): Row {
    r.(state := p.state,
       refs := Refs(Coalesce(p.refs.provider, r.refs.provider), Coalesce(p.refs.result, r.refs.result),
                    Coalesce(p.refs.error, r.refs.error)))
  }

  predicate CasHolds(r: Row, state: State, token: Option<nat>) { r.state == state && (token.None? || r.token == token) }

  // ---- Claims and transitions ----

  datatype ClaimOutcome = Won(token: nat, row: Row) | Busy(row: Row)

  function ClaimEffect(db: Db, id: EffectId, who: ExecutorId, epoch: nat, now: int): (Db, Result<ClaimOutcome, EffectError>) {
    if id !in db.effects then (db, Err(NotFound))
    else
      var r := db.effects[id];
      if !Claimable(r, now) then (db, Ok(Busy(r)))
      else
        var r' := ClaimRow(r, who, epoch, now + LEASE_MS);
        (Db(db.effects[id := r'], db.events + [Event(id, ClaimedEvent, r')]), Ok(Won(r'.token.value, r')))
  }

  datatype ExecutorRef = ExecutorRef(executor: ExecutorId, token: nat)

  function VerifyExecutor(r: Row, ref: ExecutorRef, epoch: nat, now: int): Option<EffectError> {
    if r.executor != Some(ref.executor) || r.token != Some(ref.token) then Some(StaleExecutor)
    else if r.epoch != Some(epoch) then Some(StaleEpoch)
    else if r.lease.Some? && r.lease.value <= now then Some(LeaseExpired)
    else None
  }

  function Refuses(r: Row, actor: Option<ExecutorRef>, epoch: nat, now: int): Option<EffectError> {
    if actor.None? then None else VerifyExecutor(r, actor.value, epoch, now)
  }

  /** One legal transition, fenced when an executor presents itself. */
  function Transition(db: Db, id: EffectId, actor: Option<ExecutorRef>, kind: Kind, p: Patch, epoch: nat, now: int)
    : (Db, Result<Row, EffectError>)
  {
    if id !in db.effects then (db, Err(NotFound))
    else
      var r := db.effects[id];
      if !CanTransition(r.state, p.state) then (db, Err(IllegalTransition))
      else if Refuses(r, actor, epoch, now).Some? then (db, Err(Refuses(r, actor, epoch, now).value))
      else
        var r' := PatchRow(r, p);
        (Db(db.effects[id := r'], db.events + [Event(id, kind, r')]), Ok(r'))
  }

  const NoRefs := Refs(None, None, None)

  /** The transitions the executor, the recovery matrix and cancellation ask for. */
  datatype Move =
    | Dispatch(actor: ExecutorRef, provider: Option<string>)
    | Acknowledge(actor: ExecutorRef, result: Option<string>)
    | Commit(actor: ExecutorRef, result: Option<string>)
    | CommitDurable(result: Option<string>)
    | Fail(actor: ExecutorRef, code: string)
    | GiveUp(presenter: Option<ExecutorRef>)
    | Cancel(presenter: Option<ExecutorRef>)

  function Presenter(m: Move): Option<ExecutorRef> {
    match m
    case Dispatch(actor, _) => Some(actor)
    case Acknowledge(actor, _) => Some(actor)
    case Commit(actor, _) => Some(actor)
    case CommitDurable(_) => None
    case Fail(actor, _) => Some(actor)
    case GiveUp(presenter) => presenter
    case Cancel(presenter) => presenter
  }

  function Target(m: Move): (Kind, Patch) {
    match m
    case Dispatch(_, provider) => (DispatchedEvent, Patch(Dispatched, NoRefs.(provider := provider)))
    case Acknowledge(_, result) => (AcknowledgedEvent, Patch(Acknowledged, NoRefs.(result := result)))
    case Commit(_, result) => (CommittedEvent, Patch(Committed, NoRefs.(result := result)))
    case CommitDurable(result) => (CommittedEvent, Patch(Committed, NoRefs.(result := result)))
    case Fail(_, code) => (FailedEvent, Patch(Failed, NoRefs.(error := Some(code))))
    case GiveUp(_) => (UnknownEvent, Patch(Unknown, NoRefs))
    case Cancel(_) => (CancelledEvent, Patch(Cancelled, NoRefs))
  }

  function Apply(db: Db, id: EffectId, m: Move, epoch: nat, now: int): (Db, Result<Row, EffectError>) {
    Transition(db, id, Presenter(m), Target(m).0, Target(m).1, epoch, now)
  }

  // ---- Reconciliation ----

  datatype Observed = Succeeded(result: string) | FailedWith(code: string) | NoRecord | Inconclusive

  datatype Plan = Settle(observed: Observed) | Redispatch | Park

  function ReconcilePlan(r: Row, o: Observed): Plan {
    if !r.state.Dispatched? then Park
    else match o
      case Succeeded(_) => Settle(o)
      case FailedWith(_) => Settle(o)
      case NoRecord => if Redispatchable(r.idempotency) then Redispatch else Park
      case Inconclusive => Park
  }

  function StageReconciled(db: Db, id: EffectId, r: Row): Db { db.(events := db.events + [Event(id, ReconciledEvent, r)]) }

  /** A failed transition ends the transaction, so the database is as it was. */
  function ApplyObserved(db: Db, id: EffectId, plan: Plan, epoch: nat, now: int): (Db, Result<Row, EffectError>) {
    if id !in db.effects then (db, Err(NotFound))
    else if !db.effects[id].state.Dispatched? then (db, Ok(db.effects[id]))
    else
      match plan
      case Settle(Succeeded(result)) =>
        var (db1, r1) := Transition(db, id, None, AcknowledgedEvent, Patch(Acknowledged, NoRefs.(result := Some(result))), epoch, now);
        if r1.Err? then (db, r1)
        else
          var (db2, r2) := Transition(db1, id, None, CommittedEvent, Patch(Committed, NoRefs), epoch, now);
          if r2.Err? then (db, r2) else (StageReconciled(db2, id, r2.value), r2)
      case Settle(FailedWith(code)) =>
        var (db1, r1) := Transition(db, id, None, FailedEvent, Patch(Failed, NoRefs.(error := Some(code))), epoch, now);
        if r1.Err? then (db, r1) else (StageReconciled(db1, id, r1.value), r1)
      case Redispatch => Transition(db, id, None, PreparedEvent, Patch(Prepared, NoRefs), epoch, now)
      case _ => Transition(db, id, None, UnknownEvent, Patch(Unknown, NoRefs), epoch, now)
  }

  datatype Resolution = MarkSucceeded | MarkFailed | RetryAcceptingDuplicateRisk

  function ResolutionTarget(how: Resolution, result: Option<string>, reason: string): (Kind, Patch) {
    match how
    case MarkSucceeded => (CommittedEvent, Patch(Committed, NoRefs.(result := result)))
    case MarkFailed => (FailedEvent, Patch(Failed, NoRefs.(error := Some(if reason == "" then "resolved_failed" else reason))))
    case RetryAcceptingDuplicateRisk => (PreparedEvent, Patch(Prepared, NoRefs))
  }

  function ApplyResolution(db: Db, id: EffectId, how: Resolution, result: Option<string>, reason: string, epoch: nat, now: int)
    : (Db, Result<Row, EffectError>)
  {
    var (kind, p) := ResolutionTarget(how, result, reason);
    var (db1, r1) := Transition(db, id, None, kind, p, epoch, now);
    if r1.Err? then (db, r1) else (StageReconciled(db1, id, r1.value), r1)
  }

  /** The holder, its token, epoch and lease, and the contract stay. */
  predicate SameHolder(r: Row, r': Row) {
    r'.executor == r.executor && r'.token == r.token && r'.epoch == r.epoch && r'.lease == r.lease && r'.idempotency == r.idempotency
  }

  /** What the operator's word makes of an unknown effect. */
  predicate Resolved(r: Row, how: Resolution, result: Option<string>, reason: string, r': Row) {
    && SameHolder(r, r')
    && match how
       case MarkSucceeded => r'.state == Committed && r'.refs == if result.Some? then r.refs.(result := result) else r.refs
       case MarkFailed =>
         r'.state == Failed && r'.refs == r.refs.(error := Some(if reason == "" then "resolved_failed" else reason))
       case RetryAcceptingDuplicateRisk => r'.state == Prepared && r'.refs == r.refs
  }

  // ---- The transaction object ----

  /** An admitted write transaction over the effects table. */
  class EffectTxn {
    const epoch: nat
    var effects: map<EffectId, Row>
    var events: seq<Event>

    function View(): Db
      reads this
    {
      Db(effects, events)
    }

    constructor (epoch: nat, db: Db)
      ensures this.epoch == epoch && View() == db
    {
      this.epoch := epoch;
      effects := db.effects;
      events := db.events;
    }

    /** The conditional claim `UPDATE`; the returned token is the one it stamped. */
    method RepoClaim(id: EffectId, who: ExecutorId, lease: int, now: int) returns (token: Option<nat>)
      modifies this`effects
      ensures token.Some? <==> id in old(effects) && Claimable(old(effects)[id], now)
      ensures token.Some? ==> effects == old(effects)[id := ClaimRow(old(effects)[id], who, epoch, lease)]
                              && token == effects[id].token
      ensures token.None? ==> effects == old(effects)
    {
      if id !in effects || !Claimable(effects[id], now) { return None; }
      var row := ClaimRow(effects[id], who, epoch, lease);
      effects := effects[id := row];
      token := row.token;
    }

    /** The compare-and-set `UPDATE`: a stale expectation changes nothing. */
    method CasTransition(id: EffectId, state: State, token: Option<nat>, p: Patch) returns (applied: bool)
      modifies this`effects
      ensures applied <==> id in old(effects) && CasHolds(old(effects)[id], state, token)
      ensures effects == if applied then old(effects)[id := PatchRow(old(effects)[id], p)] else old(effects)
    {
      if id !in effects || !CasHolds(effects[id], state, token) { return false; }
      effects := effects[id := PatchRow(effects[id], p)];
      applied := true;
    }

    method Claim(id: EffectId, who: ExecutorId, now: int) returns (r: Result<ClaimOutcome, EffectError>)
      modifies this
      ensures (View(), r) == ClaimEffect(old(View()), id, who, epoch, now)
    {
      var token := RepoClaim(id, who, now + LEASE_MS, now);
      if id !in effects { return Err(NotFound); }
      var row := effects[id];
      if token.None? { return Ok(Busy(row)); }
      events := events + [Event(id, ClaimedEvent, row)];
      r := Ok(Won(token.value, row));
    }

    method Transit(id: EffectId, actor: Option<ExecutorRef>, kind: Kind, p: Patch, now: int) returns (r: Result<Row, EffectError>)
      modifies this
      ensures (View(), r) == Transition(old(View()), id, actor, kind, p, epoch, now)
    {
      if id !in effects { return Err(NotFound); }
      var row := effects[id];
      if !CanTransition(row.state, p.state) { return Err(IllegalTransition); }
      var expected := row.token;
      if actor.Some? {
        var refusal := VerifyExecutor(row, actor.value, epoch, now);
        if refusal.Some? { return Err(refusal.value); }
        expected := Some(actor.value.token);
      }
      var applied := CasTransition(id, row.state, expected, p);
      // The row was read under the same write lock, so the compare-and-set cannot miss.
      assert applied;
      events := events + [Event(id, kind, effects[id])];
      r := Ok(effects[id]);
    }

    method Observe(id: EffectId, plan: Plan, now: int) returns (r: Result<Row, EffectError>)
      modifies this
      ensures (View(), r) == ApplyObserved(old(View()), id, plan, epoch, now)
    {
      if id !in effects { return Err(NotFound); }
      if !effects[id].state.Dispatched? { return Ok(effects[id]); }
      match plan {
        case Settle(Succeeded(result)) =>
          r := Transit(id, None, AcknowledgedEvent, Patch(Acknowledged, NoRefs.(result := Some(result))), now);
          r := Transit(id, None, CommittedEvent, Patch(Committed, NoRefs), now);
          events := events + [Event(id, ReconciledEvent, r.value)];
        case Settle(FailedWith(code)) =>
          r := Transit(id, None, FailedEvent, Patch(Failed, NoRefs.(error := Some(code))), now);
          events := events + [Event(id, ReconciledEvent, r.value)];
        case Redispatch =>
          r := Transit(id, None, PreparedEvent, Patch(Prepared, NoRefs), now);
        case _ =>
          r := Transit(id, None, UnknownEvent, Patch(Unknown, NoRefs), now);
      }
    }

    /** The handler has checked that the effect is `Unknown`. */
    method Resolve(id: EffectId, how: Resolution, result: Option<string>, reason: string, now: int) returns (r: Result<Row, EffectError>)
      requires id in effects && effects[id].state.Unknown?
      modifies this
      ensures (View(), r) == ApplyResolution(old(View()), id, how, result, reason, epoch, now)
      ensures r.Ok? && Resolved(old(effects)[id], how, result, reason, r.value) && effects == old(effects)[id := r.value]
    {
      var (kind, p) := ResolutionTarget(how, result, reason);
      r := Transit(id, None, kind, p, now);
      events := events + [Event(id, ReconciledEvent, r.value)];
    }
  }
}
