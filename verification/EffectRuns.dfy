/**
 * Every history of the effect table: daemon fences, write transactions admitted by epoch, provider
 * observations that may be stale by the time they are applied, and operator resolutions.
 */
module EffectRuns {
  import opened Common
  import opened Effects

  // ---- State and steps ----

  /** `writes` lists the epochs of committed write transactions; `plans` the reconcile plans made so far. */
  datatype Kernel = Kernel(fence: Option<nat>, db: Db, writes: seq<nat>, plans: set<(EffectId, Plan)>)

  const Init := Kernel(None, Db(map[], []), [], {})

  datatype Act =
    | Prepare(id: EffectId, idempotency: Idempotency)
    | Claim(id: EffectId, who: ExecutorId)
    | Apply(id: EffectId, move: Move)
    | Observe(id: EffectId, plan: Plan)
    | Resolve(id: EffectId, how: Resolution, result: Option<string>, reason: string)

  datatype Step =
    | Acquire
    | Probe(id: EffectId, observed: Observed)
    | Write(epoch: nat, now: int, act: Act)

  /** The first claim of the fence stores 1, every later one adds 1. */
  function NextEpoch(fence: Option<nat>): nat { if fence.None? then 1 else fence.value + 1 }

  function NewRow(i: Idempotency): Row { Row(Prepared, i, None, None, None, None, NoRefs) }

  /** The body of a write transaction; `None` means it failed and rolled back. */
  function Body(k: Kernel, act: Act, epoch: nat, now: int): Option<Db> {
    match act
    case Prepare(id, i) =>
      if id in k.db.effects then None
      else Some(Db(k.db.effects[id := NewRow(i)], k.db.events + [Event(id, PreparedEvent, NewRow(i))]))
    case Claim(id, who) =>
      var (db, r) := ClaimEffect(k.db, id, who, epoch, now);
      if r.Ok? then Some(db) else None
    case Apply(id, m) =>
      var (db, r) := Effects.Apply(k.db, id, m, epoch, now);
      if r.Ok? then Some(db) else None
    case Observe(id, plan) =>
      var (db, r) := ApplyObserved(k.db, id, plan, epoch, now);
      if r.Ok? && (id, plan) in k.plans then Some(db) else None
    case Resolve(id, how, result, reason) =>
      if id !in k.db.effects || !k.db.effects[id].state.Unknown? then None
      else
        var (db, r) := ApplyResolution(k.db, id, how, result, reason, epoch, now);
        if r.Ok? then Some(db) else None
  }

  predicate Admitted(k: Kernel, epoch: nat) { k.fence == Some(epoch) }

  function Next(k: Kernel, step: Step): Kernel {
    match step
    case Acquire => k.(fence := Some(NextEpoch(k.fence)))
    case Probe(id, observed) =>
      if id in k.db.effects then k.(plans := k.plans + {(id, ReconcilePlan(k.db.effects[id], observed))}) else k
    case Write(epoch, now, act) =>
      if !Admitted(k, epoch) then k
      else
        match Body(k, act, epoch, now)
        case None => k
        case Some(db) => k.(db := db, writes := k.writes + [epoch])
  }

  function Run(k: Kernel, steps: seq<Step>): Kernel {
    if steps == [] then k else Next(Run(k, steps[..|steps| - 1]), steps[|steps| - 1])
  }

  // ---- What the staged events say about an effect ----

  /** Claims, dispatches, (re-)preparations, operator retries, and the token of the latest dispatch. */
  datatype Counts = Counts(claims: nat, dispatches: nat, prepares: nat, retries: nat, last: nat)

  function Add(c: Counts, e: Event): Counts {
    match e.kind
    case ClaimedEvent => c.(claims := c.claims + 1)
    case DispatchedEvent => c.(dispatches := c.dispatches + 1, last := TokenOf(e.row))
    case PreparedEvent => c.(prepares := c.prepares + 1)
    case ReconciledEvent => if e.row.state.Prepared? then c.(retries := c.retries + 1) else c
    case _ => c
  }

  const Zero := Counts(0, 0, 0, 0, 0)

  function Tally(events: seq<Event>, id: EffectId): Counts {
    if events == [] then Zero
    else
      var n := |events| - 1;
      if events[n].id == id then Add(Tally(events[..n], id), events[n]) else Tally(events[..n], id)
  }

  lemma {:induction false} TallyOne(events: seq<Event>, e: Event, id: EffectId)
    ensures Tally(events + [e], id) == if e.id == id then Add(Tally(events, id), e) else Tally(events, id)
  {
    assert (events + [e])[..|events|] == events;
  }

  // ---- The invariant of one row against its events ----

  function Armed(r: Row): nat { if r.state.Prepared? || r.state.Claimed? then 1 else 0 }

  ghost predicate RowOk(r: Row, c: Counts) {
    && c.claims == TokenOf(r) && (r.token.Some? <==> c.claims > 0)
    && c.dispatches + Armed(r) <= c.prepares
    && 1 + c.retries <= c.prepares
    && (!Redispatchable(r.idempotency) ==> c.prepares == 1 + c.retries)
    && c.last <= TokenOf(r) && (r.state.Claimed? ==> c.last < TokenOf(r))
  }

  lemma {:induction false} ClaimKeepsRow(r: Row, c: Counts, id: EffectId, who: ExecutorId, epoch: nat, lease: int, now: int)
    requires RowOk(r, c) && Claimable(r, now)
    ensures var r' := ClaimRow(r, who, epoch, lease); RowOk(r', Add(c, Event(id, ClaimedEvent, r')))
  {
  }

  /** The event of a transition that is neither a claim nor a re-arming. */
  predicate Plain(kind: Kind, to: State) {
    && !to.Prepared? && !to.Claimed?
    && !kind.PreparedEvent? && !kind.ClaimedEvent? && !kind.ReconciledEvent?
    && (kind.DispatchedEvent? <==> to.Dispatched?)
  }

  lemma {:induction false} MoveKeepsRow(r: Row, c: Counts, id: EffectId, kind: Kind, p: Patch)
    requires RowOk(r, c) && Plain(kind, p.state) && CanTransition(r.state, p.state)
    ensures var r' := PatchRow(r, p); RowOk(r', Add(c, Event(id, kind, r'))) && (kind.DispatchedEvent? ==> c.last < TokenOf(r'))
  {
  }

  lemma {:induction false} RearmKeepsRow(r: Row, c: Counts, id: EffectId)
    requires RowOk(r, c) && r.state.Dispatched? && Redispatchable(r.idempotency)
    ensures var r' := PatchRow(r, Patch(Prepared, NoRefs)); RowOk(r', Add(c, Event(id, PreparedEvent, r')))
  {
  }

  lemma {:induction false} RetryKeepsRow(r: Row, c: Counts, id: EffectId)
    requires RowOk(r, c) && r.state.Unknown?
    ensures var r' := PatchRow(r, Patch(Prepared, NoRefs));
            RowOk(r', Add(Add(c, Event(id, PreparedEvent, r')), Event(id, ReconciledEvent, r')))
  {
  }

  // ---- The invariant of the table ----

  ghost predicate EffectOk(db: Db, id: EffectId) {
    if id in db.effects then RowOk(db.effects[id], Tally(db.events, id)) else Tally(db.events, id) == Zero
  }

  /** The dispatches of an effect carry strictly increasing tokens, the latest being the one tallied. */
  ghost predicate Ordered(events: seq<Event>) {
    && (forall i, j :: 0 <= i < j < |events| && SameDispatch(events[i], events[j]) ==> TokenOf(events[i].row) < TokenOf(events[j].row))
    && (forall i :: 0 <= i < |events| && events[i].kind.DispatchedEvent? ==>
          TokenOf(events[i].row) <= Tally(events, events[i].id).last)
  }

  predicate SameDispatch(a: Event, b: Event) { a.id == b.id && a.kind.DispatchedEvent? && b.kind.DispatchedEvent? }

  lemma {:induction false} OrderedOne(events: seq<Event>, e: Event)
    requires Ordered(events) && (e.kind.DispatchedEvent? ==> Tally(events, e.id).last < TokenOf(e.row))
    ensures Ordered(events + [e])
  {
    var events' := events + [e];
    forall i | 0 <= i < |events'| && events'[i].kind.DispatchedEvent?
      ensures TokenOf(events'[i].row) <= Tally(events', events'[i].id).last
    {
      TallyOne(events, e, events'[i].id);
    }
  }

  ghost predicate DbOk(db: Db) { (forall id :: EffectOk(db, id)) && Ordered(db.events) }

  /** Writing one row and staging its event settles the question for every other effect. */
  lemma {:induction false} WriteKeepsDb(db: Db, id: EffectId, kind: Kind, r': Row)
    requires DbOk(db) && RowOk(r', Add(Tally(db.events, id), Event(id, kind, r')))
    requires kind.DispatchedEvent? ==> Tally(db.events, id).last < TokenOf(r')
    ensures DbOk(Db(db.effects[id := r'], db.events + [Event(id, kind, r')]))
  {
    var db' := Db(db.effects[id := r'], db.events + [Event(id, kind, r')]);
    OrderedOne(db.events, Event(id, kind, r'));
    forall i ensures EffectOk(db', i) {
      assert EffectOk(db, i);
      TallyOne(db.events, Event(id, kind, r'), i);
    }
  }

  /** An audit record of a settled effect counts for nothing. */
  lemma {:induction false} ReportKeepsDb(db: Db, id: EffectId, r: Row)
    requires DbOk(db) && !r.state.Prepared?
    ensures DbOk(StageReconciled(db, id, r))
  {
    var db' := StageReconciled(db, id, r);
    OrderedOne(db.events, Event(id, ReconciledEvent, r));
    forall i ensures EffectOk(db', i) {
      assert EffectOk(db, i);
      TallyOne(db.events, Event(id, ReconciledEvent, r), i);
    }
  }

  lemma {:induction false} PrepareKeepsDb(db: Db, id: EffectId, i: Idempotency)
    requires DbOk(db) && id !in db.effects
    ensures DbOk(Db(db.effects[id := NewRow(i)], db.events + [Event(id, PreparedEvent, NewRow(i))]))
  {
    assert EffectOk(db, id);
    WriteKeepsDb(db, id, PreparedEvent, NewRow(i));
  }

  lemma {:induction false} ClaimKeepsDb(db: Db, id: EffectId, who: ExecutorId, epoch: nat, now: int)
    requires DbOk(db)
    ensures DbOk(ClaimEffect(db, id, who, epoch, now).0)
  {
    if id in db.effects && Claimable(db.effects[id], now) {
      assert EffectOk(db, id);
      ClaimKeepsRow(db.effects[id], Tally(db.events, id), id, who, epoch, now + LEASE_MS, now);
      WriteKeepsDb(db, id, ClaimedEvent, ClaimRow(db.effects[id], who, epoch, now + LEASE_MS));
    }
  }

  lemma {:induction false} PlainKeepsDb(db: Db, id: EffectId, actor: Option<ExecutorRef>, kind: Kind, p: Patch, epoch: nat, now: int)
    requires DbOk(db) && Plain(kind, p.state)
    ensures DbOk(Transition(db, id, actor, kind, p, epoch, now).0)
  {
    if Transition(db, id, actor, kind, p, epoch, now).1.Ok? {
      assert EffectOk(db, id);
      MoveKeepsRow(db.effects[id], Tally(db.events, id), id, kind, p);
      WriteKeepsDb(db, id, kind, PatchRow(db.effects[id], p));
    }
  }

  lemma {:induction false} ApplyKeepsDb(db: Db, id: EffectId, m: Move, epoch: nat, now: int)
    requires DbOk(db)
    ensures DbOk(Effects.Apply(db, id, m, epoch, now).0)
  {
    PlainKeepsDb(db, id, Presenter(m), Target(m).0, Target(m).1, epoch, now);
  }

  lemma {:induction false} SettleKeepsDb(db: Db, id: EffectId, result: string, epoch: nat, now: int)
    requires DbOk(db) && id in db.effects && db.effects[id].state.Dispatched?
    ensures DbOk(ApplyObserved(db, id, Settle(Succeeded(result)), epoch, now).0)
  {
    var p := Patch(Acknowledged, NoRefs.(result := Some(result)));
    PlainKeepsDb(db, id, None, AcknowledgedEvent, p, epoch, now);
    var db1 := Transition(db, id, None, AcknowledgedEvent, p, epoch, now).0;
    PlainKeepsDb(db1, id, None, CommittedEvent, Patch(Committed, NoRefs), epoch, now);
    var (db2, r2) := Transition(db1, id, None, CommittedEvent, Patch(Committed, NoRefs), epoch, now);
    ReportKeepsDb(db2, id, r2.value);
  }

  lemma {:induction false} ObserveKeepsDb(db: Db, id: EffectId, plan: Plan, epoch: nat, now: int)
    requires DbOk(db) && (plan.Redispatch? && id in db.effects ==> Redispatchable(db.effects[id].idempotency))
    ensures DbOk(ApplyObserved(db, id, plan, epoch, now).0)
  {
    if id in db.effects && db.effects[id].state.Dispatched? {
      match plan
      case Settle(Succeeded(result)) => SettleKeepsDb(db, id, result, epoch, now);
      case Settle(FailedWith(code)) =>
        var p := Patch(Failed, NoRefs.(error := Some(code)));
        PlainKeepsDb(db, id, None, FailedEvent, p, epoch, now);
        ReportKeepsDb(Transition(db, id, None, FailedEvent, p, epoch, now).0, id, PatchRow(db.effects[id], p));
      case Redispatch =>
        assert EffectOk(db, id);
        RearmKeepsRow(db.effects[id], Tally(db.events, id), id);
        WriteKeepsDb(db, id, PreparedEvent, PatchRow(db.effects[id], Patch(Prepared, NoRefs)));
      case _ => PlainKeepsDb(db, id, None, UnknownEvent, Patch(Unknown, NoRefs), epoch, now);
    }
  }

  lemma {:induction false} RetryKeepsDb(db: Db, id: EffectId)
    requires DbOk(db) && id in db.effects && db.effects[id].state.Unknown?
    ensures var r' := PatchRow(db.effects[id], Patch(Prepared, NoRefs));
            DbOk(StageReconciled(Db(db.effects[id := r'], db.events + [Event(id, PreparedEvent, r')]), id, r'))
  {
    var r' := PatchRow(db.effects[id], Patch(Prepared, NoRefs));
    var db1 := Db(db.effects[id := r'], db.events + [Event(id, PreparedEvent, r')]);
    assert EffectOk(db, id);
    RetryKeepsRow(db.effects[id], Tally(db.events, id), id);
    OrderedOne(db.events, Event(id, PreparedEvent, r'));
    OrderedOne(db1.events, Event(id, ReconciledEvent, r'));
    forall i ensures EffectOk(StageReconciled(db1, id, r'), i) {
      assert EffectOk(db, i);
      TallyOne(db.events, Event(id, PreparedEvent, r'), i);
      TallyOne(db1.events, Event(id, ReconciledEvent, r'), i);
    }
  }

  lemma {:induction false} ResolveKeepsDb(db: Db, id: EffectId, how: Resolution, result: Option<string>, reason: string, epoch: nat, now: int)
    requires DbOk(db) && id in db.effects && db.effects[id].state.Unknown?
    ensures DbOk(ApplyResolution(db, id, how, result, reason, epoch, now).0)
  {
    if how.RetryAcceptingDuplicateRisk? {
      RetryKeepsDb(db, id);
    } else {
      var (kind, p) := ResolutionTarget(how, result, reason);
      PlainKeepsDb(db, id, None, kind, p, epoch, now);
      ReportKeepsDb(Transition(db, id, None, kind, p, epoch, now).0, id, PatchRow(db.effects[id], p));
    }
  }

  // ---- How a row may evolve ----

  /** The contract never changes, tokens never go back, and a terminal row is final. */
  ghost predicate Evolves(r: Row, r': Row) {
    && r'.idempotency == r.idempotency
    && TokenOf(r) <= TokenOf(r')
    && (IsTerminal(r.state) ==> r' == r)
    && (r'.token == r.token || (r'.state.Claimed? && r'.token == Some(TokenOf(r) + 1)))
    && (r'.token == r.token ==> r'.epoch == r.epoch && r'.executor == r.executor)
  }

  ghost predicate DbEvolves(db: Db, db': Db) {
    && (forall id :: id in db.effects ==> id in db'.effects && Evolves(db.effects[id], db'.effects[id]))
    && db.events <= db'.events
  }

  lemma {:induction false} ObserveEvolves(db: Db, id: EffectId, plan: Plan, epoch: nat, now: int)
    ensures DbEvolves(db, ApplyObserved(db, id, plan, epoch, now).0)
  {
  }

  lemma {:induction false} ResolveEvolves(db: Db, id: EffectId, how: Resolution, result: Option<string>, reason: string, epoch: nat, now: int)
    ensures DbEvolves(db, ApplyResolution(db, id, how, result, reason, epoch, now).0)
  {
  }

  lemma {:induction false} ApplyEvolves(db: Db, id: EffectId, m: Move, epoch: nat, now: int)
    ensures DbEvolves(db, Effects.Apply(db, id, m, epoch, now).0)
  {
  }

  lemma {:induction false} BodyEvolves(k: Kernel, act: Act, epoch: nat, now: int)
    requires Body(k, act, epoch, now).Some?
    ensures DbEvolves(k.db, Body(k, act, epoch, now).value)
  {
    match act
    case Prepare(_, _) =>
    case Claim(_, _) =>
    case Apply(id, m) => ApplyEvolves(k.db, id, m, epoch, now);
    case Observe(id, plan) => ObserveEvolves(k.db, id, plan, epoch, now);
    case Resolve(id, how, result, reason) => ResolveEvolves(k.db, id, how, result, reason, epoch, now);
  }

  /** Tokens change in a claim of that very effect and nowhere else, by exactly one. */
  lemma {:induction false} OnlyClaimsChangeTokens(k: Kernel, step: Step, id: EffectId)
    requires id in k.db.effects
    ensures id in Next(k, step).db.effects
    ensures var r, r' := k.db.effects[id], Next(k, step).db.effects[id];
            r'.token != r.token ==>
              && step.Write? && step.act.Claim? && step.act.id == id && Admitted(k, step.epoch) && Claimable(r, step.now)
              && r'.token == Some(TokenOf(r) + 1) && r'.epoch == k.fence && r'.executor == Some(step.act.who)
  {
    if step.Write? && !step.act.Claim? && Admitted(k, step.epoch) && Body(k, step.act, step.epoch, step.now).Some? {
      TokensKept(k, step.act, step.epoch, step.now, id);
    }
  }

  lemma {:induction false} TokensKept(k: Kernel, act: Act, epoch: nat, now: int, id: EffectId)
    requires id in k.db.effects && !act.Claim? && Body(k, act, epoch, now).Some?
    ensures id in Body(k, act, epoch, now).value.effects
    ensures Body(k, act, epoch, now).value.effects[id].token == k.db.effects[id].token
  {
  }

  // ---- The invariant of the kernel ----

  ghost predicate NonDecreasing(s: seq<nat>) { forall i, j :: 0 <= i < j < |s| ==> s[i] <= s[j] }

  function FenceOf(k: Kernel): nat { if k.fence.Some? then k.fence.value else 0 }

  ghost predicate PlanOk(db: Db, id: EffectId, plan: Plan) {
    plan.Redispatch? ==> id in db.effects && Redispatchable(db.effects[id].idempotency)
  }

  ghost predicate KernelOk(k: Kernel) {
    && DbOk(k.db)
    && (forall p :: p in k.plans ==> PlanOk(k.db, p.0, p.1))
    && NonDecreasing(k.writes) && (forall i :: 0 <= i < |k.writes| ==> k.writes[i] <= FenceOf(k))
  }

  lemma {:induction false} BodyKeepsDb(k: Kernel, act: Act, epoch: nat, now: int)
    requires KernelOk(k) && Body(k, act, epoch, now).Some?
    ensures DbOk(Body(k, act, epoch, now).value)
  {
    match act
    case Prepare(id, i) => PrepareKeepsDb(k.db, id, i);
    case Claim(id, who) => ClaimKeepsDb(k.db, id, who, epoch, now);
    case Apply(id, m) => ApplyKeepsDb(k.db, id, m, epoch, now);
    case Observe(id, plan) =>
      assert PlanOk(k.db, (id, plan).0, (id, plan).1);
      ObserveKeepsDb(k.db, id, plan, epoch, now);
    case Resolve(id, how, result, reason) => ResolveKeepsDb(k.db, id, how, result, reason, epoch, now);
  }

  lemma {:induction false} StepKeepsKernel(k: Kernel, step: Step)
    requires KernelOk(k)
    ensures KernelOk(Next(k, step)) && FenceOf(k) <= FenceOf(Next(k, step)) && DbEvolves(k.db, Next(k, step).db)
  {
    var k' := Next(k, step);
    if step.Write? && Admitted(k, step.epoch) && Body(k, step.act, step.epoch, step.now).Some? {
      BodyKeepsDb(k, step.act, step.epoch, step.now);
      BodyEvolves(k, step.act, step.epoch, step.now);
      forall p | p in k'.plans ensures PlanOk(k'.db, p.0, p.1) {
        assert PlanOk(k.db, p.0, p.1);
      }
    }
  }

  lemma {:induction false} RunKeepsKernel(k: Kernel, steps: seq<Step>)
    requires KernelOk(k)
    ensures KernelOk(Run(k, steps)) && FenceOf(k) <= FenceOf(Run(k, steps))
  {
    if steps != [] {
      RunKeepsKernel(k, steps[..|steps| - 1]);
      StepKeepsKernel(Run(k, steps[..|steps| - 1]), steps[|steps| - 1]);
    }
  }

  /** What any number of steps leaves of a row; until it is claimed again, it keeps its holder. */
  ghost predicate Descends(r: Row, r': Row) {
    && TokenOf(r) <= TokenOf(r') && r'.idempotency == r.idempotency && (IsTerminal(r.state) ==> r' == r)
    && (TokenOf(r') == TokenOf(r) ==> r'.token == r.token && r'.epoch == r.epoch && r'.executor == r.executor)
  }

  lemma {:induction false} DescendsOnce(r: Row, r1: Row, r2: Row)
    requires Descends(r, r1) && Evolves(r1, r2)
    ensures Descends(r, r2)
  {
  }

  /**
   * Over any run: an effect stays, its contract is immutable, its token never goes back, terminal rows
   * never move, and executor and epoch change only together with the token.
   */
  lemma {:induction false} EffectsOnlyEvolve(k: Kernel, steps: seq<Step>, id: EffectId)
    requires KernelOk(k) && id in k.db.effects
    ensures id in Run(k, steps).db.effects && Descends(k.db.effects[id], Run(k, steps).db.effects[id])
  {
    if steps != [] {
      var k1 := Run(k, steps[..|steps| - 1]);
      EffectsOnlyEvolve(k, steps[..|steps| - 1], id);
      RunKeepsKernel(k, steps[..|steps| - 1]);
      StepKeepsKernel(k1, steps[|steps| - 1]);
      DescendsOnce(k.db.effects[id], k1.db.effects[id], Run(k, steps).db.effects[id]);
    }
  }

  lemma {:induction false} InitOk()
    ensures KernelOk(Init)
  {
  }

  // ---- Theorems about every history ----

  /**
   * However often executors crash, reclaim, reconcile from stale observations or are retried by an
   * operator: an effect is dispatched at most once per preparation, and one whose contract does not
   * allow a redispatch is dispatched at most once plus the number of explicit operator retries.
   */
  lemma {:induction false} DispatchBound(steps: seq<Step>, id: EffectId)
    requires id in Run(Init, steps).db.effects
    ensures var k := Run(Init, steps);
            var c := Tally(k.db.events, id);
            && c.dispatches <= c.prepares
            && (!Redispatchable(k.db.effects[id].idempotency) ==> c.dispatches <= 1 + c.retries)
            && c.claims == TokenOf(k.db.effects[id])
  {
    InitOk();
    RunKeepsKernel(Init, steps);
    assert EffectOk(Run(Init, steps).db, id);
  }

  /** No two dispatches of an effect share a token, and later ones carry larger tokens. */
  lemma {:induction false} DispatchTokensIncrease(steps: seq<Step>, i: nat, j: nat)
    requires var events := Run(Init, steps).db.events; i < j < |events| && SameDispatch(events[i], events[j])
    ensures var events := Run(Init, steps).db.events; TokenOf(events[i].row) < TokenOf(events[j].row)
  {
    InitOk();
    RunKeepsKernel(Init, steps);
  }

  /** Committed write transactions carry non-decreasing epochs, never above the persisted fence. */
  lemma {:induction false} WriteEpochsNeverDecrease(steps: seq<Step>)
    ensures var k := Run(Init, steps);
            NonDecreasing(k.writes) && forall i :: 0 <= i < |k.writes| ==> k.writes[i] <= FenceOf(k)
  {
    InitOk();
    RunKeepsKernel(Init, steps);
  }

  /** A presented transition applies exactly when every fence lets it through. */
  lemma {:induction false} AppliesExactlyWhenFenced(k: Kernel, epoch: nat, now: int, id: EffectId, m: Move)
    requires Presenter(m).Some?
    ensures Next(k, Write(epoch, now, Apply(id, m))) != k <==>
              && k.fence == Some(epoch) && id in k.db.effects
              && var r, who := k.db.effects[id], Presenter(m).value;
                 && CanTransition(r.state, Target(m).1.state)
                 && r.executor == Some(who.executor) && r.token == Some(who.token) && r.epoch == k.fence
                 && (r.lease.None? || r.lease.value > now)
  {
    if k.fence == Some(epoch) && id in k.db.effects {
      var (db, r) := Effects.Apply(k.db, id, m, epoch, now);
      if r.Ok? {
        assert |db.events| == |k.db.events| + 1;
      }
    }
  }

  /** Once a later claim holds an effect, nothing an earlier claimant presents ever applies again. */
  lemma {:induction false} StaleExecutorNeverApplies(
    k: Kernel, steps: seq<Step>, id: EffectId, m: Move, epoch: nat, now: int)
    requires KernelOk(k) && id in k.db.effects && Presenter(m).Some? && Presenter(m).value.token < TokenOf(k.db.effects[id])
    ensures Next(Run(k, steps), Write(epoch, now, Apply(id, m))) == Run(k, steps)
  {
    EffectsOnlyEvolve(k, steps, id);
    AppliesExactlyWhenFenced(Run(k, steps), epoch, now, id, m);
  }

  /** Once a newer epoch is persisted, no write transaction of an older one is ever admitted. */
  lemma {:induction false} StaleEpochNeverWrites(k: Kernel, steps: seq<Step>, epoch: nat, now: int, act: Act)
    requires KernelOk(k) && epoch < FenceOf(k)
    ensures Next(Run(k, steps), Write(epoch, now, act)) == Run(k, steps)
  {
    RunKeepsKernel(k, steps);
  }

  /**
   * Once a newer epoch is persisted, a claim of an older one is void for good: whatever happens next,
   * nothing its holder or an earlier one presents applies, under any epoch.
   */
  lemma {:induction false} DeadClaimIsVoid(k: Kernel, steps: seq<Step>, id: EffectId, m: Move, epoch: nat, now: int)
    requires KernelOk(k) && id in k.db.effects && Presenter(m).Some? && Presenter(m).value.token <= TokenOf(k.db.effects[id])
    requires k.db.effects[id].epoch.None? || k.db.effects[id].epoch.value < FenceOf(k)
    ensures Next(Run(k, steps), Write(epoch, now, Apply(id, m))) == Run(k, steps)
  {
    EffectsOnlyEvolve(k, steps, id);
    RunKeepsKernel(k, steps);
    AppliesExactlyWhenFenced(Run(k, steps), epoch, now, id, m);
  }

  /** From a dispatched row the second half of a settlement cannot fail. */
  lemma {:induction false} SettlementCompletes(db: Db, id: EffectId, plan: Plan, epoch: nat, now: int)
    requires id in db.effects
    ensures ApplyObserved(db, id, plan, epoch, now).1.Ok?
    ensures db.effects[id].state.Dispatched? ==>
              ApplyObserved(db, id, plan, epoch, now).0.effects[id].state ==
                match plan
                case Settle(Succeeded(_)) => Committed
                case Settle(FailedWith(_)) => Failed
                case Redispatch => Prepared
                case _ => Unknown
  {
  }
}
