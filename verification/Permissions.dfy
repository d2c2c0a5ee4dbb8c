/** The permission decision over chains, grants, tools and joint risk (permissions/src/policy.rs). */
module Permissions {
  import opened Common
  import opened Capabilities
  import opened Delegation
  import opened Scopes

  datatype DenyReason = NoGrant | OutOfScope | AncestorConstraint | ToolRestriction | ExpiredGrant | Unsupported

  datatype GrantRow = GrantRow(id: GrantId, capability: Capability, scope: Option<Target>, expires: Option<int>)

  datatype Request = Request(
    hops: seq<Hop>, rows: seq<GrantRow>, tools: Option<seq<Capability>>, capability: Capability, target: Target, now: int)

  /** `Allow` cites the covering grants, `RequireApproval` the capabilities exercised together. */
  datatype Decision = Allow(grants: set<GrantId>) | Deny(reason: DenyReason) | RequireApproval(exercised: set<Capability>)

  // ---- Authority ----

  function AncestorAuthority(hops: seq<Hop>): set<Capability> {
    if hops == [] then {}
    else
      var n := |hops| - 1;
      if n == 0 then Members(hops[0].capabilities) else AncestorAuthority(hops[..n]) * Members(hops[n].capabilities)
  }

  method AncestorCapabilities(hops: seq<Hop>) returns (r: set<Capability>)
    ensures r == AncestorAuthority(hops)
  {
    var intersection: Option<set<Capability>> := None;
    for i := 0 to |hops|
      invariant intersection == if i == 0 then None else Some(AncestorAuthority(hops[..i]))
    {
      var held := Members(hops[i].capabilities);
      assert hops[..i + 1][..i] == hops[..i];
      intersection := Some(match intersection case Some(current) => current * held case None => held);
    }
    assert hops[..|hops|] == hops;
    r := if intersection.Some? then intersection.value else {};
  }

  /** On a valid chain of any length the intersection of all hops is the tip's own set. */
  lemma {:induction false} AuthorityIsTip(hops: seq<Hop>)
    requires ValidChain(hops)
    ensures AncestorAuthority(hops) == TipCapabilities(hops)
  {
    if |hops| > 1 {
      var n := |hops| - 1;
      forall i | 0 <= i < n ensures LinkOk(hops[..n], i) {
        assert LinkOk(hops, i);
      }
      AuthorityIsTip(hops[..n]);
      assert LinkOk(hops, n);
    }
  }

  // ---- Grants ----

  predicate Expired(expires: Option<int>, now: int) { expires.Some? && expires.value <= now }

  function TipGrants(hops: seq<Hop>): set<GrantId> { if hops == [] then {} else Members(hops[|hops| - 1].grants) }

  predicate Cited(q: Request, row: GrantRow) { row.id in TipGrants(q.hops) && row.capability == q.capability }

  predicate RowCovers(row: GrantRow, target: Target) { row.scope.None? || TargetCovers(row.scope.value, target) }

  /** A grant counts as unexpired, or as covering, only when all of its cited rows do. */
  predicate Unexpired(q: Request, id: GrantId) {
    forall i :: 0 <= i < |q.rows| && q.rows[i].id == id && Cited(q, q.rows[i]) ==> !Expired(q.rows[i].expires, q.now)
  }

  predicate Covers(q: Request, id: GrantId) {
    forall i :: 0 <= i < |q.rows| && q.rows[i].id == id && Cited(q, q.rows[i]) ==> RowCovers(q.rows[i], q.target)
  }

  function CitedIds(q: Request): set<GrantId> { set i | 0 <= i < |q.rows| && Cited(q, q.rows[i]) :: q.rows[i].id }

  /** The grants among `ids` that are unexpired and cover the target. */
  function CoveringAmong(q: Request, ids: set<GrantId>): set<GrantId> { set id | id in ids && Unexpired(q, id) && Covers(q, id) }

  predicate AnyUnexpired(q: Request, ids: set<GrantId>) { exists id :: id in ids && Unexpired(q, id) }

  function Covering(q: Request): set<GrantId> { CoveringAmong(q, CitedIds(q)) }

  /** The target has the shape its capability family calls for, and everything in it normalises. */
  predicate TargetFits(c: Capability, t: Target) {
    match (c.family, t)
    case (Workspace, InWorkspace(u, p)) => NormalizedWorkspace(u, p).Some?
    case (Network, OnNetwork(domains)) => domains != [] && forall i :: 0 <= i < |domains| ==> Domain(domains[i]).Some?
    case (Secret, OfSecret(u, egress)) =>
      NormalizeUri(u).Some? && (egress.Some? ==> forall i :: 0 <= i < |egress.value| ==> Domain(egress.value[i]).Some?)
    case (Agent, Children(max)) => max >= 1
    case (Config, ConfigChange(operation)) => operation == c.action
    case (Extension, NoTarget) => true
    case (Effect, NoTarget) => true
    case (Resource, NoTarget) => true
    case _ => false
  }

  function Backing(q: Request): Result<set<GrantId>, DenyReason> {
    if CitedIds(q) == {} then Err(NoGrant)
    else if !TargetFits(q.capability, q.target) then Err(OutOfScope)
    else if Covering(q) != {} then Ok(Covering(q))
    else if AnyUnexpired(q, CitedIds(q)) then Err(OutOfScope)
    else Err(ExpiredGrant)
  }

  /** `rows` are exactly the cited rows of one grant. */
  ghost predicate Grouped(q: Request, id: GrantId, rows: seq<GrantRow>) {
    forall r :: r in rows <==> r in q.rows && r.id == id && Cited(q, r)
  }

  method GroupRows(q: Request) returns (rows: map<GrantId, seq<GrantRow>>)
    ensures rows.Keys == CitedIds(q)
    ensures forall id :: id in rows ==> Grouped(q, id, rows[id])
  {
    rows := map[];
    var tip := TipGrants(q.hops);
    for i := 0 to |q.rows|
      invariant rows.Keys == set k | 0 <= k < i && Cited(q, q.rows[k]) :: q.rows[k].id
      invariant forall id :: id in rows ==> forall r :: r in rows[id] <==> r in q.rows[..i] && r.id == id && Cited(q, r)
    {
      var row := q.rows[i];
      assert q.rows[..i + 1] == q.rows[..i] + [row];
      if row.id in tip && row.capability == q.capability {
        rows := rows[row.id := (if row.id in rows then rows[row.id] else []) + [row]];
      }
    }
    assert q.rows[..|q.rows|] == q.rows;
  }

  lemma {:induction false} GroupedUnexpired(q: Request, id: GrantId, rows: seq<GrantRow>)
    requires Grouped(q, id, rows)
    ensures (forall r :: r in rows ==> !Expired(r.expires, q.now)) <==> Unexpired(q, id)
    ensures (forall r :: r in rows ==> RowCovers(r, q.target)) <==> Covers(q, id)
  {
    assert forall i :: 0 <= i < |q.rows| ==> q.rows[i] in q.rows;
  }

  lemma {:induction false} OneMoreGrant(q: Request, ids: set<GrantId>, id: GrantId)
    ensures AnyUnexpired(q, ids + {id}) <==> AnyUnexpired(q, ids) || Unexpired(q, id)
    ensures CoveringAmong(q, ids + {id}) == CoveringAmong(q, ids) + (if Unexpired(q, id) && Covers(q, id) then {id} else {})
  {
    if AnyUnexpired(q, ids) {
      var x :| x in ids && Unexpired(q, x);
      assert x in ids + {id};
    }
    if Unexpired(q, id) { assert id in ids + {id}; }
  }

  method CheckGrant(q: Request, id: GrantId, rows: seq<GrantRow>) returns (unexpired: bool, covers: bool)
    requires Grouped(q, id, rows)
    ensures unexpired == Unexpired(q, id) && covers == Covers(q, id)
  {
    unexpired := forall x :: x in rows ==> !Expired(x.expires, q.now);
    covers := forall x :: x in rows ==> RowCovers(x, q.target);
    GroupedUnexpired(q, id, rows);
  }

  /** What the scan knows once it has visited the grants in `done`. */
  predicate Visited(q: Request, done: set<GrantId>, anyUnexpired: bool, covering: set<GrantId>) {
    anyUnexpired == AnyUnexpired(q, done) && covering == CoveringAmong(q, done)
  }

  lemma {:induction false} VisitOne(q: Request, done: set<GrantId>, id: GrantId, anyUnexpired: bool, covering: set<GrantId>)
    requires Visited(q, done, anyUnexpired, covering)
    ensures Visited(q, done + {id}, anyUnexpired || Unexpired(q, id),
                    if Unexpired(q, id) && Covers(q, id) then covering + {id} else covering)
  {
    OneMoreGrant(q, done, id);
  }

  method ScanGrants(q: Request, rows: map<GrantId, seq<GrantRow>>) returns (anyUnexpired: bool, covering: set<GrantId>)
    requires forall id :: id in rows ==> Grouped(q, id, rows[id])
    ensures anyUnexpired == AnyUnexpired(q, rows.Keys) && covering == CoveringAmong(q, rows.Keys)
  {
    var todo := rows.Keys;
    ghost var done: set<GrantId> := {};
    anyUnexpired, covering := false, {};
    while todo != {}
      invariant done + todo == rows.Keys
      invariant Visited(q, done, anyUnexpired, covering)
      decreases |todo|
    {
      var id :| id in todo;
      var unexpired, covers := CheckGrant(q, id, rows[id]);
      VisitOne(q, done, id, anyUnexpired, covering);
      if unexpired { anyUnexpired := true; }
      if unexpired && covers { covering := covering + {id}; }
      todo, done := todo - {id}, done + {id};
    }
    assert done == rows.Keys;
  }

  method BackingGrants(q: Request) returns (r: Result<set<GrantId>, DenyReason>)
    ensures r == Backing(q)
  {
    var rows := GroupRows(q);
    if rows.Keys == {} { return Err(NoGrant); }
    if !TargetFits(q.capability, q.target) { return Err(OutOfScope); }
    var anyUnexpired, covering := ScanGrants(q, rows);
    if covering != {} { return Ok(covering); }
    r := Err(if anyUnexpired then OutOfScope else ExpiredGrant);
  }

  // ---- The decision ----

  const CONNECT := Capability(Network, Connect)

  predicate OpenEgress(t: Target) { t.OfSecret? && t.egress.Some? && (t.egress.value == [] || Unbounded(t.egress.value)) }

  /** Using a secret while able to send it anywhere. */
  predicate JointRisk(c: Capability, t: Target, effective: set<Capability>) {
    c.family.Secret? && (c.action.Use? || c.action.SignOrAct?) && (CONNECT in effective || OpenEgress(t))
  }

  function Effective(q: Request): set<Capability> {
    if q.tools.None? then AncestorAuthority(q.hops) else set c | c in AncestorAuthority(q.hops) && c in q.tools.value
  }

  ghost function Evaluate(q: Request): Decision {
    if !IsSupported(q.capability) then Deny(Unsupported)
    else if q.capability !in AncestorAuthority(q.hops) then
      Deny(if q.capability in TipCapabilities(q.hops) then AncestorConstraint else NoGrant)
    else if !ValidChain(q.hops) then Deny(NoGrant)
    else if q.capability !in Effective(q) then Deny(ToolRestriction)
    else
      match Backing(q)
      case Err(reason) => Deny(reason)
      case Ok(grants) =>
        if JointRisk(q.capability, q.target, Effective(q))
        then RequireApproval({q.capability} + (if CONNECT in Effective(q) then {CONNECT} else {}))
        else Allow(grants)
  }

  method Decide(q: Request) returns (d: Decision)
    ensures d == Evaluate(q)
  {
    if !IsSupported(q.capability) { return Deny(Unsupported); }
    var effective := AncestorCapabilities(q.hops);
    if q.capability !in effective {
      return Deny(if q.capability in TipCapabilities(q.hops) then AncestorConstraint else NoGrant);
    }
    var valid := ValidateChain(q.hops);
    if !valid { return Deny(NoGrant); }
    if q.tools.Some? {
      effective := set c | c in effective && c in q.tools.value;
      if q.capability !in effective { return Deny(ToolRestriction); }
    }
    var backing := BackingGrants(q);
    if backing.Err? { return Deny(backing.error); }
    if JointRisk(q.capability, q.target, effective) {
      var exercised := {q.capability};
      if CONNECT in effective { exercised := exercised + {CONNECT}; }
      return RequireApproval(exercised);
    }
    d := Allow(backing.value);
  }

  // ---- What a decision means ----

  /** Everything but joint risk: the tip holds the capability, the tool allows it, and a grant backs it. */
  ghost predicate Authorized(q: Request) {
    && IsSupported(q.capability) && ValidChain(q.hops) && q.capability in TipCapabilities(q.hops)
    && (q.tools.None? || q.capability in q.tools.value)
    && TargetFits(q.capability, q.target) && Covering(q) != {}
  }

  /** The four outcomes, by conditions on the request alone. */
  lemma {:induction false} DecisionMeaning(q: Request)
    ensures Evaluate(q).Allow? <==> Authorized(q) && !JointRisk(q.capability, q.target, Effective(q))
    ensures Evaluate(q).RequireApproval? <==> Authorized(q) && JointRisk(q.capability, q.target, Effective(q))
    ensures Evaluate(q).Allow? ==> Evaluate(q).grants == Covering(q)
    ensures Evaluate(q) == Deny(AncestorConstraint) ==> !ValidChain(q.hops)
  {
    if ValidChain(q.hops) {
      AuthorityIsTip(q.hops);
    }
    if Covering(q) != {} {
      var id :| id in Covering(q);
      assert id in CitedIds(q);
    }
  }

  /** Every grant an `Allow` cites is held by the tip, carries the capability, is unexpired and covers the target. */
  lemma {:induction false} CitedGrantBacks(q: Request, id: GrantId) returns (i: nat)
    requires Evaluate(q).Allow? && id in Evaluate(q).grants
    ensures i < |q.rows| && q.rows[i].id == id && q.rows[i].capability == q.capability
    ensures id in TipGrants(q.hops) && !Expired(q.rows[i].expires, q.now) && RowCovers(q.rows[i], q.target)
  {
    DecisionMeaning(q);
    i :| 0 <= i < |q.rows| && Cited(q, q.rows[i]) && q.rows[i].id == id;
  }

  /** No delegate is allowed, or offered approval for, what some ancestor does not hold. */
  lemma {:induction false} NoHopExceedsAncestors(q: Request, i: nat)
    requires !Evaluate(q).Deny? && i < |q.hops|
    ensures q.capability in Members(q.hops[i].capabilities)
  {
    DecisionMeaning(q);
    ChainShrinks(q.hops, i, |q.hops| - 1);
  }

  /** The capability is the tip's to use, and some cited grant carries it. */
  ghost predicate Held(q: Request) {
    && IsSupported(q.capability) && ValidChain(q.hops) && q.capability in TipCapabilities(q.hops)
    && (q.tools.None? || q.capability in q.tools.value) && CitedIds(q) != {}
  }

  /** Why a capability that is held can still be denied: only for its target or for expiry, and exactly then. */
  lemma {:induction false} DenialMeaning(q: Request)
    ensures Held(q) && Evaluate(q).Deny? ==> Evaluate(q).reason in {OutOfScope, ExpiredGrant}
    ensures Evaluate(q) == Deny(ExpiredGrant) <==>
              Held(q) && TargetFits(q.capability, q.target) && forall id :: id in CitedIds(q) ==> !Unexpired(q, id)
    ensures Evaluate(q) == Deny(ToolRestriction) <==>
              && IsSupported(q.capability) && ValidChain(q.hops) && q.capability in TipCapabilities(q.hops)
              && q.tools.Some? && q.capability !in q.tools.value
  {
    if ValidChain(q.hops) {
      AuthorityIsTip(q.hops);
    }
  }

  lemma {:induction false} BroaderRowCovers(row: GrantRow, broader: Target, target: Target)
    requires RowCovers(row, target) && row.scope.Some? && TargetCovers(broader, row.scope.value)
    ensures RowCovers(row.(scope := Some(broader)), target)
  {
    CoverageIsTransitive(broader, row.scope.value, target);
  }

  /** The request with one grant row's scope replaced. */
  function Rescoped(q: Request, i: nat, scope: Target): Request
    requires i < |q.rows|
  {
    q.(rows := q.rows[i := q.rows[i].(scope := Some(scope))])
  }

  lemma {:induction false} RescopedCovers(q: Request, i: nat, broader: Target, id: GrantId)
    requires i < |q.rows| && q.rows[i].scope.Some? && TargetCovers(broader, q.rows[i].scope.value) && id in Covering(q)
    ensures id in Covering(Rescoped(q, i, broader))
  {
    var q' := Rescoped(q, i, broader);
    var n :| 0 <= n < |q.rows| && Cited(q, q.rows[n]) && q.rows[n].id == id;
    assert Cited(q', q'.rows[n]) && q'.rows[n].id == id;
    forall k | 0 <= k < |q'.rows| && q'.rows[k].id == id && Cited(q', q'.rows[k])
      ensures !Expired(q'.rows[k].expires, q.now) && RowCovers(q'.rows[k], q.target)
    {
      assert Cited(q, q.rows[k]);
      if k == i { BroaderRowCovers(q.rows[i], broader, q.target); }
    }
  }

  /** Raising a grant row's scope to a broader one never withdraws an `Allow`, nor any grant it cited. */
  lemma {:induction false} BroaderGrantKeepsAllow(q: Request, i: nat, broader: Target)
    requires i < |q.rows| && q.rows[i].scope.Some? && TargetCovers(broader, q.rows[i].scope.value) && Evaluate(q).Allow?
    ensures Evaluate(Rescoped(q, i, broader)).Allow? && Evaluate(q).grants <= Evaluate(Rescoped(q, i, broader)).grants
  {
    DecisionMeaning(q);
    DecisionMeaning(Rescoped(q, i, broader));
    forall id | id in Covering(q) ensures id in Covering(Rescoped(q, i, broader)) {
      RescopedCovers(q, i, broader, id);
    }
    var id :| id in Covering(q);
    assert id in Covering(Rescoped(q, i, broader));
  }
}
