/** The permission decision on timestamps, locations, hosts and capabilities. */
module PermissionMeanings {
  import opened Common
  import opened Text
  import opened Capabilities
  import opened Delegation
  import opened Scopes
  import opened ScopeMeanings
  import opened Permissions

  // ---- What backs a request ----

  /** The tip cites the grant, it carries the capability, and every such row is in force and reaches the target. */
  ghost predicate Backs(q: Request, g: GrantId) {
    && q.hops != [] && g in q.hops[|q.hops| - 1].grants
    && (exists i :: 0 <= i < |q.rows| && q.rows[i].id == g && q.rows[i].capability == q.capability)
    && (forall i :: 0 <= i < |q.rows| && q.rows[i].id == g && q.rows[i].capability == q.capability ==>
          && (q.rows[i].expires.None? || q.now < q.rows[i].expires.value)
          && (q.rows[i].scope.None? || Within(q.rows[i].scope.value, q.target)))
  }

  lemma {:induction false} RowMeans(row: GrantRow, target: Target, now: int)
    ensures RowCovers(row, target) <==> row.scope.None? || Within(row.scope.value, target)
    ensures Expired(row.expires, now) <==> row.expires.Some? && row.expires.value <= now
  {
    if row.scope.Some? {
      CoverageMeans(row.scope.value, target);
    }
  }

  lemma {:induction false} RowsMean(q: Request, g: GrantId)
    requires g in TipGrants(q.hops)
    ensures Unexpired(q, g) && Covers(q, g) <==>
              forall i :: 0 <= i < |q.rows| && q.rows[i].id == g && q.rows[i].capability == q.capability ==>
                && (q.rows[i].expires.None? || q.now < q.rows[i].expires.value)
                && (q.rows[i].scope.None? || Within(q.rows[i].scope.value, q.target))
  {
    forall i | 0 <= i < |q.rows|
      ensures RowCovers(q.rows[i], q.target) <==> q.rows[i].scope.None? || Within(q.rows[i].scope.value, q.target)
    {
      RowMeans(q.rows[i], q.target, q.now);
    }
  }

  lemma {:induction false} TipCites(q: Request, g: GrantId)
    ensures g in TipGrants(q.hops) <==> q.hops != [] && g in q.hops[|q.hops| - 1].grants
    ensures g in CitedIds(q) <==>
              g in TipGrants(q.hops) && exists i :: 0 <= i < |q.rows| && q.rows[i].id == g && q.rows[i].capability == q.capability
  {
    if i :| 0 <= i < |q.rows| && q.rows[i].id == g && q.rows[i].capability == q.capability && g in TipGrants(q.hops) {
      assert Cited(q, q.rows[i]);
    }
  }

  lemma {:induction false} CoveringMeans(q: Request, g: GrantId)
    ensures g in Covering(q) <==> Backs(q, g)
  {
    TipCites(q, g);
    if g in TipGrants(q.hops) {
      RowsMean(q, g);
    }
  }

  // ---- What a capability is used on ----

  /** The target is of the kind the capability's family calls for, and says something definite. */
  ghost predicate Suits(c: Capability, t: Target) {
    match c.family
    case Workspace => t.InWorkspace? && exists u :: IsUri(u) && Locates(t.uri, t.path, u)
    case Network => t.OnNetwork? && t.domains != [] && forall i :: 0 <= i < |t.domains| ==> Domain(t.domains[i]).Some?
    case Secret =>
      && t.OfSecret? && (exists u :: Names(t.uri, u))
      && (t.egress.Some? ==> forall i :: 0 <= i < |t.egress.value| ==> Domain(t.egress.value[i]).Some?)
    case Agent => t.Children? && t.max > 0
    case Config => t.ConfigChange? && t.operation == c.action
    case _ => t.NoTarget?
  }

  lemma {:induction false} LocatedMeans(uri: string, path: Option<string>)
    ensures NormalizedWorkspace(uri, path).Some? <==> exists u :: IsUri(u) && Locates(uri, path, u)
  {
    if NormalizedWorkspace(uri, path).Some? {
      var root, u := WorkspaceIsConfined(uri, path);
      WorkspaceMeans(uri, path, u);
    }
    if u :| IsUri(u) && Locates(uri, path, u) {
      WorkspaceMeans(uri, path, u);
    }
  }

  lemma {:induction false} NamedMeans(uri: string)
    ensures NormalizeUri(uri).Some? <==> exists u :: Names(uri, u)
  {
    if NormalizeUri(uri).Some? {
      var u := NormalizedIsNamed(uri);
    }
    if u :| Names(uri, u) {
      NamedIsNormalized(uri, u);
    }
  }

  lemma {:induction false} FitMeans(c: Capability, t: Target)
    ensures TargetFits(c, t) <==> Suits(c, t)
  {
    match t
    case InWorkspace(u, p) => LocatedMeans(u, p);
    case OfSecret(u, e) => NamedMeans(u);
    case _ =>
  }

  // ---- When approval is needed ----

  /** The tip holds the capability and the tool, if any, may use it. */
  predicate Usable(q: Request, c: Capability) {
    && q.hops != [] && c in q.hops[|q.hops| - 1].capabilities
    && (q.tools.Some? ==> c in q.tools.value)
  }

  /** The target lets a secret go anywhere. */
  predicate Leaky(t: Target) {
    t.OfSecret? && t.egress.Some? && (t.egress.value == [] || exists i :: 0 <= i < |t.egress.value| && Lower(t.egress.value[i]) == "*")
  }

  /** A secret is used where it could be sent on. */
  predicate Risky(q: Request) {
    && q.capability in {Capability(Secret, Use), Capability(Secret, SignOrAct)}
    && (Usable(q, Capability(Network, Connect)) || Leaky(q.target))
  }

  lemma {:induction false} EffectiveMeans(q: Request, c: Capability)
    requires ValidChain(q.hops)
    ensures c in Effective(q) <==> Usable(q, c)
  {
    AuthorityIsTip(q.hops);
  }

  lemma {:induction false} LeakyMeans(t: Target)
    ensures OpenEgress(t) <==> Leaky(t)
  {
  }

  lemma {:induction false} RiskMeans(q: Request)
    requires ValidChain(q.hops)
    ensures JointRisk(q.capability, q.target, Effective(q)) <==> Risky(q)
  {
    EffectiveMeans(q, CONNECT);
    LeakyMeans(q.target);
  }

  // ---- The decision ----

  /** Everything but the risk: a supported capability, a valid chain whose tip may use it, a fitting target, a grant behind it. */
  ghost predicate Entitled(q: Request) {
    && IsSupported(q.capability) && ValidChain(q.hops) && Usable(q, q.capability)
    && Suits(q.capability, q.target) && exists g :: Backs(q, g)
  }

  lemma {:induction false} EntitledMeans(q: Request)
    ensures Authorized(q) <==> Entitled(q)
  {
    FitMeans(q.capability, q.target);
    if Covering(q) != {} {
      var g :| g in Covering(q);
      CoveringMeans(q, g);
    }
    if g :| Backs(q, g) {
      CoveringMeans(q, g);
    }
    assert q.capability in TipCapabilities(q.hops) <==> q.hops != [] && q.capability in q.hops[|q.hops| - 1].capabilities;
  }

  /**
   * A request is allowed exactly when it is entitled and not risky, on exactly the grants that back it;
   * it is put up for approval exactly when it is entitled and risky, naming what would be used together.
   */
  lemma {:induction false} AllowMeans(q: Request)
    ensures Evaluate(q).Allow? <==> Entitled(q) && !Risky(q)
    ensures Evaluate(q).RequireApproval? <==> Entitled(q) && Risky(q)
    ensures Evaluate(q).Allow? ==> forall g :: g in Evaluate(q).grants <==> Backs(q, g)
    ensures Evaluate(q).RequireApproval? ==>
              forall c :: c in Evaluate(q).exercised <==>
                c == q.capability || (c == Capability(Network, Connect) && Usable(q, c))
  {
    DecisionMeaning(q);
    EntitledMeans(q);
    if ValidChain(q.hops) {
      RiskMeans(q);
      EffectiveMeans(q, CONNECT);
    }
    if Evaluate(q).Allow? {
      forall g ensures g in Evaluate(q).grants <==> Backs(q, g) {
        CoveringMeans(q, g);
      }
    }
  }

  /** The tip cites a grant with a row for the capability. */
  ghost predicate Offers(q: Request, g: GrantId) {
    && q.hops != [] && g in q.hops[|q.hops| - 1].grants
    && exists i :: 0 <= i < |q.rows| && q.rows[i].id == g && q.rows[i].capability == q.capability
  }

  /** Some row of the grant for the capability has run out. */
  ghost predicate Lapsed(q: Request, g: GrantId) {
    exists i :: 0 <= i < |q.rows| && q.rows[i].id == g && q.rows[i].capability == q.capability
                && q.rows[i].expires.Some? && q.rows[i].expires.value <= q.now
  }

  lemma {:induction false} OfferMeans(q: Request, g: GrantId)
    ensures g in CitedIds(q) <==> Offers(q, g)
    ensures Offers(q, g) ==> (Unexpired(q, g) <==> !Lapsed(q, g))
  {
    TipCites(q, g);
  }

  lemma {:induction false} NoOffer(q: Request)
    ensures CitedIds(q) == {} <==> !exists g :: Offers(q, g)
    ensures AnyUnexpired(q, CitedIds(q)) <==> exists g :: Offers(q, g) && !Lapsed(q, g)
  {
    forall g ensures g in CitedIds(q) <==> Offers(q, g) {
      OfferMeans(q, g);
    }
    if AnyUnexpired(q, CitedIds(q)) {
      var g :| g in CitedIds(q) && Unexpired(q, g);
      OfferMeans(q, g);
    }
    if g :| Offers(q, g) && !Lapsed(q, g) {
      OfferMeans(q, g);
    }
  }

  lemma {:induction false} NothingBacks(q: Request)
    ensures Covering(q) == {} <==> !exists g :: Backs(q, g)
  {
    forall g ensures g in Covering(q) <==> Backs(q, g) {
      CoveringMeans(q, g);
    }
  }

  /** Why a request over a valid chain is denied: each reason has its own condition. */
  lemma {:induction false} DenyMeans(q: Request)
    requires ValidChain(q.hops)
    ensures Evaluate(q) == Deny(Unsupported) <==> !IsSupported(q.capability)
    ensures IsSupported(q.capability) ==>
              && (Evaluate(q) == Deny(ToolRestriction) <==>
                    q.hops != [] && q.capability in q.hops[|q.hops| - 1].capabilities && !Usable(q, q.capability))
              && (Evaluate(q) == Deny(NoGrant) <==>
                    || q.hops == [] || q.capability !in q.hops[|q.hops| - 1].capabilities
                    || (Usable(q, q.capability) && !exists g :: Offers(q, g)))
    ensures IsSupported(q.capability) && Usable(q, q.capability) && (exists g :: Offers(q, g)) ==>
              && (Evaluate(q) == Deny(OutOfScope) <==>
                    || !Suits(q.capability, q.target)
                    || ((!exists g :: Backs(q, g)) && exists g :: Offers(q, g) && !Lapsed(q, g)))
              && (Evaluate(q) == Deny(ExpiredGrant) <==>
                    Suits(q.capability, q.target) && !exists g :: Offers(q, g) && !Lapsed(q, g))
  {
    AuthorityIsTip(q.hops);
    EffectiveMeans(q, q.capability);
    FitMeans(q.capability, q.target);
    NoOffer(q);
    NothingBacks(q);
    if g :| Backs(q, g) {
      assert Offers(q, g) && !Lapsed(q, g);
    }
  }
}
