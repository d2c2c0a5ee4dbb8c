/** When a hop is accepted, on the hop's own fields, the grants and the chain so far. */
module DelegationMeanings {
  import opened Common
  import opened Capabilities
  import opened Delegation

  /** Every grant is there and carries a readable capability. */
  ghost predicate AllReadable(grants: map<GrantId, string>, ids: seq<GrantId>) {
    forall g :: g in ids ==> g in grants && Parse(grants[g]).Some?
  }

  /** Some grant of the list carries the capability. */
  ghost predicate Granted(grants: map<GrantId, string>, ids: seq<GrantId>, c: Capability) {
    exists g :: g in ids && g in grants && Parse(grants[g]) == Some(c)
  }

  lemma {:induction false} GrantedOneMore(grants: map<GrantId, string>, ids: seq<GrantId>, g: GrantId, c: Capability)
    requires g in grants
    ensures Granted(grants, ids + [g], c) <==> Granted(grants, ids, c) || Parse(grants[g]) == Some(c)
  {
    if Granted(grants, ids, c) {
      var x :| x in ids && x in grants && Parse(grants[x]) == Some(c);
      assert x in ids + [g];
    }
    if Parse(grants[g]) == Some(c) {
      assert g in ids + [g];
    }
  }

  /** The capabilities behind a list of grants are exactly those some grant of it carries. */
  lemma {:induction false} GrantsMean(grants: map<GrantId, string>, ids: seq<GrantId>)
    ensures GrantCapabilities(grants, ids).Some? <==> AllReadable(grants, ids)
    ensures GrantCapabilities(grants, ids).Some? ==>
              forall c :: c in GrantCapabilities(grants, ids).value <==> Granted(grants, ids, c)
  {
    if ids != [] {
      var n := |ids| - 1;
      GrantsMean(grants, ids[..n]);
      assert ids == ids[..n] + [ids[n]];
      if AllReadable(grants, ids[..n]) && ids[n] in grants {
        forall c ensures Granted(grants, ids, c) <==> Granted(grants, ids[..n], c) || Parse(grants[ids[n]]) == Some(c) {
          GrantedOneMore(grants, ids[..n], ids[n], c);
        }
      }
    }
  }

  /** The hop's grants exist, and they carry its capabilities and no others. */
  ghost predicate Backed(grants: map<GrantId, string>, h: Hop) {
    AllReadable(grants, h.grants) && forall c :: c in h.capabilities <==> Granted(grants, h.grants, c)
  }

  lemma {:induction false} BackedMeans(grants: map<GrantId, string>, h: Hop)
    ensures GrantCapabilities(grants, h.grants) == Some(Members(h.capabilities)) <==> Backed(grants, h)
  {
    GrantsMean(grants, h.grants);
    if Backed(grants, h) {
      assert GrantCapabilities(grants, h.grants).value == Members(h.capabilities);
    }
    if GrantCapabilities(grants, h.grants) == Some(Members(h.capabilities)) {
      forall c ensures c in h.capabilities <==> Granted(grants, h.grants, c) {
        assert c in h.capabilities <==> c in Members(h.capabilities);
      }
    }
  }

  /** The hop repeats no grant and no capability, and cites at least as many grants as it has capabilities. */
  ghost predicate WellShaped(h: Hop) {
    && (forall i, j :: 0 <= i < j < |h.grants| ==> h.grants[i] != h.grants[j])
    && (forall i, j :: 0 <= i < j < |h.capabilities| ==> h.capabilities[i] != h.capabilities[j])
    && |h.capabilities| <= |h.grants|
  }

  /** The hop is the next one of the chain, and has nothing the one before it lacks. */
  ghost predicate Continues(hops: seq<Hop>, h: Hop) {
    && h.index == |hops| < 0x1_0000_0000
    && (hops != [] ==> forall c :: c in h.capabilities ==> c in hops[|hops| - 1].capabilities)
  }

  lemma {:induction false} SameTip(hops: seq<Hop>, h: Hop)
    requires hops != []
    ensures Members(h.capabilities) <= TipCapabilities(Map(hops, Canonical)) <==>
              forall c :: c in h.capabilities ==> c in hops[|hops| - 1].capabilities
  {
    var last := hops[|hops| - 1];
    SortedMembers(Members(last.capabilities));
    assert TipCapabilities(Map(hops, Canonical)) == Members(last.capabilities);
    if Members(h.capabilities) <= Members(last.capabilities) {
      forall c | c in h.capabilities ensures c in last.capabilities {
        assert c in Members(h.capabilities);
      }
    }
  }

  lemma {:induction false} ShapeMeans(h: Hop)
    ensures HopOk(h) <==> WellShaped(h)
  {
  }

  /** The two checks against the loaded chain. */
  ghost predicate FitsChain(existing: seq<Hop>, h: Hop) {
    && |existing| < U32_RANGE && h.index == |existing|
    && (existing != [] ==> Members(h.capabilities) <= TipCapabilities(existing))
  }

  lemma {:induction false} PersistIs(db: Security, chain: ChainId, existing: seq<Hop>, h: Hop)
    requires LoadChain(db, chain) == Ok(existing)
    ensures Persist(db, chain, h).Ok? <==>
              HopOk(h) && GrantCapabilities(db.grants, h.grants) == Some(Members(h.capabilities)) && FitsChain(existing, h)
    ensures Persist(db, chain, h).Ok? ==> Persist(db, chain, h).value.grants == db.grants
  {
  }

  lemma {:induction false} FitsMeans(hops: seq<Hop>, h: Hop)
    ensures FitsChain(Map(hops, Canonical), h) <==> Continues(hops, h)
  {
    if hops != [] {
      SameTip(hops, h);
    }
  }

  lemma {:induction false} AcceptMeans(l: Ledger, chain: ChainId, h: Hop)
    requires ChainStored(l, chain)
    ensures Persist(l.db, chain, h).Ok? <==> WellShaped(h) && Backed(l.db.grants, h) && Continues(Persisted(l, chain), h)
  {
    PersistIs(l.db, chain, Map(Persisted(l, chain), Canonical), h);
    ShapeMeans(h);
    BackedMeans(l.db.grants, h);
    FitsMeans(Persisted(l, chain), h);
  }

  /** The ledger after a hop was offered. */
  lemma {:induction false} OfferMeans(l: Ledger, chain: ChainId, h: Hop)
    ensures var l' := Step(l, Extend(chain, h));
            if Persist(l.db, chain, h).Ok?
            then Persisted(l', chain) == Persisted(l, chain) + [h] && l'.db.grants == l.db.grants
            else l' == l
  {
  }

  /**
   * In every reachable store a hop is accepted exactly when it is well shaped, continues the chain as
   * persisted so far, and its grants carry its capabilities; the chain then is what it was and this hop.
   */
  lemma {:induction false} HopAccepted(ops: seq<Op>, chain: ChainId, h: Hop)
    ensures var l := Run(ops);
            var l' := Step(l, Extend(chain, h));
            if WellShaped(h) && Backed(l.db.grants, h) && Continues(Persisted(l, chain), h)
            then Persisted(l', chain) == Persisted(l, chain) + [h] && l'.db.grants == l.db.grants
            else l' == l
  {
    ChainsReload(ops, chain);
    AcceptMeans(Run(ops), chain, h);
    OfferMeans(Run(ops), chain, h);
  }

  /** A child chain may ask for exactly what the tip of a valid chain holds; it gets each capability once, in order. */
  lemma {:induction false} DeriveMeans(parent: seq<Hop>, requested: seq<Capability>)
    ensures var r := DeriveChild(parent, requested);
            && (r == Err(Integrity) <==> !ValidChain(parent))
            && (r.Ok? <==> ValidChain(parent) && forall c :: c in requested ==> parent != [] && c in parent[|parent| - 1].capabilities)
            && (r.Ok? ==> Distinct(r.value) && Increasing(r.value, Rank) && forall c :: c in r.value <==> c in requested)
  {
    SortedMembers(Members(requested));
    if Members(requested) <= TipCapabilities(parent) {
      forall c | c in requested ensures parent != [] && c in parent[|parent| - 1].capabilities {
        assert c in Members(requested);
      }
    }
    forall c ensures c in Sorted(Members(requested)) <==> c in requested {
      assert c in Members(Sorted(Members(requested))) <==> c in Members(requested);
    }
  }
}
