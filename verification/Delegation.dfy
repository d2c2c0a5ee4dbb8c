/** Delegation chains: the grant-id codec, chain validation, persistence and loading (identity/src/delegation.rs). */
module Delegation {
  import opened Common
  import opened Ids
  import opened Capabilities

  // ---- Grant identifiers ----

  datatype IdBytes = IdBytes(text: seq<byte>)

  type GrantId = g: IdBytes | IsCanonicalId(g.text) witness IdBytes(ZERO_ID)

  function Encode(ids: seq<GrantId>): seq<byte> {
    if ids == [] then [] else ids[0].text + Encode(ids[1..])
  }

  /** Succeeds exactly on concatenations of canonical identifiers. */
  function Decode(blob: seq<byte>): Option<seq<GrantId>>
    decreases |blob|
  {
    if blob == [] then Some([])
    else if |blob| < WIDTH || !IsCanonicalId(blob[..WIDTH]) then None
    else
      match Decode(blob[WIDTH..])
      case None => None
      case Some(rest) => Some([IdBytes(blob[..WIDTH])] + rest)
  }

  lemma {:induction false} DecodeEncode(ids: seq<GrantId>)
    ensures Decode(Encode(ids)) == Some(ids)
  {
    if ids != [] {
      DecodeEncode(ids[1..]);
      assert Encode(ids)[..WIDTH] == ids[0].text && Encode(ids)[WIDTH..] == Encode(ids[1..]);
      assert IdBytes(ids[0].text) == ids[0] && ids == [ids[0]] + ids[1..];
    }
  }

  /** A blob that decodes is the encoding of what it decodes to. */
  lemma {:induction false} EncodeDecode(blob: seq<byte>)
    requires Decode(blob).Some?
    ensures Encode(Decode(blob).value) == blob
    decreases |blob|
  {
    if blob != [] {
      EncodeDecode(blob[WIDTH..]);
      var rest := Decode(blob[WIDTH..]).value;
      assert ([IdBytes(blob[..WIDTH])] + rest)[1..] == rest;
      assert blob == blob[..WIDTH] + blob[WIDTH..];
    }
  }

  /** The blob is the identifiers side by side, in order. */
  lemma {:induction false} EncodeAt(ids: seq<GrantId>, i: nat)
    requires i < |ids|
    ensures |Encode(ids)| == WIDTH * |ids| && Encode(ids)[WIDTH * i..WIDTH * (i + 1)] == ids[i].text
  {
    if |ids| > 1 {
      EncodeAt(ids[1..], if i == 0 then 0 else i - 1);
    }
  }

  method EncodeGrantIds(ids: seq<GrantId>) returns (blob: seq<byte>)
    ensures blob == Encode(ids)
  {
    blob := [];
    for i := 0 to |ids|
      invariant blob + Encode(ids[i..]) == Encode(ids)
    {
      assert ids[i..][1..] == ids[i + 1..];
      assert blob + (ids[i].text + Encode(ids[i + 1..])) == (blob + ids[i].text) + Encode(ids[i + 1..]);
      blob := blob + ids[i].text;
    }
  }

  lemma {:induction false} DecodeLength(blob: seq<byte>)
    requires Decode(blob).Some?
    ensures |blob| % WIDTH == 0
    decreases |blob|
  {
    if blob != [] {
      DecodeLength(blob[WIDTH..]);
    }
  }

  /** The loop over 36-byte chunks, after the length check. */
  method DecodeGrantIds(blob: seq<byte>) returns (r: Option<seq<GrantId>>)
    ensures r == Decode(blob)
  {
    if |blob| % WIDTH != 0 {
      if Decode(blob).Some? { DecodeLength(blob); }
      return None;
    }
    var ids, i := [], 0;
    assert blob[0..] == blob;
    while i < |blob|
      invariant 0 <= i <= |blob| && (|blob| - i) % WIDTH == 0
      invariant Decode(blob).Some? <==> Decode(blob[i..]).Some?
      invariant Decode(blob).Some? ==> Decode(blob).value == ids + Decode(blob[i..]).value
    {
      var chunk := blob[i..i + WIDTH];
      assert blob[i..][..WIDTH] == chunk && blob[i..][WIDTH..] == blob[i + WIDTH..];
      if !IsCanonicalId(chunk) { return None; }
      ghost var rest := Decode(blob[i + WIDTH..]);
      assert rest.Some? ==> ids + ([IdBytes(chunk)] + rest.value) == (ids + [IdBytes(chunk)]) + rest.value;
      ids := ids + [IdBytes(chunk)];
      i := i + WIDTH;
    }
    assert ids + [] == ids;
    r := Some(ids);
  }

  // ---- Chains ----

  datatype ActorId = ActorId(text: string)

  datatype RunId = RunId(text: string)

  datatype ChainId = ChainId(text: string)

  datatype Hop = Hop(index: nat, actor: ActorId, run: Option<RunId>, grants: seq<GrantId>, capabilities: seq<Capability>)

  const U32_RANGE := 0x1_0000_0000

  /** A hop repeats nothing and claims no more capabilities than it cites grants. */
  ghost predicate HopOk(h: Hop) { Distinct(h.grants) && Distinct(h.capabilities) && |h.capabilities| <= |h.grants| }

  ghost predicate LinkOk(hops: seq<Hop>, i: nat)
    requires i < |hops|
  {
    && i < U32_RANGE && hops[i].index == i && HopOk(hops[i])
    && (i > 0 ==> Members(hops[i].capabilities) <= Members(hops[i - 1].capabilities))
  }

  ghost predicate ValidChain(hops: seq<Hop>) { forall i :: 0 <= i < |hops| ==> LinkOk(hops, i) }

  /** Shape checks by set size, as the source does them. */
  method HopCapabilities(h: Hop) returns (r: Option<set<Capability>>)
    ensures r == if HopOk(h) then Some(Members(h.capabilities)) else None
  {
    var grants, capabilities := Members(h.grants), Members(h.capabilities);
    DistinctCardinality(h.grants);
    DistinctCardinality(h.capabilities);
    if |grants| != |h.grants| { return None; }
    if |capabilities| != |h.capabilities| { return None; }
    if capabilities != {} && grants == {} { return None; }
    if |capabilities| > |grants| { return None; }
    r := Some(capabilities);
  }

  method ValidateChain(hops: seq<Hop>) returns (ok: bool)
    ensures ok <==> ValidChain(hops)
  {
    var previous: Option<set<Capability>> := None;
    for i := 0 to |hops|
      invariant forall k :: 0 <= k < i ==> LinkOk(hops, k)
      invariant previous == if i == 0 then None else Some(Members(hops[i - 1].capabilities))
    {
      if i >= U32_RANGE || hops[i].index != i { assert !LinkOk(hops, i); return false; }
      var capabilities := HopCapabilities(hops[i]);
      if capabilities.None? { assert !LinkOk(hops, i); return false; }
      if previous.Some? && !(capabilities.value <= previous.value) { assert !LinkOk(hops, i); return false; }
      previous := capabilities;
    }
    ok := true;
  }

  /** Capability sets only shrink along a valid chain. */
  lemma {:induction false} ChainShrinks(hops: seq<Hop>, i: nat, j: nat)
    requires ValidChain(hops) && i <= j < |hops|
    ensures Members(hops[j].capabilities) <= Members(hops[i].capabilities)
    decreases j
  {
    if i < j {
      assert LinkOk(hops, j);
      ChainShrinks(hops, i, j - 1);
    }
  }

  // ---- Deriving a child ----

  function TipCapabilities(hops: seq<Hop>): set<Capability> {
    if hops == [] then {} else Members(hops[|hops| - 1].capabilities)
  }

  datatype DelegationError = Integrity | Invalid

  ghost function DeriveChild(parent: seq<Hop>, requested: seq<Capability>): Result<seq<Capability>, DelegationError> {
    if !ValidChain(parent) then Err(Integrity)
    else if Members(requested) <= TipCapabilities(parent) then Ok(Sorted(Members(requested)))
    else Err(Invalid)
  }

  method DeriveChildChain(parent: seq<Hop>, requested: seq<Capability>) returns (r: Result<seq<Capability>, DelegationError>)
    ensures r == DeriveChild(parent, requested)
  {
    var ok := ValidateChain(parent);
    if !ok { return Err(Integrity); }
    var held := TipCapabilities(parent);
    var derived: set<Capability> := {};
    for i := 0 to |requested|
      invariant derived == Members(requested[..i]) && derived <= held
    {
      if requested[i] !in held {
        assert requested[i] in Members(requested);
        return Err(Invalid);
      }
      assert requested[..i + 1] == requested[..i] + [requested[i]];
      derived := derived + {requested[i]};
    }
    assert requested[..|requested|] == requested;
    r := Ok(Sorted(derived));
  }

  /** A hop built from a derived set extends the chain, given enough distinct grants to back it. */
  lemma {:induction false} DerivedHopExtends(parent: seq<Hop>, requested: seq<Capability>, hop: Hop)
    requires DeriveChild(parent, requested).Ok? && |parent| < U32_RANGE
    requires hop.index == |parent| && hop.capabilities == DeriveChild(parent, requested).value
    requires Distinct(hop.grants) && |hop.capabilities| <= |hop.grants|
    ensures ValidChain(parent + [hop]) && Members(hop.capabilities) == Members(requested)
  {
    SortedMembers(Members(requested));
    ExtendValid(parent, hop);
  }

  lemma {:induction false} ExtendValid(hops: seq<Hop>, hop: Hop)
    requires ValidChain(hops) && |hops| < U32_RANGE && hop.index == |hops| && HopOk(hop)
    requires hops != [] ==> Members(hop.capabilities) <= TipCapabilities(hops)
    ensures ValidChain(hops + [hop])
  {
    forall i | 0 <= i < |hops + [hop]| ensures LinkOk(hops + [hop], i) {
      if i < |hops| {
        assert LinkOk(hops, i);
      }
    }
  }

  // ---- The store ----

  datatype HopRow = HopRow(index: nat, actor: ActorId, run: Option<RunId>, blob: seq<byte>)

  /** Insert-only tables: grants by id, and each chain's hops in index order. */
  datatype Security = Security(grants: map<GrantId, string>, hops: map<ChainId, seq<HopRow>>)

  function Rows(db: Security, chain: ChainId): seq<HopRow> { if chain in db.hops then db.hops[chain] else [] }

  /** The capabilities behind a list of grants; `None` when one is missing or unreadable. */
  function GrantCapabilities(grants: map<GrantId, string>, ids: seq<GrantId>): Option<set<Capability>> {
    if ids == [] then Some({})
    else
      var n := |ids| - 1;
      match GrantCapabilities(grants, ids[..n])
      case None => None
      case Some(held) =>
        if ids[n] !in grants || Parse(grants[ids[n]]).None? then None else Some(held + {Parse(grants[ids[n]]).value})
  }

  function LoadHop(db: Security, row: HopRow): Option<Hop> {
    match Decode(row.blob)
    case None => None
    case Some(ids) =>
      match GrantCapabilities(db.grants, ids)
      case None => None
      case Some(held) => Some(Hop(row.index, row.actor, row.run, ids, Sorted(held)))
  }

  function LoadHops(db: Security, rows: seq<HopRow>): Option<seq<Hop>> {
    if rows == [] then Some([])
    else
      var n := |rows| - 1;
      match LoadHops(db, rows[..n])
      case None => None
      case Some(hops) =>
        match LoadHop(db, rows[n])
        case None => None
        case Some(hop) => Some(hops + [hop])
  }

  ghost function LoadChain(db: Security, chain: ChainId): Result<seq<Hop>, DelegationError> {
    var hops := LoadHops(db, Rows(db, chain));
    if hops.Some? && ValidChain(hops.value) then Ok(hops.value) else Err(Integrity)
  }

  function RowOf(h: Hop): HopRow { HopRow(h.index, h.actor, h.run, Encode(h.grants)) }

  ghost function Persist(db: Security, chain: ChainId, h: Hop): Result<Security, DelegationError> {
    if !HopOk(h) || GrantCapabilities(db.grants, h.grants) != Some(Members(h.capabilities)) then Err(Integrity)
    else
      match LoadChain(db, chain)
      case Err(e) => Err(e)
      case Ok(existing) =>
        if |existing| >= U32_RANGE || h.index != |existing| then Err(Integrity)
        else if existing != [] && !(Members(h.capabilities) <= TipCapabilities(existing)) then Err(Integrity)
        else Ok(db.(hops := db.hops[chain := Rows(db, chain) + [RowOf(h)]]))
  }

  class SecurityStore {
    var grants: map<GrantId, string>
    var hops: map<ChainId, seq<HopRow>>

    function View(): Security
      reads this
    {
      Security(grants, hops)
    }

    constructor ()
      ensures View() == Security(map[], map[])
    {
      grants, hops := map[], map[];
    }

    method ResolveGrants(ids: seq<GrantId>) returns (r: Option<set<Capability>>)
      ensures r == GrantCapabilities(grants, ids)
    {
      var held: set<Capability> := {};
      for i := 0 to |ids|
        invariant GrantCapabilities(grants, ids[..i]) == Some(held)
      {
        assert ids[..i + 1][..i] == ids[..i];
        if ids[i] !in grants || Parse(grants[ids[i]]).None? {
          MissingGrant(grants, ids, i);
          return None;
        }
        held := held + {Parse(grants[ids[i]]).value};
      }
      assert ids[..|ids|] == ids;
      r := Some(held);
    }

    method LoadRow(row: HopRow) returns (h: Option<Hop>)
      ensures h == LoadHop(View(), row)
    {
      var ids := DecodeGrantIds(row.blob);
      if ids.None? { return None; }
      var held := ResolveGrants(ids.value);
      if held.None? { return None; }
      h := Some(Hop(row.index, row.actor, row.run, ids.value, Sorted(held.value)));
    }

    method Load(chain: ChainId) returns (r: Result<seq<Hop>, DelegationError>)
      ensures r == LoadChain(View(), chain)
    {
      var rows := Rows(View(), chain);
      var out := [];
      for i := 0 to |rows|
        invariant LoadHops(View(), rows[..i]) == Some(out)
      {
        assert rows[..i + 1][..i] == rows[..i];
        var hop := LoadRow(rows[i]);
        if hop.None? { BadRow(View(), rows, i); return Err(Integrity); }
        out := out + [hop.value];
      }
      assert rows[..|rows|] == rows;
      var ok := ValidateChain(out);
      r := if ok then Ok(out) else Err(Integrity);
    }

    /** Shape, grants and declared capabilities of a hop must agree. */
    method ResolveHop(h: Hop) returns (ok: bool)
      ensures ok <==> HopOk(h) && GrantCapabilities(grants, h.grants) == Some(Members(h.capabilities))
    {
      var declared := HopCapabilities(h);
      if declared.None? { return false; }
      var derived := ResolveGrants(h.grants);
      ok := derived == declared;
    }

    method PersistHop(chain: ChainId, h: Hop) returns (r: Result<(), DelegationError>)
      modifies this
      ensures match Persist(old(View()), chain, h)
              case Ok(db) => View() == db && r == Ok(())
              case Err(e) => View() == old(View()) && r == Err(e)
    {
      var resolved := ResolveHop(h);
      if !resolved { return Err(Integrity); }
      var existing := Load(chain);
      if existing.Err? { return Err(existing.error); }
      var n := |existing.value|;
      if n >= U32_RANGE || h.index != n { return Err(Integrity); }
      if n > 0 && !(Members(h.capabilities) <= Members(existing.value[n - 1].capabilities)) { return Err(Integrity); }
      var blob := EncodeGrantIds(h.grants);
      hops := hops[chain := Rows(View(), chain) + [HopRow(h.index, h.actor, h.run, blob)]];
      r := Ok(());
    }
  }

  lemma {:induction false} MissingGrant(grants: map<GrantId, string>, ids: seq<GrantId>, i: nat)
    requires i < |ids| && (ids[i] !in grants || Parse(grants[ids[i]]).None?)
    ensures GrantCapabilities(grants, ids).None?
    decreases |ids|
  {
    if i < |ids| - 1 {
      MissingGrant(grants, ids[..|ids| - 1], i);
    }
  }

  lemma {:induction false} BadRow(db: Security, rows: seq<HopRow>, i: nat)
    requires i < |rows| && LoadHop(db, rows[i]).None?
    ensures LoadHops(db, rows).None?
    decreases |rows|
  {
    if i < |rows| - 1 {
      BadRow(db, rows[..|rows| - 1], i);
    }
  }

  // ---- Runs ----

  datatype Op = Grant(id: GrantId, capability: string) | Extend(chain: ChainId, hop: Hop)

  /** The store, and for each chain the hops whose persistence succeeded, in order. */
  datatype Ledger = Ledger(db: Security, persisted: map<ChainId, seq<Hop>>)

  const Start := Ledger(Security(map[], map[]), map[])

  function Persisted(l: Ledger, chain: ChainId): seq<Hop> { if chain in l.persisted then l.persisted[chain] else [] }

  ghost function Step(l: Ledger, op: Op): Ledger {
    match op
    case Grant(id, capability) =>
      if id in l.db.grants then l else l.(db := l.db.(grants := l.db.grants[id := capability]))
    case Extend(chain, hop) =>
      var r := Persist(l.db, chain, hop);
      if r.Err? then l else Ledger(r.value, l.persisted[chain := Persisted(l, chain) + [hop]])
  }

  ghost function Run(ops: seq<Op>): Ledger {
    if ops == [] then Start else Step(Run(ops[..|ops| - 1]), ops[|ops| - 1])
  }

  function Canonical(h: Hop): Hop { h.(capabilities := Sorted(Members(h.capabilities))) }

  ghost predicate ChainStored(l: Ledger, chain: ChainId) {
    LoadChain(l.db, chain) == Ok(Map(Persisted(l, chain), Canonical))
  }

  lemma {:induction false} GrantsGrow(grants: map<GrantId, string>, id: GrantId, capability: string, ids: seq<GrantId>)
    requires id !in grants && GrantCapabilities(grants, ids).Some?
    ensures GrantCapabilities(grants[id := capability], ids) == GrantCapabilities(grants, ids)
  {
    if ids != [] {
      GrantsGrow(grants, id, capability, ids[..|ids| - 1]);
    }
  }

  lemma {:induction false} LoadGrows(db: Security, db': Security, id: GrantId, capability: string, rows: seq<HopRow>)
    requires id !in db.grants && db' == db.(grants := db.grants[id := capability]) && LoadHops(db, rows).Some?
    ensures LoadHops(db', rows) == LoadHops(db, rows)
  {
    if rows != [] {
      var n := |rows| - 1;
      LoadGrows(db, db', id, capability, rows[..n]);
      GrantsGrow(db.grants, id, capability, Decode(rows[n].blob).value);
    }
  }

  /** Loading depends on the grants only. */
  lemma {:induction false} LoadFrame(db: Security, db': Security, rows: seq<HopRow>)
    requires db'.grants == db.grants
    ensures LoadHops(db', rows) == LoadHops(db, rows)
  {
    if rows != [] {
      LoadFrame(db, db', rows[..|rows| - 1]);
    }
  }

  lemma {:induction false} CanonicalOk(h: Hop)
    requires HopOk(h)
    ensures HopOk(Canonical(h)) && Members(Canonical(h).capabilities) == Members(h.capabilities)
  {
    SortedMembers(Members(h.capabilities));
    DistinctCardinality(h.capabilities);
    DistinctCardinality(Canonical(h).capabilities);
  }

  lemma {:induction false} PersistedHopLoads(db: Security, h: Hop)
    requires GrantCapabilities(db.grants, h.grants) == Some(Members(h.capabilities))
    ensures LoadHop(db, RowOf(h)) == Some(Canonical(h))
  {
    DecodeEncode(h.grants);
  }

  lemma {:induction false} LoadOneMore(db: Security, rows: seq<HopRow>, row: HopRow)
    requires LoadHops(db, rows).Some? && LoadHop(db, row).Some?
    ensures LoadHops(db, rows + [row]) == Some(LoadHops(db, rows).value + [LoadHop(db, row).value])
  {
    assert (rows + [row])[..|rows|] == rows;
  }

  /** What a successful persist has checked. */
  lemma {:induction false} PersistChecks(db: Security, chain: ChainId, h: Hop)
    requires Persist(db, chain, h).Ok?
    ensures HopOk(h) && GrantCapabilities(db.grants, h.grants) == Some(Members(h.capabilities))
    ensures LoadChain(db, chain).Ok? && LoadHops(db, Rows(db, chain)) == Some(LoadChain(db, chain).value)
    ensures var existing := LoadChain(db, chain).value;
            && ValidChain(existing) && |existing| < U32_RANGE && h.index == |existing|
            && (existing != [] ==> Members(h.capabilities) <= TipCapabilities(existing))
    ensures Persist(db, chain, h).value == db.(hops := db.hops[chain := Rows(db, chain) + [RowOf(h)]])
  {
  }

  lemma {:induction false} ExtendLoads(db: Security, chain: ChainId, h: Hop)
    requires Persist(db, chain, h).Ok?
    ensures LoadChain(Persist(db, chain, h).value, chain) == Ok(LoadChain(db, chain).value + [Canonical(h)])
  {
    PersistChecks(db, chain, h);
    var db' := Persist(db, chain, h).value;
    LoadFrame(db, db', Rows(db, chain));
    PersistedHopLoads(db', h);
    LoadOneMore(db', Rows(db, chain), RowOf(h));
    CanonicalOk(h);
    ExtendValid(LoadChain(db, chain).value, Canonical(h));
  }

  lemma {:induction false} StepStores(l: Ledger, op: Op, chain: ChainId)
    requires ChainStored(l, chain)
    ensures ChainStored(Step(l, op), chain)
  {
    var l' := Step(l, op);
    match op
    case Grant(id, capability) =>
      if id !in l.db.grants {
        LoadGrows(l.db, l'.db, id, capability, Rows(l.db, chain));
      }
    case Extend(c, hop) =>
      if Persist(l.db, c, hop).Ok? {
        if c == chain {
          ExtendLoads(l.db, chain, hop);
          assert Map(Persisted(l, chain) + [hop], Canonical) == Map(Persisted(l, chain), Canonical) + [Canonical(hop)];
        } else {
          LoadFrame(l.db, l'.db, Rows(l.db, chain));
        }
      }
  }

  /** Any run of grants and hops reloads, for every chain, as exactly the hops persisted, in order. */
  lemma {:induction false} ChainsReload(ops: seq<Op>, chain: ChainId)
    ensures ChainStored(Run(ops), chain)
  {
    if ops == [] {
      assert Map([], Canonical) == [];
    } else {
      ChainsReload(ops[..|ops| - 1], chain);
      StepStores(Run(ops[..|ops| - 1]), ops[|ops| - 1], chain);
    }
  }

  /** In every reachable store authority only shrinks from hop to hop. */
  lemma {:induction false} AuthorityOnlyShrinks(ops: seq<Op>, chain: ChainId, i: nat, j: nat)
    requires i <= j < |Persisted(Run(ops), chain)|
    ensures var hops := Persisted(Run(ops), chain); Members(hops[j].capabilities) <= Members(hops[i].capabilities)
  {
    ChainsReload(ops, chain);
    var hops := Persisted(Run(ops), chain);
    ChainShrinks(Map(hops, Canonical), i, j);
    SortedMembers(Members(hops[i].capabilities));
    SortedMembers(Members(hops[j].capabilities));
  }
}
