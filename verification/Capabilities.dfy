/** The capability catalogue: families, actions, their tokens and their order (identity/src/delegation.rs). */
module Capabilities {
  import opened Common
  import opened Text

  datatype Family = Workspace | Network | Secret | Agent | Extension | Config | Effect | Resource

  datatype Action =
    | Read | Write | Fork | Merge | TransferExclusive | SharedCoordinated | Connect | Use | SignOrAct | Spawn
    | Install | Enable | Disable | Propose | Test | Activate | Rollback | Reconcile | ResolveUnknown | Reserve

  datatype Capability = Capability(family: Family, action: Action)

  /** The pairs the capability contract defines. */
  predicate IsSupported(c: Capability) {
    match c.family
    case Workspace => c.action in {Read, Write, Fork, Merge, TransferExclusive, SharedCoordinated}
    case Network => c.action.Connect?
    case Secret => c.action in {Use, SignOrAct}
    case Agent => c.action.Spawn?
    case Extension => c.action in {Install, Enable, Disable}
    case Config => c.action in {Propose, Test, Activate, Rollback}
    case Effect => c.action in {Reconcile, ResolveUnknown}
    case Resource => c.action.Reserve?
  }

  // ---- Tokens ----

  const FAMILIES: seq<(Family, string)> := [
    (Workspace, "workspace"), (Network, "network"), (Secret, "secret"), (Agent, "agent"),
    (Extension, "extension"), (Config, "config"), (Effect, "effect"), (Resource, "resource")]

  const ACTIONS: seq<(Action, string)> := [
    (Read, "read"), (Write, "write"), (Fork, "fork"), (Merge, "merge"),
    (TransferExclusive, "transfer_exclusive_write"), (SharedCoordinated, "shared_coordinated_write"),
    (Connect, "connect"), (Use, "use"), (SignOrAct, "sign_or_act"), (Spawn, "spawn"),
    (Install, "install"), (Enable, "enable"), (Disable, "disable"),
    (Propose, "propose"), (Test, "test"), (Activate, "activate"), (Rollback, "rollback"),
    (Reconcile, "reconcile"), (ResolveUnknown, "resolve_unknown"), (Reserve, "reserve")]

  /** Declaration order, which is the derived order of the source's enums. */
  function FamilyIndex(f: Family): (i: nat)
    ensures i < 8
  {
    match f
    case Workspace => 0 case Network => 1 case Secret => 2 case Agent => 3
    case Extension => 4 case Config => 5 case Effect => 6 case Resource => 7
  }

  function ActionIndex(a: Action): (i: nat)
    ensures i < 20
  {
    match a
    case Read => 0 case Write => 1 case Fork => 2 case Merge => 3 case TransferExclusive => 4
    case SharedCoordinated => 5 case Connect => 6 case Use => 7 case SignOrAct => 8 case Spawn => 9
    case Install => 10 case Enable => 11 case Disable => 12 case Propose => 13 case Test => 14
    case Activate => 15 case Rollback => 16 case Reconcile => 17 case ResolveUnknown => 18 case Reserve => 19
  }

  function FamilyAt(i: nat): (f: Family)
    requires i < 8
    ensures FamilyIndex(f) == i
  {
    FAMILIES[i].0
  }

  function ActionAt(i: nat): (a: Action)
    requires i < 20
    ensures ActionIndex(a) == i
  {
    ACTIONS[i].0
  }

  function FamilyToken(f: Family): string { FAMILIES[FamilyIndex(f)].1 }

  function ActionToken(a: Action): string { ACTIONS[ActionIndex(a)].1 }

  /** The entry of `table` with this token. */
  function Lookup<T>(table: seq<(T, string)>, token: string): Option<T> {
    if table == [] then None
    else if table[0].1 == token then Some(table[0].0)
    else Lookup(table[1..], token)
  }

  function Print(c: Capability): string { FamilyToken(c.family) + "." + ActionToken(c.action) }

  function Parse(text: string): Option<Capability> {
    match SplitOnce(text, ".")
    case None => None
    case Some((front, back)) =>
      var family, action := Lookup(FAMILIES, front), Lookup(ACTIONS, back);
      if family.None? || action.None? then None
      else
        var c := Capability(family.value, action.value);
        if IsSupported(c) then Some(c) else None
  }

  // ---- Printing and parsing ----

  predicate DistinctTokens<T(==)>(table: seq<(T, string)>) {
    forall i, j :: 0 <= i < j < |table| ==> table[i].1 != table[j].1
  }

  lemma {:induction false} LookupAt<T>(table: seq<(T, string)>, i: nat)
    requires DistinctTokens(table) && i < |table|
    ensures Lookup(table, table[i].1) == Some(table[i].0)
  {
    if i > 0 {
      LookupAt(table[1..], i - 1);
    }
  }

  lemma {:induction false} LookupFound<T>(table: seq<(T, string)>, token: string) returns (i: nat)
    requires Lookup(table, token).Some?
    ensures i < |table| && table[i] == (Lookup(table, token).value, token)
  {
    if table[0].1 == token {
      i := 0;
    } else {
      var k := LookupFound(table[1..], token);
      i := k + 1;
    }
  }

  lemma {:induction false} FamilyTokens()
    ensures DistinctTokens(FAMILIES)
  {
  }

  lemma {:induction false} ActionTokens()
    ensures DistinctTokens(ACTIONS)
  {
  }

  lemma {:induction false} FamilyLookup(f: Family)
    ensures Lookup(FAMILIES, FamilyToken(f)) == Some(f)
  {
    FamilyTokens();
    LookupAt(FAMILIES, FamilyIndex(f));
    assert FamilyAt(FamilyIndex(f)) == f;
  }

  lemma {:induction false} ActionEntry(a: Action)
    ensures ActionIndex(a) < |ACTIONS| && ACTIONS[ActionIndex(a)] == (a, ActionToken(a))
  {
    assert ActionAt(ActionIndex(a)) == a;
  }

  lemma {:induction false} ActionLookup(a: Action)
    ensures Lookup(ACTIONS, ActionToken(a)) == Some(a)
  {
    ActionTokens();
    ActionEntry(a);
    LookupAt(ACTIONS, ActionIndex(a));
  }

  lemma {:induction false} FamilyFound(token: string)
    requires Lookup(FAMILIES, token).Some?
    ensures FamilyToken(Lookup(FAMILIES, token).value) == token
  {
    var i := LookupFound(FAMILIES, token);
    assert FamilyIndex(FamilyAt(i)) == i;
  }

  lemma {:induction false} ActionFound(token: string)
    requires Lookup(ACTIONS, token).Some?
    ensures ActionToken(Lookup(ACTIONS, token).value) == token
  {
    var i := LookupFound(ACTIONS, token);
    assert ActionIndex(ActionAt(i)) == i;
  }

  lemma {:induction false} FamilyHasNoDot(f: Family)
    ensures '.' !in FamilyToken(f)
  {
  }

  /** The two halves of a printed capability. */
  lemma {:induction false} PrintSplits(c: Capability)
    ensures SplitOnce(Print(c), ".") == Some((FamilyToken(c.family), ActionToken(c.action)))
  {
    FamilyHasNoDot(c.family);
    SplitOnceAt(FamilyToken(c.family), ActionToken(c.action), '.');
  }

  /** A printed capability parses back to itself exactly when the contract defines it. */
  lemma {:induction false} ParsePrint(c: Capability)
    ensures Parse(Print(c)) == if IsSupported(c) then Some(c) else None
  {
    PrintSplits(c);
    FamilyLookup(c.family);
    ActionLookup(c.action);
  }

  /** Only the printed form of a supported capability parses. */
  lemma {:induction false} PrintParse(text: string)
    requires Parse(text).Some?
    ensures IsSupported(Parse(text).value) && Print(Parse(text).value) == text
  {
    var (family, action) := SplitOnce(text, ".").value;
    SplitOnceHead(text, '.');
    FamilyFound(family);
    ActionFound(action);
  }

  /** Printing tells all pairs apart, supported or not. */
  lemma {:induction false} PrintIsInjective(a: Capability, b: Capability)
    requires Print(a) == Print(b)
    ensures a == b
  {
    PrintSplits(a);
    PrintSplits(b);
    FamilyLookup(a.family);
    FamilyLookup(b.family);
    ActionLookup(a.action);
    ActionLookup(b.action);
  }

  lemma {:induction false} PrintLength(c: Capability)
    ensures |Print(c)| <= 34
  {
    assert forall i :: 0 <= i < 8 ==> |FAMILIES[i].1| <= 9;
    assert forall i :: 0 <= i < 20 ==> |ACTIONS[i].1| <= 24;
  }

  // ---- Order ----

  /** The members of `s` among `at(from)`, ..., `at(n - 1)`, in that order: how an ordered set iterates. */
  function Listed<T(==)>(s: set<T>, at: nat -> T, from: nat, n: nat): seq<T>
    requires from <= n
    decreases n - from
  {
    if from == n then [] else (if at(from) in s then [at(from)] else []) + Listed(s, at, from + 1, n)
  }

  ghost predicate Enumerates<T(!new)>(at: nat -> T, rank: T -> nat, n: nat) {
    && (forall r: nat :: r < n ==> rank(at(r)) == r)
    && (forall x :: rank(x) < n && at(rank(x)) == x)
  }

  ghost predicate Increasing<T>(s: seq<T>, rank: T -> nat) { forall i, j :: 0 <= i < j < |s| ==> rank(s[i]) < rank(s[j]) }

  lemma {:induction false} ListedMember<T(!new)>(s: set<T>, at: nat -> T, rank: T -> nat, from: nat, n: nat, x: T)
    requires from <= n && Enumerates(at, rank, n)
    ensures x in Listed(s, at, from, n) <==> x in s && from <= rank(x)
    decreases n - from
  {
    if from < n {
      ListedMember(s, at, rank, from + 1, n, x);
      assert rank(at(from)) == from && at(rank(x)) == x;
    }
  }

  lemma {:induction false} ListedLength<T>(s: set<T>, at: nat -> T, from: nat, n: nat)
    requires from <= n
    ensures |Listed(s, at, from, n)| <= n - from
    decreases n - from
  {
    if from < n {
      ListedLength(s, at, from + 1, n);
    }
  }

  lemma {:induction false} ListedIncreases<T(!new)>(s: set<T>, at: nat -> T, rank: T -> nat, from: nat, n: nat)
    requires from <= n && Enumerates(at, rank, n)
    ensures Increasing(Listed(s, at, from, n), rank)
    decreases n - from
  {
    if from < n {
      ListedIncreases(s, at, rank, from + 1, n);
      var rest := Listed(s, at, from + 1, n);
      forall i | 0 <= i < |rest| ensures rank(at(from)) < rank(rest[i]) {
        ListedMember(s, at, rank, from + 1, n, rest[i]);
      }
    }
  }

  function Rank(c: Capability): nat { FamilyIndex(c.family) * 20 + ActionIndex(c.action) }

  const RANKS := 160

  function AtRank(r: nat): Capability {
    if r < RANKS then Capability(FamilyAt(r / 20), ActionAt(r % 20)) else Capability(Workspace, Read)
  }

  lemma {:induction false} RanksEnumerate()
    ensures Enumerates(AtRank, Rank, RANKS)
  {
    forall r | 0 <= r < RANKS ensures Rank(AtRank(r)) == r {
    }
    forall c ensures Rank(c) < RANKS && AtRank(Rank(c)) == c {
      AtRankOf(c);
    }
  }

  lemma {:induction false} AtRankOf(c: Capability)
    ensures Rank(c) < RANKS && AtRank(Rank(c)) == c
  {
    var f, a := FamilyIndex(c.family), ActionIndex(c.action);
    assert (f * 20 + a) / 20 == f && (f * 20 + a) % 20 == a;
    assert FamilyAt(f) == c.family && ActionAt(a) == c.action;
  }

  /** Family first, then action, each in declaration order. */
  function Sorted(s: set<Capability>): seq<Capability> { Listed(s, AtRank, 0, RANKS) }

  function Members<T>(s: seq<T>): set<T> { set x | x in s }

  /** Sorting a set lists each member once, in order. */
  lemma {:induction false} SortedMembers(s: set<Capability>)
    ensures Members(Sorted(s)) == s && Increasing(Sorted(s), Rank) && Distinct(Sorted(s))
  {
    RanksEnumerate();
    ListedIncreases(s, AtRank, Rank, 0, RANKS);
    forall c ensures c in Sorted(s) <==> c in s {
      ListedMember(s, AtRank, Rank, 0, RANKS, c);
    }
  }
}
