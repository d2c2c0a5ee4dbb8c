/** Approval requests, their single response, and how they resolve (approvals/src/lib.rs). */
module Approvals {
  import opened Common
  import opened Text
  import opened Capabilities
  import opened Framing
  import Utf8

  // ---- Records ----

  datatype Digest = Digest(text: string)

  datatype RequestId = RequestId(text: string)

  datatype RequestRow = RequestRow(
    digest: Digest, principal: string, actor: string, run: Option<string>, operation: string, target: Option<string>,
    capabilityIds: seq<byte>, extensionDigest: Option<string>, configDigest: Option<string>, expires: int, nonce: string)

  datatype Verdict = Approve | Deny

  datatype Response = Response(digest: Digest, verdict: Verdict, device: string, principal: string, at: int)

  /** Append-only tables, each keyed by request id. */
  datatype Store = Store(requests: map<RequestId, RequestRow>, responses: map<RequestId, Response>)

  datatype ApprovalError = Invalid | NotFound | Internal | Conflict | Precondition

  datatype Outcome = Approved | Denied | Pending | Expired | Invalidated | Unrequested

  type Hash = seq<byte> -> Digest

  // ---- The persisted capability list ----

  function EncodeCapabilities(list: seq<Capability>): seq<byte> { Utf8.Encode(Join(TokenList(list), '\n')) }

  function ParseAll(tokens: seq<string>): Option<seq<Capability>> {
    if tokens == [] then Some([])
    else
      var head, tail := Parse(tokens[0]), ParseAll(tokens[1..]);
      if head.None? || tail.None? then None else Some([head.value] + tail.value)
  }

  function DecodeCapabilities(blob: seq<byte>): Option<seq<Capability>> {
    if blob == [] then Some([])
    else
      match Utf8.Decode(blob)
      case None => None
      case Some(text) => ParseAll(Split(text, '\n'))
  }

  lemma {:induction false} TokenHasNoNewline(c: Capability)
    ensures '\n' !in Print(c) && Print(c) != ""
  {
    assert forall i :: 0 <= i < 8 ==> '\n' !in FAMILIES[i].1;
    assert forall i :: 0 <= i < 20 ==> '\n' !in ACTIONS[i].1;
  }

  predicate AllSupported(list: seq<Capability>) { forall i :: 0 <= i < |list| ==> IsSupported(list[i]) }

  lemma {:induction false} ParseTokens(list: seq<Capability>)
    ensures ParseAll(TokenList(list)) == if AllSupported(list) then Some(list) else None
  {
    if list != [] {
      ParseTokens(list[1..]);
      ParsePrint(list[0]);
      assert TokenList(list)[1..] == TokenList(list[1..]);
      assert list == [list[0]] + list[1..];
      assert AllSupported(list) <==> IsSupported(list[0]) && AllSupported(list[1..]);
    }
  }

  lemma {:induction false} JoinIsNonempty(tokens: seq<string>)
    requires tokens != [] && tokens[0] != ""
    ensures Join(tokens, '\n') != ""
  {
  }

  /** The stored blob gives back the list it was written from, or nothing if some capability is not supported. */
  lemma {:induction false} CapabilitiesRoundTrip(list: seq<Capability>)
    ensures DecodeCapabilities(EncodeCapabilities(list)) == if AllSupported(list) then Some(list) else None
  {
    var tokens := TokenList(list);
    var text := Join(tokens, '\n');
    if list == [] {
      assert text == "";
    } else {
      forall i | 0 <= i < |tokens| ensures '\n' !in tokens[i] && tokens[i] != "" {
        TokenHasNoNewline(list[i]);
      }
      JoinIsNonempty(tokens);
      Utf8.EncodeLength(text);
      Utf8.DecodeEncode(text);
      SplitJoin(tokens, '\n');
      ParseTokens(list);
    }
  }

  // ---- Operations ----

  /** What is bound: an assigned id that is also the nonce, and canonical capabilities. */
  function Bound(input: DigestInput, id: RequestId): DigestInput {
    input.(requestId := Some(id.text), capabilities := Sorted(Members(input.capabilities)), nonce := id.text)
  }

  function NewRow(hash: Hash, input: DigestInput, id: RequestId): RequestRow {
    var b := Bound(input, id);
    RequestRow(hash(Frame(b)), b.principal, b.actor, b.run, b.operation, if b.target == "" then None else Some(b.target),
               EncodeCapabilities(b.capabilities), b.extensionDigest, b.configDigest, b.expiry, b.nonce)
  }

  /** The given id, or the identity of the command. */
  function IdFor(input: DigestInput, command: RequestId): RequestId {
    if input.requestId.Some? then RequestId(input.requestId.value) else command
  }

  predicate Acceptable(input: DigestInput) {
    !Blank(input.operation) && AllSupported(input.capabilities)
  }

  function Create(st: Store, hash: Hash, input: DigestInput, command: RequestId): (Store, Result<(RequestId, Digest), ApprovalError>) {
    var id := IdFor(input, command);
    if !Acceptable(input) then (st, Err(Invalid))
    else if id in st.requests then (st, Err(Conflict))
    else
      var row := NewRow(hash, input, id);
      (st.(requests := st.requests[id := row]), Ok((id, row.digest)))
  }

  /** The content a persisted row stands for. */
  function InputOf(id: RequestId, row: RequestRow): Option<DigestInput> {
    match DecodeCapabilities(row.capabilityIds)
    case None => None
    case Some(list) =>
      Some(DigestInput(Some(id.text), row.principal, row.actor, row.run, row.operation,
                       if row.target.Some? then row.target.value else "",
                       list, row.extensionDigest, row.configDigest, row.expires, row.nonce))
  }

  /** The digest over the row's fields, checked against the stored one. */
  function Checked(hash: Hash, id: RequestId, row: RequestRow): Result<Digest, ApprovalError> {
    match InputOf(id, row)
    case None => Err(Internal)
    case Some(input) => if hash(Frame(input)) == row.digest then Ok(row.digest) else Err(Internal)
  }

  /** The checks of a response, in order. */
  function Refusal(st: Store, hash: Hash, id: RequestId, digest: Digest, principal: string, device: Option<string>, now: int)
    : Option<ApprovalError>
  {
    if id !in st.requests then Some(NotFound)
    else
      var row := st.requests[id];
      if Checked(hash, id, row).Err? then Some(Checked(hash, id, row).error)
      else if digest != row.digest then Some(Conflict)
      else if now >= row.expires then Some(Precondition)
      else if id in st.responses then Some(Conflict)
      else if principal != row.principal then Some(Precondition)
      else if device.None? then Some(Invalid)
      else None
  }

  function Respond(st: Store, hash: Hash, id: RequestId, digest: Digest, verdict: Verdict, principal: string, device: Option<string>, now: int)
    : (Store, Result<(), ApprovalError>)
  {
    var refusal := Refusal(st, hash, id, digest, principal, device, now);
    if refusal.Some? then (st, Err(refusal.value))
    else (st.(responses := st.responses[id := Response(digest, verdict, device.value, principal, now)]), Ok(()))
  }

  function IsSatisfied(st: Store, hash: Hash, id: RequestId, expected: Digest, now: int): Result<Outcome, ApprovalError> {
    if id !in st.requests then Ok(Unrequested)
    else
      var row := st.requests[id];
      match Checked(hash, id, row)
      case Err(e) => Err(e)
      case Ok(persisted) =>
        if expected != persisted then Ok(Invalidated)
        else if id in st.responses then
          if st.responses[id].digest != persisted then Ok(Invalidated)
          else Ok(if st.responses[id].verdict.Approve? then Approved else Denied)
        else Ok(if now >= row.expires then Expired else Pending)
  }

  class ApprovalStore {
    var requests: map<RequestId, RequestRow>
    var responses: map<RequestId, Response>
    const hash: Hash

    function View(): Store
      reads this
    {
      Store(requests, responses)
    }

    constructor (hash: Hash)
      ensures View() == Store(map[], map[]) && this.hash == hash
    {
      requests, responses := map[], map[];
      this.hash := hash;
    }

    method CreateRequest(input: DigestInput, command: RequestId) returns (r: Result<(RequestId, Digest), ApprovalError>)
      modifies this
      ensures (View(), r) == Create(old(View()), hash, input, command)
    {
      var id := IdFor(input, command);
      if Blank(input.operation) { return Err(Invalid); }
      for i := 0 to |input.capabilities|
        invariant forall k :: 0 <= k < i ==> IsSupported(input.capabilities[k])
      {
        if !IsSupported(input.capabilities[i]) { return Err(Invalid); }
      }
      var b := Bound(input, id);
      var frame := BuildFrame(b);
      var digest := hash(frame);
      if id in requests { return Err(Conflict); }
      requests := requests[id := RequestRow(
        digest, b.principal, b.actor, b.run, b.operation, if b.target == "" then None else Some(b.target),
        EncodeCapabilities(b.capabilities), b.extensionDigest, b.configDigest, b.expiry, b.nonce)];
      r := Ok((id, digest));
    }

    method RespondTo(id: RequestId, digest: Digest, verdict: Verdict, principal: string, device: Option<string>, now: int)
      returns (r: Result<(), ApprovalError>)
      modifies this
      ensures (View(), r) == Respond(old(View()), hash, id, digest, verdict, principal, device, now)
    {
      if id !in requests { return Err(NotFound); }
      var row := requests[id];
      var persisted := Checked(hash, id, row);
      if persisted.Err? { return Err(persisted.error); }
      assert persisted.value == row.digest;
      if digest != persisted.value { return Err(Conflict); }
      if now >= row.expires { return Err(Precondition); }
      if id in responses { return Err(Conflict); }
      if principal != row.principal { return Err(Precondition); }
      if device.None? { return Err(Invalid); }
      responses := responses[id := Response(persisted.value, verdict, device.value, principal, now)];
      r := Ok(());
    }
  }

  // ---- Runs ----

  datatype Act =
    | Requesting(input: DigestInput, command: RequestId)
    | Responding(id: RequestId, digest: Digest, verdict: Verdict, principal: string, device: Option<string>)

  /** An action and the time at which it happens. */
  datatype Step = Step(now: int, act: Act)

  function Next(st: Store, hash: Hash, s: Step): Store {
    match s.act
    case Requesting(input, command) => Create(st, hash, input, command).0
    case Responding(id, digest, verdict, principal, device) => Respond(st, hash, id, digest, verdict, principal, device, s.now).0
  }

  function Run(st: Store, hash: Hash, steps: seq<Step>): Store {
    if steps == [] then st else Next(Run(st, hash, steps[..|steps| - 1]), hash, steps[|steps| - 1])
  }

  const Empty := Store(map[], map[])

  /** The stored digest is the digest of what the row says, and a response was made live, by the principal, on it. */
  ghost predicate RequestOk(st: Store, hash: Hash, id: RequestId) {
    && (id in st.requests ==> Checked(hash, id, st.requests[id]) == Ok(st.requests[id].digest))
    && (id in st.responses ==>
          && id in st.requests
          && st.responses[id].digest == st.requests[id].digest
          && st.responses[id].principal == st.requests[id].principal
          && st.responses[id].at < st.requests[id].expires)
  }

  ghost predicate Sound(st: Store, hash: Hash) { forall id :: RequestOk(st, hash, id) }

  lemma {:induction false} SortedStored(list: seq<Capability>)
    requires AllSupported(list)
    ensures DecodeCapabilities(EncodeCapabilities(Sorted(Members(list)))) == Some(Sorted(Members(list)))
  {
    var sorted := Sorted(Members(list));
    SortedMembers(Members(list));
    forall i | 0 <= i < |sorted| ensures IsSupported(sorted[i]) {
      assert sorted[i] in Members(sorted);
    }
    CapabilitiesRoundTrip(sorted);
  }

  /** What a new row says is exactly what its digest was computed over. */
  lemma {:induction false} NewRowChecks(hash: Hash, input: DigestInput, id: RequestId)
    requires Acceptable(input)
    ensures InputOf(id, NewRow(hash, input, id)) == Some(Bound(input, id))
    ensures Checked(hash, id, NewRow(hash, input, id)) == Ok(NewRow(hash, input, id).digest)
  {
    SortedStored(input.capabilities);
  }

  lemma {:induction false} CreateKeepsSound(st: Store, hash: Hash, input: DigestInput, command: RequestId, id: RequestId)
    requires RequestOk(st, hash, id) && RequestOk(st, hash, IdFor(input, command))
    ensures RequestOk(Create(st, hash, input, command).0, hash, id)
  {
    if Create(st, hash, input, command).1.Ok? && id == IdFor(input, command) {
      NewRowChecks(hash, input, id);
    }
  }

  lemma {:induction false} StepKeepsSound(st: Store, hash: Hash, s: Step)
    requires Sound(st, hash)
    ensures Sound(Next(st, hash, s), hash)
  {
    forall id ensures RequestOk(Next(st, hash, s), hash, id) {
      assert RequestOk(st, hash, id);
      if s.act.Requesting? {
        assert RequestOk(st, hash, IdFor(s.act.input, s.act.command));
        CreateKeepsSound(st, hash, s.act.input, s.act.command, id);
      }
    }
  }

  /** In every reachable store the recomputed digest equals the stored one, and responses are bound to it. */
  lemma {:induction false} RunKeepsSound(st: Store, hash: Hash, steps: seq<Step>)
    requires Sound(st, hash)
    ensures Sound(Run(st, hash, steps), hash)
  {
    if steps != [] {
      RunKeepsSound(st, hash, steps[..|steps| - 1]);
      StepKeepsSound(Run(st, hash, steps[..|steps| - 1]), hash, steps[|steps| - 1]);
    }
  }

  ghost predicate Keeps(st: Store, st': Store, id: RequestId) {
    && (id in st.requests ==> id in st'.requests && st'.requests[id] == st.requests[id])
    && (id in st.responses ==> id in st'.responses && st'.responses[id] == st.responses[id])
  }

  lemma {:induction false} CreateKeeps(st: Store, hash: Hash, input: DigestInput, command: RequestId, id: RequestId)
    ensures Keeps(st, Create(st, hash, input, command).0, id)
  {
  }

  lemma {:induction false} Unanswered(st: Store, hash: Hash, id: RequestId, digest: Digest, principal: string, device: Option<string>, now: int)
    requires Refusal(st, hash, id, digest, principal, device, now).None?
    ensures id in st.requests && id !in st.responses && now < st.requests[id].expires
  {
  }

  lemma {:induction false} RespondKeeps(
    st: Store, hash: Hash, to: RequestId, digest: Digest, verdict: Verdict, principal: string, device: Option<string>, now: int, id: RequestId)
    ensures Keeps(st, Respond(st, hash, to, digest, verdict, principal, device, now).0, id)
  {
    if Refusal(st, hash, to, digest, principal, device, now).None? {
      Unanswered(st, hash, to, digest, principal, device, now);
    }
  }

  lemma {:induction false} StepKeepsRecords(st: Store, hash: Hash, s: Step, id: RequestId)
    ensures Keeps(st, Next(st, hash, s), id)
  {
    match s.act
    case Requesting(input, command) => CreateKeeps(st, hash, input, command, id);
    case Responding(to, digest, verdict, principal, device) => RespondKeeps(st, hash, to, digest, verdict, principal, device, s.now, id);
  }

  /** Requests and responses are immutable once written, so a request has at most one response for good. */
  lemma {:induction false} RecordsAreFinal(st: Store, hash: Hash, steps: seq<Step>, id: RequestId)
    ensures Keeps(st, Run(st, hash, steps), id)
  {
    if steps != [] {
      var n := |steps| - 1;
      RecordsAreFinal(st, hash, steps[..n], id);
      StepKeepsRecords(Run(st, hash, steps[..n]), hash, steps[n], id);
    }
  }

  lemma {:induction false} LateResponseIsRefused(st: Store, hash: Hash, s: Step, id: RequestId)
    requires id in st.requests && id !in st.responses && s.now >= st.requests[id].expires
    ensures id !in Next(st, hash, s).responses
  {
  }

  /** Past the expiry an unanswered request stays unanswered. */
  lemma {:induction false} ExpiredStaysUnanswered(st: Store, hash: Hash, steps: seq<Step>, id: RequestId, now: int)
    requires id in st.requests && id !in st.responses && now >= st.requests[id].expires
    requires forall i :: 0 <= i < |steps| ==> steps[i].now >= now
    ensures id !in Run(st, hash, steps).responses
  {
    if steps != [] {
      var n := |steps| - 1;
      ExpiredStaysUnanswered(st, hash, steps[..n], id, now);
      RecordsAreFinal(st, hash, steps[..n], id);
      LateResponseIsRefused(Run(st, hash, steps[..n]), hash, steps[n], id);
    }
  }

  /**
   * With a clock that does not go back, `Approved`, `Denied` and `Expired` are final for a fixed
   * expected digest, whatever is requested or answered later.
   */
  lemma {:induction false} ResolutionIsFinal(
    st: Store, hash: Hash, steps: seq<Step>, id: RequestId, expected: Digest, now: int, later: int)
    requires now <= later && forall i :: 0 <= i < |steps| ==> steps[i].now >= now
    requires IsSatisfied(st, hash, id, expected, now) in {Ok(Approved), Ok(Denied), Ok(Expired)}
    ensures IsSatisfied(Run(st, hash, steps), hash, id, expected, later) == IsSatisfied(st, hash, id, expected, now)
  {
    RecordsAreFinal(st, hash, steps, id);
    if id !in st.responses {
      ExpiredStaysUnanswered(st, hash, steps, id, now);
    }
  }

  /** `Approved` means: the approval principal answered with `approve`, before the expiry, on this very digest. */
  lemma {:induction false} ApprovedMeans(hash: Hash, steps: seq<Step>, id: RequestId, expected: Digest, now: int)
    ensures var st := Run(Empty, hash, steps);
            IsSatisfied(st, hash, id, expected, now) == Ok(Approved) <==>
              && id in st.requests && id in st.responses
              && st.responses[id].verdict.Approve? && st.requests[id].digest == expected
    ensures var st := Run(Empty, hash, steps);
            IsSatisfied(st, hash, id, expected, now) == Ok(Approved) ==>
              && st.responses[id].digest == expected
              && st.responses[id].principal == st.requests[id].principal
              && st.responses[id].at < st.requests[id].expires
  {
    RunKeepsSound(Empty, hash, steps);
    assert RequestOk(Run(Empty, hash, steps), hash, id);
  }

  /** The check never reports tampering on a store built by these operations. */
  lemma {:induction false} CheckNeverFails(hash: Hash, steps: seq<Step>, id: RequestId, expected: Digest, now: int)
    ensures IsSatisfied(Run(Empty, hash, steps), hash, id, expected, now).Ok?
  {
    RunKeepsSound(Empty, hash, steps);
    assert RequestOk(Run(Empty, hash, steps), hash, id);
  }

  /** A row that still passes the check under an unchanged digest says the same, or two frames share a hash. */
  lemma {:induction false} TamperingNeedsCollision(hash: Hash, id: RequestId, row: RequestRow, changed: RequestRow)
    requires Checked(hash, id, row).Ok? && Checked(hash, id, changed).Ok? && changed.digest == row.digest
    requires InRange(InputOf(id, row).value) && InRange(InputOf(id, changed).value)
    ensures var a, b := InputOf(id, row).value, InputOf(id, changed).value;
            SameContent(a, b) || (Frame(a) != Frame(b) && hash(Frame(a)) == hash(Frame(b)))
  {
    FrameIsInjective(InputOf(id, row).value, InputOf(id, changed).value);
  }

  /** Past 2^32 bytes two different requests, both acceptable, are bound to the same bytes. */
  lemma {:induction false} LongRequestsCollide(input: DigestInput)
    requires Acceptable(input)
    ensures var a, b := input.(operation := input.operation + Zeros(U32), target := ""), input.(target := Zeros(U32));
            Acceptable(a) && Acceptable(b) && Frame(a) == Frame(b) && !SameContent(a, b)
  {
    LongFieldsCollide(input);
    var i :| 0 <= i < |input.operation| && !IsSpace(input.operation[i]);
    assert (input.operation + Zeros(U32))[i] == input.operation[i];
  }
}
