/**
 * Approvals as a function of what was asked and answered: the first acceptable request opens an id, the
 * first live answer by its principal settles it, and nothing else does.
 */
module ApprovalHistory {
  import opened Common
  import opened Text
  import opened Capabilities
  import opened Framing
  import opened Approvals

  // ---- What was asked ----

  /** The step asks for approval under this id, with an operation and supported capabilities only. */
  predicate Opens(s: Step, id: RequestId) {
    && s.act.Requesting?
    && id.text == (if s.act.input.requestId.Some? then s.act.input.requestId.value else s.act.command.text)
    && !Blank(s.act.input.operation)
    && forall c :: c in s.act.input.capabilities ==> IsSupported(c)
  }

  /** What the first request under an id asked for. */
  function Opened(steps: seq<Step>, id: RequestId): Option<DigestInput> {
    if steps == [] then None
    else
      var n := |steps| - 1;
      var earlier := Opened(steps[..n], id);
      if earlier.Some? then earlier else if Opens(steps[n], id) then Some(steps[n].act.input) else None
  }

  /** The digest that binds a request: its content under its own id, which is also its nonce. */
  function DigestOf(hash: Hash, input: DigestInput, id: RequestId): Digest {
    hash(Frame(input.(requestId := Some(id.text), capabilities := Sorted(Members(input.capabilities)), nonce := id.text)))
  }

  // ---- What was answered ----

  /** The step answers the open request: on its digest, before its expiry, by its principal, from a device. */
  predicate Answers(hash: Hash, before: seq<Step>, s: Step, id: RequestId) {
    && s.act.Responding? && s.act.id == id && Opened(before, id).Some?
    && var input := Opened(before, id).value;
       s.act.digest == DigestOf(hash, input, id) && s.now < input.expiry && s.act.principal == input.principal && s.act.device.Some?
  }

  /** The first such answer. */
  function Answered(hash: Hash, steps: seq<Step>, id: RequestId): Option<Step> {
    if steps == [] then None
    else
      var n := |steps| - 1;
      var earlier := Answered(hash, steps[..n], id);
      if earlier.Some? then earlier else if Answers(hash, steps[..n], steps[n], id) then Some(steps[n]) else None
  }

  lemma {:induction false} AnsweredIsStep(hash: Hash, steps: seq<Step>, id: RequestId)
    requires Answered(hash, steps, id).Some?
    ensures Answered(hash, steps, id).value in steps && Answered(hash, steps, id).value.act.Responding?
  {
    var n := |steps| - 1;
    if Answered(hash, steps[..n], id).Some? {
      AnsweredIsStep(hash, steps[..n], id);
    }
  }

  // ---- The store ----

  /** The row says what was asked. */
  predicate Stores(hash: Hash, row: RequestRow, input: DigestInput, id: RequestId) {
    && row.digest == DigestOf(hash, input, id) && row.nonce == id.text && row.expires == input.expiry
    && row.principal == input.principal && row.actor == input.actor && row.run == input.run && row.operation == input.operation
    && row.extensionDigest == input.extensionDigest && row.configDigest == input.configDigest
    && (input.target == "" ==> row.target == None) && (input.target != "" ==> row.target == Some(input.target))
  }

  /** The response says what was answered. */
  predicate Echoes(r: Response, s: Step) {
    && s.act.Responding? && s.act.device.Some?
    && r.digest == s.act.digest && r.verdict == s.act.verdict && r.device == s.act.device.value
    && r.principal == s.act.principal && r.at == s.now
  }

  ghost predicate Reflects(st: Store, hash: Hash, steps: seq<Step>, id: RequestId) {
    && (id in st.requests <==> Opened(steps, id).Some?)
    && (id in st.requests ==> Stores(hash, st.requests[id], Opened(steps, id).value, id))
    && (id in st.responses <==> Answered(hash, steps, id).Some?)
    && (id in st.responses ==> Echoes(st.responses[id], Answered(hash, steps, id).value))
  }

  lemma {:induction false} SupportedIsAccepted(input: DigestInput)
    ensures Acceptable(input) <==> !Blank(input.operation) && forall c :: c in input.capabilities ==> IsSupported(c)
  {
    if AllSupported(input.capabilities) {
      forall c | c in input.capabilities ensures IsSupported(c) {
        var i :| 0 <= i < |input.capabilities| && input.capabilities[i] == c;
      }
    }
  }

  lemma {:induction false} NewRowStores(hash: Hash, input: DigestInput, id: RequestId)
    ensures Stores(hash, NewRow(hash, input, id), input, id)
  {
  }

  lemma {:induction false} CreateAnswers(st: Store, hash: Hash, s: Step, id: RequestId)
    requires s.act.Requesting?
    ensures var st' := Create(st, hash, s.act.input, s.act.command).0;
            && st'.responses == st.responses
            && (id in st'.requests <==> id in st.requests || Opens(s, id))
            && (id in st'.requests ==> st'.requests[id] == if id in st.requests then st.requests[id] else NewRow(hash, s.act.input, id))
  {
    SupportedIsAccepted(s.act.input);
  }

  lemma {:induction false} CreateReflects(st: Store, hash: Hash, before: seq<Step>, s: Step, id: RequestId)
    requires s.act.Requesting? && Reflects(st, hash, before, id)
    ensures var st' := Next(st, hash, s);
            && (id in st'.requests <==> Opened(before, id).Some? || Opens(s, id))
            && (id in st'.requests ==> Stores(hash, st'.requests[id], if Opened(before, id).Some? then Opened(before, id).value else s.act.input, id))
            && st'.responses == st.responses
  {
    CreateAnswers(st, hash, s, id);
    NewRowStores(hash, s.act.input, id);
  }

  /** An answer goes in exactly when the request is open, unanswered and unexpired, and digest, principal and device are right. */
  predicate GoesIn(st: Store, s: Step) {
    && s.act.Responding? && s.act.id in st.requests && s.act.id !in st.responses
    && var row := st.requests[s.act.id];
       s.act.digest == row.digest && s.now < row.expires && s.act.principal == row.principal && s.act.device.Some?
  }

  lemma {:induction false} RespondMeans(st: Store, hash: Hash, s: Step)
    requires s.act.Responding? && RequestOk(st, hash, s.act.id)
    ensures var st' := Next(st, hash, s);
            if GoesIn(st, s)
            then st' == st.(responses := st.responses[s.act.id := Response(s.act.digest, s.act.verdict, s.act.device.value, s.act.principal, s.now)])
            else st' == st
  {
  }

  /** Why an answer is refused, first reason first. */
  lemma {:induction false} RespondReply(st: Store, hash: Hash, s: Step)
    requires s.act.Responding? && RequestOk(st, hash, s.act.id)
    ensures var r := Respond(st, hash, s.act.id, s.act.digest, s.act.verdict, s.act.principal, s.act.device, s.now).1;
            && (r.Ok? <==> GoesIn(st, s))
            && (s.act.id !in st.requests ==> r == Err(NotFound))
            && (s.act.id in st.requests && r.Err? ==>
                  var row := st.requests[s.act.id];
                  && (r.error == Conflict <==> s.act.digest != row.digest || (s.now < row.expires && s.act.id in st.responses))
                  && (r.error == Precondition <==>
                        && s.act.digest == row.digest
                        && (s.now >= row.expires || (s.act.id !in st.responses && s.act.principal != row.principal)))
                  && (r.error == Invalid <==>
                        && s.act.digest == row.digest && s.now < row.expires && s.act.id !in st.responses
                        && s.act.principal == row.principal && s.act.device.None?))
  {
  }

  /** What a request is told: its id and digest, or that it is not acceptable, or that the id is taken. */
  lemma {:induction false} CreateReply(st: Store, hash: Hash, s: Step, id: RequestId)
    requires s.act.Requesting? && id.text == (if s.act.input.requestId.Some? then s.act.input.requestId.value else s.act.command.text)
    ensures Create(st, hash, s.act.input, s.act.command).1 ==
              if !Opens(s, id) then Err(Invalid) else if id in st.requests then Err(Conflict) else Ok((id, DigestOf(hash, s.act.input, id)))
  {
    SupportedIsAccepted(s.act.input);
    NewRowStores(hash, s.act.input, id);
  }

  lemma {:induction false} GoesInIsAnswer(st: Store, hash: Hash, before: seq<Step>, s: Step, id: RequestId)
    requires s.act.Responding? && s.act.id == id && Reflects(st, hash, before, id)
    ensures GoesIn(st, s) <==> Answered(hash, before, id).None? && Answers(hash, before, s, id)
  {
  }

  lemma {:induction false} RespondReflects(st: Store, hash: Hash, before: seq<Step>, s: Step, id: RequestId)
    requires s.act.Responding? && Reflects(st, hash, before, id) && Sound(st, hash)
    ensures var st' := Next(st, hash, s);
            && st'.requests == st.requests
            && (id in st'.responses <==> Answered(hash, before, id).Some? || Answers(hash, before, s, id))
            && (id in st'.responses ==> Echoes(st'.responses[id], if Answered(hash, before, id).Some? then Answered(hash, before, id).value else s))
  {
    assert RequestOk(st, hash, s.act.id);
    RespondMeans(st, hash, s);
    if s.act.id == id {
      GoesInIsAnswer(st, hash, before, s, id);
    }
  }

  lemma {:induction false} OneMore(steps: seq<Step>, s: Step, hash: Hash, id: RequestId)
    ensures Opened(steps + [s], id) ==
              if Opened(steps, id).Some? then Opened(steps, id) else if Opens(s, id) then Some(s.act.input) else None
    ensures Answered(hash, steps + [s], id) ==
              if Answered(hash, steps, id).Some? then Answered(hash, steps, id) else if Answers(hash, steps, s, id) then Some(s) else None
  {
    assert (steps + [s])[..|steps|] == steps;
  }

  lemma {:induction false} StepReflects(st: Store, hash: Hash, steps: seq<Step>, s: Step, id: RequestId)
    requires Reflects(st, hash, steps, id) && Sound(st, hash)
    ensures Reflects(Next(st, hash, s), hash, steps + [s], id)
  {
    OneMore(steps, s, hash, id);
    if s.act.Requesting? {
      CreateReflects(st, hash, steps, s, id);
    } else {
      RespondReflects(st, hash, steps, s, id);
    }
  }

  /** In every run the stored request is the first acceptable one, and the stored response the first live answer. */
  lemma {:induction false} StoreIsHistory(hash: Hash, steps: seq<Step>, id: RequestId)
    ensures Reflects(Run(Empty, hash, steps), hash, steps, id)
  {
    if steps != [] {
      var n := |steps| - 1;
      StoreIsHistory(hash, steps[..n], id);
      RunKeepsSound(Empty, hash, steps[..n]);
      StepReflects(Run(Empty, hash, steps[..n]), hash, steps[..n], steps[n], id);
      assert steps[..n] + [steps[n]] == steps;
    }
  }

  lemma {:induction false} OutcomeOfRows(st: Store, hash: Hash, id: RequestId, expected: Digest, now: int)
    requires RequestOk(st, hash, id)
    ensures IsSatisfied(st, hash, id, expected, now) ==
              if id !in st.requests then Ok(Unrequested)
              else if expected != st.requests[id].digest then Ok(Invalidated)
              else if id in st.responses then Ok(if st.responses[id].verdict == Approve then Approved else Denied)
              else Ok(if now < st.requests[id].expires then Pending else Expired)
  {
  }

  /**
   * What the check reports, by the history alone: nothing asked; another digest expected; else the
   * verdict of the first live answer, and without one whether the expiry has passed.
   */
  lemma {:induction false} OutcomeIsHistory(hash: Hash, steps: seq<Step>, id: RequestId, expected: Digest, now: int)
    ensures IsSatisfied(Run(Empty, hash, steps), hash, id, expected, now) ==
              match Opened(steps, id)
              case None => Ok(Unrequested)
              case Some(input) =>
                if expected != DigestOf(hash, input, id) then Ok(Invalidated)
                else match Answered(hash, steps, id)
                     case Some(s) => Ok(if s.act.Responding? && s.act.verdict == Approve then Approved else Denied)
                     case None => Ok(if now < input.expiry then Pending else Expired)
  {
    StoreIsHistory(hash, steps, id);
    RunKeepsSound(Empty, hash, steps);
    OutcomeOfRows(Run(Empty, hash, steps), hash, id, expected, now);
  }

  /** An approval was given by a step of the run: on the expected digest, in time, by the principal of the request. */
  lemma {:induction false} ApprovalWasGiven(hash: Hash, steps: seq<Step>, id: RequestId, expected: Digest, now: int) returns (s: Step)
    requires IsSatisfied(Run(Empty, hash, steps), hash, id, expected, now) in {Ok(Approved), Ok(Denied)}
    ensures s in steps && s.act.Responding? && s.act.id == id && s.act.digest == expected && Opened(steps, id).Some?
    ensures s.now < Opened(steps, id).value.expiry && s.act.principal == Opened(steps, id).value.principal
    ensures s.act.verdict == Approve <==> IsSatisfied(Run(Empty, hash, steps), hash, id, expected, now) == Ok(Approved)
  {
    OutcomeIsHistory(hash, steps, id, expected, now);
    s := Answered(hash, steps, id).value;
    AnsweredIsStep(hash, steps, id);
    AnsweredAnswers(hash, steps, id);
  }

  lemma {:induction false} OpenedStays(steps: seq<Step>, n: nat, id: RequestId)
    requires n <= |steps| && Opened(steps[..n], id).Some?
    ensures Opened(steps, id) == Opened(steps[..n], id)
    decreases |steps|
  {
    if n < |steps| {
      var m := |steps| - 1;
      assert steps[..m][..n] == steps[..n];
      OpenedStays(steps[..m], n, id);
    } else {
      assert steps[..n] == steps;
    }
  }

  lemma {:induction false} AnsweredAnswers(hash: Hash, steps: seq<Step>, id: RequestId)
    requires Answered(hash, steps, id).Some?
    ensures Opened(steps, id).Some? && Answered(hash, steps, id).value.act.Responding?
    ensures var s, input := Answered(hash, steps, id).value, Opened(steps, id).value;
            && s.act.id == id && s.act.digest == DigestOf(hash, input, id) && s.now < input.expiry && s.act.principal == input.principal
  {
    var n := |steps| - 1;
    if Answered(hash, steps[..n], id).Some? {
      AnsweredAnswers(hash, steps[..n], id);
    }
    OpenedStays(steps, n, id);
  }
}
