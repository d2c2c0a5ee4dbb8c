/** Idempotent command execution under faults (command-coordinator/src/lib.rs, envelope.rs, handler.rs). */
module Coordinator {
  import opened Common
  import opened Text

  // ---- Data ----

  datatype Principal = Principal(text: string)

  /** The replay key is scoped by principal. */
  datatype Slot = Slot(principal: Principal, key: string)

  datatype Digest = Digest(text: string)

  datatype Outcome = Outcome(payload: seq<byte>)

  datatype Record = Record(digest: Digest, outcome: Outcome)

  datatype Error = InvalidArgument | FailedPrecondition | Conflict | Unavailable | Rejected(reason: string)

  datatype Envelope = Envelope(slot: Slot, digest: Digest, commandType: string, deadline: Option<int>)

  /** What the environment does to a commit: an ambiguous one is durable but reported as failed. */
  datatype CommitFate = Commits | Aborts | Ambiguous

  /** One submission: the handler it is routed to and everything the environment decides about it. */
  datatype Attempt<!S> = Attempt(
    envelope: Envelope, handler: Option<S -> Result<(S, Outcome), Error>>, now: int, admitted: bool,
    beforeFault: bool, insertFails: bool, fate: CommitFate, afterFault: bool)

  datatype Store<S> = Store(state: S, records: map<Slot, Record>)

  // ---- Validation ----

  function Validate(e: Envelope, now: int): Option<Error> {
    if Blank(e.slot.key) || Blank(e.commandType) then Some(InvalidArgument)
    else if e.deadline.Some? && e.deadline.value < now then Some(FailedPrecondition)
    else None
  }

  /** The checks that come before any record is looked up. */
  function Precheck<S>(a: Attempt<S>): Option<Error> {
    if a.handler.None? then Some(InvalidArgument)
    else if Validate(a.envelope, a.now).Some? then Validate(a.envelope, a.now)
    else if !a.admitted then Some(FailedPrecondition)
    else None
  }

  // ---- One execution ----

  /** Running the handler and storing its record, up to and including the commit. */
  function Fresh<S>(st: Store<S>, a: Attempt<S>): (Store<S>, Result<Outcome, Error>)
    requires a.handler.Some?
  {
    match a.handler.value(st.state)
    case Err(e) => (st, Err(e))
    case Ok((state, outcome)) =>
      if a.beforeFault || a.insertFails || a.fate.Aborts? then (st, Err(Unavailable))
      else
        (Store(state, st.records[a.envelope.slot := Record(a.envelope.digest, outcome)]),
         if a.fate.Ambiguous? || a.afterFault then Err(Unavailable) else Ok(outcome))
  }

  function Execute<S>(st: Store<S>, a: Attempt<S>): (Store<S>, Result<Outcome, Error>) {
    var slot := a.envelope.slot;
    if Precheck(a).Some? then (st, Err(Precheck(a).value))
    else if slot in st.records then
      (st, if st.records[slot].digest != a.envelope.digest then Err(Conflict) else Ok(st.records[slot].outcome))
    else Fresh(st, a)
  }

  class CommandCoordinator<S> {
    var state: S
    var records: map<Slot, Record>

    function View(): Store<S>
      reads this
    {
      Store(state, records)
    }

    constructor (state: S)
      ensures View() == Store(state, map[])
    {
      this.state := state;
      records := map[];
    }

    /** Everything after `begin` works on the transaction's own copy, which a failure drops. */
    method Run(a: Attempt<S>) returns (r: Result<Outcome, Error>)
      modifies this
      ensures (View(), r) == Execute(old(View()), a)
    {
      if a.handler.None? { return Err(InvalidArgument); }
      var invalid := Validate(a.envelope, a.now);
      if invalid.Some? { return Err(invalid.value); }
      if !a.admitted { return Err(FailedPrecondition); }
      var slot := a.envelope.slot;
      if slot in records {
        if records[slot].digest != a.envelope.digest { return Err(Conflict); }
        return Ok(records[slot].outcome);
      }
      var handled := a.handler.value(state);
      if handled.Err? { return Err(handled.error); }
      var (state', outcome) := handled.value;
      if a.beforeFault { return Err(Unavailable); }
      if a.insertFails { return Err(Unavailable); }
      var records' := records[slot := Record(a.envelope.digest, outcome)];
      if a.fate.Aborts? { return Err(Unavailable); }
      state, records := state', records';
      if a.fate.Ambiguous? || a.afterFault { return Err(Unavailable); }
      r := Ok(outcome);
    }
  }

  // ---- Runs ----

  function After<S>(st: Store<S>, attempts: seq<Attempt<S>>): Store<S> {
    if attempts == [] then st else Execute(After(st, attempts[..|attempts| - 1]), attempts[|attempts| - 1]).0
  }

  ghost function Reply<S>(st: Store<S>, attempts: seq<Attempt<S>>, i: nat): Result<Outcome, Error>
    requires i < |attempts|
  {
    Execute(After(st, attempts[..i]), attempts[i]).1
  }

  /** The attempt changed the store: its handler's mutations and its record became durable together. */
  ghost predicate Commits<S>(st: Store<S>, a: Attempt<S>) {
    && Precheck(a).None? && a.envelope.slot !in st.records
    && a.handler.value(st.state).Ok? && !a.beforeFault && !a.insertFails && !a.fate.Aborts?
  }

  /** The attempts that committed, in commit order. */
  ghost function Winners<S>(st: Store<S>, attempts: seq<Attempt<S>>): seq<Attempt<S>> {
    if attempts == [] then []
    else
      var n := |attempts| - 1;
      Winners(st, attempts[..n]) + (if Commits(After(st, attempts[..n]), attempts[n]) then [attempts[n]] else [])
  }

  /** The reference: run each handler once, in order, with nothing else around it. */
  function Replay<S>(state: S, attempts: seq<Attempt<S>>): Option<S> {
    if attempts == [] then Some(state)
    else
      var n := |attempts| - 1;
      match Replay(state, attempts[..n])
      case None => None
      case Some(s) =>
        if attempts[n].handler.Some? && attempts[n].handler.value(s).Ok? then Some(attempts[n].handler.value(s).value.0) else None
  }

  /** A submission that may reach the handler: it is routed, named, in time and admitted to write. */
  predicate Ready<S>(a: Attempt<S>) {
    && a.handler.Some? && !Blank(a.envelope.slot.key) && !Blank(a.envelope.commandType)
    && (a.envelope.deadline.None? || a.now <= a.envelope.deadline.value) && a.admitted
  }

  /** A submission that is not ready is refused before anything is looked up, and changes nothing. */
  lemma {:induction false} UnreadyReply<S>(st: Store<S>, a: Attempt<S>)
    requires !Ready(a)
    ensures Execute(st, a).0 == st && Execute(st, a).1.Err?
    ensures Execute(st, a).1.error ==
              if a.handler.None? || Blank(a.envelope.slot.key) || Blank(a.envelope.commandType) then InvalidArgument
              else FailedPrecondition
  {
  }

  /**
   * On a free slot the reply is `Ok`, with the handler's own outcome, exactly when the submission is
   * ready, the handler succeeds and neither a fault nor a lost commit strikes; the handler's error is
   * passed on, and whatever strikes after it answers `Unavailable`. The store changes exactly when the
   * commit is durable, whatever the reply.
   */
  lemma {:induction false} FreshReply<S>(st: Store<S>, a: Attempt<S>)
    requires a.envelope.slot !in st.records
    ensures var (st', r) := Execute(st, a);
            && (r.Ok? <==> && Ready(a) && a.handler.value(st.state).Ok?
                           && !a.beforeFault && !a.insertFails && a.fate == CommitFate.Commits && !a.afterFault)
            && (r.Ok? ==> r.value == a.handler.value(st.state).value.1)
    ensures var (st', r) := Execute(st, a);
            Ready(a) ==>
              && (a.handler.value(st.state).Err? ==> st' == st && r == Err(a.handler.value(st.state).error))
              && (a.handler.value(st.state).Ok? && r.Err? ==> r.error == Unavailable)
              && (a.handler.value(st.state).Ok? ==>
                    if a.beforeFault || a.insertFails || a.fate == Aborts then st' == st
                    else
                      var (state, outcome) := a.handler.value(st.state).value;
                      st' == Store(state, st.records[a.envelope.slot := Record(a.envelope.digest, outcome)]))
  {
  }

  /** On a taken slot a ready submission gets the stored outcome for its digest, and a conflict for any other. */
  lemma {:induction false} TakenReply<S>(st: Store<S>, a: Attempt<S>)
    requires Ready(a) && a.envelope.slot in st.records
    ensures Execute(st, a) ==
              (st, if st.records[a.envelope.slot].digest == a.envelope.digest then Ok(st.records[a.envelope.slot].outcome) else Err(Conflict))
  {
  }

  lemma {:induction false} StepCases<S>(st: Store<S>, a: Attempt<S>)
    ensures var st' := Execute(st, a).0;
            if Commits(st, a) then
              && st'.state == a.handler.value(st.state).value.0
              && st'.records == st.records[a.envelope.slot := Record(a.envelope.digest, a.handler.value(st.state).value.1)]
            else st' == st
  {
  }

  lemma {:induction false} ReplayOne<S>(state: S, w: seq<Attempt<S>>, s: S, a: Attempt<S>)
    requires Replay(state, w) == Some(s) && a.handler.Some? && a.handler.value(s).Ok?
    ensures Replay(state, w + [a]) == Some(a.handler.value(s).value.0)
  {
    assert (w + [a])[..|w|] == w;
  }

  /** The final state is what running each first success once, in commit order, gives. */
  lemma {:induction false} StateIsFirstSuccesses<S>(st: Store<S>, attempts: seq<Attempt<S>>)
    ensures Replay(st.state, Winners(st, attempts)) == Some(After(st, attempts).state)
  {
    if attempts != [] {
      var n := |attempts| - 1;
      var before := After(st, attempts[..n]);
      StateIsFirstSuccesses(st, attempts[..n]);
      StepCases(before, attempts[n]);
      var w := Winners(st, attempts[..n]);
      if Commits(before, attempts[n]) {
        ReplayOne(st.state, w, before.state, attempts[n]);
      } else {
        assert w + [] == w;
      }
    }
  }

  /** Records are never changed or removed. */
  lemma {:induction false} RecordsPersist<S>(st: Store<S>, attempts: seq<Attempt<S>>, i: nat, slot: Slot)
    requires i <= |attempts| && slot in After(st, attempts[..i]).records
    ensures slot in After(st, attempts).records && After(st, attempts).records[slot] == After(st, attempts[..i]).records[slot]
    decreases |attempts|
  {
    if i == |attempts| {
      assert attempts[..i] == attempts;
    } else {
      var init := attempts[..|attempts| - 1];
      assert init[..i] == attempts[..i];
      RecordsPersist(st, init, i, slot);
      StepCases(After(st, init), attempts[|attempts| - 1]);
    }
  }

  /** Every winner left its record, and no two winners share a slot. */
  lemma {:induction false} AtMostOnce<S>(st: Store<S>, attempts: seq<Attempt<S>>)
    ensures forall i :: 0 <= i < |Winners(st, attempts)| ==>
              && Winners(st, attempts)[i].envelope.slot !in st.records
              && Winners(st, attempts)[i].envelope.slot in After(st, attempts).records
    ensures forall i, j :: 0 <= i < j < |Winners(st, attempts)| ==>
              Winners(st, attempts)[i].envelope.slot != Winners(st, attempts)[j].envelope.slot
    ensures forall slot :: slot in st.records ==> slot in After(st, attempts).records
  {
    if attempts != [] {
      var n := |attempts| - 1;
      AtMostOnce(st, attempts[..n]);
      StepCases(After(st, attempts[..n]), attempts[n]);
    }
  }

  /** A record that was not there at the start was left by one attempt that committed. */
  lemma {:induction false} RecordHasWinner<S>(st: Store<S>, attempts: seq<Attempt<S>>, slot: Slot) returns (i: nat)
    requires slot in After(st, attempts).records && slot !in st.records
    ensures i < |attempts| && attempts[i].envelope.slot == slot && Commits(After(st, attempts[..i]), attempts[i])
    ensures After(st, attempts).records[slot] ==
              Record(attempts[i].envelope.digest, attempts[i].handler.value(After(st, attempts[..i]).state).value.1)
  {
    var n := |attempts| - 1;
    StepCases(After(st, attempts[..n]), attempts[n]);
    if slot in After(st, attempts[..n]).records {
      i := RecordHasWinner(st, attempts[..n], slot);
      assert attempts[..n][..i] == attempts[..i];
    } else {
      i := n;
    }
  }

  /** An `Ok` reply always carries what is stored, so all of a slot's `Ok` replies agree for good. */
  lemma {:induction false} OkRepliesAgree<S>(st: Store<S>, attempts: seq<Attempt<S>>, i: nat)
    requires i < |attempts| && Reply(st, attempts, i).Ok?
    ensures var slot := attempts[i].envelope.slot;
            && slot in After(st, attempts).records
            && After(st, attempts).records[slot] == Record(attempts[i].envelope.digest, Reply(st, attempts, i).value)
  {
    var before, slot := After(st, attempts[..i]), attempts[i].envelope.slot;
    assert attempts[..i + 1][..i] == attempts[..i];
    assert After(st, attempts[..i + 1]) == Execute(before, attempts[i]).0;
    RecordsPersist(st, attempts, i + 1, slot);
  }

  /**
   * Once a slot is taken, by a commit whose reply may have been lost, every later submission that
   * passes the checks gets the recorded outcome when its digest matches and a conflict when it does
   * not, and the store does not change.
   */
  lemma {:induction false} TakenSlotAnswers<S>(st: Store<S>, attempts: seq<Attempt<S>>, i: nat, a: Attempt<S>)
    requires i < |attempts| && Commits(After(st, attempts[..i]), attempts[i])
    requires a.envelope.slot == attempts[i].envelope.slot && Ready(a)
    ensures var recorded := attempts[i].handler.value(After(st, attempts[..i]).state).value.1;
            Execute(After(st, attempts), a) ==
              (After(st, attempts), if a.envelope.digest == attempts[i].envelope.digest then Ok(recorded) else Err(Conflict))
  {
    var before, slot := After(st, attempts[..i]), a.envelope.slot;
    assert attempts[..i + 1][..i] == attempts[..i];
    StepCases(before, attempts[i]);
    RecordsPersist(st, attempts, i + 1, slot);
  }
}
