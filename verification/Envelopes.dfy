/** Durable event envelopes: stream keys, outbox rows, the journal codec and the wire projection. */
module Envelopes {
  import opened Common
  import opened Text

  /** Identifiers and stream keys are compared as whole values, never taken apart. */
  datatype IdText = IdText(text: string)

  type Id = i: IdText | i.text != "" witness IdText("0")

  datatype StreamKey = StreamKey(text: string)

  // ---- Stream keys (events/src/stream.rs, domain/src/ids.rs) ----

  predicate StreamKeyChar(c: char) {
    'a' <= c <= 'z' || '0' <= c <= '9' || c == '-' || c == '.' || c == '/'
  }

  /** The alphabet check every `EventStreamKey` has passed. */
  predicate IsEventStreamKey(text: string) {
    text != "" && forall c :: c in text ==> StreamKeyChar(c)
  }

  /** The stricter shape a `StreamKey` needs before the dispatcher will carry it. */
  predicate IsCanonicalStream(key: StreamKey) {
    var parts := Split(key.text, '/');
    && IsEventStreamKey(key.text)
    && "" !in parts
    && (|| (|parts| == 2 && parts[0] in {"run", "task", "session", "effect"})
        || parts == ["config", "global"]
        || (|parts| == 4 && parts[0] == "adapter")
        || (|parts| == 3 && parts[..2] == ["security", "principal"]))
  }

  // ---- Records ----

  datatype Sensitivity = NoSensitivity | Public | Internal | Confidential | Secret

  datatype Retention = NoRetention | Ephemeral | Standard | Audit

  datatype Draft = Draft(
    eventId: Id, streamKey: StreamKey, eventType: string, payload: seq<byte>,
    sensitivity: Sensitivity, retention: Retention,
    correlationId: Option<string>, causationId: Option<Id>)

  /** The columns nothing downstream branches on. */
  datatype Details = Details(
    eventType: string, eventVersion: nat, occurredMs: int,
    runId: Option<Id>, taskId: Option<Id>, sessionId: Option<Id>, effectId: Option<Id>,
    causationId: Option<string>, correlationId: Option<string>)

  datatype Envelope = Envelope(
    eventId: Id, streamKey: StreamKey, sequence: nat,
    sensitivity: Sensitivity, retention: Retention, payload: seq<byte>, details: Details)

  /** An outbox row: its immutable columns, as the envelope they become, and the publication mark. */
  datatype Row = Row(event: Envelope, published: bool)

  /** The protobuf message behind both the journal blob and the client frame: absent text is "". */
  datatype Wire = Wire(
    eventId: IdText, streamKey: StreamKey, sequence: nat,
    sensitivity: Sensitivity, retention: Retention, payload: seq<byte>, details: WireDetails)

  datatype WireDetails = WireDetails(
    eventType: string, eventVersion: nat, occurredMs: int,
    runId: string, taskId: string, sessionId: string, effectId: string,
    causationId: string, correlationId: string)

  // ---- Conversions ----

  function IntoNew(d: Draft, sequence: nat, occurredMs: int): Row {
    Row(Envelope(d.eventId, d.streamKey, sequence, d.sensitivity, d.retention, d.payload,
                 Details(d.eventType, 1, occurredMs, None, None, None, None,
                         if d.causationId.Some? then Some(d.causationId.value.text) else None, d.correlationId)),
        false)
  }

  /** The event says what the draft says, at its position and time. */
  predicate Records(e: Envelope, d: Draft, ms: int, sequence: nat) {
    && e.eventId == d.eventId && e.streamKey == d.streamKey && e.sequence == sequence
    && e.sensitivity == d.sensitivity && e.retention == d.retention && e.payload == d.payload
    && e.details.eventType == d.eventType && e.details.eventVersion == 1 && e.details.occurredMs == ms
    && e.details.runId == e.details.taskId == e.details.sessionId == e.details.effectId == None
    && e.details.correlationId == d.correlationId
    && (d.causationId.None? ==> e.details.causationId == None)
    && (d.causationId.Some? ==> e.details.causationId == Some(d.causationId.value.text))
  }

  /** The client frame says what the draft says, except that a secret payload stays at home. */
  predicate Carries(w: Wire, d: Draft, ms: int, sequence: nat) {
    && w.eventId == d.eventId && w.streamKey == d.streamKey && w.sequence == sequence
    && w.sensitivity == d.sensitivity && w.retention == d.retention
    && (d.sensitivity.Secret? ==> w.payload == []) && (!d.sensitivity.Secret? ==> w.payload == d.payload)
    && w.details.eventType == d.eventType && w.details.eventVersion == 1 && w.details.occurredMs == ms
    && w.details.runId == w.details.taskId == w.details.sessionId == w.details.effectId == ""
    && (d.causationId.None? ==> w.details.causationId == "")
    && (d.causationId.Some? ==> w.details.causationId == d.causationId.value.text)
    && (d.correlationId.None? ==> w.details.correlationId == "")
    && (d.correlationId.Some? ==> w.details.correlationId == d.correlationId.value)
  }

  function EnvelopeFromRow(r: Row): Envelope { r.event }

  function OrEmpty(t: Option<string>): string { if t.Some? then t.value else "" }

  function NonEmpty(t: string): Option<string> { if t == "" then None else Some(t) }

  function OptionalId(t: string): Option<Id> { if t == "" then None else Some(IdText(t)) }

  function TextOf(t: Option<Id>): string { if t.Some? then t.value.text else "" }

  function DetailsToWire(d: Details): WireDetails {
    WireDetails(d.eventType, d.eventVersion, d.occurredMs,
                TextOf(d.runId), TextOf(d.taskId), TextOf(d.sessionId), TextOf(d.effectId),
                OrEmpty(d.causationId), OrEmpty(d.correlationId))
  }

  function DetailsFromWire(w: WireDetails): Details {
    Details(w.eventType, w.eventVersion, w.occurredMs,
            OptionalId(w.runId), OptionalId(w.taskId), OptionalId(w.sessionId), OptionalId(w.effectId),
            NonEmpty(w.causationId), NonEmpty(w.correlationId))
  }

  function ToWire(e: Envelope): Wire {
    Wire(e.eventId, e.streamKey, e.sequence, e.sensitivity, e.retention, e.payload, DetailsToWire(e.details))
  }

  /** Decoding validates what protobuf cannot: identity, canonical stream and the two classes. */
  function FromWire(w: Wire): Option<Envelope> {
    if w.eventId.text == "" || !IsCanonicalStream(w.streamKey) || w.sensitivity.NoSensitivity? || w.retention.NoRetention?
    then None
    else Some(Envelope(w.eventId, w.streamKey, w.sequence, w.sensitivity, w.retention, w.payload,
                       DetailsFromWire(w.details)))
  }

  /** The client frame: a `Secret` event ships without its payload. */
  function Project(e: Envelope): Wire {
    ToWire(e).(payload := if e.sensitivity.Secret? then [] else e.payload)
  }

  predicate Storable(e: Envelope) {
    IsCanonicalStream(e.streamKey) && !e.sensitivity.NoSensitivity? && !e.retention.NoRetention?
  }

  /**
   * Reading a stored envelope back may not give the envelope that was written (an empty correlation
   * text comes back absent), but it re-encodes to the same blob and projects to the same client frame.
   */
  lemma {:induction false} StoredEnvelopeSurvives(e: Envelope)
    ensures FromWire(ToWire(e)).Some? <==> Storable(e)
    ensures Storable(e) ==> ToWire(FromWire(ToWire(e)).value) == ToWire(e)
    ensures Storable(e) ==> Project(FromWire(ToWire(e)).value) == Project(e)
    ensures Storable(e) ==>
      (FromWire(ToWire(e)).value == e <==> e.details.causationId != Some("") && e.details.correlationId != Some(""))
  {
    var d := e.details;
    var d' := DetailsFromWire(DetailsToWire(d));
    assert d'.runId == d.runId && d'.taskId == d.taskId && d'.sessionId == d.sessionId && d'.effectId == d.effectId;
    assert d' == d <==> d.causationId != Some("") && d.correlationId != Some("");
    assert DetailsToWire(d') == DetailsToWire(d);
  }

  lemma {:induction false} FrameCarries(e: Envelope, d: Draft, ms: int, sequence: nat)
    requires Records(e, d, ms, sequence)
    ensures Carries(Project(e), d, ms, sequence)
  {
  }

  const RUN_A := StreamKey("run/a")

  lemma {:induction false} RunKeyIsCanonical()
    ensures IsCanonicalStream(RUN_A)
  {
    SplitAtSeparator("run", "a", '/');
    SplitWhole("run", '/');
    SplitWhole("a", '/');
    assert "run" + ['/'] + "a" == "run/a";
    assert Split("run/a", '/') == ["run", "a"];
  }

  const TEXTLESS := Details("", 1, 0, None, None, None, None, None, Some(""))

  /** An envelope that does not read back as it was written: its empty correlation text comes back absent. */
  lemma {:induction false} EmptyTextIsLost()
    ensures var e := Envelope(IdText("1"), RUN_A, 1, Public, Standard, [], TEXTLESS);
            Storable(e) && FromWire(ToWire(e)) == Some(e.(details := TEXTLESS.(correlationId := None)))
  {
    RunKeyIsCanonical();
  }
}
