// The engine's event emitter: the same redaction as the runtime's copy, with
// the sensitive names held in a set, step and checkpoint payloads that carry
// the context's current step, and failures of the event service propagated.
module EngineEvents {
  import opened Wrappers
  import opened Text
  import opened Json
  import opened EventService
  import RuntimeEvents

  const Sensitive: set<string> := {"api_key", "apikey", "password", "secret", "token", "authorization", "cookie", "set-cookie"}
  const Mask := "***"

  /** `_redact` of the engine's copy. */
  function Redact(v: Value): Value
  {
    match v
    case Obj(f) => Obj(map k | k in f :: if Lower(k) in Sensitive then Str(Mask) else Redact(f[k]))
    case Arr(xs) => Arr(seq(|xs|, i requires 0 <= i < |xs| => Redact(xs[i])))
    case _ => v
  }

  /** The list and the set hold the same names. */
  lemma SameSensitiveNames()
    ensures forall k :: k in Sensitive <==> k in RuntimeEvents.Sensitive
  {
  }

  /** The two copies of `_redact` agree on every value. */
  lemma {:induction false} RedactCopiesAgree(v: Value)
    ensures Redact(v) == RuntimeEvents.Redact(v)
  {
    SameSensitiveNames();
    match v
    case Obj(f) =>
      forall k | k in f
        ensures Redact(v).fields[k] == RuntimeEvents.Redact(v).fields[k]
      {
        RedactCopiesAgree(f[k]);
      }
      assert Redact(v).fields == RuntimeEvents.Redact(v).fields;
    case Arr(xs) =>
      forall i | 0 <= i < |xs|
        ensures Redact(v).items[i] == RuntimeEvents.Redact(v).items[i]
      {
        RedactCopiesAgree(xs[i]);
      }
      assert Redact(v).items == RuntimeEvents.Redact(v).items;
    case _ =>
  }

  /** Hence the engine's copy keeps keys, masks exactly the sensitive names and is idempotent, as the runtime's copy is. */
  lemma RedactProperties(v: Value)
    ensures Redact(Redact(v)) == Redact(v)
    ensures v.Obj? ==> Redact(v).Obj? && Redact(v).fields.Keys == v.fields.Keys
    ensures v.Obj? ==> forall k :: k in v.fields ==> (Redact(v).fields[k] == Str(Mask) || Lower(k) !in Sensitive)
  {
    RedactCopiesAgree(v);
    RedactCopiesAgree(Redact(v));
    RuntimeEvents.RedactIdempotent(v);
  }

  const StepKey := "step"
  const IndexKey := "index"
  const StatusKey := "status"
  const ErrorKey := "error"
  const CheckpointKey := "checkpoint"

  /** The three step events. */
  datatype StepStatus = StepRunning | StepCompleted | StepFailed(error: string)

  function StatusName(st: StepStatus): string
  {
    match st
    case StepRunning => "running"
    case StepCompleted => "completed"
    case StepFailed(_) => "failed"
  }

  /** The payload of a step event: the step's name, the current step and the status, and for a failure the error. */
  function StepPayload(name: string, index: int, st: StepStatus): (r: Dict)
    ensures r.Keys == {StepKey, IndexKey, StatusKey} + (if st.StepFailed? then {ErrorKey} else {})
    ensures r[StepKey] == Str(name) && r[IndexKey] == Num(index) && r[StatusKey] == Str(StatusName(st))
    ensures st.StepFailed? ==> r[ErrorKey] == Str(st.error)
  {
    var p := map[StepKey := Str(name), IndexKey := Num(index), StatusKey := Str(StatusName(st))];
    if st.StepFailed? then p[ErrorKey := Str(st.error)] else p
  }

  function StepEventType(st: StepStatus): EventType
  {
    match st
    case StepRunning => StepStartEvent
    case StepCompleted => StepEndEvent
    case StepFailed(_) => ErrorEvent
  }

  function StepMessage(name: string, st: StepStatus): string
  {
    match st
    case StepRunning => "step_started: " + name
    case StepCompleted => "step_completed: " + name
    case StepFailed(_) => "step_failed: " + name
  }

  /** The checkpoint record: the runtime's one plus the current step. */
  function CheckpointPayload(id: string, index: int, reason: string, expectedAction: string, expiresAt: string): (r: Dict)
    ensures r == RuntimeEvents.CheckpointPayload(id, reason, expectedAction, expiresAt)[IndexKey := Num(index)]
    ensures IndexKey !in RuntimeEvents.CheckpointPayload(id, reason, expectedAction, expiresAt)
  {
    RuntimeEvents.CheckpointPayload(id, reason, expectedAction, expiresAt)[IndexKey := Num(index)]
  }

  /** The engine's checkpoint payload extends the runtime's by the index alone: dropping the index gives the runtime's payload back, every runtime key keeps its value, and the index reads back as the step. */
  lemma CheckpointExtendsRuntime(id: string, index: int, reason: string, expectedAction: string, expiresAt: string)
    ensures var e := CheckpointPayload(id, index, reason, expectedAction, expiresAt);
      var p := RuntimeEvents.CheckpointPayload(id, reason, expectedAction, expiresAt);
      && e - {IndexKey} == p
      && e.Keys == p.Keys + {IndexKey}
      && (forall k :: k in p ==> e[k] == p[k])
      && e[IndexKey] == Num(index)
  {
    var e := CheckpointPayload(id, index, reason, expectedAction, expiresAt);
    var p := RuntimeEvents.CheckpointPayload(id, reason, expectedAction, expiresAt);
    assert (e - {IndexKey}).Keys == p.Keys;
  }

  /** The names the step and checkpoint payloads add are not sensitive. */
  lemma EngineKeysPlain()
    ensures Lower(StepKey) !in RuntimeEvents.Sensitive && Lower(IndexKey) !in RuntimeEvents.Sensitive
    ensures Lower(StatusKey) !in RuntimeEvents.Sensitive && Lower(ErrorKey) !in RuntimeEvents.Sensitive
  {
    LowerOfLowerLiteral(StepKey);
    LowerOfLowerLiteral(IndexKey);
    LowerOfLowerLiteral(StatusKey);
    LowerOfLowerLiteral(ErrorKey);
  }

  /** The step payload's keys are not sensitive and its values are scalars, so what is stored is the payload itself. */
  lemma StepPayloadSurvivesRedaction(name: string, index: int, st: StepStatus)
    ensures Redact(Obj(StepPayload(name, index, st))) == Obj(StepPayload(name, index, st))
  {
    EngineKeysPlain();
    RuntimeEvents.PlainDict(StepPayload(name, index, st));
    RedactCopiesAgree(Obj(StepPayload(name, index, st)));
  }

  /** The emitter, bound to one event service. */
  class EventEmitter {
    const store: EventStore

    constructor (service: EventStore)
      ensures store == service
    {
      store := service;
    }

    /** `_emit_event`, with the service called as intended: the redacted message and payload reach the service, and a failure there propagates. */
    method EmitEvent(runId: string, eventType: EventType, message: string, payload: Dict, id: string, failure: Option<string>)
      returns (r: Result<EventRecord, string>)
      modifies store
      ensures failure.Some? ==> r == Err(failure.value) && store.events == old(store.events)
      ensures failure.None? ==>
        r == Ok(EventRecord(id, runId, eventType, Some(message), Redact(Obj(payload)).fields))
        && store.events == old(store.events) + [r.value]
    {
      var safeMessage := Redact(Str(message)).s;
      var safePayload := Redact(Obj(payload)).fields;
      r := store.CreateEvent(runId, eventType, Some(safeMessage), Some(safePayload), id, failure);
    }

    /** `emit_step_started`, `emit_step_completed` and `emit_step_failed`. */
    method EmitStep(runId: string, name: string, index: int, st: StepStatus, id: string, failure: Option<string>)
      returns (r: Result<EventRecord, string>)
      modifies store
      ensures failure.Some? ==> r == Err(failure.value) && store.events == old(store.events)
      ensures failure.None? ==>
        r == Ok(EventRecord(id, runId, StepEventType(st), Some(StepMessage(name, st)), StepPayload(name, index, st)))
        && store.events == old(store.events) + [r.value]
    {
      StepPayloadSurvivesRedaction(name, index, st);
      r := EmitEvent(runId, StepEventType(st), StepMessage(name, st), StepPayload(name, index, st), id, failure);
    }

    /** `emit_checkpoint_reached`. */
    method EmitCheckpointReached(runId: string, checkpointId: string, index: int, reason: string, expectedAction: string,
                                 expiresAt: string, id: string, failure: Option<string>)
      returns (r: Result<EventRecord, string>)
      modifies store
      ensures failure.Some? ==> r == Err(failure.value) && store.events == old(store.events)
      ensures failure.None? ==>
        r == Ok(EventRecord(id, runId, CheckpointEvent, Some("checkpoint_reached: " + checkpointId),
                            map[CheckpointKey := Obj(CheckpointPayload(checkpointId, index, reason, expectedAction, expiresAt))]))
        && store.events == old(store.events) + [r.value]
    {
      var payload := map[CheckpointKey := Obj(CheckpointPayload(checkpointId, index, reason, expectedAction, expiresAt))];
      CheckpointSurvivesRedaction(checkpointId, index, reason, expectedAction, expiresAt);
      r := EmitEvent(runId, CheckpointEvent, "checkpoint_reached: " + checkpointId, payload, id, failure);
    }
  }

  /** The engine's checkpoint payload survives redaction as well. */
  lemma CheckpointSurvivesRedaction(id: string, index: int, reason: string, expectedAction: string, expiresAt: string)
    ensures var p := map[CheckpointKey := Obj(CheckpointPayload(id, index, reason, expectedAction, expiresAt))];
      Redact(Obj(p)) == Obj(p)
  {
    var c := CheckpointPayload(id, index, reason, expectedAction, expiresAt);
    RuntimeEvents.CheckpointKeysPlain();
    EngineKeysPlain();
    RuntimeEvents.PlainDict(c);
    var p := map[CheckpointKey := Obj(c)];
    assert RuntimeEvents.Redact(Obj(p)).fields == p;
    RedactCopiesAgree(Obj(p));
  }
}
