// The runtime's event emitter: payloads are redacted and handed to the event
// service, and any failure on the way is logged and swallowed.
module RuntimeEvents {
  import opened Wrappers
  import opened Text
  import opened Json
  import opened EventService

  /** The sensitive key names, held in a list; a key is masked when its lower-cased form is one of them. */
  const Sensitive: seq<string> := ["api_key", "apikey", "password", "secret", "token", "authorization", "cookie", "set-cookie"]
  const Mask := "***"

  /** `_redact`: dictionaries mask sensitive keys and redact the other values, lists are redacted element-wise, scalars are kept. */
  function Redact(v: Value): Value
  {
    match v
    case Obj(f) => Obj(map k | k in f :: if Lower(k) in Sensitive then Str(Mask) else Redact(f[k]))
    case Arr(xs) => Arr(seq(|xs|, i requires 0 <= i < |xs| => Redact(xs[i])))
    case _ => v
  }

  /** A dictionary keeps its keys; a sensitive key becomes "***" and any other value is redacted in turn. */
  lemma RedactDict(f: Dict)
    ensures Redact(Obj(f)).Obj? && Redact(Obj(f)).fields.Keys == f.Keys
    ensures forall k :: k in f && Lower(k) in Sensitive ==> Redact(Obj(f)).fields[k] == Str(Mask)
    ensures forall k :: k in f && Lower(k) !in Sensitive ==> Redact(Obj(f)).fields[k] == Redact(f[k])
  {
  }

  /** A list keeps its length and is redacted element by element; a scalar, such as the event's message string, is unchanged. */
  lemma RedactListAndScalars(v: Value)
    ensures v.Arr? ==> Redact(v).Arr? && |Redact(v).items| == |v.items|
    ensures v.Arr? ==> forall i :: 0 <= i < |v.items| ==> Redact(v).items[i] == Redact(v.items[i])
    ensures !v.Arr? && !v.Obj? ==> Redact(v) == v
  {
  }

  /** Matching is exact, not by substring, and ignores case. */
  lemma ExactMatchOnly(v: Value)
    ensures Redact(Obj(map["access_token" := v])) == Obj(map["access_token" := Redact(v)])
    ensures Redact(Obj(map["Password" := v])) == Obj(map["Password" := Str(Mask)])
  {
    AccessTokenRedacted(v);
    PasswordMasked(v);
  }

  lemma AccessTokenRedacted(v: Value)
    ensures Redact(Obj(map["access_token" := v])) == Obj(map["access_token" := Redact(v)])
  {
    AccessTokenNotSensitive();
    var f := map["access_token" := v];
    RedactDict(f);
    assert Redact(Obj(f)).fields == map["access_token" := Redact(v)];
  }

  lemma PasswordMasked(v: Value)
    ensures Redact(Obj(map["Password" := v])) == Obj(map["Password" := Str(Mask)])
  {
    PasswordSensitive();
    var f := map["Password" := v];
    RedactDict(f);
    assert Redact(Obj(f)).fields == map["Password" := Str(Mask)];
  }

  lemma AccessTokenNotSensitive()
    ensures Lower("access_token") !in Sensitive
  {
    LowerOfLowerLiteral("access_token");
  }

  lemma PasswordSensitive()
    ensures Lower("Password") in Sensitive
  {
    assert Lower("Password") == "password";
    assert Sensitive[2] == "password";
  }

  /** Redacting twice is redacting once. */
  lemma {:induction false} RedactIdempotent(v: Value)
    ensures Redact(Redact(v)) == Redact(v)
  {
    match v
    case Obj(f) =>
      var g := Redact(v).fields;
      forall k | k in g
        ensures Redact(Redact(v)).fields[k] == g[k]
      {
        if Lower(k) !in Sensitive {
          RedactIdempotent(f[k]);
        }
      }
      assert Redact(Redact(v)).fields == g;
    case Arr(xs) =>
      var ys := Redact(v).items;
      forall i | 0 <= i < |ys|
        ensures Redact(Redact(v)).items[i] == ys[i]
      {
        RedactIdempotent(xs[i]);
      }
      assert Redact(Redact(v)).items == ys;
    case _ =>
  }

  const StatusKey := "status"
  const CheckpointKey := "checkpoint"
  const AwaitingInput := "awaiting_input"

  /** The checkpoint record of `emit_checkpoint_reached`; `expiresAt` is the already formatted time. */
  function CheckpointPayload(id: string, reason: string, expectedAction: string, expiresAt: string): (r: Dict)
    ensures r.Keys == {"id", "reason", "expected_action", "expires_at", StatusKey}
    ensures r[StatusKey] == Str(AwaitingInput) && r["id"] == Str(id) && r["expires_at"] == Str(expiresAt)
  {
    map["id" := Str(id), "reason" := Str(reason), "expected_action" := Str(expectedAction),
        "expires_at" := Str(expiresAt), StatusKey := Str(AwaitingInput)]
  }

  /** A dictionary of scalars under keys that are not sensitive is left as it is. */
  lemma PlainDict(f: Dict)
    requires forall k :: k in f ==> Lower(k) !in Sensitive && !f[k].Obj? && !f[k].Arr?
    ensures Redact(Obj(f)) == Obj(f)
  {
    assert Redact(Obj(f)).fields == f;
  }

  /** The keys of a checkpoint event are not sensitive. */
  lemma CheckpointKeysPlain()
    ensures Lower("id") !in Sensitive && Lower("reason") !in Sensitive && Lower("expected_action") !in Sensitive
    ensures Lower("expires_at") !in Sensitive && Lower(StatusKey) !in Sensitive && Lower(CheckpointKey) !in Sensitive
  {
    LowerOfLowerLiteral("id");
    LowerOfLowerLiteral("reason");
    LowerOfLowerLiteral("expected_action");
    LowerOfLowerLiteral("expires_at");
    LowerOfLowerLiteral("status");
    LowerOfLowerLiteral("checkpoint");
  }

  /** None of the checkpoint payload's keys is sensitive, so redaction leaves the event payload as it is. */
  lemma CheckpointSurvivesRedaction(id: string, reason: string, expectedAction: string, expiresAt: string)
    ensures var p := map[CheckpointKey := Obj(CheckpointPayload(id, reason, expectedAction, expiresAt))];
      Redact(Obj(p)) == Obj(p)
  {
    var c := CheckpointPayload(id, reason, expectedAction, expiresAt);
    CheckpointKeysPlain();
    PlainDict(c);
    var p := map[CheckpointKey := Obj(c)];
    assert Redact(Obj(p)).fields == p;
  }

  /** The emitter; `store` is the event service when one was given together with a session getter. */
  class EventEmitter {
    const store: EventStore?

    constructor (service: EventStore?)
      ensures store == service
    {
      store := service;
    }

    /** `_emit_event`, with the service called as intended: the redacted message and payload reach the service; a failure there is swallowed and yields None, and without a service the event is only logged. */
    method EmitEvent(runId: string, eventType: EventType, message: string, payload: Dict, id: string, failure: Option<string>)
      returns (r: Option<EventRecord>)
      modifies store
      ensures store == null ==> r.None?
      ensures store != null && failure.Some? ==> r.None? && store.events == old(store.events)
      ensures store != null && failure.None? ==>
        r == Some(EventRecord(id, runId, eventType, Some(message), Redact(Obj(payload)).fields))
        && store.events == old(store.events) + [r.value]
    {
      RedactListAndScalars(Str(message));
      var safeMessage := Redact(Str(message)).s;
      RedactDict(payload);
      var safePayload := Redact(Obj(payload)).fields;
      if store == null {
        return None;
      }
      var created := store.CreateEvent(runId, eventType, Some(safeMessage), Some(safePayload), id, failure);
      if created.Err? {
        return None;
      }
      r := Some(created.value);
    }

    /** `emit_checkpoint_reached`. */
    method EmitCheckpointReached(runId: string, checkpointId: string, reason: string, expectedAction: string,
                                 expiresAt: string, id: string, failure: Option<string>)
      returns (r: Option<EventRecord>)
      modifies store
      ensures store == null || failure.Some? ==> r.None?
      ensures store != null && failure.Some? ==> store.events == old(store.events)
      ensures store != null && failure.None? ==>
        r == Some(EventRecord(id, runId, CheckpointEvent, Some("checkpoint_reached: " + checkpointId),
                              map[CheckpointKey := Obj(CheckpointPayload(checkpointId, reason, expectedAction, expiresAt))]))
        && store.events == old(store.events) + [r.value]
    {
      var payload := map[CheckpointKey := Obj(CheckpointPayload(checkpointId, reason, expectedAction, expiresAt))];
      CheckpointSurvivesRedaction(checkpointId, reason, expectedAction, expiresAt);
      r := EmitEvent(runId, CheckpointEvent, "checkpoint_reached: " + checkpointId, payload, id, failure);
    }
  }

  /** A stored checkpoint event is what the event service later lists as that run's checkpoint. */
  lemma CheckpointIsListed(r: EventRecord, checkpointId: string, reason: string, expectedAction: string, expiresAt: string)
    requires r.payload == map[CheckpointKey := Obj(CheckpointPayload(checkpointId, reason, expectedAction, expiresAt))]
    ensures RunCheckpoints([r]) == [Obj(CheckpointPayload(checkpointId, reason, expectedAction, expiresAt))]
  {
  }
}
