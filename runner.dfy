// The legacy flow runner: an older step loop over the raw manifest steps. It
// stops at every checkpoint with no way to resume, and its cleanup always
// stops the agent and closes the browser session, paused or not.
//
// The session provider, the agent and the action executor are outside the
// model: an oracle says which of them fails. The run service and the event
// emitter are recorded as effects; the emitter of this runner swallows its
// own failures, so emitting never raises. The status writes are the ones the
// runner intends: the run service it imports has no `update_run_status`, and
// `ExecuteFlowAsWritten` shows what that does to a run.
module Runner {
  import opened Wrappers
  import opened Text
  import opened Json
  import opened RunState
  import opened Context
  import opened PyDatetime
  import Steps

  /** What the runner asks of its collaborators, in order. */
  datatype Effect =
    | SessionCreated
    | AgentStarted
    | StatusSet(status: string, failure: Option<string>)
    | RunStarted
    | StepStarted(index: int, name: Value)
    | StepCompleted(index: int, name: Value)
    | StepFailed(index: int, name: Value, error: string)
    | CheckpointReached(id: Value, reason: Value, expectedAction: Value, expiresAt: int)
    | ActionExecuted(step: Dict)
    | ActionSkipped
    | RunCompleted
    | RunFailed(error: string)
    | AgentStopped
    | SessionClosed

  /** The outside world of one run: a failing session creation, a failing agent start, the actions (by step position, from 0) whose execution raises, and `datetime.now(UTC)` as the step at each position reads it. */
  datatype Oracle = Oracle(sessionError: Option<string>, agentError: Option<string>, actionErrors: map<nat, string>,
                           clock: nat -> Instant)

  /** The runner's fields and the context's step counter. */
  datatype State = State(hasAgent: bool, hasExecutor: bool, currentStep: int, log: seq<Effect>)

  function Emit(s: State, e: Effect): State
  {
    s.(log := s.log + [e])
  }

  const NoGetSuffix := "' object has no attribute 'get'"
  const DefaultReason := "Awaiting human input"
  const DefaultExpectedAction := "continue"
  const DefaultCheckpointId := "checkpoint"
  const StepLabel := "Step "

  /** The error Python raises for `v.get(...)` on a value that is not a dictionary. */
  function NoGet(v: Value): string
  {
    "'" + TypeName(v) + NoGetSuffix
  }

  /** `manifest.get("steps") or manifest.get("config", {}).get("steps", [])`. */
  function RawSteps(manifest: Dict): (r: Result<Value, string>)
    ensures Truthy(Get(manifest, "steps")) ==> r == Ok(manifest["steps"])
    ensures !Truthy(Get(manifest, "steps")) && "config" !in manifest ==> r == Ok(Arr([]))
    ensures !Truthy(Get(manifest, "steps")) && "config" in manifest && manifest["config"].Obj? ==>
      r == Ok(GetOr(manifest["config"].fields, "steps", Arr([])))
    ensures r.Err? <==> !Truthy(Get(manifest, "steps")) && "config" in manifest && !manifest["config"].Obj?
  {
    var top := Get(manifest, "steps");
    if Truthy(top) then Ok(top)
    else
      match GetOr(manifest, "config", Obj(map[]))
      case Obj(c) => Ok(GetOr(c, "steps", Arr([])))
      case other => Err(NoGet(other))
  }

  /** The values `enumerate` yields. A non-empty dictionary yields its keys, and the first of them, a string, fails at `step.get`. */
  function Entries(v: Value): (r: Result<seq<Value>, string>)
    ensures v.Arr? ==> r == Ok(v.items)
    ensures r.Ok? ==> forall k :: 0 <= k < |r.value| ==> v.Arr? || r.value[k].Str?
  {
    if v.Obj? && v.fields != map[] then Err(NoGet(Str("")))
    else Steps.Elements(v)
  }

  /** An action step appends exactly one entry and changes nothing else; it can fail only when an executor is present and the oracle says this step's action raises. */
  lemma ActionFailsOnlyWithExecutor(s: State, d: Dict, i: nat, o: Oracle)
    ensures var r := ActionSpec(s, d, i, o);
      r.0.(log := s.log) == s && |r.0.log| == |s.log| + 1 && r.0.log[..|s.log|] == s.log
    ensures ActionSpec(s, d, i, o).1.Some? ==> s.hasExecutor && ActionSpec(s, d, i, o).1 == Some(o.actionErrors[i])
  {
    assert ActionSpec(s, d, i, o).0.log[..|s.log|] == s.log;
  }

  /** _execute_action: a step handed to the executor, or skipped when there is none. */
  function ActionSpec(s: State, d: Dict, i: nat, o: Oracle): (r: (State, Option<string>))
    ensures !s.hasExecutor ==> r == (Emit(s, ActionSkipped), None)
    ensures s.hasExecutor ==> r.0 == Emit(s, ActionExecuted(d))
    ensures s.hasExecutor ==> (r.1.Some? <==> i in o.actionErrors)
  {
    if !s.hasExecutor then (Emit(s, ActionSkipped), None)
    else if i in o.actionErrors then (Emit(s, ActionExecuted(d)), Some(o.actionErrors[i]))
    else (Emit(s, ActionExecuted(d)), None)
  }

  /** The checkpoint id, reason and expected action, each falling back with Python's `or`. */
  function CheckpointIdOf(d: Dict): Value
  {
    Or(Or(Get(d, "id"), Get(d, "name")), Str(DefaultCheckpointId))
  }

  /** `expires_at` of a checkpoint read at `now`: the deadline of `int(step.get("timeout", 900))`, or the exception of `int()` or of the sum. */
  function ExpiresAt(d: Dict, now: Instant): Result<Instant, string>
  {
    Deadline(PyInt(GetOr(d, "timeout", Num(900))), now)
  }

  /** A checkpoint step: the event, then awaiting_input, then a stop. A timeout that `int()` rejects, or whose deadline from `now` is past the calendar, raises before anything is recorded. */
  function CheckpointSpec(s: State, d: Dict, now: Instant): (r: (State, Result<bool, string>))
    ensures r.1 != Ok(true)
    ensures r.1.Err? <==> var t := PyInt(GetOr(d, "timeout", Num(900)));
      t.Err? || now + t.value < MinSeconds || now + t.value > MaxSeconds
    ensures r.1.Err? ==> r.0 == s
    ensures r.1.Ok? ==> r.0.(log := s.log) == s && |r.0.log| == |s.log| + 2 && r.0.log[|s.log| + 1] == StatusSet(AwaitingInput, None)
  {
    match ExpiresAt(d, now)
    case Err(e) => (s, Err(e))
    case Ok(t) =>
      var reached := CheckpointReached(CheckpointIdOf(d), Or(Get(d, "reason"), Str(DefaultReason)),
                                       Or(Get(d, "expected_action"), Str(DefaultExpectedAction)), t);
      (Emit(Emit(s, reached), StatusSet(AwaitingInput, None)), Ok(false))
  }

  /** _execute_step: Ok(true) to go on, Ok(false) to stop, Err when it raises. */
  function ExecuteStepSpec(s: State, d: Dict, i: nat, o: Oracle): (r: (State, Result<bool, string>))
    ensures r.0.hasAgent == s.hasAgent && r.0.hasExecutor == s.hasExecutor && r.0.currentStep == s.currentStep
    ensures s.log <= r.0.log
  {
    match Steps.StepType(d)
    case Err(e) => (s, Err(e))
    case Ok(t) =>
      if t == "checkpoint" then CheckpointSpec(s, d, o.clock(i))
      else if t == "action" then
        (var (s1, err) := ActionSpec(s, d, i, o);
         if err.Some? then (s1, Err(err.value)) else (s1, Ok(true)))
      else (s, Ok(true))
  }

  /** The name a step is reported under: `step.get("name", "Step <position>")`, which keeps a present None. */
  function StepNameOf(d: Dict, i: nat): Value
  {
    GetOr(d, "name", Str(StepLabel + NatToString(i + 1)))
  }

  /** One pass of the loop in _execute_flow_steps for the entry at position i. */
  function StepAt(s: State, v: Value, i: nat, o: Oracle): (r: (State, Result<bool, string>))
    ensures r.0.hasAgent == s.hasAgent && r.0.hasExecutor == s.hasExecutor
    ensures s.log <= r.0.log
  {
    match v
    case Obj(d) =>
      var name := StepNameOf(d, i);
      var s1 := Emit(s.(currentStep := i + 1), StepStarted(i + 1, name));
      var (s2, out) := ExecuteStepSpec(s1, d, i, o);
      (match out
       case Err(e) => (Emit(s2, StepFailed(i + 1, name, e)), Err(e))
       case Ok(going) => if going then (Emit(s2, StepCompleted(i + 1, name)), Ok(true)) else (s2, Ok(false)))
    case _ => (s, Err(NoGet(v)))
  }

  /** The loop from position i on: it stops at the first step that does not go on. */
  function StepsFrom(s: State, xs: seq<Value>, i: nat, o: Oracle): (r: (State, Result<bool, string>))
    ensures r.0.hasAgent == s.hasAgent && r.0.hasExecutor == s.hasExecutor
    ensures s.log <= r.0.log
    decreases |xs| - i
  {
    if i >= |xs| then (s, Ok(true))
    else
      var (s1, out) := StepAt(s, xs[i], i, o);
      if out == Ok(true) then StepsFrom(s1, xs, i + 1, o) else (s1, out)
  }

  /** _execute_flow_steps. */
  function FlowStepsSpec(s: State, manifest: Dict, o: Oracle): (r: (State, Result<bool, string>))
    ensures r.0.hasAgent == s.hasAgent && r.0.hasExecutor == s.hasExecutor
    ensures s.log <= r.0.log
  {
    match RawSteps(manifest)
    case Err(e) => (s, Err(e))
    case Ok(v) =>
      match Entries(v)
      case Err(e) => (s, Err(e))
      case Ok(xs) => StepsFrom(s, xs, 0, o)
  }

  /** The state once the session, the agent and the executor are in place and the run has started. */
  function Launched(s: State): State
  {
    State(true, true, s.currentStep, s.log + [SessionCreated, AgentStarted, StatusSet(Running, None), RunStarted])
  }

  /** The steps, then "completed" when every one of them finished. */
  function StepsThenComplete(s: State, manifest: Dict, o: Oracle): (r: (State, Option<string>))
  {
    var (s1, out) := FlowStepsSpec(s, manifest, o);
    match out
    case Err(e) => (s1, Some(e))
    case Ok(completed) =>
      if completed then (s1.(log := s1.log + [StatusSet(Completed, None), RunCompleted]), None) else (s1, None)
  }

  /** The try block of execute_flow: the state it leaves and the exception it raises, if any. */
  function TrySpec(s: State, manifest: Dict, o: Oracle): (r: (State, Option<string>))
    ensures o.sessionError.Some? ==> r == (s, o.sessionError)
    ensures o.sessionError.None? && o.agentError.Some? ==> r == (Emit(s, SessionCreated), o.agentError)
    ensures o.sessionError.None? && o.agentError.None? ==> r.0.hasAgent && r.0.hasExecutor
    ensures s.log <= r.0.log
  {
    if o.sessionError.Some? then (s, o.sessionError)
    else if o.agentError.Some? then (Emit(s, SessionCreated), o.agentError)
    else StepsThenComplete(Launched(s), manifest, o)
  }

  /** The except clause: the run is marked failed with the error, then the failure event. */
  function HandleError(s: State, error: Option<string>): (t: State)
    ensures error.None? <==> t == s
    ensures t.(log := s.log) == s && s.log <= t.log
    ensures error.Some? ==> |t.log| == |s.log| + 2 && t.log[|s.log|] == StatusSet(Failed, error)
  {
    match error
    case None => s
    case Some(e) => s.(log := s.log + [StatusSet(Failed, Some(e)), RunFailed(e)])
  }

  /** The finally clause: the agent, if the runner holds one, is stopped, and the session is always closed. */
  function Cleanup(s: State): (r: State)
    ensures r.hasAgent == s.hasAgent && r.hasExecutor == s.hasExecutor
  {
    var s1 := if s.hasAgent then Emit(s, AgentStopped) else s;
    Emit(s1, SessionClosed)
  }

  /** execute_flow on a fresh context. */
  function ExecuteFlowSpec(s: State, manifest: Dict, o: Oracle): (t: State)
    ensures s.log <= t.log && |t.log| > |s.log| && t.log[|t.log| - 1] == SessionClosed
    ensures t.hasAgent <==> s.hasAgent || (o.sessionError.None? && o.agentError.None?)
  {
    var (tried, error) := TrySpec(s.(currentStep := 0), manifest, o);
    Cleanup(HandleError(tried, error))
  }

  // ----- Properties -----

  /** The two step readers disagree on precedence: with both a top-level list and a config list, this runner takes the top-level one and the manifest parser the config one. */
  lemma StepsSourceOrder(manifest: Dict)
    requires "steps" in manifest && Truthy(manifest["steps"])
    requires "config" in manifest && manifest["config"].Obj? && Truthy(Get(manifest["config"].fields, "steps"))
    ensures RawSteps(manifest) == Ok(manifest["steps"])
    ensures Steps.StepsData(manifest) == manifest["config"].fields["steps"]
  {
  }

  /** Each dictionary step starts with its start event at position i + 1 and the counter set to i + 1; a stop adds no completion event; an exception ends with the failure event and is raised again. */
  lemma StepEvents(s: State, d: Dict, i: nat, o: Oracle)
    ensures var r := StepAt(s, Obj(d), i, o);
      var started := s.log + [StepStarted(i + 1, StepNameOf(d, i))];
      var inner := ExecuteStepSpec(s.(currentStep := i + 1, log := started), d, i, o);
      && r.0.currentStep == i + 1
      && started <= r.0.log
      && r.1 == inner.1
      && (r.1 == Ok(false) ==> r.0 == inner.0)
      && (r.1 == Ok(true) ==> r.0.log == inner.0.log + [StepCompleted(i + 1, StepNameOf(d, i))])
      && (r.1.Err? ==> r.0.log == inner.0.log + [StepFailed(i + 1, StepNameOf(d, i), r.1.error)])
  {
  }

  /** A non-dictionary entry raises at `step.get` before any event. */
  lemma NonDictEntryRaises(s: State, v: Value, i: nat, o: Oracle)
    requires !v.Obj?
    ensures StepAt(s, v, i, o) == (s, Err(NoGet(v)))
  {
  }

  /** Every checkpoint stops the loop after its event and awaiting_input: there is no resume path. */
  lemma CheckpointAlwaysStops(s: State, d: Dict, i: nat, o: Oracle)
    requires Steps.StepType(d) == Ok("checkpoint")
    requires ExpiresAt(d, o.clock(i)).Ok?
    ensures ExecuteStepSpec(s, d, i, o).1 == Ok(false)
    ensures ExecuteStepSpec(s, d, i, o).0.log == s.log + [
      CheckpointReached(CheckpointIdOf(d), Or(Get(d, "reason"), Str(DefaultReason)),
                        Or(Get(d, "expected_action"), Str(DefaultExpectedAction)), ExpiresAt(d, o.clock(i)).value),
      StatusSet(AwaitingInput, None)]
  {
  }

  /** A present `timeout` of None is passed to `int()` and raises; an absent one is 900 seconds. */
  lemma CheckpointTimeoutDefault(d: Dict)
    ensures "timeout" !in d ==> PyInt(GetOr(d, "timeout", Num(900))) == Ok(900)
    ensures "timeout" in d && d["timeout"].Null? ==> PyInt(GetOr(d, "timeout", Num(900))).Err?
  {
  }

  /** Action steps go to the executor (or are skipped); every other type goes on without effect. */
  lemma OtherTypesIgnored(s: State, d: Dict, i: nat, o: Oracle)
    requires Steps.StepType(d).Ok? && Steps.StepType(d).value != "checkpoint" && Steps.StepType(d).value != "action"
    ensures ExecuteStepSpec(s, d, i, o) == (s, Ok(true))
  {
  }

  lemma ActionWithoutExecutorSkipped(s: State, d: Dict, i: nat, o: Oracle)
    requires Steps.StepType(d) == Ok("action") && !s.hasExecutor
    ensures ExecuteStepSpec(s, d, i, o) == (Emit(s, ActionSkipped), Ok(true))
  {
  }

  /** Whether the entry at position i goes on does not depend on the log or the counter. */
  function Continues(v: Value, i: nat, hasExecutor: bool, o: Oracle): bool
  {
    StepAt(State(false, hasExecutor, 0, []), v, i, o).1 == Ok(true)
  }

  lemma StepAtOutcome(s: State, v: Value, i: nat, o: Oracle)
    ensures StepAt(s, v, i, o).1 == StepAt(State(false, s.hasExecutor, 0, []), v, i, o).1
  {
  }

  /** The loop finishes (returns True) iff every entry from position i on goes on. */
  lemma {:induction false} StepsFinishIffAllContinue(s: State, xs: seq<Value>, i: nat, o: Oracle)
    requires i <= |xs|
    ensures StepsFrom(s, xs, i, o).1 == Ok(true) <==> forall j :: i <= j < |xs| ==> Continues(xs[j], j, s.hasExecutor, o)
    decreases |xs| - i
  {
    if i < |xs| {
      var (s1, out) := StepAt(s, xs[i], i, o);
      StepAtOutcome(s, xs[i], i, o);
      if out == Ok(true) {
        StepsFinishIffAllContinue(s1, xs, i + 1, o);
      }
    }
  }

  /** Without a session or agent failure, the try block is the step loop on the launched state. */
  lemma LaunchWhenReady(s: State, manifest: Dict, o: Oracle)
    requires o.sessionError.None? && o.agentError.None?
    ensures TrySpec(s, manifest, o) == StepsThenComplete(Launched(s), manifest, o)
    ensures Launched(s).hasAgent && Launched(s).hasExecutor
  {
  }

  /** "completed" is set only when every step finished, and "failed" exactly when something raised; the agent and the session are released in every case. */
  lemma CompletionAndFailure(s: State, manifest: Dict, o: Oracle)
    requires o.sessionError.None? && o.agentError.None?
    ensures var (s3, out) := FlowStepsSpec(Launched(s.(currentStep := 0)), manifest, o);
      && (out == Ok(true) ==> ExecuteFlowSpec(s, manifest, o).log == s3.log + [StatusSet(Completed, None), RunCompleted, AgentStopped, SessionClosed])
      && (out == Ok(false) ==> ExecuteFlowSpec(s, manifest, o).log == s3.log + [AgentStopped, SessionClosed])
      && (out.Err? ==> ExecuteFlowSpec(s, manifest, o).log == s3.log + [StatusSet(Failed, Some(out.error)), RunFailed(out.error), AgentStopped, SessionClosed])
  {
    LaunchWhenReady(s.(currentStep := 0), manifest, o);
  }

  /** Unlike the flow engine, the finally block always closes the session, and stops the agent whenever the runner holds one, even when the run paused. */
  lemma AlwaysReleases(s: State, manifest: Dict, o: Oracle)
    ensures var r := ExecuteFlowSpec(s, manifest, o);
      && |r.log| >= 1 && r.log[|r.log| - 1] == SessionClosed
      && (r.hasAgent ==> |r.log| >= 2 && r.log[|r.log| - 2] == AgentStopped)
      && (o.sessionError.None? && o.agentError.None? ==> r.hasAgent)
      && (s.hasAgent ==> r.hasAgent)
  {
    if o.sessionError.None? && o.agentError.None? {
      LaunchWhenReady(s.(currentStep := 0), manifest, o);
    }
  }

  /** An agent kept from an earlier run on the same runner is stopped again when the next run fails before its own agent starts. */
  lemma StaleAgentStoppedAgain(s: State, manifest: Dict, o: Oracle)
    requires s.hasAgent && o.sessionError.Some?
    ensures ExecuteFlowSpec(s, manifest, o).log ==
      s.log + [StatusSet(Failed, o.sessionError), RunFailed(o.sessionError.value), AgentStopped, SessionClosed]
  {
  }

  // ----- As written against services/run/service.py -----

  /** The AttributeError of `self.run_service.update_run_status`: the RunService this runner imports has the method `update_run` only. */
  const NoUpdateRunStatus := "'RunService' object has no attribute 'update_run_status'"

  /** execute_flow as written: its first status update raises, in the try block once the agent is up and otherwise in the except clause, whose own call raises again; that error leaves execute_flow after the finally clause. */
  function ExecuteFlowAsWritten(s: State, o: Oracle): (r: (State, string))
    ensures s.log <= r.0.log && |r.0.log| > |s.log| && r.0.log[|r.0.log| - 1] == SessionClosed
    ensures r.0.hasAgent <==> s.hasAgent || (o.sessionError.None? && o.agentError.None?)
  {
    var s0 := s.(currentStep := 0);
    var tried := if o.sessionError.Some? then s0
                 else if o.agentError.Some? then Emit(s0, SessionCreated)
                 else State(true, true, 0, s0.log + [SessionCreated, AgentStarted]);
    (Cleanup(tried), NoUpdateRunStatus)
  }

  /** As written, every run raises the missing-method error, runs no step and records no status, start, completion or failure, only the session and agent coming up and going down. */
  lemma EveryRunRaisesAsWritten(s: State, o: Oracle)
    ensures var (t, e) := ExecuteFlowAsWritten(s, o);
      && e == NoUpdateRunStatus
      && forall x <- t.log[|s.log|..] :: x == SessionCreated || x == AgentStarted || x == AgentStopped || x == SessionClosed
  {
    var t := ExecuteFlowAsWritten(s, o).0;
    var up := if o.sessionError.Some? then [] else if o.agentError.Some? then [SessionCreated] else [SessionCreated, AgentStarted];
    var down := if t.hasAgent then [AgentStopped, SessionClosed] else [SessionClosed];
    assert t.log == s.log + (up + down);
    assert t.log[|s.log|..] == up + down;
  }

  /** The intended run, by contrast, records a status whatever happens. */
  lemma IntendedRunRecordsStatus(s: State, manifest: Dict, o: Oracle)
    ensures exists x <- ExecuteFlowSpec(s, manifest, o).log[|s.log|..] :: x.StatusSet?
  {
    var t := ExecuteFlowSpec(s, manifest, o);
    var i := IntendedStatusIndex(s, manifest, o);
    assert t.log[|s.log|..][i - |s.log|] == t.log[i];
  }

  /** The intended run records a status: the failure when the try block raised, otherwise running. */
  lemma IntendedStatusIndex(s: State, manifest: Dict, o: Oracle) returns (i: nat)
    ensures |s.log| <= i < |ExecuteFlowSpec(s, manifest, o).log| && ExecuteFlowSpec(s, manifest, o).log[i].StatusSet?
  {
    var s0 := s.(currentStep := 0);
    var (tried, error) := TrySpec(s0, manifest, o);
    if error.Some? {
      i := |tried.log|;
    } else {
      LaunchWhenReady(s0, manifest, o);
      i := |s.log| + 2;
      assert Launched(s0).log[i] == StatusSet(Running, None);
    }
  }

  class FlowRunner {
    var hasAgent: bool
    var hasExecutor: bool
    var log: seq<Effect>

    function Abs(ctx: RunContext): State
      reads this, ctx
    {
      State(hasAgent, hasExecutor, ctx.currentStep, log)
    }

    /** A new runner holds no agent and no executor. */
    constructor ()
      ensures !hasAgent && !hasExecutor && log == []
    {
      hasAgent := false;
      hasExecutor := false;
      log := [];
    }

    method EmitEffect(e: Effect)
      modifies this
      ensures log == old(log) + [e] && hasAgent == old(hasAgent) && hasExecutor == old(hasExecutor)
    {
      log := log + [e];
    }

    /** _execute_action. */
    method ExecuteAction(ctx: RunContext, d: Dict, i: nat, o: Oracle) returns (err: Option<string>)
      modifies this
      ensures (Abs(ctx), err) == ActionSpec(old(Abs(ctx)), d, i, o)
    {
      if !hasExecutor {
        EmitEffect(ActionSkipped);
        return None;
      }
      EmitEffect(ActionExecuted(d));
      err := if i in o.actionErrors then Some(o.actionErrors[i]) else None;
    }

    /** _execute_step. */
    method ExecuteStep(ctx: RunContext, d: Dict, i: nat, o: Oracle) returns (r: Result<bool, string>)
      modifies this
      ensures (Abs(ctx), r) == ExecuteStepSpec(old(Abs(ctx)), d, i, o)
    {
      var t := Steps.StepType(d);
      if t.Err? {
        return Err(t.error);
      }
      if t.value == "checkpoint" {
        var expiresAt := ExpiresAt(d, o.clock(i));
        if expiresAt.Err? {
          return Err(expiresAt.error);
        }
        EmitEffect(CheckpointReached(CheckpointIdOf(d), Or(Get(d, "reason"), Str(DefaultReason)),
                                     Or(Get(d, "expected_action"), Str(DefaultExpectedAction)), expiresAt.value));
        EmitEffect(StatusSet(AwaitingInput, None));
        return Ok(false);
      }
      if t.value == "action" {
        var err := ExecuteAction(ctx, d, i, o);
        if err.Some? {
          return Err(err.value);
        }
      }
      r := Ok(true);
    }

    /** One pass of the loop: the name, the counter, the start event, the step, and its completion or failure event. */
    method RunStepAt(ctx: RunContext, v: Value, i: nat, o: Oracle) returns (r: Result<bool, string>)
      modifies this, ctx
      ensures ctx.manifest == old(ctx.manifest)
      ensures (Abs(ctx), r) == StepAt(old(Abs(ctx)), v, i, o)
    {
      if !v.Obj? {
        return Err(NoGet(v));
      }
      var name := StepNameOf(v.fields, i);
      ctx.currentStep := i + 1;
      EmitEffect(StepStarted(i + 1, name));
      r := ExecuteStep(ctx, v.fields, i, o);
      if r.Err? {
        EmitEffect(StepFailed(i + 1, name, r.error));
      } else if r.value {
        EmitEffect(StepCompleted(i + 1, name));
      }
    }

    /** _execute_flow_steps. */
    method ExecuteFlowSteps(ctx: RunContext, o: Oracle) returns (r: Result<bool, string>)
      modifies this, ctx
      ensures (Abs(ctx), r) == FlowStepsSpec(old(Abs(ctx)), old(ctx.manifest), o)
    {
      var raw := RawSteps(ctx.manifest);
      if raw.Err? {
        return Err(raw.error);
      }
      var entries := Entries(raw.value);
      if entries.Err? {
        return Err(entries.error);
      }
      var xs := entries.value;
      ghost var goal := StepsFrom(Abs(ctx), xs, 0, o);
      var i := 0;
      while i < |xs|
        invariant 0 <= i <= |xs|
        invariant goal == StepsFrom(Abs(ctx), xs, i, o)
        decreases |xs| - i
      {
        var out := RunStepAt(ctx, xs[i], i, o);
        if out != Ok(true) {
          return out;
        }
        i := i + 1;
      }
      r := Ok(true);
    }

    /** The try block of execute_flow. */
    method TryBlock(ctx: RunContext, o: Oracle) returns (error: Option<string>)
      modifies this, ctx
      ensures (Abs(ctx), error) == TrySpec(old(Abs(ctx)), old(ctx.manifest), o)
    {
      if o.sessionError.Some? {
        return o.sessionError;
      }
      EmitEffect(SessionCreated);
      if o.agentError.Some? {
        return o.agentError;
      }
      hasAgent := true;
      hasExecutor := true;
      log := log + [AgentStarted, StatusSet(Running, None), RunStarted];
      assert Abs(ctx) == Launched(old(Abs(ctx)));
      var done := ExecuteFlowSteps(ctx, o);
      if done.Err? {
        return Some(done.error);
      }
      if done.value {
        log := log + [StatusSet(Completed, None), RunCompleted];
      }
      error := None;
    }

    /** execute_flow: a fresh context, the try block, the failure handling, and the cleanup. */
    method ExecuteFlow(runId: string, flowId: string, userId: string, manifest: Dict, inputPayload: Dict, o: Oracle)
      modifies this
      ensures var r := ExecuteFlowSpec(old(State(hasAgent, hasExecutor, 0, log)), manifest, o);
        hasAgent == r.hasAgent && hasExecutor == r.hasExecutor && log == r.log
    {
      var ctx := new RunContext(runId, flowId, userId, inputPayload, manifest);
      var error := TryBlock(ctx, o);
      if error.Some? {
        log := log + [StatusSet(Failed, error), RunFailed(error.value)];
      }
      if hasAgent {
        EmitEffect(AgentStopped);
      }
      EmitEffect(SessionClosed);
    }

    /** resume_flow only moves the run back to running. */
    method ResumeFlow()
      modifies this
      ensures log == old(log) + [StatusSet(Running, None)]
      ensures hasAgent == old(hasAgent) && hasExecutor == old(hasExecutor)
    {
      EmitEffect(StatusSet(Running, None));
    }
  }
}
