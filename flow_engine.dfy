// The flow engine: runs a manifest's steps for one run, pauses at
// checkpoints, drives the run state machine and records what it asks of
// the run service, the event emitter, the session provider, the agent and
// the action executor.
//
// The coordinator's "resumed?" answer, the session and agent outcomes, the
// event store's answer to each emission, the world each action step meets
// and the clock each checkpoint reads are supplied by an oracle.
module FlowEngine {
  import opened Wrappers
  import opened Text
  import opened Json
  import opened RunState
  import opened Context
  import opened Checkpoint
  import opened Steps
  import opened PyDatetime
  import ActionRegistry
  import BrowserAgent
  import Middleware
  import EngineExecutor

  /** What the engine asks of its collaborators, in order. RunStarted, CheckpointReached, RunCompleted and RunFailed are emissions through the event emitter. */
  datatype Effect =
    | SessionAttached
    | AgentCreated
    | StatusUpdated(status: string)
    | FailureRecorded(error: string)
    | RunStarted
    | RunCompleted
    | RunFailed(error: string)
    | CheckpointReached(checkpointId: string, reason: string, expectedAction: string, expiresAt: int)
    | ActionExecuted(stepName: string, effects: seq<Middleware.Effect>)
    | AgentStopped
    | SessionClosed

  /** The coordinator's answer at a checkpoint: no resume before the timeout, or a resume with the latest input, signalled either through this engine's `resume` or from elsewhere. */
  datatype Signal = TimedOut | Resumed(latest: Option<Dict>, viaThisEngine: bool)

  /** The outside world of one run. Steps are numbered from 0. The event store answers an emission by the position the emission takes in the log: an entry there is the exception `create_event` raises. A step without an entry meets a world where nothing fails (actions) or times out (checkpoints). `clock(i)` is `datetime.now(UTC)` as a checkpoint at step i reads it. */
  datatype Oracle = Oracle(
    attachError: Option<string>,
    agentError: Option<string>,
    emitErrors: map<nat, string>,
    actions: map<nat, EngineExecutor.World>,
    signals: map<nat, Signal>,
    clock: nat -> Instant)

  function SignalAt(o: Oracle, i: nat): Signal
  {
    if i in o.signals then o.signals[i] else TimedOut
  }

  /** Hooks and agent that never raise. */
  const QuietWorld := EngineExecutor.World(Middleware.Hooks(None, None, None, None, ""), BrowserAgent.World(None, Null, "", None))

  function WorldAt(o: Oracle, i: nat): EngineExecutor.World
  {
    if i in o.actions then o.actions[i] else QuietWorld
  }

  /** A step's result: go on, stop (paused at a checkpoint), or an exception. */
  datatype Outcome = Continue | Pause | Raise(error: string)

  /** What stays fixed for the whole run: the identifiers a snapshot records, and the action registry's contents the executor builds commands from. */
  datatype RunInfo = RunInfo(runId: string, flowId: string, userId: string, factories: map<string, ActionRegistry.Kind>)

  /** The engine's and the context's observable state. */
  datatype State = State(
    fsm: Option<string>,
    hasAgent: bool,
    currentStep: int,
    inputPayload: Dict,
    variables: Dict,
    checkpoints: map<string, Memento>,
    log: seq<Effect>)

  function Emit(s: State, e: Effect): (t: State)
  {
    s.(log := s.log + [e])
  }

  /** The exception, if any, that an emission made now raises: the event store's answer at the emission's log position. */
  function EmitError(s: State, o: Oracle): Option<string>
  {
    if |s.log| in o.emitErrors then Some(o.emitErrors[|s.log|]) else None
  }

  /** _update_run_status with one of the (lower-case) state names: the state machine, when there is one, must accept the transition before the run service is told. */
  function UpdateStatus(s: State, status: string): (r: Result<State, string>)
    ensures r.Err? <==> s.fsm.Some? && !CanMove(s.fsm.value, status)
    ensures r.Err? ==> r.error == InvalidTransitionMessage(s.fsm.value, status)
    ensures r.Ok? ==> r.value.log == s.log + [StatusUpdated(status)]
    ensures r.Ok? ==> r.value.fsm == (if s.fsm.Some? then Some(status) else None)
    ensures r.Ok? ==> r.value.(fsm := s.fsm, log := s.log) == s
  {
    if s.fsm.Some? && !CanMove(s.fsm.value, status) then
      Err(InvalidTransitionMessage(s.fsm.value, status))
    else
      Ok(s.(fsm := if s.fsm.Some? then Some(status) else None, log := s.log + [StatusUpdated(status)]))
  }

  /** A non-empty string field, or the fallback. */
  function TextOr(v: Value, fallback: string): (r: string)
    ensures v.Str? && v.s != [] ==> r == v.s
    ensures !(v.Str? && v.s != []) ==> r == fallback
  {
    if v.Str? && v.s != [] then v.s else fallback
  }

  /** On a string or a missing value TextOr is Python's `v or fallback`; a falsy value of any kind gives the fallback. */
  lemma TextOrIsPythonOr(v: Value, fallback: string)
    ensures v.Str? || v.Null? ==> TextOr(v, fallback) == (if Truthy(v) then v.s else fallback)
    ensures !Truthy(v) ==> TextOr(v, fallback) == fallback
    ensures fallback != [] ==> TextOr(v, fallback) != []
  {
  }

  /** `int(step.timeout or 900)`. */
  function TimeoutSeconds(v: Value): (r: Result<int, string>)
    ensures !Truthy(v) ==> r == Ok(900)
    ensures v.Num? && v.n != 0 ==> r == Ok(v.n)
    ensures Truthy(v) ==> r == PyInt(v)
  {
    PyInt(Or(v, Num(900)))
  }

  /** `expires_at` of a checkpoint at step i: the timeout's deadline from the clock there, or the exception of `int()` or of the sum. */
  function ExpiresAt(timeout: Value, o: Oracle, i: nat): Result<Instant, string>
  {
    Deadline(TimeoutSeconds(timeout), o.clock(i))
  }

  // Messages and defaults, named once: long literals are costly for the verifier wherever they appear.
  const DefaultReason := "Awaiting human input"
  const DefaultExpectedAction := "continue"
  const DefaultCheckpointId := "checkpoint"
  const StepLabel := "Step "

  /** The name a step is reported under: its name, else (checkpoints only) its id, else "Step <position>". */
  function StepName(st: Step, i: nat): (r: string)
    ensures st.name.Str? && st.name.s != [] ==> r == st.name.s
    ensures st.ActionStep? && !(st.name.Str? && st.name.s != []) ==> r == StepLabel + NatToString(i + 1)
    ensures st.CheckpointStep? && !(st.name.Str? && st.name.s != []) ==> r == TextOr(st.id, StepLabel + NatToString(i + 1))
  {
    var fallback := StepLabel + NatToString(i + 1);
    match st
    case ActionStep(name, _) => TextOr(name, fallback)
    case CheckpointStep(id, name, _, _, _) => TextOr(name, TextOr(id, fallback))
  }

  /** A step without a usable name (nor, for a checkpoint, an id). */
  predicate Unnamed(st: Step)
  {
    !(st.name.Str? && st.name.s != []) && (st.CheckpointStep? ==> !(st.id.Str? && st.id.s != []))
  }

  /** Every step is reported under a non-empty name: its own when it has one, otherwise a label of its position, so unnamed steps at different positions are told apart. */
  lemma StepNamesArePositional(st: Step, i: nat, other: Step, j: nat)
    ensures StepName(st, i) != []
    ensures !Unnamed(st) ==> StepName(st, i) == (if st.name.Str? && st.name.s != [] then st.name.s else st.id.s)
    ensures Unnamed(st) && Unnamed(other) && StepName(st, i) == StepName(other, j) ==> i == j
  {
    if Unnamed(st) && Unnamed(other) && StepName(st, i) == StepName(other, j) {
      var a, b := NatToString(i + 1), NatToString(j + 1);
      assert StepName(st, i) == StepLabel + a && StepName(other, j) == StepLabel + b;
      assert a == (StepLabel + a)[|StepLabel|..] && b == (StepLabel + b)[|StepLabel|..];
      NatToStringInjective(i + 1, j + 1);
    }
  }

  /** The key a checkpoint is stored under: its id, else its name, else "checkpoint"; never empty. */
  function CheckpointId(st: Step): (r: string)
    requires st.CheckpointStep?
    ensures r != []
    ensures r == DefaultCheckpointId || (st.id.Str? && r == st.id.s) || (st.name.Str? && r == st.name.s)
  {
    TextOr(st.id, TextOr(st.name, DefaultCheckpointId))
  }

  /** The state change made by this engine's `resume`: the run is moved to running. */
  function ResumeSpec(s: State): Result<State, string>
  {
    UpdateStatus(s, Running)
  }

  /** What happens after the coordinator has answered at a checkpoint: a timeout pauses with nothing changed; a resume restores the snapshot, merges the latest input and asks for running. */
  function AfterSignal(s: State, memento: Memento, sig: Signal): (r: (State, Outcome))
    ensures sig.TimedOut? <==> r == (s, Pause)
    ensures r.1.Continue? ==>
      (r.0.currentStep == RestoredStep(s.currentStep, memento)
       && r.0.variables == RestoredVariables(s.variables, memento)
       && r.0.inputPayload == MergeInputs(s.inputPayload, sig.latest))
  {
    match sig
    case TimedOut => (s, Pause)
    case Resumed(latest, via) =>
      var s1 := if via then (match ResumeSpec(s) case Ok(t) => t case Err(_) => s) else s;
      var s2 := s1.(currentStep := RestoredStep(s1.currentStep, memento),
                    variables := RestoredVariables(s1.variables, memento),
                    inputPayload := MergeInputs(s1.inputPayload, latest));
      match UpdateStatus(s2, Running)
      case Err(e) => (s2, Raise(e))
      case Ok(s3) => (s3, Continue)
  }

  /** A checkpoint step: defaults, snapshot, awaiting_input, the checkpoint event, then the coordinator's answer. Once the timeout converts and its deadline exists, the snapshot of the current step and variables is stored under the checkpoint's id whatever follows. */
  function CheckpointSpec(s: State, st: Step, i: nat, o: Oracle, info: RunInfo): (r: (State, Outcome))
    requires st.CheckpointStep?
    ensures ExpiresAt(st.timeout, o, i).Err? ==> r == (s, Raise(ExpiresAt(st.timeout, o, i).error))
    ensures ExpiresAt(st.timeout, o, i).Ok? ==>
      (CheckpointId(st) in r.0.checkpoints
       && r.0.checkpoints[CheckpointId(st)] == SnapshotOf(info.runId, info.flowId, info.userId, s.currentStep, s.variables))
  {
    var id := CheckpointId(st);
    var reason := TextOr(st.reason, DefaultReason);
    var expected := TextOr(st.expectedAction, DefaultExpectedAction);
    match ExpiresAt(st.timeout, o, i)
    case Err(e) => (s, Raise(e))
    case Ok(expiresAt) =>
      var memento := SnapshotOf(info.runId, info.flowId, info.userId, s.currentStep, s.variables);
      var s1 := s.(checkpoints := s.checkpoints[id := memento]);
      AnnounceSpec(s1, CheckpointReached(id, reason, expected, expiresAt), memento, SignalAt(o, i), o)
  }

  /** The checkpoint step once its snapshot is stored: awaiting_input, the checkpoint event, then the coordinator's answer. */
  function AnnounceSpec(s1: State, event: Effect, memento: Memento, sig: Signal, o: Oracle): (State, Outcome)
  {
    match UpdateStatus(s1, AwaitingInput)
    case Err(e) => (s1, Raise(e))
    case Ok(s2) => EmitAndAwaitSpec(s2, event, memento, sig, o)
  }

  /** The checkpoint event, then the coordinator's answer unless the event store raised. */
  function EmitAndAwaitSpec(s2: State, event: Effect, memento: Memento, sig: Signal, o: Oracle): (State, Outcome)
  {
    var s3 := Emit(s2, event);
    match EmitError(s2, o)
    case Some(e) => (s3, Raise(e))
    case None => AfterSignal(s3, memento, sig)
  }

  /** What the executor reports for action step i, run at the context's step counter against the current variables. */
  function ActionReport(s: State, st: Step, i: nat, o: Oracle, info: RunInfo): EngineExecutor.Report
    requires st.ActionStep?
  {
    EngineExecutor.ExecuteSpec(EngineExecutor.DefaultChain, info.factories, st.action, StepName(st, i), s.currentStep, s.variables, WorldAt(o, i))
  }

  /** An action step goes to the executor: its effects are recorded, the context's variables become the ones the command left, and its exception propagates. Machine, step counter, input and checkpoints are untouched. */
  function ActionSpec(s: State, st: Step, i: nat, o: Oracle, info: RunInfo): (r: (State, Outcome))
    requires st.ActionStep?
    ensures var rep := ActionReport(s, st, i, o, info);
      && r.0.variables == rep.variables
      && (r.1 == Continue <==> rep.error.None?)
      && (rep.error.Some? ==> r.1 == Raise(rep.error.value))
    ensures r.0.(variables := s.variables, log := s.log) == s
    ensures r.0.log == s.log + [ActionExecuted(StepName(st, i), ActionReport(s, st, i, o, info).effects)]
  {
    var rep := ActionReport(s, st, i, o, info);
    var s1 := s.(variables := rep.variables, log := s.log + [ActionExecuted(StepName(st, i), rep.effects)]);
    if rep.error.Some? then (s1, Raise(rep.error.value)) else (s1, Continue)
  }

  function StepSpec(s: State, st: Step, i: nat, o: Oracle, info: RunInfo): (State, Outcome)
  {
    if st.CheckpointStep? then CheckpointSpec(s, st, i, o, info) else ActionSpec(s, st, i, o, info)
  }

  /** _execute_steps from position i on: the step counter is set to i + 1 before step i; the first step that does not continue ends the loop. The agent is never touched. */
  function StepsFrom(s: State, steps: seq<Step>, i: nat, o: Oracle, info: RunInfo): (r: (State, Outcome))
    requires i <= |steps|
    ensures i == |steps| ==> r == (s, Continue)
    ensures r.0.hasAgent == s.hasAgent
    decreases |steps| - i
  {
    if i == |steps| then (s, Continue)
    else
      var (s1, out) := StepSpec(s.(currentStep := i + 1), steps[i], i, o, info);
      if out.Continue? then StepsFrom(s1, steps, i + 1, o, info) else (s1, out)
  }

  function ExecuteStepsSpec(s: State, manifest: Dict, o: Oracle, info: RunInfo): (State, Outcome)
  {
    match ParseSteps(manifest)
    case Err(e) => (s, Raise(e))
    case Ok(steps) => StepsFrom(s, steps, 0, o, info)
  }

  /** The result of the engine's try block: the state, whether `_execute_steps` returned True, and the exception if one was raised. */
  datatype TryResult = TryResult(state: State, flowCompleted: bool, error: Option<string>)

  /** The try block after the run has started: the steps, then completed and its event when they all continued. */
  function StepsThenComplete(s: State, manifest: Dict, o: Oracle, info: RunInfo): (r: TryResult)
  {
    var (s1, out) := ExecuteStepsSpec(s, manifest, o, info);
    match out
    case Raise(e) => TryResult(s1, false, Some(e))
    case Pause => TryResult(s1, false, None)
    case Continue =>
      match UpdateStatus(s1, Completed)
      case Err(e) => TryResult(s1, true, Some(e))
      case Ok(s2) => TryResult(Emit(s2, RunCompleted), true, EmitError(s2, o))
  }

  /** The try block of _run: attach the session, create the agent, move to running, announce the start, then the steps. A failing attach or agent leaves nothing behind but the attach. */
  function TrySpec(s: State, manifest: Dict, o: Oracle, info: RunInfo): (r: TryResult)
    ensures o.attachError.Some? ==> r == TryResult(s, false, o.attachError)
    ensures o.attachError.None? && o.agentError.Some? ==> r == TryResult(Emit(s, SessionAttached), false, o.agentError)
    ensures !r.state.hasAgent ==> r.state.hasAgent == s.hasAgent
  {
    if o.attachError.Some? then TryResult(s, false, o.attachError)
    else
      var s1 := Emit(s, SessionAttached);
      if o.agentError.Some? then TryResult(s1, false, o.agentError)
      else
        var s2 := Emit(s1.(hasAgent := true), AgentCreated);
        StartSpec(s2, manifest, o, info)
  }

  /** The try block once the agent exists: move to running, announce the start, then the steps. */
  function StartSpec(s2: State, manifest: Dict, o: Oracle, info: RunInfo): (r: TryResult)
  {
    match UpdateStatus(s2, Running)
    case Err(e) => TryResult(s2, false, Some(e))
    case Ok(s3) =>
      var s4 := Emit(s3, RunStarted);
      if EmitError(s3, o).Some? then TryResult(s4, false, EmitError(s3, o))
      else StepsThenComplete(s4, manifest, o, info)
  }

  /** _handle_error: the failure goes straight to the run service, bypassing the state machine, and a failure event follows; when that emission raises, its exception leaves the handler. */
  function HandleError(s: State, e: string, o: Oracle): (t: (State, Option<string>))
    ensures t.0.fsm == s.fsm && t.0.hasAgent == s.hasAgent
    ensures t.0.log == s.log + [FailureRecorded(e), RunFailed(e)]
    ensures t.1.Some? <==> |s.log| + 1 in o.emitErrors
  {
    var s1 := Emit(s, FailureRecorded(e));
    (Emit(s1, RunFailed(e)), EmitError(s1, o))
  }

  /** _cleanup: a paused run keeps its agent and session; otherwise the agent (if any) is stopped and the session closed. */
  function Cleanup(s: State, failed: bool, flowCompleted: bool): (t: State)
    ensures t == s <==> !failed && !flowCompleted
    ensures t.fsm == s.fsm && t.hasAgent == s.hasAgent
  {
    if !failed && !flowCompleted then s
    else
      var s1 := if s.hasAgent then Emit(s, AgentStopped) else s;
      Emit(s1, SessionClosed)
  }

  /** The end of _run: the final state, and the exception that escapes it (one raised by the error handler, after cleanup). */
  datatype RunResult = RunResult(state: State, escaped: Option<string>)

  /** _run: a fresh machine at pending, the try block, the error handler, and cleanup in every case. Only the error handler's own exception escapes. */
  function RunSpec(s: State, manifest: Dict, o: Oracle, info: RunInfo): (r: RunResult)
    ensures r.escaped.Some? ==> TrySpec(s.(fsm := Some(Pending)), manifest, o, info).error.Some?
  {
    var tr := TrySpec(s.(fsm := Some(Pending)), manifest, o, info);
    var failed := tr.error.Some?;
    var (s1, escaped) := if failed then HandleError(tr.state, tr.error.value, o) else (tr.state, None);
    RunResult(Cleanup(s1, failed, tr.flowCompleted), escaped)
  }

  /** RunSpec's three stages, given the result of each. */
  lemma RunSpecSteps(p: State, manifest: Dict, o: Oracle, info: RunInfo, tr: TryResult, handled: State, escaped: Option<string>)
    requires p.fsm == Some(Pending)
    requires tr == TrySpec(p, manifest, o, info)
    requires (handled, escaped) == if tr.error.Some? then HandleError(tr.state, tr.error.value, o) else (tr.state, None)
    ensures RunSpec(p, manifest, o, info) == RunResult(Cleanup(handled, tr.error.Some?, tr.flowCompleted), escaped)
  {
    assert p.(fsm := Some(Pending)) == p;
  }

  // ------------------------------------------------------------ properties

  /** Kinds of effect the step loop can produce. */
  predicate StepEffect(e: Effect)
  {
    (e.StatusUpdated? && (e.status == AwaitingInput || e.status == Running))
    || e.CheckpointReached? || e.ActionExecuted?
  }

  predicate OnlyStepEffects(s: State, t: State)
  {
    |s.log| <= |t.log| && t.log[..|s.log|] == s.log
    && forall k :: |s.log| <= k < |t.log| ==> StepEffect(t.log[k])
  }

  lemma EmitStepEffect(s: State, e: Effect)
    requires StepEffect(e)
    ensures OnlyStepEffects(s, Emit(s, e))
  {
  }

  /** A status update to awaiting_input or running adds one step effect. */
  lemma UpdateStatusStepEffect(s: State, status: string)
    requires status == AwaitingInput || status == Running
    requires UpdateStatus(s, status).Ok?
    ensures OnlyStepEffects(s, UpdateStatus(s, status).value)
  {
    assert UpdateStatus(s, status).value.log == s.log + [StatusUpdated(status)];
  }

  lemma AfterSignalStepEffects(s: State, memento: Memento, sig: Signal)
    ensures OnlyStepEffects(s, AfterSignal(s, memento, sig).0)
  {
    if sig.Resumed? {
      var s1 := if sig.viaThisEngine then (match ResumeSpec(s) case Ok(t) => t case Err(_) => s) else s;
      if sig.viaThisEngine && ResumeSpec(s).Ok? {
        UpdateStatusStepEffect(s, Running);
      }
      assert OnlyStepEffects(s, s1);
      var s2 := s1.(currentStep := RestoredStep(s1.currentStep, memento),
                    variables := RestoredVariables(s1.variables, memento),
                    inputPayload := MergeInputs(s1.inputPayload, sig.latest));
      if UpdateStatus(s2, Running).Ok? {
        UpdateStatusStepEffect(s2, Running);
        OnlyStepEffectsTransitive(s, s2, UpdateStatus(s2, Running).value);
      }
    }
  }

  lemma CheckpointStepEffects(s: State, st: Step, i: nat, o: Oracle, info: RunInfo)
    requires st.CheckpointStep?
    ensures OnlyStepEffects(s, CheckpointSpec(s, st, i, o, info).0)
  {
    var id := CheckpointId(st);
    var expiresAt := ExpiresAt(st.timeout, o, i);
    if expiresAt.Ok? {
      var memento := SnapshotOf(info.runId, info.flowId, info.userId, s.currentStep, s.variables);
      var s1 := s.(checkpoints := s.checkpoints[id := memento]);
      if UpdateStatus(s1, AwaitingInput).Ok? {
        var s2 := UpdateStatus(s1, AwaitingInput).value;
        UpdateStatusStepEffect(s1, AwaitingInput);
        var e := CheckpointReached(id, TextOr(st.reason, DefaultReason), TextOr(st.expectedAction, DefaultExpectedAction), expiresAt.value);
        EmitStepEffect(s2, e);
        OnlyStepEffectsTransitive(s1, s2, Emit(s2, e));
        if EmitError(s2, o).None? {
          AfterSignalStepEffects(Emit(s2, e), memento, SignalAt(o, i));
          OnlyStepEffectsTransitive(s1, Emit(s2, e), AfterSignal(Emit(s2, e), memento, SignalAt(o, i)).0);
          assert CheckpointSpec(s, st, i, o, info).0 == AfterSignal(Emit(s2, e), memento, SignalAt(o, i)).0;
        }
      }
    }
  }

  lemma StepOnlyStepEffects(s: State, st: Step, i: nat, o: Oracle, info: RunInfo)
    ensures OnlyStepEffects(s, StepSpec(s, st, i, o, info).0)
  {
    if st.CheckpointStep? {
      CheckpointStepEffects(s, st, i, o, info);
    }
  }

  lemma OnlyStepEffectsTransitive(a: State, b: State, c: State)
    requires OnlyStepEffects(a, b) && OnlyStepEffects(b, c)
    ensures OnlyStepEffects(a, c)
  {
    assert c.log[..|a.log|] == c.log[..|b.log|][..|a.log|];
    forall k | |a.log| <= k < |c.log| ensures StepEffect(c.log[k]) {
      if k < |b.log| {
        assert c.log[k] == c.log[..|b.log|][k];
      }
    }
  }

  /** The step loop only ever records awaiting_input or running, checkpoint events and executed actions: never completion, failure or cleanup. */
  lemma {:induction false} StepsOnlyStepEffects(s: State, steps: seq<Step>, i: nat, o: Oracle, info: RunInfo)
    requires i <= |steps|
    ensures OnlyStepEffects(s, StepsFrom(s, steps, i, o, info).0)
    decreases |steps| - i
  {
    if i < |steps| {
      var s0 := s.(currentStep := i + 1);
      StepOnlyStepEffects(s0, steps[i], i, o, info);
      var (s1, out) := StepSpec(s0, steps[i], i, o, info);
      if out.Continue? {
        StepsOnlyStepEffects(s1, steps, i + 1, o, info);
        OnlyStepEffectsTransitive(s, s1, StepsFrom(s1, steps, i + 1, o, info).0);
      }
    }
  }

  /** A step that continues leaves the machine running when it found it running. */
  lemma StepKeepsRunning(s: State, st: Step, i: nat, o: Oracle, info: RunInfo)
    requires s.fsm == Some(Running)
    requires StepSpec(s, st, i, o, info).1.Continue?
    ensures StepSpec(s, st, i, o, info).0.fsm == Some(Running)
  {
  }

  /** The action's type lowers and the world lets both of its hook events be stored. */
  predicate ActionAccepted(st: Step, i: nat, o: Oracle)
    requires st.ActionStep?
  {
    StepType(st.action).Ok? && WorldAt(o, i).hooks.startError.None? && WorldAt(o, i).hooks.endError.None?
  }

  /** An action step continues only when its type lowers, neither hook event raises and the command itself succeeds; the context's variables are then the ones the command left. */
  lemma ActionContinues(s: State, st: Step, i: nat, o: Oracle, info: RunInfo)
    requires st.ActionStep? && ActionSpec(s, st, i, o, info).1.Continue?
    ensures ActionAccepted(st, i, o)
    ensures var a := EngineExecutor.CommandSpec(info.factories, StepType(st.action).value, st.action, s.variables, WorldAt(o, i).action);
      a.error.None? && ActionSpec(s, st, i, o, info).0.variables == a.variables
  {
    EngineExecutor.EarlyFailures(info.factories, st.action, StepName(st, i), s.currentStep, s.variables, WorldAt(o, i));
    EngineExecutor.AfterHooksRunOnce(info.factories, st.action, StepName(st, i), s.currentStep, s.variables, WorldAt(o, i));
  }

  /** The step loop either finishes every step or stops at a step that did not continue. When it finishes, every checkpoint was resumed (not through this engine), and every action's type lowered and its hook events were accepted. */
  lemma {:induction false} CompletedMeansEveryStepContinued(s: State, steps: seq<Step>, i: nat, o: Oracle, info: RunInfo)
    requires i <= |steps| && s.fsm == Some(Running)
    requires StepsFrom(s, steps, i, o, info).1.Continue?
    ensures StepsFrom(s, steps, i, o, info).0.fsm == Some(Running)
    ensures forall j :: i <= j < |steps| ==> StepAccepted(steps[j], j, o)
    decreases |steps| - i
  {
    if i < |steps| {
      var s1 := ContinuedStep(s, steps, i, o, info);
      CompletedMeansEveryStepContinued(s1, steps, i + 1, o, info);
      forall j | i < j < |steps|
        ensures StepAccepted(steps[j], j, o)
      {
      }
    }
  }

  /** One pass of a loop that continues: step i continued from running, was accepted, and the loop goes on from the state it left. */
  lemma ContinuedStep(s: State, steps: seq<Step>, i: nat, o: Oracle, info: RunInfo) returns (s1: State)
    requires i < |steps| && s.fsm == Some(Running)
    requires StepsFrom(s, steps, i, o, info).1.Continue?
    ensures s1.fsm == Some(Running) && StepAccepted(steps[i], i, o)
    ensures StepsFrom(s, steps, i, o, info) == StepsFrom(s1, steps, i + 1, o, info)
  {
    var s0 := s.(currentStep := i + 1);
    StepContinues(s0, steps[i], i, o, info);
    s1 := StepSpec(s0, steps[i], i, o, info).0;
  }

  /** What the world must have allowed for a step to continue: an action accepted, a checkpoint resumed from outside this engine. */
  predicate StepAccepted(st: Step, i: nat, o: Oracle)
  {
    if st.ActionStep? then ActionAccepted(st, i, o)
    else SignalAt(o, i).Resumed? && !SignalAt(o, i).viaThisEngine
  }

  /** A step that continues from running was accepted and is back at running. */
  lemma StepContinues(s: State, st: Step, i: nat, o: Oracle, info: RunInfo)
    requires s.fsm == Some(Running)
    requires StepSpec(s, st, i, o, info).1.Continue?
    ensures StepSpec(s, st, i, o, info).0.fsm == Some(Running)
    ensures StepAccepted(st, i, o)
  {
    StepKeepsRunning(s, st, i, o, info);
    if st.CheckpointStep? {
      CheckpointContinues(s, st, i, o, info);
    } else {
      ActionContinues(s, st, i, o, info);
    }
  }

  /** At a checkpoint reached while running, the step continues only after a resume signalled from outside this engine. */
  lemma CheckpointContinues(s: State, st: Step, i: nat, o: Oracle, info: RunInfo)
    requires st.CheckpointStep? && s.fsm == Some(Running)
    requires CheckpointSpec(s, st, i, o, info).1.Continue?
    ensures SignalAt(o, i).Resumed? && !SignalAt(o, i).viaThisEngine
  {
    if SignalAt(o, i).Resumed? && SignalAt(o, i).viaThisEngine && |s.log| + 1 !in o.emitErrors {
      CheckpointResumedThroughThisEngineFails(s, st, i, o, info);
    }
  }

  /** Resuming through this same engine moves the machine to running before the checkpoint code asks for running again, which the table rejects: the step raises "Invalid transition: running → running". */
  lemma CheckpointResumedThroughThisEngineFails(s: State, st: Step, i: nat, o: Oracle, info: RunInfo)
    requires st.CheckpointStep? && s.fsm == Some(Running)
    requires ExpiresAt(st.timeout, o, i).Ok?
    requires SignalAt(o, i).Resumed? && SignalAt(o, i).viaThisEngine
    requires |s.log| + 1 !in o.emitErrors
    ensures CheckpointSpec(s, st, i, o, info).1 == Raise(InvalidTransitionMessage(Running, Running))
  {
    var memento := SnapshotOf(info.runId, info.flowId, info.userId, s.currentStep, s.variables);
    var s1 := s.(checkpoints := s.checkpoints[CheckpointId(st) := memento]);
    assert UpdateStatus(s1, AwaitingInput).Ok?;
    var s2 := UpdateStatus(s1, AwaitingInput).value;
    var e := CheckpointReached(CheckpointId(st), TextOr(st.reason, DefaultReason),
                               TextOr(st.expectedAction, DefaultExpectedAction), ExpiresAt(st.timeout, o, i).value);
    SameEngineResumeRejected(Emit(s2, e), memento, SignalAt(o, i).latest);
  }

  /** At awaiting_input, a resume through this engine followed by the resumed branch's own request for running is rejected. */
  lemma SameEngineResumeRejected(s: State, memento: Memento, latest: Option<Dict>)
    requires s.fsm == Some(AwaitingInput)
    ensures AfterSignal(s, memento, Resumed(latest, true)).1 == Raise(InvalidTransitionMessage(Running, Running))
  {
    var s1 := UpdateStatus(s, Running).value;
    assert s1.fsm == Some(Running);
  }

  /** A checkpoint that is not resumed pauses the run at awaiting_input. */
  lemma CheckpointTimeoutPauses(s: State, st: Step, i: nat, o: Oracle, info: RunInfo)
    requires st.CheckpointStep? && s.fsm == Some(Running)
    requires ExpiresAt(st.timeout, o, i).Ok?
    requires SignalAt(o, i) == TimedOut && |s.log| + 1 !in o.emitErrors
    ensures CheckpointSpec(s, st, i, o, info).1 == Pause
    ensures CheckpointSpec(s, st, i, o, info).0.fsm == Some(AwaitingInput)
    ensures CheckpointId(st) in CheckpointSpec(s, st, i, o, info).0.checkpoints
    ensures CheckpointSpec(s, st, i, o, info).0.log == s.log + [StatusUpdated(AwaitingInput),
      CheckpointReached(CheckpointId(st), TextOr(st.reason, DefaultReason),
                        TextOr(st.expectedAction, DefaultExpectedAction), ExpiresAt(st.timeout, o, i).value)]
  {
  }

  /** When the checkpoint event cannot be stored, the step raises that error at awaiting_input, with the snapshot already kept and the coordinator never asked. */
  lemma CheckpointEventFailureRaises(s: State, st: Step, i: nat, o: Oracle, info: RunInfo)
    requires st.CheckpointStep? && s.fsm == Some(Running)
    requires ExpiresAt(st.timeout, o, i).Ok?
    requires |s.log| + 1 in o.emitErrors
    ensures CheckpointSpec(s, st, i, o, info).1 == Raise(o.emitErrors[|s.log| + 1])
    ensures CheckpointSpec(s, st, i, o, info).0.fsm == Some(AwaitingInput)
    ensures |CheckpointSpec(s, st, i, o, info).0.log| == |s.log| + 2
  {
  }

  /** A resumed checkpoint restores the snapshot, merges the latest input and is back at running. */
  lemma CheckpointResumeRestores(s: State, st: Step, i: nat, o: Oracle, info: RunInfo)
    requires st.CheckpointStep? && s.fsm == Some(Running)
    requires ExpiresAt(st.timeout, o, i).Ok?
    requires SignalAt(o, i).Resumed? && !SignalAt(o, i).viaThisEngine && |s.log| + 1 !in o.emitErrors
    ensures CheckpointSpec(s, st, i, o, info).1 == Continue
    ensures CheckpointSpec(s, st, i, o, info).0.fsm == Some(Running)
    ensures CheckpointSpec(s, st, i, o, info).0.currentStep == s.currentStep
    ensures CheckpointSpec(s, st, i, o, info).0.variables == s.variables
    ensures CheckpointSpec(s, st, i, o, info).0.inputPayload == MergeInputs(s.inputPayload, SignalAt(o, i).latest)
  {
    RestoreSnapshotIsIdentity(info.runId, info.flowId, info.userId, s.currentStep, s.variables);
  }

  /** The state once the session is attached, the agent created, the machine at running and the run announced. */
  function Launched(s: State): (t: State)
  {
    s.(fsm := Some(Running), hasAgent := true,
       log := s.log + [SessionAttached, AgentCreated, StatusUpdated(Running), RunStarted])
  }

  /** From pending, once session and agent are up, the try block reaches the steps unless the start event cannot be stored; then it raises that error with no step run. */
  lemma LaunchFromPending(s: State, manifest: Dict, o: Oracle, info: RunInfo)
    requires s.fsm == Some(Pending) && o.attachError.None? && o.agentError.None?
    ensures |s.log| + 3 !in o.emitErrors ==> TrySpec(s, manifest, o, info) == StepsThenComplete(Launched(s), manifest, o, info)
    ensures |s.log| + 3 in o.emitErrors ==> TrySpec(s, manifest, o, info) == TryResult(Launched(s), false, Some(o.emitErrors[|s.log| + 3]))
  {
    var s2 := Emit(Emit(s, SessionAttached).(hasAgent := true), AgentCreated);
    assert CanMove(Pending, Running);
    assert Emit(UpdateStatus(s2, Running).value, RunStarted) == Launched(s);
  }

  /** After the start, the try block only appends to the log; it reports the flow completed exactly when every step continued, and a pause adds step effects only. */
  lemma StepsThenCompleteCases(s: State, manifest: Dict, o: Oracle, info: RunInfo)
    ensures var r := StepsThenComplete(s, manifest, o, info);
      |s.log| <= |r.state.log| && r.state.log[..|s.log|] == s.log
    ensures var r := StepsThenComplete(s, manifest, o, info);
      r.flowCompleted <==> (ParseSteps(manifest).Ok? && StepsFrom(s, ParseSteps(manifest).value, 0, o, info).1.Continue?)
    ensures var r := StepsThenComplete(s, manifest, o, info);
      !r.flowCompleted && r.error.None? ==> OnlyStepEffects(s, r.state)
  {
    match ParseSteps(manifest)
    case Err(_) =>
    case Ok(steps) =>
      StepsOnlyStepEffects(s, steps, 0, o, info);
      var s1 := StepsFrom(s, steps, 0, o, info).0;
      assert (s1.log + [StatusUpdated(Completed)] + [RunCompleted])[..|s.log|] == s1.log[..|s.log|];
  }

  /** Once session and agent are up, the run is at running and announced before any step runs. */
  lemma RunningBeforeAnyStep(s: State, manifest: Dict, o: Oracle, info: RunInfo)
    requires o.attachError.None? && o.agentError.None?
    ensures var t := TrySpec(s.(fsm := Some(Pending)), manifest, o, info).state;
      |t.log| >= |s.log| + 4
      && t.log[..|s.log| + 4] == s.log + [SessionAttached, AgentCreated, StatusUpdated(Running), RunStarted]
  {
    var p := s.(fsm := Some(Pending));
    LaunchFromPending(p, manifest, o, info);
    StepsThenCompleteCases(Launched(p), manifest, o, info);
    assert Launched(p).log == s.log + [SessionAttached, AgentCreated, StatusUpdated(Running), RunStarted];
  }

  /** COMPLETED is recorded only when every step continued; a run paused at a checkpoint records neither completion nor failure and keeps its agent and session. */
  lemma CompletionAndPause(s: State, manifest: Dict, o: Oracle, info: RunInfo)
    requires o.attachError.None? && o.agentError.None? && |s.log| + 3 !in o.emitErrors
    ensures var tr := TrySpec(s.(fsm := Some(Pending)), manifest, o, info);
      tr.flowCompleted <==> (ParseSteps(manifest).Ok?
        && StepsFrom(Launched(s.(fsm := Some(Pending))), ParseSteps(manifest).value, 0, o, info).1.Continue?)
    ensures var tr := TrySpec(s.(fsm := Some(Pending)), manifest, o, info);
      !tr.flowCompleted && tr.error.None? ==>
        RunSpec(s, manifest, o, info) == RunResult(tr.state, None)
        && forall k :: |s.log| <= k < |tr.state.log| ==>
             (tr.state.log[k] != StatusUpdated(Completed) && !tr.state.log[k].FailureRecorded?
              && tr.state.log[k] != AgentStopped && tr.state.log[k] != SessionClosed)
  {
    var p := s.(fsm := Some(Pending));
    var l := Launched(p);
    LaunchFromPending(p, manifest, o, info);
    StepsThenCompleteCases(l, manifest, o, info);
    var tr := TrySpec(p, manifest, o, info);
    if !tr.flowCompleted && tr.error.None? {
      PausedRunIsLeftAlone(s, manifest, o, info);
      LaunchThenStepEffectsOnly(s, l, tr.state);
    }
  }

  /** A run whose try block neither raised nor completed is not touched by the handler or cleanup. */
  lemma PausedRunIsLeftAlone(s: State, manifest: Dict, o: Oracle, info: RunInfo)
    requires var tr := TrySpec(s.(fsm := Some(Pending)), manifest, o, info); !tr.flowCompleted && tr.error.None?
    ensures RunSpec(s, manifest, o, info) == RunResult(TrySpec(s.(fsm := Some(Pending)), manifest, o, info).state, None)
  {
  }

  /** After the launch events, only step effects: nothing from the start of the run on is a completion, a failure or a release. */
  lemma LaunchThenStepEffectsOnly(s: State, l: State, t: State)
    requires l == Launched(s.(fsm := Some(Pending))) && OnlyStepEffects(l, t)
    ensures forall k :: |s.log| <= k < |t.log| ==>
      (t.log[k] != StatusUpdated(Completed) && !t.log[k].FailureRecorded?
       && t.log[k] != AgentStopped && t.log[k] != SessionClosed)
  {
    forall k | |s.log| <= k < |t.log|
      ensures t.log[k] != StatusUpdated(Completed) && !t.log[k].FailureRecorded?
      ensures t.log[k] != AgentStopped && t.log[k] != SessionClosed
    {
      if k < |l.log| {
        assert t.log[k] == l.log[k];
      } else {
        assert StepEffect(t.log[k]);
      }
    }
  }

  /** Any exception in the try block ends with the failure recorded and announced, without touching the state machine, and then cleanup; the exception escapes the run only when the failure event itself cannot be stored. */
  lemma FailureIsRecorded(s: State, manifest: Dict, o: Oracle, info: RunInfo)
    requires TrySpec(s.(fsm := Some(Pending)), manifest, o, info).error.Some?
    ensures var tr := TrySpec(s.(fsm := Some(Pending)), manifest, o, info);
      var e := tr.error.value;
      var t := RunSpec(s, manifest, o, info);
      t.state.fsm == tr.state.fsm
      && t.state.log == tr.state.log + [FailureRecorded(e), RunFailed(e)]
                        + (if tr.state.hasAgent then [AgentStopped] else []) + [SessionClosed]
      && (t.escaped.Some? <==> |tr.state.log| + 1 in o.emitErrors)
  {
  }

  /** A run whose try block raised nothing lets nothing escape. */
  lemma NothingEscapesWithoutFailure(s: State, manifest: Dict, o: Oracle, info: RunInfo)
    requires TrySpec(s.(fsm := Some(Pending)), manifest, o, info).error.None?
    ensures RunSpec(s, manifest, o, info).escaped.None?
    ensures |s.log| <= |RunSpec(s, manifest, o, info).state.log|
    ensures RunSpec(s, manifest, o, info).state.log[..|s.log|] == s.log
  {
    var tr := TrySpec(s.(fsm := Some(Pending)), manifest, o, info);
    if o.attachError.None? && o.agentError.None? {
      RunningBeforeAnyStep(s, manifest, o, info);
      assert tr.state.log[..|s.log|] == tr.state.log[..|s.log| + 4][..|s.log|];
    }
    var t := RunSpec(s, manifest, o, info).state;
    assert t.log[..|tr.state.log|] == tr.state.log;
    assert t.log[..|s.log|] == t.log[..|tr.state.log|][..|s.log|];
  }

  /** When every emission raises, as the emitter does once its session is unusable, the run never reaches a step: the start event's error is recorded as the run's failure, the machine is left at running, cleanup runs, and the failure event's own error escapes the run. */
  lemma EveryRunFailsWhenEmissionsRaise(s: State, manifest: Dict, o: Oracle, info: RunInfo)
    requires o.attachError.None? && o.agentError.None?
    requires |s.log| + 3 in o.emitErrors && |s.log| + 5 in o.emitErrors
    ensures var e := o.emitErrors[|s.log| + 3];
      RunSpec(s, manifest, o, info) ==
        RunResult(s.(fsm := Some(Running), hasAgent := true,
                     log := s.log + [SessionAttached, AgentCreated, StatusUpdated(Running), RunStarted,
                                     FailureRecorded(e), RunFailed(e), AgentStopped, SessionClosed]),
                  Some(o.emitErrors[|s.log| + 5]))
  {
    var p := s.(fsm := Some(Pending));
    LaunchFromPending(p, manifest, o, info);
  }

  /** A finished or failed run stops the agent it has and closes the session. */
  lemma CleanupClosesUnlessPaused(s: State, failed: bool, flowCompleted: bool)
    ensures !failed && !flowCompleted ==> Cleanup(s, failed, flowCompleted) == s
    ensures failed || flowCompleted ==>
      Cleanup(s, failed, flowCompleted).log == s.log + (if s.hasAgent then [AgentStopped] else []) + [SessionClosed]
  {
  }

  /** A manifest whose only step is a checkpoint, resumed through this same engine, fails the run. */
  lemma SameEngineResumeFailsRun(s: State, o: Oracle, info: RunInfo, cp: Dict)
    requires o.attachError.None? && o.agentError.None?
    requires StepType(cp) == Ok("checkpoint") && ExpiresAt(Get(cp, "timeout"), o, 0).Ok?
    requires SignalAt(o, 0).Resumed? && SignalAt(o, 0).viaThisEngine
    requires |s.log| + 3 !in o.emitErrors && |s.log| + 5 !in o.emitErrors
    ensures var tr := TrySpec(s.(fsm := Some(Pending)), map["steps" := Arr([Obj(cp)])], o, info);
      tr.error == Some(InvalidTransitionMessage(Running, Running)) && !tr.flowCompleted
  {
    var manifest := map["steps" := Arr([Obj(cp)])];
    var st := OneCheckpointParses(cp);
    var p := s.(fsm := Some(Pending));
    LaunchFromPending(p, manifest, o, info);
    var l := Launched(p).(currentStep := 1);
    CheckpointResumedThroughThisEngineFails(l, st, 0, o, info);
    OneStepRaises(Launched(p), manifest, st, o, info, InvalidTransitionMessage(Running, Running));
  }

  /** A manifest whose only entry is a checkpoint parses to that one step. */
  lemma OneCheckpointParses(cp: Dict) returns (st: Step)
    requires StepType(cp) == Ok("checkpoint")
    ensures st == CheckpointStep(Get(cp, "id"), Get(cp, "name"), Get(cp, "reason"), Get(cp, "expected_action"), Get(cp, "timeout"))
    ensures ParseSteps(map["steps" := Arr([Obj(cp)])]) == Ok([st])
  {
    var manifest := map["steps" := Arr([Obj(cp)])];
    var xs := [Obj(cp)];
    st := CheckpointStep(Get(cp, "id"), Get(cp, "name"), Get(cp, "reason"),
                         Get(cp, "expected_action"), Get(cp, "timeout"));
    assert StepsData(manifest) == Arr(xs);
    assert xs[..|xs| - 1] == [];
    assert ParseEntries(xs[..|xs| - 1]) == Ok([]);
    CheckpointFieldsVerbatim(cp);
    assert ParseEntry(xs[|xs| - 1]) == Ok(Some(st));
    assert ParseEntries(xs) == Ok([] + [st]);
    assert [] + [st] == [st];
    assert Elements(StepsData(manifest)) == Ok(xs);
  }

  /** With a single step that raises, the try block ends with that exception and the flow not completed. */
  lemma OneStepRaises(s: State, manifest: Dict, st: Step, o: Oracle, info: RunInfo, e: string)
    requires ParseSteps(manifest) == Ok([st])
    requires StepSpec(s.(currentStep := 1), st, 0, o, info).1 == Raise(e)
    ensures StepsThenComplete(s, manifest, o, info).error == Some(e)
    ensures !StepsThenComplete(s, manifest, o, info).flowCompleted
  {
    assert [st][0] == st;
  }

  // --------------------------------------------------------------- engine

  class Engine {
    var fsm: RunStateMachine?
    var executor: EngineExecutor.ActionExecutor?
    var hasAgent: bool
    var log: seq<Effect>
    /** The process-wide action registry the executor looks types up in. */
    const registry: ActionRegistry.Registry

    ghost predicate Valid()
      reads this, fsm, executor, if executor == null then {} else {executor.chain}
    {
      (fsm != null ==> fsm.Valid())
      && (executor != null ==> executor.chain.middlewares == EngineExecutor.DefaultChain)
    }

    function FsmState(): Option<string>
      reads this, fsm
    {
      if fsm == null then None else Some(fsm.current)
    }

    function Abs(ctx: RunContext): State
      reads this, fsm, ctx
    {
      State(FsmState(), hasAgent, ctx.currentStep, ctx.inputPayload, ctx.variables, ctx.checkpoints, log)
    }

    function InfoOf(ctx: RunContext): RunInfo
      reads this, ctx, registry
    {
      RunInfo(ctx.runId, ctx.flowId, ctx.userId, registry.factories)
    }

    constructor (registry: ActionRegistry.Registry)
      ensures Valid() && fsm == null && executor == null && !hasAgent && log == []
      ensures this.registry == registry
    {
      fsm := null;
      executor := null;
      hasAgent := false;
      log := [];
      this.registry := registry;
    }

    /** _update_run_status. */
    method UpdateRunStatus(ctx: RunContext, status: string) returns (r: Result<(), string>)
      requires Valid() && Lower(status) == status
      modifies this, fsm
      ensures Valid() && fsm == old(fsm) && executor == old(executor)
      ensures UpdateStatus(old(Abs(ctx)), status).Ok? ==> r.Ok? && Abs(ctx) == UpdateStatus(old(Abs(ctx)), status).value
      ensures UpdateStatus(old(Abs(ctx)), status).Err? ==>
        r == Err(UpdateStatus(old(Abs(ctx)), status).error) && Abs(ctx) == old(Abs(ctx))
    {
      if fsm != null {
        var t := fsm.Transition(Some(status));
        if t.Err? {
          return Err(t.error);
        }
      }
      log := log + [StatusUpdated(status)];
      r := Ok(());
    }

    /** An emission through the event emitter: it is logged, and raises what the event store answers. */
    method EmitEvent(e: Effect, o: Oracle) returns (error: Option<string>)
      modifies this
      ensures log == old(log) + [e] && error == (if |old(log)| in o.emitErrors then Some(o.emitErrors[|old(log)|]) else None)
      ensures fsm == old(fsm) && executor == old(executor) && hasAgent == old(hasAgent)
    {
      error := if |log| in o.emitErrors then Some(o.emitErrors[|log|]) else None;
      log := log + [e];
    }

    /** resume: moves the run to running, then signals the coordinator (not modelled beyond the oracle). */
    method Resume(ctx: RunContext) returns (r: Result<(), string>)
      requires Valid()
      modifies this, fsm
      ensures Valid() && fsm == old(fsm) && executor == old(executor)
      ensures ResumeSpec(old(Abs(ctx))).Ok? ==> r.Ok? && Abs(ctx) == ResumeSpec(old(Abs(ctx))).value
      ensures ResumeSpec(old(Abs(ctx))).Err? ==> r.Err? && Abs(ctx) == old(Abs(ctx))
    {
      StateNamesAreLowerCase();
      r := UpdateRunStatus(ctx, Running);
    }

    /** The checkpoint branch of _execute_step. */
    method ExecuteCheckpoint(ctx: RunContext, st: Step, i: nat, o: Oracle) returns (out: Outcome)
      requires Valid() && st.CheckpointStep?
      modifies this, fsm, ctx
      ensures Valid() && fsm == old(fsm) && executor == old(executor)
      ensures InfoOf(ctx) == old(InfoOf(ctx)) && ctx.manifest == old(ctx.manifest)
      ensures (Abs(ctx), out) == CheckpointSpec(old(Abs(ctx)), st, i, o, old(InfoOf(ctx)))
    {
      StateNamesAreLowerCase();
      var id := CheckpointId(st);
      var reason := TextOr(st.reason, DefaultReason);
      var expected := TextOr(st.expectedAction, DefaultExpectedAction);
      var expiresAt := ExpiresAt(st.timeout, o, i);
      if expiresAt.Err? {
        return Raise(expiresAt.error);
      }
      var memento := Snapshot(ctx);
      ctx.AddCheckpoint(id, memento);
      out := Announce(ctx, CheckpointReached(id, reason, expected, expiresAt.value), memento, SignalAt(o, i), o);
    }

    /** The checkpoint branch after the snapshot: awaiting_input, the event, then the coordinator's answer. */
    method Announce(ctx: RunContext, event: Effect, memento: Memento, sig: Signal, o: Oracle) returns (out: Outcome)
      requires Valid()
      modifies this, fsm, ctx
      ensures Valid() && fsm == old(fsm) && executor == old(executor)
      ensures InfoOf(ctx) == old(InfoOf(ctx)) && ctx.manifest == old(ctx.manifest)
      ensures (Abs(ctx), out) == AnnounceSpec(old(Abs(ctx)), event, memento, sig, o)
    {
      StateNamesAreLowerCase();
      var u := UpdateRunStatus(ctx, AwaitingInput);
      if u.Err? {
        return Raise(u.error);
      }
      out := EmitAndAwait(ctx, event, memento, sig, o);
    }

    /** The checkpoint event, then the coordinator's answer unless the event store raised. */
    method EmitAndAwait(ctx: RunContext, event: Effect, memento: Memento, sig: Signal, o: Oracle) returns (out: Outcome)
      requires Valid()
      modifies this, fsm, ctx
      ensures Valid() && fsm == old(fsm) && executor == old(executor)
      ensures InfoOf(ctx) == old(InfoOf(ctx)) && ctx.manifest == old(ctx.manifest)
      ensures (Abs(ctx), out) == EmitAndAwaitSpec(old(Abs(ctx)), event, memento, sig, o)
    {
      var emitted := EmitEvent(event, o);
      if emitted.Some? {
        return Raise(emitted.value);
      }
      out := AwaitSignal(ctx, memento, sig);
    }

    /** The end of a checkpoint step, once the coordinator has answered. */
    method AwaitSignal(ctx: RunContext, memento: Memento, sig: Signal) returns (out: Outcome)
      requires Valid()
      modifies this, fsm, ctx
      ensures Valid() && fsm == old(fsm) && executor == old(executor)
      ensures InfoOf(ctx) == old(InfoOf(ctx)) && ctx.manifest == old(ctx.manifest)
      ensures (Abs(ctx), out) == AfterSignal(old(Abs(ctx)), memento, sig)
    {
      if sig.TimedOut? {
        return Pause;
      }
      if sig.viaThisEngine {
        var _ := Resume(ctx);
      }
      Restore(ctx, memento);
      ctx.inputPayload := MergeInputs(ctx.inputPayload, sig.latest);
      StateNamesAreLowerCase();
      var v := UpdateRunStatus(ctx, Running);
      if v.Err? {
        return Raise(v.error);
      }
      out := Continue;
    }

    /** _execute_step: a checkpoint here, an action through the executor. */
    method ExecuteStep(ctx: RunContext, st: Step, i: nat, o: Oracle) returns (out: Outcome)
      requires Valid() && executor != null
      modifies this, fsm, ctx
      ensures Valid() && fsm == old(fsm) && executor == old(executor)
      ensures InfoOf(ctx) == old(InfoOf(ctx)) && ctx.manifest == old(ctx.manifest)
      ensures (Abs(ctx), out) == StepSpec(old(Abs(ctx)), st, i, o, old(InfoOf(ctx)))
    {
      if st.CheckpointStep? {
        out := ExecuteCheckpoint(ctx, st, i, o);
      } else {
        var name := StepName(st, i);
        var effects, error := executor.ExecuteAction(ctx, st, name, registry, WorldAt(o, i));
        log := log + [ActionExecuted(name, effects)];
        out := if error.Some? then Raise(error.value) else Continue;
      }
    }

    /** One pass of the _execute_steps loop: the step counter is set, then the step runs. */
    method RunStepAt(ctx: RunContext, steps: seq<Step>, i: nat, o: Oracle) returns (out: Outcome)
      requires Valid() && executor != null && i < |steps|
      modifies this, fsm, ctx
      ensures Valid() && fsm == old(fsm) && executor == old(executor)
      ensures InfoOf(ctx) == old(InfoOf(ctx)) && ctx.manifest == old(ctx.manifest)
      ensures (Abs(ctx), out) == StepSpec(old(Abs(ctx)).(currentStep := i + 1), steps[i], i, o, old(InfoOf(ctx)))
    {
      ctx.currentStep := i + 1;
      out := ExecuteStep(ctx, steps[i], i, o);
    }

    /** The loop of _execute_steps over the parsed steps. */
    method RunSteps(ctx: RunContext, steps: seq<Step>, o: Oracle) returns (out: Outcome)
      requires Valid() && executor != null
      modifies this, fsm, ctx
      ensures Valid() && fsm == old(fsm) && executor == old(executor)
      ensures InfoOf(ctx) == old(InfoOf(ctx)) && ctx.manifest == old(ctx.manifest)
      ensures (Abs(ctx), out) == StepsFrom(old(Abs(ctx)), steps, 0, o, old(InfoOf(ctx)))
    {
      ghost var info := InfoOf(ctx);
      ghost var goal := StepsFrom(Abs(ctx), steps, 0, o, info);
      var i := 0;
      while i < |steps|
        invariant 0 <= i <= |steps|
        invariant Valid() && fsm == old(fsm) && executor == old(executor)
        invariant InfoOf(ctx) == info && ctx.manifest == old(ctx.manifest)
        invariant goal == StepsFrom(Abs(ctx), steps, i, o, info)
        decreases |steps| - i
      {
        var r := RunStepAt(ctx, steps, i, o);
        if !r.Continue? {
          return r;
        }
        i := i + 1;
      }
      out := Continue;
    }

    /** _execute_steps: parse the manifest's steps, then run them in order. */
    method ExecuteSteps(ctx: RunContext, o: Oracle) returns (out: Outcome)
      requires Valid() && executor != null
      modifies this, fsm, ctx
      ensures Valid() && fsm == old(fsm) && executor == old(executor)
      ensures InfoOf(ctx) == old(InfoOf(ctx)) && ctx.manifest == old(ctx.manifest)
      ensures (Abs(ctx), out) == ExecuteStepsSpec(old(Abs(ctx)), ctx.manifest, o, old(InfoOf(ctx)))
    {
      var parsed := ParseManifestSteps(ctx.manifest);
      if parsed.Err? {
        return Raise(parsed.error);
      }
      out := RunSteps(ctx, parsed.value, o);
    }

    /** The try block after the run has started: the steps, then _handle_completion. */
    method StepsAndComplete(ctx: RunContext, o: Oracle) returns (flowCompleted: bool, error: Option<string>)
      requires Valid() && executor != null
      modifies this, fsm, ctx
      ensures Valid() && fsm == old(fsm) && executor == old(executor)
      ensures InfoOf(ctx) == old(InfoOf(ctx)) && ctx.manifest == old(ctx.manifest)
      ensures TryResult(Abs(ctx), flowCompleted, error) == StepsThenComplete(old(Abs(ctx)), ctx.manifest, o, old(InfoOf(ctx)))
    {
      flowCompleted, error := false, None;
      var out := ExecuteSteps(ctx, o);
      if out.Raise? {
        error := Some(out.error);
      } else if out.Continue? {
        flowCompleted := true;
        StateNamesAreLowerCase();
        var c := UpdateRunStatus(ctx, Completed);
        if c.Err? {
          error := Some(c.error);
        } else {
          error := EmitEvent(RunCompleted, o);
        }
      }
    }

    /** The try block of _run: session, agent and executor, running, the start event, then the steps. */
    method TryBlock(ctx: RunContext, o: Oracle) returns (flowCompleted: bool, error: Option<string>)
      requires Valid()
      modifies this, fsm, ctx
      ensures Valid() && fsm == old(fsm)
      ensures InfoOf(ctx) == old(InfoOf(ctx)) && ctx.manifest == old(ctx.manifest)
      ensures TryResult(Abs(ctx), flowCompleted, error) == TrySpec(old(Abs(ctx)), ctx.manifest, o, old(InfoOf(ctx)))
    {
      flowCompleted, error := false, None;
      if o.attachError.Some? {
        return false, o.attachError;
      }
      log := log + [SessionAttached];
      if o.agentError.Some? {
        return false, o.agentError;
      }
      hasAgent := true;
      executor := new EngineExecutor.ActionExecutor();
      log := log + [AgentCreated];
      flowCompleted, error := Start(ctx, o);
    }

    /** The try block once the agent exists: running, the start event, then the steps. */
    method Start(ctx: RunContext, o: Oracle) returns (flowCompleted: bool, error: Option<string>)
      requires Valid() && executor != null
      modifies this, fsm, ctx
      ensures Valid() && fsm == old(fsm)
      ensures InfoOf(ctx) == old(InfoOf(ctx)) && ctx.manifest == old(ctx.manifest)
      ensures TryResult(Abs(ctx), flowCompleted, error) == StartSpec(old(Abs(ctx)), ctx.manifest, o, old(InfoOf(ctx)))
    {
      flowCompleted := false;
      StateNamesAreLowerCase();
      var u := UpdateRunStatus(ctx, Running);
      if u.Err? {
        return false, Some(u.error);
      }
      error := EmitEvent(RunStarted, o);
      if error.Some? {
        return;
      }
      flowCompleted, error := StepsAndComplete(ctx, o);
    }

    /** _handle_error: the failure is recorded bypassing the state machine, then the failure event, whose exception is returned. */
    method HandleFailure(ctx: RunContext, e: string, o: Oracle) returns (escaped: Option<string>)
      modifies this
      ensures fsm == old(fsm) && executor == old(executor)
      ensures (Abs(ctx), escaped) == HandleError(old(Abs(ctx)), e, o)
    {
      log := log + [FailureRecorded(e)];
      escaped := EmitEvent(RunFailed(e), o);
    }

    /** _cleanup. */
    method CleanupRun(ctx: RunContext, failed: bool, flowCompleted: bool)
      modifies this
      ensures fsm == old(fsm) && executor == old(executor)
      ensures Abs(ctx) == Cleanup(old(Abs(ctx)), failed, flowCompleted)
    {
      if failed || flowCompleted {
        if hasAgent {
          log := log + [AgentStopped];
        }
        log := log + [SessionClosed];
      }
    }

    /** _run: every run gets a fresh state machine at pending; then the try block, the error handler and cleanup. The error handler's own exception is returned as the one that escapes. */
    method Run(ctx: RunContext, o: Oracle) returns (escaped: Option<string>)
      requires Valid()
      modifies this, ctx
      ensures Valid()
      ensures RunResult(Abs(ctx), escaped) == RunSpec(old(Abs(ctx)), ctx.manifest, o, old(InfoOf(ctx)))
    {
      ghost var start := Abs(ctx).(fsm := Some(Pending));
      ghost var info := InfoOf(ctx);
      fsm := new RunStateMachine(Pending);
      var flowCompleted, error := TryBlock(ctx, o);
      ghost var tried := Abs(ctx);
      escaped := None;
      if error.Some? {
        escaped := HandleFailure(ctx, error.value, o);
      }
      ghost var handled := Abs(ctx);
      CleanupRun(ctx, error.Some?, flowCompleted);
      RunSpecSteps(start, ctx.manifest, o, info, TryResult(tried, flowCompleted, error), handled, escaped);
    }
  }
}
