# YeetFlow core in Dafny

YeetFlow lets users browse automation flows, start runs of them, and watch each run in an embedded browser session. A run can pause at a checkpoint and wait for a person to hand control back. This project models the small rule engines under the web UI and the ORM and HTTP glue, and proves properties about them. Each source file of the core becomes one Dafny module.

**Worker runtime**
- `RunState` (state.py): the run lifecycle state machine.
- `Steps` (steps.py): the manifest step parser.
- `Checkpoint` (checkpoint.py) and `Context` (context.py): the checkpoint memento helpers and the run context.
- `FlowEngine` (engine/flow_engine.py): the step loop that pauses at checkpoints.
- `Runner` (runner.py): the older step loop.
- `ActionRegistry`, `ActionBase` and `BuiltinActions` (actions/): the action registry with its required-parameter check and built-in commands.
- `LegacyExecutor` (automation/executor.py) and `EngineExecutor` (engine/executor.py): the two action executors.
- `Middleware` (engine/middleware.py): the executor middleware chain.
- `RuntimeEvents` (events.py) and `EngineEvents` (engine/events.py): the two event emitters with their redaction.

**Worker services**
- `EventService`: the event store.
- `FlowRegistry` and `FlowSync`: the manifest registry and its reconciliation with the flows table.
- `RunService` and `RunAccess`: run services and the run access check.
- `FlowRepository`, `FlowService` and `LegacyFlowService`: flow listing and lookup with their visibility rules.
- `AuthService`, `AuthUtils`, `AuthRouter` and `AuthMiddleware`: the authentication rules, token claims, admin gates, endpoint error mapping, bearer parsing and CORS.
- `Config`: CORS origin normalisation and the settings validators.
- `Retry`: the retry decorator.
- `Filename`: the Content-Disposition filename sanitiser.
- `SteelSessions`, `SteelAdapter` and `SteelLegacy`: the two Steel.dev session adapters.

**Web backend-for-frontend**
- `Cookies` (lib/cookies.ts): `parseSetCookieHeader`.
- `ApiClient` (lib/api.ts): the refresh-once fetch wrapper.
- `Security` (lib/security.ts): HTML escaping, the JWT shape check and the Content-Security-Policy string.
- `WebMiddleware` (middleware.ts): the edge middleware.

**Shared modules**
- `Wrappers`: `Option` and `Result`.
- `Text`: ASCII case folding, split, trim, join and sorting.
- `Json`: JSON-like values.
- `Models`: the shared enumerations.
- `PyDatetime`: the calendar range of Python's `datetime` and `timedelta`, for the checkpoint deadlines.

## How the model works

Objects whose fields the source updates in place are classes. Examples: the state machine, the run context, the engines and executors, the registries, the stores behind the services, the adapters, the cookie store and the response headers.

Each of their methods is proved against a specification function of the old state. That function's properties are proved as lemmas.

Pure code is written as functions, for example:
- the parsers;
- redaction;
- payload builders;
- claim checks;
- the CORS and cookie rules;
- escaping.

Anything outside the core is a parameter, and the model records what was asked of it in a call log. This covers:
- the database and the ORM;
- the coordinator that resumes checkpoints;
- the browser agent;
- Steel.dev;
- JWT signing, bcrypt, UUIDs and the clock;
- the HTTP transport.

A decision that depends on one of these is stated against the parameter's answers.

Both step loops read the clock at a checkpoint to compute its deadline, `datetime.now(UTC) + timedelta(seconds=timeout)` (flow_engine.py:140-141, runner.py:148-149). Nothing in the step parser bounds the timeout, so the oracle's clock decides whether that sum stays within years 1 to 9999; outside it, the step raises OverflowError before any snapshot or event. The checkpoint event carries this deadline.

The engine's event emitter passes the event store's errors on (apps/worker/app/runtime/engine/events.py:183-195). So in `FlowEngine` every emission may fail: the oracle gives the store's error for an event by its position in the log.

Exceptions are `Result` errors, and Python's `None` is `Option`.

## Behaviour kept as written

The model keeps each of these as the code has it:
- **Set-Cookie on plain HTTP.** On a plain-HTTP request `parseSetCookieHeader` only drops `secure` and turns `SameSite=None` into `Lax` (apps/web/lib/cookies.ts:92-97).
  - `partitioned` and `domain` are kept.
  - Every `;` splits the header, so a quoted value holding one is split too.
  - This is what `Cookies.InsecureDowngrade` and `Cookies.PartsConcat` state. Browsers refuse a `partitioned` cookie without `secure`, so such a cookie is lost on plain HTTP; the model follows the code.
- **Redirects without headers.** The edge middleware returns its redirects before it sets the security headers and the Content-Security-Policy, so redirects carry neither (`WebMiddleware.RedirectsUnprotected`).
- **Unauthenticated client.** `createUnauthenticatedClient` is the credential-injecting client (apps/web/lib/api.ts:115-118). It sends the session's bearer token too (`ApiClient.UnauthenticatedClientSendsToken`).
- **Same-engine resume.** Resuming through the same `FlowEngine` instance whose run is paused moves the state machine to running. The resumed checkpoint then asks for running again, which the transition table refuses, and the run fails (`FlowEngine.SameEngineResumeRejected`, `FlowEngine.SameEngineResumeFailsRun`).
- **No cookie fallback.** The worker's `AuthMiddleware` reads only the `Authorization` header, so a request that carries only a cookie gets 401 (`AuthMiddleware.Authenticator.Dispatch`).

## Model

| member | source | states |
|---|---|---|
| RunState.StateNamesAreLowerCase | apps/worker/app/runtime/core/state.py:7-14 | every state name of the table is already lower case, so the constructor's and `transition`'s lower-casing leaves them as they are |
| RunState.InitialState | apps/worker/app/runtime/core/state.py:20-24 | a missing or empty state starts at "pending"; otherwise the name is lower-cased and accepted exactly when it is a key of the table, else the error is "Unknown run state: " and the lower-cased name |
| RunState.TargetsAreStates | apps/worker/app/runtime/core/state.py:7-14 | every state a transition may reach is itself a key of the table |
| RunState.TerminalStatesAreFinal | apps/worker/app/runtime/core/state.py:11-13 | no transition out of completed, failed or canceled is allowed, whatever is requested |
| RunState.NoSelfTransition | apps/worker/app/runtime/core/state.py:7-14 | no state may move to itself (running→running is rejected) |
| RunState.PendingTargets | apps/worker/app/runtime/core/state.py:8 | pending may move exactly to running or canceled |
| RunState.ReplayStaysInTable | apps/worker/app/runtime/core/state.py:20-36 | after any sequence of transition requests from a state of the table, the machine is still in a state of the table |
| RunState.ReplayFromTerminal | apps/worker/app/runtime/core/state.py:11-13 | once in a terminal state, no sequence of requests changes the state |
| RunState.RunStateMachine.constructor | apps/worker/app/runtime/core/state.py:20-21 | a machine built from a state of the table starts in that state |
| RunState.RunStateMachine.Create | apps/worker/app/runtime/core/state.py:20-24 | construction succeeds exactly when the normalised initial state is a key of the table, and the machine then holds that state; otherwise the ValueError message is returned |
| RunState.RunStateMachine.Transition | apps/worker/app/runtime/core/state.py:26-36 | succeeds iff `can_transition` allows the lower-cased target; on success `current` becomes the target and is returned; on failure the error names both states and `current` is unchanged |
| Steps.StepsData | apps/worker/app/runtime/core/steps.py:55-64 | the raw list is `config.steps` when `config` is a dictionary and that value is truthy, else the truthy top-level `steps`, else the empty list |
| Steps.Elements | apps/worker/app/runtime/core/steps.py:67 | iterating the raw value yields a list's items; a string or dictionary yields only strings (which are then skipped); a number or boolean raises |
| Steps.StepTypeNormalised | apps/worker/app/runtime/core/steps.py:71 | the type read is always lower case and does not depend on the case of the given type; any string type is accepted, and a missing type reads as "" |
| Steps.ParseEntry | apps/worker/app/runtime/core/steps.py:68-91 | a non-dictionary entry is skipped; an action step carries the entry's name and a dictionary action; a checkpoint step copies the entry's five fields |
| Steps.ParseEntries | apps/worker/app/runtime/core/steps.py:66-93 | the parse yields at most one step per raw entry |
| Steps.ParseManifestSteps | apps/worker/app/runtime/core/steps.py:48-93 | the loop over the raw entries returns exactly the typed steps of the specification function, or the first error Python would raise |
| Steps.ErrorPropagates | apps/worker/app/runtime/core/steps.py:67-91 | an error raised at some entry is the outcome of the whole parse |
| Steps.KeptPositionsIncrease | apps/worker/app/runtime/core/steps.py:66-93 | the positions of the kept entries are strictly increasing positions of the input |
| Steps.KeptPositionsYieldSteps | apps/worker/app/runtime/core/steps.py:66-93 | the k-th step is the step parsed from the k-th kept entry, and there are as many steps as kept entries |
| Steps.OthersAreSkipped | apps/worker/app/runtime/core/steps.py:68-91 | every entry outside the kept positions yields no step |
| Steps.ParseIsSelection | apps/worker/app/runtime/core/steps.py:66-93 | the output is an order-preserving selection of the input: one step per kept entry, in increasing position, every other entry skipped |
| Steps.TypeCaseInsensitive | apps/worker/app/runtime/core/steps.py:71 | an entry parses the same whatever the case of its type |
| Steps.SameFieldsSameEntry | apps/worker/app/runtime/core/steps.py:71-90 | an entry's step depends only on its type and its six step fields |
| Steps.ActionPayloads | apps/worker/app/runtime/core/steps.py:72-80 | a missing action becomes `ActionStep(name, {})`; a dictionary action is carried as it is; a truthy non-dictionary action is skipped |
| Steps.CheckpointFieldsVerbatim | apps/worker/app/runtime/core/steps.py:81-90 | a checkpoint entry becomes a checkpoint step with its id, name, reason, expected_action and timeout copied verbatim |
| Steps.UnknownTypesDropped | apps/worker/app/runtime/core/steps.py:91 | an entry of any other type yields no step |
| Checkpoint.SnapshotOf | apps/worker/app/runtime/core/checkpoint.py:25-31 | a snapshot always holds its fields, so it is never the empty memento |
| Checkpoint.Snapshot | apps/worker/app/runtime/core/checkpoint.py:19-31 | the snapshot records the three ids, `current_step` and a copy of the variables; being a value, it is unaffected by later changes to the context |
| Checkpoint.RestoreReturnsToSnapshotStep | apps/worker/app/runtime/core/checkpoint.py:19-42 | restoring a snapshot returns the step counter to the step the snapshot was taken at; restoring twice is restoring once; the empty memento keeps the counter |
| Checkpoint.RestoredVariables | apps/worker/app/runtime/core/checkpoint.py:41-42 | the keys are the union of the old and the memento's keys; memento values overwrite; every other variable keeps its value |
| Checkpoint.Restore | apps/worker/app/runtime/core/checkpoint.py:34-42 | the key-by-key loop leaves the context's step and variables as the two functions above say, and changes nothing else of the context |
| Checkpoint.RestoreSnapshotIsIdentity | apps/worker/app/runtime/core/checkpoint.py:19-42 | restoring a snapshot right after taking it leaves the step counter and the variables unchanged |
| Checkpoint.RestoreKeepsVariables | apps/worker/app/runtime/core/checkpoint.py:37-42 | a restore never deletes a variable |
| Checkpoint.MergeInputs | apps/worker/app/runtime/core/checkpoint.py:45-53 | a missing or empty latest input gives the base; otherwise the keys are the union, the latest values win and the other base values are kept |
| Context.RunContext.constructor | apps/worker/app/runtime/context.py:10-27 | a new context holds its ids, input and manifest, with `current_step` 0 and no variables or checkpoints |
| Context.RunContext.GetInput | apps/worker/app/runtime/context.py:29-31 | the input value under the key, or the default for a missing key |
| Context.RunContext.GetVariable | apps/worker/app/runtime/context.py:37-39 | the variable under the key, or the default for a missing key |
| Context.RunContext.SetVariable | apps/worker/app/runtime/context.py:33-35 | afterwards `get_variable(k)` returns the value set; every other variable, the checkpoints and the rest of the context are unchanged |
| Context.RunContext.AddCheckpoint | apps/worker/app/runtime/context.py:41-43 | afterwards `get_checkpoint(id)` returns the data; the variables and the rest of the context are unchanged |
| Context.RunContext.GetCheckpoint | apps/worker/app/runtime/context.py:45-47 | the stored checkpoint, or `{}` for an unknown id |
| FlowEngine.UpdateStatus | apps/worker/app/runtime/engine/flow_engine.py:208-211 | with a state machine, the update fails (nothing recorded) exactly when the machine rejects the transition, with the "Invalid transition" message; otherwise the machine moves and one status update reaches the run service, nothing else changing |
| FlowEngine.TextOrIsPythonOr | apps/worker/app/runtime/engine/flow_engine.py:137-139 | on a string or None field, the text is what Python's `x or default` gives; a falsy field always gives the default; a non-empty default never gives the empty text |
| FlowEngine.TimeoutSeconds | apps/worker/app/runtime/engine/flow_engine.py:140 | `int(step.timeout or 900)`: a falsy timeout is 900, a non-zero number is itself, any other truthy value goes through Python's `int` |
| PyDatetime.AddSeconds | apps/worker/app/runtime/engine/flow_engine.py:141 | `datetime.now(UTC) + timedelta(seconds=t)` exists exactly when the sum stays within years 1 to 9999, and is then that sum; a timedelta that fits but a sum that does not raises "date value out of range" |
| PyDatetime.Deadline | apps/worker/app/runtime/engine/flow_engine.py:140-141 | the deadline exists exactly when `int()` gave a timeout that keeps `now` plus it in the calendar; `int()`'s exception passes through |
| PyDatetime.AddSecondsInverse | apps/worker/app/runtime/runner.py:148-149 | stepping back from a deadline by the timeout gives the clock reading again |
| FlowEngine.StepNamesArePositional | apps/worker/app/runtime/engine/flow_engine.py:118-126 | a step's name is never empty; a named step (or checkpoint with an id) is called by that name; two unnamed steps get the same name only at the same position |
| FlowEngine.HandleError | apps/worker/app/runtime/engine/flow_engine.py:172-182 | the failure is written to the run service directly, so the state machine and the agent are left as they are; the failure and the failure event are recorded; the handler raises exactly when storing the failure event raises |
| FlowEngine.CheckpointId | apps/worker/app/runtime/engine/flow_engine.py:137 | the checkpoint key is the string id, the string name or "checkpoint", and never empty |
| FlowEngine.AfterSignal | apps/worker/app/runtime/engine/flow_engine.py:152-162 | a timeout pauses with nothing changed; a continued step has the snapshot's step and variables restored and the latest input merged |
| FlowEngine.CheckpointSpec | apps/worker/app/runtime/engine/flow_engine.py:136-162 | a timeout `int()` refuses, or one whose deadline from the step's clock leaves the calendar (OverflowError), raises with nothing changed; otherwise the snapshot of the current step and variables is stored under the checkpoint's key, whatever follows |
| FlowEngine.ActionSpec | apps/worker/app/runtime/engine/flow_engine.py:164-166 | an action step records what the executor did, leaves the context with the variables the command left, continues exactly when the executor raised nothing and otherwise raises its error; nothing else changes |
| FlowEngine.StepsFrom | apps/worker/app/runtime/engine/flow_engine.py:117-131 | the loop over no remaining steps continues with nothing changed, and the loop never touches the agent |
| FlowEngine.TrySpec | apps/worker/app/runtime/engine/flow_engine.py:78-87 | a failing attach leaves the state as it was and raises; a failing agent leaves only the attach recorded and raises; a run without an agent leaves the agent flag as it was |
| FlowEngine.Cleanup | apps/worker/app/runtime/engine/flow_engine.py:184-206 | cleanup changes nothing exactly for a paused run (not failed, not completed), and never touches the machine or the agent flag |
| FlowEngine.RunSpec | apps/worker/app/runtime/engine/flow_engine.py:75-94 | an exception leaves `_run` only when its try block raised |
| FlowEngine.EmitStepEffect | apps/worker/app/runtime/engine/flow_engine.py:133-166 | recording a step-level effect adds only a step effect |
| FlowEngine.UpdateStatusStepEffect | apps/worker/app/runtime/engine/flow_engine.py:147-159 | a status update to awaiting_input or running is a step effect |
| FlowEngine.AfterSignalStepEffects | apps/worker/app/runtime/engine/flow_engine.py:152-162 | whatever the coordinator answers, a checkpoint's ending adds only step effects |
| FlowEngine.CheckpointStepEffects | apps/worker/app/runtime/engine/flow_engine.py:136-162 | a checkpoint step adds only step effects |
| FlowEngine.StepOnlyStepEffects | apps/worker/app/runtime/engine/flow_engine.py:133-166 | any one step adds only step effects |
| FlowEngine.OnlyStepEffectsTransitive | apps/worker/app/runtime/engine/flow_engine.py:115-131 | adding only step effects composes over successive steps |
| FlowEngine.StepsOnlyStepEffects | apps/worker/app/runtime/engine/flow_engine.py:115-131 | the step loop records only awaiting_input or running, checkpoint events and executed actions, never completion, failure or cleanup |
| FlowEngine.StepKeepsRunning | apps/worker/app/runtime/engine/flow_engine.py:155-166 | a step that continues leaves a running machine at running |
| FlowEngine.CompletedMeansEveryStepContinued | apps/worker/app/runtime/engine/flow_engine.py:115-131 | when the loop returns True, the machine is at running, no action step raised and every checkpoint was resumed from outside this engine |
| FlowEngine.ActionContinues | apps/worker/app/runtime/engine/flow_engine.py:164-166 | an action step continues only when its type lowers, both hook events are stored and the command succeeds; the context's variables are then those the command left |
| FlowEngine.StepContinues | apps/worker/app/runtime/engine/flow_engine.py:133-166 | a step that continues from running is back at running, and the world accepted it |
| FlowEngine.CheckpointContinues | apps/worker/app/runtime/engine/flow_engine.py:152-162 | a checkpoint reached while running continues only after a resume signalled from outside this engine |
| FlowEngine.CheckpointResumedThroughThisEngineFails | apps/worker/app/runtime/engine/flow_engine.py:155-160 | once the deadline exists, a resume through this same engine makes the checkpoint step raise "Invalid transition: running → running" |
| FlowEngine.SameEngineResumeRejected | apps/worker/app/runtime/core/state.py:9 | from awaiting_input, this engine's `resume` moves to running, and the resumed branch's second request for running is rejected by the table |
| FlowEngine.CheckpointTimeoutPauses | apps/worker/app/runtime/engine/flow_engine.py:143-162 | a checkpoint not resumed, whose deadline exists and whose event is stored, keeps its snapshot, records awaiting_input and the checkpoint event with that deadline, and pauses at awaiting_input |
| FlowEngine.CheckpointEventFailureRaises | apps/worker/app/runtime/engine/flow_engine.py:147-150 | when the deadline exists but the checkpoint event cannot be stored, the step raises that error at awaiting_input, with the snapshot kept and the coordinator never asked |
| FlowEngine.CheckpointResumeRestores | apps/worker/app/runtime/engine/flow_engine.py:155-160 | a resumed checkpoint whose deadline exists and whose event is stored restores the snapshot's step and variables (the ones the earlier actions left), merges the latest input and is back at running |
| FlowEngine.LaunchFromPending | apps/worker/app/runtime/engine/flow_engine.py:79-85 | from pending with session and agent up, the try block reaches the steps exactly when the run-started event is stored; otherwise it raises that event's error with no step run |
| FlowEngine.StepsThenCompleteCases | apps/worker/app/runtime/engine/flow_engine.py:85-87 | the try block after launch only appends to the log; it reports the flow completed exactly when every step continued; a pause that raised nothing adds only step effects |
| FlowEngine.RunningBeforeAnyStep | apps/worker/app/runtime/engine/flow_engine.py:79-83 | with session and agent up, every run starts a fresh machine at pending and records session attached, agent created, running and run started before anything else |
| FlowEngine.CompletionAndPause | apps/worker/app/runtime/engine/flow_engine.py:85-94 | once the run has started, the flow counts as completed exactly when every step continued; a paused run lets nothing escape and records neither completion nor failure, nor stops the agent or closes the session |
| FlowEngine.FailureIsRecorded | apps/worker/app/runtime/engine/flow_engine.py:88-94 | any exception ends with the failure recorded and announced with its message, the state machine untouched, then the agent stopped (if any) and the session closed; the exception escapes exactly when the failure event cannot be stored |
| FlowEngine.NothingEscapesWithoutFailure | apps/worker/app/runtime/engine/flow_engine.py:75-94 | a run whose try block raised nothing lets nothing escape and only appends to the log |
| FlowEngine.EveryRunFailsWhenEmissionsRaise | apps/worker/app/runtime/engine/flow_engine.py:75-94 | when the run-started and failure events cannot be stored, the run runs no step: it records the start event's error as its failure, is left at running, is cleaned up, and the failure event's error escapes |
| FlowEngine.CleanupClosesUnlessPaused | apps/worker/app/runtime/engine/flow_engine.py:184-206 | a paused run is left as it is; otherwise the agent, if any, is stopped and then the session is closed |
| FlowEngine.SameEngineResumeFailsRun | apps/worker/app/runtime/engine/flow_engine.py:70-73 | a manifest whose one step is a checkpoint with a deadline in the calendar, resumed through this same engine, raises "Invalid transition: running → running" and does not complete |
| FlowEngine.Engine.constructor | apps/worker/app/runtime/engine/flow_engine.py:45-61 | a new engine has no state machine, no agent and nothing recorded |
| FlowEngine.Engine.UpdateRunStatus | apps/worker/app/runtime/engine/flow_engine.py:208-211 | the engine's state after `_update_run_status` is the one `UpdateStatus` gives, or unchanged with the error |
| FlowEngine.Engine.EmitEvent | apps/worker/app/runtime/engine/events.py:183-195 | an emission is recorded and returns the store's error for it, if any, without touching the machine, the executor or the agent |
| FlowEngine.Engine.Resume | apps/worker/app/runtime/engine/flow_engine.py:70-73 | `resume` moves the run to running, or fails leaving the engine unchanged |
| FlowEngine.Engine.ExecuteCheckpoint | apps/worker/app/runtime/engine/flow_engine.py:136-162 | the checkpoint branch of `_execute_step` leaves the state and outcome `CheckpointSpec` gives, including a failed checkpoint event, and keeps the machine object, the executor and the run's ids |
| FlowEngine.Engine.Announce | apps/worker/app/runtime/engine/flow_engine.py:147-162 | after the snapshot: a refused move to awaiting_input raises, otherwise the state and outcome `AnnounceSpec` gives |
| FlowEngine.Engine.EmitAndAwait | apps/worker/app/runtime/engine/flow_engine.py:148-162 | the checkpoint event is logged; its error raises, otherwise the coordinator's answer decides, as `EmitAndAwaitSpec` says |
| FlowEngine.Engine.AwaitSignal | apps/worker/app/runtime/engine/flow_engine.py:152-162 | the end of a checkpoint after the coordinator's answer matches `AfterSignal` |
| FlowEngine.Engine.ExecuteStep | apps/worker/app/runtime/engine/flow_engine.py:133-166 | `_execute_step` matches `StepSpec` for both kinds of step, with the executor's variables written back to the context |
| FlowEngine.Engine.RunStepAt | apps/worker/app/runtime/engine/flow_engine.py:127-128 | one pass of the loop sets the step counter to i+1, then runs step i |
| FlowEngine.Engine.RunSteps | apps/worker/app/runtime/engine/flow_engine.py:117-131 | the loop over the parsed steps matches `StepsFrom`, stopping at the first step that does not continue and carrying the variables that actions leave |
| FlowEngine.Engine.ExecuteSteps | apps/worker/app/runtime/engine/flow_engine.py:115-131 | `_execute_steps` parses the manifest and runs its steps as `ExecuteStepsSpec` says |
| FlowEngine.Engine.StepsAndComplete | apps/worker/app/runtime/engine/flow_engine.py:85-87 | the steps, then completed and its event when they all continued, with the event's error raised, as `StepsThenComplete` says |
| FlowEngine.Engine.Start | apps/worker/app/runtime/engine/flow_engine.py:82-87 | once the agent exists: the move to running, the start event whose error raises, then the steps, as `StartSpec` says |
| FlowEngine.Engine.TryBlock | apps/worker/app/runtime/engine/flow_engine.py:78-87 | the try block of `_run`, where any emission may raise, matches `TrySpec` |
| FlowEngine.Engine.HandleFailure | apps/worker/app/runtime/engine/flow_engine.py:172-182 | `_handle_error` leaves the state `HandleError` gives and returns the exception it raises, with the machine untouched |
| FlowEngine.Engine.CleanupRun | apps/worker/app/runtime/engine/flow_engine.py:184-206 | `_cleanup` leaves the state `Cleanup` gives |
| FlowEngine.Engine.Run | apps/worker/app/runtime/engine/flow_engine.py:75-94 | `_run` matches `RunSpec`: a fresh machine at pending, the try block, the error handler whose own exception escapes, and cleanup in every case |
| Runner.RawSteps | apps/worker/app/runtime/runner.py:110-113 | the top-level `steps` when truthy, else `config.steps` (default []) when `config` is a dictionary, [] without `config`, and an error when `config` is not a dictionary |
| Runner.Entries | apps/worker/app/runtime/runner.py:115 | `enumerate` yields a list's items; any other iterable yields only strings |
| Runner.ActionFailsOnlyWithExecutor | apps/worker/app/runtime/runner.py:165-170 | an action step appends exactly one entry to the log and changes nothing else; it raises only with an executor present, and then the executor's error |
| Runner.CheckpointSpec | apps/worker/app/runtime/runner.py:143-155 | a checkpoint never goes on; it raises exactly when `int()` refuses the timeout or the deadline `now + timeout` leaves years 1 to 9999, and then changes nothing; otherwise it records its event and then awaiting_input and changes nothing else |
| Runner.TrySpec | apps/worker/app/runtime/runner.py:48-75 | a failing session raises with nothing recorded; a failing agent raises after the session; otherwise the runner holds an agent and an executor; the try block only appends to the log |
| Runner.HandleError | apps/worker/app/runtime/runner.py:77-84 | nothing happens without an exception; with one, the run is marked failed with its message and the failure event follows, and nothing but the log changes |
| Runner.ExecuteFlowSpec | apps/worker/app/runtime/runner.py:36-99 | a run only appends to the log and always ends with the session closed; the runner holds an agent afterwards exactly when it held one or the session and agent both came up |
| Runner.ExecuteStepSpec | apps/worker/app/runtime/runner.py:139-163 | a step only appends to the log and leaves the agent, the executor and the step counter as they were |
| Runner.StepAt | apps/worker/app/runtime/runner.py:115-135 | one pass of the loop only appends to the log and keeps the agent and executor |
| Runner.StepsFrom | apps/worker/app/runtime/runner.py:115-137 | the rest of the loop only appends to the log and keeps the agent and executor |
| Runner.FlowStepsSpec | apps/worker/app/runtime/runner.py:101-137 | `_execute_flow_steps` only appends to the log and keeps the agent and executor |
| Runner.Cleanup | apps/worker/app/runtime/runner.py:85-99 | the finally clause leaves the runner's agent and executor fields as they were |
| Runner.StepsSourceOrder | apps/worker/app/runtime/runner.py:111-113 | with both a top-level and a config step list, this runner takes the top-level one while the manifest parser takes the config one |
| Runner.StepEvents | apps/worker/app/runtime/runner.py:116-135 | a dictionary step sets the counter to i+1 and records its start event; a stop records no completion event; success records the completion event; an exception records the failure event and is raised again |
| Runner.NonDictEntryRaises | apps/worker/app/runtime/runner.py:116 | an entry that is not a dictionary raises at `step.get` before any event |
| Runner.CheckpointAlwaysStops | apps/worker/app/runtime/runner.py:143-155 | every checkpoint whose deadline exists records its event with its defaults and that deadline, then awaiting_input, and stops the loop |
| Runner.CheckpointTimeoutDefault | apps/worker/app/runtime/runner.py:148 | an absent timeout is 900 seconds, while a present None reaches `int()` and raises |
| Runner.OtherTypesIgnored | apps/worker/app/runtime/runner.py:157-163 | a step whose type is neither checkpoint nor action goes on without any effect |
| Runner.ActionWithoutExecutorSkipped | apps/worker/app/runtime/runner.py:167-169 | an action with no executor is skipped and the loop goes on |
| Runner.StepAtOutcome | apps/worker/app/runtime/runner.py:115-135 | whether a step goes on does not depend on the log or the counter |
| Runner.StepsFinishIffAllContinue | apps/worker/app/runtime/runner.py:115-137 | the loop returns True iff every remaining entry goes on |
| Runner.LaunchWhenReady | apps/worker/app/runtime/runner.py:50-64 | without a session or agent failure, the try block is the step loop on the launched state, which holds an agent and an executor |
| Runner.CompletionAndFailure | apps/worker/app/runtime/runner.py:67-99 | "completed" and the completion event follow only a finished loop; a pause adds neither; an exception marks the run failed with its message and emits the failure event; the agent is stopped and the session closed in every case |
| Runner.AlwaysReleases | apps/worker/app/runtime/runner.py:85-99 | the session is always closed last, and the agent is stopped whenever the runner holds one, even after a pause |
| Runner.StaleAgentStoppedAgain | apps/worker/app/runtime/runner.py:88-90 | an agent kept from an earlier run on the same runner is stopped again when the next run fails before starting its own |
| Runner.FlowRunner.constructor | apps/worker/app/runtime/runner.py:27-34 | a new runner holds no agent and no executor |
| Runner.FlowRunner.ExecuteAction | apps/worker/app/runtime/runner.py:165-170 | `_execute_action` matches `ActionSpec` |
| Runner.FlowRunner.ExecuteStep | apps/worker/app/runtime/runner.py:139-163 | `_execute_step` matches `ExecuteStepSpec` |
| Runner.FlowRunner.RunStepAt | apps/worker/app/runtime/runner.py:116-135 | one pass of the loop matches `StepAt` |
| Runner.FlowRunner.ExecuteFlowSteps | apps/worker/app/runtime/runner.py:101-137 | `_execute_flow_steps` matches `FlowStepsSpec` |
| Runner.FlowRunner.TryBlock | apps/worker/app/runtime/runner.py:48-75 | the try block matches `TrySpec` |
| Runner.FlowRunner.ExecuteFlow | apps/worker/app/runtime/runner.py:36-99 | `execute_flow` matches `ExecuteFlowSpec` on a fresh context |
| Runner.ExecuteFlowAsWritten | apps/worker/app/runtime/runner.py:48-99 | `execute_flow` as written only appends to the log, ends with the session closed, and holds an agent exactly when it held one or the session and agent came up |
| Runner.EveryRunRaisesAsWritten | apps/worker/app/runtime/runner.py:61-99 | as written, every run raises the missing `update_run_status` error and records only the session and agent coming up and going down: no status, no start, no step, no failure |
| Runner.IntendedRunRecordsStatus | apps/worker/app/runtime/runner.py:61-81 | the intended run records a status update whatever happens |
| Runner.FlowRunner.ResumeFlow | apps/worker/app/runtime/runner.py:172-175 | `resume_flow` only moves the run back to running |
| ActionBase.Require | apps/worker/app/runtime/actions/base.py:37-51 | the stored value, unless the key is missing, the value is None, or (without `allow_empty`) it is ""; each rejection gives "Missing required action param: " and the key |
| ActionBase.AllowEmptyIsWeaker | apps/worker/app/runtime/actions/base.py:47-49 | `allow_empty` only turns the rejection of "" into success and changes nothing else |
| ActionBase.RequireAfterStore | apps/worker/app/runtime/actions/base.py:37-51 | a value just stored under the key, neither None nor "", is what the check returns |
| ActionRegistry.RegisterThenLookup | apps/worker/app/runtime/actions/registry.py:13-26 | after registering a factory under a name, creating an action of that name in any case yields that factory's action; lookup does not depend on the case of the type asked for |
| ActionRegistry.Registry.constructor | apps/worker/app/runtime/actions/registry.py:10 | the registry starts empty |
| ActionRegistry.Registry.Register | apps/worker/app/runtime/actions/registry.py:13-16 | the factory is stored under the lower-cased name, replacing an earlier one; a new key is appended to the insertion order |
| ActionRegistry.Registry.Create | apps/worker/app/runtime/actions/registry.py:19-26 | succeeds iff the lower-cased type is registered, building that factory's action with the parameters; otherwise the unknown-type error |
| ActionRegistry.Registry.KnownActions | apps/worker/app/runtime/actions/registry.py:29-30 | every registered key exactly once, in sorted order |
| ActionRegistry.CreateIgnoresCase | apps/worker/app/runtime/actions/registry.py:21 | two spellings with the same lower-case form create the same action |
| ActionRegistry.RegisteredIsCreated | apps/worker/app/runtime/actions/registry.py:13-26 | a name registered in any case is created under any spelling with the same lower-case form |
| ActionRegistry.EmptyTypeMessage | apps/worker/app/runtime/actions/registry.py:24 | an empty or missing type is reported as "<empty>" |
| BuiltinActions.RegisterBuiltins | apps/worker/app/runtime/actions/builtin_actions.py:83-91 | the eight module-level registrations, in order, leave the registry holding `Registered` of its earlier contents |
| BuiltinActions.ScreenshotSpec | apps/worker/app/runtime/actions/builtin_actions.py:66-69 | the screenshot is named by `name` or "screenshot", never touches the variables, and succeeds exactly when the agent and the event store both succeed |
| BuiltinActions.ExtractSpec | apps/worker/app/runtime/actions/builtin_actions.py:53-59 | extract succeeds exactly when a selector is given and the agent answers; it changes the variables only then and only under the string `var`, never deleting one |
| BuiltinActions.ExecuteSpec | apps/worker/app/runtime/actions/builtin_actions.py:14-80 | only extract may change the variables, none is ever deleted, log never raises, and a command that succeeds has called the agent or logged |
| BuiltinActions.BuiltinNamesAreKeys | apps/worker/app/runtime/actions/builtin_actions.py:84-91 | each built-in name is already lower case, so it is stored under itself |
| BuiltinActions.EightBuiltins | apps/worker/app/runtime/actions/builtin_actions.py:84-91 | the registrations add exactly the eight names, and navigate builds the same command as open_url |
| BuiltinActions.TypeRequiresSelectorAndText | apps/worker/app/runtime/actions/builtin_actions.py:32-36 | type raises the missing-parameter error for the selector, then for the text, before calling the agent; `clear` defaults to false |
| BuiltinActions.WaitForDefaults | apps/worker/app/runtime/actions/builtin_actions.py:43-46 | wait_for with a selector and no `timeout_ms` waits 10000 ms |
| BuiltinActions.ExtractWritesOnlyVar | apps/worker/app/runtime/actions/builtin_actions.py:53-59 | extract changes the variables only when `var` is given and the agent answered, and then sets only that variable to the extracted value |
| BuiltinActions.ScreenshotDefaults | apps/worker/app/runtime/actions/builtin_actions.py:66-69 | without a name the screenshot is called "screenshot" and the agent's reference is reported in a screenshot event |
| BuiltinActions.LogNeverRaises | apps/worker/app/runtime/actions/builtin_actions.py:76-80 | log needs no parameter, never raises, and its message defaults to "" |
| BuiltinActions.OnlyExtractWrites | apps/worker/app/runtime/actions/builtin_actions.py:10-80 | no built-in command other than extract touches the context's variables |
| BuiltinActions.Execute | apps/worker/app/runtime/actions/builtin_actions.py:14-80 | running a command leaves the context's variables and the agent calls as its specification says, and the rest of the context unchanged |
| LegacyExecutor.ActionDict | apps/worker/app/automation/executor.py:24 | `dict(action)`: a missing action is `{}`, a dictionary is copied, a list is read as key-value pairs, and a non-empty string raises |
| LegacyExecutor.PairOf | apps/worker/app/automation/executor.py:24 | a two-character string or a two-item list with a string key is a pair; a number, boolean or None element raises "cannot convert dictionary update sequence element" |
| LegacyExecutor.PairsToDict | apps/worker/app/automation/executor.py:24 | reading pairs never loses a key already present |
| LegacyExecutor.FirstBadElementRaises | apps/worker/app/automation/executor.py:24 | the first element that is not a pair decides the error, whatever follows it |
| LegacyExecutor.LastPairWins | apps/worker/app/automation/executor.py:24 | the last pair for a key decides its value |
| LegacyExecutor.LegacyRequireAcceptsOtherFalsy | apps/worker/app/automation/executor.py:108-113 | every truthy value is returned as it is, and so are the falsy 0, False, [] and {}; a refused key never holds a truthy value |
| LegacyExecutor.RequireCopiesAgree | apps/worker/app/automation/executor.py:108-113 | the legacy check agrees with `RequiresParam.require` without `allow_empty` |
| LegacyExecutor.ActionType | apps/worker/app/automation/executor.py:25-29 | the type is lower-cased ("" when missing) and navigate is rewritten to open_url, so the result is never navigate |
| LegacyExecutor.NavigateIsOpenUrl | apps/worker/app/automation/executor.py:28-29 | navigate runs exactly as open_url does |
| LegacyExecutor.UnknownTypesRaise | apps/worker/app/automation/executor.py:103-106 | every type outside the seven raises "Unknown action type: " (with "<empty>" for the empty type) without calling the agent |
| LegacyExecutor.KnownTypesDispatched | apps/worker/app/automation/executor.py:45-58 | a dispatched type reaches its handler and never reports an unknown type |
| LegacyExecutor.FailedCheckMessage | apps/worker/app/automation/executor.py:62-101 | a handler that records nothing failed a parameter check or `int()` |
| LegacyExecutor.PyIntErrorStart | apps/worker/app/automation/executor.py:78 | the errors `int()` raises begin "i", so they are told apart from the missing-parameter message |
| LegacyExecutor.LogNeedsMessage | apps/worker/app/automation/executor.py:98-101 | the legacy log handler requires a message, while the built-in log command does not |
| LegacyExecutor.ScreenshotName | apps/worker/app/automation/executor.py:94 | the screenshot name falls back from the action's name to the step's name, then to "screenshot" |
| LegacyExecutor.SharedCommandsAgree | apps/worker/app/automation/executor.py:62-89 | open_url, click, type, wait_for and extract do exactly what the built-in commands do |
| LegacyExecutor.ExecuteAction | apps/worker/app/automation/executor.py:23-35 | `execute_action` leaves the effects and the variables `ExecuteActionSpec` gives (errors raised again) and the rest of the context unchanged |
| LegacyExecutor.DispatchKeepsVariables | apps/worker/app/automation/executor.py:45-101 | only the extract handler can change the variables |
| Middleware.MiddlewareChain.constructor | apps/worker/app/runtime/engine/middleware.py:44-45 | a new chain holds no middleware |
| Middleware.MiddlewareChain.Add | apps/worker/app/runtime/engine/middleware.py:47-48 | `add` appends the middleware at the end of the chain |
| Middleware.MiddlewareChain.RunBefore | apps/worker/app/runtime/engine/middleware.py:50-52 | every before hook runs in insertion order, the first that raises ending the chain |
| Middleware.MiddlewareChain.RunAfter | apps/worker/app/runtime/engine/middleware.py:54-56 | every after hook runs in insertion order with the action's error, the first that raises ending the chain |
| Middleware.MiddlewareChain.RunHooks | apps/worker/app/runtime/engine/middleware.py:50-56 | the hook loop's effects and error are those of `Chain` over the middlewares |
| Middleware.ChainAppend | apps/worker/app/runtime/engine/middleware.py:47-56 | a middleware added last runs after all earlier ones, and only if none of them raised |
| Middleware.ChainFromAppend | apps/worker/app/runtime/engine/middleware.py:51-56 | the same, for the chain from any position on |
| Middleware.EventHooks | apps/worker/app/runtime/engine/middleware.py:62-73 | the event middleware emits step_started before the action, and after it exactly one of step_completed or step_failed carrying the error |
| Middleware.LoggingStatus | apps/worker/app/runtime/engine/middleware.py:90-98 | the logging middleware reports status "error" exactly when the action raised, and never raises |
| Middleware.ErrorScreenshotHooks | apps/worker/app/runtime/engine/middleware.py:104-117 | the screenshot middleware does nothing before the action or after a success; after a failure it asks for "error_step_<current step>" and swallows every failure |
| Middleware.OnlyEventsRaise | apps/worker/app/runtime/engine/middleware.py:59-117 | only the event middleware can raise, so a chain without it always runs to its end |
| EngineExecutor.CommandKeepsVariables | apps/worker/app/runtime/engine/executor.py:48-50 | a command never deletes a variable; only the registered extract command can change the variables; a command that raises nothing was registered; the case of the type does not matter |
| EngineExecutor.ActionExecutor.constructor | apps/worker/app/runtime/engine/executor.py:28-34 | the executor's chain is the event, logging and error-screenshot middlewares, in that order |
| EngineExecutor.ActionExecutor.ExecuteAction | apps/worker/app/runtime/engine/executor.py:36-78 | one action step leaves the effects, variables and error `ExecuteSpec` gives for the executor's chain and the registry, and the rest of the context unchanged |
| EngineExecutor.DefaultAfter | apps/worker/app/runtime/engine/executor.py:76-78 | the chain's after hooks: the end event, then, unless emitting it raised, the log line and, after a failure, the error screenshot |
| EngineExecutor.DefaultBefore | apps/worker/app/runtime/engine/executor.py:68 | the chain's before hooks: the start event, then, unless it raised, the log line |
| EngineExecutor.AfterHooksRunOnce | apps/worker/app/runtime/engine/executor.py:68-78 | once the before hooks succeed, the after hooks run exactly once after the command and receive its error, which propagates unless an after hook raised |
| EngineExecutor.UnknownTypePropagates | apps/worker/app/runtime/engine/executor.py:72-78 | an unregistered type raises from the registry; the after hooks report that error as step_failed, and it propagates |
| EngineExecutor.EarlyFailures | apps/worker/app/runtime/engine/executor.py:41-43 | a type that cannot be lower-cased raises before any hook; a before hook that raises stops the step before the command and the after hooks |
| RuntimeEvents.RedactDict | apps/worker/app/runtime/events.py:19-33 | a dictionary keeps its key set; a key whose lower-cased form is one of the eight sensitive names maps to "***", every other value is redacted in turn |
| RuntimeEvents.RedactListAndScalars | apps/worker/app/runtime/events.py:34-36 | a list keeps its length and is redacted element-wise; scalars, the message string among them, are unchanged |
| RuntimeEvents.ExactMatchOnly | apps/worker/app/runtime/events.py:20-32 | matching is exact after lower-casing: "access_token" is not masked, "Password" is |
| RuntimeEvents.RedactIdempotent | apps/worker/app/runtime/events.py:19-36 | redacting twice gives the same value as redacting once |
| RuntimeEvents.CheckpointPayload | apps/worker/app/runtime/events.py:120-128 | the checkpoint record holds exactly id, reason, expected_action, expires_at and status "awaiting_input" |
| RuntimeEvents.PlainDict | apps/worker/app/runtime/events.py:19-36 | a dictionary of scalars under non-sensitive keys is left unchanged by redaction |
| RuntimeEvents.CheckpointKeysPlain | apps/worker/app/runtime/events.py:120-133 | none of the checkpoint event's keys is a sensitive name |
| RuntimeEvents.CheckpointSurvivesRedaction | apps/worker/app/runtime/events.py:120-135 | the checkpoint event's payload reaches the service unchanged by redaction |
| RuntimeEvents.EventEmitter.constructor | apps/worker/app/runtime/events.py:42-50 | the emitter keeps the event service it was given, or none |
| RuntimeEvents.EventEmitter.EmitEvent | apps/worker/app/runtime/events.py:192-218 | with a service the redacted message and payload are stored and the record returned; a service failure stores nothing and gives None; without a service the result is None |
| RuntimeEvents.EventEmitter.EmitCheckpointReached | apps/worker/app/runtime/events.py:110-135 | a checkpoint event with message "checkpoint_reached: <id>" and payload {"checkpoint": record} is stored, or nothing on failure |
| RuntimeEvents.CheckpointIsListed | apps/worker/app/services/event/service.py:118-122 | a stored checkpoint event is listed back by `get_run_checkpoints` as exactly its checkpoint record |
| EngineEvents.SameSensitiveNames | apps/worker/app/runtime/engine/events.py:20-29 | the engine's set of sensitive names equals the runtime's list |
| EngineEvents.RedactCopiesAgree | apps/worker/app/runtime/engine/events.py:19-36 | the engine's `_redact` and the runtime's agree on every value |
| EngineEvents.RedactProperties | apps/worker/app/runtime/engine/events.py:19-36 | the engine's copy is idempotent, keeps a dictionary's keys and masks exactly sensitive keys |
| EngineEvents.StepPayload | apps/worker/app/runtime/engine/events.py:71-104 | a step payload holds step, index = current step and status running/completed/failed, plus error exactly for a failure |
| EngineEvents.CheckpointExtendsRuntime | apps/worker/app/runtime/engine/events.py:114-123 | the engine's checkpoint record is the runtime's record with one more key, `index`, holding the current step; every shared key has the same value |
| EngineEvents.EngineKeysPlain | apps/worker/app/runtime/engine/events.py:71-104 | the step, index, status and error keys are not sensitive |
| EngineEvents.StepPayloadSurvivesRedaction | apps/worker/app/runtime/engine/events.py:71-104 | a step payload reaches the service unchanged by redaction |
| EngineEvents.EventEmitter.constructor | apps/worker/app/runtime/engine/events.py:42-48 | the emitter is bound to the given event service |
| EngineEvents.EventEmitter.EmitEvent | apps/worker/app/runtime/engine/events.py:183-195 | the redacted message and payload are stored and the record returned; a service failure propagates and stores nothing |
| EngineEvents.EventEmitter.EmitStep | apps/worker/app/runtime/engine/events.py:71-104 | each step event has its type (step_start, step_end, error), its "step_…: <name>" message and the step payload |
| EngineEvents.EventEmitter.EmitCheckpointReached | apps/worker/app/runtime/engine/events.py:106-130 | the checkpoint event stores {"checkpoint": record with index}, or the failure propagates |
| EngineEvents.CheckpointSurvivesRedaction | apps/worker/app/runtime/engine/events.py:114-130 | the engine's checkpoint payload reaches the service unchanged by redaction |
| EventService.StoredPayloadFeedsCheckpoints | apps/worker/app/services/event/service.py:50-122 | a stored checkpoint event is listed among the run's checkpoints exactly when its payload has a "checkpoint" entry, and storing a stored payload again changes nothing |
| EventService.FindEvent | apps/worker/app/services/event/service.py:70-88 | lookup gives a stored event with that id, and fails with "Event <id> not found" exactly when no event has it |
| EventService.BindCreateEvent | apps/worker/app/services/event/service.py:28-34 | a keyword call to `create_event` binds exactly when every keyword is one of run_id, event_type, message, payload |
| EventService.SessionKeywordRejected | apps/worker/app/runtime/events.py:203-209 | the emitters' call, which also passes `session`, fails with TypeError |
| EventService.EventStore.constructor | apps/worker/app/services/event/service.py:20-26 | a new repository holds no events |
| EventService.EventStore.CreateEvent | apps/worker/app/services/event/service.py:28-68 | a successful create appends the record with its stored payload; a repository failure is re-raised and stores nothing |
| EventService.EventStore.GetEventById | apps/worker/app/services/event/service.py:70-88 | gives an event with that id, and fails exactly when none is stored |
| EventService.CreatedIsFound | apps/worker/app/services/event/service.py:28-88 | an event just created under a fresh id is what `get_event_by_id` returns |
| EventService.RunCheckpoints | apps/worker/app/services/event/service.py:104-122 | the checkpoint entries of exactly those payloads that have one, in repository order |
| EventService.AsDicts | apps/worker/app/services/event/service.py:137-139 | the sort key can be read exactly when every checkpoint is a dictionary; otherwise the AttributeError of the first that is not |
| EventService.Insert | apps/worker/app/services/event/service.py:137-139 | inserting keeps the elements as a multiset plus the new one |
| EventService.InsertDescending | apps/worker/app/services/event/service.py:137-139 | insertion into a list sorted by descending created_at keeps it sorted |
| EventService.KeyOf | apps/worker/app/services/event/service.py:138 | an absent created_at sorts as 0; a string sorts as text and a float by value; exactly the values other than numbers, booleans and strings cannot be ordered |
| EventService.SortDesc | apps/worker/app/services/event/service.py:137-139 | the sort gives a permutation, in descending order when the keys are all numbers or all strings |
| EventService.SortByCreated | apps/worker/app/services/event/service.py:137-139 | `sorted(..., reverse=True)` succeeds exactly when there are fewer than two checkpoints or the keys are of one kind, and then gives a descending permutation; otherwise it raises TypeError |
| EventService.SortKeepsOrderWithoutCreatedAt | apps/worker/app/services/event/service.py:137-139 | when no checkpoint has a created_at, the stable sort keeps the repository's order |
| EventService.SortedMembers | apps/worker/app/services/event/service.py:137-139 | sorting keeps exactly the same checkpoints |
| EventService.FirstUnexpired | apps/worker/app/services/event/service.py:140-149 | the first element that has not expired, or None exactly when all have |
| EventService.ActiveSpec | apps/worker/app/services/event/service.py:124-149 | the lookup raises exactly when a checkpoint is not a dictionary or the keys cannot be ordered |
| EventService.GetActiveCheckpoint | apps/worker/app/services/event/service.py:124-149 | scanning newest first returns the first checkpoint whose expires_at parses and is later than now, or None; the errors of reading and sorting are raised |
| EventService.ScanUnexpired | apps/worker/app/services/event/service.py:140-149 | the scan returns the first checkpoint, in the sorted order, whose expires_at is a string that parses to a time after now, or None when there is none |
| EventService.FirstUnexpiredIsNewest | apps/worker/app/services/event/service.py:137-147 | in a list sorted newest first, the first unexpired checkpoint is at least as new as every unexpired one |
| EventService.ActiveIsNewestUnexpired | apps/worker/app/services/event/service.py:124-149 | the lookup raises exactly for two or more keys of mixed kind; otherwise the active checkpoint is one of the run's, has not expired, and none with a later created_at is unexpired; it is None exactly when all have expired |
| EventService.ActiveInStoreOrder | apps/worker/app/services/event/service.py:124-149 | for checkpoints without created_at (as the emitters write them), the active checkpoint is the first unexpired one in the repository's order |
| Json.PyInt | apps/worker/app/runtime/engine/flow_engine.py:140 | Python's `int()`: integers convert, floats are truncated, booleans give 0/1, strings convert exactly when `int()` parses them, and None, lists and dicts raise TypeError |
| Json.TruncateTowardZero | apps/worker/app/runtime/engine/flow_engine.py:140 | a float converts to the integer toward zero that is less than one away from it |
| Json.UnderscoreIgnored | apps/worker/app/runtime/engine/flow_engine.py:140 | an underscore between two digit groups is ignored, as `int("1_000")` is 1000 |
| Json.PyIntOfDecimal | apps/worker/app/runtime/engine/flow_engine.py:140 | the decimal text of a natural number converts back to it |
| Models.ParseRunStatus | apps/worker/app/models.py:25-30 | `RunStatus(v)` gives the member whose value is v, and fails exactly when no member has that value |
| Models.ParseStatusValue | apps/worker/app/models.py:25-30 | parsing a member's value gives that member back |
| FlowRegistry.Add | apps/worker/app/runtime/registry.py:44-61 | a manifest is ignored exactly when its id or key is taken; otherwise it is stored under both, and every earlier entry is kept |
| FlowRegistry.AddConsistent | apps/worker/app/runtime/registry.py:46-61 | registering keeps the two dictionaries consistent: each manifest under its own id and key in both |
| FlowRegistry.LoadKeepsFirst | apps/worker/app/runtime/registry.py:40-64 | loading never replaces an entry, and every parsed manifest ends up stored or blocked by one with its id or key |
| FlowRegistry.LoadConsistent | apps/worker/app/runtime/registry.py:40-64 | loading a sequence of files keeps the dictionaries consistent |
| FlowRegistry.FirstWins | apps/worker/app/runtime/registry.py:46-52 | of two manifests with the same id, the first loaded is kept |
| FlowRegistry.Registry.constructor | apps/worker/app/runtime/registry.py:27-31 | a new registry holds what loading the directory's files gives, and is consistent |
| FlowRegistry.Registry.LoadAll | apps/worker/app/runtime/registry.py:33-64 | loading registers the parsed manifests in glob order, skipping failed parses and duplicates, and nothing when the directory is missing |
| FlowRegistry.Registry.LoadOne | apps/worker/app/runtime/registry.py:42-64 | one file of the loop: a parsed manifest is registered unless its id or key is taken |
| FlowRegistry.Registry.GetManifest | apps/worker/app/runtime/registry.py:77-79 | the manifest stored under that id, or None exactly when there is none |
| FlowRegistry.Registry.GetManifestByKey | apps/worker/app/runtime/registry.py:81-83 | the manifest stored under that key, or None exactly when there is none |
| FlowRegistry.Registry.ListFlows | apps/worker/app/runtime/registry.py:85-87 | every registered manifest, once each, in insertion order |
| FlowRegistry.Registry.ReloadManifests | apps/worker/app/runtime/registry.py:97-101 | reloading gives what loading into an empty registry gives |
| FlowRegistry.MissingDirectoryIsEmpty | apps/worker/app/runtime/registry.py:35-37 | a missing directory gives an empty registry |
| FlowRegistry.LoadSpecConsistent | apps/worker/app/runtime/registry.py:33-64 | loading from any consistent registry gives a consistent one |
| FlowSync.ManifestToUuid | apps/worker/app/runtime/flows/sync.py:18-43 | an id that parses as a UUID is used as it is, otherwise uuid5 of the id, or of the key when the id is empty; it fails with ValueError exactly when both are empty |
| FlowSync.PickDefaultOwner | apps/worker/app/runtime/flows/sync.py:46-55 | an admin's id when there is an admin, else some user's id, and None exactly when there are no users |
| FlowSync.FirstAdmin | apps/worker/app/runtime/flows/sync.py:47-50 | the first admin from a position on, or None exactly when there is none |
| FlowSync.ResolvedOwnerIsKnown | apps/worker/app/runtime/flows/sync.py:65-73 | an owner is found unless none is given and there are no users; it is the given owner or one of the users; with no owner given and an admin present, it is an admin |
| FlowSync.ReconcileSpec | apps/worker/app/runtime/flows/sync.py:76-116 | the UUID is resolved first and its failure raises even for an existing row; a missing row is created public and owned by the owner; an existing row becomes public with the manifest's name, description and config, and `changed` holds exactly when that altered it |
| FlowSync.FlowRow.constructor | apps/worker/app/runtime/flows/sync.py:91-99 | a new row holds the given fields |
| FlowSync.ReconcileFlow | apps/worker/app/runtime/flows/sync.py:76-116 | the row is created or updated in place field by field, as ReconcileSpec says |
| FlowSync.EarlyReturns | apps/worker/app/runtime/flows/sync.py:129-135 | with no manifests, or no owner to be found, nothing is created, updated or committed |
| FlowSync.UncountedIsUnchanged | apps/worker/app/runtime/flows/sync.py:143-152 | the counters never go down, and a loop that counted nothing left the key map as it was |
| FlowSync.CommitIffCounted | apps/worker/app/runtime/flows/sync.py:154-163 | the commit happens exactly when something was created or updated; without one the table is as it was |
| FlowSync.SyncMatches | apps/worker/app/runtime/flows/sync.py:143-152 | after the loop every manifest has a public flow with its name, description and config under its key, and other keys keep their rows |
| FlowSync.MatchingPassIsQuiet | apps/worker/app/runtime/flows/sync.py:103-116 | a pass over flows that already match every manifest counts nothing and changes nothing |
| FlowSync.SyncIdempotent | apps/worker/app/runtime/flows/sync.py:119-163 | syncing manifests with distinct keys again on the result creates, updates and commits nothing |
| FlowSync.RegistryKeysDistinct | apps/worker/app/runtime/registry.py:53-61 | the registry's listing has distinct keys, so syncing it is idempotent |
| FlowSync.RepeatedKeyCreatesOnce | apps/worker/app/runtime/flows/sync.py:143-152 | two manifests with one new key create one flow, which the second then updates |
| FlowSync.IndexByKey | apps/worker/app/runtime/flows/sync.py:137-138 | the key map holds fetched rows, each under its own key, a later row overriding an earlier one |
| FlowSync.Snapshots | apps/worker/app/runtime/flows/sync.py:137-138 | the values of the key map's rows, under the same keys |
| FlowSync.SyncManifest | apps/worker/app/runtime/flows/sync.py:144-152 | one loop pass reconciles the key's row, adds a created row to the key map and bumps the matching counter, as one step of SyncSpec |
| FlowSync.SyncFlowsFromRegistry | apps/worker/app/runtime/flows/sync.py:119-163 | the report and the rows left behind are what SyncSpec gives for the fetched table |
| RunService.Run.constructor | apps/worker/app/services/run/service.py:289-296 | a new run is pending, with no times, error or result |
| RunService.UpdateSpec | apps/worker/app/services/run/service.py:315-326 | the present keys are assigned in order; a status that is no RunStatus value raises after result_uri was assigned; updated_at is set last |
| RunService.UpdateChangesOnlyRequested | apps/worker/app/services/run/service.py:315-326 | a successful update changes exactly the requested fields and updated_at, and nothing else |
| RunService.UpdateBypassesStateMachine | apps/worker/app/services/run/service.py:318-319 | any status value is applied over any status, a terminal one included |
| RunService.ValidateFlowAccess | apps/worker/app/services/run/service.py:267-283 | an unknown flow raises InvalidFlowError; a known one passes exactly for its creator or an admin, and raises FlowAccessDeniedError otherwise |
| RunService.RunAccessImpliesListed | apps/worker/app/services/run/service.py:267-283 | a user may run only a flow that exists and that the flow listing shows them; a flow they cannot see is refused with FlowAccessDeniedError; an admin may run exactly the existing flows |
| RunService.PublicFlowNotEnough | apps/worker/app/services/run/service.py:276-283 | a public flow created by someone else is refused to a regular user |
| RunService.RunStore.constructor | apps/worker/app/services/run/service.py:38-44 | a new service sees no runs, sessions, audit events or progress messages |
| RunService.RunStore.GetRun | apps/worker/app/services/run/service.py:158-163 | the stored run, and RunNotFoundError exactly for an unknown id |
| RunService.RunStore.CreateRunRecordWithUser | apps/worker/app/services/run/service.py:285-305 | a pending run owned by the authenticated user is stored, followed by a pending progress message; nothing else changes |
| RunService.RunStore.UpdateRun | apps/worker/app/services/run/service.py:307-326 | an unknown id raises RunNotFoundError; a known run's fields become what UpdateSpec gives |
| RunService.RunStore.ContinueRun | apps/worker/app/services/run/service.py:328-360 | an unknown run raises RunNotFoundError, one not awaiting input raises ValueError; otherwise it becomes running and the RUN_CONTINUED audit event is added when input or notes were given |
| RunService.RunStore.HandleSessionCreationFailure | apps/worker/app/services/run/service.py:204-222 | a known run becomes failed with the message and its end time, and a failed progress message follows |
| RunService.RunStore.CreateSessionAndFinalizeRun | apps/worker/app/services/run/service.py:224-250 | an active session is recorded in every case, and a known run becomes running with its start time |
| RunService.ContinuedEvents | apps/worker/app/services/run/service.py:344-354 | exactly one RUN_CONTINUED event, with "Run continued" and the input and notes, when either was given, and none otherwise |
| RunAccess.EnsureRunAccess | apps/worker/app/utils/run.py:17-51 | the run is returned exactly when it exists and the user owns it or is an admin; otherwise HTTP 404 "Run not found" |
| RunAccess.ForeignRunLooksMissing | apps/worker/app/utils/run.py:40-49 | a regular user asking for another user's run gets exactly the answer a missing run gets |
| FlowRepository.NonPositiveSkipIsFirstPage | apps/worker/app/services/flow/repository.py:25-26 | a zero or negative skip lists the first page, the same as no skip; clamping twice is clamping once; a positive skip drops that many of the visible flows in listing order |
| FlowRepository.NormalizeLimit | apps/worker/app/services/flow/repository.py:26 | the limit lies in 1..200: None and 0 give 100, negatives 1, values above 200 give 200, others are kept |
| FlowRepository.Filter | apps/worker/app/services/flow/repository.py:28-43 | exactly the rows visible to the user: all for an admin, otherwise the user's own and the public ones |
| FlowRepository.NewerTotal | apps/worker/app/services/flow/repository.py:32 | `created_at DESC, id DESC` relates any two rows one way or the other |
| FlowRepository.NewerTransitive | apps/worker/app/services/flow/repository.py:32 | the order is transitive |
| FlowRepository.Insert | apps/worker/app/services/flow/repository.py:32 | inserting keeps the rows as a multiset plus the new one |
| FlowRepository.InsertOrdered | apps/worker/app/services/flow/repository.py:32 | insertion into an ordered list keeps it ordered |
| FlowRepository.Order | apps/worker/app/services/flow/repository.py:32 | the ORDER BY gives a permutation of the rows, newest first |
| FlowRepository.Page | apps/worker/app/services/flow/repository.py:33-34 | OFFSET/LIMIT: at most `limit` rows, the k-th being the (skip+k)-th of the order |
| FlowRepository.ListedAreVisible | apps/worker/app/services/flow/repository.py:16-49 | a page holds at most the normalised limit of rows of the table, each visible to the user, newest first |
| FlowRepository.FirstPageIsComplete | apps/worker/app/services/flow/repository.py:16-49 | a first page at least as long as the table lists exactly the rows visible to the user |
| FlowRepository.PagesDisjoint | apps/worker/app/services/flow/repository.py:33-34 | pages whose ranges do not overlap share no row |
| FlowRepository.GetById | apps/worker/app/services/flow/repository.py:51-54 | a row with that id, or None exactly when there is none |
| FlowService.ListedFlowsAreReadable | apps/worker/app/services/flow/service.py:19-39 | a listing holds at most the normalised limit of flows, each stored and readable by the user |
| FlowService.GetFlowById | apps/worker/app/services/flow/service.py:41-71 | a missing flow raises FlowNotFoundError; the flow is returned exactly to an admin, its creator or anyone when it is public, and FlowAccessDeniedError otherwise |
| FlowService.ReadRuleMatchesListing | apps/worker/app/services/flow/service.py:64-69 | the single-flow rule and the listing's filter agree on every flow and user |
| LegacyFlowService.ListFlows | apps/worker/app/services/flow_service.py:15-34 | an admin gets the whole table; anyone else exactly the flows they created |
| LegacyFlowService.GetFlowById | apps/worker/app/services/flow_service.py:36-53 | None for a missing flow; a flow is returned only to an admin or its creator |
| LegacyFlowService.Lookup | apps/worker/app/services/flow_service.py:43-44 | the first row with that id, or None exactly when there is none |
| LegacyFlowService.NoPublicException | apps/worker/app/services/flow_service.py:24-31 | a public flow of another user stays hidden from a regular user, in the listing and by id |
| LegacyFlowService.VisibleFlowReturned | apps/worker/app/services/flow_service.py:43-53 | the creator or an admin gets a flow whose id is unique |
| AuthUtils.TokenClaims | apps/worker/app/utils/auth.py:88-121 | the signed claims are the caller's data plus exp, type, iat and jti; an access token lives 30 minutes unless a non-zero lifetime is given, a refresh token 7 days, and the caller's other claims are kept |
| AuthUtils.UserClaimsReadBack | apps/worker/app/utils/auth.py:144-155 | the user id and e-mail written into a token's claims read back as those strings; an absent claim reads as None |
| AuthUtils.ParseRole | apps/worker/app/utils/auth.py:155-164 | a falsy role claim gives no role, a role's value gives that role, and any other value gives USER |
| AuthUtils.VerifyClaims | apps/worker/app/utils/auth.py:124-225 | every failure is a 401 with one of the documented details; "Invalid or expired token" / "Invalid refresh token" exactly when decoding fails; otherwise the token verifies exactly when its type matches and it has a subject that is a UUID |
| AuthUtils.VerifiedHasUserId | apps/worker/app/utils/auth.py:143-152 | a verified token always carries a user id |
| AuthUtils.UserClaims | apps/worker/app/services/auth/service.py:108 | a user's token data holds exactly sub, email and role |
| AuthUtils.CreatedTokenVerifies | apps/worker/app/utils/auth.py:88-225 | a token made from a user's claims verifies, as its own kind, to that user's id, e-mail and role |
| AuthUtils.AccessTokenNotRefresh | apps/worker/app/utils/auth.py:186-189 | the refresh verifier rejects an access token with "Invalid token type" |
| AuthUtils.RefreshTokenNotAccess | apps/worker/app/utils/auth.py:138-141 | the access verifier rejects a refresh token with "Invalid token type" |
| AuthUtils.FindById | apps/worker/app/utils/auth.py:258-261 | a stored user with that id, or None exactly when there is none |
| AuthUtils.GetCurrentUser | apps/worker/app/utils/auth.py:228-282 | no credential gives 401 "Not authenticated", a failed verification its own 401, an unknown user 401 "Could not validate credentials"; otherwise the stored user the token names |
| AuthUtils.AdminCheckStricterThanBootstrapGate | apps/worker/app/utils/auth.py:285-292 | a user who passes the admin check passes the admin-or-first-user gate too; the two differ only for a non-admin with the bootstrap e-mail; the stand-in administrator passes both |
| AuthUtils.GetCurrentUserOrFirstAdmin | apps/worker/app/utils/auth.py:295-360 | with no users a stand-in admin is returned; otherwise a missing header is 401 "Authorization header missing", a failed verification its 401, an unknown user 401 "User not found", and else the stored user |
| AuthUtils.RequireAdminOrFirstUser | apps/worker/app/utils/auth.py:363-378 | the user passes exactly when it has the stand-in's e-mail or is an admin; others get 403 |
| AuthUtils.EmptyStoreAdmitsRegistration | apps/worker/app/utils/auth.py:363-378 | with no users, registration passes whatever the credential |
| AuthUtils.RegistrationNeedsAdminToken | apps/worker/app/utils/auth.py:295-378 | once a user exists, passing takes a valid access token of a stored user who is an admin or has the bootstrap e-mail |
| AuthService.ToReadHidesOnlyHash | apps/worker/app/services/auth/service.py:174-184 | two users have the same public view exactly when they differ at most in the password hash |
| AuthService.RegistrationAllowed | apps/worker/app/services/auth/service.py:37-69 | a registration is allowed exactly when it is the first and has no creator, or a later one with a creator and, for an admin role, an admin creator; the first user is admin and later ones get the asked role, USER by default |
| AuthService.OnlyAdminsMakeAdmins | apps/worker/app/services/auth/service.py:42-66 | an admin is created only as the first user or by an admin |
| AuthService.RoleDefaults | apps/worker/app/services/auth/service.py:42-69 | the first user is admin whatever was asked for, and a later user asking for nothing is USER |
| AuthService.IndexOfEmail | apps/worker/app/services/auth/service.py:94-95 | the first user with that e-mail, or None exactly when there is none |
| AuthService.IndexOfId | apps/worker/app/services/auth/service.py:200-203 | the position of a user with that id, or None exactly when there is none |
| AuthService.UserStore.constructor | apps/worker/app/services/auth/service.py:27-28 | the service sees the given users table |
| AuthService.UserStore.CreateUser | apps/worker/app/services/auth/service.py:30-87 | a refused role stores nothing and raises its ValueError; otherwise the new user with the hashed password and the role is appended and returned |
| AuthService.UserStore.AuthenticateUser | apps/worker/app/services/auth/service.py:89-104 | the user with that e-mail is returned exactly when the password verifies against its hash |
| AuthService.UserStore.GetUserById | apps/worker/app/services/auth/service.py:154-157 | a stored user with that id, or None exactly when there is none |
| AuthService.UserStore.GetAllUsers | apps/worker/app/services/auth/service.py:159-184 | every stored user, in order, without its password hash |
| AuthService.UserStore.RefreshUserTokens | apps/worker/app/services/auth/service.py:131-152 | a failed refresh verification propagates its 401, an unknown user raises ValueError, and otherwise a new pair is issued for the stored user the token names |
| AuthService.UserStore.UpdateUserRole | apps/worker/app/services/auth/service.py:186-212 | a non-admin updater is refused before any lookup, an unknown id gives None, and otherwise only that user's role changes |
| AuthService.CreateUserTokens | apps/worker/app/services/auth/service.py:106-129 | both tokens carry the user's id, e-mail and role; the access token lives 1800 seconds, the refresh token 604800, and the token type is "bearer" |
| AuthService.RefreshRoundTrip | apps/worker/app/services/auth/service.py:106-152 | refreshing with the refresh token of a pair issues a pair for the same user |
| AuthService.AccessTokenCannotRefresh | apps/worker/app/services/auth/service.py:131-136 | refreshing with the access token of a pair fails with "Invalid token type" |
| AuthRouter.RegistrationNeedsAdminCaller | apps/worker/app/routers/auth.py:54-56 | once users exist, an admin can be registered exactly by a stored admin without the bootstrap e-mail, and no registration comes from the bootstrap e-mail; the first registration comes exactly through the bootstrap e-mail |
| AuthRouter.RegisterUser | apps/worker/app/routers/auth.py:43-72 | a refused dependency answers first; a refused role maps to 400 with its message and stores nothing; otherwise the new user is stored and returned without its hash |
| AuthRouter.BootstrapEmailCannotRegister | apps/worker/app/routers/auth.py:54-59 | a stored user with the bootstrap e-mail is passed as no creator, so the service refuses once the table is not empty |
| AuthRouter.FirstRegistrationIsAdmin | apps/worker/app/routers/auth.py:43-61 | the first registration, through the stand-in administrator, creates an administrator whatever role was asked for |
| AuthRouter.Response.constructor | apps/worker/app/routers/auth.py:97-99 | a new response carries no cookies |
| AuthRouter.Response.SetCookieHeader | apps/worker/app/routers/auth.py:128-144 | `set_cookie` appends one Set-Cookie |
| AuthRouter.ClientTypeIgnoresCase | apps/worker/app/routers/auth.py:119 | the client type does not depend on the header's case and is lower case; it is mobile exactly when the header lower-cases to "mobile" |
| AuthRouter.CookieLifetimes | apps/worker/app/routers/auth.py:134-143 | with the setting and the token lifetimes the branch expects, the two cookies get the same max age exactly when a non-zero max age is configured or the two token lifetimes are equal; without one, each cookie lives as long as its token |
| AuthRouter.WebLoginCookieRefreshes | apps/worker/app/routers/auth.py:128-176 | in the intended web login, the second login cookie is refresh_token, and its value refreshes at `/auth/refresh` to fresh tokens for the same user |
| AuthRouter.Login | apps/worker/app/routers/auth.py:97-150 | bad credentials give 401 "Incorrect email or password"; a mobile client gets the token body and no cookies; any other client gets the two cookies and the greeting (the intended web branch: see Findings) |
| AuthRouter.CookieAsWritten | apps/worker/app/routers/auth.py:128-144 | one `set_cookie` call as Python evaluates it: an undeclared attribute raises, naming an attribute the model or settings lacks, and with everything declared the cookie is set with its key and value |
| AuthRouter.WebCookiesAsWritten | apps/worker/app/routers/auth.py:128-144 | the web branch as written sets at most two cookies, both exactly when no attribute is missing, the access cookie first |
| AuthRouter.WebLoginRaisesAsWritten | apps/worker/app/routers/auth.py:134 | with the attributes the repository declares, every web login raises AttributeError for `cookie_max_age` before any cookie is set |
| AuthRouter.MaxAgeAloneStillRaises | apps/worker/app/routers/auth.py:134-143 | declaring `cookie_max_age` alone, a falsy max age still raises for the token's missing `expires_in`; a non-zero one sets both cookies |
| AuthRouter.ExpectedGivesLoginCookies | apps/worker/app/routers/auth.py:128-144 | with the attributes the branch expects, the as-written branch sets exactly the cookies `Login` writes |
| AuthRouter.MobileIgnoresCase | apps/worker/app/routers/auth.py:119-124 | "Mobile" and "MOBILE" count as mobile, and no header means web |
| AuthRouter.RefreshFailureIsVerifierOr500 | apps/worker/app/routers/auth.py:160-176 | a refresh fails either with the verifier's own error or, for a token that verifies, with 500 "Failed to refresh token" |
| AuthRouter.RefreshAccessToken | apps/worker/app/routers/auth.py:154-176 | a failed verification answers with its own 401; the refresh succeeds exactly when the service's does, with the same tokens |
| AuthRouter.DeletedUserRefreshIs500 | apps/worker/app/routers/auth.py:171-176 | a valid refresh token whose user is gone gives 500, not 401 |
| AuthRouter.UndecodableRefreshIs401 | apps/worker/app/routers/auth.py:160-164 | a token that does not decode gives 401 "Invalid refresh token" |
| AuthRouter.RoleFailureKeepsMessage | apps/worker/app/routers/auth.py:217-226 | a refused role change keeps the service's message, answers 400 or 403, and 403 exactly when the message mentions "Only administrators" |
| AuthRouter.UpdateUserRoleEndpoint | apps/worker/app/routers/auth.py:195-226 | a refused dependency answers first, a non-admin gets 403 "Not enough permissions", an unknown user 404 "User not found", and otherwise only that user's role changes |
| AuthRouter.RoleRefusalIs403 | apps/worker/app/routers/auth.py:219-222 | the service's own refusal maps to 403 |
| AuthMiddleware.Response.constructor | apps/worker/app/middleware/auth.py:45-49 | a response holds the given status, headers and body |
| AuthMiddleware.Downstream.constructor | apps/worker/app/middleware/auth.py:85 | the application answers with the given response and has not been called |
| AuthMiddleware.Downstream.Call | apps/worker/app/middleware/auth.py:85 | `call_next` returns the application's response and counts one call |
| AuthMiddleware.RequestState.constructor | apps/worker/app/middleware/auth.py:73-74 | a new request state names no user and no role |
| AuthMiddleware.ParseBearer | apps/worker/app/middleware/auth.py:52-57 | no space gives no token; otherwise the token is the stripped rest, exactly when the scheme before the first space lower-cases to "bearer" |
| AuthMiddleware.BearerAccepted | apps/worker/app/middleware/auth.py:52-57 | any spelling of "bearer" is accepted and the token is the stripped rest |
| AuthMiddleware.OtherSchemeRefused | apps/worker/app/middleware/auth.py:54-56 | any other scheme is refused |
| AuthMiddleware.Authenticator.constructor | apps/worker/app/middleware/auth.py:19-33 | an absent or empty exclusion list means the default one |
| AuthMiddleware.Authenticator.Dispatch | apps/worker/app/middleware/auth.py:35-85 | an excluded path goes straight through; otherwise a missing header, a malformed one and a token that fails verification each give their 401 without calling the application, and a valid token records the user and role before calling it once |
| AuthMiddleware.DefaultExclusions | apps/worker/app/middleware/auth.py:27-33 | exclusion is by prefix: the whole auth router and "/healthz" are open, the run routes are not |
| AuthMiddleware.CorsCases | apps/worker/app/middleware/auth.py:120-140 | the three origin cases and the common headers every answered request gets |
| AuthMiddleware.Cors.constructor | apps/worker/app/middleware/auth.py:91-103 | the configuration is kept and allow-all holds exactly when the origins are ["*"] |
| AuthMiddleware.Cors.Dispatch | apps/worker/app/middleware/auth.py:105-142 | a disallowed origin is passed through untouched; a preflight gets an empty answer of its own; anything else is the application's answer with the CORS headers added |
| AuthMiddleware.Cors.AddHeaders | apps/worker/app/middleware/auth.py:120-140 | the header writes give CorsHeaders over the response's headers and leave its status and body |
| AuthMiddleware.OriginAllowedIff | apps/worker/app/middleware/auth.py:144-148 | an origin is allowed exactly when the list is ["*"] or the origin is listed verbatim |
| Config.FirstDelimiter | apps/worker/app/config.py:51 | the position of the first '/', '?' or '#', or the length when there is none |
| Config.SplitScheme | apps/worker/app/config.py:51 | the scheme step of `urlsplit` leaves a suffix of its input |
| Config.SplitNetloc | apps/worker/app/config.py:51 | the netloc after "//" holds no delimiter and no comma the input did not have |
| Config.SplitQuery | apps/worker/app/config.py:51 | an empty tail has empty path, query and fragment |
| Config.UrlSplit | apps/worker/app/config.py:51 | the netloc `urlsplit` finds holds no delimiter and no comma the input did not have |
| Config.UrlSplitOrigin | apps/worker/app/config.py:51-55 | `urlsplit` of "http(s)://" and a netloc gives that scheme and netloc, and empty path, query and fragment |
| Config.Stripped | apps/worker/app/config.py:46 | stripping whitespace and then trailing slashes adds no comma |
| Config.ClassifyShape | apps/worker/app/config.py:46-61 | an entry is skipped exactly when it strips to nothing and is the wildcard exactly when it strips to "*"; an accepted one has the scheme://netloc shape in lower case; an invalid one is reported as stripped |
| Config.ClassifyOrigin | apps/worker/app/config.py:46-61 | an entry that strips to http or https, "://" and a netloc is accepted as that origin |
| Config.Entries | apps/worker/app/config.py:45 | one classification per comma-separated part |
| Config.NormalizeOrigins | apps/worker/app/config.py:38-62 | the loop gives what Normalized gives |
| Config.ValidOrigins | apps/worker/app/config.py:61 | the accepted origins, in order |
| Config.CollectList | apps/worker/app/config.py:44-62 | without a wildcard or an invalid entry the result is the accepted origins, each once, sorted |
| Config.WildcardFirst | apps/worker/app/config.py:49-50 | a "*" with no invalid entry before it gives "*", whatever follows |
| Config.InvalidFirst | apps/worker/app/config.py:52-58 | the first invalid entry, with no "*" before it, raises "Invalid CORS origin: 's'" naming it, whatever follows |
| Config.CollectShape | apps/worker/app/config.py:44-62 | a list result is sorted, without duplicates, and every origin has the normalised shape |
| Config.NormalizedShape | apps/worker/app/config.py:38-62 | the list `normalize_origins` returns is sorted, without duplicates, of scheme://netloc origins without commas |
| Config.TrailingCommaIgnored | apps/worker/app/config.py:45-48 | a trailing comma changes nothing |
| Config.NormalizedEmpty | apps/worker/app/config.py:38-62 | an empty setting gives an empty list |
| Config.SingleOrigin | apps/worker/app/config.py:38-62 | a setting with one accepted entry and no comma gives just that origin |
| Config.JoinedListNormalises | apps/worker/app/config.py:38-62 | a sorted list of distinct normalised origins comes back from its comma-joined text |
| Config.NormalizeIdempotent | apps/worker/app/config.py:38-62 | normalising the comma-joined output again gives the same list, when no origin ends in whitespace |
| Config.TrailingSpaceKept | apps/worker/app/config.py:46-61 | "http://a /" is accepted as "http://a ", the space kept in the netloc |
| Config.TrailingSpaceDropped | apps/worker/app/config.py:46-61 | "http://a " is accepted as "http://a" |
| Config.NotIdempotentWhenReaccepted | apps/worker/app/config.py:38-62 | an entry accepted as x, where x is accepted as a different y, makes normalising twice differ from once |
| Config.ValidateSecretKey | apps/worker/app/config.py:223-233 | the key passes exactly when it is not blank and, outside debug, has at least 32 characters and is not the default |
| Config.CorsError | apps/worker/app/config.py:235-256 | a normalisation error comes first; outside debug both settings must be explicit, non-empty lists, and the "*" of the allowed origins is reported before anything else |
| Config.ValidateTokenExpiry | apps/worker/app/config.py:258-268 | passes exactly when the refresh lifetime in minutes strictly exceeds the access lifetime |
| Config.ExpiryWithinBoundsPasses | apps/worker/app/config.py:258-268 | within the field bounds the expiry check always passes |
| Config.ValidateCookies | apps/worker/app/config.py:270-281 | passes exactly when SameSite (default lax, lower-cased) is lax, strict or none and, outside debug, none comes with a secure cookie |
| Config.ValidateSecurity | apps/worker/app/config.py:216-221 | passes exactly when all four validators pass, the secret key's error winning first |
| Config.ProductionSettings | apps/worker/app/config.py:216-281 | settings that load outside debug have a real secret of at least 32 characters, explicit non-empty origin lists, and a secure cookie when SameSite is none |
| Config.SqliteUrlsUseAsyncDriver | apps/worker/app/config.py:288-293 | no URL handed out uses the plain sqlite driver; a sqlite URL is given the async driver with the rest of the URL kept; a URL is changed exactly when it is a plain sqlite one |
| Config.DatabaseUrlIdempotent | apps/worker/app/config.py:288-293 | rewriting twice is rewriting once |
| Config.DefaultDatabaseUrl | apps/worker/app/config.py:288-293 | the default URL becomes "sqlite+aiosqlite:///yeetflow.db" |
| Config.DevelopmentModeFrame | apps/worker/app/config.py:216-298 | development mode depends only on debug and the Steel key, and either one alone forces it; outside development mode, settings that pass validation have a Steel key and a secret key of at least 32 characters that is not the default |
| Config.GetCorsConfig | apps/worker/app/config.py:326-347 | a normalisation error propagates; the wildcard gives ["*"] without credentials, a list gives those origins with credentials, and the methods, headers and max age are fixed |
| Config.AllowAllIffWildcard | apps/worker/app/config.py:338-347 | the middleware's allow-all test holds exactly for the wildcard, and then credentials are off |
| Retry.AsyncDiffersOnlyInChaining | apps/worker/app/utils/retry.py:54-135 | the async and sync wrappers make the same calls and sleeps and return the same result, except that the async RetryError is chained to the last exception |
| Retry.Callee.constructor | apps/worker/app/utils/retry.py:54-56 | the wrapped function starts with no call made |
| Retry.Callee.Call | apps/worker/app/utils/retry.py:61 | a call counts itself and does what the function's next call does |
| Retry.Sleeper.constructor | apps/worker/app/utils/retry.py:86 | no sleep has happened yet |
| Retry.Sleeper.Sleep | apps/worker/app/utils/retry.py:86 | a sleep is recorded after the attempt it follows |
| Retry.Upto | apps/worker/app/utils/retry.py:59 | the attempt numbers 0 to n - 1 in order, as `range(max_attempts)` gives them |
| Retry.Wrapped | apps/worker/app/utils/retry.py:56-129 | the attempt loop returns what the reference run gives, makes its number of calls and sleeps after attempts 0, 1, ... in order |
| Retry.Attempt | apps/worker/app/utils/retry.py:59-86 | one attempt makes one call; a return, a re-raised exception or the last attempt ends the loop with the reference run's result and no sleep; otherwise one sleep after this attempt and the reference run goes on from the next one |
| Retry.RetryStep | apps/worker/app/utils/retry.py:62-86 | a retried exception before the last attempt costs one call and one sleep, then the loop goes on from the next attempt |
| Retry.CallsAndSleeps | apps/worker/app/utils/retry.py:59-92 | at most max_attempts calls are made, one sleep between each two and none after the last |
| Retry.FirstSuccessReturned | apps/worker/app/utils/retry.py:59-61 | the first call that returns gives the result, after one call per earlier attempt and a sleep between each two |
| Retry.OtherExceptionPropagates | apps/worker/app/utils/retry.py:62-64 | an exception outside the retried classes goes straight out, with no further call |
| Retry.AllAttemptsFail | apps/worker/app/utils/retry.py:62-92 | when every attempt raises a retried exception, all max_attempts calls are made and RetryError carries the last one |
| Retry.NoAttempts | apps/worker/app/utils/retry.py:89-92 | with max_attempts of zero or less nothing is called and RetryError carries no exception |
| Retry.ChainedOnlyWhenAsync | apps/worker/app/utils/retry.py:89-129 | the sync wrapper raises RetryError unchained, the async one chains it from the last exception |
| Retry.ExhaustedShape | apps/worker/app/utils/retry.py:89-92 | every RetryError names the function and the attempt count, and is chained only in the async wrapper |
| Retry.DbPolicy | apps/worker/app/utils/retry.py:140-161 | the database preset keeps the attempt count and retries exactly the three sqlite3 error classes |
| Retry.NetworkPolicy | apps/worker/app/utils/retry.py:164-194 | the network preset keeps the attempt count and retries eight classes, among them TimeoutError and ConnectionError |
| Retry.DbPolicyIgnoresOthers | apps/worker/app/utils/retry.py:155-161 | under the database preset an exception that is not an sqlite3 error is never retried |
| Filename.LastIndexOf | apps/worker/app/utils/filename.py:16 | the position of the last occurrence of a character, or none exactly when it does not occur |
| Filename.Basename | apps/worker/app/utils/filename.py:16 | `Path(filename).name` holds no slash, is never ".", and is no longer than its input |
| Filename.ParentIgnored | apps/worker/app/utils/filename.py:16 | a plain name is its own basename and any directories before it are dropped |
| Filename.StripControls | apps/worker/app/utils/filename.py:19 | the result holds exactly the characters of the input that are not C0, DEL or C1 controls |
| Filename.StripControlsKeeps | apps/worker/app/utils/filename.py:19 | a name without control characters goes through unchanged |
| Filename.AsciiReplace | apps/worker/app/utils/filename.py:22 | each character is kept when it is printable ASCII and becomes "_" otherwise, position by position |
| Filename.EncodeChar | apps/worker/app/utils/filename.py:29 | one character encodes to one to four UTF-8 bytes |
| Filename.Utf8Encode | apps/worker/app/utils/filename.py:29 | the encoding takes between one and four bytes per character |
| Filename.DecodeFirst | apps/worker/app/utils/filename.py:29 | decoding the first character consumes between one byte and the whole input |
| Filename.DecodeEncodedChar | apps/worker/app/utils/filename.py:29 | the encoding of a character decodes back to it, whatever follows |
| Filename.Utf8RoundTrip | apps/worker/app/utils/filename.py:29 | strict UTF-8 decoding undoes the encoding of every string |
| Filename.HexDigit | apps/worker/app/utils/filename.py:29 | every escape digit is an upper-case hex digit |
| Filename.HexRoundTrip | apps/worker/app/utils/filename.py:29 | reading a hex digit back gives its value |
| Filename.Quote | apps/worker/app/utils/filename.py:29 | `quote` writes one to three characters per byte |
| Filename.QuoteRoundTrip | apps/worker/app/utils/filename.py:29 | quoted text is only unreserved characters and %XX escapes, and unquotes back to the bytes |
| Filename.EmptyName | apps/worker/app/utils/filename.py:12-13 | an empty name gives ("file", "file") |
| Filename.DirectoriesDropped | apps/worker/app/utils/filename.py:16 | directories before the last component do not change either result |
| Filename.AsciiNameSafe | apps/worker/app/utils/filename.py:19-26 | the ASCII name is non-empty printable ASCII without a leading dot or a slash, so no CR or LF can reach the header |
| Filename.EncodedNameDecodes | apps/worker/app/utils/filename.py:16-31 | the encoded name is percent-encoded text that decodes back to the cleaned name |
| Filename.PlainNameKept | apps/worker/app/utils/filename.py:22-26 | a printable ASCII name without slashes or a leading dot is kept as it is |
| SteelSessions.Provider.constructor | apps/worker/app/runtime/adapters/steel.py:21-29 | the repository and provider answers are fixed and no call has been made |
| SteelSessions.Provider.GetSessions | apps/worker/app/runtime/adapters/steel.py:42-43 | the repository query returns the rows (or failure) for the run and is logged as one call |
| SteelSessions.Provider.GetSessionInfo | apps/worker/app/runtime/adapters/steel.py:72 | the provider lookup returns its answer (or exception) and is logged as one call |
| SteelSessions.Provider.ReleaseSession | apps/worker/app/runtime/adapters/steel.py:99 | the release returns whether the provider confirmed it and is logged as one call |
| SteelSessions.Provider.CreateSession | apps/worker/app/services/steel_service.py:20-44 | the creation returns the provider's next answer (the session data, None, or the exception left once the five attempts are spent or the body is not JSON) and is logged as one call |
| SteelSessions.ClosedForgets | apps/worker/app/runtime/adapters/steel.py:90-105 | closing forgets a known run exactly when it has no session id or the release was confirmed, leaves an unknown run alone without a call, and never touches another run |
| SteelAdapter.FirstActive | apps/worker/app/runtime/adapters/steel.py:44 | the first row whose session has not ended, or none exactly when every row has ended |
| SteelAdapter.SteelBrowserAdapter.constructor | apps/worker/app/runtime/adapters/steel.py:21-29 | a new adapter holds no mapping |
| SteelAdapter.SteelBrowserAdapter.AttachToSession | apps/worker/app/runtime/adapters/steel.py:31-88 | an attached run is left alone without a call; otherwise the mapping and the calls are those of the reference attach, stored only on success |
| SteelAdapter.SteelBrowserAdapter.CloseSession | apps/worker/app/runtime/adapters/steel.py:90-105 | the mapping after closing and the calls made are those of the reference close |
| SteelAdapter.SteelBrowserAdapter.GetSessionInfo | apps/worker/app/runtime/adapters/steel.py:107-113 | exactly the stored mapping, or None when the run has none |
| SteelAdapter.AttachChoosesFirstActive | apps/worker/app/runtime/adapters/steel.py:41-66 | a repository failure propagates, no active row raises RuntimeError, and a success seeds the mapping from the first active row |
| SteelAdapter.AttachIgnoresLookupFailure | apps/worker/app/runtime/adapters/steel.py:68-85 | the provider lookup never decides whether attaching succeeds, and a failed lookup leaves the WebSocket URL None |
| SteelAdapter.WebsocketPreference | apps/worker/app/runtime/adapters/steel.py:78-85 | the WebSocket URL is websocketUrl, else connectUrl, else wsUrl, each only when truthy, else None |
| SteelAdapter.AttachTwice | apps/worker/app/runtime/adapters/steel.py:38-40 | a second attach after a successful one succeeds without a call |
| SteelLegacy.CreatedIffUrl | apps/worker/app/runtime/steel.py:21-34 | creation succeeds exactly when data came back with a truthy debugUrl or sessionViewerUrl; the provider's exception passes through unchanged; every other failure is one of the two RuntimeErrors naming the run |
| SteelLegacy.SteelBrowserAdapter.constructor | apps/worker/app/runtime/steel.py:15-17 | a new adapter holds no mapping |
| SteelLegacy.SteelBrowserAdapter.CreateSession | apps/worker/app/runtime/steel.py:19-46 | one creation request; the result is the reference creation, an exception of `create_session` leaves uncaught, and the mapping is stored only on success |
| SteelLegacy.SteelBrowserAdapter.ExecuteAction | apps/worker/app/runtime/steel.py:48-76 | a ValueError exactly when the run has no session, otherwise the placeholder result with exactly its four keys |
| SteelLegacy.SteelBrowserAdapter.TakeScreenshot | apps/worker/app/runtime/steel.py:78-97 | a ValueError exactly when the run has no session, otherwise the reference `screenshot_<name>_<run>` |
| SteelLegacy.SteelBrowserAdapter.CloseSession | apps/worker/app/runtime/steel.py:99-114 | the mapping after closing and the calls made are those of the reference close |
| SteelLegacy.SteelBrowserAdapter.GetSessionInfo | apps/worker/app/runtime/steel.py:116-122 | exactly the stored mapping, or None when the run has none |
| SteelLegacy.CreatedUrlPreference | apps/worker/app/runtime/steel.py:28-43 | debugUrl is preferred to sessionViewerUrl, and the stored status defaults to "active" |
| SteelLegacy.ScreenshotRefInjective | apps/worker/app/runtime/steel.py:90 | for run ids of one length, different name or run gives a different reference |
| SteelLegacy.CreateThenClose | apps/worker/app/runtime/steel.py:19-114 | after a successful create a screenshot works, and after close it fails exactly when the session had no id or its release was confirmed |
| Cookies.JsTrimStart | apps/web/lib/cookies.ts:18 | the leading ECMAScript white space is gone and nothing is added |
| Cookies.JsTrimEnd | apps/web/lib/cookies.ts:18 | the trailing ECMAScript white space is gone and what is left is a prefix of the input |
| Cookies.JsTrim | apps/web/lib/cookies.ts:18 | `trim()` leaves no white space at either end |
| Cookies.JsTrimIdempotent | apps/web/lib/cookies.ts:18 | trimming twice is trimming once |
| Cookies.TrimmedNonEmpty | apps/web/lib/cookies.ts:18-19 | every part kept is non-empty and already trimmed, and no part is added |
| Cookies.TrimmedNonEmptyConcat | apps/web/lib/cookies.ts:18-19 | trimming and filtering works part by part, so it distributes over concatenation |
| Cookies.Parts | apps/web/lib/cookies.ts:16-19 | every part is non-empty and holds no ";" |
| Cookies.JsTrimKeepsAbsent | apps/web/lib/cookies.ts:18 | trimming adds no character the text did not have |
| Cookies.JsTrimStartSuffix | apps/web/lib/cookies.ts:18 | trimming the start leaves a suffix of the text |
| Cookies.TrimmedKeepsAbsent | apps/web/lib/cookies.ts:18-19 | trimming and filtering adds no character the parts did not have |
| Cookies.PartsConcat | apps/web/lib/cookies.ts:16-19 | every ";" separates parts, whatever surrounds it, so quoted values are split too |
| Cookies.EqHalves | apps/web/lib/cookies.ts:23-25 | the name holds no "=", and name, "=" and value put back together give the text |
| Cookies.EqOf | apps/web/lib/cookies.ts:23-25 | a name without "=" and any value, "=" included, are split back into themselves |
| Cookies.SameSiteRoundTrip | apps/web/lib/cookies.ts:44-45 | the SameSite value is read case-insensitively, each of lax, strict and none reads back from its name, and nothing else reads as a value |
| Cookies.PriorityRoundTrip | apps/web/lib/cookies.ts:68-69 | the priority is read case-insensitively, each of low, medium and high reads back from its name, and nothing else reads as a priority |
| Cookies.ParseSetCookieHeader | apps/web/lib/cookies.ts:12-100 | the attribute loop gives the reference parse of the header |
| Cookies.NullIffNoParts | apps/web/lib/cookies.ts:21 | the result is null exactly when no non-empty part remains |
| Cookies.NameAndValue | apps/web/lib/cookies.ts:23-25 | the name is the first part up to its first "=", the value all the rest |
| Cookies.CaseInsensitiveNames | apps/web/lib/cookies.ts:32 | attribute names are matched without regard to case |
| Cookies.UnknownIgnored | apps/web/lib/cookies.ts:83-84 | an attribute with none of the nine names changes nothing |
| Cookies.LaterOverwrites | apps/web/lib/cookies.ts:30-86 | a later attribute of the same name that takes replaces the earlier one |
| Cookies.RejectedValueKept | apps/web/lib/cookies.ts:42-73 | SameSite, Max-Age, Expires and Priority keep their earlier setting when the value is empty or refused |
| Cookies.AcceptedValues | apps/web/lib/cookies.ts:42-73 | SameSite is requested only as lax, strict or none, Priority set only as low, medium or high, Max-Age only from a number |
| Cookies.InsecureDowngrade | apps/web/lib/cookies.ts:92-97 | on a plain-HTTP request only `secure` is removed and SameSite none becomes lax; every other option is what a secure request gets |
| Cookies.SecureKeepsAll | apps/web/lib/cookies.ts:88-92 | on a secure request the options are exactly the attributes read, with the requested SameSite |
| ApiClient.IsRefreshUrl | apps/web/lib/api.ts:15-27 | true exactly when the input converts to text containing "/api/v1/auth/refresh"; an input whose conversion throws is not one |
| ApiClient.BaseUrlSettled | apps/web/lib/api.ts:12-13 | the base URL is never empty and fixed under re-reading; it is anything but the default only when the environment set it to that |
| ApiClient.CookieStore.constructor | apps/web/lib/api.ts:35 | the store holds the request's cookies and no write yet |
| ApiClient.CookieStore.Get | apps/web/lib/api.ts:36 | the stored value of the cookie, or none exactly when it is absent |
| ApiClient.CookieStore.Set | apps/web/lib/api.ts:78-97 | a write succeeds and is recorded exactly when the store is writable, and otherwise changes nothing |
| ApiClient.Network.constructor | apps/web/lib/api.ts:55 | the server's answers are fixed and nothing has been sent |
| ApiClient.Network.Fetch | apps/web/lib/api.ts:55 | a fetch returns the server's answer to what was sent and is logged |
| ApiClient.Network.Refresh | apps/web/lib/api.ts:67-72 | a refresh returns the server's answer to the refresh token and is logged |
| ApiClient.APIClient.constructor | apps/web/lib/api.ts:29-34 | the client keeps its settings, cookie store and network |
| ApiClient.APIClient.Fetch | apps/web/lib/api.ts:34-110 | the wrapper returns the reference exchange's result, sends exactly its requests and writes exactly its cookies |
| ApiClient.APIClient.FirstRequest | apps/web/lib/api.ts:35-55 | the first request carries the reference headers with the session's token and is sent once |
| ApiClient.APIClient.AfterFirstResponse | apps/web/lib/api.ts:57-109 | after the first response the wrapper does what the reference exchange does from there |
| ApiClient.APIClient.RetryWith | apps/web/lib/api.ts:74-105 | after a refresh the cookie writes and the one retry are those of the reference exchange |
| ApiClient.RunSteps | apps/web/lib/api.ts:55-61 | a call starts with the first request; a network failure ends it, otherwise the rest of the exchange follows |
| ApiClient.TokenWritesWritten | apps/web/lib/api.ts:78-97 | a refresh writes one or two cookies, each httpOnly, SameSite lax, path "/", no domain and secure exactly in production: the session cookie with the access lifetime and then the refresh cookie with its own; the cookies then hold the new tokens, and a store that refuses keeps them all |
| ApiClient.DeprecatedClientsBehaveAlike | apps/web/lib/api.ts:29-118 | the two deprecated factories answer every request exactly as `createAPIClient` does, and the client's base URL is never empty |
| ApiClient.FirstRequestHeaders | apps/web/lib/api.ts:38-51 | the first request has the Request's headers overlaid by init.headers, plus the bearer token exactly when there is an access cookie, no Authorization header and the target is not the refresh endpoint |
| ApiClient.UnauthenticatedClientSendsToken | apps/web/lib/api.ts:118 | even the unauthenticated client sends the session's bearer token to any target but the refresh endpoint |
| ApiClient.CountsOfShapes | apps/web/lib/api.ts:55-104 | counting requests of one, two or three steps adds up step by step |
| ApiClient.RunShape | apps/web/lib/api.ts:55-109 | the requests of a call are the first fetch, then possibly the refresh, then possibly the retry |
| ApiClient.AtMostOneRetry | apps/web/lib/api.ts:57-105 | a call reaches the target at most twice and the refresh endpoint at most once, the second fetch only after a refresh answered |
| ApiClient.NonRefreshableReturned | apps/web/lib/api.ts:57-61 | a response that is not 401, a request already marked as retried, or a refresh-endpoint target comes back unchanged with nothing else sent |
| ApiClient.RefreshUnavailable | apps/web/lib/api.ts:63-109 | with no refresh cookie, or when the refresh throws, the original 401 comes back and no cookie is written |
| ApiClient.RetryAfterRefresh | apps/web/lib/api.ts:99-109 | the retry carries the new bearer token and the marker over the first headers, its answer is returned whatever its status, and a retry that throws gives the original 401 |
| ApiClient.RefreshedCookies | apps/web/lib/api.ts:75-97 | after a refresh the session cookie is always written and the refresh cookie only with a new refresh token, unless the store refuses |
| Security.UnsafeInlineOnlyInDevelopment | apps/web/lib/security.ts:4-12 | script-src allows 'unsafe-eval' always and 'unsafe-inline' exactly outside production, while style-src allows 'unsafe-inline' always |
| Security.SplitJoinedPieces | apps/web/lib/security.ts:53-55 | splitting pieces joined by "; " on ";" gives back each piece, all but the first with the space after the separator |
| Security.CspHeaderPieces | apps/web/lib/security.ts:51-56 | the header holds one "; "-separated piece per directive in order, the name followed by its sources joined by spaces |
| Security.ReplaceChar | apps/web/lib/security.ts:68-73 | a global replace leaves text without the character alone, and a one-character replacement keeps the length |
| Security.ReplaceConcat | apps/web/lib/security.ts:68-73 | a global replace distributes over concatenation |
| Security.ReplaceAllConcat | apps/web/lib/security.ts:67-73 | the chain of replaces distributes over concatenation |
| Security.ReplaceAllAbsent | apps/web/lib/security.ts:67-73 | replaces of characters the text lacks leave it alone |
| Security.ReplaceAllSingle | apps/web/lib/security.ts:67-73 | on one character the chain applies the first replacement for it, untouched by the later ones |
| Security.ReplaceAllOther | apps/web/lib/security.ts:67-73 | a character no replace names goes through the chain unchanged |
| Security.EscapeChar | apps/web/lib/security.ts:68-73 | a character's escape begins with "&" exactly for the six escaped characters, holds none of < > " ' /, and is the character itself otherwise |
| Security.Escape | apps/web/lib/security.ts:65-74 | the escaped text holds none of < > " ' / |
| Security.NoMarkupIn | apps/web/lib/security.ts:69-73 | text free of the escaped markup holds none of < > " ' / |
| Security.ChainChar | apps/web/lib/security.ts:67-73 | on one character the chain of six replaces gives that character's escape |
| Security.ChainIsEscape | apps/web/lib/security.ts:67-73 | the chain of six replaces is character-by-character escaping: "&" first, so no entity is escaped twice in one pass |
| Security.SanitizeInput | apps/web/lib/security.ts:65-74 | a non-string gives "", a string gives its character-by-character escape |
| Security.PrefixStarts | apps/web/lib/security.ts:68-73 | a text starts with any text put in front of it |
| Security.EscapeIsEntry | apps/web/lib/security.ts:68-73 | an escaped character's escape is its entry in the replacement table |
| Security.EscapedIsSafe | apps/web/lib/security.ts:65-74 | the sanitised text holds none of < > " ' /, and every "&" in it begins one of the six entities |
| Security.PlainUnchanged | apps/web/lib/security.ts:65-74 | text with none of the six characters is left as it is |
| Security.EscapeCons | apps/web/lib/security.ts:65-74 | escaping works on the first character, then the rest |
| Security.EscapeAmp | apps/web/lib/security.ts:68 | "&" escapes to "&amp;" |
| Security.EscapeAmpEntity | apps/web/lib/security.ts:68 | "&amp;" escapes to "&amp;amp;" |
| Security.NotIdempotent | apps/web/lib/security.ts:65-74 | sanitising is not idempotent: "&" gives "&amp;" and then "&amp;amp;" |
| Security.EntityAt | apps/web/lib/security.ts:68-73 | an entity found at the front spans between one character and the whole text |
| Security.NoEntityWithoutAmp | apps/web/lib/security.ts:68-73 | text not starting with "&" starts no entity |
| Security.EntityFound | apps/web/lib/security.ts:68-73 | the first listed entity a text starts with is the one decoded |
| Security.EntitiesDistinct | apps/web/lib/security.ts:68-73 | no entity is a prefix of a text starting with a different one |
| Security.UnescapeChar | apps/web/lib/security.ts:68-73 | decoding a character's escape gives the character back, whatever follows |
| Security.UnescapeEscape | apps/web/lib/security.ts:65-74 | decoding the sanitised text gives the input back |
| Security.RemoveWhitespace | apps/web/lib/security.ts:89 | the ASCII white space `atob` skips is removed, and text without any is kept |
| Security.IsValidJwt | apps/web/lib/security.ts:79-95 | a token passes only when it is a non-empty string of exactly three dot-separated parts each of which `atob` accepts after the base64url mapping |
| Security.FromBase64UrlChars | apps/web/lib/security.ts:88 | mapping "-" and "_" to "+" and "/" turns base64url characters into base64 characters |
| Security.CharsReplaced | apps/web/lib/security.ts:88 | a one-character replace changes exactly the positions holding that character |
| Security.SegmentAccepted | apps/web/lib/security.ts:87-90 | `atob` accepts every unpadded base64url segment after the mapping |
| Security.NoDotIn | apps/web/lib/security.ts:82 | a base64url segment holds no dot |
| Security.SegmentsFormToken | apps/web/lib/security.ts:79-95 | three base64url segments joined by dots always pass |
| WebMiddleware.ResponseHeaders.constructor | apps/web/middleware.ts:9 | a passed-through response starts without headers |
| WebMiddleware.ResponseHeaders.Set | apps/web/middleware.ts:33 | setting a header replaces its value and leaves the others |
| WebMiddleware.Middleware | apps/web/middleware.ts:8-40 | the middleware answers the reference outcome: the login redirect, the flows redirect, or the request passed on with the headers set |
| WebMiddleware.AuthRoutePrefix | apps/web/middleware.ts:13 | the auth routes are exactly the paths starting with "/login" or "/signup", "/login-help" included |
| WebMiddleware.Names | apps/web/middleware.ts:32-34 | the names set by a list of pairs are exactly the pairs' names |
| WebMiddleware.SetAllDistinct | apps/web/middleware.ts:32-34 | setting distinct names in turn gives each its value, adds exactly those names and keeps the rest |
| WebMiddleware.SecurityHeaderNames | apps/web/lib/security.ts:39-45 | the five security header names are distinct and none is Content-Security-Policy |
| WebMiddleware.SetAllThenOne | apps/web/middleware.ts:32-37 | distinct names and then one more give exactly those names with their values |
| WebMiddleware.PassThroughHeaders | apps/web/middleware.ts:31-39 | a passed-through response carries each security header with its value, the Content-Security-Policy, and nothing else |
| WebMiddleware.Cases | apps/web/middleware.ts:8-40 | without a token a protected page redirects to /login?redirect=<path>, with one an auth page redirects to /flows, and all else passes through |
| WebMiddleware.RedirectsUnprotected | apps/web/middleware.ts:18-29 | a redirect carries none of the security headers and no Content-Security-Policy |
| WebMiddleware.DependsOnlyOnPair | apps/web/middleware.ts:13-29 | the decision depends only on whether the path is an auth route and whether there is a token; only the login redirect mentions the path |

## Left out

- Logging everywhere: messages written to loggers are not modelled, only the decisions around them.
- Concurrency and asyncio: coroutines are sequential calls; asyncio timeouts and the checkpoint coordinator's waiting are an oracle answering resumed or not.
- Clocks, UUIDs, randomness, bcrypt and JWT signing: they are parameters (timestamps as integers, ids as given strings, a token as its claim map).
- The database and the ORM: rows are records in class fields; SQL ordering, offsets and limits are written out as functions; commit and refresh are not modelled beyond what they store. Database errors that end in HTTP 500, including registration's, are left out.
- Pydantic validation and serialisation (`model_validate`, `FlowRead`, `UserRead`): reads are the records' own fields.
- JSONResponse bodies, content-length and header-name case: headers are a map from exact names; case-insensitive header lookup is not modelled.
- Case folding is ASCII only (`Text.Lower`); Python's and JavaScript's full Unicode lower-casing is not modelled.
- Python's `repr` and `str` of values are simplified to the text the model needs.
- `urlsplit` is modelled for the parts CORS normalisation looks at (scheme, netloc, path, query, fragment) on ASCII text without control characters: its removal of tab, CR and LF anywhere in the URL and its stripping of leading C0 control characters and spaces are not modelled, and IPv6 brackets and ports are not parsed.
- `str.strip` and `int()`'s white space are modelled for the ASCII white space Python recognises (tab to carriage return, \x1c to \x1f and space); the Unicode spaces such as \x85 and \xa0 are not.
- Json.Value: floats are exact reals, so NaN and the infinities (on which `int()` raises ValueError and OverflowError) and the float text in messages are not modelled.
- Json.PyInt: only ASCII digits are parsed; the other Unicode decimal digits Python's `int()` accepts are refused.
- FlowEngine.TextOr: a truthy field that is not a string (a number, a list, a dictionary) is replaced by the default, where Python's `x or default` keeps it; the step's text fields are used as strings (event text, checkpoint keys).
- FlowEngine.StepName: inherits the TextOr gap: a truthy non-string name or id (`"name": 7`) gives the positional name instead of the value.
- FlowEngine.CheckpointId: inherits the TextOr gap: a truthy non-string id or name keys the checkpoint under the next fallback instead of the value; the checkpoint's reason and expected action likewise.
- FlowEngine.UpdateStatus: only the state machine can refuse a status update; a failure of the run service's own write (`update_run`) is not modelled.
- BuiltinActions.ExtractSpec: a truthy `var` that is not a string is not stored, where `set_variable` would store under it; variables are keyed by strings.
- EventService.KeyOf: a list-valued created_at, which Python orders against other lists, counts as unorderable and raises; the TypeError's message is a fixed text without the two type names.
- LegacyExecutor.ActionDict: an element of a pair list that is a two-key dictionary is refused with a fixed message, because a map keeps no insertion order to say which key comes first; a pair whose key is hashable but not a string (a number, None) is dropped, since no string lookup can find it.
- Config.NormalizeIdempotent: stated only for origin lists whose entries end in no white space, because `urlsplit` keeps trailing spaces that a second pass would strip; `Config.NotIdempotentWhenReaccepted` shows the other case.
- app/constants.py defines no MAX_FLOW_LIST_LIMIT, which services/flow/repository.py imports; the bound is taken as 200, the maximum the flow service documents.
- Email uniqueness of users is enforced by the database in the source; the model looks users up by the first match.
- Claims that are not strings are not modelled: claims are text.
- AuthRouter.Login: models the intended web branch. As written, routers/auth.py:134 reads `settings.cookie_max_age`, which Settings (config.py:65-213) does not declare, so every web login raises AttributeError (a 500) before any cookie is set; `CookieSettings.maxAge` stands for that undeclared setting. `AuthRouter.WebLoginRaisesAsWritten` shows the as-written branch (see Findings).
- AuthRouter.Login: routers/auth.py:15-22 imports `WebLoginResponse` and `WebLoginUser`, which utils/auth.py does not define, so as written the router module fails to import; the model takes them as the message, e-mail and role the endpoint builds.
- AuthRouter.CookieLifetimes: the max age rests on the undeclared `cookie_max_age` and on `expires_in` and `refresh_expires_in`, which utils/auth.py's `Token` (lines 62-67) does not declare and pydantic drops, so the lifetimes exist only in the intended login; `AuthRouter.MaxAgeAloneStillRaises` shows the second gap.
- AuthRouter.WebLoginCookieRefreshes: describes the refresh cookie of the intended web login; as written no web login sets it.
- ApiClient.APIClient.Fetch: the refresh answer's `expires_in` and `refresh_expires_in` are given; the worker's `/auth/refresh` (routers/auth.py:153, `response_model=Token`) serves neither, since `Token` does not declare them.
- The retry decorator's delays, exponential backoff and jitter, and its logging, are not modelled; only attempts, sleeps and the result are.
- The exception hierarchy is a set of class names per exception; `isinstance` is membership.
- `sanitize_filename` works on Unicode scalar values: lone surrogates, on which Python's `encode("utf-8")` raises, are not modelled.
- The Steel adapters' logging, the per-call answers of the provider (given as functions of the call), and the legacy adapter's placeholder actions are modelled as they are; the Steel.dev HTTP API itself is not.
- `Number()` and `new Date()` in `parseSetCookieHeader` are parameters; strings are sequences of code points rather than JavaScript's UTF-16 units.
- Cookies.ParseSetCookieHeader: the `toNumber` parameter answers a real or nothing, so it cannot give `Number("Infinity")`, which passes the `!Number.isNaN` test (cookies.ts:52-53) and would be stored as the max age.
- The fetch wrapper's other `RequestInit` fields, duplicate-header combining and `Headers` normalisation are not modelled; an empty refresh token counts as none.
- apps/web/lib/constants.ts is not part of this model: the cookie names are parameters of the client.
- `generateCSRFToken` is left out: it only draws random bytes.
- `atob`'s output is not modelled, only whether it accepts its input.
- The middleware's redirect URL is kept as a path and query pairs; its serialisation and the `matcher` configuration of middleware.ts (lines 42-54) are left out.
- The engine's status updates go through `update_run` (flow_engine.py:208-211). The runner's `StatusSet` effects record the status writes it intends. As written, runner.py:61, 72, 81, 154 and 175 call `update_run_status`, which the RunService it imports (services/run/service.py) does not have; the older services/run_service.py:112 has one, but without the `error` keyword line 81 passes. `Runner.EveryRunRaisesAsWritten` shows the as-written run (see Findings); `resume_flow` as written raises at line 175 with nothing changed.
- FlowEngine.Cleanup: cannot raise. As written, `_cleanup` (flow_engine.py:184-206) catches only TimeoutError, so an error from `agent.stop()` or from `close_session` (a RetryError after three failed releases) escapes `run`.
- FlowEngine.Engine.CleanupRun: cannot raise, for the same reason as `FlowEngine.Cleanup`.
- Runner.Cleanup: cannot raise. As written, the finally clause (runner.py:85-99) catches only TimeoutError, so an error of `agent.stop()` or `close_session` escapes `execute_flow`.
- SteelSessions.Provider.ReleaseSession: answers only whether the release was confirmed. `release_session` carries `retry_network_operation(max_attempts=3)` (services/steel_service.py:46), so network failures end in a RetryError; the model has none.
- SteelAdapter.SteelBrowserAdapter.CloseSession: cannot raise, because the release cannot; as written the RetryError of `release_session` leaves `close_session` (runtime/adapters/steel.py:99).
- SteelLegacy.SteelBrowserAdapter.CloseSession: cannot raise, for the same reason; as written the RetryError leaves at runtime/steel.py:108.
- AuthService.CreateUserTokens: the model's `Token` keeps the lifetimes and expiry times the service passes (services/auth/service.py:122-129). utils/auth.py:62-67 declares only access_token, refresh_token and token_type, and pydantic drops the other keywords, so the mobile login body (`AuthRouter.LoginBody.TokenBody`) and the `/auth/refresh` answer (`AuthRouter.RefreshAccessToken`) carry only those three fields as written.
- RunService.RunStore.CreateRunRecordWithUser: the pending progress message is always sent. `_emit_progress_safe` (services/run/service.py:260-265) swallows only ConnectionError, TimeoutError, OSError and ValueError, so any other error of `emit_progress` escapes after the run is stored; the model has no such failure.
- RunService.RunStore.HandleSessionCreationFailure: the failed progress message is always sent; as for `CreateRunRecordWithUser`, an error of another class escapes `_emit_progress_safe` after the run is marked failed.
- RunService.ValidateFlowAccess: services/run/service.py:21-27 imports FlowAccessDeniedError and InvalidFlowError from services/run/errors.py, which defines only RunError, SessionCreationFailedError, MissingSessionURLError and RunNotFoundError. As written the import fails, and so does every module importing the run service (runtime/engine/flow_engine.py:39, runtime/runner.py:19, runtime/scheduler.py:18, utils/run.py:12). The model takes the two errors and their messages from services/flow/errors.py.
- SteelSessions.Provider.GetSessionInfo: the lookup's answer is given and may succeed. services/steel_service.py defines no `get_session_info`, so as written the call at runtime/adapters/steel.py:72 always raises AttributeError, which the adapter catches; the model over-approximates that.
- runtime/runner.py's event emitter has no event service: its events are recorded and its failures are swallowed.
- The event service's `get_run_events` and `delete_run_events` are not modelled.
- The flow registry's `validate_manifest` is pydantic construction of a manifest and is left out; file reading and YAML parsing give the registry one parameter per file, the manifest or nothing when the file does not load.
- The `/auth/me` and `get_all_users` endpoints are pass-throughs to the service and have no rows of their own.
- apps/worker/app/models.py's `EventType` is an older list than the emitters use; the model uses the emitters' event types.
- The flow service's docstring says users see only their own flows; the repository also shows public flows and lookup admits them, and the model follows the code.

## Findings

| source | as written | input that shows it | evidently intended | confidence | as-written member | corrected member |
|---|---|---|---|---|---|---|
| apps/worker/app/runtime/events.py:203-209 | this emitter, and its copy at apps/worker/app/runtime/engine/events.py lines 189-195, call `create_event(..., session=...)`, but `create_event` (services/event/service.py:28-34) takes only run_id, event_type, message and payload, so the call raises TypeError: the runtime emitter swallows it and never stores an event, the engine emitter raises, so every engine run fails at its run-started event before any step and the failure event raises again | any emitted event with an event service present | `create_event` called with run_id, event_type, the redacted message and the redacted payload | not executed | EventService.SessionKeywordRejected, FlowEngine.EveryRunFailsWhenEmissionsRaise | RuntimeEvents.EventEmitter.EmitEvent, EngineEvents.EventEmitter.EmitEvent |
| apps/worker/app/routers/auth.py:134 | the web branch reads `settings.cookie_max_age`, which Settings (config.py) does not declare, and falls back on `tokens.expires_in` and `tokens.refresh_expires_in`, which utils/auth.py's `Token` does not declare either, so the first `set_cookie` raises AttributeError and the login answers 500 without setting a cookie | any login without an `X-Client-Type: mobile` header | a `cookie_max_age` setting (unset meaning the token lifetimes) and a `Token` keeping both lifetimes, so that the two HttpOnly cookies are set | not executed | AuthRouter.WebCookiesAsWritten, AuthRouter.WebLoginRaisesAsWritten | AuthRouter.Login, AuthRouter.ExpectedGivesLoginCookies |
| apps/worker/app/runtime/runner.py:61 | `execute_flow` calls `update_run_status`, which the imported RunService (services/run/service.py) does not have; the except clause's call at line 81 raises the same AttributeError, so no failure is recorded or announced, and that error escapes after cleanup; no step ever runs | any run | each status write made through the run service, as the flow engine does with `update_run` | not executed | Runner.ExecuteFlowAsWritten, Runner.EveryRunRaisesAsWritten | Runner.ExecuteFlowSpec, Runner.IntendedRunRecordsStatus |
