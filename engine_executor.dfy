// The engine's action executor: it lowers the action type, runs the before
// hooks, builds the command through the registry and runs it, and then always
// runs the after hooks with the command's error before letting that error
// propagate.
module EngineExecutor {
  import opened Wrappers
  import opened Json
  import opened Context
  import opened ActionRegistry
  import opened BrowserAgent
  import opened Middleware
  import Steps
  import BuiltinActions
  import Text

  /** The executor's fixed chain, in the order its constructor adds them. */
  const DefaultChain := [EventMiddleware, LoggingMiddleware, ErrorScreenshotMiddleware]

  /** The outside world of one action step: the hooks' and the command's. */
  datatype World = World(hooks: Hooks, action: BrowserAgent.World)

  /** The effects of a step in order, the context variables after it, and the exception it raised, if any. */
  datatype Report = Report(effects: seq<Effect>, variables: Dict, error: Option<string>)

  /** The command's own effects, placed between the hooks. */
  function Calls(es: seq<AgentEffect>): (r: seq<Effect>)
    ensures |r| == |es| && forall k :: 0 <= k < |r| ==> r[k] == ActionCall(es[k])
  {
    seq(|es|, k requires 0 <= k < |es| => ActionCall(es[k]))
  }

  /** The command the registry builds, run against the variables; an unknown type raises from the registry. */
  function CommandSpec(factories: map<string, Kind>, actionType: string, params: Dict, variables: Dict, w: BrowserAgent.World): (r: Outcome)
    ensures Key(actionType) !in factories ==> r == Outcome([], variables, Some(UnknownAction(Key(actionType))))
    ensures Key(actionType) in factories ==>
      r == BuiltinActions.ExecuteSpec(Action(factories[Key(actionType)], params), variables, w)
  {
    match Lookup(factories, actionType, params)
    case Err(e) => Outcome([], variables, Some(e))
    case Ok(a) => BuiltinActions.ExecuteSpec(a, variables, w)
  }

  /** A command never loses a variable, only an extract command changes them, an unknown type changes nothing and calls nothing, and the type's case plays no part. */
  lemma CommandKeepsVariables(factories: map<string, Kind>, actionType: string, params: Dict, variables: Dict, w: BrowserAgent.World)
    ensures variables.Keys <= CommandSpec(factories, actionType, params, variables, w).variables.Keys
    ensures CommandSpec(factories, actionType, params, variables, w).variables != variables ==>
      Key(actionType) in factories && factories[Key(actionType)] == ExtractAction
    ensures CommandSpec(factories, actionType, params, variables, w).error.None? ==> Key(actionType) in factories
    ensures CommandSpec(factories, Text.Lower(actionType), params, variables, w) == CommandSpec(factories, actionType, params, variables, w)
  {
    Text.LowerIdempotent(actionType);
  }

  /** `execute_action` of one action step through a chain `ms`, at context step `index`. */
  function ExecuteSpec(ms: seq<Middleware>, factories: map<string, Kind>, params: Dict, stepName: string,
                       index: int, variables: Dict, w: World): Report
  {
    match Steps.StepType(params)
    case Err(e) => Report([], variables, Some(e))
    case Ok(t) =>
      var x := Execution(t, stepName, index);
      var before := Chain(ms, BeforeAction, x, w.hooks);
      if before.error.Some? then Report(before.effects, variables, before.error)
      else
        var a := CommandSpec(factories, t, params, variables, w.action);
        var after := Chain(ms, AfterAction(a.error), x, w.hooks);
        Report(before.effects + Calls(a.effects) + after.effects, a.variables,
               if after.error.Some? then after.error else a.error)
  }

  class ActionExecutor {
    const chain: MiddlewareChain

    constructor ()
      ensures fresh(chain) && chain.middlewares == DefaultChain
    {
      var c := new MiddlewareChain();
      c.Add(EventMiddleware);
      c.Add(LoggingMiddleware);
      c.Add(ErrorScreenshotMiddleware);
      chain := c;
    }

    /** Runs one action step; the registry is read, the context's variables change as the command says. */
    method ExecuteAction(ctx: RunContext, step: Steps.Step, stepName: string, registry: Registry, w: World)
      returns (effects: seq<Effect>, error: Option<string>)
      requires step.ActionStep?
      modifies ctx
      ensures Report(effects, ctx.variables, error) ==
        ExecuteSpec(chain.middlewares, registry.factories, step.action, stepName, old(ctx.currentStep), old(ctx.variables), w)
      ensures ctx.checkpoints == old(ctx.checkpoints) && ctx.currentStep == old(ctx.currentStep)
      ensures ctx.inputPayload == old(ctx.inputPayload) && ctx.manifest == old(ctx.manifest)
      ensures ctx.runId == old(ctx.runId) && ctx.flowId == old(ctx.flowId) && ctx.userId == old(ctx.userId)
    {
      var params := step.action;
      var t := Steps.StepType(params);
      if t.Err? {
        return [], Some(t.error);
      }
      var x := Execution(t.value, stepName, ctx.currentStep);
      var beforeEffects, beforeError := chain.RunBefore(x, w.hooks);
      if beforeError.Some? {
        return beforeEffects, beforeError;
      }
      var command := registry.Create(t.value, params);
      var calls: seq<AgentEffect>, actionError: Option<string>;
      if command.Err? {
        calls, actionError := [], Some(command.error);
      } else {
        calls, actionError := BuiltinActions.Execute(command.value, ctx, w.action);
      }
      var afterEffects, afterError := chain.RunAfter(x, actionError, w.hooks);
      effects := beforeEffects + Calls(calls) + afterEffects;
      error := if afterError.Some? then afterError else actionError;
    }
  }

  /** The after hooks of the executor's chain: the end event, then (unless that emission raised) the log line and, after a failure, the error screenshot. */
  lemma DefaultAfter(x: Execution, e: Option<string>, h: Hooks)
    ensures var r := Chain(DefaultChain, AfterAction(e), x, h);
      && (h.endError.Some? ==> r == HookResult([EndEvent(x, e)], h.endError))
      && (h.endError.None? ==> r.error.None?)
      && (h.endError.None? ==>
            r.effects == [EndEvent(x, e), ActionEndLogged(x.actionType, Status(e), x.index)]
                         + (if e.Some? then ErrorShot(x, h) else []))
  {
    assert DefaultChain == [] + [EventMiddleware] + [LoggingMiddleware] + [ErrorScreenshotMiddleware];
    ChainAppend([], EventMiddleware, AfterAction(e), x, h);
    ChainAppend([EventMiddleware], LoggingMiddleware, AfterAction(e), x, h);
    ChainAppend([EventMiddleware, LoggingMiddleware], ErrorScreenshotMiddleware, AfterAction(e), x, h);
  }

  /** The before hooks of the executor's chain: the start event, then (unless it raised) the log line. */
  lemma DefaultBefore(x: Execution, h: Hooks)
    ensures var r := Chain(DefaultChain, BeforeAction, x, h);
      && (h.startError.Some? ==> r == HookResult([StepStartedEvent(x.stepName, x.index)], h.startError))
      && (h.startError.None? ==> r == HookResult([StepStartedEvent(x.stepName, x.index), ActionStartLogged(x.actionType, x.index)], None))
  {
    assert DefaultChain == [] + [EventMiddleware] + [LoggingMiddleware] + [ErrorScreenshotMiddleware];
    ChainAppend([], EventMiddleware, BeforeAction, x, h);
    ChainAppend([EventMiddleware], LoggingMiddleware, BeforeAction, x, h);
    ChainAppend([EventMiddleware, LoggingMiddleware], ErrorScreenshotMiddleware, BeforeAction, x, h);
  }

  /** Once the before hooks succeed, the after hooks run exactly once around the command, get its error, and the command's error propagates unless an after hook raised. */
  lemma AfterHooksRunOnce(factories: map<string, Kind>, params: Dict, stepName: string, index: int, variables: Dict, w: World)
    requires Steps.StepType(params).Ok? && w.hooks.startError.None?
    ensures var t := Steps.StepType(params).value;
      var x := Execution(t, stepName, index);
      var a := CommandSpec(factories, t, params, variables, w.action);
      var r := ExecuteSpec(DefaultChain, factories, params, stepName, index, variables, w);
      && r.effects == [StepStartedEvent(stepName, index), ActionStartLogged(t, index)] + Calls(a.effects)
                      + Chain(DefaultChain, AfterAction(a.error), x, w.hooks).effects
      && Chain(DefaultChain, AfterAction(a.error), x, w.hooks).effects[0] == EndEvent(x, a.error)
      && r.variables == a.variables
      && r.error == (if w.hooks.endError.Some? then w.hooks.endError else a.error)
  {
    var t := Steps.StepType(params).value;
    var x := Execution(t, stepName, index);
    DefaultBefore(x, w.hooks);
    DefaultAfter(x, CommandSpec(factories, t, params, variables, w.action).error, w.hooks);
  }

  /** An unregistered type raises from the registry after the before hooks; the after hooks report that error, and it propagates. */
  lemma UnknownTypePropagates(factories: map<string, Kind>, params: Dict, stepName: string, index: int, variables: Dict, w: World)
    requires Steps.StepType(params).Ok? && Key(Steps.StepType(params).value) !in factories
    requires w.hooks.startError.None? && w.hooks.endError.None?
    ensures var e := UnknownAction(Key(Steps.StepType(params).value));
      var r := ExecuteSpec(DefaultChain, factories, params, stepName, index, variables, w);
      && r.error == Some(e) && r.variables == variables
      && StepFailedEvent(stepName, index, e) in r.effects
  {
    var t := Steps.StepType(params).value;
    var x := Execution(t, stepName, index);
    var e := UnknownAction(Key(t));
    AfterHooksRunOnce(factories, params, stepName, index, variables, w);
    DefaultAfter(x, Some(e), w.hooks);
    var r := ExecuteSpec(DefaultChain, factories, params, stepName, index, variables, w);
    assert r.effects[2] == StepFailedEvent(stepName, index, e);
  }

  /** A type that cannot be lowered raises before any hook; a before hook that raises stops the step before the command and the after hooks. */
  lemma EarlyFailures(factories: map<string, Kind>, params: Dict, stepName: string, index: int, variables: Dict, w: World)
    ensures var r := ExecuteSpec(DefaultChain, factories, params, stepName, index, variables, w);
      && (Steps.StepType(params).Err? ==> r == Report([], variables, Some(Steps.StepType(params).error)))
      && (Steps.StepType(params).Ok? && w.hooks.startError.Some? ==>
            r == Report([StepStartedEvent(stepName, index)], variables, w.hooks.startError))
  {
    if Steps.StepType(params).Ok? {
      DefaultBefore(Execution(Steps.StepType(params).value, stepName, index), w.hooks);
    }
  }
}
