// The executor middlewares and the chain that calls them in insertion order.
// A middleware acts only by emitting events, logging, or asking the agent for
// a screenshot; all of it is recorded as effects.
module Middleware {
  import opened Wrappers
  import opened Text
  import opened BrowserAgent

  datatype Middleware = EventMiddleware | LoggingMiddleware | ErrorScreenshotMiddleware

  /** What the hooks see of a step: the lowered action type, the step's name, and the context's current step. */
  datatype Execution = Execution(actionType: string, stepName: string, index: int)

  /** The two hook points; the after hook receives the action's error, if any. */
  datatype Phase = BeforeAction | AfterAction(error: Option<string>)

  /** Everything the hooks and the action leave behind, in order. */
  datatype Effect =
    | StepStartedEvent(name: string, index: int)
    | StepCompletedEvent(name: string, index: int)
    | StepFailedEvent(name: string, index: int, error: string)
    | ActionStartLogged(actionType: string, index: int)
    | ActionEndLogged(actionType: string, status: string, index: int)
    | ErrorScreenshot(name: string)
    | ErrorScreenshotTaken(name: string, reference: string)
    | ActionCall(call: AgentEffect)

  /** The outside world of the hooks: whether emitting the start or the end event raises, whether the agent's screenshot or its event raises, and the screenshot's reference. */
  datatype Hooks = Hooks(startError: Option<string>, endError: Option<string>,
                         shotError: Option<string>, shotEventError: Option<string>, reference: string)

  datatype HookResult = HookResult(effects: seq<Effect>, error: Option<string>)

  const ErrorShotPrefix := "error_step_"
  const StatusOk := "ok"
  const StatusError := "error"

  /** The screenshot's name for a failing step. */
  function ErrorShotName(index: int): string
  {
    ErrorShotPrefix + IntToString(index)
  }

  /** The event the event middleware emits after the action. */
  function EndEvent(x: Execution, error: Option<string>): Effect
  {
    if error.None? then StepCompletedEvent(x.stepName, x.index)
    else StepFailedEvent(x.stepName, x.index, error.value)
  }

  /** The status the logging middleware reports: error exactly when the action raised. */
  function Status(error: Option<string>): string
  {
    if error.Some? then StatusError else StatusOk
  }

  /** The error screenshot: the agent call and, once it answered, the event; either failure is swallowed. */
  function ErrorShot(x: Execution, h: Hooks): seq<Effect>
  {
    var name := ErrorShotName(x.index);
    if h.shotError.Some? then [ErrorScreenshot(name)]
    else [ErrorScreenshot(name), ErrorScreenshotTaken(name, h.reference)]
  }

  /** One middleware's hook. */
  function Hook(m: Middleware, p: Phase, x: Execution, h: Hooks): HookResult
  {
    match (m, p)
    case (EventMiddleware, BeforeAction) => HookResult([StepStartedEvent(x.stepName, x.index)], h.startError)
    case (EventMiddleware, AfterAction(e)) => HookResult([EndEvent(x, e)], h.endError)
    case (LoggingMiddleware, BeforeAction) => HookResult([ActionStartLogged(x.actionType, x.index)], None)
    case (LoggingMiddleware, AfterAction(e)) => HookResult([ActionEndLogged(x.actionType, Status(e), x.index)], None)
    case (ErrorScreenshotMiddleware, BeforeAction) => HookResult([], None)
    case (ErrorScreenshotMiddleware, AfterAction(e)) => HookResult(if e.None? then [] else ErrorShot(x, h), None)
  }

  /** Effects already recorded, followed by a result. */
  function Then(pre: seq<Effect>, r: HookResult): HookResult
  {
    HookResult(pre + r.effects, r.error)
  }

  /** The hooks of `ms[i..]` in order, stopping at the first one that raises. */
  function ChainFrom(ms: seq<Middleware>, i: nat, p: Phase, x: Execution, h: Hooks): HookResult
    requires i <= |ms|
    decreases |ms| - i
  {
    if i == |ms| then HookResult([], None)
    else
      var r := Hook(ms[i], p, x, h);
      if r.error.Some? then r else Then(r.effects, ChainFrom(ms, i + 1, p, x, h))
  }

  function Chain(ms: seq<Middleware>, p: Phase, x: Execution, h: Hooks): HookResult
  {
    ChainFrom(ms, 0, p, x, h)
  }

  class MiddlewareChain {
    var middlewares: seq<Middleware>

    constructor ()
      ensures middlewares == []
    {
      middlewares := [];
    }

    method Add(m: Middleware)
      modifies this
      ensures middlewares == old(middlewares) + [m]
    {
      middlewares := middlewares + [m];
    }

    /** `run_before`: every middleware's before hook, in insertion order. */
    method RunBefore(x: Execution, h: Hooks) returns (effects: seq<Effect>, error: Option<string>)
      ensures HookResult(effects, error) == Chain(middlewares, BeforeAction, x, h)
    {
      effects, error := RunHooks(BeforeAction, x, h);
    }

    /** `run_after`: every middleware's after hook, in insertion order, given the action's error. */
    method RunAfter(x: Execution, actionError: Option<string>, h: Hooks) returns (effects: seq<Effect>, error: Option<string>)
      ensures HookResult(effects, error) == Chain(middlewares, AfterAction(actionError), x, h)
    {
      effects, error := RunHooks(AfterAction(actionError), x, h);
    }

    /** The loop both hook points share; a hook that raises ends it. */
    method RunHooks(p: Phase, x: Execution, h: Hooks) returns (effects: seq<Effect>, error: Option<string>)
      ensures HookResult(effects, error) == Chain(middlewares, p, x, h)
    {
      effects := [];
      var i := 0;
      while i < |middlewares|
        invariant 0 <= i <= |middlewares|
        invariant Then(effects, ChainFrom(middlewares, i, p, x, h)) == Chain(middlewares, p, x, h)
      {
        var r := Hook(middlewares[i], p, x, h);
        if r.error.Some? {
          return effects + r.effects, r.error;
        }
        assert effects + (r.effects + ChainFrom(middlewares, i + 1, p, x, h).effects)
            == (effects + r.effects) + ChainFrom(middlewares, i + 1, p, x, h).effects;
        effects := effects + r.effects;
        i := i + 1;
      }
      error := None;
    }
  }

  /** A middleware added last runs after all earlier ones, and only if none of them raised. */
  lemma {:induction false} ChainAppend(ms: seq<Middleware>, m: Middleware, p: Phase, x: Execution, h: Hooks)
    ensures var r := Chain(ms, p, x, h);
      Chain(ms + [m], p, x, h) == if r.error.Some? then r else Then(r.effects, Hook(m, p, x, h))
  {
    ChainFromAppend(ms, m, 0, p, x, h);
  }

  lemma {:induction false} ChainFromAppend(ms: seq<Middleware>, m: Middleware, i: nat, p: Phase, x: Execution, h: Hooks)
    requires i <= |ms|
    ensures var r := ChainFrom(ms, i, p, x, h);
      ChainFrom(ms + [m], i, p, x, h) == if r.error.Some? then r else Then(r.effects, Hook(m, p, x, h))
    decreases |ms| - i
  {
    if i == |ms| {
      ChainFromAppendEnd(ms, m, p, x, h);
    } else {
      ChainFromAppend(ms, m, i + 1, p, x, h);
      ChainFromAppendStep(ms, m, i, p, x, h);
    }
  }

  lemma ChainFromAppendEnd(ms: seq<Middleware>, m: Middleware, p: Phase, x: Execution, h: Hooks)
    ensures var r := ChainFrom(ms, |ms|, p, x, h);
      ChainFrom(ms + [m], |ms|, p, x, h) == if r.error.Some? then r else Then(r.effects, Hook(m, p, x, h))
  {
    var i := |ms|;
    assert ChainFrom(ms + [m], i + 1, p, x, h) == HookResult([], None);
    assert (ms + [m])[i] == m;
    assert Hook(m, p, x, h).effects + [] == Hook(m, p, x, h).effects;
  }

  lemma ChainFromAppendStep(ms: seq<Middleware>, m: Middleware, i: nat, p: Phase, x: Execution, h: Hooks)
    requires i < |ms|
    requires var r := ChainFrom(ms, i + 1, p, x, h);
      ChainFrom(ms + [m], i + 1, p, x, h) == if r.error.Some? then r else Then(r.effects, Hook(m, p, x, h))
    ensures var r := ChainFrom(ms, i, p, x, h);
      ChainFrom(ms + [m], i, p, x, h) == if r.error.Some? then r else Then(r.effects, Hook(m, p, x, h))
  {
    var ms2 := ms + [m];
    assert ms2[i] == ms[i];
    var r := Hook(ms[i], p, x, h);
    var rest, rest2 := ChainFrom(ms, i + 1, p, x, h), ChainFrom(ms2, i + 1, p, x, h);
    var hm := Hook(m, p, x, h);
    assert ChainFrom(ms, i, p, x, h) == if r.error.Some? then r else Then(r.effects, rest);
    assert ChainFrom(ms2, i, p, x, h) == if r.error.Some? then r else Then(r.effects, rest2);
    if r.error.None? && rest.error.None? {
      assert rest2 == Then(rest.effects, hm);
      assert r.effects + (rest.effects + hm.effects) == (r.effects + rest.effects) + hm.effects;
    }
  }

  /** The event middleware emits step_started before the action, and after it exactly one of step_completed or step_failed carrying the error. */
  lemma EventHooks(x: Execution, e: Option<string>, h: Hooks)
    ensures Hook(EventMiddleware, BeforeAction, x, h).effects == [StepStartedEvent(x.stepName, x.index)]
    ensures var r := Hook(EventMiddleware, AfterAction(e), x, h);
      && |r.effects| == 1
      && (r.effects[0].StepCompletedEvent? <==> e.None?)
      && (r.effects[0].StepFailedEvent? <==> e.Some?)
      && (e.Some? ==> r.effects[0].error == e.value)
  {
  }

  /** The logging middleware reports status "error" exactly when the action raised, and never raises. */
  lemma LoggingStatus(x: Execution, e: Option<string>, h: Hooks)
    ensures var r := Hook(LoggingMiddleware, AfterAction(e), x, h);
      && r.error.None? && |r.effects| == 1 && r.effects[0].ActionEndLogged?
      && (r.effects[0].status == StatusError <==> e.Some?)
  {
  }

  /** The screenshot middleware does nothing before the action or after a success; after a failure it asks for "error_step_<n>" and swallows every failure. */
  lemma ErrorScreenshotHooks(x: Execution, p: Phase, h: Hooks)
    ensures Hook(ErrorScreenshotMiddleware, p, x, h).error.None?
    ensures Hook(ErrorScreenshotMiddleware, p, x, h).effects != [] <==> p.AfterAction? && p.error.Some?
    ensures p.AfterAction? && p.error.Some? ==>
      Hook(ErrorScreenshotMiddleware, p, x, h).effects[0] == ErrorScreenshot(ErrorShotPrefix + IntToString(x.index))
  {
  }

  /** Only the event middleware can raise, so a chain without it always runs to the end. */
  lemma {:induction false} OnlyEventsRaise(ms: seq<Middleware>, i: nat, p: Phase, x: Execution, h: Hooks)
    requires i <= |ms|
    requires forall k :: i <= k < |ms| ==> ms[k] != EventMiddleware
    ensures ChainFrom(ms, i, p, x, h).error.None?
    decreases |ms| - i
  {
    if i < |ms| {
      OnlyEventsRaise(ms, i + 1, p, x, h);
    }
  }
}
