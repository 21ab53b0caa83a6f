// The legacy action executor: a direct dispatch on the lower-cased action
// type to seven handlers, each checking its parameters and calling the
// browser agent. Its event emitter swallows its own failures.
module LegacyExecutor {
  import opened Wrappers
  import opened Text
  import opened Json
  import opened Context
  import opened BrowserAgent
  import ActionBase
  import ActionRegistry
  import BuiltinActions
  import Steps

  const OpenUrlType := "open_url"
  const NavigateType := "navigate"
  const ClickType := "click"
  const TypeType := "type"
  const WaitForType := "wait_for"
  const ExtractType := "extract"
  const ScreenshotType := "screenshot"
  const LogType := "log"

  /** The seven types the dispatcher handles. */
  const Dispatched := {OpenUrlType, ClickType, TypeType, WaitForType, ExtractType, ScreenshotType, LogType}

  const UnknownPrefix := "Unknown action type: "
  const EmptyName := "<empty>"
  const PairElementPrefix := "dictionary update sequence element #"
  const PairLengthInfix := " has length "
  const PairLengthSuffix := "; 2 is required"
  const NotSequencePrefix := "cannot convert dictionary update sequence element #"
  const NotSequenceSuffix := " to a sequence"
  const UnhashablePrefix := "unhashable type: '"
  const PairOrderUnknown := "a two-key dictionary element has no pair order in this model"
  const DefaultLevel := "info"

  function UnknownType(t: string): string
  {
    UnknownPrefix + (if t == "" then EmptyName else t)
  }

  function PairLengthError(i: nat, n: nat): string
  {
    PairElementPrefix + NatToString(i) + PairLengthInfix + NatToString(n) + PairLengthSuffix
  }

  /** Element i of the sequence `dict()` reads as a key-value pair: a string of two characters, or a list or dictionary of two items. A key that is hashable but not a string is kept as None: no string lookup can find it. */
  function PairOf(x: Value, i: nat): (r: Result<(Option<string>, Value), string>)
    ensures x.Str? && |x.s| == 2 ==> r == Ok((Some([x.s[0]]), Str([x.s[1]])))
    ensures x.Arr? && |x.items| == 2 && x.items[0].Str? ==> r == Ok((Some(x.items[0].s), x.items[1]))
    ensures (x.Null? || x.Bool? || x.Num? || x.Float?) ==> r == Err(NotSequencePrefix + NatToString(i) + NotSequenceSuffix)
  {
    match x
    case Str(s) => if |s| == 2 then Ok((Some([s[0]]), Str([s[1]]))) else Err(PairLengthError(i, |s|))
    case Arr(ys) =>
      if |ys| != 2 then Err(PairLengthError(i, |ys|))
      else if ys[0].Str? then Ok((Some(ys[0].s), ys[1]))
      else if ys[0].Arr? || ys[0].Obj? then Err(UnhashablePrefix + TypeName(ys[0]) + "'")
      else Ok((None, ys[1]))
    case Obj(f) => if |f| != 2 then Err(PairLengthError(i, |f|)) else Err(PairOrderUnknown)
    case _ => Err(NotSequencePrefix + NatToString(i) + NotSequenceSuffix)
  }

  /** The pairs from position i on, each written over the dictionary built so far; the first bad element raises. */
  function PairsToDict(xs: seq<Value>, acc: Dict, i: nat): (r: Result<Dict, string>)
    requires i <= |xs|
    ensures r.Ok? ==> acc.Keys <= r.value.Keys
    decreases |xs| - i
  {
    if i == |xs| then Ok(acc)
    else match PairOf(xs[i], i)
      case Err(e) => Err(e)
      case Ok(kv) => PairsToDict(xs, if kv.0.Some? then acc[kv.0.value := kv.1] else acc, i + 1)
  }

  /** `dict(step.get("action", {}))`: a dictionary is copied, a list is read as key-value pairs, and a string as a sequence of one-character elements, none of which is a pair. */
  function ActionDict(step: Dict): (r: Result<Dict, string>)
    ensures "action" !in step ==> r == Ok(map[])
    ensures "action" in step && step["action"].Obj? ==> r == Ok(step["action"].fields)
    ensures "action" in step && step["action"].Str? ==> (r.Ok? <==> step["action"].s == [])
    ensures "action" in step && step["action"].Arr? ==> r == PairsToDict(step["action"].items, map[], 0)
  {
    match GetOr(step, "action", Obj(map[]))
    case Obj(f) => Ok(f)
    case Arr(xs) => PairsToDict(xs, map[], 0)
    case Str(s) => if s == [] then Ok(map[]) else Err(PairLengthError(0, 1))
    case other => Err("'" + TypeName(other) + Steps.NotIterableSuffix)
  }

  /** The first element that is not a pair decides the error, whatever follows it. */
  lemma {:induction false} FirstBadElementRaises(xs: seq<Value>, acc: Dict, i: nat, j: nat)
    requires i <= j < |xs|
    requires forall k :: i <= k < j ==> PairOf(xs[k], k).Ok?
    requires PairOf(xs[j], j).Err?
    ensures PairsToDict(xs, acc, i) == Err(PairOf(xs[j], j).error)
    decreases j - i
  {
    if i < j {
      var kv := PairOf(xs[i], i).value;
      FirstBadElementRaises(xs, if kv.0.Some? then acc[kv.0.value := kv.1] else acc, i + 1, j);
    }
  }

  /** A later pair overrides an earlier one with the same key: the last pair for a key decides its value. */
  lemma {:induction false} LastPairWins(xs: seq<Value>, acc: Dict, i: nat, k: string, v: Value)
    requires i <= |xs| && PairsToDict(xs, acc, i).Ok?
    requires xs != [] && i < |xs| && xs[|xs| - 1] == Arr([Str(k), v])
    ensures k in PairsToDict(xs, acc, i).value && PairsToDict(xs, acc, i).value[k] == v
    decreases |xs| - i
  {
    var kv := PairOf(xs[i], i).value;
    var acc1 := if kv.0.Some? then acc[kv.0.value := kv.1] else acc;
    if i + 1 < |xs| {
      LastPairWins(xs, acc1, i + 1, k, v);
    }
  }

  /** _require: a missing key, None and "" are all rejected. */
  function LegacyRequire(d: Dict, key: string): (r: Result<Value, string>)
    ensures r.Ok? <==> key in d && d[key] != Null && d[key] != Str("")
    ensures r.Ok? ==> r.value == d[key]
    ensures r.Err? ==> r.error == ActionBase.MissingParam(key)
  {
    if key !in d || d[key] == Null || d[key] == Str("") then Err(ActionBase.MissingParam(key)) else Ok(d[key])
  }

  /** Only an absent key, None and "" are refused: every truthy value, and the other falsy ones (0, False, an empty list or dictionary), is handed back. */
  lemma LegacyRequireAcceptsOtherFalsy(d: Dict, key: string)
    ensures key in d && Truthy(d[key]) ==> LegacyRequire(d, key) == Ok(d[key])
    ensures key in d && d[key] in {Num(0), Bool(false), Arr([]), Obj(map[])} ==> LegacyRequire(d, key) == Ok(d[key])
    ensures LegacyRequire(d, key).Err? ==> !(key in d && Truthy(d[key]))
  {
  }

  /** The two required-parameter checks agree when empty strings are not allowed. */
  lemma RequireCopiesAgree(d: Dict, key: string)
    ensures LegacyRequire(d, key) == ActionBase.Require(d, key, false)
  {
  }

  /** The action type: lower-cased, missing as "", with navigate rewritten to open_url. */
  function ActionType(action: Dict): (r: Result<string, string>)
    ensures r.Ok? ==> r.value != NavigateType
    ensures Steps.StepType(action).Err? ==> r == Steps.StepType(action)
    ensures Steps.StepType(action).Ok? && Steps.StepType(action).value != NavigateType ==> r == Steps.StepType(action)
  {
    match Steps.StepType(action)
    case Err(e) => Err(e)
    case Ok(t) => Ok(if t == NavigateType then OpenUrlType else t)
  }

  /** A handler that raises at a parameter check, before the agent is called. */
  function Raised(variables: Dict, e: string): Outcome
  {
    Outcome([], variables, Some(e))
  }

  /** _execute_screenshot: named by the action, then by the step, then "screenshot"; emitting the event cannot raise. */
  function ScreenshotSpec(action: Dict, step: Dict, variables: Dict, w: World): (r: Outcome)
  {
    var name := Or(Or(Get(action, "name"), Get(step, "name")), Str(BuiltinActions.DefaultScreenshotName));
    if w.callError.Some? then Outcome([Screenshot(name)], variables, w.callError)
    else Outcome([Screenshot(name), ScreenshotTaken(name, w.reference)], variables, None)
  }

  /** _execute_log: the message is required here, and it goes out as a log event. */
  function LogSpec(action: Dict, variables: Dict): (r: Outcome)
  {
    match LegacyRequire(action, "message")
    case Err(e) => Raised(variables, e)
    case Ok(m) => Outcome([LogEmitted(m, GetOr(action, "level", Str(DefaultLevel)))], variables, None)
  }

  /** _dispatch_action. */
  function Dispatch(action: Dict, t: string, step: Dict, variables: Dict, w: World): (r: Outcome)
  {
    if t == OpenUrlType then
      match LegacyRequire(action, "url")
      case Err(e) => Raised(variables, e)
      case Ok(url) => Call(OpenUrl(url), variables, w)
    else if t == ClickType then
      match LegacyRequire(action, "selector")
      case Err(e) => Raised(variables, e)
      case Ok(sel) => Call(Click(sel), variables, w)
    else if t == TypeType then
      match LegacyRequire(action, "selector")
      case Err(e) => Raised(variables, e)
      case Ok(sel) =>
        match LegacyRequire(action, "text")
        case Err(e) => Raised(variables, e)
        case Ok(text) => Call(TypeText(sel, text, Truthy(GetOr(action, "clear", Bool(false)))), variables, w)
    else if t == WaitForType then
      match LegacyRequire(action, "selector")
      case Err(e) => Raised(variables, e)
      case Ok(sel) =>
        match PyInt(GetOr(action, "timeout_ms", Num(BuiltinActions.DefaultTimeoutMs)))
        case Err(e) => Raised(variables, e)
        case Ok(ms) => Call(WaitFor(sel, ms), variables, w)
    else if t == ExtractType then BuiltinActions.ExtractSpec(action, variables, w)
    else if t == ScreenshotType then ScreenshotSpec(action, step, variables, w)
    else if t == LogType then LogSpec(action, variables)
    else Raised(variables, UnknownType(t))
  }

  /** execute_action: the action dictionary, its type, then the dispatch; every error is raised again. */
  function ExecuteActionSpec(step: Dict, variables: Dict, w: World): (r: Outcome)
  {
    match ActionDict(step)
    case Err(e) => Raised(variables, e)
    case Ok(action) =>
      match ActionType(action)
      case Err(e) => Raised(variables, e)
      case Ok(t) => Dispatch(action, t, step, variables, w)
  }

  // ----- Properties -----

  /** navigate, in any case, runs exactly as open_url does. */
  lemma NavigateIsOpenUrl(step: Dict, action: Dict, variables: Dict, w: World)
    requires "action" in step && step["action"] == Obj(action)
    requires Get(action, "type") == Str(NavigateType)
    ensures ExecuteActionSpec(step, variables, w) ==
      ExecuteActionSpec(step["action" := Obj(action["type" := Str(OpenUrlType)])], variables, w)
  {
    LowerOfLowerLiteral(NavigateType);
    LowerOfLowerLiteral(OpenUrlType);
  }

  /** Every type outside the seven raises "Unknown action type" ("<empty>" for the empty type) without calling the agent. */
  lemma UnknownTypesRaise(action: Dict, t: string, step: Dict, variables: Dict, w: World)
    requires t !in Dispatched
    ensures Dispatch(action, t, step, variables, w) == Raised(variables, UnknownType(t))
  {
  }

  /** A dispatched type either reaches the agent or fails a parameter check; it never reports an unknown type. */
  lemma KnownTypesDispatched(action: Dict, t: string, step: Dict, variables: Dict, w: World)
    requires t in Dispatched
    ensures var r := Dispatch(action, t, step, variables, w);
      r.effects != [] || (r.error.Some? && r.error != Some(UnknownType(t)))
  {
    var r := Dispatch(action, t, step, variables, w);
    if r.effects == [] {
      FailedCheckMessage(action, t, step, variables, w);
      assert UnknownType(t)[0] == 'U';
    }
  }

  /** A handler that records nothing raised a missing-parameter or `int()` error. */
  lemma FailedCheckMessage(action: Dict, t: string, step: Dict, variables: Dict, w: World)
    requires t in Dispatched
    requires Dispatch(action, t, step, variables, w).effects == []
    ensures var r := Dispatch(action, t, step, variables, w);
      r.error.Some? && r.error.value != [] && (r.error.value[0] == 'M' || r.error.value[0] == 'i')
  {
    var r := Dispatch(action, t, step, variables, w);
    if t == WaitForType && LegacyRequire(action, "selector").Ok? {
      PyIntErrorStart(GetOr(action, "timeout_ms", Num(BuiltinActions.DefaultTimeoutMs)));
    } else {
      assert exists k :: r.error == Some(ActionBase.MissingParam(k));
    }
  }

  /** Both errors `int()` raises begin with a lower-case "i". */
  lemma PyIntErrorStart(v: Value)
    ensures PyInt(v).Err? ==> PyInt(v).error != [] && PyInt(v).error[0] == 'i'
  {
    if PyInt(v).Err? {
      if v.Str? {
        assert PyInt(v).error == InvalidLiteralPrefix + v.s + "'";
        assert InvalidLiteralPrefix[0] == 'i';
      } else {
        assert PyInt(v).error == IntArgumentPrefix + TypeName(v) + "'";
        assert IntArgumentPrefix[0] == 'i';
      }
    }
  }

  /** The legacy log handler requires a message, unlike the built-in log command. */
  lemma LogNeedsMessage(action: Dict, variables: Dict, w: World)
    requires "message" !in action
    ensures Dispatch(action, LogType, map[], variables, w) == Raised(variables, ActionBase.MissingParam("message"))
    ensures BuiltinActions.ExecuteSpec(ActionRegistry.Action(ActionRegistry.LogAction, action), variables, w).error.None?
  {
  }

  /** The screenshot name falls back to the step's name, then to "screenshot". */
  lemma ScreenshotName(action: Dict, step: Dict, variables: Dict, w: World)
    requires !Truthy(Get(action, "name")) && w.callError.None?
    ensures Dispatch(action, ScreenshotType, step, variables, w).effects[0] ==
      Screenshot(if Truthy(Get(step, "name")) then Get(step, "name") else Str(BuiltinActions.DefaultScreenshotName))
  {
  }

  /** For the five commands both executors have, the legacy handler does what the built-in command does. */
  lemma SharedCommandsAgree(action: Dict, step: Dict, variables: Dict, w: World)
    ensures Dispatch(action, OpenUrlType, step, variables, w) ==
      BuiltinActions.ExecuteSpec(ActionRegistry.Action(ActionRegistry.OpenUrlAction, action), variables, w)
    ensures Dispatch(action, ClickType, step, variables, w) ==
      BuiltinActions.ExecuteSpec(ActionRegistry.Action(ActionRegistry.ClickAction, action), variables, w)
    ensures Dispatch(action, TypeType, step, variables, w) ==
      BuiltinActions.ExecuteSpec(ActionRegistry.Action(ActionRegistry.TypeAction, action), variables, w)
    ensures Dispatch(action, WaitForType, step, variables, w) ==
      BuiltinActions.ExecuteSpec(ActionRegistry.Action(ActionRegistry.WaitForAction, action), variables, w)
    ensures Dispatch(action, ExtractType, step, variables, w) ==
      BuiltinActions.ExecuteSpec(ActionRegistry.Action(ActionRegistry.ExtractAction, action), variables, w)
  {
    RequireCopiesAgree(action, "url");
    RequireCopiesAgree(action, "selector");
    RequireCopiesAgree(action, "text");
  }

  /** execute_action on a context: the extract handler may write a variable; nothing else of the context changes. */
  method ExecuteAction(ctx: RunContext, step: Dict, w: World) returns (effects: seq<AgentEffect>, error: Option<string>)
    modifies ctx
    ensures Outcome(effects, ctx.variables, error) == ExecuteActionSpec(step, old(ctx.variables), w)
    ensures ctx.checkpoints == old(ctx.checkpoints) && ctx.currentStep == old(ctx.currentStep)
    ensures ctx.inputPayload == old(ctx.inputPayload) && ctx.manifest == old(ctx.manifest)
  {
    var action := ActionDict(step);
    if action.Err? {
      return [], Some(action.error);
    }
    var t := ActionType(action.value);
    if t.Err? {
      return [], Some(t.error);
    }
    if t.value == ExtractType {
      effects, error := BuiltinActions.Execute(ActionRegistry.Action(ActionRegistry.ExtractAction, action.value), ctx, w);
    } else {
      var r := Dispatch(action.value, t.value, step, ctx.variables, w);
      DispatchKeepsVariables(action.value, t.value, step, ctx.variables, w);
      effects, error := r.effects, r.error;
    }
  }

  lemma DispatchKeepsVariables(action: Dict, t: string, step: Dict, variables: Dict, w: World)
    requires t != ExtractType
    ensures Dispatch(action, t, step, variables, w).variables == variables
  {
  }
}
