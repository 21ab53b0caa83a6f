// The built-in action commands and their registration under eight names.
// Each command checks its parameters, then calls the browser agent, and the
// extract command may write a context variable.
module BuiltinActions {
  import opened Wrappers
  import opened Json
  import opened Context
  import opened ActionBase
  import opened ActionRegistry
  import opened BrowserAgent

  const DefaultScreenshotName := "screenshot"
  const DefaultTimeoutMs := 10000

  const BuiltinNames := {"open_url", "navigate", "click", "type", "wait_for", "extract", "screenshot", "log"}

  /** The registry contents after the eight registrations, made in this order; navigate is an alias of open_url. */
  function Registered(f: map<string, Kind>): map<string, Kind>
  {
    f["open_url" := OpenUrlAction]["navigate" := OpenUrlAction]["click" := ClickAction]["type" := TypeAction]
     ["wait_for" := WaitForAction]["extract" := ExtractAction]["screenshot" := ScreenshotAction]["log" := LogAction]
  }

  /** An outcome that raises before anything was done. */
  function Raised(variables: Dict, e: string): Outcome
  {
    Outcome([], variables, Some(e))
  }

  /** The screenshot command: its name defaults to "screenshot", and the agent's reference is reported in an event. */
  function ScreenshotSpec(p: Dict, variables: Dict, w: World): (r: Outcome)
    ensures r.variables == variables
    ensures r.effects != [] && r.effects[0] == Screenshot(Or(Get(p, "name"), Str(DefaultScreenshotName)))
    ensures r.error.None? <==> w.callError.None? && w.eventError.None?
  {
    var name := Or(Get(p, "name"), Str(DefaultScreenshotName));
    if w.callError.Some? then Outcome([Screenshot(name)], variables, w.callError)
    else Outcome([Screenshot(name), ScreenshotTaken(name, w.reference)], variables, w.eventError)
  }

  /** The extract command: the variable named by `var` is written only when `var` is given. */
  function ExtractSpec(p: Dict, variables: Dict, w: World): (r: Outcome)
    ensures r.error.None? <==> Require(p, "selector", false).Ok? && w.callError.None?
    ensures r.variables != variables ==> r.error.None? && Get(p, "var").Str?
    ensures variables.Keys <= r.variables.Keys
    ensures forall k :: k in variables && Get(p, "var") != Str(k) ==> r.variables[k] == variables[k]
  {
    match Require(p, "selector", false)
    case Err(e) => Raised(variables, e)
    case Ok(selector) =>
      var call := Extract(selector, Get(p, "attr"));
      var v := Get(p, "var");
      if w.callError.Some? then Outcome([call], variables, w.callError)
      else if Truthy(v) && v.Str? then Outcome([call], variables[v.s := w.extracted], None)
      else Outcome([call], variables, None)
  }

  /** `execute` of each built-in command. */
  function ExecuteSpec(a: Action, variables: Dict, w: World): (r: Outcome)
    ensures a.kind != ExtractAction ==> r.variables == variables
    ensures variables.Keys <= r.variables.Keys
    ensures a.kind == LogAction ==> r.error.None?
    ensures r.error.None? ==> r.effects != []
  {
    var p := a.params;
    match a.kind
    case OpenUrlAction =>
      (match Require(p, "url", false)
       case Err(e) => Raised(variables, e)
       case Ok(url) => Call(OpenUrl(url), variables, w))
    case ClickAction =>
      (match Require(p, "selector", false)
       case Err(e) => Raised(variables, e)
       case Ok(selector) => Call(Click(selector), variables, w))
    case TypeAction =>
      (match Require(p, "selector", false)
       case Err(e) => Raised(variables, e)
       case Ok(selector) =>
         match Require(p, "text", false)
         case Err(e) => Raised(variables, e)
         case Ok(text) => Call(TypeText(selector, text, Truthy(GetOr(p, "clear", Bool(false)))), variables, w))
    case WaitForAction =>
      (match Require(p, "selector", false)
       case Err(e) => Raised(variables, e)
       case Ok(selector) =>
         match PyInt(GetOr(p, "timeout_ms", Num(DefaultTimeoutMs)))
         case Err(e) => Raised(variables, e)
         case Ok(ms) => Call(WaitFor(selector, ms), variables, w))
    case ExtractAction => ExtractSpec(p, variables, w)
    case ScreenshotAction => ScreenshotSpec(p, variables, w)
    case LogAction => Outcome([Logged(GetOr(p, "message", Str("")))], variables, None)
  }

  /** The module-level registrations, made one by one. */
  method RegisterBuiltins(reg: Registry)
    requires reg.Valid()
    modifies reg
    ensures reg.Valid()
    ensures reg.factories == Registered(old(reg.factories))
  {
    BuiltinNamesAreKeys();
    reg.Register("open_url", OpenUrlAction);
    reg.Register("navigate", OpenUrlAction);
    reg.Register("click", ClickAction);
    reg.Register("type", TypeAction);
    reg.Register("wait_for", WaitForAction);
    reg.Register("extract", ExtractAction);
    reg.Register("screenshot", ScreenshotAction);
    reg.Register("log", LogAction);
  }

  /** The built-in names are already lower case, so each is stored under itself. */
  lemma BuiltinNamesAreKeys()
    ensures Key("open_url") == "open_url" && Key("navigate") == "navigate" && Key("click") == "click"
    ensures Key("type") == "type" && Key("wait_for") == "wait_for" && Key("extract") == "extract"
    ensures Key("screenshot") == "screenshot" && Key("log") == "log"
  {
    Text.LowerOfLowerLiteral("open_url");
    Text.LowerOfLowerLiteral("navigate");
    Text.LowerOfLowerLiteral("click");
    Text.LowerOfLowerLiteral("type");
    Text.LowerOfLowerLiteral("wait_for");
    Text.LowerOfLowerLiteral("extract");
    Text.LowerOfLowerLiteral("screenshot");
    Text.LowerOfLowerLiteral("log");
  }

  /** Registering the built-ins adds exactly the eight names, and navigate builds the same command as open_url. */
  lemma EightBuiltins(f: map<string, Kind>)
    ensures Registered(f).Keys == f.Keys + BuiltinNames
    ensures Registered(f)["navigate"] == Registered(f)["open_url"] == OpenUrlAction
  {
  }

  /** type needs a selector and a text; `clear` defaults to false. */
  lemma TypeRequiresSelectorAndText(p: Dict, variables: Dict, w: World)
    ensures var r := ExecuteSpec(Action(TypeAction, p), variables, w);
      && (Require(p, "selector", false).Err? ==> r == Raised(variables, MissingParam("selector")))
      && (Require(p, "selector", false).Ok? && Require(p, "text", false).Err? ==> r == Raised(variables, MissingParam("text")))
      && (Require(p, "selector", false).Ok? && Require(p, "text", false).Ok? && "clear" !in p ==>
            r.effects == [TypeText(p["selector"], p["text"], false)])
  {
  }

  /** wait_for needs a selector; the timeout defaults to 10000 ms. */
  lemma WaitForDefaults(p: Dict, variables: Dict, w: World)
    requires Require(p, "selector", false).Ok? && "timeout_ms" !in p
    ensures ExecuteSpec(Action(WaitForAction, p), variables, w).effects == [WaitFor(p["selector"], DefaultTimeoutMs)]
  {
  }

  /** extract changes the variables only when `var` is given and the agent answered, and then only that variable. */
  lemma ExtractWritesOnlyVar(p: Dict, variables: Dict, w: World)
    ensures var r := ExecuteSpec(Action(ExtractAction, p), variables, w);
      && (r.variables != variables ==> Truthy(Get(p, "var")) && r.error.None?)
      && (forall k :: k in variables && Get(p, "var") != Str(k) ==> k in r.variables && r.variables[k] == variables[k])
      && (r.error.None? && Get(p, "var").Str? && Truthy(Get(p, "var")) ==> r.variables == variables[Get(p, "var").s := w.extracted])
  {
  }

  /** screenshot is named "screenshot" by default and reports the agent's reference. */
  lemma ScreenshotDefaults(p: Dict, variables: Dict, w: World)
    requires !Truthy(Get(p, "name")) && w.callError.None?
    ensures ExecuteSpec(Action(ScreenshotAction, p), variables, w).effects ==
      [Screenshot(Str(DefaultScreenshotName)), ScreenshotTaken(Str(DefaultScreenshotName), w.reference)]
  {
  }

  /** log needs no parameter and never raises; its message defaults to "". */
  lemma LogNeverRaises(p: Dict, variables: Dict, w: World)
    ensures ExecuteSpec(Action(LogAction, p), variables, w).error.None?
    ensures "message" !in p ==> ExecuteSpec(Action(LogAction, p), variables, w).effects == [Logged(Str(""))]
  {
  }

  /** No built-in command other than extract touches the variables. */
  lemma OnlyExtractWrites(a: Action, variables: Dict, w: World)
    requires a.kind != ExtractAction
    ensures ExecuteSpec(a, variables, w).variables == variables
  {
  }

  /** Runs a command against a context: the context's variables and the effects follow the command's specification. */
  method Execute(a: Action, ctx: RunContext, w: World) returns (effects: seq<AgentEffect>, error: Option<string>)
    modifies ctx
    ensures Outcome(effects, ctx.variables, error) == ExecuteSpec(a, old(ctx.variables), w)
    ensures ctx.checkpoints == old(ctx.checkpoints) && ctx.currentStep == old(ctx.currentStep)
    ensures ctx.inputPayload == old(ctx.inputPayload) && ctx.manifest == old(ctx.manifest)
    ensures ctx.runId == old(ctx.runId) && ctx.flowId == old(ctx.flowId) && ctx.userId == old(ctx.userId)
  {
    if a.kind == ExtractAction {
      var p := a.params;
      var selector := Require(p, "selector", false);
      if selector.Err? {
        return [], Some(selector.error);
      }
      effects := [Extract(selector.value, Get(p, "attr"))];
      if w.callError.Some? {
        return effects, w.callError;
      }
      var v := Get(p, "var");
      if Truthy(v) && v.Str? {
        ctx.SetVariable(v.s, w.extracted);
      }
      error := None;
    } else {
      OnlyExtractWrites(a, ctx.variables, w);
      var r := ExecuteSpec(a, ctx.variables, w);
      effects, error := r.effects, r.error;
    }
  }
}
