// The browser agent as seen by the actions: each call it receives and each
// event an action emits is recorded, and an oracle gives the agent's answers.
module BrowserAgent {
  import opened Wrappers
  import opened Json

  /** A call made to the agent, or an event emitted by an action. */
  datatype AgentEffect =
    | OpenUrl(url: Value)
    | Click(selector: Value)
    | TypeText(selector: Value, text: Value, clear: bool)
    | WaitFor(selector: Value, timeoutMs: int)
    | Extract(selector: Value, attr: Value)
    | Screenshot(name: Value)
    | ScreenshotTaken(name: Value, reference: string)
    | LogEmitted(message: Value, level: Value)
    | Logged(message: Value)

  /** The outside world of one action: whether the agent call raises, what extraction yields, the reference a screenshot gets, and whether emitting an event raises. */
  datatype World = World(callError: Option<string>, extracted: Value, reference: string, eventError: Option<string>)

  /** What an action leaves behind: the effects in order, the context variables, and the exception it raised, if any. */
  datatype Outcome = Outcome(effects: seq<AgentEffect>, variables: Dict, error: Option<string>)

  /** One agent call: recorded, then raising when the agent fails. */
  function Call(c: AgentEffect, variables: Dict, w: World): (r: Outcome)
    ensures r.effects == [c] && r.variables == variables && r.error == w.callError
  {
    Outcome([c], variables, w.callError)
  }
}
