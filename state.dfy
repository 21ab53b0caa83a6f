// The run lifecycle state machine of the worker runtime: a fixed transition
// table and an object whose `current` state moves only along that table.
module RunState {
  import opened Wrappers
  import opened Text

  const Pending := "pending"
  const Running := "running"
  const AwaitingInput := "awaiting_input"
  const Completed := "completed"
  const Failed := "failed"
  const Canceled := "canceled"

  /** The transition table: every known state and the states it may move to. */
  const Allowed: map<string, set<string>> := map[
    Pending := {Running, Canceled},
    Running := {AwaitingInput, Completed, Failed, Canceled},
    AwaitingInput := {Running, Failed, Canceled},
    Completed := {},
    Failed := {},
    Canceled := {}
  ]

  const UnknownStatePrefix := "Unknown run state: "
  const InvalidTransitionPrefix := "Invalid transition: "
  const Arrow := " \U{2192} "

  predicate IsTerminal(s: string)
  {
    s == Completed || s == Failed || s == Canceled
  }

  /** Python's `(x or "")`: a missing or empty state name becomes the empty string. */
  function OrEmpty(x: Option<string>): string
  {
    match x
    case None => ""
    case Some(s) => s
  }

  /** The state names are already lower case, so lower-casing them changes nothing. */
  lemma StateNamesAreLowerCase()
    ensures Lower(Pending) == Pending && Lower(Running) == Running
    ensures Lower(AwaitingInput) == AwaitingInput && Lower(Completed) == Completed
    ensures Lower(Failed) == Failed && Lower(Canceled) == Canceled
  {
    LowerOfLowerLiteral(Pending);
    LowerOfLowerLiteral(Running);
    LowerOfLowerLiteral(AwaitingInput);
    LowerOfLowerLiteral(Completed);
    LowerOfLowerLiteral(Failed);
    LowerOfLowerLiteral(Canceled);
  }

  /** The requested target state, lower-cased. */
  function Target(to: Option<string>): string
  {
    Lower(OrEmpty(to))
  }

  /** The state a new machine starts in: the given state lower-cased, "pending" for a missing or empty one, and an error for a state outside the table. */
  function InitialState(initial: Option<string>): (r: Result<string, string>)
    ensures r.Ok? ==> r.value in Allowed
    ensures r.Ok? <==> (if OrEmpty(initial) == "" then Pending else Lower(OrEmpty(initial))) in Allowed
    ensures OrEmpty(initial) == "" ==> r == Ok(Pending)
    ensures r.Err? ==> r.error == UnknownStatePrefix + Lower(OrEmpty(initial))
  {
    var s := if OrEmpty(initial) == "" then Pending else Lower(OrEmpty(initial));
    if s in Allowed then Ok(s) else Err(UnknownStatePrefix + s)
  }

  /** May a machine in state `from` move to the already lower-cased state `target`? */
  predicate CanMove(from: string, target: string)
  {
    from in Allowed && target in Allowed[from]
  }

  /** May a machine in state `from` move to the requested state? */
  predicate CanTransitionFrom(from: string, to: Option<string>)
  {
    CanMove(from, Target(to))
  }

  function InvalidTransitionMessage(from: string, target: string): string
  {
    InvalidTransitionPrefix + from + Arrow + target
  }

  lemma TargetsAreStates(from: string, to: Option<string>)
    requires CanTransitionFrom(from, to)
    ensures Target(to) in Allowed
  {
  }

  /** No transition out of completed, failed or canceled ever succeeds. */
  lemma TerminalStatesAreFinal(from: string, to: Option<string>)
    requires IsTerminal(from)
    ensures !CanTransitionFrom(from, to)
  {
  }

  /** No state may move to itself. */
  lemma NoSelfTransition(s: string)
    ensures !CanTransitionFrom(s, Some(s))
  {
    if s in Allowed {
      LowerOfLowerLiteral(s);
    }
  }

  /** A pending run can only start running or be canceled. */
  lemma PendingTargets(to: Option<string>)
    ensures CanTransitionFrom(Pending, to) <==> Target(to) == Running || Target(to) == Canceled
  {
  }

  /** The state reached by a sequence of transition requests, stopping at the first rejected one. */
  function Replay(from: string, requests: seq<Option<string>>): (r: string)
    decreases |requests|
  {
    if requests == [] || !CanTransitionFrom(from, requests[0]) then from
    else Replay(Target(requests[0]), requests[1..])
  }

  /** Whatever sequence of requests is made, the machine stays in a state of the table. */
  lemma {:induction false} ReplayStaysInTable(from: string, requests: seq<Option<string>>)
    requires from in Allowed
    ensures Replay(from, requests) in Allowed
    decreases |requests|
  {
    if requests != [] && CanTransitionFrom(from, requests[0]) {
      ReplayStaysInTable(Target(requests[0]), requests[1..]);
    }
  }

  /** Once a terminal state is reached, no later request changes the state. */
  lemma {:induction false} ReplayFromTerminal(from: string, requests: seq<Option<string>>)
    requires IsTerminal(from)
    ensures Replay(from, requests) == from
  {
  }

  class RunStateMachine {
    var current: string

    ghost predicate Valid()
      reads this
    {
      current in Allowed
    }

    /** A machine already known to start in a state of the table. */
    constructor (initial: string)
      requires initial in Allowed
      ensures Valid() && current == initial
    {
      current := initial;
    }

    /** The Python constructor: normalises the initial state and fails on an unknown one. */
    static method Create(initial: Option<string>) returns (r: Result<RunStateMachine, string>)
      ensures r.Ok? <==> InitialState(initial).Ok?
      ensures r.Ok? ==> fresh(r.value) && r.value.Valid() && r.value.current == InitialState(initial).value
      ensures r.Err? ==> r.error == InitialState(initial).error
    {
      var s := InitialState(initial);
      if s.Ok? {
        var m := new RunStateMachine(s.value);
        r := Ok(m);
      } else {
        r := Err(s.error);
      }
    }

    predicate CanTransition(to: Option<string>)
      reads this
    {
      CanTransitionFrom(current, to)
    }

    /** Moves to the requested state when the table allows it; otherwise fails and leaves the state unchanged. */
    method Transition(to: Option<string>) returns (r: Result<string, string>)
      requires Valid()
      modifies this
      ensures Valid()
      ensures r.Ok? <==> CanTransitionFrom(old(current), to)
      ensures r.Ok? ==> current == Target(to) && r.value == current
      ensures r.Err? ==> current == old(current)
      ensures r.Err? ==> r.error == InvalidTransitionMessage(old(current), Target(to))
    {
      var target := Target(to);
      LowerIdempotent(OrEmpty(to));
      if !CanTransition(Some(target)) {
        return Err(InvalidTransitionMessage(current, target));
      }
      current := target;
      r := Ok(current);
    }
  }
}
