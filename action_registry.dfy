// The action registry: a dictionary from lower-cased action names to
// factories, filled once at import time and read when a step runs.
module ActionRegistry {
  import opened Wrappers
  import opened Text
  import opened Json

  /** The action commands a factory builds. */
  datatype Kind = OpenUrlAction | ClickAction | TypeAction | WaitForAction | ExtractAction | ScreenshotAction | LogAction

  /** An action command: what its factory builds, holding the parameters it was created with. */
  datatype Action = Action(kind: Kind, params: Dict)

  const UnknownActionPrefix := "Unknown action type: "
  const EmptyName := "<empty>"

  /** The key a name is stored and looked up under. */
  function Key(name: string): string
  {
    Lower(name)
  }

  function UnknownAction(key: string): string
  {
    UnknownActionPrefix + (if key == "" then EmptyName else key)
  }

  /** The factory for the lower-cased type applied to the parameters, or the unknown-type error. */
  function Lookup(factories: map<string, Kind>, actionType: string, params: Dict): (r: Result<Action, string>)
    ensures r.Ok? <==> Key(actionType) in factories
    ensures r.Ok? ==> r.value == Action(factories[Key(actionType)], params)
    ensures r.Err? ==> r.error == UnknownAction(Key(actionType))
  {
    var key := Key(actionType);
    if key in factories then Ok(Action(factories[key], params)) else Err(UnknownAction(key))
  }

  /** Registering then looking up: a spelling of the registered name finds the new factory, and any other type is looked up as before. */
  lemma RegisterThenLookup(factories: map<string, Kind>, name: string, factory: Kind, asked: string, params: Dict)
    ensures Lookup(factories[Key(name) := factory], asked, params)
         == (if Key(asked) == Key(name) then Ok(Action(factory, params)) else Lookup(factories, asked, params))
    ensures Lookup(factories, Lower(asked), params) == Lookup(factories, asked, params)
  {
    LowerIdempotent(asked);
  }

  class Registry {
    /** The keys in insertion order (a Python dictionary keeps that order) and the factory under each. */
    var keys: seq<string>
    var factories: map<string, Kind>

    ghost predicate Valid()
      reads this
    {
      NoDuplicates(keys) && (forall k :: k in factories <==> k in keys)
    }

    constructor ()
      ensures Valid() && keys == [] && factories == map[]
    {
      keys := [];
      factories := map[];
    }

    /** register: stores the factory under the lower-cased name, replacing an earlier factory for that key. */
    method Register(name: string, factory: Kind)
      requires Valid()
      modifies this
      ensures Valid()
      ensures factories == old(factories)[Key(name) := factory]
      ensures keys == if Key(name) in old(factories) then old(keys) else old(keys) + [Key(name)]
    {
      var key := Key(name);
      if key !in factories {
        keys := keys + [key];
      }
      factories := factories[key := factory];
    }

    /** create. */
    function Create(actionType: string, params: Dict): (r: Result<Action, string>)
      reads this
      ensures r.Ok? <==> Key(actionType) in factories
      ensures r.Ok? ==> r.value == Action(factories[Key(actionType)], params)
      ensures r.Err? ==> r.error == UnknownAction(Key(actionType))
    {
      Lookup(factories, actionType, params)
    }

    /** known_actions: every registered key once, in sorted order. */
    function KnownActions(): (r: seq<string>)
      requires Valid()
      reads this
      ensures Sorted(r) && NoDuplicates(r)
      ensures forall k :: k in r <==> k in factories
    {
      SortSorted(keys);
      SortDistinct(keys);
      assert forall k :: k in Sort(keys) <==> k in multiset(keys);
      Sort(keys)
    }
  }

  /** Lookup ignores case: any spelling of a registered name finds its factory. */
  lemma CreateIgnoresCase(r: Registry, a: string, b: string, params: Dict)
    requires Lower(a) == Lower(b)
    ensures r.Create(a, params) == r.Create(b, params)
  {
  }

  /** A name registered in any case is found under any other spelling with the same lower-case form. */
  lemma RegisteredIsCreated(factories: map<string, Kind>, name: string, factory: Kind, asked: string, params: Dict)
    requires Lower(asked) == Lower(name)
    ensures var f := factories[Key(name) := factory];
      Key(asked) in f && f[Key(asked)] == factory
  {
  }

  /** The empty type is reported as "<empty>". */
  lemma EmptyTypeMessage()
    ensures UnknownAction(Key("")) == UnknownActionPrefix + EmptyName
  {
  }
}
