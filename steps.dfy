// Typed flow steps and the manifest parser that turns a manifest's raw step
// list into action and checkpoint steps.
module Steps {
  import opened Wrappers
  import opened Text
  import opened Json

  /** Step fields are copied verbatim from the manifest, so each is a JSON value (Null when absent). */
  datatype Step =
    | ActionStep(name: Value, action: Dict)
    | CheckpointStep(id: Value, name: Value, reason: Value, expectedAction: Value, timeout: Value)

  /** The raw step list: `config.steps` when config is a dictionary and that value is truthy, else the top-level `steps` when truthy, else []. */
  function StepsData(manifest: Dict): (r: Value)
    ensures Truthy(r) || r == Arr([])
    ensures Get(manifest, "config").Obj? && Truthy(Get(Get(manifest, "config").fields, "steps"))
      ==> r == Get(Get(manifest, "config").fields, "steps")
    ensures !(Get(manifest, "config").Obj? && Truthy(Get(Get(manifest, "config").fields, "steps")))
      ==> r == (if Truthy(Get(manifest, "steps")) then Get(manifest, "steps") else Arr([]))
  {
    var config := Get(manifest, "config");
    var fromConfig := if config.Obj? then Get(config.fields, "steps") else Null;
    Or(Or(fromConfig, Get(manifest, "steps")), Arr([]))
  }

  const NotIterableSuffix := "' object is not iterable"
  const NoLowerSuffix := "' object has no attribute 'lower'"

  /** Iterating a truthy value in Python: a list yields its elements, a string its characters, a dictionary its keys (all of them strings, which the parser skips); a number or boolean raises TypeError. */
  function Elements(v: Value): (r: Result<seq<Value>, string>)
    ensures v.Arr? ==> r == Ok(v.items)
    ensures r.Ok? && !v.Arr? ==> forall k :: 0 <= k < |r.value| ==> r.value[k].Str?
    ensures r.Err? <==> v.Num? || v.Float? || v.Bool? || v.Null?
  {
    match v
    case Arr(xs) => Ok(xs)
    case Str(s) => Ok(seq(|s|, i requires 0 <= i < |s| => Str([s[i]])))
    case Obj(_) => Ok([])
    case Num(_) => Err("'int" + NotIterableSuffix)
    case Float(_) => Err("'float" + NotIterableSuffix)
    case Bool(_) => Err("'bool" + NotIterableSuffix)
    case Null => Err("'NoneType" + NotIterableSuffix)
  }

  /** `(raw.get("type") or "").lower()`; a truthy non-string type has no `lower` and raises AttributeError. */
  function StepType(d: Dict): (r: Result<string, string>)
    ensures Get(d, "type").Str? ==> r == Ok(Lower(Get(d, "type").s))
    ensures !Truthy(Get(d, "type")) ==> r == Ok("")
    ensures r.Err? <==> Truthy(Get(d, "type")) && !Get(d, "type").Str?
  {
    var t := Get(d, "type");
    if !Truthy(t) then Ok("")
    else if t.Str? then Ok(Lower(t.s))
    else Err("'" + TypeName(t) + NoLowerSuffix)
  }

  /** A step type is always read in lower case, so a string type and its lower-cased spelling give the same type; a missing type reads as the empty one. */
  lemma StepTypeNormalised(d: Dict, t: string)
    ensures StepType(d).Ok? ==> Lower(StepType(d).value) == StepType(d).value
    ensures StepType(d["type" := Str(t)]) == StepType(d["type" := Str(Lower(t))])
    ensures StepType(d["type" := Str(t)]).Ok?
    ensures "type" !in d ==> StepType(d) == Ok("")
  {
    LowerIdempotent(t);
    if Get(d, "type").Str? {
      LowerIdempotent(Get(d, "type").s);
    }
    assert Lower(t) == [] <==> t == [];
    assert Lower([]) == [];
  }

  /** One raw entry: a step, nothing (skipped), or the error Python raises. */
  function ParseEntry(raw: Value): (r: Result<Option<Step>, string>)
    ensures !raw.Obj? ==> r == Ok(None)
    ensures r.Ok? && r.value.Some? && r.value.value.ActionStep? ==>
      StepType(raw.fields) == Ok("action") && r.value.value.name == Get(raw.fields, "name")
    ensures r.Ok? && r.value.Some? && r.value.value.CheckpointStep? ==>
      StepType(raw.fields) == Ok("checkpoint")
  {
    match raw
    case Obj(d) =>
      (match StepType(d)
       case Err(e) => Err(e)
       case Ok(t) =>
         if t == "action" then
           var action := Or(Get(d, "action"), Obj(map[]));
           if action.Obj? then Ok(Some(ActionStep(Get(d, "name"), action.fields))) else Ok(None)
         else if t == "checkpoint" then
           Ok(Some(CheckpointStep(Get(d, "id"), Get(d, "name"), Get(d, "reason"),
                                  Get(d, "expected_action"), Get(d, "timeout"))))
         else Ok(None))
    case _ => Ok(None)
  }

  /** The typed steps of a list of raw entries, in order; the first error stops the parse. */
  function ParseEntries(xs: seq<Value>): (r: Result<seq<Step>, string>)
    ensures r.Ok? ==> |r.value| <= |xs|
  {
    if xs == [] then Ok([])
    else
      match ParseEntries(xs[..|xs| - 1])
      case Err(e) => Err(e)
      case Ok(prefix) =>
        match ParseEntry(xs[|xs| - 1])
        case Err(e) => Err(e)
        case Ok(None) => Ok(prefix)
        case Ok(Some(st)) => Ok(prefix + [st])
  }

  /** parse_manifest_steps as a function of the manifest. */
  function ParseSteps(manifest: Dict): Result<seq<Step>, string>
  {
    match Elements(StepsData(manifest))
    case Err(e) => Err(e)
    case Ok(xs) => ParseEntries(xs)
  }

  /** parse_manifest_steps: a loop over the raw entries that appends each kept step. */
  method ParseManifestSteps(manifest: Dict) returns (r: Result<seq<Step>, string>)
    ensures r == ParseSteps(manifest)
  {
    var elements := Elements(StepsData(manifest));
    if elements.Err? {
      return Err(elements.error);
    }
    var xs := elements.value;
    var typed: seq<Step> := [];
    var i := 0;
    while i < |xs|
      invariant 0 <= i <= |xs|
      invariant ParseEntries(xs[..i]) == Ok(typed)
    {
      assert xs[..i + 1][..i] == xs[..i];
      var entry := ParseEntry(xs[i]);
      if entry.Err? {
        ErrorPropagates(xs, i + 1);
        return Err(entry.error);
      }
      if entry.value.Some? {
        typed := typed + [entry.value.value];
      }
      i := i + 1;
    }
    assert xs[..i] == xs;
    r := Ok(typed);
  }

  /** An error in a prefix is the error of the whole list. */
  lemma {:induction false} ErrorPropagates(xs: seq<Value>, n: nat)
    requires n <= |xs| && ParseEntries(xs[..n]).Err?
    ensures ParseEntries(xs) == ParseEntries(xs[..n])
    decreases |xs| - n
  {
    if n < |xs| {
      assert xs[..n + 1][..n] == xs[..n];
      ErrorPropagates(xs, n + 1);
    } else {
      assert xs[..n] == xs;
    }
  }

  /** The positions of the entries that yield a step. */
  function KeptPositions(xs: seq<Value>): seq<nat>
  {
    if xs == [] then []
    else
      var prefix := KeptPositions(xs[..|xs| - 1]);
      match ParseEntry(xs[|xs| - 1])
      case Ok(Some(_)) => prefix + [|xs| - 1]
      case _ => prefix
  }

  /** The kept positions are increasing positions of the list. */
  lemma {:induction false} KeptPositionsIncrease(xs: seq<Value>)
    ensures forall k :: 0 <= k < |KeptPositions(xs)| ==> KeptPositions(xs)[k] < |xs|
    ensures forall k, l :: 0 <= k < l < |KeptPositions(xs)| ==> KeptPositions(xs)[k] < KeptPositions(xs)[l]
  {
    if xs != [] {
      KeptPositionsIncrease(xs[..|xs| - 1]);
    }
  }

  /** The k-th parsed step is the step of the k-th kept entry. */
  lemma {:induction false} KeptPositionsYieldSteps(xs: seq<Value>)
    requires ParseEntries(xs).Ok?
    ensures |KeptPositions(xs)| == |ParseEntries(xs).value|
    ensures forall k :: 0 <= k < |KeptPositions(xs)| ==>
      KeptPositions(xs)[k] < |xs| && ParseEntry(xs[KeptPositions(xs)[k]]) == Ok(Some(ParseEntries(xs).value[k]))
  {
    if xs != [] {
      var init := xs[..|xs| - 1];
      var last := |xs| - 1;
      assert ParseEntries(init).Ok?;
      KeptPositionsYieldSteps(init);
      var kept := KeptPositions(init);
      var steps := ParseEntries(init).value;
      var e := ParseEntry(xs[last]);
      if e.value.Some? {
        var k2 := KeptPositions(xs);
        var s2 := ParseEntries(xs).value;
        assert k2 == kept + [last];
        assert s2 == steps + [e.value.value];
        forall k | 0 <= k < |k2| ensures k2[k] < |xs| && ParseEntry(xs[k2[k]]) == Ok(Some(s2[k])) {
          if k < |kept| {
            assert k2[k] == kept[k] && s2[k] == steps[k];
            assert xs[kept[k]] == init[kept[k]];
          }
        }
      }
    }
  }

  /** Every entry outside the kept positions is skipped. */
  lemma {:induction false} OthersAreSkipped(xs: seq<Value>)
    requires ParseEntries(xs).Ok?
    ensures forall j :: 0 <= j < |xs| && j !in KeptPositions(xs) ==> ParseEntry(xs[j]) == Ok(None)
  {
    if xs != [] {
      var init := xs[..|xs| - 1];
      var last := |xs| - 1;
      assert ParseEntries(init).Ok?;
      OthersAreSkipped(init);
      var kept := KeptPositions(init);
      var k2 := KeptPositions(xs);
      assert forall j :: j in kept ==> j in k2;
      forall j | 0 <= j < |xs| && j !in k2 ensures ParseEntry(xs[j]) == Ok(None) {
        if j < last {
          assert j !in kept && xs[j] == init[j];
        }
      }
    }
  }

  /** The parsed steps are an order-preserving selection of the entries: one step per kept entry, positions strictly increasing, and every other entry skipped. */
  lemma ParseIsSelection(xs: seq<Value>)
    requires ParseEntries(xs).Ok?
    ensures |KeptPositions(xs)| == |ParseEntries(xs).value|
    ensures forall k :: 0 <= k < |KeptPositions(xs)| ==> KeptPositions(xs)[k] < |xs|
    ensures forall k :: 0 <= k < |KeptPositions(xs)| ==>
      ParseEntry(xs[KeptPositions(xs)[k]]) == Ok(Some(ParseEntries(xs).value[k]))
    ensures forall k, l :: 0 <= k < l < |KeptPositions(xs)| ==> KeptPositions(xs)[k] < KeptPositions(xs)[l]
    ensures forall j :: 0 <= j < |xs| && j !in KeptPositions(xs) ==> ParseEntry(xs[j]) == Ok(None)
  {
    KeptPositionsIncrease(xs);
    KeptPositionsYieldSteps(xs);
    OthersAreSkipped(xs);
  }

  /** Step types are matched case-insensitively. */
  lemma TypeCaseInsensitive(d: Dict, t: string)
    ensures ParseEntry(Obj(d["type" := Str(t)])) == ParseEntry(Obj(d["type" := Str(Lower(t))]))
  {
    LowerIdempotent(t);
    var d1 := d["type" := Str(t)];
    var d2 := d["type" := Str(Lower(t))];
    assert StepType(d1) == StepType(d2) by {
      if t == [] {
        assert Lower(t) == [];
      } else {
        assert Lower(t) != [];
      }
    }
    SameFieldsSameEntry(d1, d2);
  }

  lemma SameFieldsSameEntry(d1: Dict, d2: Dict)
    requires StepType(d1) == StepType(d2)
    requires Get(d1, "action") == Get(d2, "action") && Get(d1, "name") == Get(d2, "name")
    requires Get(d1, "id") == Get(d2, "id") && Get(d1, "reason") == Get(d2, "reason")
    requires Get(d1, "expected_action") == Get(d2, "expected_action") && Get(d1, "timeout") == Get(d2, "timeout")
    ensures ParseEntry(Obj(d1)) == ParseEntry(Obj(d2))
  {
  }

  /** An action entry whose action is missing becomes an action step with an empty action; a non-dictionary truthy action is skipped. */
  lemma ActionPayloads(d: Dict)
    requires StepType(d) == Ok("action")
    ensures !Truthy(Get(d, "action")) ==> ParseEntry(Obj(d)) == Ok(Some(ActionStep(Get(d, "name"), map[])))
    ensures Truthy(Get(d, "action")) && !Get(d, "action").Obj? ==> ParseEntry(Obj(d)) == Ok(None)
    ensures Get(d, "action").Obj? && Truthy(Get(d, "action")) ==>
      ParseEntry(Obj(d)) == Ok(Some(ActionStep(Get(d, "name"), Get(d, "action").fields)))
  {
  }

  /** A checkpoint entry copies its five fields verbatim. */
  lemma CheckpointFieldsVerbatim(d: Dict)
    requires StepType(d) == Ok("checkpoint")
    ensures ParseEntry(Obj(d)) == Ok(Some(CheckpointStep(Get(d, "id"), Get(d, "name"), Get(d, "reason"),
                                                         Get(d, "expected_action"), Get(d, "timeout"))))
  {
  }

  /** Entries that are not dictionaries, and dictionaries of another type, are dropped. */
  lemma UnknownTypesDropped(d: Dict)
    requires StepType(d).Ok? && StepType(d).value != "action" && StepType(d).value != "checkpoint"
    ensures ParseEntry(Obj(d)) == Ok(None)
  {
  }
}
