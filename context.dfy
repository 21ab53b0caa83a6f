// The execution context of one flow run: its identifiers, input payload,
// manifest, step counter, runtime variables and stored checkpoints.
module Context {
  import opened Wrappers
  import opened Json

  /** A checkpoint memento: a dictionary whose keys may each be absent. */
  datatype Memento = Memento(
    runId: Option<string>,
    flowId: Option<string>,
    userId: Option<string>,
    currentStep: Option<int>,
    variables: Option<Dict>)

  /** The empty dictionary `{}` read as a memento. */
  const EmptyMemento := Memento(None, None, None, None, None)

  class RunContext {
    var runId: string
    var flowId: string
    var userId: string
    var inputPayload: Dict
    var manifest: Dict
    var currentStep: int
    var variables: Dict
    var checkpoints: map<string, Memento>

    /** A new context starts at step 0 with no variables and no checkpoints. */
    constructor (runId: string, flowId: string, userId: string, inputPayload: Dict, manifest: Dict)
      ensures this.runId == runId && this.flowId == flowId && this.userId == userId
      ensures this.inputPayload == inputPayload && this.manifest == manifest
      ensures currentStep == 0 && variables == map[] && checkpoints == map[]
    {
      this.runId := runId;
      this.flowId := flowId;
      this.userId := userId;
      this.inputPayload := inputPayload;
      this.manifest := manifest;
      currentStep := 0;
      variables := map[];
      checkpoints := map[];
    }

    /** The input value under `key`, or `default` when the input has no such key. */
    function GetInput(key: string, default: Value): (r: Value)
      reads this
      ensures key in inputPayload ==> r == inputPayload[key]
      ensures key !in inputPayload ==> r == default
    {
      GetOr(inputPayload, key, default)
    }

    /** The variable under `key`, or `default` when it is not set. */
    function GetVariable(key: string, default: Value): (r: Value)
      reads this
      ensures key in variables ==> r == variables[key]
      ensures key !in variables ==> r == default
    {
      GetOr(variables, key, default)
    }

    /** Sets one variable; every other variable and all checkpoints stay as they were. */
    method SetVariable(key: string, value: Value)
      modifies this
      ensures variables == old(variables)[key := value]
      ensures checkpoints == old(checkpoints) && currentStep == old(currentStep)
      ensures inputPayload == old(inputPayload) && manifest == old(manifest)
      ensures runId == old(runId) && flowId == old(flowId) && userId == old(userId)
      ensures forall d: Value :: GetVariable(key, d) == value
      ensures forall k, d: Value :: k != key ==> GetVariable(k, d) == old(GetVariable(k, d))
    {
      variables := variables[key := value];
    }

    /** Stores a checkpoint under its id, replacing an earlier one with that id. */
    method AddCheckpoint(checkpointId: string, data: Memento)
      modifies this
      ensures checkpoints == old(checkpoints)[checkpointId := data]
      ensures variables == old(variables) && currentStep == old(currentStep)
      ensures inputPayload == old(inputPayload) && manifest == old(manifest)
      ensures runId == old(runId) && flowId == old(flowId) && userId == old(userId)
      ensures GetCheckpoint(checkpointId) == data
    {
      checkpoints := checkpoints[checkpointId := data];
    }

    /** The stored checkpoint, or the empty memento for an unknown id. */
    function GetCheckpoint(checkpointId: string): (r: Memento)
      reads this
      ensures checkpointId in checkpoints ==> r == checkpoints[checkpointId]
      ensures checkpointId !in checkpoints ==> r == EmptyMemento
    {
      if checkpointId in checkpoints then checkpoints[checkpointId] else EmptyMemento
    }
  }
}
