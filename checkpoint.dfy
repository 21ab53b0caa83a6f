// Checkpoint memento helpers: taking a snapshot of a run context, restoring
// one into a context, and merging a resumed run's latest input into its
// input payload.
module Checkpoint {
  import opened Wrappers
  import opened Json
  import opened Context

  /** The memento of a context state. Values are immutable here, so the copy of the variables is already a deep copy. */
  function SnapshotOf(runId: string, flowId: string, userId: string, currentStep: int, variables: Dict): (m: Memento)
    ensures m != EmptyMemento
  {
    Memento(Some(runId), Some(flowId), Some(userId), Some(currentStep), Some(variables))
  }

  /** snapshot_context. */
  function Snapshot(ctx: RunContext): (m: Memento)
    reads ctx
    ensures m.currentStep == Some(ctx.currentStep) && m.variables == Some(ctx.variables)
    ensures m.runId == Some(ctx.runId) && m.flowId == Some(ctx.flowId) && m.userId == Some(ctx.userId)
  {
    SnapshotOf(ctx.runId, ctx.flowId, ctx.userId, ctx.currentStep, ctx.variables)
  }

  /** The variables a memento carries: `memento.get("variables") or {}`. */
  function MementoVariables(m: Memento): Dict
  {
    match m.variables
    case None => map[]
    case Some(v) => v
  }

  /** The step counter after a restore. */
  function RestoredStep(currentStep: int, m: Memento): (r: int)
    ensures m.currentStep.None? ==> r == currentStep
    ensures m.currentStep.Some? ==> r == m.currentStep.value
  {
    m.currentStep.GetOr(currentStep)
  }

  /** Restoring a snapshot brings the run back to the step it was taken at, wherever it stands now; restoring twice is restoring once; a memento without a step leaves the step alone. */
  lemma RestoreReturnsToSnapshotStep(now: int, runId: string, flowId: string, userId: string, step: int, variables: Dict, m: Memento)
    ensures RestoredStep(now, SnapshotOf(runId, flowId, userId, step, variables)) == step
    ensures RestoredStep(RestoredStep(now, m), m) == RestoredStep(now, m)
    ensures RestoredStep(now, EmptyMemento) == now
  {
  }

  /** The variables after a restore: an additive merge in which the memento's keys win. */
  function RestoredVariables(variables: Dict, m: Memento): (r: Dict)
    ensures r.Keys == variables.Keys + MementoVariables(m).Keys
    ensures forall k :: k in MementoVariables(m) ==> r[k] == MementoVariables(m)[k]
    ensures forall k :: k in variables && k !in MementoVariables(m) ==> r[k] == variables[k]
  {
    variables + MementoVariables(m)
  }

  /** restore_context: writes the memento's variables into the context one key at a time. */
  method Restore(ctx: RunContext, m: Memento)
    modifies ctx
    ensures ctx.currentStep == RestoredStep(old(ctx.currentStep), m)
    ensures ctx.variables == RestoredVariables(old(ctx.variables), m)
    ensures ctx.checkpoints == old(ctx.checkpoints) && ctx.inputPayload == old(ctx.inputPayload)
    ensures ctx.manifest == old(ctx.manifest)
    ensures ctx.runId == old(ctx.runId) && ctx.flowId == old(ctx.flowId) && ctx.userId == old(ctx.userId)
  {
    ctx.currentStep := RestoredStep(ctx.currentStep, m);
    var source := MementoVariables(m);
    var pending := source.Keys;
    while pending != {}
      invariant pending <= source.Keys
      invariant ctx.currentStep == RestoredStep(old(ctx.currentStep), m)
      invariant ctx.variables == old(ctx.variables) + map k | k in source && k !in pending :: source[k]
      invariant ctx.checkpoints == old(ctx.checkpoints) && ctx.inputPayload == old(ctx.inputPayload)
      invariant ctx.manifest == old(ctx.manifest)
      invariant ctx.runId == old(ctx.runId) && ctx.flowId == old(ctx.flowId) && ctx.userId == old(ctx.userId)
      decreases pending
    {
      var k :| k in pending;
      ctx.variables := ctx.variables[k := source[k]];
      pending := pending - {k};
    }
    assert (map k | k in source && k !in pending :: source[k]) == source;
  }

  /** Restoring a snapshot right after taking it changes neither the step counter nor the variables. */
  lemma RestoreSnapshotIsIdentity(runId: string, flowId: string, userId: string, currentStep: int, variables: Dict)
    ensures RestoredStep(currentStep, SnapshotOf(runId, flowId, userId, currentStep, variables)) == currentStep
    ensures RestoredVariables(variables, SnapshotOf(runId, flowId, userId, currentStep, variables)) == variables
  {
  }

  /** Restore never deletes a variable. */
  lemma RestoreKeepsVariables(variables: Dict, m: Memento)
    ensures variables.Keys <= RestoredVariables(variables, m).Keys
  {
  }

  /** merge_inputs: the latest input overrides the base input; a missing or empty latest input gives a copy of the base. */
  function MergeInputs(base: Dict, latest: Option<Dict>): (r: Dict)
    ensures latest.None? || latest == Some(map[]) ==> r == base
    ensures latest.Some? ==> r.Keys == base.Keys + latest.value.Keys
    ensures latest.Some? ==> forall k :: k in latest.value ==> r[k] == latest.value[k]
    ensures forall k :: k in base && (latest.None? || k !in latest.value) ==> r[k] == base[k]
  {
    match latest
    case None => base
    case Some(l) => if l == map[] then base else base + l
  }
}
