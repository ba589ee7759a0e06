/** The workflow orchestrator of src/orchestrator/workflow.py: the simulated
    per-step agent dispatcher, one sequential pass over a workflow's steps that
    files each step's outcome as a result or an error, and the in-memory
    workflow manager. */
module Orchestrator {
  import opened Values
  import opened Text
  import Agents

  /** One entry of a workflow's `steps` list.  `WellFormed` is a dict whose
      `agent_id` and `inputs` entries are read (absent entries read as None);
      `Malformed` is an entry on which reading those fields or merging the
      inputs raises, with the text of that exception. */
  datatype Step =
    | WellFormed(agentId: Option<string>, inputs: Option<Dict>)
    | Malformed(reason: string)

  /** A workflow configuration: its optional `id` and optional `steps`. */
  datatype WorkflowConfig = WorkflowConfig(id: Option<Value>, steps: Option<seq<Step>>)

  /** An entry of `results` (status "success") or of `errors` (status "failed"). */
  datatype StepOutcome =
    | Success(agentId: Option<string>, result: Dict)
    | Failure(agentId: Option<string>, error: string)
  {
    function Status(): string {
      if Success? then "success" else "failed"
    }
  }

  /** The dict `execute_workflow` returns: after a full pass (with the three
      counts) or after an exception outside the per-step handler (no counts). */
  datatype WorkflowResult =
    | Finished(workflowId: Value, status: string, results: seq<StepOutcome>, errors: seq<StepOutcome>,
               totalSteps: nat, successfulSteps: nat, failedSteps: nat)
    | Aborted(workflowId: Value, error: string, results: seq<StepOutcome>, errors: seq<StepOutcome>)
  {
    /** The `status` entry of the returned dict. */
    function OverallStatus(): string {
      if Aborted? then "failed" else status
    }
  }

  // ---------------------------------------------------------------------------
  // Input layering

  /** `step_inputs`, after `{**step_inputs, **inputs}` when the workflow inputs
      are given and non-empty: workflow-level values win on a shared key. */
  function MergeInputs(stepInputs: Dict, inputs: Option<Dict>): (m: Dict)
    ensures inputs.Some? ==> m.Keys == stepInputs.Keys + inputs.value.Keys
    ensures inputs.Some? ==> forall k :: k in inputs.value ==> m[k] == inputs.value[k]
    ensures forall k :: k in stepInputs && (inputs.None? || k !in inputs.value) ==> k in m && m[k] == stepInputs[k]
    ensures inputs.None? || inputs.value == map[] ==> m == stepInputs
  {
    if inputs.Some? && inputs.value != map[] then stepInputs + inputs.value else stepInputs
  }

  // ---------------------------------------------------------------------------
  // The simulated dispatcher

  /** `_execute_agent_step(agent_id, inputs)`.  The agent id is tested for the
      substring `task-runner` before `data-processor`; a missing id raises on
      the first substring test. */
  function ExecuteAgentStep(agentId: Option<string>, inputs: Dict): (r: Result<Dict, Fault>)
    ensures agentId.None? ==> r == Err(NotIterable("NoneType"))
    ensures agentId.Some? && Contains(agentId.value, "task-runner") ==>
      r == Ok(map["output" := Str("Executed task: " + Display(Get(inputs, "task", Str("unknown")))),
                  "timestamp" := Str("simulated")])
    ensures agentId.Some? && !Contains(agentId.value, "task-runner") && !Contains(agentId.value, "data-processor") ==>
      r == Ok(map["message" := Str("Simulated execution for agent " + agentId.value)])
    ensures
      var data, op := Get(inputs, "data", Str("")), Get(inputs, "operation", Str("unknown"));
      agentId.Some? && !Contains(agentId.value, "task-runner") && Contains(agentId.value, "data-processor") ==>
        && (r.Err? <==> !data.Str? && (op == Str("count_words") || op == Str("uppercase")))
        && (op == Str("count_words") && data.Str? ==> r == Ok(map["word_count" := Int(WordCount(data.s))]))
        && (op == Str("uppercase") && data.Str? ==> r == Ok(map["processed_data" := Str(Upper(data.s))]))
        && (op != Str("count_words") && op != Str("uppercase") ==> r == Ok(map["processed_data" := data]))
    ensures r.Err? ==> agentId.None? || (Contains(agentId.value, "data-processor") && !Get(inputs, "data", Str("")).Str?)
    ensures r.Err? && agentId.Some? ==>
      r.error == NoAttribute(TypeName(Get(inputs, "data", Str(""))),
                             if Get(inputs, "operation", Str("unknown")) == Str("count_words") then "split" else "upper")
  {
    match agentId
    case None => Err(NotIterable("NoneType"))
    case Some(id) =>
      if Contains(id, "task-runner") then
        Ok(map["output" := Str("Executed task: " + Display(Get(inputs, "task", Str("unknown")))),
               "timestamp" := Str("simulated")])
      else if Contains(id, "data-processor") then
        var op := Get(inputs, "operation", Str("unknown"));
        var data := Get(inputs, "data", Str(""));
        if op == Str("count_words") then
          match data
          case Str(s) => SplitCount(s); Ok(map["word_count" := Int(|Split(s)|)])
          case _ => Err(NoAttribute(TypeName(data), "split"))
        else if op == Str("uppercase") then
          match data
          case Str(s) => Ok(map["processed_data" := Str(Upper(s))])
          case _ => Err(NoAttribute(TypeName(data), "upper"))
        else
          Ok(map["processed_data" := data])
      else
        Ok(map["message" := Str("Simulated execution for agent " + id)])
  }

  /** Unlike `DataProcessorAgent`, the dispatcher has no `lowercase` operation:
      it hands the data back unchanged where the agent lower-cases it. */
  lemma DispatcherLowercaseFallback(agentId: string, data: string)
    requires !Contains(agentId, "task-runner") && Contains(agentId, "data-processor")
    ensures
      var inputs := map["data" := Str(data), "operation" := Str("lowercase")];
      && ExecuteAgentStep(Some(agentId), inputs) == Ok(map["processed_data" := Str(data)])
      && Agents.DataProcessorExecute(inputs) == Ok(map["processed_data" := Str(Lower(data))])
  {
  }

  // ---------------------------------------------------------------------------
  // One pass over the steps, as a specification

  /** How `agent_id` is printed in an error message. */
  function ShowAgentId(agentId: Option<string>): string {
    match agentId
    case Some(id) => id
    case None => "None"
  }

  function FailureMessage(agentId: Option<string>, f: Fault): string {
    "Failed to execute agent " + ShowAgentId(agentId) + ": " + FaultText(f)
  }

  /** The entry one step with merged inputs `stepInputs` contributes. */
  function RunStep(agentId: Option<string>, stepInputs: Dict): (o: StepOutcome)
    ensures o.Success? <==> ExecuteAgentStep(agentId, stepInputs).Ok?
    ensures o.agentId == agentId
    ensures o.Success? ==> agentId.Some? && o.result == ExecuteAgentStep(agentId, stepInputs).value
    ensures o.Failure? ==> o.error == FailureMessage(agentId, ExecuteAgentStep(agentId, stepInputs).error)
  {
    match ExecuteAgentStep(agentId, stepInputs)
    case Ok(out) => Success(agentId, out)
    case Err(e) => Failure(agentId, FailureMessage(agentId, e))
  }

  /** A step whose `agent_id` is missing fails with the substring test's
      TypeError, and the pass goes on. */
  lemma MissingAgentIdFails(stepInputs: Dict)
    ensures RunStep(None, stepInputs) ==
      Failure(None, "Failed to execute agent None: " + "argument of type 'NoneType' is not iterable")
  {
  }

  function StepInputs(step: Step, inputs: Option<Dict>): Dict
    requires step.WellFormed?
  {
    MergeInputs(step.inputs.GetOr(map[]), inputs)
  }

  /** The entries of the steps before the first malformed one, in step order. */
  function Outcomes(steps: seq<Step>, inputs: Option<Dict>): seq<StepOutcome> {
    if steps == [] then []
    else match steps[0]
      case Malformed(_) => []
      case WellFormed(agentId, _) => [RunStep(agentId, StepInputs(steps[0], inputs))] + Outcomes(steps[1..], inputs)
  }

  /** The exception text of the first malformed step, if any. */
  function AbortReason(steps: seq<Step>): Option<string> {
    if steps == [] then None
    else match steps[0]
      case Malformed(reason) => Some(reason)
      case WellFormed(_, _) => AbortReason(steps[1..])
  }

  /** The entries filed in `results`, in order. */
  function Successes(os: seq<StepOutcome>): (r: seq<StepOutcome>)
    ensures forall k :: 0 <= k < |r| ==> r[k].Success?
  {
    if os == [] then []
    else (if os[0].Success? then [os[0]] else []) + Successes(os[1..])
  }

  /** The entries filed in `errors`, in order. */
  function Failures(os: seq<StepOutcome>): (r: seq<StepOutcome>)
    ensures forall k :: 0 <= k < |r| ==> r[k].Failure?
  {
    if os == [] then []
    else (if os[0].Failure? then [os[0]] else []) + Failures(os[1..])
  }

  /** `execute_workflow(workflow_config, inputs)` as a function of its inputs. */
  function Run(config: WorkflowConfig, inputs: Option<Dict>): (r: WorkflowResult)
    ensures r.workflowId == config.id.GetOr(Str("unknown"))
    ensures r.OverallStatus() in {"completed", "partial_success", "failed"}
    ensures r.OverallStatus() == "failed" <==> r.Aborted?
    ensures r.Finished? ==> (r.status == "completed" <==> r.errors == [])
    ensures r.Finished? ==>
      && r.totalSteps == |config.steps.GetOr([])|
      && r.successfulSteps == |r.results|
      && r.failedSteps == |r.errors|
  {
    var steps := config.steps.GetOr([]);
    var os := Outcomes(steps, inputs);
    var results, errors := Successes(os), Failures(os);
    var id := config.id.GetOr(Str("unknown"));
    match AbortReason(steps)
    case Some(reason) => Aborted(id, reason, results, errors)
    case None =>
      Finished(id, if errors == [] then "completed" else "partial_success", results, errors,
               |steps|, |results|, |errors|)
  }

  // ---------------------------------------------------------------------------
  // Lemmas about the pass

  lemma {:induction false} FiltersAppend(a: seq<StepOutcome>, b: seq<StepOutcome>)
    ensures Successes(a + b) == Successes(a) + Successes(b)
    ensures Failures(a + b) == Failures(a) + Failures(b)
  {
    if a == [] {
      assert a + b == b;
    } else {
      assert (a + b)[0] == a[0] && (a + b)[1..] == a[1..] + b;
      FiltersAppend(a[1..], b);
    }
  }

  /** Every entry goes to exactly one of the two lists. */
  lemma {:induction false} FiltersPartition(os: seq<StepOutcome>)
    ensures |Successes(os)| + |Failures(os)| == |os|
  {
    if os != [] {
      FiltersPartition(os[1..]);
    }
  }

  lemma {:induction false} OutcomesAppend(a: seq<Step>, b: seq<Step>, inputs: Option<Dict>)
    requires forall j :: 0 <= j < |a| ==> a[j].WellFormed?
    ensures Outcomes(a + b, inputs) == Outcomes(a, inputs) + Outcomes(b, inputs)
    ensures AbortReason(a + b) == AbortReason(b)
  {
    if a == [] {
      assert a + b == b;
    } else {
      assert (a + b)[0] == a[0] && (a + b)[1..] == a[1..] + b;
      OutcomesAppend(a[1..], b, inputs);
    }
  }

  /** Without a malformed step, every step yields one entry; with one, the
      pass stops at the first and reports its exception. */
  lemma {:induction false} OutcomesShape(steps: seq<Step>, inputs: Option<Dict>)
    ensures AbortReason(steps).None? <==> forall j :: 0 <= j < |steps| ==> steps[j].WellFormed?
    ensures AbortReason(steps).None? ==> |Outcomes(steps, inputs)| == |steps|
    ensures AbortReason(steps).Some? ==> exists k :: FirstMalformedAt(steps, k)
  {
    if steps != [] {
      OutcomesShape(steps[1..], inputs);
      if steps[0].WellFormed? {
        if AbortReason(steps).Some? {
          var k :| FirstMalformedAt(steps[1..], k);
          assert FirstMalformedAt(steps, k + 1);
        } else {
          assert forall j :: 1 <= j < |steps| ==> steps[j] == steps[1..][j - 1];
        }
      } else {
        assert FirstMalformedAt(steps, 0);
      }
    }
  }

  /** Step `k` is malformed and every step before it is well formed. */
  ghost predicate FirstMalformedAt(steps: seq<Step>, k: int) {
    && 0 <= k < |steps|
    && steps[k].Malformed?
    && AbortReason(steps) == Some(steps[k].reason)
    && forall j :: 0 <= j < k ==> steps[j].WellFormed?
  }

  /** On a full pass the counts add up: every step is filed once. */
  lemma CountsAddUp(config: WorkflowConfig, inputs: Option<Dict>)
    ensures Run(config, inputs).Finished? ==>
      Run(config, inputs).successfulSteps + Run(config, inputs).failedSteps == Run(config, inputs).totalSteps
  {
    var steps := config.steps.GetOr([]);
    OutcomesShape(steps, inputs);
    FiltersPartition(Outcomes(steps, inputs));
  }

  /** The pass aborts exactly when one of the steps is malformed. */
  lemma AbortsIff(config: WorkflowConfig, inputs: Option<Dict>)
    ensures Run(config, inputs).Aborted? <==>
      exists j :: 0 <= j < |config.steps.GetOr([])| && config.steps.GetOr([])[j].Malformed?
  {
    OutcomesShape(config.steps.GetOr([]), inputs);
  }

  /** The entries gathered before the first malformed step are all there are. */
  lemma OutcomesBeforeAbort(steps: seq<Step>, inputs: Option<Dict>, k: int)
    requires FirstMalformedAt(steps, k)
    ensures Outcomes(steps, inputs) == Outcomes(steps[..k], inputs)
  {
    assert steps == steps[..k] + steps[k..];
    OutcomesAppend(steps[..k], steps[k..], inputs);
    assert steps[k..][0] == steps[k];
    assert Outcomes(steps[k..], inputs) == [];
  }

  /** A pass that meets a malformed step at `i` after `i` well-formed ones
      stops there. */
  lemma AbortAt(steps: seq<Step>, inputs: Option<Dict>, i: nat)
    requires i < |steps| && steps[i].Malformed?
    requires forall j :: 0 <= j < i ==> steps[j].WellFormed?
    ensures AbortReason(steps) == Some(steps[i].reason)
    ensures Outcomes(steps, inputs) == Outcomes(steps[..i], inputs)
  {
    assert steps == steps[..i] + steps[i..];
    OutcomesAppend(steps[..i], steps[i..], inputs);
    assert steps[i..][0] == steps[i];
    assert FirstMalformedAt(steps, i);
    OutcomesBeforeAbort(steps, inputs, i);
  }

  /** A well-formed step at `i` after `i` well-formed ones adds its entry. */
  lemma OutcomesSnoc(steps: seq<Step>, inputs: Option<Dict>, i: nat)
    requires i < |steps| && steps[i].WellFormed?
    requires forall j :: 0 <= j < i ==> steps[j].WellFormed?
    ensures Outcomes(steps[..i + 1], inputs) ==
      Outcomes(steps[..i], inputs) + [RunStep(steps[i].agentId, StepInputs(steps[i], inputs))]
  {
    assert steps[..i + 1] == steps[..i] + [steps[i]];
    OutcomesAppend(steps[..i], [steps[i]], inputs);
  }

  /** An aborted pass reports the first malformed step's exception together
      with the entries of every step before it. */
  lemma AbortKeepsPartialResults(config: WorkflowConfig, inputs: Option<Dict>)
    ensures
      var steps, r := config.steps.GetOr([]), Run(config, inputs);
      r.Aborted? ==> exists k ::
        && FirstMalformedAt(steps, k)
        && r.error == steps[k].reason
        && r.results == Successes(Outcomes(steps[..k], inputs))
        && r.errors == Failures(Outcomes(steps[..k], inputs))
  {
    var steps := config.steps.GetOr([]);
    OutcomesShape(steps, inputs);
    if AbortReason(steps).Some? {
      var k :| FirstMalformedAt(steps, k);
      OutcomesBeforeAbort(steps, inputs, k);
    }
  }

  /** Step `i` of a pass that reaches it contributes the `i`-th entry. */
  lemma {:induction false} OutcomeAt(steps: seq<Step>, inputs: Option<Dict>, i: nat)
    requires i < |steps|
    requires forall j :: 0 <= j <= i ==> steps[j].WellFormed?
    ensures i < |Outcomes(steps, inputs)|
    ensures Outcomes(steps, inputs)[i] == RunStep(steps[i].agentId, StepInputs(steps[i], inputs))
  {
    if i > 0 {
      OutcomeAt(steps[1..], inputs, i - 1);
    }
  }

  /** An empty workflow completes with all counts zero. */
  lemma ZeroSteps(config: WorkflowConfig, inputs: Option<Dict>)
    requires config.steps.None? || config.steps.value == []
    ensures Run(config, inputs) ==
      Finished(config.id.GetOr(Str("unknown")), "completed", [], [], 0, 0, 0)
  {
  }

  // ---------------------------------------------------------------------------
  // The pass itself

  /** Filing step `i` extends the two lists of the first `i` steps. */
  lemma PassStep(steps: seq<Step>, inputs: Option<Dict>, i: nat)
    requires i < |steps| && steps[i].WellFormed?
    requires forall j :: 0 <= j < i ==> steps[j].WellFormed?
    ensures
      var o := RunStep(steps[i].agentId, StepInputs(steps[i], inputs));
      && Successes(Outcomes(steps[..i + 1], inputs)) == Successes(Outcomes(steps[..i], inputs)) + Successes([o])
      && Failures(Outcomes(steps[..i + 1], inputs)) == Failures(Outcomes(steps[..i], inputs)) + Failures([o])
  {
    OutcomesSnoc(steps, inputs, i);
    FiltersAppend(Outcomes(steps[..i], inputs), [RunStep(steps[i].agentId, StepInputs(steps[i], inputs))]);
  }

  lemma RunWhenAborted(config: WorkflowConfig, inputs: Option<Dict>, i: nat)
    requires i < |config.steps.GetOr([])| && config.steps.GetOr([])[i].Malformed?
    requires forall j :: 0 <= j < i ==> config.steps.GetOr([])[j].WellFormed?
    ensures
      var steps := config.steps.GetOr([]);
      var os := Outcomes(steps[..i], inputs);
      Run(config, inputs) == Aborted(config.id.GetOr(Str("unknown")), steps[i].reason, Successes(os), Failures(os))
  {
    AbortAt(config.steps.GetOr([]), inputs, i);
  }

  lemma RunWhenFinished(config: WorkflowConfig, inputs: Option<Dict>)
    requires forall j :: 0 <= j < |config.steps.GetOr([])| ==> config.steps.GetOr([])[j].WellFormed?
    ensures
      var steps := config.steps.GetOr([]);
      var os := Outcomes(steps, inputs);
      Run(config, inputs) == Finished(config.id.GetOr(Str("unknown")),
        if Failures(os) == [] then "completed" else "partial_success",
        Successes(os), Failures(os), |steps|, |Successes(os)|, |Failures(os)|)
  {
    OutcomesShape(config.steps.GetOr([]), inputs);
  }

  /** The per-step handler of `execute_workflow`: runs the agent step and
      appends its entry to `results` on success or to `errors` on failure. */
  method FileStep(results: seq<StepOutcome>, errors: seq<StepOutcome>, agentId: Option<string>, stepInputs: Dict)
    returns (results': seq<StepOutcome>, errors': seq<StepOutcome>)
    ensures results' == results + Successes([RunStep(agentId, stepInputs)])
    ensures errors' == errors + Failures([RunStep(agentId, stepInputs)])
  {
    match ExecuteAgentStep(agentId, stepInputs) {
      case Ok(result) =>
        results', errors' := results + [Success(agentId, result)], errors;
      case Err(e) =>
        results', errors' := results, errors + [Failure(agentId, FailureMessage(agentId, e))];
    }
  }

  /** `WorkflowOrchestrator.execute_workflow`: walks the steps in order,
      layering the workflow inputs over each step's inputs, and files each
      outcome in `results` or `errors`. */
  method ExecuteWorkflow(config: WorkflowConfig, inputs: Option<Dict>) returns (r: WorkflowResult)
    ensures r == Run(config, inputs)
  {
    var workflowId := config.id.GetOr(Str("unknown"));
    var results: seq<StepOutcome> := [];
    var errors: seq<StepOutcome> := [];
    var steps := config.steps.GetOr([]);
    var i := 0;
    assert steps[..0] == [];
    while i < |steps|
      invariant 0 <= i <= |steps|
      invariant forall j :: 0 <= j < i ==> steps[j].WellFormed?
      invariant results == Successes(Outcomes(steps[..i], inputs))
      invariant errors == Failures(Outcomes(steps[..i], inputs))
    {
      match steps[i]
      case Malformed(reason) =>
        RunWhenAborted(config, inputs, i);
        return Aborted(workflowId, reason, results, errors);
      case WellFormed(agentId, stepInputsEntry) =>
        var stepInputs := stepInputsEntry.GetOr(map[]);
        if inputs.Some? && inputs.value != map[] {
          stepInputs := stepInputs + inputs.value;
        }
        assert stepInputs == StepInputs(steps[i], inputs);
        PassStep(steps, inputs, i);
        results, errors := FileStep(results, errors, agentId, stepInputs);
        assert forall j :: 0 <= j < i + 1 ==> steps[j].WellFormed? by {
          assert steps[i].WellFormed?;
        }
        i := i + 1;
    }
    assert steps[..i] == steps;
    RunWhenFinished(config, inputs);
    r := Finished(workflowId, if errors == [] then "completed" else "partial_success",
                  results, errors, |steps|, |results|, |errors|);
  }

  // ---------------------------------------------------------------------------
  // WorkflowManager

  /** `WorkflowManager`: workflow configurations by id, held in memory. */
  class WorkflowManager {
    var workflows: map<Value, WorkflowConfig>

    /** Every stored configuration is filed under its own id. */
    ghost predicate Valid()
      reads this
    {
      forall k :: k in workflows ==> workflows[k].id == Some(k)
    }

    constructor ()
      ensures Valid() && workflows == map[]
    {
      workflows := map[];
    }

    /** `create_workflow(config)`: stores the config under its `id`, replacing
        any earlier one; a config without `id` raises KeyError. */
    method CreateWorkflow(config: WorkflowConfig) returns (r: Result<Value, Fault>)
      modifies this
      ensures config.id.None? ==> r == Err(MissingKey("id")) && workflows == old(workflows)
      ensures config.id.Some? ==>
        r == Ok(config.id.value) && workflows == old(workflows)[config.id.value := config]
      ensures old(Valid()) ==> Valid()
    {
      if config.id.None? {
        return Err(MissingKey("id"));
      }
      var id := config.id.value;
      workflows := workflows[id := config];
      r := Ok(id);
    }

    /** `get_workflow(id)`: the stored config, or None. */
    function GetWorkflow(id: Value): (r: Option<WorkflowConfig>)
      reads this
      ensures r.Some? <==> id in workflows
      ensures r.Some? ==> r.value == workflows[id]
    {
      if id in workflows then Some(workflows[id]) else None
    }

    /** `execute_workflow(id, inputs)`: runs the stored config; an unknown id
        raises ValueError.  The store is not changed.  Under `Valid()` no stored
        config is the empty dict, so the falsiness test is the absence test. */
    method ExecuteWorkflowById(id: Value, inputs: Option<Dict>) returns (r: Result<WorkflowResult, Fault>)
      requires Valid()
      ensures id !in workflows ==> r == Err(NotFound("Workflow not found: " + Display(id)))
      ensures id in workflows ==> r == Ok(Run(workflows[id], inputs))
      ensures id in workflows ==> r.Ok? && r.value.workflowId == id
    {
      var config := GetWorkflow(id);
      if config.None? {
        return Err(NotFound("Workflow not found: " + Display(id)));
      }
      var result := ExecuteWorkflow(config.value, inputs);
      r := Ok(result);
    }
  }
}
