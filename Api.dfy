/** The HTTP handlers of src/api/main.py over their two collections.  Each
    handler loads the whole agents or workflows list, changes it and writes it
    back; here the two lists are fields of a `Store`, and the handlers are its
    methods.  A 400 or 404 `HTTPException` becomes an `HttpError` result. */
module Api {
  import opened Values

  /** The `Agent` record. */
  datatype Agent = Agent(id: string, name: string, description: string, agentType: string, config: Dict)

  /** The `Workflow` record. */
  datatype Workflow = Workflow(
    id: string, name: string, description: string, agents: seq<string>,
    steps: seq<Dict>, status: string, createdAt: Option<string>)

  /** The `WorkflowExecution` request body. */
  datatype WorkflowExecution = WorkflowExecution(workflowId: string, inputs: Dict)

  /** The response of the execute handler. */
  datatype ExecutionResponse = ExecutionResponse(
    workflowId: string, status: string, timestamp: string, inputs: Dict, outputs: Dict)

  datatype HttpError = HttpError(statusCode: int, detail: string)

  /** An `Agent` built from a request; a missing `config` defaults to `{}`. */
  function NewAgent(id: string, name: string, description: string, agentType: string, config: Option<Dict>): (a: Agent)
    ensures a.id == id && a.name == name && a.description == description && a.agentType == agentType
    ensures config.None? ==> a.config == map[]
    ensures config.Some? ==> a.config == config.value
  {
    Agent(id, name, description, agentType, config.GetOr(map[]))
  }

  /** A `Workflow` built from a request; missing `steps`, `status` and
      `created_at` default to `[]`, `"pending"` and None. */
  function NewWorkflow(id: string, name: string, description: string, agents: seq<string>,
                       steps: Option<seq<Dict>>, status: Option<string>, createdAt: Option<string>): (w: Workflow)
    ensures w.id == id && w.name == name && w.description == description && w.agents == agents
    ensures steps.None? ==> w.steps == []
    ensures status.None? ==> w.status == "pending"
    ensures steps.Some? ==> w.steps == steps.value
    ensures status.Some? ==> w.status == status.value
    ensures w.createdAt == createdAt
  {
    Workflow(id, name, description, agents, steps.GetOr([]), status.GetOr("pending"), createdAt)
  }

  /** A `WorkflowExecution` body; missing `inputs` default to `{}`. */
  function NewExecution(workflowId: string, inputs: Option<Dict>): (e: WorkflowExecution)
    ensures e.workflowId == workflowId
    ensures inputs.None? ==> e.inputs == map[]
    ensures inputs.Some? ==> e.inputs == inputs.value
  {
    WorkflowExecution(workflowId, inputs.GetOr(map[]))
  }

  // ---------------------------------------------------------------------------
  // Ids and lookup

  function AgentIds(s: seq<Agent>): (ids: seq<string>)
    ensures |ids| == |s| && forall k :: 0 <= k < |s| ==> ids[k] == s[k].id
  {
    if s == [] then [] else [s[0].id] + AgentIds(s[1..])
  }

  function WorkflowIds(s: seq<Workflow>): (ids: seq<string>)
    ensures |ids| == |s| && forall k :: 0 <= k < |s| ==> ids[k] == s[k].id
  {
    if s == [] then [] else [s[0].id] + WorkflowIds(s[1..])
  }

  /** No id occurs twice. */
  predicate Unique(ids: seq<string>) {
    forall i, j :: 0 <= i < j < |ids| ==> ids[i] != ids[j]
  }

  /** The position of the first occurrence of `id`, as `next(...)` finds it. */
  function FirstIndex(ids: seq<string>, id: string): (r: Option<nat>)
    ensures r.None? <==> id !in ids
    ensures r.Some? ==> r.value < |ids| && ids[r.value] == id
    ensures r.Some? ==> forall j :: 0 <= j < r.value ==> ids[j] != id
  {
    if ids == [] then None
    else if ids[0] == id then Some(0)
    else match FirstIndex(ids[1..], id)
      case None => None
      case Some(k) => Some(k + 1)
  }

  /** With unique ids the first occurrence is the only one. */
  lemma FirstIndexUnique(ids: seq<string>, id: string, k: nat)
    requires Unique(ids) && k < |ids| && ids[k] == id
    ensures FirstIndex(ids, id) == Some(k)
  {
  }

  /** Appending a fresh id keeps the ids unique. */
  lemma AppendFreshUnique(ids: seq<string>, id: string)
    requires Unique(ids) && id !in ids
    ensures Unique(ids + [id])
  {
  }

  // ---------------------------------------------------------------------------
  // The collections and their handlers

  class Store {
    var agents: seq<Agent>
    var workflows: seq<Workflow>

    /** The collections as loaded from storage. */
    constructor (agents: seq<Agent>, workflows: seq<Workflow>)
      ensures this.agents == agents && this.workflows == workflows
    {
      this.agents := agents;
      this.workflows := workflows;
    }

    /** `create_agent`: a duplicate id is refused with 400 and nothing changes;
        otherwise the agent is appended and echoed back. */
    method CreateAgent(agent: Agent) returns (r: Result<Agent, HttpError>)
      modifies this`agents
      ensures agent.id in old(AgentIds(agents)) ==>
        r == Err(HttpError(400, "Agent with this ID already exists")) && agents == old(agents)
      ensures agent.id !in old(AgentIds(agents)) ==>
        r == Ok(agent) && agents == old(agents) + [agent]
      ensures Unique(old(AgentIds(agents))) ==> Unique(AgentIds(agents))
    {
      if agent.id in AgentIds(agents) {
        return Err(HttpError(400, "Agent with this ID already exists"));
      }
      assert AgentIds(agents + [agent]) == AgentIds(agents) + [agent.id];
      if Unique(AgentIds(agents)) {
        AppendFreshUnique(AgentIds(agents), agent.id);
      }
      agents := agents + [agent];
      r := Ok(agent);
    }

    /** `get_agent`: the first agent with the id, else 404. */
    function GetAgent(id: string): (r: Result<Agent, HttpError>)
      reads this
      ensures r.Err? <==> id !in AgentIds(agents)
      ensures r.Err? ==> r.error == HttpError(404, "Agent not found")
      ensures r.Ok? ==> r.value.id == id && exists k ::
        && 0 <= k < |agents| && agents[k] == r.value
        && forall j :: 0 <= j < k ==> agents[j].id != id
    {
      match FirstIndex(AgentIds(agents), id)
      case None => Err(HttpError(404, "Agent not found"))
      case Some(k) => Ok(agents[k])
    }

    /** `create_workflow`: a duplicate id is refused with 400 and nothing
        changes; otherwise the workflow is stamped with `now` as its
        `created_at`, appended and echoed back. */
    method CreateWorkflow(workflow: Workflow, now: string) returns (r: Result<Workflow, HttpError>)
      modifies this`workflows
      ensures workflow.id in old(WorkflowIds(workflows)) ==>
        r == Err(HttpError(400, "Workflow with this ID already exists")) && workflows == old(workflows)
      ensures workflow.id !in old(WorkflowIds(workflows)) ==>
        && r == Ok(workflow.(createdAt := Some(now)))
        && workflows == old(workflows) + [workflow.(createdAt := Some(now))]
      ensures Unique(old(WorkflowIds(workflows))) ==> Unique(WorkflowIds(workflows))
    {
      if workflow.id in WorkflowIds(workflows) {
        return Err(HttpError(400, "Workflow with this ID already exists"));
      }
      var stamped := workflow.(createdAt := Some(now));
      assert WorkflowIds(workflows + [stamped]) == WorkflowIds(workflows) + [stamped.id];
      if Unique(WorkflowIds(workflows)) {
        AppendFreshUnique(WorkflowIds(workflows), stamped.id);
      }
      workflows := workflows + [stamped];
      r := Ok(stamped);
    }

    /** `get_workflow`: the first workflow with the id, else 404. */
    function GetWorkflow(id: string): (r: Result<Workflow, HttpError>)
      reads this
      ensures r.Err? <==> id !in WorkflowIds(workflows)
      ensures r.Err? ==> r.error == HttpError(404, "Workflow not found")
      ensures r.Ok? ==> r.value.id == id && exists k ::
        && 0 <= k < |workflows| && workflows[k] == r.value
        && forall j :: 0 <= j < k ==> workflows[j].id != id
    {
      match FirstIndex(WorkflowIds(workflows), id)
      case None => Err(HttpError(404, "Workflow not found"))
      case Some(k) => Ok(workflows[k])
    }

    /** `execute_workflow`: an unknown id is refused with 404 and nothing
        changes; otherwise the first workflow with the id gets status
        "completed", whatever its steps, and every other record and field is
        left as it was.  The path id is used; the body's `workflow_id` is not. */
    method ExecuteWorkflow(workflowId: string, execution: WorkflowExecution, now: string)
      returns (r: Result<ExecutionResponse, HttpError>)
      modifies this`workflows
      ensures workflowId !in old(WorkflowIds(workflows)) ==>
        r == Err(HttpError(404, "Workflow not found")) && workflows == old(workflows)
      ensures workflowId in old(WorkflowIds(workflows)) ==>
        var k := FirstIndex(old(WorkflowIds(workflows)), workflowId).value;
        && workflows == old(workflows)[k := old(workflows)[k].(status := "completed")]
        && r == Ok(ExecutionResponse(workflowId, "executed", now, execution.inputs,
                     map["message" := Str("Workflow " + old(workflows)[k].name + " executed successfully")]))
      ensures WorkflowIds(workflows) == old(WorkflowIds(workflows))
    {
      var found := FirstIndex(WorkflowIds(workflows), workflowId);
      if found.None? {
        return Err(HttpError(404, "Workflow not found"));
      }
      var k := found.value;
      var workflow := workflows[k];
      r := Ok(ExecutionResponse(workflowId, "executed", now, execution.inputs,
                map["message" := Str("Workflow " + workflow.name + " executed successfully")]));
      workflows := workflows[k := workflow.(status := "completed")];
    }
  }

  /** Executing a workflow changes only the status of that one record. */
  lemma ExecuteFrame(ws: seq<Workflow>, k: nat)
    requires k < |ws|
    ensures
      var ws' := ws[k := ws[k].(status := "completed")];
      && |ws'| == |ws|
      && WorkflowIds(ws') == WorkflowIds(ws)
      && (forall j :: 0 <= j < |ws| && j != k ==> ws'[j] == ws[j])
      && ws'[k].status == "completed"
      && ws'[k].(status := ws[k].status) == ws[k]
  {
  }
}
