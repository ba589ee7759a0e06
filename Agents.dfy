/** The reference agents of src/agents/base.py: a task runner and a data
    processor over the abstract agent lifecycle (initialize, execute, cleanup),
    and the registry from class names to agent classes.  Agents are values:
    their fields are fixed when they are built. */
module Agents {
  import opened Values
  import opened Text

  /** The concrete agent classes; the abstract base class has no instances. */
  datatype AgentClass = TaskRunnerAgent | DataProcessorAgent

  /** `cls.__name__`. */
  function ClassName(c: AgentClass): string {
    match c
    case TaskRunnerAgent => "TaskRunnerAgent"
    case DataProcessorAgent => "DataProcessorAgent"
  }

  /** The `AGENT_CLASSES` registry. */
  const AgentClasses: map<string, AgentClass> :=
    map["TaskRunnerAgent" := TaskRunnerAgent, "DataProcessorAgent" := DataProcessorAgent]

  /** The registry holds exactly the two reference classes, each under its own
      class name. */
  lemma RegistryContents()
    ensures AgentClasses.Keys == {"TaskRunnerAgent", "DataProcessorAgent"}
    ensures |AgentClasses| == 2
    ensures forall name :: name in AgentClasses ==> ClassName(AgentClasses[name]) == name
    ensures forall c: AgentClass :: ClassName(c) in AgentClasses && AgentClasses[ClassName(c)] == c
  {
  }

  datatype Agent = Agent(cls: AgentClass, agentId: string, config: Dict)

  /** `BaseAgent.__init__(agent_id, config)`: a missing or empty config is
      replaced by a fresh empty dict. */
  function NewAgent(cls: AgentClass, agentId: string, config: Option<Dict>): (a: Agent)
    ensures a.cls == cls && a.agentId == agentId
    ensures config.None? ==> a.config == map[]
    ensures config.Some? ==> a.config == config.value
  {
    Agent(cls, agentId, if config.Some? && config.value != map[] then config.value else map[])
  }

  datatype AgentInfo = AgentInfo(id: string, agentType: string, config: Dict)

  /** `get_info()`: the id, the class name and the config. */
  function GetInfo(a: Agent): (info: AgentInfo)
    ensures info.id == a.agentId && info.config == a.config
    ensures info.agentType in AgentClasses && AgentClasses[info.agentType] == a.cls
  {
    AgentInfo(a.agentId, ClassName(a.cls), a.config)
  }

  /** `initialize()` of both reference agents always succeeds. */
  function Initialize(a: Agent): (ok: bool)
    ensures ok
  {
    true
  }

  /** `cleanup()` of both reference agents always succeeds. */
  function Cleanup(a: Agent): (ok: bool)
    ensures ok
  {
    true
  }

  // ---------------------------------------------------------------------------
  // TaskRunnerAgent

  const DefaultTask: string := "echo 'Hello from AGENTIK\U{2122}'"

  /** What running a task string prints: an `echo ` command echoes its
      argument, any other task is reported as executed. */
  function TaskOutput(task: string): (out: string)
    ensures StartsWith(task, "echo ") ==> "echo " + out == task
    ensures !StartsWith(task, "echo ") ==> out == "Executed: " + task
  {
    if StartsWith(task, "echo ") then task[5..] else "Executed: " + task
  }

  /** `TaskRunnerAgent.execute(inputs)`.  A task that is not a string has no
      `startswith` and raises. */
  function TaskRunnerExecute(inputs: Dict): (r: Result<Dict, Fault>)
    ensures r.Ok? <==> Get(inputs, "task", Str(DefaultTask)).Str?
    ensures r.Ok? ==>
      && r.value.Keys == {"output", "timestamp"}
      && r.value["output"] == Str(TaskOutput(Get(inputs, "task", Str(DefaultTask)).s))
      && r.value["timestamp"] == Get(inputs, "timestamp", Str("unknown"))
    ensures r.Err? ==>
      r.error == NoAttribute(TypeName(Get(inputs, "task", Str(DefaultTask))), "startswith")
  {
    var task := Get(inputs, "task", Str(DefaultTask));
    match task
    case Str(t) =>
      Ok(map["output" := Str(TaskOutput(t)), "timestamp" := Get(inputs, "timestamp", Str("unknown"))])
    case _ => Err(NoAttribute(TypeName(task), "startswith"))
  }

  /** Echoing is the inverse of prefixing `echo `. */
  lemma EchoRoundTrip(x: string)
    ensures TaskOutput("echo " + x) == x
  {
  }

  /** With no task given the agent echoes its greeting, and with no timestamp
      the timestamp is `unknown`. */
  lemma DefaultTaskRun()
    ensures TaskRunnerExecute(map[]) ==
      Ok(map["output" := Str("'Hello from AGENTIK\U{2122}'"), "timestamp" := Str("unknown")])
  {
  }

  // ---------------------------------------------------------------------------
  // DataProcessorAgent

  /** `DataProcessorAgent.execute(inputs)`.  An unknown operation is reported in
      an `error` field rather than raised; a string method applied to data that
      is not a string raises. */
  function DataProcessorExecute(inputs: Dict): (r: Result<Dict, Fault>)
    ensures
      var data, op := Get(inputs, "data", Str("")), Get(inputs, "operation", Str("count_words"));
      && (r.Err? <==>
           && !data.Str?
           && ((op == Str("count_words") && Truthy(data)) || op == Str("uppercase") || op == Str("lowercase")))
      && (op == Str("count_words") && data.Str? ==> r == Ok(map["word_count" := Int(WordCount(data.s))]))
      && (op == Str("count_words") && !Truthy(data) ==> r == Ok(map["word_count" := Int(0)]))
      && (op == Str("uppercase") && data.Str? ==> r == Ok(map["processed_data" := Str(Upper(data.s))]))
      && (op == Str("lowercase") && data.Str? ==> r == Ok(map["processed_data" := Str(Lower(data.s))]))
      && (op != Str("count_words") && op != Str("uppercase") && op != Str("lowercase") ==>
           r == Ok(map["error" := Str("Unknown operation: " + Display(op))]))
      && (r.Err? ==>
           r.error == NoAttribute(TypeName(data),
                                  if op == Str("count_words") then "split"
                                  else if op == Str("uppercase") then "upper" else "lower"))
  {
    var data := Get(inputs, "data", Str(""));
    var op := Get(inputs, "operation", Str("count_words"));
    if op == Str("count_words") then
      if !Truthy(data) then Ok(map["word_count" := Int(0)])
      else match data
        case Str(s) => SplitCount(s); Ok(map["word_count" := Int(|Split(s)|)])
        case _ => Err(NoAttribute(TypeName(data), "split"))
    else if op == Str("uppercase") then
      match data
      case Str(s) => Ok(map["processed_data" := Str(Upper(s))])
      case _ => Err(NoAttribute(TypeName(data), "upper"))
    else if op == Str("lowercase") then
      match data
      case Str(s) => Ok(map["processed_data" := Str(Lower(s))])
      case _ => Err(NoAttribute(TypeName(data), "lower"))
    else
      Ok(map["error" := Str("Unknown operation: " + Display(op))])
  }

  /** `execute(inputs)` dispatched on the agent's class. */
  function Execute(a: Agent, inputs: Dict): (r: Result<Dict, Fault>)
    ensures a.cls == TaskRunnerAgent ==> r == TaskRunnerExecute(inputs)
    ensures a.cls == DataProcessorAgent ==> r == DataProcessorExecute(inputs)
  {
    match a.cls
    case TaskRunnerAgent => TaskRunnerExecute(inputs)
    case DataProcessorAgent => DataProcessorExecute(inputs)
  }

  /** Upper-casing the data and then lower-casing the processed data gives the
      same processed data as lower-casing directly. */
  lemma UpperThenLower(data: string)
    ensures
      var up := DataProcessorExecute(map["data" := Str(data), "operation" := Str("uppercase")]);
      && up.Ok? && "processed_data" in up.value && up.value["processed_data"].Str?
      && DataProcessorExecute(map["data" := up.value["processed_data"], "operation" := Str("lowercase")])
         == DataProcessorExecute(map["data" := Str(data), "operation" := Str("lowercase")])
  {
    LowerAfterUpper(data);
  }
}
