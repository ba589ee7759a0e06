# AGENTIK workflow core in Dafny

This project models the logic of the AGENTIK "local-first agent orchestration platform" and proves properties about it. It covers three parts:

- **The workflow orchestrator** (`Orchestrator.dfy`, after `src/orchestrator/workflow.py`). One pass over a workflow's steps, in order. For each step, the workflow inputs are layered over the step inputs. A simulated agent step runs, and its outcome goes into `results` or `errors`. Then the pass derives the counts and an overall status: `completed`, `partial_success`, or `failed` (the last only when an exception escapes the per-step handler). The pass is a `method` with a `while` loop. It is proved equal to the specification function `Run`, and lemmas about `Run` state the aggregation rules. The simulated dispatcher `ExecuteAgentStep` is a pure function. `WorkflowManager` is a class over a map of configurations.
- **The reference agents** (`Agents.dfy`, after `src/agents/base.py`). The task runner, the data processor, their lifecycle methods, `get_info` and the `AGENT_CLASSES` registry. These are all pure functions over values.
- **The HTTP handlers' collections** (`Api.dfy`, after `src/api/main.py`). A `Store` class whose `agents` and `workflows` fields stand for the two JSON files. Its methods are the create, get and execute handlers, which insert, look up and overwrite records.

`Values.dfy` holds the value model: a `Value` datatype standing for Python's `Any` in dictionaries, `str()`, type names, truthiness, and the exceptions as a `Fault` datatype with CPython's message text. `Text.dfy` holds `str.split()`, `upper`, `lower`, `startswith` and substring `in`, restricted to ASCII.

The model follows the code where it behaves in ways a reader might not expect:

- A pass in which every step fails has status `partial_success`, not `failed`. `failed` comes only from an exception outside the per-step handler (`Orchestrator.Run`).
- The dispatcher picks the simulated behaviour with substring tests on the agent id. It tests `task-runner` before `data-processor`, and it does not use the registry.
- Successful and failed steps go into two separate lists, `results` and `errors`.
- The HTTP execute handler always sets the stored status to `completed` and never runs the orchestrator (`Api.Store.ExecuteWorkflow`).
- The dispatcher's data-processor branch has no `lowercase` operation, and it returns the data unchanged for an unknown operation. The agent class lower-cases the data and reports an error value instead (`Orchestrator.DispatcherLowercaseFallback`).
- The dispatcher's `count_words` has no empty-data guard. So a non-string data value such as `0` raises there, while the agent class returns a count of 0.

## Model

| member | source | states |
|---|---|---|
| `Values.NatString` | src/orchestrator/workflow.py:83 | `str()` of a natural number, as an f-string interpolates it (negative ints get a leading `-`), is a non-empty string of decimal digits |
| `Values.ParseNatString` | src/orchestrator/workflow.py:83 | reading the decimal digits back gives the number: `str()` of an int loses nothing |
| `Text.SplitCount` | src/orchestrator/workflow.py:91 | `len(s.split())` equals the number of word starts: non-whitespace characters that come first or follow whitespace |
| `Text.SplitWords` | src/agents/base.py:78 | every piece of `s.split()` is non-empty and has no whitespace, and the pieces concatenate to exactly the non-whitespace characters of `s`, in order |
| `Text.Upper` | src/agents/base.py:81 | `upper()` keeps the length and maps each character to its upper case |
| `Text.Lower` | src/agents/base.py:83 | `lower()` keeps the length and maps each character to its lower case |
| `Text.LowerAfterUpper` | src/agents/base.py:80-83 | lower-casing after upper-casing equals lower-casing the original |
| `Text.UpperIdempotent` | src/agents/base.py:81 | upper-casing twice equals upper-casing once |
| `Text.ContainsIff` | src/orchestrator/workflow.py:82 | the substring test holds exactly when the substring occurs at some index of the string (both directions) |
| `Agents.RegistryContents` | src/agents/base.py:94-97 | the registry has exactly the two keys `TaskRunnerAgent` and `DataProcessorAgent`, each mapped to the class of that name, and every class is registered under its name |
| `Agents.NewAgent` | src/agents/base.py:10-12 | the agent keeps its id; a missing config becomes `{}` and a given one is kept |
| `Agents.GetInfo` | src/agents/base.py:30-36 | the info carries the agent id and config, and its type is a class name that the registry maps back to the agent's class |
| `Agents.Initialize` | src/agents/base.py:41-43 | `initialize` of both agents (also lines 67-69) returns true |
| `Agents.Cleanup` | src/agents/base.py:60-62 | `cleanup` of both agents (also lines 89-91) returns true |
| `Agents.TaskOutput` | src/agents/base.py:50-53 | for a task starting with `echo `, putting `echo ` back in front of the output gives the task; any other task gives `Executed: ` followed by the task |
| `Agents.EchoRoundTrip` | src/agents/base.py:50-51 | `echo ` followed by `x` outputs exactly `x` |
| `Agents.TaskRunnerExecute` | src/agents/base.py:45-58 | succeeds exactly when the task (default `echo 'Hello from AGENTIK™'`) is a string; the output has exactly the keys `output` and `timestamp`; the timestamp is copied from the inputs and defaults to `unknown`; a non-string task raises the missing-`startswith` error |
| `Agents.DefaultTaskRun` | src/agents/base.py:46-58 | with empty inputs the output is `'Hello from AGENTIK™'` and the timestamp is `unknown` |
| `Agents.DataProcessorExecute` | src/agents/base.py:71-87 | the operation defaults to `count_words`; `count_words` gives the word-start count, and 0 for falsy data; `uppercase`/`lowercase` give the case-mapped data; an unknown operation gives `{"error": "Unknown operation: <op>"}` and never fails; it fails exactly when a string method is applied to non-string data, and then raises the missing-`split`, `upper` or `lower` attribute error for the data's type |
| `Agents.Execute` | src/agents/base.py:20-23 | `execute` runs the task runner or the data processor, according to the agent's class |
| `Agents.UpperThenLower` | src/agents/base.py:80-83 | running `lowercase` on the output of `uppercase` gives the same result as running `lowercase` on the original data |
| `Orchestrator.MergeInputs` | src/orchestrator/workflow.py:26-30 | the merged keys are the union of both key sets; on a shared key the workflow-level value wins; other step values are kept; with no or empty workflow inputs the step inputs are unchanged |
| `Orchestrator.ExecuteAgentStep` | src/orchestrator/workflow.py:72-97 | a missing id raises the `NoneType` not-iterable error; `task-runner` is tested before `data-processor`; `count_words` gives the word-start count; `uppercase` upper-cases; any other operation returns the data unchanged; an id with neither substring gets `Simulated execution for agent <id>`; it fails only for a missing id or non-string data under `count_words`/`uppercase`, and then raises the missing-`split` or missing-`upper` attribute error for the data's type |
| `Orchestrator.DispatcherLowercaseFallback` | src/orchestrator/workflow.py:87-95 | for `lowercase`, the dispatcher returns the data unchanged, while the data-processor agent lower-cases it |
| `Orchestrator.RunStep` | src/orchestrator/workflow.py:34-50 | a step's entry keeps the agent id; it is a success exactly when the dispatcher succeeds, and then holds the dispatcher's result; a failure holds `Failed to execute agent <id>: <exception text>` |
| `Orchestrator.MissingAgentIdFails` | src/orchestrator/workflow.py:43-50 | a step without `agent_id` becomes a failure entry with message `Failed to execute agent None: argument of type 'NoneType' is not iterable` |
| `Orchestrator.Successes` | src/orchestrator/workflow.py:38-42 | every entry filed in `results` is a success |
| `Orchestrator.Failures` | src/orchestrator/workflow.py:46-50 | every entry filed in `errors` is a failure |
| `Orchestrator.FiltersAppend` | src/orchestrator/workflow.py:24-50 | filing later steps only appends to both lists, so each list keeps step order |
| `Orchestrator.FiltersPartition` | src/orchestrator/workflow.py:34-50 | each entry goes to exactly one of the two lists: their lengths add up to the number of entries |
| `Orchestrator.OutcomesShape` | src/orchestrator/workflow.py:24-30 | the pass runs through without abort exactly when every step is well formed, and then each step yields one entry; otherwise there is a first malformed step |
| `Orchestrator.OutcomeAt` | src/orchestrator/workflow.py:24-50 | the entry of step `i` is the `i`-th entry produced, when no earlier step aborts the pass |
| `Orchestrator.Run` | src/orchestrator/workflow.py:15-70 | the workflow id defaults to `unknown`; the status is `failed` exactly on an abort; a finished pass is `completed` exactly when `errors` is empty, otherwise `partial_success`; `total_steps` is the number of steps, and `successful_steps`/`failed_steps` are the list lengths |
| `Orchestrator.CountsAddUp` | src/orchestrator/workflow.py:52-60 | on a finished pass, `successful_steps + failed_steps == total_steps` |
| `Orchestrator.AbortsIff` | src/orchestrator/workflow.py:62-70 | the pass aborts exactly when some step is malformed |
| `Orchestrator.AbortKeepsPartialResults` | src/orchestrator/workflow.py:62-70 | an aborted pass reports the first malformed step's exception together with the `results` and `errors` of all earlier steps, and no counts |
| `Orchestrator.ZeroSteps` | src/orchestrator/workflow.py:52-60 | a workflow with no steps, or no `steps` key, is `completed` with empty lists and all counts 0 |
| `Orchestrator.FileStep` | src/orchestrator/workflow.py:34-50 | the per-step handler appends the step's entry to `results` on success or to `errors` on failure, and leaves the other list as it was |
| `Orchestrator.ExecuteWorkflow` | src/orchestrator/workflow.py:15-70 | the loop's returned dict equals `Run` for every configuration and input |
| `Orchestrator.WorkflowManager.constructor` | src/orchestrator/workflow.py:102-104 | a new manager has no workflows, and the store invariant holds |
| `Orchestrator.WorkflowManager.CreateWorkflow` | src/orchestrator/workflow.py:106-111 | stores the config under its id, replacing any earlier one, and returns the id; a config without `id` raises KeyError and changes nothing; keeps every config filed under its own id |
| `Orchestrator.WorkflowManager.GetWorkflow` | src/orchestrator/workflow.py:113-115 | returns the stored config exactly when the id is present, else none |
| `Orchestrator.WorkflowManager.ExecuteWorkflowById` | src/orchestrator/workflow.py:117-123 | for a store whose every config is filed under its own id: an unknown id raises `Workflow not found: <id>`; a known id returns the pass over its stored config, whose result carries that id; the store is not changed |
| `Api.NewAgent` | src/api/main.py:33-38 | an agent record keeps its fields, and its config defaults to `{}` |
| `Api.NewWorkflow` | src/api/main.py:40-47 | a workflow record keeps its fields; steps default to `[]`, status to `pending` and `created_at` to none |
| `Api.NewExecution` | src/api/main.py:49-51 | the execution body's inputs default to `{}` |
| `Api.FirstIndex` | src/api/main.py:97 | returns the index of the first record with the id; none exactly when no record has it |
| `Api.FirstIndexUnique` | src/api/main.py:120 | with unique ids, the first match is the only match |
| `Api.AppendFreshUnique` | src/api/main.py:88-90 | appending an id that is not yet present keeps the ids unique |
| `Api.Store.constructor` | src/api/main.py:54-59 | the store starts with the loaded collections |
| `Api.Store.CreateAgent` | src/api/main.py:85-92 | a duplicate id gives 400 and no change; otherwise the agent is appended at the end and returned; unique ids stay unique |
| `Api.Store.GetAgent` | src/api/main.py:94-100 | returns the first agent with the id, else 404 `Agent not found` |
| `Api.Store.CreateWorkflow` | src/api/main.py:106-115 | a duplicate id gives 400 and no change; otherwise the workflow, with `created_at` set to the supplied timestamp, is appended and returned; unique ids stay unique |
| `Api.Store.GetWorkflow` | src/api/main.py:117-123 | returns the first workflow with the id, else 404 `Workflow not found` |
| `Api.Store.ExecuteWorkflow` | src/api/main.py:125-146 | an unknown id gives 404 and no change; otherwise only the first matching workflow's status becomes `completed`, whatever its steps; the response has status `executed`, echoes the inputs and names the workflow; the ids are unchanged |
| `Api.ExecuteFrame` | src/api/main.py:142-144 | the status overwrite keeps the length and the ids, leaves every other record equal, and changes no field of the record except `status` |

## Left out

- HTTP plumbing: FastAPI routing, `HTTPException` transport, CORS middleware and the static-file mount (src/api/main.py:9-23). These are transport concerns, so 400 and 404 responses are modelled as `HttpError` results.
- JSON file load and save, and path handling (src/api/main.py:26-30, 54-74), are I/O. `Store`'s two sequence fields stand for the files' contents.
- Timestamps from `datetime.now().isoformat()` are a clock. They are taken as an opaque `now` parameter.
- `async`/`await`: every await runs to completion before the next statement, so the handlers and the orchestrator are ordinary methods.
- Logging has no effect on any result.
- run_server.py is process bootstrap and console output.
- The list-all handlers `GET /agents` and `GET /workflows`, and the root message, return a whole collection or a constant. They have no logic to state.
- The `WorkflowOrchestrator` object: its fields are `active_workflows`, which is never used, and `logger`, which only logs. So `ExecuteWorkflow` is a module-level method.
- Agent instantiation through the registry, the initialize/execute/cleanup sequence, timeouts and retries are described in comments only (src/orchestrator/workflow.py:35-36, 74-79). They are not implemented, so they are not modelled.
- Strings use ASCII rules only. Python's full Unicode `upper`/`lower` (which can change the length) and the non-ASCII whitespace that `str.split()` also accepts are not modelled.
- Python values are not fully generic. Lists, dicts and floats inside a dictionary are represented abstractly by `Other` (type name, `str()` text, truthiness), and pydantic validation is not modelled.
- `Orchestrator.Step`: an `agent_id` that is neither a string nor None can't be represented, and neither can a step `inputs` value that is not a dict. The cases whose failure escapes the per-step handler are covered by `Malformed`, which carries the exception text.
- `Orchestrator.WorkflowConfig`: a `steps` value that is not a list is not modelled. The manager's keys are assumed hashable.
- `Orchestrator.WorkflowManager.ExecuteWorkflowById`: the source's `if not workflow_config` test is modelled as "not present", and the method requires `Valid()`. A config has its `id` key when `create_workflow` stores it, so it is never the falsy empty dict at that moment.
- `Orchestrator.WorkflowManager.CreateWorkflow`: the source stores a reference to the caller's dict (src/orchestrator/workflow.py:109), while the model stores a copy of the configuration value. A caller that later clears the dict or changes its `id` alters the stored config in the source, so that `execute_workflow` may then raise `Workflow not found`. That aliasing is not captured.
- `Values.Value`: `Other` can name any type, including `str` or `bytes`. In that case the contracts still treat it as a non-string, though `b"a b".split()` succeeds in Python. Python dict keys also treat `1`, `True` and `1.0` as the same key, while the manager's `map<Value, WorkflowConfig>` keeps `Int(1)` and `Bool(true)` apart. Both are outside the modelled inputs.
- Exception messages follow CPython 3's wording for `x in None` and for a missing attribute. Other interpreters may word them differently.

