# Automind agents in Dafny

Automind is a small Python framework for LLM agents that use tools. An
agent is built from a question, a language model, a list of tool classes
(subclasses of `BaseAction`), a backstory and an iteration count.

- It renders a prompt that lists the tools' JSON schemas and teaches a
  reply format.
- It sends the prompt to the model.
- It finds the fenced ```` ```json ```` block in the reply and parses it.
- It imports the tool class the block names and builds it with the
  block's query.
- It attaches the model to the tool and runs the tool's `execute`.

This project models:

- **Three agents.**
  - `ThinkAgent` (`ThinkAgents`): a Thought / Action / Observation loop
    over a scratchpad. It calls the model `num_iterations` times and reads
    the final answer from the last reply.
  - `SingleAgent` (`SingleAgents`): one model call and one tool. When
    `summary` is set, it makes one more model call to summarise the tool's
    output.
  - The older one-shot agent of `automind/single_agent.py`
    (`LegacyAgents`).
- **Their supporting code.**
  - The reply parsers (`Extraction`).
  - Tool-class resolution (`Dispatch`).
  - The `get_tool_info` schema (`ActionSchema`).
  - The three prompt templates: `ThinkingPrompts`, `InitialPrompts` and
    `SummaryPrompts`. Their text is copied character for character.

Each agent is modelled in two forms:

- **A class.** Its fields are the agent's configuration. `ThinkAgent`
  also has a mutable `agentScratchpad` field. Its methods are
  `GeneratePrompt`, `RunTask` and `Run`, written as step-by-step code.
- **A pure specification of one run.**
  - `RunSpec` or `Iterate` for the think agent.
  - `SingleRun` and `LegacyRun` for the one-shot agents.

The classes hold a ghost `trace`, which records every model call and tool
call in order. Each method is proved to produce exactly the trace and
result of its specification. Lemmas then state what the source promises
about those specifications:

- call counts and order;
- append-only scratchpads;
- where answers come from;
- which faults end a run, and before which call.

Python exceptions are modelled as the `Err` side of a `Result`. Each has a
`Fault` value naming the cause, as defined in `errors.dfy`.

The host services are parameters, not code:

- **The language model** is a function from prompt to reply (`Backend`).
- **`json.loads`, `json.dumps`, `textwrap.dedent` and the `repr` of a list
  of strings** are functions in a `HostLib`.
- **`importlib.import_module` followed by `getattr`** is a finite map from
  (module, class) names to tool classes (`Registry`).
- **A tool class** is a `ToolClass`, which holds three things:
  - its schema;
  - a predicate standing for its pydantic constructor's validation;
  - its `execute` behaviour, as a function of the instance's fields.

Notes on what the code does:

- The thought marker is `"Thought: "`, with a trailing space.
  `extract_thought` therefore finds nothing after a bare `"Thought:"`.
- All three non-greedy patterns take the leftmost opener, then the
  nearest closer after it.
- A field without a description appears as JSON `null` in `params`.
- A tool without a return annotation on `execute` makes `get_tool_info`
  raise. This happens because `'void'.__name__` does not exist.
- Applying `extract_final_answer` to its own result never gives that
  result back (`FinalAnswerNotIdempotent`).
- `ThinkAgent` passes the result of `extract_action` unchecked to
  `extract_output`. A reply without an action block therefore fails
  there, as `NoActionBlock`.
- `single_agent.py` spells its record key `"tool_resopnse"`.
- `single_agent.py` builds the tool with no arguments and passes the query
  to `execute`.

## Model

| member | source | states |
|---|---|---|
| Extraction.Delimited | automind/agents/ThinkAgent.py:43-44 | `open (.*?) close` matches exactly when some opener is followed by a closer; a match it reports is the leftmost opener with the nearest closer after it |
| Extraction.ExtractThought | automind/agents/ThinkAgent.py:9-12 | `None` exactly when no "Thought: " is followed by an "Action:"; otherwise the result comes from the leftmost such pair |
| Extraction.ExtractAction | automind/agents/ThinkAgent.py:14-20 | `None` exactly when no "Action:\n```json\n" is followed by "\n```"; otherwise the result comes from the leftmost lazy match |
| Extraction.ExtractFinalAnswer | automind/agents/ThinkAgent.py:22-30 | `None` exactly when "Final Answer:" does not occur; otherwise the result is the whole suffix after the first occurrence |
| Extraction.JsonBlock | automind/agents/ThinkAgent.py:43-48 | the text between the first ```` ```json ```` and the next ```` ``` ````; `None` exactly when no such pair exists |
| Extraction.ExtractOutput | automind/agents/ThinkAgent.py:33-50 | `Ok(None)` exactly when there is no fenced block; `MalformedJson` exactly when `loads` rejects the block; otherwise the parsed value |
| Extraction.MatchedPiece | automind/agents/ThinkAgent.py:15-18 | the piece a leftmost-lazy match covers starts with the opener, ends with the closer, and holds no earlier closer |
| Extraction.ExtractActionShape | automind/agents/ThinkAgent.py:14-20 | what `extract_action` returns starts with "Action:\n```json\n" and ends with "\n```" |
| Extraction.ActionBlockHasJsonBlock | automind/agents/ThinkAgent.py:69-70 | every action block `extract_action` returns contains a fenced json block, so `extract_output` on it never returns `None` |
| Extraction.ActionBlockShapeHasJsonBlock | automind/agents/ThinkAgent.py:15-18 | any text framed by the action opener and closer has a json block |
| Extraction.DelimitedAt | automind/agents/ThinkAgent.py:43-44 | a span with no opener before it and no closer inside it is the match |
| Extraction.DelimitedExactly | automind/agents/ThinkAgent.py:43-48 | in `prefix + open + body + close + suffix` with an opener-free prefix and a closer-free body, the match is exactly `body` |
| Extraction.JsonBlockRoundTrip | automind/agents/ThinkAgent.py:43-48 | a body framed by ```` ```json ```` and ```` ``` ```` after a backtick-free prefix is returned unchanged |
| Extraction.FencedBodyIsDelimited | automind/agents/ThinkAgent.py:43-44 | the match is found when the prefix lacks the opener's first character |
| Extraction.ExtractOutputRoundTrip | automind/agents/ThinkAgent.py:33-50 | a value that `dumps` serialises and `loads` inverts, written in the taught frame, is parsed back to exactly that value |
| Extraction.FinalAnswerVerbatim | automind/agents/ThinkAgent.py:22-30 | the final answer is everything after the first "Final Answer:", leading space included |
| Extraction.FinalAnswerNotIdempotent | automind/agents/ThinkAgent.py:22-30 | extracting the final answer never returns its input unchanged |
| ActionSchema.Describe | automind/actions/base.py:40 | a field's description is JSON `null` exactly when the field has none |
| ActionSchema.ParamsKeys | automind/actions/base.py:39-43 | the keys of `params` are exactly the declared field names other than `llm`, and every member is the name and description of a declared field |
| ActionSchema.ParamsInOrder | automind/actions/base.py:39-43 | the members of `params` follow the declared fields in order: the members for a concatenation of field lists are those of the first list followed by those of the second |
| ActionSchema.ParamsSingle | automind/actions/base.py:41-42 | a single field other than `llm` contributes exactly its own name and description; `llm` contributes nothing |
| ActionSchema.Doc | automind/actions/base.py:37 | a missing or empty docstring gives ""; otherwise the result is `dedent(doc)` with the white space at both ends removed, so it neither starts nor ends with white space |
| ActionSchema.ToolInfo | automind/actions/base.py:32-45 | fails with `NoReturnAnnotation` exactly when `execute` has no return annotation; otherwise a three-member object |
| ActionSchema.GetToolInfo | automind/actions/base.py:23-47 | fails, with `NoReturnAnnotation` naming the class, exactly when `execute` has no return annotation; otherwise the text is `dumps` of the `ToolInfo` record, so `ToolInfoContents` describes what the prompts embed |
| ActionSchema.ToolInfos | automind/prompts/thinking_prompt.py:10 | the list of schemas succeeds exactly when every tool has a return annotation, and then has one entry per tool |
| ActionSchema.ToolInfosFault | automind/prompts/initial_prompt.py:6 | a failing list has some tool without a return annotation and reports the first one |
| ActionSchema.ToolInfoContents | automind/actions/base.py:34-45 | `cls.kls` is the class name and `cls.doc` its cleaned docstring; the keys of `params` are exactly the field names other than `llm`, each mapped to that field's description; `returns` names `execute`'s annotation |
| ActionSchema.ToolInfoMembers | automind/actions/base.py:34-45 | each of the three members, looked up by key, is the value the schema defines |
| ActionSchema.ClassMembers | automind/actions/base.py:35-38 | `cls` has exactly the keys `kls` and `doc`, holding the given values |
| ActionSchema.ParamsDescribe | automind/actions/base.py:39-43 | each key of `params` maps to the description of a declared field of that name that is not `llm` |
| Dispatch.Locate | automind/agents/ThinkAgent.py:71-74 | a missing `name`, `arguments` or `module` fails with `BadSubscript` of the first missing key; names that are not a registered pair of strings fail with `UnresolvedAction` naming both; success is exactly the case of two importable string names, and the result is the registered class |
| Dispatch.QueryOf | automind/agents/ThinkAgent.py:75 | `arguments['query']`, or `BadSubscript("query")` exactly when it is absent |
| Dispatch.Plan | automind/agents/ThinkAgent.py:71-75 | succeeds exactly when the class resolves, the query exists and the class accepts it; a resolution failure is passed through unchanged |
| Dispatch.IntentDispatches | automind/prompts/initial_prompt.py:13-24 | an answer in the taught json shape reaches the named tool with its query when that tool is importable, and otherwise fails naming both module and class |
| Tools.ToolInstance.constructor | automind/actions/base.py:14 | a fresh instance holds its class and query, with `llm` unset |
| Tools.ToolInstance.AttachModel | automind/agents/ThinkAgent.py:76 | `setattr(tool, 'llm', ...)` sets the model and nothing else |
| Tools.ToolInstance.Execute | automind/agents/ThinkAgent.py:77 | `execute` returns the class's behaviour on the instance's current fields |
| SummaryPrompts.SummaryPrompt | automind/prompts/summary_prompt.py:1-8 | the prompt is the fixed head, then the response verbatim, then the fixed tail |
| SummaryPrompts.SummarisedResponse | automind/prompts/summary_prompt.py:1-8 | a response recovered from a prompt rebuilds that prompt |
| SummaryPrompts.SummaryRoundTrip | automind/prompts/summary_prompt.py:1-8 | unwrapping a summary prompt gives back exactly the response, so distinct responses give distinct prompts |
| ThinkingPrompts.ToolNames | automind/prompts/thinking_prompt.py:15 | one class name per tool, in order |
| ThinkingPrompts.GenerateThinkingPrompt | automind/prompts/thinking_prompt.py:1-58 | succeeds exactly when every schema can be derived; then it is the template filled with the schema list, the tool names, the backstory, the question and the scratchpad |
| ThinkingPrompts.ThinkingPromptLayout | automind/prompts/thinking_prompt.py:2-57 | backstory, question, schemas, names and scratchpad appear verbatim in that order; the answer format lies between names and scratchpad; only template text follows the scratchpad |
| ThinkingPrompts.FormatBlockMarkers | automind/prompts/thinking_prompt.py:42-51 | the answer format contains "Thought: ", "Action:", "Observation: " and "Final Answer:" in that order |
| ThinkingPrompts.ScratchpadLeadMarkers | automind/prompts/thinking_prompt.py:12-54 | those four markers lie in the text between the tool names and the scratchpad |
| InitialPrompts.GenerateInitialPrompt | automind/prompts/initial_prompt.py:1-53 | succeeds exactly when every schema can be derived; then it is the template filled with the schema list, the backstory and the question |
| InitialPrompts.InitialPromptLayout | automind/prompts/initial_prompt.py:2-52 | schemas, backstory and question appear verbatim in that order; the grammar block, the worked example and the guidelines lie between backstory and question; only template text follows the question |
| InitialPrompts.QuestionLeadLayout | automind/prompts/initial_prompt.py:11-50 | the grammar, the worked example and the guidelines sit in that order between backstory and question |
| InitialPrompts.OutputBlockRoundTrip | automind/prompts/initial_prompt.py:13-24 | the taught `<output>` block opens and closes as taught, and `extract_output` reads back exactly the object inside |
| ThinkAgents.ActOn | automind/agents/ThinkAgent.py:69-78 | no action block gives `NoActionBlock` and no tool call; at most one tool is called; an observation means exactly one tool call was made |
| ThinkAgents.RoundFromShape | automind/agents/ThinkAgent.py:62-84 | every round either completes, with a model call, then a tool call, then a response and only appends to the scratchpad, or fails and leaves the scratchpad unchanged |
| ThinkAgents.RoundCompletes | automind/agents/ThinkAgent.py:66-82 | a completed round made two calls, the model first, and extended the scratchpad |
| ThinkAgents.RoundFails | automind/agents/ThinkAgent.py:66-77 | a failed round leaves the scratchpad unchanged |
| ThinkAgents.RoundsShape | automind/agents/ThinkAgent.py:62-84 | all rounds of an agent have that shape |
| ThinkAgents.RoundStart | automind/agents/ThinkAgent.py:66-70 | a prompt that cannot be built fails before any call; otherwise the model is called first with that prompt; a reply without an action block ends the round with no tool called |
| ThinkAgents.RoundEntry | automind/agents/ThinkAgent.py:80-82 | a completed round appends exactly the "Thought: ", "Action: " and "Observation: " lines of its reply, thought, action block and tool result |
| ThinkAgents.SameRun | automind/agents/ThinkAgent.py:60-85 | any round function that agrees with the agent's rounds gives exactly the run `RunSpec` describes |
| ThinkAgents.FaultIsFinal | automind/agents/ThinkAgent.py:62-84 | once a round raises, nothing more happens: every later state equals the failed one |
| ThinkAgents.CallsAlternate | automind/agents/ThinkAgent.py:66-77 | a fault-free run of `k` rounds has a trace of `2k` events alternating between model call and tool call |
| ThinkAgents.CallCounts | automind/agents/ThinkAgent.py:62-84 | such a run made exactly `k` model calls and `k` tool calls |
| ThinkAgents.ScratchpadAppendOnly | automind/agents/ThinkAgent.py:80-82 | the scratchpad after `j` rounds is a prefix of the one after `k >= j`, and the starting scratchpad is a prefix of all of them |
| ThinkAgents.RoundAfter | automind/agents/ThinkAgent.py:62-84 | round `k + 1` runs from the scratchpad as it stood after `k` rounds: the new scratchpad and last response are that round's, and its model call is event `2k` of a trace of `2k + 2` events |
| ThinkAgents.RoundAppends | automind/agents/ThinkAgent.py:66-82 | round `k + 1` prompts over the current scratchpad and appends that reply's three lines |
| ThinkAgents.ResultFromLastResponse | automind/agents/ThinkAgent.py:85 | a successful run had at least one round, and its result is the final answer of the last round's reply |
| ThinkAgents.SuccessfulRunCalls | automind/agents/ThinkAgent.py:61-85 | a successful run made exactly `num_iterations` model calls and `num_iterations` tool calls |
| ThinkAgents.NoRoundsFails | automind/agents/ThinkAgent.py:61-62 | with `num_iterations < 1` nothing is called, the scratchpad is unchanged, and the run fails because `llm_response` is unbound |
| ThinkAgents.SchemaFaultBeforeAnyCall | automind/agents/ThinkAgent.py:57-58 | a tool whose schema cannot be derived ends the run before any call, reporting that fault |
| ThinkAgents.ThinkAgent.constructor | automind/agents/ThinkAgent.py:53-55 | a fresh agent holds its configuration and the thinking template; its scratchpad is the `agent_scratchpad` argument, "" when it is not given |
| ThinkAgents.ThinkAgent.GeneratePrompt | automind/agents/ThinkAgent.py:57-58 | the thinking prompt over the current scratchpad |
| ThinkAgents.ThinkAgent.Perform | automind/agents/ThinkAgent.py:69-78 | the part of the round after the model call behaves as `ActOn` |
| ThinkAgents.ThinkAgent.RunRound | automind/agents/ThinkAgent.py:64-84 | one round: the scratchpad, the trace, the response and the fault become those of the agent's round from the old scratchpad |
| ThinkAgents.ThinkAgent.RunTask | automind/agents/ThinkAgent.py:60-85 | the loop leaves the scratchpad, trace and result of `num_iterations` rounds of the specification |
| ThinkAgents.ThinkAgent.RunIsRunSpec | automind/agents/ThinkAgent.py:60-85 | the agent's rounds give exactly the run `RunSpec` describes |
| ThinkAgents.ThinkAgent.Run | automind/agents/ThinkAgent.py:87-88 | the same as `RunTask` |
| SingleAgents.ModelCalledFirst | automind/agents/SingleAgent.py:68-95 | a prompt that cannot be built fails with that fault and no call; otherwise the first event is the model call on that prompt, and the run makes one or two model calls and at most one tool call |
| SingleAgents.RespondCalls | automind/agents/SingleAgent.py:69-95 | after the model's answer the agent makes at most one tool call and then at most one model call, in that order |
| SingleAgents.FailureBeforeTool | automind/agents/SingleAgent.py:69-76 | a reply that fails to parse, resolve or validate ends the run with that fault, before any tool call |
| SingleAgents.ToolStep | automind/agents/SingleAgent.py:76-98 | once built, the tool is called exactly once with `arguments.query`; a raise fails; otherwise the result is the record, or with `summary` the model's summary of the tool output |
| SingleAgents.NoBlockCallsNoTool | automind/agents/SingleAgent.py:69-71 | a reply without a json block fails at `['name']` after one model call and no tool call |
| SingleAgents.MalformedBlockFails | automind/agents/SingleAgent.py:69 | malformed json in the block is a parse failure after the single model call |
| SingleAgents.SuccessfulRun | automind/agents/SingleAgent.py:60-98 | a successful run made one tool call with the answer's query and one or two model calls; it returns the record of name and result, or with `summary` the model's reply to the summary prompt |
| SingleAgents.RecordFields | automind/agents/SingleAgent.py:85-88 | the record has exactly the keys `tool_name` and `tool_response`, holding the tool name and its result |
| SingleAgents.SingleAgent.constructor | automind/agents/SingleAgent.py:31-49 | a fresh agent holds its configuration and the initial template, with an empty trace |
| SingleAgents.SingleAgent.GeneratePrompt | automind/agents/SingleAgent.py:51-58 | the initial prompt for the agent's question, tools and backstory |
| SingleAgents.SingleAgent.Handle | automind/agents/SingleAgent.py:69-98 | everything after the model call adds the events of `Respond` to the trace and returns its outcome |
| SingleAgents.SingleAgent.RunTask | automind/agents/SingleAgent.py:60-98 | the trace and result are those of `SingleRun` |
| SingleAgents.SingleAgent.Run | automind/agents/SingleAgent.py:101-108 | the same as `RunTask` |
| LegacyAgents.RespondCases | automind/single_agent.py:72-83 | parse, resolve and no-argument construction failures call no tool; a missing query fails after construction; otherwise one tool call with the query as argument, and the record or a fault |
| LegacyAgents.OneModelCall | automind/single_agent.py:71-78 | whenever the prompt builds, the model is called exactly once, first, and at most one tool is called |
| LegacyAgents.NoBlockCallsNoTool | automind/single_agent.py:72-73 | a reply without a json block fails at `['name']` after the one model call |
| LegacyAgents.QueryReadAfterConstruction | automind/single_agent.py:76-78 | a class that refuses construction with no arguments fails with `InvalidArguments` before the query is read |
| LegacyAgents.SuccessfulRun | automind/single_agent.py:63-85 | a successful run made one tool call with the query as argument, and returns the two-key record of name and result |
| LegacyAgents.RecordFields | automind/single_agent.py:80-83 | the record has exactly the keys `tool_name` and `tool_resopnse`, holding the tool name and its result |
| LegacyAgents.LegacyAgent.constructor | automind/single_agent.py:29-52 | a fresh agent holds its configuration and the initial template, with an empty trace |
| LegacyAgents.LegacyAgent.GeneratePrompt | automind/single_agent.py:54-61 | the initial prompt for the agent's question, tools and backstory |
| LegacyAgents.LegacyAgent.Handle | automind/single_agent.py:72-85 | everything after the model call adds the events of `Respond` to the trace and returns its outcome |
| LegacyAgents.LegacyAgent.RunTask | automind/single_agent.py:63-85 | the trace and result are those of `LegacyRun` |
| LegacyAgents.LegacyAgent.Run | automind/single_agent.py:87-94 | the same as `RunTask` |

## Left out

- The language model is deterministic: `llm.run` is a function of the prompt. Sampling, vendor clients (`automind/llms`) and network errors are not modelled.
- Model calls that a tool makes through its `llm` field are not recorded in the agent's trace. Only the agent's own calls are.
- `print` output is not modelled; the agents' console messages have no effect on their results.
- The host functions are parameters and not code: `json.loads`, `json.dumps` (with `indent=2`), `textwrap.dedent` and Python's `repr` of a list of strings.
- `importlib.import_module` and `getattr` are a map from names to tool classes. Import side effects, and names that resolve to something other than a tool class, are not modelled.
- Pydantic validation is a predicate on the constructor argument (`accepts`), and `execute`'s result is text. The concrete tools under `automind/actions/tools` and the example scripts are not part of this model.
- Python exceptions carry no traceback. Two failure kinds are merged into one: a non-dict json value being subscripted, and a missing key. Both are `BadSubscript(key)`.
- `SingleAgent.num_iterations`, and the `num_iterations` and `memory` fields of `automind/single_agent.py`, are never read by `run_task` and are not modelled.
- ThinkAgents.ThinkAgent.RunTask: its ensures is stated over the agent's ghost `rounds` function rather than `RunSpec` directly. `ThinkAgent.RunIsRunSpec` proves the two equal.
- ThinkAgents.ThinkAgent.RunTask: the loop's `steps` counter is unbounded. A `num_iterations` beyond a machine integer is not an issue in Python either.
