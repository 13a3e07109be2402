/** `SingleAgent` of automind/agents/SingleAgent.py: the one-shot agent. It
    asks the model once with the initial prompt, parses the fenced json of
    the answer, builds and runs the one tool it names, and returns either a
    record of the tool's response or, with `summary` set, the model's
    summary of that response. */
module SingleAgents {
  import opened Wrappers
  import opened Json
  import opened Errors
  import opened Host
  import opened Extraction
  import opened Tools
  import opened Dispatch
  import ActionSchema
  import InitialPrompts
  import SummaryPrompts

  /** The agent's fields and the environment it runs in. */
  datatype SingleSetup = SingleSetup(
    question: string,
    llm: Backend,
    actions: seq<ActionSchema.ActionClass>,
    backstory: string,
    summary: bool,
    template: InitialPrompts.InitialTemplate,
    lib: HostLib,
    modules: Registry)

  /** What `run_task` returns: the dict of the tool's response, or the text
      of the summary. */
  datatype Reply = Dispatched(record: Json) | Summarised(text: string)

  /** The calls one `run_task` makes, in order, and what it returns or the
      fault it raises. */
  datatype Episode = Episode(events: seq<Event>, outcome: Result<Reply, Fault>)

  const ToolNameKey: string := "tool_name"
  const ToolResponseKey: string := "tool_response"

  /** `{"tool_name": cls_name, "tool_response": tool_obj}`. */
  function ToolRecord(name: string, observation: string): Json {
    JObject([(ToolNameKey, JString(name)), (ToolResponseKey, JString(observation))])
  }

  /** `generate_prompt()`. */
  function Prompt(s: SingleSetup): Result<string, Fault> {
    InitialPrompts.GenerateInitialPrompt(s.template, s.question, s.actions, s.backstory, s.lib)
  }

  /** Everything `run_task` does with the model's answer `answer`. */
  function Respond(s: SingleSetup, answer: string): Episode {
    match ExtractOutput(answer, s.lib.loads)
    case Err(e) => Episode([], Err(e))
    case Ok(output) =>
      match Plan(s.modules, output)
      case Err(e) => Episode([], Err(e))
      case Ok(call) =>
        var name := call.target.name;
        var tool := [ToolCall(name, Some(call.query), None)];
        match call.target.cls.behaviour(Some(call.query), None, Some(s.llm))
        case Raised(cause) => Episode(tool, Err(ToolFault(name, cause)))
        case Returned(observation) =>
          if s.summary then
            var p := SummaryPrompts.SummaryPrompt(observation);
            Episode(tool + [ModelCall(p)], Ok(Summarised(s.llm.run(p))))
          else Episode(tool, Ok(Dispatched(ToolRecord(name, observation))))
  }

  /** `run_task()` (its `print`s aside). */
  function SingleRun(s: SingleSetup): Episode {
    match Prompt(s)
    case Err(e) => Episode([], Err(e))
    case Ok(p) =>
      var rest := Respond(s, s.llm.run(p));
      Episode([ModelCall(p)] + rest.events, rest.outcome)
  }

  /** The model's answer to the initial prompt, when the prompt can be
      built. */
  function FirstAnswer(s: SingleSetup): string
    requires Prompt(s).Ok?
  {
    s.llm.run(Prompt(s).value)
  }

  /** A run is the model call on the initial prompt followed by what the
      agent does with the answer. */
  lemma RunSplits(s: SingleSetup)
    ensures Prompt(s).Err? ==> SingleRun(s) == Episode([], Err(Prompt(s).error))
    ensures Prompt(s).Ok? ==>
              var rest := Respond(s, FirstAnswer(s));
              SingleRun(s) == Episode([ModelCall(Prompt(s).value)] + rest.events, rest.outcome)
  {
  }

  /** After the model's answer the agent calls at most one tool, and
      calls the model again only after that tool, at most once. */
  lemma RespondCalls(s: SingleSetup, answer: string)
    ensures var ev := Respond(s, answer).events;
            |ev| <= 2 && (ev != [] ==> ev[0].ToolCall?) && (|ev| == 2 ==> ev[1].ModelCall?)
            && ModelCalls(ev) <= 1 && ToolCalls(ev) <= 1
  {
    var ev := Respond(s, answer).events;
    if ev != [] {
      CountOne(ev[0]);
      if |ev| == 2 {
        CountOne(ev[1]);
        assert ev == [ev[0]] + [ev[1]];
        CountAppend([ev[0]], [ev[1]]);
      } else {
        assert ev == [ev[0]];
      }
    }
  }

  /** The run starts by calling the model on the initial prompt, unless a
      tool schema cannot be derived, in which case nothing is called at
      all and the run fails with that fault; after the first model call
      come at most one tool call and at most one more model call. */
  lemma ModelCalledFirst(s: SingleSetup)
    ensures Prompt(s).Err? ==> SingleRun(s).events == [] && SingleRun(s).outcome == Err(Prompt(s).error)
    ensures Prompt(s).Ok? ==>
              && SingleRun(s).events != [] && SingleRun(s).events[0] == ModelCall(Prompt(s).value)
              && 1 <= ModelCalls(SingleRun(s).events) <= 2 && ToolCalls(SingleRun(s).events) <= 1
  {
    RunSplits(s);
    if Prompt(s).Ok? {
      var first := ModelCall(Prompt(s).value);
      var rest := Respond(s, FirstAnswer(s)).events;
      RespondCalls(s, FirstAnswer(s));
      CountOne(first);
      CountAppend([first], rest);
    }
  }

  /** Until a tool is built nothing but the first model call happens: an
      answer whose json cannot be parsed, or does not resolve to a tool and
      an accepted query, ends the run with that fault. */
  lemma FailureBeforeTool(s: SingleSetup, answer: string)
    requires var output := ExtractOutput(answer, s.lib.loads);
             output.Err? || Plan(s.modules, output.value).Err?
    ensures var output := ExtractOutput(answer, s.lib.loads);
            Respond(s, answer) == Episode([], Err(if output.Err? then output.error
                                                  else Plan(s.modules, output.value).error))
  {
  }

  /** Once the tool is built: the tool is called exactly once, with the query
      of the answer's `arguments` and no argument to `execute`; then comes
      the summary call, if `summary` is set and the tool returned. */
  lemma ToolStep(s: SingleSetup, answer: string)
    requires ExtractOutput(answer, s.lib.loads).Ok?
    requires Plan(s.modules, ExtractOutput(answer, s.lib.loads).value).Ok?
    ensures var output := ExtractOutput(answer, s.lib.loads).value;
            var call := Plan(s.modules, output).value;
            var result := call.target.cls.behaviour(Some(call.query), None, Some(s.llm));
            var tc := ToolCall(call.target.name, Some(call.query), None);
            && Some(call.query) == Subscript(Subscript(output, ArgumentsKey), QueryKey)
            && Some(JString(call.target.name)) == Subscript(output, NameKey)
            && (result.Raised? ==> Respond(s, answer) == Episode([tc], Err(ToolFault(call.target.name, result.cause))))
            && (result.Returned? && !s.summary ==>
                  Respond(s, answer) == Episode([tc], Ok(Dispatched(ToolRecord(call.target.name, result.value)))))
            && (result.Returned? && s.summary ==>
                  var p := SummaryPrompts.SummaryPrompt(result.value);
                  Respond(s, answer) == Episode([tc, ModelCall(p)], Ok(Summarised(s.llm.run(p)))))
  {
    var output := ExtractOutput(answer, s.lib.loads).value;
    var call := Plan(s.modules, output).value;
    assert Ok(call.target) == Locate(s.modules, output);
  }

  /** An answer without a fenced json block makes `llm_response['name']`
      fail on `None`: the model has been called once, and no tool has been
      resolved, built or executed. */
  lemma NoBlockCallsNoTool(s: SingleSetup)
    requires Prompt(s).Ok? && JsonBlock(FirstAnswer(s)).None?
    ensures SingleRun(s) == Episode([ModelCall(Prompt(s).value)], Err(BadSubscript(NameKey)))
    ensures ModelCalls(SingleRun(s).events) == 1 && ToolCalls(SingleRun(s).events) == 0
  {
    RunSplits(s);
    FailureBeforeTool(s, FirstAnswer(s));
    CountOne(ModelCall(Prompt(s).value));
  }

  /** Malformed json in the block is raised as a parse failure, before any
      tool is touched. */
  lemma MalformedBlockFails(s: SingleSetup)
    requires Prompt(s).Ok? && JsonBlock(FirstAnswer(s)).Some?
    requires s.lib.loads(JsonBlock(FirstAnswer(s)).value).None?
    ensures SingleRun(s) == Episode([ModelCall(Prompt(s).value)], Err(MalformedJson(JsonBlock(FirstAnswer(s)).value)))
  {
    RunSplits(s);
    FailureBeforeTool(s, FirstAnswer(s));
  }

  /** A run that succeeds called the tool once, with the query of the
      answer, and the model once, and returns the record of the tool's
      response under the tool's name; with `summary` set it called the
      model a second time, on the summary prompt of that response, and
      returns that answer instead. */
  lemma SuccessfulRun(s: SingleSetup)
    requires SingleRun(s).outcome.Ok?
    ensures Prompt(s).Ok?
    ensures var output := ExtractOutput(FirstAnswer(s), s.lib.loads);
            && output.Ok? && Plan(s.modules, output.value).Ok?
            && var call := Plan(s.modules, output.value).value;
               var result := call.target.cls.behaviour(Some(call.query), None, Some(s.llm));
               && result.Returned?
               && Some(call.query) == Subscript(Subscript(output.value, ArgumentsKey), QueryKey)
               && (!s.summary ==>
                     && ModelCalls(SingleRun(s).events) == 1
                     && SingleRun(s).outcome.value.Dispatched?
                     && var record := Some(SingleRun(s).outcome.value.record);
                        && Subscript(record, ToolNameKey) == Subscript(output.value, NameKey)
                        && Subscript(record, ToolResponseKey) == Some(JString(result.value)))
               && (s.summary ==>
                     && ModelCalls(SingleRun(s).events) == 2
                     && SingleRun(s).outcome == Ok(Summarised(s.llm.run(SummaryPrompts.SummaryPrompt(result.value)))))
    ensures ToolCalls(SingleRun(s).events) == 1
  {
    RunSplits(s);
    assert Prompt(s).Ok?;
    var p := Prompt(s).value;
    var answer := FirstAnswer(s);
    var output := ExtractOutput(answer, s.lib.loads);
    if output.Err? || Plan(s.modules, output.value).Err? {
      FailureBeforeTool(s, answer);
      assert false;
    }
    ToolStep(s, answer);
    var call := Plan(s.modules, output.value).value;
    var result := call.target.cls.behaviour(Some(call.query), None, Some(s.llm));
    var tc := ToolCall(call.target.name, Some(call.query), None);
    CountOne(ModelCall(p));
    CountOne(tc);
    if s.summary {
      var sp := SummaryPrompts.SummaryPrompt(result.value);
      CountOne(ModelCall(sp));
      CountAppend([tc], [ModelCall(sp)]);
      assert [tc, ModelCall(sp)] == [tc] + [ModelCall(sp)];
      CountAppend([ModelCall(p)], [tc, ModelCall(sp)]);
    } else {
      CountAppend([ModelCall(p)], [tc]);
      RecordFields(call.target.name, result.value);
    }
  }

  /** (automind/single_agent.py builds the same record with a misspelt
      key; `LegacyAgents.RecordFields` states it for that file.)
      The record has the two keys `tool_name` and `tool_response`, holding
      the tool's name and its response. */
  lemma RecordFields(name: string, observation: string)
    ensures Keys(ToolRecord(name, observation).members) == {ToolNameKey, ToolResponseKey}
    ensures Subscript(Some(ToolRecord(name, observation)), ToolNameKey) == Some(JString(name))
    ensures Subscript(Some(ToolRecord(name, observation)), ToolResponseKey) == Some(JString(observation))
  {
    var ms := ToolRecord(name, observation).members;
    assert ms[..1] == [ms[0]];
    KeysCons(ms[0], ms[1..]);
    KeysCons(ms[1], []);
    assert ms[1..] == [ms[1]] + [];
  }

  /** The agent object. Its configuration never changes; `trace` records,
      for the proofs, every call the agent has made to the model and to
      tools. */
  class SingleAgent {
    const question: string
    const llm: Backend
    const actions: seq<ActionSchema.ActionClass>
    const backstory: string
    const summary: bool
    const template: InitialPrompts.InitialTemplate
    const lib: HostLib
    const modules: Registry
    ghost var trace: seq<Event>

    function Setup(): SingleSetup {
      SingleSetup(question, llm, actions, backstory, summary, template, lib, modules)
    }

    /** A fresh agent; the prompt text is that of
        automind/prompts/initial_prompt.py. */
    constructor (question: string, llm: Backend, actions: seq<ActionSchema.ActionClass>,
                 backstory: string, summary: bool, lib: HostLib, modules: Registry)
      ensures Setup() == SingleSetup(question, llm, actions, backstory, summary,
                                     InitialPrompts.Initial, lib, modules)
      ensures trace == []
    {
      this.question := question;
      this.llm := llm;
      this.actions := actions;
      this.backstory := backstory;
      this.summary := summary;
      this.template := InitialPrompts.Initial;
      this.lib := lib;
      this.modules := modules;
      trace := [];
    }

    /** `generate_prompt()`, as in automind/single_agent.py, whose agent
        `LegacyAgents.LegacyAgent` has the same method. */
    method GeneratePrompt() returns (r: Result<string, Fault>)
      ensures r == Prompt(Setup())
    {
      r := InitialPrompts.GenerateInitialPrompt(template, question, actions, backstory, lib);
    }

    /** What `run_task` does after the model's answer: parse it, resolve,
        build and execute the tool, and summarise its response when
        `summary` is set. */
    method Handle(answer: string) returns (r: Result<Reply, Fault>)
      modifies this
      ensures trace == old(trace) + Respond(Setup(), answer).events
      ensures r == Respond(Setup(), answer).outcome
    {
      var output := ExtractOutput(answer, lib.loads);
      if output.Err? {
        FailureBeforeTool(Setup(), answer);
        return Err(output.error);
      }
      var call := Plan(modules, output.value);
      if call.Err? {
        FailureBeforeTool(Setup(), answer);
        return Err(call.error);
      }
      ToolStep(Setup(), answer);
      var name := call.value.target.name;
      var tool := new ToolInstance(call.value.target.cls, Some(call.value.query));
      tool.AttachModel(llm);
      var result := tool.Execute(None);
      trace := trace + [ToolCall(name, Some(call.value.query), None)];
      if result.Raised? {
        return Err(ToolFault(name, result.cause));
      }
      var observation := result.value;
      if summary {
        var p := SummaryPrompts.SummaryPrompt(observation);
        var text := llm.run(p);
        trace := trace + [ModelCall(p)];
        return Ok(Summarised(text));
      }
      r := Ok(Dispatched(ToolRecord(name, observation)));
    }

    /** `run_task()`: one model call, one tool, and with `summary` one more
        model call. */
    method RunTask() returns (r: Result<Reply, Fault>)
      modifies this
      ensures trace == old(trace) + SingleRun(Setup()).events
      ensures r == SingleRun(Setup()).outcome
    {
      var prompt := GeneratePrompt();
      if prompt.Err? {
        assert old(trace) + [] == old(trace);
        return Err(prompt.error);
      }
      var answer := llm.run(prompt.value);
      trace := trace + [ModelCall(prompt.value)];
      r := Handle(answer);
      AppendAssoc(old(trace), [ModelCall(prompt.value)], Respond(Setup(), answer).events);
    }

    /** `run()`. */
    method Run() returns (r: Result<Reply, Fault>)
      modifies this
      ensures trace == old(trace) + SingleRun(Setup()).events
      ensures r == SingleRun(Setup()).outcome
    {
      r := RunTask();
    }
  }
}
