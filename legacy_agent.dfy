/** The older draft of the one-shot agent, `SingleAgent` of
    automind/single_agent.py. It differs from the current one in three ways:
    the tool is built with no arguments and the query is passed to
    `execute`; there is no summary; and the result's key is spelled
    `tool_resopnse`. */
module LegacyAgents {
  import opened Wrappers
  import opened Json
  import opened Errors
  import opened Host
  import opened Extraction
  import opened Tools
  import opened Dispatch
  import ActionSchema
  import InitialPrompts

  /** The agent's fields that `run_task` reads, and the environment it runs
      in. */
  datatype LegacySetup = LegacySetup(
    question: string,
    llm: Backend,
    actions: seq<ActionSchema.ActionClass>,
    backstory: string,
    template: InitialPrompts.InitialTemplate,
    lib: HostLib,
    modules: Registry)

  /** The calls one `run_task` makes, in order, and the dict it returns or
      the fault it raises. */
  datatype Episode = Episode(events: seq<Event>, outcome: Result<Json, Fault>)

  const ToolNameKey: string := "tool_name"
  /** The key as the source spells it. */
  const ToolResponseKey: string := "tool_resopnse"

  /** `{"tool_name": cls_name, "tool_resopnse": tool_obj}`. */
  function ToolRecord(name: string, observation: string): Json {
    JObject([(ToolNameKey, JString(name)), (ToolResponseKey, JString(observation))])
  }

  /** `generate_prompt()`. */
  function Prompt(s: LegacySetup): Result<string, Fault> {
    InitialPrompts.GenerateInitialPrompt(s.template, s.question, s.actions, s.backstory, s.lib)
  }

  /** Everything `run_task` does with the model's answer: resolve the
      class, build it with no arguments, attach the model, and only then
      read `arguments.query` and pass it to `execute`. */
  function Respond(s: LegacySetup, answer: string): Episode {
    match ExtractOutput(answer, s.lib.loads)
    case Err(e) => Episode([], Err(e))
    case Ok(output) =>
      match Locate(s.modules, output)
      case Err(e) => Episode([], Err(e))
      case Ok(target) =>
        if !target.cls.accepts(None) then Episode([], Err(InvalidArguments(target.name)))
        else
          match QueryOf(target.arguments)
          case Err(e) => Episode([], Err(e))
          case Ok(query) =>
            var tool := [ToolCall(target.name, None, Some(query))];
            match target.cls.behaviour(None, Some(query), Some(s.llm))
            case Raised(cause) => Episode(tool, Err(ToolFault(target.name, cause)))
            case Returned(observation) => Episode(tool, Ok(ToolRecord(target.name, observation)))
  }

  /** `run_task()`. */
  function LegacyRun(s: LegacySetup): Episode {
    match Prompt(s)
    case Err(e) => Episode([], Err(e))
    case Ok(p) =>
      var rest := Respond(s, s.llm.run(p));
      Episode([ModelCall(p)] + rest.events, rest.outcome)
  }

  /** The model's answer to the initial prompt, when the prompt can be
      built. */
  function FirstAnswer(s: LegacySetup): string
    requires Prompt(s).Ok?
  {
    s.llm.run(Prompt(s).value)
  }

  /** What the agent does with the answer, case by case: it calls at most
      the one tool; that call passes the query of the answer's `arguments`
      to `execute` of an instance built with no arguments; and every
      failure before it leaves no tool executed. */
  lemma RespondCases(s: LegacySetup, answer: string)
    ensures var output := ExtractOutput(answer, s.lib.loads);
            var r := Respond(s, answer);
            && (output.Err? ==> r == Episode([], Err(output.error)))
            && (output.Ok? && Locate(s.modules, output.value).Err? ==>
                  r == Episode([], Err(Locate(s.modules, output.value).error)))
            && (output.Ok? && Locate(s.modules, output.value).Ok? ==>
                  var target := Locate(s.modules, output.value).value;
                  var query := QueryOf(target.arguments);
                  && (!target.cls.accepts(None) ==> r == Episode([], Err(InvalidArguments(target.name))))
                  && (target.cls.accepts(None) && query.Err? ==> r == Episode([], Err(BadSubscript(QueryKey))))
                  && (target.cls.accepts(None) && query.Ok? ==>
                        && Some(query.value) == Subscript(Subscript(output.value, ArgumentsKey), QueryKey)
                        && var result := target.cls.behaviour(None, Some(query.value), Some(s.llm));
                           && r.events == [ToolCall(target.name, None, Some(query.value))]
                           && (result.Raised? ==> r.outcome == Err(ToolFault(target.name, result.cause)))
                           && (result.Returned? ==> r.outcome == Ok(ToolRecord(target.name, result.value)))))
  {
  }

  /** Exactly one model call is made whenever the prompt can be built, and at
      most one tool is executed. */
  lemma OneModelCall(s: LegacySetup)
    requires Prompt(s).Ok?
    ensures |LegacyRun(s).events| >= 1 && LegacyRun(s).events[0] == ModelCall(Prompt(s).value)
    ensures ModelCalls(LegacyRun(s).events) == 1
    ensures ToolCalls(LegacyRun(s).events) <= 1
  {
    var p := Prompt(s).value;
    var rest := Respond(s, FirstAnswer(s));
    RespondCases(s, FirstAnswer(s));
    assert LegacyRun(s).events == [ModelCall(p)] + rest.events;
    CountOne(ModelCall(p));
    CountAppend([ModelCall(p)], rest.events);
    if rest.events != [] {
      CountOne(rest.events[0]);
      assert rest.events == [rest.events[0]];
    }
  }

  /** An answer without a fenced json block fails at `['name']` on `None`:
      no tool is executed. */
  lemma NoBlockCallsNoTool(s: LegacySetup)
    requires Prompt(s).Ok? && JsonBlock(FirstAnswer(s)).None?
    ensures LegacyRun(s) == Episode([ModelCall(Prompt(s).value)], Err(BadSubscript(NameKey)))
  {
    RespondCases(s, FirstAnswer(s));
  }

  /** A class whose constructor refuses to be built without arguments fails
      before its query is read; a missing query fails after the class is
      built and before `execute`. */
  lemma QueryReadAfterConstruction(s: LegacySetup)
    requires Prompt(s).Ok?
    requires var output := ExtractOutput(FirstAnswer(s), s.lib.loads);
             output.Ok? && Locate(s.modules, output.value).Ok?
    ensures var target := Locate(s.modules, ExtractOutput(FirstAnswer(s), s.lib.loads).value).value;
            && (!target.cls.accepts(None) ==>
                  LegacyRun(s) == Episode([ModelCall(Prompt(s).value)], Err(InvalidArguments(target.name))))
            && (target.cls.accepts(None) && QueryOf(target.arguments).Err? ==>
                  LegacyRun(s) == Episode([ModelCall(Prompt(s).value)], Err(BadSubscript(QueryKey))))
  {
    RespondCases(s, FirstAnswer(s));
  }

  /** A run that succeeds returns a dict with exactly the keys `tool_name`
      and `tool_resopnse`, holding the name the answer gave and what the
      tool returned on the answer's query. */
  lemma SuccessfulRun(s: LegacySetup)
    requires LegacyRun(s).outcome.Ok?
    ensures Prompt(s).Ok?
    ensures var output := ExtractOutput(FirstAnswer(s), s.lib.loads);
            && output.Ok? && Locate(s.modules, output.value).Ok?
            && var target := Locate(s.modules, output.value).value;
               && QueryOf(target.arguments).Ok?
               && var result := target.cls.behaviour(None, Some(QueryOf(target.arguments).value), Some(s.llm));
                  && result.Returned?
                  && var record := LegacyRun(s).outcome.value;
                     && record.JObject?
                     && Keys(record.members) == {ToolNameKey, ToolResponseKey}
                     && Subscript(Some(record), ToolNameKey) == Subscript(output.value, NameKey)
                     && Subscript(Some(record), ToolResponseKey) == Some(JString(result.value))
    ensures ToolCalls(LegacyRun(s).events) == 1
  {
    assert Prompt(s).Ok?;
    var answer := FirstAnswer(s);
    RespondCases(s, answer);
    var output := ExtractOutput(answer, s.lib.loads);
    var target := Locate(s.modules, output.value).value;
    var q := QueryOf(target.arguments).value;
    var result := target.cls.behaviour(None, Some(q), Some(s.llm));
    RecordFields(target.name, result.value);
    var tc := ToolCall(target.name, None, Some(q));
    assert LegacyRun(s).events == [ModelCall(Prompt(s).value)] + [tc];
    CountOne(ModelCall(Prompt(s).value));
    CountOne(tc);
    CountAppend([ModelCall(Prompt(s).value)], [tc]);
  }

  /** The record has the two keys, holding the tool's name and its
      response. */
  lemma RecordFields(name: string, observation: string)
    ensures Keys(ToolRecord(name, observation).members) == {ToolNameKey, ToolResponseKey}
    ensures Subscript(Some(ToolRecord(name, observation)), ToolNameKey) == Some(JString(name))
    ensures Subscript(Some(ToolRecord(name, observation)), ToolResponseKey) == Some(JString(observation))
  {
    var ms := ToolRecord(name, observation).members;
    assert ms[..1] == [ms[0]];
    KeysCons(ms[0], ms[1..]);
    KeysCons(ms[1], []);
    assert ms[1..] == [ms[1]] + [];
  }

  /** The agent object. Its fields never change; `trace` records, for the
      proofs, every call the agent has made to the model and to tools. */
  class LegacyAgent {
    const question: string
    const llm: Backend
    const actions: seq<ActionSchema.ActionClass>
    const backstory: string
    const template: InitialPrompts.InitialTemplate
    const lib: HostLib
    const modules: Registry
    ghost var trace: seq<Event>

    function Setup(): LegacySetup {
      LegacySetup(question, llm, actions, backstory, template, lib, modules)
    }

    /** A fresh agent; the prompt text is that of
        automind/prompts/initial_prompt.py. */
    constructor (question: string, llm: Backend, actions: seq<ActionSchema.ActionClass>,
                 backstory: string, lib: HostLib, modules: Registry)
      ensures Setup() == LegacySetup(question, llm, actions, backstory, InitialPrompts.Initial, lib, modules)
      ensures trace == []
    {
      this.question := question;
      this.llm := llm;
      this.actions := actions;
      this.backstory := backstory;
      this.template := InitialPrompts.Initial;
      this.lib := lib;
      this.modules := modules;
      trace := [];
    }

    /** `generate_prompt()`. */
    method GeneratePrompt() returns (r: Result<string, Fault>)
      ensures r == Prompt(Setup())
    {
      r := InitialPrompts.GenerateInitialPrompt(template, question, actions, backstory, lib);
    }

    /** What `run_task` does after the model's answer. */
    method Handle(answer: string) returns (r: Result<Json, Fault>)
      modifies this
      ensures trace == old(trace) + Respond(Setup(), answer).events
      ensures r == Respond(Setup(), answer).outcome
    {
      RespondCases(Setup(), answer);
      var output := ExtractOutput(answer, lib.loads);
      if output.Err? {
        return Err(output.error);
      }
      var target := Locate(modules, output.value);
      if target.Err? {
        return Err(target.error);
      }
      var name := target.value.name;
      if !target.value.cls.accepts(None) {
        return Err(InvalidArguments(name));
      }
      var tool := new ToolInstance(target.value.cls, None);
      tool.AttachModel(llm);
      var query := QueryOf(target.value.arguments);
      if query.Err? {
        return Err(query.error);
      }
      var result := tool.Execute(Some(query.value));
      trace := trace + [ToolCall(name, None, Some(query.value))];
      if result.Raised? {
        return Err(ToolFault(name, result.cause));
      }
      r := Ok(ToolRecord(name, result.value));
    }

    /** `run_task()`: one model call and one tool. */
    method RunTask() returns (r: Result<Json, Fault>)
      modifies this
      ensures trace == old(trace) + LegacyRun(Setup()).events
      ensures r == LegacyRun(Setup()).outcome
    {
      var prompt := GeneratePrompt();
      if prompt.Err? {
        assert old(trace) + [] == old(trace);
        return Err(prompt.error);
      }
      var answer := llm.run(prompt.value);
      trace := trace + [ModelCall(prompt.value)];
      r := Handle(answer);
      AppendAssoc(old(trace), [ModelCall(prompt.value)], Respond(Setup(), answer).events);
    }

    /** `run()`. */
    method Run() returns (r: Result<Json, Fault>)
      modifies this
      ensures trace == old(trace) + LegacyRun(Setup()).events
      ensures r == LegacyRun(Setup()).outcome
    {
      r := RunTask();
    }
  }
}
