/** `ThinkAgent` of automind/agents/ThinkAgent.py: the iterative agent. Each
    round asks the model with the thinking prompt over the scratchpad,
    extracts the thought and the action block, runs the tool the block
    names, and appends three lines to the scratchpad; after the last round
    the final answer is read from the last response. */
module ThinkAgents {
  import opened Wrappers
  import opened Json
  import opened Errors
  import opened Markers
  import opened Host
  import opened Text
  import opened Extraction
  import opened Tools
  import opened Dispatch
  import ActionSchema
  import ThinkingPrompts

  /** The agent's fields (those of `BaseLLM` in automind/agents/base.py),
      the prompt text it is built with, and the environment it runs in. */
  datatype ThinkSetup = ThinkSetup(
    question: string,
    llm: Backend,
    actions: seq<ActionSchema.ActionClass>,
    numIterations: int,
    backstory: string,
    template: ThinkingPrompts.ThinkingTemplate,
    lib: HostLib,
    modules: Registry)

  /** `generate_prompt()` with the scratchpad `pad`. */
  function Prompt(s: ThinkSetup, pad: string): Result<string, Fault> {
    ThinkingPrompts.GenerateThinkingPrompt(s.template, s.question, s.actions, s.backstory, pad, s.lib)
  }

  /** Python's `str()` of an optional text: `None` prints as "None". */
  function Show(o: Option<string>): string {
    if o.None? then "None" else o.value
  }

  /** The three lines a round appends to the scratchpad. */
  function ThoughtLine(thought: Option<string>): string { ThoughtMarker + Show(thought) + "\n" }
  function ActionLine(action: string): string { ActionMarker + " " + action + "\n" }
  function ObservationLine(observation: string): string { ObservationMarker + observation + "\n" }

  /** What the loop body does with a model response after the model call:
      the tool calls it makes (none or one) and the observation, or the
      fault that ends the run. */
  datatype Act = Act(calls: seq<Event>, outcome: Result<string, Fault>)

  /** `extract_action`, `extract_output`, the lookups, `tool_cls(query=...)`,
      `setattr(tool, 'llm', ...)` and `execute()`. A response without an
      action block fails in `extract_output(None)` and calls no tool; a
      tool is called at most once, and an observation means it was. */
  function ActOn(s: ThinkSetup, response: string): (r: Act)
    ensures ExtractAction(response).None? ==> r == Act([], Err(NoActionBlock))
    ensures |r.calls| <= 1
    ensures r.outcome.Ok? ==> ExtractAction(response).Some? && |r.calls| == 1 && r.calls[0].ToolCall?
  {
    match ExtractAction(response)
    case None => Act([], Err(NoActionBlock))
    case Some(action) =>
      match ExtractOutput(action, s.lib.loads)
      case Err(e) => Act([], Err(e))
      case Ok(output) =>
        match Plan(s.modules, output)
        case Err(e) => Act([], Err(e))
        case Ok(call) =>
          var calls := [ToolCall(call.target.name, Some(call.query), None)];
          match call.target.cls.behaviour(Some(call.query), None, Some(s.llm))
          case Raised(cause) => Act(calls, Err(ToolFault(call.target.name, cause)))
          case Returned(observation) => Act(calls, Ok(observation))
  }

  /** One pass through the loop body from the scratchpad `pad`: the calls
      it makes, the model's response, the scratchpad after it, and the
      fault that ended the run, if one did. */
  datatype Round = Round(events: seq<Event>, response: Option<string>, pad: string, fault: Option<Fault>)

  /** The loop body of `run_task` (its `print`s aside). */
  function RoundFrom(s: ThinkSetup, pad: string): Round {
    match Prompt(s, pad)
    case Err(e) => Round([], None, pad, Some(e))
    case Ok(prompt) =>
      var response := s.llm.run(prompt);
      var act := ActOn(s, response);
      var events := [ModelCall(prompt)] + act.calls;
      match act.outcome
      case Err(e) => Round(events, Some(response), pad, Some(e))
      case Ok(observation) =>
        Round(events, Some(response),
              pad + ThoughtLine(ExtractThought(response)) + ActionLine(ExtractAction(response).value)
              + ObservationLine(observation), None)
  }

  /** What a round does, seen from the loop: one that completes has called
      the model and then one tool, has a response, and has only appended to
      the scratchpad; one that fails leaves the scratchpad as it was. */
  predicate RoundShape(pad: string, rd: Round) {
    && (rd.fault.None? ==>
          |rd.events| == 2 && rd.events[0].ModelCall? && rd.events[1].ToolCall?
          && rd.response.Some? && pad <= rd.pad)
    && (rd.fault.Some? ==> rd.pad == pad)
  }

  /** The rounds of `run_task`, as a function of the scratchpad. */
  function Rounds(s: ThinkSetup): string -> Round {
    pad => RoundFrom(s, pad)
  }

  /** Every round of the agent has that shape. */
  lemma RoundFromShape(s: ThinkSetup, pad: string)
    ensures RoundShape(pad, RoundFrom(s, pad))
  {
    var rd := RoundFrom(s, pad);
    if rd.fault.None? {
      RoundCompletes(s, pad);
    } else {
      RoundFails(s, pad);
    }
  }

  lemma RoundCompletes(s: ThinkSetup, pad: string)
    requires RoundFrom(s, pad).fault.None?
    ensures var rd := RoundFrom(s, pad);
            |rd.events| == 2 && rd.events[0].ModelCall? && rd.events[1].ToolCall?
            && rd.response.Some? && pad <= rd.pad
  {
    var rd := RoundFrom(s, pad);
    var response := rd.response.value;
    PrefixOfAppend3(pad, ThoughtLine(ExtractThought(response)), ActionLine(ExtractAction(response).value),
                    ObservationLine(ActOn(s, response).outcome.value));
  }

  lemma RoundFails(s: ThinkSetup, pad: string)
    requires RoundFrom(s, pad).fault.Some?
    ensures RoundFrom(s, pad).pad == pad
  {
  }

  lemma PrefixOfAppend3(pad: string, a: string, b: string, c: string)
    ensures pad <= pad + a + b + c
  {
    assert pad + a + b + c == pad + (a + b + c);
  }

  lemma RoundsShape(s: ThinkSetup)
    ensures forall pad :: RoundShape(pad, Rounds(s)(pad))
  {
    forall pad ensures RoundShape(pad, Rounds(s)(pad)) {
      RoundFromShape(s, pad);
    }
  }

  /** How a round starts: a prompt that cannot be built fails before the
      model is called; otherwise the model is called first, on the prompt
      over the scratchpad, and a response without an action block ends the
      round with no tool called. */
  lemma RoundStart(s: ThinkSetup, pad: string)
    ensures var rd := RoundFrom(s, pad);
            && (Prompt(s, pad).Err? ==> rd == Round([], None, pad, Some(Prompt(s, pad).error)))
            && (Prompt(s, pad).Ok? ==>
                  var response := s.llm.run(Prompt(s, pad).value);
                  && rd.response == Some(response)
                  && |rd.events| >= 1 && rd.events[0] == ModelCall(Prompt(s, pad).value)
                  && (ExtractAction(response).None? ==>
                        rd.events == [rd.events[0]] && rd.fault == Some(NoActionBlock)))
  {
    var rd := RoundFrom(s, pad);
  }

  /** A round that completes appends exactly the "Thought: ", "Action: " and
      "Observation: " lines of the response, in that order: the stripped
      thought (or "None"), the whole action block, and the tool's
      result. */
  lemma RoundEntry(s: ThinkSetup, pad: string)
    requires RoundFrom(s, pad).fault.None?
    ensures var response := RoundFrom(s, pad).response.value;
            && Prompt(s, pad).Ok? && response == s.llm.run(Prompt(s, pad).value)
            && ExtractAction(response).Some? && ActOn(s, response).outcome.Ok?
            && RoundFrom(s, pad).pad == pad + ThoughtLine(ExtractThought(response))
                                        + ActionLine(ExtractAction(response).value)
                                        + ObservationLine(ActOn(s, response).outcome.value)
  {
    var rd := RoundFrom(s, pad);
  }

  /** Where a run stands after some rounds: the scratchpad, the last model
      response (`llm_response`, unbound before the first round), all calls
      so far, and the fault that ended the run, if one did. */
  datatype RunState = RunState(pad: string, last: Option<string>, trace: seq<Event>, fault: Option<Fault>)

  /** The state after `k` passes of `round` from the scratchpad `pad0`;
      once a round fails, nothing more happens. */
  function Iterate(round: string -> Round, pad0: string, k: nat): RunState
    decreases k
  {
    if k == 0 then RunState(pad0, None, [], None)
    else
      var prev := Iterate(round, pad0, k - 1);
      if prev.fault.Some? then prev
      else
        var rd := round(prev.pad);
        RunState(rd.pad, rd.response, prev.trace + rd.events, rd.fault)
  }

  /** `while steps <= num_iterations` with `steps` from 1 runs this many
      rounds. */
  function RoundCount(numIterations: int): nat {
    if numIterations < 1 then 0 else numIterations
  }

  /** `return extract_final_answer(llm_response)`, or the fault that ended
      the run; with no round run, `llm_response` is unbound. */
  function Outcome(st: RunState): Result<Option<string>, Fault> {
    if st.fault.Some? then Err(st.fault.value)
    else if st.last.None? then Err(NoIterations)
    else Ok(ExtractFinalAnswer(st.last.value))
  }

  /** `run_task()` from the scratchpad `pad0`. */
  function RunSpec(s: ThinkSetup, pad0: string): RunState {
    Iterate(Rounds(s), pad0, RoundCount(s.numIterations))
  }

  /** One more pass after a run without a fault runs `round` once more from
      where it stands. */
  lemma IterateStep(round: string -> Round, pad0: string, k: nat)
    requires Iterate(round, pad0, k).fault.None?
    ensures var prev := Iterate(round, pad0, k);
            var rd := round(prev.pad);
            Iterate(round, pad0, k + 1) == RunState(rd.pad, rd.response, prev.trace + rd.events, rd.fault)
  {
  }

  /** Two round functions that agree on the rounds of the agent give the
      same run. */
  lemma {:induction false} SameRunUpTo(s: ThinkSetup, round: string -> Round, pad0: string, k: nat)
    requires forall pad {:trigger RoundFrom(s, pad)} :: round(pad) == RoundFrom(s, pad)
    ensures Iterate(Rounds(s), pad0, k) == Iterate(round, pad0, k)
    decreases k
  {
    if k > 0 {
      SameRunUpTo(s, round, pad0, k - 1);
      var prev := Iterate(round, pad0, k - 1);
      assert Rounds(s)(prev.pad) == RoundFrom(s, prev.pad);
    }
  }

  lemma SameRun(s: ThinkSetup, round: string -> Round, pad0: string)
    requires forall pad {:trigger RoundFrom(s, pad)} :: round(pad) == RoundFrom(s, pad)
    ensures RunSpec(s, pad0) == Iterate(round, pad0, RoundCount(s.numIterations))
  {
    SameRunUpTo(s, round, pad0, RoundCount(s.numIterations));
  }

  /** A fault ends the run: the state after it never changes again. */
  lemma {:induction false} FaultIsFinal(round: string -> Round, pad0: string, k: nat, m: nat)
    requires k <= m && Iterate(round, pad0, k).fault.Some?
    ensures Iterate(round, pad0, m) == Iterate(round, pad0, k)
    decreases m
  {
    if m > k {
      FaultIsFinal(round, pad0, k, m - 1);
    }
  }

  /** A run of `k` rounds without a fault has called the model exactly `k`
      times and a tool exactly `k` times, alternating, model first; a
      "Final Answer:" in an earlier response does not stop it. */
  lemma {:induction false} CallsAlternate(round: string -> Round, pad0: string, k: nat)
    requires forall pad :: RoundShape(pad, round(pad))
    requires Iterate(round, pad0, k).fault.None?
    ensures var t := Iterate(round, pad0, k).trace;
            |t| == 2 * k
            && (forall i :: 0 <= i < k ==> t[2 * i].ModelCall? && t[2 * i + 1].ToolCall?)
            && (Iterate(round, pad0, k).last.Some? <==> k > 0)
    decreases k
  {
    if k > 0 {
      var prev := Iterate(round, pad0, k - 1);
      CallsAlternate(round, pad0, k - 1);
      var rd := round(prev.pad);
      assert RoundShape(prev.pad, rd);
      var t := prev.trace + rd.events;
      assert t[2 * (k - 1)] == rd.events[0];
      assert t[2 * (k - 1) + 1] == rd.events[1];
      forall i | 0 <= i < k - 1 ensures t[2 * i] == prev.trace[2 * i] && t[2 * i + 1] == prev.trace[2 * i + 1] {
      }
    }
  }

  /** Hence such a run has made exactly `k` model calls and `k` tool
      calls. */
  lemma {:induction false} CallCounts(round: string -> Round, pad0: string, k: nat)
    requires forall pad :: RoundShape(pad, round(pad))
    requires Iterate(round, pad0, k).fault.None?
    ensures ModelCalls(Iterate(round, pad0, k).trace) == k
    ensures ToolCalls(Iterate(round, pad0, k).trace) == k
    decreases k
  {
    if k > 0 {
      var prev := Iterate(round, pad0, k - 1);
      CallCounts(round, pad0, k - 1);
      var rd := round(prev.pad);
      assert RoundShape(prev.pad, rd);
      assert rd.events == [rd.events[0]] + [rd.events[1]];
      CountOne(rd.events[0]);
      CountOne(rd.events[1]);
      CountAppend([rd.events[0]], [rd.events[1]]);
      CountAppend(prev.trace, rd.events);
    }
  }

  /** The scratchpad is append-only: the scratchpad after `j` rounds is a
      prefix of the scratchpad after `k >= j` rounds, and in particular the
      one `run_task` started with is a prefix of every later one. */
  lemma {:induction false} ScratchpadAppendOnly(round: string -> Round, pad0: string, j: nat, k: nat)
    requires forall pad :: RoundShape(pad, round(pad))
    requires j <= k
    ensures Iterate(round, pad0, j).pad <= Iterate(round, pad0, k).pad
    ensures pad0 <= Iterate(round, pad0, k).pad
    decreases k
  {
    if k > 0 {
      var prev := Iterate(round, pad0, k - 1);
      if j < k {
        ScratchpadAppendOnly(round, pad0, j, k - 1);
      }
      ScratchpadAppendOnly(round, pad0, 0, k - 1);
      if prev.fault.None? {
        assert RoundShape(prev.pad, round(prev.pad));
      }
    }
  }

  /** Round `k + 1` of the agent is the round from the scratchpad as it
      stood after `k` rounds: it asks the model with the prompt over that
      scratchpad, and when it completes it appends its three lines to that
      scratchpad (`RoundEntry`), and its model call is call `2k` of the
      run. */
  lemma RoundAfter(s: ThinkSetup, pad0: string, k: nat)
    requires Iterate(Rounds(s), pad0, k + 1).fault.None?
    ensures var before := Iterate(Rounds(s), pad0, k);
            var after := Iterate(Rounds(s), pad0, k + 1);
            && before.fault.None?
            && after.pad == RoundFrom(s, before.pad).pad
            && after.last == RoundFrom(s, before.pad).response
            && |after.trace| == 2 * k + 2
            && after.trace[2 * k] == RoundFrom(s, before.pad).events[0]
  {
    var before := Iterate(Rounds(s), pad0, k);
    assert before.fault.None?;
    RoundsShape(s);
    CallsAlternate(Rounds(s), pad0, k);
    var rd := Rounds(s)(before.pad);
    assert rd == RoundFrom(s, before.pad);
    assert RoundShape(before.pad, rd);
    assert (before.trace + rd.events)[2 * k] == rd.events[0];
  }

  /** Hence round `k + 1`, when it completes, asks the model with the prompt
      over the scratchpad after `k` rounds and appends to that scratchpad
      exactly the three lines of its response. */
  lemma RoundAppends(s: ThinkSetup, pad0: string, k: nat)
    requires Iterate(Rounds(s), pad0, k + 1).fault.None?
    ensures var before := Iterate(Rounds(s), pad0, k);
            var after := Iterate(Rounds(s), pad0, k + 1);
            var prompt := Prompt(s, before.pad);
            && prompt.Ok? && |after.trace| == 2 * k + 2
            && after.trace[2 * k] == ModelCall(prompt.value)
            && var response := s.llm.run(prompt.value);
               && after.last == Some(response)
               && ExtractAction(response).Some? && ActOn(s, response).outcome.Ok?
               && after.pad == before.pad + ThoughtLine(ExtractThought(response))
                               + ActionLine(ExtractAction(response).value)
                               + ObservationLine(ActOn(s, response).outcome.value)
  {
    var before := Iterate(Rounds(s), pad0, k);
    RoundAfter(s, pad0, k);
    RoundEntry(s, before.pad);
    RoundStart(s, before.pad);
  }

  /** The result is read from the last model response only: a run that
      succeeds ran every round, and returns `extract_final_answer` of the
      model's answer to the last prompt, which is `None` exactly when that
      answer lacks "Final Answer:". */
  lemma ResultFromLastResponse(s: ThinkSetup, pad0: string)
    requires Outcome(RunSpec(s, pad0)).Ok?
    ensures s.numIterations >= 1
    ensures var before := Iterate(Rounds(s), pad0, s.numIterations - 1);
            var prompt := Prompt(s, before.pad);
            && prompt.Ok?
            && var response := s.llm.run(prompt.value);
               && Outcome(RunSpec(s, pad0)) == Ok(ExtractFinalAnswer(response))
               && (Outcome(RunSpec(s, pad0)).value.None? <==> !Contains(response, FinalAnswerMarker))
  {
    var n := RoundCount(s.numIterations);
    var fin := Iterate(Rounds(s), pad0, n);
    assert fin.fault.None? && fin.last.Some?;
    if n == 0 {
      assert false;
    }
    var before := Iterate(Rounds(s), pad0, n - 1);
    RoundAfter(s, pad0, n - 1);
    RoundStart(s, before.pad);
  }

  /** A run that succeeds has called the model exactly `num_iterations`
      times and executed a tool exactly `num_iterations` times. */
  lemma SuccessfulRunCalls(s: ThinkSetup, pad0: string)
    requires Outcome(RunSpec(s, pad0)).Ok?
    ensures ModelCalls(RunSpec(s, pad0).trace) == s.numIterations
    ensures ToolCalls(RunSpec(s, pad0).trace) == s.numIterations
  {
    RoundsShape(s);
    CallCounts(Rounds(s), pad0, RoundCount(s.numIterations));
  }

  /** With `num_iterations < 1` nothing is called, the scratchpad is left
      alone, and the run fails: `llm_response` is unbound at the return. */
  lemma NoRoundsFails(s: ThinkSetup, pad0: string)
    requires s.numIterations < 1
    ensures RunSpec(s, pad0) == RunState(pad0, None, [], None)
    ensures Outcome(RunSpec(s, pad0)) == Err(NoIterations)
  {
    assert RoundCount(s.numIterations) == 0;
  }

  /** A tool whose schema cannot be derived makes the first prompt fail:
      the run ends before the model is ever called. */
  lemma SchemaFaultBeforeAnyCall(s: ThinkSetup, pad0: string)
    requires ActionSchema.ToolInfos(s.actions, s.lib).Err?
    requires s.numIterations >= 1
    ensures RunSpec(s, pad0).trace == [] && RunSpec(s, pad0).pad == pad0
    ensures Outcome(RunSpec(s, pad0)) == Err(ActionSchema.ToolInfos(s.actions, s.lib).error)
  {
    var p := Prompt(s, pad0);
    assert p.Err? && p.error == ActionSchema.ToolInfos(s.actions, s.lib).error;
    RoundFromShape(s, pad0);
    assert Iterate(Rounds(s), pad0, 1).fault.Some?;
    FaultIsFinal(Rounds(s), pad0, 1, RoundCount(s.numIterations));
  }

  /** The agent object. Its configuration never changes; `run_task`
      updates the scratchpad in place, and `trace` records, for the
      proofs, every call the agent has made to the model and to tools. */
  class ThinkAgent {
    const question: string
    const llm: Backend
    const actions: seq<ActionSchema.ActionClass>
    const numIterations: int
    const backstory: string
    const template: ThinkingPrompts.ThinkingTemplate
    const lib: HostLib
    const modules: Registry
    var agentScratchpad: string
    ghost var trace: seq<Event>
    /** The rounds of this agent, `Rounds(Setup())`. */
    ghost const rounds: string -> Round

    function Setup(): ThinkSetup {
      ThinkSetup(question, llm, actions, numIterations, backstory, template, lib, modules)
    }

    /** `rounds` is the round of this agent's configuration. */
    ghost predicate Valid() {
      forall pad {:trigger RoundFrom(Setup(), pad)} :: rounds(pad) == RoundFrom(Setup(), pad)
    }

    /** A fresh agent: the prompt text is that of
        automind/prompts/thinking_prompt.py, and the scratchpad is the
        `agent_scratchpad` keyword argument, empty when it is not given
        (`agent_scratchpad: str = ""`). */
    constructor (question: string, llm: Backend, actions: seq<ActionSchema.ActionClass>,
                 numIterations: int, backstory: string, lib: HostLib, modules: Registry,
                 scratchpad: string := "")
      ensures Setup() == ThinkSetup(question, llm, actions, numIterations, backstory,
                                    ThinkingPrompts.Thinking, lib, modules)
      ensures agentScratchpad == scratchpad && trace == [] && Valid()
    {
      this.question := question;
      this.llm := llm;
      this.actions := actions;
      this.numIterations := numIterations;
      this.backstory := backstory;
      this.template := ThinkingPrompts.Thinking;
      this.lib := lib;
      this.modules := modules;
      rounds := Rounds(ThinkSetup(question, llm, actions, numIterations, backstory,
                                  ThinkingPrompts.Thinking, lib, modules));
      agentScratchpad := scratchpad;
      trace := [];
    }

    /** `generate_prompt()`: the thinking prompt over the current
        scratchpad. */
    method GeneratePrompt() returns (r: Result<string, Fault>)
      ensures r == Prompt(Setup(), agentScratchpad)
    {
      r := ThinkingPrompts.GenerateThinkingPrompt(template, question, actions, backstory, agentScratchpad, lib);
    }

    /** The part of the loop body after the model call: extract the action
        block and its json, resolve and build the tool, set its `llm`, and
        execute it. */
    method Perform(answer: string) returns (a: Act)
      ensures a == ActOn(Setup(), answer)
    {
      var action := ExtractAction(answer);
      if action.None? {
        return Act([], Err(NoActionBlock));
      }
      var output := ExtractOutput(action.value, lib.loads);
      if output.Err? {
        return Act([], Err(output.error));
      }
      var call := Plan(modules, output.value);
      if call.Err? {
        return Act([], Err(call.error));
      }
      var target := call.value.target;
      var tool := new ToolInstance(target.cls, Some(call.value.query));
      tool.AttachModel(llm);
      var result := tool.Execute(None);
      var calls := [ToolCall(target.name, Some(call.value.query), None)];
      if result.Raised? {
        return Act(calls, Err(ToolFault(target.name, result.cause)));
      }
      a := Act(calls, Ok(result.value));
    }

    /** The body of the `while` loop of `run_task`: one round. */
    method RunRound() returns (response: Option<string>, fault: Option<Fault>)
      requires Valid()
      modifies this
      ensures var rd := rounds(old(agentScratchpad));
              && trace == old(trace) + rd.events && agentScratchpad == rd.pad
              && response == rd.response && fault == rd.fault
    {
      assert rounds(agentScratchpad) == RoundFrom(Setup(), agentScratchpad);
      var prompt := GeneratePrompt();
      if prompt.Err? {
        return None, Some(prompt.error);
      }
      var answer := llm.run(prompt.value);
      response := Some(answer);
      var thought := ExtractThought(answer);
      var act := Perform(answer);
      trace := trace + ([ModelCall(prompt.value)] + act.calls);
      if act.outcome.Err? {
        return response, Some(act.outcome.error);
      }
      var action := ExtractAction(answer);
      agentScratchpad := agentScratchpad + ThoughtLine(thought);
      agentScratchpad := agentScratchpad + ActionLine(action.value);
      agentScratchpad := agentScratchpad + ObservationLine(act.outcome.value);
      fault := None;
    }

    /** `run_task()`: the rounds, then the final answer of the last
        response. The scratchpad and the calls made are those of the run of
        the agent's rounds (`RunSpec`, by `RunIsRunSpec`), whether the run
        succeeds or fails. */
    method RunTask() returns (r: Result<Option<string>, Fault>)
      requires Valid()
      modifies this
      ensures var fin := Iterate(rounds, old(agentScratchpad), RoundCount(numIterations));
              && agentScratchpad == fin.pad && trace == old(trace) + fin.trace
              && r == Outcome(fin)
    {
      ghost var pad0 := agentScratchpad;
      ghost var trace0 := trace;
      ghost var st := Iterate(rounds, pad0, 0);
      var steps := 1;
      var llmResponse: Option<string> := None;
      while steps <= numIterations
        invariant 1 <= steps && steps - 1 <= RoundCount(numIterations)
        invariant st == Iterate(rounds, pad0, steps - 1)
        invariant st.fault.None? && st.pad == agentScratchpad && st.last == llmResponse
        invariant trace == trace0 + st.trace
        decreases numIterations - steps
      {
        ghost var events := rounds(agentScratchpad).events;
        var response, fault := RunRound();
        IterateStep(rounds, pad0, steps - 1);
        AppendAssoc(trace0, st.trace, events);
        st := Iterate(rounds, pad0, steps);
        if fault.Some? {
          FaultIsFinal(rounds, pad0, steps, RoundCount(numIterations));
          return Err(fault.value);
        }
        llmResponse := response;
        steps := steps + 1;
      }
      if llmResponse.None? {
        return Err(NoIterations);
      }
      r := Ok(ExtractFinalAnswer(llmResponse.value));
    }

    /** The run of `RunTask` is the one `RunSpec` describes for the agent's
        configuration. */
    lemma RunIsRunSpec(pad0: string)
      requires Valid()
      ensures Iterate(rounds, pad0, RoundCount(numIterations)) == RunSpec(Setup(), pad0)
    {
      SameRun(Setup(), rounds, pad0);
    }

    /** `run()`. */
    method Run() returns (r: Result<Option<string>, Fault>)
      requires Valid()
      modifies this
      ensures var fin := Iterate(rounds, old(agentScratchpad), RoundCount(numIterations));
              && agentScratchpad == fin.pad && trace == old(trace) + fin.trace
              && r == Outcome(fin)
    {
      r := RunTask();
    }
  }
}
