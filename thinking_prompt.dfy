/** `generate_thinking_prompt` of automind/prompts/thinking_prompt.py: the
    prompt of each round of the iterative agent, one f-string over the
    backstory, the question, the tool schemas, the tool names and the
    scratchpad of earlier rounds. */
module ThinkingPrompts {
  import opened Wrappers
  import opened Text
  import opened Errors
  import opened Markers
  import opened Host
  import ActionSchema

  const ThinkingIntro: string :=
    "\n" +
    "      You are a helpful assistant with the following backstory\n" +
    "      "

  /** Between the backstory and the question (the source keeps the space
      after "can."). */
  const QuestionLead: string :=
    "\n" +
    "\n" +
    "      answer the following questions as best you can. \n" +
    "      "

  const ToolsLead: string :=
    "\n" +
    "\n" +
    "      You have access to the following tools:\n" +
    "      "

  const NamesLead: string :=
    "\n" +
    "\n" +
    "      The way you use the tools is by specifying a json blob.\n" +
    "      Specifically, this json should have a `action` key (with the name of the tool to use) and a `action_input` key (with the input to the tool going here).\n" +
    "\n" +
    "      The only values that should be in the \"name\" field are: "

  /** The two fenced examples of an action blob. */
  const BlobExamples: string :=
    "\n" +
    "\n" +
    "      The $JSON_BLOB should only contain a SINGLE action, do NOT return a list of multiple actions. Here is an example of a valid $JSON_BLOB:\n" +
    "\n" +
    "      " + JsonOpener + "\n" +
    "      {\n" +
    "        \"name\": \"<relevant_action_name>\",\n" +
    "        \"arguments\": {\n" +
    "            \"query\": \"<query_from_user>\",\n" +
    "            \"type\": \"<data_type_of_query>\",\n" +
    "            \"module\":\"<module_name>\"\n" +
    "        }\n" +
    "    }\n" +
    "      " + Fence + "\n" +
    "\n" +
    "      Example of $JSON_BLOB:\n" +
    "      " + JsonOpener + "\n" +
    "    {\n" +
    "        \"name\": \"WikiSearch\",\n" +
    "        \"arguments\": {\n" +
    "            \"query\": \"What is capital of France\",\n" +
    "            \"type\": \"str\",\n" +
    "            \"module\":\"automind.actions.tools.wikisearch\"\n" +
    "        }\n" +
    "    }\n" +
    "    " + Fence + "\n" +
    "\n"

  const FormatIntro: string :=
    "      ALWAYS use the following format:\n" +
    "\n" +
    "      Question: the input question you must answer\n" +
    "      "

  const ThoughtRest: string := "you should always think about what to do\n      "

  const ActionRest: string := "\n      $JSON_BLOB\n      "

  const ObservationRest: string :=
    "the result of the action\n" +
    "      ... (this Thought/Action/Observation can repeat N times)\n" +
    "      " + ThoughtMarker + "I now know the final answer\n" +
    "      "

  const AnswerRest: string :=
    " the final answer to the original input question\n" +
    "      Begin! Reminder to always use the exact characters `Final Answer` when responding.\n"

  const WorkLead: string :=
    "\n" +
    "      This is your previous work:\n" +
    "      "

  const ThinkingTail: string := "\n\n    "

  /** The constant text of the prompt, piece by piece; the four markers of
      the answer format are fixed and not part of it. */
  datatype ThinkingTemplate = ThinkingTemplate(
    intro: string, questionLead: string, toolsLead: string, namesLead: string,
    blobExamples: string, formatIntro: string, thoughtRest: string, actionRest: string,
    observationRest: string, answerRest: string, workLead: string, tail: string)

  /** The text of automind/prompts/thinking_prompt.py. */
  const Thinking: ThinkingTemplate :=
    ThinkingTemplate(ThinkingIntro, QuestionLead, ToolsLead, NamesLead, BlobExamples, FormatIntro,
                     ThoughtRest, ActionRest, ObservationRest, AnswerRest, WorkLead, ThinkingTail)

  /** The answer format: "Thought: ", "Action:", "Observation: " and
      "Final Answer:" lines, each marker followed by its explanation. */
  function FormatBlock(t: ThinkingTemplate): string {
    t.formatIntro + ThoughtMarker + t.thoughtRest + ActionMarker + t.actionRest
    + ObservationMarker + t.observationRest + FinalAnswerMarker + t.answerRest
  }

  /** Everything between the list of tool names and the scratchpad. */
  function ScratchpadLead(t: ThinkingTemplate): string {
    t.blobExamples + FormatBlock(t) + t.workLead
  }

  /** The prompt, given the rendered tool schemas and tool names. */
  function ThinkingPrompt(t: ThinkingTemplate, question: string, tools: string, names: string,
                          backstory: string, scratchpad: string): string
  {
    t.intro + backstory + t.questionLead + question + t.toolsLead + tools
    + t.namesLead + names + ScratchpadLead(t) + scratchpad + t.tail
  }

  /** The class names of the tools, `[action.__name__ for action in actions]`. */
  function ToolNames(actions: seq<ActionSchema.ActionClass>): (r: seq<string>)
    ensures |r| == |actions|
    ensures forall i :: 0 <= i < |actions| ==> r[i] == actions[i].kls
  {
    if actions == [] then [] else [actions[0].kls] + ToolNames(actions[1..])
  }

  /** `generate_thinking_prompt(question, actions, backstory,
      agent_scratchpad)` over the template `t` (the source's text is
      `Thinking`): it renders the schemas and the names of the tools into it,
      and fails when one of the schemas cannot be derived. */
  function GenerateThinkingPrompt(t: ThinkingTemplate, question: string, actions: seq<ActionSchema.ActionClass>,
                                  backstory: string, scratchpad: string, lib: HostLib): (r: Result<string, Fault>)
    ensures r.Ok? <==> ActionSchema.ToolInfos(actions, lib).Ok?
    ensures r.Ok? ==> r.value == ThinkingPrompt(t, question, lib.reprList(ActionSchema.ToolInfos(actions, lib).value),
                                                lib.reprList(ToolNames(actions)), backstory, scratchpad)
  {
    match ActionSchema.ToolInfos(actions, lib)
    case Ok(infos) => Ok(ThinkingPrompt(t, question, lib.reprList(infos), lib.reprList(ToolNames(actions)), backstory, scratchpad))
    case Err(e) => Err(e)
  }

  /** The backstory, the question, the tool schemas, the tool names and the
      scratchpad appear verbatim and in that order, with template text
      between them; the answer format sits between the tool names and the
      scratchpad, and after the scratchpad comes only template text. */
  lemma ThinkingPromptLayout(t: ThinkingTemplate, question: string, tools: string, names: string,
                             backstory: string, scratchpad: string)
    ensures var r := ThinkingPrompt(t, question, tools, names, backstory, scratchpad);
            var ob := |t.intro|;
            var oq := ob + |backstory| + |t.questionLead|;
            var ot := oq + |question| + |t.toolsLead|;
            var on := ot + |tools| + |t.namesLead|;
            var ol := on + |names|;
            var os := ol + |ScratchpadLead(t)|;
            OccursAt(r, backstory, ob)
            && OccursAt(r, question, oq)
            && OccursAt(r, tools, ot)
            && OccursAt(r, names, on)
            && OccursAt(r, ScratchpadLead(t), ol)
            && OccursAt(r, scratchpad, os)
            && OccursAt(r, t.tail, os + |scratchpad|)
            && |r| == os + |scratchpad| + |t.tail|
  {
    var r := ThinkingPrompt(t, question, tools, names, backstory, scratchpad);
    Layout11(t.intro, backstory, t.questionLead, question, t.toolsLead, tools,
             t.namesLead, names, ScratchpadLead(t), scratchpad, t.tail);
  }

  /** Offsets of the markers inside the answer format. */
  function ThoughtAt(t: ThinkingTemplate): nat { |t.formatIntro| }
  function ActionAt(t: ThinkingTemplate): nat { ThoughtAt(t) + |ThoughtMarker| + |t.thoughtRest| }
  function ObservationAt(t: ThinkingTemplate): nat { ActionAt(t) + |ActionMarker| + |t.actionRest| }
  function FinalAnswerAt(t: ThinkingTemplate): nat { ObservationAt(t) + |ObservationMarker| + |t.observationRest| }

  /** Where the four markers sit in the answer format: in the order
      "Thought: ", "Action:", "Observation: ", "Final Answer:". */
  lemma FormatBlockMarkers(t: ThinkingTemplate)
    ensures OccursAt(FormatBlock(t), ThoughtMarker, ThoughtAt(t))
    ensures OccursAt(FormatBlock(t), ActionMarker, ActionAt(t))
    ensures OccursAt(FormatBlock(t), ObservationMarker, ObservationAt(t))
    ensures OccursAt(FormatBlock(t), FinalAnswerMarker, FinalAnswerAt(t))
    ensures ThoughtAt(t) < ActionAt(t) < ObservationAt(t) < FinalAnswerAt(t)
  {
    FormatLayout(t.formatIntro, ThoughtMarker, t.thoughtRest, ActionMarker, t.actionRest,
                 ObservationMarker, t.observationRest, FinalAnswerMarker, t.answerRest);
  }

  /** `Layout7` for a head of seven parts followed by two more. */
  lemma FormatLayout(a: string, x: string, b: string, y: string, c: string, z: string, d: string,
                     u: string, e: string)
    ensures var h := a + x + b + y + c + z + d;
            var s := h + u + e;
            OccursAt(s, x, |a|) && OccursAt(s, y, |a| + |x| + |b|)
            && OccursAt(s, z, |a| + |x| + |b| + |y| + |c|) && OccursAt(s, u, |a| + |x| + |b| + |y| + |c| + |z| + |d|)
  {
    var h := a + x + b + y + c + z + d;
    Layout7(a, x, b, y, c, z, d);
    OccursExtend2(h, u, e, x, |a|);
    OccursExtend2(h, u, e, y, |a| + |x| + |b|);
    OccursExtend2(h, u, e, z, |a| + |x| + |b| + |y| + |c|);
    OccursAtEnd(h, u);
    OccursExtend(h + u, e, u, |h|);
  }

  /** The answer format sits inside the text between the tool names and the
      scratchpad of every thinking prompt (`ThinkingPromptLayout`), so that
      text teaches the markers the agent's extractors and scratchpad use,
      in order. */
  lemma ScratchpadLeadMarkers(t: ThinkingTemplate)
    ensures var o := |t.blobExamples|;
            OccursAt(ScratchpadLead(t), ThoughtMarker, o + ThoughtAt(t))
            && OccursAt(ScratchpadLead(t), ActionMarker, o + ActionAt(t))
            && OccursAt(ScratchpadLead(t), ObservationMarker, o + ObservationAt(t))
            && OccursAt(ScratchpadLead(t), FinalAnswerMarker, o + FinalAnswerAt(t))
  {
    FormatBlockMarkers(t);
    Layout3(t.blobExamples, FormatBlock(t), t.workLead);
    Nest4(ScratchpadLead(t), FormatBlock(t), |t.blobExamples|, ThoughtMarker, ThoughtAt(t),
          ActionMarker, ActionAt(t), ObservationMarker, ObservationAt(t), FinalAnswerMarker, FinalAnswerAt(t));
  }

  /** Four occurrences inside an occurrence of `t` are occurrences in `s`. */
  lemma Nest4(s: string, t: string, o: int, p1: string, i1: int, p2: string, i2: int,
              p3: string, i3: int, p4: string, i4: int)
    requires OccursAt(s, t, o)
    requires OccursAt(t, p1, i1) && OccursAt(t, p2, i2) && OccursAt(t, p3, i3) && OccursAt(t, p4, i4)
    ensures OccursAt(s, p1, o + i1) && OccursAt(s, p2, o + i2) && OccursAt(s, p3, o + i3) && OccursAt(s, p4, o + i4)
  {
    OccursCompose(s, t, p1, o, i1);
    OccursCompose(s, t, p2, o, i2);
    OccursCompose(s, t, p3, o, i3);
    OccursCompose(s, t, p4, o, i4);
  }
}
