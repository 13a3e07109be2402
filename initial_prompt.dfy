/** `generate_initial_prompt` of automind/prompts/initial_prompt.py: the
    single-shot prompt, one f-string over the tool schemas, the backstory and
    the question. */
module InitialPrompts {
  import opened Wrappers
  import opened Text
  import opened Errors
  import opened Markers
  import opened Host
  import ActionSchema
  import Extraction

  const InitialIntro: string :=
    "\n" +
    "    You are a helpful assistant with access to the following actions:\n" +
    "\n" +
    "    Available actions , Choose the most relevant action(s) to answer users query:\n" +
    "    "

  const BackstoryLead: string :=
    "\n" +
    "\n" +
    "    You have the following backstory:\n" +
    "    "

  /** The json object of the answer template, as the fence encloses it. */
  const TemplateObject: string :=
    "\n" +
    "    {\n" +
    "        \"name\": \"<relevant_action_name>\",\n" +
    "        \"arguments\": {\n" +
    "            \"query\": \"<query_from_user>\",\n" +
    "            \"type\": \"<data_type_of_query>\",\n" +
    "            \"module\":\"<module_name>\"\n" +
    "        }\n" +
    "    }\n" +
    "    "

  /** The json object of the worked example. */
  const ExampleObject: string :=
    "\n" +
    "    {\n" +
    "        \"name\": \"WikiSearch\",\n" +
    "        \"arguments\": {\n" +
    "            \"query\": \"What is capital of France\",\n" +
    "            \"type\": \"str\",\n" +
    "            \"module\":\"automind.actions.tools.wikisearch\"\n" +
    "        }\n" +
    "    }\n" +
    "    "

  const Guidelines: string :=
    "Guidelines:\n" +
    "    1. If no action matches the user's request, respond politely that you cannot help.\n" +
    "    2. Ensure the action call is complete and correctly formatted.\n" +
    "    3. Provide a single, precise answer; avoid repetition.\n" +
    "    4. Replace <relevant_action_name> with the name of the action being used.\n" +
    "    5. Only provide a single JSON output response, and ensure it's enclosed within <output></output> delimiters.\n"

  const GrammarLead: string :=
    "\n" +
    "\n" +
    "    To assist with the user's request, provide a single response in the following format:\n" +
    "\n" +
    "    "

  const ExampleLead: string :=
    "\n" +
    "\n" +
    "    Follow the given examples:\n" +
    "    --Query:\n" +
    "    What is the capital of France?\n" +
    "    "

  const GuidelinesLead: string := "\n\n\n    "

  const QueryLead: string := "\n    -- User Query:\n    "

  const InitialTail: string := "\n    "

  /** The constant text of the prompt, piece by piece; the frame of the two
      `<output>` blocks is fixed and not part of it. */
  datatype InitialTemplate = InitialTemplate(
    intro: string, backstoryLead: string, grammarLead: string, templateObject: string,
    exampleLead: string, exampleObject: string, guidelinesLead: string, guidelines: string,
    queryLead: string, tail: string)

  /** The text of automind/prompts/initial_prompt.py. */
  const Initial: InitialTemplate :=
    InitialTemplate(InitialIntro, BackstoryLead, GrammarLead, TemplateObject, ExampleLead, ExampleObject,
                    GuidelinesLead, Guidelines, QueryLead, InitialTail)

  const OutputOpen: string := "<output>\n    "
  const OutputClose: string := "\n    </output>"

  /** The output grammar the prompt teaches, and its worked example: an
      `<output>` pair around a fenced `json` block holding `obj`. */
  function OutputBlock(obj: string): string {
    OutputOpen + JsonOpener + obj + Fence + OutputClose
  }

  /** Everything between the backstory and the question: the grammar, the
      worked example and the guidelines. */
  function QuestionLead(t: InitialTemplate): string {
    t.grammarLead + OutputBlock(t.templateObject) + t.exampleLead + OutputBlock(t.exampleObject)
    + t.guidelinesLead + t.guidelines + t.queryLead
  }

  /** The prompt, given the rendered list of tool schemas. */
  function InitialPrompt(t: InitialTemplate, question: string, toolList: string, backstory: string): string {
    t.intro + toolList + t.backstoryLead + backstory + QuestionLead(t) + question + t.tail
  }

  /** `generate_initial_prompt(question, actions, backstory)` over the
      template `t` (the source's text is `Initial`): it renders the schemas
      of the tools into it, and fails when one of them cannot be derived. */
  function GenerateInitialPrompt(t: InitialTemplate, question: string, actions: seq<ActionSchema.ActionClass>,
                                 backstory: string, lib: HostLib): (r: Result<string, Fault>)
    ensures r.Ok? <==> ActionSchema.ToolInfos(actions, lib).Ok?
    ensures r.Ok? ==> r.value == InitialPrompt(t, question, lib.reprList(ActionSchema.ToolInfos(actions, lib).value), backstory)
  {
    match ActionSchema.ToolInfos(actions, lib)
    case Ok(infos) => Ok(InitialPrompt(t, question, lib.reprList(infos), backstory))
    case Err(e) => Err(e)
  }

  /** Offsets of the grammar, the worked example and the guidelines inside
      `QuestionLead`. */
  function GrammarAt(t: InitialTemplate): nat { |t.grammarLead| }
  function ExampleAt(t: InitialTemplate): nat { GrammarAt(t) + |OutputBlock(t.templateObject)| + |t.exampleLead| }
  function GuidelinesAt(t: InitialTemplate): nat { ExampleAt(t) + |OutputBlock(t.exampleObject)| + |t.guidelinesLead| }

  /** The tool list, the backstory and the question appear verbatim and in
      that order, with the answer grammar, then the worked example, then the
      guidelines between the backstory and the question; after the question
      comes only template text, so the question is the last input in the
      prompt. */
  lemma InitialPromptLayout(t: InitialTemplate, question: string, toolList: string, backstory: string)
    ensures var r := InitialPrompt(t, question, toolList, backstory);
            var ot := |t.intro|;
            var ob := ot + |toolList| + |t.backstoryLead|;
            var og := ob + |backstory| + GrammarAt(t);
            var ow := ob + |backstory| + ExampleAt(t);
            var ol := ob + |backstory| + GuidelinesAt(t);
            var oq := ob + |backstory| + |QuestionLead(t)|;
            OccursAt(r, toolList, ot)
            && OccursAt(r, backstory, ob)
            && OccursAt(r, OutputBlock(t.templateObject), og)
            && OccursAt(r, OutputBlock(t.exampleObject), ow)
            && OccursAt(r, t.guidelines, ol)
            && og < ow < ol && ol + |t.guidelines| <= oq
            && OccursAt(r, question, oq)
            && OccursAt(r, t.tail, oq + |question|)
            && |r| == oq + |question| + |t.tail|
  {
    var r := InitialPrompt(t, question, toolList, backstory);
    QuestionLeadLayout(t);
    NestedLayout(t.intro, toolList, t.backstoryLead, backstory, QuestionLead(t), question, t.tail,
                 OutputBlock(t.templateObject), GrammarAt(t), OutputBlock(t.exampleObject), ExampleAt(t),
                 t.guidelines, GuidelinesAt(t));
  }

  /** `Layout7`, with three known occurrences inside the fifth part lifted
      to the whole. */
  lemma NestedLayout(a: string, x: string, b: string, y: string, c: string, z: string, d: string,
                     p1: string, i1: int, p2: string, i2: int, p3: string, i3: int)
    requires OccursAt(c, p1, i1) && OccursAt(c, p2, i2) && OccursAt(c, p3, i3)
    ensures var s := a + x + b + y + c + z + d;
            var oc := |a| + |x| + |b| + |y|;
            var oz := oc + |c|;
            OccursAt(s, x, |a|) && OccursAt(s, y, |a| + |x| + |b|)
            && OccursAt(s, p1, oc + i1) && OccursAt(s, p2, oc + i2) && OccursAt(s, p3, oc + i3)
            && OccursAt(s, z, oz) && OccursAt(s, d, oz + |z|) && |s| == oz + |z| + |d|
  {
    var s := a + x + b + y + c + z + d;
    var oc := |a| + |x| + |b| + |y|;
    Layout7(a, x, b, y, c, z, d);
    OccursCompose(s, c, p1, oc, i1);
    OccursCompose(s, c, p2, oc, i2);
    OccursCompose(s, c, p3, oc, i3);
  }

  /** Where the grammar, the worked example and the guidelines sit in the
      text between the backstory and the question. */
  lemma QuestionLeadLayout(t: InitialTemplate)
    ensures OccursAt(QuestionLead(t), OutputBlock(t.templateObject), GrammarAt(t))
            && OccursAt(QuestionLead(t), OutputBlock(t.exampleObject), ExampleAt(t))
            && OccursAt(QuestionLead(t), t.guidelines, GuidelinesAt(t))
            && GuidelinesAt(t) + |t.guidelines| <= |QuestionLead(t)|
  {
    Layout7(t.grammarLead, OutputBlock(t.templateObject), t.exampleLead, OutputBlock(t.exampleObject),
            t.guidelinesLead, t.guidelines, t.queryLead);
  }

  /** The taught grammar is what `extract_output` reads: an `<output>` block
      opens with "<output>" and its line break, closes with the line break
      and "</output>", and the fenced text `extract_output` hands to
      `json.loads` is exactly the object inside, provided the object does not
      itself close the fence. */
  lemma OutputBlockRoundTrip(obj: string)
    requires forall t :: 0 <= t < |obj| ==> !OccursAt(obj + Fence, Fence, t)
    ensures var b := OutputBlock(obj);
            OccursAt(b, OutputOpen, 0) && OccursAt(b, OutputClose, |b| - |OutputClose|)
            && Extraction.JsonBlock(b) == Some(obj)
  {
    assert forall c :: c in OutputOpen ==> c != '`';
    Extraction.JsonBlockRoundTrip(OutputOpen, obj, OutputClose);
    Frame(OutputOpen, JsonOpener, obj, Fence, OutputClose);
  }

  /** The first and the last of five parts. */
  lemma Frame(a: string, b: string, c: string, d: string, e: string)
    ensures var s := a + b + c + d + e;
            OccursAt(s, a, 0) && OccursAt(s, e, |s| - |e|)
  {
    assert OccursAt(a, a, 0);
    OccursExtend4(a, b, c, d, e, a, 0);
    OccursAtEnd(a + b + c + d, e);
  }
}
