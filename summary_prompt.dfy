/** `summary_prompt` of automind/prompts/summary_prompt.py: fixed text
    around the tool's response. */
module SummaryPrompts {
  import opened Wrappers

  /** The text before the response (the f-string up to `{response}`). */
  const SummaryHead: string :=
    "\n" +
    "    You are an expert at summarizing information concisely and clearly. Summarize the following output into bullet points, providing only the title, link, and a brief summary of the body for each item. \n" +
    "    Do not include any additional text and provide explanations\U{2014}only the bullet points.\n" +
    "\n" +
    "    "

  /** The text after the response. */
  const SummaryTail: string := "\n    "

  /** The summarisation prompt: the response verbatim between a constant
      head and a constant tail, so its length is theirs plus the
      response's. */
  function SummaryPrompt(response: string): (r: string)
    ensures |r| == |SummaryHead| + |response| + |SummaryTail|
    ensures r[..|SummaryHead|] == SummaryHead
    ensures r[|SummaryHead|..|SummaryHead| + |response|] == response
    ensures r[|SummaryHead| + |response|..] == SummaryTail
  {
    SummaryHead + response + SummaryTail
  }

  /** The response a summarisation prompt wraps, if `p` is one. */
  function SummarisedResponse(p: string): (r: Option<string>)
    ensures r.Some? ==> SummaryPrompt(r.value) == p
  {
    if |p| >= |SummaryHead| + |SummaryTail|
       && p[..|SummaryHead|] == SummaryHead && p[|p| - |SummaryTail|..] == SummaryTail
    then
      var m := p[|SummaryHead|..|p| - |SummaryTail|];
      assert SummaryHead + m + SummaryTail == p by {
        assert p == p[..|SummaryHead|] + m + p[|p| - |SummaryTail|..];
      }
      Some(m)
    else None
  }

  /** The prompt determines the response: unwrapping a summarisation prompt
      gives back exactly its input, so distinct responses give distinct
      prompts. */
  lemma SummaryRoundTrip(response: string)
    ensures SummarisedResponse(SummaryPrompt(response)) == Some(response)
  {
    var p := SummaryPrompt(response);
    assert p[|SummaryHead|..|p| - |SummaryTail|] == response;
  }
}
