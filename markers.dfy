/** The literal markers of the text protocol between the agents and the model.
    The extractors search for them and the prompts teach them, so they are
    defined once here. */
module Markers {

  /** `extract_thought` keys on "Thought: " with its trailing space. */
  const ThoughtMarker: string := "Thought: "
  /** The lookahead that ends a thought. */
  const ActionMarker: string := "Action:"
  /** The opening of an action block, `Action:` then a fenced `json` line. */
  const ActionOpener: string := "Action:\n```json\n"
  /** The closing fence of an action block, on its own line. */
  const ActionCloser: string := "\n```"
  const FinalAnswerMarker: string := "Final Answer:"
  /** A fenced code block tagged `json` and its closing fence. */
  const JsonOpener: string := "```json"
  const Fence: string := "```"
  const ObservationMarker: string := "Observation: "
}
