/** Library routines the agents call but the model does not define: Python's
    `json.loads` and `json.dumps`, `textwrap.dedent`, and `str()` of a list of
    strings (as the prompt f-strings render `[... for action in actions]`).
    They are parameters of the model, so every property proved holds for any
    implementation of them. */
module Host {
  import opened Wrappers
  import opened Json

  datatype HostLib = HostLib(
    /** `json.loads`, `None` where it raises. */
    loads: string -> Option<Json>,
    /** `json.dumps(value, indent=2)`. */
    dumps: Json -> string,
    /** `textwrap.dedent`. */
    dedent: string -> string,
    /** `str(list_of_strings)`. */
    reprList: seq<string> -> string)
}
