/** The ways an agent run can fail. Each constructor stands for the Python
    exception raised at the named point; nothing is caught in the source, so
    every one of them ends the run. */
module Errors {
  import Json

  datatype Fault =
    /** `type_hints.get('return', 'void').__name__` on an `execute` without a
        return annotation (`'str' object has no attribute '__name__'`). */
    | NoReturnAnnotation(kls: string)
    /** `extract_output(None)`: `re.search` on `None` raises `TypeError`. */
    | NoActionBlock
    /** `json.loads` rejected the fenced text. */
    | MalformedJson(text: string)
    /** `value[key]` on `None`, a non-object, or an object without `key`. */
    | BadSubscript(key: string)
    /** `importlib.import_module` or `getattr` found no tool class. */
    | UnresolvedAction(moduleName: Json.Json, className: Json.Json)
    /** The tool's constructor (pydantic validation) rejected its arguments. */
    | InvalidArguments(kls: string)
    /** The tool's `execute` raised. */
    | ToolFault(name: string, cause: string)
    /** `return extract_final_answer(llm_response)` with the loop never run:
        `llm_response` is unbound. */
    | NoIterations
}
