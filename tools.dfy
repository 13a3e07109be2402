/** The two outside parties of an agent run: the language model, and the
    tool classes of automind/actions (subclasses of `BaseAction`). Both are
    opaque: the model is a function from prompt to text, and a tool class
    is its schema, the validation its pydantic constructor performs, and
    what its `execute` returns or raises. */
module Tools {
  import opened Wrappers
  import opened Json
  import ActionSchema

  /** `llm.run(prompt)`: the text the model answers to a prompt. */
  datatype Backend = Backend(run: string -> string)

  /** What `execute` does: return its result (a tool's `execute` is
      annotated `-> str`, so the result is text) or raise. */
  datatype ToolResult = Returned(value: string) | Raised(cause: string)

  /** A tool class: its schema for the prompts; whether its constructor
      accepts a `query` argument (`None` when it is built with no
      arguments); and its `execute`, as a function of the `query` field,
      the argument passed to `execute` (if any) and the `llm` field. */
  datatype ToolClass = ToolClass(
    schema: ActionSchema.ActionClass,
    accepts: Option<Json> -> bool,
    behaviour: (Option<Json>, Option<Json>, Option<Backend>) -> ToolResult)

  /** The calls an agent makes to the outside, in order. */
  datatype Event =
    | ModelCall(prompt: string)
    | ToolCall(name: string, query: Option<Json>, argument: Option<Json>)

  /** How many of `events` are calls to the model, and how many to tools. */
  function ModelCalls(events: seq<Event>): nat {
    if events == [] then 0 else (if events[0].ModelCall? then 1 else 0) + ModelCalls(events[1..])
  }

  function ToolCalls(events: seq<Event>): nat {
    if events == [] then 0 else (if events[0].ToolCall? then 1 else 0) + ToolCalls(events[1..])
  }

  /** The counts of a single event. */
  lemma CountOne(e: Event)
    ensures ModelCalls([e]) == (if e.ModelCall? then 1 else 0)
    ensures ToolCalls([e]) == (if e.ToolCall? then 1 else 0)
  {
    assert [e][1..] == [];
  }

  /** The counts of a concatenation add up. */
  lemma {:induction false} CountAppend(x: seq<Event>, y: seq<Event>)
    ensures ModelCalls(x + y) == ModelCalls(x) + ModelCalls(y)
    ensures ToolCalls(x + y) == ToolCalls(x) + ToolCalls(y)
    decreases |x|
  {
    if x == [] {
      assert x + y == y;
    } else {
      assert (x + y)[1..] == x[1..] + y;
      CountAppend(x[1..], y);
    }
  }

  lemma AppendAssoc(a: seq<Event>, b: seq<Event>, c: seq<Event>)
    ensures a + (b + c) == a + b + c
  {
  }

  /** An instance of a tool class. Its `llm` field starts as `None`
      (`BaseAction.llm: Any = None`) and the agents set it with `setattr`
      before calling `execute`. */
  class ToolInstance {
    const cls: ToolClass
    const query: Option<Json>
    var llm: Option<Backend>
    /** How many times `execute` has run on this instance. */
    ghost var executions: nat

    /** `tool_cls(query=...)`, or `tool_cls()` when `query` is `None`; the
        caller has checked that validation passes. */
    constructor (cls: ToolClass, query: Option<Json>)
      requires cls.accepts(query)
      ensures this.cls == cls && this.query == query
      ensures llm == None && executions == 0
    {
      this.cls := cls;
      this.query := query;
      llm := None;
      executions := 0;
    }

    /** `setattr(tool, 'llm', backend)`. */
    method AttachModel(backend: Backend)
      modifies this
      ensures llm == Some(backend) && executions == old(executions)
    {
      llm := Some(backend);
    }

    /** `tool.execute()` (`argument` is `None`) or `tool.execute(argument)`:
        the outcome is the class's behaviour on the instance's fields as
        they are now. */
    method Execute(argument: Option<Json>) returns (r: ToolResult)
      modifies this
      ensures r == cls.behaviour(query, argument, llm)
      ensures llm == old(llm) && executions == old(executions) + 1
    {
      r := cls.behaviour(query, argument, llm);
      executions := executions + 1;
    }
  }
}
