/** The part of the agents' `run_task` that turns the parsed model output
    into a tool class: `cls_name = r['name']`,
    `mod_name = r['arguments']['module']`,
    `getattr(importlib.import_module(mod_name), cls_name)`, and the
    `r['arguments']['query']` handed to the tool. Every lookup raises when
    it fails; nothing is caught. */
module Dispatch {
  import opened Wrappers
  import opened Json
  import opened Errors
  import opened Tools

  /** The tool classes the Python process can import: `import_module(m)`
      then `getattr(module, n)` yields a tool class exactly when `(m, n)`
      is a key. */
  type Registry = map<(string, string), ToolClass>

  const NameKey: string := "name"
  const ArgumentsKey: string := "arguments"
  const ModuleKey: string := "module"
  const QueryKey: string := "query"

  /** A resolved tool class, under the name the model gave it, with the
      `arguments` object of the model's output. */
  datatype Target = Target(name: string, cls: ToolClass, arguments: Option<Json>)

  /** Resolve the tool class the model output `response` names. The
      failures come in the order the source evaluates the lookups: `name`,
      then `arguments`, then `module`, then `import_module` and `getattr`
      (which also fail on a module or class name that is not a string). */
  function Locate(modules: Registry, response: Option<Json>): (r: Result<Target, Fault>)
    ensures Subscript(response, NameKey).None? ==> r == Err(BadSubscript(NameKey))
    ensures Subscript(response, NameKey).Some? && Subscript(response, ArgumentsKey).None?
            ==> r == Err(BadSubscript(ArgumentsKey))
    ensures (Subscript(response, NameKey).Some? && Subscript(response, ArgumentsKey).Some?
             && Subscript(Subscript(response, ArgumentsKey), ModuleKey).None?)
            ==> r == Err(BadSubscript(ModuleKey))
    ensures var nv := Subscript(response, NameKey);
            var mv := Subscript(Subscript(response, ArgumentsKey), ModuleKey);
            (nv.Some? && mv.Some? && !(mv.value.JString? && nv.value.JString? && (mv.value.s, nv.value.s) in modules))
            ==> r == Err(UnresolvedAction(mv.value, nv.value))
    ensures r.Ok? <==> exists m, n :: Subscript(response, NameKey) == Some(JString(n))
                                      && Subscript(Subscript(response, ArgumentsKey), ModuleKey) == Some(JString(m))
                                      && (m, n) in modules
    ensures r.Ok? ==> exists m :: Subscript(response, NameKey) == Some(JString(r.value.name))
                                  && Subscript(Subscript(response, ArgumentsKey), ModuleKey) == Some(JString(m))
                                  && (m, r.value.name) in modules && r.value.cls == modules[(m, r.value.name)]
                                  && r.value.arguments == Subscript(response, ArgumentsKey)
  {
    match Subscript(response, NameKey)
    case None => Err(BadSubscript(NameKey))
    case Some(name) =>
      var arguments := Subscript(response, ArgumentsKey);
      if arguments.None? then Err(BadSubscript(ArgumentsKey))
      else
        match Subscript(arguments, ModuleKey)
        case None => Err(BadSubscript(ModuleKey))
        case Some(moduleName) =>
          if moduleName.JString? && name.JString? && (moduleName.s, name.s) in modules
          then Ok(Target(name.s, modules[(moduleName.s, name.s)], arguments))
          else Err(UnresolvedAction(moduleName, name))
  }

  /** `r['arguments']['query']`. */
  function QueryOf(arguments: Option<Json>): (r: Result<Json, Fault>)
    ensures r.Ok? <==> Subscript(arguments, QueryKey).Some?
    ensures r.Ok? ==> Some(r.value) == Subscript(arguments, QueryKey)
    ensures r.Err? ==> r.error == BadSubscript(QueryKey)
  {
    match Subscript(arguments, QueryKey)
    case None => Err(BadSubscript(QueryKey))
    case Some(q) => Ok(q)
  }

  /** A tool call the current agents are ready to make: the class, and the
      query its constructor has accepted. */
  datatype Call = Call(target: Target, query: Json)

  /** The lookups of the current agents up to `tool_cls(query=...)`:
      resolve the class, read `r['arguments']['query']`, and build the
      instance, which pydantic may refuse. */
  function Plan(modules: Registry, response: Option<Json>): (r: Result<Call, Fault>)
    ensures r.Ok? <==> Locate(modules, response).Ok? && QueryOf(Locate(modules, response).value.arguments).Ok?
                       && Locate(modules, response).value.cls.accepts(Some(QueryOf(Locate(modules, response).value.arguments).value))
    ensures r.Ok? ==> Ok(r.value.target) == Locate(modules, response)
                      && Ok(r.value.query) == QueryOf(r.value.target.arguments)
    ensures Locate(modules, response).Err? ==> r == Err(Locate(modules, response).error)
  {
    match Locate(modules, response)
    case Err(e) => Err(e)
    case Ok(target) =>
      match QueryOf(target.arguments)
      case Err(e) => Err(e)
      case Ok(query) =>
        if target.cls.accepts(Some(query)) then Ok(Call(target, query)) else Err(InvalidArguments(target.name))
  }

  /** The json object the prompts teach the model to answer with. */
  function Intent(name: string, query: Json, typ: Json, moduleName: string): Json {
    JObject([(NameKey, JString(name)),
             (ArgumentsKey, JObject([(QueryKey, query), ("type", typ), (ModuleKey, JString(moduleName))]))])
  }

  /** An answer in the taught format reaches the tool it names, with the
      query it gives, whenever that tool is importable; when the tool is
      not importable the run fails naming both. */
  lemma IntentDispatches(modules: Registry, name: string, query: Json, typ: Json, moduleName: string)
    ensures var r := Locate(modules, Some(Intent(name, query, typ, moduleName)));
            ((moduleName, name) in modules ==>
               r.Ok? && r.value.name == name && r.value.cls == modules[(moduleName, name)]
               && QueryOf(r.value.arguments) == Ok(query))
            && ((moduleName, name) !in modules ==>
                  r == Err(UnresolvedAction(JString(moduleName), JString(name))))
  {
    var ms := [(NameKey, JString(name)),
               (ArgumentsKey, JObject([(QueryKey, query), ("type", typ), (ModuleKey, JString(moduleName))]))];
    var args := [(QueryKey, query), ("type", typ), (ModuleKey, JString(moduleName))];
    assert ms[..1] == [ms[0]];
    assert Lookup(ms, NameKey) == Some(JString(name));
    assert Lookup(ms, ArgumentsKey) == Some(JObject(args));
    assert args[..2][..1] == [args[0]];
    assert Lookup(args, ModuleKey) == Some(JString(moduleName));
    assert Lookup(args, QueryKey) == Some(query);
  }
}
