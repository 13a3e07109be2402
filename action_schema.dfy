/** `BaseAction.get_tool_info` of automind/actions/base.py: the schema an
    action class shows the model, derived from the class alone. */
module ActionSchema {
  import opened Wrappers
  import opened Text
  import opened Json
  import opened Errors
  import opened Host

  /** A pydantic field as `model_fields` lists it: its name and its declared
      `description`, if any. */
  datatype FieldInfo = FieldInfo(name: string, description: Option<string>)

  /** What `get_tool_info` reads from an action class: `__name__`, `__doc__`,
      `model_fields` (BaseAction's own `llm` field included) and the name of
      the return annotation of `execute`, if it has one. */
  datatype ActionClass = ActionClass(
    kls: string,
    doc: Option<string>,
    fields: seq<FieldInfo>,
    returnType: Option<string>)

  /** `expel_types`: the slot through which the agent injects its model. */
  const ModelHandleField: string := "llm"

  const ClsKey: string := "cls"
  const ParamsKey: string := "params"
  const ReturnsKey: string := "returns"

  function FieldNames(fields: seq<FieldInfo>): set<string> {
    set i | 0 <= i < |fields| :: fields[i].name
  }

  /** A field's description as JSON; a field without one gives `null`. */
  function Describe(f: FieldInfo): (r: Json)
    ensures r == JNull <==> f.description.None?
  {
    if f.description.Some? then JString(f.description.value) else JNull
  }

  /** The `params` comprehension: one member per declared field, in order,
      except the model handle. What it holds is stated by `ParamsKeys` and
      `ParamsInOrder`. */
  function Params(fields: seq<FieldInfo>): seq<(string, Json)> {
    if fields == [] then []
    else if fields[0].name == ModelHandleField then Params(fields[1..])
    else [(fields[0].name, Describe(fields[0]))] + Params(fields[1..])
  }

  /** `params` has one key per declared field other than `llm`, and each
      member is the name and description of a declared field. */
  lemma {:induction false} ParamsKeys(fields: seq<FieldInfo>)
    ensures Keys(Params(fields)) == FieldNames(fields) - {ModelHandleField}
    ensures forall i :: 0 <= i < |Params(fields)| ==>
              exists j :: 0 <= j < |fields| && Params(fields)[i] == (fields[j].name, Describe(fields[j]))
    decreases |fields|
  {
    if fields != [] {
      var rest := Params(fields[1..]);
      ParamsKeys(fields[1..]);
      FieldNamesCons(fields);
      forall i | 0 <= i < |rest|
        ensures exists j :: 0 <= j < |fields| && rest[i] == (fields[j].name, Describe(fields[j]))
      {
        var j :| 0 <= j < |fields[1..]| && rest[i] == (fields[1..][j].name, Describe(fields[1..][j]));
        assert fields[j + 1] == fields[1..][j];
      }
      if fields[0].name != ModelHandleField {
        var m := (fields[0].name, Describe(fields[0]));
        KeysCons(m, rest);
        var ps := [m] + rest;
        forall i | 0 <= i < |ps|
          ensures exists j :: 0 <= j < |fields| && ps[i] == (fields[j].name, Describe(fields[j]))
        {
          if i == 0 { assert ps[0] == (fields[0].name, Describe(fields[0])); }
          else { assert ps[i] == rest[i - 1]; }
        }
      }
    }
  }

  /** The members of `params` follow the declared fields in order: those
      of a concatenation of field lists are the members of the first list
      followed by those of the second. */
  lemma {:induction false} ParamsInOrder(a: seq<FieldInfo>, b: seq<FieldInfo>)
    ensures Params(a + b) == Params(a) + Params(b)
    decreases |a|
  {
    if a == [] {
      assert a + b == b;
    } else {
      var ab := a + b;
      assert ab[0] == a[0] && ab[1..] == a[1..] + b;
      ParamsInOrder(a[1..], b);
      ParamsCons(ab);
      ParamsCons(a);
      var h := Params([a[0]]);
      assert Params(ab) == h + (Params(a[1..]) + Params(b));
      assert Params(a) + Params(b) == (h + Params(a[1..])) + Params(b);
    }
  }

  /** One step of the comprehension: the first field's member, if any,
      comes before those of the rest. */
  lemma ParamsCons(fields: seq<FieldInfo>)
    requires fields != []
    ensures Params(fields) == Params([fields[0]]) + Params(fields[1..])
  {
    ParamsSingle(fields[0]);
  }

  /** A single field other than `llm` contributes exactly its own member;
      `llm` contributes none. */
  lemma ParamsSingle(f: FieldInfo)
    ensures Params([f]) == if f.name == ModelHandleField then [] else [(f.name, Describe(f))]
  {
    assert [f][1..] == [];
  }

  lemma FieldNamesCons(fields: seq<FieldInfo>)
    requires fields != []
    ensures FieldNames(fields) == {fields[0].name} + FieldNames(fields[1..])
  {
    forall n | n in FieldNames(fields) ensures n in {fields[0].name} + FieldNames(fields[1..]) {
      var i :| 0 <= i < |fields| && fields[i].name == n;
      if i > 0 { assert fields[1..][i - 1].name == n; }
    }
    forall n | n in FieldNames(fields[1..]) ensures n in FieldNames(fields) {
      var i :| 0 <= i < |fields[1..]| && fields[1..][i].name == n;
      assert fields[i + 1].name == n;
    }
  }

  /** `cls.doc`: the dedented, stripped docstring, or "" when the class has
      none (or an empty one). */
  function Doc(doc: Option<string>, dedent: string -> string): (r: string)
    ensures (doc.None? || doc.value == "") ==> r == ""
    ensures doc.Some? && doc.value != "" ==> exists a :: TrimmedAt(dedent(doc.value), r, a)
    ensures r != [] ==> !IsSpace(r[0]) && !IsSpace(r[|r| - 1])
  {
    if doc.None? || doc.value == "" then "" else Strip(dedent(doc.value))
  }

  /** The `tool_info` dict, before serialisation. Without a return annotation
      on `execute` the 'void' fallback has no `__name__` and derivation
      fails. */
  function ToolInfo(a: ActionClass, dedent: string -> string): (r: Result<Json, Fault>)
    ensures r.Err? <==> a.returnType.None?
    ensures r.Err? ==> r.error == NoReturnAnnotation(a.kls)
    ensures r.Ok? ==> r.value.JObject? && |r.value.members| == 3
                      && Keys(r.value.members) == {ClsKey, ParamsKey, ReturnsKey}
  {
    match a.returnType
    case None => Err(NoReturnAnnotation(a.kls))
    case Some(ret) =>
      var members := [
        (ClsKey, JObject([("kls", JString(a.kls)), ("doc", JString(Doc(a.doc, dedent)))])),
        (ParamsKey, JObject(Params(a.fields))),
        (ReturnsKey, JString(ret))];
      assert Keys(members) == {ClsKey, ParamsKey, ReturnsKey} by {
        assert members[0].0 == ClsKey && members[1].0 == ParamsKey && members[2].0 == ReturnsKey;
      }
      Ok(JObject(members))
  }

  /** `get_tool_info()`: the JSON text of `ToolInfo`. */
  function GetToolInfo(a: ActionClass, lib: HostLib): (r: Result<string, Fault>)
    ensures r.Err? <==> a.returnType.None?
    ensures r.Err? ==> r.error == NoReturnAnnotation(a.kls)
    ensures r.Ok? ==> r.value == lib.dumps(ToolInfo(a, lib.dedent).value)
  {
    match ToolInfo(a, lib.dedent)
    case Ok(info) => Ok(lib.dumps(info))
    case Err(e) => Err(e)
  }

  /** `[action.get_tool_info() for action in actions]`: all the schemas, in
      order, when every action has a return annotation. */
  function ToolInfos(actions: seq<ActionClass>, lib: HostLib): (r: Result<seq<string>, Fault>)
    ensures r.Ok? <==> forall i :: 0 <= i < |actions| ==> actions[i].returnType.Some?
    ensures r.Ok? ==> |r.value| == |actions|
                      && forall i :: 0 <= i < |actions| ==> r.value[i] == GetToolInfo(actions[i], lib).value
  {
    if actions == [] then Ok([])
    else
      TailIndices(actions);
      match GetToolInfo(actions[0], lib)
      case Err(e) => Err(e)
      case Ok(first) =>
        match ToolInfos(actions[1..], lib)
        case Err(e) => Err(e)
        case Ok(rest) => Ok([first] + rest)
  }

  lemma TailIndices(actions: seq<ActionClass>)
    requires actions != []
    ensures forall i :: 1 <= i < |actions| ==> actions[i] == actions[1..][i - 1]
  {
  }

  /** The comprehension stops at the first action without a return
      annotation, and its fault names that class. */
  lemma {:induction false} ToolInfosFault(actions: seq<ActionClass>, lib: HostLib)
    requires ToolInfos(actions, lib).Err?
    ensures exists i :: 0 <= i < |actions| && actions[i].returnType.None?
                        && ToolInfos(actions, lib).error == NoReturnAnnotation(actions[i].kls)
                        && forall j :: 0 <= j < i ==> actions[j].returnType.Some?
  {
    TailIndices(actions);
    if actions[0].returnType.Some? {
      ToolInfosFault(actions[1..], lib);
      var i :| 0 <= i < |actions[1..]| && actions[1..][i].returnType.None?
               && ToolInfos(actions[1..], lib).error == NoReturnAnnotation(actions[1..][i].kls)
               && forall j :: 0 <= j < i ==> actions[1..][j].returnType.Some?;
      assert actions[i + 1].returnType.None?;
    } else {
      assert actions[0].returnType.None?;
    }
  }

  /** What a consumer of the schema sees: exactly the keys `cls`, `params`
      and `returns`; `cls` names the class and carries its docstring;
      `params` has one key per declared field except `llm`, each mapped to
      its description or `null`; `returns` names `execute`'s annotation. */
  lemma ToolInfoContents(a: ActionClass, dedent: string -> string)
    requires a.returnType.Some?
    ensures var info := Some(ToolInfo(a, dedent).value);
            var cls := Subscript(info, ClsKey);
            var params := Subscript(info, ParamsKey);
            && Subscript(cls, "kls") == Some(JString(a.kls))
            && Subscript(cls, "doc") == Some(JString(Doc(a.doc, dedent)))
            && params.Some? && params.value.JObject?
            && ModelHandleField !in Keys(params.value.members)
            && (forall n :: n in Keys(params.value.members) <==> n in FieldNames(a.fields) && n != ModelHandleField)
            && (forall n :: n in Keys(params.value.members) ==>
                  exists j :: 0 <= j < |a.fields| && a.fields[j].name == n
                              && Lookup(params.value.members, n) == Some(Describe(a.fields[j])))
            && Subscript(info, ReturnsKey) == Some(JString(a.returnType.value))
  {
    var info := ToolInfo(a, dedent).value;
    ToolInfoMembers(a, dedent);
    ClassMembers(a.kls, Doc(a.doc, dedent));
    ParamsKeys(a.fields);
    ParamsDescribe(a.fields);
  }

  /** The three members of the record, looked up by key. */
  lemma ToolInfoMembers(a: ActionClass, dedent: string -> string)
    requires a.returnType.Some?
    ensures var ms := ToolInfo(a, dedent).value.members;
            Lookup(ms, ReturnsKey) == Some(JString(a.returnType.value))
            && Lookup(ms, ParamsKey) == Some(JObject(Params(a.fields)))
            && Lookup(ms, ClsKey) == Some(JObject([("kls", JString(a.kls)), ("doc", JString(Doc(a.doc, dedent)))]))
  {
    var ms := ToolInfo(a, dedent).value.members;
    assert ms[..2][..1] == [ms[0]];
  }

  lemma ClassMembers(kls: string, doc: string)
    ensures var cs := [("kls", JString(kls)), ("doc", JString(doc))];
            Lookup(cs, "kls") == Some(JString(kls)) && Lookup(cs, "doc") == Some(JString(doc))
  {
    var cs := [("kls", JString(kls)), ("doc", JString(doc))];
    assert cs[..1] == [cs[0]];
  }

  /** Each key of `params` maps to the description of a field of that
      name. */
  lemma ParamsDescribe(fields: seq<FieldInfo>)
    ensures var ps := Params(fields);
            forall n :: n in Keys(ps) ==>
              exists j :: 0 <= j < |fields| && fields[j].name == n && Lookup(ps, n) == Some(Describe(fields[j]))
  {
    var ps := Params(fields);
    ParamsKeys(fields);
    forall n | n in Keys(ps)
      ensures exists j :: 0 <= j < |fields| && fields[j].name == n && Lookup(ps, n) == Some(Describe(fields[j]))
    {
      var v := Lookup(ps, n).value;
      var i :| 0 <= i < |ps| && ps[i] == (n, v);
      var j :| 0 <= j < |fields| && ps[i] == (fields[j].name, Describe(fields[j]));
    }
  }
}
