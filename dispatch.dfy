/** The workbench's reflective tool layer (`orion/workbench/tools.py`): the
    JSON-Schema advertised for each registered tool, the coercion of the
    model's arguments to the annotated types, and `run_tool`, which never
    raises and always answers `{reason_for_call, result}`. Reflection
    (`inspect.signature`, `get_type_hints`) is replaced by an explicit list of
    parameter descriptors; each tool body is a function from keyword
    arguments to a value or a raised message. */
module Dispatch {
  import opened Wrappers
  import opened Json
  import ResponsesLoop

  /** The annotations the table knows, `Optional[...]` and anything else.
      A parameter without an annotation is read as `str`, as
      `hints.get(name, str)` does. */
  datatype Ann = AStr | AInt | ABool | AFloat | AOptional(inner: Ann) | AOther

  /** One parameter after `ctx`. */
  datatype Param = Param(name: string, ann: Ann, hasDefault: bool)

  /** What `str()` of a container and `float()` give; both lie outside this model. */
  datatype Env = Env(repr: Value -> string, toFloat: Value -> Option<Value>)

  /** A registered tool: its parameters and its body (`Err` is a raised exception). */
  datatype Tool = Tool(params: seq<Param>, call: map<string, Value> -> Result<Value>)

  const Reason := "reason_for_call"

  // ---------------------------------------------------------------------------
  // Schemas

  /** `_type_map.get(ann, {"type": "string"})`. */
  function TypeName(a: Ann): string {
    match a
    case AStr => "string"
    case AInt => "integer"
    case ABool => "boolean"
    case AFloat => "number"
    case _ => "string"
  }

  /** `_json_schema_for_annotation` as written: `Optional[T]` has `Union` as its
      `__origin__`, never `Optional`, so the unwrap does not fire and the
      annotation falls through to the default. */
  function SchemaTypeAsWritten(a: Ann): (t: string)
    ensures a.AOptional? ==> t == "string"
    ensures !a.AOptional? ==> t == SchemaType(a)
  {
    TypeName(a)
  }

  /** `_json_schema_for_annotation` with the evidently intended unwrap of
      `Optional[T]` to `T`. */
  function SchemaType(a: Ann): (t: string)
    ensures t in {"string", "integer", "boolean", "number"}
  {
    if a.AOptional? then SchemaType(a.inner) else TypeName(a)
  }

  function TypeSchema(t: string): Value {
    Obj1("type", JStr(t))
  }

  /** `props` after the loop: one entry per parameter, a later duplicate name overwriting. */
  function Properties(ps: seq<Param>): map<string, Value> {
    if ps == [] then map[]
    else
      var p := ps[|ps| - 1];
      Properties(ps[..|ps| - 1])[p.name := TypeSchema(SchemaType(p.ann))]
  }

  /** `required` after the loop: the names of the parameters without a default, in order. */
  function RequiredNames(ps: seq<Param>): seq<string> {
    if ps == [] then []
    else
      var p := ps[|ps| - 1];
      RequiredNames(ps[..|ps| - 1]) + (if p.hasDefault then [] else [p.name])
  }

  function SchemaOf(props: map<string, Value>, required: seq<string>): Value {
    JObj(map[
      "type" := JStr("object"),
      "properties" := JObj(props[Reason := TypeSchema("string")]),
      "required" := JArr(Strs(required)),
      "additionalProperties" := JBool(false)])
  }

  /** `_build_parameters_schema`. */
  function ParametersSchema(ps: seq<Param>): Value {
    SchemaOf(Properties(ps), RequiredNames(ps))
  }

  /** The loop of `_build_parameters_schema`. */
  method BuildParametersSchema(ps: seq<Param>) returns (schema: Value)
    ensures schema == ParametersSchema(ps)
  {
    var props: map<string, Value> := map[];
    var required: seq<string> := [];
    for i := 0 to |ps|
      invariant props == Properties(ps[..i]) && required == RequiredNames(ps[..i])
    {
      assert ps[..i + 1][..i] == ps[..i];
      var p := ps[i];
      props := props[p.name := TypeSchema(SchemaType(p.ann))];
      if !p.hasDefault {
        required := required + [p.name];
      }
    }
    assert ps[..|ps|] == ps;
    schema := SchemaOf(props, required);
  }

  predicate Named(ps: seq<Param>, k: string) {
    exists i :: 0 <= i < |ps| && ps[i].name == k
  }

  /** Parameter names are distinct, as Python demands of a signature. */
  predicate DistinctNames(ps: seq<Param>) {
    forall i, j :: 0 <= i < j < |ps| ==> ps[i].name != ps[j].name
  }

  lemma NamedInit(ps: seq<Param>)
    requires ps != []
    ensures forall k :: Named(ps, k) <==> Named(ps[..|ps| - 1], k) || k == ps[|ps| - 1].name
  {
    var init := ps[..|ps| - 1];
    forall k ensures Named(ps, k) <==> Named(init, k) || k == ps[|ps| - 1].name {
      if Named(ps, k) && k != ps[|ps| - 1].name {
        var i :| 0 <= i < |ps| && ps[i].name == k;
        assert init[i] == ps[i];
      }
      if Named(init, k) {
        var i :| 0 <= i < |init| && init[i].name == k;
        assert ps[i] == init[i];
      }
    }
  }

  lemma DistinctInit(ps: seq<Param>)
    requires ps != [] && DistinctNames(ps)
    ensures DistinctNames(ps[..|ps| - 1])
  {
    var init := ps[..|ps| - 1];
    forall i, j | 0 <= i < j < |init| ensures init[i].name != init[j].name {
      assert init[i] == ps[i] && init[j] == ps[j];
    }
  }

  lemma {:induction false} PropertiesKeys(ps: seq<Param>)
    ensures forall k :: k in Properties(ps) <==> Named(ps, k)
    ensures DistinctNames(ps) ==> forall i :: 0 <= i < |ps| ==>
      ps[i].name in Properties(ps) && Properties(ps)[ps[i].name] == TypeSchema(SchemaType(ps[i].ann))
  {
    if ps != [] {
      var init := ps[..|ps| - 1];
      PropertiesKeys(init);
      NamedInit(ps);
      if DistinctNames(ps) {
        DistinctInit(ps);
        forall i | 0 <= i < |ps| - 1
          ensures ps[i].name in Properties(ps) && Properties(ps)[ps[i].name] == TypeSchema(SchemaType(ps[i].ann))
        {
          assert init[i] == ps[i];
        }
      }
    }
  }

  lemma {:induction false} RequiredMembers(ps: seq<Param>)
    ensures forall k :: k in RequiredNames(ps) <==> exists i :: 0 <= i < |ps| && ps[i].name == k && !ps[i].hasDefault
    ensures |RequiredNames(ps)| <= |ps|
  {
    if ps != [] {
      var init := ps[..|ps| - 1];
      RequiredMembers(init);
      forall k ensures k in RequiredNames(ps) <==> exists i :: 0 <= i < |ps| && ps[i].name == k && !ps[i].hasDefault {
        if exists i :: 0 <= i < |ps| && ps[i].name == k && !ps[i].hasDefault {
          var i :| 0 <= i < |ps| && ps[i].name == k && !ps[i].hasDefault;
          if i < |init| {
            assert init[i] == ps[i];
          }
        }
        if k in RequiredNames(init) {
          var i :| 0 <= i < |init| && init[i].name == k && !init[i].hasDefault;
          assert ps[i] == init[i];
        }
      }
    }
  }

  /** The advertised schema: an object schema with one property per parameter
      plus `reason_for_call`, each parameter's property typed by its
      annotation, `required` holding exactly the parameters without a default
      (so `reason_for_call` only when a parameter carries that name), and no
      additional properties. */
  lemma SchemaShape(ps: seq<Param>)
    requires DistinctNames(ps)
    ensures var s := ParametersSchema(ps).fields;
      && s["type"] == JStr("object")
      && s["additionalProperties"] == JBool(false)
      && s["properties"].JObj?
      && (forall k :: k in s["properties"].fields <==> k == Reason || Named(ps, k))
      && s["properties"].fields[Reason] == TypeSchema("string")
      && (forall i :: 0 <= i < |ps| && ps[i].name != Reason ==>
            s["properties"].fields[ps[i].name] == TypeSchema(SchemaType(ps[i].ann)))
      && s["required"].JArr?
      && (forall v :: v in s["required"].items <==>
            exists i :: 0 <= i < |ps| && v == JStr(ps[i].name) && !ps[i].hasDefault)
      && (!Named(ps, Reason) ==> JStr(Reason) !in s["required"].items)
  {
    PropertiesKeys(ps);
    RequiredStrs(ps);
    var props := Properties(ps);
    var s := ParametersSchema(ps).fields;
    assert s["properties"] == JObj(props[Reason := TypeSchema("string")]);
    assert s["required"] == JArr(Strs(RequiredNames(ps)));
  }

  /** The `required` array holds exactly the names of the parameters without a default. */
  lemma RequiredStrs(ps: seq<Param>)
    ensures forall v :: v in Strs(RequiredNames(ps)) <==> exists i :: 0 <= i < |ps| && v == JStr(ps[i].name) && !ps[i].hasDefault
  {
    RequiredMembers(ps);
    var req := RequiredNames(ps);
    forall v ensures v in Strs(req) <==> exists i :: 0 <= i < |ps| && v == JStr(ps[i].name) && !ps[i].hasDefault {
      if v in Strs(req) {
        var j :| 0 <= j < |req| && Strs(req)[j] == v;
        assert req[j] in req;
      }
      if exists i :: 0 <= i < |ps| && v == JStr(ps[i].name) && !ps[i].hasDefault {
        var i :| 0 <= i < |ps| && v == JStr(ps[i].name) && !ps[i].hasDefault;
        assert ps[i].name in req;
        var j :| 0 <= j < |req| && req[j] == ps[i].name;
        assert Strs(req)[j] == v;
      }
    }
  }

  // ---------------------------------------------------------------------------
  // Coercion

  const Truthful: set<string> := {"1", "true", "yes", "y"}

  /** The `try` block of `_coerce_value` for an annotation that is not unwrapped
      further: a failed conversion returns the value it was given. */
  function CoerceTo(v: Value, a: Ann, env: Env): Value {
    match a
    case AInt => (match PyInt(v) case Some(n) => JNum(n) case None => v)
    case AFloat => env.toFloat(v).GetOr(v)
    case ABool => if v.JBool? then v else JBool(Lower(Strip(PyStr(v, env.repr))) in Truthful)
    case AStr => JStr(PyStr(v, env.repr))
    case _ => v
  }

  /** `_coerce_value` as written: the `Optional` unwrap never fires, so an
      `Optional[T]` argument is passed through untouched. */
  function CoerceAsWritten(v: Value, a: Ann, env: Env): (r: Value)
    ensures a.AOptional? ==> r == v
    ensures !a.AOptional? ==> r == Coerce(v, a, env)
  {
    CoerceTo(v, a, env)
  }

  /** `_coerce_value` with the evidently intended one-level unwrap of `Optional[T]`. */
  function Coerce(v: Value, a: Ann, env: Env): Value {
    CoerceTo(v, if a.AOptional? then a.inner else a, env)
  }

  /** What coercion promises for each annotation: a boolean argument is kept as
      is and anything else becomes `True` exactly when its trimmed, lowercased
      text is one of 1/true/yes/y; an integer annotation yields a number exactly
      when `int()` succeeds and the original value otherwise; a string
      annotation always yields a string; other annotations leave the value alone. */
  lemma CoerceBool(v: Value, env: Env)
    ensures v.JBool? ==> Coerce(v, ABool, env) == v
    ensures Coerce(v, ABool, env).JBool?
    ensures !v.JBool? ==> (Coerce(v, ABool, env).b <==> Lower(Strip(PyStr(v, env.repr))) in Truthful)
  {
  }

  lemma CoerceInt(v: Value, env: Env)
    ensures Coerce(v, AInt, env).JNum? <==> PyInt(v).Some? || v.JNum?
    ensures PyInt(v).None? ==> Coerce(v, AInt, env) == v
    ensures PyInt(v).Some? ==> Coerce(v, AInt, env) == JNum(PyInt(v).value)
  {
  }

  lemma CoerceOthers(v: Value, env: Env)
    ensures env.toFloat(v).None? ==> Coerce(v, AFloat, env) == v
    ensures Coerce(v, AStr, env).JStr?
    ensures Coerce(v, AOther, env) == v
  {
  }

  /** Coercing an already coerced value changes nothing (conversion to float,
      which lies outside the model, aside). */
  lemma CoerceIdempotent(v: Value, a: Ann, env: Env)
    requires a != AFloat && a != AOptional(AFloat)
    ensures Coerce(Coerce(v, a, env), a, env) == Coerce(v, a, env)
  {
  }

  /** `int(str(n)) == n` through coercion: the decimal text of a number and the
      number itself coerce to the same value, and `str` keeps a string. */
  lemma CoerceRoundTrip(n: int, s: string, env: Env)
    ensures Coerce(JStr(IntStr(n)), AInt, env) == JNum(n) == Coerce(JNum(n), AInt, env)
    ensures Coerce(JStr(s), AStr, env) == JStr(s)
    ensures Coerce(JStr(IntStr(n)), AStr, env) == Coerce(JNum(n), AStr, env)
  {
    IntStrRoundTrip(n);
  }

  /** Spellings the model sends that read as `True`. */
  lemma BoolTrueSpellings(env: Env)
    ensures Coerce(JStr(" Yes "), ABool, env) == JBool(true)
    ensures Coerce(JNum(1), ABool, env) == JBool(true)
  {
    assert Strip(" Yes ") == "Yes";
    assert Lower("Yes") == "yes";
    assert NatStr(1) == "1";
    assert Strip("1") == "1";
    assert Lower("1") == "1";
  }

  /** Spellings that read as `False`: anything outside the four words, numbers other than 1 included. */
  lemma BoolFalseSpellings(env: Env)
    ensures Coerce(JStr("no"), ABool, env) == JBool(false)
    ensures Coerce(JNum(2), ABool, env) == JBool(false)
  {
    assert Strip("no") == "no";
    assert Lower("no") == "no";
    assert NatStr(2) == "2";
    assert Strip("2") == "2";
    assert Lower("2") == "2";
  }

  /** The Optional unwrap as written never takes effect: `get_file_snippet`'s
      `end_line: Optional[int]` is advertised as a string and its text is
      passed on unconverted, where the unwrap evidently meant an integer. */
  lemma OptionalNeverUnwrapped(env: Env)
    ensures SchemaTypeAsWritten(AOptional(AInt)) == "string"
    ensures CoerceAsWritten(JStr("40"), AOptional(AInt), env) == JStr("40")
    ensures SchemaType(AOptional(AInt)) == "integer"
    ensures Coerce(JStr("40"), AOptional(AInt), env) == JNum(40)
  {
    IntStrRoundTrip(40);
    assert IntStr(40) == "40";
  }

  /** With the unwrap, `Optional[T]` is advertised and coerced as `T`. */
  lemma OptionalIsInner(v: Value, a: Ann, env: Env)
    requires !a.AOptional?
    ensures SchemaType(AOptional(a)) == SchemaType(a)
    ensures Coerce(v, AOptional(a), env) == Coerce(v, a, env)
  {
  }

  // ---------------------------------------------------------------------------
  // run_tool

  /** `str(args.get(k) or "")`. */
  function StrArg(args: map<string, Value>, k: string, repr: Value -> string): string {
    if k in args && Truthy(args[k]) then PyStr(args[k], repr) else ""
  }

  function MetaError(msg: string): Value {
    Obj1("_meta_error", JStr(msg))
  }

  function UnknownTool(name: string, args: Value): Value {
    JObj(map["_meta_error" := JStr("unknown tool " + name), "_args_echo" := args])
  }

  function Envelope(reason: string, result: Value): Value {
    JObj(map["reason_for_call" := JStr(reason), "result" := result])
  }

  /** Every answer of `run_tool`: the reason and a dictionary result. */
  predicate Enveloped(r: Value, reason: string) {
    && r.JObj?
    && r.fields.Keys == {"reason_for_call", "result"}
    && r.fields["reason_for_call"] == JStr(reason)
    && r.fields["result"].JObj?
  }

  predicate Missing(p: Param, args: map<string, Value>) {
    p.name !in args && !p.hasDefault
  }

  /** The `kwargs` loop: the coerced arguments of the declared parameters, or
      the name of the first required parameter that is absent. */
  function Kwargs(ps: seq<Param>, args: map<string, Value>, env: Env): Result<map<string, Value>> {
    if ps == [] then Ok(map[])
    else
      var kw :- Kwargs(ps[..|ps| - 1], args, env);
      var p := ps[|ps| - 1];
      if p.name in args then Ok(kw[p.name := Coerce(args[p.name], p.ann, env)])
      else if p.hasDefault then Ok(kw)
      else Err(p.name)
  }

  /** What the tool's raw return becomes: a raised message, the dictionary
      itself, or any other value under `"value"`. */
  function Payload(name: string, raw: Result<Value>): (r: Value)
    ensures r.JObj?
    ensures raw.Ok? && raw.value.JObj? ==> r == raw.value
    ensures raw.Ok? && !raw.value.JObj? ==> r == Obj1("value", raw.value)
    ensures raw.Err? ==> r == MetaError("tool " + name + " failed: " + raw.msg)
  {
    match raw
    case Err(e) => MetaError("tool " + name + " failed: " + e)
    case Ok(v) => if v.JObj? then v else Obj1("value", v)
  }

  /** `run_tool`. */
  function RunTool(registry: map<string, Tool>, name: string, args: map<string, Value>, env: Env): (r: Value)
    ensures Enveloped(r, StrArg(args, Reason, env.repr))
  {
    var reason := StrArg(args, Reason, env.repr);
    if name !in registry then Envelope(reason, UnknownTool(name, JObj(args)))
    else
      match Kwargs(registry[name].params, args, env)
      case Err(nm) => Envelope(reason, MetaError("missing required parameter: " + nm))
      case Ok(kw) => Envelope(reason, Payload(name, registry[name].call(kw)))
  }

  /** `run_tool` as the source runs it, returning from inside the `kwargs` loop. */
  method RunToolLoop(registry: map<string, Tool>, name: string, args: map<string, Value>, env: Env)
    returns (r: Value)
    ensures r == RunTool(registry, name, args, env)
  {
    var reason := StrArg(args, Reason, env.repr);
    if name !in registry {
      return Envelope(reason, UnknownTool(name, JObj(args)));
    }
    var tool := registry[name];
    var ps := tool.params;
    var kwargs: map<string, Value> := map[];
    for i := 0 to |ps|
      invariant Kwargs(ps[..i], args, env) == Ok(kwargs)
    {
      KwargsAt(ps, args, env, i);
      var p := ps[i];
      if p.name in args {
        kwargs := kwargs[p.name := Coerce(args[p.name], p.ann, env)];
      } else if !p.hasDefault {
        KwargsStopsAt(ps, args, env, i + 1);
        return Envelope(reason, MetaError("missing required parameter: " + p.name));
      }
    }
    assert ps[..|ps|] == ps;
    var raw := tool.call(kwargs);
    r := Envelope(reason, Payload(name, raw));
  }

  /** One more parameter: its coerced argument, nothing, or a refusal naming it. */
  lemma KwargsAt(ps: seq<Param>, args: map<string, Value>, env: Env, i: nat)
    requires i < |ps| && Kwargs(ps[..i], args, env).Ok?
    ensures var kw := Kwargs(ps[..i], args, env).value;
      Kwargs(ps[..i + 1], args, env)
        == if ps[i].name in args then Ok(kw[ps[i].name := Coerce(args[ps[i].name], ps[i].ann, env)])
           else if ps[i].hasDefault then Ok(kw)
           else Err(ps[i].name)
  {
    assert ps[..i + 1][..i] == ps[..i];
    assert ps[..i + 1][i] == ps[i];
  }

  /** Once a prefix fails, the whole list fails with the same name. */
  lemma {:induction false} KwargsStopsAt(ps: seq<Param>, args: map<string, Value>, env: Env, n: nat)
    requires n <= |ps| && Kwargs(ps[..n], args, env).Err?
    ensures Kwargs(ps, args, env) == Kwargs(ps[..n], args, env)
    decreases |ps| - n
  {
    if n < |ps| {
      assert ps[..n + 1][..n] == ps[..n];
      KwargsStopsAt(ps, args, env, n + 1);
    } else {
      assert ps[..n] == ps;
    }
  }

  /** The tool is refused exactly when some required parameter is absent, and
      the refusal names the first one. */
  lemma {:induction false} KwargsMissing(ps: seq<Param>, args: map<string, Value>, env: Env)
    ensures Kwargs(ps, args, env).Err? <==> exists i :: 0 <= i < |ps| && Missing(ps[i], args)
    ensures Kwargs(ps, args, env).Err? ==>
      exists j :: && 0 <= j < |ps| && Missing(ps[j], args)
                  && Kwargs(ps, args, env).msg == ps[j].name
                  && forall i :: 0 <= i < j ==> !Missing(ps[i], args)
  {
    if ps != [] {
      var init := ps[..|ps| - 1];
      KwargsMissing(init, args, env);
      if exists i :: 0 <= i < |init| && Missing(init[i], args) {
        var i :| 0 <= i < |init| && Missing(init[i], args);
        assert ps[i] == init[i];
        var j :| 0 <= j < |init| && Missing(init[j], args)
          && Kwargs(init, args, env).msg == init[j].name
          && forall i :: 0 <= i < j ==> !Missing(init[i], args);
        assert ps[j] == init[j];
        forall i | 0 <= i < j ensures !Missing(ps[i], args) {
          assert ps[i] == init[i];
        }
      } else {
        forall i | 0 <= i < |ps| - 1 ensures !Missing(ps[i], args) {
          assert ps[i] == init[i];
        }
      }
    }
  }

  /** Only declared parameters reach the tool, each coerced to its annotation;
      `reason_for_call` is stripped unless a parameter carries that name. */
  lemma {:induction false} KwargsDeclared(ps: seq<Param>, args: map<string, Value>, env: Env)
    requires Kwargs(ps, args, env).Ok?
    ensures var kw := Kwargs(ps, args, env).value;
      && (forall k :: k in kw <==> k in args && Named(ps, k))
      && (DistinctNames(ps) ==> forall i :: 0 <= i < |ps| && ps[i].name in args ==>
            kw[ps[i].name] == Coerce(args[ps[i].name], ps[i].ann, env))
  {
    if ps != [] {
      var init := ps[..|ps| - 1];
      KwargsDeclared(init, args, env);
      NamedInit(ps);
      if DistinctNames(ps) {
        DistinctInit(ps);
        forall i | 0 <= i < |ps| - 1 && ps[i].name in args
          ensures Kwargs(ps, args, env).value[ps[i].name] == Coerce(args[ps[i].name], ps[i].ann, env)
        {
          assert init[i] == ps[i];
        }
      }
    }
  }

  /** An unknown name answers with an error that echoes the arguments. */
  lemma UnknownToolEchoes(registry: map<string, Tool>, name: string, args: map<string, Value>, env: Env)
    requires name !in registry
    ensures RunTool(registry, name, args, env).fields["result"]
      == JObj(map["_meta_error" := JStr("unknown tool " + name), "_args_echo" := JObj(args)])
  {
  }

  /** A missing required parameter is reported by name and the tool is not
      invoked: any other body with the same parameters gives the same answer. */
  lemma MissingRequiredNotInvoked(registry: map<string, Tool>, name: string, args: map<string, Value>, env: Env,
                                  other: map<string, Value> -> Result<Value>, j: nat)
    requires name in registry && j < |registry[name].params|
    requires Missing(registry[name].params[j], args)
    requires forall i :: 0 <= i < j ==> !Missing(registry[name].params[i], args)
    ensures RunTool(registry, name, args, env).fields["result"]
      == MetaError("missing required parameter: " + registry[name].params[j].name)
    ensures RunTool(registry[name := Tool(registry[name].params, other)], name, args, env)
      == RunTool(registry, name, args, env)
  {
    var ps := registry[name].params;
    KwargsMissing(ps, args, env);
    var k :| 0 <= k < |ps| && Missing(ps[k], args)
      && Kwargs(ps, args, env).msg == ps[k].name
      && forall i :: 0 <= i < k ==> !Missing(ps[i], args);
    assert k == j;
  }

  /** With every required parameter present, the tool runs on the declared
      arguments and its answer (or its raised message) is the result. */
  lemma ToolAnswerIsResult(registry: map<string, Tool>, name: string, args: map<string, Value>, env: Env)
    requires name in registry
    requires forall i :: 0 <= i < |registry[name].params| ==> !Missing(registry[name].params[i], args)
    ensures Kwargs(registry[name].params, args, env).Ok?
    ensures RunTool(registry, name, args, env).fields["result"]
      == Payload(name, registry[name].call(Kwargs(registry[name].params, args, env).value))
  {
    KwargsMissing(registry[name].params, args, env);
  }

  // ---------------------------------------------------------------------------
  // The callers' runners

  /** The workbench runner: registered tools go to `run_tool`, the two
      external tools answer with their payload, and any other name is an error
      echoing the arguments; `listPds` and `getPos` stand for the
      external-directory tools. */
  function WorkbenchRunner(registry: map<string, Tool>, name: string, args: map<string, Value>, env: Env,
                           listPds: Value, getPos: string -> Value): (r: Value)
  {
    var reason := StrArg(args, Reason, env.repr);
    if name in registry then RunTool(registry, name, args, env)
    else if name == "list_project_descriptions" then Envelope(reason, listPds)
    else if name == "get_project_orion_summary" then Envelope(reason, getPos(StrArg(args, "filename", env.repr)))
    else Envelope(reason, UnknownTool(name, JObj(args)))
  }

  /** The runner's routing, name by name. */
  lemma WorkbenchRouting(registry: map<string, Tool>, name: string, args: map<string, Value>, env: Env,
                         listPds: Value, getPos: string -> Value)
    ensures var r := WorkbenchRunner(registry, name, args, env, listPds, getPos);
      && r.JObj? && r.fields.Keys == {"reason_for_call", "result"}
      && r.fields["reason_for_call"] == JStr(StrArg(args, Reason, env.repr))
      && (name in registry ==> r == RunTool(registry, name, args, env))
      && (name !in registry && name == "get_project_orion_summary" ==>
            r.fields["result"] == getPos(StrArg(args, "filename", env.repr)))
      && (name !in registry && name != "list_project_descriptions" && name != "get_project_orion_summary" ==>
            r.fields["result"] == UnknownTool(name, JObj(args)))
  {
  }

  /** `args.get` on arguments that did not decode to a dictionary. */
  const NoGet := "AttributeError: object has no attribute 'get'"
  /** A list or dictionary looked up in a set or dictionary of names. */
  const Unhashable := "TypeError: unhashable type"

  /** The workbench runner as `call_responses` calls it, with the call's `name`
      and decoded `args` as they come: `args.get` raises unless the arguments
      are a dictionary, the name-set test raises for a list or dictionary name,
      and any other name that is not a string is unknown under its `str()`. */
  function WorkbenchCall(registry: map<string, Tool>, env: Env, listPds: Value, getPos: string -> Value,
                         name: Value, args: Value): (r: Result<Value>)
    ensures r.Err? <==> !args.JObj? || name.JArr? || name.JObj?
    ensures r.Err? ==> r.msg == (if !args.JObj? then NoGet else Unhashable)
    ensures args.JObj? && name.JStr? ==> r == Ok(WorkbenchRunner(registry, name.s, args.fields, env, listPds, getPos))
    ensures r.Ok? ==> r.value.JObj? && r.value.fields.Keys == {"reason_for_call", "result"}
  {
    if !args.JObj? then Err(NoGet)
    else if name.JStr? then
      WorkbenchRouting(registry, name.s, args.fields, env, listPds, getPos);
      Ok(WorkbenchRunner(registry, name.s, args.fields, env, listPds, getPos))
    else if name.JArr? || name.JObj? then Err(Unhashable)
    else Ok(Envelope(StrArg(args.fields, Reason, env.repr), UnknownTool(PyStr(name, env.repr), args)))
  }

  /** The `runner` that `cmd_apply` hands to the workbench `call_responses`. */
  function WorkbenchLoopRunner(registry: map<string, Tool>, env: Env, listPds: Value, getPos: string -> Value): ResponsesLoop.Runner {
    (name, args) => WorkbenchCall(registry, env, listPds, getPos, name, args)
  }

  /** The classic runner over a name-to-function registry, with the call's
      `name` and decoded `args` as they come: `.get(name)` raises for a list or
      dictionary name, a registered function is handed the arguments and
      raises as it raises, and any other name is answered as unknown. It is the
      `runner` of the older orion client and of both sutradhar loops. */
  function RegistryRunner(registry: map<string, Value -> Result<Value>>, repr: Value -> string,
                          name: Value, args: Value): (r: Result<Value>)
    ensures r.Err? ==> name.JArr? || name.JObj? || (name.JStr? && name.s in registry)
    ensures !name.JStr? && !name.JArr? && !name.JObj? ==> r == Ok(UnknownTool(PyStr(name, repr), args))
  {
    if name.JArr? || name.JObj? then Err(Unhashable)
    else if name.JStr? && name.s in registry then registry[name.s](args)
    else Ok(UnknownTool(PyStr(name, repr), args))
  }

  /** An unknown name is answered, not raised; a known one gives the tool's
      answer or its exception, which the runner does not catch. */
  lemma RegistryRouting(registry: map<string, Value -> Result<Value>>, repr: Value -> string, name: string, args: Value)
    ensures name !in registry ==>
      RegistryRunner(registry, repr, JStr(name), args)
        == Ok(JObj(map["_meta_error" := JStr("unknown tool " + name), "_args_echo" := args]))
    ensures name in registry ==> RegistryRunner(registry, repr, JStr(name), args) == registry[name](args)
    ensures name in registry && registry[name](args).Err? ==> RegistryRunner(registry, repr, JStr(name), args).Err?
    ensures RegistryRunner(registry, repr, JArr([JStr(name)]), args) == Err(Unhashable)
  {
    assert PyStr(JStr(name), repr) == name;
  }
}
