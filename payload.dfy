/** The request bodies the clients POST (`_make_payload` and the Chat
    Completions body): reasoning effort, the strict `json_schema` format, the
    token cap and which tools are offered. */
module Payload {
  import opened Wrappers
  import opened Json
  import Strictify

  /** The default output-token cap. */
  const MaxCompletionTokens: int := 48192

  predicate EndsWith(s: string, suffix: string) {
    |suffix| <= |s| && s[|s| - |suffix|..] == suffix
  }

  /** The orion clients derive the effort from the call type. */
  function Effort(callType: string): (r: string)
    ensures r == "minimal" || r == "medium"
  {
    if EndsWith(callType, "_summary") then "minimal" else "medium"
  }

  const WebSearch: Value := JObj(map["type" := JStr("web_search")])

  /** `tools.copy() if tools else []`, plus `web_search` unless the effort is minimal. */
  function OfferedTools(tools: seq<Value>, effort: string): seq<Value> {
    tools + (if effort != "minimal" then [WebSearch] else [])
  }

  /** `max_completion_tokens or MAX_COMPLETION_TOKENS`. */
  function TokenCap(requested: Option<int>): (r: int)
    ensures requested.Some? && requested.value != 0 ==> r == requested.value
  {
    if requested.Some? && requested.value != 0 then requested.value else MaxCompletionTokens
  }

  function SchemaFormat(schema: Value): Value {
    JObj(map["type" := JStr("json_schema"), "name" := JStr("OrionSchema"), "schema" := schema, "strict" := JBool(true)])
  }

  function Messages(msgs: seq<map<string, Value>>): Value {
    JArr(seq(|msgs|, i requires 0 <= i < |msgs| => JObj(msgs[i])))
  }

  /** The orion Responses payload; the workbench copy first makes the schema
      strict, which raises where the preprocessing does. */
  function OrionPayload(strict: bool, model: string, input: seq<map<string, Value>>, schema: Value,
                        requested: Option<int>, callType: string, tools: seq<Value>): Result<Value> {
    var effort := Effort(callType);
    var sent := if strict then Strictify.Preprocess(schema) else Ok(schema);
    if sent.Err? then Err(sent.msg)
    else Ok(JObj(map[
      "model" := JStr(model),
      "input" := Messages(input),
      "text" := JObj(map["format" := SchemaFormat(sent.value)]),
      "max_output_tokens" := JNum(TokenCap(requested)),
      "reasoning" := JObj(map["effort" := JStr(effort)]),
      "tools" := JArr(OfferedTools(tools, effort)),
      "tool_choice" := JStr("auto")]))
  }

  /** The sutradhar Responses payload: the effort is the caller's (or minimal), and
      tools are sent only when there are some. */
  function SutradharPayload(model: string, input: seq<map<string, Value>>, schema: Value,
                            requested: Option<int>, effort: Option<string>, tools: seq<Value>): Value {
    var base := map[
      "model" := JStr(model),
      "input" := Messages(input),
      "text" := JObj(map["format" := SchemaFormat(schema)]),
      "max_output_tokens" := JNum(TokenCap(requested)),
      "reasoning" := JObj(map["effort" := JStr(if effort.Some? && effort.value != "" then effort.value else "minimal")])];
    JObj(if tools != [] then base["tools" := JArr(tools)]["tool_choice" := JStr("auto")] else base)
  }

  /** The Chat Completions body. */
  function ChatPayload(model: string, msgs: seq<map<string, Value>>, schema: Value, requested: Option<int>, tools: seq<Value>): Value {
    var base := map[
      "model" := JStr(model),
      "messages" := Messages(msgs),
      "response_format" := JObj(map["type" := JStr("json_schema"),
        "json_schema" := JObj(map["name" := JStr("OrionSchema"), "schema" := schema, "strict" := JBool(true)])]),
      "max_completion_tokens" := JNum(TokenCap(requested))];
    JObj(if tools != [] then base["tools" := JArr(tools)]["tool_choice" := JStr("auto")] else base)
  }

  // ---------------------------------------------------------------------------

  /** Summary calls run at minimal effort and are offered exactly the caller's
      tools; every other call is offered the caller's tools followed by `web_search`. */
  lemma WebSearchUnlessSummary(callType: string, tools: seq<Value>)
    ensures var offered := OfferedTools(tools, Effort(callType));
      offered[..|tools|] == tools &&
      (EndsWith(callType, "_summary") <==> offered == tools) &&
      (!EndsWith(callType, "_summary") ==> offered == tools + [WebSearch])
  {
    var offered := OfferedTools(tools, Effort(callType));
    if !EndsWith(callType, "_summary") {
      assert |offered| == |tools| + 1;
    }
  }

  lemma SummaryCallType()
    ensures Effort("file_summary") == "minimal" && Effort("conversation") == "medium"
  {
    assert EndsWith("file_summary", "_summary") by { assert "file_summary"[4..] == "_summary"; }
  }

  /** The sutradhar payloads carry `tools` and `tool_choice` exactly when tools were given. */
  lemma ToolsOnlyWhenGiven(model: string, input: seq<map<string, Value>>, schema: Value, requested: Option<int>,
                           effort: Option<string>, tools: seq<Value>)
    ensures var p := SutradharPayload(model, input, schema, requested, effort, tools).fields;
      ("tools" in p <==> tools != []) && ("tool_choice" in p <==> tools != [])
    ensures var c := ChatPayload(model, input, schema, requested, tools).fields;
      ("tools" in c <==> tools != []) && ("tool_choice" in c <==> tools != [])
  {
  }

  /** The schema a Responses payload carries under `text.format.schema`. */
  function SentSchema(payload: Value): Value {
    if payload.JObj? && "text" in payload.fields && payload.fields["text"].JObj?
       && "format" in payload.fields["text"].fields && payload.fields["text"].fields["format"].JObj?
       && "schema" in payload.fields["text"].fields["format"].fields
    then payload.fields["text"].fields["format"].fields["schema"]
    else JNull
  }

  /** The payload is built exactly when the schema to send is, and carries it. */
  lemma PayloadCarries(strict: bool, model: string, input: seq<map<string, Value>>, schema: Value,
                       requested: Option<int>, callType: string, tools: seq<Value>)
    ensures var r := OrionPayload(strict, model, input, schema, requested, callType, tools);
      var sent := if strict then Strictify.Preprocess(schema) else Ok(schema);
      (r.Ok? <==> sent.Ok?) && (r.Ok? ==> SentSchema(r.value) == sent.value)
  {
  }

  /** The workbench copy sends the preprocessed schema, with `$ref` nodes
      alone, and fails exactly where the preprocessing raises; the orion copy
      sends the schema as given. */
  lemma WorkbenchSchemaIsPreprocessed(model: string, input: seq<map<string, Value>>, schema: Value,
                                      requested: Option<int>, callType: string, tools: seq<Value>)
    ensures var r := OrionPayload(true, model, input, schema, requested, callType, tools);
      (r.Err? <==> Strictify.WalkRaises(schema)) &&
      (r.Ok? ==> SentSchema(r.value) == Strictify.Walk(schema) && Strictify.RefsAlone(SentSchema(r.value)))
    ensures var r := OrionPayload(false, model, input, schema, requested, callType, tools);
      r.Ok? && SentSchema(r.value) == schema
  {
    PayloadCarries(true, model, input, schema, requested, callType, tools);
    PayloadCarries(false, model, input, schema, requested, callType, tools);
  }
}
