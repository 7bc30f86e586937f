/** Normalising a Responses API result into `{content, tool_calls}`
    (`_extract_msg_obj` in the three Responses clients) and reading the first
    choice of a Chat Completions result. */
module ResponseShape {
  import opened Wrappers
  import opened Json

  /** The normalised message: the joined text (if any chunk was seen) and the tool calls. */
  datatype MsgObj = MsgObj(content: Option<string>, calls: seq<Value>)

  /** The type tag that marks a tool call: `"function_call"` in the orion clients,
      `"tool_call"` in the sutradhar client. */
  datatype CallTag = FunctionCall | ToolCall {
    function Name(): string {
      match this
      case FunctionCall => "function_call"
      case ToolCall => "tool_call"
    }
  }

  predicate IsCall(tag: CallTag, o: Value) {
    o.JObj? && HasStr(o.fields, "type", tag.Name())
  }

  /** `d.get(k, default)`: a JSON `null` stored under `k` is returned as is. */
  function GetOr(m: map<string, Value>, k: string, default: Value): Value {
    if k in m then m[k] else default
  }

  /** The chunks one entry of a `message` item's content list contributes: a
      string, or the `text` of an `output_text` dictionary (which need not be a string). */
  function PartChunks(item: Value): seq<Value> {
    if item.JStr? then [item]
    else if item.JObj? && GetOr(item.fields, "type", JStr("")) == JStr("output_text") then
      [GetOr(item.fields, "text", JStr(""))]
    else []
  }

  function PartsChunks(parts: seq<Value>): seq<Value> {
    if parts == [] then [] else PartsChunks(parts[..|parts| - 1]) + PartChunks(parts[|parts| - 1])
  }

  /** The chunks one output item contributes. */
  function ItemChunks(o: Value): seq<Value> {
    if o.JObj? && HasStr(o.fields, "type", "message") && "content" in o.fields then
      match o.fields["content"]
      case JStr(s) => [JStr(s)]
      case JArr(parts) => PartsChunks(parts)
      case _ => []
    else []
  }

  /** All text chunks of an output list, in output order. */
  function Chunks(output: seq<Value>): seq<Value> {
    if output == [] then [] else Chunks(output[..|output| - 1]) + ItemChunks(output[|output| - 1])
  }

  /** The tool-call items of an output list, in output order. */
  function Calls(tag: CallTag, output: seq<Value>): seq<Value> {
    if output == [] then []
    else Calls(tag, output[..|output| - 1]) + (if IsCall(tag, output[|output| - 1]) then [output[|output| - 1]] else [])
  }

  /** The string chunks, in order (the source drops non-string chunks only when joining). */
  function Strings(chunks: seq<Value>): seq<string> {
    if chunks == [] then []
    else Strings(chunks[..|chunks| - 1]) + (if chunks[|chunks| - 1].JStr? then [chunks[|chunks| - 1].s] else [])
  }

  /** `"\n".join(xs)`. */
  function JoinLines(xs: seq<string>): string {
    if xs == [] then "" else if |xs| == 1 then xs[0] else JoinLines(xs[..|xs| - 1]) + "\n" + xs[|xs| - 1]
  }

  /** The output list of a result: `resp.get("output")` when it is a non-empty list. */
  function OutputOf(resp: map<string, Value>): seq<Value> {
    if "output" in resp && resp["output"].JArr? then resp["output"].items else []
  }

  /** `_extract_msg_obj`. */
  function Extract(tag: CallTag, resp: map<string, Value>): MsgObj {
    var chunks := Chunks(OutputOf(resp));
    MsgObj(if chunks == [] then None else Some(JoinLines(Strings(chunks))), Calls(tag, OutputOf(resp)))
  }

  // ---------------------------------------------------------------------------
  // The loop the source runs.

  /** The inner pass over a `message` item's content list. */
  method PartsLoop(parts: seq<Value>) returns (chunks: seq<Value>)
    ensures chunks == PartsChunks(parts)
  {
    chunks := [];
    var j := 0;
    while j < |parts|
      invariant 0 <= j <= |parts|
      invariant chunks == PartsChunks(parts[..j])
    {
      assert parts[..j + 1][..j] == parts[..j];
      var item := parts[j];
      if item.JStr? {
        chunks := chunks + [item];
      } else if item.JObj? && GetOr(item.fields, "type", JStr("")) == JStr("output_text") {
        chunks := chunks + [GetOr(item.fields, "text", JStr(""))];
      }
      j := j + 1;
    }
    assert parts[..j] == parts;
  }

  /** `_extract_msg_obj` as the source runs it: one pass over the output list,
      collecting chunks and calls, with an inner pass over a content list. */
  method ExtractLoop(tag: CallTag, resp: map<string, Value>) returns (msg: MsgObj)
    ensures msg == Extract(tag, resp)
  {
    var output: seq<Value> := [];
    if "output" in resp && resp["output"].JArr? {
      output := resp["output"].items;
    }
    var chunks: seq<Value> := [];
    var calls: seq<Value> := [];
    var i := 0;
    while i < |output|
      invariant 0 <= i <= |output|
      invariant chunks == Chunks(output[..i])
      invariant calls == Calls(tag, output[..i])
    {
      var o := output[i];
      ExtractStep(tag, output, i);
      MessageNotCall(tag, o);
      var more: seq<Value> := [];
      if o.JObj? && HasStr(o.fields, "type", "message") {
        if "content" in o.fields && o.fields["content"].JStr? {
          more := [o.fields["content"]];
        } else if "content" in o.fields && o.fields["content"].JArr? {
          more := PartsLoop(o.fields["content"].items);
        }
      } else if o.JObj? && HasStr(o.fields, "type", tag.Name()) {
        calls := calls + [o];
      }
      assert more == ItemChunks(o);
      chunks := chunks + more;
      i := i + 1;
    }
    assert output[..i] == output;
    var content: Option<string> := None;
    if chunks != [] {
      content := Some(JoinLines(Strings(chunks)));
    }
    msg := MsgObj(content, calls);
  }

  /** One more output item adds its chunks and, if it is a call, itself. */
  lemma ExtractStep(tag: CallTag, output: seq<Value>, i: nat)
    requires i < |output|
    ensures Chunks(output[..i + 1]) == Chunks(output[..i]) + ItemChunks(output[i])
    ensures Calls(tag, output[..i + 1]) == Calls(tag, output[..i]) + (if IsCall(tag, output[i]) then [output[i]] else [])
  {
    assert output[..i + 1][..i] == output[..i];
    assert output[..i + 1][i] == output[i];
  }

  /** A `message` item is never a call. */
  lemma MessageNotCall(tag: CallTag, o: Value)
    ensures o.JObj? && HasStr(o.fields, "type", "message") ==> !IsCall(tag, o)
  {
    assert tag.Name() != "message";
  }

  // ---------------------------------------------------------------------------
  // What the normaliser promises.

  /** Collecting calls distributes over concatenation: calls keep output order. */
  lemma {:induction false} CallsAppend(tag: CallTag, a: seq<Value>, b: seq<Value>)
    ensures Calls(tag, a + b) == Calls(tag, a) + Calls(tag, b)
    decreases |b|
  {
    if b != [] {
      CallsAppend(tag, a, b[..|b| - 1]);
      assert (a + b)[..|a + b| - 1] == a + b[..|b| - 1];
    } else {
      assert a + b == a;
    }
  }

  /** The calls are exactly the items tagged as calls, and nothing else. */
  lemma {:induction false} CallsAreTagged(tag: CallTag, output: seq<Value>)
    ensures forall x :: x in Calls(tag, output) <==> x in output && IsCall(tag, x)
    decreases |output|
  {
    if output != [] {
      CallsAreTagged(tag, output[..|output| - 1]);
      assert output == output[..|output| - 1] + [output[|output| - 1]];
    }
  }

  lemma {:induction false} ChunksAppend(a: seq<Value>, b: seq<Value>)
    ensures Chunks(a + b) == Chunks(a) + Chunks(b)
    decreases |b|
  {
    if b != [] {
      ChunksAppend(a, b[..|b| - 1]);
      assert (a + b)[..|a + b| - 1] == a + b[..|b| - 1];
    } else {
      assert a + b == a;
    }
  }

  /** An output list without message items gives no content at all (`None`,
      not the empty string). */
  lemma {:induction false} NoMessagesNoChunks(output: seq<Value>)
    requires forall i :: 0 <= i < |output| ==> !(output[i].JObj? && HasStr(output[i].fields, "type", "message"))
    ensures Chunks(output) == []
    decreases |output|
  {
    if output != [] {
      NoMessagesNoChunks(output[..|output| - 1]);
    }
  }

  lemma NoMessagesNoContent(tag: CallTag, resp: map<string, Value>)
    requires forall i :: 0 <= i < |OutputOf(resp)| ==> !(OutputOf(resp)[i].JObj? && HasStr(OutputOf(resp)[i].fields, "type", "message"))
    ensures Extract(tag, resp).content == None
  {
    NoMessagesNoChunks(OutputOf(resp));
  }

  /** One string-content message gives that string as the content and no calls. */
  lemma SingleMessage(tag: CallTag, text: string)
    ensures var resp := map["output" := JArr([JObj(map["type" := JStr("message"), "content" := JStr(text)])])];
      Extract(tag, resp) == MsgObj(Some(text), [])
  {
    var item := JObj(map["type" := JStr("message"), "content" := JStr(text)]);
    var resp := map["output" := JArr([item])];
    assert OutputOf(resp) == [item];
    assert ItemChunks(item) == [JStr(text)];
    MessageNotCall(tag, item);
    OneItem(tag, resp, item, text);
  }

  lemma OneItem(tag: CallTag, resp: map<string, Value>, item: Value, text: string)
    requires OutputOf(resp) == [item] && ItemChunks(item) == [JStr(text)] && !IsCall(tag, item)
    ensures Extract(tag, resp) == MsgObj(Some(text), [])
  {
    assert [item][..0] == [];
    assert Chunks([item]) == [JStr(text)];
    assert Calls(tag, [item]) == [];
    assert Strings([JStr(text)]) == [text] by { assert [JStr(text)][..0] == []; }
  }

  /** Joining keeps every chunk: `"\n".join(a + b)` is the two joins with a newline between. */
  lemma {:induction false} JoinAppend(a: seq<string>, b: seq<string>)
    requires a != [] && b != []
    ensures JoinLines(a + b) == JoinLines(a) + "\n" + JoinLines(b)
    decreases |b|
  {
    if |b| == 1 {
      assert (a + b)[..|a + b| - 1] == a;
    } else {
      JoinAppend(a, b[..|b| - 1]);
      assert (a + b)[..|a + b| - 1] == a + b[..|b| - 1];
    }
  }

  // ---------------------------------------------------------------------------
  // Chat Completions: the first choice's message.

  /** `(resp.get("choices") or [{}])[0].get("message", {}) or {}`; `None` where the
      source would raise (a truthy `choices` that is not a list, a choice or
      message that is not a dictionary). */
  function FirstChoiceMessage(resp: map<string, Value>): (r: Option<map<string, Value>>)
    ensures ("choices" !in resp || !Truthy(resp["choices"])) ==> r == Some(map[])
  {
    var choices := if "choices" in resp && Truthy(resp["choices"]) then resp["choices"] else JArr([JObj(map[])]);
    if !choices.JArr? then None
    else
      var choice := choices.items[0];
      if !choice.JObj? then None
      else
        var msg := GetOr(choice.fields, "message", JObj(map[]));
        if !Truthy(msg) then Some(map[])
        else if msg.JObj? then Some(msg.fields)
        else None
  }
}
