/** The two tool loops of the sutradhar client (`call_responses`, which reads
    `tool_call` items of a Responses result, and `call_chatcompletions`, which
    reads the first choice of a Chat Completions result). Both record an
    assistant turn carrying the tool calls and one `tool` message per call,
    allow at most 12 tool rounds, and expect strict JSON as the final text. They
    differ in where the assistant turn goes: the Responses loop sinks it before
    the checks but replays it after the tool messages; the Chat loop appends and
    sinks it first. */
module TurnLoop {
  import opened Wrappers
  import opened Json
  import Retry
  import ResponseShape
  import SystemState
  import ResponsesLoop

  type Msg = SystemState.Msg

  datatype Api = Responses | ChatCompletions

  const MaxToolTurns: nat := 12

  datatype Env = Env(post: nat -> Retry.Outcome, codec: Codec, runner: Option<ResponsesLoop.Runner>)

  datatype Loop = Loop(local: seq<Msg>, sunk: seq<Msg>, posts: nat, turns: nat)

  datatype Run = Run(result: Result<Value>, st: Loop)

  /** The normalised model turn: its content (`null` when absent) and its tool calls. */
  datatype Turn = Turn(content: Value, calls: Value)

  function ApiError(api: Api, status: int, text: string): string {
    (if api.Responses? then "Responses API error " else "Chat Completions API error ")
      + IntStr(status) + ": " + Prefix(text, 2000)
  }

  /** The model turn a decoded response object carries. */
  function TurnOf(api: Api, resp: map<string, Value>): Result<Turn> {
    if api.Responses? then
      var msg := ResponseShape.Extract(ResponseShape.ToolCall, resp);
      Ok(Turn(match msg.content case Some(s) => JStr(s) case None => JNull, JArr(msg.calls)))
    else match ResponseShape.FirstChoiceMessage(resp)
      case None => Err("choice or message is not a dictionary")
      case Some(mo) =>
        var calls := if "tool_calls" in mo && Truthy(mo["tool_calls"]) then mo["tool_calls"] else JArr([]);
        Ok(Turn(ResponseShape.GetOr(mo, "content", JNull), calls))
  }

  /** The model turn of one POST; `Err` where the source raises. */
  function Answer(api: Api, env: Env, o: Retry.Outcome): Result<Turn> {
    match o
    case TimedOut(detail) => Err(detail)
    case Reply(status, text) =>
      if status != 200 then Err(ApiError(api, status, text))
      else match env.codec.decode(text)
        case Some(JObj(resp)) => TurnOf(api, resp)
        case _ => Err("response body is not a JSON object")
  }

  /** The assistant turn recorded when the model asks for tools. */
  function AssistantTurn(t: Turn): Msg {
    map["role" := JStr("assistant"), "content" := t.content, "tool_calls" := t.calls]
  }

  /** The `tool` message answering call `id`. */
  function ToolMessage(codec: Codec, id: Value, out: Value): Msg {
    map["role" := JStr("tool"), "tool_call_id" := id, "content" := JStr(codec.encode(out))]
  }

  /** The assistant message the sink receives with the final text. */
  function FinalMessage(text: Value): Msg {
    map["role" := JStr("assistant"), "content" := text]
  }

  datatype Progress = Progress(err: Option<string>, st: Loop)

  /** One tool call: `id`, `function.name` and `function.arguments`; the tool
      message is appended and sunk. */
  function Step(codec: Codec, runner: ResponsesLoop.Runner, st: Loop, call: Value): (p: Progress)
    ensures p.st.turns == st.turns && p.st.posts == st.posts
  {
    if !call.JObj? then Progress(Some("tool call is not a dictionary"), st)
    else
      var fnV := ResponseShape.GetOr(call.fields, "function", JObj(map[]));
      var fn := if Truthy(fnV) then fnV else JObj(map[]);
      if !fn.JObj? then Progress(Some("function is not a dictionary"), st)
      else
        var args := ResponsesLoop.ParseArgs(codec, ResponseShape.GetOr(fn.fields, "arguments", JStr("{}")));
        match runner(SystemState.At(fn.fields, "name"), args)
        case Err(e) => Progress(Some(e), st)
        case Ok(out) =>
          var m := ToolMessage(codec, SystemState.At(call.fields, "id"), out);
          Progress(None, st.(local := st.local + [m], sunk := st.sunk + [m]))
  }

  function RunCalls(codec: Codec, runner: ResponsesLoop.Runner, st: Loop, calls: seq<Value>): (p: Progress)
    ensures p.st.turns == st.turns && p.st.posts == st.posts
    decreases |calls|
  {
    if calls == [] then Progress(None, st)
    else
      var p := Step(codec, runner, st, calls[0]);
      if p.err.Some? then p else RunCalls(codec, runner, p.st, calls[1..])
  }

  datatype Next = Done(run: Run) | Continue(st: Loop)

  /** A turn that asked for tools. */
  function ToolRound(api: Api, env: Env, st: Loop, t: Turn): (n: Next)
    requires st.turns <= MaxToolTurns
    ensures n.Continue? ==> n.st.turns == st.turns + 1 <= MaxToolTurns
  {
    var a := AssistantTurn(t);
    var st1 := if api.Responses? then st.(sunk := st.sunk + [a])
               else st.(local := st.local + [a], sunk := st.sunk + [a]);
    if env.runner.None? then Done(Run(Err(ResponsesLoop.NoRunner), st1))
    else if st.turns + 1 > MaxToolTurns then Done(Run(Err(ResponsesLoop.TooManyTurns), st1.(turns := st.turns + 1)))
    else if !t.calls.JArr? then Done(Run(Err("tool_calls is not a list"), st1.(turns := st.turns + 1)))
    else
      var p := RunCalls(env.codec, env.runner.value, st1.(turns := st.turns + 1), t.calls.items);
      if p.err.Some? then Done(Run(Err(p.err.value), p.st))
      else if api.Responses? then Continue(p.st.(local := p.st.local + [a]))
      else Continue(p.st)
  }

  /** A turn without tool calls: `content or ""` is sunk and parsed. */
  function FinalRound(env: Env, st: Loop, t: Turn): Run {
    var text := if Truthy(t.content) then t.content else JStr("");
    var st2 := st.(sunk := st.sunk + [FinalMessage(text)]);
    if !text.JStr? then Run(Err("the JSON object must be str"), st2)
    else match env.codec.decode(text.s)
      case Some(j) => Run(Ok(j), st2)
      case None => Run(Err(ResponsesLoop.ParseFailure(text.s)), st2)
  }

  function Round(api: Api, env: Env, st: Loop): (n: Next)
    requires st.turns <= MaxToolTurns
    ensures n.Continue? ==> n.st.turns == st.turns + 1 <= MaxToolTurns
  {
    var st1 := st.(posts := st.posts + 1);
    match Answer(api, env, env.post(st.posts))
    case Err(e) => Done(Run(Err(e), st1))
    case Ok(t) => if Truthy(t.calls) then ToolRound(api, env, st1, t) else Done(FinalRound(env, st1, t))
  }

  function Drive(api: Api, env: Env, st: Loop): Run
    requires st.turns <= MaxToolTurns
    decreases MaxToolTurns - st.turns
  {
    match Round(api, env, st)
    case Done(r) => r
    case Continue(next) => Drive(api, env, next)
  }

  function Call(api: Api, env: Env, messages: seq<Msg>): Run {
    Drive(api, env, Loop(messages, [], 0, 0))
  }

  // ---------------------------------------------------------------------------
  // The loops the source runs.

  method RunCallsLoop(codec: Codec, runner: ResponsesLoop.Runner, st0: Loop, calls: seq<Value>) returns (p: Progress)
    ensures p == RunCalls(codec, runner, st0, calls)
  {
    var st := st0;
    var i := 0;
    while i < |calls|
      invariant 0 <= i <= |calls|
      invariant RunCalls(codec, runner, st, calls[i..]) == RunCalls(codec, runner, st0, calls)
    {
      assert calls[i..][1..] == calls[i + 1..];
      var tc := calls[i];
      if !tc.JObj? {
        return Progress(Some("tool call is not a dictionary"), st);
      }
      var fn := ResponseShape.GetOr(tc.fields, "function", JObj(map[]));
      if !Truthy(fn) {
        fn := JObj(map[]);
      }
      if !fn.JObj? {
        return Progress(Some("function is not a dictionary"), st);
      }
      var args := ResponsesLoop.ParseArgs(codec, ResponseShape.GetOr(fn.fields, "arguments", JStr("{}")));
      var answer := runner(SystemState.At(fn.fields, "name"), args);
      if answer.Err? {
        return Progress(Some(answer.msg), st);
      }
      var m := ToolMessage(codec, SystemState.At(tc.fields, "id"), answer.value);
      st := st.(local := st.local + [m], sunk := st.sunk + [m]);
      i := i + 1;
    }
    assert calls[i..] == [];
    return Progress(None, st);
  }

  method RoundOnce(api: Api, env: Env, st0: Loop) returns (n: Next)
    requires st0.turns <= MaxToolTurns
    ensures n == Round(api, env, st0)
  {
    var st := st0.(posts := st0.posts + 1);
    var answer := Answer(api, env, env.post(st0.posts));
    if answer.Err? {
      return Done(Run(Err(answer.msg), st));
    }
    var t := answer.value;
    if !Truthy(t.calls) {
      return Done(FinalRound(env, st, t));
    }
    var a := AssistantTurn(t);
    if api.ChatCompletions? {
      st := st.(local := st.local + [a]);
    }
    st := st.(sunk := st.sunk + [a]);
    if env.runner.None? {
      return Done(Run(Err(ResponsesLoop.NoRunner), st));
    }
    st := st.(turns := st.turns + 1);
    if st.turns > MaxToolTurns {
      return Done(Run(Err(ResponsesLoop.TooManyTurns), st));
    }
    if !t.calls.JArr? {
      return Done(Run(Err("tool_calls is not a list"), st));
    }
    var p := RunCallsLoop(env.codec, env.runner.value, st, t.calls.items);
    if p.err.Some? {
      return Done(Run(Err(p.err.value), p.st));
    }
    st := p.st;
    if api.Responses? {
      st := st.(local := st.local + [a]);
    }
    return Continue(st);
  }

  /** `call_responses` / `call_chatcompletions` as the source runs them. */
  method CallLoop(api: Api, env: Env, messages: seq<Msg>) returns (r: Run)
    ensures r == Call(api, env, messages)
  {
    var st := Loop(messages, [], 0, 0);
    while true
      invariant st.turns <= MaxToolTurns
      invariant Drive(api, env, st) == Call(api, env, messages)
      decreases MaxToolTurns - st.turns
    {
      var n := RoundOnce(api, env, st);
      if n.Done? {
        return n.run;
      }
      st := n.st;
    }
  }

  // ---------------------------------------------------------------------------
  // What the loops promise.

  /** At most 12 rounds run tools; the 13th round with tool calls raises. */
  lemma {:induction false} AtMostTwelveToolTurns(api: Api, env: Env, st: Loop)
    requires st.turns <= MaxToolTurns
    ensures var r := Drive(api, env, st);
      r.st.turns <= MaxToolTurns + 1 && (r.st.turns == MaxToolTurns + 1 ==> r.result == Err(ResponsesLoop.TooManyTurns))
    decreases MaxToolTurns - st.turns
  {
    var n := Round(api, env, st);
    if n.Continue? {
      AtMostTwelveToolTurns(api, env, n.st);
    }
  }

  /** The tool messages `added` answer `calls` one by one, in order. */
  ghost predicate Answers(added: seq<Msg>, calls: seq<Value>) {
    |added| == |calls| &&
    forall i :: 0 <= i < |calls| ==>
      calls[i].JObj? && HasStr(added[i], "role", "tool") && "tool_call_id" in added[i] &&
      added[i]["tool_call_id"] == SystemState.At(calls[i].fields, "id")
  }

  lemma {:induction false} RunCallsAnswers(codec: Codec, runner: ResponsesLoop.Runner, st: Loop, calls: seq<Value>)
    requires RunCalls(codec, runner, st, calls).err.None?
    ensures var p := RunCalls(codec, runner, st, calls);
      st.sunk <= p.st.sunk && p.st.local == st.local + p.st.sunk[|st.sunk|..] &&
      Answers(p.st.sunk[|st.sunk|..], calls)
    decreases |calls|
  {
    if calls == [] {
      assert st.sunk[|st.sunk|..] == [];
    } else {
      var q := Step(codec, runner, st, calls[0]);
      StepAnswers(codec, runner, st, calls[0]);
      var p := RunCalls(codec, runner, q.st, calls[1..]);
      assert p == RunCalls(codec, runner, st, calls);
      RunCallsAnswers(codec, runner, q.st, calls[1..]);
      var m := q.st.sunk[|st.sunk|];
      var rest := p.st.sunk[|q.st.sunk|..];
      assert p.st.sunk == q.st.sunk + rest;
      assert p.st.sunk[|st.sunk|..] == [m] + rest;
      assert p.st.local == st.local + ([m] + rest);
      AnswersCons(m, rest, calls);
    }
  }

  /** One call that runs sinks one tool message answering it. */
  lemma StepAnswers(codec: Codec, runner: ResponsesLoop.Runner, st: Loop, call: Value)
    requires Step(codec, runner, st, call).err.None?
    ensures var q := Step(codec, runner, st, call);
      var m := q.st.sunk[|st.sunk|];
      |q.st.sunk| == |st.sunk| + 1 && q.st.sunk == st.sunk + [m] && q.st.local == st.local + [m] &&
      Answers([m], [call])
  {
  }

  lemma AnswersCons(m: Msg, rest: seq<Msg>, calls: seq<Value>)
    requires calls != [] && Answers([m], [calls[0]]) && Answers(rest, calls[1..])
    ensures Answers([m] + rest, calls)
  {
    var added := [m] + rest;
    forall i | 0 <= i < |calls|
      ensures calls[i].JObj? && HasStr(added[i], "role", "tool") && "tool_call_id" in added[i] &&
        added[i]["tool_call_id"] == SystemState.At(calls[i].fields, "id")
    {
      if i > 0 {
        assert added[i] == rest[i - 1] && calls[i] == calls[1..][i - 1];
      } else {
        assert [calls[0]][0] == calls[0] && [m][0] == m;
      }
    }
  }

  /** A round that runs tools sinks the assistant turn first, then one tool
      message per call in call order; the Responses loop replays the assistant
      turn after the tool messages, the Chat loop before them. */
  lemma ToolRoundRecords(api: Api, env: Env, st: Loop, t: Turn)
    requires st.turns <= MaxToolTurns && ToolRound(api, env, st, t).Continue?
    ensures var next := ToolRound(api, env, st, t).st;
      var k := |st.sunk|;
      st.sunk <= next.sunk && |next.sunk| > k && next.sunk[k] == AssistantTurn(t) &&
      t.calls.JArr? && Answers(next.sunk[k + 1..], t.calls.items) &&
      next.local == (if api.Responses? then st.local + next.sunk[k + 1..] + [AssistantTurn(t)] else st.local + next.sunk[k..])
  {
    var a := AssistantTurn(t);
    var st2 := Announced(api, st, t);
    ToolRoundContinues(api, env, st, t);
    RunCallsAnswers(env.codec, env.runner.value, st2, t.calls.items);
    var p := RunCalls(env.codec, env.runner.value, st2, t.calls.items);
    var k := |st.sunk|;
    var added := p.st.sunk[k + 1..];
    SnocPrefix(st.sunk, a, p.st.sunk);
    if api.Responses? {
      assert p.st.local == st.local + added;
    } else {
      assert p.st.local == st.local + [a] + added;
    }
  }

  lemma SnocPrefix(s0: seq<Msg>, a: Msg, s: seq<Msg>)
    requires s0 + [a] <= s
    ensures s0 <= s && |s| > |s0| && s[|s0|] == a
    ensures s[|s0|..] == [a] + s[|s0| + 1..]
  {
    assert s[|s0|] == (s0 + [a])[|s0|];
  }

  /** The state once the assistant turn is recorded and the turn counted. */
  function Announced(api: Api, st: Loop, t: Turn): Loop {
    var a := AssistantTurn(t);
    if api.Responses? then st.(sunk := st.sunk + [a], turns := st.turns + 1)
    else st.(local := st.local + [a], sunk := st.sunk + [a], turns := st.turns + 1)
  }

  /** A tool round goes on only when every call ran; the Responses loop then
      appends the assistant turn. */
  lemma ToolRoundContinues(api: Api, env: Env, st: Loop, t: Turn)
    requires st.turns <= MaxToolTurns && ToolRound(api, env, st, t).Continue?
    ensures env.runner.Some? && t.calls.JArr?
    ensures var p := RunCalls(env.codec, env.runner.value, Announced(api, st, t), t.calls.items);
      p.err.None? &&
      ToolRound(api, env, st, t).st == if api.Responses? then p.st.(local := p.st.local + [AssistantTurn(t)]) else p.st
  {
  }

  /** Without a runner the loop raises, but only after the assistant turn with
      the tool calls has been sunk. */
  lemma NoRunnerAfterSink(api: Api, env: Env, st: Loop, t: Turn)
    requires st.turns <= MaxToolTurns && env.runner.None?
    ensures ToolRound(api, env, st, t) == Done(Run(Err(ResponsesLoop.NoRunner),
      if api.Responses? then st.(sunk := st.sunk + [AssistantTurn(t)])
      else st.(local := st.local + [AssistantTurn(t)], sunk := st.sunk + [AssistantTurn(t)])))
  {
  }

  /** A tool that raises on the first call of a turn ends the loop with its
      exception: the assistant turn is already sunk, and no tool message follows. */
  lemma RaisingToolAfterSink(api: Api, env: Env, st: Loop, t: Turn, fn: map<string, Value>)
    requires st.turns < MaxToolTurns && env.runner.Some?
    requires t.calls.JArr? && t.calls.items != [] && t.calls.items[0].JObj?
    requires ResponseShape.GetOr(t.calls.items[0].fields, "function", JObj(map[])) == JObj(fn) && fn != map[]
    requires env.runner.value(SystemState.At(fn, "name"),
      ResponsesLoop.ParseArgs(env.codec, ResponseShape.GetOr(fn, "arguments", JStr("{}")))).Err?
    ensures ToolRound(api, env, st, t).Done?
    ensures var r := ToolRound(api, env, st, t).run;
      r.result == Err(env.runner.value(SystemState.At(fn, "name"),
        ResponsesLoop.ParseArgs(env.codec, ResponseShape.GetOr(fn, "arguments", JStr("{}")))).msg) &&
      r.st.sunk == st.sunk + [AssistantTurn(t)] &&
      r.st.local == if api.Responses? then st.local else st.local + [AssistantTurn(t)]
  {
    assert Truthy(JObj(fn)) by { assert fn.Keys != {}; }
  }

  /** Chat Completions without choices is a final answer with empty text, which
      is not JSON: the loop raises after sinking an empty assistant message. */
  lemma NoChoicesRaises(env: Env, st: Loop)
    requires st.turns <= MaxToolTurns
    requires env.post(st.posts).Reply? && env.post(st.posts).status == 200
    requires env.codec.decode(env.post(st.posts).text) == Some(JObj(map[]))
    requires env.codec.decode("").None?
    ensures var r := Drive(ChatCompletions, env, st);
      r.result.Err? && r.st.sunk == st.sunk + [FinalMessage(JStr(""))]
  {
    assert Answer(ChatCompletions, env, env.post(st.posts)) == Ok(Turn(JNull, JArr([])));
  }
}
