/** The tool loop of `call_responses` in the two orion Responses clients: the
    workbench client (POST with retries, usage logging, `get_file_contents`
    interception into the `system_state` message) and the older orion client
    (a single POST per turn, every tool output streamed back). Each round posts
    the in-flight message list; a response with tool calls runs every call and
    loops, at most 50 such rounds; a response without calls must be strict JSON.

    The transport is an oracle (`post(k)` answers the k-th POST), the tool runner
    and the JSON codec are parameters, and `message_sink` is the list `sunk` of
    every message handed to it. */
module ResponsesLoop {
  import opened Wrappers
  import opened Json
  import Retry
  import ResponseShape
  import SystemState
  import Usage

  type Msg = SystemState.Msg

  /** Which copy of the loop runs. */
  datatype Variant = Variant(retries: bool, intercept: bool)

  /** `orion/workbench/client.py`. */
  const Workbench := Variant(true, true)
  /** `orion/client.py`. */
  const Plain := Variant(false, false)

  const MaxToolTurns: nat := 50

  /** `interactive_tool_runner(name, args)`: the tool's answer, or the message
      of the exception it raises, which no caller catches. */
  type Runner = (Value, Value) -> Result<Value>

  datatype Env = Env(post: nat -> Retry.Outcome, jitter: nat -> real, codec: Codec,
                     runner: Option<Runner>)

  /** The in-flight messages, what the sink received, POSTs made and tool turns taken. */
  datatype Loop = Loop(local: seq<Msg>, sunk: seq<Msg>, posts: nat, turns: nat)

  /** How a run ends: the returned JSON or the raised message, and the final state. */
  datatype Run = Run(result: Result<Value>, st: Loop)

  const NoRunner := "Tool requested but no interactive_tool_runner provided."
  const TooManyTurns := "Exceeded max tool-call turns; aborting."

  function ParseFailure(text: string): string {
    "Failed to parse strict JSON from model output\nOutput:\n" + Prefix(text, 1000)
  }

  // ---------------------------------------------------------------------------
  // One POST.

  /** One POST without retries: only 200 goes on. */
  function Single(o: Retry.Outcome): Result<string> {
    match o
    case Reply(status, text) => if status == 200 then Ok(text) else Err(Retry.ErrorMessage(status, text))
    case TimedOut(detail) => Err(detail)
  }

  /** The response object of one round and the POST count after it; `Err` where
      the source raises (an HTTP failure, a body that is not a JSON object, or a
      usage block the workbench logger cannot read). */
  function Fetch(v: Variant, env: Env, posts: nat): (r: (Result<map<string, Value>>, nat))
    ensures r.1 > posts
  {
    var attempts := Retry.Retrying(env.post, env.jitter, posts);
    var body := if v.retries then attempts.result else Single(env.post(posts));
    var after := if v.retries then posts + attempts.last else posts + 1;
    (Decoded(v, env.codec, body), after)
  }

  /** The response body as an object; the workbench also reads its usage block. */
  function Decoded(v: Variant, codec: Codec, body: Result<string>): Result<map<string, Value>> {
    match body
    case Err(e) => Err(e)
    case Ok(text) =>
      match codec.decode(text)
      case Some(JObj(m)) =>
        if v.retries && Usage.UsageCounts(m).Err? then Err(Usage.UsageCounts(m).msg) else Ok(m)
      case _ => Err("response body is not a JSON object")
  }

  // ---------------------------------------------------------------------------
  // One tool call.

  /** The arguments handed to the runner: a string is decoded (`{}` when that
      fails), any other value is used when truthy, else `{}`. */
  function ParseArgs(codec: Codec, argsText: Value): (r: Value)
    ensures !argsText.JStr? && !Truthy(argsText) ==> r == JObj(map[])
    ensures argsText.JStr? && codec.decode(argsText.s).None? ==> r == JObj(map[])
  {
    if argsText.JStr? then codec.decode(argsText.s).GetOr(JObj(map[]))
    else if Truthy(argsText) then argsText
    else JObj(map[])
  }

  function ArgsText(tc: map<string, Value>): Value {
    ResponseShape.GetOr(tc, "arguments", JStr("{}"))
  }

  /** `_itc`: the record of the call as the model made it. */
  function CallRecord(tc: map<string, Value>): Msg {
    map["type" := JStr("function_call"), "name" := SystemState.At(tc, "name"),
        "arguments" := ArgsText(tc), "call_id" := SystemState.At(tc, "call_id")]
  }

  /** `_otc`: the output record answering call `id`. */
  function OutputRecord(codec: Codec, id: Value, out: Value): Msg {
    map["type" := JStr("function_call_output"), "call_id" := id, "output" := JStr(codec.encode(out))]
  }

  /** The message list and sink after appending `m` to both. */
  function Both(st: Loop, m: Msg): Loop {
    st.(local := st.local + [m], sunk := st.sunk + [m])
  }

  datatype Progress = Progress(err: Option<string>, st: Loop)

  /** Running one tool call: run the tool, record the call, possibly promote a
      file into the state, then record the output. */
  function Step(v: Variant, codec: Codec, runner: Runner, st: Loop, call: Value): (p: Progress)
    ensures p.st.turns == st.turns && p.st.posts == st.posts
  {
    if !call.JObj? then Progress(Some("tool call is not a dictionary"), st)
    else
      var tc := call.fields;
      var name := SystemState.At(tc, "name");
      match runner(name, ParseArgs(codec, ArgsText(tc)))
      case Err(e) => Progress(Some(e), st)
      case Ok(out) =>
        var st1 := Both(st, CallRecord(tc));
        var id := SystemState.At(tc, "call_id");
        if !v.intercept then Progress(None, Both(st1, OutputRecord(codec, id, out)))
        else match SystemState.Intercept(codec, name, out, st1.local)
          case Err(e) => Progress(Some(e), st1)
          case Ok(Emit(o)) => Progress(None, Both(st1, OutputRecord(codec, id, o)))
          case Ok(Promote(s, o)) =>
            var up := st1.(local := SystemState.Upserted(codec, st1.local, s),
                           sunk := st1.sunk + [SystemState.StateMessage(codec, s)]);
            Progress(None, Both(up, OutputRecord(codec, id, o)))
  }

  /** All tool calls of one response, in order, stopping at the first that raises. */
  function RunCalls(v: Variant, codec: Codec, runner: Runner, st: Loop, calls: seq<Value>): (p: Progress)
    ensures p.st.turns == st.turns && p.st.posts == st.posts
    decreases |calls|
  {
    if calls == [] then Progress(None, st)
    else
      var p := Step(v, codec, runner, st, calls[0]);
      if p.err.Some? then p else RunCalls(v, codec, runner, p.st, calls[1..])
  }

  /** The assistant message the sink receives with the final text. */
  function FinalMessage(text: string): Msg {
    map["type" := JStr("message"), "role" := JStr("assistant"), "content" := JStr(text)]
  }

  /** How one round ends: the run is over, or the tools ran and the loop goes on. */
  datatype Next = Done(run: Run) | Continue(st: Loop)

  /** A round whose response asked for tools: check the runner and the budget,
      then run every call. */
  function ToolRound(v: Variant, env: Env, st: Loop, calls: seq<Value>): (n: Next)
    requires st.turns <= MaxToolTurns
    ensures n.Continue? ==> n.st.turns == st.turns + 1 <= MaxToolTurns
  {
    if env.runner.None? then Done(Run(Err(NoRunner), st))
    else if st.turns + 1 > MaxToolTurns then Done(Run(Err(TooManyTurns), st.(turns := st.turns + 1)))
    else
      var p := RunCalls(v, env.codec, env.runner.value, st.(turns := st.turns + 1), calls);
      if p.err.Some? then Done(Run(Err(p.err.value), p.st)) else Continue(p.st)
  }

  /** A round whose response asked for no tools: sink the text and parse it. */
  function FinalRound(env: Env, st: Loop, content: Option<string>): Run {
    var text := content.GetOr("");
    var st2 := st.(sunk := st.sunk + [FinalMessage(text)]);
    match env.codec.decode(text)
    case Some(j) => Run(Ok(j), st2)
    case None => Run(Err(ParseFailure(text)), st2)
  }

  /** One round: POST, then run the tool calls or parse the final answer. */
  function Round(v: Variant, env: Env, st: Loop): (n: Next)
    requires st.turns <= MaxToolTurns
    ensures n.Continue? ==> n.st.turns == st.turns + 1 <= MaxToolTurns
  {
    var fetched := Fetch(v, env, st.posts);
    var st1 := st.(posts := fetched.1);
    match fetched.0
    case Err(e) => Done(Run(Err(e), st1))
    case Ok(resp) =>
      var msg := ResponseShape.Extract(ResponseShape.FunctionCall, resp);
      if msg.calls != [] then ToolRound(v, env, st1, msg.calls)
      else Done(FinalRound(env, st1, msg.content))
  }

  /** The whole loop from state `st` on. */
  function Drive(v: Variant, env: Env, st: Loop): Run
    requires st.turns <= MaxToolTurns
    decreases MaxToolTurns - st.turns
  {
    match Round(v, env, st)
    case Done(r) => r
    case Continue(next) => Drive(v, env, next)
  }

  /** `call_responses` from the caller's messages. */
  function CallResponses(v: Variant, env: Env, messages: seq<Msg>): Run {
    Drive(v, env, Loop(messages, [], 0, 0))
  }

  // ---------------------------------------------------------------------------
  // The loop the source runs.

  /** The POST of one round, with the retry loop in the workbench copy. */
  method FetchOnce(v: Variant, env: Env, posts: nat) returns (resp: Result<map<string, Value>>, after: nat)
    ensures (resp, after) == Fetch(v, env, posts)
  {
    var body: Result<string>;
    if v.retries {
      var last: nat;
      var delays: seq<real>;
      body, last, delays := Retry.PostWithRetries(env.post, env.jitter, posts);
      after := posts + last;
    } else {
      body := Single(env.post(posts));
      after := posts + 1;
    }
    if body.Err? {
      return Err(body.msg), after;
    }
    var decoded := env.codec.decode(body.value);
    if !(decoded.Some? && decoded.value.JObj?) {
      return Err("response body is not a JSON object"), after;
    }
    resp := Ok(decoded.value.fields);
    if v.retries && Usage.UsageCounts(decoded.value.fields).Err? {
      resp := Err(Usage.UsageCounts(decoded.value.fields).msg);
    }
  }

  /** The inner loop over the tool calls of one response. */
  method RunCallsLoop(v: Variant, codec: Codec, runner: Runner, st0: Loop, calls: seq<Value>)
    returns (p: Progress)
    ensures p == RunCalls(v, codec, runner, st0, calls)
  {
    var st := st0;
    var i := 0;
    while i < |calls|
      invariant 0 <= i <= |calls|
      invariant RunCalls(v, codec, runner, st, calls[i..]) == RunCalls(v, codec, runner, st0, calls)
    {
      assert calls[i..][1..] == calls[i + 1..];
      var call := calls[i];
      if !call.JObj? {
        return Progress(Some("tool call is not a dictionary"), st);
      }
      var tc := call.fields;
      var name := SystemState.At(tc, "name");
      var answer := runner(name, ParseArgs(codec, ArgsText(tc)));
      if answer.Err? {
        return Progress(Some(answer.msg), st);
      }
      var out := answer.value;
      var id := SystemState.At(tc, "call_id");
      st := Both(st, CallRecord(tc));
      var emit := out;
      if v.intercept {
        var decision := SystemState.Intercept(codec, name, out, st.local);
        if decision.Err? {
          return Progress(Some(decision.msg), st);
        }
        emit := decision.value.out;
        if decision.value.Promote? {
          var local := SystemState.Upsert(codec, st.local, decision.value.state);
          st := st.(local := local, sunk := st.sunk + [SystemState.StateMessage(codec, decision.value.state)]);
        }
      }
      st := Both(st, OutputRecord(codec, id, emit));
      i := i + 1;
    }
    assert calls[i..] == [];
    return Progress(None, st);
  }

  /** One round as the source runs it. */
  method RoundOnce(v: Variant, env: Env, st0: Loop) returns (n: Next)
    requires st0.turns <= MaxToolTurns
    ensures n == Round(v, env, st0)
  {
    var resp, after := FetchOnce(v, env, st0.posts);
    var st := st0.(posts := after);
    if resp.Err? {
      return Done(Run(Err(resp.msg), st));
    }
    var msg := ResponseShape.ExtractLoop(ResponseShape.FunctionCall, resp.value);
    if msg.calls == [] {
      var text := msg.content.GetOr("");
      st := st.(sunk := st.sunk + [FinalMessage(text)]);
      var j := env.codec.decode(text);
      if j.None? {
        return Done(Run(Err(ParseFailure(text)), st));
      }
      return Done(Run(Ok(j.value), st));
    }
    if env.runner.None? {
      return Done(Run(Err(NoRunner), st));
    }
    if st.turns + 1 > MaxToolTurns {
      return Done(Run(Err(TooManyTurns), st.(turns := st.turns + 1)));
    }
    var p := RunCallsLoop(v, env.codec, env.runner.value, st.(turns := st.turns + 1), msg.calls);
    if p.err.Some? {
      return Done(Run(Err(p.err.value), p.st));
    }
    return Continue(p.st);
  }

  /** `call_responses` as the source runs it: `while True` over rounds. */
  method CallResponsesLoop(v: Variant, env: Env, messages: seq<Msg>) returns (r: Run)
    ensures r == CallResponses(v, env, messages)
  {
    var st := Loop(messages, [], 0, 0);
    while true
      invariant st.turns <= MaxToolTurns
      invariant Drive(v, env, st) == CallResponses(v, env, messages)
      decreases MaxToolTurns - st.turns
    {
      var n := RoundOnce(v, env, st);
      if n.Done? {
        return n.run;
      }
      st := n.st;
    }
  }

  // ---------------------------------------------------------------------------
  // What the loop promises.

  /** At most 50 rounds run tools; the 51st round with tool calls raises. */
  lemma {:induction false} AtMostFiftyToolTurns(v: Variant, env: Env, st: Loop)
    requires st.turns <= MaxToolTurns
    ensures var r := Drive(v, env, st);
      r.st.turns <= MaxToolTurns + 1 && (r.st.turns == MaxToolTurns + 1 ==> r.result == Err(TooManyTurns))
    decreases MaxToolTurns - st.turns
  {
    match Round(v, env, st)
    case Done(r) => RoundDoneTurns(v, env, st);
    case Continue(next) => AtMostFiftyToolTurns(v, env, next);
  }

  lemma RoundDoneTurns(v: Variant, env: Env, st: Loop)
    requires st.turns <= MaxToolTurns && Round(v, env, st).Done?
    ensures var r := Round(v, env, st).run;
      r.st.turns <= MaxToolTurns + 1 && (r.st.turns == MaxToolTurns + 1 ==> r.result == Err(TooManyTurns))
  {
  }

  /** Tool calls without a runner raise before anything is recorded. */
  lemma NoRunnerRecordsNothing(v: Variant, env: Env, st: Loop)
    requires st.turns <= MaxToolTurns && env.runner.None?
    requires var f := Fetch(v, env, st.posts);
      f.0.Ok? && ResponseShape.Extract(ResponseShape.FunctionCall, f.0.value).calls != []
    ensures var r := Drive(v, env, st);
      r.result == Err(NoRunner) && r.st.local == st.local && r.st.sunk == st.sunk
  {
    assert Round(v, env, st).Done?;
  }

  /** A tool that raises on the first call of a round ends `call_responses` with
      its exception, before the call or its output is sunk or appended. */
  lemma RaisingToolEndsRun(v: Variant, env: Env, st: Loop)
    requires st.turns < MaxToolTurns && env.runner.Some?
    requires var f := Fetch(v, env, st.posts);
      var calls := if f.0.Ok? then ResponseShape.Extract(ResponseShape.FunctionCall, f.0.value).calls else [];
      calls != [] && calls[0].JObj? &&
      env.runner.value(SystemState.At(calls[0].fields, "name"), ParseArgs(env.codec, ArgsText(calls[0].fields))).Err?
    ensures var f := Fetch(v, env, st.posts);
      var call := ResponseShape.Extract(ResponseShape.FunctionCall, f.0.value).calls[0];
      var r := Drive(v, env, st);
      r.result == Err(env.runner.value(SystemState.At(call.fields, "name"), ParseArgs(env.codec, ArgsText(call.fields))).msg) &&
      r.st.local == st.local && r.st.sunk == st.sunk
  {
    var f := Fetch(v, env, st.posts);
    var calls := ResponseShape.Extract(ResponseShape.FunctionCall, f.0.value).calls;
    var st1 := st.(posts := f.1, turns := st.turns + 1);
    assert Step(v, env.codec, env.runner.value, st1, calls[0]).st == st1;
    assert Round(v, env, st).Done?;
  }

  /** The call record `c` is answered by output record `o`. */
  predicate Answers(c: Msg, o: Msg) {
    HasStr(c, "type", "function_call") && HasStr(o, "type", "function_call_output") &&
    "call_id" in c && "call_id" in o && c["call_id"] == o["call_id"]
  }

  /** A record stream made of call/output pairs, each pair possibly with a
      system message between the two (the promoted state, when `withState`). */
  ghost predicate Paired(xs: seq<Msg>, withState: bool)
    decreases |xs|
  {
    xs == [] ||
    (|xs| >= 2 && Answers(xs[0], xs[1]) && Paired(xs[2..], withState)) ||
    (withState && |xs| >= 3 && HasStr(xs[1], "role", "system") && Answers(xs[0], xs[2]) && Paired(xs[3..], withState))
  }

  lemma {:induction false} PairedAppend(a: seq<Msg>, b: seq<Msg>, withState: bool)
    requires Paired(a, withState) && Paired(b, withState)
    ensures Paired(a + b, withState)
    decreases |a|
  {
    if a == [] {
      assert a + b == b;
    } else if |a| >= 2 && Answers(a[0], a[1]) && Paired(a[2..], withState) {
      PairedAppend(a[2..], b, withState);
      assert (a + b)[2..] == a[2..] + b;
    } else {
      PairedAppend(a[3..], b, withState);
      assert (a + b)[3..] == a[3..] + b;
    }
  }

  /** `later` continues `earlier`: the sink received answered tool calls since,
      and without interception the message list grew by the same records. */
  ghost predicate Extends(earlier: Loop, later: Loop, withState: bool) {
    earlier.sunk <= later.sunk && Paired(later.sunk[|earlier.sunk|..], withState) &&
    (!withState ==> later.local == earlier.local + later.sunk[|earlier.sunk|..])
  }

  lemma ExtendsTrans(a: Loop, b: Loop, c: Loop, withState: bool)
    requires Extends(a, b, withState) && Extends(b, c, withState)
    ensures Extends(a, c, withState)
  {
    var x := b.sunk[|a.sunk|..];
    var y := c.sunk[|b.sunk|..];
    PrefixChain(a.sunk, b.sunk, c.sunk);
    PairedAppend(x, y, withState);
    if !withState {
      assert c.local == a.local + x + y;
    }
  }

  lemma PrefixChain(a: seq<Msg>, b: seq<Msg>, c: seq<Msg>)
    requires a <= b && b <= c
    ensures a <= c && c[|a|..] == b[|a|..] + c[|b|..]
  {
    assert c == b + c[|b|..];
    assert b == a + b[|a|..];
  }

  lemma SplitPrefix(p: seq<Msg>, s: seq<Msg>)
    requires p <= s
    ensures s == p + s[|p|..]
  {
  }

  lemma SliceAfter(p: seq<Msg>, t: seq<Msg>)
    ensures (p + t)[|p|..] == t
  {
  }

  /** One call adds a pair (or a pair around a state message) to the sink, and,
      without interception, exactly the same records to the message list. */
  lemma StepPaired(v: Variant, codec: Codec, runner: Runner, st: Loop, call: Value)
    requires Step(v, codec, runner, st, call).err.None?
    ensures Extends(st, Step(v, codec, runner, st, call).st, v.intercept)
  {
    var p := Step(v, codec, runner, st, call);
    var tc := call.fields;
    var name := SystemState.At(tc, "name");
    var out := runner(name, ParseArgs(codec, ArgsText(tc))).value;
    var id := SystemState.At(tc, "call_id");
    var itc := CallRecord(tc);
    var st1 := Both(st, itc);
    if !v.intercept {
      RecordsAnswer(tc, codec, out);
      UnitExtends(st, itc, OutputRecord(codec, id, out), v.intercept);
    } else {
      match SystemState.Intercept(codec, name, out, st1.local)
      case Ok(Emit(o)) =>
        RecordsAnswer(tc, codec, o);
        UnitExtends(st, itc, OutputRecord(codec, id, o), v.intercept);
      case Ok(Promote(s, o)) =>
        RecordsAnswer(tc, codec, o);
        var up := st1.(local := SystemState.Upserted(codec, st1.local, s),
                       sunk := st1.sunk + [SystemState.StateMessage(codec, s)]);
        PromoteExtends(st, up, itc, SystemState.StateMessage(codec, s), OutputRecord(codec, id, o));
    }
  }

  /** The call record and its output record answer each other. */
  lemma RecordsAnswer(tc: map<string, Value>, codec: Codec, o: Value)
    ensures Answers(CallRecord(tc), OutputRecord(codec, SystemState.At(tc, "call_id"), o))
  {
    var c := CallRecord(tc);
    var r := OutputRecord(codec, SystemState.At(tc, "call_id"), o);
    assert c["type"] == JStr("function_call") && c["call_id"] == SystemState.At(tc, "call_id");
    assert r["type"] == JStr("function_call_output") && r["call_id"] == SystemState.At(tc, "call_id");
  }

  lemma PromoteExtends(st: Loop, up: Loop, itc: Msg, m: Msg, otc: Msg)
    requires Answers(itc, otc) && HasStr(m, "role", "system")
    requires up.sunk == st.sunk + [itc] + [m]
    ensures Extends(st, Both(up, otc), true)
  {
    var after := Both(up, otc);
    assert after.sunk == st.sunk + [itc, m, otc];
    assert Paired([itc, m, otc], true) by { assert [itc, m, otc][3..] == []; }
    SliceAfter(st.sunk, [itc, m, otc]);
  }

  lemma UnitExtends(st: Loop, itc: Msg, otc: Msg, withState: bool)
    requires Answers(itc, otc)
    ensures Extends(st, Both(Both(st, itc), otc), withState)
  {
    var after := Both(Both(st, itc), otc);
    assert after.sunk == st.sunk + [itc, otc];
    assert after.local == st.local + [itc, otc];
    assert Paired([itc, otc], withState) by { assert [itc, otc][2..] == []; }
    SliceAfter(st.sunk, [itc, otc]);
  }

  lemma {:induction false} RunCallsPaired(v: Variant, codec: Codec, runner: Runner, st: Loop, calls: seq<Value>)
    requires RunCalls(v, codec, runner, st, calls).err.None?
    ensures Extends(st, RunCalls(v, codec, runner, st, calls).st, v.intercept)
    decreases |calls|
  {
    if calls == [] {
      assert st.sunk[|st.sunk|..] == [];
    } else {
      var q := Step(v, codec, runner, st, calls[0]);
      StepPaired(v, codec, runner, st, calls[0]);
      RunCallsPaired(v, codec, runner, q.st, calls[1..]);
      ExtendsTrans(st, q.st, RunCalls(v, codec, runner, q.st, calls[1..]).st, v.intercept);
    }
  }

  /** The last message the sink received is the assistant's final text, which
      decodes to `value`. */
  ghost predicate EndsWithAnswer(codec: Codec, sunk: seq<Msg>, value: Value) {
    |sunk| > 0 &&
    var last := sunk[|sunk| - 1];
    "content" in last && last["content"].JStr? && last == FinalMessage(last["content"].s) &&
    codec.decode(last["content"].s) == Some(value)
  }

  /** What a round adds, when it goes on or when it returns. */
  lemma RoundPaired(v: Variant, env: Env, st: Loop)
    requires st.turns <= MaxToolTurns
    ensures match Round(v, env, st)
      case Continue(next) => Extends(st, next, v.intercept)
      case Done(r) =>
        r.result.Ok? ==>
          EndsWithAnswer(env.codec, r.st.sunk, r.result.value) && r.st.sunk[..|r.st.sunk| - 1] == st.sunk &&
          r.st.local == st.local
  {
    var fetched := Fetch(v, env, st.posts);
    var st1 := st.(posts := fetched.1);
    if fetched.0.Ok? {
      var msg := ResponseShape.Extract(ResponseShape.FunctionCall, fetched.0.value);
      if msg.calls != [] {
        ToolRoundPaired(v, env, st1, msg.calls);
      } else {
        FinalRoundAnswers(env, st1, msg.content);
      }
    }
  }

  /** A round with tool calls either goes on with answered calls added or raises. */
  lemma ToolRoundPaired(v: Variant, env: Env, st: Loop, calls: seq<Value>)
    requires st.turns <= MaxToolTurns
    ensures match ToolRound(v, env, st, calls)
      case Continue(next) => Extends(st, next, v.intercept)
      case Done(r) => r.result.Err?
  {
    if env.runner.Some? && st.turns + 1 <= MaxToolTurns {
      var st2 := st.(turns := st.turns + 1);
      var p := RunCalls(v, env.codec, env.runner.value, st2, calls);
      if p.err.None? {
        RunCallsPaired(v, env.codec, env.runner.value, st2, calls);
        assert Extends(st2, p.st, v.intercept);
      }
    }
  }

  /** A round without tool calls that returns ends the sink with the answer. */
  lemma FinalRoundAnswers(env: Env, st: Loop, content: Option<string>)
    ensures var r := FinalRound(env, st, content);
      r.result.Ok? ==>
        EndsWithAnswer(env.codec, r.st.sunk, r.result.value) && r.st.sunk[..|r.st.sunk| - 1] == st.sunk &&
        r.st.local == st.local
  {
    var text := content.GetOr("");
    var m := FinalMessage(text);
    assert m["content"] == JStr(text);
    assert (st.sunk + [m])[..|st.sunk|] == st.sunk;
  }

  /** A run that returns hands the sink a stream of answered tool calls and then
      exactly one assistant message, whose text decodes to the returned value;
      without interception the in-flight list is the caller's messages followed by
      those same records. */
  ghost predicate ReturnsPaired(withState: bool, codec: Codec, base: seq<Msg>, r: Run) {
    r.result.Ok? ==>
      EndsWithAnswer(codec, r.st.sunk, r.result.value) && Paired(r.st.sunk[..|r.st.sunk| - 1], withState) &&
      (!withState ==> r.st.local == base + r.st.sunk[..|r.st.sunk| - 1])
  }

  lemma {:induction false} ReturnedRunIsPaired(v: Variant, env: Env, base: seq<Msg>, st: Loop)
    requires st.turns <= MaxToolTurns
    requires Paired(st.sunk, v.intercept)
    requires !v.intercept ==> st.local == base + st.sunk
    ensures ReturnsPaired(v.intercept, env.codec, base, Drive(v, env, st))
    decreases MaxToolTurns - st.turns
  {
    var n := Round(v, env, st);
    RoundPaired(v, env, st);
    if n.Continue? {
      ContinuePaired(v.intercept, base, st, n.st);
      ReturnedRunIsPaired(v, env, base, n.st);
      assert Drive(v, env, st) == Drive(v, env, n.st);
    } else {
      assert Drive(v, env, st) == n.run;
      DonePaired(v.intercept, env.codec, base, st, n.run);
    }
  }

  lemma DonePaired(withState: bool, codec: Codec, base: seq<Msg>, st: Loop, r: Run)
    requires Paired(st.sunk, withState)
    requires !withState ==> st.local == base + st.sunk
    requires r.result.Ok? ==>
      EndsWithAnswer(codec, r.st.sunk, r.result.value) && r.st.sunk[..|r.st.sunk| - 1] == st.sunk &&
      r.st.local == st.local
    ensures ReturnsPaired(withState, codec, base, r)
  {
  }

  lemma ContinuePaired(withState: bool, base: seq<Msg>, st: Loop, next: Loop)
    requires Extends(st, next, withState) && Paired(st.sunk, withState)
    requires !withState ==> st.local == base + st.sunk
    ensures Paired(next.sunk, withState) && (!withState ==> next.local == base + next.sunk)
  {
    var added := next.sunk[|st.sunk|..];
    SplitPrefix(st.sunk, next.sunk);
    PairedAppend(st.sunk, added, withState);
  }

  /** `call_responses` that returns: the sink saw answered tool calls and then the final answer. */
  lemma CallResponsesPaired(v: Variant, env: Env, messages: seq<Msg>)
    ensures var r := CallResponses(v, env, messages);
      r.result.Ok? ==>
        EndsWithAnswer(env.codec, r.st.sunk, r.result.value) && Paired(r.st.sunk[..|r.st.sunk| - 1], v.intercept) &&
        (!v.intercept ==> r.st.local == messages + r.st.sunk[..|r.st.sunk| - 1])
  {
    var st0 := Loop(messages, [], 0, 0);
    assert Paired(st0.sunk, v.intercept);
    assert st0.local == messages + st0.sunk;
    ReturnedRunIsPaired(v, env, messages, st0);
    assert CallResponses(v, env, messages) == Drive(v, env, st0);
    assert ReturnsPaired(v.intercept, env.codec, messages, CallResponses(v, env, messages));
  }

  /** With interception the in-flight list never gains a second state message:
      promotions replace the latest one in place. */
  lemma {:induction false} StepStateCount(codec: Codec, runner: Runner, st: Loop, call: Value)
    ensures SystemState.CountStates(codec, Step(Workbench, codec, runner, st, call).st.local)
      <= SystemState.AtLeastOne(SystemState.CountStates(codec, st.local))
  {
    if call.JObj? && runner(SystemState.At(call.fields, "name"), ParseArgs(codec, ArgsText(call.fields))).Ok? {
      var tc := call.fields;
      var st1 := Both(st, CallRecord(tc));
      SystemState.AppendOther(codec, st.local, CallRecord(tc));
      var name := SystemState.At(tc, "name");
      var out := runner(name, ParseArgs(codec, ArgsText(tc))).value;
      var id := SystemState.At(tc, "call_id");
      match SystemState.Intercept(codec, name, out, st1.local)
      case Err(_) =>
      case Ok(Emit(o)) =>
        SystemState.AppendOther(codec, st1.local, OutputRecord(codec, id, o));
      case Ok(Promote(s, o)) =>
        SystemState.UpsertCountBound(codec, st1.local, s);
        SystemState.AppendOther(codec, SystemState.Upserted(codec, st1.local, s), OutputRecord(codec, id, o));
    }
  }

  lemma {:induction false} RunCallsStateCount(codec: Codec, runner: Runner, st: Loop, calls: seq<Value>)
    ensures SystemState.CountStates(codec, RunCalls(Workbench, codec, runner, st, calls).st.local)
      <= SystemState.AtLeastOne(SystemState.CountStates(codec, st.local))
    decreases |calls|
  {
    if calls != [] {
      StepStateCount(codec, runner, st, calls[0]);
      var q := Step(Workbench, codec, runner, st, calls[0]);
      if q.err.None? {
        RunCallsStateCount(codec, runner, q.st, calls[1..]);
      }
    }
  }

  /** The message list a round leaves behind. */
  function RoundLocal(n: Next): seq<Msg> {
    match n
    case Continue(next) => next.local
    case Done(r) => r.st.local
  }

  lemma ToolRoundStateCount(env: Env, st: Loop, calls: seq<Value>)
    requires st.turns <= MaxToolTurns
    ensures SystemState.CountStates(env.codec, RoundLocal(ToolRound(Workbench, env, st, calls)))
      <= SystemState.AtLeastOne(SystemState.CountStates(env.codec, st.local))
  {
    ToolRoundLocal(Workbench, env, st, calls);
    if env.runner.Some? && st.turns + 1 <= MaxToolTurns {
      RunCallsStateCount(env.codec, env.runner.value, st.(turns := st.turns + 1), calls);
    }
  }

  /** The messages a tool round leaves: unchanged when it stops before the
      calls, else what the calls left. */
  lemma ToolRoundLocal(v: Variant, env: Env, st: Loop, calls: seq<Value>)
    requires st.turns <= MaxToolTurns
    ensures RoundLocal(ToolRound(v, env, st, calls))
      == if env.runner.None? || st.turns + 1 > MaxToolTurns then st.local
         else RunCalls(v, env.codec, env.runner.value, st.(turns := st.turns + 1), calls).st.local
  {
  }

  lemma RoundStateCount(env: Env, st: Loop)
    requires st.turns <= MaxToolTurns
    ensures SystemState.CountStates(env.codec, RoundLocal(Round(Workbench, env, st)))
      <= SystemState.AtLeastOne(SystemState.CountStates(env.codec, st.local))
  {
    var fetched := Fetch(Workbench, env, st.posts);
    if fetched.0.Ok? {
      var msg := ResponseShape.Extract(ResponseShape.FunctionCall, fetched.0.value);
      ToolRoundStateCount(env, st.(posts := fetched.1), msg.calls);
    }
  }

  lemma {:induction false} DriveStateCount(env: Env, st: Loop)
    requires st.turns <= MaxToolTurns
    ensures SystemState.CountStates(env.codec, Drive(Workbench, env, st).st.local)
      <= SystemState.AtLeastOne(SystemState.CountStates(env.codec, st.local))
    decreases MaxToolTurns - st.turns
  {
    RoundStateCount(env, st);
    match Round(Workbench, env, st)
    case Done(r) =>
    case Continue(next) =>
      DriveStateCount(env, next);
      assert Drive(Workbench, env, st) == Drive(Workbench, env, next);
  }

  /** A caller that sends at most one state message never sees a second one appear. */
  lemma SingleStateMessage(env: Env, messages: seq<Msg>)
    requires SystemState.CountStates(env.codec, messages) <= 1
    ensures SystemState.CountStates(env.codec, CallResponses(Workbench, env, messages).st.local) <= 1
  {
    DriveStateCount(env, Loop(messages, [], 0, 0));
  }
}
