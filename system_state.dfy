/** The in-flight `system_state` message of the workbench Responses client:
    finding the latest one, upserting a new one in place, and intercepting
    `get_file_contents` results so that file bodies land in the state instead
    of the transcript. */
module SystemState {
  import opened Wrappers
  import opened Json

  /** One entry of the message list sent as `input` (always a dictionary here). */
  type Msg = map<string, Value>

  /** `_parse_system_state_from_msg`: a system message whose string content
      decodes to an object tagged `system_state`. */
  function ParseState(codec: Codec, m: Msg): (r: Option<map<string, Value>>)
    ensures r.Some? ==> HasStr(m, "role", "system") && HasStr(r.value, "type", "system_state")
  {
    if !HasStr(m, "role", "system") || !("content" in m && m["content"].JStr?) then None
    else match codec.decode(m["content"].s)
      case Some(JObj(o)) => if HasStr(o, "type", "system_state") then Some(o) else None
      case _ => None
  }

  predicate IsState(codec: Codec, m: Msg) {
    ParseState(codec, m).Some?
  }

  /** The index of the most recent state message, if any. */
  function LatestIndex(codec: Codec, msgs: seq<Msg>): (r: Option<nat>)
    ensures r.Some? ==> r.value < |msgs| && IsState(codec, msgs[r.value])
    ensures r.Some? ==> forall j :: r.value < j < |msgs| ==> !IsState(codec, msgs[j])
    ensures r.None? ==> forall j :: 0 <= j < |msgs| ==> !IsState(codec, msgs[j])
  {
    if msgs == [] then None
    else if IsState(codec, msgs[|msgs| - 1]) then Some(|msgs| - 1)
    else LatestIndex(codec, msgs[..|msgs| - 1])
  }

  /** `_find_latest_system_state`. */
  function FindLatest(codec: Codec, msgs: seq<Msg>): (r: Option<map<string, Value>>)
    ensures r.Some? ==> HasStr(r.value, "type", "system_state")
  {
    match LatestIndex(codec, msgs)
    case None => None
    case Some(i) => ParseState(codec, msgs[i])
  }

  /** The canonical message that carries a state object. */
  function StateMessage(codec: Codec, obj: map<string, Value>): Msg {
    map["type" := JStr("message"), "role" := JStr("system"), "content" := JStr(codec.encode(JObj(obj)))]
  }

  /** `_append_system_state` on the message list: replace the latest state message,
      or append when there is none. */
  function Upserted(codec: Codec, msgs: seq<Msg>, obj: map<string, Value>): seq<Msg> {
    match LatestIndex(codec, msgs)
    case Some(i) => msgs[i := StateMessage(codec, obj)]
    case None => msgs + [StateMessage(codec, obj)]
  }

  /** The scan `_append_system_state` runs, from the end of the list. */
  method Upsert(codec: Codec, msgs: seq<Msg>, obj: map<string, Value>) returns (out: seq<Msg>)
    ensures out == Upserted(codec, msgs, obj)
  {
    var msg := StateMessage(codec, obj);
    var i := |msgs|;
    while i > 0 && !IsState(codec, msgs[i - 1])
      invariant 0 <= i <= |msgs|
      invariant LatestIndex(codec, msgs) == LatestIndex(codec, msgs[..i])
      decreases i
    {
      LatestAt(codec, msgs, i);
      i := i - 1;
    }
    if i > 0 {
      LatestAt(codec, msgs, i);
      out := msgs[i - 1 := msg];
    } else {
      out := msgs + [msg];
    }
  }

  /** The latest state message of the first `i` messages: the i-th when it is one, else an earlier one. */
  lemma LatestAt(codec: Codec, msgs: seq<Msg>, i: nat)
    requires 0 < i <= |msgs|
    ensures LatestIndex(codec, msgs[..i])
      == if IsState(codec, msgs[i - 1]) then Some(i - 1) else LatestIndex(codec, msgs[..i - 1])
  {
    assert msgs[..i][..i - 1] == msgs[..i - 1];
    assert msgs[..i][i - 1] == msgs[i - 1];
  }

  /** How many state messages a list holds. */
  function CountStates(codec: Codec, msgs: seq<Msg>): nat {
    if msgs == [] then 0
    else CountStates(codec, msgs[..|msgs| - 1]) + (if IsState(codec, msgs[|msgs| - 1]) then 1 else 0)
  }

  lemma {:induction false} NoStatesCountZero(codec: Codec, msgs: seq<Msg>)
    requires LatestIndex(codec, msgs).None?
    ensures CountStates(codec, msgs) == 0
    decreases |msgs|
  {
    if msgs != [] {
      NoStatesCountZero(codec, msgs[..|msgs| - 1]);
    }
  }

  /** Replacing a state message by another leaves the count unchanged. */
  lemma {:induction false} ReplaceKeepsCount(codec: Codec, msgs: seq<Msg>, i: nat, m: Msg)
    requires i < |msgs| && IsState(codec, msgs[i]) && IsState(codec, m)
    ensures CountStates(codec, msgs[i := m]) == CountStates(codec, msgs)
    decreases |msgs|
  {
    var n := |msgs|;
    if i < n - 1 {
      ReplaceKeepsCount(codec, msgs[..n - 1], i, m);
      assert msgs[i := m][..n - 1] == msgs[..n - 1][i := m];
    } else {
      assert msgs[i := m][..n - 1] == msgs[..n - 1];
    }
  }

  /** At least one: the bound on state messages once the first has been written. */
  function AtLeastOne(n: nat): nat { if n == 0 then 1 else n }

  lemma {:induction false} ReplaceCount(codec: Codec, msgs: seq<Msg>, i: nat, m: Msg)
    requires i < |msgs| && IsState(codec, msgs[i])
    ensures CountStates(codec, msgs[i := m]) + 1 == CountStates(codec, msgs) + (if IsState(codec, m) then 1 else 0)
    decreases |msgs|
  {
    var n := |msgs|;
    if i < n - 1 {
      ReplaceCount(codec, msgs[..n - 1], i, m);
      assert msgs[i := m][..n - 1] == msgs[..n - 1][i := m];
    } else {
      assert msgs[i := m][..n - 1] == msgs[..n - 1];
    }
  }

  /** Whatever the codec, an upsert never adds a second state message. */
  lemma UpsertCountBound(codec: Codec, msgs: seq<Msg>, obj: map<string, Value>)
    ensures CountStates(codec, Upserted(codec, msgs, obj)) <= AtLeastOne(CountStates(codec, msgs))
  {
    match LatestIndex(codec, msgs)
    case Some(i) =>
      ReplaceCount(codec, msgs, i, StateMessage(codec, obj));
    case None =>
      NoStatesCountZero(codec, msgs);
      assert (msgs + [StateMessage(codec, obj)])[..|msgs|] == msgs;
  }

  /** Appending a message that is not a state message leaves the count alone. */
  lemma AppendOther(codec: Codec, msgs: seq<Msg>, m: Msg)
    requires !HasStr(m, "role", "system")
    ensures CountStates(codec, msgs + [m]) == CountStates(codec, msgs)
  {
    assert (msgs + [m])[..|msgs|] == msgs;
  }

  /** A state message written through a lawful codec reads back as the same state. */
  lemma StateMessageParses(codec: Codec, obj: map<string, Value>)
    requires Lawful(codec) && HasStr(obj, "type", "system_state")
    ensures ParseState(codec, StateMessage(codec, obj)) == Some(obj)
  {
  }

  /** The upsert keeps a single copy: once a state message exists the count does
      not grow, and the first upsert creates exactly one. */
  lemma UpsertCount(codec: Codec, msgs: seq<Msg>, obj: map<string, Value>)
    requires Lawful(codec) && HasStr(obj, "type", "system_state")
    ensures CountStates(codec, Upserted(codec, msgs, obj)) ==
      if CountStates(codec, msgs) == 0 then 1 else CountStates(codec, msgs)
  {
    StateMessageParses(codec, obj);
    match LatestIndex(codec, msgs)
    case Some(i) =>
      ReplaceKeepsCount(codec, msgs, i, StateMessage(codec, obj));
      assert CountStates(codec, msgs) != 0 by {
        if CountStates(codec, msgs) == 0 { CountPositive(codec, msgs, i); }
      }
    case None =>
      NoStatesCountZero(codec, msgs);
      assert (msgs + [StateMessage(codec, obj)])[..|msgs|] == msgs;
  }

  lemma {:induction false} CountPositive(codec: Codec, msgs: seq<Msg>, i: nat)
    requires i < |msgs| && IsState(codec, msgs[i])
    ensures CountStates(codec, msgs) > 0
    decreases |msgs|
  {
    if i < |msgs| - 1 {
      CountPositive(codec, msgs[..|msgs| - 1], i);
    }
  }

  /** After an upsert the latest state is the object just written. */
  lemma UpsertThenFind(codec: Codec, msgs: seq<Msg>, obj: map<string, Value>)
    requires Lawful(codec) && HasStr(obj, "type", "system_state")
    ensures FindLatest(codec, Upserted(codec, msgs, obj)) == Some(obj)
  {
    StateMessageParses(codec, obj);
    var out := Upserted(codec, msgs, obj);
    var k := match LatestIndex(codec, msgs) case Some(i) => i case None => |msgs|;
    assert out[k] == StateMessage(codec, obj);
    assert forall j :: k < j < |out| ==> !IsState(codec, out[j]);
    LatestIsLast(codec, out, k);
  }

  lemma {:induction false} LatestIsLast(codec: Codec, msgs: seq<Msg>, k: nat)
    requires k < |msgs| && IsState(codec, msgs[k])
    requires forall j :: k < j < |msgs| ==> !IsState(codec, msgs[j])
    ensures LatestIndex(codec, msgs) == Some(k)
    decreases |msgs|
  {
    if k < |msgs| - 1 {
      LatestIsLast(codec, msgs[..|msgs| - 1], k);
    }
  }

  /** The upsert touches nothing but the state message it replaces. */
  lemma UpsertKeepsOthers(codec: Codec, msgs: seq<Msg>, obj: map<string, Value>)
    ensures var out := Upserted(codec, msgs, obj);
      |msgs| <= |out| <= |msgs| + 1 &&
      forall j :: 0 <= j < |msgs| && !IsState(codec, msgs[j]) ==> out[j] == msgs[j]
  {
  }

  // ---------------------------------------------------------------------------
  // Intercepting get_file_contents.

  /** What the loop does with one tool output: emit it (possibly replaced by a
      short note), or promote the file into a new state object first. */
  datatype Interception = Emit(out: Value) | Promote(state: map<string, Value>, out: Value)

  /** `d.get(k)` with a missing key as `null`. */
  function At(m: map<string, Value>, k: string): Value {
    if k in m then m[k] else JNull
  }

  /** The `meta.line_count` the source stores: `None` stays `None`, anything else
      goes through `int()`, which raises on a value it cannot convert. */
  function LineCountMeta(lc: Value): Result<Value> {
    if lc.JNull? then Ok(JNull)
    else match PyInt(lc)
      case Some(n) => Ok(JNum(n))
      case None => Err("int() failed on line_count")
  }

  /** `int(state.get("version", 0) or 0) + 1`, or 1 when the conversion raises. */
  function NextVersion(state: map<string, Value>): (r: int)
    ensures ("version" !in state || !Truthy(state["version"])) ==> r == 1
  {
    var v := if "version" in state && Truthy(state["version"]) then state["version"] else JNum(0);
    match PyInt(v)
    case Some(n) => n + 1
    case None => 1
  }

  function Note(kv: map<string, Value>): Value { JObj(kv) }

  /** The file entry a promotion stores. */
  function FullEntry(body: string, lc: Value): Value {
    JObj(map["kind" := JStr("full"), "body" := JStr(body),
             "meta" := JObj(map["line_count" := lc, "bytes" := JNum(Utf8Len(body))])])
  }

  /** The state after promoting `path`: the files map (or a fresh one) gains the
      full entry and the version moves on. */
  function Promoted(state: map<string, Value>, files: map<string, Value>, path: string, body: string, lc: Value): map<string, Value> {
    state["files" := JObj(files[path := FullEntry(body, lc)])]["version" := JNum(NextVersion(state))]
  }

  /** `state.get("files") or {}`. */
  function FilesOf(state: map<string, Value>): Value {
    if "files" in state && Truthy(state["files"]) then state["files"] else JObj(map[])
  }

  /** The decision the workbench loop takes for one tool call (`name`, output),
      given the messages so far; `Err` where the source raises. */
  function Intercept(codec: Codec, name: Value, output: Value, msgs: seq<Msg>): (r: Result<Interception>)
    ensures name != JStr("get_file_contents") || !output.JObj? ==> r == Ok(Emit(output))
  {
    if name != JStr("get_file_contents") || !output.JObj? then Ok(Emit(output))
    else
      var result := if "result" in output.fields then output.fields["result"] else output;
      var path := if result.JObj? then At(result.fields, "path") else JNull;
      var content := if result.JObj? then At(result.fields, "content") else JNull;
      var lc := if result.JObj? then At(result.fields, "line_count") else JNull;
      var state := FindLatest(codec, msgs);
      if !(Truthy(path) && content.JStr? && state.Some?) then
        Ok(Emit(Note(map["status" := JStr("noop"), "reason" := JStr("no_system_state_or_malformed_result")])))
      else
        var filesV := FilesOf(state.value);
        if !filesV.JObj? then Err("files is not a dictionary")
        else if path.JArr? || path.JObj? then Err("unhashable path key")
        else
          var entry := if path.JStr? then At(filesV.fields, path.s) else JNull;
          if entry.JObj? && HasStr(entry.fields, "kind", "full") then
            Ok(Emit(Note(map["status" := JStr("noop"), "reason" := JStr("already_full"), "path" := path])))
          else match LineCountMeta(lc)
            case Err(e) => Err(e)
            case Ok(meta) =>
              Ok(Promote(Promoted(state.value, filesV.fields, PathKey(path), content.s, meta),
                         Note(map["status" := JStr("ok"), "path" := path, "note" := JStr("contents added to system_state")])))
  }

  /** The key a path is stored under once the state is written with
      `json.dumps`: a string as is, a number as its decimal text, `True` as
      `"true"`. A number or boolean key never matches a decoded key, whose keys
      are all strings, so such a path is never found already in full. */
  function PathKey(path: Value): string {
    match path
    case JStr(s) => s
    case JNum(n) => IntStr(n)
    case JBool(b) => if b then "true" else "false"
    case _ => ""
  }

  /** A number path is promoted again on every fetch, stored under its decimal
      text, even when that text already names a full entry. */
  lemma NumberPathAlwaysPromotes(codec: Codec, msgs: seq<Msg>, n: int, body: string)
    requires n != 0
    requires var s := FindLatest(codec, msgs); s.Some? && FilesOf(s.value).JObj?
    ensures var r := Intercept(codec, JStr("get_file_contents"),
                               JObj(map["path" := JNum(n), "content" := JStr(body), "line_count" := JNull]), msgs);
      var s := FindLatest(codec, msgs).value;
      && r.Ok? && r.value.Promote?
      && r.value.state == Promoted(s, FilesOf(s).fields, IntStr(n), body, JNull)
      && r.value.out.fields["path"] == JNum(n)
  {
  }

  /** The one-call payload a promotion produces, as `get_file_contents` returns it. */
  function FileResult(path: string, body: string, lines: int): Value {
    JObj(map["path" := JStr(path), "content" := JStr(body), "line_count" := JNum(lines)])
  }

  /** Fetching a file the state already holds in full streams nothing. */
  lemma AlreadyFullIsNoop(codec: Codec, msgs: seq<Msg>, path: string, body: string, lines: int)
    requires var s := FindLatest(codec, msgs);
      s.Some? && "files" in s.value && s.value["files"].JObj? && path in s.value["files"].fields &&
      s.value["files"].fields[path].JObj? && HasStr(s.value["files"].fields[path].fields, "kind", "full")
    requires path != ""
    ensures Intercept(codec, JStr("get_file_contents"), FileResult(path, body, lines), msgs)
      == Ok(Emit(Note(map["status" := JStr("noop"), "reason" := JStr("already_full"), "path" := JStr(path)])))
  {
    var s := FindLatest(codec, msgs).value;
    assert Truthy(s["files"]) by { assert path in s["files"].fields; }
  }

  /** Without a state message, a file body is never streamed back to the model. */
  lemma NoStateNoBody(codec: Codec, msgs: seq<Msg>, output: Value)
    requires FindLatest(codec, msgs).None? && output.JObj?
    ensures Intercept(codec, JStr("get_file_contents"), output, msgs)
      == Ok(Emit(Note(map["status" := JStr("noop"), "reason" := JStr("no_system_state_or_malformed_result")])))
  {
  }

  /** A promotion stores the body in full under its path, bumps the version,
      and the state written back is found again as the latest one. */
  lemma PromotionStoresBody(codec: Codec, msgs: seq<Msg>, path: string, body: string, lines: int)
    requires Lawful(codec) && path != ""
    requires var s := FindLatest(codec, msgs);
      s.Some? && !("files" in s.value && Truthy(s.value["files"]) && !s.value["files"].JObj?) &&
      !("files" in s.value && s.value["files"].JObj? && path in s.value["files"].fields &&
        s.value["files"].fields[path].JObj? && HasStr(s.value["files"].fields[path].fields, "kind", "full"))
    ensures var r := Intercept(codec, JStr("get_file_contents"), FileResult(path, body, lines), msgs);
      r.Ok? && r.value.Promote? && "files" in r.value.state && "version" in r.value.state &&
      r.value.state["files"].JObj? && path in r.value.state["files"].fields &&
      r.value.state["files"].fields[path] == FullEntry(body, JNum(lines)) &&
      r.value.state["version"] == JNum(NextVersion(FindLatest(codec, msgs).value)) &&
      FindLatest(codec, Upserted(codec, msgs, r.value.state)) == Some(r.value.state)
  {
    var s := FindLatest(codec, msgs).value;
    assert HasStr(s, "type", "system_state") by {
      var i := LatestIndex(codec, msgs).value;
      assert ParseState(codec, msgs[i]).Some?;
    }
    var files := FilesOf(s);
    assert files.JObj?;
    InterceptPromotes(codec, msgs, path, body, lines);
    var state := Promoted(s, files.fields, path, body, JNum(lines));
    assert state["files"] == JObj(files.fields[path := FullEntry(body, JNum(lines))]);
    assert state["type"] == s["type"];
    UpsertThenFind(codec, msgs, state);
  }

  /** A file result for a path the state lacks in full is promoted with its line count. */
  lemma InterceptPromotes(codec: Codec, msgs: seq<Msg>, path: string, body: string, lines: int)
    requires path != "" && FindLatest(codec, msgs).Some?
    requires var files := FilesOf(FindLatest(codec, msgs).value);
      files.JObj? && !(At(files.fields, path).JObj? && HasStr(At(files.fields, path).fields, "kind", "full"))
    ensures var s := FindLatest(codec, msgs).value;
      Intercept(codec, JStr("get_file_contents"), FileResult(path, body, lines), msgs)
        == Ok(Promote(Promoted(s, FilesOf(s).fields, path, body, JNum(lines)),
                      Note(map["status" := JStr("ok"), "path" := JStr(path), "note" := JStr("contents added to system_state")])))
  {
    var out := FileResult(path, body, lines);
    assert "result" !in out.fields;
    assert At(out.fields, "path") == JStr(path) && At(out.fields, "content") == JStr(body);
    assert At(out.fields, "line_count") == JNum(lines);
    assert LineCountMeta(JNum(lines)) == Ok(JNum(lines));
    assert PathKey(JStr(path)) == path;
  }
}
