/** The repository tools the model may call: listing, reading, line-range
    snippets, colocated summaries, substring search and the clarification
    prompt, in their two dialects — the keyword-argument tools of
    `orion/workbench/tools.py`, and the `args`-dictionary tools shared by
    `orion/tools.py` and `sutradhar/tools.py`, which echo their arguments —
    plus the fixed tool list of `orion/orion.py`. */
module RepoTools {
  import opened Wrappers
  import opened Json
  import Paths
  import Dispatch

  /** The repository as the tools see it: `list_repo_paths`, `read_file` on a
      normalised path (`None` when it raises), `fnmatch.fnmatch`, and the
      colocated summary of a path (absent, loaded, or raising while loading). */
  datatype Repo = Repo(
    paths: seq<string>,
    read: string -> Option<string>,
    fnmatch: (string, string) -> bool,
    summary: string -> Result<Option<Value>>)

  const ListCap: nat := 2000
  const DefaultMaxResults := 100
  const DefaultPrompt := "Model requests input:"

  type Dict = map<string, Value>

  /** The reply dictionary, with `"_args_echo"` added in the dialect that echoes. */
  function Reply(fields: Dict, echo: Option<Dict>): Value {
    if echo.Some? then JObj(fields["_args_echo" := JObj(echo.value)]) else JObj(fields)
  }

  // ---------------------------------------------------------------------------
  // list_paths

  /** A list comprehension with a condition. */
  function Filter(xs: seq<string>, keep: string -> bool): (r: seq<string>)
    decreases |xs|
  {
    if xs == [] then [] else (if keep(xs[0]) then [xs[0]] else []) + Filter(xs[1..], keep)
  }

  lemma {:induction false} FilterMembers(xs: seq<string>, keep: string -> bool)
    ensures forall x :: x in Filter(xs, keep) <==> x in xs && keep(x)
    ensures |Filter(xs, keep)| <= |xs|
    decreases |xs|
  {
    if xs != [] {
      FilterMembers(xs[1..], keep);
      assert xs == [xs[0]] + xs[1..];
    }
  }

  /** `paths[:2000]`. */
  function Capped(xs: seq<string>): seq<string> {
    if |xs| <= ListCap then xs else xs[..ListCap]
  }

  /** The listing filtered by a truthy pattern, capped. A pattern that is not a
      string makes `fnmatch` raise as soon as there is a path to test. */
  function ListPaths(repo: Repo, pattern: Option<Value>): Result<seq<string>> {
    match pattern
    case None => Ok(Capped(repo.paths))
    case Some(JStr(g)) => Ok(Capped(Filter(repo.paths, p => repo.fnmatch(p, g))))
    case Some(_) => if repo.paths == [] then Ok([]) else Err("TypeError: expected str pattern")
  }

  /** At most 2000 paths, each a listed path matching the pattern, in listing
      order; when fewer than 2000 match, all of them. */
  lemma ListPathsContract(repo: Repo, g: string)
    ensures var r := ListPaths(repo, Some(JStr(g)));
      var all := Filter(repo.paths, p => repo.fnmatch(p, g));
      && r.Ok? && |r.value| <= ListCap && r.value <= all
      && (forall x :: x in r.value ==> x in repo.paths && repo.fnmatch(x, g))
      && (|all| <= ListCap ==> r.value == all)
    ensures var r := ListPaths(repo, None);
      r.Ok? && |r.value| <= ListCap && r.value <= repo.paths
  {
    FilterMembers(repo.paths, p => repo.fnmatch(p, g));
  }

  /** The pattern of `tool_list_paths`: `args.get("glob") or args.get("query")`. */
  function OrionPattern(args: Dict): Option<Value> {
    if "glob" in args && Truthy(args["glob"]) then Some(args["glob"])
    else if "query" in args && Truthy(args["query"]) then Some(args["query"])
    else None
  }

  /** `tool_list_paths` of the args-dictionary dialect. */
  function OrionListPaths(repo: Repo, args: Dict): Result<Value> {
    var paths :- ListPaths(repo, OrionPattern(args));
    Ok(Reply(map["paths" := JArr(Strs(paths))], Some(args)))
  }

  /** `list_paths` of the workbench: the pattern is the `glob` keyword if truthy. */
  function WorkbenchListPaths(repo: Repo, kw: Dict): Result<Value> {
    var pattern := if "glob" in kw && Truthy(kw["glob"]) then Some(kw["glob"]) else None;
    var paths :- ListPaths(repo, pattern);
    Ok(Reply(map["paths" := JArr(Strs(paths))], None))
  }

  // ---------------------------------------------------------------------------
  // get_file_contents

  function CouldNotRead(np: string, echo: Option<Dict>): Value {
    Reply(map["_meta_error" := JStr("Could not read " + np)], echo)
  }

  /** `get_file_contents` on a normalised path: the content with its line count. */
  function FileContents(repo: Repo, np: string, echo: Option<Dict>): Value {
    match repo.read(np)
    case None => CouldNotRead(np, echo)
    case Some(c) =>
      Reply(map["path" := JStr(np), "content" := JStr(c), "line_count" := JNum(Paths.CountLines(c))], echo)
  }

  /** `args.get(k, "")` handed to `normalize_path`, whose `pathlib.Path` raises
      `TypeError` for anything but a string, `None` included. */
  function PathArg(args: Dict, k: string): (r: Result<string>)
    ensures r.Ok? <==> k !in args || args[k].JStr?
    ensures r.Ok? && k in args ==> r.value == args[k].s
    ensures r.Ok? && k !in args ==> r.value == ""
  {
    if k !in args then Ok("")
    else if args[k].JStr? then Ok(args[k].s)
    else Err(PathTypeError)
  }

  const PathTypeError := "TypeError: argument should be a str or an os.PathLike object"

  /** The reported line count is the number of lines the snippet tool numbers. */
  lemma ContentsLineCount(repo: Repo, np: string, echo: Option<Dict>)
    requires repo.read(np).Some?
    ensures var r := FileContents(repo, np, echo).fields;
      && r["content"] == JStr(repo.read(np).value)
      && r["line_count"] == JNum(|Paths.TextLines(repo.read(np).value)|)
      && r["path"] == JStr(np)
  {
    Paths.CountLinesIsLines(repo.read(np).value);
  }

  // ---------------------------------------------------------------------------
  // get_file_snippet

  /** `start = max(1, start)`; `end = min(n, end if end >= start else start)`. */
  function Clamp(start: int, end: int, n: nat): (r: (int, int))
    ensures r.0 >= 1 && r.1 <= n
    ensures r.0 <= n ==> r.0 <= r.1
    ensures 1 <= start <= end <= n ==> r == (start, end)
    ensures end >= start >= 1 ==> r.1 == if end < n then end else n
  {
    var s := if start < 1 then 1 else start;
    var e := if end >= s then end else s;
    (s, if e < n then e else n)
  }

  /** `lines[start - 1 : end]` for a clamped range. */
  function Window(lines: seq<string>, s: int, e: int): (w: seq<string>)
    requires 1 <= s && e <= |lines|
    ensures |w| == if s - 1 < e then e - s + 1 else 0
  {
    if s - 1 < e then lines[s - 1..e] else []
  }

  /** What the snippet shows: for a range inside the file, exactly the
      requested lines; nothing when the start lies past the last line; and
      never more lines than the range spans. */
  lemma SnippetLines(lines: seq<string>, start: int, end: int)
    ensures var (s, e) := Clamp(start, end, |lines|);
      && (1 <= start <= end <= |lines| ==> Window(lines, s, e) == lines[start - 1..end])
      && (start > |lines| ==> Window(lines, s, e) == [])
      && (start >= 1 ==> |Window(lines, s, e)| <= if end >= start then end - start + 1 else 1)
  {
  }

  function SnippetReply(np: string, lines: seq<string>, s: int, e: int, echo: Option<Dict>): Value
    requires 1 <= s && e <= |lines|
  {
    Reply(map["path" := JStr(np), "start_line" := JNum(s), "end_line" := JNum(e),
              "content" := JStr(Paths.JoinWith(Window(lines, s, e), '\n'))], echo)
  }

  /** The workbench's range: the start is clamped to 1 before the default end
      `start + 200` is taken. */
  function WorkbenchRange(a: int, end: Option<int>, n: nat): (int, int) {
    var s0 := if a < 1 then 1 else a;
    Clamp(s0, end.GetOr(s0 + 200), n)
  }

  /** The args-dictionary range: the default end is `start_line + 200` from the start as given. */
  function OrionRange(a: int, end: Option<int>, n: nat): (int, int) {
    Clamp(a, end.GetOr(a + 200), n)
  }

  /** Without an end line the workbench shows at most 201 lines from the start. */
  lemma WorkbenchDefaultWindow(a: int, n: nat)
    ensures var (s, e) := WorkbenchRange(a, None, n);
      s == (if a < 1 then 1 else a) && e - s + 1 <= 201
  {
  }

  /** The two dialects part ways on a start before the first line with no end
      given: the workbench clamps first and shows 201 lines, the args-dictionary
      tools take the default end from the raw start and show one line. */
  lemma DefaultEndDialects(n: nat)
    requires n >= 300
    ensures WorkbenchRange(-500, None, n) == (1, 201)
    ensures OrionRange(-500, None, n) == (1, 1)
  {
  }

  function IntError(v: Value, repr: Value -> string): string {
    "ValueError: invalid literal for int(): " + PyStr(v, repr)
  }

  /** `get_file_snippet` of the workbench: the file is read first; the start is
      clamped before the default end (`start + 200`) is taken. `end` is the
      `end_line` keyword or `None`. */
  function WorkbenchSnippet(repo: Repo, path: string, start: Value, end: Option<Value>, repr: Value -> string): Result<Value> {
    var np := Paths.NormalizePath(path);
    match repo.read(np)
    case None => Ok(CouldNotRead(np, None))
    case Some(c) =>
      var lines := Paths.TextLines(c);
      match PyInt(start)
      case None => Err(IntError(start, repr))
      case Some(a) =>
        var endv := if end.Some? then PyInt(end.value) else None;
        if end.Some? && endv.None? then Err(IntError(end.value, repr))
        else
          var (s, e) := WorkbenchRange(a, endv, |lines|);
          Ok(SnippetReply(np, lines, s, e, None))
  }

  /** `tool_get_file_snippet` of the args-dictionary dialect: both bounds are
      converted before the read, and the default end is `start_line + 200`
      from the start as given. */
  function OrionSnippet(repo: Repo, args: Dict, repr: Value -> string): Result<Value> {
    var path :- PathArg(args, "path");
    var np := Paths.NormalizePath(path);
    var startv := if "start_line" in args then args["start_line"] else JNum(1);
    match PyInt(startv)
    case None => Err(IntError(startv, repr))
    case Some(a) =>
      var endv := if "end_line" in args then PyInt(args["end_line"]) else None;
      if "end_line" in args && endv.None? then Err(IntError(args["end_line"], repr))
      else
        match repo.read(np)
        case None => Ok(CouldNotRead(np, Some(args)))
        case Some(c) =>
          var lines := Paths.TextLines(c);
          var (s, e) := OrionRange(a, endv, |lines|);
          Ok(SnippetReply(np, lines, s, e, Some(args)))
  }

  // ---------------------------------------------------------------------------
  // get_summary

  /** `get_summary`: the colocated summary if present, an error otherwise. */
  function SummaryReply(repo: Repo, np: string, echo: Option<Dict>): Value {
    match repo.summary(np)
    case Err(e) => Reply(map["_meta_error" := JStr("summary error for " + np + ": " + e)], echo)
    case Ok(None) => Reply(map["_meta_error" := JStr("no summary available for " + np)], echo)
    case Ok(Some(data)) =>
      Reply(map["path" := JStr(np), "summary" := data, "_meta_note" := JStr("summary returned (colocated)")], echo)
  }

  // ---------------------------------------------------------------------------
  // search_code

  /** A file hits when it is readable and its lowercased text contains the lowercased query. */
  function Hit(repo: Repo, q: string): string -> Option<bool> {
    p => match repo.read(p) case None => None case Some(c) => Some(Contains(Lower(c), q))
  }

  /** The scan from the remaining paths on, with the matches found so far. The
      cap is read after every readable file; when it is not an integer, the
      first such read raises. */
  function Scan(paths: seq<string>, hit: string -> Option<bool>, limit: Option<int>, found: seq<string>): Result<seq<string>>
    decreases |paths|
  {
    if paths == [] then Ok(found)
    else
      match hit(paths[0])
      case None => Scan(paths[1..], hit, limit, found)
      case Some(b) =>
        var found' := if b then found + [paths[0]] else found;
        if limit.None? then Err("ValueError: max_results is not an integer")
        else if |found'| >= limit.value then Ok(found')
        else Scan(paths[1..], hit, limit, found')
  }

  function Hits(paths: seq<string>, hit: string -> Option<bool>): seq<string> {
    Filter(paths, p => hit(p) == Some(true))
  }

  function Max(a: int, b: int): int { if a < b then b else a }

  /** The scan returns the first hits in listing order, no more than the cap
      (one, when the cap is below one), and all of them when the cap is not reached. */
  lemma {:induction false} ScanContract(paths: seq<string>, hit: string -> Option<bool>, lim: int, found: seq<string>)
    requires |found| < Max(1, lim)
    ensures var r := Scan(paths, hit, Some(lim), found);
      && r.Ok?
      && found <= r.value <= found + Hits(paths, hit)
      && |r.value| <= Max(1, lim)
      && (|r.value| < lim ==> r.value == found + Hits(paths, hit))
    decreases |paths|
  {
    if paths != [] {
      var rest := paths[1..];
      assert Hits(paths, hit) == (if hit(paths[0]) == Some(true) then [paths[0]] else []) + Hits(rest, hit);
      match hit(paths[0])
      case None =>
        ScanContract(rest, hit, lim, found);
      case Some(b) =>
        var found' := if b then found + [paths[0]] else found;
        if |found'| < lim {
          ScanContract(rest, hit, lim, found');
        }
    }
  }

  /** The search of both dialects on a lowercased query: an empty query finds nothing. */
  function SearchCode(repo: Repo, q: string, limit: Option<int>): Result<seq<string>> {
    if q == "" then Ok([]) else Scan(repo.paths, Hit(repo, q), limit, [])
  }

  /** The search loop, breaking once the matches reach the cap. */
  method SearchLoop(repo: Repo, q: string, limit: Option<int>) returns (r: Result<seq<string>>)
    ensures r == SearchCode(repo, q, limit)
  {
    if q == "" {
      return Ok([]);
    }
    var hit := Hit(repo, q);
    var matches: seq<string> := [];
    var i := 0;
    while i < |repo.paths|
      invariant 0 <= i <= |repo.paths|
      invariant Scan(repo.paths[i..], hit, limit, matches) == Scan(repo.paths, hit, limit, [])
    {
      var p := repo.paths[i];
      assert repo.paths[i..][0] == p && repo.paths[i..][1..] == repo.paths[i + 1..];
      var content := repo.read(p);
      if content.None? {
        i := i + 1;
        continue;
      }
      if Contains(Lower(content.value), q) {
        matches := matches + [p];
      }
      if limit.None? {
        return Err("ValueError: max_results is not an integer");
      }
      if |matches| >= limit.value {
        return Ok(matches);
      }
      i := i + 1;
    }
    assert repo.paths[i..] == [];
    return Ok(matches);
  }

  /** Every reported path is a listed, readable file containing the query in
      any letter case; there are at most `max(1, cap)` of them. */
  lemma SearchSound(repo: Repo, q: string, lim: int)
    ensures var r := SearchCode(repo, q, Some(lim));
      && r.Ok? && |r.value| <= Max(1, lim)
      && forall p :: p in r.value ==> p in repo.paths && repo.read(p).Some? && Contains(Lower(repo.read(p).value), q)
  {
    if q != "" {
      var hit := Hit(repo, q);
      ScanContract(repo.paths, hit, lim, []);
      FilterMembers(repo.paths, p => hit(p) == Some(true));
      var r := SearchCode(repo, q, Some(lim)).value;
      forall p | p in r ensures p in repo.paths && repo.read(p).Some? && Contains(Lower(repo.read(p).value), q) {
        assert r <= Hits(repo.paths, hit);
        var k :| 0 <= k < |r| && r[k] == p;
        assert Hits(repo.paths, hit)[k] == p;
      }
    }
  }

  /** `str(args.get("query", "") or "")` lowercased, and the cap
      `int(args.get("max_results", 100))`; the workbench's coerced keywords
      give the same two values. */
  function Query(args: Dict, repr: Value -> string): string {
    Lower(Dispatch.StrArg(args, "query", repr))
  }

  function Limit(args: Dict): Option<int> {
    if "max_results" in args then PyInt(args["max_results"]) else Some(DefaultMaxResults)
  }

  function SearchReply(repo: Repo, args: Dict, repr: Value -> string, echo: Option<Dict>): Result<Value> {
    var found :- SearchCode(repo, Query(args, repr), Limit(args));
    Ok(Reply(map["matches" := JArr(seq(|found|, i requires 0 <= i < |found| => Obj1("path", JStr(found[i]))))], echo))
  }

  /** With no cap given, a search that finds fewer than 100 files reports every
      readable file containing the query, in listing order. */
  lemma SearchComplete(repo: Repo, args: Dict, repr: Value -> string)
    requires "max_results" !in args && Query(args, repr) != ""
    requires SearchCode(repo, Query(args, repr), Limit(args)).Ok?
    requires |SearchCode(repo, Query(args, repr), Limit(args)).value| < DefaultMaxResults
    ensures SearchCode(repo, Query(args, repr), Limit(args))
      == Ok(Hits(repo.paths, Hit(repo, Query(args, repr))))
  {
    var hits := Hits(repo.paths, Hit(repo, Query(args, repr)));
    ScanContract(repo.paths, Hit(repo, Query(args, repr)), DefaultMaxResults, []);
    assert [] + hits == hits;
  }

  lemma EmptyQueryFindsNothing(repo: Repo, args: Dict, repr: Value -> string)
    requires "query" !in args || !Truthy(args["query"])
    ensures SearchCode(repo, Query(args, repr), Limit(args)) == Ok([])
  {
  }

  // ---------------------------------------------------------------------------
  // ask_user

  /** `args.get("prompt") or args.get("question") or "Model requests input:"`. */
  function Prompt(args: Dict): Value {
    if "prompt" in args && Truthy(args["prompt"]) then args["prompt"]
    else if "question" in args && Truthy(args["question"]) then args["question"]
    else JStr(DefaultPrompt)
  }

  /** The prompt shown is never empty and follows the fallback order. */
  lemma PromptFallback(args: Dict)
    ensures Truthy(Prompt(args))
    ensures "prompt" in args && Truthy(args["prompt"]) ==> Prompt(args) == args["prompt"]
    ensures !("prompt" in args && Truthy(args["prompt"])) && "question" in args && Truthy(args["question"])
      ==> Prompt(args) == args["question"]
    ensures !("prompt" in args && Truthy(args["prompt"])) && !("question" in args && Truthy(args["question"]))
      ==> Prompt(args) == JStr(DefaultPrompt)
  {
  }

  /** The answer: the typed line stripped, or `""` at end of input. */
  function Answer(line: Option<string>, echo: Option<Dict>): Value {
    Reply(map["answer" := JStr(if line.Some? then Strip(line.value) else "")], echo)
  }

  // ---------------------------------------------------------------------------
  // The two dialects

  /** The args-dictionary tools of `orion/tools.py` and `sutradhar/tools.py`;
      `line` is what `input()` returns to `ask_user`. */
  function OrionTool(repo: Repo, name: string, args: Dict, repr: Value -> string, line: Option<string>): Option<Result<Value>> {
    if name == "list_paths" then Some(OrionListPaths(repo, args))
    else if name == "get_file_contents" then
      var path := PathArg(args, "path");
      Some(if path.Err? then Err(path.msg) else Ok(FileContents(repo, Paths.NormalizePath(path.value), Some(args))))
    else if name == "get_file_snippet" then Some(OrionSnippet(repo, args, repr))
    else if name == "get_summary" then
      var path := PathArg(args, "path");
      Some(if path.Err? then Err(path.msg) else Ok(SummaryReply(repo, Paths.NormalizePath(path.value), Some(args))))
    else if name == "search_code" then Some(SearchReply(repo, args, repr, Some(args)))
    else if name == "ask_user" then Some(Ok(Answer(line, Some(args))))
    else None
  }

  const RepoToolNames: set<string> :=
    {"list_paths", "get_file_contents", "get_file_snippet", "get_summary", "search_code", "ask_user"}

  /** A repository tool as a registry entry: every one of them reads its
      arguments with `args.get`, so arguments that are not a dictionary raise. */
  function OrionEntry(repo: Repo, name: string, repr: Value -> string, line: Option<string>, args: Value): Result<Value> {
    if !args.JObj? then Err(Dispatch.NoGet)
    else match OrionTool(repo, name, args.fields, repr, line)
      case Some(r) => r
      case None => Ok(Dispatch.UnknownTool(name, args))
  }

  /** The repository tools of the `tools_registry` in `orion.py` and `editor.py`. */
  function OrionRegistry(repo: Repo, repr: Value -> string, line: Option<string>): (reg: map<string, Value -> Result<Value>>)
    ensures reg.Keys == RepoToolNames
  {
    map name | name in RepoToolNames :: (args: Value) => OrionEntry(repo, name, repr, line, args)
  }

  /** Through the registry runner, `get_file_contents` raises exactly when the
      decoded arguments are not a dictionary or hold a `path` that is not a
      string; the loop that called it ends with that exception. */
  lemma RegistryPathRaises(repo: Repo, repr: Value -> string, line: Option<string>, args: Value)
    ensures var r := Dispatch.RegistryRunner(OrionRegistry(repo, repr, line), repr, JStr("get_file_contents"), args);
      && (r.Err? <==> !args.JObj? || ("path" in args.fields && !args.fields["path"].JStr?))
      && (!args.JObj? ==> r == Err(Dispatch.NoGet))
      && (args.JObj? && "path" in args.fields && !args.fields["path"].JStr? ==> r == Err(PathTypeError))
  {
    var reg := OrionRegistry(repo, repr, line);
    assert "get_file_contents" in reg;
    assert reg["get_file_contents"](args) == OrionEntry(repo, "get_file_contents", repr, line, args);
    if args.JObj? {
      PathMustBeString(repo, args.fields, repr, line);
    }
  }

  /** In the args-dictionary dialect a `path` that is present but not a string
      makes the path tools raise before anything is read; a string path, or
      none, is normalised and answered. */
  lemma PathMustBeString(repo: Repo, args: Dict, repr: Value -> string, line: Option<string>)
    ensures "path" in args && !args["path"].JStr? ==>
      && OrionTool(repo, "get_file_contents", args, repr, line) == Some(Err(PathTypeError))
      && OrionTool(repo, "get_file_snippet", args, repr, line) == Some(Err(PathTypeError))
      && OrionTool(repo, "get_summary", args, repr, line) == Some(Err(PathTypeError))
    ensures "path" in args && args["path"].JStr? ==>
      OrionTool(repo, "get_file_contents", args, repr, line) ==
        Some(Ok(FileContents(repo, Paths.NormalizePath(args["path"].s), Some(args))))
    ensures "path" !in args ==>
      OrionTool(repo, "get_file_contents", args, repr, line) ==
        Some(Ok(FileContents(repo, Paths.NormalizePath(""), Some(args))))
  {
  }

  function KwStr(kw: Dict, k: string, repr: Value -> string): string {
    if k in kw then PyStr(kw[k], repr) else ""
  }

  function SearchTool(repo: Repo, repr: Value -> string): Dispatch.Tool {
    Dispatch.Tool([Dispatch.Param("query", Dispatch.AStr, false), Dispatch.Param("max_results", Dispatch.AInt, true)],
      kw => SearchReply(repo, kw, repr, None))
  }

  function SnippetTool(repo: Repo, repr: Value -> string): Dispatch.Tool {
    Dispatch.Tool(
      [Dispatch.Param("path", Dispatch.AStr, false), Dispatch.Param("start_line", Dispatch.AInt, true),
       Dispatch.Param("end_line", Dispatch.AOptional(Dispatch.AInt), true)],
      kw => WorkbenchSnippet(repo, KwStr(kw, "path", repr),
              if "start_line" in kw then kw["start_line"] else JNum(1),
              if "end_line" in kw && kw["end_line"] != JNull then Some(kw["end_line"]) else None, repr))
  }

  /** The registered tools of the workbench with their declared parameters;
      `line` is what `input()` returns to `ask_user`. */
  function WorkbenchRegistry(repo: Repo, repr: Value -> string, line: Option<string>): (reg: map<string, Dispatch.Tool>)
    ensures "search_code" in reg && reg["search_code"] == SearchTool(repo, repr)
    ensures "get_file_snippet" in reg && reg["get_file_snippet"] == SnippetTool(repo, repr)
  {
    map[
      "list_paths" := Dispatch.Tool([Dispatch.Param("glob", Dispatch.AOptional(Dispatch.AStr), true)],
        kw => WorkbenchListPaths(repo, kw)),
      "get_file_contents" := Dispatch.Tool([Dispatch.Param("path", Dispatch.AStr, false)],
        kw => Ok(FileContents(repo, Paths.NormalizePath(KwStr(kw, "path", repr)), None))),
      "get_file_snippet" := SnippetTool(repo, repr),
      "get_summary" := Dispatch.Tool([Dispatch.Param("path", Dispatch.AStr, false)],
        kw => Ok(SummaryReply(repo, Paths.NormalizePath(KwStr(kw, "path", repr)), None))),
      "search_code" := SearchTool(repo, repr),
      "ask_user" := Dispatch.Tool([Dispatch.Param("prompt", Dispatch.AStr, false)],
        kw => Ok(Answer(line, None)))]
  }

  /** A search without a query is refused before any file is read (the
      workbench registry holds `SearchTool`). */
  lemma SearchNeedsQuery(reg: map<string, Dispatch.Tool>, repo: Repo, args: Dict, env: Dispatch.Env)
    requires "search_code" in reg && reg["search_code"] == SearchTool(repo, env.repr)
    requires "query" !in args
    ensures Dispatch.RunTool(reg, "search_code", args, env).fields["result"]
      == Dispatch.MetaError("missing required parameter: query")
  {
    var t := SearchTool(repo, env.repr);
    assert t.params[0] == Dispatch.Param("query", Dispatch.AStr, false);
    Dispatch.MissingRequiredNotInvoked(reg, "search_code", args, env, t.call, 0);
    assert "missing required parameter: " + "query" == "missing required parameter: query";
  }

  // ---------------------------------------------------------------------------
  // tool_definitions of orion/orion.py

  /** One entry of `tool_definitions`: its properties as (name, JSON type) pairs.
      The description text is looked up by name (`Description`). */
  datatype FunctionTool = FunctionTool(name: string, props: seq<(string, string)>, required: seq<string>)

  function PropMap(props: seq<(string, string)>): map<string, Value> {
    if props == [] then map[]
    else PropMap(props[..|props| - 1])[props[|props| - 1].0 := Obj1("type", JStr(props[|props| - 1].1))]
  }

  lemma {:induction false} PropMapKeys(props: seq<(string, string)>)
    ensures forall k :: k in PropMap(props) <==> exists i :: 0 <= i < |props| && props[i].0 == k
  {
    if props != [] {
      var init := props[..|props| - 1];
      PropMapKeys(init);
      forall k | k in PropMap(props) && k != props[|props| - 1].0
        ensures exists i :: 0 <= i < |props| && props[i].0 == k
      {
        assert k in PropMap(init);
        var i :| 0 <= i < |init| && init[i].0 == k;
        assert props[i] == init[i];
      }
      forall k | (exists i :: 0 <= i < |props| && props[i].0 == k) ensures k in PropMap(props) {
        var i :| 0 <= i < |props| && props[i].0 == k;
        if i < |init| {
          assert init[i] == props[i];
        }
      }
    }
  }

  /** The JSON the model receives for one tool. */
  function Definition(t: FunctionTool): Value {
    JObj(map[
      "type" := JStr("function"),
      "name" := JStr(t.name),
      "description" := JStr(Description(t.name)),
      "parameters" := JObj(map[
        "type" := JStr("object"),
        "properties" := JObj(PropMap(t.props)),
        "required" := JArr(Strs(t.required)),
        "additionalProperties" := JBool(false)])])
  }

  /** `tool_definitions`: six repository tools, then the two external-directory tools. */
  function ToolDefinitions(): seq<FunctionTool> {
    [ FunctionTool("list_paths", [("glob", "string")], []),
      FunctionTool("get_file_contents", [("path", "string")], ["path"]),
      FunctionTool("get_file_snippet",
        [("path", "string"), ("start_line", "integer"), ("end_line", "integer")], ["path", "start_line", "end_line"]),
      FunctionTool("get_summary", [("path", "string")], ["path"]),
      FunctionTool("search_code", [("query", "string"), ("max_results", "integer")], ["query"]),
      FunctionTool("ask_user", [("prompt", "string")], ["prompt"]),
      FunctionTool("list_project_descriptions", [], []),
      FunctionTool("get_project_orion_summary", [("filename", "string")], ["filename"]) ]
  }

  /** The description `tool_definitions` gives each tool. */
  function Description(name: string): string {
    if name == "list_paths" then "List repository files; optionally filter by glob."
    else if name == "get_file_contents" then "Return full contents for a file."
    else if name == "get_file_snippet" then "Return a line-range snippet for a file."
    else if name == "get_summary" then "Return a brief machine-oriented summary for a local repo file, if available."
    else if name == "search_code" then "Search files for a substring; returns paths."
    else if name == "ask_user" then "Ask the user for a clarification."
    else if name == "list_project_descriptions" then
      "List dependency Project Descriptions (filenames) from the external directory."
    else "Return the Project Orion Summary (POS) for a given PD filename; regenerates if stale."
  }

  /** A parameter object that forbids extra keys and requires only declared properties. */
  predicate WellFormed(d: Value) {
    && d.JObj? && "parameters" in d.fields && d.fields["parameters"].JObj?
    && var ps := d.fields["parameters"].fields;
       && "properties" in ps && "required" in ps && "additionalProperties" in ps
       && ps["properties"].JObj? && ps["required"].JArr?
       && ps["additionalProperties"] == JBool(false)
       && forall v :: v in ps["required"].items ==> v.JStr? && v.s in ps["properties"].fields
  }

  predicate RequiresDeclared(t: FunctionTool) {
    forall k :: k in t.required ==> exists i :: 0 <= i < |t.props| && t.props[i].0 == k
  }

  lemma DefinitionWellFormed(t: FunctionTool)
    requires RequiresDeclared(t)
    ensures WellFormed(Definition(t))
  {
    PropMapKeys(t.props);
    var ps := Definition(t).fields["parameters"].fields;
    forall v | v in ps["required"].items ensures v.JStr? && v.s in ps["properties"].fields {
      var k :| 0 <= k < |t.required| && Strs(t.required)[k] == v;
      assert t.required[k] in t.required;
    }
  }

  /** The required names are the first property names, in order. */
  predicate RequiredLead(t: FunctionTool) {
    |t.required| <= |t.props| && forall k :: 0 <= k < |t.required| ==> t.required[k] == t.props[k].0
  }

  lemma LeadDeclared(t: FunctionTool)
    requires RequiredLead(t)
    ensures RequiresDeclared(t)
  {
    forall x | x in t.required ensures exists j :: 0 <= j < |t.props| && t.props[j].0 == x {
      var k :| 0 <= k < |t.required| && t.required[k] == x;
      assert t.props[k].0 == x;
    }
  }

  lemma DefinitionsLead()
    ensures |ToolDefinitions()| == 8
    ensures forall i :: 0 <= i < |ToolDefinitions()| ==> RequiredLead(ToolDefinitions()[i])
  {
  }

  /** The names differ in length or in their first letter. */
  lemma NamesDiffer()
    ensures forall i, j :: 0 <= i < j < |ToolDefinitions()| ==> ToolDefinitions()[i].name != ToolDefinitions()[j].name
  {
    var defs := ToolDefinitions();
    forall i, j | 0 <= i < j < |defs| ensures defs[i].name != defs[j].name {
      var a, b := defs[i].name, defs[j].name;
      assert |a| != |b| || a[0] != b[0];
    }
  }

  /** Eight tools with distinct names, each requiring only declared properties,
      so every definition sent is well formed. */
  lemma DefinitionsDistinct()
    ensures |ToolDefinitions()| == 8
    ensures forall i, j :: 0 <= i < j < |ToolDefinitions()| ==> ToolDefinitions()[i].name != ToolDefinitions()[j].name
    ensures forall i :: 0 <= i < |ToolDefinitions()| ==> WellFormed(Definition(ToolDefinitions()[i]))
  {
    var defs := ToolDefinitions();
    DefinitionsLead();
    NamesDiffer();
    forall i | 0 <= i < |defs| ensures WellFormed(Definition(defs[i])) {
      LeadDeclared(defs[i]);
      DefinitionWellFormed(defs[i]);
    }
  }
}
