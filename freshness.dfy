/** Summaries and their freshness: the language table behind `guess_language`,
    the routing and field overrides of `summarize_file` and
    `summarize_project_description`, and the decision `ensure_pos` takes for a
    project description's stored summary (its POS), together with the head list
    `ensure_all_pos` builds for the bootstrap message. The summarizing model,
    the filesystem, the digest and the clock are parameters. */
module Freshness {
  import opened Wrappers
  import opened Json
  import Paths

  type Dict = map<string, Value>

  // ---------------------------------------------------------------------------
  // guess_language

  /** The suffix table of the workbench, keyed by lower-cased suffix. */
  const WorkbenchTable: map<string, string> := map[
    ".py" := "py", ".ts" := "ts", ".tsx" := "tsx", ".js" := "js", ".jsx" := "jsx",
    ".sh" := "sh", ".bash" := "sh", ".zsh" := "sh",
    ".html" := "html", ".htm" := "html",
    ".md" := "info", ".markdown" := "info", ".rst" := "info", ".txt" := "info",
    ".json" := "info", ".yaml" := "info", ".yml" := "info", ".toml" := "info", ".ini" := "info",
    ".css" := "css"]

  /** The older table, which knows the code languages only. */
  const CodeTable: map<string, string> := map[
    ".py" := "py", ".ts" := "ts", ".tsx" := "tsx", ".js" := "js", ".jsx" := "jsx",
    ".sh" := "sh", ".bash" := "sh", ".zsh" := "sh"]

  const CodeLanguages: set<string> := {"py", "ts", "tsx", "js", "jsx", "sh"}

  /** The language tag of a file suffix, case-insensitively, defaulting to `info`. */
  function WorkbenchLanguage(ext: string): (r: string)
    ensures r in CodeLanguages || r in {"html", "css", "info"}
    ensures Lower(ext) !in WorkbenchTable ==> r == "info"
  {
    var e := Lower(ext);
    if e in WorkbenchTable then WorkbenchTable[e] else "info"
  }

  /** The older lookup, defaulting to `txt`. */
  function CodeLanguage(ext: string): (r: string)
    ensures r in CodeLanguages || r == "txt"
    ensures r == "txt" <==> Lower(ext) !in CodeTable
  {
    var e := Lower(ext);
    if e in CodeTable then CodeTable[e] else "txt"
  }

  /** `guess_language(path)`: the table applied to `PurePath(path).suffix`. */
  function GuessLanguage(path: string): string {
    WorkbenchLanguage(Paths.Suffix(Paths.Name(path)))
  }

  function GuessCodeLanguage(path: string): string {
    CodeLanguage(Paths.Suffix(Paths.Name(path)))
  }

  /** The older table is the newer one restricted to code: where it names a
      language the two agree, and everything it leaves as `txt` is markup,
      style or plain information in the newer one. */
  lemma TablesAgree(ext: string)
    ensures CodeLanguage(ext) != "txt" ==> WorkbenchLanguage(ext) == CodeLanguage(ext)
    ensures CodeLanguage(ext) == "txt" ==> WorkbenchLanguage(ext) in {"html", "css", "info"}
  {
    var e := Lower(ext);
    if e in CodeTable {
      assert e in WorkbenchTable && WorkbenchTable[e] == CodeTable[e];
    } else if e in WorkbenchTable {
      assert WorkbenchTable[e] in {"html", "css", "info"};
    }
  }

  /** Upper-case suffixes are recognised, a missing suffix is information to
      the newer table, and markup is plain text to the older one. */
  lemma LanguageExamples()
    ensures WorkbenchLanguage(".TSX") == "tsx" && CodeLanguage(".TSX") == "tsx"
    ensures WorkbenchLanguage("") == "info" && CodeLanguage("") == "txt"
    ensures WorkbenchLanguage(".Html") == "html" && CodeLanguage(".Html") == "txt"
  {
    assert Lower(".TSX") == ".tsx";
    assert Lower(".Html") == ".html";
  }

  // ---------------------------------------------------------------------------
  // summarize_file

  /** The response schema a file is summarized under. */
  datatype Schema = HtmlSummary | CssSummary | InfoSummary | CodeSummary

  function SchemaFor(lang: string): (s: Schema)
    ensures s == HtmlSummary <==> lang == "html"
    ensures s == CssSummary <==> lang == "css"
    ensures s == InfoSummary <==> lang == "info"
  {
    if lang == "html" then HtmlSummary
    else if lang == "css" then CssSummary
    else if lang == "info" then InfoSummary
    else CodeSummary
  }

  /** Exactly the suffixes the older table knows are summarized as code. */
  lemma CodeRouting(ext: string)
    ensures SchemaFor(WorkbenchLanguage(ext)) == CodeSummary <==> CodeLanguage(ext) != "txt"
  {
    TablesAgree(ext);
  }

  const SummaryMaxBytes := 2000000

  /** What `summarize_file` reaches out to: the ignore rules, `stat` (`None`
      when it raises), reading (`None` when it raises), the digest of the
      bytes read, and the summarizing model's validated answer for a file
      under a schema (`None` when validation fails). */
  datatype FileEnv = FileEnv(
    ignored: string -> bool,
    size: string -> Option<int>,
    read: string -> Option<string>,
    digest: string -> string,
    answer: (string, Schema) -> Option<Dict>)

  /** The summary returned, and the file written with its contents. */
  datatype Summarized = Summarized(obj: Option<Dict>, written: Option<(string, Dict)>)

  const Skipped := Summarized(None, None)

  /** The size gate shared by both versions: `stat` failing lets the file through. */
  predicate TooLarge(env: FileEnv, rel: string) {
    env.size(rel).Some? && env.size(rel).value > SummaryMaxBytes
  }

  /** The workbench `summarize_file`. */
  function SummarizeFile(env: FileEnv, rel: string): (r: Summarized)
    ensures r.written.Some? ==> r.obj.Some? && r.written.value == (Paths.ColocatedSummaryPath(rel), r.obj.value)
    ensures r.obj.Some? ==> r.obj == env.answer(rel, SchemaFor(GuessLanguage(rel)))
  {
    if env.ignored(rel) || TooLarge(env, rel) || env.read(rel).None? then Skipped
    else
      match env.answer(rel, SchemaFor(GuessLanguage(rel)))
      case None => Skipped
      case Some(obj) =>
        var target := Paths.ColocatedSummaryPath(rel);
        if env.ignored(target) then Summarized(Some(obj), None)
        else Summarized(Some(obj), Some((target, obj)))
  }

  /** An ignored source is never summarized; an ignored target still gets its
      summary returned, only not written; otherwise a summary is always written. */
  lemma SummarizeFileIgnores(env: FileEnv, rel: string)
    ensures env.ignored(rel) ==> SummarizeFile(env, rel) == Skipped
    ensures TooLarge(env, rel) ==> SummarizeFile(env, rel) == Skipped
    ensures SummarizeFile(env, rel).obj.Some?
      ==> (SummarizeFile(env, rel).written.None? <==> env.ignored(Paths.ColocatedSummaryPath(rel)))
    ensures !env.ignored(rel) && !TooLarge(env, rel) && env.read(rel).Some?
        && env.answer(rel, SchemaFor(GuessLanguage(rel))).Some?
      ==> SummarizeFile(env, rel).obj.Some?
  {
  }

  /** The older `summarize_file`: no ignore rules, one schema, and the path and
      digest fields overwritten with what the caller knows. */
  function SummarizeCodeFile(env: FileEnv, rel: string): (r: Summarized)
    ensures r.obj.Some? ==> (
      && env.read(rel).Some?
      && "p" in r.obj.value && r.obj.value["p"] == JStr(rel)
      && "b" in r.obj.value && r.obj.value["b"] == JStr(env.digest(env.read(rel).value)))
    ensures r.obj.Some? <==> r.written.Some?
    ensures r.written.Some? ==> r.written.value == (Paths.ColocatedSummaryPath(rel), r.obj.value)
  {
    if TooLarge(env, rel) || env.read(rel).None? then Skipped
    else
      match env.answer(rel, CodeSummary)
      case None => Skipped
      case Some(a) =>
        var obj := a["p" := JStr(rel)]["b" := JStr(env.digest(env.read(rel).value))];
        Summarized(Some(obj), Some((Paths.ColocatedSummaryPath(rel), obj)))
  }

  /** Whatever the model answered for the path and digest is replaced, and the
      rest of its answer is kept. */
  lemma CodeSummaryOverrides(env: FileEnv, rel: string)
    requires !TooLarge(env, rel) && env.read(rel).Some? && env.answer(rel, CodeSummary).Some?
    ensures var obj := SummarizeCodeFile(env, rel).obj;
      obj.Some?
      && obj.value.Keys == env.answer(rel, CodeSummary).value.Keys + {"p", "b"}
      && forall k :: k in obj.value && k != "p" && k != "b" ==> obj.value[k] == env.answer(rel, CodeSummary).value[k]
  {
  }

  // ---------------------------------------------------------------------------
  // summarize_project_description

  /** The validated answer of the project-description summarizer. */
  datatype PdSummary = PdSummary(v: int, f: string, h: string, ex: seq<Value>, u: seq<string>, r: seq<string>)

  /** `model_dump()` of a project summary. */
  function Dump(s: PdSummary): Dict {
    map["v" := JNum(s.v), "f" := JStr(s.f), "h" := JStr(s.h),
        "ex" := JArr(s.ex), "u" := JArr(Strs(s.u)), "r" := JArr(Strs(s.r))]
  }

  /** The file name and hash in the summary are the caller's, whatever the model wrote. */
  function SummarizeProjectDescription(filename: string, hash: string, answer: Option<PdSummary>): (r: Option<Dict>)
    ensures r.Some? <==> answer.Some?
    ensures r.Some? ==> (
      && r.value.Keys == {"v", "f", "h", "ex", "u", "r"}
      && r.value["f"] == JStr(filename) && r.value["h"] == JStr(hash)
      && r.value["v"] == JNum(answer.value.v) && r.value["ex"] == JArr(answer.value.ex))
  {
    match answer
    case None => None
    case Some(s) => Some(Dump(s.(f := filename, h := hash)))
  }

  // ---------------------------------------------------------------------------
  // ensure_pos

  /** What `ensure_pos` reaches out to: the PD hash (`None` when unreadable),
      the model's validated summary of a PD with a given hash, `float()` on a
      string (`None` when it raises) and the configured TTL in seconds. */
  datatype PdEnv = PdEnv(
    hashOf: string -> Option<string>,
    answer: (string, string) -> Option<PdSummary>,
    parseFloat: string -> Option<real>,
    ttl: int)

  predicate Readable(hash: Option<string>) {
    hash.Some? && hash.value != ""
  }

  /** `float(pos.get("_built_ts") or 0)`, with 0.0 when the conversion raises. */
  function BuiltTs(p: Dict, parseFloat: string -> Option<real>): real {
    var raw := if "_built_ts" in p && Truthy(p["_built_ts"]) then p["_built_ts"] else JNum(0);
    match raw
    case JNum(n) => n as real
    case JBool(b) => if b then 1.0 else 0.0
    case JStr(s) => parseFloat(s).GetOr(0.0)
    case _ => 0.0
  }

  /** A stored POS is a dictionary with `h`, `f` and `v`. */
  predicate WellFormed(pos: Value) {
    pos.JObj? && "h" in pos.fields && "f" in pos.fields && "v" in pos.fields
  }

  /** The TTL test: with a TTL configured, a POS with no positive build time,
      or one built more than the TTL ago, has expired. */
  predicate Expired(p: Dict, ttl: int, now: int, parseFloat: string -> Option<real>) {
    ttl > 0 && (BuiltTs(p, parseFloat) <= 0.0 || now as real - BuiltTs(p, parseFloat) > ttl as real)
  }

  /** The stored POS, as `read_pos` returns it. */
  function Stored(files: map<string, Value>, fn: string): Option<Value> {
    if fn in files then Some(files[fn]) else None
  }

  /** The regeneration table. */
  predicate NeedRegen(pos: Option<Value>, hash: string, env: PdEnv, now: int) {
    || pos.None?
    || !WellFormed(pos.value)
    || pos.value.fields["h"] != JStr(hash)
    || Expired(pos.value.fields, env.ttl, now, env.parseFloat)
  }

  /** The POS returned and the POS files afterwards. */
  datatype Step = Step(pos: Option<Dict>, files: map<string, Value>)

  /** A freshly built POS, stamped with the build time. */
  function Rebuilt(fn: string, hash: string, env: PdEnv, now: int): Option<Dict> {
    match SummarizeProjectDescription(fn, hash, env.answer(fn, hash))
    case None => None
    case Some(p) => Some(p["_built_ts" := JNum(now)])
  }

  /** `ensure_pos` with the clock read where it is needed. */
  function Ensure(files: map<string, Value>, fn: string, env: PdEnv, now: int): Step {
    var hash := env.hashOf(fn);
    if !Readable(hash) then Step(None, files)
    else if NeedRegen(Stored(files, fn), hash.value, env, now) then
      match Rebuilt(fn, hash.value, env, now)
      case None => Step(None, files)
      case Some(p) => Step(Some(p), files[fn := JObj(p)])
    else Step(Some(files[fn].fields), files)
  }

  /** The `ensure_pos` of both summarizer modules: the TTL test calls `now_ts`
      while the later function-local import has made it a local name that is
      not yet bound, so reaching the clock raises. */
  predicate ReachesClock(files: map<string, Value>, fn: string, env: PdEnv) {
    var hash := env.hashOf(fn);
    && Readable(hash)
    && fn in files && WellFormed(files[fn])
    && files[fn].fields["h"] == JStr(hash.value)
    && env.ttl > 0
    && BuiltTs(files[fn].fields, env.parseFloat) > 0.0
  }

  function EnsureAsWritten(files: map<string, Value>, fn: string, env: PdEnv, now: int): Result<Step> {
    if ReachesClock(files, fn, env) then Err("UnboundLocalError: now_ts")
    else Ok(Ensure(files, fn, env, now))
  }

  /** As written, a TTL makes every call either raise or rebuild: a stored
      POS is never handed back. */
  lemma AsWrittenNeverKeeps(files: map<string, Value>, fn: string, env: PdEnv, now: int)
    requires env.ttl > 0
    ensures var r := EnsureAsWritten(files, fn, env, now);
      r.Ok? && r.value.pos.Some?
      ==> r.value.pos.value["_built_ts"] == JNum(now) && r.value.files == files[fn := JObj(r.value.pos.value)]
  {
  }

  /** A POS built 100 seconds ago under a one-hour TTL: the clock-reading
      version keeps it, the version as written raises. */
  lemma TtlCheckCrashes()
    ensures var pos := map["h" := JStr("abc"), "f" := JStr("pd.md"), "v" := JNum(1), "_built_ts" := JNum(100)];
      var files := map["pd.md" := JObj(pos)];
      var env := PdEnv(_ => Some("abc"), (_, _) => None, _ => None, 3600);
      && Ensure(files, "pd.md", env, 200) == Step(Some(pos), files)
      && EnsureAsWritten(files, "pd.md", env, 200).Err?
  {
    var pos := map["h" := JStr("abc"), "f" := JStr("pd.md"), "v" := JNum(1), "_built_ts" := JNum(100)];
    var env := PdEnv(_ => Some("abc"), (_, _) => None, _ => None, 3600);
    assert BuiltTs(pos, env.parseFloat) == 100.0;
  }

  /** An unreadable PD gives no POS and writes nothing; a fresh stored POS is
      returned as it is; otherwise the rebuilt one is returned and written
      under the PD's name, carrying the PD's name and hash and the build time. */
  lemma EnsureContract(files: map<string, Value>, fn: string, env: PdEnv, now: int)
    ensures var s := Ensure(files, fn, env, now);
      && (!Readable(env.hashOf(fn)) ==> s == Step(None, files))
      && (Readable(env.hashOf(fn)) && !NeedRegen(Stored(files, fn), env.hashOf(fn).value, env, now)
          ==> s == Step(Some(files[fn].fields), files))
      && (s.files != files ==> s.pos.Some? && s.files == files[fn := JObj(s.pos.value)])
      && (s.pos.Some? && s.files != files ==> (
            && s.pos.value["h"] == JStr(env.hashOf(fn).value) && s.pos.value["f"] == JStr(fn)
            && s.pos.value["_built_ts"] == JNum(now)))
  {
  }

  /** Only the PD's own POS file can change. */
  lemma EnsureIsLocal(files: map<string, Value>, fn: string, env: PdEnv, now: int)
    ensures var s := Ensure(files, fn, env, now);
      forall k :: k != fn ==> Stored(s.files, k) == Stored(files, k)
  {
  }

  /** The answer for one PD depends on its own POS file only. */
  lemma EnsureReadsOwnFile(files: map<string, Value>, other: map<string, Value>, fn: string, env: PdEnv, now: int)
    requires Stored(files, fn) == Stored(other, fn)
    ensures Ensure(files, fn, env, now).pos == Ensure(other, fn, env, now).pos
    ensures Stored(Ensure(files, fn, env, now).files, fn) == Stored(Ensure(other, fn, env, now).files, fn)
  {
  }

  /** Ensuring again at the same moment changes nothing: a rebuilt POS passes
      every test of the table, a kept one still does, and a failure repeats. */
  lemma EnsureIsStable(files: map<string, Value>, fn: string, env: PdEnv, now: int)
    requires env.ttl > 0 ==> now > 0
    ensures var s := Ensure(files, fn, env, now);
      Ensure(s.files, fn, env, now) == s
  {
    var s := Ensure(files, fn, env, now);
    var hash := env.hashOf(fn);
    if Readable(hash) && NeedRegen(Stored(files, fn), hash.value, env, now) {
      var r := Rebuilt(fn, hash.value, env, now);
      if r.Some? {
        var p := r.value;
        assert Stored(s.files, fn) == Some(JObj(p));
        assert WellFormed(JObj(p)) && p["h"] == JStr(hash.value);
        if env.ttl > 0 {
          assert p["_built_ts"] == JNum(now) && Truthy(JNum(now));
          assert BuiltTs(p, env.parseFloat) == now as real;
        }
        assert !NeedRegen(Stored(s.files, fn), hash.value, env, now);
      }
    }
  }

  // ---------------------------------------------------------------------------
  // ensure_all_pos

  /** One entry of the bootstrap's PD list. */
  datatype Head = Head(filename: string, hasSummary: bool, exCount: nat)

  /** `len(pos.get("ex", [])) if has_summary else 0`: `len` raises on a value without a length. */
  function ExCount(pos: Option<Dict>): (r: Result<nat>)
    ensures pos.None? || "ex" !in pos.value ==> r == Ok(0)
    ensures pos.Some? && "ex" in pos.value && pos.value["ex"].JArr? ==> r == Ok(|pos.value["ex"].items|)
    ensures r.Err? <==> pos.Some? && "ex" in pos.value && !(pos.value["ex"].JArr? || pos.value["ex"].JStr? || pos.value["ex"].JObj?)
  {
    if pos.None? || "ex" !in pos.value then Ok(0)
    else
      match pos.value["ex"]
      case JArr(xs) => Ok(|xs|)
      case JStr(s) => Ok(|s|)
      case JObj(m) => Ok(|m|)
      case _ => Err("TypeError: object has no len()")
  }

  /** The heads produced and the POS files afterwards. */
  datatype Sweep = Sweep(heads: Result<seq<Head>>, files: map<string, Value>)

  /** Heads already produced, in front of the rest of a sweep. */
  function Prepend(hs: seq<Head>, sw: Sweep): Sweep {
    Sweep(if sw.heads.Ok? then Ok(hs + sw.heads.value) else sw.heads, sw.files)
  }

  /** The `for fn in items` loop, one PD after the other. */
  function AllPos(items: seq<string>, files: map<string, Value>, env: PdEnv, now: int): Sweep
    decreases |items|
  {
    if items == [] then Sweep(Ok([]), files)
    else
      var s := Ensure(files, items[0], env, now);
      match ExCount(s.pos)
      case Err(e) => Sweep(Err(e), s.files)
      case Ok(n) => Prepend([Head(items[0], s.pos.Some?, n)], AllPos(items[1..], s.files, env, now))
  }

  lemma PrependNothing(sw: Sweep)
    ensures Prepend([], sw) == sw
  {
    assert sw.heads.Ok? ==> [] + sw.heads.value == sw.heads.value;
  }

  lemma PrependSnoc(hs: seq<Head>, h: Head, sw: Sweep)
    ensures Prepend(hs, Prepend([h], sw)) == Prepend(hs + [h], sw)
  {
    assert sw.heads.Ok? ==> hs + ([h] + sw.heads.value) == hs + [h] + sw.heads.value;
  }

  /** The sweep from the i-th PD on: that PD's step, then the rest. */
  lemma AllPosAt(items: seq<string>, i: nat, files: map<string, Value>, env: PdEnv, now: int)
    requires i < |items|
    ensures var s := Ensure(files, items[i], env, now);
      AllPos(items[i..], files, env, now) == match ExCount(s.pos)
        case Err(e) => Sweep(Err(e), s.files)
        case Ok(n) => Prepend([Head(items[i], s.pos.Some?, n)], AllPos(items[i + 1..], s.files, env, now))
  {
    assert items[i..][0] == items[i] && items[i..][1..] == items[i + 1..];
  }

  /** One head per PD, in listing order; none at all without PDs. */
  lemma {:induction false} AllPosHeads(items: seq<string>, files: map<string, Value>, env: PdEnv, now: int)
    ensures var sw := AllPos(items, files, env, now);
      sw.heads.Ok? ==> |sw.heads.value| == |items| && forall i :: 0 <= i < |items| ==> sw.heads.value[i].filename == items[i]
    decreases |items|
  {
    if items != [] {
      var s := Ensure(files, items[0], env, now);
      AllPosHeads(items[1..], s.files, env, now);
      var sw := AllPos(items, files, env, now);
      if sw.heads.Ok? {
        var rest := AllPos(items[1..], s.files, env, now);
        assert sw.heads.value[1..] == rest.heads.value;
      }
    }
  }

  /** A sweep never touches the POS file of a PD it does not list. */
  lemma {:induction false} AllPosLeavesOthers(items: seq<string>, files: map<string, Value>, env: PdEnv, now: int, k: string)
    requires k !in items
    ensures Stored(AllPos(items, files, env, now).files, k) == Stored(files, k)
    decreases |items|
  {
    if items != [] {
      EnsureIsLocal(files, items[0], env, now);
      AllPosLeavesOthers(items[1..], Ensure(files, items[0], env, now).files, env, now, k);
    }
  }

  /** With distinct PD names (the listing is a sorted directory), each head
      reports whether ensuring that PD alone, from the starting files, yields
      a summary. */
  lemma {:induction false} AllPosHasSummary(items: seq<string>, files: map<string, Value>, env: PdEnv, now: int)
    requires forall i, j :: 0 <= i < j < |items| ==> items[i] != items[j]
    ensures var sw := AllPos(items, files, env, now);
      sw.heads.Ok? && |sw.heads.value| == |items|
      ==> forall i :: 0 <= i < |items| ==> sw.heads.value[i].hasSummary == Ensure(files, items[i], env, now).pos.Some?
    decreases |items|
  {
    if items != [] {
      var s := Ensure(files, items[0], env, now);
      var sw := AllPos(items, files, env, now);
      var tail := items[1..];
      AllPosHasSummary(tail, s.files, env, now);
      if sw.heads.Ok? && |sw.heads.value| == |items| {
        var rest := AllPos(tail, s.files, env, now);
        assert sw.heads.value == [Head(items[0], s.pos.Some?, ExCount(s.pos).value)] + rest.heads.value;
        forall i | 1 <= i < |items|
          ensures sw.heads.value[i].hasSummary == Ensure(files, items[i], env, now).pos.Some?
        {
          assert tail[i - 1] == items[i] && items[i] != items[0];
          EnsureIsLocal(files, items[0], env, now);
          EnsureReadsOwnFile(s.files, files, items[i], env, now);
          assert sw.heads.value[i] == rest.heads.value[i - 1];
        }
      }
    }
  }

  /** The loop of the older `ensure_all_pos` over the `ensure_pos` as
      written: the first PD whose TTL test reaches the clock ends the loop. */
  function SweepAsWritten(items: seq<string>, files: map<string, Value>, env: PdEnv, now: int): Sweep
    decreases |items|
  {
    if items == [] then Sweep(Ok([]), files)
    else
      match EnsureAsWritten(files, items[0], env, now)
      case Err(e) => Sweep(Err(e), files)
      case Ok(s) =>
        match ExCount(s.pos)
        case Err(e) => Sweep(Err(e), s.files)
        case Ok(n) => Prepend([Head(items[0], s.pos.Some?, n)], SweepAsWritten(items[1..], s.files, env, now))
  }

  /** The older `ensure_all_pos`: after its loop it scans the `.orion` folder
      through `os`, which that module never imports, so a non-empty listing
      that survives the loop ends in `NameError`. */
  function AllPosAsWritten(items: seq<string>, files: map<string, Value>, env: PdEnv, now: int): Sweep {
    if items == [] then Sweep(Ok([]), files)
    else
      var sw := SweepAsWritten(items, files, env, now);
      if sw.heads.Err? then sw else Sweep(Err("NameError: name 'os' is not defined"), sw.files)
  }

  /** Any listed PD makes the older sweep raise, so its heads never reach the bootstrap. */
  lemma AsWrittenSweepFails(items: seq<string>, files: map<string, Value>, env: PdEnv, now: int)
    ensures AllPosAsWritten(items, files, env, now).heads.Ok? <==> items == []
    ensures items != [] && AllPos(items, files, env, now).heads.Ok? ==> AllPos(items, files, env, now).heads.value != []
  {
    AllPosHeads(items, files, env, now);
  }

  /** The external directory's POS files, as `read_pos` finds them (a file
      that does not parse is absent). */
  class PosStore {
    var files: map<string, Value>

    constructor(files0: map<string, Value>)
      ensures files == files0
    {
      files := files0;
    }

    /** `ensure_pos`: the `need_regen` flag set test by test, in the version
        that reads the clock where the TTL test needs it (`Ensure`), not the
        workbench copy as written, whose local import leaves `now_ts` unbound
        there (`EnsureAsWritten`). */
    method EnsurePos(fn: string, env: PdEnv, now: int) returns (pos: Option<Dict>)
      modifies this
      ensures var s := Ensure(old(files), fn, env, now); pos == s.pos && files == s.files
    {
      var hash := env.hashOf(fn);
      if hash.None? || hash.value == "" {
        return None;
      }
      var stored := if fn in files then Some(files[fn]) else None;
      var needRegen := false;
      if stored.None? {
        needRegen := true;
      } else {
        var p := stored.value;
        if !p.JObj? || "h" !in p.fields || "f" !in p.fields || "v" !in p.fields {
          needRegen := true;
        } else if p.fields["h"] != JStr(hash.value) {
          needRegen := true;
        } else if env.ttl > 0 {
          var built := BuiltTs(p.fields, env.parseFloat);
          if built <= 0.0 || now as real - built > env.ttl as real {
            needRegen := true;
          }
        }
      }
      assert needRegen == NeedRegen(stored, hash.value, env, now);
      if needRegen {
        var newPos := SummarizeProjectDescription(fn, hash.value, env.answer(fn, hash.value));
        if newPos.None? {
          return None;
        }
        var stamped := newPos.value["_built_ts" := JNum(now)];
        files := files[fn := JObj(stamped)];
        return Some(stamped);
      }
      return Some(stored.value.fields);
    }

    /** `ensure_all_pos`: one head appended per listed PD, over the
        clock-reading `EnsurePos` and with the `os` module that the sutradhar
        copy never imports (`AllPos`; the copies as written are
        `AllPosAsWritten` and `SweepAsWritten`). */
    method EnsureAllPos(items: seq<string>, env: PdEnv, now: int) returns (heads: Result<seq<Head>>)
      modifies this
      ensures var sw := AllPos(items, old(files), env, now); heads == sw.heads && files == sw.files
    {
      var acc: seq<Head> := [];
      assert items[0..] == items;
      PrependNothing(AllPos(items, files, env, now));
      for i := 0 to |items|
        invariant AllPos(items, old(files), env, now) == Prepend(acc, AllPos(items[i..], files, env, now))
      {
        AllPosAt(items, i, files, env, now);
        var pos := EnsurePos(items[i], env, now);
        var n := ExCount(pos);
        if n.Err? {
          return Err(n.msg);
        }
        PrependSnoc(acc, Head(items[i], pos.Some?, n.value), AllPos(items[i + 1..], files, env, now));
        acc := acc + [Head(items[i], pos.Some?, n.value)];
      }
      assert items[|items|..] == [];
      assert acc + [] == acc;
      return Ok(acc);
    }
  }
}
