/** The wire data model of `orion/workbench/models.py`: closed pydantic
    records (unknown keys are rejected), the `ChangeType` enum, the
    `Literal` apply mode, and the validators that pass paths through
    `normalize_path`. Validation of a decoded JSON value either yields the
    record or fails; the failure carries a description of one failing field
    (pydantic's report lists every failing field in its own format). */
module Models {
  import opened Wrappers
  import opened Json
  import Paths

  // ---------------------------------------------------------------------------
  // Field readers

  /** A record: a dictionary whose keys are among `names` and include `required`. */
  function Record(v: Value, names: set<string>, required: set<string>): (r: Result<map<string, Value>>)
    ensures r.Ok? <==> v.JObj? && v.fields.Keys <= names && required <= v.fields.Keys
    ensures r.Ok? ==> r.value == v.fields
  {
    if !v.JObj? then Err("Input should be a valid dictionary")
    else if !(v.fields.Keys <= names) then Err("Extra inputs are not permitted")
    else if !(required <= v.fields.Keys) then Err("Field required")
    else Ok(v.fields)
  }

  function Str(v: Value): (r: Result<string>)
    ensures r.Ok? <==> v.JStr?
    ensures r.Ok? ==> r.value == v.s
  {
    if v.JStr? then Ok(v.s) else Err("Input should be a valid string")
  }

  /** The words pydantic's lax `bool` reads as true and as false, compared
      ignoring ASCII case. */
  const TrueWords: set<string> := {"1", "on", "t", "true", "y", "yes"}
  const FalseWords: set<string> := {"0", "off", "f", "false", "n", "no"}

  /** pydantic's lax `bool`: a boolean, 0 or 1, or one of its accepted words in
      any ASCII letter case. */
  function Bool(v: Value): (r: Result<bool>)
    ensures v.JBool? ==> r == Ok(v.b)
    ensures v.JStr? ==> (r == Ok(true) <==> Lower(v.s) in TrueWords) && (r == Ok(false) <==> Lower(v.s) in FalseWords)
    ensures v.JNull? || v.JArr? || v.JObj? ==> r.Err?
  {
    match v
    case JBool(b) => Ok(b)
    case JNum(n) => if n == 0 then Ok(false) else if n == 1 then Ok(true) else Err("Input should be a valid boolean")
    case JStr(s) =>
      if Lower(s) in TrueWords then Ok(true)
      else if Lower(s) in FalseWords then Ok(false)
      else Err("Input should be a valid boolean")
    case _ => Err("Input should be a valid boolean")
  }

  /** Letter case never matters to the boolean words: `"True"`, `"YES"` and
      `"Off"` read as their lower-case forms. */
  lemma BoolIgnoresCase(s: string)
    ensures Bool(JStr(s)) == Bool(JStr(Lower(s)))
    ensures Bool(JStr("True")) == Ok(true) && Bool(JStr("YES")) == Ok(true) && Bool(JStr("Off")) == Ok(false)
  {
    assert Lower(Lower(s)) == Lower(s);
    assert Lower("True") == "true";
    assert Lower("YES") == "yes";
    assert Lower("Off") == "off";
  }

  /** pydantic's lax `int`: a number, a boolean or a decimal string. */
  function Int(v: Value): (r: Result<int>)
    ensures v.JNum? ==> r == Ok(v.n)
    ensures v.JBool? ==> r == Ok(if v.b then 1 else 0)
    ensures v.JStr? ==> (r.Ok? <==> ParseDecimal(Strip(v.s)).Some?)
    ensures v.JStr? && r.Ok? ==> r.value == ParseDecimal(Strip(v.s)).value
    ensures v.JNull? || v.JArr? || v.JObj? ==> r.Err?
  {
    match PyInt(v)
    case Some(n) => Ok(n)
    case None => Err("Input should be a valid integer")
  }

  /** A list validated element by element; the first invalid element fails the whole list. */
  function Each<T>(xs: seq<Value>, f: Value -> Result<T>): (r: Result<seq<T>>)
    ensures r.Ok? ==> |r.value| == |xs|
    decreases |xs|
  {
    if xs == [] then Ok([])
    else
      match f(xs[0])
      case Err(e) => Err(e)
      case Ok(x) =>
        match Each(xs[1..], f)
        case Err(e) => Err(e)
        case Ok(rest) => Ok([x] + rest)
  }

  /** A list is valid exactly when every element is, and then each element is validated on its own. */
  lemma {:induction false} EachOk<T>(xs: seq<Value>, f: Value -> Result<T>)
    ensures Each(xs, f).Ok? <==> forall i :: 0 <= i < |xs| ==> f(xs[i]).Ok?
    ensures Each(xs, f).Ok? ==> forall i :: 0 <= i < |xs| ==> Each(xs, f).value[i] == f(xs[i]).value
    decreases |xs|
  {
    if xs != [] {
      EachOk(xs[1..], f);
      if f(xs[0]).Ok? && Each(xs[1..], f).Ok? {
        forall i | 0 <= i < |xs| ensures Each(xs, f).value[i] == f(xs[i]).value {
          if i > 0 { assert xs[1..][i - 1] == xs[i]; }
        }
      } else if f(xs[0]).Ok? {
        var k :| 0 <= k < |xs[1..]| && f(xs[1..][k]).Err?;
        assert f(xs[k + 1]).Err?;
      }
    }
  }

  function List<T>(v: Value, f: Value -> Result<T>): (r: Result<seq<T>>)
    ensures r.Ok? ==> v.JArr? && |r.value| == |v.items|
  {
    if v.JArr? then Each(v.items, f) else Err("Input should be a valid list")
  }

  function StrList(v: Value): Result<seq<string>> {
    List(v, Str)
  }

  /** A list field with `default_factory=list`. */
  function OptStrList(m: map<string, Value>, k: string): Result<seq<string>> {
    if k in m then StrList(m[k]) else Ok([])
  }

  // ---------------------------------------------------------------------------
  // Change specs

  /** `ChangeType`: exactly five values. */
  datatype ChangeType = Modify | Create | Delete | Move | Rename {
    function Name(): string {
      match this
      case Modify => "modify"
      case Create => "create"
      case Delete => "delete"
      case Move => "move"
      case Rename => "rename"
    }
  }

  const ChangeTypeNames: seq<string> := ["modify", "create", "delete", "move", "rename"]

  function ChangeTypeOf(s: string): Option<ChangeType> {
    if s == "modify" then Some(Modify)
    else if s == "create" then Some(Create)
    else if s == "delete" then Some(Delete)
    else if s == "move" then Some(Move)
    else if s == "rename" then Some(Rename)
    else None
  }

  /** The enum and its string values are in one-to-one correspondence, and the values are the five listed. */
  lemma ChangeTypeRoundTrip(t: ChangeType, s: string)
    ensures ChangeTypeOf(t.Name()) == Some(t)
    ensures ChangeTypeOf(s).Some? ==> ChangeTypeOf(s).value.Name() == s
    ensures ChangeTypeOf(s).Some? <==> s in ChangeTypeNames
  {
  }

  datatype ChangeItem = ChangeItem(path: string, changeType: ChangeType, summaryOfChange: string)
  datatype ChangeSpec = ChangeSpec(id: string, title: string, description: string, items: seq<ChangeItem>)
  datatype ConversationResponse = ConversationResponse(assistantMessage: string, changes: seq<ChangeSpec>)

  const ItemKeys: set<string> := {"path", "change_type", "summary_of_change"}
  const SpecKeys: set<string> := {"id", "title", "description", "items"}

  function ChangeTypeField(v: Value): Result<ChangeType> {
    if v.JStr? && ChangeTypeOf(v.s).Some? then Ok(ChangeTypeOf(v.s).value)
    else Err("Input should be 'modify', 'create', 'delete', 'move' or 'rename'")
  }

  /** `ChangeItem`: its path is normalised on the way in. */
  function ParseItem(v: Value): Result<ChangeItem> {
    var m :- Record(v, ItemKeys, ItemKeys);
    var path :- Str(m["path"]);
    var ct :- ChangeTypeField(m["change_type"]);
    var summary :- Str(m["summary_of_change"]);
    Ok(ChangeItem(Paths.NormalizePath(path), ct, summary))
  }

  function ParseSpec(v: Value): Result<ChangeSpec> {
    var m :- Record(v, SpecKeys, SpecKeys);
    var id :- Str(m["id"]);
    var title :- Str(m["title"]);
    var description :- Str(m["description"]);
    var items :- List(m["items"], ParseItem);
    Ok(ChangeSpec(id, title, description, items))
  }

  function ParseConversation(v: Value): Result<ConversationResponse> {
    var m :- Record(v, {"assistant_message", "changes"}, {"assistant_message", "changes"});
    var msg :- Str(m["assistant_message"]);
    var changes :- List(m["changes"], ParseSpec);
    Ok(ConversationResponse(msg, changes))
  }

  /** `model_dump()`: the enum dumps as its string value. */
  function DumpItem(it: ChangeItem): map<string, Value> {
    map["path" := JStr(it.path), "change_type" := JStr(it.changeType.Name()), "summary_of_change" := JStr(it.summaryOfChange)]
  }

  function DumpItems(items: seq<ChangeItem>): (r: seq<Value>)
    ensures |r| == |items| && forall i :: 0 <= i < |items| ==> r[i] == JObj(DumpItem(items[i]))
  {
    if items == [] then [] else [JObj(DumpItem(items[0]))] + DumpItems(items[1..])
  }

  function DumpSpec(c: ChangeSpec): map<string, Value> {
    map["id" := JStr(c.id), "title" := JStr(c.title), "description" := JStr(c.description), "items" := JArr(DumpItems(c.items))]
  }

  predicate NormalItem(it: ChangeItem) {
    Paths.NormalizePath(it.path) == it.path
  }

  /** Every validated item carries a normalised path. */
  lemma ParsedItemNormal(v: Value)
    requires ParseItem(v).Ok?
    ensures NormalItem(ParseItem(v).value)
    ensures ParseItem(v).value.path == Paths.NormalizePath(v.fields["path"].s)
  {
    Paths.NormalizeIdempotent(v.fields["path"].s);
  }

  /** Validating a dumped item gives the item back. */
  lemma ItemRoundTrip(it: ChangeItem)
    requires NormalItem(it)
    ensures ParseItem(JObj(DumpItem(it))) == Ok(it)
  {
    var m := DumpItem(it);
    assert m.Keys == ItemKeys;
    ChangeTypeRoundTrip(it.changeType, "");
  }

  lemma SpecRoundTrip(c: ChangeSpec)
    requires forall i :: 0 <= i < |c.items| ==> NormalItem(c.items[i])
    ensures ParseSpec(JObj(DumpSpec(c))) == Ok(c)
  {
    var m := DumpSpec(c);
    assert m.Keys == SpecKeys;
    var xs := DumpItems(c.items);
    forall i | 0 <= i < |xs| ensures ParseItem(xs[i]) == Ok(c.items[i]) {
      ItemRoundTrip(c.items[i]);
    }
    EachOk(xs, ParseItem);
    assert Each(xs, ParseItem).value == c.items;
  }

  // ---------------------------------------------------------------------------
  // Apply responses

  datatype ApplyMode = ModeOk | ModeIncompatible
  datatype FileContents = FileContents(path: string, isNew: bool, contents: string)
  datatype Issue = Issue(reason: string, paths: seq<string>)
  datatype ApplyResponse = ApplyResponse(mode: ApplyMode, explanation: string, files: seq<FileContents>, issues: seq<Issue>)

  const FileKeys: set<string> := {"path", "is_new", "contents"}
  const IssueKeys: set<string> := {"reason", "paths"}
  const ApplyKeys: set<string> := {"mode", "explanation", "files", "issues"}

  /** `Literal["ok", "incompatible"]`. */
  function Mode(v: Value): (r: Result<ApplyMode>)
    ensures r.Ok? <==> v == JStr("ok") || v == JStr("incompatible")
  {
    if v == JStr("ok") then Ok(ModeOk)
    else if v == JStr("incompatible") then Ok(ModeIncompatible)
    else Err("Input should be 'ok' or 'incompatible'")
  }

  function ParseFile(v: Value): Result<FileContents> {
    var m :- Record(v, FileKeys, FileKeys);
    var path :- Str(m["path"]);
    var isNew :- Bool(m["is_new"]);
    var contents :- Str(m["contents"]);
    Ok(FileContents(Paths.NormalizePath(path), isNew, contents))
  }

  /** `Issue`: its paths are normalised one by one. */
  function ParseIssue(v: Value): Result<Issue> {
    var m :- Record(v, IssueKeys, IssueKeys);
    var reason :- Str(m["reason"]);
    var paths :- StrList(m["paths"]);
    Ok(Issue(reason, NormalizeAll(paths)))
  }

  function NormalizeAll(ps: seq<string>): (r: seq<string>)
    ensures |r| == |ps|
    ensures forall i :: 0 <= i < |ps| ==> r[i] == Paths.NormalizePath(ps[i])
  {
    if ps == [] then [] else [Paths.NormalizePath(ps[0])] + NormalizeAll(ps[1..])
  }

  function ParseApply(v: Value): Result<ApplyResponse> {
    var m :- Record(v, ApplyKeys, ApplyKeys);
    var mode :- Mode(m["mode"]);
    var explanation :- Str(m["explanation"]);
    var files :- List(m["files"], ParseFile);
    var issues :- List(m["issues"], ParseIssue);
    Ok(ApplyResponse(mode, explanation, files, issues))
  }

  /** `validate_apply_response` of the pydantic versions: `(True, "")` or `(False, message)`. */
  function ValidateApplyResponse(resp: Value): (bool, string) {
    match ParseApply(resp)
    case Ok(_) => (true, "")
    case Err(e) => (false, e)
  }

  /** An accepted response has one of the two modes, only the four keys, and
      one record per file and per issue, in order. */
  lemma AcceptedApplyShape(resp: Value)
    requires ValidateApplyResponse(resp).0
    ensures resp.JObj? && resp.fields.Keys == ApplyKeys
    ensures resp.fields["mode"] == JStr("ok") || resp.fields["mode"] == JStr("incompatible")
    ensures var a := ParseApply(resp).value;
      && |a.files| == |resp.fields["files"].items|
      && |a.issues| == |resp.fields["issues"].items|
      && forall i :: 0 <= i < |a.issues| ==> ParseIssue(resp.fields["issues"].items[i]) == Ok(a.issues[i])
  {
    EachOk(resp.fields["issues"].items, ParseIssue);
  }

  /** An issue keeps the number and order of its paths, each normalised. */
  lemma IssuePathsNormalized(v: Value)
    requires ParseIssue(v).Ok?
    ensures var raw := v.fields["paths"].items;
      && |ParseIssue(v).value.paths| == |raw|
      && forall j :: 0 <= j < |raw| ==> raw[j].JStr? && ParseIssue(v).value.paths[j] == Paths.NormalizePath(raw[j].s)
  {
    EachOk(v.fields["paths"].items, Str);
  }

  /** A key outside the record's fields is refused. */
  lemma ExtraKeyRejected(m: map<string, Value>, k: string)
    requires k in m && k !in ApplyKeys
    ensures !ValidateApplyResponse(JObj(m)).0
  {
  }

  // ---------------------------------------------------------------------------
  // Summaries

  datatype FileSummary = FileSummary(
    v: int, p: string, b: string, l: string, lc: int, sz: int,
    ex: seq<string>, im: seq<string>, fx: seq<string>, cl: seq<string>,
    io: seq<string>, cfg: seq<string>, r: seq<string>, sm: seq<string>)
  datatype CodeSummary = CodeSummary(ex: seq<string>, im: seq<string>, fx: seq<string>, cl: seq<string>,
                                     cfg: seq<string>, r: seq<string>, sm: seq<string>)
  datatype InfoSummary = InfoSummary(s: string)
  datatype HtmlSummary = HtmlSummary(info: InfoSummary, code: Option<CodeSummary>)
  datatype CssSummary = CssSummary(sel: seq<string>)

  const FileSummaryKeys: set<string> := {"v", "p", "b", "l", "lc", "sz", "ex", "im", "fx", "cl", "io", "cfg", "r", "sm"}
  const CodeKeys: set<string> := {"ex", "im", "fx", "cl", "cfg", "r", "sm"}

  /** `FileSummary`: every field is required. */
  function ParseFileSummary(x: Value): Result<FileSummary> {
    var m :- Record(x, FileSummaryKeys, FileSummaryKeys);
    var v :- Int(m["v"]);
    var p :- Str(m["p"]);
    var b :- Str(m["b"]);
    var l :- Str(m["l"]);
    var lc :- Int(m["lc"]);
    var sz :- Int(m["sz"]);
    var ex :- StrList(m["ex"]);
    var im :- StrList(m["im"]);
    var fx :- StrList(m["fx"]);
    var cl :- StrList(m["cl"]);
    var io :- StrList(m["io"]);
    var cfg :- StrList(m["cfg"]);
    var r :- StrList(m["r"]);
    var sm :- StrList(m["sm"]);
    Ok(FileSummary(v, p, b, l, lc, sz, ex, im, fx, cl, io, cfg, r, sm))
  }

  /** `CodeSummary`: every list defaults to empty. */
  function ParseCode(x: Value): Result<CodeSummary> {
    var m :- Record(x, CodeKeys, {});
    var ex :- OptStrList(m, "ex");
    var im :- OptStrList(m, "im");
    var fx :- OptStrList(m, "fx");
    var cl :- OptStrList(m, "cl");
    var cfg :- OptStrList(m, "cfg");
    var r :- OptStrList(m, "r");
    var sm :- OptStrList(m, "sm");
    Ok(CodeSummary(ex, im, fx, cl, cfg, r, sm))
  }

  /** `InfoSummary`: the synopsis is required. */
  function ParseInfo(x: Value): Result<InfoSummary> {
    var m :- Record(x, {"s"}, {"s"});
    var s :- Str(m["s"]);
    Ok(InfoSummary(s))
  }

  /** `HtmlSummary`: `info` is required, `code` is optional and may be `null`. */
  function ParseHtml(x: Value): Result<HtmlSummary> {
    var m :- Record(x, {"info", "code"}, {"info"});
    var info :- ParseInfo(m["info"]);
    if "code" !in m || m["code"] == JNull then Ok(HtmlSummary(info, None))
    else
      var code :- ParseCode(m["code"]);
      Ok(HtmlSummary(info, Some(code)))
  }

  function ParseCss(x: Value): Result<CssSummary> {
    var m :- Record(x, {"sel"}, {});
    var sel :- OptStrList(m, "sel");
    Ok(CssSummary(sel))
  }

  /** Missing list fields default to empty lists, a missing `code` to `None`, and a missing synopsis is an error. */
  lemma SummaryDefaults(s: string)
    ensures ParseCode(JObj(map[])) == Ok(CodeSummary([], [], [], [], [], [], []))
    ensures ParseCss(JObj(map[])) == Ok(CssSummary([]))
    ensures ParseHtml(Obj1("info", Obj1("s", JStr(s)))) == Ok(HtmlSummary(InfoSummary(s), None))
    ensures ParseInfo(JObj(map[])).Err?
    ensures ParseHtml(JObj(map[])).Err?
  {
    assert ParseInfo(Obj1("s", JStr(s))) == Ok(InfoSummary(s));
  }
}
