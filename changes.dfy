/** Change-spec intake: `make_change_item` (identical in
    `orion/workbench/main.py`, `orion/orion.py` and `sutradhar/editor.py`),
    the pydantic-backed `validate_change_specs`, and the hand-written
    validators of `sutradhar/editor.py`. */
module Changes {
  import opened Wrappers
  import opened Json
  import Paths
  import Models

  type Dict = map<string, Value>

  /** `make_change_item`: a `ValueError` for an unknown change type. */
  function MakeChangeItem(path: string, changeType: string, summary: string): Result<Dict> {
    if changeType !in Models.ChangeTypeNames then Err("Invalid change_type")
    else Ok(map["path" := JStr(Paths.NormalizePath(path)), "change_type" := JStr(changeType), "summary_of_change" := JStr(summary)])
  }

  /** The item built is exactly the `ChangeItem` record validation would produce from the raw arguments. */
  lemma MadeItemValidates(path: string, changeType: string, summary: string)
    ensures MakeChangeItem(path, changeType, summary).Ok? <==> Models.ChangeTypeOf(changeType).Some?
    ensures MakeChangeItem(path, changeType, summary).Ok? ==>
      && Models.ParseItem(JObj(MakeChangeItem(path, changeType, summary).value))
           == Models.ParseItem(JObj(map["path" := JStr(path), "change_type" := JStr(changeType), "summary_of_change" := JStr(summary)]))
      && Models.ParseItem(JObj(MakeChangeItem(path, changeType, summary).value))
           == Ok(Models.ChangeItem(Paths.NormalizePath(path), Models.ChangeTypeOf(changeType).value, summary))
  {
    Models.ChangeTypeRoundTrip(Models.Modify, changeType);
    Paths.NormalizeIdempotent(path);
    var m := map["path" := JStr(path), "change_type" := JStr(changeType), "summary_of_change" := JStr(summary)];
    assert m.Keys == Models.ItemKeys;
    if MakeChangeItem(path, changeType, summary).Ok? {
      assert MakeChangeItem(path, changeType, summary).value.Keys == Models.ItemKeys;
    }
  }

  // ---------------------------------------------------------------------------
  // validate_change_specs, pydantic version

  function DumpAll(cs: seq<Models.ChangeSpec>): (r: seq<Dict>)
    ensures |r| == |cs| && forall i :: 0 <= i < |cs| ==> r[i] == Models.DumpSpec(cs[i])
  {
    if cs == [] then [] else [Models.DumpSpec(cs[0])] + DumpAll(cs[1..])
  }

  /** `validate_change_specs` in `orion/workbench/main.py` and `orion/orion.py`:
      the list validated as `List[ChangeSpec]` and dumped, or `[]` on any error. */
  function ValidateChangeSpecs(changes: Value): seq<Dict> {
    match Models.List(changes, Models.ParseSpec)
    case Ok(cs) => DumpAll(cs)
    case Err(_) => []
  }

  /** All or nothing: one dumped spec per input spec, in input order, when
      every spec is valid, and nothing as soon as one is not. */
  lemma ValidateAllOrNothing(xs: seq<Value>)
    ensures (forall i :: 0 <= i < |xs| ==> Models.ParseSpec(xs[i]).Ok?) ==>
      && |ValidateChangeSpecs(JArr(xs))| == |xs|
      && forall i :: 0 <= i < |xs| ==> ValidateChangeSpecs(JArr(xs))[i] == Models.DumpSpec(Models.ParseSpec(xs[i]).value)
    ensures (exists i :: 0 <= i < |xs| && Models.ParseSpec(xs[i]).Err?) ==> ValidateChangeSpecs(JArr(xs)) == []
  {
    Models.EachOk(xs, Models.ParseSpec);
  }

  function AsObjects(ds: seq<Dict>): (r: seq<Value>)
    ensures |r| == |ds| && forall i :: 0 <= i < |ds| ==> r[i] == JObj(ds[i])
  {
    if ds == [] then [] else [JObj(ds[0])] + AsObjects(ds[1..])
  }

  /** Validating the output again gives the same output. */
  lemma ValidateIdempotent(changes: Value)
    ensures var out := ValidateChangeSpecs(changes);
      ValidateChangeSpecs(JArr(AsObjects(out))) == out
  {
    var out := ValidateChangeSpecs(changes);
    if out != [] {
      var xs := changes.items;
      Models.EachOk(xs, Models.ParseSpec);
      var cs := Models.Each(xs, Models.ParseSpec).value;
      var ys := AsObjects(out);
      forall i | 0 <= i < |ys| ensures Models.ParseSpec(ys[i]) == Ok(cs[i]) {
        SpecReparses(xs[i], cs[i]);
      }
      Models.EachOk(ys, Models.ParseSpec);
      assert Models.Each(ys, Models.ParseSpec).value == cs;
    }
  }

  /** A dumped spec parses back to the spec it was parsed from. */
  lemma SpecReparses(v: Value, c: Models.ChangeSpec)
    requires Models.ParseSpec(v) == Ok(c)
    ensures Models.ParseSpec(JObj(Models.DumpSpec(c))) == Ok(c)
  {
    forall k | 0 <= k < |c.items| ensures Models.NormalItem(c.items[k]) {
      Models.EachOk(v.fields["items"].items, Models.ParseItem);
      Models.ParsedItemNormal(v.fields["items"].items[k]);
    }
    Models.SpecRoundTrip(c);
  }

  // ---------------------------------------------------------------------------
  // validate_change_specs, hand-written version of sutradhar/editor.py

  const SpecKeyList: seq<string> := ["id", "title", "description", "items"]
  const ItemKeyList: seq<string> := ["path", "change_type", "summary_of_change"]

  /** An item the editor accepts: a dictionary with the three keys and a known change type. */
  predicate GoodItem(it: Value) {
    && it.JObj?
    && "path" in it.fields && "change_type" in it.fields && "summary_of_change" in it.fields
    && it.fields["change_type"].JStr? && it.fields["change_type"].s in Models.ChangeTypeNames
  }

  /** A spec the editor keeps. */
  predicate GoodSpec(ch: Value) {
    && ch.JObj?
    && "id" in ch.fields && "title" in ch.fields && "description" in ch.fields && "items" in ch.fields
    && ch.fields["items"].JArr?
    && forall i :: 0 <= i < |ch.fields["items"].items| ==> GoodItem(ch.fields["items"].items[i])
  }

  /** `it["path"] = normalize_path(it["path"])`; a path that is not a string
      raises `TypeError`. The item-list functions below take the path
      normaliser as `norm`, and the validator instantiates it with
      `Paths.NormalizePath`, so that their lemmas need only its idempotence. */
  function NormalizeItem(it: Value, norm: string -> string): Result<Value> {
    if it.JObj? && "path" in it.fields && it.fields["path"].JStr? then
      Ok(JObj(it.fields["path" := JStr(norm(it.fields["path"].s))]))
    else Err(PathTypeError)
  }

  const PathTypeError := "TypeError: expected str, bytes or os.PathLike object"

  function NormalizeItems(items: seq<Value>, norm: string -> string): Result<seq<Value>> {
    if items == [] then Ok([])
    else
      var front :- NormalizeItems(items[..|items| - 1], norm);
      var last :- NormalizeItem(items[|items| - 1], norm);
      Ok(front + [last])
  }

  /** The dictionary kept for a spec: exactly its four keys, with the normalised items. */
  function Prepared(ch: Value, items: seq<Value>): Dict
    requires ch.JObj? && "id" in ch.fields && "title" in ch.fields && "description" in ch.fields
  {
    map["id" := ch.fields["id"], "title" := ch.fields["title"], "description" := ch.fields["description"], "items" := JArr(items)]
  }

  function PrepareAll(changes: seq<Value>, norm: string -> string): Result<seq<Dict>> {
    if changes == [] then Ok([])
    else
      var front :- PrepareAll(changes[..|changes| - 1], norm);
      var ch := changes[|changes| - 1];
      if !GoodSpec(ch) then Ok(front)
      else
        var items :- NormalizeItems(ch.fields["items"].items, norm);
        Ok(front + [Prepared(ch, items)])
  }

  function EditorValidateChangeSpecs(changes: Value): Result<seq<Dict>> {
    if changes.JArr? then PrepareAll(changes.items, Paths.NormalizePath) else Ok([])
  }

  /** Whether every item passes the checks, stopping at the first that fails. */
  method CheckItems(items: seq<Value>) returns (ok: bool)
    ensures ok <==> forall i :: 0 <= i < |items| ==> GoodItem(items[i])
  {
    ok := true;
    for i := 0 to |items|
      invariant ok <==> forall j :: 0 <= j < i ==> GoodItem(items[j])
    {
      var it := items[i];
      if !it.JObj? {
        ok := false;
        break;
      }
      if exists k :: k in ItemKeyList && k !in it.fields {
        ok := false;
        break;
      }
      var ct := it.fields["change_type"];
      if !ct.JStr? || ct.s !in Models.ChangeTypeNames {
        ok := false;
        break;
      }
    }
  }

  method NormalizeItemsLoop(items: seq<Value>) returns (r: Result<seq<Value>>)
    requires forall i :: 0 <= i < |items| ==> GoodItem(items[i])
    ensures r == NormalizeItems(items, Paths.NormalizePath)
  {
    var out: seq<Value> := [];
    for i := 0 to |items|
      invariant NormalizeItems(items[..i], Paths.NormalizePath) == Ok(out)
    {
      assert items[..i + 1][..i] == items[..i];
      var p := items[i].fields["path"];
      if !p.JStr? {
        NormalizeItemsErr(items, i, Paths.NormalizePath);
        return Err(PathTypeError);
      }
      out := out + [JObj(items[i].fields["path" := JStr(Paths.NormalizePath(p.s))])];
    }
    assert items[..|items|] == items;
    return Ok(out);
  }

  lemma {:induction false} NormalizeItemsErr(items: seq<Value>, i: nat, norm: string -> string)
    requires i < |items| && NormalizeItems(items[..i], norm).Ok? && NormalizeItem(items[i], norm).Err?
    ensures NormalizeItems(items, norm) == Err(PathTypeError)
    decreases |items|
  {
    if i == |items| - 1 {
      assert items[..|items| - 1] == items[..i];
    } else {
      assert items[..|items| - 1][..i] == items[..i];
      assert items[..|items| - 1][i] == items[i];
      NormalizeItemsErr(items[..|items| - 1], i, norm);
    }
  }

  /** The editor's `validate_change_specs`, spec by spec. The caller's item
      dictionaries are rewritten in place in the source; here the rewritten
      items are part of the result. */
  method EditorValidateLoop(changes: Value) returns (r: Result<seq<Dict>>)
    ensures r == EditorValidateChangeSpecs(changes)
  {
    if !changes.JArr? {
      return Ok([]);
    }
    var xs := changes.items;
    var prepared: seq<Dict> := [];
    for n := 0 to |xs|
      invariant PrepareAll(xs[..n], Paths.NormalizePath) == Ok(prepared)
    {
      PrepareAllStep(xs, n, Paths.NormalizePath, prepared);
      var ch := xs[n];
      if !ch.JObj? {
        continue;
      }
      SpecKeysMissing(ch.fields);
      if exists k :: k in SpecKeyList && k !in ch.fields {
        continue;
      }
      var items := ch.fields["items"];
      if !items.JArr? {
        continue;
      }
      var okItems := CheckItems(items.items);
      if !okItems {
        continue;
      }
      var normalized := NormalizeItemsLoop(items.items);
      if normalized.Err? {
        PrepareAllErr(xs, n, normalized.msg, Paths.NormalizePath);
        return normalized.PropagateFailure();
      }
      prepared := prepared + [Prepared(ch, normalized.value)];
    }
    assert xs[..|xs|] == xs;
    return Ok(prepared);
  }

  lemma SpecKeysMissing(m: Dict)
    ensures (exists k :: k in SpecKeyList && k !in m) <==> !("id" in m && "title" in m && "description" in m && "items" in m)
  {
    if !("id" in m && "title" in m && "description" in m && "items" in m) {
      var k :| k in ["id", "title", "description", "items"] && k !in m;
      assert k in SpecKeyList;
    }
  }

  /** One more spec: skipped when it is not good, otherwise its normalised items are kept. */
  lemma PrepareAllStep(xs: seq<Value>, n: nat, norm: string -> string, prepared: seq<Dict>)
    requires n < |xs| && PrepareAll(xs[..n], norm) == Ok(prepared)
    ensures !GoodSpec(xs[n]) ==> PrepareAll(xs[..n + 1], norm) == Ok(prepared)
    ensures GoodSpec(xs[n]) && NormalizeItems(xs[n].fields["items"].items, norm).Ok? ==>
      PrepareAll(xs[..n + 1], norm) == Ok(prepared + [Prepared(xs[n], NormalizeItems(xs[n].fields["items"].items, norm).value)])
  {
    assert xs[..n + 1][..n] == xs[..n];
    assert xs[..n + 1][n] == xs[n];
  }

  lemma {:induction false} PrepareAllErr(xs: seq<Value>, n: nat, e: string, norm: string -> string)
    requires n < |xs| && PrepareAll(xs[..n], norm).Ok? && GoodSpec(xs[n])
    requires NormalizeItems(xs[n].fields["items"].items, norm) == Err(e)
    ensures PrepareAll(xs, norm) == Err(e)
    decreases |xs|
  {
    if n == |xs| - 1 {
      assert xs[..|xs| - 1] == xs[..n];
    } else {
      assert xs[..|xs| - 1][..n] == xs[..n];
      assert xs[..|xs| - 1][n] == xs[n];
      PrepareAllErr(xs[..|xs| - 1], n, e, norm);
    }
  }

  /** Normalising a list of items succeeds exactly when each item's path is
      a string, and then normalises each item on its own. */
  lemma {:induction false} NormalizedItems(items: seq<Value>, norm: string -> string)
    ensures NormalizeItems(items, norm).Ok? <==> forall i :: 0 <= i < |items| ==> NormalizeItem(items[i], norm).Ok?
    ensures NormalizeItems(items, norm).Ok? ==>
      && |NormalizeItems(items, norm).value| == |items|
      && forall i :: 0 <= i < |items| ==> NormalizeItems(items, norm).value[i] == NormalizeItem(items[i], norm).value
    decreases |items|
  {
    if items != [] {
      var front := items[..|items| - 1];
      NormalizedItems(front, norm);
      assert forall i :: 0 <= i < |front| ==> front[i] == items[i];
    }
  }

  ghost predicate Idempotent(norm: string -> string) {
    forall p :: norm(norm(p)) == norm(p)
  }

  /** Normalising an item changes only its path, and keeps a good item good;
      with an idempotent normaliser, normalising again changes nothing. */
  lemma NormalizeItemEffect(it: Value, norm: string -> string)
    requires NormalizeItem(it, norm).Ok?
    ensures var out := NormalizeItem(it, norm).value;
      && out.JObj? && out.fields.Keys == it.fields.Keys
      && (forall k :: k in it.fields && k != "path" ==> out.fields[k] == it.fields[k])
      && out.fields["path"] == JStr(norm(it.fields["path"].s))
      && (GoodItem(it) ==> GoodItem(out))
      && (Idempotent(norm) ==> NormalizeItem(out, norm) == Ok(out))
  {
    var out := NormalizeItem(it, norm).value;
    if Idempotent(norm) {
      assert norm(norm(it.fields["path"].s)) == norm(it.fields["path"].s);
      assert out.fields["path" := JStr(norm(out.fields["path"].s))] == out.fields;
    }
  }

  /** Specs are kept or dropped whole, in input order; each kept spec has exactly the four keys. */
  lemma {:induction false} PreparedSpecs(xs: seq<Value>, norm: string -> string)
    requires PrepareAll(xs, norm).Ok?
    ensures var out := PrepareAll(xs, norm).value;
      && |out| <= |xs|
      && forall d :: d in out ==> d.Keys == {"id", "title", "description", "items"}
    decreases |xs|
  {
    if xs != [] {
      PreparedSpecs(xs[..|xs| - 1], norm);
    }
  }

  /** A list without any good spec yields nothing. */
  lemma {:induction false} NoGoodSpecsNothingKept(xs: seq<Value>, norm: string -> string)
    requires forall i :: 0 <= i < |xs| ==> !GoodSpec(xs[i])
    ensures PrepareAll(xs, norm) == Ok([])
    decreases |xs|
  {
    if xs != [] {
      NoGoodSpecsNothingKept(xs[..|xs| - 1], norm);
    }
  }

  /** A non-list yields nothing, and a spec with a bad item is dropped whole. */
  lemma EditorDropsWhole(changes: Value, ch: Value)
    ensures !changes.JArr? ==> EditorValidateChangeSpecs(changes) == Ok([])
    ensures !GoodSpec(ch) ==> EditorValidateChangeSpecs(JArr([ch])) == Ok([])
  {
    if !GoodSpec(ch) {
      NoGoodSpecsNothingKept([ch], Paths.NormalizePath);
    }
  }

  /** Running the editor's validation on its own output changes nothing. */
  lemma EditorValidateIdempotent(changes: Value)
    requires EditorValidateChangeSpecs(changes).Ok?
    ensures var out := EditorValidateChangeSpecs(changes).value;
      EditorValidateChangeSpecs(JArr(AsObjects(out))) == Ok(out)
  {
    if changes.JArr? {
      forall p ensures Paths.NormalizePath(Paths.NormalizePath(p)) == Paths.NormalizePath(p) {
        Paths.NormalizeIdempotent(p);
      }
      PrepareAllFixed(changes.items, Paths.NormalizePath);
    }
  }

  /** The output of `PrepareAll`, fed back, is a fixed point. */
  lemma {:induction false} PrepareAllFixed(xs: seq<Value>, norm: string -> string)
    requires Idempotent(norm) && PrepareAll(xs, norm).Ok?
    ensures PrepareAll(AsObjects(PrepareAll(xs, norm).value), norm) == PrepareAll(xs, norm)
    decreases |xs|
  {
    if xs != [] {
      var front := xs[..|xs| - 1];
      PrepareAllFixed(front, norm);
      var ch := xs[|xs| - 1];
      var pf := PrepareAll(front, norm).value;
      if GoodSpec(ch) {
        var items := NormalizeItems(ch.fields["items"].items, norm).value;
        var d := Prepared(ch, items);
        var ys := AsObjects(pf + [d]);
        assert ys[..|ys| - 1] == AsObjects(pf);
        PreparedFixed(ch, items, norm);
      }
    }
  }

  lemma PreparedFixed(ch: Value, items: seq<Value>, norm: string -> string)
    requires Idempotent(norm)
    requires GoodSpec(ch) && NormalizeItems(ch.fields["items"].items, norm) == Ok(items)
    ensures GoodSpec(JObj(Prepared(ch, items)))
    ensures NormalizeItems(items, norm) == Ok(items)
    ensures Prepared(JObj(Prepared(ch, items)), items) == Prepared(ch, items)
  {
    var raw := ch.fields["items"].items;
    NormalizedItems(raw, norm);
    forall i | 0 <= i < |items| ensures GoodItem(items[i]) && NormalizeItem(items[i], norm) == Ok(items[i]) {
      NormalizeItemEffect(raw[i], norm);
    }
    NormalizedItemsFixed(items, norm);
  }

  lemma {:induction false} NormalizedItemsFixed(items: seq<Value>, norm: string -> string)
    requires forall i :: 0 <= i < |items| ==> NormalizeItem(items[i], norm) == Ok(items[i])
    ensures NormalizeItems(items, norm) == Ok(items)
    decreases |items|
  {
    if items != [] {
      var n := |items| - 1;
      var front := items[..n];
      assert forall i :: 0 <= i < |front| ==> front[i] == items[i];
      NormalizedItemsFixed(front, norm);
      assert NormalizeItem(items[n], norm) == Ok(items[n]);
      assert front + [items[n]] == items;
    }
  }

  // ---------------------------------------------------------------------------
  // validate_apply_response, hand-written version of sutradhar/editor.py

  /** Python's `k in v`: a key of a dictionary, an element of a list, a
      substring of a string; `TypeError` for anything else. */
  function In(k: string, v: Value): Result<bool> {
    match v
    case JObj(m) => Ok(k in m)
    case JArr(xs) => Ok(JStr(k) in xs)
    case JStr(s) => Ok(Contains(s, k))
    case _ => Err("TypeError: argument is not iterable")
  }

  function FileMissing(k: string): Result<Option<string>> {
    Ok(Some("ApplyResponse.files item missing field: " + k))
  }

  /** The editor's check of one file entry: `None` when it passes. Indexing a
      list or a string with a key raises `TypeError`. */
  function CheckFile(f: Value): Result<Option<string>> {
    var hasPath :- In("path", f);
    if !hasPath then FileMissing("path")
    else
      var hasNew :- In("is_new", f);
      if !hasNew then FileMissing("is_new")
      else
        var hasCode :- In("code", f);
        if !hasCode then FileMissing("code")
        else if !f.JObj? then Err("TypeError: indices must be integers")
        else if !f.fields["path"].JStr? then Ok(Some("file.path must be string"))
        else if !f.fields["is_new"].JBool? then Ok(Some("file.is_new must be boolean"))
        else if !f.fields["code"].JStr? then Ok(Some("file.code must be string"))
        else Ok(None)
  }

  predicate AllStrings(xs: seq<Value>) {
    forall i :: 0 <= i < |xs| ==> xs[i].JStr?
  }

  function CheckIssue(issue: Value): Result<Option<string>> {
    var hasReason :- In("reason", issue);
    if !hasReason then Ok(Some("Issue missing field: reason"))
    else
      var hasPaths :- In("paths", issue);
      if !hasPaths then Ok(Some("Issue missing field: paths"))
      else if !issue.JObj? then Err("TypeError: indices must be integers")
      else if !issue.fields["reason"].JStr? then Ok(Some("issue.reason must be string"))
      else if !issue.fields["paths"].JArr? || !AllStrings(issue.fields["paths"].items) then Ok(Some("issue.paths must be array of strings"))
      else Ok(None)
  }

  /** The first failure among the entries, checked in order. */
  function FirstFailure(xs: seq<Value>, check: Value -> Result<Option<string>>): Result<Option<string>> {
    if xs == [] then Ok(None)
    else
      var here :- check(xs[0]);
      if here.Some? then Ok(here) else FirstFailure(xs[1..], check)
  }

  const ApplyKeyList: seq<string> := ["mode", "explanation", "files", "issues"]

  /** `validate_apply_response` of `sutradhar/editor.py`: `(True, "")` or
      `(False, message of the first failed check)`; `Err` where it raises. */
  function EditorValidateApply(resp: Dict): Result<(bool, string)> {
    var missing := FirstAbsent(ApplyKeyList, resp);
    if missing.Some? then Ok((false, "ApplyResponse missing required field: " + missing.value))
    else if resp["mode"] != JStr("ok") && resp["mode"] != JStr("incompatible") then
      Ok((false, "ApplyResponse.mode must be 'ok' or 'incompatible'"))
    else if !resp["explanation"].JStr? then Ok((false, "ApplyResponse.explanation must be string"))
    else if !resp["files"].JArr? || !resp["issues"].JArr? then Ok((false, "ApplyResponse.files and issues must be arrays"))
    else
      var f :- FirstFailure(resp["files"].items, CheckFile);
      if f.Some? then Ok((false, f.value))
      else
        var i :- FirstFailure(resp["issues"].items, CheckIssue);
        if i.Some? then Ok((false, i.value)) else Ok((true, ""))
  }

  function FirstAbsent(keys: seq<string>, m: Dict): (r: Option<string>)
    ensures r.None? <==> forall k :: k in keys ==> k in m
    ensures r.Some? ==> r.value in keys && r.value !in m
  {
    if keys == [] then None else if keys[0] !in m then Some(keys[0]) else FirstAbsent(keys[1..], m)
  }

  /** A well-formed file entry in the editor's dialect (`code`, not `contents`). */
  predicate GoodFile(f: Value) {
    f.JObj? && "path" in f.fields && "is_new" in f.fields && "code" in f.fields
    && f.fields["path"].JStr? && f.fields["is_new"].JBool? && f.fields["code"].JStr?
  }

  predicate GoodIssue(x: Value) {
    x.JObj? && "reason" in x.fields && "paths" in x.fields
    && x.fields["reason"].JStr? && x.fields["paths"].JArr? && AllStrings(x.fields["paths"].items)
  }

  /** Every check passes. */
  predicate GoodApply(resp: Dict) {
    && (forall k :: k in ApplyKeyList ==> k in resp)
    && (resp["mode"] == JStr("ok") || resp["mode"] == JStr("incompatible"))
    && resp["explanation"].JStr?
    && resp["files"].JArr? && resp["issues"].JArr?
    && (forall i :: 0 <= i < |resp["files"].items| ==> GoodFile(resp["files"].items[i]))
    && (forall i :: 0 <= i < |resp["issues"].items| ==> GoodIssue(resp["issues"].items[i]))
  }

  lemma CheckFileGood(f: Value)
    ensures CheckFile(f) == Ok(None) <==> GoodFile(f)
  {
  }

  lemma CheckIssueGood(x: Value)
    ensures CheckIssue(x) == Ok(None) <==> GoodIssue(x)
  {
  }

  lemma {:induction false} FirstFailureNone(xs: seq<Value>, check: Value -> Result<Option<string>>)
    ensures FirstFailure(xs, check) == Ok(None) <==> forall i :: 0 <= i < |xs| ==> check(xs[i]) == Ok(None)
    decreases |xs|
  {
    if xs != [] {
      FirstFailureNone(xs[1..], check);
      assert forall i :: 1 <= i < |xs| ==> xs[1..][i - 1] == xs[i];
    }
  }

  /** The response is accepted exactly when every check passes; when it is
      not, the verdict is `False` with a message, or the check raised. */
  lemma EditorApplyAcceptsGood(resp: Dict)
    ensures EditorValidateApply(resp) == Ok((true, "")) <==> GoodApply(resp)
  {
    if (forall k :: k in ApplyKeyList ==> k in resp) && resp["files"].JArr? && resp["issues"].JArr? {
      FilesPass(resp["files"].items);
      IssuesPass(resp["issues"].items);
    }
  }

  lemma FilesPass(xs: seq<Value>)
    ensures FirstFailure(xs, CheckFile) == Ok(None) <==> forall i :: 0 <= i < |xs| ==> GoodFile(xs[i])
  {
    FirstFailureNone(xs, CheckFile);
    forall i | 0 <= i < |xs| ensures CheckFile(xs[i]) == Ok(None) <==> GoodFile(xs[i]) { CheckFileGood(xs[i]); }
  }

  lemma IssuesPass(xs: seq<Value>)
    ensures FirstFailure(xs, CheckIssue) == Ok(None) <==> forall i :: 0 <= i < |xs| ==> GoodIssue(xs[i])
  {
    FirstFailureNone(xs, CheckIssue);
    forall i | 0 <= i < |xs| ensures CheckIssue(xs[i]) == Ok(None) <==> GoodIssue(xs[i]) { CheckIssueGood(xs[i]); }
  }

  /** The two dialects disagree on the file field: a response the pydantic
      model accepts with at least one file is refused by the editor, whose
      first complaint is the missing `code`. */
  lemma DialectsDisagreeOnFiles(resp: Dict)
    requires Models.ParseApply(JObj(resp)).Ok? && resp["files"].items != []
    ensures EditorValidateApply(resp) == Ok((false, "ApplyResponse.files item missing field: code"))
  {
    ParsedApplyHeader(resp);
    var f := resp["files"].items[0];
    Models.EachOk(resp["files"].items, Models.ParseFile);
    ParsedFileLacksCode(f);
    assert FirstFailure(resp["files"].items, CheckFile) == FileMissing("code");
    assert "ApplyResponse.files item missing field: " + "code" == "ApplyResponse.files item missing field: code";
  }

  /** A response the pydantic model accepts passes the editor's checks of the top-level fields. */
  lemma ParsedApplyHeader(resp: Dict)
    requires Models.ParseApply(JObj(resp)).Ok?
    ensures FirstAbsent(ApplyKeyList, resp) == None
    ensures resp["mode"] == JStr("ok") || resp["mode"] == JStr("incompatible")
    ensures resp["explanation"].JStr? && resp["files"].JArr? && resp["issues"].JArr?
    ensures Models.List(resp["files"], Models.ParseFile).Ok?
  {
    assert resp.Keys == Models.ApplyKeys;
    assert Models.Mode(resp["mode"]).Ok?;
    assert Models.Str(resp["explanation"]).Ok?;
    assert Models.List(resp["files"], Models.ParseFile).Ok?;
    assert Models.List(resp["issues"], Models.ParseIssue).Ok?;
  }

  /** A file entry the pydantic model accepts has `contents`, so the editor's check stops at `code`. */
  lemma ParsedFileLacksCode(f: Value)
    requires Models.ParseFile(f).Ok?
    ensures CheckFile(f) == FileMissing("code")
  {
    assert f.fields.Keys == Models.FileKeys;
    assert In("path", f) == Ok(true) && In("is_new", f) == Ok(true) && In("code", f) == Ok(false);
  }
}
