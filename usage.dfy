/** `_log_usage` of the workbench Responses client: the three token counts it
    logs for each response, read from several field spellings. */
module Usage {
  import opened Wrappers
  import opened Json

  datatype Counts = Counts(input: int, cached: int, output: int)

  /** `_as_int`: `None` and anything `int()` rejects become 0. */
  function AsInt(v: Option<Value>): int {
    match v
    case None => 0
    case Some(x) => PyInt(x).GetOr(0)
  }

  /** `d.get(a)`, falling back to `d.get(b)` when the first is `None`. */
  function Either(m: map<string, Value>, a: string, b: string): (r: Option<Value>)
    ensures Get(m, a).Some? ==> r == Get(m, a)
  {
    if Get(m, a).Some? then Get(m, a) else Get(m, b)
  }

  /** `x or {}` followed by `.get`: `None` where the source raises on a truthy non-dictionary. */
  function DictOrEmpty(v: Option<Value>): Option<map<string, Value>> {
    match v
    case None => Some(map[])
    case Some(x) => if !Truthy(x) then Some(map[]) else if x.JObj? then Some(x.fields) else None
  }

  /** The first candidate that is not `None`. */
  function FirstPresent(cands: seq<Option<Value>>): (r: Option<Value>)
    ensures r.Some? <==> exists i :: 0 <= i < |cands| && cands[i].Some?
    ensures r.Some? ==> r in cands
  {
    if cands == [] then None else if cands[0].Some? then cands[0] else FirstPresent(cands[1..])
  }

  /** The counts `_log_usage` logs, or `Err` where it raises (a truthy `usage`,
      `input_token_details` or `prompt_tokens_details` that is not a dictionary). */
  function UsageCounts(resp: map<string, Value>): Result<Counts> {
    match DictOrEmpty(Get(resp, "usage"))
    case None => Err("usage is not a dictionary")
    case Some(u) =>
      match (DictOrEmpty(Get(u, "input_token_details")), DictOrEmpty(Get(u, "prompt_tokens_details")))
      case (Some(itd), Some(ptd)) =>
        var cached := FirstPresent([Get(itd, "cached_tokens"), Get(ptd, "cached_tokens"), Get(u, "cache_read_input_tokens")]);
        Ok(Counts(AsInt(Either(u, "input_tokens", "prompt_tokens")), AsInt(cached), AsInt(Either(u, "output_tokens", "completion_tokens"))))
      case _ => Err("usage details are not a dictionary")
  }

  /** A response without usage logs zeros. */
  lemma NoUsageLogsZeros(resp: map<string, Value>)
    requires Get(resp, "usage").None?
    ensures UsageCounts(resp) == Ok(Counts(0, 0, 0))
  {
  }

  /** Chat Completions spellings are read when the Responses spellings are absent. */
  lemma ChatAliases(p: int, c: int)
    ensures UsageCounts(map["usage" := JObj(map["prompt_tokens" := JNum(p), "completion_tokens" := JNum(c)])])
      == Ok(Counts(p, 0, c))
  {
    var u := map["prompt_tokens" := JNum(p), "completion_tokens" := JNum(c)];
    assert Get(u, "input_tokens") == None && Get(u, "output_tokens") == None;
    assert Get(u, "input_token_details") == None && Get(u, "prompt_tokens_details") == None;
    assert Get(u, "cache_read_input_tokens") == None;
    assert Either(u, "input_tokens", "prompt_tokens") == Some(JNum(p));
    assert Either(u, "output_tokens", "completion_tokens") == Some(JNum(c));
    assert FirstPresent([None, None, None]) == None;
  }

  /** The Responses spelling wins over the Chat alias when both are present. */
  lemma ResponsesSpellingWins(u: map<string, Value>, n: int)
    requires Get(u, "input_tokens") == Some(JNum(n))
    requires DictOrEmpty(Get(u, "input_token_details")).Some? && DictOrEmpty(Get(u, "prompt_tokens_details")).Some?
    ensures UsageCounts(map["usage" := JObj(u)]).Ok? && UsageCounts(map["usage" := JObj(u)]).value.input == n
  {
    assert Truthy(JObj(u)) || u == map[];
  }

  /** The cached count comes from `input_token_details` before `prompt_tokens_details`. */
  lemma CachedPrefersInputDetails(a: int, b: int)
    ensures UsageCounts(map["usage" := JObj(map[
        "input_token_details" := JObj(map["cached_tokens" := JNum(a)]),
        "prompt_tokens_details" := JObj(map["cached_tokens" := JNum(b)])])]).value.cached == a
  {
  }

  /** Usage that is a list makes the loop raise. */
  lemma ListUsageRaises(xs: seq<Value>)
    requires xs != []
    ensures UsageCounts(map["usage" := JArr(xs)]).Err?
  {
  }
}
