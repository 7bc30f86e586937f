/** Persistence of a repository's metadata and conversation (`Storage` in
    `orion/context.py` and `sutradhar/context.py`). The metadata file is an
    optional JSON text; the conversation file is an optional list of JSONL
    lines; a rotated conversation is kept under its backup name. The two
    copies differ in where the files live and in the guard on raw appends. */
module Storage {
  import opened Wrappers
  import opened Json

  type Dict = map<string, Value>

  /** `orion/context.py` guards raw appends on `type`, `sutradhar/context.py` on `role`. */
  datatype Dialect = TypeGuard | RoleGuard

  const Legacy := "summaries_by_digest"
  const ConvStem := "orion-conversation"

  /** Where the two files live: under `.orion/` in the one copy, at the root in the other. */
  function MetadataPath(d: Dialect): string {
    if d.TypeGuard? then ".orion/orion-metadata.json" else "orion-metadata.json"
  }

  function ConversationPath(d: Dialect): string {
    if d.TypeGuard? then ".orion/" + ConvStem + ".jsonl" else ConvStem + ".jsonl"
  }

  // ---------------------------------------------------------------------------
  // Metadata

  function PlanState(planId: string): Value {
    JObj(map["plan_id" := JStr(planId), "commit_log" := JArr([])])
  }

  /** `default_metadata()`, with the fresh plan id passed in. */
  function DefaultMetadata(planId: string): Dict {
    map[
      "plan_state" := PlanState(planId),
      "pending_changes" := JArr([]),
      "batches_since_last_consolidation" := JNum(0),
      "path_to_digest" := JObj(map[])]
  }

  /** The filling of `load_metadata`: each missing default key added, then the legacy key dropped. */
  function Filled(md: Dict, planId: string): Dict {
    var defaults := DefaultMetadata(planId);
    (map k | k in md.Keys + defaults.Keys :: if k in md then md[k] else defaults[k]) - {Legacy}
  }

  /** The four keys are present, existing values are kept, missing ones take
      their defaults, the legacy key is gone and nothing else appears. */
  lemma FilledContract(md: Dict, planId: string)
    ensures var r := Filled(md, planId);
      && (forall k :: k in DefaultMetadata(planId) ==> k in r && r[k] == if k in md then md[k] else DefaultMetadata(planId)[k])
      && (forall k :: k in md && k != Legacy ==> k in r && r[k] == md[k])
      && Legacy !in r
      && (forall k :: k in r ==> k in md || k in DefaultMetadata(planId))
  {
  }

  /** Filling twice is filling once, whatever plan id the second fill would use. */
  lemma FilledIdempotent(md: Dict, planId: string, planId2: string)
    ensures Filled(Filled(md, planId), planId2) == Filled(md, planId)
  {
    var once := Filled(md, planId);
    assert Filled(once, planId2).Keys == once.Keys;
  }

  /** The key-by-key statements of `load_metadata`. */
  method FillDefaults(md0: Dict, planId: string) returns (md: Dict)
    ensures md == Filled(md0, planId)
  {
    md := md0;
    if "plan_state" !in md {
      md := md["plan_state" := PlanState(planId)];
    }
    if "pending_changes" !in md {
      md := md["pending_changes" := JArr([])];
    }
    if "batches_since_last_consolidation" !in md {
      md := md["batches_since_last_consolidation" := JNum(0)];
    }
    if "path_to_digest" !in md {
      md := md["path_to_digest" := JObj(map[])];
    }
    md := md - {Legacy};
    SameAsFilled(md0, planId, md);
  }

  /** A dictionary that agrees with the filling key by key is the filling. */
  lemma SameAsFilled(md0: Dict, planId: string, md: Dict)
    requires forall k :: k in md <==> (k in md0 || k in DefaultMetadata(planId)) && k != Legacy
    requires forall k :: k in md ==> md[k] == if k in md0 then md0[k] else DefaultMetadata(planId)[k]
    ensures md == Filled(md0, planId)
  {
    var r := Filled(md0, planId);
    assert md.Keys == r.Keys;
  }

  /** `load_metadata` over the file's text: a missing or unreadable file gives
      the defaults; a document that is not an object raises on the first
      `in` or assignment. */
  function MetadataOf(file: Option<string>, codec: Codec, planId: string): Result<Dict> {
    var v := if file.None? then JObj(DefaultMetadata(planId)) else codec.decode(file.value).GetOr(JObj(DefaultMetadata(planId)));
    if v.JObj? then Ok(Filled(v.fields, planId)) else Err("TypeError: metadata is not an object")
  }

  // ---------------------------------------------------------------------------
  // Conversation

  /** `read_jsonl` over the lines: blank lines and lines that do not parse are skipped. */
  function Records(lines: seq<string>, codec: Codec): seq<Value> {
    if lines == [] then []
    else
      var line := Strip(lines[|lines| - 1]);
      var rest := Records(lines[..|lines| - 1], codec);
      if line == "" then rest
      else match codec.decode(line) case Some(v) => rest + [v] case None => rest
  }

  /** `hist[-n:]`, with Python's reading of a non-positive bound. */
  function LastN(hist: seq<Value>, n: int): seq<Value> {
    if n > 0 then (if n < |hist| then hist[|hist| - n..] else hist)
    else if n == 0 then hist
    else if -n < |hist| then hist[-n..] else []
  }

  /** `load_history`: the records, trimmed to the cap when there are more. */
  function Capped(hist: seq<Value>, cap: int): seq<Value> {
    if |hist| > cap then LastN(hist, cap) else hist
  }

  /** A positive cap keeps the last `cap` records in file order; a cap of 0
      keeps everything, because `hist[-0:]` is the whole list. */
  lemma CappedContract(hist: seq<Value>, cap: int)
    ensures cap > 0 ==> var r := Capped(hist, cap);
      |r| == (if |hist| < cap then |hist| else cap) && r == hist[|hist| - |r|..]
    ensures cap == 0 ==> Capped(hist, cap) == hist
  {
  }

  /** `json.dumps` writes one line that `json.loads` reads back and `strip()` leaves alone. */
  ghost predicate LineCodec(codec: Codec) {
    forall v :: codec.encode(v) != "" && Strip(codec.encode(v)) == codec.encode(v) && codec.decode(codec.encode(v)) == Some(v)
  }

  /** An appended record is read back as the last record. */
  lemma RecordsAppend(lines: seq<string>, codec: Codec, v: Value)
    requires LineCodec(codec)
    ensures Records(lines + [codec.encode(v)], codec) == Records(lines, codec) + [v]
  {
    assert (lines + [codec.encode(v)])[..|lines|] == lines;
  }

  /** A raw message the guard admits. */
  predicate Admitted(d: Dialect, msg: Dict) {
    match d
    case TypeGuard => "type" in msg && msg["type"] in {JStr("message"), JStr("function_call"), JStr("function_call_output")}
    case RoleGuard => "role" in msg
  }

  function GuardError(d: Dialect): string {
    match d
    case TypeGuard => "append_raw_message requires a message of type 'message', 'function_call', or 'function_call_output'"
    case RoleGuard => "append_raw_message requires a message with a 'role' field"
  }

  /** `dict(msg)` with `setdefault("ts", now)`. */
  function Stamped(msg: Dict, now: int): (e: Dict)
    ensures e.Keys == msg.Keys + {"ts"}
    ensures forall k :: k in msg ==> e[k] == msg[k]
    ensures "ts" !in msg ==> e["ts"] == JNum(now)
  {
    if "ts" in msg then msg else msg["ts" := JNum(now)]
  }

  /** `{ts, role, content}` overlaid with a truthy `extra`, whose keys win. */
  function HistoryEntry(role: string, content: string, extra: Option<Dict>, now: int): (e: Dict)
    ensures forall k :: k in e <==> k in {"ts", "role", "content"} || (extra.Some? && k in extra.value)
    ensures extra.Some? ==> forall k :: k in extra.value ==> e[k] == extra.value[k]
    ensures forall k :: k in {"ts", "role", "content"} && (extra.None? || k !in extra.value) ==>
      e[k] == map["ts" := JNum(now), "role" := JStr(role), "content" := JStr(content)][k]
  {
    var base := map["ts" := JNum(now), "role" := JStr(role), "content" := JStr(content)];
    if extra.Some? && extra.value != map[] then base + extra.value else base
  }

  function BackupName(now: int): string {
    ConvStem + "-" + IntStr(now) + ".bak.jsonl"
  }

  /** The loop of `read_jsonl`. */
  method ReadJsonl(lines: seq<string>, codec: Codec) returns (records: seq<Value>)
    ensures records == Records(lines, codec)
  {
    records := [];
    for i := 0 to |lines|
      invariant records == Records(lines[..i], codec)
    {
      assert lines[..i + 1][..i] == lines[..i];
      var line := Strip(lines[i]);
      if line == "" {
        continue;
      }
      var parsed := codec.decode(line);
      if parsed.None? {
        continue;
      }
      records := records + [parsed.value];
    }
    assert lines[..|lines|] == lines;
  }

  class Store {
    const dialect: Dialect
    const codec: Codec
    var metadataFile: Option<string>
    var convFile: Option<seq<string>>
    var backups: map<string, seq<string>>

    constructor (d: Dialect, c: Codec, metadata: Option<string>, conv: Option<seq<string>>)
      ensures dialect == d && codec == c && metadataFile == metadata && convFile == conv && backups == map[]
    {
      dialect, codec := d, c;
      metadataFile, convFile := metadata, conv;
      backups := map[];
    }

    /** What `load_history` reads before trimming. */
    function History(): seq<Value>
      reads this
    {
      if convFile.None? then [] else Records(convFile.value, codec)
    }

    method LoadMetadata(planId: string) returns (r: Result<Dict>)
      ensures r == MetadataOf(metadataFile, codec, planId)
    {
      var v := JObj(DefaultMetadata(planId));
      if metadataFile.Some? {
        v := codec.decode(metadataFile.value).GetOr(v);
      }
      if !v.JObj? {
        return Err("TypeError: metadata is not an object");
      }
      var md := FillDefaults(v.fields, planId);
      return Ok(md);
    }

    method SaveMetadata(md: Dict)
      modifies this
      ensures metadataFile == Some(codec.encode(JObj(md)))
      ensures convFile == old(convFile) && backups == old(backups)
    {
      metadataFile := Some(codec.encode(JObj(md)));
    }

    method LoadHistory(cap: int) returns (hist: seq<Value>)
      ensures hist == Capped(History(), cap)
    {
      hist := [];
      if convFile.Some? {
        hist := ReadJsonl(convFile.value, codec);
      }
      if |hist| > cap {
        hist := LastN(hist, cap);
      }
    }

    method AppendHistory(role: string, content: string, extra: Option<Dict>, now: int)
      modifies this
      ensures convFile == Some(old(if convFile.None? then [] else convFile.value)
                               + [codec.encode(JObj(HistoryEntry(role, content, extra, now)))])
      ensures metadataFile == old(metadataFile) && backups == old(backups)
    {
      var entry := HistoryEntry(role, content, extra, now);
      var lines := if convFile.None? then [] else convFile.value;
      convFile := Some(lines + [codec.encode(JObj(entry))]);
    }

    /** Appends a stamped copy of an admitted message; the caller's dictionary is a value and stays as it was. */
    method AppendRawMessage(msg: Dict, now: int) returns (r: Result<()>)
      modifies this
      ensures r.Ok? <==> Admitted(dialect, msg)
      ensures r.Err? ==> r.msg == GuardError(dialect) && convFile == old(convFile)
      ensures r.Ok? ==> convFile == Some(old(if convFile.None? then [] else convFile.value)
                                         + [codec.encode(JObj(Stamped(msg, now)))])
      ensures metadataFile == old(metadataFile) && backups == old(backups)
    {
      if !Admitted(dialect, msg) {
        return Err(GuardError(dialect));
      }
      var entry := Stamped(msg, now);
      var lines := if convFile.None? then [] else convFile.value;
      convFile := Some(lines + [codec.encode(JObj(entry))]);
      return Ok(());
    }

    /** Rotates the conversation to its backup name, only when the file exists. */
    method ClearHistory(now: int)
      modifies this
      ensures old(convFile).Some? ==> convFile.None? && backups == old(backups)[BackupName(now) := old(convFile).value]
      ensures old(convFile).None? ==> convFile.None? && backups == old(backups)
      ensures metadataFile == old(metadataFile)
    {
      if convFile.Some? {
        backups := backups[BackupName(now) := convFile.value];
        convFile := None;
      }
    }
  }

  // ---------------------------------------------------------------------------
  // Round trips

  /** Saving filled metadata and loading it again gives it back unchanged. */
  lemma LoadAfterSave(md: Dict, codec: Codec, planId: string, planId2: string)
    requires codec.decode(codec.encode(JObj(md))) == Some(JObj(md))
    requires md == Filled(md, planId)
    ensures MetadataOf(Some(codec.encode(JObj(md))), codec, planId2) == Ok(md)
  {
    FilledIdempotent(md, planId, planId2);
  }

  /** A raw message appended and then read back is the last record of the
      history, stamped but otherwise as given, and the records before it are
      those read before. */
  lemma AppendThenLoad(before: Option<seq<string>>, codec: Codec, msg: Dict, now: int)
    requires LineCodec(codec)
    ensures var lines := if before.None? then [] else before.value;
      Records(lines + [codec.encode(JObj(Stamped(msg, now)))], codec)
        == Records(lines, codec) + [JObj(Stamped(msg, now))]
  {
    var lines := if before.None? then [] else before.value;
    RecordsAppend(lines, codec, JObj(Stamped(msg, now)));
  }

  /** The `role` guard accepts a message the `type` guard rejects, and the other way round. */
  lemma GuardsDiffer()
    ensures Admitted(RoleGuard, map["role" := JStr("user")]) && !Admitted(TypeGuard, map["role" := JStr("user")])
    ensures Admitted(TypeGuard, map["type" := JStr("function_call")]) && !Admitted(RoleGuard, map["type" := JStr("function_call")])
  {
  }
}
