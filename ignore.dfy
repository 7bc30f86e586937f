/** `.orionignore` support of `sutradhar/fs.py`: the line parser, the
    last-match-wins matcher, the per-repository pattern cache, the guard in
    front of file reads and writes, and the filter of `list_repo_paths`.
    `PurePosixPath.match` is the library's glob matcher and is a parameter
    `matches(path, glob)`; the file system is a map from relative paths to
    contents. */
module Ignore {
  import opened Wrappers
  import opened Json
  import Paths
  import Strictify

  /** `(negated, glob_pattern)`. */
  datatype Rule = Rule(negated: bool, glob: string)

  type Matcher = (string, string) -> bool

  // ---------------------------------------------------------------------------
  // The line parser

  /** `s.lstrip("/")`. */
  function LStripSlash(s: string): (r: string)
    ensures r == [] || r[0] != '/'
    ensures |r| <= |s| && r == s[|s| - |r|..]
    decreases |s|
  {
    if s != [] && s[0] == '/' then LStripSlash(s[1..]) else s
  }

  /** `s.rstrip("/")`. */
  function RStripSlash(s: string): (r: string)
    ensures r == [] || r[|r| - 1] != '/'
    ensures |r| <= |s| && r == s[..|r|]
    decreases |s|
  {
    if s != [] && s[|s| - 1] == '/' then RStripSlash(s[..|s| - 1]) else s
  }

  /** The glob a pattern body becomes once its `!` is gone: a leading `/`
      anchors it at the root, a trailing `/` matches everything inside the
      directory, and an unanchored body may match at any depth. */
  function Glob(body: string): string {
    var rooted := body != [] && body[0] == '/';
    var pat := Pattern(if rooted then LStripSlash(body) else body);
    if rooted then pat else if pat != "" then "**/" + pat else "**"
  }

  /** A trailing `/` marks a directory: everything inside it matches. */
  function Pattern(line: string): string {
    if line != [] && line[|line| - 1] == '/' then RStripSlash(line) + "/**" else line
  }

  /** What one line contributes: nothing for blank lines, comments and a bare `!`. */
  function LineRule(raw: string): Option<Rule> {
    var line := Strip(raw);
    if line == "" || line[0] == '#' then None
    else if line[0] == '!' then
      var rest := Strip(line[1..]);
      if rest == "" then None else Some(Rule(true, Glob(rest)))
    else Some(Rule(false, Glob(line)))
  }

  /** The rules of a list of lines, in line order. */
  function RulesOf(lines: seq<string>): (r: seq<Rule>)
    ensures |r| <= |lines|
  {
    if lines == [] then []
    else
      var more := LineRule(lines[|lines| - 1]);
      RulesOf(lines[..|lines| - 1]) + (if more.Some? then [more.value] else [])
  }

  /** `text.splitlines()` for `\n` and `\r\n` endings (the `\r` left on a line is stripped with the rest of its blanks). */
  function Lines(text: string): seq<string> {
    Paths.SplitOn(text, '\n')
  }

  function ParseIgnore(text: string): seq<Rule> {
    RulesOf(Lines(text))
  }

  /** `_parse_orionignore_patterns`, line by line. */
  method ParseIgnoreLoop(text: string) returns (patterns: seq<Rule>)
    ensures patterns == ParseIgnore(text)
  {
    var lines := Lines(text);
    patterns := [];
    var i := 0;
    while i < |lines|
      invariant 0 <= i <= |lines|
      invariant patterns == RulesOf(lines[..i])
    {
      assert lines[..i + 1][..i] == lines[..i];
      var line := Strip(lines[i]);
      if line == "" || line[0] == '#' {
        i := i + 1;
        continue;
      }
      var negated := false;
      if line[0] == '!' {
        negated := true;
        line := Strip(line[1..]);
        if line == "" {
          i := i + 1;
          continue;
        }
      }
      patterns := patterns + [Rule(negated, Glob(line))];
      i := i + 1;
    }
    assert lines[..i] == lines;
  }

  /** The rules of two consecutive runs of lines are the rules of each, in order. */
  lemma {:induction false} RulesOfAppend(a: seq<string>, b: seq<string>)
    ensures RulesOf(a + b) == RulesOf(a) + RulesOf(b)
    decreases |b|
  {
    if b == [] {
      assert a + b == a;
    } else {
      var b' := b[..|b| - 1];
      RulesOfAppend(a, b');
      assert (a + b)[..|a + b| - 1] == a + b';
      assert (a + b)[|a + b| - 1] == b[|b| - 1];
    }
  }

  lemma StripFixed(s: string)
    requires s != [] && !IsBlank(s[0]) && !IsBlank(s[|s| - 1])
    ensures Strip(s) == s
  {
  }

  /** Blank lines, comments and a bare `!` contribute no rule; every other line contributes exactly one. */
  lemma SkippedLines(raw: string)
    ensures LineRule(raw).None? <==>
      var line := Strip(raw);
      line == "" || line[0] == '#' || (line[0] == '!' && Strip(line[1..]) == "")
  {
  }

  /** A line parses to a negated rule exactly when it starts with `!`. */
  lemma NegationFromBang(raw: string)
    requires LineRule(raw).Some?
    ensures LineRule(raw).value.negated <==> Strip(raw)[0] == '!'
  {
  }

  /** An unanchored pattern may match at any depth: its glob starts with `**`. */
  lemma UnanchoredMatchesAnywhere(body: string)
    requires body == [] || body[0] != '/'
    ensures |Glob(body)| >= 2 && Glob(body)[..2] == "**"
  {
  }

  /** The parser as the inverse of writing a rule down: a name, optionally
      negated, anchored and marked as a directory, reads back as the rule the
      comments of the source describe. */
  function RuleLine(negated: bool, rooted: bool, dirOnly: bool, name: string): string {
    var body := Body(rooted, dirOnly, name);
    if negated then "!" + body else body
  }

  function Body(rooted: bool, dirOnly: bool, name: string): string {
    var tail := if dirOnly then name + "/" else name;
    if rooted then "/" + tail else tail
  }

  predicate PlainName(name: string) {
    && name != []
    && name[0] != '/' && name[0] != '#' && name[0] != '!' && !IsBlank(name[0])
    && name[|name| - 1] != '/' && !IsBlank(name[|name| - 1])
  }

  function Expected(rooted: bool, dirOnly: bool, name: string): string {
    var pat := if dirOnly then name + "/**" else name;
    if rooted then pat else "**/" + pat
  }

  lemma PatternOfName(dirOnly: bool, name: string)
    requires PlainName(name)
    ensures Pattern(if dirOnly then name + "/" else name) == (if dirOnly then name + "/**" else name)
  {
    if dirOnly {
      var tail := name + "/";
      assert tail[..|tail| - 1] == name;
      assert RStripSlash(tail) == RStripSlash(name);
    }
  }

  lemma GlobRooted(tail: string)
    requires tail != [] && tail[0] != '/'
    ensures Glob("/" + tail) == Pattern(tail)
  {
    var body := "/" + tail;
    assert body[0] == '/' && body[1..] == tail;
    assert LStripSlash(tail) == tail;
    assert LStripSlash(body) == tail;
  }

  lemma GlobUnrooted(tail: string)
    requires tail != [] && tail[0] != '/' && Pattern(tail) != ""
    ensures Glob(tail) == "**/" + Pattern(tail)
  {
  }

  lemma GlobOfBody(rooted: bool, dirOnly: bool, name: string)
    requires PlainName(name)
    ensures Glob(Body(rooted, dirOnly, name)) == Expected(rooted, dirOnly, name)
  {
    var tail := if dirOnly then name + "/" else name;
    assert tail[0] == name[0];
    PatternOfName(dirOnly, name);
    if rooted {
      GlobRooted(tail);
    } else {
      GlobUnrooted(tail);
    }
  }

  lemma ParseRuleLine(negated: bool, rooted: bool, dirOnly: bool, name: string)
    requires PlainName(name)
    ensures LineRule(RuleLine(negated, rooted, dirOnly, name)) == Some(Rule(negated, Expected(rooted, dirOnly, name)))
  {
    var body := Body(rooted, dirOnly, name);
    var tail := if dirOnly then name + "/" else name;
    assert tail[0] == name[0] && tail[|tail| - 1] == (if dirOnly then '/' else name[|name| - 1]);
    assert body[0] == (if rooted then '/' else name[0]);
    assert body[|body| - 1] == tail[|tail| - 1];
    GlobOfBody(rooted, dirOnly, name);
    if negated {
      BangLine(body);
    } else {
      PlainLine(body);
    }
  }

  lemma BangLine(body: string)
    requires body != [] && !IsBlank(body[0]) && !IsBlank(body[|body| - 1])
    ensures LineRule("!" + body) == Some(Rule(true, Glob(body)))
  {
    var line := "!" + body;
    StripFixed(line);
    assert line[1..] == body;
    StripFixed(body);
  }

  lemma PlainLine(body: string)
    requires body != [] && !IsBlank(body[0]) && !IsBlank(body[|body| - 1])
    requires body[0] != '#' && body[0] != '!'
    ensures LineRule(body) == Some(Rule(false, Glob(body)))
  {
    StripFixed(body);
  }

  // ---------------------------------------------------------------------------
  // The matcher

  /** The verdict for a path: the last rule whose glob matches it decides, a
      negated rule un-ignoring; with no matching rule the path is not ignored. */
  function Decide(rules: seq<Rule>, path: string, matches: Matcher): bool {
    if rules == [] then false
    else
      var r := rules[|rules| - 1];
      if matches(path, r.glob) then !r.negated else Decide(rules[..|rules| - 1], path, matches)
  }

  /** `_is_ignored_rel` over the rules the cache returned. */
  method IsIgnoredRel(rules: seq<Rule>, path: string, matches: Matcher) returns (ignored: bool)
    ensures ignored == Decide(rules, path, matches)
  {
    if rules == [] {
      return false;
    }
    ignored := false;
    for i := 0 to |rules|
      invariant ignored == Decide(rules[..i], path, matches)
    {
      assert rules[..i + 1][..i] == rules[..i];
      if matches(path, rules[i].glob) {
        ignored := !rules[i].negated;
      }
    }
    assert rules[..|rules|] == rules;
  }

  predicate LastMatch(rules: seq<Rule>, path: string, matches: Matcher, i: int) {
    && 0 <= i < |rules| && matches(path, rules[i].glob)
    && forall j :: i < j < |rules| ==> !matches(path, rules[j].glob)
  }

  /** A path is ignored exactly when some matching rule is the last to match and is not negated. */
  lemma {:induction false} LastMatchWins(rules: seq<Rule>, path: string, matches: Matcher)
    ensures Decide(rules, path, matches) <==>
      exists i :: LastMatch(rules, path, matches, i) && !rules[i].negated
    decreases |rules|
  {
    if rules != [] {
      var n := |rules| - 1;
      if matches(path, rules[n].glob) {
        LastIsLastMatch(rules, path, matches);
      } else {
        var front := rules[..n];
        LastMatchWins(front, path, matches);
        LastMatchInFront(rules, path, matches);
      }
    }
  }

  lemma LastIsLastMatch(rules: seq<Rule>, path: string, matches: Matcher)
    requires rules != [] && matches(path, rules[|rules| - 1].glob)
    ensures forall i :: LastMatch(rules, path, matches, i) <==> i == |rules| - 1
  {
  }

  lemma LastMatchInFront(rules: seq<Rule>, path: string, matches: Matcher)
    requires rules != [] && !matches(path, rules[|rules| - 1].glob)
    ensures forall i :: LastMatch(rules, path, matches, i) <==> LastMatch(rules[..|rules| - 1], path, matches, i)
    ensures forall i :: 0 <= i < |rules| - 1 ==> rules[..|rules| - 1][i] == rules[i]
  {
  }

  /** No rule matching means not ignored. */
  lemma {:induction false} NoMatchNotIgnored(rules: seq<Rule>, path: string, matches: Matcher)
    requires forall i :: 0 <= i < |rules| ==> !matches(path, rules[i].glob)
    ensures !Decide(rules, path, matches)
    decreases |rules|
  {
    if rules != [] {
      NoMatchNotIgnored(rules[..|rules| - 1], path, matches);
    }
  }

  /** A later negated rule that matches re-includes the path whatever came before. */
  lemma NegationUnignores(rules: seq<Rule>, glob: string, path: string, matches: Matcher)
    requires matches(path, glob)
    ensures !Decide(rules + [Rule(true, glob)], path, matches)
  {
    assert (rules + [Rule(true, glob)])[..|rules|] == rules;
  }

  // ---------------------------------------------------------------------------
  // The pattern cache

  /** What a `.orionignore` with modification time `mtime` yields: nothing when
      the file is missing, else the rules of its text (`read` is `None` when
      reading it failed, which counts as an empty file). */
  function Fresh(mtime: Option<int>, read: Option<string>): seq<Rule> {
    if mtime.None? then [] else ParseIgnore(if read.Some? then read.value else "")
  }

  type Entries = map<string, (Option<int>, seq<Rule>)>

  predicate Hit(entries: Entries, root: string, mtime: Option<int>) {
    root in entries && entries[root].0 == mtime
  }

  /** The rules the cache answers with. */
  function Served(entries: Entries, root: string, mtime: Option<int>, read: Option<string>): seq<Rule> {
    if Hit(entries, root, mtime) then entries[root].1 else Fresh(mtime, read)
  }

  /** The cache after answering. */
  function Stored(entries: Entries, root: string, mtime: Option<int>, read: Option<string>): Entries {
    if Hit(entries, root, mtime) then entries else entries[root := (mtime, Fresh(mtime, read))]
  }

  /** `_ORIONIGNORE_CACHE` with `_get_orionignore_patterns`. The stat and the
      read are inputs: `mtime` (`None` for a missing file) and the text read. */
  class IgnoreCache {
    var entries: Entries

    constructor()
      ensures entries == map[]
    {
      entries := map[];
    }

    method Patterns(root: string, mtime: Option<int>, read: Option<string>) returns (patterns: seq<Rule>)
      modifies this
      ensures patterns == Served(old(entries), root, mtime, read)
      ensures entries == Stored(old(entries), root, mtime, read)
    {
      if root in entries && entries[root].0 == mtime {
        return entries[root].1;
      }
      if mtime.None? {
        patterns := [];
      } else {
        var text := if read.Some? then read.value else "";
        patterns := ParseIgnoreLoop(text);
      }
      entries := entries[root := (mtime, patterns)];
    }
  }

  /** Once answered, the same modification time is served from the cache,
      whatever the file now reads as. */
  lemma SameMtimeServedFromCache(entries: Entries, root: string, mtime: Option<int>, read: Option<string>, later: Option<string>)
    ensures Served(Stored(entries, root, mtime, read), root, mtime, later) == Served(entries, root, mtime, read)
  {
  }

  /** A changed modification time reparses. */
  lemma ChangedMtimeReparses(entries: Entries, root: string, mtime: Option<int>, read: Option<string>, mtime2: Option<int>, later: Option<string>)
    requires mtime2 != mtime
    ensures Served(Stored(entries, root, mtime, read), root, mtime2, later) == Fresh(mtime2, later)
  {
  }

  /** Entries the cache built itself hold what parsing gave at the time. */
  ghost predicate Coherent(entries: Entries) {
    forall r :: r in entries ==> exists read :: entries[r].1 == Fresh(entries[r].0, read)
  }

  lemma StoredCoherent(entries: Entries, root: string, mtime: Option<int>, read: Option<string>)
    requires Coherent(entries)
    ensures Coherent(Stored(entries, root, mtime, read))
  {
    var e := Stored(entries, root, mtime, read);
    forall r | r in e ensures exists rd :: e[r].1 == Fresh(e[r].0, rd) {
      if r == root && !Hit(entries, root, mtime) {
        assert e[r].1 == Fresh(e[r].0, read);
      } else {
        var rd :| entries[r].1 == Fresh(entries[r].0, rd);
        assert e[r].1 == Fresh(e[r].0, rd);
      }
    }
  }

  // ---------------------------------------------------------------------------
  // Guards and the repository listing

  function Blocked(rel: string): string {
    "Access to '" + rel + "' is blocked by .orionignore"
  }

  /** `_ensure_not_ignored`: a `PermissionError` for an ignored path. */
  function EnsureNotIgnored(rules: seq<Rule>, rel: string, matches: Matcher): (r: Result<()>)
    ensures r.Err? <==> Decide(rules, rel, matches)
    ensures r.Err? ==> r.msg == Blocked(rel)
  {
    if Decide(rules, rel, matches) then Err(Blocked(rel)) else Ok(())
  }

  /** `read_file` (and `read_bytes`, which differs only in not decoding): the guard runs before the file is opened. */
  function ReadFile(files: map<string, string>, rules: seq<Rule>, rel: string, matches: Matcher): Result<string> {
    match EnsureNotIgnored(rules, rel, matches)
    case Err(e) => Err(e)
    case Ok(_) => if rel in files then Ok(files[rel]) else Err("No such file or directory: '" + rel + "'")
  }

  /** `write_file`: the guard runs before anything is written. */
  function WriteFile(files: map<string, string>, rules: seq<Rule>, rel: string, content: string, matches: Matcher): Result<map<string, string>> {
    match EnsureNotIgnored(rules, rel, matches)
    case Err(e) => Err(e)
    case Ok(_) => Ok(files[rel := content])
  }

  /** An ignored path is neither read nor written, whether or not it exists. */
  lemma IgnoredIsBlocked(files: map<string, string>, rules: seq<Rule>, rel: string, content: string, matches: Matcher)
    requires Decide(rules, rel, matches)
    ensures ReadFile(files, rules, rel, matches) == Err(Blocked(rel))
    ensures WriteFile(files, rules, rel, content, matches) == Err(Blocked(rel))
  {
  }

  /** Reading back a written file gives what was written. */
  lemma WriteThenRead(files: map<string, string>, rules: seq<Rule>, rel: string, content: string, matches: Matcher)
    requires WriteFile(files, rules, rel, content, matches).Ok?
    ensures ReadFile(WriteFile(files, rules, rel, content, matches).value, rules, rel, matches) == Ok(content)
  {
  }

  predicate EndsWith(s: string, suffix: string) {
    |suffix| <= |s| && s[|s| - |suffix|..] == suffix
  }

  /** A walked file `list_repo_paths` reports: not under a pruned `.git` or
      `.orion` directory, not an Orion runtime file, not inside a `.orion`
      folder, and not ignored. */
  predicate Listed(rel: string, rules: seq<Rule>, matches: Matcher) {
    var ps := Paths.Parts(rel);
    && (ps == [] || ".git" !in ps[..|ps| - 1])
    && !EndsWith(rel, "orion-metadata.json") && !EndsWith(rel, "orion-conversation.jsonl")
    && ".orion" !in ps
    && !Decide(rules, Paths.NormalizePath(rel), matches)
  }

  /** `list_repo_paths` over the relative paths of every file in the tree. */
  function ListRepoPaths(walked: set<string>, rules: seq<Rule>, matches: Matcher): seq<string> {
    Strictify.SortSet(set rel | rel in walked && Listed(rel, rules, matches) :: Paths.NormalizePath(rel))
  }

  lemma NormalizedParts(p: string)
    ensures Paths.Parts(Paths.NormalizePath(p)) == Paths.Parts(p)
  {
    var ps := Paths.Parts(p);
    if Paths.Root(p) == "" && ps == [] {
      Paths.SplitOnPlain(".", '/');
    } else {
      Paths.PartsClean(p);
      Paths.PartsOfJoin(Paths.Root(p), ps);
    }
  }

  /** The listing is sorted without repeats, and everything in it is a
      normalised walked file that is neither ignored nor Orion's own. */
  lemma ListingIsClean(walked: set<string>, rules: seq<Rule>, matches: Matcher)
    ensures var out := ListRepoPaths(walked, rules, matches);
      && Strictify.StrictlySorted(out)
      && forall x :: x in out <==> exists rel :: rel in walked && Listed(rel, rules, matches) && x == Paths.NormalizePath(rel)
    ensures forall x :: x in ListRepoPaths(walked, rules, matches) ==>
      !Decide(rules, x, matches) && ".orion" !in Paths.Parts(x)
  {
    var out := ListRepoPaths(walked, rules, matches);
    forall x | x in out ensures !Decide(rules, x, matches) && ".orion" !in Paths.Parts(x) {
      var rel :| rel in walked && Listed(rel, rules, matches) && x == Paths.NormalizePath(rel);
      NormalizedParts(rel);
    }
  }
}
