/** Pending-change bookkeeping of the `Orion` session (`orion/workbench/main.py`,
    `orion/orion.py`, `sutradhar/editor.py`): consolidation on
    `(title, sorted item paths)`, the every-third-batch trigger, discard by id,
    the append after a conversation turn, the bootstrap message at the head of
    the history, and what `cmd_apply` leaves behind. The metadata dictionary is
    reduced to the fields these commands touch; each `save_metadata` call is
    recorded as a snapshot of them. */
module Pending {
  import opened Wrappers
  import opened Json
  import Paths
  import Models
  import Changes

  type Dict = map<string, Value>

  // ---------------------------------------------------------------------------
  // First-wins consolidation, for any key

  function KeysOf<T, K(==)>(cs: seq<T>, key: T -> K): set<K> {
    set i | 0 <= i < |cs| :: key(cs[i])
  }

  /** No element before `cs[i]` has its key. */
  predicate FirstOfKey<T, K(==)>(cs: seq<T>, key: T -> K, i: nat)
    requires i < |cs|
  {
    forall j :: 0 <= j < i ==> key(cs[j]) != key(cs[i])
  }

  /** The first element of each key, in input order. */
  function Firsts<T(==), K(==)>(cs: seq<T>, key: T -> K): (r: seq<T>)
    ensures |r| <= |cs| && forall x :: x in r ==> x in cs
    decreases |cs|
  {
    if cs == [] then []
    else
      var n := |cs| - 1;
      Firsts(cs[..n], key) + (if FirstOfKey(cs, key, n) then [cs[n]] else [])
  }

  predicate Distinct<T, K(==)>(cs: seq<T>, key: T -> K) {
    forall i, j :: 0 <= i < j < |cs| ==> key(cs[i]) != key(cs[j])
  }

  lemma KeysOfSnoc<T, K>(cs: seq<T>, x: T, key: T -> K)
    ensures KeysOf(cs + [x], key) == KeysOf(cs, key) + {key(x)}
  {
    var ys := cs + [x];
    forall k | k in KeysOf(ys, key)
      ensures k in KeysOf(cs, key) + {key(x)}
    {
      var i :| 0 <= i < |ys| && key(ys[i]) == k;
      if i < |cs| {
        assert ys[i] == cs[i];
      }
    }
    forall k | k in KeysOf(cs, key)
      ensures k in KeysOf(ys, key)
    {
      var i :| 0 <= i < |cs| && key(cs[i]) == k;
      assert ys[i] == cs[i];
    }
    assert key(ys[|cs|]) in KeysOf(ys, key);
  }

  /** An element comes first for its key exactly when its key is not among the keys before it. */
  lemma FirstIffUnseen<T, K>(cs: seq<T>, key: T -> K, n: nat)
    requires n < |cs|
    ensures FirstOfKey(cs, key, n) <==> key(cs[n]) !in KeysOf(cs[..n], key)
  {
    var p := cs[..n];
    if key(cs[n]) in KeysOf(p, key) {
      var j :| 0 <= j < |p| && key(p[j]) == key(cs[n]);
      assert p[j] == cs[j];
    }
    if !FirstOfKey(cs, key, n) {
      var j :| 0 <= j < n && key(cs[j]) == key(cs[n]);
      assert p[j] == cs[j];
      assert key(p[j]) in KeysOf(p, key);
    }
  }

  /** Consolidation loses no key. */
  lemma {:induction false} FirstsKeys<T, K>(cs: seq<T>, key: T -> K)
    ensures KeysOf(Firsts(cs, key), key) == KeysOf(cs, key)
    decreases |cs|
  {
    if cs != [] {
      var n := |cs| - 1;
      var p := cs[..n];
      assert cs == p + [cs[n]];
      FirstsKeys(p, key);
      KeysOfSnoc(p, cs[n], key);
      FirstIffUnseen(cs, key, n);
      if FirstOfKey(cs, key, n) {
        KeysOfSnoc(Firsts(p, key), cs[n], key);
      } else {
        assert Firsts(cs, key) == Firsts(p, key) + [];
        assert Firsts(p, key) + [] == Firsts(p, key);
      }
    }
  }

  /** After consolidation no two elements share a key. */
  lemma {:induction false} FirstsDistinct<T, K>(cs: seq<T>, key: T -> K)
    ensures Distinct(Firsts(cs, key), key)
    decreases |cs|
  {
    if cs != [] {
      var n := |cs| - 1;
      var p := cs[..n];
      FirstsDistinct(p, key);
      if FirstOfKey(cs, key, n) {
        FirstsKeys(p, key);
        FirstIffUnseen(cs, key, n);
        var q := Firsts(p, key);
        var r := q + [cs[n]];
        forall i, j | 0 <= i < j < |r|
          ensures key(r[i]) != key(r[j])
        {
          assert r[i] == q[i];
          if j == |r| - 1 {
            assert key(q[i]) in KeysOf(q, key);
          } else {
            assert r[j] == q[j];
          }
        }
      }
    }
  }

  /** A list without repeated keys is left as it is. */
  lemma {:induction false} FirstsOfDistinct<T, K>(cs: seq<T>, key: T -> K)
    requires Distinct(cs, key)
    ensures Firsts(cs, key) == cs
    decreases |cs|
  {
    if cs != [] {
      var n := |cs| - 1;
      var p := cs[..n];
      assert Distinct(p, key) by {
        forall i, j | 0 <= i < j < |p|
          ensures key(p[i]) != key(p[j])
        {
          assert p[i] == cs[i] && p[j] == cs[j];
        }
      }
      FirstsOfDistinct(p, key);
      assert FirstOfKey(cs, key, n);
      assert cs == p + [cs[n]];
    }
  }

  /** Consolidating twice is consolidating once. */
  lemma ConsolidateIdempotent<T, K>(cs: seq<T>, key: T -> K)
    ensures Firsts(Firsts(cs, key), key) == Firsts(cs, key)
  {
    FirstsDistinct(cs, key);
    FirstsOfDistinct(Firsts(cs, key), key);
  }

  /** What survives is exactly the elements that come first for their key. */
  lemma {:induction false} FirstsMembers<T, K>(cs: seq<T>, key: T -> K, x: T)
    ensures x in Firsts(cs, key) <==> exists i :: 0 <= i < |cs| && cs[i] == x && FirstOfKey(cs, key, i)
    decreases |cs|
  {
    if cs != [] {
      var n := |cs| - 1;
      var p := cs[..n];
      FirstsMembers(p, key, x);
      var last: seq<T> := if FirstOfKey(cs, key, n) then [cs[n]] else [];
      assert Firsts(cs, key) == Firsts(p, key) + last;
      if x in Firsts(cs, key) {
        if x in Firsts(p, key) {
          var i :| 0 <= i < |p| && p[i] == x && FirstOfKey(p, key, i);
          FirstOfPrefix(cs, key, n, i);
        } else {
          assert x == cs[n] && FirstOfKey(cs, key, n);
        }
      } else {
        forall i | 0 <= i < |cs| && cs[i] == x
          ensures !FirstOfKey(cs, key, i)
        {
          if i < n {
            FirstOfPrefix(cs, key, n, i);
            assert p[i] == x;
          }
        }
      }
    }
  }

  /** Coming first for a key does not depend on what follows. */
  lemma FirstOfPrefix<T, K>(cs: seq<T>, key: T -> K, n: nat, i: nat)
    requires i < n <= |cs|
    ensures cs[..n][i] == cs[i]
    ensures FirstOfKey(cs[..n], key, i) <==> FirstOfKey(cs, key, i)
  {
    assert forall j :: 0 <= j <= i ==> cs[..n][j] == cs[j];
  }

  /** `cmd_consolidate`'s loop over a list and its `seen` set. */
  method FirstsLoop<T(==), K(==)>(changes: seq<T>, key: T -> K) returns (consolidated: seq<T>)
    ensures consolidated == Firsts(changes, key)
  {
    var seen: set<K> := {};
    consolidated := [];
    for i := 0 to |changes|
      invariant consolidated == Firsts(changes[..i], key)
      invariant seen == KeysOf(changes[..i], key)
    {
      var prefix := changes[..i + 1];
      assert prefix[..i] == changes[..i] && prefix == changes[..i] + [changes[i]];
      KeysOfSnoc(changes[..i], changes[i], key);
      FirstIffUnseen(prefix, key, i);
      var k := key(changes[i]);
      if k !in seen {
        seen := seen + {k};
        consolidated := consolidated + [changes[i]];
      }
    }
    assert changes[..|changes|] == changes;
  }

  // ---------------------------------------------------------------------------
  // The key of a pending spec

  /** `(ch["title"], tuple(sorted(it["path"] for it in ch.get("items", []))))`.
      Two sorted tuples of strings are equal exactly when they hold the same
      strings the same number of times, so the key keeps the paths as a multiset. */
  datatype Key = Key(title: Option<Value>, paths: multiset<Value>)

  /** `ch.get("items", [])`. */
  function ItemsOf(ch: Dict): seq<Value> {
    if "items" in ch && ch["items"].JArr? then ch["items"].items else []
  }

  predicate HasPath(it: Value) {
    it.JObj? && "path" in it.fields && it.fields["path"].JStr?
  }

  /** A spec whose key `cmd_consolidate` computes without raising: it has a
      title, and its items, when present, form a list of dicts with string paths. */
  predicate Keyed(ch: Dict) {
    && "title" in ch
    && ("items" in ch ==> ch["items"].JArr?)
    && forall i :: 0 <= i < |ItemsOf(ch)| ==> HasPath(ItemsOf(ch)[i])
  }

  predicate AllKeyed(cs: seq<Dict>) {
    forall i :: 0 <= i < |cs| ==> Keyed(cs[i])
  }

  lemma AllKeyedAppend(a: seq<Dict>, b: seq<Dict>)
    requires AllKeyed(a) && AllKeyed(b)
    ensures AllKeyed(a + b)
  {
    forall i | 0 <= i < |a + b|
      ensures Keyed((a + b)[i])
    {
      if i >= |a| {
        assert (a + b)[i] == b[i - |a|];
      }
    }
  }

  /** The assistant message a turn persists. */
  function AssistantMessage(text: string): Dict {
    map["type" := JStr("message"), "role" := JStr("assistant"), "content" := JStr(text)]
  }

  function PathBag(items: seq<Value>): multiset<Value>
    decreases |items|
  {
    if items == [] then multiset{}
    else
      var it := items[|items| - 1];
      PathBag(items[..|items| - 1]) + (if it.JObj? && "path" in it.fields then multiset{it.fields["path"]} else multiset{})
  }

  function KeyOf(ch: Dict): Key {
    Key(Get(ch, "title"), PathBag(ItemsOf(ch)))
  }

  /** The every-third-batch trigger of `auto_consolidate_if_needed`. */
  predicate AutoDue(n: int) {
    n >= 3 && n % 3 == 0
  }

  // ---------------------------------------------------------------------------
  // discard

  /** `[c for c in pending if c.get("id") != change_id]`. */
  predicate Discarded(c: Dict, id: string) {
    Get(c, "id") == Some(JStr(id))
  }

  function Without(cs: seq<Dict>, id: string): (r: seq<Dict>)
    decreases |cs|
  {
    if cs == [] then []
    else
      var n := |cs| - 1;
      Without(cs[..n], id) + (if Discarded(cs[n], id) then [] else [cs[n]])
  }

  /** Exactly the specs with another id (or none) stay. */
  lemma {:induction false} WithoutMembers(cs: seq<Dict>, id: string, x: Dict)
    ensures x in Without(cs, id) <==> x in cs && !Discarded(x, id)
    decreases |cs|
  {
    if cs != [] {
      var n := |cs| - 1;
      WithoutMembers(cs[..n], id, x);
      assert cs == cs[..n] + [cs[n]];
    }
  }

  /** The list keeps its length exactly when no spec carries the id. */
  lemma {:induction false} WithoutLength(cs: seq<Dict>, id: string)
    ensures |Without(cs, id)| <= |cs|
    ensures |Without(cs, id)| == |cs| <==> forall i :: 0 <= i < |cs| ==> !Discarded(cs[i], id)
    decreases |cs|
  {
    if cs != [] {
      var n := |cs| - 1;
      WithoutLength(cs[..n], id);
      assert forall i :: 0 <= i < n ==> cs[..n][i] == cs[i];
    }
  }

  // ---------------------------------------------------------------------------
  // bootstrap

  /** `_build_bootstrap_message`: a system message whose top-level `type` is `"message"`. */
  function BootstrapMessage(payload: string): Dict {
    map["type" := JStr("message"), "role" := JStr("system"), "content" := JStr(payload)]
  }

  /** `history[0].get("type") == "orion_bootstrap"`. */
  predicate HeadIsBootstrap(history: seq<Dict>) {
    history != [] && Get(history[0], "type") == Some(JStr("orion_bootstrap"))
  }

  /** The history after `_ensure_bootstrap`: the head replaced when it is tagged as a bootstrap, else the message inserted in front. */
  function Bootstrapped(history: seq<Dict>, msg: Dict): seq<Dict> {
    if HeadIsBootstrap(history) then [msg] + history[1..] else [msg] + history
  }

  /** The message built never carries the tag the test looks for, so every
      call inserts one more message and none is ever replaced. */
  lemma BootstrapAlwaysInserts(history: seq<Dict>, p: string, q: string)
    ensures !HeadIsBootstrap(Bootstrapped(history, BootstrapMessage(p)))
    ensures Bootstrapped([BootstrapMessage(p)] + history, BootstrapMessage(q))
      == [BootstrapMessage(q), BootstrapMessage(p)] + history
  {
    BootstrapUntagged(p);
    var h := [BootstrapMessage(p)] + history;
    assert h[0] == BootstrapMessage(p);
    assert Bootstrapped(history, BootstrapMessage(p))[0] == BootstrapMessage(p);
    assert [BootstrapMessage(q)] + h == [BootstrapMessage(q), BootstrapMessage(p)] + history;
  }

  lemma BootstrapUntagged(p: string)
    ensures Get(BootstrapMessage(p), "type") != Some(JStr("orion_bootstrap"))
  {
    assert BootstrapMessage(p)["type"] == JStr("message");
    assert |"message"| != |"orion_bootstrap"|;
  }

  // ---------------------------------------------------------------------------
  // LINE_CAP split follow-ups

  /** A file `cmd_apply` wrote, with the text written. */
  datatype Written = Written(path: string, code: string)

  /** Each written path names a file: `with_name` raises for a path without a
      name, and writing to such a path has already failed. */
  predicate Named(files: seq<Written>) {
    forall i :: 0 <= i < |files| ==> Paths.Parts(files[i].path) != []
  }

  /** `f"{stem}_part2{ext}"`. */
  function PartTwoName(name: string): string {
    Paths.Stem(name) + "_part2" + Paths.Suffix(name)
  }

  /** A component name gives a component name six characters longer. */
  lemma PartTwoNameClean(name: string)
    requires name != "" && '/' !in name
    ensures PartTwoName(name) != "" && PartTwoName(name) != "." && '/' !in PartTwoName(name)
    ensures |PartTwoName(name)| == |name| + 6
  {
    var n := PartTwoName(name);
    var st := Paths.Stem(name);
    Paths.StemAndSuffix(name);
    forall k | 0 <= k < |n|
      ensures n[k] != '/'
    {
      if k < |st| {
        assert n[k] == name[k];
      } else if k >= |st| + 6 {
        assert n[k] == name[k - 6];
      }
    }
  }

  /** `normalize_path(str(Path(path).with_name(f"{stem}_part2{ext}")))`. */
  function PartTwo(path: string): string {
    Paths.NormalizePath(Paths.WithName(path, PartTwoName(Paths.Name(path))))
  }

  /** The second part sits in the file's directory under the new name. */
  lemma PartTwoParts(path: string)
    requires Paths.Parts(path) != []
    ensures Paths.Parts(path) == Paths.DirParts(path) + [Paths.Name(path)]
    ensures Paths.Parts(PartTwo(path)) == Paths.DirParts(path) + [PartTwoName(Paths.Name(path))]
  {
    var name := Paths.Name(path);
    Paths.NameParts(path);
    PartTwoNameClean(name);
    var w := Paths.WithName(path, PartTwoName(name));
    Paths.WithNameParts(path, PartTwoName(name));
    Paths.PartsOfNormalize(w);
  }

  /** The split never names the file it splits. */
  lemma SplitTargets(path: string)
    requires Paths.Parts(path) != []
    ensures Paths.Parts(Paths.NormalizePath(path)) == Paths.Parts(path)
    ensures Paths.Parts(Paths.NormalizePath(PartTwo(path))) == Paths.DirParts(path) + [PartTwoName(Paths.Name(path))]
    ensures Paths.NormalizePath(path) != Paths.NormalizePath(PartTwo(path))
  {
    PartTwoParts(path);
    Paths.PartsOfNormalize(path);
    Paths.PartsOfNormalize(PartTwo(path));
    var name := Paths.Name(path);
    Paths.PartsClean(path);
    PartTwoNameClean(name);
    var dirs := Paths.DirParts(path);
    assert (dirs + [PartTwoName(name)])[|dirs|] != (dirs + [name])[|dirs|];
  }

  /** An item as `make_change_item` builds it. */
  function Item(path: string, t: Models.ChangeType, summary: string): Value {
    JObj(Models.DumpItem(Models.ChangeItem(Paths.NormalizePath(path), t, summary)))
  }

  function ReduceSummary(lines: nat, cap: int): string {
    "Reduce lines from " + NatStr(lines) + " to below " + IntStr(cap)
  }

  /** The spec queued for a file over the line cap. */
  function SplitSpec(f: Written, cap: int, id: string): Dict {
    map["id" := JStr(id),
        "title" := JStr("Split " + f.path + " to meet LINE_CAP"),
        "description" := JStr("Split required to reduce line count"),
        "items" := JArr([Item(f.path, Models.Modify, ReduceSummary(Paths.CountLines(f.code), cap)),
                         Item(PartTwo(f.path), Models.Create, "Create second part of split")])]
  }

  /** The items are what `make_change_item` builds: modify the file, create its second part. */
  lemma SplitItems(f: Written, cap: int, id: string)
    ensures var items := SplitSpec(f, cap, id)["items"].items;
      && |items| == 2
      && Changes.MakeChangeItem(f.path, "modify", ReduceSummary(Paths.CountLines(f.code), cap)) == Ok(items[0].fields)
      && Changes.MakeChangeItem(PartTwo(f.path), "create", "Create second part of split") == Ok(items[1].fields)
  {
    assert "modify" in Models.ChangeTypeNames && "create" in Models.ChangeTypeNames;
  }

  lemma ItemPath(path: string, t: Models.ChangeType, summary: string)
    ensures HasPath(Item(path, t, summary)) && Item(path, t, summary).fields["path"] == JStr(Paths.NormalizePath(path))
  {
  }

  /** A spec with a title and two items with string paths is keyed by those two paths. */
  lemma TwoItemsKeyed(m: Dict, a: Value, b: Value)
    requires "title" in m && "items" in m && m["items"] == JArr([a, b]) && HasPath(a) && HasPath(b)
    ensures Keyed(m) && KeyOf(m).paths == multiset{a.fields["path"], b.fields["path"]}
  {
    assert ItemsOf(m) == [a, b];
    assert [a, b][..1] == [a] && [a][..0] == [];
    assert PathBag([a]) == multiset{a.fields["path"]};
  }

  lemma SplitKeyed(f: Written, cap: int, id: string)
    ensures Keyed(SplitSpec(f, cap, id))
    ensures KeyOf(SplitSpec(f, cap, id)).paths
      == multiset{JStr(Paths.NormalizePath(f.path)), JStr(Paths.NormalizePath(PartTwo(f.path)))}
  {
    var a := Item(f.path, Models.Modify, ReduceSummary(Paths.CountLines(f.code), cap));
    var b := Item(PartTwo(f.path), Models.Create, "Create second part of split");
    ItemPath(f.path, Models.Modify, ReduceSummary(Paths.CountLines(f.code), cap));
    ItemPath(PartTwo(f.path), Models.Create, "Create second part of split");
    TwoItemsKeyed(SplitSpec(f, cap, id), a, b);
  }

  /** One follow-up per element for which `over` holds, in order; `mk(f, i)`
      is the spec for element `i`. */
  function Splits<T>(files: seq<T>, over: T -> bool, mk: (T, nat) -> Dict): seq<Dict>
    decreases |files|
  {
    if files == [] then []
    else
      var n := |files| - 1;
      Splits(files[..n], over, mk) + (if over(files[n]) then [mk(files[n], n)] else [])
  }

  /** A spec is queued exactly for each element over the cap. */
  lemma {:induction false} SplitsMembers<T>(files: seq<T>, over: T -> bool, mk: (T, nat) -> Dict, x: Dict)
    ensures |Splits(files, over, mk)| <= |files|
    ensures x in Splits(files, over, mk) <==> exists i :: 0 <= i < |files| && over(files[i]) && x == mk(files[i], i)
    decreases |files|
  {
    if files != [] {
      var n := |files| - 1;
      SplitsMembers(files[..n], over, mk, x);
      assert forall i :: 0 <= i < n ==> files[..n][i] == files[i];
    }
  }

  /** Nothing is queued when no element is over the cap. */
  lemma {:induction false} NoSplitsWithinCap<T>(files: seq<T>, over: T -> bool, mk: (T, nat) -> Dict)
    requires forall i :: 0 <= i < |files| ==> !over(files[i])
    ensures Splits(files, over, mk) == []
    decreases |files|
  {
    if files != [] {
      NoSplitsWithinCap(files[..|files| - 1], over, mk);
    }
  }

  function OverCap(cap: int): Written -> bool {
    (f: Written) => Paths.CountLines(f.code) > cap
  }

  function SplitMaker(cap: int, ids: nat -> string): (Written, nat) -> Dict {
    (f: Written, i: nat) => SplitSpec(f, cap, ids(i))
  }

  /** The follow-ups queued for the written files; `ids(i)` is the id drawn for file `i`. */
  function SplitsFor(files: seq<Written>, cap: int, ids: nat -> string): seq<Dict> {
    Splits(files, OverCap(cap), SplitMaker(cap, ids))
  }

  /** One more written file adds its follow-up, if it is over the cap. */
  lemma SplitsForSnoc(files: seq<Written>, i: nat, cap: int, ids: nat -> string)
    requires i < |files|
    ensures SplitsFor(files[..i + 1], cap, ids)
      == SplitsFor(files[..i], cap, ids) + (if Paths.CountLines(files[i].code) > cap then [SplitSpec(files[i], cap, ids(i))] else [])
  {
    var xs := files[..i + 1];
    assert xs[..i] == files[..i] && xs[i] == files[i];
    assert OverCap(cap)(files[i]) == (Paths.CountLines(files[i].code) > cap);
    assert SplitMaker(cap, ids)(files[i], i) == SplitSpec(files[i], cap, ids(i));
  }

  /** The loop over the written files that queues a split for each one over the cap. */
  method SplitsLoop(files: seq<Written>, cap: int, ids: nat -> string) returns (follow: seq<Dict>)
    ensures follow == SplitsFor(files, cap, ids)
  {
    follow := [];
    for i := 0 to |files|
      invariant follow == SplitsFor(files[..i], cap, ids)
    {
      SplitsForSnoc(files, i, cap, ids);
      var f := files[i];
      var lines := Paths.CountLines(f.code);
      if lines > cap {
        follow := follow + [SplitSpec(f, cap, ids(i))];
      }
    }
    assert files[..|files|] == files;
  }

  lemma {:induction false} SplitsKeyed<T>(files: seq<T>, over: T -> bool, mk: (T, nat) -> Dict)
    requires forall f, i :: Keyed(mk(f, i))
    ensures AllKeyed(Splits(files, over, mk))
    decreases |files|
  {
    if files != [] {
      SplitsKeyed(files[..|files| - 1], over, mk);
    }
  }

  /** Split follow-ups can be consolidated. */
  lemma SplitsForKeyed(files: seq<Written>, cap: int, ids: nat -> string)
    ensures AllKeyed(SplitsFor(files, cap, ids))
  {
    MakerKeyed(cap, ids);
    SplitsKeyed(files, OverCap(cap), SplitMaker(cap, ids));
  }

  lemma MakerKeyed(cap: int, ids: nat -> string)
    ensures forall f, i :: Keyed(SplitMaker(cap, ids)(f, i))
  {
    forall f, i
      ensures Keyed(SplitMaker(cap, ids)(f, i))
    {
      SplitSpecKeyed(f, cap, ids(i));
      assert SplitMaker(cap, ids)(f, i) == SplitSpec(f, cap, ids(i));
    }
  }

  lemma SplitSpecKeyed(f: Written, cap: int, id: string)
    ensures Keyed(SplitSpec(f, cap, id))
  {
    SplitKeyed(f, cap, id);
  }

  /** Specs dumped from validated `ChangeSpec` records can be consolidated. */
  lemma DumpedKeyed(cs: seq<Models.ChangeSpec>)
    ensures AllKeyed(Changes.DumpAll(cs))
  {
    forall i | 0 <= i < |cs|
      ensures Keyed(Changes.DumpAll(cs)[i])
    {
      var ch := Changes.DumpAll(cs)[i];
      assert ch == Models.DumpSpec(cs[i]);
      assert ItemsOf(ch) == Models.DumpItems(cs[i].items);
    }
  }

  // ---------------------------------------------------------------------------
  // cmd_apply after the model has answered

  const CodeAttributeError := "AttributeError: 'FileContents' object has no attribute 'code'"

  /** `cmd_apply` in `orion/workbench/main.py`, as written: the write loop
      reads `f.code`, which the workbench `FileContents` lacks, so any file
      raises before the first write (`orion/orion.py` reads `f.code` too, but
      its `FileContents` comes from `orion/models.py`, which is not part of
      this model); with no files the pending list is cleared
      and nothing is queued. `None` stands for the incompatible answer, which
      leaves the pending list alone. */
  function PendingAfterApply(resp: Models.ApplyResponse): Result<Option<seq<Dict>>> {
    if resp.mode.ModeIncompatible? then Ok(None)
    else if resp.files != [] then Err(CodeAttributeError)
    else Ok(Some([]))
  }

  function WrittenFiles(files: seq<Models.FileContents>): (r: seq<Written>)
    ensures |r| == |files|
    ensures forall i :: 0 <= i < |files| ==> r[i] == Written(files[i].path, files[i].contents)
  {
    if files == [] then [] else [Written(files[0].path, files[0].contents)] + WrittenFiles(files[1..])
  }

  /** The same step with the file text taken from `contents`, as
      `sutradhar/editor.py` does with its `code` key: the list is cleared and
      one split is queued per file over the cap. */
  function PendingAfterApplyIntended(resp: Models.ApplyResponse, cap: int, ids: nat -> string): Option<seq<Dict>> {
    if resp.mode.ModeIncompatible? then None
    else Some(SplitsFor(WrittenFiles(resp.files), cap, ids))
  }

  /** A file over the cap raises instead of being split; the intended step queues its split. */
  lemma OversizedFileIsNeverSplit(resp: Models.ApplyResponse, cap: int, ids: nat -> string, i: nat)
    requires resp.mode.ModeOk? && i < |resp.files| && Paths.CountLines(resp.files[i].contents) > cap
    ensures PendingAfterApply(resp) == Err(CodeAttributeError)
    ensures SplitSpec(Written(resp.files[i].path, resp.files[i].contents), cap, ids(i))
      in PendingAfterApplyIntended(resp, cap, ids).value
  {
    var ws := WrittenFiles(resp.files);
    assert OverCap(cap)(ws[i]);
    SplitsMembers(ws, OverCap(cap), SplitMaker(cap, ids), SplitMaker(cap, ids)(ws[i], i));
  }

  // ---------------------------------------------------------------------------
  // The session

  /** The metadata fields one `save_metadata` call writes that these commands change. */
  datatype Snapshot = Snapshot(pending: seq<Dict>, counter: int, commitLog: seq<Dict>)

  class Session {
    /** `md["pending_changes"]`. */
    var pending: seq<Dict>
    /** `md["batches_since_last_consolidation"]`. */
    var counter: int
    /** `md["plan_state"]["commit_log"]`. */
    var commitLog: seq<Dict>
    /** `self.history`. */
    var history: seq<Dict>
    /** The messages persisted to the conversation file since it was last rotated. */
    var conversation: seq<Dict>
    /** Every metadata save, oldest first. */
    var saved: seq<Snapshot>

    constructor(pending: seq<Dict>, counter: int, commitLog: seq<Dict>, history: seq<Dict>)
      ensures this.pending == pending && this.counter == counter && this.commitLog == commitLog
      ensures this.history == history && conversation == history && saved == []
    {
      this.pending := pending;
      this.counter := counter;
      this.commitLog := commitLog;
      this.history := history;
      conversation := history;
      saved := [];
    }

    function Current(): Snapshot
      reads this
    {
      Snapshot(pending, counter, commitLog)
    }

    /** `cmd_consolidate`; the key raises for a spec that is not `Keyed`. */
    method Consolidate()
      requires AllKeyed(pending)
      modifies this
      ensures pending == Firsts(old(pending), KeyOf) && counter == 0
      ensures saved == old(saved) + [Snapshot(pending, 0, commitLog)]
      ensures commitLog == old(commitLog) && history == old(history) && conversation == old(conversation)
    {
      pending := FirstsLoop(pending, KeyOf);
      counter := 0;
      saved := saved + [Current()];
    }

    /** `auto_consolidate_if_needed`. */
    method AutoConsolidateIfNeeded()
      requires AllKeyed(pending)
      modifies this
      ensures AutoDue(old(counter)) ==>
        && pending == Firsts(old(pending), KeyOf) && counter == 0
        && saved == old(saved) + [Snapshot(pending, 0, commitLog)]
      ensures !AutoDue(old(counter)) ==> pending == old(pending) && counter == old(counter) && saved == old(saved)
      ensures commitLog == old(commitLog) && history == old(history) && conversation == old(conversation)
    {
      if AutoDue(counter) {
        Consolidate();
      }
    }

    /** `cmd_discard_change`: true when something was removed, and only then saved. */
    method DiscardChange(id: string) returns (removed: bool)
      modifies this
      ensures pending == Without(old(pending), id)
      ensures removed <==> exists i :: 0 <= i < |old(pending)| && Discarded(old(pending)[i], id)
      ensures saved == if removed then old(saved) + [Snapshot(pending, counter, commitLog)] else old(saved)
      ensures counter == old(counter) && commitLog == old(commitLog)
      ensures history == old(history) && conversation == old(conversation)
    {
      var before := |pending|;
      WithoutLength(pending, id);
      pending := Without(pending, id);
      removed := before != |pending|;
      if removed {
        saved := saved + [Current()];
      }
    }

    /** The end of a conversation turn in `handle_user_input`: the assistant
        message is persisted and kept, and a non-empty list of changes is
        appended, counted as one batch, saved, and may trigger consolidation. */
    method FinishTurn(assistant: string, changes: seq<Dict>)
      requires AllKeyed(pending) && AllKeyed(changes)
      modifies this
      ensures history == old(history) + [AssistantMessage(assistant)]
      ensures conversation == old(conversation) + [AssistantMessage(assistant)]
      ensures changes == [] ==> pending == old(pending) && counter == old(counter) && saved == old(saved)
      ensures changes != [] && !AutoDue(old(counter) + 1) ==>
        && pending == old(pending) + changes && counter == old(counter) + 1
        && saved == old(saved) + [Snapshot(pending, counter, commitLog)]
      ensures changes != [] && AutoDue(old(counter) + 1) ==>
        && pending == Firsts(old(pending) + changes, KeyOf) && counter == 0
        && saved == old(saved) + [Snapshot(old(pending) + changes, old(counter) + 1, commitLog), Snapshot(pending, 0, commitLog)]
      ensures commitLog == old(commitLog)
    {
      var msg := AssistantMessage(assistant);
      conversation := conversation + [msg];
      history := history + [msg];
      if changes != [] {
        AllKeyedAppend(pending, changes);
        pending := pending + changes;
        counter := counter + 1;
        saved := saved + [Current()];
        AutoConsolidateIfNeeded();
      }
    }

    /** `_ensure_bootstrap` (summary refreshes aside). */
    method EnsureBootstrap(payload: string)
      modifies this
      ensures history == Bootstrapped(old(history), BootstrapMessage(payload))
      ensures conversation == if HeadIsBootstrap(old(history)) then old(conversation)
                              else old(conversation) + [BootstrapMessage(payload)]
      ensures pending == old(pending) && counter == old(counter) && saved == old(saved) && commitLog == old(commitLog)
    {
      var msg := BootstrapMessage(payload);
      if history == [] || Get(history[0], "type") != Some(JStr("orion_bootstrap")) {
        conversation := conversation + [msg];
        history := [msg] + history;
      } else {
        history := [msg] + history[1..];
      }
    }

    /** The bookkeeping after the writes of `cmd_apply`, as `sutradhar/editor.py`
        runs it: the commit log entry and a save, the conversation rotated and
        the history emptied, the pending list and the counter reset and saved,
        then one split follow-up per written file over `cap`, saved when there
        is any. */
    method FinishApply(files: seq<Written>, commit: Dict, cap: int, ids: nat -> string) returns (added: nat)
      requires Named(files)
      modifies this
      ensures commitLog == old(commitLog) + [commit]
      ensures history == [] && conversation == [] && counter == 0
      ensures pending == SplitsFor(files, cap, ids) && added == |pending|
      ensures saved == old(saved) + [Snapshot(old(pending), old(counter), commitLog), Snapshot([], 0, commitLog)]
                       + (if added == 0 then [] else [Snapshot(pending, 0, commitLog)])
    {
      commitLog := commitLog + [commit];
      saved := saved + [Current()];
      conversation := [];
      history := [];
      pending := [];
      counter := 0;
      saved := saved + [Current()];
      var follow := SplitsLoop(files, cap, ids);
      pending := follow;
      added := |follow|;
      if added > 0 {
        saved := saved + [Current()];
      }
    }

    /** `cmd_apply` of `orion/workbench/main.py` once the answer has been
        validated. `orion/orion.py` reads `f.code` at the same two places; its
        `FileContents` comes from `orion/models.py`, which is not part of this
        model. */
    method ApplyAsWritten(resp: Models.ApplyResponse, commit: Dict) returns (r: Result<()>)
      modifies this
      ensures r.Err? <==> PendingAfterApply(resp).Err?
      ensures r.Err? ==> r.msg == CodeAttributeError
      ensures PendingAfterApply(resp) != Ok(Some([])) ==>
        pending == old(pending) && counter == old(counter) && saved == old(saved) && commitLog == old(commitLog)
        && history == old(history) && conversation == old(conversation)
      ensures PendingAfterApply(resp) == Ok(Some([])) ==>
        && pending == [] && counter == 0 && history == [] && conversation == []
        && commitLog == old(commitLog) + [commit]
        && saved == old(saved) + [Snapshot(old(pending), old(counter), commitLog), Snapshot([], 0, commitLog)]
    {
      if resp.mode.ModeIncompatible? {
        return Ok(());
      }
      if resp.files != [] {
        return Err(CodeAttributeError);
      }
      var added := FinishApply([], commit, 0, _ => "");
      return Ok(());
    }

    /** The same command reading the file text from `contents`. */
    method ApplyIntended(resp: Models.ApplyResponse, commit: Dict, cap: int, ids: nat -> string)
      requires Named(WrittenFiles(resp.files))
      modifies this
      ensures PendingAfterApplyIntended(resp, cap, ids).None? ==>
        pending == old(pending) && counter == old(counter) && saved == old(saved) && commitLog == old(commitLog)
        && history == old(history) && conversation == old(conversation)
      ensures PendingAfterApplyIntended(resp, cap, ids).Some? ==>
        && pending == PendingAfterApplyIntended(resp, cap, ids).value && counter == 0
        && history == [] && conversation == [] && commitLog == old(commitLog) + [commit]
    {
      if resp.mode.ModeOk? {
        var added := FinishApply(WrittenFiles(resp.files), commit, cap, ids);
      }
    }
  }
}
