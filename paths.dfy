/** Path and text helpers of `sutradhar/fs.py`: `normalize_path` (the POSIX
    rules of `pathlib.Path(p).as_posix()`), `count_lines` and
    `colocated_summary_path`. */
module Paths {

  /** `s.split(sep)`: the pieces between separators, always at least one. */
  function SplitOn(s: string, sep: char): (r: seq<string>)
    ensures |r| >= 1
    decreases |s|
  {
    if s == [] then [""]
    else if s[0] == sep then [""] + SplitOn(s[1..], sep)
    else var rest := SplitOn(s[1..], sep); [[s[0]] + rest[0]] + rest[1..]
  }

  /** No piece contains the separator. */
  lemma {:induction false} SplitOnPieces(s: string, sep: char)
    ensures forall i :: 0 <= i < |SplitOn(s, sep)| ==> sep !in SplitOn(s, sep)[i]
    decreases |s|
  {
    if s != [] {
      SplitOnPieces(s[1..], sep);
    }
  }

  /** `sep.join(ps)`. */
  function JoinWith(ps: seq<string>, sep: char): string
    decreases |ps|
  {
    if ps == [] then "" else if |ps| == 1 then ps[0] else ps[0] + [sep] + JoinWith(ps[1..], sep)
  }

  /** Splitting undoes joining when no piece contains the separator. */
  lemma {:induction false} SplitOnJoin(ps: seq<string>, sep: char)
    requires |ps| >= 1 && forall i :: 0 <= i < |ps| ==> sep !in ps[i]
    ensures SplitOn(JoinWith(ps, sep), sep) == ps
    decreases |ps|
  {
    if |ps| == 1 {
      SplitOnPlain(ps[0], sep);
    } else {
      SplitOnJoin(ps[1..], sep);
      SplitOnHead(ps[0], JoinWith(ps[1..], sep), sep);
      assert ps == [ps[0]] + ps[1..];
    }
  }

  lemma {:induction false} SplitOnPlain(a: string, sep: char)
    requires sep !in a
    ensures SplitOn(a, sep) == [a]
    decreases |a|
  {
    if a != [] {
      SplitOnPlain(a[1..], sep);
      assert [a[0]] + a[1..] == a;
    }
  }

  lemma {:induction false} SplitOnHead(a: string, rest: string, sep: char)
    requires sep !in a
    ensures SplitOn(a + [sep] + rest, sep) == [a] + SplitOn(rest, sep)
    decreases |a|
  {
    if a == [] {
      assert a + [sep] + rest == [sep] + rest;
      assert ([sep] + rest)[1..] == rest;
    } else {
      SplitOnHead(a[1..], rest, sep);
      assert (a + [sep] + rest)[1..] == a[1..] + [sep] + rest;
      assert [a[0]] + a[1..] == a;
    }
  }

  // ---------------------------------------------------------------------------
  // normalize_path

  /** The path's anchor: exactly two leading slashes are kept as `//`, one or
      three and more become `/`. */
  function Root(p: string): (r: string)
    ensures r == "" || r == "/" || r == "//"
  {
    if |p| >= 2 && p[0] == '/' && p[1] == '/' && (|p| == 2 || p[2] != '/') then "//"
    else if |p| >= 1 && p[0] == '/' then "/"
    else ""
  }

  /** Empty and `.` components vanish; `..` stays. */
  function Keep(segs: seq<string>): seq<string>
    decreases |segs|
  {
    if segs == [] then []
    else (if segs[0] == "" || segs[0] == "." then [] else [segs[0]]) + Keep(segs[1..])
  }

  /** The components of a path. */
  function Parts(p: string): seq<string> {
    Keep(SplitOn(p, '/'))
  }

  /** Components are non-empty, not `.`, and free of separators. */
  predicate Clean(ps: seq<string>) {
    forall i :: 0 <= i < |ps| ==> ps[i] != "" && ps[i] != "." && '/' !in ps[i]
  }

  lemma {:induction false} KeepPieces(segs: seq<string>)
    requires forall i :: 0 <= i < |segs| ==> '/' !in segs[i]
    ensures Clean(Keep(segs))
    decreases |segs|
  {
    if segs != [] {
      KeepPieces(segs[1..]);
    }
  }

  lemma PartsClean(p: string)
    ensures Clean(Parts(p))
  {
    SplitOnPieces(p, '/');
    KeepPieces(SplitOn(p, '/'));
  }

  /** `normalize_path`. */
  function NormalizePath(p: string): string {
    var root := Root(p);
    var ps := Parts(p);
    if root == "" && ps == [] then "." else root + JoinWith(ps, '/')
  }

  lemma {:induction false} KeepClean(segs: seq<string>)
    requires forall i :: 0 <= i < |segs| ==> segs[i] != "" && segs[i] != "."
    ensures Keep(segs) == segs
    decreases |segs|
  {
    if segs != [] {
      KeepClean(segs[1..]);
      assert [segs[0]] + segs[1..] == segs;
    }
  }

  /** The components of `root + join(ps)` are `ps`. */
  lemma PartsOfJoin(root: string, ps: seq<string>)
    requires root == "" || root == "/" || root == "//"
    requires Clean(ps)
    ensures Parts(root + JoinWith(ps, '/')) == ps
  {
    var x := JoinWith(ps, '/');
    if ps == [] {
      assert SplitOn("", '/') == [""];
    } else {
      SplitOnJoin(ps, '/');
      KeepClean(ps);
    }
    assert Keep(SplitOn(x, '/')) == ps;
    if root == "/" {
      assert SplitOn(root + x, '/') == [""] + SplitOn(x, '/') by { assert (root + x)[1..] == x; }
      assert Keep([""] + SplitOn(x, '/')) == Keep(SplitOn(x, '/')) by { assert ([""] + SplitOn(x, '/'))[1..] == SplitOn(x, '/'); }
    } else if root == "//" {
      assert (root + x)[1..] == "/" + x;
      assert ("/" + x)[1..] == x;
      assert SplitOn(root + x, '/') == [""] + ([""] + SplitOn(x, '/'));
      assert ([""] + ([""] + SplitOn(x, '/')))[1..] == [""] + SplitOn(x, '/');
      assert ([""] + SplitOn(x, '/'))[1..] == SplitOn(x, '/');
    } else {
      assert root + x == x;
    }
  }

  lemma JoinStartsWithPart(ps: seq<string>)
    requires ps != [] && ps[0] != ""
    ensures |JoinWith(ps, '/')| > 0 && JoinWith(ps, '/')[0] == ps[0][0]
  {
  }

  /** Normalising twice is normalising once. */
  lemma NormalizeIdempotent(p: string)
    ensures NormalizePath(NormalizePath(p)) == NormalizePath(p)
  {
    var root := Root(p);
    var ps := Parts(p);
    PartsClean(p);
    if root == "" && ps == [] {
      SplitOnPlain(".", '/');
      assert Parts(".") == [];
    } else {
      var q := root + JoinWith(ps, '/');
      PartsOfJoin(root, ps);
      if ps != [] {
        JoinStartsWithPart(ps);
        assert '/' !in ps[0];
        assert ps[0][0] != '/' by { assert ps[0][0] in ps[0]; }
        assert q[|root|] == ps[0][0];
      } else {
        assert q == root;
      }
      assert Root(q) == root;
    }
  }

  /** Redundant separators and `.` components disappear; `..` stays. */
  lemma NormalizeDropsDots()
    ensures NormalizePath("a/./b") == "a/b"
  {
    SplitDots();
    KeepDots();
    assert JoinWith(["a", "b"], '/') == "a/b";
  }

  lemma SplitDots()
    ensures SplitOn("a/./b", '/') == ["a", ".", "b"]
  {
    SplitOnPlain("b", '/');
    SplitOnHead(".", "b", '/');
    SplitOnHead("a", "./b", '/');
    assert "." + "/" + "b" == "./b";
    assert "a" + "/" + "./b" == "a/./b";
  }

  lemma KeepDots()
    ensures Keep(["a", ".", "b"]) == ["a", "b"]
  {
    var segs := ["a", ".", "b"];
    assert segs[1..] == [".", "b"] && segs[1..][1..] == ["b"];
    assert Keep(["b"]) == ["b"];
  }

  lemma NormalizeKeepsParent()
    ensures NormalizePath("../a") == "../a"
  {
    SplitOnPlain("a", '/');
    SplitOnHead("..", "a", '/');
    assert ".." + "/" + "a" == "../a";
    assert Parts("../a") == ["..", "a"];
  }

  lemma NormalizeEmpty()
    ensures NormalizePath("") == "."
  {
  }

  /** Three leading slashes collapse to one, two are kept. */
  lemma NormalizeLeadingSlashes()
    ensures Root("///x") == "/" && Root("//x") == "//"
  {
  }

  // ---------------------------------------------------------------------------
  // count_lines

  function CountChar(s: string, c: char): (r: nat)
    ensures r <= |s|
    decreases |s|
  {
    if s == [] then 0 else (if s[0] == c then 1 else 0) + CountChar(s[1..], c)
  }

  /** `count_lines`: newlines, plus one for a last line without its newline. */
  function CountLines(s: string): nat {
    if s == "" then 0 else CountChar(s, '\n') + (if s[|s| - 1] == '\n' then 0 else 1)
  }

  /** The lines of a text: the pieces between newlines, without the empty piece
      after a final newline. */
  function TextLines(s: string): seq<string> {
    var pieces := SplitOn(s, '\n');
    if pieces[|pieces| - 1] == "" then pieces[..|pieces| - 1] else pieces
  }

  lemma {:induction false} SplitOnCount(s: string, sep: char)
    ensures |SplitOn(s, sep)| == CountChar(s, sep) + 1
    ensures (SplitOn(s, sep)[|SplitOn(s, sep)| - 1] == "") <==> (s == [] || s[|s| - 1] == sep)
    decreases |s|
  {
    if s != [] {
      SplitOnCount(s[1..], sep);
      if s[0] != sep && |s| > 1 {
        var rest := SplitOn(s[1..], sep);
        assert |rest| == 1 ==> [s[0]] + rest[0] != "";
      }
    }
  }

  /** `count_lines` counts exactly the lines of the text. */
  lemma CountLinesIsLines(s: string)
    ensures CountLines(s) == |TextLines(s)|
  {
    SplitOnCount(s, '\n');
  }

  // ---------------------------------------------------------------------------
  // colocated_summary_path

  /** `a/b/c.ext` → `a/b/.orion/c.ext.json`, relative to the repository root
      (the final `resolve()` is filesystem work and is not modelled). */
  function ColocatedSummaryPath(rel: string): string {
    var ps := Parts(rel);
    var dir := if ps == [] then [] else ps[..|ps| - 1];
    var name := if ps == [] then "" else ps[|ps| - 1];
    Root(rel) + JoinWith(dir + [".orion", name + ".json"], '/')
  }

  /** The summary sits in the `.orion` folder beside the file, named after it. */
  lemma ColocatedParts(rel: string)
    requires Parts(rel) != []
    ensures var ps := Parts(rel);
      Parts(ColocatedSummaryPath(rel)) == ps[..|ps| - 1] + [".orion", ps[|ps| - 1] + ".json"]
  {
    var ps := Parts(rel);
    PartsClean(rel);
    var out := ps[..|ps| - 1] + [".orion", ps[|ps| - 1] + ".json"];
    assert Clean(out) by {
      forall i | 0 <= i < |out|
        ensures out[i] != "" && out[i] != "." && '/' !in out[i]
      {
        if i < |ps| - 1 {
          assert out[i] == ps[i];
        } else if i == |ps| {
          assert out[i] == ps[|ps| - 1] + ".json";
          assert out[i][|out[i]| - 1] == 'n';
          assert '/' !in ps[|ps| - 1];
        }
      }
    }
    PartsOfJoin(Root(rel), out);
  }

  // ---------------------------------------------------------------------------
  // pathlib name helpers: `stem`, `suffix` and `with_name`

  /** Normalising keeps the components. */
  lemma PartsOfNormalize(p: string)
    ensures Parts(NormalizePath(p)) == Parts(p)
  {
    PartsClean(p);
    if Root(p) == "" && Parts(p) == [] {
      SplitOnPlain(".", '/');
    } else {
      PartsOfJoin(Root(p), Parts(p));
    }
  }

  /** `s.rfind(c)`: the index of the last `c`, or -1. */
  function LastIndexOf(s: string, c: char): (r: int)
    ensures -1 <= r < |s|
    ensures r >= 0 ==> s[r] == c && forall j :: r < j < |s| ==> s[j] != c
    ensures r == -1 ==> c !in s
    decreases |s|
  {
    if s == [] then -1 else if s[|s| - 1] == c then |s| - 1 else LastIndexOf(s[..|s| - 1], c)
  }

  /** `PurePath.suffix`: from the last dot on, unless the dot leads or ends the name. */
  function Suffix(name: string): string {
    var i := LastIndexOf(name, '.');
    if 0 < i < |name| - 1 then name[i..] else ""
  }

  /** `PurePath.stem`: the name without its suffix. */
  function Stem(name: string): string {
    var i := LastIndexOf(name, '.');
    if 0 < i < |name| - 1 then name[..i] else name
  }

  /** A suffix is empty or a dot followed by at least one dot-free character,
      and the stem and suffix together give back the name. */
  lemma StemAndSuffix(name: string)
    ensures Stem(name) + Suffix(name) == name
    ensures Suffix(name) == "" || (|Suffix(name)| >= 2 && Suffix(name)[0] == '.' && '.' !in Suffix(name)[1..])
    ensures name != "" ==> Stem(name) != ""
  {
    var i := LastIndexOf(name, '.');
    if 0 < i < |name| - 1 {
      assert name[..i] + name[i..] == name;
      forall k | 0 <= k < |name[i..][1..]|
        ensures name[i..][1..][k] != '.'
      {
        assert name[i..][1..][k] == name[i + 1 + k];
      }
    }
  }

  /** The last component, and the ones before it. */
  function Name(p: string): string {
    var ps := Parts(p);
    if ps == [] then "" else ps[|ps| - 1]
  }

  function DirParts(p: string): seq<string> {
    var ps := Parts(p);
    if ps == [] then [] else ps[..|ps| - 1]
  }

  /** A path with components is its directory components and its name, which is a clean component. */
  lemma NameParts(p: string)
    requires Parts(p) != []
    ensures Parts(p) == DirParts(p) + [Name(p)]
    ensures Name(p) != "" && Name(p) != "." && '/' !in Name(p)
  {
    PartsClean(p);
    LastOfClean(Parts(p));
  }

  lemma LastOfClean(ps: seq<string>)
    requires ps != [] && Clean(ps)
    ensures ps == ps[..|ps| - 1] + [ps[|ps| - 1]]
    ensures var n := ps[|ps| - 1]; n != "" && n != "." && '/' !in n
  {
    assert ps == ps[..|ps| - 1] + [ps[|ps| - 1]];
  }

  /** `str(PurePosixPath(p).with_name(n))`, for a path that has a name. */
  function WithName(p: string, n: string): string {
    Root(p) + JoinWith(DirParts(p) + [n], '/')
  }

  /** Renaming keeps the directory and replaces the last component. */
  lemma WithNameParts(p: string, n: string)
    requires n != "" && n != "." && '/' !in n
    ensures Parts(WithName(p, n)) == DirParts(p) + [n]
  {
    PartsClean(p);
    var out := DirParts(p) + [n];
    assert Clean(out) by {
      forall i | 0 <= i < |out|
        ensures out[i] != "" && out[i] != "." && '/' !in out[i]
      {
        if i < |out| - 1 {
          assert out[i] == Parts(p)[i];
        }
      }
    }
    PartsOfJoin(Root(p), out);
  }
}
