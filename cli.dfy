/** The command line of the workbench entry point (`main` in
    `orion/workbench/main.py`): `-h`/`--help` anywhere prints the usage,
    `-e PATH`, `--external-dir PATH` and `--external-dir=PATH` set the external
    directory, any other option aborts, and the first plain argument is the
    repository root. */
module Cli {
  import opened Wrappers

  datatype Parsed =
    | Help
    | Failed(message: string)
    | Run(externalDir: Option<string>, repoRoot: Option<string>)

  const ExternalEq := "--external-dir="

  predicate IsHelp(a: string) {
    a == "-h" || a == "--help"
  }

  /** The `while i < len(args)` loop from the remaining arguments on, with the
      values gathered so far. */
  function Scan(rest: seq<string>, ext: Option<string>, root: Option<string>): Parsed
    decreases |rest|
  {
    if rest == [] then Run(ext, root)
    else
      var a := rest[0];
      if a == "-e" then
        if |rest| < 2 then Failed("error: -e requires a PATH argument") else Scan(rest[2..], Some(rest[1]), root)
      else if a == "--external-dir" then
        if |rest| < 2 then Failed("error: --external-dir requires a PATH argument") else Scan(rest[2..], Some(rest[1]), root)
      else if ExternalEq <= a then Scan(rest[1..], Some(a[|ExternalEq|..]), root)
      else if "-" <= a then Failed("error: unknown option: " + a)
      else Scan(rest[1..], ext, if root.None? then Some(a) else root)
  }

  function Parse(args: seq<string>): Parsed {
    if exists i :: 0 <= i < |args| && IsHelp(args[i]) then Help else Scan(args, None, None)
  }

  /** `pathlib.Path(repo_root_arg) if repo_root_arg else "."` before `resolve()`. */
  function RepoRoot(root: Option<string>): string {
    if root.Some? && root.value != "" then root.value else "."
  }

  /** The parser as the source runs it. */
  method ParseArgs(args: seq<string>) returns (p: Parsed)
    ensures p == Parse(args)
  {
    var help := false;
    for k := 0 to |args|
      invariant help <==> exists j :: 0 <= j < k && IsHelp(args[j])
    {
      if IsHelp(args[k]) {
        help := true;
      }
    }
    if help {
      return Help;
    }
    var ext: Option<string> := None;
    var root: Option<string> := None;
    var i := 0;
    while i < |args|
      invariant 0 <= i <= |args|
      invariant Scan(args[i..], ext, root) == Scan(args, None, None)
    {
      var a := args[i];
      assert args[i..][0] == a;
      if a == "-e" {
        if i + 1 >= |args| {
          return Failed("error: -e requires a PATH argument");
        }
        assert args[i..][2..] == args[i + 2..] && args[i..][1] == args[i + 1];
        ext := Some(args[i + 1]);
        i := i + 2;
        continue;
      }
      if a == "--external-dir" {
        if i + 1 >= |args| {
          return Failed("error: --external-dir requires a PATH argument");
        }
        assert args[i..][2..] == args[i + 2..] && args[i..][1] == args[i + 1];
        ext := Some(args[i + 1]);
        i := i + 2;
        continue;
      }
      assert args[i..][1..] == args[i + 1..];
      if ExternalEq <= a {
        ext := Some(a[|ExternalEq|..]);
        i := i + 1;
        continue;
      }
      if "-" <= a {
        return Failed("error: unknown option: " + a);
      }
      if root.None? {
        root := Some(a);
      }
      i := i + 1;
    }
    assert args[i..] == [];
    return Run(ext, root);
  }

  // ---------------------------------------------------------------------------
  // What the parser promises

  /** Parsing a run of arguments that parses cleanly, then more, continues from
      the values the first run produced. */
  lemma {:induction false} ScanAppend(xs: seq<string>, ys: seq<string>, ext: Option<string>, root: Option<string>)
    requires Scan(xs, ext, root).Run?
    ensures var r := Scan(xs, ext, root); Scan(xs + ys, ext, root) == Scan(ys, r.externalDir, r.repoRoot)
    decreases |xs|
  {
    if xs != [] {
      var a := xs[0];
      assert (xs + ys)[0] == a;
      if a == "-e" || a == "--external-dir" {
        assert (xs + ys)[2..] == xs[2..] + ys;
        assert (xs + ys)[1] == xs[1];
        ScanAppend(xs[2..], ys, Some(xs[1]), root);
      } else {
        assert (xs + ys)[1..] == xs[1..] + ys;
        if ExternalEq <= a {
          ScanAppend(xs[1..], ys, Some(a[|ExternalEq|..]), root);
        } else {
          ScanAppend(xs[1..], ys, ext, if root.None? then Some(a) else root);
        }
      }
    } else {
      assert xs + ys == ys;
    }
  }

  /** The last external-directory flag wins, in each of its three spellings. */
  lemma LastExternalWins(xs: seq<string>, p: string, ys: seq<string>)
    requires Scan(xs, None, None).Run?
    requires forall i :: 0 <= i < |ys| ==> !("-" <= ys[i])
    ensures Scan(xs + ["-e", p] + ys, None, None).Run?
      && Scan(xs + ["-e", p] + ys, None, None).externalDir == Some(p)
    ensures Scan(xs + ["--external-dir", p] + ys, None, None).Run?
      && Scan(xs + ["--external-dir", p] + ys, None, None).externalDir == Some(p)
    ensures Scan(xs + [ExternalEq + p] + ys, None, None).Run?
      && Scan(xs + [ExternalEq + p] + ys, None, None).externalDir == Some(p)
  {
    var r := Scan(xs, None, None);
    PlainKeepsExternal(ys, Some(p), r.repoRoot);
    SpacedFlagThen(xs, "-e", p, ys);
    SpacedFlagThen(xs, "--external-dir", p, ys);
    EqualsFlagThen(xs, p, ys);
  }

  /** `-e DIR` and `--external-dir DIR` are the same option: the directory is the next word. */
  lemma SpacedFlagThen(xs: seq<string>, flag: string, p: string, ys: seq<string>)
    requires flag == "-e" || flag == "--external-dir"
    requires Scan(xs, None, None).Run?
    ensures Scan(xs + [flag, p] + ys, None, None) == Scan(ys, Some(p), Scan(xs, None, None).repoRoot)
  {
    var zs := [flag, p] + ys;
    assert xs + [flag, p] + ys == xs + zs;
    ScanAppend(xs, zs, None, None);
    assert zs[0] == flag && zs[1] == p && zs[2..] == ys;
  }

  lemma EqualsFlagThen(xs: seq<string>, p: string, ys: seq<string>)
    requires Scan(xs, None, None).Run?
    ensures Scan(xs + [ExternalEq + p] + ys, None, None) == Scan(ys, Some(p), Scan(xs, None, None).repoRoot)
  {
    var zs := [ExternalEq + p] + ys;
    assert xs + [ExternalEq + p] + ys == xs + zs;
    ScanAppend(xs, zs, None, None);
    var a := ExternalEq + p;
    assert zs[0] == a && zs[1..] == ys;
    assert ExternalEq <= a && a[|ExternalEq|..] == p;
    assert a[1] == '-';
    assert a != "-e" && a != "--external-dir";
  }

  /** Plain arguments never touch the external directory and never abort. */
  lemma {:induction false} PlainKeepsExternal(ys: seq<string>, ext: Option<string>, root: Option<string>)
    requires forall i :: 0 <= i < |ys| ==> !("-" <= ys[i])
    ensures Scan(ys, ext, root).Run? && Scan(ys, ext, root).externalDir == ext
    decreases |ys|
  {
    if ys != [] {
      var a := ys[0];
      assert !("-" <= a);
      assert a != "-e" && a != "--external-dir" && !(ExternalEq <= a);
      PlainKeepsExternal(ys[1..], ext, if root.None? then Some(a) else root);
    }
  }

  /** Once a repository root is chosen, later arguments never replace it. */
  lemma {:induction false} RootIsKept(rest: seq<string>, ext: Option<string>, r: string)
    ensures Scan(rest, ext, Some(r)).Run? ==> Scan(rest, ext, Some(r)).repoRoot == Some(r)
    decreases |rest|
  {
    if rest != [] {
      var a := rest[0];
      if (a == "-e" || a == "--external-dir") && |rest| >= 2 {
        RootIsKept(rest[2..], Some(rest[1]), r);
      } else if ExternalEq <= a {
        RootIsKept(rest[1..], Some(a[|ExternalEq|..]), r);
      } else if !("-" <= a) {
        RootIsKept(rest[1..], ext, r);
      }
    }
  }

  /** The repository root is the first plain argument. */
  lemma FirstPlainIsRoot(xs: seq<string>, a: string, ys: seq<string>)
    requires Scan(xs, None, None).Run? && Scan(xs, None, None).repoRoot == None && !("-" <= a)
    ensures Scan(xs + [a] + ys, None, None).Run? ==> Scan(xs + [a] + ys, None, None).repoRoot == Some(a)
  {
    ScanAppend(xs, [a] + ys, None, None);
    assert xs + [a] + ys == xs + ([a] + ys);
    assert ([a] + ys)[0] == a && ([a] + ys)[1..] == ys;
    assert a != "-e" && a != "--external-dir" && !(ExternalEq <= a);
    RootIsKept(ys, Scan(xs, None, None).externalDir, a);
  }

  /** A help flag anywhere wins over everything else, including bad options. */
  lemma HelpAnywhere(xs: seq<string>, ys: seq<string>)
    ensures Parse(xs + ["-h"] + ys) == Help && Parse(xs + ["--help"] + ys) == Help
  {
    assert (xs + ["-h"] + ys)[|xs|] == "-h";
    assert (xs + ["--help"] + ys)[|xs|] == "--help";
  }

  /** Without a help flag, an option other than the three spellings aborts, naming the option. */
  lemma UnknownOptionAborts(a: string, ys: seq<string>)
    requires "-" <= a && a != "-e" && a != "--external-dir" && !(ExternalEq <= a)
    requires !IsHelp(a) && forall i :: 0 <= i < |ys| ==> !IsHelp(ys[i])
    ensures Parse([a] + ys) == Failed("error: unknown option: " + a)
  {
    forall i | 0 <= i < |[a] + ys|
      ensures !IsHelp(([a] + ys)[i])
    {
      if i > 0 {
        assert ([a] + ys)[i] == ys[i - 1];
      }
    }
  }

  /** A flag left without its path aborts. */
  lemma MissingPathAborts(xs: seq<string>)
    requires Scan(xs, None, None).Run?
    ensures Scan(xs + ["-e"], None, None) == Failed("error: -e requires a PATH argument")
    ensures Scan(xs + ["--external-dir"], None, None) == Failed("error: --external-dir requires a PATH argument")
  {
    ScanAppend(xs, ["-e"], None, None);
    ScanAppend(xs, ["--external-dir"], None, None);
  }
}
