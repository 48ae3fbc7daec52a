/** `snapshot.js`, part three: what `main` puts in `snapshot.md`. The scanned paths, the
    parsed functions of each file and the parsed `package.json` files are inputs: `parseFile`
    and `JSON.parse` / `JSON.stringify` are parameters. Objects filled by key assignment
    and read back with `Object.entries` are sequences of (key, value) pairs kept in
    insertion order. */
module SnapshotReport {
  import opened Wrappers
  import opened Strings
  import opened Seqs

  /** One `{ name, params, comment }` from `parseFile`. */
  datatype FunctionInfo = FunctionInfo(name: string, params: string, comment: string)

  /** A dependency object's entries, in order. */
  type Deps = seq<(string, string)>

  /** The fields `main` reads from a parsed `package.json`. */
  datatype PackageJson = PackageJson(name: Option<string>, dependencies: Option<Deps>, devDependencies: Option<Deps>)

  datatype DepsInfo = DepsInfo(dependencies: Deps, devDependencies: Deps)

  // Objects as insertion-ordered entry lists.

  predicate HasKey<V>(m: seq<(string, V)>, key: string) {
    exists i :: 0 <= i < |m| && m[i].0 == key
  }

  predicate DistinctKeys<V>(m: seq<(string, V)>) {
    forall i, j :: 0 <= i < j < |m| ==> m[i].0 != m[j].0
  }

  /** `obj[key] = value`: a new key goes last; an existing key keeps its place and takes
      the new value. */
  function Put<V>(m: seq<(string, V)>, key: string, value: V): (r: seq<(string, V)>)
    ensures !HasKey(m, key) ==> r == m + [(key, value)]
    ensures HasKey(m, key) ==> |r| == |m|
    ensures HasKey(m, key) ==> forall i :: 0 <= i < |m| ==>
      r[i] == (if m[i].0 == key then (key, value) else m[i])
  {
    if HasKey(m, key) then
      seq(|m|, i requires 0 <= i < |m| => if m[i].0 == key then (key, value) else m[i])
    else m + [(key, value)]
  }

  /** The value stored under `key`. */
  function Lookup<V>(m: seq<(string, V)>, key: string): (r: Option<V>)
    ensures r.Some? <==> HasKey(m, key)
  {
    if m == [] then None
    else if m[0].0 == key then Some(m[0].1)
    else
      var r := Lookup(m[1..], key);
      assert HasKey(m, key) ==> HasKey(m[1..], key) by {
        if HasKey(m, key) {
          var i :| 0 <= i < |m| && m[i].0 == key;
          assert m[1..][i - 1].0 == key;
        }
      }
      assert HasKey(m[1..], key) ==> HasKey(m, key) by {
        if HasKey(m[1..], key) {
          var i :| 0 <= i < |m[1..]| && m[1..][i].0 == key;
          assert m[i + 1].0 == key;
        }
      }
      r
  }

  /** After `obj[key] = value`, each key occurs once and `key` reads back `value`. */
  lemma PutProperties<V>(m: seq<(string, V)>, key: string, value: V)
    requires DistinctKeys(m)
    ensures DistinctKeys(Put(m, key, value))
    ensures Lookup(Put(m, key, value), key) == Some(value)
  {
    var r := Put(m, key, value);
    if HasKey(m, key) {
      var k :| 0 <= k < |m| && m[k].0 == key;
      LookupAt(r, k);
    } else {
      LookupAt(r, |m|);
    }
  }

  /** With distinct keys, the value under the key at index `k` is the one there. */
  lemma {:induction false} LookupAt<V>(m: seq<(string, V)>, k: nat)
    requires DistinctKeys(m) && k < |m|
    ensures Lookup(m, m[k].0) == Some(m[k].1)
  {
    if k > 0 {
      assert m[0].0 != m[k].0;
      assert m[1..][k - 1] == m[k];
      LookupAt(m[1..], k - 1);
    }
  }

  // The function list.

  /** `path.relative(root, fp)` for a path below `root`; any other path is kept as it is. */
  function Relative(root: string, fp: string): (r: string)
    ensures |fp| > |root| + 1 && fp[..|root| + 1] == root + "/" ==> fp == root + "/" + r && r != ""
    ensures !(|fp| > |root| + 1 && fp[..|root| + 1] == root + "/") ==> r == fp
    ensures |r| <= |fp|
  {
    if |fp| > |root| + 1 && fp[..|root| + 1] == root + "/" then fp[|root| + 1..] else fp
  }

  /** The function map after the files so far: a file with no functions is skipped. */
  function FunctionMapFrom(m: seq<(string, seq<FunctionInfo>)>, root: string, files: seq<string>,
                           parse: string -> seq<FunctionInfo>): seq<(string, seq<FunctionInfo>)>
    decreases |files|
  {
    if files == [] then m
    else
      var funcs := parse(files[0]);
      FunctionMapFrom(if |funcs| > 0 then Put(m, Relative(root, files[0]), funcs) else m,
                      root, files[1..], parse)
  }

  predicate AllHaveFunctions(m: seq<(string, seq<FunctionInfo>)>) {
    forall i :: 0 <= i < |m| ==> |m[i].1| > 0
  }

  /** The `files.forEach` that fills `funcMap`. */
  method BuildFunctionMap(root: string, files: seq<string>, parse: string -> seq<FunctionInfo>)
    returns (funcMap: seq<(string, seq<FunctionInfo>)>)
    ensures funcMap == FunctionMapFrom([], root, files, parse)
  {
    funcMap := [];
    var i := 0;
    while i < |files|
      invariant 0 <= i <= |files|
      invariant FunctionMapFrom(funcMap, root, files[i..], parse) == FunctionMapFrom([], root, files, parse)
    {
      assert files[i..][1..] == files[i + 1..];
      var rel := Relative(root, files[i]);
      var funcs := parse(files[i]);
      if |funcs| > 0 {
        funcMap := Put(funcMap, rel, funcs);
      }
      i := i + 1;
    }
  }

  function HasFunctions(parse: string -> seq<FunctionInfo>): string -> bool {
    (fp: string) => |parse(fp)| > 0
  }

  /** Only files with at least one function are listed, and each under one key. */
  lemma {:induction false} FunctionMapInvariant(m: seq<(string, seq<FunctionInfo>)>, root: string,
                                                files: seq<string>, parse: string -> seq<FunctionInfo>)
    requires AllHaveFunctions(m) && DistinctKeys(m)
    ensures AllHaveFunctions(FunctionMapFrom(m, root, files, parse))
    ensures DistinctKeys(FunctionMapFrom(m, root, files, parse))
    decreases |files|
  {
    if files != [] {
      var funcs := parse(files[0]);
      if |funcs| > 0 {
        PutProperties(m, Relative(root, files[0]), funcs);
        var next := Put(m, Relative(root, files[0]), funcs);
        assert AllHaveFunctions(next);
        FunctionMapInvariant(next, root, files[1..], parse);
      } else {
        FunctionMapInvariant(m, root, files[1..], parse);
      }
    }
  }

  /** Files without functions could as well not have been scanned. */
  lemma {:induction false} FunctionlessFilesIgnored(m: seq<(string, seq<FunctionInfo>)>, root: string,
                                                    files: seq<string>, parse: string -> seq<FunctionInfo>)
    ensures FunctionMapFrom(m, root, files, parse) == FunctionMapFrom(m, root, Filter(files, HasFunctions(parse)), parse)
    decreases |files|
  {
    if files != [] {
      var funcs := parse(files[0]);
      var rest := Filter(files[1..], HasFunctions(parse));
      if |funcs| > 0 {
        var next := Put(m, Relative(root, files[0]), funcs);
        FunctionlessFilesIgnored(next, root, files[1..], parse);
        assert Filter(files, HasFunctions(parse)) == [files[0]] + rest;
        assert ([files[0]] + rest)[1..] == rest;
      } else {
        FunctionlessFilesIgnored(m, root, files[1..], parse);
        assert Filter(files, HasFunctions(parse)) == rest;
      }
    }
  }

  /** One `- **name(params)**` line, with ` - comment` only when there is a comment. */
  function FunctionLine(f: FunctionInfo): (r: string)
    ensures var head := "- **" + f.name + "(" + f.params + ")**";
      |r| > |head| && r[..|head|] == head && r[|r| - 1] == '\n'
    ensures f.comment != "" ==> |r| > |f.comment| + 1 && r[|r| - |f.comment| - 1..|r| - 1] == f.comment
  {
    "- **" + f.name + "(" + f.params + ")**" + (if f.comment != "" then " - " + f.comment else "") + "\n"
  }

  /** The " - " separator appears exactly when the function has a comment. */
  lemma FunctionLineWithoutComment(f: FunctionInfo)
    ensures FunctionLine(f) == "- **" + f.name + "(" + f.params + ")**\n" <==> f.comment == ""
  {
    if f.comment != "" {
      assert |FunctionLine(f)| > |"- **" + f.name + "(" + f.params + ")**\n"|;
    }
  }

  function FunctionLines(funcs: seq<FunctionInfo>): string {
    if funcs == [] then "" else FunctionLines(funcs[..|funcs| - 1]) + FunctionLine(funcs[|funcs| - 1])
  }

  function FileSection(file: string, funcs: seq<FunctionInfo>): string {
    "### " + file + "\n" + FunctionLines(funcs) + "\n"
  }

  function FunctionList(m: seq<(string, seq<FunctionInfo>)>): string {
    if m == [] then "" else FunctionList(m[..|m| - 1]) + FileSection(m[|m| - 1].0, m[|m| - 1].1)
  }

  // The dependency list.

  /** `path.basename(path.dirname(pf))` for a '/'-separated path: the name of the folder
      that holds `pf`, or "." when `pf` has no folder part. */
  function ParentName(pf: string): (r: string)
    ensures forall j :: 0 <= j < |r| ==> r[j] != '/'
    ensures LastIndexOf(pf, '/') < 0 ==> r == "."
  {
    var dir := DropLastComponent(pf);
    var k := LastIndexOf(dir, '/');
    assert forall j :: k + 1 <= j < |dir| ==> dir[j] != '/';
    dir[k + 1..]
  }

  function DropLastComponent(p: string): (r: string)
    ensures LastIndexOf(p, '/') < 0 ==> r == "."
    ensures LastIndexOf(p, '/') >= 0 ==>
      |r| < |p| && p[..|r|] == r && p[|r|] == '/' && forall j :: |r| < j < |p| ==> p[j] != '/'
  {
    var k := LastIndexOf(p, '/');
    if k < 0 then "." else p[..k]
  }

  /** The folder name of a package file below at least one folder is the last folder
      on its path, whether or not more folders precede it. */
  lemma ParentOfPackageFile(dirs: string, parent: string, file: string)
    requires forall j :: 0 <= j < |parent| ==> parent[j] != '/'
    requires forall j :: 0 <= j < |file| ==> file[j] != '/'
    ensures ParentName(parent + "/" + file) == parent
    ensures ParentName(dirs + "/" + parent + "/" + file) == parent
  {
    LastIndexOfAppend(parent, file, '/');
    assert DropLastComponent(parent + "/" + file) == parent;
    LastIndexOfAppend(dirs + "/" + parent, file, '/');
    assert DropLastComponent(dirs + "/" + parent + "/" + file) == dirs + "/" + parent;
    LastIndexOfAppend(dirs, parent, '/');
    assert (dirs + "/" + parent)[|dirs| + 1..] == parent;
  }

  /** The project a parsed `package.json` is listed under: `data.name || <its folder>`. */
  function ProjectName(pf: string, data: PackageJson): (r: string)
    ensures Truthy(data.name) ==> r == data.name.value
    ensures !Truthy(data.name) ==> forall j :: 0 <= j < |r| ==> r[j] != '/'
    ensures !Truthy(data.name) && LastIndexOf(pf, '/') < 0 ==> r == "."
  {
    if Truthy(data.name) then data.name.value else ParentName(pf)
  }

  /** The dependency map after the package files so far; `read` is `None` where
      reading or parsing throws, and that file is skipped. */
  function DepsMapFrom(m: seq<(string, DepsInfo)>, pkgFiles: seq<string>,
                       read: string -> Option<PackageJson>): seq<(string, DepsInfo)>
    decreases |pkgFiles|
  {
    if pkgFiles == [] then m
    else
      var pf := pkgFiles[0];
      var next := match read(pf)
        case None => m
        case Some(data) =>
          Put(m, ProjectName(pf, data), DepsInfo(data.dependencies.GetOr([]), data.devDependencies.GetOr([])));
      DepsMapFrom(next, pkgFiles[1..], read)
  }

  /** The `pkgFiles.forEach` that fills `depsMap`. */
  method BuildDepsMap(pkgFiles: seq<string>, read: string -> Option<PackageJson>)
    returns (depsMap: seq<(string, DepsInfo)>)
    ensures depsMap == DepsMapFrom([], pkgFiles, read)
  {
    depsMap := [];
    var i := 0;
    while i < |pkgFiles|
      invariant 0 <= i <= |pkgFiles|
      invariant DepsMapFrom(depsMap, pkgFiles[i..], read) == DepsMapFrom([], pkgFiles, read)
    {
      assert pkgFiles[i..][1..] == pkgFiles[i + 1..];
      var pf := pkgFiles[i];
      var parsed := read(pf);
      if parsed.Some? {
        var data := parsed.value;
        var proj := if Truthy(data.name) then data.name.value else ParentName(pf);
        depsMap := Put(depsMap, proj, DepsInfo(data.dependencies.GetOr([]), data.devDependencies.GetOr([])));
      }
      i := i + 1;
    }
  }

  function Parses(read: string -> Option<PackageJson>): string -> bool {
    (pf: string) => read(pf).Some?
  }

  /** Projects are listed once each. */
  lemma {:induction false} DepsMapDistinct(m: seq<(string, DepsInfo)>, pkgFiles: seq<string>,
                                           read: string -> Option<PackageJson>)
    requires DistinctKeys(m)
    ensures DistinctKeys(DepsMapFrom(m, pkgFiles, read))
    decreases |pkgFiles|
  {
    if pkgFiles != [] {
      var pf := pkgFiles[0];
      if read(pf).Some? {
        var data := read(pf).value;
        var info := DepsInfo(data.dependencies.GetOr([]), data.devDependencies.GetOr([]));
        PutProperties(m, ProjectName(pf, data), info);
        DepsMapDistinct(Put(m, ProjectName(pf, data), info), pkgFiles[1..], read);
      } else {
        DepsMapDistinct(m, pkgFiles[1..], read);
      }
    }
  }

  /** A package file that cannot be read or parsed leaves no trace. */
  lemma {:induction false} UnparsableFilesIgnored(m: seq<(string, DepsInfo)>, pkgFiles: seq<string>,
                                                  read: string -> Option<PackageJson>)
    ensures DepsMapFrom(m, pkgFiles, read) == DepsMapFrom(m, Filter(pkgFiles, Parses(read)), read)
    decreases |pkgFiles|
  {
    if pkgFiles != [] {
      var pf := pkgFiles[0];
      var rest := Filter(pkgFiles[1..], Parses(read));
      if read(pf).Some? {
        var data := read(pf).value;
        var info := DepsInfo(data.dependencies.GetOr([]), data.devDependencies.GetOr([]));
        UnparsableFilesIgnored(Put(m, ProjectName(pf, data), info), pkgFiles[1..], read);
        assert Filter(pkgFiles, Parses(read)) == [pf] + rest;
        assert ([pf] + rest)[1..] == rest;
      } else {
        UnparsableFilesIgnored(m, pkgFiles[1..], read);
        assert Filter(pkgFiles, Parses(read)) == rest;
      }
    }
  }

  /** A dependency object as a JSON block, or "無" when it has no entries. `render` is
      `JSON.stringify(deps, null, 2)`. */
  function DepsBlock(deps: Deps, render: Deps -> string): (r: string)
    ensures deps == [] <==> r == "無\n"
  {
    if |deps| > 0 then
      var r := "```json\n" + render(deps) + "\n```\n";
      assert r[0] != "無\n"[0];
      r
    else "無\n"
  }

  function ProjectSection(proj: string, info: DepsInfo, render: Deps -> string): string {
    "## " + proj + "\n\n"
    + "### devDependencies\n" + DepsBlock(info.devDependencies, render)
    + "\n### dependencies\n" + DepsBlock(info.dependencies, render)
    + "\n"
  }

  function DependencyList(m: seq<(string, DepsInfo)>, render: Deps -> string): string {
    if m == [] then "" else DependencyList(m[..|m| - 1], render) + ProjectSection(m[|m| - 1].0, m[|m| - 1].1, render)
  }

  const TreeHeading := "## 專案目錄結構\n\n"
  const FunctionsHeading := "## 函式清單\n\n"
  const DependenciesHeading := "## 依賴清單\n\n"

  function TreeBlock(tree: string): string {
    "```text\n" + tree + "```\n\n"
  }

  /** The whole of `snapshot.md`. */
  function Snapshot(tree: string, funcMap: seq<(string, seq<FunctionInfo>)>, depsMap: seq<(string, DepsInfo)>,
                    render: Deps -> string): string {
    TreeHeading + TreeBlock(tree) + FunctionsHeading + FunctionList(funcMap)
    + DependenciesHeading + DependencyList(depsMap, render)
  }

  /** The `funcs.forEach` for one file. */
  method FunctionLinesText(funcs: seq<FunctionInfo>) returns (text: string)
    ensures text == FunctionLines(funcs)
  {
    text := "";
    var j := 0;
    while j < |funcs|
      invariant 0 <= j <= |funcs|
      invariant text == FunctionLines(funcs[..j])
    {
      var f := funcs[j];
      assert funcs[..j + 1][..j] == funcs[..j];
      var line := "- **" + f.name + "(" + f.params + ")**" + (if f.comment != "" then " - " + f.comment else "") + "\n";
      text := text + line;
      j := j + 1;
    }
    assert funcs[..j] == funcs;
  }

  /** The loop over `Object.entries(funcMap)`. */
  method FunctionListText(funcMap: seq<(string, seq<FunctionInfo>)>) returns (text: string)
    ensures text == FunctionList(funcMap)
  {
    text := "";
    var k := 0;
    while k < |funcMap|
      invariant 0 <= k <= |funcMap|
      invariant text == FunctionList(funcMap[..k])
    {
      var (file, funcs) := funcMap[k];
      assert funcMap[..k + 1][..k] == funcMap[..k];
      var lines := FunctionLinesText(funcs);
      var section := "### " + file + "\n" + lines + "\n";
      text := text + section;
      k := k + 1;
    }
    assert funcMap[..k] == funcMap;
  }

  /** The loop over `Object.entries(depsMap)`. */
  method DependencyListText(depsMap: seq<(string, DepsInfo)>, render: Deps -> string) returns (text: string)
    ensures text == DependencyList(depsMap, render)
  {
    text := "";
    var p := 0;
    while p < |depsMap|
      invariant 0 <= p <= |depsMap|
      invariant text == DependencyList(depsMap[..p], render)
    {
      var (proj, info) := depsMap[p];
      assert depsMap[..p + 1][..p] == depsMap[..p];
      var dev := if |info.devDependencies| > 0 then "```json\n" + render(info.devDependencies) + "\n```\n" else "無\n";
      var deps := if |info.dependencies| > 0 then "```json\n" + render(info.dependencies) + "\n```\n" else "無\n";
      var section := "## " + proj + "\n\n" + "### devDependencies\n" + dev + "\n### dependencies\n" + deps + "\n";
      text := text + section;
      p := p + 1;
    }
    assert depsMap[..p] == depsMap;
  }

  /** The `md +=` sequence of `main`. */
  method ComposeSnapshot(tree: string, funcMap: seq<(string, seq<FunctionInfo>)>, depsMap: seq<(string, DepsInfo)>,
                         render: Deps -> string) returns (md: string)
    ensures md == Snapshot(tree, funcMap, depsMap, render)
  {
    md := TreeHeading;
    var block := "```text\n" + tree + "```\n\n";
    md := md + block;
    md := md + FunctionsHeading;
    var functions := FunctionListText(funcMap);
    md := md + functions;
    md := md + DependenciesHeading;
    var dependencies := DependencyListText(depsMap, render);
    md := md + dependencies;
  }
}
