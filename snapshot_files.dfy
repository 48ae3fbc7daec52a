/** `snapshot.js`, part one: the exclusion filter, `path.extname` on entry names, and the
    recursive scans `scanFiles` and `findPackages`. The file system is an abstract tree:
    a directory listing is a sequence of entries, and a path is built with `Join`. */
module SnapshotFiles {
  import opened Strings
  import opened Seqs

  /** A directory entry as `readdirSync` and `statSync` report it. */
  datatype Entry = Dir(name: string, children: seq<Entry>) | File(name: string)

  const Excludes: seq<string> := ["node_modules", ".git", "dist", "build"]
  const FileExtensions: seq<string> := [".js", ".ts", ".vue"]

  /** `subs.some(ex => path.includes(ex))` */
  function ContainsAny(path: string, subs: seq<string>): (r: bool)
    ensures r <==> exists i :: 0 <= i < |subs| && Contains(path, subs[i])
  {
    if subs == [] then false
    else if Contains(path, subs[0]) then true
    else
      var rest := ContainsAny(path, subs[1..]);
      assert rest <==> exists i :: 1 <= i < |subs| && Contains(path, subs[i]) by {
        forall i | 1 <= i < |subs| ensures subs[i] == subs[1..][i - 1] { }
      }
      rest
  }

  /** `isExcluded`: some excluded name occurs anywhere in the path, not only as a whole
      path component. */
  function IsExcluded(path: string): (r: bool)
    ensures r <==> exists i :: 0 <= i < |Excludes| && Contains(path, Excludes[i])
  {
    ContainsAny(path, Excludes)
  }

  /** An excluded name matches anywhere in a path, also inside a longer name: with
      `pre = "re"` and "build", "rebuild/x" is excluded. */
  lemma ExcludedAnywhere(pre: string, i: int, post: string)
    requires 0 <= i < |Excludes|
    ensures IsExcluded(pre + Excludes[i] + post)
  {
    assert OccursAt(Excludes[i], Excludes[i], 0);
    ContainsExtended(pre, Excludes[i], post, Excludes[i]);
  }

  /** Exclusion survives extending the path: everything below an excluded path is excluded. */
  lemma ExcludedExtended(pre: string, path: string, post: string)
    requires IsExcluded(path)
    ensures IsExcluded(pre + path + post)
  {
    var i :| 0 <= i < |Excludes| && Contains(path, Excludes[i]);
    ContainsExtended(pre, path, post, Excludes[i]);
  }

  /** `path.join(dir, name)` for an entry name; normalisation is not modelled. */
  function Join(dir: string, name: string): (r: string)
    ensures |r| == |dir| + 1 + |name| && r[..|dir|] == dir && r[|dir|] == '/' && r[|dir| + 1..] == name
  {
    dir + "/" + name
  }

  /** `path.extname(name)` for a name without '/': from the last '.' to the end, except
      when there is no dot, the only dot starts the name, or the name is "..". */
  function ExtName(name: string): (r: string)
    ensures r == "" <==> LastIndexOf(name, '.') <= 0 || name == ".."
    ensures r != "" ==> |r| < |name| && name[|name| - |r|..] == r && r[0] == '.'
    ensures forall j :: 0 < j < |r| ==> r[j] != '.'
  {
    var k := LastIndexOf(name, '.');
    if k <= 0 || name == ".." then "" else name[k..]
  }

  /** The name test of `scanFiles`. */
  predicate HasSourceExtension(name: string) {
    ExtName(name) in FileExtensions
  }

  /** The name test of `findPackages`. */
  predicate IsPackageManifest(name: string) {
    name == "package.json"
  }

  /** A dot file such as ".js" has no extension, so it is not scanned. */
  lemma DotFilesHaveNoExtension(rest: string)
    requires forall j :: 0 <= j < |rest| ==> rest[j] != '.'
    ensures ExtName("." + rest) == ""
    ensures !HasSourceExtension("." + rest)
  {
    var s := "." + rest;
    assert forall j :: 0 < j < |s| ==> s[j] != '.' by {
      forall j | 0 < j < |s| ensures s[j] != '.' { assert s[j] == rest[j - 1]; }
    }
    assert LastIndexOf(s, '.') <= 0;
  }

  /** The paths a scan of one directory listing appends, in depth-first listing order:
      excluded paths are skipped (and never entered), directories are walked, and files
      are kept when `keep` accepts their name. */
  function Collected(dir: string, es: seq<Entry>, keep: string -> bool): seq<string>
    decreases es
  {
    if es == [] then []
    else Collected(dir, es[..|es| - 1], keep) + CollectedEntry(dir, es[|es| - 1], keep)
  }

  function CollectedEntry(dir: string, e: Entry, keep: string -> bool): (r: seq<string>)
    ensures IsExcluded(Join(dir, e.name)) ==> r == []
    decreases e
  {
    var full := Join(dir, e.name);
    if IsExcluded(full) then []
    else if e.Dir? then Collected(full, e.children, keep)
    else if keep(e.name) then [full]
    else []
  }

  /** The loop of `scanFiles` and `findPackages`, which differ only in the name test:
      appends to `list` what the walk of `es` under `dir` collects. */
  method CollectFiles(dir: string, es: seq<Entry>, keep: string -> bool, list: seq<string>)
    returns (r: seq<string>)
    ensures r == list + Collected(dir, es, keep)
    decreases es
  {
    r := list;
    var i := 0;
    while i < |es|
      invariant 0 <= i <= |es|
      invariant r == list + Collected(dir, es[..i], keep)
    {
      var e := es[i];
      assert es[..i + 1][..i] == es[..i];
      var full := Join(dir, e.name);
      if !IsExcluded(full) {
        if e.Dir? {
          r := CollectFiles(full, e.children, keep, r);
        } else if keep(e.name) {
          r := r + [full];
        }
      }
      i := i + 1;
    }
    assert es[..|es|] == es;
  }

  /** `scanFiles(dir, fileList)` */
  method ScanFiles(dir: string, es: seq<Entry>, fileList: seq<string>) returns (r: seq<string>)
    ensures r == fileList + Collected(dir, es, HasSourceExtension)
  {
    r := CollectFiles(dir, es, HasSourceExtension, fileList);
  }

  /** `findPackages(dir, list)` */
  method FindPackages(dir: string, es: seq<Entry>, list: seq<string>) returns (r: seq<string>)
    ensures r == list + Collected(dir, es, IsPackageManifest)
  {
    r := CollectFiles(dir, es, IsPackageManifest, list);
  }

  // A reference walk that skips nothing, to say what the scan keeps.

  /** Every file below the listing as (path, name), depth first. */
  function AllFiles(dir: string, es: seq<Entry>): seq<(string, string)>
    decreases es
  {
    if es == [] then []
    else AllFiles(dir, es[..|es| - 1]) + AllFilesOf(dir, es[|es| - 1])
  }

  function AllFilesOf(dir: string, e: Entry): seq<(string, string)>
    decreases e
  {
    var full := Join(dir, e.name);
    if e.Dir? then AllFiles(full, e.children) else [(full, e.name)]
  }

  function Paths(fs: seq<(string, string)>): (r: seq<string>)
    ensures |r| == |fs| && forall i :: 0 <= i < |fs| ==> r[i] == fs[i].0
  {
    seq(|fs|, i requires 0 <= i < |fs| => fs[i].0)
  }

  lemma PathsConcat(a: seq<(string, string)>, b: seq<(string, string)>)
    ensures Paths(a + b) == Paths(a) + Paths(b)
  {
    assert forall i :: 0 <= i < |a + b| ==> Paths(a + b)[i] == (Paths(a) + Paths(b))[i];
  }

  /** A file is wanted when its path is not excluded and its name passes the test. */
  function Wanted(keep: string -> bool): ((string, string)) -> bool {
    (f: (string, string)) => !IsExcluded(f.0) && keep(f.1)
  }

  /** Every file found below `dir` has a path that starts with `dir`. */
  lemma {:induction false} AllFilesUnder(dir: string, es: seq<Entry>)
    ensures forall i :: 0 <= i < |AllFiles(dir, es)| ==>
      |dir| <= |AllFiles(dir, es)[i].0| && AllFiles(dir, es)[i].0[..|dir|] == dir
    decreases es
  {
    if es != [] {
      AllFilesUnder(dir, es[..|es| - 1]);
      AllFilesOfUnder(dir, es[|es| - 1]);
    }
  }

  lemma {:induction false} AllFilesOfUnder(dir: string, e: Entry)
    ensures forall i :: 0 <= i < |AllFilesOf(dir, e)| ==>
      |dir| <= |AllFilesOf(dir, e)[i].0| && AllFilesOf(dir, e)[i].0[..|dir|] == dir
    decreases e
  {
    var full := Join(dir, e.name);
    if e.Dir? {
      AllFilesUnder(full, e.children);
      forall i | 0 <= i < |AllFilesOf(dir, e)|
        ensures |dir| <= |AllFilesOf(dir, e)[i].0| && AllFilesOf(dir, e)[i].0[..|dir|] == dir
      {
        var p := AllFilesOf(dir, e)[i].0;
        assert p[..|full|] == full;
        assert p[..|dir|] == full[..|dir|];
      }
    }
  }

  /** Below an excluded path nothing is wanted. */
  lemma ExcludedSubtree(full: string, e: Entry, dir: string, keep: string -> bool)
    requires IsExcluded(full) && full == Join(dir, e.name)
    ensures Filter(AllFilesOf(dir, e), Wanted(keep)) == []
  {
    var fs := AllFilesOf(dir, e);
    if e.Dir? {
      assert fs == AllFiles(full, e.children);
      AllFilesUnder(full, e.children);
    } else {
      assert fs == [(full, e.name)];
      assert fs[0].0[..|full|] == full;
    }
    assert forall i :: 0 <= i < |fs| ==> |full| <= |fs[i].0| && fs[i].0[..|full|] == full;
    forall i | 0 <= i < |fs| ensures !Wanted(keep)(fs[i]) {
      var p := fs[i].0;
      assert p[..|full|] == full;
      assert p == full + p[|full|..];
      ExcludedExtended("", full, p[|full|..]);
      assert "" + full + p[|full|..] == p;
    }
    FilterKeepsNone(fs, Wanted(keep));
  }

  /** The scan returns exactly the paths of the files that are not excluded and whose
      name passes the test, in depth-first order: skipping an excluded directory loses
      nothing, since everything below it is excluded. */
  lemma {:induction false} CollectedIsWantedFiles(dir: string, es: seq<Entry>, keep: string -> bool)
    ensures Collected(dir, es, keep) == Paths(Filter(AllFiles(dir, es), Wanted(keep)))
    decreases es
  {
    if es != [] {
      var init, last := es[..|es| - 1], es[|es| - 1];
      CollectedIsWantedFiles(dir, init, keep);
      CollectedEntryIsWantedFiles(dir, last, keep);
      FilterConcat(AllFiles(dir, init), AllFilesOf(dir, last), Wanted(keep));
      PathsConcat(Filter(AllFiles(dir, init), Wanted(keep)), Filter(AllFilesOf(dir, last), Wanted(keep)));
    }
  }

  lemma {:induction false} CollectedEntryIsWantedFiles(dir: string, e: Entry, keep: string -> bool)
    ensures CollectedEntry(dir, e, keep) == Paths(Filter(AllFilesOf(dir, e), Wanted(keep)))
    decreases e
  {
    var full := Join(dir, e.name);
    if IsExcluded(full) {
      ExcludedSubtree(full, e, dir, keep);
    } else if e.Dir? {
      CollectedIsWantedFiles(full, e.children, keep);
    } else {
      assert AllFilesOf(dir, e) == [(full, e.name)];
      assert Filter([(full, e.name)], Wanted(keep)) == if keep(e.name) then [(full, e.name)] else [];
    }
  }
}
