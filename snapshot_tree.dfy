/** `snapshot.js`, part two: `buildTree`, the ASCII directory tree. Each directory lists
    its non-excluded entries sorted by name; every entry is one line, the last sibling
    drawn with "└── " and the others with "├── ", and a directory's own entries follow
    its line with a longer prefix. */
module SnapshotTree {
  import opened Strings
  import opened Seqs
  import opened SnapshotFiles

  /** `MAX_DEPTH`; 0 means no limit. */
  const MaxDepth := 0

  const LastConnector := "└── "
  const MiddleConnector := "├── "
  const LastIndent := "    "
  const MiddleIndent := "│   "

  /** Ascending by name in code-point order (`Array.prototype.sort` on strings; see `Strings.Less`). */
  predicate SortedByName(s: seq<Entry>) {
    forall i, j :: 0 <= i < j < |s| ==> !Less(s[j].name, s[i].name)
  }

  lemma LessAsymmetric(a: string, b: string)
    requires Less(a, b)
    ensures !Less(b, a)
  {
    if Less(b, a) {
      LessTransitive(a, b, a);
      LessIrreflexive(a);
    }
  }

  /** "not below" is transitive. */
  lemma NotLessTransitive(a: string, b: string, c: string)
    requires !Less(b, a) && !Less(c, b)
    ensures !Less(c, a)
  {
    LessTrichotomy(a, b);
    if Less(c, a) && Less(a, b) {
      LessTransitive(c, a, b);
    }
  }

  /** Puts `e` before the first entry that does not sort below it, so equal names keep
      their order. */
  function InsertByName(e: Entry, s: seq<Entry>): (r: seq<Entry>)
    requires SortedByName(s)
    ensures SortedByName(r) && multiset(r) == multiset(s) + multiset{e}
  {
    if s == [] then [e]
    else if !Less(s[0].name, e.name) then
      SortedCons(e, s);
      [e] + s
    else
      var rest := InsertByName(e, s[1..]);
      assert s == [s[0]] + s[1..];
      LessAsymmetric(s[0].name, e.name);
      SortedConsAfter(s[0], s[1..], e, rest);
      [s[0]] + rest
  }

  /** An entry that sorts no later than the head of a sorted run can go in front of it. */
  lemma SortedCons(e: Entry, s: seq<Entry>)
    requires SortedByName(s) && s != [] && !Less(s[0].name, e.name)
    ensures SortedByName([e] + s)
  {
    forall j | 0 <= j < |s| ensures !Less(s[j].name, e.name) {
      if j > 0 { NotLessTransitive(e.name, s[0].name, s[j].name); }
    }
  }

  /** The head of a sorted run stays in front after `e`, which it precedes, is inserted in the tail. */
  lemma SortedConsAfter(head: Entry, tail: seq<Entry>, e: Entry, rest: seq<Entry>)
    requires SortedByName([head] + tail) && SortedByName(rest)
    requires multiset(rest) == multiset(tail) + multiset{e} && !Less(e.name, head.name)
    ensures SortedByName([head] + rest)
  {
    forall j | 0 <= j < |rest| ensures !Less(rest[j].name, head.name) {
      assert rest[j] in multiset(rest);
      if rest[j] != e {
        assert rest[j] in multiset(tail);
        var k :| 0 <= k < |tail| && tail[k] == rest[j];
        assert ([head] + tail)[k + 1] == rest[j] && ([head] + tail)[0] == head;
      }
    }
  }

  /** `.sort()` on the entry names. */
  function SortByName(s: seq<Entry>): (r: seq<Entry>)
    ensures SortedByName(r) && multiset(r) == multiset(s)
  {
    if s == [] then []
    else
      assert s == [s[0]] + s[1..];
      InsertByName(s[0], SortByName(s[1..]))
  }

  function NotExcludedIn(dir: string): Entry -> bool {
    (e: Entry) => !IsExcluded(Join(dir, e.name))
  }

  /** The entries `buildTree` lists for a directory: not excluded, sorted by name
      (see `VisibleIsSortedSelection`). */
  function Visible(dir: string, es: seq<Entry>): (r: seq<Entry>)
    ensures forall i :: 0 <= i < |r| ==> r[i] in es && !IsExcluded(Join(dir, r[i].name))
  {
    var kept := Filter(es, NotExcludedIn(dir));
    var r := SortByName(kept);
    assert forall i :: 0 <= i < |r| ==> r[i] in es && !IsExcluded(Join(dir, r[i].name)) by {
      forall i | 0 <= i < |r| ensures r[i] in es && !IsExcluded(Join(dir, r[i].name)) {
        assert r[i] in multiset(r);
        assert r[i] in kept;
        var k :| 0 <= k < |kept| && kept[k] == r[i];
      }
    }
    r
  }

  /** The listed entries are the non-excluded ones, each once, in ascending name order. */
  lemma VisibleIsSortedSelection(dir: string, es: seq<Entry>)
    ensures SortedByName(Visible(dir, es))
    ensures multiset(Visible(dir, es)) == multiset(Filter(es, NotExcludedIn(dir)))
  {
  }

  /** The lines (without "\n") `buildTree(dir, prefix, depth)` writes for a directory
      listed as `es`. */
  function TreeLines(dir: string, prefix: string, depth: int, es: seq<Entry>): seq<string>
    decreases es, 1
  {
    if MaxDepth != 0 && depth > MaxDepth then []
    else
      var vs := Visible(dir, es);
      SiblingLines(dir, prefix, depth, vs, |vs|, es)
  }

  /** The line of sibling `idx`: the last one is drawn with "└── ", the others with "├── ". */
  function EntryLine(prefix: string, vs: seq<Entry>, idx: nat): (r: string)
    requires idx < |vs|
    ensures |r| == |prefix| + 4 + |vs[idx].name|
    ensures r[..|prefix|] == prefix && r[|prefix| + 4..] == vs[idx].name
    ensures r[|prefix|..|prefix| + 4] == LastConnector <==> idx == |vs| - 1
    ensures r[|prefix|..|prefix| + 4] == MiddleConnector <==> idx < |vs| - 1
  {
    prefix + (if idx == |vs| - 1 then LastConnector else MiddleConnector) + vs[idx].name
  }

  /** The prefix below sibling `idx`: spaces under the last one, a bar under the others. */
  function ChildPrefix(prefix: string, vs: seq<Entry>, idx: nat): (r: string)
    requires idx < |vs|
    ensures |r| == |prefix| + 4 && r[..|prefix|] == prefix
    ensures r[|prefix|..] == LastIndent <==> idx == |vs| - 1
    ensures r[|prefix|..] == MiddleIndent <==> idx < |vs| - 1
  {
    prefix + (if idx == |vs| - 1 then LastIndent else MiddleIndent)
  }

  /** The lines of the first `n` of the sorted siblings `vs`. */
  function SiblingLines(dir: string, prefix: string, depth: int, vs: seq<Entry>, n: nat, es: seq<Entry>): seq<string>
    requires n <= |vs| && forall i :: 0 <= i < |vs| ==> vs[i] in es
    decreases es, 0, n
  {
    if n == 0 then []
    else SiblingLines(dir, prefix, depth, vs, n - 1, es) + [EntryLine(prefix, vs, n - 1)]
         + Below(dir, prefix, depth, vs, n - 1, es)
  }

  /** The lines under sibling `idx`: its subtree when it is a directory. */
  function Below(dir: string, prefix: string, depth: int, vs: seq<Entry>, idx: nat, es: seq<Entry>): seq<string>
    requires idx < |vs| && forall i :: 0 <= i < |vs| ==> vs[i] in es
    decreases es, 0, idx
  {
    var e := vs[idx];
    if e.Dir? then TreeLines(Join(dir, e.name), ChildPrefix(prefix, vs, idx), depth + 1, e.children) else []
  }

  /** The text of the lines, each ended by "\n". */
  function Unlines(lines: seq<string>): string {
    if lines == [] then "" else Unlines(lines[..|lines| - 1]) + lines[|lines| - 1] + "\n"
  }

  lemma {:induction false} UnlinesConcat(a: seq<string>, b: seq<string>)
    ensures Unlines(a + b) == Unlines(a) + Unlines(b)
    decreases |b|
  {
    if b == [] {
      assert a + b == a;
    } else {
      var init := b[..|b| - 1];
      assert (a + b)[..|a + b| - 1] == a + init;
      UnlinesConcat(a, init);
    }
  }

  lemma SiblingText(dir: string, prefix: string, depth: int, vs: seq<Entry>, idx: nat, es: seq<Entry>)
    requires idx < |vs| && forall i :: 0 <= i < |vs| ==> vs[i] in es
    ensures Unlines(SiblingLines(dir, prefix, depth, vs, idx + 1, es))
         == Unlines(SiblingLines(dir, prefix, depth, vs, idx, es)) + EntryLine(prefix, vs, idx) + "\n"
            + Unlines(Below(dir, prefix, depth, vs, idx, es))
  {
    var before := SiblingLines(dir, prefix, depth, vs, idx, es);
    var line := EntryLine(prefix, vs, idx);
    UnlinesConcat(before, [line]);
    assert [line][..0] == [];
    UnlinesConcat(before + [line], Below(dir, prefix, depth, vs, idx, es));
  }

  /** `buildTree(dir, prefix, depth)` over the listing `es`: the `forEach` appends each
      entry's line and, for a directory, its subtree. */
  method BuildTree(dir: string, es: seq<Entry>, prefix: string, depth: int) returns (tree: string)
    ensures tree == Unlines(TreeLines(dir, prefix, depth, es))
    decreases es
  {
    if MaxDepth != 0 && depth > MaxDepth {
      return "";
    }
    tree := "";
    var entries := Visible(dir, es);
    var idx := 0;
    ghost var done: seq<string> := [];
    while idx < |entries|
      invariant 0 <= idx <= |entries|
      invariant done == SiblingLines(dir, prefix, depth, entries, idx, es)
      invariant tree == Unlines(done)
    {
      var e := entries[idx];
      var fullPath := Join(dir, e.name);
      var connector := if idx == |entries| - 1 then LastConnector else MiddleConnector;
      var line := prefix + connector + e.name;
      assert line == EntryLine(prefix, entries, idx);
      ghost var below := Below(dir, prefix, depth, entries, idx, es);
      ghost var textBefore := tree;
      tree := tree + line + "\n";
      if e.Dir? {
        var newPrefix := prefix + (if idx == |entries| - 1 then LastIndent else MiddleIndent);
        assert below == TreeLines(fullPath, newPrefix, depth + 1, e.children);
        var subtree := BuildTree(fullPath, e.children, newPrefix, depth + 1);
        tree := tree + subtree;
        assert tree == textBefore + line + "\n" + Unlines(below);
      } else {
        assert below == [];
        assert tree == textBefore + line + "\n" + Unlines(below);
      }
      SiblingText(dir, prefix, depth, entries, idx, es);
      done := SiblingLines(dir, prefix, depth, entries, idx + 1, es);
      assert tree == Unlines(done);
      idx := idx + 1;
      assert done == SiblingLines(dir, prefix, depth, entries, idx, es);
    }
  }

  // One line per listed entry, counted on the listing as given.

  /** The number of non-excluded entries below a listing, walking it in its own order. */
  function CountVisible(dir: string, es: seq<Entry>): nat
    decreases es
  {
    if es == [] then 0
    else
      var e := es[0];
      var full := Join(dir, e.name);
      (if IsExcluded(full) then 0 else 1 + (if e.Dir? then CountVisible(full, e.children) else 0))
      + CountVisible(dir, es[1..])
  }

  /** What one listed entry contributes to the count: its own line and those below it. */
  function Weight(dir: string, e: Entry): nat {
    1 + (if e.Dir? then CountVisible(Join(dir, e.name), e.children) else 0)
  }

  function SumWeights(dir: string, s: seq<Entry>): nat {
    if s == [] then 0 else Weight(dir, s[0]) + SumWeights(dir, s[1..])
  }

  lemma {:induction false} SumWeightsConcat(dir: string, a: seq<Entry>, b: seq<Entry>)
    ensures SumWeights(dir, a + b) == SumWeights(dir, a) + SumWeights(dir, b)
  {
    if a == [] {
      assert a + b == b;
    } else {
      assert (a + b)[1..] == a[1..] + b;
      SumWeightsConcat(dir, a[1..], b);
    }
  }

  lemma SumWeightsPrefix(dir: string, vs: seq<Entry>, n: nat)
    requires 0 < n <= |vs|
    ensures SumWeights(dir, vs[..n]) == SumWeights(dir, vs[..n - 1]) + Weight(dir, vs[n - 1])
  {
    assert vs[..n] == vs[..n - 1] + [vs[n - 1]];
    SumWeightsConcat(dir, vs[..n - 1], [vs[n - 1]]);
  }

  /** Taking the entry at `k` out of `b`. */
  lemma SumWeightsRemove(dir: string, b: seq<Entry>, k: nat)
    requires k < |b|
    ensures multiset(b[..k] + b[k + 1..]) == multiset(b) - multiset{b[k]}
    ensures SumWeights(dir, b) == Weight(dir, b[k]) + SumWeights(dir, b[..k] + b[k + 1..])
  {
    assert b == b[..k] + [b[k]] + b[k + 1..];
    assert multiset(b) == multiset(b[..k]) + multiset([b[k]]) + multiset(b[k + 1..]);
    SumWeightsConcat(dir, b[..k], b[k + 1..]);
    SumWeightsConcat(dir, b[..k] + [b[k]], b[k + 1..]);
    SumWeightsConcat(dir, b[..k], [b[k]]);
  }

  /** Reordering the entries does not change the count. */
  lemma {:induction false} SumWeightsPermutation(dir: string, a: seq<Entry>, b: seq<Entry>)
    requires multiset(a) == multiset(b)
    ensures SumWeights(dir, a) == SumWeights(dir, b)
    decreases |a|
  {
    if a != [] {
      assert a[0] in multiset(b);
      var k :| 0 <= k < |b| && b[k] == a[0];
      SumWeightsRemove(dir, b, k);
      assert a == [a[0]] + a[1..];
      assert multiset(a[1..]) == multiset(a) - multiset{a[0]};
      SumWeightsPermutation(dir, a[1..], b[..k] + b[k + 1..]);
    }
  }

  /** Counting the filtered listing is counting the listing with excluded entries as 0. */
  lemma {:induction false} SumWeightsFilter(dir: string, es: seq<Entry>)
    ensures SumWeights(dir, Filter(es, NotExcludedIn(dir))) == CountVisible(dir, es)
  {
    if es != [] {
      SumWeightsFilter(dir, es[1..]);
      var head := if NotExcludedIn(dir)(es[0]) then [es[0]] else [];
      SumWeightsConcat(dir, head, Filter(es[1..], NotExcludedIn(dir)));
    }
  }

  /** The tree has one line per non-excluded entry, at any depth: nothing is cut off
      with `MaxDepth` 0. */
  lemma {:induction false} TreeLineCount(dir: string, prefix: string, depth: int, es: seq<Entry>)
    ensures |TreeLines(dir, prefix, depth, es)| == CountVisible(dir, es)
    decreases es, 1
  {
    var vs := Visible(dir, es);
    SiblingLineCount(dir, prefix, depth, vs, |vs|, es);
    assert vs[..|vs|] == vs;
    VisibleIsSortedSelection(dir, es);
    SumWeightsPermutation(dir, vs, Filter(es, NotExcludedIn(dir)));
    SumWeightsFilter(dir, es);
  }

  lemma {:induction false} SiblingLineCount(dir: string, prefix: string, depth: int, vs: seq<Entry>, n: nat, es: seq<Entry>)
    requires n <= |vs| && forall i :: 0 <= i < |vs| ==> vs[i] in es
    ensures |SiblingLines(dir, prefix, depth, vs, n, es)| == SumWeights(dir, vs[..n])
    decreases es, 0, n
  {
    if n > 0 {
      SiblingLineCount(dir, prefix, depth, vs, n - 1, es);
      BelowLineCount(dir, prefix, depth, vs, n - 1, es);
      SumWeightsPrefix(dir, vs, n);
    }
  }

  lemma {:induction false} BelowLineCount(dir: string, prefix: string, depth: int, vs: seq<Entry>, idx: nat, es: seq<Entry>)
    requires idx < |vs| && forall i :: 0 <= i < |vs| ==> vs[i] in es
    ensures |Below(dir, prefix, depth, vs, idx, es)| + 1 == Weight(dir, vs[idx])
    decreases es, 0, idx
  {
    var e := vs[idx];
    if e.Dir? {
      TreeLineCount(Join(dir, e.name), ChildPrefix(prefix, vs, idx), depth + 1, e.children);
    }
  }

  /** `line` begins with `prefix`. */
  predicate StartsWith(line: string, prefix: string) {
    |prefix| <= |line| && line[..|prefix|] == prefix
  }

  predicate AllStartWith(lines: seq<string>, prefix: string) {
    forall i :: 0 <= i < |lines| ==> StartsWith(lines[i], prefix)
  }

  lemma AllStartWithConcat(a: seq<string>, b: seq<string>, prefix: string)
    requires AllStartWith(a, prefix) && AllStartWith(b, prefix)
    ensures AllStartWith(a + b, prefix)
  {
    assert forall i :: 0 <= i < |a + b| ==> (a + b)[i] == if i < |a| then a[i] else b[i - |a|];
  }

  lemma AllStartWithShorter(lines: seq<string>, prefix: string, ext: string)
    requires AllStartWith(lines, prefix + ext)
    ensures AllStartWith(lines, prefix)
  {
    forall i | 0 <= i < |lines| ensures StartsWith(lines[i], prefix) {
      assert lines[i][..|prefix + ext|] == prefix + ext;
      assert lines[i][..|prefix|] == (prefix + ext)[..|prefix|];
    }
  }

  /** Every line of a subtree starts with the prefix it was given: a child's prefix only
      ever grows. */
  lemma {:induction false} TreeLinePrefix(dir: string, prefix: string, depth: int, es: seq<Entry>)
    ensures AllStartWith(TreeLines(dir, prefix, depth, es), prefix)
    decreases es, 1
  {
    var vs := Visible(dir, es);
    SiblingLinePrefix(dir, prefix, depth, vs, |vs|, es);
  }

  lemma {:induction false} SiblingLinePrefix(dir: string, prefix: string, depth: int, vs: seq<Entry>, n: nat, es: seq<Entry>)
    requires n <= |vs| && forall i :: 0 <= i < |vs| ==> vs[i] in es
    ensures AllStartWith(SiblingLines(dir, prefix, depth, vs, n, es), prefix)
    decreases es, 0, n
  {
    if n > 0 {
      var before := SiblingLines(dir, prefix, depth, vs, n - 1, es);
      var line := EntryLine(prefix, vs, n - 1);
      var below := Below(dir, prefix, depth, vs, n - 1, es);
      SiblingLinePrefix(dir, prefix, depth, vs, n - 1, es);
      BelowPrefix(dir, prefix, depth, vs, n - 1, es);
      assert line[..|prefix|] == prefix;
      assert AllStartWith([line], prefix);
      AllStartWithConcat(before, [line], prefix);
      AllStartWithConcat(before + [line], below, prefix);
    }
  }

  lemma {:induction false} BelowPrefix(dir: string, prefix: string, depth: int, vs: seq<Entry>, idx: nat, es: seq<Entry>)
    requires idx < |vs| && forall i :: 0 <= i < |vs| ==> vs[i] in es
    ensures AllStartWith(Below(dir, prefix, depth, vs, idx, es), prefix)
    decreases es, 0, idx
  {
    var e := vs[idx];
    if e.Dir? {
      var ext := if idx == |vs| - 1 then LastIndent else MiddleIndent;
      TreeLinePrefix(Join(dir, e.name), prefix + ext, depth + 1, e.children);
      AllStartWithShorter(Below(dir, prefix, depth, vs, idx, es), prefix, ext);
    }
  }
}
