/**
 * The three reducers the graph engine applies when a node (or two nodes
 * running in the same step) writes a state field: the keyed upsert of
 * generated files by path, list append, and "last non-empty string".
 *
 * `merge_files` builds a Python dictionary, so its result follows the
 * dictionary's insertion order: a path keeps the position where it was first
 * inserted even when a later record overwrites its value. The reference
 * definition `MergedFiles` states that order (`DistinctKeys`) and the record
 * kept for each path (`Lookup`, the last record with that path).
 */
module Reducers {
  import opened Common
  import opened Artifacts

  // ---------------------------------------------------------------------
  // Dictionary order and lookup
  // ---------------------------------------------------------------------

  /** The keys of `s` in first-occurrence order: the key order of a Python
      dictionary into which `s` was inserted. */
  function DistinctKeys(s: seq<string>): (r: seq<string>)
    ensures forall x :: x in r <==> x in s
    ensures forall i, j :: 0 <= i < j < |r| ==> r[i] != r[j]
    ensures |r| <= |s|
    decreases |s|
  {
    if s == [] then []
    else
      var d := DistinctKeys(s[..|s| - 1]);
      assert s == s[..|s| - 1] + [s[|s| - 1]];
      if s[|s| - 1] in d then d else d + [s[|s| - 1]]
  }

  /** The last record of `files` with the given path, if any: the value a
      dictionary keyed by path holds after all of `files` was written to it. */
  function Lookup(files: seq<GeneratedFile>, path: string): Option<GeneratedFile>
    decreases |files|
  {
    if files == [] then None
    else
      var last := files[|files| - 1];
      if last.path == path then Some(last) else Lookup(files[..|files| - 1], path)
  }

  /** `Lookup` finds a record exactly for the paths that occur. */
  lemma {:induction false} LookupSome(files: seq<GeneratedFile>, path: string)
    ensures Lookup(files, path).Some? <==> path in Paths(files)
    decreases |files|
  {
    if files != [] {
      var init, last := files[..|files| - 1], files[|files| - 1];
      LookupSome(init, path);
      assert files == init + [last];
      PathsAppend(init, [last]);
    }
  }

  /** What `Lookup` finds is a record of the list, with the path asked for. */
  lemma {:induction false} LookupFound(files: seq<GeneratedFile>, path: string)
    ensures Lookup(files, path).Some? ==>
      Lookup(files, path).value in files && Lookup(files, path).value.path == path
    decreases |files|
  {
    if files != [] {
      LookupFound(files[..|files| - 1], path);
    }
  }

  // ---------------------------------------------------------------------
  // merge_files
  // ---------------------------------------------------------------------

  /** Reference definition of `merge_files(existing, incoming)`: one record per
      distinct path, in dictionary order, each the last record written for
      its path. */
  function MergedFiles(existing: seq<GeneratedFile>, incoming: seq<GeneratedFile>): seq<GeneratedFile> {
    var all := existing + incoming;
    assert forall k :: k in Paths(all) ==> Lookup(all, k).Some? by {
      forall k | k in Paths(all) {
        LookupSome(all, k);
      }
    }
    ValuesOf(all, DistinctKeys(Paths(all)))
  }

  /** The record `Lookup` finds in `all` for each of `keys`, in order. */
  function ValuesOf(all: seq<GeneratedFile>, keys: seq<string>): seq<GeneratedFile>
    requires forall k :: k in keys ==> Lookup(all, k).Some?
    decreases |keys|
  {
    if keys == [] then []
    else ValuesOf(all, keys[..|keys| - 1]) + [Lookup(all, keys[|keys| - 1]).value]
  }

  lemma {:induction false} ValuesOfIndex(all: seq<GeneratedFile>, keys: seq<string>)
    requires forall k :: k in keys ==> Lookup(all, k).Some?
    ensures |ValuesOf(all, keys)| == |keys|
    ensures forall i :: 0 <= i < |keys| ==> ValuesOf(all, keys)[i] == Lookup(all, keys[i]).value
    decreases |keys|
  {
    if keys != [] {
      ValuesOfIndex(all, keys[..|keys| - 1]);
    }
  }

  /** The merge, read index by index. */
  lemma MergedIndex(existing: seq<GeneratedFile>, incoming: seq<GeneratedFile>)
    ensures |MergedFiles(existing, incoming)| == |DistinctKeys(Paths(existing + incoming))|
    ensures forall i :: 0 <= i < |MergedFiles(existing, incoming)| ==>
      Lookup(existing + incoming, DistinctKeys(Paths(existing + incoming))[i]).Some? &&
      MergedFiles(existing, incoming)[i] ==
        Lookup(existing + incoming, DistinctKeys(Paths(existing + incoming))[i]).value
  {
    var all := existing + incoming;
    forall k | k in Paths(all) {
      LookupSome(all, k);
    }
    ValuesOfIndex(all, DistinctKeys(Paths(all)));
  }

  /** `m` with keys in insertion order `order` is the dictionary obtained by
      writing every record of `xs` under its path. */
  ghost predicate Holds(m: map<string, GeneratedFile>, order: seq<string>, xs: seq<GeneratedFile>) {
    && order == DistinctKeys(Paths(xs))
    && (forall p :: p in m <==> p in order)
    && (forall p :: p in m ==> Lookup(xs, p) == Some(m[p]))
  }

  /** Writing one more record keeps `Holds`. */
  lemma HoldsStep(m: map<string, GeneratedFile>, order: seq<string>, xs: seq<GeneratedFile>, f: GeneratedFile)
    requires Holds(m, order, xs)
    ensures Holds(m[f.path := f], if f.path in m then order else order + [f.path], xs + [f])
  {
    PathsAppend(xs, [f]);
    assert Paths(xs + [f])[..|xs|] == Paths(xs);
    assert (xs + [f])[..|xs|] == xs;
  }

  /** `merge_files` as the source writes it: a dictionary filled from
      `existing`, then overwritten from `incoming`, then its values in order. */
  method MergeFiles(existing: seq<GeneratedFile>, incoming: seq<GeneratedFile>) returns (merged: seq<GeneratedFile>)
    ensures merged == MergedFiles(existing, incoming)
  {
    assert [] + existing == existing;
    var m, order := WriteAll(map[], [], [], existing);
    m, order := WriteAll(m, order, existing, incoming);
    merged := ValuesInOrder(m, order);
    HoldsValues(m, order, existing + incoming, merged);
  }

  /** One `for f in ...: merged[f.path] = f` loop: every record of `xs`
      written under its path into the dictionary built from `prefix`. */
  method WriteAll(m0: map<string, GeneratedFile>, order0: seq<string>, prefix: seq<GeneratedFile>, xs: seq<GeneratedFile>)
    returns (m: map<string, GeneratedFile>, order: seq<string>)
    requires Holds(m0, order0, prefix)
    ensures Holds(m, order, prefix + xs)
  {
    m, order := m0, order0;
    var i := 0;
    assert prefix + xs[..i] == prefix;
    while i < |xs|
      invariant 0 <= i <= |xs|
      invariant Holds(m, order, prefix + xs[..i])
    {
      var f := xs[i];
      HoldsStep(m, order, prefix + xs[..i], f);
      Snoc(xs, prefix, i);
      if f.path !in m {
        order := order + [f.path];
      }
      m := m[f.path := f];
      i := i + 1;
    }
    assert xs[..i] == xs;
  }

  /** `list(merged.values())`: the dictionary's values in key order. */
  method ValuesInOrder(m: map<string, GeneratedFile>, order: seq<string>) returns (values: seq<GeneratedFile>)
    requires forall p :: p in order ==> p in m
    ensures |values| == |order| && forall t :: 0 <= t < |order| ==> values[t] == m[order[t]]
  {
    values := [];
    var k := 0;
    while k < |order|
      invariant 0 <= k <= |order|
      invariant |values| == k
      invariant forall t :: 0 <= t < k ==> values[t] == m[order[t]]
    {
      values := values + [m[order[k]]];
      k := k + 1;
    }
  }

  lemma Snoc(xs: seq<GeneratedFile>, prefix: seq<GeneratedFile>, i: int)
    requires 0 <= i < |xs|
    ensures xs[..i + 1] == xs[..i] + [xs[i]]
    ensures prefix + xs[..i + 1] == (prefix + xs[..i]) + [xs[i]]
  {
    assert xs[..i + 1] == xs[..i] + [xs[i]];
  }

  lemma HoldsValues(m: map<string, GeneratedFile>, order: seq<string>, all: seq<GeneratedFile>, values: seq<GeneratedFile>)
    requires Holds(m, order, all)
    requires |values| == |order| && forall t :: 0 <= t < |order| ==> order[t] in m && values[t] == m[order[t]]
    ensures values == ValuesOf(all, order)
  {
    ValuesOfIndex(all, order);
  }

  // ---------------------------------------------------------------------
  // Laws of merge_files
  // ---------------------------------------------------------------------

  lemma {:induction false} LookupAppend(a: seq<GeneratedFile>, b: seq<GeneratedFile>, p: string)
    ensures Lookup(a + b, p) == if Lookup(b, p).Some? then Lookup(b, p) else Lookup(a, p)
    decreases |b|
  {
    if b != [] {
      var b' := b[..|b| - 1];
      assert (a + b)[..|a + b| - 1] == a + b';
      LookupAppend(a, b', p);
    } else {
      assert a + b == a;
    }
  }

  /** In a list without repeated paths, looking a path up finds its record. */
  lemma {:induction false} LookupUnique(xs: seq<GeneratedFile>, i: int)
    requires UniquePaths(xs) && 0 <= i < |xs|
    ensures Lookup(xs, xs[i].path) == Some(xs[i])
    decreases |xs|
  {
    if i < |xs| - 1 {
      var init := xs[..|xs| - 1];
      assert init[i] == xs[i];
      LookupUnique(init, i);
    }
  }

  /** The paths of the merge are the dictionary keys. */
  lemma MergedPaths(existing: seq<GeneratedFile>, incoming: seq<GeneratedFile>)
    ensures Paths(MergedFiles(existing, incoming)) == DistinctKeys(Paths(existing + incoming))
  {
    var keys := DistinctKeys(Paths(existing + incoming));
    var r := MergedFiles(existing, incoming);
    MergedIndex(existing, incoming);
    forall i | 0 <= i < |keys|
      ensures Paths(r)[i] == keys[i]
    {
      LookupSome(existing + incoming, keys[i]);
      LookupFound(existing + incoming, keys[i]);
    }
  }

  /** `merge_files` never yields two records with the same path. */
  lemma MergeUniquePaths(existing: seq<GeneratedFile>, incoming: seq<GeneratedFile>)
    ensures UniquePaths(MergedFiles(existing, incoming))
  {
    MergedPaths(existing, incoming);
  }

  /** The merge holds, for each path, the record a reader of `existing + incoming`
      would see last. */
  lemma MergeLookup(existing: seq<GeneratedFile>, incoming: seq<GeneratedFile>, p: string)
    ensures Lookup(MergedFiles(existing, incoming), p) == Lookup(existing + incoming, p)
  {
    var r, all := MergedFiles(existing, incoming), existing + incoming;
    var keys := DistinctKeys(Paths(all));
    MergedPaths(existing, incoming);
    LookupSome(all, p);
    LookupSome(r, p);
    if Lookup(all, p).Some? {
      assert p in keys;
      var i :| 0 <= i < |keys| && keys[i] == p;
      MergedIndex(existing, incoming);
      MergeUniquePaths(existing, incoming);
      LookupUnique(r, i);
      LookupFound(all, p);
    } else {
      assert p !in Paths(r);
    }
  }

  /** A path written by `incoming` holds the last record of `incoming` with that path;
      any other path keeps what `existing` held for it. */
  lemma MergeNewWins(existing: seq<GeneratedFile>, incoming: seq<GeneratedFile>, p: string)
    ensures p in Paths(incoming) ==> Lookup(MergedFiles(existing, incoming), p) == Lookup(incoming, p)
    ensures p !in Paths(incoming) ==> Lookup(MergedFiles(existing, incoming), p) == Lookup(existing, p)
  {
    MergeLookup(existing, incoming, p);
    LookupAppend(existing, incoming, p);
    LookupSome(incoming, p);
  }

  /** A record of a path-unique `existing` whose path `incoming` does not write is
      kept unchanged. */
  lemma MergeKeepsExisting(existing: seq<GeneratedFile>, incoming: seq<GeneratedFile>, i: int)
    requires UniquePaths(existing) && 0 <= i < |existing|
    requires existing[i].path !in Paths(incoming)
    ensures existing[i] in MergedFiles(existing, incoming)
  {
    LookupFound(MergedFiles(existing, incoming), existing[i].path);
    MergeNewWins(existing, incoming, existing[i].path);
    LookupUnique(existing, i);
  }

  /** The merged path set is the union of both path sets, so the merge is
      never longer than its two inputs together. */
  lemma MergePathSet(existing: seq<GeneratedFile>, incoming: seq<GeneratedFile>)
    ensures forall p :: p in Paths(MergedFiles(existing, incoming)) <==> p in Paths(existing) || p in Paths(incoming)
    ensures |MergedFiles(existing, incoming)| <= |existing| + |incoming|
  {
    MergedPaths(existing, incoming);
    PathsAppend(existing, incoming);
  }

  lemma {:induction false} DistinctKeysAppend(a: seq<string>, b: seq<string>)
    ensures DistinctKeys(a + b) == DistinctKeys(a) + Filter(x => x !in a, DistinctKeys(b))
    decreases |b|
  {
    var notInA := x => x !in a;
    if b == [] {
      assert a + b == a;
    } else {
      var b', x := b[..|b| - 1], b[|b| - 1];
      DistinctKeysAppend(a, b');
      assert (a + b)[..|a + b| - 1] == a + b';
      assert b[..|b| - 1] == b';
      var d' := DistinctKeys(b');
      FilterAppend(notInA, d', [x]);
      if x in d' {
        assert DistinctKeys(b) == d';
      } else {
        assert DistinctKeys(b) == d' + [x];
      }
    }
  }

  /** Order: the existing paths in their first-occurrence order, then the
      paths new to the collection in the order they first appear in `incoming`. */
  lemma MergeOrder(existing: seq<GeneratedFile>, incoming: seq<GeneratedFile>)
    ensures Paths(MergedFiles(existing, incoming)) ==
      DistinctKeys(Paths(existing)) + Filter(p => p !in Paths(existing), DistinctKeys(Paths(incoming)))
  {
    MergedPaths(existing, incoming);
    PathsAppend(existing, incoming);
    DistinctKeysAppend(Paths(existing), Paths(incoming));
  }

  lemma {:induction false} DistinctKeysOfDistinct(s: seq<string>)
    requires forall i, j :: 0 <= i < j < |s| ==> s[i] != s[j]
    ensures DistinctKeys(s) == s
    decreases |s|
  {
    if s != [] {
      var init := s[..|s| - 1];
      DistinctKeysOfDistinct(init);
      assert s[|s| - 1] !in init;
      assert s == init + [s[|s| - 1]];
    }
  }

  /** Merging nothing into a path-unique collection changes nothing. */
  lemma MergeNothing(existing: seq<GeneratedFile>)
    requires UniquePaths(existing)
    ensures MergedFiles(existing, []) == existing
  {
    assert existing + [] == existing;
    DistinctKeysOfDistinct(Paths(existing));
    MergedIndex(existing, []);
    forall i | 0 <= i < |existing|
      ensures MergedFiles(existing, [])[i] == existing[i]
    {
      LookupUnique(existing, i);
    }
  }

  /** Two lists with the same paths in the same order and the same record per
      path are equal. */
  lemma SameLookupSamePaths(r1: seq<GeneratedFile>, r2: seq<GeneratedFile>)
    requires UniquePaths(r1) && UniquePaths(r2)
    requires Paths(r1) == Paths(r2)
    requires forall p :: Lookup(r1, p) == Lookup(r2, p)
    ensures r1 == r2
  {
    forall i | 0 <= i < |r1|
      ensures r1[i] == r2[i]
    {
      LookupUnique(r1, i);
      LookupUnique(r2, i);
      assert r2[i].path == r1[i].path;
    }
  }

  /** Re-inserting the keys of a dictionary before more keys does not change
      the key order. */
  lemma DistinctKeysTwice(x: seq<string>, y: seq<string>)
    ensures DistinctKeys(DistinctKeys(x) + y) == DistinctKeys(x + y)
  {
    DistinctKeysAppend(DistinctKeys(x), y);
    DistinctKeysAppend(x, y);
    DistinctKeysOfDistinct(DistinctKeys(x));
    FilterSame(y => y !in DistinctKeys(x), y => y !in x, DistinctKeys(y));
  }

  lemma MergedPathsSplit(existing: seq<GeneratedFile>, incoming: seq<GeneratedFile>)
    ensures Paths(MergedFiles(existing, incoming)) == DistinctKeys(Paths(existing) + Paths(incoming))
  {
    MergedPaths(existing, incoming);
    PathsAppend(existing, incoming);
  }

  lemma MergeTwicePaths(existing: seq<GeneratedFile>, a: seq<GeneratedFile>, b: seq<GeneratedFile>)
    ensures Paths(MergedFiles(MergedFiles(existing, a), b)) == Paths(MergedFiles(existing, a + b))
  {
    var pe, pa, pb := Paths(existing), Paths(a), Paths(b);
    assert pe + (pa + pb) == (pe + pa) + pb;
    MergedPathsSplit(existing, a);
    MergedPathsSplit(MergedFiles(existing, a), b);
    MergedPathsSplit(existing, a + b);
    PathsAppend(a, b);
    DistinctKeysTwice(pe + pa, pb);
  }

  lemma MergeTwiceLookup(existing: seq<GeneratedFile>, a: seq<GeneratedFile>, b: seq<GeneratedFile>, p: string)
    ensures Lookup(MergedFiles(MergedFiles(existing, a), b), p) == Lookup(MergedFiles(existing, a + b), p)
  {
    assert existing + (a + b) == (existing + a) + b;
    var ea := MergedFiles(existing, a);
    assert Lookup(MergedFiles(ea, b), p) == Lookup(ea + b, p) by {
      MergeLookup(ea, b, p);
    }
    assert Lookup(ea + b, p) == if Lookup(b, p).Some? then Lookup(b, p) else Lookup(existing + a, p) by {
      LookupAppend(ea, b, p);
      MergeLookup(existing, a, p);
    }
    assert Lookup(MergedFiles(existing, a + b), p) == Lookup((existing + a) + b, p) by {
      MergeLookup(existing, a + b, p);
    }
    LookupAppend(existing + a, b, p);
  }

  /** Merging `a` and then `b` is merging `a + b` at once: applying two
      writes to `generated_files` one after the other is the same as
      applying their concatenation. */
  lemma MergeTwice(existing: seq<GeneratedFile>, a: seq<GeneratedFile>, b: seq<GeneratedFile>)
    ensures MergedFiles(MergedFiles(existing, a), b) == MergedFiles(existing, a + b)
  {
    var r1, r2 := MergedFiles(MergedFiles(existing, a), b), MergedFiles(existing, a + b);
    MergeUniquePaths(MergedFiles(existing, a), b);
    MergeUniquePaths(existing, a + b);
    MergeTwicePaths(existing, a, b);
    forall p
      ensures Lookup(r1, p) == Lookup(r2, p)
    {
      MergeTwiceLookup(existing, a, b, p);
    }
    SameLookupSamePaths(r1, r2);
  }

  lemma {:induction false} FilterSame(p: string -> bool, q: string -> bool, s: seq<string>)
    requires forall x :: x in s ==> p(x) == q(x)
    ensures Filter(p, s) == Filter(q, s)
  {
    if s != [] {
      FilterSame(p, q, s[1..]);
    }
  }

  /** Two writes that touch disjoint paths commute up to list order: either
      order leaves the same paths holding the same records. */
  lemma MergeDisjointCommutes(existing: seq<GeneratedFile>, a: seq<GeneratedFile>, b: seq<GeneratedFile>, p: string)
    requires forall q :: q in Paths(a) ==> q !in Paths(b)
    ensures Lookup(MergedFiles(MergedFiles(existing, a), b), p) == Lookup(MergedFiles(MergedFiles(existing, b), a), p)
  {
    MergeNewWins(MergedFiles(existing, a), b, p);
    MergeNewWins(existing, a, p);
    MergeNewWins(MergedFiles(existing, b), a, p);
    MergeNewWins(existing, b, p);
  }

  // ---------------------------------------------------------------------
  // merge_append and last_non_empty_str
  // ---------------------------------------------------------------------

  /** `merge_append(existing, incoming)`: `existing` is kept as a prefix and
      nothing is dropped. */
  function MergeAppend<T>(existing: seq<T>, incoming: seq<T>): (r: seq<T>)
    ensures |r| == |existing| + |incoming|
    ensures r[..|existing|] == existing && r[|existing|..] == incoming
  {
    existing + incoming
  }

  /** `last_non_empty_str(existing, incoming)`: an empty write is ignored, any
      other write wins. */
  function LastNonEmpty(existing: string, incoming: string): (r: string)
    ensures incoming == "" ==> r == existing
    ensures incoming != "" ==> r == incoming
  {
    if incoming != "" then incoming else existing
  }

  /** Folding writes with `LastNonEmpty` is associative, so the engine may
      group the writes of one step in any way. */
  lemma LastNonEmptyAssociative(x: string, a: string, b: string)
    ensures LastNonEmpty(LastNonEmpty(x, a), b) == LastNonEmpty(x, LastNonEmpty(a, b))
  {
  }

  /** Two writes of one step commute when at most one of them is non-empty:
      a builder that leaves the field empty cannot undo the other's write. */
  lemma LastNonEmptyCommutes(x: string, a: string, b: string)
    requires a == "" || b == ""
    ensures LastNonEmpty(LastNonEmpty(x, a), b) == LastNonEmpty(LastNonEmpty(x, b), a)
  {
  }
}
