/**
 * WebHelperMavenPlugin.findSourceFiles: keep the regular files of a directory walk whose
 * path ends with an extension, then sort them deepest first, ties broken by comparing the
 * path strings.
 */
module SourceLocator {
  import opened Common
  import opened Paths

  /** No element may be moved behind one the comparator puts after it. */
  predicate Sorted(s: seq<Path>) {
    forall i, j :: 0 <= i < j < |s| ==> ComparePaths(s[i], s[j]) <= 0
  }

  /** The filter of the stream pipeline: a regular file whose path string ends with `extension`. */
  predicate IsSourceFile(isFile: Path -> bool, extension: string, p: Path) {
    isFile(p) && EndsWith(PathString(p), extension)
  }

  /** The walked paths that pass the filter, in walk order. */
  function Matching(walk: seq<Path>, isFile: Path -> bool, extension: string): seq<Path> {
    if walk == [] then []
    else
      (if IsSourceFile(isFile, extension, walk[0]) then [walk[0]] else [])
      + Matching(walk[1..], isFile, extension)
  }

  /** `x` placed into the sorted list `s` in front of the first element it does not follow. */
  function Insert(x: Path, s: seq<Path>): seq<Path> {
    if s == [] || ComparePaths(x, s[0]) <= 0 then [x] + s
    else [s[0]] + Insert(x, s[1..])
  }

  /** A stable sort by ComparePaths (insertion sort). */
  function Sort(s: seq<Path>): seq<Path> {
    if s == [] then [] else Insert(s[0], Sort(s[1..]))
  }

  /** findSourceFiles over the paths a walk of the root produced. */
  function FindSourceFiles(walk: seq<Path>, isFile: Path -> bool, extension: string): seq<Path> {
    Sort(Matching(walk, isFile, extension))
  }

  // ---------------------------------------------------------------------------------------
  // Sorting.

  lemma {:induction false} InsertPermutation(x: Path, s: seq<Path>)
    ensures multiset(Insert(x, s)) == multiset(s) + multiset{x}
    decreases |s|
  {
    if s != [] && ComparePaths(x, s[0]) > 0 {
      InsertPermutation(x, s[1..]);
      assert s == [s[0]] + s[1..];
    }
  }

  /** An element at or before every element of a sorted list can be put in front of it. */
  lemma SortedCons(h: Path, t: seq<Path>)
    requires Sorted(t)
    requires forall j :: 0 <= j < |t| ==> ComparePaths(h, t[j]) <= 0
    ensures Sorted([h] + t)
  {
    var r := [h] + t;
    forall i, j | 0 <= i < j < |r| ensures ComparePaths(r[i], r[j]) <= 0 {
      assert r[j] == t[j - 1];
      if i > 0 {
        assert r[i] == t[i - 1];
      }
    }
  }

  lemma {:induction false} InsertSorted(x: Path, s: seq<Path>)
    requires Sorted(s)
    ensures Sorted(Insert(x, s))
    decreases |s|
  {
    if s == [] {
    } else if ComparePaths(x, s[0]) <= 0 {
      forall j | 0 <= j < |s| ensures ComparePaths(x, s[j]) <= 0 {
        ComparePathsTransitive(x, s[0], s[j]);
      }
      SortedCons(x, s);
    } else {
      var tail := Insert(x, s[1..]);
      InsertSorted(x, s[1..]);
      InsertPermutation(x, s[1..]);
      ComparePathsAntisymmetric(x, s[0]);
      forall j | 0 <= j < |tail| ensures ComparePaths(s[0], tail[j]) <= 0 {
        assert tail[j] in multiset(tail);
        assert tail[j] == x || tail[j] in multiset(s[1..]);
      }
      SortedCons(s[0], tail);
    }
  }

  /** The sort yields a sorted permutation of its input. */
  lemma {:induction false} SortSortedPermutation(s: seq<Path>)
    ensures Sorted(Sort(s))
    ensures multiset(Sort(s)) == multiset(s)
    decreases |s|
  {
    if s != [] {
      SortSortedPermutation(s[1..]);
      InsertSorted(s[0], Sort(s[1..]));
      InsertPermutation(s[0], Sort(s[1..]));
      assert s == [s[0]] + s[1..];
    }
  }

  /** The head of a sorted list is at or before every element of it. */
  lemma SortedHeadFirst(s: seq<Path>, x: Path)
    requires Sorted(s) && x in s
    ensures ComparePaths(s[0], x) <= 0
  {
    var i :| 0 <= i < |s| && s[i] == x;
    if i == 0 {
      ComparePathsZero(x, x);
    }
  }

  lemma TailMultiset(s: seq<Path>, t: seq<Path>)
    requires s != [] && t != [] && s[0] == t[0] && multiset(s) == multiset(t)
    ensures multiset(s[1..]) == multiset(t[1..])
  {
    assert s == [s[0]] + s[1..] && t == [t[0]] + t[1..];
    assert multiset(s) == multiset{s[0]} + multiset(s[1..]);
    assert multiset(t) == multiset{t[0]} + multiset(t[1..]);
    assert multiset(s[1..]) == multiset(s) - multiset{s[0]};
    assert multiset(t[1..]) == multiset(t) - multiset{t[0]};
  }

  /** A sorted list of well-formed paths is determined by its elements: the comparator never
      reports two different well-formed paths equal, so there is one sorted order. */
  lemma {:induction false} SortedUnique(s: seq<Path>, t: seq<Path>)
    requires Sorted(s) && Sorted(t) && multiset(s) == multiset(t)
    requires forall k :: 0 <= k < |s| ==> WellFormed(s[k])
    ensures s == t
    decreases |s|
  {
    assert |t| == |s| by { assert |multiset(t)| == |multiset(s)|; }
    if s != [] {
      assert s[0] in multiset(t) && t[0] in multiset(s);
      SortedHeadFirst(s, t[0]);
      SortedHeadFirst(t, s[0]);
      ComparePathsAntisymmetric(s[0], t[0]);
      assert WellFormed(t[0]) by {
        var j :| 0 <= j < |s| && s[j] == t[0];
      }
      ComparePathsZero(s[0], t[0]);
      TailMultiset(s, t);
      SortedUnique(s[1..], t[1..]);
      assert s == [s[0]] + s[1..] && t == [t[0]] + t[1..];
    }
  }

  // ---------------------------------------------------------------------------------------
  // Filtering.

  /** The filter keeps each walked path exactly as often as the walk produced it when it is
      a matching regular file, and drops it otherwise. */
  lemma {:induction false} MatchingCounts(walk: seq<Path>, isFile: Path -> bool, extension: string)
    ensures forall p :: multiset(Matching(walk, isFile, extension))[p]
                        == if IsSourceFile(isFile, extension, p) then multiset(walk)[p] else 0
    decreases |walk|
  {
    if walk != [] {
      MatchingCounts(walk[1..], isFile, extension);
      assert walk == [walk[0]] + walk[1..];
    }
  }

  // ---------------------------------------------------------------------------------------
  // What findSourceFiles promises.

  /** Only regular files whose path ends with the extension survive, and each of them
      survives: the result holds exactly the matching walked paths. */
  lemma FindSourceFilesSelects(walk: seq<Path>, isFile: Path -> bool, extension: string)
    ensures forall p :: p in FindSourceFiles(walk, isFile, extension)
                        <==> p in walk && IsSourceFile(isFile, extension, p)
  {
    var m := Matching(walk, isFile, extension);
    SortSortedPermutation(m);
    MatchingCounts(walk, isFile, extension);
    forall p ensures p in FindSourceFiles(walk, isFile, extension)
                     <==> p in walk && IsSourceFile(isFile, extension, p) {
      assert p in FindSourceFiles(walk, isFile, extension) <==> p in multiset(m);
      assert p in walk <==> p in multiset(walk);
    }
  }

  /** Mapping and sorting neither drop nor duplicate anything: the result is a permutation
      of the filtered walk. */
  lemma FindSourceFilesPermutation(walk: seq<Path>, isFile: Path -> bool, extension: string)
    ensures multiset(FindSourceFiles(walk, isFile, extension))
            == multiset(Matching(walk, isFile, extension))
  {
    SortSortedPermutation(Matching(walk, isFile, extension));
  }

  /** A path with more name elements always precedes a path with fewer; among paths of equal
      depth the path strings ascend. */
  lemma FindSourceFilesOrder(walk: seq<Path>, isFile: Path -> bool, extension: string)
    ensures var r := FindSourceFiles(walk, isFile, extension);
            forall i, j :: 0 <= i < j < |r| ==>
              && Depth(r[i]) >= Depth(r[j])
              && (Depth(r[i]) == Depth(r[j]) ==> CompareStrings(PathString(r[i]), PathString(r[j])) <= 0)
  {
    var r := FindSourceFiles(walk, isFile, extension);
    SortSortedPermutation(Matching(walk, isFile, extension));
    forall i, j | 0 <= i < j < |r|
      ensures Depth(r[i]) >= Depth(r[j])
      ensures Depth(r[i]) == Depth(r[j]) ==> CompareStrings(PathString(r[i]), PathString(r[j])) <= 0
    {
      assert ComparePaths(r[i], r[j]) <= 0;
    }
  }

  /** The order in which the walk visits the files does not matter: two walks producing the
      same well-formed paths yield the same list. */
  lemma FindSourceFilesIgnoresWalkOrder(w1: seq<Path>, w2: seq<Path>, isFile: Path -> bool, extension: string)
    requires multiset(w1) == multiset(w2)
    requires forall k :: 0 <= k < |w1| ==> WellFormed(w1[k])
    ensures FindSourceFiles(w1, isFile, extension) == FindSourceFiles(w2, isFile, extension)
  {
    var r1, r2 := FindSourceFiles(w1, isFile, extension), FindSourceFiles(w2, isFile, extension);
    FindSourceFilesPermutation(w1, isFile, extension);
    FindSourceFilesPermutation(w2, isFile, extension);
    MatchingCounts(w1, isFile, extension);
    MatchingCounts(w2, isFile, extension);
    SortSortedPermutation(Matching(w1, isFile, extension));
    SortSortedPermutation(Matching(w2, isFile, extension));
    assert multiset(r1) == multiset(r2) by {
      forall p ensures multiset(r1)[p] == multiset(r2)[p] {}
    }
    forall k | 0 <= k < |r1| ensures WellFormed(r1[k]) {
      FindSourceFilesSelects(w1, isFile, extension);
      assert r1[k] in r1;
      var n :| 0 <= n < |w1| && w1[n] == r1[k];
    }
    SortedUnique(r1, r2);
  }

  /** Under a root with a/b.js one level deeper than c.js, a/b.js comes first. */
  lemma DeeperFileFirst()
    ensures var deep := Path(true, ["p", "a", "b.js"]);
            var shallow := Path(true, ["p", "c.js"]);
            FindSourceFiles([shallow, deep], (p: Path) => true, ".js") == [deep, shallow]
  {
    var deep := Path(true, ["p", "a", "b.js"]);
    var shallow := Path(true, ["p", "c.js"]);
    var isFile := (p: Path) => true;
    assert PathString(deep) == "/p/a/b.js";
    assert PathString(shallow) == "/p/c.js";
    assert IsSourceFile(isFile, ".js", shallow) by { assert "/p/c.js"[4..] == ".js"; }
    assert IsSourceFile(isFile, ".js", deep) by { assert "/p/a/b.js"[6..] == ".js"; }
    assert [shallow, deep][1..] == [deep] && [deep][1..] == [];
    assert Matching([deep], isFile, ".js") == [deep];
    assert Matching([shallow, deep], isFile, ".js") == [shallow, deep];
    assert ComparePaths(shallow, deep) > 0;
  }
}
