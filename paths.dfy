/**
 * Paths as java.io.File and java.nio.file.Path see them on a Unix-like system: an optional
 * root and a list of name elements, rendered with '/' between the names. The comparator
 * used to order discovered source files is defined here too.
 */
module Paths {
  import opened Common

  datatype Path = Path(absolute: bool, names: seq<string>)

  /** A name element as Files.walk produces it: non-empty and free of '/'. */
  predicate WellFormedName(n: string) {
    n != [] && '/' !in n
  }

  predicate WellFormed(p: Path) {
    forall k :: 0 <= k < |p.names| ==> WellFormedName(p.names[k])
  }

  /** Path.getNameCount: the number of name elements, the root not counted. */
  function Depth(p: Path): nat {
    |p.names|
  }

  /** The names joined with single slashes. */
  function JoinNames(names: seq<string>): string {
    if names == [] then []
    else if |names| == 1 then names[0]
    else names[0] + "/" + JoinNames(names[1..])
  }

  /** File.toString / Path.toString. */
  function PathString(p: Path): string {
    (if p.absolute then "/" else "") + JoinNames(p.names)
  }

  /**
   * The name elements of a path string after java.io.File's normalisation: the string cut
   * at every '/', empty names (from repeated, leading or trailing slashes) dropped.
   */
  function NameElements(s: string): (r: seq<string>)
    ensures forall k :: 0 <= k < |r| ==> WellFormedName(r[k])
    ensures s != [] && s[0] != '/' ==> |r| >= 1 && r[0] != [] && r[0][0] == s[0]
  {
    if s == [] then
      []
    else
      var rest := NameElements(s[1..]);
      if s[0] == '/' then rest
      else if s[1..] == [] || s[1] == '/' then [[s[0]]] + rest
      else [[s[0]] + rest[0]] + rest[1..]
  }

  /** `names` appended to the parent's names; an empty parent path stands for the root
      directory. */
  function Append(parent: Path, names: seq<string>): (r: Path)
    ensures r.names == parent.names + names
  {
    if !parent.absolute && parent.names == [] then Path(true, names)
    else Path(parent.absolute, parent.names + names)
  }

  /** new File(parent, child): the child's name elements appended to the parent's. */
  function Resolve(parent: Path, child: string): (r: Path)
    ensures WellFormed(parent) ==> WellFormed(r)
    ensures r.names == parent.names + NameElements(child)
  {
    Append(parent, NameElements(child))
  }

  /** File.getParentFile: None where Java returns null (the root itself, or a relative path
      of a single name). */
  function Parent(p: Path): Option<Path> {
    if |p.names| > 1 then Some(Path(p.absolute, p.names[..|p.names| - 1]))
    else if |p.names| == 1 && p.absolute then Some(Path(true, []))
    else None
  }

  /** File.getAbsoluteFile: a relative path is resolved against the working directory. */
  function AbsolutePath(userDir: seq<string>, p: Path): (r: Path)
    ensures r.absolute
    ensures p.absolute ==> r == p
  {
    if p.absolute then p else Path(true, userDir + p.names)
  }

  /** getParentFile is null exactly for the root and for a single relative name; otherwise the
      parent followed by the last name is the path again. */
  lemma ParentMeaning(p: Path)
    ensures Parent(p).None? <==> p.names == [] || (|p.names| == 1 && !p.absolute)
    ensures Parent(p).Some? ==>
      Parent(p).value.absolute == p.absolute && Parent(p).value.names + [p.names[|p.names| - 1]] == p.names
  {
  }

  // ---------------------------------------------------------------------------------------
  // Rendering and normalising are inverse to each other on well-formed paths.

  lemma {:induction false} NameElementsOfName(n: string, rest: string)
    requires WellFormedName(n) && (rest == [] || rest[0] == '/')
    ensures NameElements(n + rest) == [n] + NameElements(rest)
    decreases |n|
  {
    var s := n + rest;
    assert s[1..] == n[1..] + rest;
    if |n| > 1 {
      NameElementsOfName(n[1..], rest);
      assert s[1] == n[1];
      assert [n[0]] + n[1..] == n;
    } else {
      assert n[1..] == [] && [n[0]] == n;
    }
  }

  /** Normalising a rendered list of names gives the names back. */
  lemma {:induction false} NameElementsOfJoinNames(names: seq<string>)
    requires forall k :: 0 <= k < |names| ==> WellFormedName(names[k])
    ensures NameElements(JoinNames(names)) == names
    decreases |names|
  {
    if |names| == 1 {
      NameElementsOfName(names[0], []);
      assert names[0] + [] == names[0];
    } else if |names| > 1 {
      var tail := JoinNames(names[1..]);
      NameElementsOfJoinNames(names[1..]);
      NameElementsOfName(names[0], "/" + tail);
      assert names[0] + "/" + tail == names[0] + ("/" + tail);
      assert ("/" + tail)[1..] == tail;
      assert names == [names[0]] + names[1..];
    }
  }

  /** The string form determines a well-formed path: two well-formed paths that print the
      same are the same path. */
  lemma PathStringInjective(p: Path, q: Path)
    requires WellFormed(p) && WellFormed(q)
    requires PathString(p) == PathString(q)
    ensures p == q
  {
    NameElementsOfJoinNames(p.names);
    NameElementsOfJoinNames(q.names);
    assert NameElements(PathString(p)) == p.names by {
      var j := JoinNames(p.names);
      if p.absolute {
        assert PathString(p) == "/" + j && ("/" + j)[1..] == j;
      } else {
        assert PathString(p) == "" + j == j;
      }
    }
    assert NameElements(PathString(q)) == q.names by {
      var j := JoinNames(q.names);
      if q.absolute {
        assert PathString(q) == "/" + j && ("/" + j)[1..] == j;
      } else {
        assert PathString(q) == "" + j == j;
      }
    }
    assert |PathString(p)| == (if p.absolute then 1 else 0) + |JoinNames(p.names)|;
    assert |PathString(q)| == (if q.absolute then 1 else 0) + |JoinNames(q.names)|;
  }

  // ---------------------------------------------------------------------------------------
  // Ordering.

  /** String.compareTo: the difference of the first differing characters, or of the lengths
      when one string is a prefix of the other. */
  function CompareStrings(a: string, b: string): int {
    if a == [] || b == [] then |a| - |b|
    else if a[0] != b[0] then a[0] as int - b[0] as int
    else CompareStrings(a[1..], b[1..])
  }

  /**
   * The comparator of WebHelperMavenPlugin.findSourceFiles: a path with more name elements
   * comes first; paths of equal depth are compared as strings (File.compareTo on a Unix-like
   * system).
   */
  function ComparePaths(a: Path, b: Path): int {
    if Depth(a) == Depth(b) then CompareStrings(PathString(a), PathString(b))
    else Depth(b) - Depth(a)
  }

  lemma {:induction false} CompareStringsAntisymmetric(a: string, b: string)
    ensures CompareStrings(a, b) == -CompareStrings(b, a)
    decreases |a|
  {
    if a != [] && b != [] && a[0] == b[0] {
      CompareStringsAntisymmetric(a[1..], b[1..]);
    }
  }

  lemma {:induction false} CompareStringsZero(a: string, b: string)
    ensures CompareStrings(a, b) == 0 <==> a == b
    decreases |a|
  {
    if a != [] && b != [] && a[0] == b[0] {
      CompareStringsZero(a[1..], b[1..]);
      assert a == [a[0]] + a[1..] && b == [b[0]] + b[1..];
    }
  }

  lemma {:induction false} CompareStringsTransitive(a: string, b: string, c: string)
    requires CompareStrings(a, b) < 0 && CompareStrings(b, c) < 0
    ensures CompareStrings(a, c) < 0
    decreases |a|
  {
    if a != [] && b != [] && c != [] && a[0] == b[0] && b[0] == c[0] {
      CompareStringsTransitive(a[1..], b[1..], c[1..]);
    }
  }

  /** The comparator is antisymmetric: swapping the arguments negates the result. */
  lemma ComparePathsAntisymmetric(a: Path, b: Path)
    ensures ComparePaths(a, b) == -ComparePaths(b, a)
  {
    CompareStringsAntisymmetric(PathString(a), PathString(b));
  }

  /** The comparator reports two paths equal exactly when they have the same depth and print
      the same; for well-formed paths, exactly when they are the same path. */
  lemma ComparePathsZero(a: Path, b: Path)
    ensures ComparePaths(a, b) == 0 <==> Depth(a) == Depth(b) && PathString(a) == PathString(b)
    ensures WellFormed(a) && WellFormed(b) ==> (ComparePaths(a, b) == 0 <==> a == b)
  {
    CompareStringsZero(PathString(a), PathString(b));
    if WellFormed(a) && WellFormed(b) && PathString(a) == PathString(b) {
      PathStringInjective(a, b);
    }
  }

  /** The comparator is transitive, strictly and non-strictly. */
  lemma ComparePathsTransitive(a: Path, b: Path, c: Path)
    ensures ComparePaths(a, b) < 0 && ComparePaths(b, c) < 0 ==> ComparePaths(a, c) < 0
    ensures ComparePaths(a, b) <= 0 && ComparePaths(b, c) <= 0 ==> ComparePaths(a, c) <= 0
  {
    var sa, sb, sc := PathString(a), PathString(b), PathString(c);
    if Depth(a) == Depth(b) == Depth(c) {
      CompareStringsZero(sa, sb);
      CompareStringsZero(sb, sc);
      if CompareStrings(sa, sb) < 0 && CompareStrings(sb, sc) < 0 {
        CompareStringsTransitive(sa, sb, sc);
      }
    }
  }
}
