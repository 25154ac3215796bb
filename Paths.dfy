/** Strings and paths as the goal uses them: String.endsWith, the path of
    new File(parent, child) and the order File.compareTo puts paths in, both
    as on a Unix host (separator "/", case-sensitive comparison), the library
    sort applied to the extern files, and the destination of a per-file output. */
module Paths {

  /** String.endsWith. */
  predicate EndsWith(s: string, suffix: string)
  {
    |suffix| <= |s| && s[|s| - |suffix|..] == suffix
  }

  /** The path of new File(parent, child): the child under the parent, one separator between. */
  function Join(parent: string, child: string): (p: string)
    ensures |p| == |parent| + 1 + |child|
    ensures p[..|parent| + 1] == parent + "/" && p[|parent| + 1..] == child
  {
    parent + "/" + child
  }

  /** Different children of one directory are different files. */
  lemma JoinInjective(parent: string, a: string, b: string)
    requires Join(parent, a) == Join(parent, b)
    ensures a == b
  {
    assert a == Join(parent, a)[|parent| + 1..];
  }

  /** String.compareTo(a, b) <= 0, modelled by character code point (Java
      compares UTF-16 code units): the first differing character decides, and
      a string comes before every longer string it is a prefix of. */
  predicate LessEq(a: string, b: string)
  {
    a == [] || (b != [] && (a[0] < b[0] || (a[0] == b[0] && LessEq(a[1..], b[1..]))))
  }

  lemma {:induction false} LessEqReflexive(a: string)
    ensures LessEq(a, a)
  {
    if a != [] {
      LessEqReflexive(a[1..]);
    }
  }

  lemma {:induction false} LessEqTotal(a: string, b: string)
    ensures LessEq(a, b) || LessEq(b, a)
  {
    if a != [] && b != [] && a[0] == b[0] {
      LessEqTotal(a[1..], b[1..]);
    }
  }

  lemma {:induction false} LessEqTransitive(a: string, b: string, c: string)
    requires LessEq(a, b) && LessEq(b, c)
    ensures LessEq(a, c)
  {
    if a != [] && b != [] && c != [] && a[0] == b[0] && b[0] == c[0] {
      LessEqTransitive(a[1..], b[1..], c[1..]);
    }
  }

  lemma {:induction false} LessEqAntisymmetric(a: string, b: string)
    requires LessEq(a, b) && LessEq(b, a)
    ensures a == b
  {
    if a != [] && b != [] {
      LessEqAntisymmetric(a[1..], b[1..]);
      assert a == [a[0]] + a[1..] && b == [b[0]] + b[1..];
    }
  }

  /** Every path is ordered before every later one. */
  predicate Sorted(s: seq<string>)
  {
    forall i, j :: 0 <= i < j < |s| ==> LessEq(s[i], s[j])
  }

  /** The first element of a sorted sequence comes before every element of it. */
  lemma SortedHeadLeast(s: seq<string>, y: string)
    requires Sorted(s) && y in s
    ensures LessEq(s[0], y)
  {
    var j :| 0 <= j < |s| && s[j] == y;
    if j == 0 {
      LessEqReflexive(y);
    }
  }

  /** One step of the sort: x placed before the first element it is ordered before. */
  function Insert(x: string, s: seq<string>): (r: seq<string>)
    requires Sorted(s)
    ensures Sorted(r)
    ensures multiset(r) == multiset(s) + multiset{x}
  {
    if s == [] then [x]
    else if LessEq(x, s[0]) then
      assert forall k :: 0 <= k < |s| ==> LessEq(x, s[k]) by {
        forall k | 0 <= k < |s| ensures LessEq(x, s[k]) {
          if k > 0 { LessEqTransitive(x, s[0], s[k]); }
        }
      }
      [x] + s
    else
      LessEqTotal(x, s[0]);
      assert s == [s[0]] + s[1..];
      var t := Insert(x, s[1..]);
      assert forall k :: 0 <= k < |t| ==> LessEq(s[0], t[k]) by {
        forall k | 0 <= k < |t| ensures LessEq(s[0], t[k]) {
          assert t[k] in multiset(t);
          if t[k] != x {
            assert t[k] in s;
            SortedHeadLeast(s, t[k]);
          }
        }
      }
      [s[0]] + t
  }

  /** Collections.sort on the extern files: the same paths, in the order
      File.compareTo gives. */
  function SortPaths(s: seq<string>): (r: seq<string>)
    ensures Sorted(r)
    ensures multiset(r) == multiset(s)
  {
    if s == [] then []
    else
      assert s == [s[0]] + s[1..];
      Insert(s[0], SortPaths(s[1..]))
  }

  lemma SortedTail(s: seq<string>)
    requires Sorted(s) && s != []
    ensures Sorted(s[1..])
  {
  }

  lemma MultisetTail(s: seq<string>)
    requires s != []
    ensures multiset(s[1..]) == multiset(s) - multiset{s[0]}
  {
    assert s == [s[0]] + s[1..];
  }

  /** Two sorted arrangements of the same paths start with the same path,
      and what follows it holds the same paths. */
  lemma SortedSameHead(a: seq<string>, b: seq<string>)
    requires Sorted(a) && Sorted(b) && multiset(a) == multiset(b) && a != []
    ensures b != [] && a[0] == b[0] && multiset(a[1..]) == multiset(b[1..])
  {
    assert a[0] in multiset(b);
    assert b != [] && b[0] in multiset(a);
    SortedHeadLeast(a, b[0]);
    SortedHeadLeast(b, a[0]);
    LessEqAntisymmetric(a[0], b[0]);
    MultisetTail(a);
    MultisetTail(b);
  }

  /** The order is total, so a sorted arrangement of given paths is unique:
      the sorted list depends only on which paths were found, not on the
      order in which the directory listings returned them. */
  lemma {:induction false} SortedUnique(a: seq<string>, b: seq<string>)
    requires Sorted(a) && Sorted(b) && multiset(a) == multiset(b)
    ensures a == b
  {
    if a == [] {
      assert |b| == |multiset(b)| == 0;
    } else {
      SortedSameHead(a, b);
      SortedTail(a);
      SortedTail(b);
      SortedUnique(a[1..], b[1..]);
      assert a == [a[0]] + a[1..] && b == [b[0]] + b[1..];
    }
  }

  /** sourceToDest: the relative source name without its last three
      characters, with ".min.js" appended, under the output directory. */
  function SourceToDest(outputDirectory: string, sourceFile: string): (dest: string)
    requires |sourceFile| >= 3
    ensures EndsWith(dest, ".min.js")
    ensures |dest| == |outputDirectory| + |sourceFile| + 5
    ensures dest[..|outputDirectory| + 1] == outputDirectory + "/"
    ensures dest[|outputDirectory| + 1..|dest| - 7] == sourceFile[..|sourceFile| - 3]
  {
    var stem := sourceFile[..|sourceFile| - 3];
    var dest := Join(outputDirectory, stem + ".min.js");
    assert dest[|outputDirectory| + 1..] == stem + ".min.js";
    dest
  }

  /** Distinct source names that end in ".js" get distinct destinations, so
      no per-file output overwrites another. */
  lemma SourceToDestInjective(outputDirectory: string, a: string, b: string)
    requires EndsWith(a, ".js") && EndsWith(b, ".js") && a != b
    ensures SourceToDest(outputDirectory, a) != SourceToDest(outputDirectory, b)
  {
  }
}
