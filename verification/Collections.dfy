/** Sizes of finite sets and of the sets of a sequence's elements. */
module Collections {

  predicate Distinct<T(==)>(s: seq<T>) {
    forall i, j :: 0 <= i < j < |s| ==> s[i] != s[j]
  }

  ghost function Elements<T>(s: seq<T>): set<T> {
    set x | x in s
  }

  lemma SubsetSize<T>(a: set<T>, b: set<T>)
    requires a <= b
    ensures |a| <= |b|
    ensures |a| == |b| ==> a == b
  {
    assert b == a + (b - a) && |b| == |a| + |b - a|;
  }

  lemma ElementsGrow<T>(s: seq<T>, x: T)
    ensures Elements(s + [x]) == Elements(s) + {x}
  {
  }

  lemma {:induction false} DistinctSize<T>(s: seq<T>)
    requires Distinct(s)
    ensures |Elements(s)| == |s|
  {
    if s == [] {
      assert Elements(s) == {};
    } else {
      var front, last := s[..|s| - 1], s[|s| - 1];
      DistinctSize(front);
      ElementsGrow(front, last);
      assert s == front + [last];
      assert last !in front;
    }
  }

  /** A finite non-empty set has a member that nothing in it comes before. */
  lemma {:induction false} FirstExists<T(!new)>(pool: set<T>, before: (T, T) -> bool) returns (first: T)
    requires pool != {}
    requires forall a, b, c :: before(a, b) && before(b, c) ==> before(a, c)
    requires forall a :: !before(a, a)
    ensures first in pool && forall x :: x in pool ==> !before(x, first)
    decreases |pool|
  {
    first :| first in pool;
    var rest := pool - {first};
    if rest != {} {
      var f := FirstExists(rest, before);
      if !before(first, f) {
        first := f;
      }
    } else {
      assert pool == {first};
    }
  }
}
