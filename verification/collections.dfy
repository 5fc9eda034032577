/** Sequences without repetition, and the arbitrary order in which Go ranges over a map. */
module Collections {
  ghost predicate Distinct<T>(s: seq<T>) {
    forall i, j :: 0 <= i < j < |s| ==> s[i] != s[j]
  }

  lemma {:induction false} DistinctIsShort<T>(w: seq<T>, s: set<T>)
    requires Distinct(w)
    requires forall x :: x in w ==> x in s
    ensures |w| <= |s|
  {
    if w != [] {
      var last := w[|w| - 1];
      DistinctIsShort(w[..|w| - 1], s - {last});
    }
  }

  lemma {:induction false} DistinctCounts<T>(w: seq<T>, s: set<T>)
    requires Distinct(w)
    requires forall x :: x in s <==> x in w
    ensures |w| == |s|
  {
    if w == [] {
      assert s == {};
    } else {
      var last := w[|w| - 1];
      assert forall x :: x in w[..|w| - 1] ==> x in w && x != last;
      DistinctCounts(w[..|w| - 1], s - {last});
    }
  }

  /** order visits the members of s, each of them once. */
  ghost predicate Enumerates<T(!new)>(order: seq<T>, s: set<T>) {
    Distinct(order) && forall x :: x in order <==> x in s
  }

  /** The keys of a map in some order. */
  method Range<T(==,!new)>(s: set<T>) returns (order: seq<T>)
    ensures Enumerates(order, s)
  {
    order := [];
    var todo := s;
    while todo != {}
      invariant todo <= s && Enumerates(order, s - todo)
    {
      var x :| x in todo;
      order, todo := order + [x], todo - {x};
    }
  }
}
