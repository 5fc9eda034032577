/** Dependency graphs: walks, cycles and ranks, independently of how the code looks
    for cycles. */
module Graphs {
  import opened Collections
  import opened Errors

  /** Each registered name with the set of its direct dependencies. */
  type Graph = map<Name, set<Name>>

  predicate Closed(g: Graph) {
    forall n :: n in g ==> g[n] <= g.Keys
  }

  /** The edges that lead to unregistered names. */
  ghost function MissingEdges(g: Graph): set<(Name, Name)> {
    set n, d | n in g && d in g[n] && d !in g :: (n, d)
  }

  lemma ClosedMeansNoneMissing(g: Graph)
    ensures Closed(g) <==> MissingEdges(g) == {}
  {
    if n :| n in g && !(g[n] <= g.Keys) {
      var d :| d in g[n] && d !in g;
      assert (n, d) in MissingEdges(g);
    }
    if Closed(g) {
      assert forall n, d :: n in g && d in g[n] ==> d in g;
    }
  }

  ghost predicate Walk(g: Graph, w: seq<Name>) {
    && |w| > 0
    && (forall i :: 0 <= i < |w| ==> w[i] in g)
    && (forall i :: 0 <= i < |w| - 1 ==> w[i + 1] in g[w[i]])
  }

  ghost predicate Cycle(g: Graph, w: seq<Name>) {
    Walk(g, w) && |w| >= 2 && w[0] == w[|w| - 1]
  }

  ghost predicate HasCycle(g: Graph) {
    exists w :: Cycle(g, w)
  }

  /** r goes strictly down along every edge between members of s. */
  ghost predicate Ranked(g: Graph, s: set<Name>, r: map<Name, nat>) {
    && s <= r.Keys
    && forall n, d :: n in s && n in g && d in s && d in g[n] ==> r[d] < r[n]
  }

  lemma WalkOn(g: Graph, w: seq<Name>, d: Name)
    requires Walk(g, w) && d in g && d in g[w[|w| - 1]]
    ensures Walk(g, w + [d])
  {
  }

  /** A walk repeats a node only by containing a cycle. */
  lemma RepetitionIsCycle(g: Graph, w: seq<Name>, i: nat, j: nat)
    requires Walk(g, w) && i < j < |w| && w[i] == w[j]
    ensures Cycle(g, w[i..j + 1])
  {
  }

  /** The graph has no cycle iff none of its walks repeats a node. */
  lemma AcyclicMeansDistinctWalks(g: Graph)
    ensures !HasCycle(g) <==> forall w :: Walk(g, w) ==> Distinct(w)
  {
    if forall w :: Walk(g, w) ==> Distinct(w) {
      forall w | Walk(g, w) ensures !Cycle(g, w) {
        assert Distinct(w);
      }
    }
    forall w | Walk(g, w) && !Distinct(w) ensures HasCycle(g) {
      var i, j :| 0 <= i < j < |w| && w[i] == w[j];
      RepetitionIsCycle(g, w, i, j);
    }
  }

  /** The length of the longest walk of at most k nodes that begins at n. */
  ghost function Longest(g: Graph, n: Name, k: nat): (l: nat)
    requires n in g
    ensures l <= k || l == 1
    ensures exists w :: Walk(g, w) && w[0] == n && |w| == l
    ensures forall w :: Walk(g, w) && w[0] == n && |w| <= k ==> |w| <= l
  {
    if k <= 1 then
      assert Walk(g, [n]);
      1
    else if w :| Walk(g, w) && w[0] == n && |w| == k then
      k
    else
      Longest(g, n, k - 1)
  }

  /** The longest walk out of n goes on from any of its dependencies. */
  lemma LongestFalls(g: Graph, n: Name, d: Name)
    requires Closed(g) && !HasCycle(g) && n in g && d in g[n] && d in g
    ensures Longest(g, d, |g|) < Longest(g, n, |g|)
  {
    var l := Longest(g, d, |g|);
    var w :| Walk(g, w) && w[0] == d && |w| == l;
    WalkBack(g, n, w);
    AcyclicMeansDistinctWalks(g);
    DistinctIsShort([n] + w, g.Keys);
    assert |g.Keys| == |g|;
  }

  lemma WalkBack(g: Graph, n: Name, w: seq<Name>)
    requires Walk(g, w) && n in g && w[0] in g[n]
    ensures Walk(g, [n] + w)
  {
    var longer := [n] + w;
    forall i | 0 <= i < |longer| - 1 ensures longer[i + 1] in g[longer[i]] {
      assert i > 0 ==> longer[i] == w[i - 1];
    }
  }

  /** An acyclic graph has a rank: the length of the longest walk out of each node. */
  lemma AcyclicIsRanked(g: Graph) returns (r: map<Name, nat>)
    requires Closed(g) && !HasCycle(g)
    ensures r.Keys == g.Keys && Ranked(g, g.Keys, r)
  {
    r := map n | n in g :: Longest(g, n, |g|);
    forall n, d | n in g && d in g[n] ensures r[d] < r[n] {
      LongestFalls(g, n, d);
    }
  }

  /** Ranks bound every walk, so a ranked part of a graph carries no cycle. */
  lemma {:induction false} RankFallsAlongWalk(g: Graph, s: set<Name>, r: map<Name, nat>, w: seq<Name>)
    requires Ranked(g, s, r) && Walk(g, w) && |w| >= 2
    requires forall i :: 0 <= i < |w| ==> w[i] in s
    ensures r[w[|w| - 1]] < r[w[0]]
  {
    if |w| > 2 {
      RankFallsAlongWalk(g, s, r, w[1..]);
    }
    assert w[1] in g[w[0]];
  }

  /** A closed graph is acyclic exactly when it can be ranked. */
  lemma AcyclicIffRanked(g: Graph)
    requires Closed(g)
    ensures !HasCycle(g) <==> exists r :: Ranked(g, g.Keys, r)
  {
    if !HasCycle(g) {
      var r := AcyclicIsRanked(g);
    }
    if r :| Ranked(g, g.Keys, r) {
      forall w | Walk(g, w) && |w| >= 2 ensures !Cycle(g, w) {
        RankFallsAlongWalk(g, g.Keys, r, w);
      }
    }
  }

  /** A common bound on the values of a finite map, to turn a rank upside down. */
  lemma {:induction false} Bound(r: map<Name, nat>) returns (m: nat)
    ensures forall n :: n in r ==> r[n] <= m
    decreases |r|
  {
    m := 0;
    if r.Keys != {} {
      var n :| n in r.Keys;
      var rest := r - {n};
      assert rest.Keys == r.Keys - {n};
      assert |rest.Keys| < |r.Keys|;
      m := Bound(rest);
      assert forall k :: k in r && k != n ==> r[k] == rest[k];
      m := if m < r[n] then r[n] else m;
    }
  }
}
