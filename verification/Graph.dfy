/** Directed graphs over service names: walks, cycles, reachability and longest chains.

A graph maps each loaded service to the names of its dependencies, in order and with
repetition.  A dependency may name a service that is not loaded; such a name has no
outgoing edges. */
module Graph {

  type Name = string

  type Graph = map<Name, seq<Name>>

  ghost predicate Edge(g: Graph, u: Name, v: Name) {
    u in g && v in g[u]
  }

  /** The `i`-th step of `p` follows an edge. */
  ghost predicate Hop(g: Graph, p: seq<Name>, i: nat)
    requires 0 < i < |p|
  {
    Edge(g, p[i - 1], p[i])
  }

  /** A walk lists the services it visits; it has one edge fewer than it has services. */
  ghost predicate IsWalk(g: Graph, p: seq<Name>) {
    |p| > 0 && forall i: nat :: 0 < i < |p| ==> Hop(g, p, i)
  }

  ghost predicate WalkFromTo(g: Graph, p: seq<Name>, u: Name, v: Name) {
    IsWalk(g, p) && p[0] == u && p[|p| - 1] == v
  }

  /** `v` can be reached from `u` along zero or more edges. */
  ghost predicate Reaches(g: Graph, u: Name, v: Name) {
    exists p :: WalkFromTo(g, p, u, v)
  }

  /** A closed walk with at least one edge. */
  ghost predicate IsCycle(g: Graph, p: seq<Name>) {
    |p| > 1 && IsWalk(g, p) && p[0] == p[|p| - 1]
  }

  ghost predicate HasCycle(g: Graph) {
    exists p :: IsCycle(g, p)
  }

  ghost predicate Acyclic(g: Graph) {
    !HasCycle(g)
  }

  /** Some service on a cycle reaches `v`. */
  ghost predicate CyclicAncestor(g: Graph, v: Name) {
    exists p :: IsCycle(g, p) && Reaches(g, p[0], v)
  }

  ghost predicate WalkInto(g: Graph, p: seq<Name>, v: Name) {
    IsWalk(g, p) && p[|p| - 1] == v
  }

  ghost predicate WalkOutOf(g: Graph, p: seq<Name>, u: Name) {
    IsWalk(g, p) && p[0] == u
  }

  /** `d` is the number of edges of a longest walk that ends in `v`. */
  ghost predicate LongestInto(g: Graph, v: Name, d: nat) {
    && (exists p :: WalkInto(g, p, v) && |p| == d + 1)
    && (forall p :: WalkInto(g, p, v) ==> |p| <= d + 1)
  }

  /** `d` is the number of edges of a longest walk that starts in `u`. */
  ghost predicate LongestFrom(g: Graph, u: Name, d: nat) {
    && (exists p :: WalkOutOf(g, p, u) && |p| == d + 1)
    && (forall p :: WalkOutOf(g, p, u) ==> |p| <= d + 1)
  }

  // ----- building walks -----

  lemma WalkSnoc(g: Graph, p: seq<Name>, v: Name)
    requires IsWalk(g, p) && Edge(g, p[|p| - 1], v)
    ensures IsWalk(g, p + [v])
  {
    forall i: nat | 0 < i < |p + [v]| ensures Hop(g, p + [v], i) {
      if i < |p| { assert Hop(g, p, i); }
    }
  }

  lemma WalkSlice(g: Graph, p: seq<Name>, i: nat, j: nat)
    requires IsWalk(g, p) && i < j <= |p|
    ensures IsWalk(g, p[i..j])
  {
    forall k: nat | 0 < k < |p[i..j]| ensures Hop(g, p[i..j], k) {
      assert Hop(g, p, i + k);
    }
  }

  /** Two walks that share an end point join into one. */
  lemma WalkJoin(g: Graph, p: seq<Name>, q: seq<Name>)
    requires IsWalk(g, p) && IsWalk(g, q) && p[|p| - 1] == q[0]
    ensures IsWalk(g, p + q[1..])
  {
    var r := p + q[1..];
    forall k: nat | 0 < k < |r| ensures Hop(g, r, k) {
      if k < |p| {
        assert Hop(g, p, k);
      } else {
        assert Hop(g, q, k - |p| + 1);
      }
    }
  }

  lemma ReachesTransitive(g: Graph, u: Name, v: Name, w: Name)
    requires Reaches(g, u, v) && Reaches(g, v, w)
    ensures Reaches(g, u, w)
  {
    var p :| WalkFromTo(g, p, u, v);
    var q :| WalkFromTo(g, q, v, w);
    WalkJoin(g, p, q);
    assert WalkFromTo(g, p + q[1..], u, w);
  }

  lemma ReachesSelf(g: Graph, u: Name)
    ensures Reaches(g, u, u)
  {
    assert WalkFromTo(g, [u], u, u);
  }

  lemma EdgeReaches(g: Graph, u: Name, v: Name)
    requires Edge(g, u, v)
    ensures Reaches(g, u, v)
  {
    assert Hop(g, [u, v], 1);
    assert WalkFromTo(g, [u, v], u, v);
  }

  // ----- cycles, ranks and the pigeonhole principle -----

  /** A list over a finite set that is longer than the set repeats an element. */
  lemma {:induction false} Pigeonhole(p: seq<Name>, s: set<Name>)
    requires forall x :: x in p ==> x in s
    requires |p| > |s|
    ensures exists i, j :: 0 <= i < j < |p| && p[i] == p[j]
  {
    var x := p[0];
    assert x in s;
    if x in p[1..] {
      var j :| 0 <= j < |p[1..]| && p[1..][j] == x;
      assert p[0] == p[j + 1];
    } else {
      forall y | y in p[1..] ensures y in s - {x} {}
      Pigeonhole(p[1..], s - {x});
      var i, j :| 0 <= i < j < |p[1..]| && p[1..][i] == p[1..][j];
      assert p[i + 1] == p[j + 1];
    }
  }

  lemma Smaller(a: set<Name>, b: set<Name>)
    requires a < b
    ensures |a| < |b|
  {
    var x :| x in b && x !in a;
    assert b == a + (b - a) && x in b - a;
    assert |b| == |a| + |b - a|;
  }

  /** Every service of a walk that has a successor on the walk is loaded. */
  lemma WalkInGraph(g: Graph, p: seq<Name>)
    requires IsWalk(g, p)
    ensures forall x :: x in p[..|p| - 1] ==> x in g
  {
    forall x | x in p[..|p| - 1] ensures x in g {
      var i :| 0 <= i < |p| - 1 && p[i] == x;
      assert Hop(g, p, i + 1);
    }
  }

  /** A walk that visits more services than are loaded contains a cycle. */
  lemma LongWalkRepeats(g: Graph, p: seq<Name>) returns (i: nat, j: nat)
    requires IsWalk(g, p) && |p| > |g.Keys| + 1
    ensures i < j < |p| && IsCycle(g, p[i..j + 1])
  {
    WalkInGraph(g, p);
    Pigeonhole(p[..|p| - 1], g.Keys);
    var a, b :| 0 <= a < b < |p| - 1 && p[..|p| - 1][a] == p[..|p| - 1][b];
    i, j := a, b;
    WalkSlice(g, p, i, j + 1);
  }

  /** Walks into `v` have a longest member exactly when no cycle reaches `v`. */
  lemma LongestIntoIffNoCyclicAncestor(g: Graph, v: Name)
    ensures (exists d :: LongestInto(g, v, d)) <==> !CyclicAncestor(g, v)
  {
    if CyclicAncestor(g, v) {
      var c :| IsCycle(g, c) && Reaches(g, c[0], v);
      var p :| WalkFromTo(g, p, c[0], v);
      forall d: nat ensures !LongestInto(g, v, d) {
        var q := PumpedWalk(g, c, p, d);
        assert WalkInto(g, q, v);
      }
    } else {
      assert WalkInto(g, [v], v);
      if forall d: nat :: !LongestInto(g, v, d) {
        var p := ArbitrarilyLongWalk(g, v, |g.Keys| + 1);
        var i, j := LongWalkRepeats(g, p);
        WalkSlice(g, p, i, |p|);
        assert p[i..] == p[i..|p|];
        assert WalkFromTo(g, p[i..], p[i], v);
      }
    }
  }

  lemma {:induction false} PumpedWalk(g: Graph, c: seq<Name>, p: seq<Name>, n: nat) returns (q: seq<Name>)
    requires IsCycle(g, c) && IsWalk(g, p) && p[0] == c[0]
    ensures IsWalk(g, q) && q[0] == c[0] && q[|q| - 1] == p[|p| - 1] && |q| > n + 1
    decreases n
  {
    if n == 0 {
      WalkJoin(g, c, p);
      q := c + p[1..];
    } else {
      var r := PumpedWalk(g, c, p, n - 1);
      WalkJoin(g, c, r);
      q := c + r[1..];
    }
  }

  lemma {:induction false} ArbitrarilyLongWalk(g: Graph, v: Name, n: nat) returns (p: seq<Name>)
    requires forall d: nat :: !LongestInto(g, v, d)
    ensures WalkInto(g, p, v) && |p| > n
  {
    if n == 0 {
      p := [v];
    } else {
      var q := ArbitrarilyLongWalk(g, v, n - 1);
      if |q| > n {
        p := q;
      } else {
        assert |q| == (n - 1) + 1 && !LongestInto(g, v, n - 1);
        p :| WalkInto(g, p, v) && |p| > n;
      }
    }
  }

  /** Where every edge strictly lowers a rank, a walk is no longer than the rank of its
      first service allows. */
  lemma {:induction false} RankBoundsWalk(g: Graph, rank: map<Name, nat>, p: seq<Name>)
    requires IsWalk(g, p) && forall x :: x in p ==> x in rank
    requires forall u, v :: Edge(g, u, v) && u in rank && v in rank ==> rank[v] < rank[u]
    ensures rank[p[|p| - 1]] + |p| - 1 <= rank[p[0]]
    decreases |p|
  {
    if |p| > 1 {
      assert Hop(g, p, 1);
      WalkSlice(g, p, 1, |p|);
      assert p[1..] == p[1..|p|];
      RankBoundsWalk(g, rank, p[1..]);
    }
  }

  lemma RankedIsAcyclic(g: Graph, rank: map<Name, nat>)
    requires g.Keys <= rank.Keys
    requires forall u, v :: Edge(g, u, v) && u in rank && v in rank ==> rank[v] < rank[u]
    ensures Acyclic(g)
  {
    forall p | IsCycle(g, p) ensures false {
      WalkInGraph(g, p);
      forall x | x in p ensures x in rank {
        var i :| 0 <= i < |p| && p[i] == x;
        assert p[..|p| - 1][if i < |p| - 1 then i else 0] == x;
      }
      RankBoundsWalk(g, rank, p);
    }
  }

  // ----- longest chains out of a service -----

  lemma {:induction false} BoundedHasLongest(g: Graph, u: Name, bound: nat) returns (d: nat)
    requires forall p :: WalkOutOf(g, p, u) ==> |p| <= bound + 1
    ensures LongestFrom(g, u, d)
  {
    if bound == 0 {
      assert WalkOutOf(g, [u], u);
      d := 0;
    } else if exists p :: WalkOutOf(g, p, u) && |p| == bound + 1 {
      d := bound;
    } else {
      d := BoundedHasLongest(g, u, bound - 1);
    }
  }

  /** Without cycles, every service has a longest chain. */
  lemma AcyclicHasLongest(g: Graph, u: Name)
    requires Acyclic(g)
    ensures exists d :: LongestFrom(g, u, d)
  {
    forall p | WalkOutOf(g, p, u) ensures |p| <= |g.Keys| + 1 {
      if |p| > |g.Keys| + 1 {
        var i, j := LongWalkRepeats(g, p);
      }
    }
    var d := BoundedHasLongest(g, u, |g.Keys|);
  }

  /** A chain from a dependency gives a chain that is one longer. */
  lemma LongestAbove(g: Graph, u: Name, v: Name, d: nat, e: nat)
    requires Edge(g, u, v) && LongestFrom(g, u, d) && LongestFrom(g, v, e)
    ensures e < d
  {
    var p :| WalkOutOf(g, p, v) && |p| == e + 1;
    assert Hop(g, [u, v], 1);
    WalkJoin(g, [u, v], p);
    assert WalkOutOf(g, [u, v] + p[1..], u);
  }

  /** The longest chain goes on as a longest chain of a dependency. */
  lemma LongestBelow(g: Graph, u: Name, d: nat) returns (v: Name)
    requires LongestFrom(g, u, d) && d > 0
    ensures Edge(g, u, v) && forall e: nat :: LongestFrom(g, v, e) ==> d <= e + 1
  {
    var p :| WalkOutOf(g, p, u) && |p| == d + 1;
    v := p[1];
    assert Hop(g, p, 1);
    WalkSlice(g, p, 1, |p|);
    assert WalkOutOf(g, p[1..|p|], v);
  }
}
