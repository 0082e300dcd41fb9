/** Finite directed graphs given by adjacency lists, with reachability as the
    existence of a walk. Used for the dependency graph of a workflow and for the
    downstream lists stored with each task. */
module Graphs {

  type Graph = map<string, seq<string>>

  /** Every edge stays inside the graph. */
  ghost predicate Closed(g: Graph) {
    forall t, d | t in g && d in g[t] :: d in g
  }

  ghost predicate IsWalk(g: Graph, p: seq<string>) {
    forall i | 0 <= i < |p| - 1 :: p[i] in g && p[i + 1] in g[p[i]]
  }

  ghost predicate Joins(g: Graph, p: seq<string>, a: string, b: string) {
    |p| >= 2 && IsWalk(g, p) && p[0] == a && p[|p| - 1] == b
  }

  /** There is a walk of at least one edge from `a` to `b`. */
  ghost predicate Reaches(g: Graph, a: string, b: string) {
    exists p :: Joins(g, p, a, b)
  }

  ghost predicate Acyclic(g: Graph) {
    forall t | t in g :: !Reaches(g, t, t)
  }

  lemma EdgeReaches(g: Graph, a: string, b: string)
    requires a in g && b in g[a]
    ensures Reaches(g, a, b)
  {
    assert Joins(g, [a, b], a, b);
  }

  lemma ReachesTransitive(g: Graph, a: string, b: string, c: string)
    requires Reaches(g, a, b) && Reaches(g, b, c)
    ensures Reaches(g, a, c)
  {
    var p :| Joins(g, p, a, b);
    var q :| Joins(g, q, b, c);
    var r := p + q[1..];
    forall i | 0 <= i < |r| - 1 ensures r[i] in g && r[i + 1] in g[r[i]] {
      if i >= |p| - 1 {
        assert r[i] == q[i - (|p| - 1)] && r[i + 1] == q[i - (|p| - 1) + 1];
      }
    }
    assert Joins(g, r, a, c);
  }

  lemma TailWalk(g: Graph, p: seq<string>)
    requires |p| >= 1 && IsWalk(g, p)
    ensures IsWalk(g, p[1..])
  {
    var q := p[1..];
    forall i | 0 <= i < |q| - 1 ensures q[i] in g && q[i + 1] in g[q[i]] {
      assert p[i + 1] in g && p[i + 2] in g[p[i + 1]];
    }
  }

  /** A walk that starts in a set closed under edges never leaves it. */
  lemma {:induction false} WalkStaysInside(g: Graph, S: set<string>, p: seq<string>)
    requires IsWalk(g, p) && p != [] && p[0] in S
    requires forall x, y | x in S && x in g && y in g[x] :: y in S
    ensures p[|p| - 1] in S
  {
    if |p| > 1 {
      assert p[0] in g && p[1] in g[p[0]];
      var q := p[1..];
      TailWalk(g, p);
      WalkStaysInside(g, S, q);
    }
  }

  /** Reachability starts with an edge: everything reachable from `a` is in a
      closed set that contains the successors of `a`. */
  lemma ReachesInside(g: Graph, S: set<string>, a: string, b: string)
    requires Reaches(g, a, b)
    requires a in g ==> forall y | y in g[a] :: y in S
    requires forall x, y | x in S && x in g && y in g[x] :: y in S
    ensures b in S
  {
    var p :| Joins(g, p, a, b);
    assert p[0] in g && p[1] in g[p[0]];
    var q := p[1..];
    TailWalk(g, p);
    WalkStaysInside(g, S, q);
  }

  /** The nodes of `g` reachable from `t`. */
  ghost function Below(g: Graph, t: string): set<string> {
    set d | d in g && Reaches(g, t, d)
  }

  /** Along an edge of an acyclic graph the set of reachable nodes shrinks, so its
      size is a rank that strictly decreases. */
  lemma RankDecreases(g: Graph, t: string, d: string)
    requires Closed(g) && Acyclic(g) && t in g && d in g[t]
    ensures |Below(g, d)| < |Below(g, t)|
  {
    EdgeReaches(g, t, d);
    forall x | x in Below(g, d) ensures x in Below(g, t) {
      ReachesTransitive(g, t, d, x);
    }
    assert d in Below(g, t) && d !in Below(g, d);
    StrictSubsetSize(Below(g, d), Below(g, t));
  }

  lemma StrictSubsetSize(A: set<string>, B: set<string>)
    requires A < B
    ensures |A| < |B|
  {
    var x :| x in B && x !in A;
    SubsetSize(A, B - {x});
  }

  lemma {:induction false} SubsetSize(A: set<string>, B: set<string>)
    requires A <= B
    ensures |A| <= |B|
    decreases A
  {
    if A != {} {
      var x :| x in A;
      SubsetSize(A - {x}, B - {x});
    }
  }

  /** Every non-empty set of nodes of an acyclic graph has a member with no
      successor in the set. */
  lemma {:induction false} MinimalMember(g: Graph, S: set<string>, start: string) returns (m: string)
    requires Closed(g) && Acyclic(g) && S <= g.Keys && start in S
    ensures m in S && forall d | d in g[m] :: d !in S
    decreases |Below(g, start)|
  {
    m := start;
    if d :| d in g[start] && d in S {
      RankDecreases(g, start, d);
      m := MinimalMember(g, S, d);
    }
  }

  /** How often `x` occurs in `s`. */
  function Times(s: seq<string>, x: string): nat {
    multiset(s)[x]
  }

  lemma TimesSnoc(s: seq<string>, y: string, x: string)
    ensures Times(s + [y], x) == Times(s, x) + if x == y then 1 else 0
  {
  }

  lemma TimesMember(s: seq<string>, x: string)
    ensures x in s <==> Times(s, x) > 0
  {
  }

  /** `h` reverses `g`, multiplicities included. */
  ghost predicate Transposes(g: Graph, h: Graph) {
    && h.Keys == g.Keys
    && (forall a, b {:trigger Times(h[a], b)} {:trigger Times(g[b], a)} | a in g && b in g ::
          Times(h[a], b) == Times(g[b], a))
    && (forall a, b | a in h && b in h[a] :: b in g)
  }

  lemma TransposeEdges(g: Graph, h: Graph)
    requires Closed(g) && Transposes(g, h)
    ensures forall x, y | x in g && y in g[x] :: y in h && x in h[y]
    ensures forall x, y | x in h && y in h[x] :: y in g && x in g[y]
  {
    forall x, y | x in g && y in g[x] ensures y in h && x in h[y] {
      TimesMember(g[x], y);
      TimesMember(h[y], x);
    }
    forall x, y | x in h && y in h[x] ensures y in g && x in g[y] {
      TimesMember(h[x], y);
      TimesMember(g[y], x);
    }
  }

  /** Reachability in the transpose is reachability backwards. */
  lemma TransposeReaches(g: Graph, h: Graph, a: string, b: string)
    requires Closed(g) && Transposes(g, h)
    ensures Reaches(h, a, b) <==> Reaches(g, b, a)
  {
    if Reaches(h, a, b) {
      var p :| Joins(h, p, a, b);
      TransposeEdges(g, h);
      ReversedWalk(h, g, p);
    }
    if Reaches(g, b, a) {
      var p :| Joins(g, p, b, a);
      TransposeEdges(g, h);
      ReversedWalk(g, h, p);
    }
  }

  lemma ReversedWalk(g: Graph, h: Graph, p: seq<string>)
    requires |p| >= 2 && IsWalk(g, p)
    requires forall x, y | x in g && y in g[x] :: y in h && x in h[y]
    ensures Reaches(h, p[|p| - 1], p[0])
  {
    var r := seq(|p|, i requires 0 <= i < |p| => p[|p| - 1 - i]);
    forall i | 0 <= i < |r| - 1 ensures r[i] in h && r[i + 1] in h[r[i]] {
      var k := |p| - 2 - i;
      assert p[k] in g && p[k + 1] in g[p[k]];
    }
    assert Joins(h, r, p[|p| - 1], p[0]);
  }

  /** Two closed acyclic graphs on disjoint nodes stay acyclic side by side. */
  lemma DisjointUnionAcyclic(g: Graph, h: Graph)
    requires Closed(g) && Closed(h) && Acyclic(g) && Acyclic(h) && g.Keys !! h.Keys
    ensures Closed(g + h) && Acyclic(g + h)
  {
    forall t | t in g + h ensures !Reaches(g + h, t, t) {
      if Reaches(g + h, t, t) {
        var p :| Joins(g + h, p, t, t);
        if t in g {
          WalkInPart(g + h, g, p);
          assert Joins(g, p, t, t);
        } else {
          WalkInPart(g + h, h, p);
          assert Joins(h, p, t, t);
        }
      }
    }
  }

  lemma {:induction false} WalkInPart(u: Graph, g: Graph, p: seq<string>)
    requires |p| >= 1 && IsWalk(u, p) && p[0] in g
    requires forall x | x in g :: x in u && u[x] == g[x]
    requires Closed(g)
    ensures IsWalk(g, p)
  {
    if |p| > 1 {
      assert p[0] in u && p[1] in u[p[0]];
      var q := p[1..];
      TailWalk(u, p);
      WalkInPart(u, g, q);
      assert forall i | 1 <= i < |p| - 1 :: p[i] == q[i - 1] && p[i + 1] == q[i];
    }
  }
}
