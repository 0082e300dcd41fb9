/** Sums of natural numbers over a finite set of identifiers. */
module Sums {
  import opened Graphs

  ghost function Sum(S: set<string>, f: string -> nat): nat {
    if S == {} then 0 else var t :| t in S; f(t) + Sum(S - {t}, f)
  }

  lemma {:induction false} SumRemove(S: set<string>, f: string -> nat, t: string)
    requires t in S
    ensures Sum(S, f) == f(t) + Sum(S - {t}, f)
    decreases S
  {
    var u :| u in S && Sum(S, f) == f(u) + Sum(S - {u}, f);
    if u != t {
      SumRemove(S - {u}, f, t);
      SumRemove(S - {t}, f, u);
      assert S - {u} - {t} == S - {t} - {u};
    }
  }

  lemma {:induction false} SumFalls(S: set<string>, f: string -> nat, f': string -> nat)
    requires forall t | t in S :: f'(t) <= f(t)
    ensures Sum(S, f') <= Sum(S, f)
    ensures (exists t :: t in S && f'(t) < f(t)) ==> Sum(S, f') < Sum(S, f)
    decreases S
  {
    if t :| t in S && f'(t) < f(t) {
      SumFalls(S - {t}, f, f');
      SumRemove(S, f, t);
      SumRemove(S, f', t);
    } else if S != {} {
      var t :| t in S;
      SumFalls(S - {t}, f, f');
      SumRemove(S, f, t);
      SumRemove(S, f', t);
    }
  }

  lemma {:induction false} SumSame(S: set<string>, f: string -> nat, f': string -> nat)
    requires forall t | t in S :: f'(t) == f(t)
    ensures Sum(S, f') == Sum(S, f)
    decreases S
  {
    if S != {} {
      var t :| t in S;
      SumSame(S - {t}, f, f');
      SumRemove(S, f, t);
      SumRemove(S, f', t);
    }
  }

  lemma {:induction false} SumAdd(S: set<string>, f: string -> nat, g: string -> nat, h: string -> nat)
    requires forall t | t in S :: h(t) == f(t) + g(t)
    ensures Sum(S, h) == Sum(S, f) + Sum(S, g)
    decreases S
  {
    if S != {} {
      var t :| t in S;
      SumAdd(S - {t}, f, g, h);
      SumRemove(S, f, t);
      SumRemove(S, g, t);
      SumRemove(S, h, t);
    }
  }

  /** Summing rows first or columns first gives the same total. */
  lemma {:induction false} SumSwap(S: set<string>, K: set<string>, f: string -> string -> nat)
    ensures Sum(S, a => Sum(K, b => f(a)(b))) == Sum(K, b => Sum(S, a => f(a)(b)))
    decreases S
  {
    if S == {} {
      SumZero(K, b => Sum(S, a => f(a)(b)));
    } else {
      var t :| t in S;
      SumSwap(S - {t}, K, f);
      SumRemove(S, a => Sum(K, b => f(a)(b)), t);
      forall b | b in K ensures Sum(S, a => f(a)(b)) == f(t)(b) + Sum(S - {t}, a => f(a)(b)) {
        SumRemove(S, a => f(a)(b), t);
      }
      SumAdd(K, b => f(t)(b), b => Sum(S - {t}, a => f(a)(b)), b => Sum(S, a => f(a)(b)));
    }
  }

  lemma {:induction false} SumZero(S: set<string>, f: string -> nat)
    requires forall t | t in S :: f(t) == 0
    ensures Sum(S, f) == 0
    decreases S
  {
    if S != {} {
      var t :| t in S;
      SumZero(S - {t}, f);
      SumRemove(S, f, t);
    }
  }

  /** The length of a sequence is the sum of the multiplicities of its members. */
  lemma {:induction false} LengthIsSum(s: seq<string>, K: set<string>)
    requires forall x | x in s :: x in K
    ensures |s| == Sum(K, x => Times(s, x))
  {
    if s == [] {
      SumZero(K, x => Times(s, x));
    } else {
      var init, last := s[..|s| - 1], s[|s| - 1];
      assert s == init + [last];
      LengthIsSum(init, K);
      SumRemove(K, x => Times(s, x), last);
      SumRemove(K, x => Times(init, x), last);
      forall x ensures Times(s, x) == Times(init, x) + if x == last then 1 else 0 {
        TimesSnoc(init, last, x);
      }
      SumSame(K - {last}, x => Times(init, x), x => Times(s, x));
    }
  }

  ghost function EdgeCount(h: Graph, a: string, b: string): nat {
    if a in h then Times(h[a], b) else 0
  }

  ghost function OutDegree(g: Graph, t: string): nat {
    if t in g then |g[t]| else 0
  }

  /** The number of edges, with multiplicity. */
  ghost function Edges(g: Graph): nat {
    Sum(g.Keys, t => OutDegree(g, t))
  }

  lemma RowTotal(h: Graph, K: set<string>, a: string)
    requires a in h && forall x | x in h[a] :: x in K
    ensures OutDegree(h, a) == Sum(K, b => EdgeCount(h, a, b))
  {
    LengthIsSum(h[a], K);
    SumSame(K, b => Times(h[a], b), b => EdgeCount(h, a, b));
  }

  lemma ColumnTotal(g: Graph, h: Graph, b: string)
    requires Closed(g) && Transposes(g, h) && b in g
    ensures OutDegree(g, b) == Sum(g.Keys, a => EdgeCount(h, a, b))
  {
    LengthIsSum(g[b], g.Keys);
    SumSame(g.Keys, a => Times(g[b], a), a => EdgeCount(h, a, b));
  }

  /** A graph and its transpose have the same number of edges. */
  lemma TransposeTotal(g: Graph, h: Graph)
    requires Closed(g) && Transposes(g, h)
    ensures Edges(h) == Edges(g)
  {
    hide Transposes, EdgeCount, OutDegree, Sum;
    var K := g.Keys;
    assert h.Keys == K by { TransposeKeys(g, h); }
    forall a | a in K ensures OutDegree(h, a) == Sum(K, b => EdgeCount(h, a, b)) {
      TransposeRow(g, h, a);
    }
    forall b | b in K ensures OutDegree(g, b) == Sum(K, a => EdgeCount(h, a, b)) {
      ColumnTotal(g, h, b);
    }
    SumSame(K, t => OutDegree(h, t), a => Sum(K, b => EdgeCount(h, a, b)));
    SumSame(K, t => OutDegree(g, t), b => Sum(K, a => EdgeCount(h, a, b)));
    SwapEdges(h, K);
  }

  lemma TransposeKeys(g: Graph, h: Graph)
    requires Transposes(g, h)
    ensures h.Keys == g.Keys
  {
  }

  lemma TransposeRow(g: Graph, h: Graph, a: string)
    requires Transposes(g, h) && a in g
    ensures OutDegree(h, a) == Sum(g.Keys, b => EdgeCount(h, a, b))
  {
    RowTotal(h, g.Keys, a);
  }

  lemma SwapEdges(h: Graph, K: set<string>)
    ensures Sum(K, a => Sum(K, b => EdgeCount(h, a, b))) == Sum(K, b => Sum(K, a => EdgeCount(h, a, b)))
  {
    var f := (a: string) => (b: string) => EdgeCount(h, a, b);
    SumSwap(K, K, f);
    forall a ensures Sum(K, b => f(a)(b)) == Sum(K, b => EdgeCount(h, a, b)) {
      SumSame(K, b => f(a)(b), b => EdgeCount(h, a, b));
    }
    forall b | b in K ensures Sum(K, a => f(a)(b)) == Sum(K, a => EdgeCount(h, a, b)) {
      SumSame(K, a => f(a)(b), a => EdgeCount(h, a, b));
    }
    SumSame(K, a => Sum(K, b => f(a)(b)), a => Sum(K, b => EdgeCount(h, a, b)));
    SumSame(K, b => Sum(K, a => f(a)(b)), b => Sum(K, a => EdgeCount(h, a, b)));
  }
}
