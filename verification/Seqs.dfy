/** Small facts about sequences of identifiers: enumerations of a set, and the
    order-preserving removal that the coordinator applies to its ready queue. */
module Seqs {

  ghost predicate NoDup(s: seq<string>) {
    forall i, j | 0 <= i < j < |s| :: s[i] != s[j]
  }

  /** `s` lists every element of `S` exactly once, in some order. */
  ghost predicate Enumerates(s: seq<string>, S: set<string>) {
    && NoDup(s)
    && (forall x | x in s :: x in S)
    && (forall x | x in S :: x in s)
  }

  function Lookup<V>(m: map<string, V>, k: string, default: V): V {
    if k in m then m[k] else default
  }

  /** The entries of `q` outside `S`, in their original order. */
  function Without(q: seq<string>, S: set<string>): seq<string> {
    if q == [] then []
    else
      var init, last := q[..|q| - 1], q[|q| - 1];
      Without(init, S) + (if last in S then [] else [last])
  }

  lemma {:induction false} WithoutMembers(q: seq<string>, S: set<string>)
    ensures forall x :: x in Without(q, S) <==> x in q && x !in S
  {
    if q != [] {
      var init, last := q[..|q| - 1], q[|q| - 1];
      WithoutMembers(init, S);
      assert q == init + [last];
    }
  }

  lemma {:induction false} WithoutNoDup(q: seq<string>, S: set<string>)
    requires NoDup(q)
    ensures NoDup(Without(q, S))
  {
    if q != [] {
      var init, last := q[..|q| - 1], q[|q| - 1];
      WithoutNoDup(init, S);
      WithoutMembers(init, S);
      assert last !in init;
    }
  }

  /** Removal distributes over concatenation, so the survivors keep their FIFO order. */
  lemma {:induction false} WithoutConcat(a: seq<string>, b: seq<string>, S: set<string>)
    ensures Without(a + b, S) == Without(a, S) + Without(b, S)
  {
    if b == [] {
      assert a + b == a;
    } else {
      var init, last := b[..|b| - 1], b[|b| - 1];
      WithoutConcat(a, init, S);
      assert (a + b)[..|a + b| - 1] == a + init;
    }
  }

  lemma {:induction false} WithoutDisjoint(q: seq<string>, S: set<string>)
    requires forall x | x in q :: x !in S
    ensures Without(q, S) == q
  {
    if q != [] {
      var init, last := q[..|q| - 1], q[|q| - 1];
      assert q == init + [last];
      WithoutDisjoint(init, S);
    }
  }

  lemma {:induction false} WithoutSame(q: seq<string>, A: set<string>, B: set<string>)
    requires forall x | x in q :: x in A <==> x in B
    ensures Without(q, A) == Without(q, B)
  {
    if q != [] {
      assert q == q[..|q| - 1] + [q[|q| - 1]];
      WithoutSame(q[..|q| - 1], A, B);
    }
  }

  lemma NoDupConcat(a: seq<string>, b: seq<string>)
    requires NoDup(a) && NoDup(b)
    requires forall x | x in b :: x !in a
    ensures NoDup(a + b)
  {
    var c := a + b;
    forall i, j | 0 <= i < j < |c| ensures c[i] != c[j] {
      if i < |a| <= j {
        assert c[j] in b && c[i] in a;
      }
    }
  }

  /** Every finite set can be listed. */
  lemma {:induction false} EnumerationExists(S: set<string>) returns (order: seq<string>)
    ensures Enumerates(order, S)
    decreases S
  {
    order := [];
    if S != {} {
      var x :| x in S;
      var rest := EnumerationExists(S - {x});
      order := [x] + rest;
    }
  }
}
