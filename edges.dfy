/**
 * Edges and edge sets. An `Edge` is a `(from, to)` pair of vertex ids. The
 * readers collect edges in a `std::set<Edge>`, modelled here as a `set<Edge>`;
 * iterating such a set visits its elements in ascending lexicographic order, so
 * wherever the source iterates one (the CSR constructor, `WriteEdgeList`) the
 * model receives the strictly increasing sequence of its elements, which
 * `SortedElements` shows exists and `SortedUnique` shows is unique.
 */
module Edges {
  type Edge = (int, int)

  /** The order of `std::pair<int, int>`: by `from`, then by `to`. */
  predicate LexLess(a: Edge, b: Edge) { a.0 < b.0 || (a.0 == b.0 && a.1 < b.1) }

  /** Strictly increasing in lexicographic order, hence free of duplicates. */
  predicate StrictlySorted(es: seq<Edge>) {
    forall i, j :: 0 <= i < j < |es| ==> LexLess(es[i], es[j])
  }

  function Elements(es: seq<Edge>): set<Edge> { set i | 0 <= i < |es| :: es[i] }

  /** The least element of a non-empty edge set. */
  ghost function MinEdge(s: set<Edge>): (m: Edge)
    requires s != {}
    ensures m in s && forall y :: y in s && y != m ==> LexLess(m, y)
    decreases |s|
  {
    var x :| x in s;
    if s == {x} then x
    else
      var m := MinEdge(s - {x});
      assert forall y :: y in s && y != x ==> y in s - {x};
      if LexLess(x, m) then x else m
  }

  lemma {:induction false} ElementsCons(m: Edge, rest: seq<Edge>)
    ensures Elements([m] + rest) == {m} + Elements(rest)
  {
    var es := [m] + rest;
    forall x | x in Elements(es) ensures x in {m} + Elements(rest) {
      var i :| 0 <= i < |es| && es[i] == x;
      if i > 0 { assert rest[i - 1] == x; }
    }
    forall x | x in Elements(rest) ensures x in Elements(es) {
      var i :| 0 <= i < |rest| && rest[i] == x;
      assert es[i + 1] == x;
    }
    assert es[0] == m;
  }

  /** The elements of an edge set in the order a `std::set<Edge>` iterates them. */
  ghost function SortedElements(s: set<Edge>): (es: seq<Edge>)
    ensures StrictlySorted(es) && Elements(es) == s && |es| == |s|
    decreases |s|
  {
    if s == {} then []
    else
      var m := MinEdge(s);
      var rest := SortedElements(s - {m});
      ElementsCons(m, rest);
      SortedCons(m, rest);
      [m] + rest
  }

  lemma {:induction false} SortedCons(m: Edge, rest: seq<Edge>)
    requires StrictlySorted(rest) && forall x :: x in Elements(rest) ==> LexLess(m, x)
    ensures StrictlySorted([m] + rest)
  {
    var es := [m] + rest;
    forall i, j | 0 <= i < j < |es| ensures LexLess(es[i], es[j]) {
      assert es[j] == rest[j - 1];
      if i == 0 {
        assert rest[j - 1] in Elements(rest);
      } else {
        assert es[i] == rest[i - 1];
      }
    }
  }

  /** The first element of a strictly sorted sequence precedes all the others. */
  lemma {:induction false} LeastOfSorted(a: seq<Edge>, x: Edge)
    requires StrictlySorted(a) && x in Elements(a)
    ensures x == a[0] || LexLess(a[0], x)
  {
    var i :| 0 <= i < |a| && a[i] == x;
    if i > 0 { assert LexLess(a[0], a[i]); }
  }

  lemma {:induction false} ElementsTail(a: seq<Edge>)
    requires StrictlySorted(a) && a != []
    ensures Elements(a[1..]) == Elements(a) - {a[0]}
  {
    assert a == [a[0]] + a[1..];
    ElementsCons(a[0], a[1..]);
    forall x | x in Elements(a[1..]) ensures x != a[0] {
      var i :| 0 <= i < |a[1..]| && a[1..][i] == x;
      assert LexLess(a[0], a[i + 1]);
    }
  }

  /** Two strictly sorted sequences with the same elements are equal. */
  lemma {:induction false} SortedUnique(a: seq<Edge>, b: seq<Edge>)
    requires StrictlySorted(a) && StrictlySorted(b) && Elements(a) == Elements(b)
    ensures a == b
  {
    assert a == [] <==> b == [] by {
      if a != [] { assert a[0] in Elements(b); }
      if b != [] { assert b[0] in Elements(a); }
    }
    if a != [] {
      LeastOfSorted(a, b[0]);
      LeastOfSorted(b, a[0]);
      assert a[0] == b[0];
      ElementsTail(a);
      ElementsTail(b);
      SortedUnique(a[1..], b[1..]);
      assert a == [a[0]] + a[1..] && b == [b[0]] + b[1..];
    }
  }

  /** Every edge's reverse is present too (an undirected graph). */
  ghost predicate Symmetric(s: set<Edge>) { forall e :: e in s ==> (e.1, e.0) in s }

  /** No edge joins a vertex to itself. */
  ghost predicate LoopFree(s: set<Edge>) { forall e :: e in s ==> e.0 != e.1 }

  /**
   * The readers' treatment of one edge `(u, v)` read from a file: a loop is
   * dropped, any other edge is inserted in both directions.
   */
  function InsertSymmetric(s: set<Edge>, u: int, v: int): (r: set<Edge>)
    ensures u == v ==> r == s
    ensures u != v ==> (u, v) in r && (v, u) in r
    ensures s <= r && forall e :: e in r && e !in s ==> e == (u, v) || e == (v, u)
  {
    if u == v then s else s + {(u, v), (v, u)}
  }

  lemma {:induction false} InsertSymmetricKeepsSymmetric(s: set<Edge>, u: int, v: int)
    requires Symmetric(s)
    ensures Symmetric(InsertSymmetric(s, u, v))
  {
  }

  lemma {:induction false} InsertSymmetricKeepsLoopFree(s: set<Edge>, u: int, v: int)
    requires LoopFree(s)
    ensures LoopFree(InsertSymmetric(s, u, v))
  {
  }

  /** Inserting an edge again, in either direction, changes nothing. */
  lemma {:induction false} InsertSymmetricIdempotent(s: set<Edge>, u: int, v: int)
    ensures InsertSymmetric(InsertSymmetric(s, u, v), u, v) == InsertSymmetric(s, u, v)
    ensures InsertSymmetric(InsertSymmetric(s, u, v), v, u) == InsertSymmetric(s, u, v)
  {
  }

  /** The set after reading the edges `ps` in order, each shifted down by `shift`. */
  function InsertAll(s: set<Edge>, ps: seq<Edge>, shift: int): set<Edge>
    decreases |ps|
  {
    if |ps| == 0 then s else InsertAll(InsertSymmetric(s, ps[0].0 - shift, ps[0].1 - shift), ps[1..], shift)
  }

  /** What one edge `p` of the file contributes: unless a loop, itself and its reverse, shifted. */
  predicate FromEdge(e: Edge, p: Edge, shift: int)
  {
    p.0 != p.1 && (e == (p.0 - shift, p.1 - shift) || e == (p.1 - shift, p.0 - shift))
  }

  /** What the file's edges contribute: each non-loop edge, shifted, in both directions, and nothing else. */
  ghost predicate FromEdges(e: Edge, ps: seq<Edge>, shift: int)
  {
    exists i :: 0 <= i < |ps| && FromEdge(e, ps[i], shift)
  }

  lemma {:induction false} FromEdgesCons(e: Edge, ps: seq<Edge>, shift: int)
    requires ps != []
    ensures FromEdges(e, ps, shift) <==> FromEdge(e, ps[0], shift) || FromEdges(e, ps[1..], shift)
  {
    if FromEdges(e, ps[1..], shift) {
      var i :| 0 <= i < |ps[1..]| && FromEdge(e, ps[1..][i], shift);
      assert ps[i + 1] == ps[1..][i];
    }
    if FromEdges(e, ps, shift) && !FromEdge(e, ps[0], shift) {
      var i :| 0 <= i < |ps| && FromEdge(e, ps[i], shift);
      assert ps[1..][i - 1] == ps[i];
    }
  }

  lemma {:induction false} InsertAllMembers(s: set<Edge>, ps: seq<Edge>, shift: int)
    ensures forall e :: e in InsertAll(s, ps, shift) <==> e in s || FromEdges(e, ps, shift)
    decreases |ps|
  {
    if ps != [] {
      var s1 := InsertSymmetric(s, ps[0].0 - shift, ps[0].1 - shift);
      InsertAllMembers(s1, ps[1..], shift);
      forall e ensures e in InsertAll(s, ps, shift) <==> e in s || FromEdges(e, ps, shift) {
        FromEdgesCons(e, ps, shift);
      }
    }
  }
}
