/**
 * What the CSR arrays built from a sorted edge sequence must hold, stated
 * independently of the construction: `nindex[v]` is the number of edges whose
 * `from` is below `v`, `nlist` is the sequence of `to` components, and the
 * slice of `nlist` between `nindex[v]` and `nindex[v + 1]` lists the
 * neighbours of `v` in ascending order.
 */
module CsrSpec {
  import opened Edges

  /** Number of edges leaving vertex `v` (its out-degree). */
  function CountAt(es: seq<Edge>, v: int): (n: nat)
    ensures n <= |es|
  {
    if es == [] then 0
    else CountAt(es[..|es| - 1], v) + (if es[|es| - 1].0 == v then 1 else 0)
  }

  /** Number of edges whose `from` is below `v`. */
  function CountBelow(es: seq<Edge>, v: int): (n: nat)
    ensures n <= |es|
  {
    if es == [] then 0
    else CountBelow(es[..|es| - 1], v) + (if es[|es| - 1].0 < v then 1 else 0)
  }

  /** The `to` components, in order. */
  function Targets(es: seq<Edge>): (r: seq<int>)
    ensures |r| == |es| && forall k :: 0 <= k < |es| ==> r[k] == es[k].1
  {
    seq(|es|, k requires 0 <= k < |es| => es[k].1)
  }

  /** The `to` components of the edges leaving `v`, in order. */
  function Neighbours(es: seq<Edge>, v: int): seq<int>
  {
    if es == [] then []
    else Neighbours(es[..|es| - 1], v) + (if es[|es| - 1].0 == v then [es[|es| - 1].1] else [])
  }

  /** Every `from` is a vertex id in `[0, n)`. */
  predicate FromsIn(es: seq<Edge>, n: int) {
    forall k :: 0 <= k < |es| ==> 0 <= es[k].0 < n
  }

  predicate SortedByFrom(es: seq<Edge>) {
    forall i, j :: 0 <= i < j < |es| ==> es[i].0 <= es[j].0
  }

  predicate StrictlyIncreasing(s: seq<int>) {
    forall i, j :: 0 <= i < j < |s| ==> s[i] < s[j]
  }

  lemma {:induction false} StrictlySortedIsSortedByFrom(es: seq<Edge>)
    requires StrictlySorted(es)
    ensures SortedByFrom(es)
  {
    forall i, j | 0 <= i < j < |es| ensures es[i].0 <= es[j].0 {
      assert LexLess(es[i], es[j]);
    }
  }

  /** One step of the prefix sum: the offset of `v + 1` adds the out-degree of `v`. */
  lemma {:induction false} CountBelowStep(es: seq<Edge>, v: int)
    ensures CountBelow(es, v + 1) == CountBelow(es, v) + CountAt(es, v)
  {
    if es != [] {
      CountBelowStep(es[..|es| - 1], v);
    }
  }

  /** No edge leaves a vertex below `v`: the offset of `v` is 0. */
  lemma {:induction false} CountBelowNone(es: seq<Edge>, v: int)
    requires forall k :: 0 <= k < |es| ==> v <= es[k].0
    ensures CountBelow(es, v) == 0
  {
    if es != [] {
      CountBelowNone(es[..|es| - 1], v);
    }
  }

  /** Every edge leaves a vertex below `v`: the offset of `v` is the number of edges. */
  lemma {:induction false} CountBelowAll(es: seq<Edge>, v: int)
    requires forall k :: 0 <= k < |es| ==> es[k].0 < v
    ensures CountBelow(es, v) == |es|
  {
    if es != [] {
      CountBelowAll(es[..|es| - 1], v);
    }
  }

  /** Offsets never decrease. */
  lemma {:induction false} CountBelowMonotone(es: seq<Edge>, v: int, w: int)
    requires v <= w
    ensures CountBelow(es, v) <= CountBelow(es, w)
  {
    if es != [] {
      CountBelowMonotone(es[..|es| - 1], v, w);
    }
  }

  lemma {:induction false} NeighboursNone(es: seq<Edge>, v: int)
    requires forall k :: 0 <= k < |es| ==> es[k].0 != v
    ensures Neighbours(es, v) == []
  {
    if es != [] {
      NeighboursNone(es[..|es| - 1], v);
    }
  }

  /** `x` is listed as a neighbour of `v` exactly when `(v, x)` is an edge. */
  lemma {:induction false} NeighboursMembers(es: seq<Edge>, v: int, x: int)
    ensures x in Neighbours(es, v) <==> (v, x) in es
  {
    if es != [] {
      var init, last := es[..|es| - 1], es[|es| - 1];
      NeighboursMembers(init, v, x);
      assert es == init + [last];
    }
  }

  /** In a lexicographically sorted edge sequence each vertex's neighbours ascend strictly. */
  lemma {:induction false} NeighboursAscending(es: seq<Edge>, v: int)
    requires StrictlySorted(es)
    ensures StrictlyIncreasing(Neighbours(es, v))
  {
    if es != [] {
      var init, last := es[..|es| - 1], es[|es| - 1];
      NeighboursAscending(init, v);
      if last.0 == v {
        var ns := Neighbours(init, v);
        forall i | 0 <= i < |ns| ensures ns[i] < last.1 {
          NeighboursMembers(init, v, ns[i]);
          var k :| 0 <= k < |init| && init[k] == (v, ns[i]);
          assert LexLess(es[k], es[|es| - 1]);
        }
        var r := ns + [last.1];
        forall i, j | 0 <= i < j < |r| ensures r[i] < r[j] {
          if j == |ns| { assert r[i] == ns[i]; }
        }
      }
    }
  }

  /**
   * When the edges are sorted by `from`, the slice of the targets between the
   * offsets of `v` and `v + 1` is exactly the neighbours of `v`.
   */
  lemma {:induction false} SliceIsNeighbours(es: seq<Edge>, v: int)
    requires SortedByFrom(es)
    ensures CountBelow(es, v) <= CountBelow(es, v + 1)
    ensures Targets(es)[CountBelow(es, v)..CountBelow(es, v + 1)] == Neighbours(es, v)
  {
    CountBelowMonotone(es, v, v + 1);
    if es != [] {
      var init, last := es[..|es| - 1], es[|es| - 1];
      InitBelowLast(es);
      if last.0 < v {
        SliceBeyond(es, v);
      } else {
        SliceIsNeighbours(init, v);
        if last.0 == v {
          SliceEndsWithLast(es, v);
        } else {
          SliceBeforeLast(es, v);
        }
      }
    }
  }

  lemma {:induction false} InitBelowLast(es: seq<Edge>)
    requires SortedByFrom(es) && es != []
    ensures var init := es[..|es| - 1];
            SortedByFrom(init) && forall k :: 0 <= k < |init| ==> init[k].0 <= es[|es| - 1].0
  {
    var init := es[..|es| - 1];
    forall k | 0 <= k < |init| ensures init[k].0 <= es[|es| - 1].0 {
      assert es[k].0 <= es[|es| - 1].0;
    }
    forall i, j | 0 <= i < j < |init| ensures init[i].0 <= init[j].0 {
      assert init[i] == es[i] && init[j] == es[j];
    }
  }

  /** Every edge leaves a vertex below `v`: the slice is empty, and so are the neighbours. */
  lemma {:induction false} SliceBeyond(es: seq<Edge>, v: int)
    requires es != [] && es[|es| - 1].0 < v
    requires forall k :: 0 <= k < |es| - 1 ==> es[k].0 <= es[|es| - 1].0
    ensures CountBelow(es, v) == CountBelow(es, v + 1) == |es|
    ensures Targets(es)[CountBelow(es, v)..CountBelow(es, v + 1)] == Neighbours(es, v)
  {
    forall k | 0 <= k < |es| ensures es[k].0 < v {
      if k < |es| - 1 { assert es[k].0 <= es[|es| - 1].0; }
    }
    CountBelowAll(es, v);
    CountBelowAll(es, v + 1);
    NeighboursNone(es, v);
  }

  /** The last edge leaves `v`: it closes the slice of `v`. */
  lemma {:induction false} SliceEndsWithLast(es: seq<Edge>, v: int)
    requires es != [] && es[|es| - 1].0 == v
    requires var init := es[..|es| - 1];
             (forall k :: 0 <= k < |init| ==> init[k].0 <= v)
             && CountBelow(init, v) <= CountBelow(init, v + 1)
             && Targets(init)[CountBelow(init, v)..CountBelow(init, v + 1)] == Neighbours(init, v)
    ensures Targets(es)[CountBelow(es, v)..CountBelow(es, v + 1)] == Neighbours(es, v)
  {
    var init, last := es[..|es| - 1], es[|es| - 1];
    var a, b := CountBelow(init, v), CountBelow(init, v + 1);
    assert CountBelow(es, v) == a;
    assert CountBelow(es, v + 1) == b + 1;
    assert Neighbours(es, v) == Neighbours(init, v) + [last.1];
    CountBelowAll(init, v + 1);
    TargetsSnoc(es);
    SliceSnoc(Targets(init), last.1, a, b);
  }

  /** The last edge leaves a vertex above `v`: the slice of `v` lies before it. */
  lemma {:induction false} SliceBeforeLast(es: seq<Edge>, v: int)
    requires es != [] && es[|es| - 1].0 > v
    requires var init := es[..|es| - 1];
             CountBelow(init, v) <= CountBelow(init, v + 1)
             && Targets(init)[CountBelow(init, v)..CountBelow(init, v + 1)] == Neighbours(init, v)
    ensures Targets(es)[CountBelow(es, v)..CountBelow(es, v + 1)] == Neighbours(es, v)
  {
    var init, last := es[..|es| - 1], es[|es| - 1];
    var a, b := CountBelow(init, v), CountBelow(init, v + 1);
    assert CountBelow(es, v) == a;
    assert CountBelow(es, v + 1) == b;
    assert Neighbours(es, v) == Neighbours(init, v);
    TargetsSnoc(es);
    SliceSnoc(Targets(init), last.1, a, b);
  }

  lemma {:induction false} TargetsSnoc(es: seq<Edge>)
    requires es != []
    ensures Targets(es) == Targets(es[..|es| - 1]) + [es[|es| - 1].1]
  {
    var init := es[..|es| - 1];
    assert |Targets(es)| == |Targets(init) + [es[|es| - 1].1]|;
    forall k | 0 <= k < |es| ensures Targets(es)[k] == (Targets(init) + [es[|es| - 1].1])[k] {
      if k < |init| { assert init[k] == es[k]; }
    }
  }

  /** Slicing a sequence with one more element at its end. */
  lemma {:induction false} SliceSnoc(x: seq<int>, y: int, a: int, b: int)
    requires 0 <= a <= b <= |x|
    ensures (x + [y])[a..b] == x[a..b]
    ensures b == |x| ==> (x + [y])[a..b + 1] == x[a..b] + [y]
  {
    assert (x + [y])[..|x|] == x;
    assert (x + [y])[a..b] == (x + [y])[..|x|][a..b];
  }

  /**
   * Offsets that count the edges below each vertex, over targets in edge
   * order, form a CSR layout: they start at 0, end at the edge count, never
   * decrease, and each vertex's run is its ascending neighbour list.
   */
  lemma {:induction false} CsrLayout(es: seq<Edge>, n: int, offs: seq<int>, targets: seq<int>)
    requires 0 <= n && StrictlySorted(es) && FromsIn(es, n)
    requires |offs| == n + 1 && forall v :: 0 <= v <= n ==> offs[v] == CountBelow(es, v)
    requires targets == Targets(es)
    ensures offs[0] == 0 && offs[n] == |es|
    ensures forall v, w :: 0 <= v <= w <= n ==> offs[v] <= offs[w]
    ensures forall v :: 0 <= v < n ==> targets[offs[v]..offs[v + 1]] == Neighbours(es, v)
    ensures forall v :: 0 <= v < n ==> StrictlyIncreasing(Neighbours(es, v))
  {
    CountBelowNone(es, 0);
    CountBelowAll(es, n);
    forall v, w | 0 <= v <= w <= n ensures offs[v] <= offs[w] {
      CountBelowMonotone(es, v, w);
    }
    StrictlySortedIsSortedByFrom(es);
    forall v | 0 <= v < n
      ensures targets[offs[v]..offs[v + 1]] == Neighbours(es, v)
      ensures StrictlyIncreasing(Neighbours(es, v))
    {
      SliceIsNeighbours(es, v);
      NeighboursAscending(es, v);
    }
  }
}
