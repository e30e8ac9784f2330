/**
 * The `CsrMatrix` class: the neighbour offsets `nindex`, the flattened
 * neighbour list `nlist`, the always-empty value array `data` and the two
 * counts. The counts and array references are `const`: only the constructor
 * assigns them and no method changes the arrays afterwards, so a matrix is
 * read-only once built.
 */
module Csr {
  import opened Wrappers
  import opened CppInt
  import opened Edges
  import opened CsrSpec
  import EgrFormat
  import CsrText
  import Text

  class CsrMatrix {
    const numVertices: Int32
    const numEdges: Int32
    const nindex: array<Int32>
    const nlist: array<Int32>
    /** The per-edge values; never filled, since connected-component algorithms do not need them. */
    const data: seq<Int32>

    /** The CSR invariants: offsets start at 0, end at `numEdges`, never decrease, and each vertex's run ascends. */
    ghost predicate Valid()
      reads this, nindex, nlist
    {
      0 <= numVertices && 0 <= numEdges
      && nindex.Length == numVertices as int + 1 && nlist.Length == numEdges as int
      && data == []
      && nindex[0] == 0 && nindex[numVertices] == numEdges
      && (forall v, w :: 0 <= v <= w <= numVertices ==> nindex[v] <= nindex[w])
      && (forall v :: 0 <= v < numVertices ==> StrictlyIncreasing(nlist[nindex[v]..nindex[v + 1]]))
    }

    /** Every neighbour id is a vertex of the matrix. */
    ghost predicate TargetsInRange()
      reads this, nlist
    {
      forall k :: 0 <= k < nlist.Length ==> 0 <= nlist[k] < numVertices
    }

    /**
     * Builds the matrix from the edges of a `std::set<std::pair<int, int>>`,
     * given in the set's iteration order. `nindex` is sized `numVertices + 1`
     * and zeroed; each edge adds one to `nindex[from + 1]` and appends `to` to
     * `nlist`; an inclusive prefix sum turns the counts in
     * `nindex[0 .. maxVertex + 2)` into offsets, `maxVertex` being the `from`
     * of the last edge; every later slot is then set to `nindex[maxVertex + 1]`.
     * The set must not be empty (its last element is read) and every `from`
     * must be a vertex id below `numVertices` (it indexes `nindex`).
     */
    constructor (edgeSet: seq<Edge>, numVertices: Int32)
      requires |edgeSet| > 0 && StrictlySorted(edgeSet)
      requires FromsIn(edgeSet, numVertices)
      requires forall k :: 0 <= k < |edgeSet| ==> IsInt32(edgeSet[k].1)
      requires numVertices < MaxInt32 && |edgeSet| <= MaxInt32
      ensures Valid() && fresh(nindex) && fresh(nlist)
      ensures this.numVertices == numVertices && numEdges as int == |edgeSet| && numVertices >= 1
      ensures forall v :: 0 <= v <= numVertices ==> nindex[v] as int == CountBelow(edgeSet, v)
      ensures nlist[..] == Targets(edgeSet)
      ensures forall v :: 0 <= v < numVertices ==> nlist[nindex[v]..nindex[v + 1]] == Neighbours(edgeSet, v)
      ensures (forall k :: 0 <= k < |edgeSet| ==> 0 <= edgeSet[k].1 < numVertices) ==> TargetsInRange()
    {
      var n: int := numVertices;
      var ni, nl := FillArrays(edgeSet, numVertices);
      assert edgeSet[0].0 < n;
      this.numVertices := numVertices;
      numEdges := |edgeSet| as Int32;
      nindex := ni;
      nlist := nl;
      data := [];
      new;
      CsrLayout(edgeSet, n, nindex[..], nlist[..]);
      forall v | 0 <= v < n
        ensures nlist[nindex[v]..nindex[v + 1]] == Neighbours(edgeSet, v)
        ensures StrictlyIncreasing(nlist[nindex[v]..nindex[v + 1]])
      {
        assert nlist[nindex[v]..nindex[v + 1]] == nlist[..][nindex[v]..nindex[v + 1]];
      }
    }

    function GetNumVertices(): Int32 reads this { numVertices }

    function GetNumEdges(): Int32 reads this { numEdges }

    /** A copy of the offsets: `numVertices + 1` of them, from 0 up to `numEdges`, never decreasing. */
    function GetNindex(): (r: seq<Int32>)
      reads this, nindex, nlist
      requires Valid()
      ensures |r| == numVertices as int + 1 && r[0] == 0 && r[numVertices] == numEdges
      ensures forall v, w :: 0 <= v <= w <= numVertices ==> r[v] <= r[w]
    {
      nindex[..]
    }

    /** A copy of the neighbour list: `numEdges` ids, ascending within each vertex's run. */
    function GetNlist(): (r: seq<Int32>)
      reads this, nindex, nlist
      requires Valid()
      ensures |r| == numEdges as int
      ensures forall v :: 0 <= v < numVertices ==> StrictlyIncreasing(r[nindex[v]..nindex[v + 1]])
    {
      nlist[..]
    }

    /** The value array, which is never filled. */
    function GetData(): (r: seq<Int32>)
      reads this, nindex, nlist
      requires Valid()
      ensures r == []
    {
      data
    }

    /**
     * `toEgrFile`: the words written to the binary file, or the refusal when
     * the vertex count is below 1. What is written decodes to this matrix.
     */
    function ToEgrFile(): (r: Result<seq<Int32>, EgrFormat.EgrError>)
      reads this, nindex, nlist
      requires Valid()
      ensures r.Err? <==> numVertices < 1
      ensures r.Ok? ==> |r.value| == 3 + numVertices as int + numEdges as int
      ensures r.Ok? ==> EgrFormat.ReadEgr(r.value)
                        == Ok(EgrFormat.EgrImage(numVertices, numEdges, nindex[..], nlist[..]))
    {
      var img := EgrFormat.EgrImage(numVertices, numEdges, nindex[..], nlist[..]);
      if numVertices < 1 then EgrFormat.WriteEgr(img)
      else
        EgrFormat.ReadAfterWrite(img);
        EgrFormat.WriteEgr(img)
    }

    /** `toTextFile`: the header line, the `nlist` row and the `nindex` row; it reads back as this matrix. */
    method ToTextFile() returns (text: string)
      requires Valid()
      ensures text == CsrText.TextLayout(numVertices, numEdges, nlist[..], nindex[..])
      ensures CsrText.ParseText(text)
              == Some(CsrText.TextImage(numVertices, numEdges, nlist[..], nindex[..]))
    {
      text := Text.Show(numVertices) + " " + Text.Show(numEdges) + "\n";
      var row := CsrText.WriteRow(nlist[..], "\n");
      text := text + row;
      row := CsrText.WriteRow(nindex[..], "");
      text := text + row;
      CsrText.TextRoundTrip(numVertices, numEdges, nlist[..], nindex[..]);
    }

    /** `operator<<`: the two counts, then at most 20 values of `nlist` and of `nindex`. */
    method Preview() returns (text: string)
      ensures text == CsrText.PreviewText(numVertices, numEdges, nlist[..], nindex[..])
    {
      text := "Number of nodes = " + Text.Show(numVertices) + "\n";
      text := text + "Number of edges = " + Text.Show(numEdges) + "\n";
      var section := CsrText.WritePreviewSection("nlist", nlist[..]);
      text := text + section;
      section := CsrText.WritePreviewSection("nindex", nindex[..]);
      text := text + section;
    }
  }

  /**
   * The constructor's three passes over fresh zeroed arrays: count the
   * out-degrees, take the prefix sum up to the last edge's source, then copy
   * the edge count into the remaining slots.
   */
  method FillArrays(edgeSet: seq<Edge>, numVertices: Int32) returns (ni: array<Int32>, nl: array<Int32>)
    requires |edgeSet| > 0 && StrictlySorted(edgeSet)
    requires FromsIn(edgeSet, numVertices)
    requires forall k :: 0 <= k < |edgeSet| ==> IsInt32(edgeSet[k].1)
    requires numVertices < MaxInt32 && |edgeSet| <= MaxInt32
    ensures fresh(ni) && fresh(nl) && ni.Length == numVertices as int + 1 && nl.Length == |edgeSet|
    ensures forall v :: 0 <= v <= numVertices as int ==> ni[v] as int == CountBelow(edgeSet, v)
    ensures nl[..] == Targets(edgeSet)
  {
    var n: int := numVertices;
    var m := |edgeSet|;
    assert 0 <= edgeSet[0].0 < n;
    ni := new Int32[n + 1](_ => 0);
    nl := new Int32[m](_ => 0);
    var maxVertex := edgeSet[m - 1].0;
    assert forall k :: 0 <= k < m ==> edgeSet[k].0 <= maxVertex by {
      forall k | 0 <= k < m - 1 ensures edgeSet[k].0 <= maxVertex {
        assert LexLess(edgeSet[k], edgeSet[m - 1]);
      }
    }
    CountDegrees(edgeSet, ni, nl);
    PrefixSum(edgeSet, ni, maxVertex + 2);
    FillTail(edgeSet, ni, maxVertex + 2);
  }

  /**
   * The edge loop of the constructor: slot `v + 1` of the zeroed `nindex`
   * counts the edges leaving `v`, and `nlist` receives the targets in order.
   */
  method CountDegrees(edgeSet: seq<Edge>, nindex: array<Int32>, nlist: array<Int32>)
    requires nindex != nlist
    requires nindex.Length >= 1 && nlist.Length == |edgeSet| <= MaxInt32
    requires forall v :: 0 <= v < nindex.Length ==> nindex[v] == 0
    requires FromsIn(edgeSet, nindex.Length - 1)
    requires forall k :: 0 <= k < |edgeSet| ==> IsInt32(edgeSet[k].1)
    modifies nindex, nlist
    ensures nindex[0] == 0
    ensures forall v :: 1 <= v < nindex.Length ==> nindex[v] as int == CountAt(edgeSet, v - 1)
    ensures nlist[..] == Targets(edgeSet)
  {
    var i := 0;
    while i < |edgeSet|
      invariant 0 <= i <= |edgeSet|
      invariant nindex[0] == 0
      invariant forall v :: 1 <= v < nindex.Length ==> nindex[v] as int == CountAt(edgeSet[..i], v - 1)
      invariant forall k :: 0 <= k < i ==> nlist[k] as int == edgeSet[k].1
    {
      var e := edgeSet[i];
      assert edgeSet[..i + 1][..i] == edgeSet[..i];
      nindex[e.0 + 1] := nindex[e.0 + 1] + 1;
      nlist[i] := e.1;
      i := i + 1;
    }
    assert edgeSet[..i] == edgeSet;
  }

  /**
   * `std::partial_sum` over `nindex[0 .. bound)` in place: slot `v` becomes
   * the sum of the counts in slots `0 ..= v`, which is the number of edges
   * leaving a vertex below `v`. Slots from `bound` on keep their counts.
   */
  method PrefixSum(edgeSet: seq<Edge>, nindex: array<Int32>, bound: int)
    requires 1 <= bound <= nindex.Length && |edgeSet| <= MaxInt32
    requires FromsIn(edgeSet, nindex.Length - 1)
    requires nindex[0] == 0
    requires forall v :: 1 <= v < nindex.Length ==> nindex[v] as int == CountAt(edgeSet, v - 1)
    modifies nindex
    ensures forall v :: 0 <= v < bound ==> nindex[v] as int == CountBelow(edgeSet, v)
    ensures forall v :: bound <= v < nindex.Length ==> nindex[v] == old(nindex[v])
  {
    CountBelowNone(edgeSet, 0);
    var j := 1;
    while j < bound
      invariant 1 <= j <= bound
      invariant forall v :: 0 <= v < j ==> nindex[v] as int == CountBelow(edgeSet, v)
      invariant forall v :: j <= v < nindex.Length ==> nindex[v] == old(nindex[v])
    {
      CountBelowStep(edgeSet, j - 1);
      nindex[j] := nindex[j - 1] + nindex[j];
      j := j + 1;
    }
  }

  /**
   * The trailing loop: every slot from `from` to the end receives
   * `nindex[from - 1]`, the offset after the last vertex that has an edge.
   */
  method FillTail(edgeSet: seq<Edge>, nindex: array<Int32>, from: int)
    requires 1 <= from <= nindex.Length
    requires forall k :: 0 <= k < |edgeSet| ==> edgeSet[k].0 < from - 1
    requires forall v :: 0 <= v < from ==> nindex[v] as int == CountBelow(edgeSet, v)
    modifies nindex
    ensures forall v :: 0 <= v < nindex.Length ==> nindex[v] as int == CountBelow(edgeSet, v)
  {
    CountBelowAll(edgeSet, from - 1);
    var k := from;
    while k < nindex.Length
      invariant from <= k <= nindex.Length
      invariant forall v :: 0 <= v < k ==> nindex[v] as int == CountBelow(edgeSet, v)
    {
      CountBelowAll(edgeSet, k);
      nindex[k] := nindex[from - 1];
      k := k + 1;
    }
  }
}
