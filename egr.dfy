/**
 * The `.egr` binary layout written by `CsrMatrix::toEgrFile` and by the Python
 * `write_csr_to_bin_file`, and read back by `ReadEgrFile`: the vertex count,
 * the edge count, the `numVertices + 1` offsets and the `numEdges` neighbour
 * ids, each one 32-bit word, with no tag or padding. Words are abstract 32-bit
 * integers: the byte order of a word on disk is the machine's own and is not
 * modelled.
 */
module EgrFormat {
  import opened Wrappers
  import opened CppInt

  /** The four outputs of `ReadEgrFile`: nodes, edges, nindex and nlist. */
  datatype EgrImage = EgrImage(nodes: Int32, edges: Int32, nindex: seq<Int32>, nlist: seq<Int32>)

  datatype EgrError =
    | CountTooLow   // "node or edge count too low"
    | ShortRead     // fewer words than the counts announce

  /** The counts are acceptable and the arrays have the lengths they announce. */
  predicate WellFormed(img: EgrImage) {
    img.nodes >= 1 && img.edges >= 0
    && |img.nindex| == img.nodes as int + 1 && |img.nlist| == img.edges as int
  }

  /**
   * `toEgrFile`: refuses a vertex count below 1 or a negative edge count
   * before anything is written, and otherwise writes the counts, all of
   * `nindex` and all of `nlist`.
   */
  function WriteEgr(img: EgrImage): (r: Result<seq<Int32>, EgrError>)
    requires img.nodes >= 1 && img.edges >= 0 ==> WellFormed(img)
    ensures r.Err? <==> img.nodes < 1 || img.edges < 0
    ensures r.Err? ==> r.error == CountTooLow
    ensures r.Ok? ==> |r.value| == 3 + img.nodes as int + img.edges as int
  {
    if img.nodes < 1 || img.edges < 0 then Err(CountTooLow)
    else Ok([img.nodes, img.edges] + img.nindex + img.nlist)
  }

  /**
   * The decoder matching `ReadEgrFile`: the two counts first, the same count
   * check as the writer, then exactly `nodes + 1` and `edges` words; words
   * after those are not read.
   */
  function ReadEgr(words: seq<Int32>): (r: Result<EgrImage, EgrError>)
    ensures r.Ok? ==> WellFormed(r.value)
  {
    if |words| < 2 then Err(ShortRead)
    else
      var nodes, edges := words[0], words[1];
      if nodes < 1 || edges < 0 then Err(CountTooLow)
      else if |words| < 3 + nodes as int + edges as int then Err(ShortRead)
      else
        var ni := words[2..3 + nodes as int];
        var nl := words[3 + nodes as int..3 + nodes as int + edges as int];
        Ok(EgrImage(nodes, edges, ni, nl))
  }

  /** Reading back what was written gives the same four values. */
  lemma {:induction false} ReadAfterWrite(img: EgrImage)
    requires WellFormed(img)
    ensures WriteEgr(img).Ok? && ReadEgr(WriteEgr(img).value) == Ok(img)
  {
    var w := WriteEgr(img).value;
    var n := img.nodes as int;
    assert w[2..3 + n] == img.nindex;
    assert w[3 + n..3 + n + img.edges as int] == img.nlist;
  }

  /**
   * Conversely, whatever the decoder accepts is the written form of what it
   * returns, followed by words it does not look at.
   */
  lemma {:induction false} WriteAfterRead(words: seq<Int32>)
    requires ReadEgr(words).Ok?
    ensures var img := ReadEgr(words).value;
            WriteEgr(img) == Ok(words[..3 + img.nodes as int + img.edges as int])
  {
    var img := ReadEgr(words).value;
    var n, m := img.nodes as int, img.edges as int;
    assert words[..3 + n + m] == [words[0], words[1]] + words[2..3 + n] + words[3 + n..3 + n + m];
  }
}
