/**
 * The text forms of a CSR matrix. `toTextFile` (and the Python
 * `write_csr_to_txt_file`) writes the header line "numVertices numEdges",
 * then the `nlist` values separated by single spaces with a line break after
 * the last one (no line at all when `nlist` is empty), then the `nindex`
 * values separated by single spaces with no final line break. The diagnostic
 * `operator<<` prints the counts and at most the first 20 values of each
 * array, each followed by a space, closing with "...]" when the array is
 * longer than that.
 */
module CsrText {
  import opened Wrappers
  import opened Text
  import opened CppInt

  /** Each value followed by one space. */
  function Spaced(s: seq<int>): string
  {
    if s == [] then "" else Spaced(s[..|s| - 1]) + Show(s[|s| - 1]) + " "
  }

  /** A row: the values separated by single spaces and `end` after the last; nothing at all for no values. */
  function Row(s: seq<int>, end: string): string
  {
    if s == [] then "" else Spaced(s[..|s| - 1]) + Show(s[|s| - 1]) + end
  }

  /** The whole text file. */
  function TextLayout(nodes: int, edges: int, nlist: seq<int>, nindex: seq<int>): string
  {
    Show(nodes) + " " + Show(edges) + "\n" + Row(nlist, "\n") + Row(nindex, "")
  }

  /**
   * The loop that writes one row: every value but the last is followed by a
   * space, the last by `end`.
   */
  method WriteRow(s: seq<Int32>, end: string) returns (text: string)
    ensures text == Row(s, end)
  {
    text := "";
    var i := 0;
    while i < |s|
      invariant 0 <= i <= |s|
      invariant text == if i == |s| then Row(s, end) else Spaced(s[..i])
    {
      assert s[..i + 1][..i] == s[..i];
      if i == |s| - 1 {
        assert s[..i] == s[..|s| - 1];
        text := text + Show(s[i]) + end;
      } else {
        text := text + Show(s[i]) + " ";
      }
      i := i + 1;
    }
  }

  // ----- reading the text form back -----

  datatype TextImage = TextImage(nodes: int, edges: int, nlist: seq<int>, nindex: seq<int>)

  /** Inverse of `TextLayout`: two lines when `nlist` was empty, three otherwise. */
  function ParseText(text: string): Option<TextImage>
  {
    var lines := Split(text, '\n');
    match ParseInts(lines[0])
    case Some(h) =>
      if |h| != 2 then None
      else if |lines| == 2 then
        match ParseInts(lines[1]) {
          case Some(ni) => Some(TextImage(h[0], h[1], [], ni))
          case None => None
        }
      else if |lines| == 3 then
        match (ParseInts(lines[1]), ParseInts(lines[2])) {
          case (Some(nl), Some(ni)) => Some(TextImage(h[0], h[1], nl, ni))
          case _ => None
        }
      else None
    case None => None
  }

  lemma {:induction false} SpacedThenShow(t: seq<int>, x: int)
    ensures Spaced(t) + Show(x) == Join(Shows(t + [x]), ' ')
  {
    if t != [] {
      var init, last := t[..|t| - 1], t[|t| - 1];
      SpacedThenShow(init, last);
      InitThenLast(t);
      SpacedThenShowStep(t, x);
    } else {
      SpacedThenShowBase(x);
      assert t == [];
    }
  }

  lemma {:induction false} SpacedThenShowBase(x: int)
    ensures Spaced([]) + Show(x) == Join(Shows([] + [x]), ' ')
  {
    ShowsSnoc([], x);
    assert Shows([]) + [Show(x)] == [Show(x)];
    EmptyAppend(Show(x));
  }

  lemma {:induction false} SpacedThenShowStep(t: seq<int>, x: int)
    requires t != [] && Join(Shows(t), ' ') == Spaced(t[..|t| - 1]) + Show(t[|t| - 1])
    ensures Spaced(t) + Show(x) == Join(Shows(t + [x]), ' ')
  {
    ShowsSnoc(t, x);
    JoinSnoc(Shows(t), Show(x), ' ');
    SpaceThen(Spaced(t), Spaced(t[..|t| - 1]) + Show(t[|t| - 1]), Join(Shows(t), ' '), Join(Shows(t) + [Show(x)], ' '), Show(x));
  }

  /** The step of `SpacedThenShow`, on strings whose content does not matter. */
  lemma {:induction false} SpaceThen(spaced: string, p: string, joined: string, joinedOn: string, y: string)
    requires spaced == p + " " && joined == p && joinedOn == joined + [' '] + y
    ensures spaced + y == joinedOn
  {
  }

  /** A non-empty row is the values' numerals joined by single spaces, then `end`. */
  lemma {:induction false} RowIsJoin(s: seq<int>, end: string)
    requires s != []
    ensures Row(s, end) == Join(Shows(s), ' ') + end
  {
    var init, last := s[..|s| - 1], s[|s| - 1];
    InitThenLast(s);
    SpacedThenShow(init, last);
    assert Row(s, end) == Spaced(init) + Show(last) + end;
  }

  lemma {:induction false} HeaderLine(nodes: int, edges: int)
    ensures Show(nodes) + " " + Show(edges) == Join(Shows([nodes, edges]), ' ')
    ensures Free(Show(nodes) + " " + Show(edges), '\n')
    ensures ParseInts(Show(nodes) + " " + Show(edges)) == Some([nodes, edges])
  {
    assert Shows([nodes, edges]) == [Show(nodes), Show(edges)];
    IntsLine([nodes, edges]);
  }

  lemma {:induction false} ParseTwoLines(text: string, header: string, last: string, nodes: int, edges: int, nindex: seq<int>)
    requires Split(text, '\n') == [header, last]
    requires ParseInts(header) == Some([nodes, edges]) && ParseInts(last) == Some(nindex)
    ensures ParseText(text) == Some(TextImage(nodes, edges, [], nindex))
  {
  }

  lemma {:induction false} ParseThreeLines(text: string, header: string, mid: string, last: string,
                        nodes: int, edges: int, nlist: seq<int>, nindex: seq<int>)
    requires Split(text, '\n') == [header, mid, last]
    requires ParseInts(header) == Some([nodes, edges])
    requires ParseInts(mid) == Some(nlist) && ParseInts(last) == Some(nindex)
    ensures ParseText(text) == Some(TextImage(nodes, edges, nlist, nindex))
  {
  }

  lemma {:induction false} TextShape(nodes: int, edges: int, nlist: seq<int>, nindex: seq<int>)
    requires nindex != []
    ensures var header, last := Show(nodes) + " " + Show(edges), Join(Shows(nindex), ' ');
            TextLayout(nodes, edges, nlist, nindex) == header + "\n" + Row(nlist, "\n") + last
            && Free(header, '\n') && ParseInts(header) == Some([nodes, edges])
            && Free(last, '\n') && ParseInts(last) == Some(nindex)
  {
    HeaderLine(nodes, edges);
    RowIsJoin(nindex, "");
    IntsLine(nindex);
  }

  lemma {:induction false} SplitTwoLines(text: string, a: string, b: string)
    requires Free(a, '\n') && Free(b, '\n') && text == a + "\n" + b
    ensures Split(text, '\n') == [a, b]
  {
    Join2(a, b, '\n');
    SplitJoin([a, b], '\n');
  }

  lemma {:induction false} SplitThreeLines(text: string, a: string, b: string, d: string)
    requires Free(a, '\n') && Free(b, '\n') && Free(d, '\n')
    requires text == a + "\n" + (b + "\n") + d
    ensures Split(text, '\n') == [a, b, d]
  {
    Join3(a, b, d, '\n');
    assert text == a + ['\n'] + b + ['\n'] + d;
    SplitJoin([a, b, d], '\n');
  }

  lemma {:induction false} RoundTripWithoutList(nodes: int, edges: int, nindex: seq<int>)
    requires nindex != []
    ensures ParseText(TextLayout(nodes, edges, [], nindex)) == Some(TextImage(nodes, edges, [], nindex))
  {
    var header, last := Show(nodes) + " " + Show(edges), Join(Shows(nindex), ' ');
    var text := TextLayout(nodes, edges, [], nindex);
    TextShape(nodes, edges, [], nindex);
    assert Row([], "\n") == "";
    AppendEmpty(header + "\n");
    SplitTwoLines(text, header, last);
    ParseTwoLines(text, header, last, nodes, edges, nindex);
  }

  lemma {:induction false} RoundTripWithList(nodes: int, edges: int, nlist: seq<int>, nindex: seq<int>)
    requires nlist != [] && nindex != []
    ensures ParseText(TextLayout(nodes, edges, nlist, nindex)) == Some(TextImage(nodes, edges, nlist, nindex))
  {
    var header, last := Show(nodes) + " " + Show(edges), Join(Shows(nindex), ' ');
    var text := TextLayout(nodes, edges, nlist, nindex);
    TextShape(nodes, edges, nlist, nindex);
    var mid := Join(Shows(nlist), ' ');
    RowIsJoin(nlist, "\n");
    IntsLine(nlist);
    SplitThreeLines(text, header, mid, last);
    ParseThreeLines(text, header, mid, last, nodes, edges, nlist, nindex);
  }

  /** Reading back the text form gives the same counts and arrays. */
  lemma {:induction false} TextRoundTrip(nodes: int, edges: int, nlist: seq<int>, nindex: seq<int>)
    requires nindex != []
    ensures ParseText(TextLayout(nodes, edges, nlist, nindex)) == Some(TextImage(nodes, edges, nlist, nindex))
  {
    if nlist == [] {
      RoundTripWithoutList(nodes, edges, nindex);
    } else {
      RoundTripWithList(nodes, edges, nlist, nindex);
    }
  }

  // ----- the bounded preview -----

  /** How many values of each array the preview prints. */
  const MaxPrint: nat := 20

  function Min(a: nat, b: nat): nat { if a < b then a else b }

  /** One array of the preview: its first values, each followed by a space, then the closing marker. */
  function PreviewSection(name: string, s: seq<int>): string
  {
    name + " : [ " + Spaced(s[..Min(MaxPrint, |s|)]) + (if |s| > MaxPrint then "...]" else "]") + "\n"
  }

  function PreviewText(nodes: int, edges: int, nlist: seq<int>, nindex: seq<int>): string
  {
    "Number of nodes = " + Show(nodes) + "\n" + "Number of edges = " + Show(edges) + "\n"
    + PreviewSection("nlist", nlist) + PreviewSection("nindex", nindex)
  }

  /** The loop of `operator<<` over one array. */
  method WritePreviewSection(name: string, s: seq<Int32>) returns (text: string)
    ensures text == PreviewSection(name, s)
  {
    var open := name + " : [ ";
    text := open;
    AppendEmpty(open);
    var length := Min(MaxPrint, |s|);
    var i := 0;
    while i < length
      invariant 0 <= i <= length
      invariant text == open + Spaced(s[..i])
    {
      SpacedSnoc(s, i);
      AppendAssoc(open + Spaced(s[..i]), Show(s[i]), " ");
      AppendAssoc(open, Spaced(s[..i]) + Show(s[i]), " ");
      AppendAssoc(open, Spaced(s[..i]), Show(s[i]));
      text := text + Show(s[i]) + " ";
      i := i + 1;
    }
    if |s| > MaxPrint { text := text + "...]"; } else { text := text + "]"; }
    text := text + "\n";
  }

  lemma {:induction false} SpacedSnoc(s: seq<int>, i: nat)
    requires i < |s|
    ensures Spaced(s[..i + 1]) == Spaced(s[..i]) + Show(s[i]) + " "
  {
    assert s[..i + 1][..i] == s[..i];
  }

  lemma {:induction false} SpacedEndsWithSpace(t: seq<int>)
    requires t != []
    ensures |Spaced(t)| > 0 && Spaced(t)[|Spaced(t)| - 1] == ' '
  {
  }

  /** The truncation marker "...]" appears exactly when the array is longer than 20. */
  lemma {:induction false} PreviewMarker(name: string, s: seq<int>)
    ensures EndsWith(PreviewSection(name, s), "...]\n") <==> |s| > MaxPrint
  {
    var t := s[..Min(MaxPrint, |s|)];
    var open := name + " : [ " + Spaced(t);
    assert |open| > 0 && open[|open| - 1] == ' ' by {
      if t != [] { SpacedEndsWithSpace(t); }
    }
    var x := PreviewSection(name, s);
    if |s| <= MaxPrint {
      assert x == open + "]\n";
      assert x[|x| - 3] == ' ';
    }
  }

  /** The shown part holds the shown values, one per space-terminated field, in order. */
  lemma {:induction false} SpacedFields(t: seq<int>)
    ensures Split(Spaced(t), ' ') == Shows(t) + [""]
    ensures ParseAll(Split(Spaced(t), ' ')[..|t|]) == Some(t)
  {
    SpacedSplit(t);
    assert (Shows(t) + [""])[..|t|] == Shows(t);
    ParseAllOfShows(t);
  }

  lemma {:induction false} SpacedSplit(t: seq<int>)
    ensures Split(Spaced(t), ' ') == Shows(t) + [""]
  {
    if t == [] {
      assert Shows(t) + [""] == [""];
    } else {
      RowIsJoin(t, " ");
      assert Spaced(t) == Row(t, " ");
      ShowsFree(t, ' ');
      SplitJoinTerminated(Shows(t), ' ');
    }
  }
}
