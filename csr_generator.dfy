/**
 * The Python converter: reads an edge file into coordinate lists `rows` and
 * `cols` (each undirected edge once per direction, loops dropped and
 * duplicates counted), and writes a CSR matrix in the `.egr` binary layout
 * or in the text layout. Lines are as Python's file iteration yields them,
 * each still ending in its line break. Any `ValueError` or `IndexError`
 * aborts the reader, so nothing of a failed read is returned.
 */
module CsrGenerator {
  import opened Wrappers
  import opened CppInt
  import opened Text
  import opened Edges
  import opened LineScan
  import EgrFormat
  import CsrText
  import GraphFileUtils

  // ----- Python's int(), str.split() and str.isnumeric() on ASCII text -----

  /** The length of the leading run of non-space characters. */
  function NonSpaceRun(s: string): (n: nat)
    ensures n <= |s| && (forall i {:trigger IsSpace(s[i])} :: 0 <= i < n ==> !IsSpace(s[i])) && (n < |s| ==> IsSpace(s[n]))
  {
    if s == [] || IsSpace(s[0]) then 0 else 1 + NonSpaceRun(s[1..])
  }

  /** `s` without its trailing white space. */
  function StripEnd(s: string): (t: string)
    ensures |t| <= |s| && t == s[..|t|] && (t == [] || !IsSpace(t[|t| - 1]))
    ensures forall i {:trigger IsSpace(s[i])} :: |t| <= i < |s| ==> IsSpace(s[i])
  {
    if s == [] || !IsSpace(s[|s| - 1]) then s else StripEnd(s[..|s| - 1])
  }

  /** `s.strip()`. */
  function Strip(s: string): string { StripEnd(s[SpaceRun(s)..]) }

  /** `int(s)`: white space around an optional sign and one or more digits; anything else is a `ValueError`. */
  function PyInt(s: string): (r: Result<int, ReadError>)
    ensures r.Err? ==> r.error == InvalidNumber
  {
    var t := Strip(s);
    var negative := |t| > 0 && t[0] == '-';
    var digits := if |t| > 0 && (t[0] == '-' || t[0] == '+') then t[1..] else t;
    if digits == [] || !AllDigits(digits) then Err(InvalidNumber)
    else if negative then Ok(0 - DigitsValue(digits))
    else Ok(DigitsValue(digits))
  }

  /** `s.split()[0]`, or `None` where that indexing raises `IndexError`. */
  function FirstWord(s: string): (w: Option<string>)
    ensures w.Some? ==> w.value != [] && forall i {:trigger IsSpace(w.value[i])} :: 0 <= i < |w.value| ==> !IsSpace(w.value[i])
  {
    var t := s[SpaceRun(s)..];
    if t == [] then None else Some(t[..NonSpaceRun(t)])
  }

  /** `word.isnumeric()` for ASCII text. */
  predicate IsNumeric(word: string) { word != [] && AllDigits(word) }

  /** The value of the first numeric word. */
  function FirstNumeric(words: seq<string>): (r: Option<int>)
    ensures r.Some? ==> r.value >= 0
  {
    if words == [] then None
    else if IsNumeric(words[0]) then Some(DigitsValue(words[0]))
    else FirstNumeric(words[1..])
  }

  lemma {:induction false} StripEndOf(w: string, tail: string)
    requires w == [] || !IsSpace(w[|w| - 1])
    requires forall i :: 0 <= i < |tail| ==> IsSpace(tail[i])
    ensures StripEnd(w + tail) == w
    decreases |tail|
  {
    if tail != [] {
      assert (w + tail)[..|w + tail| - 1] == w + tail[..|tail| - 1];
      StripEndOf(w, tail[..|tail| - 1]);
    } else {
      assert w + tail == w;
    }
  }

  lemma {:induction false} StripShow(x: int, tail: string)
    requires forall i :: 0 <= i < |tail| ==> IsSpace(tail[i])
    ensures Strip(Show(x) + tail) == Show(x)
  {
    ShowChars(x);
    SpaceRunOf([], Show(x) + tail);
    assert [] + (Show(x) + tail) == Show(x) + tail;
    assert (Show(x) + tail)[0..] == Show(x) + tail;
    StripEndOf(Show(x), tail);
  }

  lemma {:induction false} PyIntOfStripped(s: string, x: int)
    requires Strip(s) == Show(x)
    ensures PyInt(s) == Ok(x)
  {
    if x < 0 {
      assert Show(x)[1..] == ShowNat(-x);
      DigitsValueOfShowNat(-x);
    } else {
      assert IsDigit(Show(x)[0]);
      DigitsValueOfShowNat(x);
    }
  }

  /** A numeral followed by white space (such as the line break) reads as its value. */
  lemma {:induction false} PyIntOfShow(x: int, tail: string)
    requires forall i :: 0 <= i < |tail| ==> IsSpace(tail[i])
    ensures PyInt(Show(x) + tail) == Ok(x)
  {
    StripShow(x, tail);
    PyIntOfStripped(Show(x) + tail, x);
  }

  lemma {:induction false} NonSpaceRunOf(w: string, rest: string)
    requires forall i :: 0 <= i < |w| ==> !IsSpace(w[i])
    requires rest == [] || IsSpace(rest[0])
    ensures NonSpaceRun(w + rest) == |w|
  {
    if w != [] {
      assert (w + rest)[0] == w[0] && (w + rest)[1..] == w[1..] + rest;
      NonSpaceRunOf(w[1..], rest);
    }
  }

  /** The first word of "n ..." is the numeral n. */
  lemma {:induction false} FirstWordOfShow(x: int, rest: string)
    requires rest == [] || IsSpace(rest[0])
    ensures FirstWord(Show(x) + rest) == Some(Show(x))
  {
    ShowChars(x);
    ShowFree(x, ' ');
    SpaceRunOf([], Show(x) + rest);
    assert [] + (Show(x) + rest) == Show(x) + rest;
    assert (Show(x) + rest)[0..] == Show(x) + rest;
    NonSpaceRunOf(Show(x), rest);
    assert (Show(x) + rest)[..|Show(x)|] == Show(x);
  }

  // ----- the reader state -----

  /** The reader's local variables; `firstLine` is used by the Matrix Market reader only. */
  datatype PyState = PyState(firstLine: bool, rows: seq<int>, cols: seq<int>, added: set<Edge>,
                             numVert: int, loopCount: nat, duplicates: nat)

  const Start := PyState(true, [], [], {}, 0, 0, 0)

  /** The coordinate list: entry i is (rows[i], cols[i]). */
  function Entries(rows: seq<int>, cols: seq<int>): (es: seq<Edge>)
    requires |rows| == |cols|
    ensures |es| == |rows| && forall i :: 0 <= i < |rows| ==> es[i] == (rows[i], cols[i])
  {
    seq(|rows|, i requires 0 <= i < |rows| => (rows[i], cols[i]))
  }

  predicate Distinct(es: seq<Edge>) { forall i, j :: 0 <= i < j < |es| ==> es[i] != es[j] }

  /**
   * What the reader keeps true: `added` is exactly the set of coordinate
   * entries, no entry appears twice, and the edges are undirected and
   * loop-free.
   */
  ghost predicate Consistent(st: PyState)
  {
    Coherent(st.rows, st.cols, st.added)
  }

  ghost predicate Coherent(rows: seq<int>, cols: seq<int>, added: set<Edge>)
  {
    |rows| == |cols|
    && Distinct(Entries(rows, cols))
    && Elements(Entries(rows, cols)) == added
    && Symmetric(added) && LoopFree(added)
  }

  /** Append (u, v) unless `added` already has it, in which case count a duplicate. */
  function AddPair(st: PyState, u: int, v: int): PyState
  {
    if (u, v) in st.added then st.(duplicates := st.duplicates + 1)
    else st.(rows := st.rows + [u], cols := st.cols + [v], added := st.added + {(u, v)})
  }

  /** One edge read from the file: a loop is counted and skipped, otherwise both directions are added. */
  function AddEdge(st: PyState, u: int, v: int): PyState
  {
    if u == v then st.(loopCount := st.loopCount + 1) else AddPair(AddPair(st, u, v), v, u)
  }

  lemma {:induction false} AddPairKeeps(st: PyState, u: int, v: int)
    requires |st.rows| == |st.cols| && Distinct(Entries(st.rows, st.cols))
    requires Elements(Entries(st.rows, st.cols)) == st.added
    ensures var r := AddPair(st, u, v);
            |r.rows| == |r.cols| && Distinct(Entries(r.rows, r.cols))
            && Elements(Entries(r.rows, r.cols)) == r.added && r.added == st.added + {(u, v)}
            && |r.rows| + r.duplicates == |st.rows| + st.duplicates + 1
            && r.duplicates == st.duplicates + (if (u, v) in st.added then 1 else 0)
            && ((u, v) in st.added ==> r.rows == st.rows && r.cols == st.cols)
            && ((u, v) !in st.added ==> Entries(r.rows, r.cols) == Entries(st.rows, st.cols) + [(u, v)])
  {
    if (u, v) !in st.added {
      var r := AddPair(st, u, v);
      var old_ := Entries(st.rows, st.cols);
      assert Entries(r.rows, r.cols) == old_ + [(u, v)];
      forall e | e in Elements(old_ + [(u, v)]) ensures e in r.added {
        var i :| 0 <= i < |old_ + [(u, v)]| && (old_ + [(u, v)])[i] == e;
        if i < |old_| {
          assert e == old_[i];
        }
      }
      forall e | e in r.added ensures e in Elements(old_ + [(u, v)]) {
        if e == (u, v) {
          assert (old_ + [(u, v)])[|old_|] == e;
        } else {
          var i :| 0 <= i < |old_| && old_[i] == e;
          assert (old_ + [(u, v)])[i] == e;
        }
      }
    }
  }

  /**
   * An edge read adds exactly the two directions of a non-loop to `added`,
   * keeps the state consistent, and accounts for both directions either as
   * a new entry or as a duplicate: `duplicates` grows by the number of the
   * two directions that were already present. A loop is only counted.
   */
  lemma {:induction false} AddEdgeSpec(st: PyState, u: int, v: int)
    requires Consistent(st)
    ensures var r := AddEdge(st, u, v);
            Consistent(r)
            && r.added == InsertSymmetric(st.added, u, v)
            && |r.rows| + r.duplicates == |st.rows| + st.duplicates + (if u == v then 0 else 2)
            && r.loopCount == st.loopCount + (if u == v then 1 else 0)
            && r.numVert == st.numVert && r.firstLine == st.firstLine
            && (u != v ==> r.duplicates == st.duplicates + (if (u, v) in st.added then 1 else 0)
                                                         + (if (v, u) in st.added then 1 else 0))
            && (u == v ==> r.rows == st.rows && r.cols == st.cols && r.duplicates == st.duplicates)
  {
    if u != v {
      AddPairKeeps(st, u, v);
      AddPairKeeps(AddPair(st, u, v), v, u);
      InsertSymmetricKeepsSymmetric(st.added, u, v);
      InsertSymmetricKeepsLoopFree(st.added, u, v);
    }
  }

  // ----- the three line formats -----

  /** `read_mtx_file`'s loop body. */
  function MtxStep(st: PyState, line: string): Result<PyState, ReadError>
  {
    if StartsWith(line, "%") then Ok(st)
    else if st.firstLine then
      match FirstWord(line)
      case None => Err(TooFewFields)
      case Some(w) =>
        match PyInt(w)
        case Err(e) => Err(e)
        case Ok(n) => Ok(st.(firstLine := false, numVert := n))
    else
      match FieldPair(Split(line, ' '), 0)
      case Err(e) => Err(e)
      case Ok((from, to)) => Ok(AddEdge(st, from - 1, to - 1))
  }

  /**
   * `int(fields[k])` then `int(fields[k + 1])`, in that order: a missing
   * field is an `IndexError`, a field that is not a number a `ValueError`.
   */
  function FieldPair(fields: seq<string>, k: nat): Result<(int, int), ReadError>
  {
    if |fields| <= k then Err(TooFewFields)
    else
      match PyInt(fields[k])
      case Err(e) => Err(e)
      case Ok(from) =>
        if |fields| < k + 2 then Err(TooFewFields)
        else
          match PyInt(fields[k + 1])
          case Err(e) => Err(e)
          case Ok(to) => Ok((from, to))
  }

  /**
   * `read_txt_file`'s loop body. The header test `"Nodes:" and "Edges:" in
   * line` is true exactly when "Edges:" occurs, because the non-empty
   * string "Nodes:" is truthy.
   */
  function TxtStep(st: PyState, line: string): Result<PyState, ReadError>
  {
    if StartsWith(line, "#") then
      if Contains(line, "Edges:") then
        match FirstNumeric(Split(line, ' '))
        case None => Ok(st)
        case Some(n) => Ok(st.(numVert := n))
      else Ok(st)
    else
      match FieldPair(Split(line, '\t'), 0)
      case Err(e) => Err(e)
      case Ok((from, to)) => Ok(AddEdge(st, from, to))
  }

  /** `read_gr_file`'s loop body: every 'p' line sets the vertex count from its third field. */
  function GrStep(st: PyState, line: string): Result<PyState, ReadError>
  {
    if StartsWith(line, "p") then
      var info := Split(line, ' ');
      if |info| < 3 then Err(TooFewFields)
      else
        match PyInt(info[2])
        case Err(e) => Err(e)
        case Ok(n) => Ok(st.(numVert := n))
    else if StartsWith(line, "a") then
      match FieldPair(Split(line, ' '), 1)
      case Err(e) => Err(e)
      case Ok((from, to)) => Ok(AddEdge(st, from - 1, to - 1))
    else Ok(st)
  }

  /** What a reader returns: the coordinate lists and the vertex count (the scipy matrix is built from these). */
  datatype Graph = Graph(rows: seq<int>, cols: seq<int>, numVert: int)

  function Finish(sc: Scan<PyState>): Result<Graph, ReadError>
  {
    match sc.failure
    case Some(e) => Err(e)
    case None => Ok(Graph(sc.state.rows, sc.state.cols, sc.state.numVert))
  }

  method ReadMtxFile(lines: seq<string>) returns (r: Result<Graph, ReadError>)
    ensures r == Finish(ScanLines(MtxStep, Start, lines))
  {
    var sc := RunLines(MtxStep, Start, lines);
    r := Finish(sc);
  }

  method ReadTxtFile(lines: seq<string>) returns (r: Result<Graph, ReadError>)
    ensures r == Finish(ScanLines(TxtStep, Start, lines))
  {
    var sc := RunLines(TxtStep, Start, lines);
    r := Finish(sc);
  }

  method ReadGrFile(lines: seq<string>) returns (r: Result<Graph, ReadError>)
    ensures r == Finish(ScanLines(GrStep, Start, lines))
  {
    var sc := RunLines(GrStep, Start, lines);
    r := Finish(sc);
  }

  /** `from_file_to_csr`: the file must exist; the reader is chosen by the name's suffix. */
  method FromFileToCsr(filename: string, isFile: bool, lines: seq<string>) returns (r: Result<Graph, ReadError>)
    ensures !isFile ==> r == Err(NoSuchFile)
    ensures isFile && EndsWith(filename, ".mtx") ==> r == Finish(ScanLines(MtxStep, Start, lines))
    ensures isFile && !EndsWith(filename, ".mtx") && EndsWith(filename, ".txt") ==>
              r == Finish(ScanLines(TxtStep, Start, lines))
    ensures isFile && !EndsWith(filename, ".mtx") && !EndsWith(filename, ".txt") && EndsWith(filename, ".gr") ==>
              r == Finish(ScanLines(GrStep, Start, lines))
    ensures isFile && !EndsWith(filename, ".mtx") && !EndsWith(filename, ".txt") && !EndsWith(filename, ".gr") ==>
              r == Err(UnsupportedFormat)
  {
    if !isFile {
      return Err(NoSuchFile);
    }
    if EndsWith(filename, ".mtx") {
      r := ReadMtxFile(lines);
    } else if EndsWith(filename, ".txt") {
      r := ReadTxtFile(lines);
    } else if EndsWith(filename, ".gr") {
      r := ReadGrFile(lines);
    } else {
      r := Err(UnsupportedFormat);
    }
  }

  // ----- what every reader guarantees -----

  /** The coordinate lists and the set of added edges are the same in both states. */
  predicate SameLists(st: PyState, r: PyState)
  {
    r.rows == st.rows && r.cols == st.cols && r.added == st.added
  }

  lemma {:induction false} SameListsKeep(st: PyState, r: PyState)
    requires Consistent(st) && SameLists(st, r)
    ensures Consistent(r)
  {
  }

  lemma {:induction false} AddEdgeKeeps(st: PyState, u: int, v: int)
    requires Consistent(st)
    ensures Consistent(AddEdge(st, u, v))
  {
    AddEdgeSpec(st, u, v);
  }

  /** A successful step either leaves the lists alone or reads one edge (u, v). */
  lemma {:induction false} MtxStepShape(st: PyState, line: string) returns (isEdge: bool, u: int, v: int)
    requires MtxStep(st, line).Ok?
    ensures isEdge ==> MtxStep(st, line).value == AddEdge(st, u, v)
    ensures !isEdge ==> SameLists(st, MtxStep(st, line).value)
  {
    isEdge, u, v := false, 0, 0;
    if !StartsWith(line, "%") && !st.firstLine {
      var (from, to) := FieldPair(Split(line, ' '), 0).value;
      isEdge, u, v := true, from - 1, to - 1;
    }
  }

  lemma {:induction false} TxtStepShape(st: PyState, line: string) returns (isEdge: bool, u: int, v: int)
    requires TxtStep(st, line).Ok?
    ensures isEdge ==> TxtStep(st, line).value == AddEdge(st, u, v)
    ensures !isEdge ==> SameLists(st, TxtStep(st, line).value)
  {
    isEdge, u, v := false, 0, 0;
    if !StartsWith(line, "#") {
      var (from, to) := FieldPair(Split(line, '\t'), 0).value;
      isEdge, u, v := true, from, to;
    }
  }

  lemma {:induction false} GrStepShape(st: PyState, line: string) returns (isEdge: bool, u: int, v: int)
    requires GrStep(st, line).Ok?
    ensures isEdge ==> GrStep(st, line).value == AddEdge(st, u, v)
    ensures !isEdge ==> SameLists(st, GrStep(st, line).value)
  {
    isEdge, u, v := false, 0, 0;
    if !StartsWith(line, "p") && StartsWith(line, "a") {
      var (from, to) := FieldPair(Split(line, ' '), 1).value;
      isEdge, u, v := true, from - 1, to - 1;
    }
  }

  lemma {:induction false} MtxStepKeeps(st: PyState, line: string)
    requires Consistent(st) && MtxStep(st, line).Ok?
    ensures Consistent(MtxStep(st, line).value)
  {
    var isEdge, u, v := MtxStepShape(st, line);
    if isEdge { AddEdgeKeeps(st, u, v); } else { SameListsKeep(st, MtxStep(st, line).value); }
  }

  lemma {:induction false} TxtStepKeeps(st: PyState, line: string)
    requires Consistent(st) && TxtStep(st, line).Ok?
    ensures Consistent(TxtStep(st, line).value)
  {
    var isEdge, u, v := TxtStepShape(st, line);
    if isEdge { AddEdgeKeeps(st, u, v); } else { SameListsKeep(st, TxtStep(st, line).value); }
  }

  lemma {:induction false} GrStepKeeps(st: PyState, line: string)
    requires Consistent(st) && GrStep(st, line).Ok?
    ensures Consistent(GrStep(st, line).value)
  {
    var isEdge, u, v := GrStepShape(st, line);
    if isEdge { AddEdgeKeeps(st, u, v); } else { SameListsKeep(st, GrStep(st, line).value); }
  }

  /** A graph handed to scipy: each directed edge once, every edge in both directions, no loop. */
  ghost predicate GoodGraph(g: Graph)
  {
    |g.rows| == |g.cols| && Distinct(Entries(g.rows, g.cols))
    && Symmetric(Elements(Entries(g.rows, g.cols))) && LoopFree(Elements(Entries(g.rows, g.cols)))
  }

  lemma {:induction false} FinishGood(sc: Scan<PyState>)
    requires Consistent(sc.state) && Finish(sc).Ok?
    ensures GoodGraph(Finish(sc).value)
  {
  }

  /** Whatever the file holds, a successful `read_mtx_file` returns a duplicate-free, symmetric, loop-free coordinate list. */
  lemma {:induction false} ReadMtxFileGood(lines: seq<string>)
    requires Finish(ScanLines(MtxStep, Start, lines)).Ok?
    ensures GoodGraph(Finish(ScanLines(MtxStep, Start, lines)).value)
  {
    MtxScanConsistent(lines);
    FinishGood(ScanLines(MtxStep, Start, lines));
  }

  /** The reader's loop keeps `added` equal to the distinct, symmetric, loop-free coordinate entries, error or not. */
  lemma {:induction false} MtxScanConsistent(lines: seq<string>)
    ensures var st := ScanLines(MtxStep, Start, lines).state;
            |st.rows| == |st.cols| && Elements(Entries(st.rows, st.cols)) == st.added && Consistent(st)
  {
    forall s: PyState, l: string | Consistent(s) && MtxStep(s, l).Ok? ensures Consistent(MtxStep(s, l).value) {
      MtxStepKeeps(s, l);
    }
    ScanKeeps(MtxStep, Consistent, Start, lines);
  }

  lemma {:induction false} ReadTxtFileGood(lines: seq<string>)
    requires Finish(ScanLines(TxtStep, Start, lines)).Ok?
    ensures GoodGraph(Finish(ScanLines(TxtStep, Start, lines)).value)
  {
    TxtScanConsistent(lines);
    FinishGood(ScanLines(TxtStep, Start, lines));
  }

  /** The reader's loop keeps `added` equal to the distinct, symmetric, loop-free coordinate entries, error or not. */
  lemma {:induction false} TxtScanConsistent(lines: seq<string>)
    ensures var st := ScanLines(TxtStep, Start, lines).state;
            |st.rows| == |st.cols| && Elements(Entries(st.rows, st.cols)) == st.added && Consistent(st)
  {
    forall s: PyState, l: string | Consistent(s) && TxtStep(s, l).Ok? ensures Consistent(TxtStep(s, l).value) {
      TxtStepKeeps(s, l);
    }
    ScanKeeps(TxtStep, Consistent, Start, lines);
  }

  lemma {:induction false} ReadGrFileGood(lines: seq<string>)
    requires Finish(ScanLines(GrStep, Start, lines)).Ok?
    ensures GoodGraph(Finish(ScanLines(GrStep, Start, lines)).value)
  {
    GrScanConsistent(lines);
    FinishGood(ScanLines(GrStep, Start, lines));
  }

  /** The reader's loop keeps `added` equal to the distinct, symmetric, loop-free coordinate entries, error or not. */
  lemma {:induction false} GrScanConsistent(lines: seq<string>)
    ensures var st := ScanLines(GrStep, Start, lines).state;
            |st.rows| == |st.cols| && Elements(Entries(st.rows, st.cols)) == st.added && Consistent(st)
  {
    forall s: PyState, l: string | Consistent(s) && GrStep(s, l).Ok? ensures Consistent(GrStep(s, l).value) {
      GrStepKeeps(s, l);
    }
    ScanKeeps(GrStep, Consistent, Start, lines);
  }

  // ----- well-formed files, and agreement with the C++ readers -----

  /** The lines as Python's file iteration yields them: `std::getline`'s lines, each with its line break. */
  function WithBreaks(lines: seq<string>): seq<string>
    decreases |lines|
  {
    if |lines| == 0 then [] else [lines[0] + "\n"] + WithBreaks(lines[1..])
  }

  /** The first line read, with its break, and the lines that follow it. */
  lemma {:induction false} WithBreaksCons(line: string, rest: seq<string>)
    ensures WithBreaks([line] + rest) == [line + "\n"] + WithBreaks(rest)
  {
    HeadTail(line, rest);
  }

  lemma {:induction false} PyIntShow(x: int)
    ensures PyInt(Show(x)) == Ok(x)
  {
    PyIntOfShow(x, []);
    AppendEmpty(Show(x));
  }

  lemma {:induction false} FieldPairOf(fields: seq<string>, k: nat, a: int, b: int)
    requires k + 2 <= |fields| && fields[k] == Show(a) && fields[k + 1] == Show(b)
    ensures FieldPair(fields, k) == Ok((a, b))
  {
    PyIntShow(a);
    PyIntShow(b);
  }

  /** Splitting "x<c>y<LF>" on `c` gives the two numerals, the second with its line break. */
  lemma {:induction false} SplitTwoNumerals(a: int, b: int, c: char)
    requires c != '-' && c != '\n' && !IsDigit(c)
    ensures Split(Show(a) + [c] + Show(b) + "\n", c) == [Show(a), Show(b) + "\n"]
  {
    ShowFree(a, c);
    ShowFree(b, c);
    FreeAppend(Show(b), "\n", c);
    SplitAfterField(Show(a), c, Show(b) + "\n");
    AppendAssoc(Show(a) + [c], Show(b), "\n");
    SplitFree(Show(b) + "\n", c);
  }

  lemma {:induction false} PairOfNumerals(a: int, b: int, c: char)
    requires c != '-' && c != '\n' && !IsDigit(c)
    ensures FieldPair(Split(Show(a) + [c] + Show(b) + "\n", c), 0) == Ok((a, b))
  {
    SplitTwoNumerals(a, b, c);
    PyIntShow(a);
    PyIntOfShow(b, "\n");
  }

  lemma {:induction false} NumeralFirst(x: int, rest: string, p: string)
    requires |p| == 1 && p[0] != '-' && !IsDigit(p[0])
    ensures !StartsWith(Show(x) + rest, p)
  {
    assert (Show(x) + rest)[0] == Show(x)[0];
  }

  lemma {:induction false} MtxStepOnData(st: PyState, line: string, from: int, to: int)
    requires !st.firstLine && !StartsWith(line, "%")
    requires FieldPair(Split(line, ' '), 0) == Ok((from, to))
    ensures MtxStep(st, line) == Ok(AddEdge(st, from - 1, to - 1))
  {
  }

  /** A Matrix Market data line "a b" adds the 0-based edge (a-1, b-1). */
  lemma {:induction false} MtxData(st: PyState, line: string, a: int, b: int)
    requires !st.firstLine && line == Show(a) + " " + Show(b) + "\n"
    ensures MtxStep(st, line) == Ok(AddEdge(st, a - 1, b - 1))
  {
    PairOfNumerals(a, b, ' ');
    AppendAssoc(Show(a) + " ", Show(b), "\n");
    AppendAssoc(Show(a), " ", Show(b) + "\n");
    NumeralFirst(a, " " + (Show(b) + "\n"), "%");
    MtxStepOnData(st, line, a, b);
  }

  lemma {:induction false} AddEdgeAdded(st: PyState, u: int, v: int)
    ensures AddEdge(st, u, v).added == InsertSymmetric(st.added, u, v)
    ensures AddEdge(st, u, v).numVert == st.numVert && AddEdge(st, u, v).firstLine == st.firstLine
  {
  }

  /** After the header, `step` reads the data line of every edge, with its break, as the addition of its 0-based edge. */
  ghost predicate ReadsDataLines(step: (PyState, string) -> Result<PyState, ReadError>)
  {
    forall s: PyState, e: Edge {:trigger step(s, GraphFileUtils.EdgeLine(e) + "\n")} :: !s.firstLine ==> step(s, GraphFileUtils.EdgeLine(e) + "\n") == Ok(AddEdge(s, e.0 - 1, e.1 - 1))
  }

  lemma {:induction false} MtxStepReadsData()
    ensures ReadsDataLines(MtxStep)
  {
    forall s: PyState, e: Edge | !s.firstLine
      ensures MtxStep(s, GraphFileUtils.EdgeLine(e) + "\n") == Ok(AddEdge(s, e.0 - 1, e.1 - 1))
    {
      MtxData(s, GraphFileUtils.EdgeLine(e) + "\n", e.0, e.1);
    }
  }

  lemma {:induction false} MtxReadsEdges(step: (PyState, string) -> Result<PyState, ReadError>, st: PyState, ps: seq<Edge>)
    requires ReadsDataLines(step) && !st.firstLine
    ensures var sc := ScanLines(step, st, WithBreaks(GraphFileUtils.MtxLines(ps)));
            sc.failure == None && sc.state.added == InsertAll(st.added, ps, 1)
            && sc.state.numVert == st.numVert
    decreases |ps|
  {
    if |ps| > 0 {
      var next := AddEdge(st, ps[0].0 - 1, ps[0].1 - 1);
      var line := GraphFileUtils.EdgeLine(ps[0]);
      WithBreaksCons(line, GraphFileUtils.MtxLines(ps[1..]));
      ScanCons(step, st, next, line + "\n", WithBreaks(GraphFileUtils.MtxLines(ps[1..])));
      AddEdgeAdded(st, ps[0].0 - 1, ps[0].1 - 1);
      MtxReadsEdges(step, next, ps[1..]);
    }
  }

  /** The first line "n ..." of a Matrix Market file sets the vertex count. */
  lemma {:induction false} MtxHeaderLine(n: int, rest: string)
    requires rest == [] || IsSpace(rest[0])
    ensures MtxStep(Start, Show(n) + rest) == Ok(Start.(firstLine := false, numVert := n))
  {
    FirstWordOfShow(n, rest);
    PyIntShow(n);
    NumeralFirst(n, rest, "%");
  }

  /**
   * Regrouping a line made of six pieces around its first piece. This and
   * `HeaderRegroup` are stated apart from their callers so that the
   * regrouping is proved where no reader step or split is in scope; inline,
   * the solver unfolds those on every regrouped term.
   */
  lemma {:induction false} HeadThenRest(a: string, b: string, c: string, d: string, e: string, f: string)
    ensures a + b + c + d + e + f == a + (b + (c + (d + (e + f))))
  {
  }

  /**
   * `read_mtx_file` on a well-formed Matrix Market file: no error, the
   * header's vertex count, and the returned `rows`/`cols` list exactly the
   * file's edges, 0-based, in both directions.
   */
  lemma {:induction false} MtxPyReadsFile(n: int, ps: seq<Edge>)
    ensures var sc := ScanLines(MtxStep, Start, WithBreaks([Show(n) + " " + Show(n) + " " + Show(|ps|)] + GraphFileUtils.MtxLines(ps)));
            sc.failure == None && sc.state.added == InsertAll({}, ps, 1) && sc.state.numVert == n
            && |sc.state.rows| == |sc.state.cols| && Elements(Entries(sc.state.rows, sc.state.cols)) == InsertAll({}, ps, 1)
  {
    var header := Show(n) + " " + Show(n) + " " + Show(|ps|);
    MtxScanConsistent(WithBreaks([header] + GraphFileUtils.MtxLines(ps)));
    WithBreaksCons(header, GraphFileUtils.MtxLines(ps));
    HeadThenRest(Show(n), " ", Show(n), " ", Show(|ps|), "\n");
    MtxHeaderLine(n, " " + (Show(n) + (" " + (Show(|ps|) + "\n"))));
    ScanCons(MtxStep, Start, Start.(firstLine := false, numVert := n), header + "\n", WithBreaks(GraphFileUtils.MtxLines(ps)));
    MtxStepReadsData();
    MtxReadsEdges(MtxStep, Start.(firstLine := false, numVert := n), ps);
  }

  /**
   * On a well-formed Matrix Market file, `read_mtx_file` and the C++
   * `ReadMtxFile` agree: the same vertex count, and the same edge set both
   * as `added` and as the entries of the returned `rows`/`cols`.
   */
  lemma {:induction false} MtxReadersAgree(n: int, ps: seq<Edge>)
    requires IsInt32(n) && GraphFileUtils.Int32Edges(ps)
    ensures var lines := [Show(n) + " " + Show(n) + " " + Show(|ps|)] + GraphFileUtils.MtxLines(ps);
            var cpp := ScanLines(GraphFileUtils.MtxStep, GraphFileUtils.MtxState(true, 0, {}), lines);
            var py := ScanLines(MtxStep, Start, WithBreaks(lines));
            cpp.failure == None && py.failure == None
            && py.state.added == cpp.state.edges && py.state.numVert == cpp.state.numVert == n
            && |py.state.rows| == |py.state.cols| && Elements(Entries(py.state.rows, py.state.cols)) == cpp.state.edges
  {
    GraphFileUtils.MtxReadsFile({}, n, ps);
    MtxPyReadsFile(n, ps);
  }

  lemma {:induction false} TxtStepOnData(st: PyState, line: string, from: int, to: int)
    requires !StartsWith(line, "#")
    requires FieldPair(Split(line, '\t'), 0) == Ok((from, to))
    ensures TxtStep(st, line) == Ok(AddEdge(st, from, to))
  {
  }

  /** A SNAP data line "a<TAB>b" adds the edge (a, b). */
  lemma {:induction false} TxtData(st: PyState, line: string, a: int, b: int)
    requires line == Show(a) + "\t" + Show(b) + "\n"
    ensures TxtStep(st, line) == Ok(AddEdge(st, a, b))
  {
    PairOfNumerals(a, b, '\t');
    AppendAssoc(Show(a) + "\t", Show(b), "\n");
    AppendAssoc(Show(a), "\t", Show(b) + "\n");
    NumeralFirst(a, "\t" + (Show(b) + "\n"), "#");
    TxtStepOnData(st, line, a, b);
  }

  /** `step` reads the data line of every edge, with its break, as the addition of that edge. */
  ghost predicate ReadsTxtLines(step: (PyState, string) -> Result<PyState, ReadError>)
  {
    forall s: PyState, e: Edge {:trigger step(s, GraphFileUtils.TxtLine(e) + "\n")} :: step(s, GraphFileUtils.TxtLine(e) + "\n") == Ok(AddEdge(s, e.0 - 0, e.1 - 0))
  }

  lemma {:induction false} TxtStepReadsData()
    ensures ReadsTxtLines(TxtStep)
  {
    forall s: PyState, e: Edge
      ensures TxtStep(s, GraphFileUtils.TxtLine(e) + "\n") == Ok(AddEdge(s, e.0 - 0, e.1 - 0))
    {
      TxtData(s, GraphFileUtils.TxtLine(e) + "\n", e.0, e.1);
    }
  }

  lemma {:induction false} TxtReadsEdges(step: (PyState, string) -> Result<PyState, ReadError>, st: PyState, ps: seq<Edge>)
    requires ReadsTxtLines(step)
    ensures var sc := ScanLines(step, st, WithBreaks(GraphFileUtils.TxtLines(ps)));
            sc.failure == None && sc.state.added == InsertAll(st.added, ps, 0)
            && sc.state.numVert == st.numVert
    decreases |ps|
  {
    if |ps| > 0 {
      var next := AddEdge(st, ps[0].0 - 0, ps[0].1 - 0);
      var line := GraphFileUtils.TxtLine(ps[0]);
      WithBreaksCons(line, GraphFileUtils.TxtLines(ps[1..]));
      ScanCons(step, st, next, line + "\n", WithBreaks(GraphFileUtils.TxtLines(ps[1..])));
      AddEdgeAdded(st, ps[0].0 - 0, ps[0].1 - 0);
      TxtReadsEdges(step, next, ps[1..]);
    }
  }

  lemma {:induction false} TxtStepOnHeader(st: PyState, line: string, n: int)
    requires StartsWith(line, "#") && Contains(line, "Edges:")
    requires FirstNumeric(Split(line, ' ')) == Some(n)
    ensures TxtStep(st, line) == Ok(st.(numVert := n))
  {
  }

  /** Splitting five separator-free fields joined by `c`. */
  lemma {:induction false} SplitFive(w1: string, w2: string, w3: string, w4: string, w5: string, c: char)
    requires Free(w1, c) && Free(w2, c) && Free(w3, c) && Free(w4, c) && Free(w5, c)
    ensures Split(w1 + [c] + (w2 + [c] + (w3 + [c] + (w4 + [c] + w5))), c) == [w1, w2, w3, w4, w5]
  {
    SplitFree(w5, c);
    SplitAfterField(w4, c, w5);
    SplitAfterField(w3, c, w4 + [c] + w5);
    SplitAfterField(w2, c, w3 + [c] + (w4 + [c] + w5));
    SplitAfterField(w1, c, w2 + [c] + (w3 + [c] + (w4 + [c] + w5)));
  }

  lemma {:induction false} SplitFour(w1: string, w2: string, w3: string, w4: string, c: char)
    requires Free(w1, c) && Free(w2, c) && Free(w3, c) && Free(w4, c)
    ensures Split(w1 + [c] + (w2 + [c] + (w3 + [c] + w4)), c) == [w1, w2, w3, w4]
  {
    SplitFree(w4, c);
    SplitAfterField(w3, c, w4);
    SplitAfterField(w2, c, w3 + [c] + w4);
    SplitAfterField(w1, c, w2 + [c] + (w3 + [c] + w4));
  }

  /** A numeral followed by its line break is still free of the separator; shared by the three splitting lemmas. */
  lemma {:induction false} FreeAppend(a: string, b: string, c: char)
    requires Free(a, c) && Free(b, c)
    ensures Free(a + b, c)
  {
  }

  lemma {:induction false} NotNumeric(w: string)
    requires w != [] && !IsDigit(w[0])
    ensures !IsNumeric(w)
  {
  }

  /** The first numeric word is the third when the first two are not numeric. */
  lemma {:induction false} FirstNumericThird(ws: seq<string>)
    requires |ws| >= 3 && !IsNumeric(ws[0]) && !IsNumeric(ws[1]) && IsNumeric(ws[2])
    ensures FirstNumeric(ws) == Some(DigitsValue(ws[2]))
  {
    assert FirstNumeric(ws) == FirstNumeric(ws[1..]);
    assert FirstNumeric(ws[1..]) == FirstNumeric(ws[1..][1..]);
    assert ws[1..][1..][0] == ws[2];
  }

  lemma {:induction false} NumeralIsNumeric(n: nat)
    ensures IsNumeric(Show(n)) && DigitsValue(Show(n)) == n
  {
    DigitsValueOfShowNat(n);
  }

  /** The SNAP header as Python sees it: a '#' line naming "Edges:", made of five words. */
  lemma {:induction false} HeaderText(p: string, q: string)
    ensures var line := "# Nodes: " + p + " Edges: " + q + "\n";
            line == "#" + " " + ("Nodes:" + " " + (p + " " + ("Edges:" + " " + (q + "\n"))))
            && StartsWith(line, "#") && Contains(line, "Edges:")
  {
    HeaderRegroup(p, q);
    HeaderNames(p, q);
  }

  /** The header regrouped into its five words and separators, stated apart for the reason given at `HeadThenRest`. */
  lemma {:induction false} HeaderRegroup(p: string, q: string)
    ensures "# Nodes: " + p + " Edges: " + q + "\n"
            == "#" + " " + ("Nodes:" + " " + (p + " " + ("Edges:" + " " + (q + "\n"))))
  {
  }

  lemma {:induction false} HeaderNames(p: string, q: string)
    ensures var line := "# Nodes: " + p + " Edges: " + q + "\n";
            StartsWith(line, "#") && Contains(line, "Edges:")
  {
    var line := "# Nodes: " + p + " Edges: " + q + "\n";
    assert line == ("# Nodes: " + p + " ") + "Edges:" + (" " + q + "\n");
    ContainsMiddle("# Nodes: " + p + " ", "Edges:", " " + q + "\n");
    assert line[0] == '#';
  }

  lemma {:induction false} HeaderWords(n: int, m: int)
    ensures Split("# Nodes: " + Show(n) + " Edges: " + Show(m) + "\n", ' ')
            == ["#", "Nodes:", Show(n), "Edges:", Show(m) + "\n"]
  {
    HeaderText(Show(n), Show(m));
    ShowFree(n, ' ');
    ShowFree(m, ' ');
    FreeAppend(Show(m), "\n", ' ');
    SplitFive("#", "Nodes:", Show(n), "Edges:", Show(m) + "\n", ' ');
  }

  /** The SNAP header "# Nodes: n Edges: m" sets the vertex count to n when n is numeric, that is n >= 0. */
  lemma {:induction false} TxtHeader(st: PyState, n: int, m: int)
    requires n >= 0
    ensures TxtStep(st, "# Nodes: " + Show(n) + " Edges: " + Show(m) + "\n") == Ok(st.(numVert := n))
  {
    var line := "# Nodes: " + Show(n) + " Edges: " + Show(m) + "\n";
    HeaderText(Show(n), Show(m));
    HeaderWords(n, m);
    NotNumeric("#");
    NotNumeric("Nodes:");
    NumeralIsNumeric(n);
    FirstNumericThird(["#", "Nodes:", Show(n), "Edges:", Show(m) + "\n"]);
    TxtStepOnHeader(st, line, n);
  }

  lemma {:induction false} EdgesOnlyText(p: string)
    ensures var line := "# Edges: " + p + " \n";
            line == "#" + " " + ("Edges:" + " " + (p + " " + "\n"))
            && StartsWith(line, "#") && Contains(line, "Edges:")
  {
    var line := "# Edges: " + p + " \n";
    assert line == "# " + "Edges:" + (" " + p + " \n");
    ContainsMiddle("# ", "Edges:", " " + p + " \n");
    assert line[0] == '#';
  }

  /**
   * A '#' line naming "Edges:" but not "Nodes:" is still taken as the
   * header, and its first numeric word becomes the vertex count.
   */
  lemma {:induction false} TxtHeaderWithoutNodes(st: PyState, m: nat)
    ensures TxtStep(st, "# Edges: " + Show(m) + " \n") == Ok(st.(numVert := m))
  {
    var line := "# Edges: " + Show(m) + " \n";
    EdgesOnlyText(Show(m));
    ShowFree(m, ' ');
    SplitFour("#", "Edges:", Show(m), "\n", ' ');
    NotNumeric("#");
    NotNumeric("Edges:");
    NumeralIsNumeric(m);
    FirstNumericThird(["#", "Edges:", Show(m), "\n"]);
    TxtStepOnHeader(st, line, m);
  }

  /**
   * On a well-formed SNAP file with a non-negative vertex count,
   * `read_txt_file` and the C++ `ReadTxtFile` agree, on `added` and on the
   * returned `rows`/`cols`.
   */
  lemma {:induction false} TxtReadersAgree(n: int, ps: seq<Edge>)
    requires IsInt32(n) && n >= 0 && GraphFileUtils.Int32Edges(ps)
    ensures var lines := ["# Nodes: " + Show(n) + " Edges: " + Show(|ps|)] + GraphFileUtils.TxtLines(ps);
            var cpp := ScanLines(GraphFileUtils.TxtStep, GraphFileUtils.TxtState(0, {}), lines);
            var py := ScanLines(TxtStep, Start, WithBreaks(lines));
            cpp.failure == None && py.failure == None
            && py.state.added == cpp.state.edges && py.state.numVert == cpp.state.numVert == n
            && |py.state.rows| == |py.state.cols| && Elements(Entries(py.state.rows, py.state.cols)) == cpp.state.edges
  {
    GraphFileUtils.TxtReadsFile({}, n, ps);
    TxtPyReadsFile(n, ps);
  }

  /**
   * `read_txt_file` on a well-formed SNAP file: no error, the header's
   * vertex count, and the returned `rows`/`cols` list exactly the file's
   * edges in both directions.
   */
  lemma {:induction false} TxtPyReadsFile(n: int, ps: seq<Edge>)
    requires n >= 0
    ensures var sc := ScanLines(TxtStep, Start, WithBreaks(["# Nodes: " + Show(n) + " Edges: " + Show(|ps|)] + GraphFileUtils.TxtLines(ps)));
            sc.failure == None && sc.state.added == InsertAll({}, ps, 0) && sc.state.numVert == n
            && |sc.state.rows| == |sc.state.cols| && Elements(Entries(sc.state.rows, sc.state.cols)) == InsertAll({}, ps, 0)
  {
    var header := "# Nodes: " + Show(n) + " Edges: " + Show(|ps|);
    TxtScanConsistent(WithBreaks([header] + GraphFileUtils.TxtLines(ps)));
    WithBreaksCons(header, GraphFileUtils.TxtLines(ps));
    TxtHeader(Start, n, |ps|);
    ScanCons(TxtStep, Start, Start.(numVert := n), header + "\n", WithBreaks(GraphFileUtils.TxtLines(ps)));
    TxtStepReadsData();
    TxtReadsEdges(TxtStep, Start.(numVert := n), ps);
  }

  /** A DIMACS arc line "a a b 1" adds the 0-based edge (a-1, b-1). */
  lemma {:induction false} GrArc(st: PyState, line: string, a: int, b: int)
    requires line == "a " + Show(a) + " " + Show(b) + " 1" + "\n"
    ensures GrStep(st, line) == Ok(AddEdge(st, a - 1, b - 1))
  {
    ShowFree(a, ' ');
    ShowFree(b, ' ');
    ArcText(Show(a), Show(b));
    SplitFour("a", Show(a), Show(b), "1\n", ' ');
    FieldPairOf(Split(line, ' '), 1, a, b);
    GrStepOnArc(st, line, a, b);
  }

  lemma {:induction false} ArcText(p: string, q: string)
    ensures var line := "a " + p + " " + q + " 1" + "\n";
            line == "a" + [' '] + (p + [' '] + (q + [' '] + "1\n")) && StartsWith(line, "a")
  {
    var line := "a " + p + " " + q + " 1" + "\n";
    assert line == "a" + [' '] + (p + [' '] + (q + [' '] + "1\n"));
    assert line[0] == 'a';
  }

  lemma {:induction false} GrStepOnArc(st: PyState, line: string, from: int, to: int)
    requires StartsWith(line, "a")
    requires FieldPair(Split(line, ' '), 1) == Ok((from, to))
    ensures GrStep(st, line) == Ok(AddEdge(st, from - 1, to - 1))
  {
    assert !StartsWith(line, "p");
  }

  /** `step` reads the arc line of every edge, with its break, as the addition of its 0-based edge. */
  ghost predicate ReadsArcLines(step: (PyState, string) -> Result<PyState, ReadError>)
  {
    forall s: PyState, e: Edge {:trigger step(s, GraphFileUtils.ArcLine(e) + "\n")} :: step(s, GraphFileUtils.ArcLine(e) + "\n") == Ok(AddEdge(s, e.0 - 1, e.1 - 1))
  }

  lemma {:induction false} GrStepReadsArcs()
    ensures ReadsArcLines(GrStep)
  {
    forall s: PyState, e: Edge
      ensures GrStep(s, GraphFileUtils.ArcLine(e) + "\n") == Ok(AddEdge(s, e.0 - 1, e.1 - 1))
    {
      GrArc(s, GraphFileUtils.ArcLine(e) + "\n", e.0, e.1);
    }
  }

  lemma {:induction false} GrReadsEdges(step: (PyState, string) -> Result<PyState, ReadError>, st: PyState, ps: seq<Edge>)
    requires ReadsArcLines(step)
    ensures var sc := ScanLines(step, st, WithBreaks(GraphFileUtils.GrLines(ps)));
            sc.failure == None && sc.state.added == InsertAll(st.added, ps, 1)
            && sc.state.numVert == st.numVert
    decreases |ps|
  {
    if |ps| > 0 {
      var next := AddEdge(st, ps[0].0 - 1, ps[0].1 - 1);
      var line := GraphFileUtils.ArcLine(ps[0]);
      WithBreaksCons(line, GraphFileUtils.GrLines(ps[1..]));
      ScanCons(step, st, next, line + "\n", WithBreaks(GraphFileUtils.GrLines(ps[1..])));
      AddEdgeAdded(st, ps[0].0 - 1, ps[0].1 - 1);
      GrReadsEdges(step, next, ps[1..]);
    }
  }

  /** The problem line "p sp n m" sets the vertex count. */
  lemma {:induction false} GrProblem(st: PyState, n: int, m: int)
    ensures GrStep(st, "p sp " + Show(n) + " " + Show(m) + "\n") == Ok(st.(numVert := n))
  {
    ShowFree(n, ' ');
    ShowFree(m, ' ');
    FreeAppend(Show(m), "\n", ' ');
    ProblemText(Show(n), Show(m));
    SplitFour("p", "sp", Show(n), Show(m) + "\n", ' ');
    PyIntShow(n);
  }

  lemma {:induction false} ProblemText(p: string, q: string)
    ensures var line := "p sp " + p + " " + q + "\n";
            line == "p" + [' '] + ("sp" + [' '] + (p + [' '] + (q + "\n"))) && StartsWith(line, "p")
  {
    var line := "p sp " + p + " " + q + "\n";
    assert line == "p" + [' '] + ("sp" + [' '] + (p + [' '] + (q + "\n")));
    assert line[0] == 'p';
  }

  /** On a well-formed DIMACS file, `read_gr_file` and the C++ `ReadGrFile` agree, on `added` and on `rows`/`cols`. */
  lemma {:induction false} GrReadersAgree(n: int, ps: seq<Edge>)
    requires IsInt32(n) && GraphFileUtils.Int32Edges(ps)
    ensures var lines := ["p sp " + Show(n) + " " + Show(|ps|)] + GraphFileUtils.GrLines(ps);
            var cpp := ScanLines(GraphFileUtils.GrStep, GraphFileUtils.GrState(0, {}), lines);
            var py := ScanLines(GrStep, Start, WithBreaks(lines));
            cpp.failure == None && py.failure == None
            && py.state.added == cpp.state.edges && py.state.numVert == cpp.state.numVert == n
            && |py.state.rows| == |py.state.cols| && Elements(Entries(py.state.rows, py.state.cols)) == cpp.state.edges
  {
    GraphFileUtils.GrReadsFile({}, n, ps);
    GrPyReadsFile(n, ps);
  }

  /**
   * `read_gr_file` on a well-formed DIMACS file: no error, the problem
   * line's vertex count, and the returned `rows`/`cols` list exactly the
   * file's edges, 0-based, in both directions.
   */
  lemma {:induction false} GrPyReadsFile(n: int, ps: seq<Edge>)
    ensures var sc := ScanLines(GrStep, Start, WithBreaks(["p sp " + Show(n) + " " + Show(|ps|)] + GraphFileUtils.GrLines(ps)));
            sc.failure == None && sc.state.added == InsertAll({}, ps, 1) && sc.state.numVert == n
            && |sc.state.rows| == |sc.state.cols| && Elements(Entries(sc.state.rows, sc.state.cols)) == InsertAll({}, ps, 1)
  {
    var header := "p sp " + Show(n) + " " + Show(|ps|);
    GrScanConsistent(WithBreaks([header] + GraphFileUtils.GrLines(ps)));
    WithBreaksCons(header, GraphFileUtils.GrLines(ps));
    GrProblem(Start, n, |ps|);
    ScanCons(GrStep, Start, Start.(numVert := n), header + "\n", WithBreaks(GraphFileUtils.GrLines(ps)));
    GrStepReadsArcs();
    GrReadsEdges(GrStep, Start.(numVert := n), ps);
  }

  // ----- the writers -----

  /**
   * `write_csr_to_bin_file`: the vertex count and `len(indices)` as two
   * int32 words, then `indptr` and `indices`.
   * When the matrix has `numVertices + 1` row offsets this is the `.egr`
   * layout, byte for byte what the C++ `toEgrFile` writes, and it decodes
   * back to the same matrix.
   */
  function WriteCsrToBinFile(indptr: seq<Int32>, indices: seq<Int32>, numVertices: Int32): (words: seq<Int32>)
    requires |indices| <= MaxInt32
    ensures |words| == 2 + |indptr| + |indices|
    ensures numVertices >= 1 && |indptr| == numVertices as int + 1 ==>
              var img := EgrFormat.EgrImage(numVertices, |indices| as Int32, indptr, indices);
              EgrFormat.WriteEgr(img) == Ok(words) && EgrFormat.ReadEgr(words) == Ok(img)
  {
    var words := [numVertices, |indices| as Int32] + indptr + indices;
    if numVertices >= 1 && |indptr| == numVertices as int + 1 then
      EgrFormat.ReadAfterWrite(EgrFormat.EgrImage(numVertices, |indices| as Int32, indptr, indices));
      words
    else words
  }

  /** `write_csr_to_txt_file`: the same text layout as the C++ `toTextFile`, which reads back as the matrix. */
  method WriteCsrToTxtFile(indptr: seq<Int32>, indices: seq<Int32>, numVertices: Int32) returns (text: string)
    ensures text == CsrText.TextLayout(numVertices, |indices|, indices, indptr)
    ensures indptr != [] ==>
              CsrText.ParseText(text) == Some(CsrText.TextImage(numVertices, |indices|, indices, indptr))
  {
    text := Show(numVertices) + " " + Show(|indices|) + "\n";
    var row := CsrText.WriteRow(indices, "\n");
    text := text + row;
    row := CsrText.WriteRow(indptr, "");
    text := text + row;
    if indptr != [] {
      CsrText.TextRoundTrip(numVertices, |indices|, indices, indptr);
    }
  }
}
