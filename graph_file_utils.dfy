/**
 * The C++ graph readers and the edge-list writer. Each reader checks the path,
 * then reads the file line by line (`std::getline`, so the lines carry no
 * line terminator) into the caller's `std::set<Edge>`, inserting every edge
 * in both directions and dropping loops, and returns the vertex count from
 * the file's header. The file itself is the sequence of its lines.
 */
module GraphFileUtils {
  import opened Wrappers
  import opened CppInt
  import opened Text
  import opened Edges
  import opened LineScan

  // ----- std::stoi -----

  /** The length of the leading run of decimal digits. */
  function DigitRun(s: string): (n: nat)
    ensures n <= |s| && AllDigits(s[..n]) && (n < |s| ==> !IsDigit(s[n]))
  {
    if s == [] || !IsDigit(s[0]) then 0
    else
      var n := 1 + DigitRun(s[1..]);
      assert s[..n] == [s[0]] + s[1..][..n - 1];
      n
  }

  /**
   * `std::stoi(s)`: leading white space, an optional sign and at least one
   * digit; anything after the digits is ignored. No digits is
   * `std::invalid_argument`, a value outside `int` is `std::out_of_range`.
   */
  function Stoi(s: string): (r: Result<int, ReadError>)
    ensures r.Ok? ==> IsInt32(r.value)
    ensures r.Err? ==> r.error == InvalidNumber || r.error == OutOfRange
  {
    LeadingInt(s[SpaceRun(s)..])
  }

  /** The optional sign and digits at the start of `t`, in `int` range. */
  function LeadingInt(t: string): (r: Result<int, ReadError>)
    ensures r.Ok? ==> IsInt32(r.value)
    ensures r.Err? ==> r.error == InvalidNumber || r.error == OutOfRange
  {
    var negative := |t| > 0 && t[0] == '-';
    var u := if |t| > 0 && (t[0] == '-' || t[0] == '+') then t[1..] else t;
    var digits := u[..DigitRun(u)];
    if digits == [] then Err(InvalidNumber)
    else
      var v := if negative then 0 - DigitsValue(digits) else DigitsValue(digits);
      if IsInt32(v) then Ok(v) else Err(OutOfRange)
  }

  lemma {:induction false} DigitRunOf(d: string, rest: string)
    requires AllDigits(d)
    requires rest == [] || !IsDigit(rest[0])
    ensures DigitRun(d + rest) == |d|
  {
    if d != [] {
      assert (d + rest)[0] == d[0] && (d + rest)[1..] == d[1..] + rest;
      DigitRunOf(d[1..], rest);
    }
  }

  lemma {:induction false} LeadingNatural(d: string, rest: string)
    requires d != [] && AllDigits(d) && IsInt32(DigitsValue(d))
    requires rest == [] || !IsDigit(rest[0])
    ensures LeadingInt(d + rest) == Ok(DigitsValue(d))
  {
    DigitRunOf(d, rest);
    assert (d + rest)[..|d|] == d;
  }

  lemma {:induction false} LeadingNegative(d: string, rest: string)
    requires d != [] && AllDigits(d) && IsInt32(0 - DigitsValue(d))
    requires rest == [] || !IsDigit(rest[0])
    ensures LeadingInt("-" + d + rest) == Ok(0 - DigitsValue(d))
  {
    assert ("-" + d + rest)[1..] == d + rest;
    DigitRunOf(d, rest);
    assert (d + rest)[..|d|] == d;
  }

  /** A numeral in `int` range, after white space and before a non-digit, reads back as its value. */
  lemma {:induction false} StoiOfShow(pad: string, x: int, rest: string)
    requires forall i :: 0 <= i < |pad| ==> IsSpace(pad[i])
    requires IsInt32(x)
    requires rest == [] || !IsDigit(rest[0])
    ensures Stoi(pad + Show(x) + rest) == Ok(x)
  {
    var t := Show(x) + rest;
    AppendAssoc(pad, Show(x), rest);
    ShowChars(x);
    assert t[0] == Show(x)[0];
    StoiAfterPad(pad, t);
    LeadingShow(x, rest);
  }

  /** `std::stoi` skips the leading white space. */
  lemma {:induction false} StoiAfterPad(pad: string, t: string)
    requires forall i :: 0 <= i < |pad| ==> IsSpace(pad[i])
    requires t == [] || !IsSpace(t[0])
    ensures Stoi(pad + t) == LeadingInt(t)
  {
    SpaceRunOf(pad, t);
    assert (pad + t)[|pad|..] == t;
  }

  lemma {:induction false} LeadingShow(x: int, rest: string)
    requires IsInt32(x)
    requires rest == [] || !IsDigit(rest[0])
    ensures LeadingInt(Show(x) + rest) == Ok(x)
  {
    if x < 0 {
      DigitsValueOfShowNat(-x);
      LeadingNegative(ShowNat(-x), rest);
    } else {
      DigitsValueOfShowNat(x);
      LeadingNatural(ShowNat(x), rest);
    }
  }

  lemma {:induction false} StoiShow(x: int)
    requires IsInt32(x)
    ensures Stoi(Show(x)) == Ok(x)
  {
    StoiOfShow([], x, []);
    assert [] + Show(x) + [] == Show(x);
  }

  lemma {:induction false} StoiAfterSpace(x: int)
    requires IsInt32(x)
    ensures Stoi(" " + Show(x)) == Ok(x)
  {
    StoiOfShow(" ", x, []);
    AppendEmpty(" " + Show(x));
  }

  lemma {:induction false} StoiBefore(x: int, rest: string)
    requires IsInt32(x)
    requires rest == [] || !IsDigit(rest[0])
    ensures Stoi(Show(x) + rest) == Ok(x)
  {
    StoiOfShow([], x, rest);
    EmptyAppend(Show(x));
  }

  /** Text without a digit where a number is expected is rejected. */
  lemma {:induction false} StoiRejectsNonNumeral(s: string)
    requires forall i :: 0 <= i < |s| ==> !IsDigit(s[i])
    ensures Stoi(s) == Err(InvalidNumber)
  {
    var t := s[SpaceRun(s)..];
    var u := if |t| > 0 && (t[0] == '-' || t[0] == '+') then t[1..] else t;
    if |u| > 0 {
      assert u[0] == s[|s| - |u|];
    }
  }

  // ----- std::experimental::filesystem::path::extension -----

  /** The last component of a path. */
  function FileName(path: string): (name: string)
    ensures Free(name, '/') && EndsWith(path, name)
  {
    match FindLast(path, '/')
    case None => path
    case Some(i) => path[i + 1..]
  }

  /**
   * The extension of the file name: from its last '.' to the end, except
   * for the names "." and ".." (the File System TS rule, so a name such as
   * ".mtx" is all extension).
   */
  function Extension(path: string): (ext: string)
    ensures ext == [] || (ext[0] == '.' && Free(ext[1..], '.') && Free(ext, '/') && EndsWith(path, ext))
  {
    var name := FileName(path);
    if name == "." || name == ".." then ""
    else match FindLast(name, '.')
      case None => ""
      case Some(i) =>
        EndsWithSuffix(path, name, i);
        name[i..]
  }

  lemma {:induction false} EndsWithSuffix(s: string, t: string, i: nat)
    requires EndsWith(s, t) && i <= |t|
    ensures EndsWith(s, t[i..])
  {
    assert s[|s| - |t[i..]|..] == s[|s| - |t|..][i..];
  }

  /** A name ending in a dot and a dot-free suffix has that suffix as its extension, even when the stem is empty. */
  lemma {:induction false} ExtensionOf(dir: string, stem: string, suffix: string)
    requires dir == [] || dir[|dir| - 1] == '/'
    requires Free(stem, '/')
    requires suffix != [] && Free(suffix, '.') && Free(suffix, '/')
    ensures Extension(dir + stem + "." + suffix) == "." + suffix
  {
    var name := stem + "." + suffix;
    AppendAssoc(dir, stem, ".");
    AppendAssoc(dir, stem + ".", suffix);
    NameFree(stem, suffix);
    FileNameOf(dir, name);
    LastDotBeforeSuffix(stem, suffix);
    ExtensionAt(dir + name, name, |stem|);
  }

  /** The extension starts at the last '.' of the file name, unless the name is "." or "..". */
  lemma {:induction false} ExtensionAt(path: string, name: string, i: nat)
    requires FileName(path) == name && name != "." && name != ".."
    requires FindLast(name, '.') == Some(i)
    ensures Extension(path) == name[i..]
  {
  }

  lemma {:induction false} NameFree(stem: string, suffix: string)
    requires Free(stem, '/') && Free(suffix, '/')
    ensures Free(stem + "." + suffix, '/')
  {
    var name := stem + "." + suffix;
    forall k | 0 <= k < |name| ensures name[k] != '/' {
      if k < |stem| { assert name[k] == stem[k]; }
      else if k > |stem| { assert name[k] == suffix[k - |stem| - 1]; }
    }
  }

  /** After a directory part ending in '/', the file name is the rest. */
  lemma {:induction false} FileNameOf(dir: string, name: string)
    requires dir == [] || dir[|dir| - 1] == '/'
    requires Free(name, '/')
    ensures FileName(dir + name) == name
  {
    var path := dir + name;
    if dir == [] {
      assert path == name;
      FindLastIs(path, '/', None);
    } else {
      forall k | |dir| - 1 < k < |path| ensures path[k] != '/' {
        assert path[k] == name[k - |dir|];
      }
      FindLastIs(path, '/', Some(|dir| - 1));
      assert path[|dir|..] == name;
    }
  }

  lemma {:induction false} LastDotBeforeSuffix(stem: string, suffix: string)
    requires Free(suffix, '.')
    ensures FindLast(stem + "." + suffix, '.') == Some(|stem|)
    ensures (stem + "." + suffix)[|stem|..] == "." + suffix
  {
    var name := stem + "." + suffix;
    assert name[|stem|] == '.';
    AppendAssoc(stem, ".", suffix);
    forall k | |stem| < k < |name| ensures name[k] != '.' {
      assert name[k] == suffix[k - |stem| - 1];
    }
    FindLastIs(name, '.', Some(|stem|));
  }

  /** `FindLast` is determined by where the character occurs. */
  lemma {:induction false} FindLastIs(s: string, c: char, r: Option<nat>)
    requires r.Some? ==> r.value < |s| && s[r.value] == c && forall k :: r.value < k < |s| ==> s[k] != c
    requires r.None? ==> forall k :: 0 <= k < |s| ==> s[k] != c
    ensures FindLast(s, c) == r
  {
  }

  // ----- one-character searches in a line made of numerals -----

  /** A numeral holds no separator, so a search from its first position continues past it. */
  lemma {:induction false} FindPastShow(s: string, c: char, start: nat, x: int)
    requires c != '-' && !IsDigit(c)
    requires start + |Show(x)| <= |s| && s[start..start + |Show(x)|] == Show(x)
    ensures FindFrom(s, c, start) == FindFrom(s, c, start + |Show(x)|)
  {
    ShowFree(x, c);
    forall k | start <= k < start + |Show(x)| ensures s[k] != c {
      assert s[k] == s[start..start + |Show(x)|][k - start];
    }
    FindPast(s, c, start, start + |Show(x)|);
  }

  lemma {:induction false} FindPast(s: string, c: char, start: nat, end: nat)
    requires start <= end <= |s|
    requires forall k :: start <= k < end ==> s[k] != c
    ensures FindFrom(s, c, start) == FindFrom(s, c, end)
    decreases end - start
  {
    if start < end {
      FindPast(s, c, start + 1, end);
    }
  }

  lemma {:induction false} FindHere(s: string, c: char, start: nat)
    requires start < |s| && s[start] == c
    ensures FindFrom(s, c, start) == Some(start)
  {
  }

  lemma {:induction false} FindNoneAtEnd(s: string, c: char, start: nat)
    requires start >= |s|
    ensures FindFrom(s, c, start) == None
  {
  }

  /** `line.substr(start, line.find(c, start) - start)`: up to the next `c`, or to the end when there is none. */
  function UpTo(line: string, c: char, start: nat): (t: string)
    requires start <= |line|
    ensures Free(t, c) && start + |t| <= |line| && t == line[start..start + |t|]
  {
    match FindFrom(line, c, start)
    case None => line[start..]
    case Some(g) => line[start..g]
  }

  /** A numeral followed by `c` or by the end of the line is the token there. */
  lemma {:induction false} UpToShow(line: string, c: char, start: nat, x: int)
    requires c != '-' && !IsDigit(c)
    requires start + |Show(x)| <= |line| && line[start..start + |Show(x)|] == Show(x)
    requires start + |Show(x)| == |line| || line[start + |Show(x)|] == c
    ensures UpTo(line, c, start) == Show(x)
  {
    FindPastShow(line, c, start, x);
    if start + |Show(x)| == |line| {
      FindNoneAtEnd(line, c, start + |Show(x)|);
    } else {
      FindHere(line, c, start + |Show(x)|);
    }
  }

  // ----- the edges a line contributes -----

  /** Parse two numbers, shift them by `shift` and insert the edge symmetrically. */
  function AddEdge(edges: set<Edge>, fromText: string, toText: string, shift: int): Result<set<Edge>, ReadError>
  {
    match Stoi(fromText)
    case Err(e) => Err(e)
    case Ok(from) =>
      match Stoi(toText)
      case Err(e) => Err(e)
      case Ok(to) => Ok(InsertSymmetric(edges, from - shift, to - shift))
  }

  // ----- ReadMtxFile -----

  datatype MtxState = MtxState(firstLine: bool, numVert: int, edges: set<Edge>)

  /**
   * One line of a Matrix Market file: '%' comments are skipped, the first
   * other line gives the vertex count as its first token, every later line
   * is "from to [...]" with 1-based vertex ids.
   */
  function MtxStep(st: MtxState, line: string): Result<MtxState, ReadError>
  {
    if FirstChar(line) == '%' then Ok(st)
    else if st.firstLine then
      match Stoi(UpTo(line, ' ', 0))
      case Err(e) => Err(e)
      case Ok(n) => Ok(st.(firstLine := false, numVert := n))
    else
      var (fromText, toText) := MtxFields(line);
      match AddEdge(st.edges, fromText, toText, 1)
      case Err(e) => Err(e)
      case Ok(edges) => Ok(st.(edges := edges))
  }

  /** The two tokens of a data line: up to the first space, and from there up to the next space. */
  function MtxFields(line: string): (string, string)
  {
    match FindFrom(line, ' ', 0)
    case None => (line, line)
    case Some(f) => (line[..f], UpTo(line, ' ', f + 1))
  }

  /** How a reader ends: the edges in the caller's set, and the vertex count or the exception. */
  function Outcome(edges: set<Edge>, numVert: int, failure: Option<ReadError>): (set<Edge>, Result<int, ReadError>)
  {
    (edges, match failure case None => Ok(numVert) case Some(e) => Err(e))
  }

  method ReadMtxFile(filename: string, isRegularFile: bool, lines: seq<string>, edgeList: set<Edge>)
    returns (edges: set<Edge>, r: Result<int, ReadError>)
    ensures !isRegularFile ==> edges == edgeList && r == Err(NoSuchFile)
    ensures isRegularFile && Extension(filename) != ".mtx" ==>
              edges == edgeList && r == Err(WrongExtension(Extension(filename)))
    ensures isRegularFile && Extension(filename) == ".mtx" ==>
              var sc := ScanLines(MtxStep, MtxState(true, 0, edgeList), lines);
              (edges, r) == Outcome(sc.state.edges, sc.state.numVert, sc.failure)
  {
    if !isRegularFile {
      return edgeList, Err(NoSuchFile);
    }
    if Extension(filename) != ".mtx" {
      return edgeList, Err(WrongExtension(Extension(filename)));
    }
    var sc := RunLines(MtxStep, MtxState(true, 0, edgeList), lines);
    edges, r := Outcome(sc.state.edges, sc.state.numVert, sc.failure).0, Outcome(sc.state.edges, sc.state.numVert, sc.failure).1;
  }

  /** A comment line changes nothing. */
  lemma {:induction false} MtxComment(st: MtxState, line: string)
    requires FirstChar(line) == '%'
    ensures MtxStep(st, line) == Ok(st)
  {
  }

  /** The header "n m k" sets the vertex count and adds no edge. */
  lemma {:induction false} MtxHeader(st: MtxState, n: int, rest: string)
    requires st.firstLine && IsInt32(n)
    requires rest == [] || rest[0] == ' '
    ensures MtxStep(st, Show(n) + rest) == Ok(st.(firstLine := false, numVert := n))
  {
    var line := Show(n) + rest;
    assert FirstChar(line) == Show(n)[0];
    assert line[0..|Show(n)|] == Show(n);
    UpToShow(line, ' ', 0, n);
    StoiShow(n);
  }

  lemma {:induction false} MtxFieldsOf(a: int, b: int, rest: string)
    requires rest == [] || rest[0] == ' '
    ensures MtxFields(Show(a) + " " + Show(b) + rest) == (Show(a), Show(b))
  {
    var line := Show(a) + " " + Show(b) + rest;
    var f := |Show(a)|;
    assert line[0..f] == Show(a);
    FindPastShow(line, ' ', 0, a);
    FindHere(line, ' ', f);
    assert line[f + 1..f + 1 + |Show(b)|] == Show(b);
    UpToShow(line, ' ', f + 1, b);
  }

  /** A data line "a b [...]" inserts the 0-based edge (a-1, b-1) in both directions, unless it is a loop. */
  lemma {:induction false} MtxData(st: MtxState, a: int, b: int, rest: string)
    requires !st.firstLine && IsInt32(a) && IsInt32(b)
    requires rest == [] || rest[0] == ' '
    ensures MtxStep(st, Show(a) + " " + Show(b) + rest) == Ok(st.(edges := InsertSymmetric(st.edges, a - 1, b - 1)))
  {
    NumeralLineStart(a, " ", Show(b), rest);
    MtxDataTokens(st.edges, a, b, rest);
    MtxStepAdds(st, Show(a) + " " + Show(b) + rest, InsertSymmetric(st.edges, a - 1, b - 1));
  }

  /** A line that starts with a numeral is neither a comment nor a header line. */
  lemma {:induction false} NumeralLineStart(a: int, sep: string, t: string, rest: string)
    ensures FirstChar(Show(a) + sep + t + rest) == Show(a)[0]
    ensures IsDigit(Show(a)[0]) || Show(a)[0] == '-'
  {
    DropFirst(Show(a), sep);
    DropFirst(Show(a) + sep, t);
    DropFirst(Show(a) + sep + t, rest);
  }

  lemma {:induction false} MtxDataTokens(edges: set<Edge>, a: int, b: int, rest: string)
    requires IsInt32(a) && IsInt32(b)
    requires rest == [] || rest[0] == ' '
    ensures var (fromText, toText) := MtxFields(Show(a) + " " + Show(b) + rest);
            AddEdge(edges, fromText, toText, 1) == Ok(InsertSymmetric(edges, a - 1, b - 1))
  {
    MtxFieldsOf(a, b, rest);
    StoiShow(a);
    StoiShow(b);
    AddEdgeOf(edges, Show(a), Show(b), 1, a, b);
  }

  /** A data line whose two tokens read as numbers adds their edge. */
  lemma {:induction false} MtxStepAdds(st: MtxState, line: string, edges: set<Edge>)
    requires !st.firstLine && FirstChar(line) != '%'
    requires AddEdge(st.edges, MtxFields(line).0, MtxFields(line).1, 1) == Ok(edges)
    ensures MtxStep(st, line) == Ok(st.(edges := edges))
  {
  }

  // ----- ReadTxtFile -----

  datatype TxtState = TxtState(numVert: int, edges: set<Edge>)

  /**
   * One line of a SNAP edge list: a '#' line naming both "Nodes:" and
   * "Edges:" gives the vertex count as the token after the first ':',
   * other '#' lines are skipped, every other line is "from<TAB>to" with
   * 0-based ids. A missing character search gives `npos`, and `npos + 1` is 0.
   */
  function TxtStep(st: TxtState, line: string): Result<TxtState, ReadError>
  {
    if FirstChar(line) == '#' then
      if Contains(line, "Nodes:") && Contains(line, "Edges:") then
        var cutFrom: nat := match FindFrom(line, ':', 0) case None => 0 case Some(c) => c + 1;
        var token := match FindFrom(line, ' ', cutFrom + 2) case None => line[cutFrom..] case Some(t) => line[cutFrom..t];
        match Stoi(token)
        case Err(e) => Err(e)
        case Ok(n) => Ok(st.(numVert := n))
      else Ok(st)
    else
      var (fromText, toText) := TxtFields(line);
      match AddEdge(st.edges, fromText, toText, 0)
      case Err(e) => Err(e)
      case Ok(edges) => Ok(st.(edges := edges))
  }

  /** The two tokens of a data line: before the first tab and after it. */
  function TxtFields(line: string): (string, string)
  {
    match FindFrom(line, '\t', 0)
    case None => (line, line)
    case Some(f) => (line[..f], line[f + 1..])
  }

  method ReadTxtFile(filename: string, isRegularFile: bool, lines: seq<string>, edgeList: set<Edge>)
    returns (edges: set<Edge>, r: Result<int, ReadError>)
    ensures !isRegularFile ==> edges == edgeList && r == Err(NoSuchFile)
    ensures isRegularFile && Extension(filename) != ".txt" ==>
              edges == edgeList && r == Err(WrongExtension(Extension(filename)))
    ensures isRegularFile && Extension(filename) == ".txt" ==>
              var sc := ScanLines(TxtStep, TxtState(0, edgeList), lines);
              (edges, r) == Outcome(sc.state.edges, sc.state.numVert, sc.failure)
  {
    if !isRegularFile {
      return edgeList, Err(NoSuchFile);
    }
    if Extension(filename) != ".txt" {
      return edgeList, Err(WrongExtension(Extension(filename)));
    }
    var sc := RunLines(TxtStep, TxtState(0, edgeList), lines);
    edges, r := Outcome(sc.state.edges, sc.state.numVert, sc.failure).0, Outcome(sc.state.edges, sc.state.numVert, sc.failure).1;
  }

  lemma {:induction false} ContainsAt(s: string, sub: string, i: nat)
    requires i + |sub| <= |s| && s[i..i + |sub|] == sub
    ensures Contains(s, sub)
    decreases i
  {
    if i > 0 {
      assert s[1..][i - 1..i - 1 + |sub|] == sub;
      ContainsAt(s[1..], sub, i - 1);
    }
  }

  /** Where the C++ SNAP reader looks in a header line, over any numeral text `p` and `q`. */
  lemma {:induction false} CppHeaderText(p: string, q: string)
    requires p != [] && Free(p, ' ')
    ensures var line := "# Nodes: " + p + " Edges: " + q;
            FirstChar(line) == '#' && Contains(line, "Nodes:") && Contains(line, "Edges:")
            && FindFrom(line, ':', 0) == Some(7) && FindFrom(line, ' ', 10) == Some(9 + |p|)
            && line[8..9 + |p|] == " " + p
  {
    CppHeaderNames(p, q);
    FindColon(p, q);
    FindAfterNumeral(p, q);
  }

  lemma {:induction false} CppHeaderNames(p: string, q: string)
    ensures var line := "# Nodes: " + p + " Edges: " + q;
            FirstChar(line) == '#' && Contains(line, "Nodes:") && Contains(line, "Edges:")
  {
    var line := "# Nodes: " + p + " Edges: " + q;
    assert line == "# " + "Nodes:" + (" " + p + " Edges: " + q);
    ContainsMiddle("# ", "Nodes:", " " + p + " Edges: " + q);
    assert line == ("# Nodes: " + p + " ") + "Edges:" + (" " + q);
    ContainsMiddle("# Nodes: " + p + " ", "Edges:", " " + q);
  }

  lemma {:induction false} FindColon(p: string, q: string)
    ensures FindFrom("# Nodes: " + p + " Edges: " + q, ':', 0) == Some(7)
  {
    FindHere("# Nodes: " + p + " Edges: " + q, ':', 7);
  }

  /** The search for a space from inside the numeral stops just past it. */
  lemma {:induction false} FindAfterNumeral(p: string, q: string)
    requires p != [] && Free(p, ' ')
    ensures var line := "# Nodes: " + p + " Edges: " + q;
            FindFrom(line, ' ', 10) == Some(9 + |p|) && line[8..9 + |p|] == " " + p
  {
    var line := "# Nodes: " + p + " Edges: " + q;
    var k := 9 + |p|;
    forall j | 10 <= j < k ensures line[j] != ' ' {
      assert line[j] == p[j - 9];
    }
    FindPast(line, ' ', 10, k);
    FindHere(line, ' ', k);
    assert line[8..k] == " " + p;
  }

  /** The SNAP header "# Nodes: n Edges: m" sets the vertex count and adds no edge. */
  lemma {:induction false} TxtHeader(st: TxtState, n: int, m: int)
    requires IsInt32(n)
    ensures TxtStep(st, "# Nodes: " + Show(n) + " Edges: " + Show(m)) == Ok(st.(numVert := n))
  {
    ShowFree(n, ' ');
    CppHeaderText(Show(n), Show(m));
    StoiAfterSpace(n);
  }

  /** A data line "a<TAB>b" inserts the edge (a, b) in both directions, unless it is a loop. */
  lemma {:induction false} TxtData(st: TxtState, a: int, b: int, rest: string)
    requires IsInt32(a) && IsInt32(b)
    requires rest == [] || !IsDigit(rest[0])
    ensures TxtStep(st, Show(a) + "\t" + Show(b) + rest) == Ok(st.(edges := InsertSymmetric(st.edges, a, b)))
  {
    NumeralLineStart(a, "\t", Show(b), rest);
    TxtDataTokens(st.edges, a, b, rest);
    TxtStepAdds(st, Show(a) + "\t" + Show(b) + rest, InsertSymmetric(st.edges, a, b));
  }

  lemma {:induction false} TxtDataTokens(edges: set<Edge>, a: int, b: int, rest: string)
    requires IsInt32(a) && IsInt32(b)
    requires rest == [] || !IsDigit(rest[0])
    ensures var (fromText, toText) := TxtFields(Show(a) + "\t" + Show(b) + rest);
            AddEdge(edges, fromText, toText, 0) == Ok(InsertSymmetric(edges, a, b))
  {
    TxtFieldsOf(a, Show(b) + rest);
    AppendAssoc(Show(a) + "\t", Show(b), rest);
    AppendAssoc(Show(a), "\t", Show(b) + rest);
    StoiShow(a);
    StoiOfShow([], b, rest);
    EmptyAppend(Show(b));
    AddEdgeOf(edges, Show(a), Show(b) + rest, 0, a, b);
  }

  lemma {:induction false} TxtFieldsOf(a: int, tail: string)
    ensures TxtFields(Show(a) + ("\t" + tail)) == (Show(a), tail)
  {
    ShowFree(a, '\t');
    TxtFieldsAround(Show(a), tail);
  }

  /** The tab after a tab-free first field splits the line there. */
  lemma {:induction false} TxtFieldsAround(p: string, tail: string)
    requires Free(p, '\t')
    ensures TxtFields(p + ("\t" + tail)) == (p, tail)
  {
    var line := p + ("\t" + tail);
    var f := |p|;
    forall k | 0 <= k < f ensures line[k] != '\t' {
      assert line[k] == p[k];
    }
    FindPast(line, '\t', 0, f);
    FindHere(line, '\t', f);
    assert line[..f] == p;
    assert line[f + 1..] == tail;
  }

  /** A data line whose two tokens read as numbers adds their edge. */
  lemma {:induction false} TxtStepAdds(st: TxtState, line: string, edges: set<Edge>)
    requires FirstChar(line) != '#'
    requires AddEdge(st.edges, TxtFields(line).0, TxtFields(line).1, 0) == Ok(edges)
    ensures TxtStep(st, line) == Ok(st.(edges := edges))
  {
  }

  // ----- ReadGrFile -----

  datatype GrState = GrState(numVert: int, edges: set<Edge>)

  /**
   * One line of a DIMACS shortest-path file: a 'p' line containing "sp"
   * gives the vertex count as the token from position 5, an 'a' line is
   * "a from to weight" with 1-based ids, every other line is skipped.
   */
  function GrStep(st: GrState, line: string): Result<GrState, ReadError>
  {
    if FirstChar(line) == 'p' then
      if Contains(line, "sp") then ProblemStep(st, line) else Ok(st)
    else if FirstChar(line) == 'a' then ArcStep(st, line)
    else Ok(st)
  }

  /** A problem line: the vertex count is the token from position 5 up to the next space. */
  function ProblemStep(st: GrState, line: string): Result<GrState, ReadError>
  {
    if |line| < 5 then Err(OutOfRange)
    else
      var token := match FindFrom(line, ' ', 5) case None => line[5..] case Some(t) => line[5..t];
      match Stoi(token)
      case Err(e) => Err(e)
      case Ok(n) => Ok(st.(numVert := n))
  }

  /** An arc line: its two tokens are read as 1-based vertex ids. */
  function ArcStep(st: GrState, line: string): Result<GrState, ReadError>
  {
    match GrFields(line)
    case Err(e) => Err(e)
    case Ok((fromText, toText)) =>
      match AddEdge(st.edges, fromText, toText, 1)
      case Err(e) => Err(e)
      case Ok(edges) => Ok(st.(edges := edges))
  }

  /**
   * The two tokens of an arc line: from the first space up to the second,
   * and after the second. Without a first space the `substr` starts past
   * the end; without a second one the second token is the whole line.
   */
  function GrFields(line: string): Result<(string, string), ReadError>
  {
    match FindFrom(line, ' ', 0)
    case None => Err(OutOfRange)
    case Some(f) =>
      match FindFrom(line, ' ', f + 1)
      case None => Ok((line[f..], line))
      case Some(g) => Ok((line[f..g], line[g + 1..]))
  }

  method ReadGrFile(filename: string, isRegularFile: bool, lines: seq<string>, edgeList: set<Edge>)
    returns (edges: set<Edge>, r: Result<int, ReadError>)
    ensures !isRegularFile ==> edges == edgeList && r == Err(NoSuchFile)
    ensures isRegularFile && Extension(filename) != ".gr" ==>
              edges == edgeList && r == Err(WrongExtension(Extension(filename)))
    ensures isRegularFile && Extension(filename) == ".gr" ==>
              var sc := ScanLines(GrStep, GrState(0, edgeList), lines);
              (edges, r) == Outcome(sc.state.edges, sc.state.numVert, sc.failure)
  {
    if !isRegularFile {
      return edgeList, Err(NoSuchFile);
    }
    if Extension(filename) != ".gr" {
      return edgeList, Err(WrongExtension(Extension(filename)));
    }
    var sc := RunLines(GrStep, GrState(0, edgeList), lines);
    edges, r := Outcome(sc.state.edges, sc.state.numVert, sc.failure).0, Outcome(sc.state.edges, sc.state.numVert, sc.failure).1;
  }

  /** Where the C++ DIMACS reader looks in a problem line, over any numeral text `p` and `q`. */
  lemma {:induction false} GrProblemText(p: string, q: string)
    requires Free(p, ' ')
    ensures var line := "p sp " + p + " " + q;
            FirstChar(line) == 'p' && Contains(line, "sp") && |line| >= 5
            && FindFrom(line, ' ', 5) == Some(5 + |p|) && line[5..5 + |p|] == p
  {
    GrProblemName(p, q);
    FindAfterCount(p, q);
  }

  lemma {:induction false} GrProblemName(p: string, q: string)
    ensures var line := "p sp " + p + " " + q;
            FirstChar(line) == 'p' && Contains(line, "sp") && |line| >= 5
  {
    var line := "p sp " + p + " " + q;
    assert line == "p " + "sp" + (" " + p + " " + q);
    ContainsMiddle("p ", "sp", " " + p + " " + q);
  }

  lemma {:induction false} FindAfterCount(p: string, q: string)
    requires Free(p, ' ')
    ensures var line := "p sp " + p + " " + q;
            FindFrom(line, ' ', 5) == Some(5 + |p|) && line[5..5 + |p|] == p
  {
    var line := "p sp " + p + " " + q;
    var k := 5 + |p|;
    forall j | 5 <= j < k ensures line[j] != ' ' {
      assert line[j] == p[j - 5];
    }
    FindPast(line, ' ', 5, k);
    FindHere(line, ' ', k);
    assert line[5..k] == p;
  }

  /** The problem line "p sp n m" sets the vertex count and adds no edge. */
  lemma {:induction false} GrProblem(st: GrState, n: int, m: int)
    requires IsInt32(n)
    ensures GrStep(st, "p sp " + Show(n) + " " + Show(m)) == Ok(st.(numVert := n))
  {
    ShowFree(n, ' ');
    GrProblemText(Show(n), Show(m));
    StoiShow(n);
  }

  lemma {:induction false} GrFieldsOf(a: int, rest: string)
    requires rest == [] || rest[0] == ' '
    ensures GrFields("a " + Show(a) + rest) ==
              Ok((" " + Show(a), if rest == [] then "a " + Show(a) else rest[1..]))
  {
    ShowFree(a, ' ');
    ArcFirstSpace(Show(a), rest);
    ArcSecondSpace(Show(a), rest);
    ArcTokens(Show(a), rest);
  }

  lemma {:induction false} ArcFirstSpace(p: string, rest: string)
    ensures FindFrom("a " + p + rest, ' ', 0) == Some(1)
  {
    FindHere("a " + p + rest, ' ', 1);
  }

  lemma {:induction false} ArcSecondSpace(p: string, rest: string)
    requires Free(p, ' ') && (rest == [] || rest[0] == ' ')
    ensures FindFrom("a " + p + rest, ' ', 2) == if rest == [] then None else Some(2 + |p|)
  {
    var line := "a " + p + rest;
    var g := 2 + |p|;
    forall j | 2 <= j < g ensures line[j] != ' ' {
      assert line[j] == p[j - 2];
    }
    FindPast(line, ' ', 2, g);
    if rest == [] {
      FindNoneAtEnd(line, ' ', g);
    } else {
      FindHere(line, ' ', g);
    }
  }

  lemma {:induction false} ArcTokens(p: string, rest: string)
    ensures var line := "a " + p + rest;
            line[1..2 + |p|] == " " + p
            && (rest != [] ==> line[2 + |p| + 1..] == rest[1..])
            && (rest == [] ==> line[1..] == " " + p && line == "a " + p)
  {
    var line := "a " + p + rest;
    var g := 2 + |p|;
    assert line[1..g] == " " + p;
    if rest == [] {
      AppendEmpty("a " + p);
      assert line[1..] == " " + p;
    } else {
      assert line[g + 1..] == rest[1..];
    }
  }

  /** An arc line "a a b [w]" inserts the 0-based edge (a-1, b-1) in both directions, unless it is a loop. */
  lemma {:induction false} GrArc(st: GrState, a: int, b: int, rest: string)
    requires IsInt32(a) && IsInt32(b)
    requires rest == [] || rest[0] == ' '
    ensures GrStep(st, "a " + Show(a) + " " + Show(b) + rest) == Ok(st.(edges := InsertSymmetric(st.edges, a - 1, b - 1)))
  {
    var line := "a " + Show(a) + " " + Show(b) + rest;
    DropFirst("a ", Show(a));
    DropFirst("a " + Show(a), " ");
    DropFirst("a " + Show(a) + " ", Show(b));
    DropFirst("a " + Show(a) + " " + Show(b), rest);
    GrArcTokens(st.edges, a, b, rest);
    GrStepAdds(st, line, InsertSymmetric(st.edges, a - 1, b - 1));
  }

  lemma {:induction false} GrArcTokens(edges: set<Edge>, a: int, b: int, rest: string)
    requires IsInt32(a) && IsInt32(b)
    requires rest == [] || rest[0] == ' '
    ensures var fields := GrFields("a " + Show(a) + " " + Show(b) + rest);
            fields.Ok? && AddEdge(edges, fields.value.0, fields.value.1, 1) == Ok(InsertSymmetric(edges, a - 1, b - 1))
  {
    var line := "a " + Show(a) + " " + Show(b) + rest;
    GrArcFields(a, b, rest);
    StoiAfterSpace(a);
    StoiBefore(b, rest);
    AddEdgeOfFields(edges, GrFields(line), " " + Show(a), Show(b) + rest, a, b);
  }

  lemma {:induction false} AddEdgeOfFields(edges: set<Edge>, fields: Result<(string, string), ReadError>, fromText: string, toText: string, from: int, to: int)
    requires fields == Ok((fromText, toText))
    requires Stoi(fromText) == Ok(from) && Stoi(toText) == Ok(to)
    ensures fields.Ok? && AddEdge(edges, fields.value.0, fields.value.1, 1) == Ok(InsertSymmetric(edges, from - 1, to - 1))
  {
    AddEdgeOf(edges, fromText, toText, 1, from, to);
  }

  /** An arc line whose two tokens read as numbers adds their edge. */
  lemma {:induction false} GrStepAdds(st: GrState, line: string, edges: set<Edge>)
    requires FirstChar(line) == 'a' && GrFields(line).Ok?
    requires AddEdge(st.edges, GrFields(line).value.0, GrFields(line).value.1, 1) == Ok(edges)
    ensures GrStep(st, line) == Ok(st.(edges := edges))
  {
  }

  lemma {:induction false} GrArcFields(a: int, b: int, rest: string)
    ensures GrFields("a " + Show(a) + " " + Show(b) + rest) == Ok((" " + Show(a), Show(b) + rest))
  {
    var tail := Show(b) + rest;
    AppendAssoc("a " + Show(a) + " ", Show(b), rest);
    AppendAssoc("a " + Show(a), " ", tail);
    GrFieldsOf(a, " " + tail);
    HeadTail(' ', tail);
  }

  lemma {:induction false} AddEdgeOf(edges: set<Edge>, fromText: string, toText: string, shift: int, from: int, to: int)
    requires Stoi(fromText) == Ok(from) && Stoi(toText) == Ok(to)
    ensures AddEdge(edges, fromText, toText, shift) == Ok(InsertSymmetric(edges, from - shift, to - shift))
  {
  }

  /** Only 'a' lines add edges, and a problem or comment line never does. */
  lemma {:induction false} GrOnlyArcsAddEdges(st: GrState, line: string)
    requires FirstChar(line) != 'a'
    requires GrStep(st, line).Ok?
    ensures GrStep(st, line).value.edges == st.edges
  {
  }

  // ----- whole files -----

  ghost predicate Int32Edges(ps: seq<Edge>) { forall i :: 0 <= i < |ps| ==> IsInt32(ps[i].0) && IsInt32(ps[i].1) }

  lemma {:induction false} Int32EdgesTail(ps: seq<Edge>)
    requires ps != [] && Int32Edges(ps)
    ensures IsInt32(ps[0].0) && IsInt32(ps[0].1) && Int32Edges(ps[1..])
  {
    assert ps[0] == ps[0];
  }

  /** Data lines "a b" for the edges `ps`. */
  function MtxLines(ps: seq<Edge>): seq<string>
    decreases |ps|
  {
    if |ps| == 0 then [] else [EdgeLine(ps[0])] + MtxLines(ps[1..])
  }

  /** After the header, `step` reads the data line of every edge of two int32 ids as the insertion of its 0-based edge. */
  ghost predicate ReadsDataLines(step: (MtxState, string) -> Result<MtxState, ReadError>)
  {
    forall s: MtxState, e: Edge {:trigger step(s, EdgeLine(e))} :: !s.firstLine && IsInt32(e.0) && IsInt32(e.1) ==>
      step(s, EdgeLine(e)) == Ok(s.(edges := InsertSymmetric(s.edges, e.0 - 1, e.1 - 1)))
  }

  /** A data line "a b" inserts the 0-based edge (a-1, b-1) in both directions, unless it is a loop. */
  lemma {:induction false} MtxStepReadsData()
    ensures ReadsDataLines(MtxStep)
  {
    forall s: MtxState, e: Edge | !s.firstLine && IsInt32(e.0) && IsInt32(e.1)
      ensures MtxStep(s, EdgeLine(e)) == Ok(s.(edges := InsertSymmetric(s.edges, e.0 - 1, e.1 - 1)))
    {
      MtxData(s, e.0, e.1, []);
      AppendEmpty(EdgeLine(e));
    }
  }

  lemma {:induction false} MtxReadsEdges(step: (MtxState, string) -> Result<MtxState, ReadError>, st: MtxState, ps: seq<Edge>)
    requires ReadsDataLines(step) && !st.firstLine && Int32Edges(ps)
    ensures ScanLines(step, st, MtxLines(ps)) == Scan(st.(edges := InsertAll(st.edges, ps, 1)), None)
    decreases |ps|
  {
    if |ps| > 0 {
      var next := st.(edges := InsertSymmetric(st.edges, ps[0].0 - 1, ps[0].1 - 1));
      Int32EdgesTail(ps);
      ScanCons(step, st, next, EdgeLine(ps[0]), MtxLines(ps[1..]));
      MtxReadsEdges(step, next, ps[1..]);
    }
  }

  /**
   * A Matrix Market file with the header "n n m" and one line per edge of
   * `ps`: the reader returns n and adds every non-loop edge, made 0-based,
   * in both directions.
   */
  lemma {:induction false} MtxReadsFile(edgeList: set<Edge>, n: int, ps: seq<Edge>)
    requires IsInt32(n) && Int32Edges(ps)
    ensures ScanLines(MtxStep, MtxState(true, 0, edgeList), [Show(n) + " " + Show(n) + " " + Show(|ps|)] + MtxLines(ps))
            == Scan(MtxState(false, n, InsertAll(edgeList, ps, 1)), None)
  {
    MtxHeader(MtxState(true, 0, edgeList), n, " " + Show(n) + " " + Show(|ps|));
    AppendAssoc(Show(n), " " + Show(n) + " ", Show(|ps|));
    AppendAssoc(Show(n), " " + Show(n), " ");
    AppendAssoc(Show(n), " ", Show(n));
    ScanCons(MtxStep, MtxState(true, 0, edgeList), MtxState(false, n, edgeList), Show(n) + " " + Show(n) + " " + Show(|ps|), MtxLines(ps));
    MtxStepReadsData();
    MtxReadsEdges(MtxStep, MtxState(false, n, edgeList), ps);
  }

  /** The data line "a<TAB>b" of one edge. */
  function TxtLine(e: Edge): string { Show(e.0) + "\t" + Show(e.1) }

  /** Data lines "a<TAB>b" for the edges `ps`. */
  function TxtLines(ps: seq<Edge>): seq<string>
    decreases |ps|
  {
    if |ps| == 0 then [] else [TxtLine(ps[0])] + TxtLines(ps[1..])
  }

  /** `step` reads the data line of every edge of two int32 ids as the insertion of that edge. */
  ghost predicate ReadsTxtLines(step: (TxtState, string) -> Result<TxtState, ReadError>)
  {
    forall s: TxtState, e: Edge {:trigger step(s, TxtLine(e))} :: IsInt32(e.0) && IsInt32(e.1) ==>
      step(s, TxtLine(e)) == Ok(s.(edges := InsertSymmetric(s.edges, e.0 - 0, e.1 - 0)))
  }

  /** A data line "a<TAB>b" inserts the edge (a, b) as written in both directions, unless it is a loop. */
  lemma {:induction false} TxtStepReadsData()
    ensures ReadsTxtLines(TxtStep)
  {
    forall s: TxtState, e: Edge | IsInt32(e.0) && IsInt32(e.1)
      ensures TxtStep(s, TxtLine(e)) == Ok(s.(edges := InsertSymmetric(s.edges, e.0 - 0, e.1 - 0)))
    {
      TxtData(s, e.0, e.1, []);
      AppendEmpty(TxtLine(e));
    }
  }

  lemma {:induction false} TxtReadsEdges(step: (TxtState, string) -> Result<TxtState, ReadError>, st: TxtState, ps: seq<Edge>)
    requires ReadsTxtLines(step) && Int32Edges(ps)
    ensures ScanLines(step, st, TxtLines(ps)) == Scan(st.(edges := InsertAll(st.edges, ps, 0)), None)
    decreases |ps|
  {
    if |ps| > 0 {
      var next := st.(edges := InsertSymmetric(st.edges, ps[0].0 - 0, ps[0].1 - 0));
      Int32EdgesTail(ps);
      ScanCons(step, st, next, TxtLine(ps[0]), TxtLines(ps[1..]));
      TxtReadsEdges(step, next, ps[1..]);
    }
  }

  /**
   * A SNAP file with the header "# Nodes: n Edges: m" and one line per edge
   * of `ps`: the reader returns n and adds every non-loop edge, as written,
   * in both directions.
   */
  lemma {:induction false} TxtReadsFile(edgeList: set<Edge>, n: int, ps: seq<Edge>)
    requires IsInt32(n) && Int32Edges(ps)
    ensures ScanLines(TxtStep, TxtState(0, edgeList), ["# Nodes: " + Show(n) + " Edges: " + Show(|ps|)] + TxtLines(ps))
            == Scan(TxtState(n, InsertAll(edgeList, ps, 0)), None)
  {
    TxtHeader(TxtState(0, edgeList), n, |ps|);
    ScanCons(TxtStep, TxtState(0, edgeList), TxtState(n, edgeList), "# Nodes: " + Show(n) + " Edges: " + Show(|ps|), TxtLines(ps));
    TxtStepReadsData();
    TxtReadsEdges(TxtStep, TxtState(n, edgeList), ps);
  }

  /** The arc line "a a b 1" of one edge, weight 1. */
  function ArcLine(e: Edge): string { "a " + Show(e.0) + " " + Show(e.1) + " 1" }

  /** Arc lines "a a b 1" for the edges `ps`. */
  function GrLines(ps: seq<Edge>): seq<string>
    decreases |ps|
  {
    if |ps| == 0 then [] else [ArcLine(ps[0])] + GrLines(ps[1..])
  }

  /** `step` reads the arc line of every edge of two int32 ids as the insertion of its 0-based edge. */
  ghost predicate ReadsArcLines(step: (GrState, string) -> Result<GrState, ReadError>)
  {
    forall s: GrState, e: Edge {:trigger step(s, ArcLine(e))} :: IsInt32(e.0) && IsInt32(e.1) ==>
      step(s, ArcLine(e)) == Ok(s.(edges := InsertSymmetric(s.edges, e.0 - 1, e.1 - 1)))
  }

  /** The arc line of an edge inserts its 0-based edge in both directions, unless it is a loop. */
  lemma {:induction false} GrStepReadsArcs()
    ensures ReadsArcLines(GrStep)
  {
    forall s: GrState, e: Edge | IsInt32(e.0) && IsInt32(e.1)
      ensures GrStep(s, ArcLine(e)) == Ok(s.(edges := InsertSymmetric(s.edges, e.0 - 1, e.1 - 1)))
    {
      GrArcLine(s, e);
    }
  }

  lemma {:induction false} GrArcLine(st: GrState, e: Edge)
    requires IsInt32(e.0) && IsInt32(e.1)
    ensures GrStep(st, ArcLine(e)) == Ok(st.(edges := InsertSymmetric(st.edges, e.0 - 1, e.1 - 1)))
  {
    GrArc(st, e.0, e.1, " 1");
  }

  lemma {:induction false} GrReadsEdges(step: (GrState, string) -> Result<GrState, ReadError>, st: GrState, ps: seq<Edge>)
    requires ReadsArcLines(step) && Int32Edges(ps)
    ensures ScanLines(step, st, GrLines(ps)) == Scan(st.(edges := InsertAll(st.edges, ps, 1)), None)
    decreases |ps|
  {
    if |ps| > 0 {
      var next := st.(edges := InsertSymmetric(st.edges, ps[0].0 - 1, ps[0].1 - 1));
      Int32EdgesTail(ps);
      ScanCons(step, st, next, ArcLine(ps[0]), GrLines(ps[1..]));
      GrReadsEdges(step, next, ps[1..]);
    }
  }

  /**
   * A DIMACS file with the problem line "p sp n m" and one arc line per edge
   * of `ps`: the reader returns n and adds every non-loop edge, made
   * 0-based, in both directions.
   */
  lemma {:induction false} GrReadsFile(edgeList: set<Edge>, n: int, ps: seq<Edge>)
    requires IsInt32(n) && Int32Edges(ps)
    ensures ScanLines(GrStep, GrState(0, edgeList), ["p sp " + Show(n) + " " + Show(|ps|)] + GrLines(ps))
            == Scan(GrState(n, InsertAll(edgeList, ps, 1)), None)
  {
    GrProblem(GrState(0, edgeList), n, |ps|);
    ScanCons(GrStep, GrState(0, edgeList), GrState(n, edgeList), "p sp " + Show(n) + " " + Show(|ps|), GrLines(ps));
    GrStepReadsArcs();
    GrReadsEdges(GrStep, GrState(n, edgeList), ps);
  }

  // ----- what every reader guarantees about the set -----

  /** One step either leaves the set alone or inserts one edge in both directions. */
  ghost predicate InsertsOneEdge(before: set<Edge>, after: set<Edge>)
  {
    after == before || exists u: int, v: int :: after == InsertSymmetric(before, u, v)
  }

  ghost predicate Undirected(s: set<Edge>) { Symmetric(s) && LoopFree(s) }

  lemma {:induction false} InsertsOneEdgeKeeps(before: set<Edge>, after: set<Edge>)
    requires InsertsOneEdge(before, after)
    ensures before <= after
    ensures Undirected(before) ==> Undirected(after)
  {
    if after != before {
      var u: int, v: int :| after == InsertSymmetric(before, u, v);
      if Undirected(before) {
        InsertSymmetricKeepsSymmetric(before, u, v);
        InsertSymmetricKeepsLoopFree(before, u, v);
      }
    }
  }

  lemma {:induction false} AddEdgeInsertsOne(edges: set<Edge>, fromText: string, toText: string, shift: int)
    requires AddEdge(edges, fromText, toText, shift).Ok?
    ensures InsertsOneEdge(edges, AddEdge(edges, fromText, toText, shift).value)
  {
    var from := Stoi(fromText).value;
    var to := Stoi(toText).value;
    assert AddEdge(edges, fromText, toText, shift).value == InsertSymmetric(edges, from - shift, to - shift);
  }

  /**
   * Whatever the file holds, and whether or not reading stops at an
   * exception, the Matrix Market reader only adds to the caller's set and
   * keeps an undirected, loop-free set undirected and loop-free.
   */
  lemma {:induction false} MtxReadUndirected(edgeList: set<Edge>, lines: seq<string>)
    ensures edgeList <= ScanLines(MtxStep, MtxState(true, 0, edgeList), lines).state.edges
    ensures Undirected(edgeList) ==> Undirected(ScanLines(MtxStep, MtxState(true, 0, edgeList), lines).state.edges)
  {
    forall s: MtxState, l: string | MtxStep(s, l).Ok?
      ensures InsertsOneEdge(s.edges, MtxStep(s, l).value.edges)
    {
      if FirstChar(l) != '%' && !s.firstLine {
        AddEdgeInsertsOne(s.edges, MtxFields(l).0, MtxFields(l).1, 1);
      }
    }
    StepsKeepUndirected(MtxStep, (s: MtxState) => s.edges, MtxState(true, 0, edgeList), lines);
  }

  lemma {:induction false} TxtReadUndirected(edgeList: set<Edge>, lines: seq<string>)
    ensures edgeList <= ScanLines(TxtStep, TxtState(0, edgeList), lines).state.edges
    ensures Undirected(edgeList) ==> Undirected(ScanLines(TxtStep, TxtState(0, edgeList), lines).state.edges)
  {
    forall s: TxtState, l: string | TxtStep(s, l).Ok?
      ensures InsertsOneEdge(s.edges, TxtStep(s, l).value.edges)
    {
      if FirstChar(l) != '#' {
        AddEdgeInsertsOne(s.edges, TxtFields(l).0, TxtFields(l).1, 0);
      }
    }
    StepsKeepUndirected(TxtStep, (s: TxtState) => s.edges, TxtState(0, edgeList), lines);
  }

  lemma {:induction false} GrReadUndirected(edgeList: set<Edge>, lines: seq<string>)
    ensures edgeList <= ScanLines(GrStep, GrState(0, edgeList), lines).state.edges
    ensures Undirected(edgeList) ==> Undirected(ScanLines(GrStep, GrState(0, edgeList), lines).state.edges)
  {
    forall s: GrState, l: string | GrStep(s, l).Ok?
      ensures InsertsOneEdge(s.edges, GrStep(s, l).value.edges)
    {
      if !(FirstChar(l) == 'p' && Contains(l, "sp")) && FirstChar(l) == 'a' {
        var (fromText, toText) := GrFields(l).value;
        AddEdgeInsertsOne(s.edges, fromText, toText, 1);
      }
    }
    StepsKeepUndirected(GrStep, (s: GrState) => s.edges, GrState(0, edgeList), lines);
  }

  /** The scan-level argument shared by the three readers. */
  lemma {:induction false} StepsKeepUndirected<S>(step: (S, string) -> Result<S, ReadError>, edgesOf: S -> set<Edge>, st: S, lines: seq<string>)
    requires forall s: S, l: string :: step(s, l).Ok? ==> InsertsOneEdge(edgesOf(s), edgesOf(step(s, l).value))
    ensures edgesOf(st) <= edgesOf(ScanLines(step, st, lines).state)
    ensures Undirected(edgesOf(st)) ==> Undirected(edgesOf(ScanLines(step, st, lines).state))
  {
    forall s: S, l: string | step(s, l).Ok?
      ensures edgesOf(s) <= edgesOf(step(s, l).value)
      ensures Undirected(edgesOf(s)) ==> Undirected(edgesOf(step(s, l).value))
    {
      InsertsOneEdgeKeeps(edgesOf(s), edgesOf(step(s, l).value));
    }
    ScanGrows(step, (s: S, t: S) => edgesOf(s) <= edgesOf(t), st, lines);
    if Undirected(edgesOf(st)) {
      ScanKeeps(step, (s: S) => Undirected(edgesOf(s)), st, lines);
    }
  }

  // ----- WriteEdgeList -----

  function EdgeLine(e: Edge): string { Show(e.0) + " " + Show(e.1) }

  /** Each edge on its own line, in the set's (ascending) order. */
  function EdgeLines(es: seq<Edge>): string
  {
    if es == [] then "" else EdgeLines(es[..|es| - 1]) + EdgeLine(es[|es| - 1]) + "\n"
  }

  /** The edge-list file: "numVertices size" then one "from to" line per edge. */
  function EdgeListText(numVertices: int, es: seq<Edge>): string
  {
    Show(numVertices) + " " + Show(|es|) + "\n" + EdgeLines(es)
  }

  /** `WriteEdgeList`: the set is passed as its elements in ascending order. */
  method WriteEdgeList(numVertices: Int32, edgeList: seq<Edge>) returns (text: string)
    requires StrictlySorted(edgeList)
    ensures text == EdgeListText(numVertices, edgeList)
  {
    ghost var header := Show(numVertices) + " " + Show(|edgeList|) + "\n";
    text := Show(numVertices) + " " + Show(|edgeList|) + "\n";
    var i := 0;
    while i < |edgeList|
      invariant 0 <= i <= |edgeList|
      invariant text == header + EdgeLines(edgeList[..i])
    {
      var line := Show(edgeList[i].0) + " " + Show(edgeList[i].1);
      EdgeLinesPrefix(edgeList, i);
      AppendAssoc(header, EdgeLines(edgeList[..i]), line);
      AppendAssoc(header, EdgeLines(edgeList[..i]) + line, "\n");
      text := text + line + "\n";
      i := i + 1;
    }
    assert edgeList[..i] == edgeList;
  }

  lemma {:induction false} EdgeLinesPrefix(es: seq<Edge>, i: nat)
    requires i < |es|
    ensures EdgeLines(es[..i + 1]) == EdgeLines(es[..i]) + EdgeLine(es[i]) + "\n"
  {
    assert es[..i + 1][..i] == es[..i];
  }

  function EdgeLineTexts(es: seq<Edge>): (r: seq<string>)
    ensures |r| == |es| && forall i :: 0 <= i < |es| ==> r[i] == EdgeLine(es[i])
  {
    seq(|es|, i requires 0 <= i < |es| => EdgeLine(es[i]))
  }

  /** Reading an edge-list file: the header's two numbers, then one edge per line, ending in a newline. */
  function ParseEdgeList(text: string): Option<(int, int, seq<Edge>)>
  {
    var lines := Split(text, '\n');
    if |lines| < 2 || lines[|lines| - 1] != "" then None
    else
      match ParseInts(lines[0])
      case None => None
      case Some(h) =>
        if |h| != 2 then None
        else
          match ParseEdgeLines(lines[1..|lines| - 1])
          case None => None
          case Some(es) => Some((h[0], h[1], es))
  }

  function ParseEdgeLines(ls: seq<string>): (r: Option<seq<Edge>>)
    ensures r.Some? ==> |r.value| == |ls|
  {
    if ls == [] then Some([])
    else
      match ParseInts(ls[0])
      case None => None
      case Some(p) =>
        if |p| != 2 then None
        else
          match ParseEdgeLines(ls[1..])
          case None => None
          case Some(rest) => Some([(p[0], p[1])] + rest)
  }

  lemma {:induction false} EdgeLineRead(e: Edge)
    ensures Free(EdgeLine(e), '\n')
    ensures ParseInts(EdgeLine(e)) == Some([e.0, e.1])
  {
    IntsLine([e.0, e.1]);
    assert Shows([e.0, e.1]) == [Show(e.0), Show(e.1)];
    Join2(Show(e.0), Show(e.1), ' ');
  }

  lemma {:induction false} ParseEdgeLinesOf(es: seq<Edge>)
    ensures ParseEdgeLines(EdgeLineTexts(es)) == Some(es)
  {
    if es != [] {
      EdgeLineRead(es[0]);
      assert EdgeLineTexts(es)[1..] == EdgeLineTexts(es[1..]);
      ParseEdgeLinesOf(es[1..]);
      assert [es[0]] + es[1..] == es;
    }
  }

  /** The file as lines: header, one line per edge, and the empty text after the final newline. */
  lemma {:induction false} EdgeLinesJoin(header: string, es: seq<Edge>)
    ensures header + "\n" + EdgeLines(es) == Join([header] + EdgeLineTexts(es) + [""], '\n')
  {
    if es == [] {
      assert [header] + EdgeLineTexts(es) + [""] == [header, ""];
      Join2(header, "", '\n');
    } else {
      var init := es[..|es| - 1];
      var line := EdgeLine(es[|es| - 1]);
      EdgeLinesJoin(header, init);
      EdgeLinesSnoc(header, es);
      AppendAssoc(header + "\n", EdgeLines(init) + line, "\n");
      AppendAssoc(header + "\n", EdgeLines(init), line);
      JoinLineBeforeEnd([header] + EdgeLineTexts(init), line, [header] + EdgeLineTexts(es));
    }
  }

  lemma {:induction false} EdgeLinesSnoc(header: string, es: seq<Edge>)
    requires es != []
    ensures EdgeLines(es) == EdgeLines(es[..|es| - 1]) + EdgeLine(es[|es| - 1]) + "\n"
    ensures [header] + EdgeLineTexts(es) == [header] + EdgeLineTexts(es[..|es| - 1]) + [EdgeLine(es[|es| - 1])]
  {
    assert EdgeLineTexts(es) == EdgeLineTexts(es[..|es| - 1]) + [EdgeLine(es[|es| - 1])];
  }

  /** Appending a line before the final empty field. */
  lemma {:induction false} JoinLineBeforeEnd(xs: seq<string>, line: string, ys: seq<string>)
    requires |xs| >= 1 && ys == xs + [line]
    ensures Join(xs + [""], '\n') + line + "\n" == Join(ys + [""], '\n')
  {
    var jx := Join(xs, '\n');
    JoinSnoc(xs, "", '\n');
    assert Join(xs + [""], '\n') == jx + "\n";
    JoinSnoc(xs, line, '\n');
    assert Join(ys, '\n') == jx + "\n" + line;
    JoinSnoc(ys, "", '\n');
    assert Join(ys + [""], '\n') == Join(ys, '\n') + "\n";
  }

  /** The edge-list file reads back as the vertex count, the edge count and the edges in order. */
  lemma {:induction false} EdgeListRoundTrip(numVertices: int, es: seq<Edge>)
    ensures ParseEdgeList(EdgeListText(numVertices, es)) == Some((numVertices, |es|, es))
  {
    var header := Show(numVertices) + " " + Show(|es|);
    var lines := [header] + EdgeLineTexts(es) + [""];
    EdgeLinesJoin(header, es);
    EdgeLineRead((numVertices, |es|));
    EdgeListLinesFree(header, es);
    SplitJoin(lines, '\n');
    assert lines[1..|lines| - 1] == EdgeLineTexts(es);
    ParseEdgeLinesOf(es);
  }

  lemma {:induction false} EdgeListLinesFree(header: string, es: seq<Edge>)
    requires Free(header, '\n')
    ensures var lines := [header] + EdgeLineTexts(es) + [""];
            forall i :: 0 <= i < |lines| ==> Free(lines[i], '\n')
  {
    EdgeLineTextsFree(es);
    FramedLinesFree(header, EdgeLineTexts(es));
  }

  lemma {:induction false} FramedLinesFree(header: string, ts: seq<string>)
    requires Free(header, '\n')
    requires forall j :: 0 <= j < |ts| ==> Free(ts[j], '\n')
    ensures var lines := [header] + ts + [""];
            forall i :: 0 <= i < |lines| ==> Free(lines[i], '\n')
  {
    var lines := [header] + ts + [""];
    forall i | 0 <= i < |lines| ensures Free(lines[i], '\n') {
      if 0 < i < |lines| - 1 {
        assert lines[i] == ts[i - 1];
      }
    }
  }

  lemma {:induction false} EdgeLineTextsFree(es: seq<Edge>)
    ensures forall j :: 0 <= j < |es| ==> Free(EdgeLineTexts(es)[j], '\n')
  {
    forall j | 0 <= j < |es| ensures Free(EdgeLineTexts(es)[j], '\n') {
      EdgeLineFree(es[j]);
    }
  }

  lemma {:induction false} EdgeLineFree(e: Edge)
    ensures Free(EdgeLine(e), '\n')
  {
    EdgeLineRead(e);
  }
}
