# CCGraphUtils CSR core in Dafny

CCGraphUtils turns undirected graphs into the compressed sparse row (CSR)
form that connected-component algorithms consume. The graphs come from Matrix
Market (`.mtx`), SNAP edge-list (`.txt`) and DIMACS shortest-path (`.gr`)
files. This project models:

- **The CSR matrix (C++ `CsrMatrix`).** It is a class whose `const` fields
  are `numVertices`, `numEdges`, the offset array `nindex`, the neighbour
  array `nlist` and the never-filled `data`.
  - Its edge-set constructor is written as the source's three in-place loops
    over `array<Int32>`: degree counting, `std::partial_sum`, and the
    tail fill.
  - Each loop is proved against counting functions (`CsrSpec.CountBelow`,
    `CsrSpec.Targets`, `CsrSpec.Neighbours`). The CSR properties are then
    proved about those functions:
    - `nindex[0] == 0` and `nindex[numVertices] == numEdges`;
    - `nindex` never decreases;
    - each vertex's slice of `nlist` is exactly its neighbours, in
      ascending order.
- **The serialisers.**
  - The `.egr` word layout of `toEgrFile` and of Python's
    `write_csr_to_bin_file` (`EgrFormat.WriteEgr`). It is paired with a
    decoder that has the outputs of `ReadEgrFile`, and the two are proved
    inverse in both directions.
  - The text layout of `toTextFile` and of `write_csr_to_txt_file`
    (`CsrText.TextLayout`), proved to parse back to the matrix.
  - The 20-value preview of `operator<<`.
- **The C++ readers `ReadMtxFile`, `ReadTxtFile` and `ReadGrFile`.**
  - Each checks the path, then feeds the file's lines to a per-line step
    function (`MtxStep`, `TxtStep`, `GrStep`). The generic `getline` loop is
    `LineScan.RunLines`, proved equal to the fold `LineScan.ScanLines`.
  - The steps follow the source's character searches. A missing search
    result is `npos`, and `npos + 1` wraps to 0.
  - `std::stoi` is modelled in full: leading white space, sign, digit run,
    `invalid_argument` and `out_of_range`.
  - The proved properties:
    - each reader keeps the caller's set and adds to it;
    - a symmetric, loop-free set stays that way;
    - a well-formed file of each format reads back as exactly the edges it
      lists.
  - `WriteEdgeList` is modelled too, with a parse-back round trip.
- **The Python readers `read_mtx_file`, `read_txt_file`, `read_gr_file` and
  the dispatcher `from_file_to_csr`.**
  - The duplicate-tracking accumulation into `rows`/`cols`/`added` is proved
    to keep three things true:
    - `added` is exactly the set of coordinate entries;
    - no entry is repeated;
    - the entries form a symmetric, loop-free relation.
  - `duplicates` and `loop_count` are counted as the source counts them.
  - For a well-formed file of each format, the Python reader and the C++
    reader give the same edge set and vertex count.

The integer behaviour is modelled as follows:

- Values the source stores in C++ `int` (array entries, file words) have
  type `CppInt.Int32`.
- Parsed ids are range-checked by `Stoi`.
- A `std::set<std::pair<int,int>>` handed to the constructor or to
  `WriteEdgeList` is its iteration sequence: strictly increasing in
  lexicographic order (`Edges.StrictlySorted`). `Edges.SortedElements`
  shows that every finite set has exactly one such sequence.

An exception in a C++ reader leaves the edges already inserted in the
caller's set. The model keeps that behaviour: `LineScan.Scan` carries the
state reached together with the error that stopped the loop.

The Python `read_txt_file` header test `"Nodes:" and "Edges:" in line` is
modelled as written. It only asks whether "Edges:" occurs, which
`CsrGenerator.TxtHeaderWithoutNodes` shows on a header line without
"Nodes:". The C++ reader requires both words.

## Model

| member | source | states |
|---|---|---|
| Csr.CsrMatrix.constructor | CsrMatrix.cpp:8-30 | A non-empty sorted edge set whose sources lie in `[0, numVertices)` gives `numEdges == |edgeSet|` and `nindex[v]` = number of edges leaving a vertex below v. `nlist` is the targets in set order, each vertex's `nlist` slice is its neighbours, and the CSR invariants hold. |
| Csr.FillArrays | CsrMatrix.cpp:10-29 | The three passes leave `nindex` of length numVertices+1 holding the counts below each vertex and `nlist` holding the targets in order. |
| Csr.CountDegrees | CsrMatrix.cpp:15-19 | After the edge loop, slot v+1 holds the number of edges leaving v, slot 0 is still 0, and `nlist` is the sequence of targets. |
| Csr.PrefixSum | CsrMatrix.cpp:21-22 | The in-place inclusive prefix sum over `nindex[0 .. maxVertex+2)` makes each slot the number of edges leaving a lower vertex; later slots are unchanged. |
| Csr.FillTail | CsrMatrix.cpp:26-29 | Copying `nindex[maxVertex+1]` into every later slot makes every slot, up to numVertices, the count of edges below it (so isolated trailing vertices get empty slices). |
| Csr.CsrMatrix.GetNindex | CsrMatrix.h:48 | The copy of `nindex` has numVertices+1 entries, starts at 0, ends at numEdges and never decreases. |
| Csr.CsrMatrix.GetNlist | CsrMatrix.h:47 | The copy of `nlist` has numEdges entries and each vertex's run in it is strictly ascending. |
| Csr.CsrMatrix.GetData | CsrMatrix.h:49 | `data` is always empty: the data matrix is excluded. |
| Csr.CsrMatrix.ToEgrFile | CsrMatrix.cpp:56-68 | Refuses exactly when numVertices < 1; otherwise writes 3 + numVertices + numEdges words that decode to (numVertices, numEdges, nindex, nlist). |
| Csr.CsrMatrix.ToTextFile | CsrMatrix.cpp:70-91 | The text is the header line, the `nlist` row and the `nindex` row, and it parses back to the two counts and both arrays. |
| Csr.CsrMatrix.Preview | CsrMatrix.cpp:94-124 | The stream output is the two count lines followed by the bounded sections for `nlist` and `nindex`. |
| CsrSpec.CsrLayout | CsrMatrix.cpp:15-29 | Offsets that count the edges below each vertex start at 0, end at |es|, never decrease, and each vertex's slice of the targets is its neighbour list, strictly ascending. |
| CsrSpec.SliceIsNeighbours | CsrMatrix.cpp:15-22 | For edges sorted by source, the targets between the counts below v and below v+1 are exactly v's neighbours in order. |
| CsrSpec.NeighboursMembers | CsrMatrix.cpp:15-19 | x is listed among v's neighbours if and only if (v, x) is an edge. |
| CsrSpec.NeighboursAscending | CsrMatrix.h:21-25 | In a lexicographically sorted edge set each vertex's neighbours are strictly ascending. |
| CsrSpec.StrictlySortedIsSortedByFrom | CsrMatrix.h:21-25 | The set's lexicographic order sorts edges by source. |
| CsrSpec.CountBelowStep | CsrMatrix.cpp:22 | The count below v+1 is the count below v plus the edges leaving v: the prefix-sum recurrence. |
| CsrSpec.CountBelowAll | CsrMatrix.cpp:26-29 | Past the last source every count equals the number of edges. |
| CsrSpec.CountBelowMonotone | CsrMatrix.cpp:21-29 | The edge counts below a vertex never decrease with the vertex. |
| CsrSpec.Targets | CsrMatrix.cpp:18 | `nlist` is the sequence of second components, one per edge, in order. |
| Edges.SortedElements | CsrMatrix.h:21-25 | Every finite edge set has a strictly sorted enumeration of the same elements and size. |
| Edges.SortedUnique | CsrMatrix.h:21-25 | Two strictly sorted sequences of the same edges are equal, so the set's iteration order is determined. |
| Edges.InsertSymmetric | GraphFileUtils.cpp:41-45 | A loop leaves the set unchanged; any other edge puts both (u,v) and (v,u) in the set and adds nothing else. |
| Edges.InsertSymmetricKeepsSymmetric | GraphFileUtils.cpp:42-45 | Inserting in both directions keeps a symmetric set symmetric. |
| Edges.InsertSymmetricKeepsLoopFree | GraphFileUtils.cpp:41 | Dropping loops keeps a loop-free set loop-free. |
| Edges.InsertSymmetricIdempotent | GraphFileUtils.h:34-40 | Re-inserting an edge, in either direction, changes nothing: repeated edges collapse. |
| Edges.InsertAllMembers | GraphFileUtils.cpp:24-46 | After inserting a list of edges with an id shift, the set holds exactly the old edges and the shifted non-loop edges in both directions. |
| EgrFormat.WriteEgr | CsrMatrix.cpp:58-65 | Refuses exactly when nodes < 1 or edges < 0 (before writing), otherwise gives 3 + nodes + edges words. |
| EgrFormat.ReadEgr | GraphFileUtils.h:9-32 | Whatever the decoder returns has nodes >= 1, edges >= 0 and arrays of nodes+1 and edges entries. |
| EgrFormat.ReadAfterWrite | CsrMatrix.cpp:61-65 | Decoding the written words gives back the same four values. |
| EgrFormat.WriteAfterRead | GraphFileUtils.h:32 | Every accepted word sequence starts with the written form of the values decoded from it. |
| CsrText.WriteRow | CsrMatrix.cpp:79-88 | The row loop writes the values with a space after each but the last and the given terminator after the last, and nothing for an empty array. |
| CsrText.TextRoundTrip | CsrMatrix.cpp:76-88 | The text layout parses back to the counts, `nlist` and `nindex`, with and without an `nlist` line. |
| CsrText.RoundTripWithoutList | CsrMatrix.cpp:79-83 | With `nlist` empty no middle line is written and the text still parses back. |
| CsrText.WritePreviewSection | CsrMatrix.cpp:101-121 | The preview loop prints the first min(20, length) values, each followed by a space, then the closing marker. |
| CsrText.PreviewMarker | CsrMatrix.cpp:109-110 | A section ends in "...]" exactly when the array holds more than 20 values. |
| CsrText.SpacedFields | CsrMatrix.cpp:104-107 | The space-separated values split back into their decimal forms and parse to the values printed. |
| LineScan.RunLines | GraphFileUtils.cpp:24-46 | The `getline` loop ends with the state and the error of the line-by-line fold. |
| LineScan.ScanGrows | GraphFileUtils.cpp:24-46 | A relation every step respects, reflexive and transitive, holds between the state before the loop and the state after it. |
| GraphFileUtils.Stoi | GraphFileUtils.cpp:31 | A parsed value is an `int`; a failure is `invalid_argument` or `out_of_range`. |
| GraphFileUtils.StoiOfShow | GraphFileUtils.cpp:38-39 | After white space, the decimal form of an `int` followed by a non-digit parses to that `int`. |
| GraphFileUtils.StoiRejectsNonNumeral | GraphFileUtils.cpp:31 | A token without digits is `invalid_argument`. |
| GraphFileUtils.Extension | GraphFileUtils.cpp:15 | The extension is empty or a dot followed by no dot, contains no '/', and ends the path. Only the names "." and ".." are given no extension, so a name such as ".mtx" is all extension. |
| GraphFileUtils.ExtensionOf | GraphFileUtils.cpp:15 | A path "dir/stem.suffix" has extension ".suffix", even when the stem is empty. |
| GraphFileUtils.ReadMtxFile | GraphFileUtils.cpp:11-49 | A missing file or a wrong extension throws and leaves the set unchanged; otherwise the result is the fold of the MTX line step from (first line, 0 vertices, caller's set). |
| GraphFileUtils.MtxComment | GraphFileUtils.cpp:26 | A '%' line changes nothing. |
| GraphFileUtils.MtxHeader | GraphFileUtils.cpp:28-33 | The first non-comment line only sets numVert to its first token and clears the first-line flag. |
| GraphFileUtils.MtxData | GraphFileUtils.cpp:35-45 | A later line "a b ..." inserts the 0-based edge (a-1, b-1) in both directions unless it is a loop. |
| GraphFileUtils.MtxStepReadsData | GraphFileUtils.cpp:35-45 | The MTX step reads the data line of every int edge as its shifted symmetric insertion. |
| GraphFileUtils.MtxReadsEdges | GraphFileUtils.cpp:24-46 | Data lines for a list of edges read without error into the set plus those edges, shifted by 1. |
| GraphFileUtils.MtxReadsFile | GraphFileUtils.cpp:24-48 | A Matrix Market file (header "n n m", then one line per edge) reads as n vertices and exactly the listed edges, 0-based, in both directions. |
| GraphFileUtils.ReadTxtFile | GraphFileUtils.cpp:51-92 | A missing file or a wrong extension throws and leaves the set unchanged; otherwise the result is the fold of the TXT line step from (0 vertices, caller's set). |
| GraphFileUtils.TxtHeader | GraphFileUtils.cpp:65-76 | A "# Nodes: n Edges: m" line sets numVert to n and adds no edge. |
| GraphFileUtils.TxtData | GraphFileUtils.cpp:78-88 | A line "a<TAB>b" inserts (a, b) unshifted in both directions unless it is a loop. |
| GraphFileUtils.TxtStepReadsData | GraphFileUtils.cpp:78-88 | The TXT step reads the data line of every int edge as its symmetric insertion. |
| GraphFileUtils.TxtReadsEdges | GraphFileUtils.cpp:63-89 | Data lines for a list of edges read without error into the set plus those edges. |
| GraphFileUtils.TxtReadsFile | GraphFileUtils.cpp:63-91 | A SNAP file (node/edge header, then one line per edge) reads as n vertices and exactly the listed edges in both directions. |
| GraphFileUtils.ReadGrFile | GraphFileUtils.cpp:94-135 | A missing file or a wrong extension throws and leaves the set unchanged; otherwise the result is the fold of the GR line step from (0 vertices, caller's set). |
| GraphFileUtils.GrProblem | GraphFileUtils.cpp:108-115 | A "p sp n m" line sets numVert to the token at offset 5 and adds no edge. |
| GraphFileUtils.GrArc | GraphFileUtils.cpp:117-130 | An arc line "a a b [w]" inserts (a-1, b-1) in both directions unless it is a loop. |
| GraphFileUtils.GrArcLine | GraphFileUtils.cpp:117-130 | The weight-1 arc line of an int edge inserts its 0-based edge symmetrically. |
| GraphFileUtils.GrStepReadsArcs | GraphFileUtils.cpp:117-130 | The GR step reads the arc line of every int edge as its shifted symmetric insertion. |
| GraphFileUtils.GrOnlyArcsAddEdges | GraphFileUtils.cpp:106-132 | A line not starting with 'a' never changes the edge set. |
| GraphFileUtils.GrReadsEdges | GraphFileUtils.cpp:106-132 | Arc lines for a list of edges read without error into the set plus those edges, shifted by 1. |
| GraphFileUtils.GrReadsFile | GraphFileUtils.cpp:106-134 | A DIMACS file (problem line, then one arc per edge) reads as n vertices and exactly the listed edges, 0-based, in both directions. |
| GraphFileUtils.AddEdgeInsertsOne | GraphFileUtils.cpp:38-45 | A data line that parses inserts exactly one edge symmetrically (or nothing, for a loop). |
| GraphFileUtils.InsertsOneEdgeKeeps | GraphFileUtils.cpp:41-45 | Such an insertion keeps every old edge, and keeps a symmetric loop-free set symmetric and loop-free. |
| GraphFileUtils.StepsKeepUndirected | GraphFileUtils.cpp:24-46 | A loop whose steps each insert at most one symmetric edge only grows the set and keeps it undirected. |
| GraphFileUtils.MtxReadUndirected | GraphFileUtils.h:34-40 | Whatever the MTX lines, the caller's set only grows, and stays symmetric and loop-free if it was (also when the read stops with an error). |
| GraphFileUtils.TxtReadUndirected | GraphFileUtils.h:41-47 | Whatever the TXT lines, the caller's set only grows, and stays symmetric and loop-free if it was. |
| GraphFileUtils.GrReadUndirected | GraphFileUtils.h:48-54 | Whatever the GR lines, the caller's set only grows, and stays symmetric and loop-free if it was. |
| GraphFileUtils.WriteEdgeList | GraphFileUtils.cpp:137-150 | The writer loop produces the header "numVertices count" and one "from to" line per edge in set order. |
| GraphFileUtils.EdgeListRoundTrip | GraphFileUtils.h:55-62 | The edge-list text parses back to the vertex count, the edge count and the edges in order. |
| GraphFileUtils.EdgeLineRead | GraphFileUtils.cpp:145 | An edge line holds no line break and its two space-separated numbers are the edge's ends. |
| GraphFileUtils.ParseEdgeLinesOf | GraphFileUtils.cpp:143-146 | The edge lines parse back to the edges, in order. |
| CsrGenerator.PyInt | Python/GraphConverters/Csr_Generator.py:49-50 | `int()` fails only with ValueError. |
| CsrGenerator.PyIntOfShow | Python/GraphConverters/Csr_Generator.py:49-50 | A decimal numeral followed by white space (such as the line break) converts to its value. |
| CsrGenerator.FirstWord | Python/GraphConverters/Csr_Generator.py:45 | `line.split()[0]`, when it exists, is a non-empty run of non-space characters. |
| CsrGenerator.FirstWordOfShow | Python/GraphConverters/Csr_Generator.py:45 | The first whitespace-separated word of a numeral followed by white space is the numeral. |
| CsrGenerator.FirstNumeric | Python/GraphConverters/Csr_Generator.py:88-91 | The first numeric word, if any, gives a non-negative count. |
| CsrGenerator.FirstNumericThird | Python/GraphConverters/Csr_Generator.py:88-91 | When the first two words are not numeric and the third is, the count is the third word's value. |
| CsrGenerator.AddPairKeeps | Python/GraphConverters/Csr_Generator.py:56-62 | One guarded append keeps `rows`/`cols` the same length, entries distinct and equal to `added`, puts the pair in `added`. A new pair is appended to the entries, and a pair already present leaves `rows`/`cols` alone and adds exactly 1 to duplicates. |
| CsrGenerator.AddEdgeSpec | Python/GraphConverters/Csr_Generator.py:52-68 | A non-loop edge puts both directions in `added`, duplicates grows by the number of the two directions already present, and the appends plus the duplicates grow by exactly 2. A loop only bumps loop_count and leaves rows, cols and duplicates alone. Consistency is kept. |
| CsrGenerator.MtxStepShape | Python/GraphConverters/Csr_Generator.py:39-68 | Every accepted MTX line either leaves rows/cols/added alone or adds one edge. |
| CsrGenerator.TxtStepShape | Python/GraphConverters/Csr_Generator.py:84-115 | Every accepted TXT line either leaves rows/cols/added alone or adds one edge. |
| CsrGenerator.GrStepShape | Python/GraphConverters/Csr_Generator.py:131-158 | Every accepted GR line either leaves rows/cols/added alone or adds one edge. |
| CsrGenerator.MtxStepKeeps | Python/GraphConverters/Csr_Generator.py:39-68 | An MTX line keeps `added` equal to the distinct, symmetric, loop-free coordinate entries. |
| CsrGenerator.TxtStepKeeps | Python/GraphConverters/Csr_Generator.py:84-115 | A TXT line keeps `added` equal to the distinct, symmetric, loop-free coordinate entries. |
| CsrGenerator.GrStepKeeps | Python/GraphConverters/Csr_Generator.py:131-158 | A GR line keeps `added` equal to the distinct, symmetric, loop-free coordinate entries. |
| CsrGenerator.FinishGood | Python/GraphConverters/Csr_Generator.py:71 | A consistent final state hands scipy a duplicate-free, symmetric, loop-free coordinate list. |
| CsrGenerator.ReadMtxFile | Python/GraphConverters/Csr_Generator.py:27-71 | The loop over the file's lines gives the fold of the MTX step from the empty state, or its exception. |
| CsrGenerator.ReadTxtFile | Python/GraphConverters/Csr_Generator.py:74-118 | The loop over the file's lines gives the fold of the TXT step from the empty state, or its exception. |
| CsrGenerator.ReadGrFile | Python/GraphConverters/Csr_Generator.py:121-160 | The loop over the file's lines gives the fold of the GR step from the empty state, or its exception. |
| CsrGenerator.ReadMtxFileGood | Python/GraphConverters/Csr_Generator.py:27-71 | Whatever the file, a successful read returns distinct, symmetric, loop-free entries. |
| CsrGenerator.MtxScanConsistent | Python/GraphConverters/Csr_Generator.py:39-68 | On any lines, error or not, the loop keeps `rows`/`cols` the same length and their entries distinct, symmetric, loop-free and equal to `added`. |
| CsrGenerator.ReadTxtFileGood | Python/GraphConverters/Csr_Generator.py:74-118 | Whatever the file, a successful read returns distinct, symmetric, loop-free entries. |
| CsrGenerator.TxtScanConsistent | Python/GraphConverters/Csr_Generator.py:84-115 | On any lines, error or not, the loop keeps `rows`/`cols` the same length and their entries distinct, symmetric, loop-free and equal to `added`. |
| CsrGenerator.ReadGrFileGood | Python/GraphConverters/Csr_Generator.py:121-160 | Whatever the file, a successful read returns distinct, symmetric, loop-free entries. |
| CsrGenerator.GrScanConsistent | Python/GraphConverters/Csr_Generator.py:131-158 | On any lines, error or not, the loop keeps `rows`/`cols` the same length and their entries distinct, symmetric, loop-free and equal to `added`. |
| CsrGenerator.FromFileToCsr | Python/GraphConverters/Csr_Generator.py:10-24 | A missing file raises FileNotFoundError. Otherwise the first matching suffix among .mtx, .txt and .gr picks the reader, and any other name raises ValueError. |
| CsrGenerator.MtxHeaderLine | Python/GraphConverters/Csr_Generator.py:43-46 | The first non-comment line sets num_vert from its first word and adds nothing. |
| CsrGenerator.MtxStepOnData | Python/GraphConverters/Csr_Generator.py:48-68 | A later line whose first two space-separated fields are numbers adds the edge shifted by 1. |
| CsrGenerator.MtxData | Python/GraphConverters/Csr_Generator.py:48-50 | The line "a b\n" adds (a-1, b-1). |
| CsrGenerator.MtxStepReadsData | Python/GraphConverters/Csr_Generator.py:48-68 | The MTX step reads every edge's data line as adding its shifted edge. |
| CsrGenerator.MtxReadsEdges | Python/GraphConverters/Csr_Generator.py:39-68 | Data lines for a list of edges read without error, `added` gains exactly those edges shifted by 1, num_vert is unchanged. |
| CsrGenerator.MtxPyReadsFile | Python/GraphConverters/Csr_Generator.py:39-71 | A Matrix Market file reads with no error as n vertices, and both `added` and the returned `rows`/`cols` entries are exactly the listed edges, 0-based, in both directions. |
| CsrGenerator.MtxReadersAgree | Python/GraphConverters/Csr_Generator.py:27-71 | The Python and the C++ reader give the same vertex count for a Matrix Market file, and the entries of the returned `rows`/`cols` are exactly the C++ edge set. |
| CsrGenerator.TxtStepOnData | Python/GraphConverters/Csr_Generator.py:95-115 | A non-'#' line whose first two tab-separated fields are numbers adds that edge unshifted. |
| CsrGenerator.TxtData | Python/GraphConverters/Csr_Generator.py:95-97 | The line "a<TAB>b\n" adds (a, b). |
| CsrGenerator.TxtStepOnHeader | Python/GraphConverters/Csr_Generator.py:85-93 | A '#' line containing "Edges:" sets num_vert to its first numeric word. |
| CsrGenerator.TxtHeader | Python/GraphConverters/Csr_Generator.py:85-93 | The line "# Nodes: n Edges: m\n" sets num_vert to n. |
| CsrGenerator.TxtHeaderWithoutNodes | Python/GraphConverters/Csr_Generator.py:86 | A '#' line naming only "Edges:" also sets num_vert, to the edge count: the header test checks "Edges:" alone. |
| CsrGenerator.TxtStepReadsData | Python/GraphConverters/Csr_Generator.py:95-115 | The TXT step reads every edge's data line as adding its edge. |
| CsrGenerator.TxtReadsEdges | Python/GraphConverters/Csr_Generator.py:84-115 | Data lines for a list of edges read without error, `added` gains exactly those edges, num_vert is unchanged. |
| CsrGenerator.TxtReadersAgree | Python/GraphConverters/Csr_Generator.py:74-118 | The Python and the C++ reader give the same vertex count for a SNAP file, and the entries of the returned `rows`/`cols` are exactly the C++ edge set. |
| CsrGenerator.TxtPyReadsFile | Python/GraphConverters/Csr_Generator.py:84-118 | A SNAP file with a non-negative vertex count reads with no error as n vertices, and both `added` and the returned `rows`/`cols` entries are exactly the listed edges in both directions. |
| CsrGenerator.GrProblem | Python/GraphConverters/Csr_Generator.py:133-135 | A "p sp n m" line sets num_vert to its third field. |
| CsrGenerator.GrStepOnArc | Python/GraphConverters/Csr_Generator.py:137-158 | An 'a' line whose second and third space-separated fields are numbers adds that edge shifted by 1. |
| CsrGenerator.GrArc | Python/GraphConverters/Csr_Generator.py:137-141 | The line "a a b 1\n" adds (a-1, b-1). |
| CsrGenerator.GrStepReadsArcs | Python/GraphConverters/Csr_Generator.py:137-158 | The GR step reads every edge's arc line as adding its shifted edge. |
| CsrGenerator.GrReadsEdges | Python/GraphConverters/Csr_Generator.py:131-158 | Arc lines for a list of edges read without error, `added` gains exactly those edges shifted by 1, num_vert is unchanged. |
| CsrGenerator.GrReadersAgree | Python/GraphConverters/Csr_Generator.py:121-160 | The Python and the C++ reader give the same vertex count for a DIMACS file, and the entries of the returned `rows`/`cols` are exactly the C++ edge set. |
| CsrGenerator.GrPyReadsFile | Python/GraphConverters/Csr_Generator.py:131-160 | A DIMACS file reads with no error as n vertices, and both `added` and the returned `rows`/`cols` entries are exactly the listed edges, 0-based, in both directions. |
| CsrGenerator.WriteCsrToBinFile | Python/GraphConverters/Csr_Generator.py:163-174 | The file holds 2 + |indptr| + |indices| words: the int32 header, then indptr, then indices. For a CSR array of num_vertices+1 offsets this is exactly the `.egr` layout and decodes back. |
| CsrGenerator.WriteCsrToTxtFile | Python/GraphConverters/Csr_Generator.py:177-194 | The writer loops produce the same text layout as `toTextFile`, which parses back to the header values and both arrays. |

## Left out

- File system and streams:
  - `fs::is_regular_file` / `os.path.isfile` are a boolean parameter;
  - the file contents are a parameter: for the C++ readers the lines as
    `getline` delivers them, for Python with their line breaks;
  - `fopen`/`fwrite`/`ofstream` are not modelled: the writers return the
    words or the text they would write;
  - the `exit(-1)` paths after a failed open or write are not modelled, and
    neither is the silent no-output path when the stream is not open.
- Exception message texts are not modelled; only the kind of error is (the
  `.gr` reader's message names ".txt").
- `ReadEgrFile` has no body in the source files modelled here.
  `EgrFormat.ReadEgr` is a decoder consistent with its declared outputs and
  with the written layout.
- The byte order of `.egr` words on disk: each word is an abstract 32-bit
  integer.
- `CsrMatrix(std::istream&)`: its body is an empty TODO.
- The commented-out parallel `std::inclusive_scan`: it is concurrency and
  does not change the result of `std::partial_sum`.
- scipy `csr_matrix` construction, the `np.zeros` values and numpy's
  `tofile`, which are foreign libraries:
  - `CsrGenerator.WriteCsrToBinFile` and `CsrGenerator.WriteCsrToTxtFile`
    take `indptr`, `indices` and the vertex count directly;
  - the Python readers return `rows`, `cols` and `num_vert`.
- `loop_count` and `duplicates` are kept in the reader state and proved
  about, but the source never returns them.
- Python `int()` accepts only an optional sign and ASCII digits inside
  white space. Underscores, non-ASCII digits and other Unicode white space
  are not modelled. Python's `str.isnumeric` is modelled as "ASCII digits
  only".
- Csr.CsrMatrix.constructor:
  - requires every source to be in `[0, numVertices)`. The source's loop
    increments `nindex[from + 1]`: a source of -1 would count its edge in
    `nindex[0]`, which must stay 0, a lower one would write before the
    array, and one at or above `numVertices` past its end;
  - requires every target to be an `int` and the sizes to stay below 2^31;
  - requires `numVertices` below `INT_MAX`, so that `numVertices + 1` does
    not overflow;
  - does not model `size_t`/`int` overflow.
- The C++ readers compute ids as `stoi(...) - 1` on unbounded integers:
  the undefined overflow of `INT_MIN - 1` is not modelled.
- CsrGenerator.WriteCsrToBinFile requires `|indices| <= MaxInt32`, because
  the header stores `len(indices)` as an int32.
- The C++ readers' documented precondition that `edgeList` starts empty is
  not required. The model reads into any caller set and proves what happens
  to it.
