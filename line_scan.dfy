/**
 * The `while (getline(...))` / `for line in f` loop shared by every reader:
 * a step function is applied to each line in turn until one fails. The state
 * reached before the failing line is kept, because the C++ readers insert into
 * the caller's set in place and an exception leaves the edges inserted so far.
 */
module LineScan {
  import opened Wrappers

  /** The reasons a reader stops: C++ `std::invalid_argument` / `std::out_of_range`, Python `ValueError` / `IndexError`. */
  datatype ReadError =
    | NoSuchFile                         // the path is not a regular file
    | WrongExtension(extension: string)  // the path does not end in the reader's own extension
    | InvalidNumber                      // no digits where a number was expected
    | OutOfRange                         // a number too large for an `int`, or a `substr` start past the end
    | TooFewFields                       // Python: indexing a split line beyond its fields
    | UnsupportedFormat                  // Python: no reader for the file name's suffix

  datatype Scan<S> = Scan(state: S, failure: Option<ReadError>)

  /** The state after feeding `lines` to `step`, and the error that stopped it, if any. */
  function ScanLines<S>(step: (S, string) -> Result<S, ReadError>, st: S, lines: seq<string>): Scan<S>
    decreases |lines|
  {
    if |lines| == 0 then Scan(st, None)
    else match step(st, lines[0]) {
      case Ok(next) => ScanLines(step, next, lines[1..])
      case Err(e) => Scan(st, Some(e))
    }
  }

  /** The reading loop itself. */
  method RunLines<S>(step: (S, string) -> Result<S, ReadError>, init: S, lines: seq<string>)
    returns (sc: Scan<S>)
    ensures sc == ScanLines(step, init, lines)
  {
    var st := init;
    var i := 0;
    while i < |lines|
      invariant 0 <= i <= |lines|
      invariant ScanLines(step, st, lines[i..]) == ScanLines(step, init, lines)
    {
      assert lines[i..][1..] == lines[i + 1..];
      match step(st, lines[i]) {
        case Err(e) =>
          return Scan(st, Some(e));
        case Ok(next) =>
          st := next;
      }
      i := i + 1;
    }
    sc := Scan(st, None);
  }

  /** A property every successful step keeps holds of the state the scan ends in, failure or not. */
  lemma {:induction false} ScanKeeps<S>(step: (S, string) -> Result<S, ReadError>, p: S -> bool, st: S, lines: seq<string>)
    requires p(st)
    requires forall s: S, l: string :: p(s) && step(s, l).Ok? ==> p(step(s, l).value)
    ensures p(ScanLines(step, st, lines).state)
    decreases |lines|
  {
    if lines != [] && step(st, lines[0]).Ok? {
      ScanKeeps(step, p, step(st, lines[0]).value, lines[1..]);
    }
  }

  /** A relation every successful step establishes from its input state holds between the start and end states. */
  lemma {:induction false} ScanGrows<S>(step: (S, string) -> Result<S, ReadError>, r: (S, S) -> bool,
                                        st: S, lines: seq<string>)
    requires forall s: S :: r(s, s)
    requires forall s: S, t: S, u: S :: r(s, t) && r(t, u) ==> r(s, u)
    requires forall s: S, l: string :: step(s, l).Ok? ==> r(s, step(s, l).value)
    ensures r(st, ScanLines(step, st, lines).state)
    decreases |lines|
  {
    if lines != [] && step(st, lines[0]).Ok? {
      var next := step(st, lines[0]).value;
      ScanGrows(step, r, next, lines[1..]);
      var last := ScanLines(step, next, lines[1..]).state;
      assert r(st, next) && r(next, last);
    }
  }

  /** A line the step accepts hands the scan on to the lines after it. */
  lemma {:induction false} ScanCons<S>(step: (S, string) -> Result<S, ReadError>, st: S, next: S, line: string, rest: seq<string>)
    requires step(st, line) == Ok(next)
    ensures ScanLines(step, st, [line] + rest) == ScanLines(step, next, rest)
  {
    assert ([line] + rest)[0] == line && ([line] + rest)[1..] == rest;
  }
}
