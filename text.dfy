/**
 * Characters, decimal numerals and the few string routines the readers and
 * writers rely on: the decimal rendering of an `int` written by `operator<<`
 * on a stream and by Python's `str`, splitting and joining on one character,
 * and searches returning a position or "no position" (C++'s `npos`).
 */
module Text {
  import opened Wrappers

  predicate IsDigit(c: char) { '0' <= c <= '9' }

  predicate AllDigits(s: string) { forall i {:trigger IsDigit(s[i])} :: 0 <= i < |s| ==> IsDigit(s[i]) }

  /** The white-space characters of C's `isspace` in the "C" locale. */
  predicate IsSpace(c: char) {
    c == ' ' || c == '\t' || c == '\n' || c == '\r' || c == '\U{B}' || c == '\U{C}'
  }

  function DigitChar(d: nat): (c: char)
    requires d < 10
    ensures IsDigit(c)
  {
    ('0' as int + d) as char
  }

  function DigitValue(c: char): (d: nat)
    requires IsDigit(c)
    ensures d < 10
  {
    c as int - '0' as int
  }

  /** Decimal digits of a natural number, most significant first, no leading zeros. */
  function ShowNat(n: nat): (s: string)
    ensures |s| > 0 && AllDigits(s)
  {
    if n < 10 then [DigitChar(n)] else ShowNat(n / 10) + [DigitChar(n % 10)]
  }

  /** Decimal rendering of an integer: a '-' for a negative value, then its digits. */
  function Show(x: int): (s: string)
    ensures |s| > 0 && (x >= 0 ==> s == ShowNat(x)) && (x < 0 ==> s == "-" + ShowNat(-x))
  {
    if x < 0 then "-" + ShowNat(-x) else ShowNat(x)
  }

  /** A numeral is made of digits and minus signs only. */
  lemma {:induction false} ShowChars(x: int)
    ensures forall i :: 0 <= i < |Show(x)| ==> IsDigit(Show(x)[i]) || Show(x)[i] == '-'
  {
    if x < 0 {
      forall i | 0 <= i < |Show(x)| ensures IsDigit(Show(x)[i]) || Show(x)[i] == '-' {
        if i > 0 {
          assert Show(x)[i] == ShowNat(-x)[i - 1];
          assert IsDigit(ShowNat(-x)[i - 1]);
        }
      }
    } else {
      forall i | 0 <= i < |Show(x)| ensures IsDigit(Show(x)[i]) || Show(x)[i] == '-' {
        assert IsDigit(ShowNat(x)[i]);
      }
    }
  }

  /** The value of a run of decimal digits (the empty run is 0). */
  function DigitsValue(s: string): nat
    requires AllDigits(s)
  {
    if s == [] then 0 else DigitsValue(s[..|s| - 1]) * 10 + DigitValue(s[|s| - 1])
  }

  lemma {:induction false} DigitsValueOfShowNat(n: nat)
    ensures DigitsValue(ShowNat(n)) == n
  {
    if n >= 10 {
      var s := ShowNat(n);
      assert s[..|s| - 1] == ShowNat(n / 10);
      DigitsValueOfShowNat(n / 10);
    }
  }

  /** Exact decimal parsing of a whole token: an optional '-' followed by one or more digits. */
  function ParseDecimal(t: string): (r: Option<int>)
    ensures r.Some? ==> |t| > 0
  {
    if |t| > 0 && t[0] == '-' then
      (if |t| > 1 && AllDigits(t[1..]) then Some(0 - DigitsValue(t[1..]) as int) else None)
    else if |t| > 0 && AllDigits(t) then Some(DigitsValue(t))
    else None
  }

  lemma {:induction false} ParseDecimalOfShow(x: int)
    ensures ParseDecimal(Show(x)) == Some(x)
  {
    if x < 0 {
      var s := Show(x);
      assert s[1..] == ShowNat(-x);
      DigitsValueOfShowNat(-x);
    } else {
      assert IsDigit(Show(x)[0]);
      DigitsValueOfShowNat(x);
    }
  }

  // ----- prefixes, suffixes, containment -----

  predicate StartsWith(s: string, p: string) { |p| <= |s| && s[..|p|] == p }

  predicate EndsWith(s: string, p: string) { |p| <= |s| && s[|s| - |p|..] == p }

  /** Whether `sub` occurs in `s` (C++ `find(sub) != npos`, Python `sub in s`). */
  predicate Contains(s: string, sub: string)
    decreases |s|
  {
    StartsWith(s, sub) || (|s| > 0 && Contains(s[1..], sub))
  }

  /** The character at position 0, or NUL for the empty string (C++ `str[0]` on an empty string). */
  function FirstChar(s: string): char { if |s| == 0 then '\0' else s[0] }

  // ----- searching for one character -----

  /** The first position at or after `start` holding `c`, or `None` (C++ `find(c, start)`). */
  function FindFrom(s: string, c: char, start: nat): (r: Option<nat>)
    ensures r.Some? ==> start <= r.value < |s| && s[r.value] == c
                        && forall k :: start <= k < r.value ==> s[k] != c
    ensures r.None? ==> forall k :: start <= k < |s| ==> s[k] != c
    decreases |s| - start
  {
    if start >= |s| then None
    else if s[start] == c then Some(start)
    else FindFrom(s, c, start + 1)
  }

  /** The last position holding `c`, or `None`. */
  function FindLast(s: string, c: char): (r: Option<nat>)
    ensures r.Some? ==> r.value < |s| && s[r.value] == c
                        && forall k :: r.value < k < |s| ==> s[k] != c
    ensures r.None? ==> forall k :: 0 <= k < |s| ==> s[k] != c
  {
    if |s| == 0 then None
    else if s[|s| - 1] == c then Some(|s| - 1)
    else FindLast(s[..|s| - 1], c)
  }

  // ----- splitting and joining on one separator -----

  /** Split on every occurrence of `c`; the empty string gives one empty field (Python `s.split(c)`). */
  function Split(s: string, c: char): (r: seq<string>)
    ensures |r| >= 1
  {
    if s == [] then [""]
    else if s[0] == c then [""] + Split(s[1..], c)
    else var t := Split(s[1..], c); [[s[0]] + t[0]] + t[1..]
  }

  /** The fields joined with `c` between consecutive ones. */
  function Join(xs: seq<string>, c: char): string
  {
    if |xs| == 0 then "" else if |xs| == 1 then xs[0] else xs[0] + [c] + Join(xs[1..], c)
  }

  /** A non-empty sequence is its prefix without the last element, then that element. */
  lemma {:induction false} InitThenLast<T>(t: seq<T>)
    requires t != []
    ensures t[..|t| - 1] + [t[|t| - 1]] == t
  {
  }

  lemma {:induction false} AppendAssoc<T>(a: seq<T>, b: seq<T>, c: seq<T>)
    ensures a + b + c == a + (b + c)
  {
  }

  lemma {:induction false} AppendEmpty<T>(a: seq<T>)
    ensures a + [] == a
  {
  }

  lemma {:induction false} EmptyAppend<T>(a: seq<T>)
    ensures [] + a == a
  {
  }

  /** The first element and the rest of a sequence built by prepending. */
  lemma {:induction false} HeadTail<T>(h: T, t: seq<T>)
    ensures ([h] + t)[0] == h && ([h] + t)[1..] == t
  {
  }

  /** Dropping the first element of a concatenation whose left part is not empty. */
  lemma {:induction false} DropFirst<T>(a: seq<T>, rest: seq<T>)
    requires a != []
    ensures (a + rest)[0] == a[0] && (a + rest)[1..] == a[1..] + rest
  {
  }

  /** A string occurs in any concatenation that has it in the middle. */
  lemma {:induction false} ContainsMiddle(a: string, b: string, c: string)
    ensures Contains(a + b + c, b)
    decreases |a|
  {
    if a == [] {
      assert a + b + c == b + c;
      assert (b + c)[..|b|] == b;
    } else {
      assert (a + b + c)[1..] == a[1..] + b + c;
      ContainsMiddle(a[1..], b, c);
    }
  }

  predicate Free(s: string, c: char) { forall i :: 0 <= i < |s| ==> s[i] != c }

  lemma {:induction false} SplitFree(a: string, c: char)
    requires Free(a, c)
    ensures Split(a, c) == [a]
  {
    if a != [] {
      SplitFree(a[1..], c);
      assert [a[0]] + a[1..] == a;
    }
  }

  lemma {:induction false} SplitAfterField(a: string, c: char, rest: string)
    requires Free(a, c)
    ensures Split(a + [c] + rest, c) == [a] + Split(rest, c)
  {
    if a == [] {
      assert a + [c] + rest == [c] + rest;
    } else {
      assert (a + [c] + rest)[1..] == a[1..] + [c] + rest;
      SplitAfterField(a[1..], c, rest);
      assert [a[0]] + a[1..] == a;
    }
  }

  /** Splitting undoes joining, provided no field contains the separator. */
  lemma {:induction false} SplitJoin(xs: seq<string>, c: char)
    requires |xs| >= 1
    requires forall i :: 0 <= i < |xs| ==> Free(xs[i], c)
    ensures Split(Join(xs, c), c) == xs
  {
    if |xs| == 1 {
      SplitFree(xs[0], c);
    } else {
      SplitJoin(xs[1..], c);
      SplitAfterField(xs[0], c, Join(xs[1..], c));
      assert [xs[0]] + xs[1..] == xs;
    }
  }

  lemma {:induction false} JoinFree(xs: seq<string>, c: char, d: char)
    requires d != c
    requires forall i :: 0 <= i < |xs| ==> Free(xs[i], d)
    ensures Free(Join(xs, c), d)
  {
    if |xs| > 1 {
      JoinFree(xs[1..], c, d);
    }
  }

  lemma {:induction false} ShowFree(x: int, c: char)
    requires c != '-' && !IsDigit(c)
    ensures Free(Show(x), c)
  {
  }

  /** Fields joined with `c` and ended by one more `c` split into the fields and an empty last field. */
  lemma {:induction false} SplitJoinTerminated(xs: seq<string>, c: char)
    requires |xs| >= 1
    requires forall i :: 0 <= i < |xs| ==> Free(xs[i], c)
    ensures Split(Join(xs, c) + [c], c) == xs + [""]
  {
    JoinSnoc(xs, "", c);
    AppendEmpty(Join(xs, c) + [c]);
    var ys := xs + [""];
    forall i | 0 <= i < |ys| ensures Free(ys[i], c) {
      if i < |xs| { assert ys[i] == xs[i]; }
    }
    SplitJoin(ys, c);
  }

  lemma {:induction false} JoinSnoc(xs: seq<string>, y: string, c: char)
    requires |xs| >= 1
    ensures Join(xs + [y], c) == Join(xs, c) + [c] + y
  {
    if |xs| > 1 {
      assert (xs + [y])[1..] == xs[1..] + [y];
      JoinSnoc(xs[1..], y, c);
    }
  }

  /** The decimal renderings of a sequence of integers. */
  function Shows(s: seq<int>): (r: seq<string>)
    ensures |r| == |s| && forall i :: 0 <= i < |s| ==> r[i] == Show(s[i])
  {
    seq(|s|, i requires 0 <= i < |s| => Show(s[i]))
  }

  lemma {:induction false} ShowsSnoc(t: seq<int>, x: int)
    ensures Shows(t + [x]) == Shows(t) + [Show(x)]
  {
    var l, r := Shows(t + [x]), Shows(t) + [Show(x)];
    forall i | 0 <= i < |l| ensures l[i] == r[i] {
      if i < |t| { assert (t + [x])[i] == t[i]; }
    }
  }

  /** Parse every token exactly; `None` when one of them is not a decimal numeral. */
  function ParseAll(ts: seq<string>): (r: Option<seq<int>>)
    ensures r.Some? ==> |r.value| == |ts|
  {
    if ts == [] then Some([])
    else match (ParseDecimal(ts[0]), ParseAll(ts[1..])) {
      case (Some(x), Some(xs)) => Some([x] + xs)
      case _ => None
    }
  }

  lemma {:induction false} ParseAllOfShows(s: seq<int>)
    ensures ParseAll(Shows(s)) == Some(s)
  {
    if s != [] {
      ParseDecimalOfShow(s[0]);
      assert Shows(s)[1..] == Shows(s[1..]);
      ParseAllOfShows(s[1..]);
      assert [s[0]] + s[1..] == s;
    }
  }

  /** The integers of a line of numerals separated by single spaces. */
  function ParseInts(line: string): Option<seq<int>> { ParseAll(Split(line, ' ')) }

  lemma {:induction false} ShowsFree(s: seq<int>, c: char)
    requires c != '-' && !IsDigit(c)
    ensures forall i :: 0 <= i < |Shows(s)| ==> Free(Shows(s)[i], c)
  {
    forall i | 0 <= i < |Shows(s)| ensures Free(Shows(s)[i], c) {
      ShowFree(s[i], c);
    }
  }

  /** Numerals joined by single spaces form one line that reads back as the numbers. */
  lemma {:induction false} IntsLine(s: seq<int>)
    requires s != []
    ensures Free(Join(Shows(s), ' '), '\n')
    ensures ParseInts(Join(Shows(s), ' ')) == Some(s)
  {
    ShowsFree(s, ' ');
    ShowsFree(s, '\n');
    JoinFree(Shows(s), ' ', '\n');
    SplitJoin(Shows(s), ' ');
    ParseAllOfShows(s);
  }

  lemma {:induction false} Join2(a: string, b: string, c: char)
    ensures Join([a, b], c) == a + [c] + b
  {
    assert [a, b][1..] == [b];
  }

  lemma {:induction false} Join3(a: string, b: string, d: string, c: char)
    ensures Join([a, b, d], c) == a + [c] + b + [c] + d
  {
    assert [a, b, d][1..] == [b, d];
    Join2(b, d, c);
  }

  // ----- white space -----

  /** The length of the leading run of white space. */
  function SpaceRun(s: string): (n: nat)
    ensures n <= |s| && (forall i {:trigger IsSpace(s[i])} :: 0 <= i < n ==> IsSpace(s[i])) && (n < |s| ==> !IsSpace(s[n]))
  {
    if s == [] || !IsSpace(s[0]) then 0 else 1 + SpaceRun(s[1..])
  }

  lemma {:induction false} SpaceRunOf(pad: string, w: string)
    requires forall i :: 0 <= i < |pad| ==> IsSpace(pad[i])
    requires w == [] || !IsSpace(w[0])
    ensures SpaceRun(pad + w) == |pad|
  {
    if pad != [] {
      assert (pad + w)[0] == pad[0] && (pad + w)[1..] == pad[1..] + w;
      SpaceRunOf(pad[1..], w);
    }
  }
}
