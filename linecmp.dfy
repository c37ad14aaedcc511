/**
 * The log comparator scripts/linecmp.py: it skips a given number of lines in
 * each of two trace logs, walks the rest in lockstep and reports the first
 * pair that differs after trailing whitespace is stripped, with up to `prev`
 * preceding lines of context and a column marker.
 *
 * The file system is a parameter (a map from file name to the lines that
 * iterating the opened file yields, terminators included); printing is
 * modelled by the report value and ReportLines.
 */
module LineCmp {
  import opened Wrappers

  /** Characters for which Python's str.isspace holds. */
  predicate IsSpace(c: char) {
    ('\t' <= c <= '\r') || ('\U{1C}' <= c <= '\U{1F}') || c == ' ' || c == '\U{85}' || c == '\U{A0}'
    || c == '\U{1680}' || ('\U{2000}' <= c <= '\U{200A}') || c == '\U{2028}' || c == '\U{2029}'
    || c == '\U{202F}' || c == '\U{205F}' || c == '\U{3000}'
  }

  /** str.rstrip() with no argument. */
  function RStrip(s: string): string
  {
    if |s| > 0 && IsSpace(s[|s| - 1]) then RStrip(s[..|s| - 1]) else s
  }

  /** rstrip removes exactly the maximal run of trailing whitespace. */
  lemma {:induction false} RStripMeaning(s: string)
    ensures var r := RStrip(s);
      |r| <= |s| && r == s[..|r|] && (r == [] || !IsSpace(r[|r| - 1]))
      && forall i :: |r| <= i < |s| ==> IsSpace(s[i])
  {
    if |s| > 0 && IsSpace(s[|s| - 1]) {
      RStripMeaning(s[..|s| - 1]);
    }
  }

  /** str.lstrip() with no argument. */
  function LStrip(s: string): string
  {
    if |s| > 0 && IsSpace(s[0]) then LStrip(s[1..]) else s
  }

  /** lstrip removes exactly the maximal run of leading whitespace. */
  lemma {:induction false} LStripMeaning(s: string)
    ensures var r := LStrip(s);
      |r| <= |s| && r == s[|s| - |r|..] && (r == [] || !IsSpace(r[0]))
      && forall i :: 0 <= i < |s| - |r| ==> IsSpace(s[i])
  {
    if |s| > 0 && IsSpace(s[0]) {
      LStripMeaning(s[1..]);
    }
  }

  function Max(a: int, b: int): int { if a < b then b else a }
  function Min(a: int, b: int): int { if a < b then a else b }

  // ---------------------------------------------------------------------
  // find_position

  /**
   * find_position: a marker line as long as the longer input, with '^'
   * exactly under the columns where both lines have a character and the
   * characters differ, and a blank everywhere else.
   */
  method FindPosition(line1: string, line2: string) returns (marker: string)
    ensures |marker| == Max(|line1|, |line2|)
    ensures forall i :: 0 <= i < |marker| ==>
      (marker[i] == '^' <==> i < |line1| && i < |line2| && line1[i] != line2[i])
    ensures forall i :: 0 <= i < |marker| ==> marker[i] == '^' || marker[i] == ' '
    ensures marker == Marker(line1, line2)
  {
    var positions := new char[Max(|line1|, |line2|)](_ => ' ');
    var n := Min(|line1|, |line2|);
    var i := 0;
    while i < n
      invariant 0 <= i <= n
      invariant forall j :: 0 <= j < i ==> (positions[j] == '^' <==> line1[j] != line2[j])
      invariant forall j :: 0 <= j < positions.Length ==> positions[j] == '^' || positions[j] == ' '
      invariant forall j :: i <= j < positions.Length ==> positions[j] == ' '
    {
      positions[i] := if line1[i] != line2[i] then '^' else ' ';
      i := i + 1;
    }
    marker := positions[..];
    assert forall j :: 0 <= j < |marker| ==> marker[j] == Marker(line1, line2)[j];
  }

  // ---------------------------------------------------------------------
  // int() on a decimal string, and its inverse str() on int

  predicate IsDigit(c: char) { '0' <= c <= '9' }

  /** Digits with single underscores between them, as int() accepts. */
  predicate DigitRun(s: string) {
    |s| > 0 && IsDigit(s[0]) && IsDigit(s[|s| - 1])
    && (forall i :: 0 <= i < |s| ==> IsDigit(s[i]) || s[i] == '_')
    && (forall i :: 0 <= i < |s| - 1 ==> !(s[i] == '_' && s[i + 1] == '_'))
  }

  /** The value of a run of digits, underscores ignored. */
  function DigitsValue(s: string): nat
  {
    if s == [] then 0
    else if IsDigit(s[|s| - 1]) then DigitsValue(s[..|s| - 1]) * 10 + (s[|s| - 1] as int - '0' as int)
    else DigitsValue(s[..|s| - 1])
  }

  datatype ParseError = TooManyValues | InvalidLiteral(text: string)

  /**
   * int(text) for a base-10 literal: surrounding whitespace, an optional
   * sign, then a digit run; anything else raises ValueError.
   */
  function ParseInt(text: string): (r: Result<int, ParseError>)
    ensures r.Err? ==> r.error == InvalidLiteral(text)
  {
    var t := LStrip(RStrip(text));
    if |t| > 0 && (t[0] == '-' || t[0] == '+') && DigitRun(t[1..]) then
      Ok(if t[0] == '-' then -(DigitsValue(t[1..]) as int) else DigitsValue(t[1..]))
    else if DigitRun(t) then Ok(DigitsValue(t))
    else Err(InvalidLiteral(text))
  }

  function DigitChar(d: nat): char requires d < 10 { ('0' as int + d) as char }

  function NatToString(n: nat): (s: string)
    ensures |s| > 0 && IsDigit(s[0]) && IsDigit(s[|s| - 1])
  {
    if n < 10 then [DigitChar(n)] else NatToString(n / 10) + [DigitChar(n % 10)]
  }

  lemma {:induction false} NatToStringDigits(n: nat)
    ensures forall i :: 0 <= i < |NatToString(n)| ==> IsDigit(NatToString(n)[i])
  {
    if n >= 10 {
      NatToStringDigits(n / 10);
    }
  }

  /** The text of f'{n}'. */
  function IntToString(n: int): string {
    if n < 0 then "-" + NatToString(-n) else NatToString(n)
  }

  lemma {:induction false} DigitsValueOfNat(n: nat)
    ensures DigitsValue(NatToString(n)) == n
  {
    var s := NatToString(n);
    if n >= 10 {
      DigitsValueOfNat(n / 10);
      assert s[..|s| - 1] == NatToString(n / 10);
    }
  }

  lemma NoStrip(s: string)
    requires |s| > 0 && !IsSpace(s[0]) && !IsSpace(s[|s| - 1])
    ensures LStrip(RStrip(s)) == s
  {
  }

  lemma NatToStringRun(n: nat)
    ensures DigitRun(NatToString(n))
  {
    NatToStringDigits(n);
  }

  /** int() inverts str() on integers. */
  lemma ParseIntOfString(n: int)
    ensures ParseInt(IntToString(n)) == Ok(n)
  {
    if n < 0 {
      ParseNegative(-n);
    } else {
      ParseNonNegative(n);
    }
  }

  /** The text of a negative number parses back to it. */
  lemma ParseNegative(k: nat)
    requires k > 0
    ensures ParseInt("-" + NatToString(k)) == Ok(-(k as int))
  {
    var s := "-" + NatToString(k);
    assert !IsSpace(s[0]) && !IsSpace(s[|s| - 1]);
    NoStrip(s);
    assert s[1..] == NatToString(k);
    NatToStringRun(k);
    DigitsValueOfNat(k);
  }

  /** The text of a number at least zero parses back to it. */
  lemma ParseNonNegative(n: nat)
    ensures ParseInt(NatToString(n)) == Ok(n)
  {
    var s := NatToString(n);
    NoStrip(s);
    assert s[0] != '-' && s[0] != '+';
    NatToStringRun(n);
    DigitsValueOfNat(n);
  }

  // ---------------------------------------------------------------------
  // parse_filename

  function Count(s: string, c: char): nat {
    if s == [] then 0 else Count(s[1..], c) + (if s[0] == c then 1 else 0)
  }

  /** The index of the first occurrence of c in s. */
  function IndexOf(s: string, c: char): (k: nat)
    requires c in s
    ensures k < |s| && s[k] == c && c !in s[..k]
  {
    if s[0] == c then 0 else 1 + IndexOf(s[1..], c)
  }

  lemma {:induction false} CountSplit(s: string, c: char)
    requires c in s
    ensures Count(s, c) == 1 + Count(s[IndexOf(s, c) + 1..], c)
  {
    if s[0] != c {
      CountSplit(s[1..], c);
      assert s[1..][IndexOf(s[1..], c) + 1..] == s[IndexOf(s, c) + 1..];
    }
  }

  lemma {:induction false} CountZero(s: string, c: char)
    ensures Count(s, c) == 0 <==> c !in s
  {
    if s != [] {
      CountZero(s[1..], c);
      assert s == [s[0]] + s[1..];
    }
  }

  /**
   * parse_filename: "name" gives (name, 0); "name:k" gives (name, int(k));
   * a second ':' makes the two-name unpacking of split(':') raise.
   */
  function ParseFilename(arg: string): (r: Result<(string, int), ParseError>)
    ensures ':' !in arg ==> r == Ok((arg, 0))
    ensures Count(arg, ':') >= 2 ==> r == Err(TooManyValues)
    ensures ':' in arg && Count(arg, ':') == 1 ==>
      var k := IndexOf(arg, ':');
      (r.Ok? ==> r.value.0 == arg[..k] && Ok(r.value.1) == ParseInt(arg[k + 1..]))
      && (r.Err? ==> ParseInt(arg[k + 1..]).Err?)
  {
    CountZero(arg, ':');
    if ':' !in arg then Ok((arg, 0))
    else
      var k := IndexOf(arg, ':');
      CountSplit(arg, ':');
      CountZero(arg[k + 1..], ':');
      if ':' in arg[k + 1..] then Err(TooManyValues)
      else match ParseInt(arg[k + 1..])
        case Ok(n) => Ok((arg[..k], n))
        case Err(e) => Err(e)
  }

  lemma {:induction false} IndexOfAt(s: string, c: char, k: nat)
    requires k < |s| && s[k] == c && c !in s[..k]
    ensures IndexOf(s, c) == k
  {
    if k > 0 {
      assert s[0] == s[..k][0];
      assert s[1..][..k - 1] == s[..k][1..];
      IndexOfAt(s[1..], c, k - 1);
    }
  }

  /** A name without ':' followed by ":k" parses back to the name and k. */
  lemma ParseFilenameRoundTrip(name: string, skip: int)
    requires ':' !in name
    ensures ParseFilename(name + ":" + IntToString(skip)) == Ok((name, skip))
  {
    var t := IntToString(skip);
    var arg := name + ":" + t;
    NatToStringDigits(if skip < 0 then -skip else skip);
    assert forall i :: 0 <= i < |t| ==> t[i] == '-' || IsDigit(t[i]);
    assert ':' !in t;
    assert arg[|name|] == ':' && arg[..|name|] == name;
    IndexOfAt(arg, ':', |name|);
    assert arg[|name| + 1..] == t;
    ParseIntOfString(skip);
  }

  // ---------------------------------------------------------------------
  // compare

  datatype Failure =
    | BadArgument(arg: string, reason: ParseError)   // ValueError from parse_filename
    | NoSuchFile(name: string)                       // open() raises
    | EndOfFile(name: string)                        // next() raises StopIteration while skipping
    | NegativeMaxlen                                 // deque(maxlen=prev) with prev < 0

  datatype Report = Report(context: seq<string>, lineno1: int, lineno2: int,
                           line1: string, line2: string, marker: string)

  datatype Verdict = Same | Differ(report: Report)

  /** The lines printed for a mismatch, in order. */
  function ReportLines(r: Report): (out: seq<string>)
    ensures |out| == |r.context| + 5 && out[..|r.context|] == r.context
    ensures out[|r.context|] == "" && out[|out| - 1] == r.marker
  {
    r.context + ["", "mismatch in line " + IntToString(r.lineno1) + " (" + IntToString(r.lineno2) + "):",
                 r.line1, r.line2, r.marker]
  }

  /** The loop `for _ in range(skip): next(fp)`. */
  method Skip(name: string, lines: seq<string>, skip: int) returns (rest: Result<seq<string>, Failure>)
    ensures skip <= 0 ==> rest == Ok(lines)
    ensures 0 < skip <= |lines| ==> rest == Ok(lines[skip..])
    ensures skip > |lines| ==> rest == Err(EndOfFile(name))
  {
    var fp := lines;
    var i := 0;
    while i < skip
      invariant 0 <= i <= Max(skip, 0) && i <= |lines|
      invariant fp == lines[i..]
    {
      if fp == [] {
        return Err(EndOfFile(name));
      }
      fp := fp[1..];
      i := i + 1;
    }
    return Ok(fp);
  }

  /** The rstripped form of every line. */
  function Stripped(s: seq<string>): (r: seq<string>)
    ensures |r| == |s|
  {
    seq(|s|, i requires 0 <= i < |s| => RStrip(s[i]))
  }

  /** The first local index from `from` on where the zipped lines differ. */
  function FirstDiff(a: seq<string>, b: seq<string>, from: nat): (r: Option<nat>)
    ensures r.Some? ==> from <= r.value < |a| && r.value < |b|
    decreases |a| - from
  {
    if from >= |a| || from >= |b| then None
    else if RStrip(a[from]) != RStrip(b[from]) then Some(from)
    else FirstDiff(a, b, from + 1)
  }

  lemma {:induction false} FirstDiffMeaning(a: seq<string>, b: seq<string>, from: nat)
    requires forall j :: 0 <= j < from && j < |a| && j < |b| ==> RStrip(a[j]) == RStrip(b[j])
    ensures FirstDiff(a, b, from).None? <==>
      forall j :: 0 <= j < |a| && j < |b| ==> RStrip(a[j]) == RStrip(b[j])
    ensures FirstDiff(a, b, from).Some? ==>
      var k := FirstDiff(a, b, from).value;
      k < |a| && k < |b| && RStrip(a[k]) != RStrip(b[k])
      && forall j :: 0 <= j < k ==> RStrip(a[j]) == RStrip(b[j])
    decreases |a| - from
  {
    if from < |a| && from < |b| && RStrip(a[from]) == RStrip(b[from]) {
      FirstDiffMeaning(a, b, from + 1);
    }
  }

  /** The marker line find_position builds, column by column. */
  function Marker(l1: string, l2: string): (m: string)
    ensures |m| == Max(|l1|, |l2|)
  {
    seq(Max(|l1|, |l2|), i requires 0 <= i < Max(|l1|, |l2|) =>
      if i < |l1| && i < |l2| && l1[i] != l2[i] then '^' else ' ')
  }

  /**
   * What compare decides for the post-skip streams a and b: the first
   * mismatch (1-based line numbers offset by the skips), the last prev
   * matching lines of a before it, the two stripped lines and the marker.
   */
  function Expected(a: seq<string>, b: seq<string>, prev: nat, skip1: int, skip2: int): Verdict
  {
    match FirstDiff(a, b, 0)
    case None => Same
    case Some(k) =>
      var l1 := RStrip(a[k]);
      var l2 := RStrip(b[k]);
      Differ(Report(Stripped(a[k - Min(k, prev)..k]), k + 1 + skip1, k + 1 + skip2, l1, l2, Marker(l1, l2)))
  }

  /** compare reports Same exactly when every zipped pair agrees after rstrip. */
  lemma ExpectedSame(a: seq<string>, b: seq<string>, prev: nat, skip1: int, skip2: int)
    ensures Expected(a, b, prev, skip1, skip2) == Same <==>
      forall j :: 0 <= j < |a| && j < |b| ==> RStrip(a[j]) == RStrip(b[j])
  {
    FirstDiffMeaning(a, b, 0);
  }

  /**
   * A mismatch report names the first differing pair, shows only lines that
   * matched (never the mismatching one), oldest first, at most prev of them.
   */
  lemma ExpectedDiffer(a: seq<string>, b: seq<string>, prev: nat, skip1: int, skip2: int)
    requires Expected(a, b, prev, skip1, skip2).Differ?
    ensures var r := Expected(a, b, prev, skip1, skip2).report;
      var k := r.lineno1 - skip1 - 1;
      0 <= k < |a| && k < |b| && r.lineno2 == k + 1 + skip2
      && r.line1 == RStrip(a[k]) && r.line2 == RStrip(b[k]) && r.line1 != r.line2
      && (forall j :: 0 <= j < k ==> RStrip(a[j]) == RStrip(b[j]))
      && r.context == Stripped(a[k - Min(k, prev)..k])
  {
    FirstDiffMeaning(a, b, 0);
  }

  /** The deque of prev_lines after appending x with the given maxlen. */
  function Append(window: seq<string>, x: string, maxlen: nat): (w: seq<string>)
    requires |window| <= maxlen
    ensures |w| <= maxlen && (maxlen > 0 ==> |w| > 0 && w[|w| - 1] == x)
  {
    if |window| < maxlen then window + [x] else if maxlen == 0 then [] else window[1..] + [x]
  }

  lemma WindowStep(a: seq<string>, i: nat, prev: nat)
    requires i < |a|
    ensures Append(Stripped(a[i - Min(i, prev)..i]), RStrip(a[i]), prev)
         == Stripped(a[i + 1 - Min(i + 1, prev)..i + 1])
  {
    var lo := i - Min(i, prev);
    var lo' := i + 1 - Min(i + 1, prev);
    var w := Stripped(a[lo..i]);
    var w' := Stripped(a[lo'..i + 1]);
    var r := Append(w, RStrip(a[i]), prev);
    assert |r| == |w'|;
    forall j | 0 <= j < |r| ensures r[j] == w'[j] {
      if |w| < prev {
        assert lo == lo' == 0;
      }
    }
  }

  lemma ExpectedAt(a: seq<string>, b: seq<string>, prev: nat, skip1: int, skip2: int, i: nat)
    requires i < |a| && i < |b| && FirstDiff(a, b, 0) == FirstDiff(a, b, i)
    requires RStrip(a[i]) != RStrip(b[i])
    ensures Expected(a, b, prev, skip1, skip2)
         == Differ(Report(Stripped(a[i - Min(i, prev)..i]), i + 1 + skip1, i + 1 + skip2,
                          RStrip(a[i]), RStrip(b[i]), Marker(RStrip(a[i]), RStrip(b[i]))))
  {
  }

  /** The zip/rstrip/deque loop of compare over the post-skip streams. */
  method Walk(a: seq<string>, b: seq<string>, prev: nat, skip1: int, skip2: int) returns (v: Verdict)
    ensures v == Expected(a, b, prev, skip1, skip2)
  {
    var prevLines: seq<string> := [];
    var i := 0;
    while i < |a| && i < |b|
      invariant 0 <= i <= |a| && i <= |b|
      invariant FirstDiff(a, b, 0) == FirstDiff(a, b, i)
      invariant prevLines == Stripped(a[i - Min(i, prev)..i])
    {
      var line1 := RStrip(a[i]);
      var line2 := RStrip(b[i]);
      if line1 != line2 {
        var marker := FindPosition(line1, line2);
        ExpectedAt(a, b, prev, skip1, skip2, i);
        return Differ(Report(prevLines, i + 1 + skip1, i + 1 + skip2, line1, line2, marker));
      }
      WindowStep(a, i, prev);
      prevLines := Append(prevLines, line1, prev);
      i := i + 1;
    }
    assert FirstDiff(a, b, i) == None;
    return Same;
  }

  /** A `filename:skip` argument parses, names an existing file, and that file has `skip` lines to skip. */
  predicate Opens(log: string, files: map<string, seq<string>>)
  {
    ParseFilename(log).Ok? && ParseFilename(log).value.0 in files
    && ParseFilename(log).value.1 <= |files[ParseFilename(log).value.0]|
  }

  /** The exception that parsing, opening or skipping raises for an argument that does not open. */
  function OpenFailure(log: string, files: map<string, seq<string>>): Failure
    requires !Opens(log, files)
  {
    if ParseFilename(log).Err? then BadArgument(log, ParseFilename(log).error)
    else if ParseFilename(log).value.0 !in files then NoSuchFile(ParseFilename(log).value.0)
    else EndOfFile(ParseFilename(log).value.0)
  }

  /** The lines of an argument's file left after its skip. */
  function Rest(log: string, files: map<string, seq<string>>): seq<string>
    requires Opens(log, files)
  {
    var (name, skip) := ParseFilename(log).value;
    files[name][Max(skip, 0)..]
  }

  /**
   * compare: parse and open the first log and skip its lines, then the
   * second, then create the deque, then walk. Any exception ends compare
   * at the step that raised it, so the first log's failure wins over the
   * second's, and both win over a negative deque length.
   */
  method Compare(log1: string, log2: string, prev: int, files: map<string, seq<string>>)
    returns (r: Result<Verdict, Failure>)
    ensures !Opens(log1, files) ==> r == Err(OpenFailure(log1, files))
    ensures Opens(log1, files) && !Opens(log2, files) ==> r == Err(OpenFailure(log2, files))
    ensures Opens(log1, files) && Opens(log2, files) && prev < 0 ==> r == Err(NegativeMaxlen)
    ensures Opens(log1, files) && Opens(log2, files) && prev >= 0 ==>
      r == Ok(Expected(Rest(log1, files), Rest(log2, files), prev,
                       ParseFilename(log1).value.1, ParseFilename(log2).value.1))
  {
    var p1 := ParseFilename(log1);
    if p1.Err? { return Err(BadArgument(log1, p1.error)); }
    var (filename1, skip1) := p1.value;
    if filename1 !in files { return Err(NoSuchFile(filename1)); }
    var fp1 := Skip(filename1, files[filename1], skip1);
    if fp1.Err? {
      assert !Opens(log1, files);
      return Err(fp1.error);
    }
    assert Opens(log1, files) && fp1.value == Rest(log1, files);

    var p2 := ParseFilename(log2);
    if p2.Err? { return Err(BadArgument(log2, p2.error)); }
    var (filename2, skip2) := p2.value;
    if filename2 !in files { return Err(NoSuchFile(filename2)); }
    var fp2 := Skip(filename2, files[filename2], skip2);
    if fp2.Err? {
      assert !Opens(log2, files);
      return Err(fp2.error);
    }
    assert Opens(log2, files) && fp2.value == Rest(log2, files);

    if prev < 0 { return Err(NegativeMaxlen); }
    var v := Walk(fp1.value, fp2.value, prev, skip1, skip2);
    return Ok(v);
  }
}
