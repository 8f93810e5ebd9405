/**
 * The plain-text handlers of the file analyzer: the sample filter, the
 * generic-text sniff that decides whether a text file looks like a table,
 * the unrecognized-text summary and the log-file summary.
 *
 * A handler that can raise returns `Result<Summary>`, `Err` carrying the
 * text of what it raised.
 */
module TextHandlers {
  import opened Wrappers
  import opened Text
  import opened Analysis

  const UnrecognizedSampleLines := 10
  const LogHeadLines := 20
  const LogTailLines := 100
  const ProblemKeywords: seq<string> := ["error", "warning", "failed", "exception", "fatal", "critical", "traceback"]
  const CommentPrefixes: seq<string> := ["#", "!", "//"]

  /** The lines of the file as text mode iterates over them. */
  function LinesOf(a: Analyzer): seq<string> {
    FileLines(TextOf(a.file.bytes))
  }

  /** `[next(f, '').strip() for _ in range(n)]`: the first `n` lines stripped, padded with "". */
  function FirstStripped(lines: seq<string>, n: nat): seq<string> {
    seq(n, i requires 0 <= i < n => if i < |lines| then Strip(lines[i]) else "")
  }

  /** `[line.strip() for line in lines]`. */
  function StripAll(lines: seq<string>): seq<string> {
    seq(|lines|, i requires 0 <= i < |lines| => Strip(lines[i]))
  }

  // ---------------------------------------------------------------- filter

  /** A rule of dashes, underscores, equals signs, hashes or stars, longer than two characters. */
  predicate Decorative(s: string) {
    |s| > 2 && forall i :: 0 <= i < |s| ==> s[i] in "-_=#*"
  }

  /** The stripped line survives the filter. */
  predicate Kept(line: string) {
    var s := Strip(line);
    s != "" && !StartsWithAny(s, CommentPrefixes) && !Decorative(s)
  }

  /** The stripped surviving lines, in order. */
  function Filtered(lines: seq<string>): seq<string> {
    if |lines| == 0 then []
    else Filtered(lines[..|lines| - 1]) + (if Kept(lines[|lines| - 1]) then [Strip(lines[|lines| - 1])] else [])
  }

  /** `filter_sample_lines`. */
  method FilterSampleLines(lines: seq<string>) returns (filtered: seq<string>)
    ensures filtered == Filtered(lines)
  {
    filtered := [];
    for i := 0 to |lines|
      invariant filtered == Filtered(lines[..i])
    {
      assert lines[..i + 1][..i] == lines[..i];
      var stripped := Strip(lines[i]);
      if stripped == "" {
        continue;
      }
      if StartsWithAny(stripped, CommentPrefixes) {
        continue;
      }
      if Decorative(stripped) {
        continue;
      }
      filtered := filtered + [stripped];
    }
    assert lines[..|lines|] == lines;
  }

  /** Filtering a concatenation filters each part: the survivors keep their order. */
  lemma {:induction false} FilteredAppend(a: seq<string>, b: seq<string>)
    ensures Filtered(a + b) == Filtered(a) + Filtered(b)
  {
    if |b| > 0 {
      var b' := b[..|b| - 1];
      assert (a + b)[..|a + b| - 1] == a + b';
      FilteredAppend(a, b');
    } else {
      assert a + b == a;
    }
  }

  /**
   * The filter's output is exactly the stripped forms of the surviving lines:
   * every output line is non-empty, not a comment and not a rule, and there
   * are never more output lines than input lines.
   */
  lemma {:induction false} FilteredMembers(lines: seq<string>)
    ensures |Filtered(lines)| <= |lines|
    ensures forall x :: x in Filtered(lines) <==> exists i :: 0 <= i < |lines| && Kept(lines[i]) && Strip(lines[i]) == x
    ensures forall j :: 0 <= j < |Filtered(lines)| ==>
      var s := Filtered(lines)[j]; s != "" && !StartsWithAny(s, CommentPrefixes) && !Decorative(s)
  {
    if |lines| > 0 {
      var init := lines[..|lines| - 1];
      FilteredMembers(init);
      assert forall i :: 0 <= i < |init| ==> init[i] == lines[i];
      forall x | x in Filtered(lines)
        ensures exists i :: 0 <= i < |lines| && Kept(lines[i]) && Strip(lines[i]) == x
      {
        if x !in Filtered(init) {
          assert Kept(lines[|lines| - 1]) && Strip(lines[|lines| - 1]) == x;
        }
      }
      forall x | exists i :: 0 <= i < |lines| && Kept(lines[i]) && Strip(lines[i]) == x
        ensures x in Filtered(lines)
      {
        var i :| 0 <= i < |lines| && Kept(lines[i]) && Strip(lines[i]) == x;
        if i < |init| {
          assert x in Filtered(init);
        }
      }
    }
  }

  // ---------------------------------------------------------------- statistics

  function Sum(xs: seq<nat>): nat {
    if |xs| == 0 then 0 else Sum(xs[..|xs| - 1]) + xs[|xs| - 1]
  }

  /** `statistics.mean`, exactly. */
  function Mean(xs: seq<nat>): real
    requires |xs| > 0
  {
    (Sum(xs) as real) / (|xs| as real)
  }

  /** The sum of squared deviations from `m`. */
  function Squares(xs: seq<nat>, m: real): real {
    if |xs| == 0 then 0.0
    else
      var d := xs[|xs| - 1] as real - m;
      Squares(xs[..|xs| - 1], m) + d * d
  }

  /** `statistics.variance`, exactly: the square of `statistics.stdev`. */
  function Variance(xs: seq<nat>): real
    requires |xs| > 1
  {
    Squares(xs, Mean(xs)) / ((|xs| - 1) as real)
  }

  /**
   * The sample is judged a table: more than one line, a mean of at least two
   * fields and a sample standard deviation below 0.5, that is a variance
   * below 1/4. The statistics are exact rationals: over at most 100 counts
   * the rounding of the source's floats cannot move either comparison.
   */
  predicate LooksStructured(counts: seq<nat>) {
    |counts| > 1 && Mean(counts) >= 2.0 && Variance(counts) < 0.25
  }

  lemma {:induction false} MulMono(x: real, y: real, l: real)
    requires l > 0.0 && x > y
    ensures x * l > y * l
  {
    assert x * l - y * l == (x - y) * l;
  }

  /** For a positive `b`, `a / b < c` exactly when `a < c * b`. */
  lemma {:induction false} DivLess(a: real, b: real, c: real)
    requires b > 0.0
    ensures a / b < c <==> a < c * b
  {
    var q := a / b;
    assert q * b == a;
    if q < c {
      MulMono(c, q, b);
    } else if q > c {
      MulMono(q, c, b);
    }
  }

  /** The mean test in integers: the counts sum to at least twice their number. */
  lemma {:induction false} MeanAtLeastTwo(xs: seq<nat>)
    requires |xs| > 0
    ensures Mean(xs) >= 2.0 <==> Sum(xs) >= 2 * |xs|
  {
    DivLess(Sum(xs) as real, |xs| as real, 2.0);
  }

  lemma {:induction false} SumConstant(xs: seq<nat>, c: nat)
    requires forall i :: 0 <= i < |xs| ==> xs[i] == c
    ensures Sum(xs) == |xs| * c
  {
    if |xs| > 0 {
      SumConstant(xs[..|xs| - 1], c);
    }
  }

  lemma {:induction false} SquaresAtValue(xs: seq<nat>, c: nat)
    requires forall i :: 0 <= i < |xs| ==> xs[i] == c
    ensures Squares(xs, c as real) == 0.0
  {
    if |xs| > 0 {
      SquaresAtValue(xs[..|xs| - 1], c);
    }
  }

  lemma {:induction false} MeanOfConstant(n: nat, c: nat)
    requires n > 0
    ensures ((n * c) as real) / (n as real) == c as real
  {
    assert (n * c) as real == (n as real) * (c as real);
  }

  /** Several lines with the same number (at least two) of fields are always judged a table. */
  lemma {:induction false} ConstantColumnsLookStructured(counts: seq<nat>, c: nat)
    requires |counts| > 1 && c >= 2
    requires forall i :: 0 <= i < |counts| ==> counts[i] == c
    ensures LooksStructured(counts)
  {
    SumConstant(counts, c);
    MeanOfConstant(|counts|, c);
    assert Mean(counts) == c as real;
    SquaresAtValue(counts, c);
  }

  lemma {:induction false} SumAtMostLength(xs: seq<nat>)
    requires forall i :: 0 <= i < |xs| ==> xs[i] <= 1
    ensures Sum(xs) <= |xs|
  {
    if |xs| > 0 {
      SumAtMostLength(xs[..|xs| - 1]);
    }
  }

  /** Lines of at most one field each are never judged a table. */
  lemma {:induction false} SingleFieldsNotStructured(counts: seq<nat>)
    requires forall i :: 0 <= i < |counts| ==> counts[i] <= 1
    ensures !LooksStructured(counts)
  {
    SumAtMostLength(counts);
    if |counts| > 0 {
      MeanAtLeastTwo(counts);
    }
  }

  /** `[len(line.split()) for line in lines]`. */
  function ColumnCounts(lines: seq<string>): seq<nat> {
    seq(|lines|, i requires 0 <= i < |lines| => |SplitWhitespace(lines[i])|)
  }

  // ---------------------------------------------------------------- summaries

  /**
   * `summarize_unrecognized_text`: the first 10 stripped lines, the line count
   * for files of at most 50,000 bytes, and the format (`"txt"` for a file
   * without extension). Its `open` is not guarded, so an unreadable file raises.
   */
  function SummarizeUnrecognizedText(a: Analyzer): (r: Result<Summary>)
    ensures a.file.readError.Some? <==> r.Err?
    ensures r.Ok? ==> r.value.Unrecognized?
    ensures r.Ok? ==> (r.value.lineCount.Some? <==> a.size <= LargeFileThresholdBytes)
    ensures r.Ok? && r.value.lineCount.Some? ==> r.value.lineCount.value == |LinesOf(a)|
    ensures r.Ok? ==> r.value.format != [] && r.value.format[0] != '.'
    ensures r.Ok? ==> r.value.sample == Join("\n", FirstStripped(LinesOf(a), UnrecognizedSampleLines))
  {
    match a.file.readError
    case Some(e) => Err(e)
    case None =>
      var lines := LinesOf(a);
      var format := FormatOf(a.ext);
      Ok(Unrecognized(
        if format == [] then "txt" else format,
        Join("\n", FirstStripped(lines, UnrecognizedSampleLines)),
        if a.size <= LargeFileThresholdBytes then Some(|lines|) else None))
  }

  /**
   * `analyze_generic_text`: the internal structured-text marker when the
   * filtered first 100 lines look like a table, else the unrecognized-text
   * summary (also when reading fails, whose fallback then raises).
   */
  function AnalyzeGenericText(a: Analyzer): (r: Result<Summary>)
  {
    if a.file.readError.Some? then SummarizeUnrecognizedText(a)
    else
      var kept := Filtered(FirstStripped(LinesOf(a), TextAnalysisSampleLines));
      if |kept| == 0 then SummarizeUnrecognizedText(a)
      else if LooksStructured(ColumnCounts(kept)) then Ok(StructuredInternal)
      else SummarizeUnrecognizedText(a)
  }

  /**
   * The generic sniff either marks the file structured, exactly when its
   * filtered sample looks like a table, or gives the unrecognized summary;
   * it raises only for an unreadable file.
   */
  lemma {:induction false} GenericTextOutcomes(a: Analyzer)
    ensures AnalyzeGenericText(a).Err? <==> a.file.readError.Some?
    ensures AnalyzeGenericText(a) == Ok(StructuredInternal) <==>
      a.file.readError.None? && LooksStructured(ColumnCounts(Filtered(FirstStripped(LinesOf(a), TextAnalysisSampleLines))))
    ensures AnalyzeGenericText(a) != Ok(StructuredInternal) ==> AnalyzeGenericText(a) == SummarizeUnrecognizedText(a)
  {
  }

  /** Only the first 100 lines matter: files agreeing on them are sniffed alike when readable. */
  lemma {:induction false} SniffSeesFirstLines(a: Analyzer, b: Analyzer)
    requires a.file.readError.None? && b.file.readError.None?
    requires Take(LinesOf(a), TextAnalysisSampleLines) == Take(LinesOf(b), TextAnalysisSampleLines)
    ensures AnalyzeGenericText(a) == Ok(StructuredInternal) <==> AnalyzeGenericText(b) == Ok(StructuredInternal)
  {
    var la := LinesOf(a);
    var lb := LinesOf(b);
    assert FirstStripped(la, TextAnalysisSampleLines) == FirstStripped(lb, TextAnalysisSampleLines) by {
      forall i | 0 <= i < TextAnalysisSampleLines
        ensures FirstStripped(la, TextAnalysisSampleLines)[i] == FirstStripped(lb, TextAnalysisSampleLines)[i]
      {
        if i < |la| {
          assert Take(la, TextAnalysisSampleLines)[i] == la[i];
        }
        if i < |lb| {
          assert Take(lb, TextAnalysisSampleLines)[i] == lb[i];
        }
      }
    }
  }

  // ---------------------------------------------------------------- log files

  /** The line mentions one of the problem keywords, case-insensitively. */
  predicate MentionsProblem(line: string) {
    exists k :: 0 <= k < |ProblemKeywords| && Contains(Lower(line), ProblemKeywords[k])
  }

  /** The distinct stripped lines that mention a problem keyword. */
  function ProblemLines(lines: seq<string>): set<string> {
    set i | 0 <= i < |lines| && MentionsProblem(lines[i]) :: Strip(lines[i])
  }

  lemma {:induction false} ProblemLinesSnoc(lines: seq<string>, line: string)
    ensures ProblemLines(lines + [line]) == ProblemLines(lines) + (if MentionsProblem(line) then {Strip(line)} else {})
  {
    var all := lines + [line];
    forall x | x in ProblemLines(all)
      ensures x in ProblemLines(lines) + (if MentionsProblem(line) then {Strip(line)} else {})
    {
      var i :| 0 <= i < |all| && MentionsProblem(all[i]) && Strip(all[i]) == x;
      if i < |lines| {
        assert all[i] == lines[i];
      }
    }
    forall x | x in ProblemLines(lines)
      ensures x in ProblemLines(all)
    {
      var i :| 0 <= i < |lines| && MentionsProblem(lines[i]) && Strip(lines[i]) == x;
      assert all[i] == lines[i];
    }
    if MentionsProblem(line) {
      assert all[|lines|] == line;
    }
  }

  /** The loop of `summarize_log_file` that gathers the problem lines into a set. */
  method CollectProblemLines(lines: seq<string>) returns (found: set<string>)
    ensures found == ProblemLines(lines)
  {
    found := {};
    for i := 0 to |lines|
      invariant found == ProblemLines(lines[..i])
    {
      ProblemLinesSnoc(lines[..i], lines[i]);
      assert lines[..i + 1] == lines[..i] + [lines[i]];
      if MentionsProblem(lines[i]) {
        found := found + {Strip(lines[i])};
      }
    }
    assert lines[..|lines|] == lines;
  }

  lemma {:induction false} LowerTwice(s: string)
    ensures Lower(Lower(s)) == Lower(s)
  {
    assert forall i :: 0 <= i < |s| ==> LowerChar(LowerChar(s[i])) == LowerChar(s[i]);
  }

  /** Changing the case of a line's ASCII letters does not change whether it is a problem line. */
  lemma {:induction false} ProblemCaseInsensitive(line: string)
    ensures MentionsProblem(Lower(line)) <==> MentionsProblem(line)
  {
    LowerTwice(line);
    assert Lower(Lower(line)) == Lower(line);
  }

  /**
   * `summarize_log_file`: the line count, the first 20 and the last 100 lines
   * stripped, and the distinct problem lines; an unreadable file gives an
   * error summary.
   */
  function SummarizeLogFile(a: Analyzer): (r: Summary)
    ensures a.file.readError.Some? ==> r == Failure(a.file.readError.value)
    ensures a.file.readError.None? ==> r.LogSummary? && r.totalLines == |LinesOf(a)|
    ensures a.file.readError.None? ==>
      (forall x :: x in r.errorLines <==> exists i :: 0 <= i < |LinesOf(a)| && MentionsProblem(LinesOf(a)[i]) && Strip(LinesOf(a)[i]) == x)
  {
    match a.file.readError
    case Some(e) => Failure(e)
    case None =>
      var lines := LinesOf(a);
      LogSummary(
        |lines|,
        Join("\n", StripAll(Take(lines, LogHeadLines))),
        Join("\n", StripAll(TakeLast(lines, LogTailLines))),
        ProblemLines(lines))
  }

  /** A log of at most 20 lines has the same head and tail, and together the lines are the whole text. */
  lemma {:induction false} ShortLogHeadIsTail(a: Analyzer)
    requires a.file.readError.None? && |LinesOf(a)| <= LogHeadLines
    ensures SummarizeLogFile(a).head == SummarizeLogFile(a).tail
    ensures Join("", LinesOf(a)) == TextOf(a.file.bytes)
  {
  }
}
