/**
 * The tabular handlers: delimited files and sniffed structured text through
 * pandas, JSON Lines, and TPM expression tables. pandas itself is a reader
 * the model is given.
 */
module TabularHandlers {
  import opened Wrappers
  import opened Text
  import JsonValue
  import opened Analysis
  import opened Utility
  import opened TextHandlers
  import opened JsonHandler

  /** The prefixes that disqualify a header candidate. */
  const HeaderSkipPrefixes := ["#", "=", "-"]

  /** How many rows each `read_csv` call reads: twice the head size. */
  const SampleRows := PandasHeadRows * 2

  const TpmSampleColumns := 10

  /**
   * The displayed form of a cell of an object column: a value whose text is
   * longer than 100 characters becomes its first 97 characters and "...".
   */
  function TruncateCell(c: Cell): Cell {
    match c
    case NA => NA
    case Val(t) => if |t| > MaxCellLength then Val(t[..MaxCellLength - 3] + "...") else Val(t)
  }

  /**
   * No displayed cell is longer than 100 characters; a cell that was
   * shortened is exactly 100 long and keeps its first 97 characters; any
   * other cell is shown as it is.
   */
  lemma {:induction false} TruncateCellFacts(c: Cell)
    ensures TruncateCell(c).Val? <==> c.Val?
    ensures TruncateCell(c).Val? ==> |TruncateCell(c).text| <= MaxCellLength
    ensures c.Val? && |c.text| > MaxCellLength ==>
      |TruncateCell(c).text| == MaxCellLength
      && TruncateCell(c).text == c.text[..MaxCellLength - 3] + "..."
    ensures c.Val? && |c.text| <= MaxCellLength ==> TruncateCell(c) == c
  {
  }

  /** Shortening is idempotent: a displayed cell is displayed as it is. */
  lemma {:induction false} TruncateCellIdempotent(c: Cell)
    ensures TruncateCell(TruncateCell(c)) == TruncateCell(c)
  {
  }

  /** A row with the cells of the object columns shortened. */
  function TruncateRow(row: seq<Cell>, objects: set<nat>): (r: seq<Cell>)
    ensures |r| == |row|
    ensures forall k :: 0 <= k < |row| ==> r[k] == if k in objects then TruncateCell(row[k]) else row[k]
  {
    seq(|row|, k requires 0 <= k < |row| => if k in objects then TruncateCell(row[k]) else row[k])
  }

  /** The frame with every cell of every object column shortened. */
  function TruncateFrame(f: Frame): Frame {
    f.(rows := seq(|f.rows|, i requires 0 <= i < |f.rows| => TruncateRow(f.rows[i], f.objectColumns)))
  }

  /** `df.head(n)`: the first `n` rows. */
  function Head(f: Frame, n: nat): Frame {
    f.(rows := Take(f.rows, n))
  }

  /**
   * Shortening the object columns keeps the columns, types and rows, touches
   * no cell outside an object column, and leaves no cell longer than 100
   * characters in one; shortening before or after taking the head gives the
   * same frame.
   */
  lemma {:induction false} TruncateFrameFacts(f: Frame, n: nat)
    ensures var t := TruncateFrame(f);
      t.columns == f.columns && t.dtypes == f.dtypes && |t.rows| == |f.rows|
      && (forall i, k :: 0 <= i < |f.rows| && 0 <= k < |f.rows[i]| && k !in f.objectColumns ==> t.rows[i][k] == f.rows[i][k])
      && (forall i, k :: 0 <= i < |f.rows| && 0 <= k < |f.rows[i]| && k in f.objectColumns && t.rows[i][k].Val? ==>
            |t.rows[i][k].text| <= MaxCellLength)
    ensures Head(TruncateFrame(f), n) == TruncateFrame(Head(f, n))
  {
    var t := TruncateFrame(f);
    forall i, k | 0 <= i < |f.rows| && 0 <= k < |f.rows[i]| && k in f.objectColumns && t.rows[i][k].Val?
      ensures |t.rows[i][k].text| <= MaxCellLength
    {
      TruncateCellFacts(f.rows[i][k]);
    }
    var a := Head(TruncateFrame(f), n);
    var b := TruncateFrame(Head(f, n));
    assert |a.rows| == |b.rows|;
    assert forall i :: 0 <= i < |a.rows| ==> a.rows[i] == b.rows[i];
  }

  /** The separator `summarize_tabular` passes: a tab for `.tsv`, a comma otherwise. */
  function Separator(ext: string): string {
    if ext == ".tsv" then "\t" else ","
  }

  /**
   * `summarize_tabular`: without pandas the file is opaque; otherwise the
   * row count is the line count less the header, and the head is the first
   * five of ten rows read with the extension's separator, object cells
   * shortened. A file that cannot be read, or that pandas rejects, gives an
   * error summary.
   */
  function SummarizeTabular(a: Analyzer, pandas: Pandas): (r: Summary)
    ensures pandas.PandasMissing? ==> r == SummarizeOpaque(a)
    ensures pandas.PandasPresent? && a.file.readError.Some? ==>
      r == Failure("Pandas could not parse: " + a.file.readError.value)
  {
    match pandas
    case PandasMissing => SummarizeOpaque(a)
    case PandasPresent(readCsv) =>
      match a.file.readError
      case Some(e) => Failure("Pandas could not parse: " + e)
      case None =>
        var sep := Separator(a.ext);
        var rowCount := |LinesOf(a)| - 1;
        match readCsv(CsvRequest(Some(sep), 0, SampleRows, None))
        case Err(e) => Failure("Pandas could not parse: " + e)
        case Ok(frame) =>
          DataFrame(if sep == "," then "csv" else "tsv", rowCount, None, Head(TruncateFrame(frame), PandasHeadRows))
  }

  /**
   * A readable file that pandas reads is summarised with a row count one less
   * than its line count, as "tsv" exactly when its extension is `.tsv`
   * (tabs are passed for `.tsv` only), with at most five rows, and with no
   * object cell longer than 100 characters.
   */
  lemma {:induction false} TabularOutcomes(a: Analyzer, readCsv: CsvRequest -> Result<Frame>)
    requires a.file.readError.None?
    requires readCsv(CsvRequest(Some(Separator(a.ext)), 0, SampleRows, None)).Ok?
    ensures var r := SummarizeTabular(a, PandasPresent(readCsv));
      var frame := readCsv(CsvRequest(Some(Separator(a.ext)), 0, SampleRows, None)).value;
      r.DataFrame? && r.rowCount == |LinesOf(a)| - 1 && r.lineCount.None?
      && (r.format == "tsv" <==> a.ext == ".tsv") && (r.format == "csv" <==> a.ext != ".tsv")
      && r.frame == Head(TruncateFrame(frame), PandasHeadRows)
      && |r.frame.rows| <= PandasHeadRows
  {
  }

  /** A line that can start the table: not blank, not a comment or rule, with more than one field. */
  predicate IsHeaderRow(line: string) {
    Strip(line) != [] && !StartsWithAny(Strip(line), HeaderSkipPrefixes) && |SplitWhitespace(line)| > 1
  }

  /**
   * The index of the first header row among the first 200 lines, searching
   * from `i`; 0 when there is none.
   */
  function HeaderRowFrom(lines: seq<string>, i: nat): (k: nat)
    ensures k == 0 || (i <= k < |lines| && k < MaxHeaderScanLines && IsHeaderRow(lines[k]))
    ensures k > 0 ==> forall j :: i <= j < k ==> !IsHeaderRow(lines[j])
    decreases MaxHeaderScanLines - i
  {
    if i >= |lines| || i >= MaxHeaderScanLines then 0
    else if IsHeaderRow(lines[i]) then i
    else HeaderRowFrom(lines, i + 1)
  }

  /** The row `read_csv` starts from. */
  function HeaderRow(lines: seq<string>): nat {
    HeaderRowFrom(lines, 0)
  }

  /** With no header row from `i` up to the scan limit, the search from `i` gives 0. */
  lemma {:induction false} HeaderRowNone(lines: seq<string>, i: nat)
    requires forall m :: i <= m < |lines| && m < MaxHeaderScanLines ==> !IsHeaderRow(lines[m])
    ensures HeaderRowFrom(lines, i) == 0
    decreases MaxHeaderScanLines - i
  {
    if i < |lines| && i < MaxHeaderScanLines {
      HeaderRowNone(lines, i + 1);
    }
  }

  /** With a header row at `j`, the search from `i <= j` stops at the first header row from `i`, at or before `j`. */
  lemma {:induction false} HeaderRowFinds(lines: seq<string>, i: nat, j: nat)
    requires i <= j < |lines| && j < MaxHeaderScanLines && IsHeaderRow(lines[j])
    ensures var k := HeaderRowFrom(lines, i);
      i <= k <= j && IsHeaderRow(lines[k]) && forall m :: i <= m < k ==> !IsHeaderRow(lines[m])
    decreases j - i
  {
    if !IsHeaderRow(lines[i]) {
      HeaderRowFinds(lines, i + 1, j);
    }
  }

  /**
   * The header scan finds the first header row among the first 200 lines:
   * when one exists the result is its index and no earlier line qualifies;
   * when none exists the result is 0.
   */
  lemma {:induction false} HeaderRowFacts(lines: seq<string>)
    ensures (exists j :: 0 <= j < |lines| && j < MaxHeaderScanLines && IsHeaderRow(lines[j])) ==>
      var k := HeaderRow(lines);
      k < |lines| && IsHeaderRow(lines[k]) && forall m :: 0 <= m < k ==> !IsHeaderRow(lines[m])
    ensures (forall m :: 0 <= m < |lines| && m < MaxHeaderScanLines ==> !IsHeaderRow(lines[m])) ==> HeaderRow(lines) == 0
  {
    if exists j :: 0 <= j < |lines| && j < MaxHeaderScanLines && IsHeaderRow(lines[j]) {
      var j :| 0 <= j < |lines| && j < MaxHeaderScanLines && IsHeaderRow(lines[j]);
      HeaderRowFinds(lines, 0, j);
    } else {
      HeaderRowNone(lines, 0);
    }
  }

  /** The header-scan loop of `summarize_structured_text`. */
  method ScanHeader(lines: seq<string>) returns (skiprows: nat)
    ensures skiprows == HeaderRow(lines)
  {
    skiprows := 0;
    var i := 0;
    while i < |lines|
      invariant i <= |lines| && i <= MaxHeaderScanLines
      invariant HeaderRowFrom(lines, i) == HeaderRow(lines)
    {
      if i >= MaxHeaderScanLines {
        break;
      }
      var line := lines[i];
      if IsHeaderRow(line) {
        skiprows := i;
        break;
      }
      i := i + 1;
    }
  }

  /** The message every failure of `summarize_structured_text` is re-raised with. */
  function StructuredError(e: string): string {
    "Pandas could not parse as structured text: " + e
  }

  const OneColumn := "File has only one column based on the initial sample."

  /** The request `summarize_structured_text` makes: a sniffed separator, '#' comments, from `skiprows`. */
  function StructuredRequest(skiprows: nat): CsvRequest {
    CsvRequest(None, skiprows, SampleRows, Some('#'))
  }

  /**
   * `summarize_structured_text`: without pandas the file is opaque. The table
   * starts at the header row when the text looks structured, at row 0
   * otherwise; a frame of one column, a file that cannot be read and any
   * pandas failure raise a ValueError, which the result carries as `Err`.
   */
  function SummarizeStructuredText(a: Analyzer, pandas: Pandas, likelyStructured: bool): (r: Result<Summary>)
    ensures pandas.PandasMissing? ==> r == Ok(SummarizeOpaque(a))
    ensures pandas.PandasPresent? && a.file.readError.Some? ==> r == Err(StructuredError(a.file.readError.value))
    ensures r.Ok? && pandas.PandasPresent? ==> r.value.DataFrame? && |r.value.frame.columns| > 1
  {
    match pandas
    case PandasMissing => Ok(SummarizeOpaque(a))
    case PandasPresent(readCsv) =>
      match a.file.readError
      case Some(e) => Err(StructuredError(e))
      case None =>
        var lines := LinesOf(a);
        var skiprows := if likelyStructured then HeaderRow(lines) else 0;
        match readCsv(StructuredRequest(skiprows))
        case Err(e) => Err(StructuredError(e))
        case Ok(sample) =>
          if |sample.columns| <= 1 then Err(StructuredError(OneColumn))
          else
            var format := if FormatOf(a.ext) == [] then "structured_text" else FormatOf(a.ext);
            Ok(DataFrame(format, |lines| - skiprows - 1, Some(|lines|), TruncateFrame(Head(sample, PandasHeadRows))))
  }

  /**
   * A readable file pandas reads into several columns is summarised with
   * its line count and a row count that leaves out the skipped rows and the
   * header; the table starts at the header row only when the text looks
   * structured.
   */
  lemma {:induction false} StructuredOutcomes(a: Analyzer, readCsv: CsvRequest -> Result<Frame>, likelyStructured: bool)
    requires a.file.readError.None?
    ensures var skiprows := if likelyStructured then HeaderRow(LinesOf(a)) else 0;
      var r := SummarizeStructuredText(a, PandasPresent(readCsv), likelyStructured);
      (readCsv(StructuredRequest(skiprows)).Err? ==> r == Err(StructuredError(readCsv(StructuredRequest(skiprows)).error)))
      && (readCsv(StructuredRequest(skiprows)).Ok? && |readCsv(StructuredRequest(skiprows)).value.columns| <= 1 ==>
            r == Err(StructuredError(OneColumn)))
      && (r.Ok? ==> r.value.lineCount == Some(|LinesOf(a)|) && r.value.rowCount == |LinesOf(a)| - skiprows - 1
                    && |r.value.frame.rows| <= PandasHeadRows && r.value.format != [])
  {
  }

  /** The first line as `f.readline()` returns it: "" for an empty file. */
  function FirstLine(a: Analyzer): string {
    var lines := LinesOf(a);
    if |lines| == 0 then "" else lines[0]
  }

  /**
   * `summarize_jsonl_file`: the schema of the first line's document and the
   * number of lines, the first included. A file that cannot be read, or a
   * first line that is not JSON, gives an error summary.
   */
  function SummarizeJsonl(a: Analyzer, codec: JsonValue.Codec): (r: Summary)
    ensures a.file.readError.Some? ==> r == Failure(a.file.readError.value)
  {
    match a.file.readError
    case Some(e) => Failure(e)
    case None =>
      match codec.loads(FirstLine(a))
      case Err(e) => Failure(e)
      case Ok(first) => JsonLines(|LinesOf(a)|, GetJsonSchema(first, 0))
  }

  /**
   * A readable JSON Lines file whose first line parses counts every line and
   * describes the first record by a well-shaped schema; one whose first line
   * does not parse gives the decoder's error.
   */
  lemma {:induction false} JsonlOutcomes(a: Analyzer, codec: JsonValue.Codec)
    requires a.file.readError.None?
    ensures codec.loads(FirstLine(a)).Err? ==> SummarizeJsonl(a, codec) == Failure(codec.loads(FirstLine(a)).error)
    ensures codec.loads(FirstLine(a)).Ok? ==>
      var r := SummarizeJsonl(a, codec);
      r.JsonLines? && r.recordCount == |LinesOf(a)| && r.schema == GetJsonSchema(codec.loads(FirstLine(a)).value, 0)
      && SchemaShaped(r.schema, MaxSchemaDepth + 1)
  {
    if codec.loads(FirstLine(a)).Ok? {
      SchemaIsShaped(codec.loads(FirstLine(a)).value, 0);
    }
  }

  /**
   * `summarize_tpm_file`: the whitespace-separated fields of the stripped
   * first line, counted, and the first ten of them; an empty first line
   * gives the empty-TPM summary. A file that cannot be read gives an error
   * summary.
   */
  function SummarizeTpm(a: Analyzer): (r: Summary)
    ensures a.file.readError.Some? ==> r == Failure("Could not parse TPM file: " + a.file.readError.value)
  {
    match a.file.readError
    case Some(e) => Failure("Could not parse TPM file: " + e)
    case None =>
      var first := Strip(FirstLine(a));
      if first == [] then EmptyTpm
      else
        var columns := SplitWhitespace(first);
        TpmSummary(|columns|, Take(columns, TpmSampleColumns))
  }

  /**
   * A readable TPM file with a blank first line is empty; otherwise the
   * column count is at least one, the sample is the first
   * `min(10, column_count)` fields, and every field is non-empty.
   */
  lemma {:induction false} TpmOutcomes(a: Analyzer)
    requires a.file.readError.None?
    ensures Strip(FirstLine(a)) == [] <==> SummarizeTpm(a) == EmptyTpm
    ensures var r := SummarizeTpm(a);
      r.TpmSummary? ==>
        var columns := SplitWhitespace(Strip(FirstLine(a)));
        r.columnCount == |columns| >= 1
        && r.columnSample == columns[..if |columns| < TpmSampleColumns then |columns| else TpmSampleColumns]
        && forall k :: 0 <= k < |r.columnSample| ==> r.columnSample[k] != []
  {
    var first := Strip(FirstLine(a));
    if first != [] {
      TpmFields(first);
    }
  }

  /** The fields of a non-empty stripped line: at least one, each non-empty, the sample a prefix of at most ten. */
  lemma {:induction false} TpmFields(first: string)
    requires first != [] && !IsSpace(first[0])
    ensures var columns := SplitWhitespace(first);
      var sample := Take(columns, TpmSampleColumns);
      |columns| >= 1
      && sample == columns[..if |columns| < TpmSampleColumns then |columns| else TpmSampleColumns]
      && forall k :: 0 <= k < |sample| ==> sample[k] != []
  {
    SplitWhitespaceNonEmpty(first);
    TakeFields(SplitWhitespace(first));
  }

  lemma {:induction false} TakeFields(columns: seq<string>)
    requires forall k :: 0 <= k < |columns| ==> |columns[k]| > 0
    ensures var sample := Take(columns, TpmSampleColumns);
      sample == columns[..if |columns| < TpmSampleColumns then |columns| else TpmSampleColumns]
      && forall k :: 0 <= k < |sample| ==> sample[k] != []
  {
  }

  /** Text that is not all whitespace has at least one field. */
  lemma {:induction false} SplitWhitespaceNonEmpty(s: string)
    requires s != [] && !IsSpace(s[0])
    ensures |SplitWhitespace(s)| >= 1
  {
    assert LStrip(s) == s;
  }
}
