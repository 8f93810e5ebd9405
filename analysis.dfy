/**
 * What the file analyzer works on and what it produces: the file as the
 * handlers read it, the analyzer's fixed fields, the library-backed readers
 * the model treats as given, and the summaries the handlers return.
 */
module Analysis {
  import opened Wrappers
  import opened Text
  import opened Utf8
  import opened JsonValue

  const LargeFileThresholdBytes := 50000
  const MaxJsonPreviewSize := 5 * 1024
  const MaxCellLength := 100
  const PandasHeadRows := 5
  const TextAnalysisSampleLines := 100
  const BinaryCheckBytes := 2048
  const MaxHeaderScanLines := 200
  const MaxArchiveListFiles := 50
  const MaxGeneAnnotationSampleLines := 50000
  const MaxFastaSampleBytes := 1024 * 1024
  const HiddenFileTailLines := 50

  /**
   * A file on disk: its bytes, and the error text every `open` of it raises
   * (a permission error, say) or `None` when it can be read.
   */
  datatype FileData = FileData(bytes: seq<Byte>, readError: Option<string>)

  /** The contents as text mode reads them: UTF-8 ignoring errors, universal newlines. */
  function TextOf(bytes: seq<Byte>): string {
    UniversalNewlines(DecodeIgnore(bytes))
  }

  /** The fields `FileAnalyzer.__init__` sets once. */
  datatype Analyzer = Analyzer(path: string, size: nat, ext: string, nameLower: string, file: FileData)

  /** `file_extension.lstrip('.')`. */
  function FormatOf(ext: string): string {
    LStripChar(ext, '.')
  }

  /** The handlers the analyzer's extension map can name. */
  datatype Handler =
    | JsonH | CodeH | TabularH | GeneAnnotationH | NotebookH | OpaqueH | PdfH
    | RecordBasedH | SequenceH | LogH | JsonlH | ArchiveH | NumpyH | Hdf5H

  /** A cell of a data frame: missing, or a value with its `str()`. */
  datatype Cell = NA | Val(text: string)

  /** A frame as `pandas.read_csv` returns it: columns, dtypes, which columns hold objects, rows. */
  datatype Frame = Frame(columns: seq<string>, dtypes: seq<string>, objectColumns: set<nat>, rows: seq<seq<Cell>>)

  /**
   * The arguments of one `pandas.read_csv` call: the separator (`None` to
   * sniff it), the rows skipped, the rows read, and the comment character.
   */
  datatype CsvRequest = CsvRequest(sep: Option<string>, skiprows: nat, nrows: nat, comment: Option<char>)

  /** pandas: not installed, or a reader that returns a frame or the text of what it raised. */
  datatype Pandas = PandasMissing | PandasPresent(readCsv: CsvRequest -> Result<Frame>)

  /** What an archive probe finds: not this kind of archive, its member names, or a failure. */
  datatype Probe = NotThisKind | Members(names: seq<string>) | ProbeFails(error: string)

  /**
   * The readers the model does not look into: pandas, the JSON decoder, and
   * the zip and tar probes of the file.
   */
  datatype Libraries = Libraries(pandas: Pandas, codec: Codec, zip: Probe, tar: Probe)

  /** The summary dicts the handlers return, by `summary_type`. */
  datatype Summary =
    | EmptyFile(format: string)
    | EmptyTpm
    | OpaqueBinary(format: string)
    | HiddenTail(format: string, content: string, totalLines: nat, shownLines: nat, baseName: string)
    | Failure(message: string)
    | FullContent(data: Json)
    | JsonSchema(schema: Json)
    | StructuredInternal
    | Unrecognized(format: string, sample: string, lineCount: Option<nat>)
    | LogSummary(totalLines: nat, head: string, tail: string, errorLines: set<string>)
    | RecordCount(format: string, count: nat, delimiter: string)
    | RecordSample(format: string, count: nat, delimiter: string, sample: string)
    | SequenceHeaders(format: string, headers: seq<string>)
    | SequenceLines(format: string, records: nat)
    | GeneAnnotation(format: string, comments: seq<string>, features: seq<(string, nat)>, dataSample: string)
    | DataFrame(format: string, rowCount: int, lineCount: Option<nat>, frame: Frame)
    | JsonLines(recordCount: nat, schema: Json)
    | TpmSummary(columnCount: nat, columnSample: seq<string>)
    | ArchiveContents(format: string, fileCount: nat, fileList: seq<string>)
    /** What a library-backed handler (code, notebook, PDF, NumPy, HDF5) returns. */
    | Delegated(handler: Handler)
}
