/**
 * `FileAnalyzer`: the fields fixed when the analyzer is built, the
 * extension map that picks a handler, and the order in which `analyze`
 * tries the empty, hidden, special-name, TPM, mapped, binary and
 * generic-text routes.
 */
module FileAnalyzer {
  import opened Wrappers
  import opened Text
  import opened Paths
  import opened Utf8
  import JsonValue
  import opened Analysis
  import opened Utility
  import opened TextHandlers
  import opened JsonHandler
  import opened SequenceHandlers
  import opened TabularHandlers
  import opened ArchiveHandler
  import opened HandlerTable

  /** The names that go to the code handler whatever their extension. */
  const SpecialFiles: seq<string> := ["requirements.txt", ".gitignore"]

  // ------------------------------------------------------------ construction

  /**
   * `FileAnalyzer(file_path)` over a file system given as the files it
   * holds: a missing path raises FileNotFoundError; otherwise the size, the
   * lower-cased extension and the lower-cased base name are fixed.
   */
  function NewAnalyzer(disk: map<string, FileData>, path: string): (r: Result<Analyzer>)
    ensures r.Err? <==> path !in disk
    ensures r.Err? ==> r.error == "File not found: " + path
    ensures r.Ok? ==> r.value.file == disk[path] && r.value.size == |disk[path].bytes| && r.value.path == path
  {
    if path !in disk then Err("File not found: " + path)
    else Ok(Analyzer(path, |disk[path].bytes|, Lower(SplitExt(path)), Lower(Basename(path)), disk[path]))
  }

  /**
   * The extension is a lower-case tail of the lower-cased name: empty, or a
   * dot and then no further dot, ending the base name.
   */
  lemma {:induction false} ExtensionEndsName(disk: map<string, FileData>, path: string)
    requires path in disk
    ensures var a := NewAnalyzer(disk, path).value;
      a.ext == [] || (a.ext[0] == '.' && EndsWith(a.nameLower, a.ext) && forall k :: 1 <= k < |a.ext| ==> a.ext[k] != '.')
  {
    var ext := SplitExt(path);
    if ext != [] {
      SuffixInBasename(path, ext);
      LowerSuffix(Basename(path), ext);
    }
  }

  /** Lower-casing keeps a tail a tail. */
  lemma {:induction false} LowerSuffix(s: string, t: string)
    requires EndsWith(s, t)
    ensures EndsWith(Lower(s), Lower(t))
  {
    var ls := Lower(s);
    var lt := Lower(t);
    assert forall i :: 0 <= i < |lt| ==> lt[i] == ls[|ls| - |lt| + i];
    assert ls[|ls| - |lt|..] == lt;
  }

  // ------------------------------------------------------------ the TPM name test

  const NameSeparators: set<char> := {'.', '_', '-'}

  /** The index of the first separator character, or the length when there is none. */
  function IndexOfSeparator(s: string): (k: nat)
    ensures k <= |s|
    ensures forall i :: 0 <= i < k ==> s[i] !in NameSeparators
    ensures k < |s| ==> s[k] in NameSeparators
  {
    if |s| == 0 || s[0] in NameSeparators then 0 else 1 + IndexOfSeparator(s[1..])
  }

  /** `re.split(r'[._-]', s)`: the pieces between separator characters. */
  function NameParts(s: string): (r: seq<string>)
    ensures |r| >= 1
    decreases |s|
  {
    var k := IndexOfSeparator(s);
    if k == |s| then [s] else [s[..k]] + NameParts(s[k + 1..])
  }

  predicate HasSeparator(s: string) {
    exists i :: 0 <= i < |s| && s[i] in NameSeparators
  }

  /**
   * There are several pieces exactly when the name holds a separator; the
   * last piece ends the name, holds no separator, and follows a separator
   * when there are several.
   */
  lemma {:induction false} NamePartsLast(s: string)
    ensures var r := NameParts(s); var last := r[|r| - 1];
      (|r| > 1 <==> HasSeparator(s))
      && |last| <= |s| && last == s[|s| - |last|..]
      && (forall i :: 0 <= i < |last| ==> last[i] !in NameSeparators)
      && (|r| > 1 ==> |last| < |s| && s[|s| - |last| - 1] in NameSeparators)
  {
    NamePartsSeveral(s);
    LastPartEnds(s);
    LastPartShape(s);
  }

  /** The split gives several pieces exactly when the name holds a separator. */
  lemma {:induction false} NamePartsSeveral(s: string)
    ensures |NameParts(s)| > 1 <==> HasSeparator(s)
  {
    var k := IndexOfSeparator(s);
    if k < |s| {
      assert s[k] in NameSeparators;
    }
  }

  /** The piece after the last separator, or the whole name when it holds none. */
  function LastPart(s: string): (r: string)
    ensures |r| <= |s|
    decreases |s|
  {
    var k := IndexOfSeparator(s);
    if k == |s| then s else LastPart(s[k + 1..])
  }

  /**
   * That piece is a tail of the name holding no separator, right after a
   * separator when it is shorter than the name.
   */
  lemma {:induction false} LastPartShape(s: string)
    ensures var r := LastPart(s);
      r == s[|s| - |r|..]
      && (forall i :: 0 <= i < |r| ==> r[i] !in NameSeparators)
      && (|r| < |s| ==> s[|s| - |r| - 1] in NameSeparators)
    decreases |s|
  {
    var k := IndexOfSeparator(s);
    if k < |s| {
      var rest := s[k + 1..];
      LastPartShape(rest);
      var r := LastPart(rest);
      assert LastPart(s) == r;
      assert rest[|rest| - |r|..] == s[|s| - |r|..];
      if |r| == |rest| {
        assert s[|s| - |r| - 1] == s[k];
      } else {
        assert s[|s| - |r| - 1] == rest[|rest| - |r| - 1];
      }
    } else {
      assert s[0..] == s;
    }
  }

  /** The last piece of the split is that piece, and it is shorter than the name when there are several. */
  lemma {:induction false} LastPartEnds(s: string)
    ensures NameParts(s)[|NameParts(s)| - 1] == LastPart(s)
    ensures |NameParts(s)| > 1 ==> |LastPart(s)| < |s|
    decreases |s|
  {
    var k := IndexOfSeparator(s);
    if k < |s| {
      var rest := s[k + 1..];
      LastPartEnds(rest);
      var rr := NameParts(rest);
      assert NameParts(s) == [s[..k]] + rr;
      assert NameParts(s)[|NameParts(s)| - 1] == rr[|rr| - 1];
      assert LastPart(s) == LastPart(rest);
    } else {
      assert NameParts(s) == [s];
      assert LastPart(s) == s;
    }
  }

  /** The name test of the large-file TPM case. */
  predicate IsTpmName(name: string) {
    var parts := NameParts(name);
    |parts| > 1 && parts[|parts| - 1] == "tpm"
  }

  /** A name passes exactly when it ends in ".tpm", "_tpm" or "-tpm". */
  lemma {:induction false} TpmNameIff(name: string)
    ensures IsTpmName(name) <==> |name| >= 4 && name[|name| - 4] in NameSeparators && name[|name| - 3..] == "tpm"
  {
    if IsTpmName(name) {
      TpmNameEnds(name);
    }
    if |name| >= 4 && name[|name| - 4] in NameSeparators && name[|name| - 3..] == "tpm" {
      TpmEndingIsName(name);
    }
  }

  lemma {:induction false} TpmNameEnds(name: string)
    requires IsTpmName(name)
    ensures |name| >= 4 && name[|name| - 4] in NameSeparators && name[|name| - 3..] == "tpm"
  {
    NamePartsLast(name);
  }

  lemma {:induction false} TpmEndingIsName(name: string)
    requires |name| >= 4 && name[|name| - 4] in NameSeparators && name[|name| - 3..] == "tpm"
    ensures IsTpmName(name)
  {
    NamePartsLast(name);
    var r := NameParts(name);
    var last := r[|r| - 1];
    var n := |name|;
    assert name[n - 3] == 't' && name[n - 2] == 'p' && name[n - 1] == 'm';
    assert HasSeparator(name);
    assert |last| == 3;
    assert last == name[n - 3..];
  }

  // ------------------------------------------------------------ hidden files

  /** `_summarize_hidden_file`: a binary file is opaque; a text file shows its last 50 lines. */
  function SummarizeHidden(a: Analyzer): Summary {
    if IsLikelyBinary(a) then SummarizeOpaque(a)
    else
      match a.file.readError
      case Some(e) => Failure("Could not read hidden file: " + e)
      case None =>
        var lines := LinesOf(a);
        var tail := if |lines| > HiddenFileTailLines then TakeLast(lines, HiddenFileTailLines) else lines;
        var format := if FormatOf(a.ext) == [] then "hidden" else FormatOf(a.ext);
        HiddenTail(format, Join("", tail), |lines|, |tail|, Basename(a.path))
  }

  /**
   * A non-empty hidden file is opaque when it looks binary and otherwise
   * shows its text from the start of one of its last 50 lines to the end:
   * the whole text when it has at most 50 lines. An unreadable non-empty
   * file counts as binary, so the read error summary is never produced.
   */
  lemma {:induction false} HiddenFacts(a: Analyzer)
    requires a.size > 0
    ensures IsLikelyBinary(a) ==> SummarizeHidden(a) == SummarizeOpaque(a)
    ensures !IsLikelyBinary(a) ==>
      var r := SummarizeHidden(a);
      var lines := LinesOf(a);
      r.HiddenTail? && r.totalLines == |lines|
      && r.shownLines == (if |lines| < HiddenFileTailLines then |lines| else HiddenFileTailLines)
      && r.content == Join("", lines[|lines| - r.shownLines..])
      && EndsWith(Analysis.TextOf(a.file.bytes), r.content)
      && (|lines| <= HiddenFileTailLines ==> r.content == Analysis.TextOf(a.file.bytes))
      && r.format != []
    ensures !SummarizeHidden(a).Failure?
  {
    if !IsLikelyBinary(a) {
      HiddenShape(a);
      var lines := LinesOf(a);
      var r := SummarizeHidden(a);
      JoinTailEnds(lines, |lines| - r.shownLines);
      assert lines[0..] == lines;
    }
  }

  /** A readable hidden file shows its last (at most 50) lines, joined, under a non-empty format. */
  lemma {:induction false} HiddenShape(a: Analyzer)
    requires a.size > 0 && !IsLikelyBinary(a)
    ensures var r := SummarizeHidden(a);
      var lines := LinesOf(a);
      r.HiddenTail? && r.totalLines == |lines|
      && r.shownLines == (if |lines| < HiddenFileTailLines then |lines| else HiddenFileTailLines)
      && r.content == Join("", lines[|lines| - r.shownLines..])
      && r.format != []
  {
  }

  /** The joined tail of a list of lines ends the joined list. */
  lemma {:induction false} JoinTailEnds(lines: seq<string>, k: nat)
    requires k <= |lines|
    ensures EndsWith(Join("", lines), Join("", lines[k..]))
  {
    assert lines == lines[..k] + lines[k..];
    JoinEmptyAppend(lines[..k], lines[k..]);
    ConcatAffixes(Join("", lines[..k]), Join("", lines[k..]));
  }

  // ------------------------------------------------------------ dispatch

  /** The branch of `analyze` a file takes. */
  datatype Route = Empty | Hidden | SpecialName | Tpm | Mapped(handler: Handler) | Binary | Generic

  function RouteOf(a: Analyzer): Route {
    if a.size == 0 then Empty
    else if StartsWith(a.nameLower, ".") then Hidden
    else if Contains(a.nameLower, "readme") || a.nameLower in SpecialFiles then SpecialName
    else if a.size > LargeFileThresholdBytes && a.ext == [] && IsTpmName(a.nameLower) then Tpm
    else if a.ext in HandlerMap then Mapped(HandlerMap[a.ext])
    else if IsLikelyBinary(a) then Binary
    else Generic
  }

  /**
   * `.gitignore` is listed as a special name, but a non-empty `.gitignore`
   * always takes the hidden-file route first; any name containing "readme"
   * goes to the code handler whatever its extension.
   */
  lemma {:induction false} RouteOrder(a: Analyzer)
    ensures a.size == 0 ==> RouteOf(a) == Empty
    ensures a.size > 0 && a.nameLower == ".gitignore" ==> RouteOf(a) == Hidden
    ensures a.size > 0 && !StartsWith(a.nameLower, ".") && Contains(a.nameLower, "readme") ==> RouteOf(a) == SpecialName
    ensures a.size > 0 && a.nameLower == "requirements.txt" ==> RouteOf(a) == SpecialName
    ensures RouteOf(a) == Tpm ==> a.ext == [] && a.size > LargeFileThresholdBytes && IsTpmName(a.nameLower)
    ensures RouteOf(a).Mapped? ==> a.ext in HandlerMap && RouteOf(a).handler == HandlerMap[a.ext]
    ensures RouteOf(a) == Binary || RouteOf(a) == Generic ==> a.ext !in HandlerMap
    ensures RouteOf(a) == Generic ==> !IsLikelyBinary(a) && a.file.readError.None?
  {
    assert StartsWith(".gitignore", ".");
    assert "requirements.txt"[0] == 'r';
    if a.size > 0 && a.nameLower == "requirements.txt" {
      assert a.nameLower in SpecialFiles;
    }
  }

  /** A large extensionless "_tpm" file takes the TPM route before any extension lookup. */
  lemma {:induction false} LargeTpmRoute(a: Analyzer)
    requires a.size > LargeFileThresholdBytes && a.ext == []
    requires !StartsWith(a.nameLower, ".") && !Contains(a.nameLower, "readme") && a.nameLower !in SpecialFiles
    ensures RouteOf(a) == Tpm <==> (|a.nameLower| >= 4 && a.nameLower[|a.nameLower| - 4] in NameSeparators
                                     && a.nameLower[|a.nameLower| - 3..] == "tpm")
  {
    TpmNameIff(a.nameLower);
  }

  /** The handler the map names, applied; library-backed handlers are delegated. */
  function RunHandler(h: Handler, a: Analyzer, libs: Libraries): Result<Summary> {
    match h
    case JsonH => SummarizeJson(a, libs.codec)
    case TabularH => Ok(SummarizeTabular(a, libs.pandas))
    case GeneAnnotationH => Ok(SummarizeGeneAnnotation(a))
    case OpaqueH => Ok(SummarizeOpaque(a))
    case RecordBasedH => Ok(SummarizeRecordBasedData(a))
    case SequenceH => Ok(SummarizeSequenceFile(a))
    case LogH => Ok(SummarizeLogFile(a))
    case JsonlH => Ok(SummarizeJsonl(a, libs.codec))
    case ArchiveH => Ok(SummarizeArchive(a, libs.zip, libs.tar))
    case _ => Ok(Delegated(h))
  }

  /** The summary a route produces before the structured-text upgrade. */
  function RunRoute(route: Route, a: Analyzer, libs: Libraries): Result<Summary> {
    match route
    case Empty => Ok(SummarizeEmpty(a))
    case Hidden => Ok(SummarizeHidden(a))
    case SpecialName => Ok(Delegated(CodeH))
    case Tpm => Ok(SummarizeTpm(a))
    case Mapped(h) => RunHandler(h, a, libs)
    case Binary => Ok(SummarizeOpaque(a))
    case Generic => AnalyzeGenericText(a)
  }

  /**
   * The upgrade of the internal structured-text marker: the file is read as
   * structured text, and when that raises its ValueError the file is
   * summarised as unrecognized text. Any other summary is kept.
   */
  function Upgrade(a: Analyzer, pandas: Pandas, s: Result<Summary>): Result<Summary> {
    if s == Ok(StructuredInternal) then
      match SummarizeStructuredText(a, pandas, true)
      case Ok(t) => Ok(t)
      case Err(_) => SummarizeUnrecognizedText(a)
    else s
  }

  /** `analyze` as written: only the generic-text route upgrades the marker. */
  function SummarizeAsWritten(a: Analyzer, libs: Libraries): Result<Summary> {
    var route := RouteOf(a);
    var s := RunRoute(route, a, libs);
    if route == Generic then Upgrade(a, libs.pandas, s) else s
  }

  /**
   * The JSON handler falls back to the generic sniff, which can return the
   * internal marker; `analyze` does not upgrade it on that route, so a
   * readable `.json` file that is not JSON but looks like a table comes
   * back as the internal marker.
   */
  lemma {:induction false} JsonFallbackLeaksMarker(a: Analyzer, libs: Libraries)
    requires RouteOf(a) == Mapped(JsonH) && a.file.readError.None? && Document(a, libs.codec).None?
    requires LooksStructured(ColumnCounts(Filtered(FirstStripped(LinesOf(a), TextAnalysisSampleLines))))
    ensures SummarizeAsWritten(a, libs) == Ok(StructuredInternal)
  {
    JsonOutcomes(a, libs.codec);
    GenericTextOutcomes(a);
  }

  /** A JSON decoder that rejects every document. */
  function RejectingCodec(): JsonValue.Codec {
    JsonValue.Codec(s => Err("Expecting value"), j => "", j => "")
  }

  /** "a b\nc d": two lines of two fields each. */
  const TwoByTwo: seq<Byte> := [97, 32, 98, 10, 99, 32, 100]

  /** A readable file "data.json" holding "a b\nc d", which is not JSON. */
  function LeakingFile(): Analyzer {
    Analyzer("data.json", |TwoByTwo|, ".json", "data.json", FileData(TwoByTwo, None))
  }

  /**
   * Any readable `.json` file that is not JSON and whose text is two lines
   * of two fields each comes back as the internal marker.
   */
  lemma {:induction false} LeakOnTwoPairs(a: Analyzer, libs: Libraries, x: char, y: char, z: char, w: char)
    requires RouteOf(a) == Mapped(JsonH) && a.file.readError.None? && Document(a, libs.codec).None?
    requires Analysis.TextOf(a.file.bytes) == [x, ' ', y, '\n', z, ' ', w]
    requires LetterPair(x, y) && LetterPair(z, w)
    ensures SummarizeAsWritten(a, libs) == Ok(StructuredInternal)
  {
    TwoPairsLines(a, x, y, z, w);
    TwoPairsLookStructured(x, y, z, w);
    JsonFallbackLeaksMarker(a, libs);
  }

  /** Two lines of two fields each, a newline after the first, pass the sniff for structured text. */
  lemma {:induction false} TwoPairsLookStructured(x: char, y: char, z: char, w: char)
    requires LetterPair(x, y) && LetterPair(z, w)
    ensures LooksStructured(ColumnCounts(Filtered(FirstStripped([[x, ' ', y, '\n'], [z, ' ', w]], TextAnalysisSampleLines))))
  {
    TwoPairsCounts(x, y, z, w);
    ConstantColumnsLookStructured(ColumnCounts([[x, ' ', y], [z, ' ', w]]), 2);
    TwoPairsKept(x, y, z, w);
  }

  lemma {:induction false} TwoPairsKept(x: char, y: char, z: char, w: char)
    requires LetterPair(x, y) && LetterPair(z, w)
    ensures Filtered(FirstStripped([[x, ' ', y, '\n'], [z, ' ', w]], TextAnalysisSampleLines)) == [[x, ' ', y], [z, ' ', w]]
  {
    LetterIsPlain(x);
    LetterIsPlain(y);
    LetterIsPlain(z);
    LetterIsPlain(w);
    PairStrips(x, y);
    PairStrips(z, w);
    PairKept(x, y);
    PairKept(z, w);
    FilteredFirstTwo([x, ' ', y, '\n'], [z, ' ', w], TextAnalysisSampleLines);
  }

  lemma {:induction false} TwoPairsCounts(x: char, y: char, z: char, w: char)
    requires LetterPair(x, y) && LetterPair(z, w)
    ensures ColumnCounts([[x, ' ', y], [z, ' ', w]]) == [2, 2]
  {
    LetterIsPlain(x);
    LetterIsPlain(y);
    LetterIsPlain(z);
    LetterIsPlain(w);
    PairSplits(x, y);
    PairSplits(z, w);
    ColumnCountsTwo([x, ' ', y], [z, ' ', w]);
  }

  /** The leak happens: the file "data.json" holding "a b\nc d" is summarised as the internal marker. */
  lemma {:induction false} LeakWitness(pandas: Pandas, zip: Probe, tar: Probe)
    ensures SummarizeAsWritten(LeakingFile(), Libraries(pandas, RejectingCodec(), zip, tar)) == Ok(StructuredInternal)
  {
    var libs := Libraries(pandas, RejectingCodec(), zip, tar);
    WitnessPremises(libs);
    LeakOnTwoPairs(LeakingFile(), libs, 'a', 'b', 'c', 'd');
  }

  /** "data.json" meets every premise of the leak. */
  lemma {:induction false} WitnessPremises(libs: Libraries)
    requires libs.codec == RejectingCodec()
    ensures var a := LeakingFile();
      RouteOf(a) == Mapped(JsonH) && a.file.readError.None? && Document(a, libs.codec).None?
      && Analysis.TextOf(a.file.bytes) == ['a', ' ', 'b', '\n', 'c', ' ', 'd']
  {
    WitnessRoute();
    WitnessDocument();
    WitnessFileText();
  }

  /** "data.json" is neither hidden nor special, and its extension maps to the JSON handler. */
  lemma {:induction false} WitnessRoute()
    ensures RouteOf(LeakingFile()) == Mapped(JsonH)
  {
    var a := LeakingFile();
    assert a.nameLower[0] == 'd';
    assert !StartsWith(a.nameLower, ".");
    NoneOfFirstChar("data.json", "readme");
    assert a.nameLower !in SpecialFiles;
    HandlerMapText();
  }

  /** A decoder that rejects everything finds no document in any file. */
  lemma {:induction false} WitnessDocument()
    ensures Document(LeakingFile(), RejectingCodec()).None?
  {
  }

  /** Bytes below 0x80 decode one character each. */
  lemma {:induction false} AsciiDecodes(bs: seq<Byte>)
    requires forall i :: 0 <= i < |bs| ==> bs[i] < 0x80
    ensures |DecodeIgnore(bs)| == |bs|
    ensures forall i :: 0 <= i < |bs| ==> DecodeIgnore(bs)[i] == bs[i] as int as char
    decreases |bs|
  {
    if |bs| > 0 {
      AsciiDecodes(bs[1..]);
      assert UnitAt(bs) == Scalar(bs[0] as int as char, 1);
    }
  }

  lemma {:induction false} WitnessDecode()
    ensures DecodeIgnore(TwoByTwo) == "a b\nc d"
  {
    AsciiDecodes(TwoByTwo);
  }

  lemma {:induction false} WitnessFileText()
    ensures Analysis.TextOf(LeakingFile().file.bytes) == ['a', ' ', 'b', '\n', 'c', ' ', 'd']
  {
    WitnessText();
  }

  lemma {:induction false} WitnessText()
    ensures Analysis.TextOf(TwoByTwo) == "a b\nc d"
  {
    WitnessDecode();
    NoCarriageReturnUnchanged("a b\nc d");
  }

  /** The text of two lines of two fields reads as those two lines. */
  lemma {:induction false} TwoPairsLines(a: Analyzer, x: char, y: char, z: char, w: char)
    requires Analysis.TextOf(a.file.bytes) == [x, ' ', y, '\n', z, ' ', w]
    requires LetterPair(x, y) && LetterPair(z, w)
    ensures LinesOf(a) == [[x, ' ', y, '\n'], [z, ' ', w]]
  {
    assert [x, ' ', y, '\n', z, ' ', w] == [x, ' ', y] + "\n" + [z, ' ', w];
    FileLinesTwo([x, ' ', y], [z, ' ', w]);
    assert [x, ' ', y] + "\n" == [x, ' ', y, '\n'];
  }

  /** Two newline-free lines joined by a newline read back as those lines, the first keeping its newline. */
  lemma {:induction false} FileLinesTwo(u: string, v: string)
    requires |v| > 0
    requires forall i :: 0 <= i < |u| ==> u[i] != '\n'
    requires forall i :: 0 <= i < |v| ==> v[i] != '\n'
    ensures FileLines(u + "\n" + v) == [u + "\n", v]
  {
    var s := u + "\n" + v;
    assert s[|u|] == '\n';
    assert FindChar(s, '\n') == |u|;
    assert s[..|u| + 1] == u + "\n";
    assert s[|u| + 1..] == v;
    assert FindChar(v, '\n') == -1;
  }

  /** Two lower-case letters: neither is a space, and neither starts a comment or a rule. */
  predicate LetterPair(x: char, y: char) {
    'a' <= x <= 'z' && 'a' <= y <= 'z'
  }

  /** A lower-case letter is not a space and starts neither a comment nor a rule. */
  lemma {:induction false} LetterIsPlain(c: char)
    requires 'a' <= c <= 'z'
    ensures !IsSpace(c) && c != '#' && c != '!' && c != '/' && c != '-' && c != '_' && c != '=' && c != '*'
  {
  }

  /** A run of two non-space characters around one space strips to itself, with or without a newline after it. */
  lemma {:induction false} PairStrips(x: char, y: char)
    requires !IsSpace(x) && !IsSpace(y)
    ensures Strip([x, ' ', y]) == [x, ' ', y]
    ensures Strip([x, ' ', y, '\n']) == [x, ' ', y]
  {
    assert LStrip([x, ' ', y]) == [x, ' ', y];
    assert LStrip([x, ' ', y, '\n']) == [x, ' ', y, '\n'];
    assert [x, ' ', y, '\n'][..3] == [x, ' ', y];
    assert RStrip([x, ' ', y, '\n']) == RStrip([x, ' ', y]);
  }

  /** Two fields split at the one space between them. */
  lemma {:induction false} PairSplits(x: char, y: char)
    requires !IsSpace(x) && !IsSpace(y)
    ensures SplitWhitespace([x, ' ', y]) == [[x], [y]]
  {
    var t := [x, ' ', y];
    assert LStrip(t) == t;
    assert IndexOfSpace(t) == 1;
    assert t[..1] == [x] && t[1..] == [' ', y];
    assert LStrip([' ', y]) == [y] by {
      assert [' ', y][1..] == [y];
    }
    assert IndexOfSpace([y]) == 1;
    assert [y][..1] == [y] && [y][1..] == [];
    assert SplitWhitespace([y][1..]) == [];
    assert SplitWhitespace([' ', y]) == [[y]];
  }

  lemma {:induction false} PairNoComment(x: char, y: char)
    requires x != '#' && x != '!' && x != '/'
    ensures !StartsWithAny([x, ' ', y], CommentPrefixes)
  {
    var s := [x, ' ', y];
    assert s[..1] == [x] && s[..2] == [x, ' '];
  }

  lemma {:induction false} PairNotRule(x: char, y: char)
    requires x != '#' && x != '-' && x != '_' && x != '=' && x != '*'
    ensures !Decorative([x, ' ', y])
  {
    var s := [x, ' ', y];
    assert s[0] !in "-_=#*";
  }

  /** Such a line survives the filter when it does not start like a comment or a rule. */
  lemma {:induction false} PairKept(x: char, y: char)
    requires LetterPair(x, y)
    ensures Kept([x, ' ', y])
  {
    LetterIsPlain(x);
    LetterIsPlain(y);
    PairStrips(x, y);
    PairNoComment(x, y);
    PairNotRule(x, y);
  }

  /** Two lines that survive the filter and are already stripped pass through it unchanged. */
  lemma {:induction false} FilteredTwoKept(u: string, v: string)
    requires Kept(u) && Kept(v) && Strip(u) == u && Strip(v) == v
    ensures Filtered([u, v]) == [u, v]
  {
    assert [u, v][..1] == [u];
    assert [u][..0] == [];
    assert Filtered([u]) == [u];
  }

  /** The first `n` stripped lines of a two-line file: its two lines stripped, then blanks. */
  lemma {:induction false} FirstStrippedTwo(l1: string, l2: string, n: nat)
    requires n >= 2
    ensures var fs := FirstStripped([l1, l2], n);
      |fs| == n && fs[..2] == [Strip(l1), Strip(l2)] && forall i :: 2 <= i < n ==> fs[i] == ""
  {
    var fs := FirstStripped([l1, l2], n);
    assert fs[0] == Strip(l1);
    assert fs[1] == Strip(l2);
  }

  /** Two kept lines, padded with blanks, filter to their stripped forms. */
  lemma {:induction false} FilteredFirstTwo(l1: string, l2: string, n: nat)
    requires n >= 2 && Kept(Strip(l1)) && Kept(Strip(l2)) && Strip(Strip(l1)) == Strip(l1) && Strip(Strip(l2)) == Strip(l2)
    ensures Filtered(FirstStripped([l1, l2], n)) == [Strip(l1), Strip(l2)]
  {
    var fs := FirstStripped([l1, l2], n);
    FirstStrippedTwo(l1, l2, n);
    assert fs == fs[..2] + fs[2..];
    BlanksFiltered(fs[2..]);
    FilteredAppend(fs[..2], fs[2..]);
    FilteredTwoKept(Strip(l1), Strip(l2));
  }

  /** Blank lines do not survive the filter. */
  lemma {:induction false} BlanksFiltered(xs: seq<string>)
    requires forall i :: 0 <= i < |xs| ==> xs[i] == ""
    ensures Filtered(xs) == []
  {
    if |xs| > 0 {
      BlanksFiltered(xs[..|xs| - 1]);
    }
  }

  /** The column counts of two lines, one per line. */
  lemma {:induction false} ColumnCountsTwo(u: string, v: string)
    ensures ColumnCounts([u, v]) == [|SplitWhitespace(u)|, |SplitWhitespace(v)|]
  {
    var c := ColumnCounts([u, v]);
    assert |c| == 2;
    assert c[0] == |SplitWhitespace(u)|;
    assert c[1] == |SplitWhitespace(v)|;
  }

  /** `analyze` as the marker evidently means it: the upgrade applies to every route's summary. */
  function SummarizeIntended(a: Analyzer, libs: Libraries): Result<Summary> {
    Upgrade(a, libs.pandas, RunRoute(RouteOf(a), a, libs))
  }

  /**
   * With the upgrade on every route the internal marker never leaves
   * `analyze`, and the summary differs from the one as written only where
   * that one is the marker.
   */
  lemma {:induction false} SummarizeNeverInternal(a: Analyzer, libs: Libraries)
    ensures SummarizeIntended(a, libs) != Ok(StructuredInternal)
    ensures SummarizeAsWritten(a, libs) != Ok(StructuredInternal) ==> SummarizeIntended(a, libs) == SummarizeAsWritten(a, libs)
  {
    var s := RunRoute(RouteOf(a), a, libs);
    if s == Ok(StructuredInternal) {
      var t := SummarizeStructuredText(a, libs.pandas, true);
      if t.Err? {
        UnrecognizedNotInternal(a);
      }
    }
  }

  lemma {:induction false} UnrecognizedNotInternal(a: Analyzer)
    ensures SummarizeUnrecognizedText(a) != Ok(StructuredInternal)
  {
  }

  /**
   * `analyze` as written never raises: the only handler that can raise is
   * the unrecognized-text summary of an unreadable file, and an unreadable
   * non-empty file is binary before it can reach it. The internal marker
   * escapes only through the JSON handler's route.
   */
  lemma {:induction false} SummarizeNeverRaises(a: Analyzer, libs: Libraries)
    ensures SummarizeAsWritten(a, libs).Ok?
    ensures SummarizeAsWritten(a, libs) == Ok(StructuredInternal) ==> RouteOf(a) == Mapped(JsonH)
  {
    RouteNeverRaises(a, libs);
    var s := RunRoute(RouteOf(a), a, libs);
    if RouteOf(a) == Generic {
      SummarizeNeverInternal(a, libs);
      if s == Ok(StructuredInternal) {
        assert SummarizeUnrecognizedText(a).Ok?;
      }
    }
  }

  /** The corrected `analyze` never raises either. */
  lemma {:induction false} IntendedNeverRaises(a: Analyzer, libs: Libraries)
    ensures SummarizeIntended(a, libs).Ok?
  {
    RouteNeverRaises(a, libs);
    var s := RunRoute(RouteOf(a), a, libs);
    if s == Ok(StructuredInternal) {
      assert SummarizeUnrecognizedText(a).Ok?;
    }
  }

  /**
   * Every route gives a summary; the internal marker comes only from a
   * readable file, through the JSON handler or the generic sniff.
   */
  lemma {:induction false} RouteNeverRaises(a: Analyzer, libs: Libraries)
    ensures RunRoute(RouteOf(a), a, libs).Ok?
    ensures RunRoute(RouteOf(a), a, libs) == Ok(StructuredInternal) ==>
      a.file.readError.None? && (RouteOf(a) == Mapped(JsonH) || RouteOf(a) == Generic)
  {
    RouteOrder(a);
    match RouteOf(a)
    case Mapped(h) => HandlerNeverRaises(h, a, libs);
    case Generic => GenericTextOutcomes(a);
    case _ =>
  }

  /** Every handler gives a summary; only the JSON handler's fallback can give the marker, and only for a readable file. */
  lemma {:induction false} HandlerNeverRaises(h: Handler, a: Analyzer, libs: Libraries)
    ensures RunHandler(h, a, libs).Ok?
    ensures RunHandler(h, a, libs) == Ok(StructuredInternal) ==> h == JsonH && a.file.readError.None?
  {
    if h == JsonH {
      JsonOutcomes(a, libs.codec);
    }
  }

  /** The result dict: the base information, then the summary's keys. */
  datatype Report = Report(fileName: string, fileSizeBytes: nat, summary: Summary)

  /**
   * `FileAnalyzer(path).analyze()` as written: a missing path raises;
   * otherwise the report names the file by its base name, gives its size,
   * and carries the summary of `SummarizeAsWritten`.
   */
  function Analyze(disk: map<string, FileData>, path: string, libs: Libraries): (r: Result<Report>)
    ensures r.Err? <==> path !in disk
  {
    match NewAnalyzer(disk, path)
    case Err(e) => Err(e)
    case Ok(a) =>
      SummarizeNeverRaises(a, libs);
      Ok(Report(Basename(path), a.size, SummarizeAsWritten(a, libs).value))
  }

  /**
   * The report of an existing file is its base name, its size and the
   * summary of its route; it is the internal marker only for a file the
   * JSON handler received, and the empty-file summary for an empty file.
   */
  lemma {:induction false} AnalyzeReport(disk: map<string, FileData>, path: string, libs: Libraries)
    requires path in disk
    ensures var r := Analyze(disk, path, libs).value;
      var a := NewAnalyzer(disk, path).value;
      r.fileName == Basename(path) && r.fileSizeBytes == |disk[path].bytes|
      && Ok(r.summary) == SummarizeAsWritten(a, libs)
      && (r.summary == StructuredInternal ==> RouteOf(a) == Mapped(JsonH))
      && (|disk[path].bytes| == 0 ==> r.summary.EmptyFile?)
  {
    var a := NewAnalyzer(disk, path).value;
    SummaryFacts(a, libs);
  }

  /**
   * Every analyzer's summary as written exists, is the internal marker only on
   * the JSON handler's route, and is the empty-file one for an empty file.
   */
  lemma {:induction false} SummaryFacts(a: Analyzer, libs: Libraries)
    ensures SummarizeAsWritten(a, libs).Ok?
    ensures SummarizeAsWritten(a, libs).value == StructuredInternal ==> RouteOf(a) == Mapped(JsonH)
    ensures a.size == 0 ==> SummarizeAsWritten(a, libs).value.EmptyFile?
  {
    SummarizeNeverRaises(a, libs);
  }

  /** `analyze` with the marker upgraded on every route. */
  function AnalyzeIntended(disk: map<string, FileData>, path: string, libs: Libraries): (r: Result<Report>)
    ensures r.Err? <==> path !in disk
  {
    match NewAnalyzer(disk, path)
    case Err(e) => Err(e)
    case Ok(a) =>
      IntendedNeverRaises(a, libs);
      Ok(Report(Basename(path), a.size, SummarizeIntended(a, libs).value))
  }

  /**
   * The corrected report is never the internal marker, agrees with the
   * report as written wherever that one is not the marker, and is the
   * empty-file summary for an empty file.
   */
  lemma {:induction false} AnalyzeIntendedReport(disk: map<string, FileData>, path: string, libs: Libraries)
    requires path in disk
    ensures var r := AnalyzeIntended(disk, path, libs).value;
      var w := Analyze(disk, path, libs).value;
      r.fileName == w.fileName && r.fileSizeBytes == w.fileSizeBytes
      && r.summary != StructuredInternal
      && (w.summary != StructuredInternal ==> r == w)
      && (|disk[path].bytes| == 0 ==> r.summary.EmptyFile?)
  {
    var a := NewAnalyzer(disk, path).value;
    SummaryFacts(a, libs);
    IntendedNeverRaises(a, libs);
    SummarizeNeverInternal(a, libs);
  }
}
