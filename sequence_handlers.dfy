/**
 * The handlers for record-based chemistry and structure files, FASTA/FASTQ
 * sequence files and GTF/GFF gene annotations.
 */
module SequenceHandlers {
  import opened Wrappers
  import opened Text
  import opened Analysis
  import opened Counting

  /** The protein and small-molecule structure formats whose content is omitted. */
  const StructureExtensions: set<string> := {".sdf", ".pdb", ".cif", ".mol2", ".gro", ".mmcif", ".pdbqt", ".ent"}

  /** The delimiter used when the extension has no entry in the delimiter table. */
  const DefaultDelimiter := "$$$$"

  const SampleRecords := 2
  const MaxHeaders := 20
  const MaxComments := 20
  const MaxDataSample := 5
  const MaxFeatures := 20

  /** The delimiter table: `$$$$` ends an SDF molecule, `ENDMDL` a PDB model. */
  function KnownDelimiter(ext: string): Option<string> {
    if ext == ".sdf" then Some("$$$$") else if ext == ".pdb" then Some("ENDMDL") else None
  }

  /** The strings whose strip is not empty, in order. */
  function NonBlank(xs: seq<string>): (r: seq<string>)
    ensures |r| <= |xs|
  {
    if |xs| == 0 then []
    else NonBlank(xs[..|xs| - 1]) + (if Strip(xs[|xs| - 1]) != [] then [xs[|xs| - 1]] else [])
  }

  /** The non-blank strings are exactly the members that do not strip to nothing. */
  lemma {:induction false} NonBlankMembers(xs: seq<string>)
    ensures forall x :: x in NonBlank(xs) <==> x in xs && Strip(x) != []
  {
    if |xs| > 0 {
      NonBlankMembers(xs[..|xs| - 1]);
      assert xs == xs[..|xs| - 1] + [xs[|xs| - 1]];
    }
  }

  /** `[r for r in content.split(delimiter) if r.strip()]`. */
  function Records(content: string, delimiter: string): seq<string>
    requires |delimiter| > 0
  {
    NonBlank(Split(content, delimiter))
  }

  /**
   * The records are the non-blank pieces between delimiters: joining all the
   * pieces with the delimiter gives back the content, there are at most one
   * more records than delimiters, and a record is a non-blank piece.
   */
  lemma {:induction false} RecordsFacts(content: string, delimiter: string)
    requires |delimiter| > 0
    ensures Join(delimiter, Split(content, delimiter)) == content
    ensures |Records(content, delimiter)| <= Count(content, delimiter) + 1
    ensures forall r :: r in Records(content, delimiter) <==> r in Split(content, delimiter) && Strip(r) != []
  {
    SplitJoin(content, delimiter);
    SplitCount(content, delimiter);
    NonBlankMembers(Split(content, delimiter));
  }

  /** A line where the multiline pattern `^data_|^_atom_site` matches. */
  predicate IsCifSectionLine(line: string) {
    StartsWith(line, "data_") || StartsWith(line, "_atom_site")
  }

  /**
   * The number of matches of `^data_|^_atom_site` under `re.MULTILINE`: every
   * match sits at the start of a '\n'-separated line and holds no '\n', so
   * there is one per line that starts with either word.
   */
  function CifSections(lines: seq<string>): (n: nat)
    ensures n <= |lines|
  {
    if |lines| == 0 then 0
    else CifSections(lines[..|lines| - 1]) + (if IsCifSectionLine(lines[|lines| - 1]) then 1 else 0)
  }

  /** The record count of a structure file: by delimiter, by mmCIF section lines, or by non-blank lines. */
  function StructureRecordCount(ext: string, content: string): nat {
    match KnownDelimiter(ext)
    case Some(d) => |Records(content, d)|
    case None =>
      if ext == ".cif" then CifSections(Split(content, "\n"))
      else |NonBlank(SplitLines(content))|
  }

  /** The first two records joined by the delimiter, and a marker when there are more. */
  function RecordSampleText(records: seq<string>, delimiter: string): string {
    Join(delimiter, Take(records, SampleRecords)) + (if |records| > SampleRecords then "\n" + delimiter + " ...and more" else "")
  }

  /**
   * `summarize_record_based_data`: structure files report a record count and
   * omit their content; other record files also carry a sample of the first
   * two records. A file that cannot be read gives an error summary.
   */
  function SummarizeRecordBasedData(a: Analyzer): (r: Summary)
    ensures a.file.readError.Some? <==> r.Failure?
    ensures a.file.readError.None? && a.ext in StructureExtensions ==> r.RecordCount?
    ensures a.file.readError.None? && a.ext !in StructureExtensions ==> r.RecordSample?
  {
    match a.file.readError
    case Some(e) => Failure(e)
    case None =>
      var content := TextOf(a.file.bytes);
      if a.ext in StructureExtensions then
        RecordCount(FormatOf(a.ext), StructureRecordCount(a.ext, content), KnownDelimiter(a.ext).GetOr("N/A"))
      else
        var delimiter := KnownDelimiter(a.ext).GetOr(DefaultDelimiter);
        var records := Records(content, delimiter);
        RecordSample(FormatOf(a.ext), |records|, delimiter, RecordSampleText(records, delimiter))
  }

  /**
   * SDF and PDB files count the non-blank pieces between their delimiters and
   * report the delimiter; mmCIF counts section lines; the other structure
   * formats count non-blank lines and report "N/A".
   */
  lemma {:induction false} StructureOutcomes(a: Analyzer)
    requires a.file.readError.None? && a.ext in StructureExtensions
    ensures var content := TextOf(a.file.bytes);
      var r := SummarizeRecordBasedData(a);
      r.format == FormatOf(a.ext)
      && (a.ext == ".sdf" ==> r.count == |Records(content, "$$$$")| && r.delimiter == "$$$$")
      && (a.ext == ".pdb" ==> r.count == |Records(content, "ENDMDL")| && r.delimiter == "ENDMDL")
      && (a.ext == ".cif" ==> r.count == CifSections(Split(content, "\n")) && r.delimiter == "N/A")
      && (a.ext != ".sdf" && a.ext != ".pdb" && a.ext != ".cif" ==>
            r.count == |NonBlank(SplitLines(content))| && r.delimiter == "N/A")
  {
  }

  /**
   * Every other record file is split on `$$$$`, since both entries of the
   * delimiter table belong to structure formats; the sample is the first two
   * records, followed by the marker exactly when there are more than two.
   */
  lemma {:induction false} OtherRecordFiles(a: Analyzer)
    requires a.file.readError.None? && a.ext !in StructureExtensions
    ensures var records := Records(TextOf(a.file.bytes), "$$$$");
      var r := SummarizeRecordBasedData(a);
      r.delimiter == "$$$$" && r.count == |records|
      && (|records| <= SampleRecords ==> r.sample == Join("$$$$", records))
      && (|records| > SampleRecords ==>
            r.sample == records[0] + "$$$$" + records[1] + "\n" + "$$$$" + " ...and more")
  {
    assert ".sdf" in StructureExtensions && ".pdb" in StructureExtensions;
    assert KnownDelimiter(a.ext) == None;
    SampleTextFacts(Records(TextOf(a.file.bytes), "$$$$"), "$$$$");
  }

  /** Up to two records are joined whole; beyond two, the first two are followed by the marker. */
  lemma {:induction false} SampleTextFacts(records: seq<string>, d: string)
    ensures |records| <= SampleRecords ==> RecordSampleText(records, d) == Join(d, records)
    ensures |records| > SampleRecords ==>
      RecordSampleText(records, d) == records[0] + d + records[1] + "\n" + d + " ...and more"
  {
    if |records| > SampleRecords {
      assert Take(records, SampleRecords) == [records[0]] + [records[1]];
      JoinCons(d, records[0], [records[1]]);
    }
  }

  /** The source's `line.startswith('>') or (ext == '.fastq' and line.startswith('@'))`. */
  predicate IsHeader(line: string, ext: string) {
    StartsWith(line, ">") || (ext == ".fastq" && StartsWith(line, "@"))
  }

  /** The stripped header lines, in order. */
  function HeaderLines(lines: seq<string>, ext: string): (r: seq<string>)
    ensures |r| <= |lines|
  {
    if |lines| == 0 then []
    else HeaderLines(lines[..|lines| - 1], ext) + (if IsHeader(lines[|lines| - 1], ext) then [Strip(lines[|lines| - 1])] else [])
  }

  /** The loop of `summarize_sequence_file`: the first 20 header lines, stripped. */
  method CollectHeaders(lines: seq<string>, ext: string) returns (headers: seq<string>)
    ensures headers == Take(HeaderLines(lines, ext), MaxHeaders)
  {
    headers := [];
    for i := 0 to |lines|
      invariant headers == Take(HeaderLines(lines[..i], ext), MaxHeaders)
    {
      var line := lines[i];
      assert lines[..i + 1][..i] == lines[..i];
      TakeSnoc(HeaderLines(lines[..i], ext), Strip(line), MaxHeaders);
      if IsHeader(line, ext) {
        if |headers| < MaxHeaders {
          headers := headers + [Strip(line)];
        }
      }
    }
    assert lines[..|lines|] == lines;
  }

  /** The lines of the first 1 MiB (in characters) of the file as text. */
  function SampleLines(a: Analyzer): seq<string> {
    SplitLines(Take(TextOf(a.file.bytes), MaxFastaSampleBytes))
  }

  /**
   * `summarize_sequence_file`: the first 20 headers of the sample, or, when
   * the sample has none, the number of its non-blank lines. A file that
   * cannot be read gives an error summary.
   */
  function SummarizeSequenceFile(a: Analyzer): (r: Summary)
    ensures a.file.readError.Some? <==> r.Failure?
    ensures r.SequenceHeaders? ==> 0 < |r.headers| <= MaxHeaders
  {
    match a.file.readError
    case Some(e) => Failure(e)
    case None =>
      var lines := SampleLines(a);
      var headers := Take(HeaderLines(lines, a.ext), MaxHeaders);
      if |headers| == 0 then SequenceLines(FormatOf(a.ext), |NonBlank(lines)|)
      else SequenceHeaders(FormatOf(a.ext), headers)
  }

  /** Every header line strips to a string that starts with '>', or with '@' in a `.fastq` file. */
  lemma {:induction false} HeadersStart(lines: seq<string>, ext: string)
    ensures forall h :: h in HeaderLines(lines, ext) ==> StartsWith(h, ">") || (ext == ".fastq" && StartsWith(h, "@"))
  {
    if |lines| > 0 {
      var line := lines[|lines| - 1];
      HeadersStart(lines[..|lines| - 1], ext);
      if StartsWith(line, ">") {
        StripKeepsPrefix(line, ">");
      } else if ext == ".fastq" && StartsWith(line, "@") {
        StripKeepsPrefix(line, "@");
      }
    }
  }

  /**
   * The readable file's summary lists the first 20 header lines of its
   * sample, each beginning with its marker, or counts the non-blank lines
   * when there is no header. Only a `.fastq` file has '@' headers: a `.fq`
   * file's '@' lines are not headers.
   */
  lemma {:induction false} SequenceOutcomes(a: Analyzer)
    requires a.file.readError.None?
    ensures var hs := HeaderLines(SampleLines(a), a.ext);
      var r := SummarizeSequenceFile(a);
      (|hs| == 0 ==> r == SequenceLines(FormatOf(a.ext), |NonBlank(SampleLines(a))|))
      && (|hs| > 0 ==> r.SequenceHeaders? && r.headers == Take(hs, MaxHeaders))
      && (r.SequenceHeaders? ==> forall h :: h in r.headers ==>
            StartsWith(h, ">") || (a.ext == ".fastq" && StartsWith(h, "@")))
  {
    var hs := HeaderLines(SampleLines(a), a.ext);
    HeadersStart(SampleLines(a), a.ext);
    assert forall h :: h in Take(hs, MaxHeaders) ==> h in hs;
  }

  /** The handler reads no further than the first 1 MiB of the text. */
  lemma {:induction false} SequenceSeesOnlySample(a: Analyzer, b: Analyzer)
    requires a.file.readError.None? && b.file.readError.None? && a.ext == b.ext
    requires Take(TextOf(a.file.bytes), MaxFastaSampleBytes) == Take(TextOf(b.file.bytes), MaxFastaSampleBytes)
    ensures SummarizeSequenceFile(a) == SummarizeSequenceFile(b)
  {
  }

  /** A `##` directive line. */
  predicate IsDirective(line: string) {
    StartsWith(line, "##")
  }

  /** A feature line: neither a comment nor blank. */
  predicate IsDataLine(line: string) {
    !StartsWith(line, "#") && Strip(line) != []
  }

  /** What the scan has seen: the stripped directives, the stripped feature lines, the feature types. */
  datatype Annotation = Annotation(directives: seq<string>, data: seq<string>, types: seq<string>)

  /**
   * One line of the scan: a directive is kept; another comment or a blank
   * line is skipped; a feature line is kept, and so is its third
   * tab-separated column when it has one.
   */
  function ScanStep(s: Annotation, line: string): Annotation {
    if IsDirective(line) then s.(directives := s.directives + [Strip(line)])
    else if StartsWith(line, "#") || Strip(line) == [] then s
    else
      var parts := Split(Strip(line), "\t");
      s.(data := s.data + [Strip(line)], types := if |parts| > 2 then s.types + [parts[2]] else s.types)
  }

  /** The scan of the lines, in order. */
  function ScanLines(lines: seq<string>): Annotation {
    if |lines| == 0 then Annotation([], [], [])
    else ScanStep(ScanLines(lines[..|lines| - 1]), lines[|lines| - 1])
  }

  /** The lines the scan looks at: the first 50,000. */
  function Window(lines: seq<string>): seq<string> {
    Take(lines, MaxGeneAnnotationSampleLines)
  }

  /**
   * The loop of `summarize_gene_annotation` over the first 50,000 lines: up
   * to 20 directives, up to 5 feature lines, and the count of every feature
   * type, in order of first occurrence.
   */
  method ScanAnnotation(lines: seq<string>) returns (comments: seq<string>, sample: seq<string>, counter: seq<(string, nat)>)
    ensures comments == Take(ScanLines(Window(lines)).directives, MaxComments)
    ensures sample == Take(ScanLines(Window(lines)).data, MaxDataSample)
    ensures counter == Tally(ScanLines(Window(lines)).types)
  {
    comments, sample, counter := [], [], [];
    ghost var seen := Annotation([], [], []);
    var i := 0;
    while i < |lines|
      invariant i <= |lines| && i <= MaxGeneAnnotationSampleLines
      invariant seen == ScanLines(lines[..i])
      invariant comments == Take(seen.directives, MaxComments)
      invariant sample == Take(seen.data, MaxDataSample)
      invariant counter == Tally(seen.types)
    {
      if i >= MaxGeneAnnotationSampleLines {
        break;
      }
      var line := lines[i];
      assert lines[..i + 1][..i] == lines[..i];
      if IsDirective(line) {
        TakeSnoc(seen.directives, Strip(line), MaxComments);
        if |comments| < MaxComments {
          comments := comments + [Strip(line)];
        }
      } else if StartsWith(line, "#") || Strip(line) == [] {
      } else {
        TakeSnoc(seen.data, Strip(line), MaxDataSample);
        if |sample| < MaxDataSample {
          sample := sample + [Strip(line)];
        }
        var parts := Split(Strip(line), "\t");
        if |parts| > 2 {
          TallySnoc(seen.types, parts[2]);
          counter := Bump(counter, parts[2]);
        }
      }
      seen := ScanStep(seen, line);
      i := i + 1;
    }
    WindowScanned(lines, i);
  }

  /** The scan stops at the end of the file or after the 50,000th line, having read the window. */
  lemma {:induction false} WindowScanned(lines: seq<string>, i: nat)
    requires i <= |lines| && i <= MaxGeneAnnotationSampleLines
    requires i == |lines| || i >= MaxGeneAnnotationSampleLines
    ensures lines[..i] == Window(lines)
  {
  }

  /**
   * `summarize_gene_annotation`: the directives, the 20 most common feature
   * types with their counts, and the first five feature lines, all from the
   * first 50,000 lines. A file that cannot be read gives an error summary.
   */
  function SummarizeGeneAnnotation(a: Analyzer): (r: Summary)
    ensures a.file.readError.Some? <==> r.Failure?
  {
    match a.file.readError
    case Some(e) => Failure(e)
    case None =>
      var scan := ScanLines(Window(FileLines(TextOf(a.file.bytes))));
      GeneAnnotation(
        FormatOf(a.ext),
        Take(scan.directives, MaxComments),
        MostCommonN(Tally(scan.types), MaxFeatures),
        Join("\n", Take(scan.data, MaxDataSample)))
  }

  /** Every directive the scan keeps starts with "##". */
  lemma {:induction false} ScanDirectives(lines: seq<string>)
    ensures forall c :: c in ScanLines(lines).directives ==> StartsWith(c, "##")
  {
    if |lines| > 0 {
      var line := lines[|lines| - 1];
      ScanDirectives(lines[..|lines| - 1]);
      if IsDirective(line) {
        StripKeepsPrefix(line, "##");
      }
    }
  }

  /** Every feature line the scan keeps is stripped and not blank. */
  lemma {:induction false} ScanData(lines: seq<string>)
    ensures forall d :: d in ScanLines(lines).data ==> Strip(d) == d && d != []
  {
    if |lines| > 0 {
      var line := lines[|lines| - 1];
      var before := ScanLines(lines[..|lines| - 1]);
      ScanData(lines[..|lines| - 1]);
      assert ScanLines(lines) == ScanStep(before, line);
      if !IsDirective(line) && !StartsWith(line, "#") && Strip(line) != [] {
        StripIdempotent(line);
        assert ScanLines(lines).data == before.data + [Strip(line)];
      }
    }
  }

  /**
   * There are no more feature types than feature lines, and no more
   * directives and feature lines together than lines.
   */
  lemma {:induction false} ScanSizes(lines: seq<string>)
    ensures |ScanLines(lines).types| <= |ScanLines(lines).data|
    ensures |ScanLines(lines).directives| + |ScanLines(lines).data| <= |lines|
  {
    if |lines| > 0 {
      ScanSizes(lines[..|lines| - 1]);
    }
  }

  /**
   * A readable annotation's summary keeps at most 20 directives, each
   * starting with "##"; at most 20 feature types, distinct, in descending
   * order of count, each with its number of occurrences among the first
   * 50,000 lines, and none left out that occurs more often than one kept;
   * and their counts add up to no more than the number of feature lines.
   */
  lemma {:induction false} GeneAnnotationFacts(a: Analyzer)
    requires a.file.readError.None?
    ensures var scan := ScanLines(Window(FileLines(TextOf(a.file.bytes))));
      var r := SummarizeGeneAnnotation(a);
      |r.comments| <= MaxComments
      && (forall c :: c in r.comments ==> StartsWith(c, "##"))
      && |r.features| <= MaxFeatures
      && CountsDescending(r.features)
      && (forall f :: f in r.features ==> f.1 == Occ(scan.types, f.0) > 0)
      && (forall f, i :: f in Tally(scan.types) && f !in r.features && 0 <= i < |r.features| ==> f.1 <= r.features[i].1)
      && Total(Tally(scan.types)) <= |scan.data|
  {
    var scan := ScanLines(Window(FileLines(TextOf(a.file.bytes))));
    ScanDirectives(Window(FileLines(TextOf(a.file.bytes))));
    ScanSizes(Window(FileLines(TextOf(a.file.bytes))));
    assert forall c :: c in Take(scan.directives, MaxComments) ==> c in scan.directives;
    TopFeatures(scan.types);
    TallyFacts(scan.types);
  }

  /**
   * The 20 most common types: distinct, in descending order of count, each
   * with its number of occurrences, and none left out that occurs more often
   * than one kept.
   */
  lemma {:induction false} TopFeatures(types: seq<string>)
    ensures var t := Tally(types);
      var top := MostCommonN(t, MaxFeatures);
      |top| <= MaxFeatures
      && CountsDescending(top)
      && (forall f :: f in top ==> f.1 == Occ(types, f.0) > 0)
      && (forall f, i :: f in t && f !in top && 0 <= i < |top| ==> f.1 <= top[i].1)
  {
    var t := Tally(types);
    TallyFacts(types);
    MostCommonNFacts(t, MaxFeatures);
    forall f | f in t
      ensures f.1 == Occ(types, f.0) > 0
    {
      var i :| 0 <= i < |t| && t[i] == f;
    }
  }

  /** Lines past the 50,000th do not change the summary. */
  lemma {:induction false} AnnotationSeesFirstLines(a: Analyzer, b: Analyzer)
    requires a.file.readError.None? && b.file.readError.None? && a.ext == b.ext
    requires Window(FileLines(TextOf(a.file.bytes))) == Window(FileLines(TextOf(b.file.bytes)))
    ensures SummarizeGeneAnnotation(a) == SummarizeGeneAnnotation(b)
  {
  }
}
