/**
 * The extension table of `FileAnalyzer`: the extension sets of its class
 * body and the handler map `__init__` builds from them.
 */
module HandlerTable {
  import opened Wrappers
  import opened Analysis
  import SequenceHandlers

  // ------------------------------------------------------------ extension sets

  const CodeExtensions: set<string> := {
    ".py", ".sh", ".md", ".yaml", ".yml", ".toml", ".gitmodules", ".html", ".xml", ".js", ".css", ".sql",
    ".tex", ".ini", ".cfg", ".conf", ".properties", ".env", ".rst", ".lock", ".svg", ".http", ".rest"}
  const TabularExtensions: set<string> := {".csv", ".tsv", ".vcf", ".bed", ".wig", ".maf"}
  const GeneAnnotationExtensions: set<string> := {".gff", ".gtf"}
  const NotebookExtensions: set<string> := {".ipynb"}
  const OpaqueExtensions: set<string> := {
    ".pkl", ".pickle", ".pt", ".pth", ".ckpt", ".bin", ".onnx", ".safetensors", ".h5", ".hdf5", ".fits",
    ".root", ".parquet", ".feather", ".doc", ".docx", ".ppt", ".pptx", ".xls", ".xlsx", ".odt", ".png",
    ".jpg", ".jpeg", ".gif", ".ico", ".bmp", ".mp3", ".mp4", ".mov", ".wav", ".ttf", ".otf", ".woff",
    ".woff2", ".eot", ".bam", ".cram", ".fast5", ".trj", ".xtc", ".dcd", ".joblib"}
  const PdfExtensions: set<string> := {".pdf"}
  const StructuredRecordExtensions: set<string> := {".sdf", ".pdb", ".cif", ".mol2", ".gro", ".mmcif", ".pdbqt", ".ent"}
  const SequenceExtensions: set<string> := {".fasta", ".fa", ".fna", ".faa", ".smi", ".fastq", ".fq", ".gb", ".gbk", ".seq", ".embl"}
  const LogExtensions: set<string> := {".log"}
  const JsonlExtensions: set<string> := {".jsonl", ".jsonlines"}
  const ArchiveExtensions: set<string> := {".zip", ".tar", ".gz", ".bz2", ".rar", ".7z", ".tgz"}
  const NumpyExtensions: set<string> := {".npz", ".npy"}
  const BioHdf5Extensions: set<string> := {".h5", ".hdf5"}

  // ------------------------------------------------------------ the handler map

  function Spread(exts: set<string>, h: Handler): (m: map<string, Handler>)
    ensures m.Keys == exts
    ensures forall e :: e in m ==> m[e] == h
  {
    map e | e in exts :: h
  }

  /** A dict display made of `**{ext: handler for ext in exts}` spreads, in order: later ones win. */
  function Display(spreads: seq<(set<string>, Handler)>): map<string, Handler> {
    if |spreads| == 0 then map[]
    else
      var last := spreads[|spreads| - 1];
      Display(spreads[..|spreads| - 1]) + Spread(last.0, last.1)
  }

  /** The handler of the last spread that lists `e`. */
  function LastListing(spreads: seq<(set<string>, Handler)>, e: string): Option<Handler> {
    if |spreads| == 0 then None
    else if e in spreads[|spreads| - 1].0 then Some(spreads[|spreads| - 1].1)
    else LastListing(spreads[..|spreads| - 1], e)
  }

  /** Every extension some spread lists. */
  function Listed(spreads: seq<(set<string>, Handler)>): set<string> {
    if |spreads| == 0 then {} else Listed(spreads[..|spreads| - 1]) + spreads[|spreads| - 1].0
  }

  /**
   * The display holds exactly the listed extensions and sends each to the
   * handler of the last spread listing it.
   */
  lemma {:induction false} DisplayLastWins(spreads: seq<(set<string>, Handler)>, e: string)
    ensures Display(spreads).Keys == Listed(spreads)
    ensures e in Display(spreads) <==> LastListing(spreads, e).Some?
    ensures e in Display(spreads) ==> Display(spreads)[e] == LastListing(spreads, e).value
  {
    if |spreads| > 0 {
      DisplayLastWins(spreads[..|spreads| - 1], e);
    }
  }

  /** The spread at `i` lists `e` and no later one does: its handler is the one `e` gets. */
  lemma {:induction false} LastListingIs(spreads: seq<(set<string>, Handler)>, i: nat, e: string)
    requires i < |spreads| && e in spreads[i].0
    requires forall j :: i < j < |spreads| ==> e !in spreads[j].0
    ensures LastListing(spreads, e) == Some(spreads[i].1)
  {
    if i < |spreads| - 1 {
      LastListingIs(spreads[..|spreads| - 1], i, e);
    }
  }

  /** The handler map sends `e` to the handler of spread `i` when that is the last to list it. */
  lemma {:induction false} RoutedBy(i: nat, e: string)
    requires i < |Spreads| && e in Spreads[i].0
    requires forall j :: i < j < |Spreads| ==> e !in Spreads[j].0
    ensures e in HandlerMap && HandlerMap[e] == Spreads[i].1
  {
    LastListingIs(Spreads, i, e);
    DisplayLastWins(Spreads, e);
  }

  /** The spreads of the handler map, in the order `__init__` writes them. */
  const Spreads: seq<(set<string>, Handler)> := [
    ({".json"}, JsonH),
    (CodeExtensions, CodeH),
    (TabularExtensions, TabularH),
    (GeneAnnotationExtensions, GeneAnnotationH),
    (NotebookExtensions, NotebookH),
    (OpaqueExtensions, OpaqueH),
    (PdfExtensions, PdfH),
    (StructuredRecordExtensions, RecordBasedH),
    (SequenceExtensions, SequenceH),
    (LogExtensions, LogH),
    (JsonlExtensions, JsonlH),
    (ArchiveExtensions, ArchiveH),
    (NumpyExtensions, NumpyH),
    (BioHdf5Extensions, Hdf5H)]

  /** `self.handler_map`. */
  const HandlerMap: map<string, Handler> := Display(Spreads)

  /** `.h5` and `.hdf5`, listed as opaque too, go to the HDF5 handler, as the last spread listing them. */
  lemma {:induction false} HandlerMapOverrides()
    ensures ".h5" in OpaqueExtensions && ".hdf5" in OpaqueExtensions
    ensures ".h5" in HandlerMap && HandlerMap[".h5"] == Hdf5H
    ensures ".hdf5" in HandlerMap && HandlerMap[".hdf5"] == Hdf5H
  {
    RoutedBy(13, ".h5");
    RoutedBy(13, ".hdf5");
  }

  /** JSON and delimited tables go to their text handlers. */
  lemma {:induction false} HandlerMapText()
    ensures ".json" in HandlerMap && HandlerMap[".json"] == JsonH
    ensures ".csv" in HandlerMap && HandlerMap[".csv"] == TabularH
    ensures ".tsv" in HandlerMap && HandlerMap[".tsv"] == TabularH
  {
    RoutesJson();
    RoutesCsv();
    RoutesTsv();
  }

  // One extension per lemma: each keeps the solver to one membership question.

  lemma {:induction false} RoutesJson() ensures ".json" in HandlerMap && HandlerMap[".json"] == JsonH { RoutedBy(0, ".json"); }
  lemma {:induction false} RoutesCsv() ensures ".csv" in HandlerMap && HandlerMap[".csv"] == TabularH { RoutedBy(2, ".csv"); }
  lemma {:induction false} RoutesTsv() ensures ".tsv" in HandlerMap && HandlerMap[".tsv"] == TabularH { RoutedBy(2, ".tsv"); }

  /** The map knows exactly the extensions of its spreads. */
  lemma {:induction false} HandlerMapKeys()
    ensures HandlerMap.Keys == Listed(Spreads)
    ensures forall i, e :: 0 <= i < |Spreads| && e in Spreads[i].0 ==> e in HandlerMap
  {
    DisplayLastWins(Spreads, "");
    forall i, e | 0 <= i < |Spreads| && e in Spreads[i].0
      ensures e in HandlerMap
    {
      ListedHolds(Spreads, i, e);
    }
  }

  lemma {:induction false} ListedHolds(spreads: seq<(set<string>, Handler)>, i: nat, e: string)
    requires i < |spreads| && e in spreads[i].0
    ensures e in Listed(spreads)
  {
    if i < |spreads| - 1 {
      ListedHolds(spreads[..|spreads| - 1], i, e);
    }
  }

  /** The record-based handler sees exactly the extensions it treats as structures. */
  lemma {:induction false} RecordSetsAgree()
    ensures StructuredRecordExtensions == SequenceHandlers.StructureExtensions
  {
  }
}
