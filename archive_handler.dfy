/**
 * The archive handler: the member names of a zip or tar archive, the
 * listing cut to its first 50 names and one marker for the rest. The zip
 * and tar readers are probes the model is given.
 */
module ArchiveHandler {
  import opened Wrappers
  import opened Text
  import opened Analysis
  import opened Utility

  /** The entry that stands for the names left out of the listing. */
  function MoreFilesMarker(extra: nat): string {
    "... (" + NatToString(extra) + " more files)"
  }

  /** The listing: the first 50 names, then the marker when there are more. */
  function FileList(names: seq<string>): seq<string> {
    var shown := Take(names, MaxArchiveListFiles);
    if |names| > MaxArchiveListFiles then shown + [MoreFilesMarker(|names| - MaxArchiveListFiles)] else shown
  }

  /**
   * The listing has at most 51 entries: every name of an archive of at most
   * 50 members, else its first 50 names and a marker whose count and the 50
   * shown add up to the number of members.
   */
  lemma {:induction false} FileListFacts(names: seq<string>)
    ensures |FileList(names)| <= MaxArchiveListFiles + 1
    ensures |names| <= MaxArchiveListFiles ==> FileList(names) == names
    ensures |names| > MaxArchiveListFiles ==>
      var r := FileList(names);
      |r| == MaxArchiveListFiles + 1
      && r[..MaxArchiveListFiles] == names[..MaxArchiveListFiles]
      && exists extra: nat :: r[MaxArchiveListFiles] == MoreFilesMarker(extra) && MaxArchiveListFiles + extra == |names|
  {
    if |names| > MaxArchiveListFiles {
      var extra: nat := |names| - MaxArchiveListFiles;
      assert FileList(names)[MaxArchiveListFiles] == MoreFilesMarker(extra);
    }
  }

  /** The summary of an archive whose member names were read. */
  function Listing(a: Analyzer, names: seq<string>): Summary {
    ArchiveContents(FormatOf(a.ext), |names|, FileList(names))
  }

  const InspectError := "Could not inspect archive: "

  /**
   * `summarize_archive`: the zip names for a `.zip` file the zip probe
   * recognises, else the tar names for a file the tar probe recognises, else
   * the opaque summary; a probe that fails while reading gives an error
   * summary.
   */
  function SummarizeArchive(a: Analyzer, zip: Probe, tar: Probe): (r: Summary)
    ensures r.ArchiveContents? ==> |r.fileList| <= MaxArchiveListFiles + 1
  {
    var probe := if a.ext == ".zip" && !zip.NotThisKind? then zip else tar;
    match probe
    case NotThisKind => SummarizeOpaque(a)
    case Members(names) => FileListFacts(names); Listing(a, names)
    case ProbeFails(e) => Failure(InspectError + e)
  }

  /**
   * The zip probe is consulted only for `.zip` files; when it is not used
   * the tar probe decides; a file neither recognises is opaque; the file
   * count is always the number of members read.
   */
  lemma {:induction false} ArchiveOutcomes(a: Analyzer, zip: Probe, tar: Probe)
    ensures a.ext != ".zip" ==> SummarizeArchive(a, zip, tar) == SummarizeArchive(a, NotThisKind, tar)
    ensures a.ext == ".zip" && zip.Members? ==> SummarizeArchive(a, zip, tar) == Listing(a, zip.names)
    ensures a.ext == ".zip" && zip.ProbeFails? ==> SummarizeArchive(a, zip, tar) == Failure(InspectError + zip.error)
    ensures (a.ext != ".zip" || zip.NotThisKind?) ==>
      (tar.Members? ==> SummarizeArchive(a, zip, tar) == Listing(a, tar.names))
      && (tar.ProbeFails? ==> SummarizeArchive(a, zip, tar) == Failure(InspectError + tar.error))
      && (tar.NotThisKind? ==> SummarizeArchive(a, zip, tar) == SummarizeOpaque(a))
    ensures SummarizeArchive(a, zip, tar).ArchiveContents? ==>
      SummarizeArchive(a, zip, tar).fileCount == |(if a.ext == ".zip" && zip.Members? then zip else tar).names|
  {
  }
}
