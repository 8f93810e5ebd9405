/**
 * The working-set file tools of the packaged agent: `open_file`, `edit_file`,
 * `close_file` and `write_file`. Each tool holds the worker whose `open_files`
 * it changes; the filesystem is a map from absolute path to node.
 */
module FileIo {
  import opened Wrappers
  import opened Text
  import opened JsonValue
  import opened Paths
  import Utf8
  import Base64
  import BuildWorker

  const MaxFileReadSize: nat := 250000
  const MaxCellSize: nat := 100

  /**
   * A path on disk. A file carries its text as text-mode reading with
   * `errors='replace'` yields it, its size in bytes, and the UnicodeDecodeError
   * a strict UTF-8 read raises when its bytes are not UTF-8.
   */
  datatype Node =
    | File(text: string, size: nat, undecodable: Option<string>)
    | Dir

  /** What opening a path for writing does: it succeeds, is refused, or raises (text "Kind: message"). */
  datatype WriteFault = Writes | Denied | Raised(text: string)

  /**
   * The operating system beyond the map: `os.path.abspath` (which depends on
   * the working directory), and the exceptions reading or writing a path
   * raises, as the text `f"{type(e).__name__}: {e}"`.
   */
  datatype Os = Os(abspath: string -> string, readFault: string -> Option<string>, writeFault: string -> WriteFault)

  /** The filesystem the tools read and write. */
  class Disk {
    var nodes: map<string, Node>

    constructor (nodes: map<string, Node>)
      ensures this.nodes == nodes
    {
      this.nodes := nodes;
    }
  }

  /**
   * A file as a text-mode `write` leaves it: the bytes are the UTF-8 encoding
   * of the text unchanged, and the next text-mode read returns them with
   * universal newlines, so every "\r\n" and lone "\r" reads back as "\n".
   */
  function Written(text: string): (r: Node)
    ensures r.File? && r.undecodable.None? && r.size >= |text|
    ensures forall i :: 0 <= i < |r.text| ==> r.text[i] != '\r'
  {
    File(UniversalNewlines(text), |Utf8.Encode(text)|, None)
  }

  /** Text without a carriage return reads back exactly as written. */
  lemma {:induction false} WrittenWithoutCarriageReturn(text: string)
    requires forall i :: 0 <= i < |text| ==> text[i] != '\r'
    ensures Written(text).text == text
  {
    NoCarriageReturnUnchanged(text);
  }

  /** The replies of the four tools, one constructor per message the source returns. */
  datatype Reply =
    | PathRequired
    | NotFound(filePath: string)
    | IsDirectory(filePath: string)
    | NotAFile(filePath: string)
    | TooLarge(filePath: string, size: nat)
    | RefusedFormat(filePath: string)
    | OpenError(text: string)
    | EncodingIssue(text: string)
    | Opened(filePath: string)
    | OldStrRequired
    | ReadError(text: string)
    | NoMatch(filePath: string, preview: string)
    | NotUnique(filePath: string, count: nat)
    | PermissionDenied(filePath: string)
    | WriteError(text: string)
    | Edited(filePath: string, linesRemoved: nat, linesAdded: nat)
    | ContentRequired
    | DecodeFailed(text: string)
    | Wrote(filePath: string, evicted: bool)
    | Closed(filePath: string)
    | NotOpen(filePath: string)
  {
    /** The string the tool returns. */
    function Render(): string {
      match this
      case PathRequired => "Error: file_path parameter is required."
      case NotFound(p) => "Error: File not found: " + p
      case IsDirectory(p) => "Error: " + p + " is a directory. Use run_command with 'ls' to list contents."
      case NotAFile(p) => "Error: " + p + " is a directory, not a file."
      case TooLarge(p, size) =>
        "File '" + p + "' is too large (" + NatToGrouped(size) + " bytes) to open directly. "
        + "Limit is 250,000 bytes. Please use a script (python/bash) "
        + "to analyze this file and print relevant details."
      case RefusedFormat(p) =>
        "File '" + p + "' is a binary/structure/large format file. Do not open directly. "
        + "Use a script to analyze headers or content."
      case OpenError(e) => "Error opening file: " + e
      case EncodingIssue(e) => "Error: File appears to be binary or has encoding issues: " + e
      case Opened(p) => "File '" + p + "' opened in Short Term Memory."
      case OldStrRequired => "Error: old_str parameter is required and cannot be empty."
      case ReadError(e) => "Error reading file: " + e
      case NoMatch(p, preview) =>
        "Error: old_str not found in " + p + ". "
        + "The string to replace does not exist in the file. "
        + "Double-check exact whitespace, indentation, and spelling.\n"
        + "--- First 20 lines of file ---\n" + preview
      case NotUnique(p, count) =>
        "Error: old_str is not unique in " + p + " "
        + "(found " + NatToString(count) + " occurrences). "
        + "Include more surrounding context in old_str to make it unique."
      case PermissionDenied(p) => "Error: Permission denied writing to " + p
      case WriteError(e) => "Error writing file: " + e
      case Edited(p, removed, added) =>
        "Successfully edited " + p + ". "
        + "Replaced " + NatToString(removed) + " line(s) with " + NatToString(added) + " line(s)."
      case ContentRequired => "Error: content parameter is required (can be empty string)."
      case DecodeFailed(e) => "Error decoding base64 content: " + e
      case Wrote(p, evicted) =>
        if evicted then "Successfully wrote to " + p + ". (File closed from memory to ensure freshness)."
        else "Successfully wrote to " + p + "."
      case Closed(p) => "File '" + p + "' closed."
      case NotOpen(p) => "File '" + p + "' was not open."
    }
  }

  /** What one tool call returns and the state it leaves. */
  datatype Effect = Effect(reply: Reply, nodes: map<string, Node>, open: map<string, string>)

  // ---------------------------------------------------------------------------
  // open_file

  /** `_truncate`: cells longer than 100 characters keep their first 100 and gain "...". */
  function Truncate(s: string): (r: string)
    ensures |s| <= MaxCellSize ==> r == s
    ensures |s| > MaxCellSize ==> |r| == MaxCellSize + 3 && StartsWith(r, s[..MaxCellSize]) && EndsWith(r, "...")
  {
    if |s| > MaxCellSize then
      ConcatAffixes(s[..MaxCellSize], "...");
      s[..MaxCellSize] + "..."
    else s
  }

  /** The cells of one line, truncated, as the JSON strings whose `str()` list the summary shows. */
  function Cells(cells: seq<string>): (r: seq<Json>)
    ensures |r| == |cells|
    ensures forall i :: 0 <= i < |r| ==> r[i] == JStr(Truncate(cells[i]))
  {
    if |cells| == 0 then [] else [JStr(Truncate(cells[0]))] + Cells(cells[1..])
  }

  /** `str()` of the truncated cells of `line` split on `sep`. */
  function ShowRow(codec: Codec, line: string, sep: string): string
    requires |sep| > 0
  {
    codec.show(JArr(Cells(Split(Strip(line), sep))))
  }

  /** `_summarize_tabular`: the header, the first data row and the line count. */
  function SummarizeTabular(codec: Codec, text: string, sep: string): string
    requires |sep| > 0
  {
    var lines := FileLines(text);
    if |lines| == 0 then "[Empty CSV/TSV]" else "Headers: " + TabularBody(codec, lines, sep)
  }

  /** The summary after "Headers: ". */
  function TabularBody(codec: Codec, lines: seq<string>, sep: string): string
    requires |sep| > 0 && |lines| > 0
  {
    ShowRow(codec, lines[0], sep) + "\n"
    + if |lines| > 1 then
        "Row 1 Example: " + ShowRow(codec, lines[1], sep) + "\n" + TotalLines(|lines|)
      else "[No Data Rows]"
  }

  function TotalLines(n: nat): string {
    "[Total Lines: " + NatToString(n) + "]"
  }

  /** A file has no lines exactly when it is empty. */
  lemma {:induction false} NoLinesIffEmpty(text: string)
    ensures |FileLines(text)| == 0 <==> text == ""
  {
    if |FileLines(text)| == 0 {
      assert Join("", FileLines(text)) == "";
    }
  }

  /**
   * The three shapes of the tabular summary: an empty file, a header with no
   * data rows, and a header with a first row and the number of lines.
   */
  lemma {:induction false} TabularCases(codec: Codec, text: string, sep: string)
    requires |sep| > 0
    ensures text == "" <==> SummarizeTabular(codec, text, sep) == "[Empty CSV/TSV]"
    ensures text != "" ==> StartsWith(SummarizeTabular(codec, text, sep), "Headers: ")
    ensures |FileLines(text)| == 1 ==> EndsWith(SummarizeTabular(codec, text, sep), "[No Data Rows]")
    ensures |FileLines(text)| > 1 ==> EndsWith(SummarizeTabular(codec, text, sep), TotalLines(|FileLines(text)|))
  {
    NoLinesIffEmpty(text);
    if text != "" {
      TabularHeaded(codec, FileLines(text), sep);
    }
  }

  /** The body after "Headers: " ends with the no-rows marker or the line count. */
  lemma {:induction false} TabularHeaded(codec: Codec, lines: seq<string>, sep: string)
    requires |sep| > 0 && |lines| > 0
    ensures var r := "Headers: " + TabularBody(codec, lines, sep);
      r != "[Empty CSV/TSV]" && StartsWith(r, "Headers: ")
      && (|lines| == 1 ==> EndsWith(r, "[No Data Rows]"))
      && (|lines| > 1 ==> EndsWith(r, TotalLines(|lines|)))
  {
    var body := TabularBody(codec, lines, sep);
    ConcatAffixes("Headers: ", body);
    assert ("Headers: " + body)[0] == 'H';
    var row := ShowRow(codec, lines[0], sep) + "\n";
    if |lines| == 1 {
      assert "Headers: " + body == ("Headers: " + row) + "[No Data Rows]";
      ConcatAffixes("Headers: " + row, "[No Data Rows]");
    } else {
      var more := row + "Row 1 Example: " + ShowRow(codec, lines[1], sep) + "\n";
      assert "Headers: " + body == ("Headers: " + more) + TotalLines(|lines|);
      ConcatAffixes("Headers: " + more, TotalLines(|lines|));
    }
  }

  /** Each line stripped and truncated, in order. */
  function ShowLines(lines: seq<string>): (r: seq<string>)
    ensures |r| == |lines|
  {
    if |lines| == 0 then [] else ShowLines(lines[..|lines| - 1]) + [Truncate(Strip(lines[|lines| - 1]))]
  }

  /** Line `i` shown is line `i` stripped and truncated. */
  lemma {:induction false} ShowLinesAt(lines: seq<string>, i: nat)
    requires i < |lines|
    ensures ShowLines(lines)[i] == Truncate(Strip(lines[i]))
    decreases |lines|
  {
    var init := lines[..|lines| - 1];
    if i < |init| {
      ShowLinesAt(init, i);
      assert init[i] == lines[i];
    }
  }

  /** The lines `_summarize_fasta` shows: at most the first ten, stripped and truncated. */
  function FastaLines(text: string): seq<string> {
    ShowLines(Take(FileLines(text), 10))
  }

  /** At most ten lines are shown, each the stripped line cut to at most 103 characters. */
  lemma {:induction false} FastaLinesShape(text: string)
    ensures var r := FastaLines(text);
      |r| == (if |FileLines(text)| < 10 then |FileLines(text)| else 10)
      && (forall i :: 0 <= i < |r| ==> r[i] == Truncate(Strip(FileLines(text)[i])) && |r[i]| <= MaxCellSize + 3)
  {
    var lines := FileLines(text);
    var shown := Take(lines, 10);
    forall i | 0 <= i < |shown|
      ensures ShowLines(shown)[i] == Truncate(Strip(lines[i]))
    {
      ShowLinesAt(shown, i);
    }
  }

  const FastaMarker := "\n[...File Truncated for View...]"

  /**
   * The loop of `_summarize_fasta` over the lines successive `readline()` calls
   * return (none of them empty): at most ten, each stripped and truncated.
   */
  method ReadShownLines(lines: seq<string>) returns (summary: seq<string>)
    requires forall k :: 0 <= k < |lines| ==> |lines[k]| > 0
    ensures summary == ShowLines(Take(lines, 10))
  {
    summary := [];
    var i := 0;
    while i < 10
      invariant 0 <= i <= 10 && i <= |lines|
      invariant summary == ShowLines(lines[..i])
    {
      var line := if i < |lines| then lines[i] else "";
      if line == "" {
        break;
      }
      assert lines[..i + 1][..i] == lines[..i];
      summary := summary + [Truncate(Strip(line))];
      i := i + 1;
    }
    assert lines[..i] == Take(lines, 10);
  }

  /** `_summarize_fasta`: the shown lines and the truncation marker. */
  method SummarizeFasta(text: string) returns (r: string)
    ensures r == Join("\n", FastaLines(text)) + FastaMarker
  {
    var summary := ReadShownLines(FileLines(text));
    r := Join("\n", summary) + FastaMarker;
  }

  /** Extensions `open_file` refuses to read. */
  const Refused: seq<string> := [".pdb", ".cif", ".bam", ".gz", ".zip", ".tar", ".pdf", ".jpg", ".png"]

  /** What the extension dispatch of `open_file` makes of a readable file. */
  datatype View = Shown(content: string) | NotShown(reply: Reply)

  /**
   * The dispatch on the lower-cased extension of a file whose extension is not
   * refused (the refused ones share no extension with the summarised ones, so
   * checking them first keeps the outcome). `summarizeJson` is
   * `_summarize_json` on the text: the summary, or the "Kind: message" of what
   * it raised.
   */
  function ViewOf(os: Os, codec: Codec, summarizeJson: string -> Result<string>, abs: string, ext: string,
                  text: string, undecodable: Option<string>): View
  {
    if os.readFault(abs).Some? then NotShown(OpenError(os.readFault(abs).value))
    else if ext == ".csv" || ext == ".tsv" then
      Shown(SummarizeTabular(codec, text, if ext == ".csv" then "," else "\t"))
    else if ext == ".json" then
      if undecodable.Some? then NotShown(EncodingIssue(undecodable.value))
      else match summarizeJson(text)
        case Ok(s) => Shown(s)
        case Err(e) => NotShown(OpenError(e))
    else if ext in [".fasta", ".fa", ".fna"] then
      if undecodable.Some? then NotShown(EncodingIssue(undecodable.value))
      else Shown(Join("\n", FastaLines(text)) + FastaMarker)
    else Shown(text)
  }

  /** `OpenFileTool.execute`: the reply and the working set it leaves; the disk is not written. */
  function OpenSpec(os: Os, codec: Codec, summarizeJson: string -> Result<string>, nodes: map<string, Node>,
                    open: map<string, string>, filePath: string): (Reply, map<string, string>)
  {
    if filePath == "" then (PathRequired, open)
    else
      var abs := os.abspath(filePath);
      if abs !in nodes then (NotFound(filePath), open)
      else match nodes[abs]
        case Dir => (IsDirectory(filePath), open)
        case File(text, size, undecodable) =>
          if size > MaxFileReadSize then (TooLarge(filePath, size), open)
          else
            var ext := Lower(SplitExt(abs));
            if ext in Refused then (RefusedFormat(filePath), open)
            else match ViewOf(os, codec, summarizeJson, abs, ext, text, undecodable)
              case NotShown(r) => (r, open)
              case Shown(content) => (Opened(filePath), open[abs := content])
  }

  /**
   * `open_file` changes the working set only on success, and then only at the
   * absolute path; files over 250,000 bytes and the refused extensions leave
   * it as it was, and an ordinary text file is held verbatim.
   */
  lemma {:induction false} OpenGates(os: Os, codec: Codec, summarizeJson: string -> Result<string>, nodes: map<string, Node>,
                  open: map<string, string>, filePath: string)
    ensures var (r, o) := OpenSpec(os, codec, summarizeJson, nodes, open, filePath);
      (r.Opened? ==> o.Keys == open.Keys + {os.abspath(filePath)}
                     && (forall p :: p in open && p != os.abspath(filePath) ==> o[p] == open[p]))
      && (!r.Opened? ==> o == open)
    ensures var abs := os.abspath(filePath);
      filePath != "" && abs in nodes && nodes[abs].File? && nodes[abs].size > MaxFileReadSize ==>
        OpenSpec(os, codec, summarizeJson, nodes, open, filePath)
          == (TooLarge(filePath, nodes[abs].size), open)
    ensures var abs := os.abspath(filePath);
      filePath != "" && abs in nodes && nodes[abs].File? && nodes[abs].size <= MaxFileReadSize
      && Lower(SplitExt(abs)) in Refused ==>
        OpenSpec(os, codec, summarizeJson, nodes, open, filePath) == (RefusedFormat(filePath), open)
    ensures var abs := os.abspath(filePath);
      filePath != "" && abs in nodes && nodes[abs].File? && nodes[abs].size <= MaxFileReadSize
      && os.readFault(abs).None? && Lower(SplitExt(abs)) !in Refused + [".csv", ".tsv", ".json", ".fasta", ".fa", ".fna"] ==>
        OpenSpec(os, codec, summarizeJson, nodes, open, filePath) == (Opened(filePath), open[abs := nodes[abs].text])
  {
  }

  // ---------------------------------------------------------------------------
  // edit_file

  /** `content.replace(old, new, 1)`: the first occurrence replaced, or the text unchanged. */
  function ReplaceFirst(content: string, target: string, replacement: string): string {
    var i := Find(content, target);
    if i < 0 then content else content[..i] + replacement + content[i + |target|..]
  }

  /** The number of lines a text spans, as the edit reply counts them. */
  function LineCount(s: string): nat {
    Count(s, "\n") + 1
  }

  /** `EditFileTool.execute`; `newStr` None is a `None` argument, which counts as "". */
  function EditSpec(os: Os, nodes: map<string, Node>, open: map<string, string>,
                    filePath: string, oldStr: string, newStr: Option<string>): Effect
  {
    if filePath == "" then Effect(PathRequired, nodes, open)
    else if oldStr == "" then Effect(OldStrRequired, nodes, open)
    else
      var abs := os.abspath(filePath);
      if abs !in nodes then Effect(NotFound(filePath), nodes, open)
      else if nodes[abs].Dir? then Effect(NotAFile(filePath), nodes, open)
      else if os.readFault(abs).Some? then Effect(ReadError(os.readFault(abs).value), nodes, open)
      else Replace(os.writeFault(abs), filePath, abs, nodes[abs].text, oldStr, newStr.GetOr(""), nodes, open)
  }

  /** The uniqueness check, the replacement and the write, once the file's text is read. */
  function Replace(fault: WriteFault, filePath: string, abs: string, content: string, oldStr: string,
                   replacement: string, nodes: map<string, Node>, open: map<string, string>): Effect
    requires |oldStr| > 0
  {
    var count := Count(content, oldStr);
    if count == 0 then Effect(NoMatch(filePath, Join("\n", Take(SplitLines(content), 20))), nodes, open)
    else if count > 1 then Effect(NotUnique(filePath, count), nodes, open)
    else
      var edited := ReplaceFirst(content, oldStr, replacement);
      match fault
      case Denied => Effect(PermissionDenied(filePath), nodes, open)
      case Raised(e) => Effect(WriteError(e), nodes, open)
      case Writes =>
        Effect(Edited(filePath, LineCount(oldStr), LineCount(replacement)), nodes[abs := Written(edited)],
               if filePath in open || abs in open then open[abs := edited] else open)
  }

  /** An empty path or an empty `old_str` is refused before the file is looked at. */
  lemma {:induction false} EditRefusesEmpty(os: Os, nodes: map<string, Node>, open: map<string, string>,
                         filePath: string, oldStr: string, newStr: Option<string>)
    requires filePath == "" || oldStr == ""
    ensures EditSpec(os, nodes, open, filePath, oldStr, newStr)
         == Effect(if filePath == "" then PathRequired else OldStrRequired, nodes, open)
  {
  }

  /** Zero or several occurrences of `old_str`: an error, and neither the file nor the working set changes. */
  lemma {:induction false} EditNeedsOneOccurrence(os: Os, nodes: map<string, Node>, open: map<string, string>,
                               filePath: string, oldStr: string, newStr: Option<string>)
    requires filePath != "" && oldStr != ""
    requires var abs := os.abspath(filePath); abs in nodes && nodes[abs].File? && Count(nodes[abs].text, oldStr) != 1
    ensures var e := EditSpec(os, nodes, open, filePath, oldStr, newStr);
      e.nodes == nodes && e.open == open && !e.reply.Edited?
    ensures var abs := os.abspath(filePath);
      os.readFault(abs).None? && Count(nodes[abs].text, oldStr) > 1 ==>
        EditSpec(os, nodes, open, filePath, oldStr, newStr).reply == NotUnique(filePath, Count(nodes[abs].text, oldStr))
  {
  }

  /**
   * Python's non-overlapping count: when it is one, the text splits around the
   * first match, no match starts before it, and none starts after it ends.
   */
  lemma {:induction false} CountOne(s: string, sub: string)
    requires |sub| > 0 && Count(s, sub) == 1
    ensures var i := Find(s, sub);
      0 <= i && s == s[..i] + sub + s[i + |sub|..]
      && (forall j :: 0 <= j < i ==> !OccursAt(s, sub, j))
      && !Contains(s[i + |sub|..], sub)
  {
    var i := Find(s, sub);
    CountZeroIff(s[i + |sub|..], sub);
    assert s == s[..i] + s[i..i + |sub|] + s[i + |sub|..];
  }

  /**
   * With exactly one occurrence and a successful write, the file becomes the
   * text before the occurrence, `new_str`, and the text after it; the working
   * set changes only at the absolute path, and only when the file was open
   * under the given or the absolute path; the reply counts the lines of both strings.
   */
  lemma {:induction false} EditReplacesTheOccurrence(os: Os, nodes: map<string, Node>, open: map<string, string>,
                                  filePath: string, oldStr: string, newStr: Option<string>)
    requires filePath != "" && oldStr != ""
    requires var abs := os.abspath(filePath);
      abs in nodes && nodes[abs].File? && os.readFault(abs).None? && os.writeFault(abs).Writes?
      && Count(nodes[abs].text, oldStr) == 1
    ensures var abs := os.abspath(filePath);
      var content := nodes[abs].text;
      var i := Find(content, oldStr);
      var edited := content[..i] + newStr.GetOr("") + content[i + |oldStr|..];
      0 <= i
      && EditSpec(os, nodes, open, filePath, oldStr, newStr) == Effect(
           Edited(filePath, LineCount(oldStr), LineCount(newStr.GetOr(""))),
           nodes[abs := Written(edited)],
           if filePath in open || abs in open then open[abs := edited] else open)
  {
    var abs := os.abspath(filePath);
    var content := nodes[abs].text;
    var replacement := newStr.GetOr("");
    CountOne(content, oldStr);
    var i := Find(content, oldStr);
    var edited := content[..i] + replacement + content[i + |oldStr|..];
    assert ReplaceFirst(content, oldStr, replacement) == edited;
    assert EditSpec(os, nodes, open, filePath, oldStr, newStr)
        == Replace(Writes, filePath, abs, content, oldStr, replacement, nodes, open);
    assert Replace(Writes, filePath, abs, content, oldStr, replacement, nodes, open)
        == Effect(Edited(filePath, LineCount(oldStr), LineCount(replacement)), nodes[abs := Written(edited)],
                  if filePath in open || abs in open then open[abs := edited] else open);
  }

  /**
   * `str.count` does not count overlapping matches, so a text holding `old_str`
   * at two overlapping places passes the uniqueness check and the first one is replaced.
   */
  lemma {:induction false} EditOverlappingMatches()
    ensures Count("aaa", "aa") == 1
    ensures OccursAt("aaa", "aa", 0) && OccursAt("aaa", "aa", 1)
    ensures ReplaceFirst("aaa", "aa", "b") == "ba"
  {
    assert OccursAt("aaa", "aa", 0);
    assert Find("aaa", "aa") == 0;
    assert "aaa"[2..] == "a";
    assert !OccursAt("a", "aa", 0);
    assert Find("a", "aa") == -1;
  }

  // ---------------------------------------------------------------------------
  // write_file

  /** The text `write_file` writes: the argument, or the UTF-8 text of its base64 body. */
  function WriteBody(content: string): Result<string> {
    if StartsWith(content, "base64:") then Base64.DecodeText(content[7..]) else Ok(content)
  }

  /** The text of the IsADirectoryError that opening a directory for writing raises. */
  function IsADirectory(abs: string): string {
    "IsADirectoryError: [Errno 21] Is a directory: '" + abs + "'"
  }

  /** The `OSError`s `os.mkdir` raises, by the path it was given. */
  datatype DirError = FileExists(path: string) | NoParent(path: string) | NotADirectory(path: string)
  {
    /** The text `f"{type(e).__name__}: {e}"`. */
    function Text(): string {
      match this
      case FileExists(p) => "FileExistsError: [Errno 17] File exists: '" + p + "'"
      case NoParent(p) => "FileNotFoundError: [Errno 2] No such file or directory: '" + p + "'"
      case NotADirectory(p) => "NotADirectoryError: [Errno 20] Not a directory: '" + p + "'"
    }
  }

  /** The disk after `os.makedirs`, and the error it raised, if any. */
  datatype Made = Made(nodes: map<string, Node>, error: Option<DirError>)

  /** `os.path.exists`: the root always exists. */
  predicate Exists(nodes: map<string, Node>, p: string) {
    IsRoot(p) || p in nodes
  }

  /** `os.path.isdir`: the root is always a directory. */
  predicate IsDir(nodes: map<string, Node>, p: string) {
    IsRoot(p) || (p in nodes && nodes[p].Dir?)
  }

  /**
   * `os.mkdir(name)` followed by the `exist_ok` test of `os.makedirs`: an
   * existing directory is accepted, any other failure raised.
   */
  function MkDir(nodes: map<string, Node>, name: string, parent: string): (r: Made)
    ensures r.error.None? ==> IsDir(r.nodes, name)
    ensures r.error.Some? ==> r.nodes == nodes
    ensures r.nodes == nodes || (name !in nodes && r.nodes == nodes[name := Dir])
    ensures r.error.Some? && r.error.value.FileExists? ==> name in nodes && nodes[name].File? && !IsRoot(name)
    ensures r.error.Some? && r.error.value.NotADirectory? ==> parent in nodes && nodes[parent].File?
  {
    if Exists(nodes, name) then
      if IsDir(nodes, name) then Made(nodes, None) else Made(nodes, Some(FileExists(name)))
    else if name == "" || (parent != "" && !Exists(nodes, parent)) then Made(nodes, Some(NoParent(name)))
    else if parent != "" && !IsDir(nodes, parent) then Made(nodes, Some(NotADirectory(name)))
    else Made(nodes[name := Dir], None)
  }

  /**
   * `os.makedirs(name, exist_ok=True)`: a missing parent is made first (its
   * FileExistsError ignored), then `name` itself; nothing that exists is
   * changed, and only directories are added.
   */
  function MakeDirs(nodes: map<string, Node>, name: string): (r: Made)
    decreases |name|
    ensures forall p :: p in nodes ==> p in r.nodes && r.nodes[p] == nodes[p]
    ensures forall p :: p in r.nodes && p !in nodes ==> r.nodes[p].Dir? && |p| <= |name|
    ensures r.error.None? && SplitFinal(name).1 != "." ==> IsDir(r.nodes, name)
    ensures r.error.Some? && r.error.value.FileExists? ==> name in r.nodes && r.nodes[name].File?
  {
    var (head, tail) := SplitFinal(name);
    if head != "" && tail != "" && !Exists(nodes, head) then
      var before := MakeDirs(nodes, head);
      if before.error.Some? && !before.error.value.FileExists? then before
      else if tail == "." then Made(before.nodes, None)
      else MkDir(before.nodes, name, head)
    else MkDir(nodes, name, head)
  }

  /** The parent directories `write_file` makes before it opens `abs`. */
  function WithParents(nodes: map<string, Node>, abs: string): Made {
    var parent := Dirname(abs);
    if parent != "" then MakeDirs(nodes, parent) else Made(nodes, None)
  }

  /** `WriteFileTool.execute`; `content` None is a `None` argument. */
  function WriteSpec(os: Os, nodes: map<string, Node>, open: map<string, string>,
                     filePath: string, content: Option<string>): Effect
  {
    if filePath == "" then Effect(PathRequired, nodes, open)
    else if content.None? then Effect(ContentRequired, nodes, open)
    else match WriteBody(content.value)
      case Err(e) => Effect(DecodeFailed(e), nodes, open)
      case Ok(body) => WriteText(os, nodes, open, filePath, body)
  }

  /**
   * The `try` block of `write_file` once the text is known: the parent
   * directories, the open for writing, and the eviction of the given path.
   */
  function WriteText(os: Os, nodes: map<string, Node>, open: map<string, string>, filePath: string, body: string): Effect {
    WriteMade(os, WithParents(nodes, os.abspath(filePath)), open, filePath, body)
  }

  /** What the `try` block does once `makedirs` has returned or raised. */
  function WriteMade(os: Os, made: Made, open: map<string, string>, filePath: string, body: string): Effect {
    var abs := os.abspath(filePath);
    if made.error.Some? then Effect(WriteError(made.error.value.Text()), made.nodes, open)
    else if IsDir(made.nodes, abs) then Effect(WriteError(IsADirectory(abs)), made.nodes, open)
    else match os.writeFault(abs)
      case Denied => Effect(PermissionDenied(filePath), made.nodes, open)
      case Raised(e) => Effect(WriteError(e), made.nodes, open)
      case Writes =>
        Effect(Wrote(filePath, filePath in open), made.nodes[abs := Written(body)],
               if filePath in open then open - {filePath} else open)
  }

  /** A body that does not decode is reported and nothing is written. */
  lemma {:induction false} WriteUndecodable(os: Os, nodes: map<string, Node>, open: map<string, string>, filePath: string, content: string)
    requires filePath != "" && StartsWith(content, "base64:") && Base64.DecodeText(content[7..]).Err?
    ensures WriteSpec(os, nodes, open, filePath, Some(content))
         == Effect(DecodeFailed(Base64.DecodeText(content[7..]).error), nodes, open)
  {
  }

  /** A base64 body holding the UTF-8 encoding of `s` writes exactly `s`. */
  lemma {:induction false} WriteBase64(os: Os, nodes: map<string, Node>, open: map<string, string>, filePath: string, s: string)
    requires filePath != ""
    ensures WriteSpec(os, nodes, open, filePath, Some("base64:" + Base64.Encode(Utf8.Encode(s))))
         == WriteText(os, nodes, open, filePath, s)
  {
    var c := "base64:" + Base64.Encode(Utf8.Encode(s));
    ConcatAffixes("base64:", Base64.Encode(Utf8.Encode(s)));
    assert c[7..] == Base64.Encode(Utf8.Encode(s));
    Base64.DecodeTextEncoded(s);
  }

  /** A path `os.path.abspath` can return: the root, or one whose last component is named. */
  predicate Normal(p: string) {
    StartsWith(p, "/") && (IsRoot(p) || (PathSplit(p).1 != "" && SplitFinal(Dirname(p)).1 != "."))
  }

  /** Every path but the root sits in a directory: the disk is a tree. */
  predicate Tree(nodes: map<string, Node>) {
    forall p :: p in nodes && !IsRoot(p) ==> IsDir(nodes, SplitFinal(p).0)
  }

  /** The root splits into itself and an empty tail. */
  lemma {:induction false} RootSplit(p: string)
    requires IsRoot(p)
    ensures PathSplit(p) == (p, "") && SplitFinal(p) == (p, "")
  {
    assert p[|p| - 1] == '/';
    assert p[..|p|] == p;
  }

  /** A path that names its last component has `Dirname` as the parent `makedirs` uses. */
  lemma {:induction false} DirnameIsParent(p: string)
    requires PathSplit(p).1 != ""
    ensures SplitFinal(p).0 == Dirname(p)
  {
  }

  /** Adding a directory whose parent is one keeps a tree a tree. */
  lemma {:induction false} AddDirKeepsTree(nodes: map<string, Node>, name: string)
    requires Tree(nodes) && name !in nodes && !IsRoot(name) && IsDir(nodes, SplitFinal(name).0)
    ensures Tree(nodes[name := Dir])
  {
    forall p | p in nodes[name := Dir] && !IsRoot(p)
      ensures IsDir(nodes[name := Dir], SplitFinal(p).0)
    {
      StillDir(nodes, name, SplitFinal(p).0);
    }
  }

  /** A directory stays one when a new directory is added. */
  lemma {:induction false} StillDir(nodes: map<string, Node>, name: string, q: string)
    requires name !in nodes && IsDir(nodes, q)
    ensures IsDir(nodes[name := Dir], q)
  {
  }

  /** `makedirs` of an absolute path keeps a tree a tree, whether it succeeds or raises. */
  lemma {:induction false} MakeDirsKeepsTree(nodes: map<string, Node>, name: string)
    requires Tree(nodes) && StartsWith(name, "/")
    ensures Tree(MakeDirs(nodes, name).nodes)
    decreases |name|
  {
    var (head, tail) := SplitFinal(name);
    FinalHeadStaysAbsolute(name);
    var base := nodes;
    if head != "" && tail != "" && !Exists(nodes, head) {
      MakeDirsKeepsTree(nodes, head);
      base := MakeDirs(nodes, head).nodes;
    }
    var made := MkDir(base, name, head);
    if made.nodes != base {
      AddDirKeepsTree(base, name);
    }
  }

  /** Writing a file where no directory is, inside a directory, keeps a tree a tree. */
  lemma {:induction false} AddFileKeepsTree(nodes: map<string, Node>, abs: string, f: Node)
    requires Tree(nodes) && !IsDir(nodes, abs) && IsDir(nodes, SplitFinal(abs).0)
    ensures Tree(nodes[abs := f])
  {
    forall p | p in nodes[abs := f] && !IsRoot(p)
      ensures IsDir(nodes[abs := f], SplitFinal(p).0)
    {
      StillDirBesideFile(nodes, abs, f, SplitFinal(p).0);
    }
  }

  /** A directory stays one when a path that is not a directory is overwritten. */
  lemma {:induction false} StillDirBesideFile(nodes: map<string, Node>, abs: string, f: Node, q: string)
    requires !IsDir(nodes, abs) && IsDir(nodes, q)
    ensures IsDir(nodes[abs := f], q)
  {
  }

  /**
   * `write_file` keeps the disk a tree: the directories `makedirs` adds sit
   * in directories, and the file it writes sits in its parent, whatever the
   * outcome.
   */
  lemma {:induction false} WriteKeepsTree(os: Os, nodes: map<string, Node>, open: map<string, string>, filePath: string, body: string)
    requires Tree(nodes) && Normal(os.abspath(filePath))
    ensures Tree(WriteText(os, nodes, open, filePath, body).nodes)
  {
    var abs := os.abspath(filePath);
    var parent := Dirname(abs);
    HeadStaysAbsolute(abs);
    MakeDirsKeepsTree(nodes, parent);
    var made := WithParents(nodes, abs);
    assert made == MakeDirs(nodes, parent);
    WriteMadeNodes(os, made, open, filePath, body);
    if IsRoot(abs) {
      assert IsDir(made.nodes, abs);
    } else if made.error.None? && !IsDir(made.nodes, abs) {
      DirnameIsParent(abs);
      assert IsDir(made.nodes, parent);
      AddFileKeepsTree(made.nodes, abs, Written(body));
    }
  }

  /**
   * Besides the written path, `write_file` changes no existing node, and
   * every node it adds is a directory.
   */
  lemma {:induction false} WriteOnlyAddsDirectories(os: Os, nodes: map<string, Node>, open: map<string, string>, filePath: string, body: string)
    ensures var w := WriteText(os, nodes, open, filePath, body); var abs := os.abspath(filePath);
      (forall p :: p in nodes && p != abs ==> p in w.nodes && w.nodes[p] == nodes[p])
      && (forall p :: p in w.nodes && p !in nodes && p != abs ==> w.nodes[p].Dir?)
  {
    var made := WithParents(nodes, os.abspath(filePath));
    WriteMadeNodes(os, made, open, filePath, body);
  }

  /** The write leaves the disk as `makedirs` left it, or adds the written file to it. */
  lemma {:induction false} WriteMadeNodes(os: Os, made: Made, open: map<string, string>, filePath: string, body: string)
    ensures var w := WriteMade(os, made, open, filePath, body);
      w.nodes == made.nodes
      || (made.error.None? && !IsDir(made.nodes, os.abspath(filePath))
          && w.nodes == made.nodes[os.abspath(filePath) := Written(body)])
  {
  }

  /** Making a directory that already exists in a tree changes nothing. */
  lemma {:induction false} MakeDirsExisting(nodes: map<string, Node>, name: string)
    requires Tree(nodes) && IsDir(nodes, name)
    ensures MakeDirs(nodes, name) == Made(nodes, None)
  {
    if IsRoot(name) {
      RootSplit(name);
    }
  }

  /** Under a tree, the parent of a written path is made exactly when it is missing. */
  lemma {:induction false} ParentsOfExisting(nodes: map<string, Node>, abs: string)
    requires Tree(nodes) && Normal(abs) && abs in nodes
    ensures WithParents(nodes, abs) == Made(nodes, None)
  {
    if IsRoot(abs) {
      RootSplit(abs);
      MakeDirsExisting(nodes, Dirname(abs));
    } else {
      DirnameIsParent(abs);
      MakeDirsExisting(nodes, Dirname(abs));
    }
  }

  /**
   * A written "\r\n" reads back as "\n": after `write_file` stores "x\r\ny",
   * `edit_file` finds "x\ny" in it exactly once and replaces it.
   */
  lemma {:induction false} WriteThenEditTranslated(os: Os, nodes: map<string, Node>, open: map<string, string>, filePath: string)
    requires filePath != ""
    requires var abs := os.abspath(filePath); var made := WithParents(nodes, abs);
      os.writeFault(abs).Writes? && os.readFault(abs).None? && made.error.None? && !IsDir(made.nodes, abs)
    ensures var w := WriteSpec(os, nodes, open, filePath, Some("x\r\ny"));
      w.nodes[os.abspath(filePath)].text == "x\ny"
      && EditSpec(os, w.nodes, w.open, filePath, "x\ny", Some("z")).reply == Edited(filePath, 2, 1)
  {
    var abs := os.abspath(filePath);
    assert !StartsWith("x\r\ny", "base64:");
    WriteEvictsGivenPath(os, nodes, open, filePath, "x\r\ny");
    var w := WriteSpec(os, nodes, open, filePath, Some("x\r\ny"));
    CrLfReadsAsLf();
    CountsOfExample();
    EditReplacesTheOccurrence(os, w.nodes, w.open, filePath, "x\ny", Some("z"));
  }

  lemma {:induction false} CrLfReadsAsLf()
    ensures UniversalNewlines("x\r\ny") == "x\ny"
  {
    var s := "x\r\ny";
    assert s[3..] == "y";
    assert UniversalNewlines("y") == "y" by { assert "y"[1..] == ""; }
    assert UniversalNewlines(s[1..]) == "\n" + UniversalNewlines(s[3..]);
    assert s == [s[0]] + s[1..];
  }

  lemma {:induction false} CountsOfExample()
    ensures Count("x\ny", "x\ny") == 1 && LineCount("x\ny") == 2 && LineCount("z") == 1
  {
    assert OccursAt("x\ny", "x\ny", 0);
    assert "x\ny"[3..] == "";
    assert Find("x\ny"[3..], "x\ny") == -1;
    assert "x\ny"[0..1] == "x" && "x\ny"[1..2] == "\n";
    assert !OccursAt("x\ny", "\n", 0) && OccursAt("x\ny", "\n", 1);
    assert "x\ny"[2..] == "y";
    assert "y"[0..1] == "y";
    assert !OccursAt("y", "\n", 0);
    assert Find("y", "\n") == -1;
    assert "z"[0..1] == "z";
    assert !OccursAt("z", "\n", 0);
  }

  /** A directory in a tree is never overwritten: opening it for writing raises and nothing changes. */
  lemma {:induction false} WriteToDirectoryFails(os: Os, nodes: map<string, Node>, open: map<string, string>, filePath: string, content: string)
    requires filePath != "" && WriteBody(content).Ok? && Tree(nodes)
    requires var abs := os.abspath(filePath); Normal(abs) && abs in nodes && nodes[abs].Dir?
    ensures WriteSpec(os, nodes, open, filePath, Some(content))
         == Effect(WriteError(IsADirectory(os.abspath(filePath))), nodes, open)
  {
    ParentsOfExisting(nodes, os.abspath(filePath));
  }

  /**
   * A write below a file of a tree raises the FileExistsError of `makedirs`
   * for that file, and changes neither the disk nor the working set.
   */
  lemma {:induction false} WriteUnderFileFails(os: Os, nodes: map<string, Node>, open: map<string, string>, filePath: string, content: string)
    requires filePath != "" && WriteBody(content).Ok? && Tree(nodes)
    requires var parent := Dirname(os.abspath(filePath));
      !IsRoot(parent) && parent in nodes && nodes[parent].File?
    ensures WriteSpec(os, nodes, open, filePath, Some(content))
         == Effect(WriteError(FileExists(Dirname(os.abspath(filePath))).Text()), nodes, open)
  {
    var parent := Dirname(os.abspath(filePath));
    MakeDirsOverFile(nodes, parent);
    assert WriteSpec(os, nodes, open, filePath, Some(content))
        == WriteMade(os, Made(nodes, Some(FileExists(parent))), open, filePath, WriteBody(content).value);
  }

  /** In a tree, `makedirs` of a file raises the FileExistsError of its own `mkdir`. */
  lemma {:induction false} MakeDirsOverFile(nodes: map<string, Node>, name: string)
    requires Tree(nodes) && !IsRoot(name) && name in nodes && nodes[name].File?
    ensures MakeDirs(nodes, name) == Made(nodes, Some(FileExists(name)))
  {
    assert IsDir(nodes, SplitFinal(name).0);
  }

  lemma {:induction false} SplitsOfExample()
    ensures PathSplit("/a/b/c.txt") == ("/a/b", "c.txt")
    ensures SplitFinal("/a/b") == ("/a", "b") && SplitFinal("/a") == ("/", "a")
  {
    var p := "/a/b/c.txt";
    assert p[4] == '/' && forall j :: 4 < j < |p| ==> p[j] != '/';
    assert LastIndex(p, '/') == 4;
    assert p[..5] == "/a/b/" && p[5..] == "c.txt";
    assert !AllSlashes("/a/b/") by { assert "/a/b/"[1] != '/'; }
    assert "/a/b/"[..4] == "/a/b";
    assert RStripSlash("/a/b") == "/a/b";
    var q := "/a/b";
    assert q[2] == '/' && forall j :: 2 < j < |q| ==> q[j] != '/';
    assert LastIndex(q, '/') == 2;
    assert q[..3] == "/a/" && q[3..] == "b";
    assert !AllSlashes("/a/") by { assert "/a/"[1] != '/'; }
    assert "/a/"[..2] == "/a";
    assert RStripSlash("/a") == "/a";
    var r := "/a";
    assert r[0] == '/' && forall j :: 0 < j < |r| ==> r[j] != '/';
    assert LastIndex(r, '/') == 0;
    assert r[..1] == "/" && r[1..] == "a";
  }

  /**
   * `makedirs` makes every missing parent: writing `/a/b/c.txt` to an empty
   * disk leaves `/a` and `/a/b` as directories beside the file.
   */
  lemma {:induction false} WriteMakesMissingParents(os: Os, open: map<string, string>, filePath: string, body: string)
    requires filePath != "" && os.abspath(filePath) == "/a/b/c.txt" && os.writeFault("/a/b/c.txt").Writes?
    ensures var w := WriteText(os, map[], open, filePath, body);
      w.nodes == map["/a" := Dir, "/a/b" := Dir, "/a/b/c.txt" := Written(body)]
  {
    var abs := os.abspath(filePath);
    ParentsOfExample(abs);
    var m := map["/a" := Dir, "/a/b" := Dir];
    FileOfExampleIsNew(abs, m);
    WroteInto(os, Made(m, None), open, filePath, body);
  }

  lemma {:induction false} FileOfExampleIsNew(abs: string, m: map<string, Node>)
    requires abs == "/a/b/c.txt" && m == map["/a" := Dir, "/a/b" := Dir]
    ensures !IsDir(m, abs)
  {
    assert !IsRoot(abs) by { assert abs[1] != '/'; }
  }

  /** Once `makedirs` has returned, a path that is not a directory and opens for writing is written. */
  lemma {:induction false} WroteInto(os: Os, made: Made, open: map<string, string>, filePath: string, body: string)
    requires made.error.None? && !IsDir(made.nodes, os.abspath(filePath)) && os.writeFault(os.abspath(filePath)).Writes?
    ensures WriteMade(os, made, open, filePath, body).nodes == made.nodes[os.abspath(filePath) := Written(body)]
  {
  }

  /** After that write, `open_file` reports `/a/b` as a directory, not as missing. */
  lemma {:induction false} ParentOpensAsDirectory(os: Os, codec: Codec, summarizeJson: string -> Result<string>,
                                                  open: map<string, string>, filePath: string, dirPath: string, body: string)
    requires filePath != "" && os.abspath(filePath) == "/a/b/c.txt" && os.writeFault("/a/b/c.txt").Writes?
    requires dirPath != "" && os.abspath(dirPath) == "/a/b"
    ensures var w := WriteText(os, map[], open, filePath, body);
      OpenSpec(os, codec, summarizeJson, w.nodes, w.open, dirPath) == (IsDirectory(dirPath), w.open)
  {
    WriteMakesMissingParents(os, open, filePath, body);
    var w := WriteText(os, map[], open, filePath, body);
    OpenDirectory(os, codec, summarizeJson, w.nodes, w.open, dirPath);
  }

  /** `open_file` reports a directory as one. */
  lemma {:induction false} OpenDirectory(os: Os, codec: Codec, summarizeJson: string -> Result<string>,
                                         nodes: map<string, Node>, open: map<string, string>, filePath: string)
    requires filePath != "" && os.abspath(filePath) in nodes && nodes[os.abspath(filePath)].Dir?
    ensures OpenSpec(os, codec, summarizeJson, nodes, open, filePath) == (IsDirectory(filePath), open)
  {
  }

  lemma {:induction false} ParentsOfExample(abs: string)
    requires abs == "/a/b/c.txt"
    ensures WithParents(map[], abs) == Made(map["/a" := Dir, "/a/b" := Dir], None)
  {
    SplitsOfExample();
    MakeFirstParent();
    assert !IsRoot("/a") by { assert "/a"[1] != '/'; }
    assert !IsRoot("/a/b") by { assert "/a/b"[1] != '/'; }
    var before := MakeDirs(map[], "/a");
    assert MkDir(before.nodes, "/a/b", "/a") == Made(map["/a" := Dir, "/a/b" := Dir], None);
  }

  lemma {:induction false} MakeFirstParent()
    ensures MakeDirs(map[], "/a") == Made(map["/a" := Dir], None)
  {
    SplitsOfExample();
    assert IsRoot("/");
    assert !IsRoot("/a") by { assert "/a"[1] != '/'; }
    assert MkDir(map[], "/a", "/") == Made(map["/a" := Dir], None);
  }

  /**
   * After a write only the entry under exactly the given path string is
   * evicted: an entry `open_file` stored under the absolute path survives,
   * holding the old content, whenever the two strings differ.
   */
  lemma {:induction false} WriteEvictsGivenPath(os: Os, nodes: map<string, Node>, open: map<string, string>, filePath: string, content: string)
    requires filePath != "" && WriteBody(content).Ok? && os.writeFault(os.abspath(filePath)).Writes?
    requires var abs := os.abspath(filePath); var made := WithParents(nodes, abs);
      made.error.None? && !IsDir(made.nodes, abs)
    ensures var e := WriteSpec(os, nodes, open, filePath, Some(content));
      e.open == open - {filePath}
      && e.nodes == WithParents(nodes, os.abspath(filePath)).nodes[os.abspath(filePath) := Written(WriteBody(content).value)]
      && e.reply == Wrote(filePath, filePath in open)
    ensures var abs := os.abspath(filePath);
      abs != filePath && abs in open ==> var e := WriteSpec(os, nodes, open, filePath, Some(content));
        abs in e.open && e.open[abs] == open[abs]
  {
    var abs, body := os.abspath(filePath), WriteBody(content).value;
    var made := WithParents(nodes, abs);
    assert WriteSpec(os, nodes, open, filePath, Some(content)) == WriteMade(os, made, open, filePath, body);
    RemoveAbsent(open, filePath);
    RemoveOther(open, filePath, abs);
  }

  /** Removing one key keeps every other. */
  lemma {:induction false} RemoveOther(open: map<string, string>, key: string, other: string)
    ensures other != key && other in open ==> other in open - {key} && (open - {key})[other] == open[other]
  {
  }

  /** Removing a key that is absent leaves the map as it was. */
  lemma {:induction false} RemoveAbsent(open: map<string, string>, key: string)
    ensures (if key in open then open - {key} else open) == open - {key}
  {
  }

  // ---------------------------------------------------------------------------
  // close_file

  /** `CloseFileTool.execute`. */
  function CloseSpec(open: map<string, string>, filePath: string): (Reply, map<string, string>) {
    if filePath == "" then (PathRequired, open)
    else if filePath in open then (Closed(filePath), open - {filePath})
    else (NotOpen(filePath), open)
  }

  /** Closing removes exactly the given key, and reports whether it was there. */
  lemma {:induction false} CloseRemovesOnlyThePath(open: map<string, string>, filePath: string)
    requires filePath != ""
    ensures var (r, o) := CloseSpec(open, filePath);
      o.Keys == open.Keys - {filePath}
      && (forall p :: p in o ==> o[p] == open[p])
      && (r == Closed(filePath) <==> filePath in open)
  {
  }

  // ---------------------------------------------------------------------------
  // The tools

  class OpenFileTool {
    const worker: BuildWorker.Worker
    const disk: Disk

    constructor (worker: BuildWorker.Worker, disk: Disk)
      ensures this.worker == worker && this.disk == disk
    {
      this.worker := worker;
      this.disk := disk;
    }

    method Execute(os: Os, codec: Codec, summarizeJson: string -> Result<string>, filePath: string) returns (message: string)
      modifies worker`openFiles
      ensures var (r, o) := OpenSpec(os, codec, summarizeJson, disk.nodes, old(worker.openFiles), filePath);
        message == r.Render() && worker.openFiles == o
    {
      var reply: Reply;
      if filePath == "" {
        reply := PathRequired;
      } else {
        var abs := os.abspath(filePath);
        if abs !in disk.nodes {
          reply := NotFound(filePath);
        } else if disk.nodes[abs].Dir? {
          reply := IsDirectory(filePath);
        } else {
          var node := disk.nodes[abs];
          var ext := Lower(SplitExt(abs));
          if node.size > MaxFileReadSize {
            reply := TooLarge(filePath, node.size);
          } else if ext in Refused {
            reply := RefusedFormat(filePath);
          } else {
            var view: View;
            if os.readFault(abs).Some? {
              view := NotShown(OpenError(os.readFault(abs).value));
            } else if ext == ".csv" || ext == ".tsv" {
              view := Shown(SummarizeTabular(codec, node.text, if ext == ".csv" then "," else "\t"));
            } else if ext == ".json" {
              if node.undecodable.Some? {
                view := NotShown(EncodingIssue(node.undecodable.value));
              } else {
                var summary := summarizeJson(node.text);
                view := if summary.Ok? then Shown(summary.value) else NotShown(OpenError(summary.error));
              }
            } else if ext in [".fasta", ".fa", ".fna"] {
              if node.undecodable.Some? {
                view := NotShown(EncodingIssue(node.undecodable.value));
              } else {
                var content := SummarizeFasta(node.text);
                view := Shown(content);
              }
            } else {
              view := Shown(node.text);
            }
            assert view == ViewOf(os, codec, summarizeJson, abs, ext, node.text, node.undecodable);
            if view.Shown? {
              worker.UpdateOpenFile(abs, view.content);
              reply := Opened(filePath);
            } else {
              reply := view.reply;
            }
          }
        }
      }
      message := reply.Render();
    }
  }

  class EditFileTool {
    const worker: BuildWorker.Worker
    const disk: Disk

    constructor (worker: BuildWorker.Worker, disk: Disk)
      ensures this.worker == worker && this.disk == disk
    {
      this.worker := worker;
      this.disk := disk;
    }

    method Execute(os: Os, filePath: string, oldStr: string, newStr: Option<string>) returns (message: string)
      modifies worker`openFiles, disk`nodes
      ensures var e := EditSpec(os, old(disk.nodes), old(worker.openFiles), filePath, oldStr, newStr);
        message == e.reply.Render() && disk.nodes == e.nodes && worker.openFiles == e.open
    {
      var reply: Reply;
      if filePath == "" {
        reply := PathRequired;
      } else if oldStr == "" {
        reply := OldStrRequired;
      } else {
        var replacement := if newStr.None? then "" else newStr.value;
        var abs := os.abspath(filePath);
        if abs !in disk.nodes {
          reply := NotFound(filePath);
        } else if disk.nodes[abs].Dir? {
          reply := NotAFile(filePath);
        } else if os.readFault(abs).Some? {
          reply := ReadError(os.readFault(abs).value);
        } else {
          reply := ReplaceOnce(os.writeFault(abs), filePath, abs, disk.nodes[abs].text, oldStr, replacement);
        }
      }
      message := reply.Render();
    }

    /** The uniqueness check, the replacement and the write, once the file's text is read. */
    method ReplaceOnce(fault: WriteFault, filePath: string, abs: string, content: string, oldStr: string,
                       replacement: string) returns (reply: Reply)
      requires |oldStr| > 0
      modifies worker`openFiles, disk`nodes
      ensures var e := Replace(fault, filePath, abs, content, oldStr, replacement, old(disk.nodes), old(worker.openFiles));
        reply == e.reply && disk.nodes == e.nodes && worker.openFiles == e.open
    {
      var count := Count(content, oldStr);
      if count == 0 {
        reply := NoMatch(filePath, Join("\n", Take(SplitLines(content), 20)));
      } else if count > 1 {
        reply := NotUnique(filePath, count);
      } else {
        var edited := ReplaceFirst(content, oldStr, replacement);
        match fault {
          case Denied => reply := PermissionDenied(filePath);
          case Raised(e) => reply := WriteError(e);
          case Writes =>
            disk.nodes := disk.nodes[abs := Written(edited)];
            var openGiven := worker.IsFileOpen(filePath);
            var openAbs := worker.IsFileOpen(abs);
            if openGiven || openAbs {
              worker.UpdateOpenFile(abs, edited);
            }
            reply := Edited(filePath, LineCount(oldStr), LineCount(replacement));
        }
      }
    }
  }

  class CloseFileTool {
    const worker: BuildWorker.Worker

    constructor (worker: BuildWorker.Worker)
      ensures this.worker == worker
    {
      this.worker := worker;
    }

    method Execute(filePath: string) returns (message: string)
      modifies worker`openFiles
      ensures var (r, o) := CloseSpec(old(worker.openFiles), filePath);
        message == r.Render() && worker.openFiles == o
    {
      var reply: Reply;
      if filePath == "" {
        reply := PathRequired;
      } else {
        var closed := worker.CloseFile(filePath);
        reply := if closed then Closed(filePath) else NotOpen(filePath);
      }
      message := reply.Render();
    }
  }

  class WriteFileTool {
    const worker: BuildWorker.Worker
    const disk: Disk

    constructor (worker: BuildWorker.Worker, disk: Disk)
      ensures this.worker == worker && this.disk == disk
    {
      this.worker := worker;
      this.disk := disk;
    }

    method Execute(os: Os, filePath: string, content: Option<string>) returns (message: string)
      modifies worker`openFiles, disk`nodes
      ensures var e := WriteSpec(os, old(disk.nodes), old(worker.openFiles), filePath, content);
        message == e.reply.Render() && disk.nodes == e.nodes && worker.openFiles == e.open
    {
      var reply: Reply;
      if filePath == "" {
        reply := PathRequired;
      } else if content.None? {
        reply := ContentRequired;
      } else {
        var body := WriteBody(content.value);
        if body.Err? {
          reply := DecodeFailed(body.error);
        } else {
          reply := WriteOnce(os, filePath, body.value);
        }
      }
      message := reply.Render();
    }

    /** The `try` block: make the parents, open the path for writing, write, evict. */
    method WriteOnce(os: Os, filePath: string, body: string) returns (reply: Reply)
      modifies worker`openFiles, disk`nodes
      ensures var e := WriteText(os, old(disk.nodes), old(worker.openFiles), filePath, body);
        reply == e.reply && disk.nodes == e.nodes && worker.openFiles == e.open
    {
      var abs := os.abspath(filePath);
      var made := WithParents(disk.nodes, abs);
      ghost var open0 := worker.openFiles;
      assert WriteText(os, disk.nodes, open0, filePath, body) == WriteMade(os, made, open0, filePath, body);
      disk.nodes := made.nodes;
      if made.error.Some? {
        reply := WriteError(made.error.value.Text());
      } else if IsDir(disk.nodes, abs) {
        reply := WriteError(IsADirectory(abs));
      } else {
        match os.writeFault(abs) {
          case Denied => reply := PermissionDenied(filePath);
          case Raised(e) => reply := WriteError(e);
          case Writes =>
            disk.nodes := disk.nodes[abs := Written(body)];
            var isOpen := worker.IsFileOpen(filePath);
            if isOpen {
              var _ := worker.CloseFile(filePath);
            }
            reply := Wrote(filePath, isOpen);
        }
      }
    }
  }
}
