/**
 * The directory-listing compression that `get_directory_tree_str` puts into
 * the worker's context: per-directory file-list summarising (by a sequential
 * naming pattern or by extension), strict truncation, and the three-level
 * cascade bounded by 400,000 characters.
 */
module SystemInfo {
  import opened Wrappers
  import opened Text
  import opened Paths
  import opened Counting
  import opened Sorting

  const MaxTreeTokens := 100000
  const CharsPerToken := 4
  const MaxOutputChars := MaxTreeTokens * CharsPerToken

  /** Lists of at most this many names are shown unchanged. */
  const SmartThreshold := 100

  // ---------------------------------------------------------------------
  // The sequential-pattern signature: `^(.*?)(\d+)(\.[^.]+)$`
  // ---------------------------------------------------------------------

  /** The start of the run of digits that ends just before index `end`. */
  function DigitRunStart(s: string, end: nat): (p: nat)
    requires end <= |s|
    ensures p <= end
    ensures forall k :: p <= k < end ==> IsDigit(s[k])
    ensures p == 0 || !IsDigit(s[p - 1])
  {
    if end == 0 || !IsDigit(s[end - 1]) then end else DigitRunStart(s, end - 1)
  }

  /**
   * The `(prefix, extension)` signature of a file name, when the regex
   * matches: the extension runs from the last dot to the end and has at least
   * one character after the dot, the digits are the longest run directly
   * before that dot (the prefix is matched lazily), and the prefix, matched by
   * `.*?`, holds no newline.
   */
  function SignatureOf(name: string): (r: Option<(string, string)>)
    ensures r.Some? ==>
      var (pre, ext) := r.value;
      |pre| + |ext| < |name| && StartsWith(name, pre) && EndsWith(name, ext)
      && |ext| >= 2 && ext[0] == '.' && (forall k :: 1 <= k < |ext| ==> ext[k] != '.')
      && (forall k :: |pre| <= k < |name| - |ext| ==> IsDigit(name[k]))
      && (pre == [] || !IsDigit(pre[|pre| - 1]))
      && (forall k :: 0 <= k < |pre| ==> pre[k] != '\n')
  {
    var dot := LastIndex(name, '.');
    if dot < 0 || dot == |name| - 1 then None
    else
      var p := DigitRunStart(name, dot);
      if p == dot || '\n' in name[..p] then None
      else
        var ext := name[dot..];
        assert ext == name[|name| - |ext|..];
        assert forall k :: 0 <= k < |ext| ==> ext[k] == name[dot + k];
        Some((name[..p], ext))
  }

  /** The regex shape: anything without a newline, digits, a dot and dot-free text. */
  predicate PatternShaped(name: string, pre: string, digits: string, ext: string) {
    name == pre + digits + ext
    && (forall k :: 0 <= k < |pre| ==> pre[k] != '\n')
    && |digits| > 0 && (forall k :: 0 <= k < |digits| ==> IsDigit(digits[k]))
    && |ext| >= 2 && ext[0] == '.' && (forall k :: 1 <= k < |ext| ==> ext[k] != '.')
  }

  lemma {:induction false} DigitRunStartBelow(s: string, end: nat, q: nat)
    requires q <= end <= |s|
    requires forall k :: q <= k < end ==> IsDigit(s[k])
    ensures DigitRunStart(s, end) <= q
    decreases end
  {
    if end > q {
      DigitRunStartBelow(s, end - 1, q);
    }
  }

  /**
   * Every name of the regex's shape has a signature, with the same extension
   * and a prefix no longer than the one given (the lazy match takes the
   * shortest).
   */
  lemma {:induction false} SignatureComplete(name: string, pre: string, digits: string, ext: string)
    requires PatternShaped(name, pre, digits, ext)
    ensures SignatureOf(name).Some?
    ensures SignatureOf(name).value.1 == ext
    ensures |SignatureOf(name).value.0| <= |pre|
  {
    var dot := |pre| + |digits|;
    assert name[dot] == '.';
    assert forall k :: dot < k < |name| ==> name[k] == ext[k - dot];
    assert LastIndex(name, '.') == dot;
    assert forall k :: |pre| <= k < dot ==> name[k] == digits[k - |pre|];
    DigitRunStartBelow(name, dot, |pre|);
    var p := DigitRunStart(name, dot);
    assert forall k :: 0 <= k < p ==> name[..p][k] == pre[k];
    assert name[dot..] == ext;
  }

  // ---------------------------------------------------------------------
  // `_analyze_file_list_smart`
  // ---------------------------------------------------------------------

  /** The signatures of the names that match the regex, in order. */
  function Signatures(files: seq<string>): (r: seq<(string, string)>)
    ensures |r| <= |files|
  {
    if |files| == 0 then []
    else
      var last := SignatureOf(files[|files| - 1]);
      Signatures(files[..|files| - 1]) + (if last.Some? then [last.value] else [])
  }

  /** The names starting with `pre` and ending with `ext`, in order. */
  function Matching(files: seq<string>, pre: string, ext: string): (r: seq<string>)
    ensures |r| <= |files|
    ensures forall k :: 0 <= k < |r| ==> StartsWith(r[k], pre) && EndsWith(r[k], ext) && r[k] in files
  {
    if |files| == 0 then []
    else
      var f := files[|files| - 1];
      Matching(files[..|files| - 1], pre, ext) + (if StartsWith(f, pre) && EndsWith(f, ext) then [f] else [])
  }

  /** `os.path.splitext` of each name. */
  function Extensions(files: seq<string>): (r: seq<string>)
    ensures |r| == |files|
  {
    if |files| == 0 then [] else Extensions(files[..|files| - 1]) + [SplitExt(files[|files| - 1])]
  }

  /** The note written after a shortened list of files. */
  datatype Note =
    | PatternNote(more: nat, prefix: string, ext: string, count: nat)
    | ExtensionNote(more: nat, counts: seq<(string, nat)>)
    | OmittedNote(omitted: nat)
  {
    function Render(): string {
      match this
      case PatternNote(more, prefix, ext, count) =>
        "... [" + NatToString(more) + " more files. Detected sequential pattern: '" + prefix + "<N>" + ext
        + "' (" + NatToString(count) + " files)]"
      case ExtensionNote(more, counts) =>
        "... [" + NatToString(more) + " more files. Summary: " + Join(", ", CountItems(counts)) + "]"
      case OmittedNote(omitted) =>
        "... [" + NatToString(omitted) + " files omitted due to context size limit]"
    }
  }

  /** "N .ext" per extension, "no-ext" for names without one. */
  function CountItems(counts: seq<(string, nat)>): (r: seq<string>)
    ensures |r| == |counts|
  {
    if |counts| == 0 then []
    else
      var (ext, n) := counts[|counts| - 1];
      CountItems(counts[..|counts| - 1]) + [NatToString(n) + " " + (if ext == "" then "no-ext" else ext)]
  }

  /** The displayed names and the note for one directory's files in smart mode. */
  function SmartList(files: seq<string>): (r: (seq<string>, Option<Note>))
    ensures r.1.None? <==> |files| <= SmartThreshold
    ensures |files| > SmartThreshold ==> |r.0| <= 10
    ensures forall k :: 0 <= k < |r.0| ==> r.0[k] in files
  {
    if |files| <= SmartThreshold then (files, None)
    else
      var patterns := Tally(Signatures(files));
      var top := if |patterns| > 0 then MostCommon(patterns) else 0;
      if |patterns| > 0 && 2 * patterns[top].1 > |files| then
        var (pre, ext) := patterns[top].0;
        (Take(Matching(files, pre, ext), 3), Some(PatternNote(|files| - 3, pre, ext, patterns[top].1)))
      else
        (Take(files, 10), Some(ExtensionNote(|files| - 10, Tally(Extensions(files[10..])))))
  }

  lemma {:induction false} OccPositive<K>(xs: seq<K>, k: K)
    requires Occ(xs, k) > 0
    ensures k in xs
  {
    if k !in xs {
      OccAbsent(xs, k);
    }
  }

  /** Every name with signature `(pre, ext)` starts with `pre` and ends with `ext`. */
  lemma {:induction false} MatchingCoversSignature(files: seq<string>, pre: string, ext: string)
    ensures |Matching(files, pre, ext)| >= Occ(Signatures(files), (pre, ext))
  {
    if |files| > 0 {
      var init := files[..|files| - 1];
      MatchingCoversSignature(init, pre, ext);
      var last := SignatureOf(files[|files| - 1]);
      var sigs := Signatures(files);
      if last.Some? {
        assert sigs == Signatures(init) + [last.value];
        assert sigs[..|sigs| - 1] == Signatures(init);
      } else {
        assert sigs == Signatures(init);
      }
    }
  }

  /**
   * When one signature covers more than half of a long list, the listing is
   * its first three matching names and the note gives its count; no other
   * signature could have been chosen.
   */
  lemma {:induction false} MajorityPattern(files: seq<string>, pre: string, ext: string)
    requires |files| > SmartThreshold
    requires 2 * Occ(Signatures(files), (pre, ext)) > |files|
    ensures SmartList(files) == (Take(Matching(files, pre, ext), 3),
      Some(PatternNote(|files| - 3, pre, ext, Occ(Signatures(files), (pre, ext)))))
    ensures |SmartList(files).0| == 3
    ensures forall k :: 0 <= k < 3 ==> StartsWith(SmartList(files).0[k], pre) && EndsWith(SmartList(files).0[k], ext)
  {
    var sigs := Signatures(files);
    var c := Occ(sigs, (pre, ext));
    MajorityIsMostCommon(sigs, (pre, ext), |files|);
    var t := Tally(sigs);
    var top := MostCommon(t);
    assert t[top] == ((pre, ext), c);
    MatchingCoversSignature(files, pre, ext);
    var m := Matching(files, pre, ext);
    assert |m| >= 3;
    assert SmartList(files) == (Take(m, 3), Some(PatternNote(|files| - 3, pre, ext, c)));
  }

  /**
   * When no signature covers more than half, a long list shows its first ten
   * names and the note counts the other names by extension; those counts add
   * up to the number of names not shown.
   */
  lemma {:induction false} NoMajorityExtensions(files: seq<string>)
    requires |files| > SmartThreshold
    requires forall sig :: 2 * Occ(Signatures(files), sig) <= |files|
    ensures SmartList(files) == (files[..10], Some(ExtensionNote(|files| - 10, Tally(Extensions(files[10..])))))
    ensures Total(Tally(Extensions(files[10..]))) == |files| - 10
    ensures forall k :: 0 <= k < |Tally(Extensions(files[10..]))| ==>
      Tally(Extensions(files[10..]))[k].1 == Occ(Extensions(files[10..]), Tally(Extensions(files[10..]))[k].0)
  {
    NoMajority(Signatures(files), |files|);
    TallyFacts(Extensions(files[10..]));
  }

  method CountSignatures(files: seq<string>) returns (patterns: seq<((string, string), nat)>)
    ensures patterns == Tally(Signatures(files))
  {
    patterns := [];
    var i := 0;
    while i < |files|
      invariant 0 <= i <= |files|
      invariant patterns == Tally(Signatures(files[..i]))
    {
      assert files[..i + 1][..i] == files[..i];
      var m := SignatureOf(files[i]);
      if m.Some? {
        patterns := Bump(patterns, m.value);
        assert Signatures(files[..i + 1]) == Signatures(files[..i]) + [m.value];
        assert Signatures(files[..i + 1])[..|Signatures(files[..i + 1])| - 1] == Signatures(files[..i]);
      } else {
        assert Signatures(files[..i + 1]) == Signatures(files[..i]);
      }
      i := i + 1;
    }
    assert files[..i] == files;
  }

  method CountExtensions(files: seq<string>) returns (counts: seq<(string, nat)>)
    ensures counts == Tally(Extensions(files))
  {
    counts := [];
    var i := 0;
    while i < |files|
      invariant 0 <= i <= |files|
      invariant counts == Tally(Extensions(files[..i]))
    {
      assert files[..i + 1][..i] == files[..i];
      counts := Bump(counts, SplitExt(files[i]));
      assert Extensions(files[..i + 1])[..i] == Extensions(files[..i]);
      i := i + 1;
    }
    assert files[..i] == files;
  }

  /** `_analyze_file_list_smart(files)`, with its two counting loops. */
  method AnalyzeFileListSmart(files: seq<string>) returns (shown: seq<string>, note: Option<Note>)
    ensures (shown, note) == SmartList(files)
  {
    if |files| <= SmartThreshold {
      return files, None;
    }
    var patterns := CountSignatures(files);
    if |patterns| > 0 {
      var top := MostCommon(patterns);
      var count := patterns[top].1;
      if 2 * count > |files| {
        var (pre, ext) := patterns[top].0;
        shown := Take(Matching(files, pre, ext), 3);
        note := Some(PatternNote(|files| - 3, pre, ext, count));
        return;
      }
    }
    var counts := CountExtensions(files[10..]);
    shown := files[..10];
    note := Some(ExtensionNote(|files| - 10, counts));
  }

  // ---------------------------------------------------------------------
  // `_generate_tree_internal` over an abstract directory tree
  // ---------------------------------------------------------------------

  /** What `os.stat` reports for a file; `None` in `File.stat` is an OSError. */
  datatype Stat = Stat(size: nat, modified: string)

  datatype File = File(name: string, stat: Option<Stat>)

  /**
   * A directory as `os.walk` lists it: its files, its sub-directories, and
   * whether it is a symbolic link (listed by its parent, never descended).
   */
  datatype Dir = Dir(name: string, link: bool, files: seq<File>, dirs: seq<Dir>)

  function NameOf(f: File): string { f.name }

  function DirName(d: Dir): string { d.name }

  /** Files not starting with '.', in order. */
  function VisibleFiles(files: seq<File>): (r: seq<File>)
    ensures forall k :: 0 <= k < |r| ==> !StartsWith(r[k].name, ".") && r[k] in files
  {
    if |files| == 0 then []
    else
      var f := files[|files| - 1];
      VisibleFiles(files[..|files| - 1]) + (if StartsWith(f.name, ".") then [] else [f])
  }

  predicate VisibleDir(d: Dir) {
    !StartsWith(d.name, ".") && d.name != "__pycache__"
  }

  /** Directories that are neither dot-prefixed nor `__pycache__`, in order. */
  function VisibleDirs(dirs: seq<Dir>): (r: seq<Dir>)
    ensures forall k :: 0 <= k < |r| ==> VisibleDir(r[k]) && r[k] in dirs
  {
    if |dirs| == 0 then []
    else
      var d := dirs[|dirs| - 1];
      VisibleDirs(dirs[..|dirs| - 1]) + (if VisibleDir(d) then [d] else [])
  }

  function Names(files: seq<File>): (r: seq<string>)
    ensures |r| == |files|
    ensures forall k :: 0 <= k < |r| ==> r[k] == files[k].name
  {
    if |files| == 0 then [] else Names(files[..|files| - 1]) + [files[|files| - 1].name]
  }

  /** The sorted names of the files that are listed at all. */
  function ListedNames(files: seq<File>): seq<string> {
    Names(SortBy(VisibleFiles(files), NameOf))
  }

  /** The sub-directories `os.walk` goes on to, after the in-place pruning of `dirs`. */
  function KeptDirs(dirs: seq<Dir>, dirLimit: Option<nat>): (r: seq<Dir>)
    ensures forall k :: 0 <= k < |r| ==> r[k] in dirs
  {
    var vis := VisibleDirs(dirs);
    var sorted := SortBy(vis, DirName);
    forall k | 0 <= k < |sorted|
      ensures sorted[k] in dirs
    {
      assert sorted[k] in multiset(sorted);
      assert sorted[k] in vis;
    }
    if dirLimit.Some? && |sorted| > dirLimit.value then sorted[..dirLimit.value] else sorted
  }

  /** The names to show and the note, in strict mode when `fileLimit` is given. */
  function ShownFiles(names: seq<string>, fileLimit: Option<nat>): (seq<string>, Option<Note>) {
    match fileLimit
    case None => SmartList(names)
    case Some(n) => if |names| > n then (names[..n], Some(OmittedNote(|names| - n))) else (names, None)
  }

  /** `s.replace(old, "")`: every non-overlapping occurrence removed, left to right. */
  function RemoveAll(s: string, pat: string): (r: string)
    ensures |r| <= |s|
    decreases |s|
  {
    if |pat| == 0 then s
    else
      var i := Find(s, pat);
      if i < 0 then s else s[..i] + RemoveAll(s[i + |pat|..], pat)
  }

  /** `os.path.join(a, b)` for a relative `b`. */
  function JoinPath(a: string, b: string): string {
    if a == "" || EndsWith(a, "/") then a + b else a + "/" + b
  }

  /** The first stat of a file called `name` (listed names always have one). */
  function StatOf(files: seq<File>, name: string): Option<Stat> {
    if |files| == 0 then None
    else if files[0].name == name then files[0].stat
    else StatOf(files[1..], name)
  }

  function FileLine(indent: string, name: string, stat: Option<Stat>): string {
    match stat
    case Some(st) => indent + name + " (Size: " + NatToString(st.size) + "B, Modified: " + st.modified + ")"
    case None => indent + name + " (unable to get info)"
  }

  /** One line per displayed file, in order. */
  function FileLines(indent: string, shown: seq<string>, files: seq<File>): (r: seq<string>)
    ensures |r| == |shown|
    ensures forall k :: 0 <= k < |r| ==> r[k] == FileLine(indent, shown[k], StatOf(files, shown[k]))
  {
    if |shown| == 0 then []
    else FileLines(indent, shown[..|shown| - 1], files) + [FileLine(indent, shown[|shown| - 1], StatOf(files, shown[|shown| - 1]))]
  }

  /** `root.replace(startpath, '').count(os.sep)`. */
  function Level(startpath: string, root: string): nat {
    Count(RemoveAll(root, startpath), "/")
  }

  /** The lines of the walk step at `root` itself: header, files, note. */
  function StepLines(startpath: string, root: string, d: Dir, fileLimit: Option<nat>): seq<string> {
    var level := Level(startpath, root);
    var header := if root != "." then [Repeat(' ', 4 * level) + Basename(root) + "/"] else [];
    var sub := Repeat(' ', 4 * (level + 1));
    var (shown, note) := ShownFiles(ListedNames(d.files), fileLimit);
    header + FileLines(sub, shown, d.files) + (if note.Some? then [sub + note.value.Render()] else [])
  }

  /** The lines `os.walk` top-down produces for the directory `d` at path `root`. */
  function WalkLines(startpath: string, root: string, d: Dir, fileLimit: Option<nat>, dirLimit: Option<nat>): seq<string>
    decreases d, 1, 0
  {
    StepLines(startpath, root, d, fileLimit) + WalkKids(startpath, root, KeptDirs(d.dirs, dirLimit), d, fileLimit, dirLimit)
  }

  function WalkKids(startpath: string, root: string, kids: seq<Dir>, parent: Dir, fileLimit: Option<nat>, dirLimit: Option<nat>): seq<string>
    requires forall k :: 0 <= k < |kids| ==> kids[k] in parent.dirs
    decreases parent, 0, |kids|
  {
    if |kids| == 0 then []
    else
      var kid := kids[0];
      assert kid in parent.dirs;
      (if kid.link then [] else WalkLines(startpath, JoinPath(root, kid.name), kid, fileLimit, dirLimit))
      + WalkKids(startpath, root, kids[1..], parent, fileLimit, dirLimit)
  }

  /** `_generate_tree_internal(startpath, strict_file_limit, strict_dir_limit)`; `now` is the clock reading. */
  function GenerateTree(startpath: string, now: string, tree: Dir, fileLimit: Option<nat>, dirLimit: Option<nat>): string {
    Join("\n", ["Last updated: " + now] + WalkLines(startpath, startpath, tree, fileLimit, dirLimit))
  }

  /**
   * The listed names are sorted, no dot-file is ever listed in either mode,
   * and strict mode shows the first `n` listed names and counts the others.
   */
  lemma {:induction false} ListedNamesVisible(files: seq<File>, fileLimit: Option<nat>)
    ensures forall k :: 0 <= k < |ListedNames(files)| - 1 ==> Leq(ListedNames(files)[k], ListedNames(files)[k + 1])
    ensures forall k :: 0 <= k < |ShownFiles(ListedNames(files), fileLimit).0| ==>
      !StartsWith(ShownFiles(ListedNames(files), fileLimit).0[k], ".")
    ensures fileLimit.Some? ==>
      var n := fileLimit.value;
      ShownFiles(ListedNames(files), fileLimit) ==
        (Take(ListedNames(files), n), if |ListedNames(files)| > n then Some(OmittedNote(|ListedNames(files)| - n)) else None)
  {
    var vis := VisibleFiles(files);
    var sorted := SortBy(vis, NameOf);
    SortBySorted(vis, NameOf);
    var names := ListedNames(files);
    assert forall k :: 0 <= k < |names| ==> names[k] == sorted[k].name;
    forall k | 0 <= k < |names|
      ensures !StartsWith(names[k], ".")
    {
      assert sorted[k] in multiset(vis);
    }
    var shown := ShownFiles(names, fileLimit).0;
    forall k | 0 <= k < |shown|
      ensures !StartsWith(shown[k], ".")
    {
      if fileLimit.None? {
        assert shown[k] in names;
      } else {
        assert shown[k] == names[k];
      }
    }
  }

  /**
   * The walk only descends into visible directories, in name order, and with
   * a directory limit into at most that many per directory.
   */
  lemma {:induction false} KeptDirsShape(dirs: seq<Dir>, dirLimit: Option<nat>)
    ensures forall k :: 0 <= k < |KeptDirs(dirs, dirLimit)| ==> VisibleDir(KeptDirs(dirs, dirLimit)[k])
    ensures SortedBy(KeptDirs(dirs, dirLimit), DirName)
    ensures dirLimit.Some? ==> |KeptDirs(dirs, dirLimit)| <= dirLimit.value
  {
    var vis := VisibleDirs(dirs);
    var sorted := SortBy(vis, DirName);
    SortBySorted(vis, DirName);
    forall k | 0 <= k < |sorted|
      ensures VisibleDir(sorted[k])
    {
      assert sorted[k] in multiset(vis);
    }
  }

  // ---------------------------------------------------------------------
  // `get_directory_tree_str`
  // ---------------------------------------------------------------------

  const Safeguard1 := "!!! WARNING: Directory tree too large (> 100000 tokens). Applied SAFEGUARD 1: Truncating to max 10 files per directory.\n"
  const Safeguard2 := "!!! WARNING: Directory tree EXTREMELY large. Applied SAFEGUARD 2: Truncating to max 10 files AND max 10 subdirectories per directory.\n"
  const Critical := "CRITICAL: Working directory is too large to represent in context. Even with strict truncation, the tree exceeds 100000 tokens. Please reorganize your files or use a .gitignore to exclude data directories."

  /** The three renderings, each generated with its own clock reading. */
  function Renderings(startpath: string, now: seq<string>, tree: Dir): (r: seq<string>)
    requires |now| == 3
    ensures |r| == 3
  {
    [GenerateTree(startpath, now[0], tree, None, None),
     Safeguard1 + GenerateTree(startpath, now[1], tree, Some(10), None),
     Safeguard2 + GenerateTree(startpath, now[2], tree, Some(10), Some(10))]
  }

  /** The first of the renderings shorter than the bound, else the critical message. */
  function Cascade(rs: seq<string>): string
    requires |rs| == 3
  {
    if |rs[0]| < MaxOutputChars then rs[0]
    else if |rs[1]| < MaxOutputChars then rs[1]
    else if |rs[2]| < MaxOutputChars then rs[2]
    else Critical
  }

  /** `get_directory_tree_str(startpath)`. */
  function DirectoryTreeStr(startpath: string, now: seq<string>, tree: Dir): string
    requires |now| == 3
  {
    Cascade(Renderings(startpath, now, tree))
  }

  /**
   * The result is the first rendering shorter than the bound, or the fixed
   * critical message when none is; either way it is shorter than the bound.
   */
  lemma {:induction false} CascadeFirstFit(rs: seq<string>)
    requires |rs| == 3
    ensures |Cascade(rs)| < MaxOutputChars
    ensures forall j :: 0 <= j < 3 && |rs[j]| < MaxOutputChars ==>
      exists i :: 0 <= i <= j && Cascade(rs) == rs[i] && forall h :: 0 <= h < i ==> |rs[h]| >= MaxOutputChars
    ensures (forall j :: 0 <= j < 3 ==> |rs[j]| >= MaxOutputChars) ==> Cascade(rs) == Critical
  {
    assert |Critical| < MaxOutputChars;
    forall j | 0 <= j < 3 && |rs[j]| < MaxOutputChars
      ensures exists i :: 0 <= i <= j && Cascade(rs) == rs[i] && forall h :: 0 <= h < i ==> |rs[h]| >= MaxOutputChars
    {
      if |rs[0]| < MaxOutputChars {
        assert Cascade(rs) == rs[0];
      } else if |rs[1]| < MaxOutputChars {
        assert Cascade(rs) == rs[1];
      } else {
        assert Cascade(rs) == rs[2];
      }
    }
  }
}
