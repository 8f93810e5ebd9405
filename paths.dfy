/** The parts of `os.path` (POSIX flavour) the tools use on path strings. */
module Paths {
  import opened Text

  /** Index of the last `c` in `s`, or -1. */
  function LastIndex(s: string, c: char): (r: int)
    ensures -1 <= r < |s|
    ensures r >= 0 ==> s[r] == c
    ensures forall j :: r < j < |s| ==> s[j] != c
  {
    RFindChar(s, c)
  }

  /** Some character strictly between `from` and `to` is not a dot. */
  predicate HasNonDot(p: string, from: int, to: int)
    requires 0 <= from && to <= |p|
  {
    exists k :: from <= k < to && p[k] != '.'
  }

  /**
   * `os.path.splitext(p)[1]`: from the last dot of the final component to the
   * end, unless that component has only dots before it (".bashrc" has none).
   */
  function SplitExt(p: string): (ext: string)
    ensures ext == [] || (ext[0] == '.' && EndsWith(p, ext))
    ensures forall k :: 0 <= k < |ext| ==> ext[k] != '/'
    ensures forall k :: 1 <= k < |ext| ==> ext[k] != '.'
  {
    var sep := LastIndex(p, '/');
    var dot := LastIndex(p, '.');
    if dot > sep && HasNonDot(p, sep + 1, dot) then
      var ext := p[dot..];
      assert ext == p[|p| - |ext|..];
      assert forall k :: 0 <= k < |ext| ==> ext[k] == p[dot + k];
      ext
    else []
  }

  /** `os.path.basename(p)`: the text after the last '/'. */
  function Basename(p: string): (b: string)
    ensures EndsWith(p, b)
    ensures forall k :: 0 <= k < |b| ==> b[k] != '/'
  {
    var sep := LastIndex(p, '/');
    var b := p[sep + 1..];
    assert b == p[|p| - |b|..];
    assert forall k :: 0 <= k < |b| ==> b[k] == p[sep + 1 + k];
    b
  }

  /** Every character of a tail without a '/' is not a '/' in the path either. */
  lemma {:induction false} TailHasNoSlash(p: string, t: string)
    requires EndsWith(p, t) && forall k :: 0 <= k < |t| ==> t[k] != '/'
    ensures forall k :: |p| - |t| <= k < |p| ==> p[k] != '/'
  {
    forall k | |p| - |t| <= k < |p|
      ensures p[k] != '/'
    {
      assert p[k] == p[|p| - |t|..][k - (|p| - |t|)];
    }
  }

  /** The base name is at least as long as any tail without a '/'. */
  lemma {:induction false} BasenameHoldsTail(p: string, t: string)
    requires EndsWith(p, t) && forall k :: 0 <= k < |t| ==> t[k] != '/'
    ensures |t| <= |Basename(p)|
  {
    TailHasNoSlash(p, t);
  }

  /** Of two tails of one string, the shorter is a tail of the longer. */
  lemma {:induction false} SuffixOfSuffix(p: string, b: string, t: string)
    requires EndsWith(p, b) && EndsWith(p, t) && |t| <= |b|
    ensures EndsWith(b, t)
  {
    assert b[|b| - |t|..] == p[|p| - |t|..];
  }

  /** A tail of a path without a '/' is a tail of its base name. */
  lemma {:induction false} SuffixInBasename(p: string, t: string)
    requires EndsWith(p, t) && forall k :: 0 <= k < |t| ==> t[k] != '/'
    ensures EndsWith(Basename(p), t)
  {
    BasenameHoldsTail(p, t);
    SuffixOfSuffix(p, Basename(p), t);
  }

  /** Every character of `s` is a '/'. */
  predicate AllSlashes(s: string) {
    forall k :: 0 <= k < |s| ==> s[k] == '/'
  }

  /** A non-empty run of slashes names the root directory. */
  predicate IsRoot(p: string) {
    p != "" && AllSlashes(p)
  }

  /** `s.rstrip('/')`. */
  function RStripSlash(s: string): (r: string)
    ensures |r| <= |s| && r == s[..|r|]
    ensures r == "" || r[|r| - 1] != '/'
    ensures !AllSlashes(s) ==> r != ""
  {
    if |s| > 0 && s[|s| - 1] == '/' then
      var r := RStripSlash(s[..|s| - 1]);
      assert !AllSlashes(s) ==> !AllSlashes(s[..|s| - 1]) by {
        if !AllSlashes(s) {
          var k :| 0 <= k < |s| && s[k] != '/';
          assert s[..|s| - 1][k] == s[k];
        }
      }
      r
    else s
  }

  /**
   * `os.path.split(p)`: the head up to the last '/', with its trailing
   * slashes removed unless it is nothing but slashes, and the tail after it.
   */
  function PathSplit(p: string): (r: (string, string))
    ensures |r.0| <= |p| && (r.1 != "" ==> |r.0| < |p|)
    ensures EndsWith(p, r.1) && forall k :: 0 <= k < |r.1| ==> r.1[k] != '/'
    ensures r.0 == "" || IsRoot(r.0) || r.0[|r.0| - 1] != '/'
  {
    var i := LastIndex(p, '/') + 1;
    var head := p[..i];
    var tail := p[i..];
    assert tail == p[|p| - |tail|..];
    assert forall k :: 0 <= k < |tail| ==> tail[k] == p[i + k];
    if head != "" && !AllSlashes(head) then (RStripSlash(head), tail) else (head, tail)
  }

  /** `os.path.dirname(p)`. */
  function Dirname(p: string): string {
    PathSplit(p).0
  }

  /**
   * The split `os.makedirs` works with: a path ending in '/' is split once
   * more, so that its tail is the last named component.
   */
  function SplitFinal(p: string): (r: (string, string))
    ensures r.1 != "" ==> |r.0| < |p|
  {
    var (head, tail) := PathSplit(p);
    if tail == "" then PathSplit(head) else (head, tail)
  }

  /** The head of an absolute path is absolute. */
  lemma {:induction false} HeadStaysAbsolute(p: string)
    requires StartsWith(p, "/")
    ensures StartsWith(PathSplit(p).0, "/")
  {
    assert p[0] == '/';
    var i := LastIndex(p, '/') + 1;
    assert i >= 1;
    var head := p[..i];
    assert head[0] == '/';
    if head != "" && !AllSlashes(head) {
      var r := RStripSlash(head);
      assert r[0] == head[0];
    }
  }

  /** Both heads `SplitFinal` takes of an absolute path are absolute. */
  lemma {:induction false} FinalHeadStaysAbsolute(p: string)
    requires StartsWith(p, "/")
    ensures StartsWith(SplitFinal(p).0, "/")
  {
    HeadStaysAbsolute(p);
    if PathSplit(p).1 == "" {
      HeadStaysAbsolute(PathSplit(p).0);
    }
  }
}
