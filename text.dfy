/**
 * The Python string operations the modelled code relies on, with Python's
 * semantics: `str.strip`, `str.split`, `str.splitlines`, `str.find`,
 * `str.count`, slicing with negative bounds, and decimal formatting.
 */
module Text {

  /** `str.isspace()` for a single character (the full Unicode set Python uses). */
  predicate IsSpace(c: char) {
    c == ' ' || ('\t' <= c <= '\r') || ('\U{1c}' <= c <= '\U{1f}') || c == '\U{85}' || c == '\U{a0}'
    || c == '\U{1680}' || ('\U{2000}' <= c <= '\U{200a}') || c == '\U{2028}' || c == '\U{2029}'
    || c == '\U{202f}' || c == '\U{205f}' || c == '\U{3000}'
  }

  /** A line boundary recognised by `str.splitlines()`. */
  predicate IsLineBreak(c: char) {
    c == '\n' || c == '\r' || c == '\U{0b}' || c == '\U{0c}' || ('\U{1c}' <= c <= '\U{1e}')
    || c == '\U{85}' || c == '\U{2028}' || c == '\U{2029}'
  }

  predicate IsDigit(c: char) { '0' <= c <= '9' }

  predicate IsAlnum(c: char) { IsDigit(c) || 'a' <= c <= 'z' || 'A' <= c <= 'Z' }

  function LStrip(s: string): (r: string)
    ensures |r| <= |s|
    ensures r == [] || !IsSpace(r[0])
    ensures forall i :: 0 <= i < |s| - |r| ==> IsSpace(s[i])
  {
    if |s| > 0 && IsSpace(s[0]) then LStrip(s[1..]) else s
  }

  function RStrip(s: string): (r: string)
    ensures |r| <= |s| && forall i :: 0 <= i < |r| ==> r[i] == s[i]
    ensures r == [] || !IsSpace(r[|r| - 1])
    ensures forall i :: |r| <= i < |s| ==> IsSpace(s[i])
  {
    if |s| > 0 && IsSpace(s[|s| - 1]) then RStrip(s[..|s| - 1]) else s
  }

  /** `str.strip()`: the longest infix with no whitespace at either end. */
  function Strip(s: string): (r: string)
    ensures |r| <= |s|
    ensures r == [] || (!IsSpace(r[0]) && !IsSpace(r[|r| - 1]))
  {
    RStrip(LStrip(s))
  }

  /** Text with no whitespace at either end is its own strip. */
  lemma {:induction false} StripNoEdgeSpace(s: string)
    requires s == [] || (!IsSpace(s[0]) && !IsSpace(s[|s| - 1]))
    ensures Strip(s) == s
  {
    assert LStrip(s) == s;
  }

  /** Stripping twice strips no more than once. */
  lemma {:induction false} StripIdempotent(s: string)
    ensures Strip(Strip(s)) == Strip(s)
  {
    StripNoEdgeSpace(Strip(s));
  }

  /** Stripping keeps a prefix that holds no whitespace. */
  lemma {:induction false} StripKeepsPrefix(s: string, p: string)
    requires StartsWith(s, p) && forall i :: 0 <= i < |p| ==> !IsSpace(p[i])
    ensures StartsWith(Strip(s), p)
  {
    if |p| > 0 {
      assert LStrip(s) == s by {
        assert s[0] == p[0];
      }
      RStripKeepsPrefix(s, p);
    }
  }

  /** Right-stripping keeps a prefix that does not end in whitespace. */
  lemma {:induction false} RStripKeepsPrefix(s: string, p: string)
    requires |p| > 0 && StartsWith(s, p) && !IsSpace(p[|p| - 1])
    ensures StartsWith(RStrip(s), p)
  {
    var r := RStrip(s);
    assert s[|p| - 1] == p[|p| - 1];
    assert r[..|p|] == s[..|p|];
  }

  /** Stripping keeps a prefix whose first and last characters are not whitespace. */
  lemma {:induction false} StripKeepsEdgedPrefix(s: string, p: string)
    requires StartsWith(s, p) && |p| > 0 && !IsSpace(p[0]) && !IsSpace(p[|p| - 1])
    ensures StartsWith(Strip(s), p)
  {
    assert LStrip(s) == s by {
      assert s[0] == p[0];
    }
    RStripKeepsPrefix(s, p);
  }

  /** Two prefixes that differ at some common position cannot both begin `s`. */
  lemma {:induction false} PrefixesClash(s: string, p: string, q: string, k: nat)
    requires StartsWith(s, p) && k < |p| && k < |q| && p[k] != q[k]
    ensures !StartsWith(s, q)
  {
    assert s[k] == p[k];
  }

  /** A string contains each of its non-empty prefixes. */
  lemma {:induction false} ContainsPrefix(s: string, p: string)
    requires StartsWith(s, p) && |p| > 0
    ensures Contains(s, p)
  {
    assert OccursAt(s, p, 0);
  }

  /** Appending keeps a prefix. */
  lemma {:induction false} StartsWithLonger(s: string, t: string, p: string)
    requires StartsWith(s, p)
    ensures StartsWith(s + t, p)
  {
    assert (s + t)[..|p|] == s[..|p|];
  }

  /** `s.lstrip(c)` for one character. */
  function LStripChar(s: string, c: char): (r: string)
    ensures |r| <= |s|
    ensures r == [] || r[0] != c
    ensures forall i :: 0 <= i < |s| - |r| ==> s[i] == c
  {
    if |s| > 0 && s[0] == c then LStripChar(s[1..], c) else s
  }

  /** What `LStripChar` keeps is the tail of its input. */
  lemma {:induction false} LStripCharSuffix(s: string, c: char)
    ensures forall i :: 0 <= i < |LStripChar(s, c)| ==> LStripChar(s, c)[i] == s[|s| - |LStripChar(s, c)| + i]
    decreases |s|
  {
    if |s| > 0 && s[0] == c {
      LStripCharSuffix(s[1..], c);
    }
  }

  predicate StartsWith(s: string, p: string) {
    |p| <= |s| && s[..|p|] == p
  }

  predicate EndsWith(s: string, p: string) {
    |p| <= |s| && s[|s| - |p|..] == p
  }

  /** A concatenation starts with its left part and ends with its right part. */
  lemma {:induction false} ConcatAffixes(a: string, b: string)
    ensures StartsWith(a + b, a) && EndsWith(a + b, b)
  {
    assert (a + b)[..|a|] == a;
    assert (a + b)[|a + b| - |b|..] == b;
  }

  predicate OccursAt(s: string, sub: string, i: int) {
    0 <= i && i + |sub| <= |s| && s[i..i + |sub|] == sub
  }

  function FindFrom(s: string, sub: string, i: nat): (r: int)
    requires i <= |s|
    ensures r == -1 || (i <= r && OccursAt(s, sub, r))
    ensures forall j :: i <= j && (r == -1 || j < r) ==> !OccursAt(s, sub, j)
    decreases |s| - i
  {
    if i + |sub| > |s| then -1
    else if s[i..i + |sub|] == sub then i
    else FindFrom(s, sub, i + 1)
  }

  /** `s.find(sub)`: the first index where `sub` occurs, or -1. */
  function Find(s: string, sub: string): (r: int)
    ensures r == -1 || OccursAt(s, sub, r)
    ensures forall j :: 0 <= j && (r == -1 || j < r) ==> !OccursAt(s, sub, j)
  {
    FindFrom(s, sub, 0)
  }

  /** `sub in s`. */
  predicate Contains(s: string, sub: string) {
    Find(s, sub) >= 0
  }

  lemma {:induction false} ContainsIff(s: string, sub: string)
    ensures Contains(s, sub) <==> exists i :: OccursAt(s, sub, i)
  {
  }

  /** A string holding no character `c` does not contain any `sub` that starts with `c`. */
  lemma {:induction false} NoneOfFirstChar(s: string, sub: string)
    requires |sub| > 0 && forall k :: 0 <= k < |s| ==> s[k] != sub[0]
    ensures !Contains(s, sub)
  {
    forall i | 0 <= i && i + |sub| <= |s|
      ensures !OccursAt(s, sub, i)
    {
      assert s[i..i + |sub|][0] == s[i];
    }
  }

  /** `s.rfind(c)` for one character. */
  function RFindChar(s: string, c: char): (r: int)
    ensures -1 <= r < |s|
    ensures r >= 0 ==> s[r] == c
    ensures forall j :: r < j < |s| ==> s[j] != c
  {
    if |s| == 0 then -1 else if s[|s| - 1] == c then |s| - 1 else RFindChar(s[..|s| - 1], c)
  }

  /** `s.find(c)` for one character. */
  function FindChar(s: string, c: char): (r: int)
    ensures -1 <= r < |s|
    ensures r >= 0 ==> s[r] == c
    ensures forall j :: 0 <= j < |s| && (r == -1 || j < r) ==> s[j] != c
  {
    if |s| == 0 then -1
    else if s[0] == c then 0
    else var k := FindChar(s[1..], c); if k == -1 then -1 else k + 1
  }

  /** `s.count(sub)` for a non-empty `sub`: non-overlapping occurrences, scanned left to right. */
  function Count(s: string, sub: string): nat
    requires |sub| > 0
    decreases |s|
  {
    var i := Find(s, sub);
    if i < 0 then 0 else 1 + Count(s[i + |sub|..], sub)
  }

  lemma {:induction false} CountZeroIff(s: string, sub: string)
    requires |sub| > 0
    ensures Count(s, sub) == 0 <==> !Contains(s, sub)
  {
  }

  /** `s.split(sep)` for a non-empty separator. */
  function Split(s: string, sep: string): (r: seq<string>)
    requires |sep| > 0
    ensures |r| >= 1
    decreases |s|
  {
    var i := Find(s, sep);
    if i < 0 then [s] else [s[..i]] + Split(s[i + |sep|..], sep)
  }

  /** A separator that occurs splits the text into at least two pieces. */
  lemma {:induction false} SplitOccurs(s: string, sep: string)
    requires |sep| > 0 && Contains(s, sep)
    ensures |Split(s, sep)| >= 2
  {
  }

  /** The text before the first `sep`, or all of `s` (`s.split(sep)[0]`). */
  function Before(s: string, sep: string): (r: string)
    ensures Find(s, sep) < 0 ==> r == s
    ensures Find(s, sep) >= 0 ==> r == s[..Find(s, sep)]
  {
    var i := Find(s, sep);
    if i < 0 then s else s[..i]
  }

  /** The text after the first `sep`; `s` must contain it. */
  function After(s: string, sep: string): (r: string)
    requires Contains(s, sep)
    ensures r == s[Find(s, sep) + |sep|..]
  {
    s[Find(s, sep) + |sep|..]
  }

  /** Joining the pieces of a split with the separator gives back the text. */
  lemma {:induction false} SplitJoin(s: string, sep: string)
    requires |sep| > 0
    ensures Join(sep, Split(s, sep)) == s
    decreases |s|
  {
    var i := Find(s, sep);
    if i >= 0 {
      SplitJoin(s[i + |sep|..], sep);
      JoinAround(sep, s);
    }
  }

  /** When the pieces after the first `sep` join back to what follows it, all the pieces join back to the text. */
  lemma {:induction false} JoinAround(sep: string, s: string)
    requires |sep| > 0 && Find(s, sep) >= 0
    requires var rest := s[Find(s, sep) + |sep|..]; Join(sep, Split(rest, sep)) == rest
    ensures Join(sep, Split(s, sep)) == s
  {
    var i := Find(s, sep);
    var pieces := Split(s[i + |sep|..], sep);
    assert Split(s, sep) == [s[..i]] + pieces;
    JoinCons(sep, s[..i], pieces);
    Reassemble(s, sep, i);
  }

  /** A text is what comes before an occurrence, the occurrence, and what comes after it. */
  lemma {:induction false} Reassemble(s: string, sep: string, i: nat)
    requires OccursAt(s, sep, i)
    ensures s[..i] + sep + s[i + |sep|..] == s
  {
    var t := s[..i] + sep + s[i + |sep|..];
    assert |t| == |s|;
    forall k | 0 <= k < |s|
      ensures t[k] == s[k]
    {
      if k < i {
      } else if k < i + |sep| {
        assert t[k] == sep[k - i] == s[i..i + |sep|][k - i];
      } else {
        assert t[k] == s[i + |sep|..][k - i - |sep|];
      }
    }
  }

  lemma {:induction false} JoinCons(sep: string, x: string, rest: seq<string>)
    requires |rest| > 0
    ensures Join(sep, [x] + rest) == x + sep + Join(sep, rest)
  {
    assert ([x] + rest)[1..] == rest;
  }

  /** A split has one piece more than the text has non-overlapping occurrences of the separator. */
  lemma {:induction false} SplitCount(s: string, sep: string)
    requires |sep| > 0
    ensures |Split(s, sep)| == Count(s, sep) + 1
    decreases |s|
  {
    var i := Find(s, sep);
    if i >= 0 {
      SplitCount(s[i + |sep|..], sep);
    }
  }

  /** The first two pieces of a split are the text before the separator and the text between its first two occurrences. */
  lemma {:induction false} SplitPieces(s: string, sep: string)
    requires |sep| > 0
    ensures Split(s, sep)[0] == Before(s, sep)
    ensures Contains(s, sep) ==> |Split(s, sep)| >= 2 && Split(s, sep)[1] == Before(After(s, sep), sep)
  {
    if Contains(s, sep) {
      var rest := s[Find(s, sep) + |sep|..];
      assert Split(s, sep) == [s[..Find(s, sep)]] + Split(rest, sep);
      assert Split(rest, sep)[0] == Before(rest, sep);
    }
  }

  /** The text before the first `sep` holds no `sep`. */
  lemma {:induction false} NoSepBefore(s: string, sep: string)
    requires |sep| > 0
    ensures !Contains(Before(s, sep), sep)
  {
    var i := Find(s, sep);
    if i >= 0 {
      var t := s[..i];
      forall j | 0 <= j && j + |sep| <= |t|
        ensures !OccursAt(t, sep, j)
      {
        assert j < i;
        assert !OccursAt(s, sep, j);
        assert t[j..j + |sep|] == s[j..j + |sep|];
      }
    }
  }

  /**
   * `x.split(a)[0].split(b)[0]` for a separator `b` that begins `a`: a prefix
   * of `x` holding no `b`, followed in `x` by `b` or by the end of `x`.
   */
  lemma {:induction false} BeforeBeforePrefixSep(x: string, a: string, b: string)
    requires |b| > 0 && StartsWith(a, b)
    ensures exists k :: 0 <= k <= |x| && Before(Before(x, a), b) == x[..k] && !Contains(x[..k], b)
                        && (k == |x| || OccursAt(x, b, k))
  {
    var y := Before(x, a);
    var m := Find(y, b);
    NoSepBefore(y, b);
    if m >= 0 {
      assert y[m..m + |b|] == x[m..m + |b|];
      assert y[..m] == x[..m];
      assert Before(y, b) == x[..m];
    } else {
      var i := Find(x, a);
      if i < 0 {
        assert x[..|x|] == x;
      } else {
        assert x[i..i + |a|][..|b|] == x[i..i + |b|];
        assert OccursAt(x, b, i);
      }
    }
  }

  /** The joining of `parts` with `sep` between them (`sep.join(parts)`). */
  function Join(sep: string, parts: seq<string>): string {
    if |parts| == 0 then ""
    else if |parts| == 1 then parts[0]
    else parts[0] + sep + Join(sep, parts[1..])
  }

  function IndexOfSpace(s: string): (k: nat)
    ensures k <= |s|
    ensures forall i :: 0 <= i < k ==> !IsSpace(s[i])
    ensures k < |s| ==> IsSpace(s[k])
  {
    if |s| == 0 || IsSpace(s[0]) then 0 else 1 + IndexOfSpace(s[1..])
  }

  /** `s.split()`: the maximal runs of non-whitespace characters, in order. */
  function SplitWhitespace(s: string): (r: seq<string>)
    ensures forall i :: 0 <= i < |r| ==> |r[i]| > 0
    decreases |s|
  {
    var t := LStrip(s);
    if |t| == 0 then []
    else
      var k := IndexOfSpace(t);
      [t[..k]] + SplitWhitespace(t[k..])
  }

  function IndexOfLineBreak(s: string): (k: nat)
    ensures k <= |s|
    ensures forall i :: 0 <= i < k ==> !IsLineBreak(s[i])
    ensures k < |s| ==> IsLineBreak(s[k])
  {
    if |s| == 0 || IsLineBreak(s[0]) then 0 else 1 + IndexOfLineBreak(s[1..])
  }

  /** `s.splitlines()`: lines without their terminators; "\r\n" is one terminator. */
  function SplitLines(s: string): (r: seq<string>)
    ensures forall i :: 0 <= i < |r| ==> forall j :: 0 <= j < |r[i]| ==> !IsLineBreak(r[i][j])
    decreases |s|
  {
    if |s| == 0 then []
    else
      var k := IndexOfLineBreak(s);
      if k == |s| then [s]
      else
        var skip := if s[k] == '\r' && k + 1 < |s| && s[k + 1] == '\n' then 2 else 1;
        [s[..k]] + SplitLines(s[k + skip..])
  }

  /**
   * The lines produced by iterating over a file opened in text mode (and by
   * `readlines()`): each line keeps its '\n', the last one may lack it.
   */
  function FileLines(s: string): (r: seq<string>)
    ensures forall i :: 0 <= i < |r| ==> |r[i]| > 0
    ensures forall i :: 0 <= i < |r| - 1 ==> r[i][|r[i]| - 1] == '\n'
    ensures Join("", r) == s
    decreases |s|
  {
    if |s| == 0 then []
    else
      var k := FindChar(s, '\n');
      if k < 0 then [s]
      else
        var rest := FileLines(s[k + 1..]);
        JoinEmptyCons(s[..k + 1], rest);
        assert s[..k + 1] + s[k + 1..] == s;
        [s[..k + 1]] + rest
  }

  lemma {:induction false} JoinEmptyCons(x: string, rest: seq<string>)
    ensures Join("", [x] + rest) == x + Join("", rest)
  {
    if |rest| == 0 {
      assert [x] + rest == [x];
    } else {
      assert ([x] + rest)[1..] == rest;
    }
  }

  /** Concatenating lines distributes over splitting the list of lines in two. */
  lemma {:induction false} JoinEmptyAppend(xs: seq<string>, ys: seq<string>)
    ensures Join("", xs + ys) == Join("", xs) + Join("", ys)
  {
    if |xs| > 0 {
      JoinEmptyAppend(xs[1..], ys);
      JoinEmptyCons(xs[0], xs[1..] + ys);
      JoinEmptyCons(xs[0], xs[1..]);
      assert xs + ys == [xs[0]] + (xs[1..] + ys);
      assert xs == [xs[0]] + xs[1..];
    } else {
      assert xs + ys == ys;
    }
  }

  /** `line.startswith((a, b, ...))`. */
  predicate StartsWithAny(s: string, prefixes: seq<string>) {
    exists i :: 0 <= i < |prefixes| && StartsWith(s, prefixes[i])
  }

  /** `str.lower()` restricted to ASCII letters. */
  function Lower(s: string): (r: string)
    ensures |r| == |s|
    ensures forall i :: 0 <= i < |s| ==> r[i] == LowerChar(s[i])
  {
    seq(|s|, i requires 0 <= i < |s| => LowerChar(s[i]))
  }

  function LowerChar(c: char): char {
    if 'A' <= c <= 'Z' then (c as int + 32) as char else c
  }

  /** `c * n` for a one-character string; a negative count gives "". */
  function Repeat(c: char, n: int): (r: string)
    ensures |r| == if n <= 0 then 0 else n
    ensures forall i :: 0 <= i < |r| ==> r[i] == c
    decreases n
  {
    if n <= 0 then [] else [c] + Repeat(c, n - 1)
  }

  /** `max(n, 0)`. */
  function MaxOf0(n: int): nat { if n < 0 then 0 else n }

  /** `s[:n]` for `n >= 0`. */
  function Take<T>(s: seq<T>, n: nat): (r: seq<T>)
    ensures |r| == if n < |s| then n else |s|
    ensures forall i :: 0 <= i < |r| ==> r[i] == s[i]
  {
    if n < |s| then s[..n] else s
  }

  /** Appending to a list grows its first `n` items only while it is shorter than `n`. */
  lemma {:induction false} TakeSnoc<T>(xs: seq<T>, x: T, n: nat)
    ensures Take(xs + [x], n) == if |xs| < n then xs + [x] else Take(xs, n)
  {
    if |xs| >= n {
      assert (xs + [x])[..n] == xs[..n];
    }
  }

  /** `s[n:]` for `n >= 0`. */
  function Drop<T>(s: seq<T>, n: nat): (r: seq<T>)
    ensures |r| == if n < |s| then |s| - n else 0
  {
    if n < |s| then s[n..] else []
  }

  /** `s[-n:]` for `n >= 0`; note that `s[-0:]` is all of `s`. */
  function TakeLast<T>(s: seq<T>, n: nat): (r: seq<T>)
    ensures n == 0 ==> r == s
    ensures n > 0 ==> |r| == (if n < |s| then n else |s|)
  {
    if n == 0 then s else if n < |s| then s[|s| - n..] else s
  }

  function DigitChar(d: nat): char
    requires d < 10
  {
    ['0', '1', '2', '3', '4', '5', '6', '7', '8', '9'][d]
  }

  /** The decimal digits of `n` (`str(n)` for `n >= 0`). */
  function NatToString(n: nat): (r: string)
    ensures |r| > 0
    ensures forall i :: 0 <= i < |r| ==> IsDigit(r[i])
    decreases n
  {
    if n < 10 then [DigitChar(n)] else NatToString(n / 10) + [DigitChar(n % 10)]
  }

  /** `str(i)` for any integer. */
  function IntToString(i: int): string {
    if i < 0 then "-" + NatToString(-i) else NatToString(i)
  }

  function Pad3(n: nat): string
    requires n < 1000
  {
    if n < 10 then "00" + NatToString(n) else if n < 100 then "0" + NatToString(n) else NatToString(n)
  }

  /** `f"{n:,}"`: decimal digits grouped by thousands with commas. */
  function NatToGrouped(n: nat): (r: string)
    ensures |r| > 0
    decreases n
  {
    if n < 1000 then NatToString(n) else NatToGrouped(n / 1000) + "," + Pad3(n % 1000)
  }

  /**
   * Reading in text mode with universal newlines: "\r\n" and a lone "\r"
   * both become "\n".
   */
  function UniversalNewlines(s: string): (r: string)
    ensures |r| <= |s|
    ensures forall i :: 0 <= i < |r| ==> r[i] != '\r'
  {
    if |s| == 0 then []
    else if s[0] == '\r' then
      "\n" + UniversalNewlines(if |s| > 1 && s[1] == '\n' then s[2..] else s[1..])
    else [s[0]] + UniversalNewlines(s[1..])
  }

  /** Text without a carriage return reads the same with universal newlines. */
  lemma {:induction false} NoCarriageReturnUnchanged(s: string)
    requires forall i :: 0 <= i < |s| ==> s[i] != '\r'
    ensures UniversalNewlines(s) == s
    decreases |s|
  {
    if |s| > 0 {
      NoCarriageReturnUnchanged(s[1..]);
      assert s == [s[0]] + s[1..];
    }
  }
}
