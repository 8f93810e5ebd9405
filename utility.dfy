/**
 * The helpers every file-analyzer path shares: the binary sniff over the
 * first 2048 bytes and the empty and opaque summaries.
 */
module Utility {
  import opened Wrappers
  import opened Text
  import opened Utf8
  import opened Analysis

  /** A byte the sniff counts as text: printable ASCII, tab, line feed or carriage return. */
  predicate IsTextByte(b: Byte) {
    31 < b < 127 || b == 9 || b == 10 || b == 13
  }

  /** The number of bytes of `chunk` that are not text bytes. */
  function NonText(chunk: seq<Byte>): (n: nat)
    ensures n <= |chunk|
  {
    if |chunk| == 0 then 0
    else NonText(chunk[..|chunk| - 1]) + (if IsTextByte(chunk[|chunk| - 1]) then 0 else 1)
  }

  /**
   * `is_likely_binary`: false for an empty file; true when the file cannot be
   * read, when the chunk is empty (the ratio then divides by zero and the
   * exception is caught), or when it holds a NUL; otherwise whether more than
   * 3 in 10 bytes are not text.
   */
  function IsLikelyBinary(a: Analyzer): bool {
    if a.size == 0 then false
    else if a.file.readError.Some? then true
    else
      var chunk := Take(a.file.bytes, BinaryCheckBytes);
      if 0 in chunk then true
      else if |chunk| == 0 then true
      else 10 * NonText(chunk) > 3 * |chunk|
  }

  /** There are no non-text bytes exactly when every byte is a text byte. */
  lemma {:induction false} NonTextZeroIff(chunk: seq<Byte>)
    ensures NonText(chunk) == 0 <==> forall i :: 0 <= i < |chunk| ==> IsTextByte(chunk[i])
  {
    if |chunk| > 0 {
      var init := chunk[..|chunk| - 1];
      NonTextZeroIff(init);
      assert forall i :: 0 <= i < |init| ==> init[i] == chunk[i];
    }
  }

  /**
   * The integer test is the source's ratio test: for a non-empty chunk,
   * `10 * n > 3 * len` exactly when `n / len > 0.3`.
   */
  lemma {:induction false} RatioTest(n: nat, len: nat)
    requires len > 0
    ensures 10 * n > 3 * len <==> (n as real) / (len as real) > 0.3
  {
    var q := (n as real) / (len as real);
    var l := len as real;
    assert q * l == n as real;
    if q > 0.3 {
      MulMono(q, 0.3, l);
      assert n as real > 0.3 * l;
    } else {
      MulMonoLe(q, 0.3, l);
      assert n as real <= 0.3 * l;
    }
  }

  lemma {:induction false} MulMono(x: real, y: real, l: real)
    requires l > 0.0 && x > y
    ensures x * l > y * l
  {
    assert x * l - y * l == (x - y) * l;
  }

  lemma {:induction false} MulMonoLe(x: real, y: real, l: real)
    requires l > 0.0 && x <= y
    ensures x * l <= y * l
  {
    assert y * l - x * l == (y - x) * l;
  }

  /** An empty file is never binary; an unreadable non-empty file always is. */
  lemma {:induction false} BinaryEdgeCases(a: Analyzer)
    ensures a.size == 0 ==> !IsLikelyBinary(a)
    ensures a.size > 0 && a.file.readError.Some? ==> IsLikelyBinary(a)
  {
  }

  /** A NUL among the first 2048 bytes of a readable non-empty file makes it binary. */
  lemma {:induction false} NulMeansBinary(a: Analyzer, i: nat)
    requires a.size > 0 && a.file.readError.None?
    requires i < |a.file.bytes| && i < BinaryCheckBytes && a.file.bytes[i] == 0
    ensures IsLikelyBinary(a)
  {
    assert Take(a.file.bytes, BinaryCheckBytes)[i] == 0;
  }

  /**
   * A readable non-empty file whose first 2048 bytes are all text bytes is
   * not binary.
   */
  lemma {:induction false} PlainTextIsNotBinary(a: Analyzer)
    requires a.size > 0 && a.file.readError.None? && |a.file.bytes| > 0
    requires forall i :: 0 <= i < |a.file.bytes| && i < BinaryCheckBytes ==> IsTextByte(a.file.bytes[i])
    ensures !IsLikelyBinary(a)
  {
    var chunk := Take(a.file.bytes, BinaryCheckBytes);
    assert forall i :: 0 <= i < |chunk| ==> chunk[i] == a.file.bytes[i];
    NonTextZeroIff(chunk);
    assert forall i :: 0 <= i < |chunk| ==> chunk[i] != 0;
  }

  /** `summarize_empty`: the format is the extension without its leading dots. */
  function SummarizeEmpty(a: Analyzer): (r: Summary)
    ensures r.EmptyFile?
    ensures a.ext == Repeat('.', |a.ext| - |r.format|) + r.format
    ensures r.format == [] || r.format[0] != '.'
  {
    FormatStripsDots(a.ext);
    EmptyFile(FormatOf(a.ext))
  }

  /** `summarize_opaque`: the format is the extension without its leading dots. */
  function SummarizeOpaque(a: Analyzer): (r: Summary)
    ensures r.OpaqueBinary?
    ensures a.ext == Repeat('.', |a.ext| - |r.format|) + r.format
    ensures r.format == [] || r.format[0] != '.'
  {
    FormatStripsDots(a.ext);
    OpaqueBinary(FormatOf(a.ext))
  }

  /**
   * The reported format is the extension with all its leading dots removed:
   * a run of dots followed by the format gives back the extension, and the
   * format itself does not start with a dot.
   */
  lemma {:induction false} FormatStripsDots(ext: string)
    ensures var f := FormatOf(ext); ext == Repeat('.', |ext| - |f|) + f && (f == [] || f[0] != '.')
  {
    var f := FormatOf(ext);
    var dots := Repeat('.', |ext| - |f|);
    LStripCharSuffix(ext, '.');
    assert forall i :: 0 <= i < |ext| ==> ext[i] == (dots + f)[i];
  }
}
