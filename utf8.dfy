/**
 * UTF-8 as the Python runtime applies it: `str.encode("utf-8")` and the strict
 * `bytes.decode("utf-8")`, including the text of the UnicodeDecodeError the
 * decoder raises (reason, position and range as CPython reports them).
 */
module Utf8 {
  import opened Wrappers
  import opened Text

  type Byte = x: int | 0 <= x < 256

  predicate IsContinuation(b: Byte) { 0x80 <= b < 0xC0 }

  /** The encoding of one scalar value: 1 to 4 bytes. */
  function EncodeChar(c: char): (r: seq<Byte>)
    ensures 1 <= |r| <= 4
  {
    var v := c as int;
    if v < 0x80 then [v]
    else if v < 0x800 then [0xC0 + v / 64, 0x80 + v % 64]
    else if v < 0x10000 then [0xE0 + v / 4096, 0x80 + (v / 64) % 64, 0x80 + v % 64]
    else [0xF0 + v / 262144, 0x80 + (v / 4096) % 64, 0x80 + (v / 64) % 64, 0x80 + v % 64]
  }

  /** `s.encode("utf-8")`. */
  function Encode(s: string): (r: seq<Byte>)
    ensures |r| >= |s|
  {
    if |s| == 0 then [] else EncodeChar(s[0]) + Encode(s[1..])
  }

  /** What the decoder makes of the bytes at the current position. */
  datatype Unit =
    | Scalar(c: char, width: nat)
    | Bad(reason: string, width: nat)

  const InvalidStart := "invalid start byte"
  const InvalidContinuation := "invalid continuation byte"
  const UnexpectedEnd := "unexpected end of data"

  /**
   * One step of CPython's UTF-8 decoder on the bytes `r` that remain: a scalar
   * value and its width, or the reason for failing and the width of the byte
   * range the error reports.
   */
  function UnitAt(r: seq<Byte>): (u: Unit)
    requires |r| > 0
    ensures 1 <= u.width <= |r| && u.width <= 4
  {
    var b0 := r[0] as int;
    if b0 < 0x80 then Scalar(b0 as char, 1)
    else if b0 < 0xC2 then Bad(InvalidStart, 1)
    else if b0 < 0xE0 then
      if |r| < 2 then Bad(UnexpectedEnd, |r|)
      else if !IsContinuation(r[1]) then Bad(InvalidContinuation, 1)
      else Scalar(((b0 - 0xC0) * 64 + (r[1] as int - 0x80)) as char, 2)
    else if b0 < 0xF0 then
      if |r| < 2 then Bad(UnexpectedEnd, |r|)
      else if !IsContinuation(r[1]) || (b0 == 0xE0 && r[1] < 0xA0) || (b0 == 0xED && r[1] >= 0xA0) then
        Bad(InvalidContinuation, 1)
      else if |r| < 3 then Bad(UnexpectedEnd, |r|)
      else if !IsContinuation(r[2]) then Bad(InvalidContinuation, 2)
      else Scalar(((b0 - 0xE0) * 4096 + (r[1] as int - 0x80) * 64 + (r[2] as int - 0x80)) as char, 3)
    else if b0 < 0xF5 then
      if |r| < 2 then Bad(UnexpectedEnd, |r|)
      else if !IsContinuation(r[1]) || (b0 == 0xF0 && r[1] < 0x90) || (b0 == 0xF4 && r[1] >= 0x90) then
        Bad(InvalidContinuation, 1)
      else if |r| < 3 then Bad(UnexpectedEnd, |r|)
      else if !IsContinuation(r[2]) then Bad(InvalidContinuation, 2)
      else if |r| < 4 then Bad(UnexpectedEnd, |r|)
      else if !IsContinuation(r[3]) then Bad(InvalidContinuation, 3)
      else Scalar(((b0 - 0xF0) * 262144 + (r[1] as int - 0x80) * 4096 + (r[2] as int - 0x80) * 64 + (r[3] as int - 0x80)) as char, 4)
    else Bad(InvalidStart, 1)
  }

  function HexDigit(d: nat): char
    requires d < 16
  {
    if d < 10 then DigitChar(d) else ('a' as int + d - 10) as char
  }

  /** The text of the UnicodeDecodeError for `width` bytes from `pos`. */
  function DecodeError(first: Byte, pos: nat, width: nat, reason: string): string {
    if width <= 1 then
      "'utf-8' codec can't decode byte 0x" + [HexDigit(first / 16), HexDigit(first % 16)]
      + " in position " + NatToString(pos) + ": " + reason
    else
      "'utf-8' codec can't decode bytes in position " + NatToString(pos) + "-"
      + NatToString(pos + width - 1) + ": " + reason
  }

  /** Decodes the bytes `r` that remain after position `pos`, appending to `acc`. */
  function DecodeFrom(r: seq<Byte>, pos: nat, acc: string): Result<string>
    decreases |r|
  {
    if |r| == 0 then Ok(acc)
    else
      match UnitAt(r)
      case Scalar(c, w) => DecodeFrom(r[w..], pos + w, acc + [c])
      case Bad(reason, w) => Err(DecodeError(r[0], pos, w, reason))
  }

  /** `bs.decode("utf-8")`: the text, or the error's message. */
  function Decode(bs: seq<Byte>): Result<string> {
    DecodeFrom(bs, 0, [])
  }

  /** The decoder reads back the encoding of one scalar value. */
  lemma {:induction false} UnitOfEncoded(c: char, rest: seq<Byte>)
    ensures UnitAt(EncodeChar(c) + rest) == Scalar(c, |EncodeChar(c)|)
  {
    var v := c as int;
    if v < 0x80 {
    } else if v < 0x800 {
      UnitOfTwo(c, rest);
    } else if v < 0x10000 {
      UnitOfThree(c, rest);
    } else {
      UnitOfFour(c, rest);
    }
  }

  lemma {:induction false} UnitOfTwo(c: char, rest: seq<Byte>)
    requires 0x80 <= c as int < 0x800
    ensures UnitAt(EncodeChar(c) + rest) == Scalar(c, 2)
  {
    var v := c as int;
    var r := EncodeChar(c) + rest;
    assert r[0] == 0xC0 + v / 64 && r[1] == 0x80 + v % 64;
    assert (r[0] as int - 0xC0) * 64 + (r[1] as int - 0x80) == v;
  }

  lemma {:induction false} UnitOfThree(c: char, rest: seq<Byte>)
    requires 0x800 <= c as int < 0x10000
    ensures UnitAt(EncodeChar(c) + rest) == Scalar(c, 3)
  {
    var v := c as int;
    var r := EncodeChar(c) + rest;
    assert r[0] == 0xE0 + v / 4096 && r[1] == 0x80 + (v / 64) % 64 && r[2] == 0x80 + v % 64;
    assert v / 64 == (v / 4096) * 64 + (v / 64) % 64;
    assert (r[0] as int - 0xE0) * 4096 + (r[1] as int - 0x80) * 64 + (r[2] as int - 0x80) == v;
    assert !(r[0] == 0xED && r[1] >= 0xA0) by {
      assert v < 0xD800 || v > 0xDFFF;
    }
  }

  lemma {:induction false} UnitOfFour(c: char, rest: seq<Byte>)
    requires 0x10000 <= c as int
    ensures UnitAt(EncodeChar(c) + rest) == Scalar(c, 4)
  {
    var v := c as int;
    FourDigits(v);
    var r := EncodeChar(c) + rest;
    assert r[0] == 0xF0 + v / 262144 && r[1] == 0x80 + (v / 4096) % 64;
    assert r[2] == 0x80 + (v / 64) % 64 && r[3] == 0x80 + v % 64;
  }

  /** The four base-64 digits of a supplementary code point and the ranges of the first two. */
  lemma {:induction false} FourDigits(v: int)
    requires 0x10000 <= v < 0x110000
    ensures var a, b, c, d := v / 262144, (v / 4096) % 64, (v / 64) % 64, v % 64;
      0 <= a < 5 && 0 <= b < 64 && 0 <= c < 64 && 0 <= d < 64
      && (a == 0 ==> b >= 0x10) && (a == 4 ==> b < 0x10)
      && a * 262144 + b * 4096 + c * 64 + d == v
  {
    assert v / 4096 == (v / 262144) * 64 + (v / 4096) % 64;
    assert v / 64 == (v / 4096) * 64 + (v / 64) % 64;
  }

  lemma {:induction false} DecodeEncodedFrom(s: string, pos: nat, acc: string)
    ensures DecodeFrom(Encode(s), pos, acc) == Ok(acc + s)
    decreases |s|
  {
    if |s| == 0 {
      assert acc + s == acc;
    } else {
      var e := EncodeChar(s[0]);
      UnitOfEncoded(s[0], Encode(s[1..]));
      assert (e + Encode(s[1..]))[|e|..] == Encode(s[1..]);
      DecodeEncodedFrom(s[1..], pos + |e|, acc + [s[0]]);
      assert acc + [s[0]] + s[1..] == acc + s;
    }
  }

  /** Round trip: decoding the UTF-8 encoding of any text gives the text back. */
  lemma {:induction false} DecodeEncoded(s: string)
    ensures Decode(Encode(s)) == Ok(s)
  {
    DecodeEncodedFrom(s, 0, []);
    assert [] + s == s;
  }

  /**
   * `bs.decode("utf-8", errors="ignore")`: every byte range the strict decoder
   * would report is dropped and decoding resumes after it.
   */
  function DecodeIgnore(bs: seq<Byte>): (r: string)
    ensures |r| <= |bs|
    decreases |bs|
  {
    if |bs| == 0 then []
    else
      match UnitAt(bs)
      case Scalar(c, w) => [c] + DecodeIgnore(bs[w..])
      case Bad(_, w) => DecodeIgnore(bs[w..])
  }

  lemma {:induction false} DecodeIgnoreFrom(bs: seq<Byte>, pos: nat, acc: string, t: string)
    requires DecodeFrom(bs, pos, acc) == Ok(t)
    ensures t == acc + DecodeIgnore(bs)
    decreases |bs|
  {
    if |bs| > 0 {
      var u := UnitAt(bs);
      if u.Scalar? {
        var rest := bs[u.width..];
        assert DecodeFrom(bs, pos, acc) == DecodeFrom(rest, pos + u.width, acc + [u.c]);
        assert DecodeIgnore(bs) == [u.c] + DecodeIgnore(rest);
        DecodeIgnoreFrom(rest, pos + u.width, acc + [u.c], t);
        assert acc + [u.c] + DecodeIgnore(rest) == acc + ([u.c] + DecodeIgnore(rest));
      }
    }
  }

  /** On bytes the strict decoder accepts, ignoring errors changes nothing. */
  lemma {:induction false} DecodeIgnoreAgrees(bs: seq<Byte>)
    requires Decode(bs).Ok?
    ensures DecodeIgnore(bs) == Decode(bs).value
  {
    DecodeIgnoreFrom(bs, 0, [], Decode(bs).value);
    assert [] + DecodeIgnore(bs) == DecodeIgnore(bs);
  }
}
