/**
 * Base64 (section 4 of RFC 4648) as Python's `base64.b64encode` writes it and
 * as the default, non-validating `base64.b64decode` reads it: the text must be
 * ASCII, characters outside the alphabet are skipped, and decoding stops at
 * the first padding that completes a quantum.
 */
module Base64 {
  import opened Wrappers
  import opened Text
  import opened Utf8

  /** The character for a 6-bit value in the standard alphabet. */
  function CharOf(k: int): char
    requires 0 <= k < 64
  {
    if k < 26 then ('A' as int + k) as char
    else if k < 52 then ('a' as int + k - 26) as char
    else if k < 62 then ('0' as int + k - 52) as char
    else if k == 62 then '+'
    else '/'
  }

  /** The 6-bit value of an alphabet character, or -1 for any other character. */
  function ValueOf(c: char): (v: int)
    ensures -1 <= v < 64
  {
    if 'A' <= c <= 'Z' then c as int - 'A' as int
    else if 'a' <= c <= 'z' then c as int - 'a' as int + 26
    else if '0' <= c <= '9' then c as int - '0' as int + 52
    else if c == '+' then 62
    else if c == '/' then 63
    else -1
  }

  lemma {:induction false} ValueOfCharOf(k: int)
    requires 0 <= k < 64
    ensures ValueOf(CharOf(k)) == k
  {
  }

  /** `base64.b64encode`: four characters per three bytes, '=' padding the last quantum. */
  function Encode(bs: seq<Byte>): (r: string)
    ensures |r| == (|bs| + 2) / 3 * 4
  {
    if |bs| == 0 then ""
    else if |bs| == 1 then
      [CharOf(bs[0] / 4), CharOf(bs[0] % 4 * 16), '=', '=']
    else if |bs| == 2 then
      [CharOf(bs[0] / 4), CharOf(bs[0] % 4 * 16 + bs[1] / 16), CharOf(bs[1] % 16 * 4), '=']
    else Quantum(bs[0], bs[1], bs[2]) + Encode(bs[3..])
  }

  /** The four characters for three bytes. */
  function Quantum(b0: Byte, b1: Byte, b2: Byte): (r: string)
    ensures |r| == 4
  {
    [CharOf(b0 / 4), CharOf(b0 % 4 * 16 + b1 / 16), CharOf(b1 % 16 * 4 + b2 / 64), CharOf(b2 % 64)]
  }

  predicate IsAscii(s: string) {
    forall i :: 0 <= i < |s| ==> s[i] as int < 128
  }

  /**
   * The decoder's state between characters: `quad` alphabet characters of the
   * current quantum have been read, `left` holds their unused bits, `pads`
   * counts the '=' seen since the last alphabet character, `out` is the output.
   */
  datatype Reader = Reader(quad: nat, left: int, pads: nat, out: seq<Byte>)

  predicate Pending(r: Reader) {
    r.quad < 4
    && (r.quad == 0 ==> r.left == 0)
    && (r.quad == 1 ==> 0 <= r.left < 64)
    && (r.quad == 2 ==> 0 <= r.left < 16)
    && (r.quad == 3 ==> 0 <= r.left < 4)
  }

  function Start(out: seq<Byte>): (r: Reader)
    ensures Pending(r)
  {
    Reader(0, 0, 0, out)
  }

  /** One character of CPython's non-strict `a2b_base64`; None when padding ends the input. */
  function Feed(c: char, r: Reader): (n: Option<Reader>)
    requires Pending(r)
    ensures n.Some? ==> Pending(n.value)
  {
    if c == '=' then
      if r.quad >= 2 && r.quad + r.pads + 1 >= 4 then None
      else Some(r.(pads := if r.quad >= 2 then r.pads + 1 else r.pads))
    else
      var v := ValueOf(c);
      if v < 0 then Some(r) else Some(Absorb(v, r))
  }

  /** An alphabet character's six bits: the fourth completes the quantum's last byte and starts a new quantum. */
  function Absorb(v: int, r: Reader): (n: Reader)
    requires 0 <= v < 64 && Pending(r)
    ensures Pending(n)
  {
    if r.quad == 0 then Reader(1, v, 0, r.out)
    else if r.quad == 1 then Reader(2, v % 16, 0, r.out + [r.left * 4 + v / 16])
    else if r.quad == 2 then Reader(3, v % 4, 0, r.out + [r.left * 16 + v / 4])
    else Reader(0, 0, 0, r.out + [r.left * 64 + v])
  }

  /** The character the encoder writes for a value is read back as that value. */
  lemma {:induction false} FeedCharOf(k: int, r: Reader)
    requires 0 <= k < 64 && Pending(r)
    ensures Feed(CharOf(k), r) == Some(Absorb(k, r))
  {
    ValueOfCharOf(k);
  }

  const CountErrorHead := "Invalid base64-encoded string: number of data characters ("
  const CountErrorTail := ") cannot be 1 more than a multiple of 4"
  const PaddingError := "Incorrect padding"

  /** The end of the input: a partial quantum is an error. */
  function Finish(r: Reader): Result<seq<Byte>> {
    if r.quad == 0 then Ok(r.out)
    else if r.quad == 1 then Err(CountErrorHead + NatToString(|r.out| / 3 * 4 + 1) + CountErrorTail)
    else Err(PaddingError)
  }

  /** `a2b_base64` over the characters `s` that remain. */
  function A2b(s: string, r: Reader): Result<seq<Byte>>
    requires Pending(r)
    decreases |s|
  {
    if |s| == 0 then Finish(r)
    else
      match Feed(s[0], r)
      case None => Ok(r.out)
      case Some(n) => A2b(s[1..], n)
  }

  const NotAscii := "string argument should contain only ASCII characters"

  /** `base64.b64decode(s)` on a `str`: the bytes, or the message of the exception. */
  function Decode(s: string): Result<seq<Byte>> {
    if !IsAscii(s) then Err(NotAscii) else A2b(s, Start([]))
  }

  /** `base64.b64decode(s).decode("utf-8")`: both steps, either of which can fail. */
  function DecodeText(s: string): Result<string> {
    match Decode(s)
    case Err(e) => Err(e)
    case Ok(bs) => Utf8.Decode(bs)
  }

  lemma {:induction false} EncodeIsAscii(bs: seq<Byte>)
    ensures IsAscii(Encode(bs))
    decreases |bs|
  {
    if |bs| > 2 {
      EncodeIsAscii(bs[3..]);
    }
  }

  /** A2b over a non-empty string takes one step. */
  lemma {:induction false} Step(s: string, r: Reader, n: Reader)
    requires Pending(r) && |s| > 0 && Feed(s[0], r) == Some(n)
    ensures A2b(s, r) == A2b(s[1..], n)
  {
  }

  /** Decoding one full quantum writes back its three bytes and starts a new quantum. */
  lemma {:induction false} QuantumRoundTrip(b0: Byte, b1: Byte, b2: Byte, rest: string, out: seq<Byte>)
    ensures A2b(Quantum(b0, b1, b2) + rest, Start(out)) == A2b(rest, Start(out + [b0, b1, b2]))
  {
    var v0, v1, v2, v3 := b0 / 4, b0 % 4 * 16 + b1 / 16, b1 % 16 * 4 + b2 / 64, b2 % 64;
    var s := Quantum(b0, b1, b2) + rest;
    var s1, s2, s3 := s[1..], s[2..], s[3..];
    QuantumText(b0, b1, b2, rest);
    var r1 := Absorb(v0, Start(out));
    var r2 := Absorb(v1, r1);
    var r3 := Absorb(v2, r2);
    QuantumBytes(b0, b1, b2, out);
    FeedCharOf(v0, Start(out));
    FeedCharOf(v1, r1);
    FeedCharOf(v2, r2);
    FeedCharOf(v3, r3);
    Step(s, Start(out), r1);
    Step(s1, r1, r2);
    Step(s2, r2, r3);
    Step(s3, r3, Start(out + [b0, b1, b2]));
  }

  /** The characters of a quantum followed by more text, one at a time. */
  lemma {:induction false} QuantumText(b0: Byte, b1: Byte, b2: Byte, rest: string)
    ensures var s := Quantum(b0, b1, b2) + rest;
      s[0] == CharOf(b0 / 4) && s[1..][0] == CharOf(b0 % 4 * 16 + b1 / 16)
      && s[2..][0] == CharOf(b1 % 16 * 4 + b2 / 64) && s[3..][0] == CharOf(b2 % 64)
      && s[1..][1..] == s[2..] && s[2..][1..] == s[3..] && s[3..][1..] == rest
  {
  }

  /** The four values of a quantum, absorbed in turn, give back its three bytes. */
  lemma {:induction false} QuantumBytes(b0: Byte, b1: Byte, b2: Byte, out: seq<Byte>)
    ensures var v0, v1, v2, v3 := b0 / 4, b0 % 4 * 16 + b1 / 16, b1 % 16 * 4 + b2 / 64, b2 % 64;
      Absorb(v3, Absorb(v2, Absorb(v1, Absorb(v0, Start(out))))) == Start(out + [b0, b1, b2])
  {
    var v0, v1, v2, v3 := b0 / 4, b0 % 4 * 16 + b1 / 16, b1 % 16 * 4 + b2 / 64, b2 % 64;
    assert v0 * 4 + v1 / 16 == b0;
    assert (v1 % 16) * 16 + v2 / 4 == b1;
    assert (v2 % 4) * 64 + v3 == b2;
    assert out + [b0] + [b1] + [b2] == out + [b0, b1, b2];
  }

  /** The last quantum of a one-byte input: two characters and "==". */
  lemma {:induction false} LastOne(b0: Byte, out: seq<Byte>)
    ensures A2b(Encode([b0]), Start(out)) == Ok(out + [b0])
  {
    var s := Encode([b0]);
    var v0, v1 := b0 / 4, b0 % 4 * 16;
    var s1, s2, s3 := s[1..], s[2..], s[3..];
    assert s[0] == CharOf(v0) && s1[0] == CharOf(v1) && s1[1..] == s2;
    assert s2[0] == '=' && s2[1..] == s3 && s3 == ['='];
    var r1 := Absorb(v0, Start(out));
    var r2 := Absorb(v1, r1);
    assert r2 == Reader(2, v1 % 16, 0, out + [b0]);
    FeedCharOf(v0, Start(out));
    FeedCharOf(v1, r1);
    Step(s, Start(out), r1);
    Step(s1, r1, r2);
    Step(s2, r2, r2.(pads := 1));
  }

  /** The last quantum of a two-byte input: three characters and "=". */
  lemma {:induction false} LastTwo(b0: Byte, b1: Byte, out: seq<Byte>)
    ensures A2b(Encode([b0, b1]), Start(out)) == Ok(out + [b0, b1])
  {
    var s := Encode([b0, b1]);
    var v0, v1, v2 := b0 / 4, b0 % 4 * 16 + b1 / 16, b1 % 16 * 4;
    var s1, s2, s3 := s[1..], s[2..], s[3..];
    assert s[0] == CharOf(v0) && s1[0] == CharOf(v1) && s1[1..] == s2;
    assert s2[0] == CharOf(v2) && s2[1..] == s3 && s3 == ['='];
    var r1 := Absorb(v0, Start(out));
    var r2 := Absorb(v1, r1);
    var r3 := Absorb(v2, r2);
    LastTwoBytes(b0, b1, out);
    FeedCharOf(v0, Start(out));
    FeedCharOf(v1, r1);
    FeedCharOf(v2, r2);
    Step(s, Start(out), r1);
    Step(s1, r1, r2);
    Step(s2, r2, r3);
  }

  /** The three values of a two-byte quantum, absorbed in turn, hold its two bytes. */
  lemma {:induction false} LastTwoBytes(b0: Byte, b1: Byte, out: seq<Byte>)
    ensures var v0, v1, v2 := b0 / 4, b0 % 4 * 16 + b1 / 16, b1 % 16 * 4;
      Absorb(v2, Absorb(v1, Absorb(v0, Start(out)))).quad == 3
      && Absorb(v2, Absorb(v1, Absorb(v0, Start(out)))).out == out + [b0, b1]
  {
    var v0, v1, v2 := b0 / 4, b0 % 4 * 16 + b1 / 16, b1 % 16 * 4;
    assert v0 * 4 + v1 / 16 == b0;
    assert (v1 % 16) * 16 + v2 / 4 == b1;
    assert out + [b0] + [b1] == out + [b0, b1];
  }

  lemma {:induction false} A2bOfEncoded(bs: seq<Byte>, out: seq<Byte>)
    ensures A2b(Encode(bs), Start(out)) == Ok(out + bs)
    decreases |bs|
  {
    if |bs| == 0 {
      assert out + bs == out;
    } else if |bs| == 1 {
      LastOne(bs[0], out);
      assert bs == [bs[0]];
    } else if |bs| == 2 {
      LastTwo(bs[0], bs[1], out);
      assert bs == [bs[0], bs[1]];
    } else {
      QuantumRoundTrip(bs[0], bs[1], bs[2], Encode(bs[3..]), out);
      A2bOfEncoded(bs[3..], out + [bs[0], bs[1], bs[2]]);
      AppendThree(out, bs);
    }
  }

  /** Taking the first three bytes off and putting them back after `out` gives `out + bs`. */
  lemma {:induction false} AppendThree(out: seq<Byte>, bs: seq<Byte>)
    requires |bs| >= 3
    ensures out + [bs[0], bs[1], bs[2]] + bs[3..] == out + bs
  {
    var l, r := out + [bs[0], bs[1], bs[2]] + bs[3..], out + bs;
    assert |l| == |r|;
    forall i | 0 <= i < |l|
      ensures l[i] == r[i]
    {
      if i >= |out| + 3 {
        assert l[i] == bs[3..][i - |out| - 3];
      }
    }
  }

  lemma {:induction false} ThreeFewer(n: nat)
    requires n >= 3 && n % 3 == 0
    ensures (n - 3) % 3 == 0
  {
  }

  /** Whole quanta decode to their bytes and leave the decoder at a quantum boundary. */
  lemma {:induction false} A2bOfQuanta(bs: seq<Byte>, rest: string, out: seq<Byte>)
    requires |bs| % 3 == 0
    ensures A2b(Encode(bs) + rest, Start(out)) == A2b(rest, Start(out + bs))
    decreases |bs|
  {
    if |bs| == 0 {
      assert Encode(bs) + rest == rest;
      assert out + bs == out;
    } else {
      var tail, more := Encode(bs[3..]) + rest, out + [bs[0], bs[1], bs[2]];
      EncodeQuantumFirst(bs, rest);
      QuantumRoundTrip(bs[0], bs[1], bs[2], tail, out);
      ThreeFewer(|bs|);
      A2bOfQuanta(bs[3..], rest, more);
      AppendThree(out, bs);
    }
  }

  /** Three or more bytes encode as the quantum of the first three, then the rest. */
  lemma {:induction false} EncodeQuantumFirst(bs: seq<Byte>, rest: string)
    requires |bs| >= 3
    ensures Encode(bs) + rest == Quantum(bs[0], bs[1], bs[2]) + (Encode(bs[3..]) + rest)
  {
  }

  /** Round trip: the non-validating decoder reads back what the encoder wrote. */
  lemma {:induction false} DecodeEncoded(bs: seq<Byte>)
    ensures Decode(Encode(bs)) == Ok(bs)
  {
    EncodeIsAscii(bs);
    A2bOfEncoded(bs, []);
    assert [] + bs == bs;
  }

  /** Base64 of UTF-8 text decodes back to the text. */
  lemma {:induction false} DecodeTextEncoded(s: string)
    ensures DecodeText(Encode(Utf8.Encode(s))) == Ok(s)
  {
    DecodeEncoded(Utf8.Encode(s));
    Utf8.DecodeEncoded(s);
  }

  /** One character past whole quanta can never be decoded. */
  lemma {:induction false} ExtraCharacter(bs: seq<Byte>, c: char)
    requires |bs| % 3 == 0 && ValueOf(c) >= 0
    ensures A2b(Encode(bs) + [c], Start([])) == Err(CountErrorHead + NatToString(|Encode(bs)| + 1) + CountErrorTail)
  {
    A2bOfQuanta(bs, [c], []);
    assert [] + bs == bs;
    LoneCharacter(c, bs);
    QuantaLength(bs);
  }

  /** A single alphabet character after whole quanta leaves a one-character quantum. */
  lemma {:induction false} LoneCharacter(c: char, out: seq<Byte>)
    requires ValueOf(c) >= 0
    ensures A2b([c], Start(out)) == Err(CountErrorHead + NatToString(|out| / 3 * 4 + 1) + CountErrorTail)
  {
    var r1 := Absorb(ValueOf(c), Start(out));
    FeedValue(c, Start(out));
    Step([c], Start(out), r1);
    assert [c][1..] == [];
  }

  /** Whole quanta encode to four characters per three bytes. */
  lemma {:induction false} QuantaLength(bs: seq<Byte>)
    requires |bs| % 3 == 0
    ensures |Encode(bs)| == |bs| / 3 * 4
  {
    assert (|bs| + 2) / 3 == |bs| / 3;
  }

  /** Two or three characters past whole quanta need their padding. */
  lemma {:induction false} MissingPadding(bs: seq<Byte>, tail: string)
    requires |bs| % 3 == 0 && 2 <= |tail| <= 3
    requires forall i :: 0 <= i < |tail| ==> ValueOf(tail[i]) >= 0
    ensures A2b(Encode(bs) + tail, Start([])) == Err(PaddingError)
  {
    A2bOfQuanta(bs, tail, []);
    assert [] + bs == bs;
    var r0 := Start(bs);
    var r1 := Absorb(ValueOf(tail[0]), r0);
    var r2 := Absorb(ValueOf(tail[1]), r1);
    FeedValue(tail[0], r0);
    FeedValue(tail[1], r1);
    var t1, t2 := tail[1..], tail[2..];
    assert t1[0] == tail[1] && t1[1..] == t2;
    Step(tail, r0, r1);
    Step(t1, r1, r2);
    if |tail| == 3 {
      FeedValue(tail[2], r2);
      assert t2[0] == tail[2] && t2[1..] == [];
      Step(t2, r2, Absorb(ValueOf(tail[2]), r2));
    }
  }

  /** An alphabet character is absorbed with its value. */
  lemma {:induction false} FeedValue(c: char, r: Reader)
    requires ValueOf(c) >= 0 && Pending(r)
    ensures Feed(c, r) == Some(Absorb(ValueOf(c), r))
  {
  }

  /** Characters outside the alphabet (line breaks, spaces) are skipped. */
  lemma {:induction false} SkipsForeign(c: char, s: string, r: Reader)
    requires Pending(r) && c != '=' && ValueOf(c) < 0
    ensures A2b([c] + s, r) == A2b(s, r)
  {
    assert ([c] + s)[1..] == s;
  }
}
