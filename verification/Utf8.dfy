/** Strict UTF-8 as Python encodes and decodes it. A string is a sequence of code points. */
module Utf8 {
  import opened Wrappers
  import opened Bytes

  type codepoint = c: int | 0 <= c < 0x110000

  type Text = seq<codepoint>

  /** A lone surrogate can stand in a string but cannot be encoded. */
  predicate IsScalar(c: codepoint) {
    c < 0xD800 || c > 0xDFFF
  }

  function EncodeScalar(c: codepoint): (bs: seq<byte>)
    ensures 1 <= |bs| <= 4
  {
    if c < 0x80 then [c]
    else if c < 0x800 then [0xC0 + c / 64, 0x80 + c % 64]
    else if c < 0x10000 then [0xE0 + c / 64 / 64, 0x80 + c / 64 % 64, 0x80 + c % 64]
    else [0xF0 + c / 64 / 64 / 64, 0x80 + c / 64 / 64 % 64, 0x80 + c / 64 % 64, 0x80 + c % 64]
  }

  predicate IsTail(b: byte) {
    0x80 <= b < 0xC0
  }

  /** How many bytes the first one announces; zero if it starts nothing. */
  function LengthOf(b: byte): nat {
    if b < 0x80 then 1 else if 0xC2 <= b < 0xE0 then 2 else if 0xE0 <= b < 0xF0 then 3 else if 0xF0 <= b < 0xF5 then 4 else 0
  }

  /** The number the bytes of one code point spell. */
  function Spelled(bs: seq<byte>): int
    requires 1 <= |bs| <= 4
  {
    var b0: int := bs[0];
    if |bs| == 1 then b0
    else if |bs| == 2 then Join(b0 - 0xC0, bs[1])
    else if |bs| == 3 then Join(Join(b0 - 0xE0, bs[1]), bs[2])
    else Join(Join(Join(b0 - 0xF0, bs[1]), bs[2]), bs[3])
  }

  function Join(high: int, tail: int): int {
    high * 64 + (tail - 0x80)
  }

  lemma JoinSplits(high: int, tail: byte)
    requires IsTail(tail)
    ensures Join(high, tail) / 64 == high && 0x80 + Join(high, tail) % 64 == tail
  {
  }

  lemma SplitJoins(c: int)
    ensures Join(c / 64, 0x80 + c % 64) == c && 0 <= c % 64 < 64
  {
  }

  /** The first code point: no overlong form, no surrogate, nothing above the last code point. */
  function DecodeScalar(bs: seq<byte>): (r: Option<codepoint>)
    ensures r.Some? ==> bs != [] && 1 <= LengthOf(bs[0]) <= |bs|
  {
    if bs == [] || LengthOf(bs[0]) == 0 || LengthOf(bs[0]) > |bs| then None
    else
      var n := LengthOf(bs[0]);
      if exists i :: 1 <= i < n && !IsTail(bs[i]) then None
      else
        var c := Spelled(bs[..n]);
        if 0 <= c < 0x110000 && IsScalar(c) && |EncodeScalar(c)| == n then Some(c) else None
  }

  function Encode(text: Text): (bs: Option<seq<byte>>) {
    if text == [] then Some([])
    else
      var rest := Encode(text[1..]);
      if !IsScalar(text[0]) || rest == None then None else Some(EncodeScalar(text[0]) + rest.value)
  }

  function Decode(bs: seq<byte>): Option<Text>
    decreases |bs|
  {
    if bs == [] then Some([])
    else
      var first := DecodeScalar(bs);
      if first == None then None
      else
        var rest := Decode(bs[LengthOf(bs[0])..]);
        if rest == None then None else Some([first.value] + rest.value)
  }

  lemma SpelledBack(c: codepoint)
    requires IsScalar(c)
    ensures var bs := EncodeScalar(c);
            && LengthOf(bs[0]) == |bs| && Spelled(bs) == c
            && forall i :: 1 <= i < |bs| ==> IsTail(bs[i])
  {
    hide Join;
    SplitJoins(c);
    SplitJoins(c / 64);
    SplitJoins(c / 64 / 64);
  }

  lemma ScalarRoundTrip(c: codepoint, more: seq<byte>)
    requires IsScalar(c)
    ensures DecodeScalar(EncodeScalar(c) + more) == Some(c)
    ensures LengthOf((EncodeScalar(c) + more)[0]) == |EncodeScalar(c)|
  {
    hide EncodeScalar, Spelled, LengthOf;
    var bs := EncodeScalar(c);
    SpelledBack(c);
    assert (bs + more)[..|bs|] == bs;
    forall i | 1 <= i < |bs| ensures IsTail((bs + more)[i]) {
      assert IsTail(bs[i]);
    }
  }

  lemma {:induction false} DecodeEncode(text: Text)
    requires Encode(text).Some?
    ensures Decode(Encode(text).value) == Some(text)
  {
    hide EncodeScalar, DecodeScalar, LengthOf;
    if text != [] {
      var rest := Encode(text[1..]).value;
      DecodeEncode(text[1..]);
      ScalarRoundTrip(text[0], rest);
      assert (EncodeScalar(text[0]) + rest)[|EncodeScalar(text[0])|..] == rest;
      assert [text[0]] + text[1..] == text;
    }
  }

  /** Each code point has one spelling. */
  lemma OneSpelling(bs: seq<byte>)
    requires 1 <= |bs| <= 4 && LengthOf(bs[0]) == |bs| && forall i :: 1 <= i < |bs| ==> IsTail(bs[i])
    requires 0 <= Spelled(bs) < 0x110000 && |EncodeScalar(Spelled(bs))| == |bs|
    ensures EncodeScalar(Spelled(bs)) == bs
  {
    hide Join;
    var b0: int := bs[0];
    if |bs| == 2 {
      assert IsTail(bs[1]);
      JoinSplits(b0 - 0xC0, bs[1]);
    } else if |bs| == 3 {
      assert IsTail(bs[1]) && IsTail(bs[2]);
      JoinSplits(b0 - 0xE0, bs[1]);
      JoinSplits(Join(b0 - 0xE0, bs[1]), bs[2]);
    } else if |bs| == 4 {
      assert IsTail(bs[1]) && IsTail(bs[2]) && IsTail(bs[3]);
      JoinSplits(b0 - 0xF0, bs[1]);
      JoinSplits(Join(b0 - 0xF0, bs[1]), bs[2]);
      JoinSplits(Join(Join(b0 - 0xF0, bs[1]), bs[2]), bs[3]);
    }
  }

  lemma {:induction false} EncodeDecode(bs: seq<byte>)
    requires Decode(bs).Some?
    ensures Encode(Decode(bs).value) == Some(bs)
    decreases |bs|
  {
    hide EncodeScalar, Spelled, LengthOf;
    if bs != [] {
      var n, text := LengthOf(bs[0]), Decode(bs).value;
      EncodeDecode(bs[n..]);
      forall i | 1 <= i < n ensures IsTail(bs[..n][i]) {
        assert IsTail(bs[i]);
      }
      assert n <= 4 by { AtMostFour(bs[0]); }
      OneSpelling(bs[..n]);
      assert text[1..] == Decode(bs[n..]).value;
      assert bs[..n] + bs[n..] == bs;
    }
  }

  lemma AtMostFour(b: byte)
    ensures LengthOf(b) <= 4
  {
  }

  /** The four forms: which code points take how many bytes, and how those spell the number (section 3 of RFC 3629). */
  lemma ScalarBytes(c: codepoint)
    requires IsScalar(c)
    ensures var b := EncodeScalar(c);
            && var n: int, b0: int := |b|, b[0];
               var b1: int, b2: int, b3: int := if n > 1 then b[1] else 0, if n > 2 then b[2] else 0, if n > 3 then b[3] else 0;
               && (c < 0x80 ==> n == 1 && b0 == c)
               && (0x80 <= c < 0x800 ==> n == 2 && 0xC2 <= b0 < 0xE0 && c == (b0 - 0xC0) * 64 + (b1 - 0x80))
               && (0x800 <= c < 0x10000 ==>
                     n == 3 && 0xE0 <= b0 < 0xF0 && c == (b0 - 0xE0) * 4096 + (b1 - 0x80) * 64 + (b2 - 0x80))
               && (0x10000 <= c ==>
                     && n == 4 && 0xF0 <= b0 < 0xF5
                     && c == (b0 - 0xF0) * 262144 + (b1 - 0x80) * 4096 + (b2 - 0x80) * 64 + (b3 - 0x80))
               && forall i :: 1 <= i < n ==> 0x80 <= b[i] < 0xC0
  {
  }
}
