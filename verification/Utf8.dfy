/** UTF-8 (RFC 3629, section 3), as Python encodes and decodes text. A string here
    is a sequence of Unicode scalar values; lone surrogates are not represented. */
module Utf8 {
  import opened Wrappers

  type Byte = x: int | 0 <= x < 256

  function EncodeChar(c: char): (bs: seq<Byte>)
    ensures 1 <= |bs| <= 4
    ensures |bs| == 1 <==> (c as int) < 0x80
  {
    var v := c as int;
    if v < 0x80 then [v]
    else if v < 0x800 then [0xC0 + v / 64, 0x80 + v % 64]
    else if v < 0x10000 then [0xE0 + v / 4096, 0x80 + v / 64 % 64, 0x80 + v % 64]
    else [0xF0 + v / 262144, 0x80 + v / 4096 % 64, 0x80 + v / 64 % 64, 0x80 + v % 64]
  }

  function Encode(s: string): seq<Byte> {
    if s == [] then [] else EncodeChar(s[0]) + Encode(s[1..])
  }

  predicate Scalar(v: int) { 0 <= v < 0xD800 || 0xE000 <= v < 0x110000 }

  predicate Tail(bs: seq<Byte>, n: nat) { n <= |bs| && forall i | 1 <= i < n :: 0x80 <= bs[i] < 0xC0 }

  function Two(b0: int, b1: int): int { (b0 - 0xC0) * 64 + (b1 - 0x80) }

  function Three(b0: int, b1: int, b2: int): int { (b0 - 0xE0) * 4096 + (b1 - 0x80) * 64 + (b2 - 0x80) }

  function Four(b0: int, b1: int, b2: int, b3: int): int {
    (b0 - 0xF0) * 262144 + (b1 - 0x80) * 4096 + (b2 - 0x80) * 64 + (b3 - 0x80)
  }

  /** The first character and its length, if the bytes start with a well-formed one. */
  function DecodeChar(bs: seq<Byte>): (r: Option<(char, nat)>)
    ensures r.Some? ==> 1 <= r.value.1 <= |bs|
  {
    if bs == [] then None
    else if bs[0] < 0x80 then Some((bs[0] as char, 1))
    else if 0xC2 <= bs[0] < 0xE0 && Tail(bs, 2) then Some((Two(bs[0], bs[1]) as char, 2))
    else if 0xE0 <= bs[0] < 0xF0 && Tail(bs, 3) then
      var v := Three(bs[0], bs[1], bs[2]);
      if Scalar(v) && v >= 0x800 then Some((v as char, 3)) else None
    else if 0xF0 <= bs[0] < 0xF5 && Tail(bs, 4) then
      var v := Four(bs[0], bs[1], bs[2], bs[3]);
      if Scalar(v) && v >= 0x10000 then Some((v as char, 4)) else None
    else None
  }

  /** bytes.decode("utf-8"). */
  function Decode(bs: seq<Byte>): Option<string> {
    if bs == [] then Some("")
    else
      var first := DecodeChar(bs);
      if first.None? then None
      else
        var rest := Decode(bs[first.value.1..]);
        if rest.None? then None else Some([first.value.0] + rest.value)
  }

  /** bytes.decode("utf-8", "replace"), one replacement for each byte that starts no character. */
  function DecodeLossy(bs: seq<Byte>): string {
    if bs == [] then ""
    else
      var first := DecodeChar(bs);
      if first.None? then "\U{FFFD}" + DecodeLossy(bs[1..]) else [first.value.0] + DecodeLossy(bs[first.value.1..])
  }

  lemma ThreeInverts(v: int)
    requires 0x800 <= v < 0x10000
    ensures 0xE0 <= 0xE0 + v / 4096 < 0xF0
    ensures Three(0xE0 + v / 4096, 0x80 + v / 64 % 64, 0x80 + v % 64) == v
  {
  }

  lemma FourInverts(v: int)
    requires 0x10000 <= v < 0x110000
    ensures 0xF0 <= 0xF0 + v / 262144 < 0xF5
    ensures Four(0xF0 + v / 262144, 0x80 + v / 4096 % 64, 0x80 + v / 64 % 64, 0x80 + v % 64) == v
  {
    assert v / 4096 == v / 262144 * 64 + v / 4096 % 64;
    assert v / 64 == v / 4096 * 64 + v / 64 % 64;
  }

  lemma DecodeEncodedChar(c: char, rest: seq<Byte>)
    ensures DecodeChar(EncodeChar(c) + rest) == Some((c, |EncodeChar(c)|))
  {
    var v := c as int;
    var bs := EncodeChar(c) + rest;
    assert forall i :: 0 <= i < |EncodeChar(c)| ==> bs[i] == EncodeChar(c)[i];
    if v < 0x80 {
    } else if v < 0x800 {
      assert Tail(bs, 2) && Two(bs[0], bs[1]) == v;
    } else if v < 0x10000 {
      ThreeInverts(v);
      assert Tail(bs, 3) && bs[0] == 0xE0 + v / 4096 && Three(bs[0], bs[1], bs[2]) == v;
      assert Scalar(v);
    } else {
      FourInverts(v);
      assert Tail(bs, 4) && Four(bs[0], bs[1], bs[2], bs[3]) == v;
      assert Scalar(v);
    }
  }

  lemma SplitTwo(b0: int, b1: int)
    requires 0xC2 <= b0 < 0xE0 && 0x80 <= b1 < 0xC0
    ensures var v := Two(b0, b1); 0x80 <= v < 0x800 && b0 == 0xC0 + v / 64 && b1 == 0x80 + v % 64
  {
  }

  lemma SplitThree(b0: int, b1: int, b2: int)
    requires 0xE0 <= b0 < 0xF0 && 0x80 <= b1 < 0xC0 && 0x80 <= b2 < 0xC0
    ensures var v := Three(b0, b1, b2);
      0 <= v < 0x10000 && b0 == 0xE0 + v / 4096 && b1 == 0x80 + v / 64 % 64 && b2 == 0x80 + v % 64
  {
    var v := Three(b0, b1, b2);
    assert v / 64 == (b0 - 0xE0) * 64 + (b1 - 0x80);
  }

  lemma SplitFour(b0: int, b1: int, b2: int, b3: int)
    requires 0xF0 <= b0 < 0xF5 && 0x80 <= b1 < 0xC0 && 0x80 <= b2 < 0xC0 && 0x80 <= b3 < 0xC0
    ensures var v := Four(b0, b1, b2, b3);
      && b0 == 0xF0 + v / 262144 && b1 == 0x80 + v / 4096 % 64
      && b2 == 0x80 + v / 64 % 64 && b3 == 0x80 + v % 64
  {
    var v := Four(b0, b1, b2, b3);
    assert v / 64 == (b0 - 0xF0) * 4096 + (b1 - 0x80) * 64 + (b2 - 0x80);
    assert v / 4096 == (b0 - 0xF0) * 64 + (b1 - 0x80);
  }

  /** A decoded character encodes back to the bytes it was read from. */
  lemma EncodeDecodedChar(bs: seq<Byte>)
    requires DecodeChar(bs).Some?
    ensures EncodeChar(DecodeChar(bs).value.0) == bs[..DecodeChar(bs).value.1]
  {
    if bs[0] < 0x80 {
    } else if bs[0] < 0xE0 {
      SplitTwo(bs[0], bs[1]);
    } else if bs[0] < 0xF0 {
      SplitThree(bs[0], bs[1], bs[2]);
      assert EncodeChar(DecodeChar(bs).value.0) == [bs[0], bs[1], bs[2]];
    } else {
      SplitFour(bs[0], bs[1], bs[2], bs[3]);
      assert EncodeChar(DecodeChar(bs).value.0) == [bs[0], bs[1], bs[2], bs[3]];
    }
  }

  lemma {:induction false} DecodeInvertsEncode(s: string)
    ensures Decode(Encode(s)) == Some(s) && DecodeLossy(Encode(s)) == s
  {
    if s != [] {
      var tail := Encode(s[1..]);
      DecodeEncodedChar(s[0], tail);
      assert (EncodeChar(s[0]) + tail)[|EncodeChar(s[0])|..] == tail;
      DecodeInvertsEncode(s[1..]);
      assert Encode(s) == EncodeChar(s[0]) + tail;
      assert [s[0]] + s[1..] == s;
    }
  }

  /** decode accepts exactly the encodings. */
  lemma {:induction false} EncodeInvertsDecode(bs: seq<Byte>)
    requires Decode(bs).Some?
    ensures Encode(Decode(bs).value) == bs
  {
    if bs != [] {
      var (c, n) := DecodeChar(bs).value;
      EncodeDecodedChar(bs);
      EncodeInvertsDecode(bs[n..]);
      EncodeFirst(c, Decode(bs[n..]).value);
      assert bs == bs[..n] + bs[n..];
    }
  }

  lemma EncodeFirst(c: char, rest: string)
    ensures Encode([c] + rest) == EncodeChar(c) + Encode(rest)
  {
    assert ([c] + rest)[1..] == rest;
  }

  lemma {:induction false} EncodeAppend(s: string, t: string)
    ensures Encode(s + t) == Encode(s) + Encode(t)
  {
    if s == [] {
      assert s + t == t;
    } else {
      assert (s + t)[1..] == s[1..] + t;
      EncodeAppend(s[1..], t);
    }
  }
}
