/** UTF-8 (RFC 3629): how a string becomes the bytes that are signed. */
module Utf8 {
  import opened Common

  function EncodeChar(c: char): (b: seq<Byte>)
    ensures 1 <= |b| <= 4
  {
    var v := c as int;
    if v < 0x80 then [v]
    else if v < 0x800 then [0xC0 + v / 64, 0x80 + v % 64]
    else if v < 0x1_0000 then [0xE0 + v / 4096, 0x80 + v / 64 % 64, 0x80 + v % 64]
    else [0xF0 + v / 262144, 0x80 + v / 4096 % 64, 0x80 + v / 64 % 64, 0x80 + v % 64]
  }

  function Encode(s: string): seq<Byte> {
    if s == "" then [] else EncodeChar(s[0]) + Encode(s[1..])
  }

  /** The six payload bits of a continuation byte. */
  function Tail(b: Byte): int { b as int - 0x80 }

  /** The scalar value an encoded character starts with. */
  function Lead(b: seq<Byte>): int
    requires b != []
    requires b[0] >= 0xC0 ==> |b| >= 2
    requires b[0] >= 0xE0 ==> |b| >= 3
    requires b[0] >= 0xF0 ==> |b| >= 4
  {
    var first: int := b[0];
    if first < 0xC0 then first
    else if first < 0xE0 then (first - 0xC0) * 64 + Tail(b[1])
    else if first < 0xF0 then (first - 0xE0) * 4096 + Tail(b[1]) * 64 + Tail(b[2])
    else (first - 0xF0) * 262144 + Tail(b[1]) * 4096 + Tail(b[2]) * 64 + Tail(b[3])
  }

  lemma LeadOfEncoded(c: char, rest: seq<Byte>)
    ensures var b := EncodeChar(c) + rest;
      (b[0] >= 0xC0 ==> |b| >= 2) && (b[0] >= 0xE0 ==> |b| >= 3) && (b[0] >= 0xF0 ==> |b| >= 4) && Lead(b) == c as int
  {
    var v := c as int;
    assert v / 4096 == v / 64 / 64 && v / 262144 == v / 4096 / 64;
  }

  /** No two strings have the same encoding. */
  lemma {:induction false} EncodeInjective(a: string, b: string)
    requires Encode(a) == Encode(b)
    ensures a == b
    decreases |a|
  {
    if a != "" && b != "" {
      LeadOfEncoded(a[0], Encode(a[1..]));
      LeadOfEncoded(b[0], Encode(b[1..]));
      assert a[0] == b[0];
      assert Encode(a)[|EncodeChar(a[0])|..] == Encode(a[1..]);
      assert Encode(b)[|EncodeChar(b[0])|..] == Encode(b[1..]);
      EncodeInjective(a[1..], b[1..]);
      assert a == [a[0]] + a[1..] && b == [b[0]] + b[1..];
    }
  }

  /** The encoded form of every scalar value: its length, its lead byte, its continuation bytes, its bits. */
  lemma EncodedForm(c: char)
    ensures var v, b := c as int, EncodeChar(c);
      && (forall i :: 1 <= i < |b| ==> 0x80 <= b[i] < 0xC0)
      && (|b| == 1 <==> v < 0x80) && (|b| == 2 <==> 0x80 <= v < 0x800) && (|b| == 3 <==> 0x800 <= v < 0x1_0000)
      && (|b| == 1 ==> b[0] < 0x80 && v == b[0])
      && (|b| == 2 ==> 0xC0 <= b[0] < 0xE0 && v == (b[0] as int - 0xC0) * 64 + (b[1] as int - 0x80))
      && (|b| == 3 ==>
            0xE0 <= b[0] < 0xF0
            && v == (b[0] as int - 0xE0) * 4096 + (b[1] as int - 0x80) * 64 + (b[2] as int - 0x80))
      && (|b| == 4 ==>
            0xF0 <= b[0] < 0xF8
            && v == (b[0] as int - 0xF0) * 262144 + (b[1] as int - 0x80) * 4096 + (b[2] as int - 0x80) * 64
              + (b[3] as int - 0x80))
  {
    var v := c as int;
    assert v / 4096 == v / 64 / 64 && v / 262144 == v / 4096 / 64;
  }

  lemma {:induction false} AsciiEncode(s: string)
    requires forall c :: c in s ==> c as int < 0x80
    ensures |Encode(s)| == |s| && forall i :: 0 <= i < |s| ==> Encode(s)[i] == s[i] as int
  {
    if s != "" {
      assert s[0] in s && forall c :: c in s[1..] ==> c in s;
      AsciiEncode(s[1..]);
      assert forall i :: 1 <= i < |s| ==> s[i] == s[1..][i - 1];
    }
  }
}
