/** Socket addresses of /proc/net/tcp and tcp6, and the key of a connection. */
module HexAddr {
  import opened Common
  import opened Numerals

  // ---- reading hexadecimal ----

  predicate AllHex(s: string) { forall c :: c in s ==> IsHex(c) }

  function HexValue(s: string): nat
    requires AllHex(s)
  {
    if s == "" then 0
    else
      assert s[|s| - 1] in s;
      HexValue(s[..|s| - 1]) * 16 + HexDigitValue(s[|s| - 1])
  }

  /** `from_str_radix(s, 16).unwrap_or(0)` for an unsigned type with values below `bound`. */
  function FromHex(s: string, bound: nat): (v: nat)
    requires bound > 0
    ensures v < bound
  {
    var digits := if |s| > 1 && s[0] == '+' then s[1..] else s;
    if digits == "" || !AllHex(digits) then 0
    else if HexValue(digits) >= bound then 0
    else HexValue(digits)
  }

  const U32: nat := 0x1_0000_0000

  // ---- the decoder ----

  /** `to_le_bytes` of a 32-bit value. */
  function LeBytes(v: nat): (b: seq<Byte>)
    requires v < U32
    ensures |b| == 4
  {
    [v % 256, v / 256 % 256, v / 65536 % 256, v / 16777216]
  }

  function V4Text(b: seq<Byte>): string
    requires |b| == 4
  {
    Decimal(b[0]) + "." + Decimal(b[1]) + "." + Decimal(b[2]) + "." + Decimal(b[3])
  }

  function Pair(b: Byte): string { [HexChar(b as nat / 16), HexChar(b as nat % 16)] }

  /** One 32-bit word of an IPv6 address as two groups. */
  function WordText(b: seq<Byte>): (r: string)
    requires |b| == 4
    ensures |r| == 9
  {
    Pair(b[0]) + Pair(b[1]) + ":" + Pair(b[2]) + Pair(b[3])
  }

  function Groups(addr: string, n: nat): seq<string>
    requires 8 * n <= |addr|
  {
    seq(n, i requires 0 <= i < n => WordText(LeBytes(FromHex(addr[8 * i..8 * i + 8], U32))))
  }

  function ParsedAddr(hex: string): string {
    var parts := Split(hex, c => c == ':');
    if |parts| != 2 then hex
    else
      var port := FromHex(parts[1], 0x1_0000);
      if |parts[0]| == 8 then V4Text(LeBytes(FromHex(parts[0], U32))) + ":" + Decimal(port)
      else if |parts[0]| == 32 then "[" + Join(Groups(parts[0], 4), ":") + "]:" + Decimal(port)
      else hex
  }

  lemma GroupsStep(addr: string, n: nat)
    requires 8 * n + 8 <= |addr|
    ensures Groups(addr, n + 1) == Groups(addr, n) + [WordText(LeBytes(FromHex(addr[8 * n..8 * n + 8], U32)))]
  {
    hide WordText, LeBytes, FromHex;
  }

  lemma GroupsNone(addr: string)
    ensures Groups(addr, 0) == []
  {}

  method ReadGroups(addrHex: string) returns (groups: seq<string>)
    requires |addrHex| == 32
    ensures groups == Groups(addrHex, 4)
  {
    hide Groups, Pair, FromHex, LeBytes;
    groups := [];
    GroupsNone(addrHex);
    var i := 0;
    while i < 4
      invariant 0 <= i <= 4 && groups == Groups(addrHex, i)
    {
      var bytes := LeBytes(FromHex(addrHex[8 * i..8 * i + 8], U32));
      GroupsStep(addrHex, i);
      groups := groups + [Pair(bytes[0]) + Pair(bytes[1]) + ":" + Pair(bytes[2]) + Pair(bytes[3])];
      i := i + 1;
    }
  }

  method ParseHexAddr(hex: string) returns (text: string)
    ensures text == ParsedAddr(hex)
  {
    hide Split, Groups, FromHex, LeBytes, V4Text, Decimal, Join;
    var parts := Split(hex, c => c == ':');
    if |parts| != 2 {
      return hex;
    }
    var addrHex := parts[0];
    var port := FromHex(parts[1], 0x1_0000);
    if |addrHex| == 8 {
      text := V4Text(LeBytes(FromHex(addrHex, U32))) + ":" + Decimal(port);
    } else if |addrHex| == 32 {
      var groups := ReadGroups(addrHex);
      text := "[" + Join(groups, ":") + "]:" + Decimal(port);
    } else {
      text := hex;
    }
  }

  // ---- what the kernel prints ----

  /** An address in network byte order, and a port. */
  datatype Addr = V4(bytes: seq<Byte>, port: nat) | V6(bytes: seq<Byte>, port: nat)

  predicate Valid(a: Addr) { |a.bytes| == (if a.V4? then 4 else 16) && a.port < 0x1_0000 }

  function FourWords(b: seq<Byte>): string
    requires |b| == 16
  {
    WordText(b[0..4]) + ":" + WordText(b[4..8]) + ":" + WordText(b[8..12]) + ":" + WordText(b[12..16])
  }

  function Render(a: Addr): string
    requires Valid(a)
  {
    match a
    case V4(b, port) => V4Text(b) + ":" + Decimal(port)
    case V6(b, port) =>
      "[" + FourWords(b) + "]:" + Decimal(port)
  }

  function UpperHexChar(d: nat): (c: char)
    requires d < 16
    ensures IsHex(c) && HexDigitValue(c) == d && c != '+' && c != ':'
  {
    if d < 10 then ('0' as int + d) as char else ('A' as int + d - 10) as char
  }

  /** `%0nX`. */
  function UpperHex(v: nat, n: nat): (s: string)
    ensures |s| == n
  {
    if n == 0 then "" else UpperHex(v / 16, n - 1) + [UpperHexChar(v % 16)]
  }

  /** Four bytes in memory order loaded as a little-endian word. */
  function Load(b: seq<Byte>): nat
    requires |b| == 4
  {
    b[0] as nat + 256 * b[1] as nat + 65536 * b[2] as nat + 16777216 * b[3] as nat
  }

  function KernelText(a: Addr): string
    requires Valid(a)
  {
    match a
    case V4(b, port) => UpperHex(Load(b), 8) + ":" + UpperHex(port, 4)
    case V6(b, port) =>
      UpperHex(Load(b[0..4]), 8) + UpperHex(Load(b[4..8]), 8) + UpperHex(Load(b[8..12]), 8)
        + UpperHex(Load(b[12..16]), 8)
      + ":" + UpperHex(port, 4)
  }

  // ---- the decoder inverts the kernel's text ----

  function Pow16(n: nat): nat { if n == 0 then 1 else 16 * Pow16(n - 1) }

  lemma {:induction false} UpperHexValue(v: nat, n: nat)
    requires v < Pow16(n)
    ensures AllHex(UpperHex(v, n)) && HexValue(UpperHex(v, n)) == v
    ensures forall c :: c in UpperHex(v, n) ==> c != ':' && c != '+'
  {
    if n > 0 {
      UpperHexValue(v / 16, n - 1);
      var s := UpperHex(v, n);
      assert s[..n - 1] == UpperHex(v / 16, n - 1);
    }
  }

  lemma Powers()
    ensures Pow16(4) == 0x1_0000 && Pow16(8) == U32
  {
    assert Pow16(1) == 16;
    assert Pow16(2) == 16 * Pow16(1);
    assert Pow16(3) == 16 * Pow16(2);
    assert Pow16(4) == 16 * Pow16(3);
    assert Pow16(5) == 16 * Pow16(4);
    assert Pow16(6) == 16 * Pow16(5);
    assert Pow16(7) == 16 * Pow16(6);
  }

  lemma ReadUpperHex(v: nat, n: nat, bound: nat)
    requires n > 0 && v < bound == Pow16(n)
    ensures FromHex(UpperHex(v, n), bound) == v
    ensures forall c :: c in UpperHex(v, n) ==> c != ':'
  {
    UpperHexValue(v, n);
    assert UpperHex(v, n)[0] in UpperHex(v, n);
  }

  lemma LoadedBytes(b: seq<Byte>)
    requires |b| == 4
    ensures Load(b) < U32 && LeBytes(Load(b)) == b
  {
    var v := Load(b);
    var b0: nat, b1: nat, b2: nat, b3: nat := b[0], b[1], b[2], b[3];
    assert v == b0 + 256 * (b1 + 256 * (b2 + 256 * b3));
    assert v % 256 == b0 && v / 256 == b1 + 256 * (b2 + 256 * b3);
    assert v / 65536 == v / 256 / 256 == b2 + 256 * b3;
    assert v / 16777216 == v / 65536 / 256 == b3;
  }

  lemma TwoParts(a: string, b: string)
    requires (forall c :: c in a ==> c != ':') && (forall c :: c in b ==> c != ':')
    ensures Split(a + ":" + b, c => c == ':') == [a, b]
  {
    var stop := c => c == ':';
    SplitHead(a, ":" + b, stop);
    assert (":" + b)[1..] == b && a + ":" + b == a + (":" + b);
    SplitNone(b, stop);
  }

  lemma JoinFour(a: string, b: string, c: string, d: string)
    ensures Join([a, b, c, d], ":") == a + ":" + b + ":" + c + ":" + d
  {
    assert [a, b, c, d][1..] == [b, c, d] && [b, c, d][1..] == [c, d] && [c, d][1..] == [d];
    assert Join([c, d], ":") == c + ":" + Join([d], ":") == c + ":" + d;
    assert Join([b, c, d], ":") == b + ":" + Join([c, d], ":");
  }

  /** Every IPv4 or IPv6 socket address the kernel prints is rendered in network order with its port. */
  lemma KernelTextRendered(a: Addr)
    requires Valid(a)
    ensures ParsedAddr(KernelText(a)) == Render(a)
  {
    hide UpperHex, FromHex, LeBytes, Load, WordText, V4Text, Decimal, Split;
    Powers();
    ReadUpperHex(a.port, 4, 0x1_0000);
    var port := UpperHex(a.port, 4);
    match a
    case V4(b, _) =>
      LoadedBytes(b);
      ReadUpperHex(Load(b), 8, U32);
      TwoParts(UpperHex(Load(b), 8), port);
    case V6(b, _) =>
      var w0, w1, w2, w3 := b[0..4], b[4..8], b[8..12], b[12..16];
      WordRead(w0);
      WordRead(w1);
      WordRead(w2);
      WordRead(w3);
      var h := UpperHex(Load(w0), 8) + UpperHex(Load(w1), 8) + UpperHex(Load(w2), 8) + UpperHex(Load(w3), 8);
      TwoParts(h, port);
      assert h[0..8] == UpperHex(Load(w0), 8) && h[8..16] == UpperHex(Load(w1), 8);
      assert h[16..24] == UpperHex(Load(w2), 8) && h[24..32] == UpperHex(Load(w3), 8);
      assert Groups(h, 4) == [WordText(w0), WordText(w1), WordText(w2), WordText(w3)];
      JoinFour(WordText(w0), WordText(w1), WordText(w2), WordText(w3));
  }

  /** A byte as two lower-case hexadecimal digits. */
  function Hex2(b: Byte): string {
    var digits := "0123456789abcdef";
    [digits[b as nat / 16], digits[b as nat % 16]]
  }

  lemma PairIsHex(b: Byte)
    ensures Pair(b) == Hex2(b)
  {}

  /** The words the reader sees: dotted decimals for IPv4, eight groups of two bytes for IPv6, and the port. */
  lemma RenderedText(a: Addr)
    requires Valid(a)
    ensures var b, port, text := a.bytes, Decimal(a.port), ParsedAddr(KernelText(a));
      && (a.V4? ==>
            text == Decimal(b[0]) + "." + Decimal(b[1]) + "." + Decimal(b[2]) + "." + Decimal(b[3]) + ":" + port)
      && (a.V6? ==>
            text == "[" + (Hex2(b[0]) + Hex2(b[1]) + ":" + Hex2(b[2]) + Hex2(b[3])
                           + ":" + (Hex2(b[4]) + Hex2(b[5]) + ":" + Hex2(b[6]) + Hex2(b[7]))
                           + ":" + (Hex2(b[8]) + Hex2(b[9]) + ":" + Hex2(b[10]) + Hex2(b[11]))
                           + ":" + (Hex2(b[12]) + Hex2(b[13]) + ":" + Hex2(b[14]) + Hex2(b[15]))) + "]:" + port)
  {
    hide Decimal, Pair, Hex2, ParsedAddr, KernelText;
    KernelTextRendered(a);
    forall c: Byte
      ensures Pair(c) == Hex2(c)
    {
      PairIsHex(c);
    }
  }

  /** What becomes of any other text: it is kept, unless it has the length of an address; then what is no number
      in range counts as zero. */
  lemma OtherTexts(addr: string, port: string)
    requires (forall c :: c in addr ==> c != ':') && (forall c :: c in port ==> c != ':')
    ensures ParsedAddr(addr) == addr
    ensures |addr| != 8 && |addr| != 32 ==> ParsedAddr(addr + ":" + port) == addr + ":" + port
    ensures |addr| == 8 && !IsNumber(addr) && !IsNumber(port) ==> ParsedAddr(addr + ":" + port) == "0.0.0.0:0"
    ensures |addr| == 8 && !IsNumber(addr) && IsNumber(port) && HexValue(Digits(port)) >= 0x1_0000 ==>
              ParsedAddr(addr + ":" + port) == "0.0.0.0:0"
  {
    hide HexValue, Split;
    SplitNone(addr, c => c == ':');
    TwoParts(addr, port);
    if |addr| == 8 && !IsNumber(addr) && (!IsNumber(port) || HexValue(Digits(port)) >= 0x1_0000) {
      assert FromHex(addr, U32) == 0 && FromHex(port, 0x1_0000) == 0;
      assert LeBytes(0) == [0, 0, 0, 0] && Decimal(0) == "0";
      assert V4Text([0, 0, 0, 0]) == "0.0.0.0";
    }
  }

  /** The digits of a numeral, after a plus sign if it has one. */
  function Digits(s: string): string { if |s| > 1 && s[0] == '+' then s[1..] else s }

  predicate IsNumber(s: string) {
    Digits(s) != "" && forall c :: c in Digits(s) ==> '0' <= c <= '9' || 'a' <= c <= 'f' || 'A' <= c <= 'F'
  }

  lemma WordRead(w: seq<Byte>)
    requires |w| == 4
    ensures Load(w) < U32 && LeBytes(FromHex(UpperHex(Load(w), 8), U32)) == w
    ensures forall c :: c in UpperHex(Load(w), 8) ==> c != ':'
  {
    Powers();
    LoadedBytes(w);
    ReadUpperHex(Load(w), 8, U32);
  }

  // ---- the connection key ----

  /** `format!("{}:{}", local, remote)`. */
  function Key(local: Addr, remote: Addr): string
    requires Valid(local) && Valid(remote)
  {
    Render(local) + ":" + Render(remote)
  }

  predicate NoDigitFirst(s: string) { s == "" || !IsDigit(s[0]) }

  lemma DecimalPrefix(m: nat, n: nat, s: string, t: string)
    requires Decimal(m) + s == Decimal(n) + t && NoDigitFirst(s) && NoDigitFirst(t)
    ensures m == n && s == t
  {
    DecimalRoundTrip(m);
    DecimalRoundTrip(n);
    DigitRunIs(Decimal(m), s);
    DigitRunIs(Decimal(n), t);
    var k := |Decimal(m)|;
    assert (Decimal(m) + s)[..k] == Decimal(m) && (Decimal(n) + t)[..k] == Decimal(n);
    assert (Decimal(m) + s)[k..] == s && (Decimal(n) + t)[k..] == t;
  }

  lemma DotPrefix(m: nat, n: nat, s: string, t: string)
    requires Decimal(m) + ("." + s) == Decimal(n) + ("." + t)
    ensures m == n && s == t
  {
    DecimalPrefix(m, n, "." + s, "." + t);
    assert ("." + s)[1..] == s && ("." + t)[1..] == t;
  }

  lemma V4Prefix(b: seq<Byte>, c: seq<Byte>, s: string, t: string)
    requires |b| == 4 && |c| == 4 && V4Text(b) + (":" + s) == V4Text(c) + (":" + t)
    ensures b == c && s == t
  {
    hide Decimal;
    var b2, b1 := Decimal(b[2]) + ("." + (Decimal(b[3]) + (":" + s))),
      Decimal(b[1]) + ("." + (Decimal(b[2]) + ("." + (Decimal(b[3]) + (":" + s)))));
    var c2, c1 := Decimal(c[2]) + ("." + (Decimal(c[3]) + (":" + t))),
      Decimal(c[1]) + ("." + (Decimal(c[2]) + ("." + (Decimal(c[3]) + (":" + t)))));
    assert V4Text(b) + (":" + s) == Decimal(b[0]) + ("." + b1);
    assert V4Text(c) + (":" + t) == Decimal(c[0]) + ("." + c1);
    DotPrefix(b[0], c[0], b1, c1);
    DotPrefix(b[1], c[1], b2, c2);
    DotPrefix(b[2], c[2], Decimal(b[3]) + (":" + s), Decimal(c[3]) + (":" + t));
    DecimalPrefix(b[3], c[3], ":" + s, ":" + t);
    assert (":" + s)[1..] == s && (":" + t)[1..] == t;
  }

  lemma PairInjective(b: Byte, c: Byte)
    requires Pair(b) == Pair(c)
    ensures b == c
  {
    var b0: nat, c0: nat := b, c;
    assert Pair(b)[0] == Pair(c)[0] && Pair(b)[1] == Pair(c)[1];
    HexCharValue(b0 / 16);
    HexCharValue(c0 / 16);
    HexCharValue(b0 % 16);
    HexCharValue(c0 % 16);
  }

  lemma WordPrefix(b: seq<Byte>, c: seq<Byte>, s: string, t: string)
    requires |b| == 4 && |c| == 4 && WordText(b) + s == WordText(c) + t
    ensures b == c && s == t
  {
    hide HexChar;
    var x, y := WordText(b), WordText(c);
    assert (x + s)[..9] == x && (y + t)[..9] == y;
    assert (x + s)[9..] == s && (y + t)[9..] == t;
    assert x[0..2] == Pair(b[0]) && x[2..4] == Pair(b[1]) && x[5..7] == Pair(b[2]) && x[7..9] == Pair(b[3]);
    assert y[0..2] == Pair(c[0]) && y[2..4] == Pair(c[1]) && y[5..7] == Pair(c[2]) && y[7..9] == Pair(c[3]);
    PairInjective(b[0], c[0]);
    PairInjective(b[1], c[1]);
    PairInjective(b[2], c[2]);
    PairInjective(b[3], c[3]);
  }

  lemma ColonWordPrefix(b: seq<Byte>, c: seq<Byte>, s: string, t: string)
    requires |b| == 4 && |c| == 4 && ":" + (WordText(b) + s) == ":" + (WordText(c) + t)
    ensures b == c && s == t
  {
    assert (":" + (WordText(b) + s))[1..] == WordText(b) + s;
    assert (":" + (WordText(c) + t))[1..] == WordText(c) + t;
    WordPrefix(b, c, s, t);
  }

  lemma V6Prefix(b: seq<Byte>, c: seq<Byte>, s: string, t: string)
    requires |b| == 16 && |c| == 16
    requires "[" + FourWords(b) + s == "[" + FourWords(c) + t
    ensures b == c && s == t
  {
    hide WordText;
    var b3, c3 := ":" + (WordText(b[12..16]) + s), ":" + (WordText(c[12..16]) + t);
    var b2, c2 := ":" + (WordText(b[8..12]) + b3), ":" + (WordText(c[8..12]) + c3);
    var b1, c1 := ":" + (WordText(b[4..8]) + b2), ":" + (WordText(c[4..8]) + c2);
    var x := "[" + FourWords(b) + s;
    var y := "[" + FourWords(c) + t;
    assert x[1..] == WordText(b[0..4]) + b1;
    assert y[1..] == WordText(c[0..4]) + c1;
    WordPrefix(b[0..4], c[0..4], b1, c1);
    ColonWordPrefix(b[4..8], c[4..8], b2, c2);
    ColonWordPrefix(b[8..12], c[8..12], b3, c3);
    ColonWordPrefix(b[12..16], c[12..16], s, t);
    assert b == b[0..4] + b[4..8] + b[8..12] + b[12..16];
    assert c == c[0..4] + c[4..8] + c[8..12] + c[12..16];
  }

  lemma RenderStart(a: Addr, s: string)
    requires Valid(a)
    ensures var r := Render(a) + s; r != "" && (r[0] == '[' <==> a.V6?) && (IsDigit(r[0]) <==> a.V4?)
  {
    if a.V4? {
      DecimalRoundTrip(a.bytes[0]);
      assert Decimal(a.bytes[0])[0] in Decimal(a.bytes[0]);
    }
  }

  /** A rendered address can be read off the front of a text that does not go on with a digit. */
  lemma RenderPrefix(a: Addr, b: Addr, s: string, t: string)
    requires Valid(a) && Valid(b) && NoDigitFirst(s) && NoDigitFirst(t)
    requires Render(a) + s == Render(b) + t
    ensures a == b && s == t
  {
    hide V4Text, FourWords, Decimal;
    RenderStart(a, s);
    RenderStart(b, t);
    var p, q := Decimal(a.port) + s, Decimal(b.port) + t;
    if a.V4? {
      assert Render(a) + s == V4Text(a.bytes) + (":" + p);
      assert Render(b) + t == V4Text(b.bytes) + (":" + q);
      V4Prefix(a.bytes, b.bytes, p, q);
    } else {
      V6Prefix(a.bytes, b.bytes, "]:" + p, "]:" + q) by {
        V6Tail(a, s);
        V6Tail(b, t);
      }
      assert ("]:" + p)[2..] == p && ("]:" + q)[2..] == q;
    }
    DecimalPrefix(a.port, b.port, s, t);
  }

  lemma V6Tail(a: Addr, s: string)
    requires Valid(a) && a.V6?
    ensures Render(a) + s
        == "[" + FourWords(a.bytes) + ("]:" + (Decimal(a.port) + s))
  {
    hide FourWords, Decimal;
  }

  /** Two connections with the same key are the same pair of addresses, so the key of one
      never hides another. */
  lemma KeyInjective(local: Addr, remote: Addr, local': Addr, remote': Addr)
    requires Valid(local) && Valid(remote) && Valid(local') && Valid(remote')
    requires Key(local, remote) == Key(local', remote')
    ensures local == local' && remote == remote'
  {
    hide Render;
    assert Key(local, remote) == Render(local) + (":" + Render(remote));
    assert Key(local', remote') == Render(local') + (":" + Render(remote'));
    RenderPrefix(local, local', ":" + Render(remote), ":" + Render(remote'));
    assert (":" + Render(remote))[1..] == Render(remote) && (":" + Render(remote'))[1..] == Render(remote');
    assert Render(remote) + "" == Render(remote') + "";
    RenderPrefix(remote, remote', "", "");
  }
}
