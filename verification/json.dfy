/** JSON values, the compact printer of serde_json, and a parser for its output.
    Strings are sequences of Unicode scalar values; escaping follows section 7 of RFC 8259. */
module Json {
  import opened Numerals

  datatype Json =
    | Null
    | Bool(b: bool)
    | Num(n: nat)
    | Str(s: string)
    | Arr(items: seq<Json>)
    | Obj(fields: seq<Field>)

  datatype Field = Field(name: string, value: Json)

  // ---- printing ----

  function EscapeChar(c: char): (e: string)
    ensures |e| > 0
  {
    if c == '"' then "\\\""
    else if c == '\\' then "\\\\"
    else if c == 8 as char then "\\b"
    else if c == '\t' then "\\t"
    else if c == '\n' then "\\n"
    else if c == 12 as char then "\\f"
    else if c == '\r' then "\\r"
    else if c < ' ' then "\\u00" + [HexChar(c as int / 16), HexChar(c as int % 16)]
    else [c]
  }

  function Escape(s: string): string {
    if s == "" then "" else EscapeChar(s[0]) + Escape(s[1..])
  }

  function Print(v: Json): string
    decreases v, 1
  {
    match v
    case Null => "null"
    case Bool(b) => if b then "true" else "false"
    case Num(n) => Decimal(n)
    case Str(s) => "\"" + Escape(s) + "\""
    case Arr(items) => "[" + PrintItems(items) + "]"
    case Obj(fields) => "{" + PrintFields(fields) + "}"
  }

  function PrintItems(items: seq<Json>): string
    decreases items, 0
  {
    if items == [] then ""
    else if |items| == 1 then Print(items[0])
    else Print(items[0]) + "," + PrintItems(items[1..])
  }

  function PrintField(f: Field): string
    decreases f, 2
  {
    "\"" + Escape(f.name) + "\":" + Print(f.value)
  }

  function PrintFields(fields: seq<Field>): string
    decreases fields, 0
  {
    if fields == [] then ""
    else if |fields| == 1 then PrintField(fields[0])
    else PrintField(fields[0]) + "," + PrintFields(fields[1..])
  }

  // ---- parsing ----

  datatype Parse<+T> = Fail | Done(value: T, rest: string)

  predicate IsSpace(c: char) { c == ' ' || c == '\t' || c == '\n' || c == '\r' }

  function SkipSpace(s: string): (r: string)
    ensures |r| <= |s| && (r != "" ==> !IsSpace(r[0]))
    ensures (s == "" || !IsSpace(s[0])) ==> r == s
  {
    if s != "" && IsSpace(s[0]) then SkipSpace(s[1..]) else s
  }

  /** The scalar value named by the four hex digits after `\u`; lone surrogates are refused. */
  function UnicodeEscape(s: string): (r: Parse<char>)
    ensures r.Done? ==> |r.rest| < |s|
  {
    if |s| < 4 || !(forall i :: 0 <= i < 4 ==> IsHex(s[i])) then Fail
    else
      var code := ((HexDigitValue(s[0]) * 16 + HexDigitValue(s[1])) * 16 + HexDigitValue(s[2])) * 16
        + HexDigitValue(s[3]);
      if 0xD800 <= code < 0xE000 then Fail else Done(code as char, s[4..])
  }

  /** One character after a backslash. */
  function SimpleEscape(c: char): (r: Parse<char>) {
    if c == '"' || c == '\\' || c == '/' then Done(c, "")
    else if c == 'b' then Done(8 as char, "")
    else if c == 't' then Done('\t', "")
    else if c == 'n' then Done('\n', "")
    else if c == 'f' then Done(12 as char, "")
    else if c == 'r' then Done('\r', "")
    else Fail
  }

  /** The next character of a string literal (not its closing quote). */
  function ParseChar(s: string): (r: Parse<char>)
    requires s != ""
    ensures r.Done? ==> |r.rest| < |s|
  {
    if s[0] == '\\' then
      if |s| < 2 then Fail
      else if s[1] == 'u' then UnicodeEscape(s[2..])
      else match SimpleEscape(s[1])
        case Fail => Fail
        case Done(c, _) => Done(c, s[2..])
    else if s[0] < ' ' then Fail
    else Done(s[0], s[1..])
  }

  /** The rest of a string literal whose opening quote was consumed. */
  function ParseString(s: string): (r: Parse<string>)
    ensures r.Done? ==> |r.rest| < |s|
    decreases |s|
  {
    if s == "" then Fail
    else if s[0] == '"' then Done("", s[1..])
    else match ParseChar(s)
      case Fail => Fail
      case Done(c, rest) =>
        match ParseString(rest)
        case Fail => Fail
        case Done(tail, rest') => Done([c] + tail, rest')
  }

  function ParseNumber(s: string): (r: Parse<Json>)
    requires s != "" && IsDigit(s[0])
    ensures r.Done? ==> |r.rest| < |s|
  {
    var n := DigitRun(s);
    if n > 1 && s[0] == '0' then Fail
    else if n < |s| && (s[n] == '.' || s[n] == 'e' || s[n] == 'E') then Fail
    else Done(Num(DecimalValue(s[..n])), s[n..])
  }

  function ParseKeyword(s: string, word: string, v: Json): (r: Parse<Json>)
    requires word != ""
    ensures r.Done? ==> |r.rest| < |s|
  {
    if |word| <= |s| && s[..|word|] == word then Done(v, s[|word|..]) else Fail
  }

  function ParseValue(text: string): (r: Parse<Json>)
    ensures r.Done? ==> |r.rest| < |text|
    decreases |text|, 0
  {
    var s := SkipSpace(text);
    if s == "" then Fail
    else if s[0] == 'n' then ParseKeyword(s, "null", Null)
    else if s[0] == 't' then ParseKeyword(s, "true", Bool(true))
    else if s[0] == 'f' then ParseKeyword(s, "false", Bool(false))
    else if IsDigit(s[0]) then ParseNumber(s)
    else if s[0] == '"' then
      match ParseString(s[1..]) {
        case Fail => Fail
        case Done(v, rest) => Done(Str(v), rest)
      }
    else if s[0] == '[' then
      var t := SkipSpace(s[1..]);
      if t != "" && t[0] == ']' then Done(Arr([]), t[1..])
      else match ParseItems(t) {
        case Fail => Fail
        case Done(items, rest) => Done(Arr(items), rest)
      }
    else if s[0] == '{' then
      var t := SkipSpace(s[1..]);
      if t != "" && t[0] == '}' then Done(Obj([]), t[1..])
      else match ParseFields(t) {
        case Fail => Fail
        case Done(fields, rest) => Done(Obj(fields), rest)
      }
    else Fail
  }

  function ParseItems(s: string): (r: Parse<seq<Json>>)
    ensures r.Done? ==> |r.rest| < |s|
    decreases |s|, 1
  {
    match ParseValue(s)
    case Fail => Fail
    case Done(v, rest) =>
      var t := SkipSpace(rest);
      if t == "" then Fail
      else if t[0] == ']' then Done([v], t[1..])
      else if t[0] == ',' then
        match ParseItems(t[1..])
        case Fail => Fail
        case Done(more, rest') => Done([v] + more, rest')
      else Fail
  }

  function ParseField(text: string): (r: Parse<Field>)
    ensures r.Done? ==> |r.rest| < |text|
    decreases |text|, 0
  {
    var s := SkipSpace(text);
    if s == "" || s[0] != '"' then Fail
    else match ParseString(s[1..])
      case Fail => Fail
      case Done(name, rest) =>
        var t := SkipSpace(rest);
        if t == "" || t[0] != ':' then Fail
        else match ParseValue(t[1..])
          case Fail => Fail
          case Done(v, rest') => Done(Field(name, v), rest')
  }

  function ParseFields(s: string): (r: Parse<seq<Field>>)
    ensures r.Done? ==> |r.rest| < |s|
    decreases |s|, 1
  {
    match ParseField(s)
    case Fail => Fail
    case Done(f, rest) =>
      var t := SkipSpace(rest);
      if t == "" then Fail
      else if t[0] == '}' then Done([f], t[1..])
      else if t[0] == ',' then
        match ParseFields(t[1..])
        case Fail => Fail
        case Done(more, rest') => Done([f] + more, rest')
      else Fail
  }

  // ---- round trip ----

  /** What may follow a printed value inside a document. */
  predicate Delimited(rest: string) {
    rest == "" || rest[0] == ',' || rest[0] == ']' || rest[0] == '}'
  }

  lemma ParseEscapedChar(c: char, rest: string)
    ensures EscapeChar(c)[0] != '"'
    ensures ParseChar(EscapeChar(c) + rest) == Done(c, rest)
  {
    var text := EscapeChar(c) + rest;
    if c != '"' && c != '\\' && c < ' ' && c != 8 as char && c != '\t' && c != '\n' && c != 12 as char && c != '\r' {
      var hi, lo := c as int / 16, c as int % 16;
      HexCharValue(hi);
      HexCharValue(lo);
      assert text[2..] == ['0', '0', HexChar(hi), HexChar(lo)] + rest;
      assert text[2..][4..] == rest;
    } else if |EscapeChar(c)| == 2 {
      assert text[2..] == rest;
    } else {
      assert text[1..] == rest;
    }
  }

  /** The escapes of section 7 of RFC 8259 that the printer uses; every other character stands for itself. */
  lemma EscapeTexts(c: char)
    ensures EscapeChar(c) ==
      match c as int
      case 8 => "\\b" case 9 => "\\t" case 10 => "\\n" case 12 => "\\f" case 13 => "\\r"
      case 34 => "\\\"" case 92 => "\\\\"
      case v => if v < 32 then "\\u00" + ["0123456789abcdef"[v / 16], "0123456789abcdef"[v % 16]] else [c]
  {}

  /** Any scalar value may also be written as `\u` and four hexadecimal digits; half a surrogate pair is refused. */
  lemma UnicodeEscapes(a: char, b: char, c: char, d: char, rest: string)
    requires IsHex(a) && IsHex(b) && IsHex(c) && IsHex(d)
    ensures var v := ((HexDigitValue(a) * 16 + HexDigitValue(b)) * 16 + HexDigitValue(c)) * 16 + HexDigitValue(d);
      ParseChar("\\u" + [a, b, c, d] + rest)
      == if 0xD800 <= v < 0xE000 then Fail else Done(v as char, rest)
  {
    var text := "\\u" + [a, b, c, d] + rest;
    assert text[2..] == [a, b, c, d] + rest && text[2..][4..] == rest;
  }

  /** White space before a value does not matter. */
  lemma SpaceSkipped(c: char, text: string)
    requires c as int in {9, 10, 13, 32}
    ensures ParseValue([c] + text) == ParseValue(text)
  {
    assert ([c] + text)[1..] == text;
  }

  lemma {:induction false} ParseEscaped(s: string, rest: string)
    ensures ParseString(Escape(s) + "\"" + rest) == Done(s, rest)
  {
    if s == "" {
      assert Escape(s) + "\"" + rest == "\"" + rest;
    } else {
      var tail := Escape(s[1..]) + "\"" + rest;
      ParseEscapedChar(s[0], tail);
      ParseEscaped(s[1..], rest);
      assert Escape(s) + "\"" + rest == EscapeChar(s[0]) + tail;
      assert s == [s[0]] + s[1..];
    }
  }

  lemma ParsePrintedNumber(n: nat, rest: string)
    requires Delimited(rest)
    ensures ParseValue(Decimal(n) + rest) == Done(Num(n), rest)
  {
    DecimalRoundTrip(n);
    assert Decimal(n)[0] in Decimal(n);
    DigitRunIs(Decimal(n), rest);
    var text := Decimal(n) + rest;
    assert text[..|Decimal(n)|] == Decimal(n);
    assert text[|Decimal(n)|..] == rest;
  }

  lemma PrintStart(v: Json)
    ensures Print(v) != "" && !IsSpace(Print(v)[0]) && Print(v)[0] != ']' && Print(v)[0] != '}'
  {
    if v.Num? {
      DecimalRoundTrip(v.n);
      assert Decimal(v.n)[0] in Decimal(v.n);
    }
  }

  lemma ParseStringValue(inner: string, s: string, rest: string)
    requires ParseString(inner) == Done(s, rest)
    ensures ParseValue("\"" + inner) == Done(Str(s), rest)
  {
    assert ("\"" + inner)[1..] == inner;
  }

  lemma ParseArray(inner: string, items: seq<Json>, rest: string)
    requires inner != "" && !IsSpace(inner[0]) && inner[0] != ']'
    requires ParseItems(inner) == Done(items, rest)
    ensures ParseValue("[" + inner) == Done(Arr(items), rest)
  {
    assert ("[" + inner)[1..] == inner;
  }

  lemma ParseObject(inner: string, fields: seq<Field>, rest: string)
    requires inner != "" && inner[0] == '"'
    requires ParseFields(inner) == Done(fields, rest)
    ensures ParseValue("{" + inner) == Done(Obj(fields), rest)
  {
    assert ("{" + inner)[1..] == inner;
  }

  lemma ParseEmpty(rest: string)
    ensures ParseValue("[]" + rest) == Done(Arr([]), rest)
    ensures ParseValue("{}" + rest) == Done(Obj([]), rest)
  {
    assert ("[]" + rest)[1..] == "]" + rest;
    assert ("{}" + rest)[1..] == "}" + rest;
  }

  lemma ParseWord(rest: string)
    ensures ParseValue("null" + rest) == Done(Null, rest)
    ensures ParseValue("true" + rest) == Done(Bool(true), rest)
    ensures ParseValue("false" + rest) == Done(Bool(false), rest)
  {
    assert ("null" + rest)[..4] == "null" && ("true" + rest)[..4] == "true" && ("false" + rest)[..5] == "false";
  }

  lemma ParseFieldText(inner: string, name: string, body: string, v: Json, rest: string)
    requires ParseString(inner) == Done(name, ":" + body)
    requires ParseValue(body) == Done(v, rest)
    ensures ParseField("\"" + inner) == Done(Field(name, v), rest)
  {
    assert ("\"" + inner)[1..] == inner;
    assert (":" + body)[1..] == body;
  }

  lemma ParseLastItem(first: string, v: Json, rest: string)
    requires ParseValue(first + ("]" + rest)) == Done(v, "]" + rest)
    ensures ParseItems(first + ("]" + rest)) == Done([v], rest)
  {
    assert ("]" + rest)[1..] == rest;
  }

  lemma ParseLastField(first: string, f: Field, rest: string)
    requires ParseField(first + ("}" + rest)) == Done(f, "}" + rest)
    ensures ParseFields(first + ("}" + rest)) == Done([f], rest)
  {
    assert ("}" + rest)[1..] == rest;
  }

  lemma ParseMoreItems(first: string, v: Json, tail: string, more: seq<Json>, rest: string)
    requires ParseValue(first + ("," + tail)) == Done(v, "," + tail)
    requires ParseItems(tail) == Done(more, rest)
    ensures ParseItems(first + ("," + tail)) == Done([v] + more, rest)
  {
    assert ("," + tail)[1..] == tail;
  }

  lemma ParseMoreFields(first: string, f: Field, tail: string, more: seq<Field>, rest: string)
    requires ParseField(first + ("," + tail)) == Done(f, "," + tail)
    requires ParseFields(tail) == Done(more, rest)
    ensures ParseFields(first + ("," + tail)) == Done([f] + more, rest)
  {
    assert ("," + tail)[1..] == tail;
  }

  /** The printer has the parser as left inverse, in any context a document provides. */
  lemma PrintShape(v: Json, rest: string)
    ensures Print(v) + rest ==
      match v
      case Null => "null" + rest
      case Bool(b) => if b then "true" + rest else "false" + rest
      case Num(n) => Decimal(n) + rest
      case Str(s) => "\"" + (Escape(s) + "\"" + rest)
      case Arr(items) => if items == [] then "[]" + rest else "[" + (PrintItems(items) + "]" + rest)
      case Obj(fields) => if fields == [] then "{}" + rest else "{" + (PrintFields(fields) + "}" + rest)
  {
    hide Escape, Decimal;
  }

  lemma {:induction false} ParsePrint(v: Json, rest: string)
    requires Delimited(rest)
    ensures ParseValue(Print(v) + rest) == Done(v, rest)
    decreases v, 1
  {
    hide ParseValue, ParseItems, ParseFields, ParseField, ParseString, Escape, Print;
    PrintShape(v, rest);
    match v
    case Null => ParseWord(rest);
    case Bool(_) => ParseWord(rest);
    case Num(n) => ParsePrintedNumber(n, rest);
    case Str(s) =>
      ParseEscaped(s, rest);
      ParseStringValue(Escape(s) + "\"" + rest, s, rest);
    case Arr(items) =>
      if items == [] {
        ParseEmpty(rest);
      } else {
        var inner := PrintItems(items) + "]" + rest;
        PrintItemsStart(items);
        ParsePrintItems(items, rest);
        ParseArray(inner, items, rest);
      }
    case Obj(fields) =>
      if fields == [] {
        ParseEmpty(rest);
      } else {
        var inner := PrintFields(fields) + "}" + rest;
        ParsePrintFields(fields, rest);
        ParseObject(inner, fields, rest);
      }
  }

  lemma PrintItemsStart(items: seq<Json>)
    requires items != []
    ensures PrintItems(items) != "" && !IsSpace(PrintItems(items)[0]) && PrintItems(items)[0] != ']'
  {
    PrintStart(items[0]);
  }

  lemma {:induction false} ParsePrintItems(items: seq<Json>, rest: string)
    requires items != []
    ensures ParseItems(PrintItems(items) + "]" + rest) == Done(items, rest)
    decreases items, 0
  {
    hide ParseValue, ParseItems, ParseFields, ParseField, ParseString, Escape;
    if |items| == 1 {
      ParsePrint(items[0], "]" + rest);
      ParseLastItem(Print(items[0]), items[0], rest);
      assert PrintItems(items) + "]" + rest == Print(items[0]) + ("]" + rest);
      assert items == [items[0]];
    } else {
      var tail := PrintItems(items[1..]) + "]" + rest;
      ParsePrint(items[0], "," + tail);
      ParsePrintItems(items[1..], rest);
      ParseMoreItems(Print(items[0]), items[0], tail, items[1..], rest);
      assert PrintItems(items) + "]" + rest == Print(items[0]) + ("," + tail);
      assert items == [items[0]] + items[1..];
    }
  }

  lemma {:induction false} ParsePrintField(f: Field, rest: string)
    requires Delimited(rest)
    ensures ParseField(PrintField(f) + rest) == Done(f, rest)
    decreases f, 2
  {
    hide ParseValue, ParseItems, ParseFields, ParseField, ParseString, Escape;
    var body := Print(f.value) + rest;
    ParseEscaped(f.name, ":" + body);
    ParsePrint(f.value, rest);
    var inner := Escape(f.name) + "\"" + (":" + body);
    ParseFieldText(inner, f.name, body, f.value, rest);
    assert PrintField(f) + rest == "\"" + inner;
  }

  lemma {:induction false} ParsePrintFields(fields: seq<Field>, rest: string)
    requires fields != []
    ensures ParseFields(PrintFields(fields) + "}" + rest) == Done(fields, rest)
    decreases fields, 0
  {
    hide ParseValue, ParseItems, ParseFields, ParseField, ParseString, Escape;
    if |fields| == 1 {
      ParsePrintField(fields[0], "}" + rest);
      ParseLastField(PrintField(fields[0]), fields[0], rest);
      assert PrintFields(fields) + "}" + rest == PrintField(fields[0]) + ("}" + rest);
      assert fields == [fields[0]];
    } else {
      var tail := PrintFields(fields[1..]) + "}" + rest;
      ParsePrintField(fields[0], "," + tail);
      ParsePrintFields(fields[1..], rest);
      ParseMoreFields(PrintField(fields[0]), fields[0], tail, fields[1..], rest);
      assert PrintFields(fields) + "}" + rest == PrintField(fields[0]) + ("," + tail);
      assert fields == [fields[0]] + fields[1..];
    }
  }

  // ---- documents ----

  /** A whole document: one value, then only white space. */
  function ParseText(text: string): Parse<Json> {
    match ParseValue(text)
    case Fail => Fail
    case Done(v, rest) => if SkipSpace(rest) == "" then Done(v, "") else Fail
  }

  lemma ParsePrintedText(v: Json)
    ensures ParseText(Print(v)) == Done(v, "")
  {
    ParsePrint(v, "");
    assert Print(v) + "" == Print(v);
  }
}
