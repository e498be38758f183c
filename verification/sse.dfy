/** The two readers of the shell event stream: the native console and the web page.
    Both buffer decoded characters and cut the buffer at blank lines. */
module Sse {
  import opened Common

  // ---- cutting at blank lines ----

  predicate BlankAt(s: string, i: int) { 0 <= i && i + 1 < |s| && s[i] == '\n' && s[i + 1] == '\n' }

  /** Index of the first blank-line separator, or -1. */
  function Find(s: string): (i: int)
    ensures i == -1 || BlankAt(s, i)
    ensures forall j :: 0 <= j < (if i == -1 then |s| else i) ==> !BlankAt(s, j)
  {
    if |s| < 2 then -1
    else if s[0] == '\n' && s[1] == '\n' then 0
    else
      var k := Find(s[1..]);
      assert forall j :: 1 <= j < |s| ==> (BlankAt(s, j) <==> BlankAt(s[1..], j - 1));
      if k == -1 then -1 else k + 1
  }

  lemma FindIs(s: string, i: nat)
    requires BlankAt(s, i) && forall j :: 0 <= j < i ==> !BlankAt(s, j)
    ensures Find(s) == i
  {}

  /** Text that arrives later never moves an earlier separator. */
  lemma FindAppend(s: string, t: string)
    requires Find(s) != -1
    ensures Find(s + t) == Find(s)
  {
    var i := Find(s);
    assert BlankAt(s + t, i);
    forall j | 0 <= j < i
      ensures !BlankAt(s + t, j)
    {
      assert !BlankAt(s, j);
    }
    FindIs(s + t, i);
  }

  // ---- characters and lines ----

  /** White space to Rust's `trim` and `trim_start`. */
  predicate RustSpace(c: char) {
    || '\t' <= c <= '\r' || c == ' ' || c == '\U{85}' || c == '\U{A0}' || c == '\U{1680}'
      || '\U{2000}' <= c <= '\U{200A}'
    || c == '\U{2028}' || c == '\U{2029}' || c == '\U{202F}' || c == '\U{205F}' || c == '\U{3000}'
  }

  /** White space to JavaScript's `trimStart`: U+FEFF counts, U+0085 does not. */
  predicate JsSpace(c: char) { (RustSpace(c) && c != '\U{85}') || c == '\U{FEFF}' }

  function TrimStart(s: string, space: char -> bool): string {
    if s != "" && space(s[0]) then TrimStart(s[1..], space) else s
  }

  function TrimEnd(s: string, space: char -> bool): string {
    if s != "" && space(s[|s| - 1]) then TrimEnd(s[..|s| - 1], space) else s
  }

  function StripCr(line: string): string {
    if line != "" && line[|line| - 1] == '\r' then line[..|line| - 1] else line
  }

  /** `str::lines`: pieces between newlines, without the `\r` of a `\r\n`, and no empty last line. */
  function RustLines(s: string): seq<string> {
    var pieces := Split(s, c => c == '\n');
    var ended := Map(pieces[..|pieces| - 1], StripCr);
    if pieces[|pieces| - 1] == "" then ended else ended + [pieces[|pieces| - 1]]
  }

  /** Line terminators of a JavaScript multiline pattern. */
  predicate JsLineEnd(c: char) { c == '\n' || c == '\r' || c == '\U{2028}' || c == '\U{2029}' }

  // ---- the console reader ----

  function EventOf(lines: seq<string>, current: string): string {
    if lines == [] then current
    else EventOf(lines[1..], if StartsWith(lines[0], "event:")
      then TrimEnd(TrimStart(lines[0][6..], RustSpace), RustSpace) else current)
  }

  function DataOf(lines: seq<string>): string {
    if lines == [] then ""
    else (if !StartsWith(lines[0], "event:") && StartsWith(lines[0], "data:") then TrimStart(lines[0][5..], RustSpace)
      else "")
         + DataOf(lines[1..])
  }

  method ReadBlock(block: string) returns (event: string, data: string)
    ensures event == EventOf(RustLines(block), "message")
    ensures data == DataOf(RustLines(block))
  {
    hide RustLines, TrimStart, TrimEnd, RustSpace;
    event, data := "message", "";
    var lines := RustLines(block);
    var k := 0;
    while k < |lines|
      invariant 0 <= k <= |lines|
      invariant EventOf(lines[k..], event) == EventOf(lines, "message")
      invariant data + DataOf(lines[k..]) == DataOf(lines)
    {
      var line := lines[k];
      assert lines[k..][1..] == lines[k + 1..];
      if StartsWith(line, "event:") {
        event := TrimEnd(TrimStart(line[6..], RustSpace), RustSpace);
      } else if StartsWith(line, "data:") {
        data := data + TrimStart(line[5..], RustSpace);
      }
      k := k + 1;
    }
  }

  function CloseText(data: string): string { "\n[session closed " + data + "]\n" }

  /** What one block sends on, and whether it ends the stream. */
  function Handle(block: string): (seq<string>, bool) {
    var lines := RustLines(block);
    var data := DataOf(lines);
    if EventOf(lines, "message") == "closed" then ([CloseText(data)], true)
    else (if data != "" then [data] else [], false)
  }

  /** What reading a stream leaves: the texts sent on, the uncut rest, and whether a close ended it. */
  datatype Outcome = Outcome(sent: seq<string>, rest: string, closed: bool)

  function Continue(sent: seq<string>, more: Outcome): Outcome {
    more.(sent := sent + more.sent)
  }

  /** The whole stream parsed at once. */
  function Parse(s: string): Outcome
    decreases |s|
  {
    var i := Find(s);
    if i == -1 then Outcome([], s, false)
    else
      var (texts, stop) := Handle(s[..i]);
      if stop then Outcome(texts, "", true) else Continue(texts, Parse(s[i + 2..]))
  }

  lemma ParseCut(block: string, rest: string)
    requires Find(block + "\n\n" + rest) == |block|
    ensures Parse(block + "\n\n" + rest) ==
              if Handle(block).1 then Outcome(Handle(block).0, "", true) else Continue(Handle(block).0, Parse(rest))
  {
    hide Handle, Find;
    var s := block + "\n\n" + rest;
    assert s[..|block|] == block && s[|block| + 2..] == rest;
  }

  lemma ParseUncut(s: string)
    requires Find(s) == -1
    ensures Parse(s) == Outcome([], s, false)
  {}

  lemma CutAround(s: string, i: nat)
    requires BlankAt(s, i)
    ensures s == s[..i] + "\n\n" + s[i + 2..]
  {
    var t := s[..i] + "\n\n" + s[i + 2..];
    forall k | 0 <= k < |s|
      ensures s[k] == t[k]
    {
      if k >= i + 2 {
        assert t[k] == s[i + 2..][k - (i + 2)];
      } else if k >= i {
        assert s[k] == '\n' && t[k] == "\n\n"[k - i];
      }
    }
  }

  lemma CutAt(s: string)
    requires Find(s) != -1
    ensures 0 <= Find(s) <= |s| - 2 && s == s[..Find(s)] + "\n\n" + s[Find(s) + 2..]
  {
    hide Find;
    CutAround(s, Find(s));
  }

  lemma ContinueTwice(a: seq<string>, b: seq<string>, o: Outcome)
    ensures Continue(a, Continue(b, o)) == Continue(a + b, o)
  {}

  /** Parsing what is left over together with what comes next continues the parse. */
  lemma {:induction false} ParseAppend(s: string, t: string)
    ensures Parse(s + t) == if Parse(s).closed then Parse(s) else Continue(Parse(s).sent, Parse(Parse(s).rest + t))
    decreases |s|
  {
    hide Parse, Handle, Find;
    if Find(s) == -1 {
      ParseUncut(s);
    } else {
      var i := Find(s);
      CutAt(s);
      var block, rest := s[..i], s[i + 2..];
      FindAppend(s, t);
      assert s + t == block + "\n\n" + (rest + t);
      ParseCut(block, rest);
      ParseCut(block, rest + t);
      ParseAppend(rest, t);
      if !Handle(block).1 && !Parse(rest).closed {
        ContinueTwice(Handle(block).0, Parse(rest).sent, Parse(Parse(rest).rest + t));
      }
    }
  }

  lemma {:induction false} RestHasNoBlankLine(s: string)
    ensures Find(Parse(s).rest) == -1
    decreases |s|
  {
    hide Handle;
    if Find(s) != -1 {
      RestHasNoBlankLine(s[Find(s) + 2..]);
    }
  }

  /** How the byte stream ends: end of file, or a read error reported as one more line. */
  datatype Ending = EndOfStream | ReadError(message: string)

  function LastWords(e: Ending): seq<string> {
    match e
    case EndOfStream => []
    case ReadError(m) => ["[sse read] " + m + "\n"]
  }

  /** `stream_sse` after a successful response: the chunks as decoded, then the ending. */
  method StreamSse(chunks: seq<string>, ending: Ending) returns (sent: seq<string>, buf: string, closed: bool)
    ensures var whole := Parse(Concat(chunks));
      && closed == whole.closed
      && sent == whole.sent + (match ending
                               case EndOfStream => []
                               case ReadError(m) => if closed then [] else ["[sse read] " + m + "\n"])
      && (!closed ==> buf == whole.rest && Find(buf) == -1)
  {
    hide RustLines, EventOf, DataOf, Find, Parse, Concat;
    sent, buf, closed := [], "", false;
    var k := 0;
    ParseNothing(chunks);
    while k < |chunks|
      invariant 0 <= k <= |chunks|
      invariant Parse(Concat(chunks[..k])) == Outcome(sent, buf, false)
    {
      ConcatStep(chunks, k);
      ParseAppend(Concat(chunks[..k]), chunks[k]);
      buf := buf + chunks[k];
      k := k + 1;
      var idx := Find(buf);
      while idx != -1
        invariant idx == Find(buf)
        invariant Parse(Concat(chunks[..k])) == Continue(sent, Parse(buf))
        decreases |buf|
      {
        CutAt(buf);
        var block := buf[..idx];
        ParseCut(block, buf[idx + 2..]);
        buf := buf[idx + 2..];
        var event, data := ReadBlock(block);
        if event == "closed" {
          sent := sent + [CloseText(data)];
          ConcatSplit(chunks, k);
          ParseAppend(Concat(chunks[..k]), Concat(chunks[k..]));
          return sent, buf, true;
        }
        ContinueTwice(sent, Handle(block).0, Parse(buf));
        if data != "" {
          sent := sent + [data];
        } else {
          assert sent + [] == sent;
        }
        idx := Find(buf);
      }
      ParseUncut(buf);
      assert sent + [] == sent;
    }
    assert chunks[..k] == chunks;
    RestHasNoBlankLine(Concat(chunks));
    sent := sent + LastWords(ending);
  }

  lemma ConcatSplit(chunks: seq<string>, k: nat)
    requires k <= |chunks|
    ensures Concat(chunks[..k]) + Concat(chunks[k..]) == Concat(chunks)
  {
    ConcatAppend(chunks[..k], chunks[k..]);
    assert chunks[..k] + chunks[k..] == chunks;
  }

  lemma ParseNothing(chunks: seq<string>)
    ensures Parse(Concat(chunks[..0])) == Outcome([], "", false)
    ensures SplitBlocks(Concat(chunks[..0])) == [""] && Find("") == -1
  {}

  lemma ConcatStep(chunks: seq<string>, k: nat)
    requires k < |chunks|
    ensures Concat(chunks[..k + 1]) == Concat(chunks[..k]) + chunks[k]
  {
    assert chunks[..k + 1] == chunks[..k] + [chunks[k]];
    ConcatAppend(chunks[..k], [chunks[k]]);
    assert Concat([chunks[k]]) == chunks[k] + Concat([]);
  }

  // ---- the web reader ----

  /** `buf.split("\n\n")`. */
  function SplitBlocks(s: string): (r: seq<string>)
    ensures |r| > 0
    decreases |s|
  {
    var i := Find(s);
    if i == -1 then [s] else [s[..i]] + SplitBlocks(s[i + 2..])
  }

  /** The first match of `/^event: (.+)$/m`. */
  function WebEvent(lines: seq<string>): string {
    if lines == [] then "message"
    else if StartsWith(lines[0], "event: ") && |lines[0]| > 7 then lines[0][7..]
    else WebEvent(lines[1..])
  }

  function WebData(block: string): string {
    Join(Map(Filter(Split(block, c => c == '\n'), (l: string) => StartsWith(l, "data:")),
             (l: string) => if |l| < 5 then "" else TrimStart(l[5..], JsSpace)), "\n")
  }

  /** What one block appends to the page. */
  function WebText(block: string): string {
    var event, data := WebEvent(Split(block, JsLineEnd)), WebData(block);
    if event == "output" then data else if event == "closed" then CloseText(data) else ""
  }

  function WebTexts(blocks: seq<string>): string {
    if blocks == [] then "" else WebText(blocks[0]) + WebTexts(blocks[1..])
  }

  lemma {:induction false} WebTextsAppend(a: seq<string>, b: seq<string>)
    ensures WebTexts(a + b) == WebTexts(a) + WebTexts(b)
  {
    hide WebText;
    if a == [] {
      assert a + b == b;
    } else {
      assert (a + b)[1..] == a[1..] + b;
      WebTextsAppend(a[1..], b);
    }
  }

  lemma SplitBlocksCut(block: string, rest: string)
    requires Find(block + "\n\n" + rest) == |block|
    ensures SplitBlocks(block + "\n\n" + rest) == [block] + SplitBlocks(rest)
  {
    hide Find;
    var s := block + "\n\n" + rest;
    assert s[..|block|] == block && s[|block| + 2..] == rest;
  }

  function Cut(s: string): seq<string> { SplitBlocks(s)[..|SplitBlocks(s)| - 1] }

  function Uncut(s: string): string { SplitBlocks(s)[|SplitBlocks(s)| - 1] }

  lemma {:induction false} SplitBlocksAppend(s: string, t: string)
    ensures SplitBlocks(s + t) == Cut(s) + SplitBlocks(Uncut(s) + t)
    decreases |s|
  {
    hide Find;
    if Find(s) == -1 {
      assert Cut(s) == [];
    } else {
      hide SplitBlocks;
      var i := Find(s);
      CutAt(s);
      var block, rest := s[..i], s[i + 2..];
      FindAppend(s, t);
      assert s + t == block + "\n\n" + (rest + t);
      SplitBlocksCut(block, rest);
      SplitBlocksCut(block, rest + t);
      SplitBlocksAppend(rest, t);
      assert Cut(s) == [block] + Cut(rest);
    }
  }

  /** All blocks of the stream cut at once, and the text they put on the page. */
  function WebParse(s: string): string { WebTexts(Cut(s)) }

  method AppendBlocks(lines: string, blocks: seq<string>) returns (r: string)
    ensures r == lines + WebTexts(blocks)
  {
    hide WebText;
    r := lines;
    var j := 0;
    while j < |blocks|
      invariant 0 <= j <= |blocks|
      invariant r + WebTexts(blocks[j..]) == lines + WebTexts(blocks)
    {
      assert blocks[j..][1..] == blocks[j + 1..];
      r := r + WebText(blocks[j]);
      j := j + 1;
    }
  }

  /** `stream` of the shell page: the text it accumulates; a close does not stop it. */
  method WebStream(chunks: seq<string>) returns (lines: string, buf: string)
    ensures lines == WebParse(Concat(chunks))
    ensures Find(buf) == -1
  {
    hide WebText, WebTexts, Find, SplitBlocks, Concat;
    lines, buf := "", "";
    var k := 0;
    ParseNothing(chunks);
    ghost var done: seq<string> := [];
    NoTexts();
    while k < |chunks|
      invariant 0 <= k <= |chunks| && Find(buf) == -1
      invariant SplitBlocks(Concat(chunks[..k])) == done + [buf]
      invariant lines == WebTexts(done)
    {
      ConcatStep(chunks, k);
      SplitBlocksAppend(Concat(chunks[..k]), chunks[k]);
      assert (done + [buf])[..|done|] == done;
      buf := buf + chunks[k];
      k := k + 1;
      var parts := SplitBlocks(buf);
      LastPieceUncut(buf);
      buf := parts[|parts| - 1];
      assert parts == parts[..|parts| - 1] + [buf];
      parts := parts[..|parts| - 1];
      lines := AppendBlocks(lines, parts);
      WebTextsAppend(done, parts);
      assert done + (parts + [buf]) == (done + parts) + [buf];
      done := done + parts;
    }
    assert chunks[..k] == chunks;
    assert (done + [buf])[..|done|] == done;
  }

  lemma NoTexts()
    ensures WebTexts([]) == ""
  {}

  lemma {:induction false} LastPieceUncut(s: string)
    ensures Find(Uncut(s)) == -1
    decreases |s|
  {
    if Find(s) != -1 {
      LastPieceUncut(s[Find(s) + 2..]);
    }
  }
}
