/** The streams the server writes, and how far the two readers agree on them. */
module SseAgreement {
  import opened Common
  import opened Sse

  /** One event of `stream_shell`, or a keep-alive comment. */
  datatype Block = Output(payload: string) | Close(payload: string) | KeepAlive

  function Body(b: Block): string {
    match b
    case Output(p) => "event: output\ndata: " + p
    case Close(p) => "event: closed\ndata: " + p
    case KeepAlive => ":"
  }

  function Wire(bs: seq<Block>): string {
    if bs == [] then "" else Body(bs[0]) + "\n\n" + Wire(bs[1..])
  }

  /** The Unicode property White_Space, by scalar value. */
  predicate White(c: char) {
    var v := c as int;
    || 9 <= v <= 13 || v == 0x20 || v == 0x85 || v == 0xA0 || v == 0x1680 || 0x2000 <= v <= 0x200A
    || v == 0x2028 || v == 0x2029 || v == 0x202F || v == 0x205F || v == 0x3000
  }

  lemma SpacesAre(c: char)
    ensures RustSpace(c) <==> White(c)
    ensures JsSpace(c) <==> (White(c) && c as int != 0x85) || c as int == 0xFEFF
  {}

  /** A payload that fits on one line and does not start with white space or a byte order mark. */
  predicate Plain(p: string) {
    && (forall c :: c in p ==> c != '\n' && c != '\r')
    && (p != "" ==> !White(p[0]) && p[0] as int != 0xFEFF)
  }

  predicate PlainBlock(b: Block) { b.KeepAlive? || Plain(b.payload) }

  // ---- what the text should be ----

  function Shown(b: Block): string {
    match b
    case Output(p) => p
    case Close(p) => "\n[session closed " + p + "]\n"
    case KeepAlive => ""
  }

  predicate ShowsNothing(b: Block) { b.KeepAlive? || b == Output("") }

  /** Payloads in order up to and including the first close. */
  function UpToClose(bs: seq<Block>): string {
    if bs == [] then ""
    else if bs[0].Close? then Shown(bs[0])
    else Shown(bs[0]) + UpToClose(bs[1..])
  }

  function Everything(bs: seq<Block>): string {
    if bs == [] then "" else Shown(bs[0]) + Everything(bs[1..])
  }

  function AfterClose(bs: seq<Block>): seq<Block> {
    if bs == [] then [] else if bs[0].Close? then bs[1..] else AfterClose(bs[1..])
  }

  // ---- one block ----

  lemma LinesOf(head: string, p: string)
    requires forall c :: c in head ==> c != '\n'
    requires forall c :: c in p ==> c != '\n'
    ensures Split(head + "\ndata: " + p, c => c == '\n') == [head, "data: " + p]
  {
    var stop := c => c == '\n';
    var tail := "\ndata: " + p;
    SplitHead(head, tail, stop);
    assert tail[1..] == "data: " + p;
    SplitNone("data: " + p, stop);
    assert head + "\ndata: " + p == head + tail;
  }

  lemma RustLinesOf(head: string, p: string)
    requires forall c :: c in head ==> c != '\n' && c != '\r'
    requires forall c :: c in p ==> c != '\n'
    ensures RustLines(head + "\ndata: " + p) == [head, "data: " + p]
  {
    hide Split;
    LinesOf(head, p);
    var pieces := Split(head + "\ndata: " + p, c => c == '\n');
    assert pieces[..1] == [head];
    assert head == "" || head[|head| - 1] in head;
    assert StripCr(head) == head;
    assert Map([head], StripCr) == [head];
    assert pieces[1][0] == 'd';
  }

  lemma TrimSpace(p: string, space: char -> bool)
    requires space(' ') && (p != "" ==> !space(p[0]))
    ensures TrimStart(" " + p, space) == p
  {
    assert (" " + p)[1..] == p;
  }

  lemma NameTrimmed(name: string)
    requires name == "output" || name == "closed"
    ensures TrimEnd(TrimStart((" " + name), RustSpace), RustSpace) == name
  {
    TrimSpace(name, RustSpace);
  }

  lemma HandleKeepAlive()
    ensures Handle(":") == ([], false)
  {
    SplitNone(":", c => c == '\n');
    assert RustLines(":") == [":"];
    assert [":"][1..] == [];
    assert EventOf([":"], "message") == EventOf([], "message") == "message";
    assert DataOf([":"]) == "" + DataOf([]) == "";
  }

  lemma HandleEvent(name: string, p: string)
    requires name == "output" || name == "closed"
    requires Plain(p)
    ensures Handle("event: " + name + "\ndata: " + p)
              == (if name == "closed" then ([CloseText(p)], true) else (if p != "" then [p] else [], false))
  {
    hide RustLines, EventOf, DataOf, CloseText, TrimStart, TrimEnd, RustSpace;
    var head, data := "event: " + name, "data: " + p;
    RustLinesOf(head, p);
    assert head[6..] == " " + name && data[5..] == " " + p;
    assert head[..6] == "event:" && data[..5] == "data:" && data[0] != 'e';
    NameTrimmed(name);
    TrimPayload(p);
    ReadTwoLines(head, data, name, p);
  }

  lemma TrimPayload(p: string)
    requires Plain(p)
    ensures TrimStart(" " + p, RustSpace) == p && TrimStart(" " + p, JsSpace) == p
  {
    if p != "" {
      SpacesAre(p[0]);
    }
    TrimSpace(p, RustSpace);
    TrimSpace(p, JsSpace);
  }

  /** The console reader on one block of the server. */
  lemma HandleBlock(b: Block)
    requires PlainBlock(b)
    ensures Handle(Body(b)) == (if Shown(b) == "" then [] else [Shown(b)], b.Close?)
  {
    hide Handle, Plain, CloseText;
    match b
    case Output(p) =>
      HandleEvent("output", p);
      assert Body(b) == "event: " + "output" + "\ndata: " + p;
    case Close(p) =>
      HandleEvent("closed", p);
      CloseTextVisible(p);
      assert Body(b) == "event: " + "closed" + "\ndata: " + p;
    case KeepAlive => HandleKeepAlive();
  }

  lemma ReadTwoLines(head: string, data: string, name: string, p: string)
    requires StartsWith(head, "event:") && !StartsWith(data, "event:") && StartsWith(data, "data:")
    requires TrimEnd(TrimStart(head[6..], RustSpace), RustSpace) == name && TrimStart(data[5..], RustSpace) == p
    ensures EventOf([head, data], "message") == name && DataOf([head, data]) == p
  {
    hide TrimEnd, TrimStart, RustSpace;
    assert [head, data][1..] == [data] && [data][1..] == [];
    assert EventOf([data], name) == EventOf([], name) == name;
    assert DataOf([data]) == p + DataOf([]) == p;
  }

  lemma WebDataOf(head: string, p: string)
    requires forall c :: c in head ==> c != '\n'
    requires !StartsWith(head, "data:") && Plain(p)
    ensures WebData(head + "\ndata: " + p) == p
  {
    hide Split, TrimStart;
    LinesOf(head, p);
    var data := "data: " + p;
    var isData := (l: string) => StartsWith(l, "data:");
    FilterAppend([head], [data], isData);
    assert [head] + [data] == [head, data];
    assert data[..5] == "data:" && data[5..] == " " + p;
    assert Filter([head], isData) == [] && Filter([data], isData) == [data];
    TrimPayload(p);
  }

  lemma WebKeepAlive()
    ensures WebText(":") == ""
  {
    SplitNone(":", JsLineEnd);
    assert [":"][1..] == [];
    assert WebEvent([":"]) == WebEvent([]) == "message";
  }

  lemma WebEventText(name: string, p: string)
    requires name == "output" || name == "closed"
    requires Plain(p)
    ensures WebText("event: " + name + "\ndata: " + p) == if name == "output" then p else CloseText(p)
  {
    hide WebData, CloseText, Split;
    var head, tail := "event: " + name, "\ndata: " + p;
    assert "event: " + name + "\ndata: " + p == head + tail;
    SplitHead(head, tail, JsLineEnd);
    WebEventFirst(head, name, Split(tail[1..], JsLineEnd));
    assert head[0] == 'e';
    WebDataOf(head, p);
    assert head + "\ndata: " + p == head + tail;
  }

  /** The page reader on one block of the server. */
  lemma WebBlock(b: Block)
    requires PlainBlock(b)
    ensures WebText(Body(b)) == Shown(b)
  {
    hide WebText, Plain, CloseText;
    match b
    case Output(p) =>
      WebEventText("output", p);
      assert Body(b) == "event: " + "output" + "\ndata: " + p;
    case Close(p) =>
      WebEventText("closed", p);
      CloseTextVisible(p);
      assert Body(b) == "event: " + "closed" + "\ndata: " + p;
    case KeepAlive => WebKeepAlive();
  }

  lemma WebEventFirst(head: string, name: string, more: seq<string>)
    requires head == "event: " + name && name != ""
    ensures WebEvent([head] + more) == name
  {
    assert head[..7] == "event: " && head[7..] == name;
  }

  // ---- whole streams ----

  lemma BodyEndsAtBlank(b: Block, rest: string)
    requires PlainBlock(b)
    ensures Find(Body(b) + "\n\n" + rest) == |Body(b)|
  {
    hide Find;
    var body := Body(b);
    var s := body + "\n\n" + rest;
    assert s[|body|] == '\n' && s[|body| + 1] == '\n';
    forall j | 0 <= j < |body|
      ensures !BlankAt(s, j)
    {
      assert s[j] == body[j];
      if !b.KeepAlive? && j >= 20 {
        assert body[j] == b.payload[j - 20];
        assert b.payload[j - 20] in b.payload;
      }
    }
    FindIs(s, |body|);
  }

  /** `tail` is an unfinished block at the end of what arrived. */
  lemma {:induction false} ConsoleText(bs: seq<Block>, tail: string)
    requires (forall b :: b in bs ==> PlainBlock(b)) && Find(tail) == -1
    ensures Concat(Parse(Wire(bs) + tail).sent) == UpToClose(bs)
    ensures Parse(Wire(bs) + tail).closed <==> exists b :: b in bs && b.Close?
  {
    hide Find, Handle, Body, Parse, PlainBlock, CloseText;
    if bs == [] {
      assert Wire(bs) + tail == tail;
      ParseUncut(tail);
    } else {
      var b, rest := bs[0], Wire(bs[1..]) + tail;
      assert Wire(bs) + tail == Body(b) + "\n\n" + rest;
      BodyEndsAtBlank(b, rest);
      ParseCut(Body(b), rest);
      HandleBlock(b);
      ConsoleText(bs[1..], tail);
      assert bs == [b] + bs[1..];
      var here := if Shown(b) == "" then [] else [Shown(b)];
      ConcatAppend(here, Parse(rest).sent);
      assert Concat(here) == Shown(b);
    }
  }

  lemma {:induction false} PageText(bs: seq<Block>, tail: string)
    requires (forall b :: b in bs ==> PlainBlock(b)) && Find(tail) == -1
    ensures WebParse(Wire(bs) + tail) == Everything(bs)
  {
    hide Find, WebText, Body, SplitBlocks, PlainBlock, CloseText;
    if bs == [] {
      assert Wire(bs) + tail == tail;
      UncutPage(tail);
    } else {
      var b, rest := bs[0], Wire(bs[1..]) + tail;
      assert Wire(bs) + tail == Body(b) + "\n\n" + rest;
      BodyEndsAtBlank(b, rest);
      SplitBlocksCut(Body(b), rest);
      WebBlock(b);
      PageText(bs[1..], tail);
      assert Cut(Wire(bs) + tail) == [Body(b)] + Cut(rest);
    }
  }

  lemma UncutPage(s: string)
    requires Find(s) == -1
    ensures Cut(s) == []
  {}

  lemma {:induction false} TextAfterClose(bs: seq<Block>)
    ensures Everything(bs) == UpToClose(bs) + Everything(AfterClose(bs))
  {
    hide CloseText;
    if bs != [] && !bs[0].Close? {
      TextAfterClose(bs[1..]);
    }
  }

  lemma {:induction false} Invisible(bs: seq<Block>)
    ensures Everything(bs) == "" <==> forall b :: b in bs ==> ShowsNothing(b)
  {
    hide CloseText;
    if bs != [] {
      Invisible(bs[1..]);
      assert bs == [bs[0]] + bs[1..];
      assert forall b :: b in bs <==> b == bs[0] || b in bs[1..];
      CloseTextVisible(if bs[0].Close? then bs[0].payload else "");
      assert Shown(bs[0]) == "" <==> ShowsNothing(bs[0]);
      assert Everything(bs) == "" <==> Shown(bs[0]) == "" && Everything(bs[1..]) == "";
    }
  }

  lemma CloseTextVisible(p: string)
    ensures CloseText(p) == "\n[session closed " + p + "]\n" && CloseText(p) != ""
  {}

  /** For any stream of plain blocks and any two chunkings of it, both readers show the payloads
      in order up to the first close, and they show the same text exactly when nothing
      visible follows that close (only the page reads on). */
  lemma ReadersAgree(bs: seq<Block>, tail: string, chunks: seq<string>, chunks': seq<string>)
    requires (forall b :: b in bs ==> PlainBlock(b)) && Find(tail) == -1
    requires Concat(chunks) == Wire(bs) + tail && Concat(chunks') == Wire(bs) + tail
    ensures Concat(Parse(Concat(chunks)).sent) == UpToClose(bs)
    ensures WebParse(Concat(chunks')) == UpToClose(bs) + Everything(AfterClose(bs))
    ensures Concat(Parse(Concat(chunks)).sent) == WebParse(Concat(chunks')) <==>
              (forall b :: b in AfterClose(bs) ==> ShowsNothing(b))
  {
    hide Find, Parse, WebParse, PlainBlock, Wire;
    ConsoleText(bs, tail);
    PageText(bs, tail);
    TextAfterClose(bs);
    Invisible(AfterClose(bs));
  }

  /** One output after a close: the page shows it, the console stopped before it. */
  lemma LateOutputDisagrees(p: string)
    requires Plain(p) && p != ""
    ensures var bs := [Close("{}"), Output(p)];
      && Concat(Parse(Wire(bs)).sent) == CloseText("{}")
      && WebParse(Wire(bs)) == CloseText("{}") + p
      && Concat(Parse(Wire(bs)).sent) != WebParse(Wire(bs))
  {
    var bs := [Close("{}"), Output(p)];
    assert bs[1..] == [Output(p)] && bs[1..][1..] == [];
    assert UpToClose(bs) == CloseText("{}") && AfterClose(bs) == [Output(p)];
    assert Everything([Output(p)]) == p + Everything([]) == p;
    hide Parse, WebParse, Wire, CloseText, Find;
    EmptyIsUncut();
    OneChunk(Wire(bs));
    ReadersAgree(bs, "", [Wire(bs)], [Wire(bs)]);
  }

  lemma EmptyIsUncut()
    ensures Find("") == -1
  {}

  lemma OneChunk(s: string)
    ensures Concat([s]) == s && s + "" == s
  {
    assert [s][1..] == [];
    assert Concat([s]) == s + Concat([]);
  }
}
