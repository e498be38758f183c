/** Output of more than one line: what each reader makes of a block with several `data:` lines. */
module SseLines {
  import opened Common
  import opened Sse
  import opened SseAgreement

  function DataLine(): string -> string { (p: string) => "data: " + p }

  function DataLines(ps: seq<string>): string {
    if ps == [] then "" else "\ndata: " + ps[0] + DataLines(ps[1..])
  }

  /** An output event whose payload has these lines. */
  function OutputBody(ps: seq<string>): string { "event: output" + DataLines(ps) }

  predicate OneLine(p: string) { forall c :: c in p ==> c != '\n' && c != '\r' }

  function RustTrim(): string -> string { (p: string) => TrimStart(p, RustSpace) }

  function JsTrim(): string -> string { (p: string) => TrimStart(p, JsSpace) }

  lemma {:induction false} SplitLines(head: string, ps: seq<string>)
    requires OneLine(head) && forall p :: p in ps ==> OneLine(p)
    ensures Split(head + DataLines(ps), c => c == '\n') == [head] + Map(ps, DataLine())
    decreases |ps|
  {
    hide Split;
    var stop := c => c == '\n';
    if ps == [] {
      assert head + "" == head;
      SplitNone(head, stop);
      assert [head] + Map(ps, DataLine()) == [head];
    } else {
      var line, rest := "data: " + ps[0], ps[1..];
      assert ps[0] in ps && forall p :: p in rest ==> p in ps;
      SplitHead(head, DataLines(ps), stop);
      assert DataLines(ps)[1..] == line + DataLines(rest);
      SplitLines(line, rest);
      assert Map(ps, DataLine()) == [line] + Map(rest, DataLine());
    }
  }

  lemma RustLinesAre(head: string, ps: seq<string>)
    requires OneLine(head) && ps != [] && forall p :: p in ps ==> OneLine(p)
    ensures RustLines(head + DataLines(ps)) == [head] + Map(ps, DataLine())
  {
    SplitLines(head, ps);
    hide Split;
    var pieces := [head] + Map(ps, DataLine());
    var init := pieces[..|pieces| - 1];
    forall i | 0 <= i < |init|
      ensures StripCr(init[i]) == init[i]
    {
      var line := init[i];
      if i > 0 {
        assert ps[i - 1] in ps && line == "data: " + ps[i - 1];
      }
      if line != "" {
        assert line[|line| - 1] in line;
      }
    }
    assert Map(init, StripCr) == init;
    assert init + [pieces[|pieces| - 1]] == pieces;
  }

  lemma DataLineHead(p: string)
    ensures StartsWith("data: " + p, "data:") && !StartsWith("data: " + p, "event:")
    ensures ("data: " + p)[5..] == " " + p
    ensures TrimStart(" " + p, RustSpace) == TrimStart(p, RustSpace)
    ensures TrimStart(" " + p, JsSpace) == TrimStart(p, JsSpace)
  {
    var line := "data: " + p;
    assert line[0] == 'd' && line[..5] == "data:" && (" " + p)[1..] == p;
  }

  lemma {:induction false} DataOfLines(ps: seq<string>)
    ensures DataOf(Map(ps, DataLine())) == Concat(Map(ps, RustTrim()))
    ensures forall e: string :: EventOf(Map(ps, DataLine()), e) == e
  {
    hide TrimStart, TrimEnd, RustSpace;
    if ps != [] {
      var lines, trims := Map(ps, DataLine()), Map(ps, RustTrim());
      DataLineHead(ps[0]);
      assert lines[1..] == Map(ps[1..], DataLine()) && trims[1..] == Map(ps[1..], RustTrim());
      DataOfLines(ps[1..]);
    }
  }

  lemma ConsoleLines(ps: seq<string>)
    requires ps != [] && forall p :: p in ps ==> OneLine(p)
    ensures Concat(Handle(OutputBody(ps)).0) == Concat(Map(ps, RustTrim())) && !Handle(OutputBody(ps)).1
  {
    hide RustLines, TrimStart, TrimEnd, RustSpace, DataOf, EventOf;
    var head, lines := "event: output", Map(ps, DataLine());
    RustLinesAre(head, ps);
    DataOfLines(ps);
    HeadLine(lines);
    var data := Concat(Map(ps, RustTrim()));
    assert Concat([data]) == data + Concat([]) == data;
  }

  lemma HeadLine(lines: seq<string>)
    ensures EventOf(["event: output"] + lines, "message") == EventOf(lines, "output")
    ensures DataOf(["event: output"] + lines) == DataOf(lines)
  {
    var head := "event: output";
    assert ([head] + lines)[1..] == lines && head[..6] == "event:" && head[6..] == " output";
    assert TrimStart(" output", RustSpace) == "output" by {
      assert " output"[1..] == "output";
    }
    assert TrimEnd("output", RustSpace) == "output";
  }

  lemma {:induction false} FilterLines(ps: seq<string>)
    ensures Filter(Map(ps, DataLine()), (l: string) => StartsWith(l, "data:")) == Map(ps, DataLine())
  {
    if ps != [] {
      DataLineHead(ps[0]);
      assert Map(ps, DataLine())[1..] == Map(ps[1..], DataLine());
      FilterLines(ps[1..]);
    }
  }

  /** The payload of one data line. */
  function Payload(): string -> string { (l: string) => if |l| < 5 then "" else TrimStart(l[5..], JsSpace) }

  lemma PayloadsOfLines(ps: seq<string>)
    ensures Map(Map(ps, DataLine()), Payload()) == Map(ps, JsTrim())
  {
    hide TrimStart, StartsWith;
    var lines := Map(ps, DataLine());
    forall i | 0 <= i < |ps|
      ensures Payload()(lines[i]) == JsTrim()(ps[i])
    {
      DataLineHead(ps[i]);
    }
  }

  lemma PageData(ps: seq<string>)
    requires ps != [] && forall p :: p in ps ==> OneLine(p)
    ensures WebData(OutputBody(ps)) == Join(Map(ps, JsTrim()), "\n")
  {
    hide TrimStart, Join, Split, Map, StartsWith;
    var head, lines := "event: output", Map(ps, DataLine());
    var isData := (l: string) => StartsWith(l, "data:");
    SplitLines(head, ps);
    FilterAppend([head], lines, isData);
    FilterLines(ps);
    HeadIsNoData(head);
    assert [] + lines == lines;
    PayloadsOfLines(ps);
  }

  lemma HeadIsNoData(head: string)
    requires head == "event: output"
    ensures Filter([head], (l: string) => StartsWith(l, "data:")) == []
  {
    assert head[0] == 'e' && "data:"[0] == 'd';
  }

  lemma PageLines(ps: seq<string>)
    requires ps != [] && forall p :: p in ps ==> OneLine(p)
    ensures WebText(OutputBody(ps)) == Join(Map(ps, JsTrim()), "\n")
  {
    hide WebData, WebEvent, OutputBody;
    PageData(ps);
    PageEvent(ps);
  }

  lemma PageEvent(ps: seq<string>)
    requires ps != []
    ensures WebEvent(Split(OutputBody(ps), JsLineEnd)) == "output"
  {
    hide Split;
    var head := "event: output";
    SplitHead(head, DataLines(ps), JsLineEnd);
    assert head[..7] == "event: " && head[7..] == "output";
  }

  /** Both readers drop the same leading white space. */
  predicate TrimsAlike(p: string) { TrimStart(p, RustSpace) == TrimStart(p, JsSpace) }

  lemma {:induction false} JoinLength(ps: seq<string>)
    requires ps != []
    ensures |Join(ps, "\n")| == |Concat(ps)| + |ps| - 1
    ensures |ps| == 1 ==> Join(ps, "\n") == Concat(ps)
  {
    if |ps| > 1 {
      JoinLength(ps[1..]);
    } else {
      assert Concat(ps) == ps[0] + Concat(ps[1..]) == ps[0];
    }
  }

  /** The console joins the lines of an output without line breaks, the page with them, both without their
      leading white space; so, where both drop the same, they show the same if and only if there is one line. */
  lemma SameTextIffOneLine(ps: seq<string>)
    requires ps != [] && forall p :: p in ps ==> OneLine(p) && TrimsAlike(p)
    ensures Concat(Handle(OutputBody(ps)).0) == Concat(Map(ps, RustTrim()))
    ensures WebText(OutputBody(ps)) == Join(Map(ps, RustTrim()), "\n")
    ensures Concat(Handle(OutputBody(ps)).0) == WebText(OutputBody(ps)) <==> |ps| == 1
  {
    hide Handle, WebText, TrimStart;
    ConsoleLines(ps);
    PageLines(ps);
    assert Map(ps, RustTrim()) == Map(ps, JsTrim()) by {
      assert forall i :: 0 <= i < |ps| ==> ps[i] in ps;
    }
    JoinLength(Map(ps, RustTrim()));
  }

  // ---- white space at the start, and other blocks ----

  lemma {:induction false} TrimWhite(w: string, p: string, space: char -> bool)
    requires (forall c :: c in w ==> space(c)) && (p == "" || !space(p[0]))
    ensures TrimStart(w + p, space) == p
  {
    if w == "" {
      assert w + p == p;
    } else {
      assert w[0] in w && (w + p)[1..] == w[1..] + p;
      assert forall c :: c in w[1..] ==> c in w;
      TrimWhite(w[1..], p, space);
    }
  }

  lemma OneLineShown(s: string)
    requires OneLine(s)
    ensures Concat(Handle(OutputBody([s])).0) == TrimStart(s, RustSpace)
    ensures WebText(OutputBody([s])) == TrimStart(s, JsSpace)
  {
    hide Handle, WebText, OutputBody, TrimStart;
    ConsoleLines([s]);
    PageLines([s]);
    OnePart(TrimStart(s, RustSpace));
    assert Map([s], RustTrim()) == [TrimStart(s, RustSpace)] && Map([s], JsTrim()) == [TrimStart(s, JsSpace)];
  }

  lemma OnePart(t: string)
    ensures Concat([t]) == t
  {
    assert [t][1..] == [] && Concat([t]) == t + Concat([]);
  }

  lemma MarksTrimmed(s: string)
    ensures TrimStart("\U{FEFF}" + s, JsSpace) == TrimStart(s, JsSpace)
    ensures TrimStart("\U{FEFF}" + s, RustSpace) == "\U{FEFF}" + s
    ensures TrimStart("\U{85}" + s, RustSpace) == TrimStart(s, RustSpace)
    ensures TrimStart("\U{85}" + s, JsSpace) == "\U{85}" + s
  {
    assert ("\U{FEFF}" + s)[1..] == s && ("\U{85}" + s)[1..] == s;
  }

  /** An output is shown without the white space it starts with. The readers differ in two characters: the page
      keeps a next-line control and drops a byte order mark. */
  lemma LeadingWhiteIsLost(w: string, p: string)
    requires OneLine(w) && Plain(p) && forall c :: c in w ==> White(c)
    ensures Concat(Handle(OutputBody([w + p])).0) == p
    ensures (forall c :: c in w ==> c as int != 0x85) ==> WebText(OutputBody([w + p])) == p
  {
    hide Handle, WebText, OutputBody, TrimStart;
    if p != "" {
      SpacesAre(p[0]);
    }
    forall c | c in w
      ensures RustSpace(c) && (c as int != 0x85 ==> JsSpace(c))
    {
      SpacesAre(c);
    }
    hide RustSpace, JsSpace, White;
    OneLineShown(w + p);
    TrimWhite(w, p, RustSpace);
    if forall c :: c in w ==> c as int != 0x85 {
      TrimWhite(w, p, JsSpace);
    }
  }

  /** The two characters the readers treat differently: the console shows a byte order mark and drops a next-line
      control, the page does the opposite. */
  lemma ReadersDifferInTwoCharacters(s: string)
    requires OneLine(s)
    ensures Concat(Handle(OutputBody(["\U{FEFF}" + s])).0) == "\U{FEFF}" + s
    ensures WebText(OutputBody(["\U{FEFF}" + s])) == WebText(OutputBody([s]))
    ensures Concat(Handle(OutputBody(["\U{85}" + s])).0) == Concat(Handle(OutputBody([s])).0)
    ensures WebText(OutputBody(["\U{85}" + s])) == "\U{85}" + s
  {
    hide Handle, WebText, OutputBody, TrimStart;
    OneLineShown(s);
    OneLineShown("\U{FEFF}" + s);
    OneLineShown("\U{85}" + s);
    MarksTrimmed(s);
  }

  // ---- blocks of another shape ----

  /** A block without an event name: the console shows its data, the page does not. */
  lemma UnnamedBlock(p: string)
    requires Plain(p) && p != "" && forall c :: c in p ==> c as int != 0x2028 && c as int != 0x2029
    ensures Handle("data: " + p) == ([p], false) && WebText("data: " + p) == ""
  {
    hide TrimStart, TrimEnd, RustSpace, Split;
    var line := "data: " + p;
    assert line[|line| - 1] in line;
    SplitNone(line, c => c == '\n');
    SplitNone(line, JsLineEnd);
    DataLineHead(p);
    TrimPayload(p);
    assert RustLines(line) == [line] && [line][1..] == [];
    assert EventOf([line], "message") == EventOf([], "message");
    assert DataOf([line]) == p + DataOf([]) == p;
    assert line[0] == 'd' && WebEvent([line]) == WebEvent([]) == "message";
  }

  /** A carriage return before a line break is no part of the line. */
  lemma ReturnsAreDropped(p: string)
    requires Plain(p) && p != ""
    ensures Handle("data: " + p + "\r" + "\nevent: output") == ([p], false)
  {
    hide TrimStart, TrimEnd, RustSpace, RustLines, EventOf, DataOf;
    var line, tail := "data: " + p, "event: output";
    LineWithReturn(p);
    DataLineHead(p);
    TrimPayload(p);
    NameTrimmed("output");
    assert " " + "output" == " output" && "output"[0] != "closed"[0];
    assert tail[..6] == "event:" && tail[6..] == " output";
    DataThenName(line, tail, "output", p);
  }

  lemma LineWithReturn(p: string)
    requires OneLine(p)
    ensures RustLines("data: " + p + "\r" + "\nevent: output") == ["data: " + p, "event: output"]
  {
    hide Split;
    var line, tail := "data: " + p, "event: output";
    var stop := c => c == '\n';
    SplitHead(line + "\r", "\nevent: output", stop);
    SplitNone(tail, stop);
    assert "\nevent: output"[1..] == tail;
    var pieces := [line + "\r", tail];
    assert Split(line + "\r" + "\nevent: output", stop) == [line + "\r"] + [tail] == pieces;
    var ended := line + "\r";
    assert pieces[..1] == [ended] && ended[|ended| - 1] == '\r' && ended[..|ended| - 1] == line;
    assert StripCr(ended) == line;
    assert Map([ended], StripCr) == [line];
  }

  lemma DataThenName(data: string, last: string, name: string, p: string)
    requires StartsWith(data, "data:") && !StartsWith(data, "event:") && StartsWith(last, "event:")
    requires TrimEnd(TrimStart(last[6..], RustSpace), RustSpace) == name && TrimStart(data[5..], RustSpace) == p
    ensures EventOf([data, last], "message") == name && DataOf([data, last]) == p
  {
    hide TrimEnd, TrimStart, RustSpace, StartsWith;
    assert [data, last][1..] == [last] && [last][1..] == [];
    assert EventOf([last], "message") == EventOf([], name) == name;
    assert DataOf([last]) == "" + DataOf([]) == "";
    assert p + "" == p;
  }

  /** The page's event name ends at a line terminator of JavaScript, and nowhere else. */
  lemma NameEndsAtTerminator(c: char, rest: string)
    ensures c as int in {10, 13, 0x2028, 0x2029} ==>
              WebEvent(Split("event: output" + ([c] + rest), JsLineEnd)) == "output"
    ensures (forall x :: x in [c] + rest ==> x as int !in {10, 13, 0x2028, 0x2029}) ==>
              WebEvent(Split("event: output" + ([c] + rest), JsLineEnd)) == "output" + ([c] + rest)
  {
    hide Split;
    var head, tail := "event: output", [c] + rest;
    assert head[..7] == "event: " && head[7..] == "output" && tail[0] in tail;
    if c as int in {10, 13, 0x2028, 0x2029} {
      SplitHead(head, tail, JsLineEnd);
    } else if forall x :: x in tail ==> x as int !in {10, 13, 0x2028, 0x2029} {
      SplitNone(head + tail, JsLineEnd);
      assert (head + tail)[..7] == "event: " && (head + tail)[7..] == "output" + tail;
    }
  }

  /** Of two event names in one block the console takes the last, the page the first. */
  lemma TwoNames(p: string)
    requires Plain(p)
    ensures Handle("event: output" + ("\nevent: closed" + ("\ndata: " + p)))
         == (["\n[session closed " + p + "]\n"], true)
    ensures WebText("event: output" + ("\nevent: closed" + ("\ndata: " + p))) == p
  {
    hide Handle, WebData, WebEvent, Split, CloseText;
    var tail := "event: closed" + ("\ndata: " + p);
    assert "\nevent: closed" + ("\ndata: " + p) == ['\n'] + tail;
    ThreeLines(p);
    ConsoleReadsLast("event: output" + (['\n'] + tail), p);
    NameEndsAtTerminator('\n', tail);
    PageReadsData("event: output" + (['\n'] + tail), p);
    CloseTextVisible(p);
  }

  lemma ThreeLines(p: string)
    requires OneLine(p)
    ensures Split("event: output" + (['\n'] + ("event: closed" + ("\ndata: " + p))), c => c == '\n')
         == ["event: output", "event: closed", "data: " + p]
  {
    hide Split;
    var stop := c => c == '\n';
    var first, second, data := "event: output", "event: closed", "data: " + p;
    var tail := second + ("\ndata: " + p);
    assert (['\n'] + tail)[1..] == tail && ("\ndata: " + p)[1..] == data;
    SplitHead(first, ['\n'] + tail, stop);
    SplitHead(second, "\ndata: " + p, stop);
    SplitNone(data, stop);
    assert [first] + ([second] + [data]) == [first, second, data];
  }

  lemma ConsoleReadsLast(block: string, p: string)
    requires Plain(p) && Split(block, c => c == '\n') == ["event: output", "event: closed", "data: " + p]
    ensures Handle(block) == ([CloseText(p)], true)
  {
    hide TrimStart, TrimEnd, RustSpace, RustLines, EventOf, DataOf, CloseText;
    var first, second, data := "event: output", "event: closed", "data: " + p;
    assert RustLines(block) == [first, second, data] by { ThreePieces(block, p); }
    DataLineHead(p);
    TrimPayload(p);
    NameTrimmed("closed");
    assert " " + "closed" == " closed" && second[6..] == " closed" && second[..6] == "event:" && first[..6] == "event:";
    ReadThreeLines(first, second, data, "closed", p);
  }

  lemma ThreePieces(block: string, p: string)
    requires Split(block, c => c == '\n') == ["event: output", "event: closed", "data: " + p]
    ensures RustLines(block) == ["event: output", "event: closed", "data: " + p]
  {
    hide Split;
    var first, second, data := "event: output", "event: closed", "data: " + p;
    assert [first, second, data][..2] == [first, second] && Map([first, second], StripCr) == [first, second];
  }

  lemma ReadThreeLines(first: string, second: string, data: string, name: string, p: string)
    requires StartsWith(first, "event:") && StartsWith(second, "event:")
    requires StartsWith(data, "data:") && !StartsWith(data, "event:")
    requires TrimEnd(TrimStart(second[6..], RustSpace), RustSpace) == name && TrimStart(data[5..], RustSpace) == p
    ensures EventOf([first, second, data], "message") == name && DataOf([first, second, data]) == p
  {
    hide TrimEnd, TrimStart, RustSpace, StartsWith;
    var rest, last := [second, data], [data];
    assert [first, second, data][1..] == rest && rest[1..] == last && last[1..] == [];
    assert EventOf(last, name) == EventOf([], name) == name;
    assert forall e: string :: EventOf(rest, e) == EventOf(last, name);
    assert DataOf(last) == p + DataOf([]) == p;
    assert DataOf(rest) == "" + DataOf(last) == p && "" + p == p;
  }

  lemma PageReadsData(block: string, p: string)
    requires Plain(p) && Split(block, c => c == '\n') == ["event: output", "event: closed", "data: " + p]
    ensures WebData(block) == p
  {
    hide TrimStart, Split;
    var first, second, data := "event: output", "event: closed", "data: " + p;
    var isData := (l: string) => StartsWith(l, "data:");
    DataLineHead(p);
    TrimPayload(p);
    assert first[0] == 'e' && second[0] == 'e' && "data:"[0] == 'd';
    OneLineKept(first, isData);
    OneLineKept(second, isData);
    OneLineKept(data, isData);
    FilterAppend([first], [second, data], isData);
    FilterAppend([second], [data], isData);
    assert [first] + [second, data] == [first, second, data] && [second] + [data] == [second, data];
  }

  lemma OneLineKept(line: string, keep: string -> bool)
    ensures Filter([line], keep) == if keep(line) then [line] else []
  {
    assert [line][1..] == [];
  }
}
