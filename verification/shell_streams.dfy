/** From the relay to the screen: every stream of a shell session reads the same in both consoles. */
module ShellStreams {
  import opened Common
  import opened Numerals
  import opened Sse
  import opened SseAgreement
  import Relays = ShellRelay

  function CodeText(code: Option<int>): string {
    if code.None? then "null" else if code.value < 0 then "-" + Decimal(-code.value) else Decimal(code.value)
  }

  /** What `stream_shell` writes for an event. */
  function BlockOf(e: Relays.ShellEvent): Block {
    if e.closed then Close("{\"exit_code\":" + CodeText(e.exitCode) + "}") else Output(e.data)
  }

  function BlockFor(): Relays.ShellEvent -> Block { (e: Relays.ShellEvent) => BlockOf(e) }

  function IsEvent(): Block -> bool { (b: Block) => !b.KeepAlive? }

  /** What a subscriber gets that joins late or falls behind. */
  predicate Subsequence<T(==)>(a: seq<T>, b: seq<T>) {
    a == [] || (b != [] && ((a[0] == b[0] && Subsequence(a[1..], b[1..])) || Subsequence(a, b[1..])))
  }

  lemma {:induction false} SubsequenceMembers<T>(a: seq<T>, b: seq<T>)
    requires Subsequence(a, b)
    ensures forall x :: x in a ==> x in b
  {
    if a != [] {
      assert a == [a[0]] + a[1..] && b == [b[0]] + b[1..];
      if a[0] == b[0] && Subsequence(a[1..], b[1..]) {
        SubsequenceMembers(a[1..], b[1..]);
      } else {
        SubsequenceMembers(a, b[1..]);
      }
    }
  }

  lemma {:induction false} SubsequenceOrder(a: seq<Relays.ShellEvent>, b: seq<Relays.ShellEvent>)
    requires Subsequence(a, b) && Relays.OutputsThenClose(b)
    ensures Relays.OutputsThenClose(a)
  {
    if a != [] {
      assert Relays.OutputsThenClose(b[1..]);
      if a[0] == b[0] && Subsequence(a[1..], b[1..]) {
        SubsequenceOrder(a[1..], b[1..]);
        if |a| > 1 {
          SubsequenceMembers(a[1..], b[1..]);
          assert a[1] in a[1..] && |b| > 1;
        }
      } else {
        SubsequenceOrder(a, b[1..]);
      }
    }
  }

  lemma {:induction false} OnlyKeepAlivesFollow(bs: seq<Block>, events: seq<Relays.ShellEvent>)
    requires Filter(bs, IsEvent()) == Map(events, BlockFor()) && Relays.OutputsThenClose(events)
    ensures forall b :: b in AfterClose(bs) ==> b.KeepAlive?
  {
    if bs != [] {
      var rest := Filter(bs[1..], IsEvent());
      if bs[0].KeepAlive? {
        OnlyKeepAlivesFollow(bs[1..], events);
      } else {
        assert Map(events, BlockFor())[0] == bs[0] && Map(events, BlockFor())[1..] == rest;
        if bs[0].Close? {
          assert events[0].closed && |events| == 1;
          FilterMembers(bs[1..], IsEvent());
        } else {
          assert Map(events[1..], BlockFor()) == rest;
          OnlyKeepAlivesFollow(bs[1..], events[1..]);
        }
      }
    }
  }

  lemma CloseIsPlain(code: Option<int>)
    ensures Plain("{\"exit_code\":" + CodeText(code) + "}")
  {
    hide Decimal;
    if code.Some? {
      DecimalRoundTrip(if code.value < 0 then -code.value else code.value);
    }
  }

  lemma BlocksArePlain(bs: seq<Block>, events: seq<Relays.ShellEvent>)
    requires Filter(bs, IsEvent()) == Map(events, BlockFor())
    requires forall e :: e in events && !e.closed ==> Plain(e.data)
    ensures forall b :: b in bs ==> PlainBlock(b)
  {
    hide Plain, CodeText;
    FilterMembers(bs, IsEvent());
    forall b | b in bs && !b.KeepAlive?
      ensures PlainBlock(b)
    {
      assert b in Map(events, BlockFor());
      var k :| 0 <= k < |events| && BlockOf(events[k]) == b;
      assert events[k] in events;
      CloseIsPlain(events[k].exitCode);
    }
  }

  /** The outputs in order, then the exit code of the session once it is over. */
  function SeenText(seen: seq<Relays.ShellEvent>): string {
    if seen == [] then ""
    else if seen[0].closed then
      "\n[session closed "
      + ("{\"exit_code\":"
         + (match seen[0].exitCode
            case None => "null"
            case Some(n) => if n < 0 then "-" + Decimal(-n) else Decimal(n))
         + "}")
      + "]\n"
    else seen[0].data + SeenText(seen[1..])
  }

  lemma {:induction false} ShownIsSeen(bs: seq<Block>, seen: seq<Relays.ShellEvent>)
    requires Filter(bs, IsEvent()) == Map(seen, BlockFor())
    ensures UpToClose(bs) == SeenText(seen)
  {
    hide Decimal;
    if bs != [] {
      var rest := Filter(bs[1..], IsEvent());
      if bs[0].KeepAlive? {
        ShownIsSeen(bs[1..], seen);
      } else {
        assert Map(seen, BlockFor())[0] == bs[0] && Map(seen, BlockFor())[1..] == rest;
        assert Map(seen[1..], BlockFor()) == rest;
        if !bs[0].Close? {
          ShownIsSeen(bs[1..], seen[1..]);
        }
      }
    }
  }

  /** For every run of the relay, every subscriber and any two chunkings, with single-line output that
      does not start with white space: the console and the page show the same text, the outputs in
      order and, once the session is over, its exit code. */
  lemma ConsolesAgreeOnShells(steps: seq<Relays.Step>, id: Uuid, seen: seq<Relays.ShellEvent>, bs: seq<Block>,
                              tail: string, chunks: seq<string>, chunks': seq<string>)
    requires Relays.Possible({}, steps)
    requires Subsequence(seen, Relays.Log(Relays.Run(Relays.Relay({}, map[], []), steps), id))
    requires Filter(bs, IsEvent()) == Map(seen, BlockFor()) && forall e :: e in seen && !e.closed ==> Plain(e.data)
    requires Find(tail) == -1 && Concat(chunks) == Wire(bs) + tail && Concat(chunks') == Wire(bs) + tail
    ensures Concat(Parse(Concat(chunks)).sent) == SeenText(seen) == WebParse(Concat(chunks'))
  {
    hide Parse, WebParse, Plain, PlainBlock, Wire, Find, Subsequence, Relays.Run, Relays.Possible,
      Relays.OutputsThenClose;
    Relays.SessionOrder(steps, id);
    SubsequenceOrder(seen, Relays.Log(Relays.Run(Relays.Relay({}, map[], []), steps), id));
    OnlyKeepAlivesFollow(bs, seen);
    BlocksArePlain(bs, seen);
    ReadersAgree(bs, tail, chunks, chunks');
    ShownIsSeen(bs, seen);
  }
}
