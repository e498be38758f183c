/** The agent's side of remote shells: the session table and the thread that runs one shell. */
module ShellAgent {
  import opened Common

  // ---- the session table ----

  /** The far ends of the channels a session thread was started with. */
  datatype Thread = Thread(session: Uuid, stdin: seq<string>, killed: bool)

  /** The table maps a session to the thread that holds its receivers. */
  datatype Shells = Shells(sessions: map<Uuid, nat>, threads: seq<Thread>)

  datatype Request = Open(id: Uuid) | Input(id: Uuid, data: string) | Close(id: Uuid)

  function After(s: Shells, r: Request): Shells
    requires Sound(s)
  {
    match r
    case Open(id) =>
      if id in s.sessions then s
      else Shells(s.sessions[id := |s.threads|], s.threads + [Thread(id, [], false)])
    case Input(id, data) =>
      if id in s.sessions then
        var k := s.sessions[id];
        s.(threads := s.threads[k := s.threads[k].(stdin := s.threads[k].stdin + [data])])
      else s
    case Close(id) =>
      if id in s.sessions
      then Shells(s.sessions - {id}, s.threads[s.sessions[id] := s.threads[s.sessions[id]].(killed := true)])
      else s
  }

  /** A session in the table has a thread of its own that was not told to stop; every other thread was. */
  ghost predicate Sound(s: Shells) {
    && (forall id :: id in s.sessions ==>
          s.sessions[id] < |s.threads| && s.threads[s.sessions[id]].session == id && !s.threads[s.sessions[id]].killed)
    && (forall k :: 0 <= k < |s.threads| && !s.threads[k].killed ==>
          s.threads[k].session in s.sessions && s.sessions[s.threads[k].session] == k)
  }

  // ---- what a shell is given ----

  lemma KeepsSound(s: Shells, r: Request)
    requires Sound(s)
    ensures Sound(After(s, r))
  {}

  ghost function Run(s: Shells, rs: seq<Request>): Shells
    requires Sound(s)
    decreases |rs|
  {
    if rs == [] then s
    else
      KeepsSound(s, rs[0]);
      Run(After(s, rs[0]), rs[1..])
  }

  /** The inputs for a session before it is closed. */
  function Inputs(rs: seq<Request>, id: Uuid): seq<string> {
    if rs == [] || rs[0] == Close(id) then []
    else (if rs[0].Input? && rs[0].id == id then [rs[0].data] else []) + Inputs(rs[1..], id)
  }

  /** A thread told to stop is left alone, even if its session id is opened again. */
  lemma {:induction false} KilledIsOver(s: Shells, rs: seq<Request>, k: nat)
    requires Sound(s) && k < |s.threads| && s.threads[k].killed
    ensures k < |Run(s, rs).threads| && Run(s, rs).threads[k] == s.threads[k]
    decreases |rs|
  {
    if rs != [] {
      KeepsSound(s, rs[0]);
      KilledIsOver(After(s, rs[0]), rs[1..], k);
    }
  }

  lemma OneRequest(s: Shells, r: Request, id: Uuid)
    requires Sound(s) && id in s.sessions
    ensures var k, t := s.sessions[id], After(s, r);
            && Sound(t) && k < |s.threads| <= |t.threads|
            && s.threads[k].session == id && !s.threads[k].killed
            && (r == Close(id) ==> t.threads[k] == s.threads[k].(killed := true))
            && (r != Close(id) ==>
                  (id in t.sessions && t.sessions[id] == k
                   && t.threads[k] == s.threads[k].(stdin := s.threads[k].stdin + Inputs([r], id))))
  {
    KeepsSound(s, r);
    assert [r][1..] == [];
  }

  /** An open session's thread is given that session's inputs, in order, until it is closed, and is told
      to stop exactly if it is closed. */
  lemma {:induction false} InputsReachTheShell(s: Shells, rs: seq<Request>, id: Uuid)
    requires Sound(s) && id in s.sessions
    ensures var k, end := s.sessions[id], Run(s, rs);
            k < |end.threads|
            && end.threads[k] == Thread(id, s.threads[k].stdin + Inputs(rs, id), Close(id) in rs)
    decreases |rs|
  {
    if rs != [] {
      hide Sound;
      var k, mid := s.sessions[id], After(s, rs[0]);
      OneRequest(s, rs[0], id);
      assert rs == [rs[0]] + rs[1..];
      if rs[0] == Close(id) {
        KilledIsOver(mid, rs[1..], k);
      } else {
        InputsReachTheShell(mid, rs[1..], id);
      }
    } else {
      assert s.threads[s.sessions[id]].stdin + [] == s.threads[s.sessions[id]].stdin;
    }
  }

  class ShellManager {
    var sessions: map<Uuid, nat>
    var threads: seq<Thread>

    ghost function State(): Shells
      reads this
    {
      Shells(sessions, threads)
    }

    constructor ()
      ensures State() == Shells(map[], []) && Sound(State())
    {
      sessions, threads := map[], [];
    }

    method OpenSession(id: Uuid)
      requires Sound(State())
      modifies this
      ensures State() == After(old(State()), Open(id)) && Sound(State())
    {
      if id in sessions {
        return;
      }
      threads := threads + [Thread(id, [], false)];
      sessions := sessions[id := |threads| - 1];
    }

    method SendInput(id: Uuid, data: string)
      requires Sound(State())
      modifies this`threads
      ensures State() == After(old(State()), Input(id, data)) && Sound(State())
    {
      if id in sessions {
        var k := sessions[id];
        threads := threads[k := threads[k].(stdin := threads[k].stdin + [data])];
      }
    }

    method CloseSession(id: Uuid)
      requires Sound(State())
      modifies this
      ensures State() == After(old(State()), Close(id)) && Sound(State())
    {
      if id in sessions {
        var k := sessions[id];
        sessions := sessions - {id};
        threads := threads[k := threads[k].(killed := true)];
      }
    }
  }

  // ---- the thread of one session ----

  datatype Stdin = Data(data: string) | Timeout | Disconnected

  /** What one turn of the loop finds: a kill request, the result of waiting for input, and the
      exit code if the shell has exited. */
  datatype Poll = Poll(kill: bool, stdin: Stdin, exited: Option<int>)

  /** The four steps that can fail before the loop starts. */
  datatype Setup = Setup(pty: bool, spawn: bool, reader: bool, writer: bool)

  /** This turn is the thread's last. */
  predicate Ends(p: Poll) { p.kill || p.stdin.Disconnected? || p.exited.Some? }

  /** What the turn writes to the shell. */
  function Typed(p: Poll): seq<string> { if !p.kill && p.stdin.Data? then [p.stdin.data] else [] }

  function AllTyped(polls: seq<Poll>): seq<string> {
    if polls == [] then [] else AllTyped(polls[..|polls| - 1]) + Typed(polls[|polls| - 1])
  }

  /** Which turn, if any, ends the thread. */
  ghost predicate EndsAt(polls: seq<Poll>, k: nat) {
    && k < |polls| && (polls[k].kill || polls[k].stdin.Disconnected? || polls[k].exited.Some?)
    && forall j :: 0 <= j < k ==> !(polls[j].kill || polls[j].stdin.Disconnected? || polls[j].exited.Some?)
  }

  lemma {:induction false} TypedInOrder(polls: seq<Poll>)
    ensures AllTyped(polls)
         == Map(Filter(polls, (p: Poll) => !p.kill && p.stdin.Data?),
                (p: Poll) => if p.stdin.Data? then p.stdin.data else "")
  {
    if polls != [] {
      var init, last := polls[..|polls| - 1], polls[|polls| - 1];
      assert polls == init + [last];
      TypedInOrder(init);
      var typing := (p: Poll) => !p.kill && p.stdin.Data?;
      FilterAppend(init, [last], typing);
      assert Filter([last], typing) == if typing(last) then [last] else [];
      MapAppend(Filter(init, typing), Filter([last], typing), (p: Poll) => if p.stdin.Data? then p.stdin.data else "");
    }
  }

  lemma EndsOnce(polls: seq<Poll>, n: nat)
    requires EndsAt(polls, n)
    ensures forall k: nat :: EndsAt(polls, k) ==> k == n
    ensures AllTyped(polls[..n + 1]) == AllTyped(polls[..n]) + Typed(polls[n])
  {
    assert polls[..n + 1][..n] == polls[..n];
  }

  /** `closed` holds the exit codes of the `ShellClosed` messages sent, `started` says whether the shell
      was spawned and its output reader was too, `finished` whether the thread has returned;
      `wait` is what waiting for the killed shell gives. */
  method RunPty(setup: Setup, polls: seq<Poll>, wait: Option<int>)
    returns (closed: seq<Option<int>>, typed: seq<string>, started: bool, killed: bool, finished: bool)
    ensures started <==> setup.pty && setup.spawn && setup.reader && setup.writer
    ensures finished <==> !started || exists k: nat :: EndsAt(polls, k)
    ensures |closed| == if finished then 1 else 0
    ensures !started ==> closed == [None] && typed == [] && !killed
    ensures started && !finished ==> typed == AllTyped(polls) && !killed
    ensures forall k: nat :: started && EndsAt(polls, k) ==>
              && typed == AllTyped(polls[..k + 1])
              && closed == [if polls[k].kill || polls[k].stdin.Disconnected? then wait else polls[k].exited]
              && (killed <==> polls[k].kill || polls[k].stdin.Disconnected?)
  {
    closed, typed, started, killed, finished := [], [], false, false, true;
    if !setup.pty {
      closed := closed + [None];
      return;
    }
    if !setup.spawn {
      closed := closed + [None];
      return;
    }
    if !setup.reader {
      closed := closed + [None];
      return;
    }
    if !setup.writer {
      closed := closed + [None];
      return;
    }
    started := true;
    var n := 0;
    while n < |polls|
      invariant 0 <= n <= |polls| && closed == [] && !killed && finished && started
      invariant typed == AllTyped(polls[..n])
      invariant forall j :: 0 <= j < n ==> !Ends(polls[j])
    {
      var p := polls[n];
      assert polls[..n + 1][..n] == polls[..n];
      if p.kill {
        EndsOnce(polls, n);
        killed := true;
        break;
      }
      if p.stdin.Disconnected? {
        EndsOnce(polls, n);
        killed := true;
        break;
      }
      if p.stdin.Data? {
        typed := typed + [p.stdin.data];
      }
      if p.exited.Some? {
        EndsOnce(polls, n);
        assert EndsAt(polls, n);
        closed := closed + [p.exited];
        return;
      }
      n := n + 1;
    }
    if !killed {
      assert polls[..n] == polls;
      finished := false;
      return;
    }
    assert EndsAt(polls, n);
    closed := closed + [wait];
  }

  // ---- from the requests to the shell ----

  /** Where the thread of a session is in its loop. */
  datatype LoopPc = AtKill | AtInput | AtExit(stdin: Stdin) | Stopped

  /** The thread: how much of its queue it has taken, and its turns so far. */
  datatype Worker = Worker(pc: LoopPc, taken: nat, polls: seq<Poll>)

  /** The requests and the thread's own steps, in any order. A step that looks at the shell finds it
      exited or not. */
  datatype Event = Ask(request: Request) | Loop(exited: Option<int>)

  /** One step of the loop. A kill is seen once the thread was told to stop, its input is closed once it was
      told and its queue is empty; the table that holds the other ends lives as long as the agent. */
  function Stepped(w: Worker, thread: Thread, exited: Option<int>): Worker {
    match w.pc
    case AtKill =>
      if thread.killed then Worker(Stopped, w.taken, w.polls + [Poll(true, Timeout, None)]) else w.(pc := AtInput)
    case AtInput =>
      if w.taken < |thread.stdin| then Worker(AtExit(Data(thread.stdin[w.taken])), w.taken + 1, w.polls)
      else if thread.killed then Worker(Stopped, w.taken, w.polls + [Poll(false, Disconnected, None)])
      else w.(pc := AtExit(Timeout))
    case AtExit(stdin) =>
      Worker(if exited.Some? then Stopped else AtKill, w.taken, w.polls + [Poll(false, stdin, exited)])
    case Stopped => w
  }

  function Next(s: Shells, w: Worker, k: nat, e: Event): (Shells, Worker)
    requires Sound(s) && k < |s.threads|
  {
    match e
    case Ask(r) => (After(s, r), w)
    case Loop(exited) => (s, Stepped(w, s.threads[k], exited))
  }

  lemma NextKeepsSound(s: Shells, w: Worker, k: nat, e: Event)
    requires Sound(s) && k < |s.threads|
    ensures Sound(Next(s, w, k, e).0) && k < |Next(s, w, k, e).0.threads|
  {
    if e.Ask? {
      KeepsSound(s, e.request);
    }
  }

  ghost function RunBoth(s: Shells, w: Worker, k: nat, events: seq<Event>): (Shells, Worker)
    requires Sound(s) && k < |s.threads|
    decreases |events|
  {
    if events == [] then (s, w)
    else
      NextKeepsSound(s, w, k, events[0]);
      RunBoth(Next(s, w, k, events[0]).0, Next(s, w, k, events[0]).1, k, events[1..])
  }

  function Requests(events: seq<Event>): seq<Request> {
    if events == [] then []
    else (if events[0].Ask? then [events[0].request] else []) + Requests(events[1..])
  }

  /** What the unfinished turn has typed. */
  function InHand(pc: LoopPc): seq<string> { if pc.AtExit? && pc.stdin.Data? then [pc.stdin.data] else [] }

  /** The turns took the queue in order, and saw a kill or a closed input only if there was one; only a last
      turn ends the thread. */
  ghost predicate Serves(thread: Thread, w: Worker) {
    && w.taken <= |thread.stdin| && AllTyped(w.polls) + InHand(w.pc) == thread.stdin[..w.taken]
    && (w.pc.AtExit? ==> !w.pc.stdin.Disconnected?)
    && (forall p :: p in w.polls && (p.kill || p.stdin.Disconnected?) ==> thread.killed)
    && (forall p :: p in w.polls && p.stdin.Disconnected? ==> w.taken == |thread.stdin|)
    && (forall j :: 0 <= j < |w.polls| ==> (Ends(w.polls[j]) <==> w.pc == Stopped && j == |w.polls| - 1))
    && (w.pc == Stopped ==> w.polls != [])
  }

  lemma AllTypedOne(polls: seq<Poll>, p: Poll)
    ensures AllTyped(polls + [p]) == AllTyped(polls) + Typed(p)
  {
    assert (polls + [p])[..|polls|] == polls;
  }

  lemma LoopServes(thread: Thread, w: Worker, exited: Option<int>)
    requires Serves(thread, w)
    ensures Serves(thread, Stepped(w, thread, exited))
  {
    hide AllTyped;
    var w' := Stepped(w, thread, exited);
    if |w'.polls| > |w.polls| {
      AllTypedOne(w.polls, w'.polls[|w.polls|]);
    }
    assert AllTyped(w.polls) + [] == AllTyped(w.polls);
    if w.pc == AtInput && w.taken < |thread.stdin| {
      assert thread.stdin[..w.taken + 1] == thread.stdin[..w.taken] + [thread.stdin[w.taken]];
    }
  }

  /** A request only adds to the queue of a thread not told to stop, or tells it to. */
  lemma AskServes(s: Shells, w: Worker, k: nat, r: Request)
    requires Sound(s) && k < |s.threads| && Serves(s.threads[k], w)
    ensures k < |After(s, r).threads| && Serves(After(s, r).threads[k], w)
  {
    hide AllTyped;
    var t, t' := s.threads[k], After(s, r).threads[k];
    assert t'.stdin == t.stdin || (!t.killed && |t'.stdin| > |t.stdin| && t'.stdin[..|t.stdin|] == t.stdin);
    assert t'.stdin[..w.taken] == t.stdin[..w.taken];
  }

  lemma {:induction false} RunServes(s: Shells, w: Worker, k: nat, events: seq<Event>)
    requires Sound(s) && k < |s.threads| && Serves(s.threads[k], w)
    ensures var end := RunBoth(s, w, k, events);
      end.0 == Run(s, Requests(events)) && k < |end.0.threads| && Serves(end.0.threads[k], end.1)
    decreases |events|
  {
    if events != [] {
      var e, rest := events[0], events[1..];
      NextKeepsSound(s, w, k, e);
      if e.Ask? {
        AskServes(s, w, k, e.request);
        assert ([e.request] + Requests(rest))[1..] == Requests(rest);
      } else {
        LoopServes(s.threads[k], w, e.exited);
        assert [] + Requests(rest) == Requests(rest);
      }
      hide Serves, Sound, Next, After;
      RunServes(Next(s, w, k, e).0, Next(s, w, k, e).1, k, rest);
    }
  }

  /** For every interleaving of requests with the steps of a newly opened session's thread, what is typed into
      the shell is a prefix of that session's inputs in order. The thread is killed, or finds its input closed,
      only if the session was closed; and if its input is closed, all inputs have been typed. */
  lemma TypedIsPrefixOfInputs(s: Shells, id: Uuid, events: seq<Event>)
    requires Sound(s) && id !in s.sessions
    ensures Sound(After(s, Open(id))) && |s.threads| < |After(s, Open(id)).threads|
    ensures var worker := RunBoth(After(s, Open(id)), Worker(AtKill, 0, []), |s.threads|, events).1;
      var inputs := Inputs(Requests(events), id);
      && AllTyped(worker.polls) + InHand(worker.pc) <= inputs
      && (forall p :: p in worker.polls && (p.kill || p.stdin.Disconnected?) ==> Close(id) in Requests(events))
      && (forall p :: p in worker.polls && p.stdin.Disconnected? ==> AllTyped(worker.polls) == inputs)
      && (worker.pc == Stopped <==> exists k: nat :: EndsAt(worker.polls, k))
  {
    var begun := After(s, Open(id));
    var start := Worker(AtKill, 0, []);
    KeepsSound(s, Open(id));
    assert AllTyped(start.polls) + InHand(start.pc) == begun.threads[|s.threads|].stdin[..0];
    RunServes(begun, start, |s.threads|, events);
    InputsReachTheShell(begun, Requests(events), id);
    assert [] + Inputs(Requests(events), id) == Inputs(Requests(events), id);
    StoppedEnds(RunBoth(begun, start, |s.threads|, events).0.threads[|s.threads|],
                RunBoth(begun, start, |s.threads|, events).1);
  }

  lemma StoppedEnds(thread: Thread, w: Worker)
    requires Serves(thread, w)
    ensures w.pc == Stopped <==> exists k: nat :: EndsAt(w.polls, k)
    ensures forall p :: p in w.polls && p.stdin.Disconnected? ==> AllTyped(w.polls) == thread.stdin
  {
    hide AllTyped;
    if w.pc == Stopped {
      assert EndsAt(w.polls, |w.polls| - 1);
    }
    forall p | p in w.polls && p.stdin.Disconnected?
      ensures AllTyped(w.polls) == thread.stdin
    {
      var j :| 0 <= j < |w.polls| && w.polls[j] == p;
      assert Ends(w.polls[j]) && w.pc == Stopped;
      assert AllTyped(w.polls) + [] == AllTyped(w.polls) && thread.stdin[..w.taken] == thread.stdin;
    }
  }

  // ---- a closed session's shell ends ----

  function Loops(events: seq<Event>): nat {
    if events == [] then 0 else (if events[0].Loop? then 1 else 0) + Loops(events[1..])
  }

  /** How many steps of its own a thread told to stop still makes. */
  function StepsLeft(pc: LoopPc): nat {
    match pc
    case AtInput => 3
    case AtExit(_) => 2
    case AtKill => 1
    case Stopped => 0
  }

  /** Once its session was closed a thread stops within three steps of its own, having typed at most one more
      input, whatever is requested meanwhile. */
  lemma {:induction false} ClosedSessionStops(s: Shells, w: Worker, k: nat, events: seq<Event>)
    requires Sound(s) && k < |s.threads| && s.threads[k].killed && Loops(events) >= StepsLeft(w.pc)
    ensures RunBoth(s, w, k, events).1.pc == Stopped
    ensures w.taken <= RunBoth(s, w, k, events).1.taken <= w.taken + if w.pc == AtInput then 1 else 0
    decreases |events|
  {
    if events != [] {
      var e, next := events[0], Next(s, w, k, events[0]);
      NextKeepsSound(s, w, k, e);
      if e.Ask? {
        assert next.0.threads[k] == s.threads[k];
      }
      ClosedSessionStops(next.0, next.1, k, events[1..]);
    }
  }
}
