/** The server's relay of remote shells: sessions, their broadcast channels, and the events
    sent on them, for every order of requests and agent messages. */
module ShellRelay {
  import opened Common

  datatype ShellEvent = ShellEvent(session: Uuid, data: string, closed: bool, exitCode: Option<int>)

  function OutputEvent(id: Uuid, data: string): ShellEvent { ShellEvent(id, data, false, None) }

  function ClosedEvent(id: Uuid, code: Option<int>): ShellEvent { ShellEvent(id, "", true, code) }

  datatype Meta = Meta(owner: Uuid, device: Uuid)

  /** `broadcasts` are the sessions with a live channel, `sent` all events ever sent on any channel. */
  datatype Relay = Relay(broadcasts: set<Uuid>, sessions: map<Uuid, Meta>, sent: seq<ShellEvent>)

  /** One step of a handler. A shell is opened in two steps, between which others may run. */
  datatype Step =
    | OpenChannel(id: Uuid)
    | FinishOpen(id: Uuid, meta: Meta, reached: bool)
    | AgentOutput(id: Uuid, data: string)
    | AgentClosed(id: Uuid, code: Option<int>)
    | CloseShell(id: Uuid, user: Uuid, admin: bool, reached: bool)

  datatype Access = Granted(meta: Meta) | NotFound | Forbidden

  function Authorize(r: Relay, id: Uuid, user: Uuid, admin: bool): Access {
    if id !in r.sessions then NotFound
    else if r.sessions[id].owner != user && !admin then Forbidden
    else Granted(r.sessions[id])
  }

  function After(r: Relay, s: Step): Relay {
    match s
    case OpenChannel(id) => r.(broadcasts := r.broadcasts + {id})
    case FinishOpen(id, meta, reached) =>
      if reached then r.(sessions := r.sessions[id := meta]) else r.(broadcasts := r.broadcasts - {id})
    case AgentOutput(id, data) => if id in r.broadcasts then r.(sent := r.sent + [OutputEvent(id, data)]) else r
    case AgentClosed(id, code) =>
      Relay(r.broadcasts - {id}, r.sessions - {id}, if id in r.broadcasts then r.sent + [ClosedEvent(id, code)]
        else r.sent)
    case CloseShell(id, user, admin, reached) =>
      if Authorize(r, id, user, admin).Granted? && reached then r.(sessions := r.sessions - {id}) else r
  }

  datatype CloseResult = ShellClosing | Refused(access: Access) | NotConnected

  class ShellServer {
    var broadcasts: set<Uuid>
    var sessions: map<Uuid, Meta>
    var sent: seq<ShellEvent>

    ghost function State(): Relay
      reads this
    {
      Relay(broadcasts, sessions, sent)
    }

    constructor ()
      ensures State() == Relay({}, map[], [])
    {
      broadcasts, sessions, sent := {}, map[], [];
    }

    /** The first half of `open_shell`; `id` is the generated session id. */
    method OpenChannelFor(id: Uuid)
      modifies this`broadcasts
      ensures State() == After(old(State()), OpenChannel(id))
    {
      broadcasts := broadcasts + {id};
    }

    /** The second half, once `send_to_agent` has said whether the agent is connected. */
    method FinishOpening(id: Uuid, meta: Meta, reached: bool) returns (session: Option<Uuid>)
      modifies this`broadcasts, this`sessions
      ensures session == if reached then Some(id) else None
      ensures State() == After(old(State()), FinishOpen(id, meta, reached))
    {
      if !reached {
        broadcasts := broadcasts - {id};
        return None;
      }
      sessions := sessions[id := meta];
      session := Some(id);
    }

    method OnShellOutput(id: Uuid, data: string)
      modifies this`sent
      ensures State() == After(old(State()), AgentOutput(id, data))
    {
      if id in broadcasts {
        sent := sent + [ShellEvent(id, data, false, None)];
      }
    }

    method OnShellClosed(id: Uuid, code: Option<int>)
      modifies this
      ensures State() == After(old(State()), AgentClosed(id, code))
    {
      if id in broadcasts {
        sent := sent + [ShellEvent(id, "", true, code)];
      }
      broadcasts := broadcasts - {id};
      sessions := sessions - {id};
    }

    /** The channel stays until the agent reports the end of the shell. */
    method CloseShellFor(id: Uuid, user: Uuid, admin: bool, reached: bool) returns (result: CloseResult)
      modifies this`sessions
      ensures State() == After(old(State()), CloseShell(id, user, admin, reached))
      ensures result == if id !in old(sessions) then Refused(NotFound)
                        else if old(sessions)[id].owner != user && !admin then Refused(Forbidden)
                        else if reached then ShellClosing else NotConnected
    {
      if id !in sessions {
        return Refused(NotFound);
      }
      if sessions[id].owner != user && !admin {
        return Refused(Forbidden);
      }
      if !reached {
        return NotConnected;
      }
      sessions := sessions - {id};
      result := ShellClosing;
    }
  }

  // ---- runs ----

  /** Session ids are generated fresh. */
  predicate Allowed(used: set<Uuid>, s: Step) { s.OpenChannel? ==> s.id !in used }

  function Used(used: set<Uuid>, s: Step): set<Uuid> { if s.OpenChannel? then used + {s.id} else used }

  predicate Possible(used: set<Uuid>, steps: seq<Step>)
    decreases |steps|
  {
    steps == [] || (Allowed(used, steps[0]) && Possible(Used(used, steps[0]), steps[1..]))
  }

  function Run(r: Relay, steps: seq<Step>): Relay
    decreases |steps|
  {
    if steps == [] then r else Run(After(r, steps[0]), steps[1..])
  }

  function OfSession(id: Uuid): ShellEvent -> bool { (e: ShellEvent) => e.session == id }

  /** The events sent for one session. */
  function Log(r: Relay, id: Uuid): seq<ShellEvent> { Filter(r.sent, OfSession(id)) }

  /** Outputs, then at most one close, then nothing. */
  predicate OutputsThenClose(log: seq<ShellEvent>) { forall i :: 0 <= i < |log| - 1 ==> !log[i].closed }

  predicate NoClose(log: seq<ShellEvent>) { forall e :: e in log ==> !e.closed }

  ghost predicate Ordered(r: Relay, used: set<Uuid>) {
    r.broadcasts <= used
    && forall id ::
         && OutputsThenClose(Log(r, id))
         && (id in r.broadcasts ==> NoClose(Log(r, id)))
         && (id !in used ==> Log(r, id) == [])
  }

  lemma SendLogs(r: Relay, e: ShellEvent, id: Uuid)
    ensures Filter(r.sent + [e], OfSession(id)) == Log(r, id) + if e.session == id then [e] else []
  {
    FilterAppend(r.sent, [e], OfSession(id));
    assert Filter([e], OfSession(id)) == if e.session == id then [e] else [];
  }

  lemma StepOrdered(r: Relay, used: set<Uuid>, s: Step)
    requires Ordered(r, used) && Allowed(used, s)
    ensures Ordered(After(r, s), Used(used, s))
  {
    hide Filter, OfSession;
    var after := After(r, s);
    forall id
      ensures OutputsThenClose(Log(after, id)) && (id in after.broadcasts ==> NoClose(Log(after, id)))
              && (id !in Used(used, s) ==> Log(after, id) == [])
    {
      assert OutputsThenClose(Log(r, id));
      if s.AgentOutput? {
        SendLogs(r, OutputEvent(s.id, s.data), id);
      } else if s.AgentClosed? {
        SendLogs(r, ClosedEvent(s.id, s.code), id);
      }
    }
  }

  lemma {:induction false} RunOrdered(r: Relay, used: set<Uuid>, steps: seq<Step>, id: Uuid)
    requires Ordered(r, used) && Possible(used, steps)
    ensures OutputsThenClose(Log(Run(r, steps), id))
    decreases |steps|
  {
    hide Ordered, After, Allowed, Used, Log, OutputsThenClose;
    if steps != [] {
      StepOrdered(r, used, steps[0]);
      RunOrdered(After(r, steps[0]), Used(used, steps[0]), steps[1..], id);
    } else {
      OrderedLog(r, used, id);
    }
  }

  lemma OrderedLog(r: Relay, used: set<Uuid>, id: Uuid)
    requires Ordered(r, used)
    ensures OutputsThenClose(Log(r, id))
  {}

  /** For every order of requests and agent messages, the events of a session are outputs followed
      by at most one close and then nothing. */
  lemma SessionOrder(steps: seq<Step>, id: Uuid)
    requires Possible({}, steps)
    ensures OutputsThenClose(Log(Run(Relay({}, map[], []), steps), id))
  {
    RunOrdered(Relay({}, map[], []), {}, steps, id);
  }

  // ---- what reaches the channel ----

  /** The event an agent's message for one session would make. */
  function EventOf(s: Step, id: Uuid): seq<ShellEvent> {
    match s
    case AgentOutput(i, data) => if i == id then [ShellEvent(id, data, false, None)] else []
    case AgentClosed(i, code) => if i == id then [ShellEvent(id, "", true, code)] else []
    case _ => []
  }

  function Reported(steps: seq<Step>, id: Uuid): seq<ShellEvent> {
    if steps == [] then [] else EventOf(steps[0], id) + Reported(steps[1..], id)
  }

  function ThroughClose(events: seq<ShellEvent>): seq<ShellEvent> {
    if events == [] then []
    else if events[0].closed then [events[0]]
    else [events[0]] + ThroughClose(events[1..])
  }

  lemma StepLog(r: Relay, s: Step, id: Uuid)
    requires !(s.FinishOpen? && s.id == id && !s.reached)
    ensures Log(After(r, s), id) == Log(r, id) + if id in r.broadcasts then EventOf(s, id) else []
    ensures id in r.broadcasts ==> (id in After(r, s).broadcasts <==> NoClose(EventOf(s, id)))
    ensures id !in r.broadcasts && s != OpenChannel(id) ==> id !in After(r, s).broadcasts
  {
    hide Filter, OfSession;
    if s.AgentOutput? {
      SendLogs(r, OutputEvent(s.id, s.data), id);
    } else if s.AgentClosed? {
      SendLogs(r, ClosedEvent(s.id, s.code), id);
    }
  }

  lemma CutStep(s: Step, id: Uuid, rest: seq<ShellEvent>)
    ensures ThroughClose(EventOf(s, id) + rest)
         == EventOf(s, id) + if NoClose(EventOf(s, id)) then ThroughClose(rest) else []
  {
    var now := EventOf(s, id);
    if now == [] {
      assert now + rest == rest;
    } else {
      assert (now + rest)[0] == now[0] && (now + rest)[1..] == rest && now[0] in now;
    }
  }

  /** Once its channel is gone, a session's log never changes. */
  lemma {:induction false} Silent(r: Relay, used: set<Uuid>, steps: seq<Step>, id: Uuid)
    requires id !in r.broadcasts && id in used && Possible(used, steps)
    ensures Log(Run(r, steps), id) == Log(r, id)
    decreases |steps|
  {
    hide After, Log, EventOf;
    if steps != [] {
      StepLogGone(r, steps[0], id);
      Silent(After(r, steps[0]), Used(used, steps[0]), steps[1..], id);
    }
  }

  lemma StepLogGone(r: Relay, s: Step, id: Uuid)
    requires id !in r.broadcasts && s != OpenChannel(id)
    ensures Log(After(r, s), id) == Log(r, id) && id !in After(r, s).broadcasts
  {
    hide Log;
    if !(s.FinishOpen? && s.id == id && !s.reached) {
      StepLog(r, s, id);
    } else {
      assert After(r, s) == r;
    }
  }

  /** From an open channel whose agent was reached, the log grows by exactly what the agents report
      for the session, through the first close; whatever comes after the close is dropped. */
  lemma {:induction false} RelayCutsAtClose(r: Relay, used: set<Uuid>, steps: seq<Step>, id: Uuid)
    requires id in r.broadcasts && id in used && Possible(used, steps)
    requires forall s :: s in steps ==> !(s.FinishOpen? && s.id == id && !s.reached)
    ensures Log(Run(r, steps), id) == Log(r, id) + ThroughClose(Reported(steps, id))
    decreases |steps|
  {
    hide After, Log, EventOf, ThroughClose, NoClose;
    if steps == [] {
      assert ThroughClose([]) == [] by { CutNothing(); }
    } else {
      var s, rest := steps[0], steps[1..];
      assert s in steps && forall t :: t in rest ==> t in steps;
      StepLog(r, s, id);
      CutStep(s, id, Reported(rest, id));
      if NoClose(EventOf(s, id)) {
        RelayCutsAtClose(After(r, s), Used(used, s), rest, id);
      } else {
        Silent(After(r, s), Used(used, s), rest, id);
      }
    }
  }

  lemma CutNothing()
    ensures ThroughClose([]) == []
  {}

  // ---- who owns a session, and who ends it ----

  /** A bound session ends by this step: its agent was told to close it by its owner or an admin, or reported
      its end. */
  predicate EndsSession(s: Step, id: Uuid, owner: Uuid) {
    || (s.AgentClosed? && s.id == id)
    || (s.CloseShell? && s.id == id && s.reached && (s.user == owner || s.admin))
  }

  /** A request to close takes a bound session away if and only if the agent was reached and the user is its owner
      or an admin; everything else stays. */
  lemma CloseMeans(r: Relay, id: Uuid, user: Uuid, admin: bool, reached: bool)
    ensures var after := After(r, CloseShell(id, user, admin, reached));
      && (id in after.sessions <==> id in r.sessions && !(reached && (r.sessions[id].owner == user || admin)))
      && (forall x :: x != id ==> (x in after.sessions <==> x in r.sessions))
      && (forall x :: x in after.sessions ==> after.sessions[x] == r.sessions[x])
      && after.broadcasts == r.broadcasts && after.sent == r.sent
  {}

  lemma StepKeepsSession(r: Relay, s: Step, id: Uuid)
    requires id in r.sessions && !(s.FinishOpen? && s.id == id)
    ensures id in After(r, s).sessions <==> !EndsSession(s, id, r.sessions[id].owner)
    ensures id in After(r, s).sessions ==> After(r, s).sessions[id] == r.sessions[id]
  {}

  lemma StepBindsNothing(r: Relay, s: Step, id: Uuid)
    requires id !in r.sessions && !(s.FinishOpen? && s.id == id)
    ensures id !in After(r, s).sessions
  {}

  lemma {:induction false} NeverBoundAgain(r: Relay, steps: seq<Step>, id: Uuid)
    requires id !in r.sessions && forall s :: s in steps ==> !(s.FinishOpen? && s.id == id)
    ensures id !in Run(r, steps).sessions
    decreases |steps|
  {
    hide After;
    if steps != [] {
      assert steps[0] in steps && forall s :: s in steps[1..] ==> s in steps;
      StepBindsNothing(r, steps[0], id);
      NeverBoundAgain(After(r, steps[0]), steps[1..], id);
    }
  }

  /** Over every run a bound session is still bound, with its owner and device, if and only if neither its owner
      nor an admin closed it over a reached agent and its agent did not report its end. */
  lemma {:induction false} SessionBoundUntilEnded(r: Relay, steps: seq<Step>, id: Uuid)
    requires id in r.sessions && forall s :: s in steps ==> !(s.FinishOpen? && s.id == id)
    ensures var end := Run(r, steps);
      && (id in end.sessions <==> forall s :: s in steps ==> !EndsSession(s, id, r.sessions[id].owner))
      && (id in end.sessions ==> end.sessions[id] == r.sessions[id])
    decreases |steps|
  {
    hide After, EndsSession;
    if steps != [] {
      var s, rest := steps[0], steps[1..];
      assert steps == [s] + rest;
      StepKeepsSession(r, s, id);
      if id in After(r, s).sessions {
        SessionBoundUntilEnded(After(r, s), rest, id);
      } else {
        NeverBoundAgain(After(r, s), rest, id);
      }
    }
  }

  /** A session is bound by the opening that reached its agent, to the user and device of that opening, and an
      opening that reached none leaves neither a session nor a channel. */
  lemma OpenBinds(r: Relay, id: Uuid, meta: Meta, reached: bool)
    requires id !in r.sessions
    ensures var end := Run(r, [OpenChannel(id), FinishOpen(id, meta, reached)]);
      && end.sent == r.sent
      && (reached ==> end.sessions == r.sessions[id := meta] && end.broadcasts == r.broadcasts + {id})
      && (!reached ==> end.sessions == r.sessions && end.broadcasts == r.broadcasts - {id})
  {
    var open, finish := OpenChannel(id), FinishOpen(id, meta, reached);
    assert [open, finish][1..] == [finish] && [finish][1..] == [];
    assert Run(After(r, open), [finish]) == Run(After(After(r, open), finish), []);
  }
}
