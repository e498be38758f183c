/** The job protocol from end to end: the server and its agents joined by channels that may lose
    messages but neither repeat, reorder nor invent them. */
module Protocol {
  import opened Common
  import opened Signing
  import S = JobServer
  import R = JobRuns
  import A = AgentJobs
  import T = AgentRuns

  /** An agent, how far its channel has come in the server's log, and how many of its messages the
      server has taken. */
  datatype Peer = Peer(agent: A.Agent, read: nat, told: nat)

  datatype System = System(server: R.World, peers: map<Uuid, Peer>)

  datatype Event =
    | Serve(event: R.Event)
    | Take(device: Uuid, lost: bool, verdict: Verdict)  // the next log entry, if it is for the device
    | Act(device: Uuid, action: A.Action)
    | Report(device: Uuid, lost: bool)                  // the agent's next message

  predicate HasNews(y: System, d: Uuid) { d in y.peers && y.peers[d].told < |y.peers[d].agent.out| }

  /** The agent's next message. */
  function News(y: System, d: Uuid): A.AgentMessage
    requires HasNews(y, d)
  {
    y.peers[d].agent.out[y.peers[d].told].msg
  }

  /** The server serves no completion but those that agents report. */
  ghost predicate Possible(y: System, e: Event) {
    match e
    case Serve(ev) => !ev.Complete? && R.Allowed(y.server, ev)
    case Take(d, _, _) => d in y.peers && y.peers[d].read < |y.server.jobs.log|
    case Act(d, a) => d in y.peers && !a.Receive? && !a.Revoke? && A.Enabled(y.peers[d].agent, a)
    case Report(d, _) => HasNews(y, d)
  }

  function Received(agent: A.Agent, msg: S.ServerMessage, verdict: Verdict): A.Agent {
    match msg
    case DispatchJob(id, p, _) => A.Apply(agent, A.Receive(id, p, verdict))
    case RevokeJob(id) => A.Apply(agent, A.Revoke(id))
  }

  function Told(w: R.World, d: Uuid, msg: A.AgentMessage): R.World {
    if msg.JobCompleted? then R.Step(w, R.Complete(d, msg.jobId, msg.exitCode)) else w
  }

  function AfterReport(y: System, d: Uuid, lost: bool): System
    requires HasNews(y, d)
  {
    var p := y.peers[d];
    System(if lost then y.server else Told(y.server, d, News(y, d)), y.peers[d := p.(told := p.told + 1)])
  }

  ghost function Next(y: System, e: Event): System
    requires Possible(y, e)
  {
    match e
    case Serve(ev) => y.(server := R.Step(y.server, ev))
    case Take(d, lost, verdict) =>
      var p, m := y.peers[d], y.server.jobs.log[y.peers[d].read];
      var agent := if m.device == d && !lost then Received(p.agent, m.msg, verdict) else p.agent;
      y.(peers := y.peers[d := Peer(agent, p.read + 1, p.told)])
    case Act(d, a) => y.(peers := y.peers[d := y.peers[d].(agent := A.Apply(y.peers[d].agent, a))])
    case Report(d, lost) => AfterReport(y, d, lost)
  }

  ghost function Run(y: System, events: seq<Event>): Option<System>
    decreases |events|
  {
    if events == [] then Some(y)
    else if Possible(y, events[0]) then Run(Next(y, events[0]), events[1..])
    else None
  }

  // ---- the invariant ----

  /** The job was dispatched to the device among the first `n` log entries. */
  ghost predicate Dispatched(log: seq<S.Sent>, n: nat, d: Uuid, id: Uuid) {
    exists i :: 0 <= i < n && i < |log| && log[i].device == d && R.IsDispatch(log[i], id)
  }

  ghost predicate PeerOk(p: Peer, d: Uuid, log: seq<S.Sent>) {
    && T.TasksOk(p.agent) && T.DistinctIds(p.agent)
    && p.read <= |log| && p.told <= |p.agent.out|
    && forall t :: 0 <= t < |p.agent.tasks| ==> Dispatched(log, p.read, d, p.agent.tasks[t].id)
  }

  function StatusFor(code: int): S.Status { if code == 0 then S.Completed else S.Failed }

  /** The row holds what its device's agent reported. */
  ghost predicate Reported(peers: map<Uuid, Peer>, row: S.Row) {
    row.device in peers && exists k :: 0 <= k < peers[row.device].told && TellsOf(peers[row.device], k, row)
  }

  predicate TellsOf(p: Peer, k: nat, row: S.Row) {
    k < |p.agent.out| && row.exitCode.Some? && p.agent.out[k].msg == A.JobCompleted(row.id, row.exitCode.value)
    && row.status == StatusFor(row.exitCode.value)
  }

  ghost predicate DoneOk(y: System) {
    && (forall id :: id in y.server.done ==>
          exists i :: 0 <= i < |y.server.jobs.rows| && y.server.jobs.rows[i].id == id)
    && (forall i :: 0 <= i < |y.server.jobs.rows| && y.server.jobs.rows[i].id in y.server.done ==>
          Reported(y.peers, y.server.jobs.rows[i]))
  }

  ghost predicate PeersOk(y: System) {
    forall d :: d in y.peers ==> PeerOk(y.peers[d], d, y.server.jobs.log)
  }

  ghost predicate Inv(y: System) { R.Inv(y.server) && PeersOk(y) && DoneOk(y) }

  // ---- a task completes once ----

  lemma {:induction false} TraceConcat(a: seq<A.Emission>, b: seq<A.Emission>, t: nat)
    ensures T.Trace(a + b, t) == T.Trace(a, t) + T.Trace(b, t)
  {
    if b == [] {
      assert a + b == a && T.Trace(a, t) + [] == T.Trace(a, t);
    } else {
      var init, e := b[..|b| - 1], b[|b| - 1];
      TraceConcat(a, init, t);
      assert a + b == (a + init) + [e] && b == init + [e];
      T.TraceAppend(a + init, e, t);
      T.TraceAppend(init, e, t);
      var last := if e.task == t then [e.msg] else [];
      assert (T.Trace(a, t) + T.Trace(init, t)) + last == T.Trace(a, t) + (T.Trace(init, t) + last);
    }
  }

  /** A message of the task splits its trace. */
  lemma TraceAround(out: seq<A.Emission>, k: nat, t: nat)
    requires k < |out| && out[k].task == t
    ensures T.Trace(out, t) == T.Trace(out[..k], t) + [out[k].msg] + T.Trace(out[k + 1..], t)
  {
    assert out == (out[..k] + [out[k]]) + out[k + 1..];
    TraceConcat(out[..k] + [out[k]], out[k + 1..], t);
    T.TraceAppend(out[..k], out[k], t);
  }

  /** A completion is the last message of its task, and carries the code of its cause. */
  lemma CompletionEndsTrace(task: A.Task, a: seq<A.AgentMessage>, m: A.AgentMessage, b: seq<A.AgentMessage>)
    requires T.TaskOk(task, a + [m] + b) && m.JobCompleted?
    ensures b == []
    ensures (task.pc.Sending? || task.pc.Over?) && m == A.JobCompleted(task.id, A.ExitCode(task.pc.cause))
  {
    var sent := a + [m] + b;
    assert sent[|a|] == m && m in sent;
    if task.pc.Sending? {
      assert (sent + task.pc.rest)[|a|] == m;
    }
  }

  lemma CompletesOnce(agent: A.Agent, j: nat, k: nat)
    requires T.TasksOk(agent) && T.DistinctIds(agent) && j < k < |agent.out|
    requires agent.out[j].msg.JobCompleted? && agent.out[k].msg.JobCompleted?
    ensures agent.out[j].msg.jobId != agent.out[k].msg.jobId
  {
    hide T.TaskOk, T.Trace;
    var e, f := agent.out[j], agent.out[k];
    assert e in agent.out && f in agent.out;
    if e.task == f.task {
      var t, rest := e.task, agent.out[j + 1..];
      assert rest[k - j - 1] == f;
      TraceAround(agent.out, j, t);
      TraceAround(rest, k - j - 1, t);
      assert |T.Trace(rest, t)| > 0;
      assert T.TaskOk(agent.tasks[t], T.Trace(agent.out, t));
      CompletionEndsTrace(agent.tasks[t], T.Trace(agent.out[..j], t), e.msg, T.Trace(rest, t));
      assert false;
    }
  }

  // ---- a reported completion is one the server may handle ----

  lemma FilterOne(m: S.Sent, p: S.Sent -> bool)
    ensures Filter([m], p) == if p(m) then [m] else []
  {}

  lemma DispatchedOnce(log: seq<S.Sent>, i: nat, j: nat, id: Uuid)
    requires R.Dispatches(log, id) <= 1 && i < j < |log| && R.IsDispatch(log[i], id)
    ensures !R.IsDispatch(log[j], id)
  {
    var p := (m: S.Sent) => R.IsDispatch(m, id);
    assert log == log[..j] + [log[j]] + log[j + 1..];
    FilterAppend(log[..j] + [log[j]], log[j + 1..], p);
    FilterAppend(log[..j], [log[j]], p);
    FilterMembers(log[..j], p);
    assert log[..j][i] == log[i] && log[i] in log[..j];
    assert log[i] in Filter(log[..j], p);
    FilterOne(log[j], p);
  }

  lemma SourcedRow(w: R.World, i: nat)
    requires R.Inv(w) && i < |w.jobs.log|
    ensures exists k :: 0 <= k < |w.jobs.rows| && w.jobs.rows[k].id == w.jobs.log[i].msg.jobId
                        && w.jobs.rows[k].device == w.jobs.log[i].device
  {
    var m := w.jobs.log[i];
    assert m in w.jobs.log && R.Sourced(m, w.jobs.rows, w.jobs.signer);
    var k :| 0 <= k < |w.jobs.rows| && R.About(m, w.jobs.rows[k], w.jobs.signer);
  }

  lemma SameRow(rows: seq<S.Row>, i: nat, j: nat)
    requires R.UniqueIds(rows) && i < |rows| && j < |rows| && rows[i].id == rows[j].id
    ensures i == j
  {}

  /** The job an agent reports was dispatched to its device, and has a row of that device. */
  lemma Reporter(y: System, d: Uuid) returns (i: nat, r: nat)
    requires Inv(y) && HasNews(y, d)
    requires News(y, d).JobCompleted?
    ensures var id := News(y, d).jobId;
      && i < |y.server.jobs.log| && y.server.jobs.log[i].device == d && R.IsDispatch(y.server.jobs.log[i], id)
      && r < |y.server.jobs.rows| && y.server.jobs.rows[r].id == id && y.server.jobs.rows[r].device == d
  {
    hide T.TaskOk, T.Trace, T.DistinctIds, R.Inv, DoneOk;
    var p, log := y.peers[d], y.server.jobs.log;
    var e := p.agent.out[p.told];
    assert PeerOk(p, d, log) && e in p.agent.out;
    var id := p.agent.tasks[e.task].id;
    assert id == e.msg.jobId && Dispatched(log, p.read, d, id);
    i :| 0 <= i < p.read && i < |log| && log[i].device == d && R.IsDispatch(log[i], id);
    SourcedRow(y.server, i);
    r :| 0 <= r < |y.server.jobs.rows| && y.server.jobs.rows[r].id == log[i].msg.jobId
      && y.server.jobs.rows[r].device == d;
  }

  lemma NotReportedBefore(y: System, d: Uuid, r: nat)
    requires PeersOk(y) && DoneOk(y) && HasNews(y, d)
    requires News(y, d).JobCompleted?
    requires r < |y.server.jobs.rows| && y.server.jobs.rows[r].device == d
    requires y.server.jobs.rows[r].id == News(y, d).jobId
    ensures y.server.jobs.rows[r].id !in y.server.done
  {
    hide T.TasksOk, T.DistinctIds;
    var p, row := y.peers[d], y.server.jobs.rows[r];
    assert PeerOk(p, d, y.server.jobs.log);
    if row.id in y.server.done {
      assert Reported(y.peers, row);
      var j :| 0 <= j < p.told && TellsOf(p, j, row);
      CompletesOnce(p.agent, j, p.told);
    }
  }

  /** What an agent's next message reports is a job that was dispatched to it and not reported before. */
  lemma ReportAllowed(y: System, d: Uuid)
    requires Inv(y) && HasNews(y, d)
    requires News(y, d).JobCompleted?
    ensures var m := News(y, d);
      R.Allowed(y.server, R.Complete(d, m.jobId, m.exitCode))
  {
    hide R.Inv, PeersOk, DoneOk;
    var i, r := Reporter(y, d);
    NotReportedBefore(y, d, r);
    assert y.server.jobs.log[i] in y.server.jobs.log;
  }

  // ---- the invariant is kept ----

  lemma DispatchedPersists(log: seq<S.Sent>, more: seq<S.Sent>, n: nat, n': nat, d: Uuid, id: Uuid)
    requires Dispatched(log, n, d, id) && n <= n'
    ensures Dispatched(log + more, n', d, id)
  {
    var i :| 0 <= i < n && i < |log| && log[i].device == d && R.IsDispatch(log[i], id);
    assert (log + more)[i] == log[i];
  }

  lemma PeersKept(peers: map<Uuid, Peer>, w: R.World, e: R.Event, d: Uuid)
    requires d in peers && PeerOk(peers[d], d, w.jobs.log)
    ensures PeerOk(peers[d], d, R.Step(w, e).jobs.log)
  {
    R.StepAppends(w, e);
    hide R.Step, R.NewMessages, T.TasksOk, T.DistinctIds, Dispatched;
    var p, log := peers[d], w.jobs.log;
    forall t | 0 <= t < |p.agent.tasks|
      ensures Dispatched(R.Step(w, e).jobs.log, p.read, d, p.agent.tasks[t].id)
    {
      DispatchedPersists(log, R.NewMessages(w, e), p.read, p.read, d, p.agent.tasks[t].id);
    }
  }

  lemma ReportedPersists(peers: map<Uuid, Peer>, peers': map<Uuid, Peer>, row: S.Row)
    requires Reported(peers, row) && Grown(peers, peers')
    ensures Reported(peers', row)
  {
    var p, p' := peers[row.device], peers'[row.device];
    var k :| 0 <= k < p.told && TellsOf(p, k, row);
    assert TellsOf(p', k, row);
  }

  /** No agent's message is forgotten. */
  ghost predicate Grown(peers: map<Uuid, Peer>, peers': map<Uuid, Peer>) {
    peers.Keys <= peers'.Keys
    && forall d :: d in peers ==>
         peers[d].told <= peers'[d].told && peers[d].agent.out <= peers'[d].agent.out
  }

  lemma ServeDone(y: System, e: R.Event)
    requires Inv(y) && !e.Complete? && R.Allowed(y.server, e)
    ensures DoneOk(y.(server := R.Step(y.server, e)))
  {
    R.StatusClimbs(y.server, e);
    DoneFixed(y.server, e);
    var w, w' := y.server, R.Step(y.server, e);
    hide R.Step, R.Inv, Reported, R.Allowed;
    forall i | 0 <= i < |w'.jobs.rows| && w'.jobs.rows[i].id in w'.done
      ensures Reported(y.peers, w'.jobs.rows[i])
    {
      RowOfDone(y, e, i);
    }
    forall id | id in w'.done
      ensures exists i :: 0 <= i < |w'.jobs.rows| && w'.jobs.rows[i].id == id
    {
      var i :| 0 <= i < |w.jobs.rows| && w.jobs.rows[i].id == id;
      assert w'.jobs.rows[i].id == id;
    }
  }

  lemma DoneFixed(w: R.World, e: R.Event)
    ensures R.Step(w, e).done == if e.Complete? then w.done + {e.id} else w.done
  {
    hide S.AfterCreate, S.AfterCancel, S.AfterDrain, S.AfterComplete;
  }

  lemma RowOfDone(y: System, e: R.Event, i: nat)
    requires Inv(y) && R.Allowed(y.server, e)
    requires i < |R.Step(y.server, e).jobs.rows| && !R.Completes(e, R.Step(y.server, e).jobs.rows[i].id)
    requires R.Step(y.server, e).jobs.rows[i].id in y.server.done
    ensures i < |y.server.jobs.rows| && R.Step(y.server, e).jobs.rows[i] == y.server.jobs.rows[i]
    ensures Reported(y.peers, y.server.jobs.rows[i])
  {
    R.InvPreserved(y.server, e);
    R.StatusClimbs(y.server, e);
    hide R.Step, R.Allowed;
    var rows, rows' := y.server.jobs.rows, R.Step(y.server, e).jobs.rows;
    var k :| 0 <= k < |rows| && rows[k].id == rows'[i].id;
    assert rows'[k].id == rows[k].id;
    SameRow(rows', i, k);
    assert Reported(y.peers, rows[k]);
    R.OverRowStays(y.server, e, k);
  }

  /** The reporter's row after its report. */
  lemma ReportedRow(y: System, d: Uuid, r: nat)
    requires Inv(y) && HasNews(y, d) && News(y, d).JobCompleted?
    requires r < |y.server.jobs.rows| && y.server.jobs.rows[r].device == d
    requires y.server.jobs.rows[r].id == News(y, d).jobId
    ensures var y', row := AfterReport(y, d, false), y.server.jobs.rows[r];
      && r < |y'.server.jobs.rows| && y'.server.jobs.rows[r].id == row.id
      && y'.server.done == y.server.done + {row.id}
      && Reported(y'.peers, y'.server.jobs.rows[r])
  {
    hide R.Inv, PeersOk, DoneOk;
    var p := y.peers[d];
    var m := p.agent.out[p.told].msg;
    var e := R.Complete(d, m.jobId, m.exitCode);
    ReportAllowed(y, d);
    R.StatusClimbs(y.server, e);
    DoneFixed(y.server, e);
    R.CompletionOverwrites(y.server, e, r);
    hide R.Step, R.Allowed;
    var row' := R.Step(y.server, e).jobs.rows[r];
    assert row'.id == m.jobId && row'.device == d;
    var p' := p.(told := p.told + 1);
    assert TellsOf(p', p.told, row') && AfterReport(y, d, false).peers[d] == p';
  }

  /** A report that gets through is recorded: the job's row, of that agent's device, holds its code and is completed
      exactly for code 0. */
  lemma ReportIsRecorded(y: System, d: Uuid) returns (r: nat)
    requires Inv(y) && HasNews(y, d) && News(y, d).JobCompleted?
    ensures var m, rows := News(y, d), AfterReport(y, d, false).server.jobs.rows;
      && r < |rows| && rows[r].id == m.jobId && rows[r].device == d
      && rows[r].exitCode == Some(m.exitCode)
      && rows[r].status == if m.exitCode == 0 then S.Completed else S.Failed
  {
    hide R.Inv, PeersOk, DoneOk;
    var m := News(y, d);
    var e := R.Complete(d, m.jobId, m.exitCode);
    var _, k := Reporter(y, d);
    r := k;
    ReportAllowed(y, d);
    R.CompletionOverwrites(y.server, e, r);
    R.StatusClimbs(y.server, e);
    hide R.Step, R.Allowed;
  }

  lemma ReportDone(y: System, d: Uuid)
    requires Inv(y) && HasNews(y, d)
    requires News(y, d).JobCompleted?
    ensures R.Inv(AfterReport(y, d, false).server) && DoneOk(AfterReport(y, d, false))
  {
    hide R.Inv, R.Step, R.Allowed, PeersOk, Reported;
    var m := News(y, d);
    var e, y' := R.Complete(d, m.jobId, m.exitCode), AfterReport(y, d, false);
    var _, r := Reporter(y, d);
    ReportAllowed(y, d);
    ReportedRow(y, d, r);
    R.InvPreserved(y.server, e);
    R.StatusClimbs(y.server, e);
    UniqueRows(y'.server);
    var rows, rows' := y.server.jobs.rows, y'.server.jobs.rows;
    forall i | 0 <= i < |rows'| && rows'[i].id in y'.server.done
      ensures Reported(y'.peers, rows'[i])
    {
      if rows'[i].id == m.jobId {
        SameRow(rows', i, r);
      } else {
        RowOfDone(y, e, i);
        ReportedPersists(y.peers, y'.peers, rows[i]);
      }
    }
    forall id | id in y'.server.done
      ensures exists i :: 0 <= i < |rows'| && rows'[i].id == id
    {
      if id != m.jobId {
        var i :| 0 <= i < |rows| && rows[i].id == id;
        assert rows'[i].id == id;
      }
    }
  }

  lemma UniqueRows(w: R.World)
    requires R.Inv(w)
    ensures R.UniqueIds(w.jobs.rows)
  {}

  lemma ServePeers(y: System, e: R.Event)
    requires PeersOk(y)
    ensures PeersOk(y.(server := R.Step(y.server, e)))
  {
    hide R.Step, PeerOk;
    forall d | d in y.peers
      ensures PeerOk(y.peers[d], d, R.Step(y.server, e).jobs.log)
    {
      PeersKept(y.peers, y.server, e, d);
    }
  }

  /** A dispatch is new to the agent that takes it. */
  lemma TakeIsNew(p: Peer, d: Uuid, log: seq<S.Sent>, t: nat)
    requires PeerOk(p, d, log) && p.read < |log| && log[p.read].msg.DispatchJob? && t < |p.agent.tasks|
    requires R.Dispatches(log, log[p.read].msg.jobId) <= 1
    ensures p.agent.tasks[t].id != log[p.read].msg.jobId
  {
    hide T.TasksOk, R.Dispatches;
    assert Dispatched(log, p.read, d, p.agent.tasks[t].id);
    var i :| 0 <= i < p.read && i < |log| && log[i].device == d && R.IsDispatch(log[i], p.agent.tasks[t].id);
    if p.agent.tasks[t].id == log[p.read].msg.jobId {
      DispatchedOnce(log, i, p.read, log[p.read].msg.jobId);
    }
  }

  lemma TakeDispatch(p: Peer, d: Uuid, log: seq<S.Sent>, verdict: Verdict)
    requires PeerOk(p, d, log) && p.read < |log| && log[p.read].device == d && log[p.read].msg.DispatchJob?
    requires R.Dispatches(log, log[p.read].msg.jobId) <= 1
    ensures PeerOk(Peer(Received(p.agent, log[p.read].msg, verdict), p.read + 1, p.told), d, log)
    ensures Received(p.agent, log[p.read].msg, verdict).out == p.agent.out
  {
    hide T.TasksOk, A.TaskStep, A.TaskEnabled, A.LastMessages, R.Dispatches;
    var m := log[p.read];
    var a := A.Receive(m.msg.jobId, m.msg.payload, verdict);
    T.StepOk(p.agent, a);
    var agent := A.Apply(p.agent, a);
    forall t | 0 <= t < |p.agent.tasks|
      ensures p.agent.tasks[t].id != m.msg.jobId
    {
      TakeIsNew(p, d, log, t);
    }
    var n := p.read + 1;
    forall t | 0 <= t < |agent.tasks|
      ensures Dispatched(log, n, d, agent.tasks[t].id)
    {
      if t < |p.agent.tasks| {
        DispatchedPersists(log, [], p.read, n, d, p.agent.tasks[t].id);
        assert log + [] == log;
      } else {
        assert R.IsDispatch(log[p.read], agent.tasks[t].id);
      }
    }
  }

  lemma SkipEntry(p: Peer, d: Uuid, log: seq<S.Sent>)
    requires PeerOk(p, d, log) && p.read < |log|
    ensures PeerOk(p.(read := p.read + 1), d, log)
  {
    hide T.TasksOk, T.DistinctIds;
    var n := p.read + 1;
    forall t | 0 <= t < |p.agent.tasks|
      ensures Dispatched(log, n, d, p.agent.tasks[t].id)
    {
      DispatchedPersists(log, [], p.read, n, d, p.agent.tasks[t].id);
      assert log + [] == log;
    }
  }

  lemma TakeRevoke(p: Peer, d: Uuid, log: seq<S.Sent>, id: Uuid)
    requires PeerOk(p, d, log)
    ensures var agent := A.Apply(p.agent, A.Revoke(id));
      agent.out == p.agent.out && PeerOk(p.(agent := agent), d, log)
  {
    hide T.TasksOk, Dispatched, A.TaskStep, A.TaskEnabled;
    T.StepOk(p.agent, A.Revoke(id));
  }

  lemma AtMostOneDispatch(w: R.World, id: Uuid)
    requires R.Inv(w)
    ensures R.Dispatches(w.jobs.log, id) <= 1
  {
    hide R.RowsOk, R.NoDispatchAfterRevoke, R.Sourced, R.Dispatches;
  }

  lemma EntryTaken(p: Peer, d: Uuid, log: seq<S.Sent>, verdict: Verdict)
    requires PeerOk(p, d, log) && p.read < |log| && log[p.read].device == d
    requires log[p.read].msg.DispatchJob? ==> R.Dispatches(log, log[p.read].msg.jobId) <= 1
    ensures var agent := Received(p.agent, log[p.read].msg, verdict);
      PeerOk(Peer(agent, p.read + 1, p.told), d, log) && agent.out == p.agent.out
  {
    hide PeerOk, A.Apply, R.Dispatches;
    match log[p.read].msg
    case DispatchJob(_, _, _) => TakeDispatch(p, d, log, verdict);
    case RevokeJob(id) =>
      TakeRevoke(p, d, log, id);
      SkipEntry(p.(agent := A.Apply(p.agent, A.Revoke(id))), d, log);
  }

  lemma TakeOk(y: System, e: Event)
    requires Inv(y) && Possible(y, e) && e.Take?
    ensures var p' := Next(y, e).peers[e.device];
      PeerOk(p', e.device, y.server.jobs.log) && p'.told == y.peers[e.device].told
        && p'.agent.out == y.peers[e.device].agent.out
  {
    hide PeerOk, DoneOk, R.Inv, R.Dispatches, Received;
    var p, log := y.peers[e.device], y.server.jobs.log;
    assert PeerOk(p, e.device, log);
    hide PeersOk;
    AtMostOneDispatch(y.server, log[p.read].msg.jobId);
    if log[p.read].device == e.device && !e.lost {
      EntryTaken(p, e.device, log, e.verdict);
    } else {
      SkipEntry(p, e.device, log);
    }
  }

  lemma ActOk(p: Peer, d: Uuid, log: seq<S.Sent>, a: A.Action)
    requires PeerOk(p, d, log) && !a.Receive? && !a.Revoke? && A.Enabled(p.agent, a)
    ensures PeerOk(p.(agent := A.Apply(p.agent, a)), d, log)
    ensures p.agent.out <= A.Apply(p.agent, a).out
  {
    hide T.TasksOk, Dispatched, A.TaskStep, A.TaskEnabled, T.NewMessages;
    T.StepOk(p.agent, a);
    T.TaskStepFrame(p.agent, a);
    hide A.Apply;
    var agent := A.Apply(p.agent, a);
    assert forall t :: 0 <= t < |agent.tasks| ==> agent.tasks[t].id == p.agent.tasks[t].id;
  }

  lemma PeersReplaced(y: System, d: Uuid, p': Peer)
    requires Inv(y) && d in y.peers && PeerOk(p', d, y.server.jobs.log)
    requires y.peers[d].told <= p'.told && y.peers[d].agent.out <= p'.agent.out
    ensures Inv(y.(peers := y.peers[d := p']))
  {
    hide PeerOk, R.Inv, Reported;
    var peers' := y.peers[d := p'];
    assert Grown(y.peers, peers');
    forall i | 0 <= i < |y.server.jobs.rows| && y.server.jobs.rows[i].id in y.server.done
      ensures Reported(peers', y.server.jobs.rows[i])
    {
      ReportedPersists(y.peers, peers', y.server.jobs.rows[i]);
    }
  }

  lemma ReportPeer(p: Peer, d: Uuid, log: seq<S.Sent>)
    requires PeerOk(p, d, log) && p.told < |p.agent.out|
    ensures PeerOk(p.(told := p.told + 1), d, log)
  {
    hide T.TasksOk, T.DistinctIds, Dispatched;
  }

  lemma ReportOk(y: System, d: Uuid, lost: bool)
    requires Inv(y) && HasNews(y, d)
    ensures Inv(AfterReport(y, d, lost))
  {
    hide R.Inv, R.Step, PeerOk, DoneOk;
    var p := y.peers[d];
    var m := p.agent.out[p.told].msg;
    assert PeerOk(p, d, y.server.jobs.log);
    ReportPeer(p, d, y.server.jobs.log);
    if lost || !m.JobCompleted? {
      PeersReplaced(y, d, p.(told := p.told + 1));
    } else {
      ReportDone(y, d);
      ServePeers(y.(peers := y.peers[d := p.(told := p.told + 1)]), R.Complete(d, m.jobId, m.exitCode));
    }
  }

  lemma InvKept(y: System, e: Event)
    requires Inv(y) && Possible(y, e)
    ensures Inv(Next(y, e))
  {
    hide R.Inv, R.Step, R.Allowed, PeerOk, DoneOk, A.Apply, A.Enabled;
    match e
    case Serve(ev) =>
      R.InvPreserved(y.server, ev);
      ServePeers(y, ev);
      ServeDone(y, ev);
    case Take(d, _, _) =>
      TakeOk(y, e);
      PeersReplaced(y, d, Next(y, e).peers[d]);
    case Act(d, a) =>
      assert PeerOk(y.peers[d], d, y.server.jobs.log);
      ActOk(y.peers[d], d, y.server.jobs.log, a);
      PeersReplaced(y, d, Next(y, e).peers[d]);
    case Report(d, lost) => ReportOk(y, d, lost);
  }

  // ---- whole runs ----

  lemma {:induction false} RunInv(y: System, events: seq<Event>)
    requires Inv(y) && Run(y, events).Some?
    ensures Inv(Run(y, events).value)
    decreases |events|
  {
    hide Inv, Next, Possible;
    if events != [] {
      InvKept(y, events[0]);
      RunInv(Next(y, events[0]), events[1..]);
    }
  }

  ghost predicate Start(y: System) {
    && (exists devices, signer :: y.server == R.Initial(devices, signer))
    && forall d :: d in y.peers ==> y.peers[d] == Peer(A.Initial(y.peers[d].agent.windows, y.peers[d].agent.key), 0, 0)
  }

  lemma StartInv(y: System)
    requires Start(y)
    ensures Inv(y)
  {
    hide R.Inv, PeerOk, Reported;
    var devices, signer :| y.server == R.Initial(devices, signer);
    R.InitialInv(devices, signer);
    forall d | d in y.peers
      ensures PeerOk(y.peers[d], d, y.server.jobs.log)
    {
      FreshPeerOk(y.peers[d].agent.windows, y.peers[d].agent.key, d, y.server.jobs.log);
    }
    hide Start;
  }

  lemma FreshPeerOk(windows: bool, key: StoredKey, d: Uuid, log: seq<S.Sent>)
    ensures PeerOk(Peer(A.Initial(windows, key), 0, 0), d, log)
  {
    hide T.TasksOk, Dispatched;
    T.InitialOk(windows, key);
  }

  lemma StepClimbs(y: System, e: Event)
    requires Inv(y) && Possible(y, e)
    ensures R.Climbs(y.server.jobs.rows, Next(y, e).server.jobs.rows)
  {
    hide R.Climbs, R.Inv, R.Step, R.Allowed, PeersOk, DoneOk, A.Apply, A.Enabled;
    R.ClimbsReflexive(y.server.jobs.rows);
    match e
    case Serve(ev) => R.StatusClimbs(y.server, ev);
    case Report(d, lost) =>
      var m := News(y, d);
      if !lost && m.JobCompleted? {
        ReportAllowed(y, d);
        R.StatusClimbs(y.server, R.Complete(d, m.jobId, m.exitCode));
      }
    case _ =>
  }

  lemma {:induction false} StatusesClimb(y: System, events: seq<Event>)
    requires Inv(y) && Run(y, events).Some?
    ensures R.Climbs(y.server.jobs.rows, Run(y, events).value.server.jobs.rows)
    decreases |events|
  {
    hide Inv, Next, Possible, R.Climbs;
    if events == [] {
      R.ClimbsReflexive(y.server.jobs.rows);
    } else {
      var mid := Next(y, events[0]);
      StepClimbs(y, events[0]);
      InvKept(y, events[0]);
      StatusesClimb(mid, events[1..]);
      R.ClimbsTransitive(y.server.jobs.rows, mid.server.jobs.rows, Run(y, events).value.server.jobs.rows);
    }
  }

  /** In every run of the whole system, with nothing supposed about what agents report, each job's status only
      climbs between any two moments, it is dispatched at most once and never after its revocation. */
  lemma JobsOnlyClimb(y: System, before: seq<Event>, after: seq<Event>)
    requires Start(y) && Run(y, before).Some? && Run(Run(y, before).value, after).Some?
    ensures var mid := Run(y, before).value;
      var end := Run(mid, after).value;
      && R.Climbs(mid.server.jobs.rows, end.server.jobs.rows)
      && (forall id: Uuid :: R.Dispatches(end.server.jobs.log, id) <= 1)
      && R.NoDispatchAfterRevoke(end.server.jobs.log)
  {
    hide Run, R.Climbs, R.Dispatches, R.NoDispatchAfterRevoke, PeersOk, DoneOk, R.RowsOk;
    StartInv(y);
    RunInv(y, before);
    StatusesClimb(Run(y, before).value, after);
    RunInv(Run(y, before).value, after);
  }

  /** How the task of a finished row ended. */
  ghost predicate EndedBy(task: A.Task, row: S.Row) {
    && task.id == row.id && (task.pc.Sending? || task.pc.Over?)
    && row.exitCode == Some(match task.pc.cause
                           case Killed => -4
                           case Rejected(_) => -3
                           case TimedOut => -2
                           case Exited(Some(code)) => code
                           case Inventoried => 0
                           case Wrote(_) => 0
                           case _ => -1)
    && (row.status == S.Completed <==>
          task.pc.cause == A.Exited(Some(0)) || task.pc.cause == A.Inventoried || task.pc.cause.Wrote?)
  }

  lemma TaskOfReport(p: Peer, k: nat, row: S.Row)
    requires T.TasksOk(p.agent) && TellsOf(p, k, row)
    ensures exists t :: 0 <= t < |p.agent.tasks| && EndedBy(p.agent.tasks[t], row)
  {
    hide T.TaskOk, T.Trace;
    var e := p.agent.out[k];
    assert e in p.agent.out;
    var t := e.task;
    TraceAround(p.agent.out, k, t);
    assert T.TaskOk(p.agent.tasks[t], T.Trace(p.agent.out, t));
    CompletionEndsTrace(p.agent.tasks[t], T.Trace(p.agent.out[..k], t), e.msg, T.Trace(p.agent.out[k + 1..], t));
    assert EndedBy(p.agent.tasks[t], row);
  }

  /** In every run of the whole system, a finished row tells how the job's task on its own device ended: its
      exit code is that of the task's cause, and it is completed exactly for a zero exit, an inventory or
      a written file. */
  lemma FinishedRowTellsItsTask(y: System, events: seq<Event>, i: nat)
    requires Start(y) && Run(y, events).Some?
    requires var rows := Run(y, events).value.server.jobs.rows; i < |rows| && S.Finished(rows[i].status)
    ensures var end := Run(y, events).value;
      var row := end.server.jobs.rows[i];
      row.device in end.peers
      && exists t :: 0 <= t < |end.peers[row.device].agent.tasks| && EndedBy(end.peers[row.device].agent.tasks[t], row)
  {
    hide Run, T.TasksOk, T.DistinctIds, Dispatched, TellsOf, EndedBy;
    StartInv(y);
    RunInv(y, events);
    var end := Run(y, events).value;
    var row := end.server.jobs.rows[i];
    FinishedIsDone(end.server, i);
    assert Reported(end.peers, row);
    var p := end.peers[row.device];
    var k :| 0 <= k < p.told && TellsOf(p, k, row);
    assert PeerOk(p, row.device, end.server.jobs.log);
    TaskOfReport(p, k, row);
  }

  lemma FinishedIsDone(w: R.World, i: nat)
    requires R.Inv(w) && i < |w.jobs.rows| && S.Finished(w.jobs.rows[i].status)
    ensures w.jobs.rows[i].id in w.done
  {
    assert w.jobs.rows[i] in w.jobs.rows;
  }
}
