/** Server, agents and a network that may drop, reorder, replay or alter messages:
    what an agent executes was inserted by `create_job`. */
module Network {
  import opened Common
  import opened Json
  import opened Payloads
  import opened Signing
  import S = JobServer
  import R = JobRuns
  import A = AgentJobs
  import T = AgentRuns

  datatype System = System(server: R.World, agents: map<Uuid, A.Agent>)

  datatype Event =
    | Serve(event: R.Event)
    | Deliver(device: Uuid, id: Uuid, payload: JobPayload, signature: Signature)
    | Act(device: Uuid, action: A.Action)

  /** The network can attach any signature it has seen on any channel, or one the server never made. */
  ghost predicate Obtainable(log: seq<S.Sent>, sig: Signature) {
    || sig == Empty
    || sig == Foreign
    || exists m :: m in log && m.msg.DispatchJob? && m.msg.signature == sig
  }

  /** The server handles any request and any agent message, replayed, altered or forged; revocations
      carry no signature, so the network may invent them; jobs arrive by `Deliver` only. */
  ghost predicate Possible(y: System, e: Event) {
    match e
    case Serve(_) => true
    case Deliver(d, _, _, sig) => d in y.agents && Obtainable(y.server.jobs.log, sig)
    case Act(d, a) => d in y.agents && !a.Receive? && A.Enabled(y.agents[d], a)
  }

  ghost function Next(y: System, e: Event): System
    requires Possible(y, e)
  {
    match e
    case Serve(ev) => y.(server := R.Step(y.server, ev))
    case Deliver(d, id, p, sig) =>
      y.(agents := y.agents[d := A.Apply(y.agents[d], A.Receive(id, p, VerifyJob(y.agents[d].key, id, p, sig)))])
    case Act(d, a) => y.(agents := y.agents[d := A.Apply(y.agents[d], a)])
  }

  ghost function Run(y: System, events: seq<Event>): Option<System>
    decreases |events|
  {
    if events == [] then Some(y)
    else if Possible(y, events[0]) then Run(Next(y, events[0]), events[1..])
    else None
  }

  /** A row with this id whose payload parses to this job. */
  ghost predicate Inserted(rows: seq<S.Row>, id: Uuid, p: JobPayload) {
    exists i :: 0 <= i < |rows| && rows[i].id == id && FromJson(rows[i].payload) == Some(p)
  }

  /** Such a row of one device. */
  ghost predicate Owned(rows: seq<S.Row>, d: Uuid, id: Uuid, p: JobPayload) {
    exists i :: 0 <= i < |rows| && rows[i].device == d && rows[i].id == id && FromJson(rows[i].payload) == Some(p)
  }

  lemma OwnedIsInserted(rows: seq<S.Row>, d: Uuid, id: Uuid, p: JobPayload)
    requires Owned(rows, d, id, p)
    ensures Inserted(rows, id, p)
  {
    hide FromJson;
  }

  ghost predicate Backed(tasks: seq<A.Task>, rows: seq<S.Row>) {
    forall t :: 0 <= t < |tasks| && tasks[t].accepted ==> Inserted(rows, tasks[t].id, tasks[t].payload)
  }

  /** The server signs only what it inserted. */
  ghost predicate Signed(s: S.Jobs) {
    forall m :: m in s.log && m.msg.DispatchJob? ==> SignedFor(m, s.rows, s.signer)
  }

  ghost predicate SignedFor(m: S.Sent, rows: seq<S.Row>, signer: bool)
    requires m.msg.DispatchJob?
  {
    && Owned(rows, m.device, m.msg.jobId, m.msg.payload)
    && m.msg.signature == SignJob(signer, m.msg.jobId, m.msg.payload)
  }

  ghost predicate Inv(y: System) {
    && Signed(y.server.jobs)
    && forall d :: d in y.agents ==> T.TasksOk(y.agents[d]) && Backed(y.agents[d].tasks, y.server.jobs.rows)
  }

  // ---- the server, whatever it is asked ----

  /** No row is lost, and none changes its id, device or payload. */
  ghost predicate Keeps(rows: seq<S.Row>, rows': seq<S.Row>) {
    && |rows| <= |rows'|
    && forall i :: 0 <= i < |rows| ==>
         rows'[i].id == rows[i].id && rows'[i].device == rows[i].device && rows'[i].payload == rows[i].payload
  }

  lemma StepKeeps(w: R.World, e: R.Event)
    ensures Keeps(w.jobs.rows, R.Step(w, e).jobs.rows)
  {
    hide FromJson, SignJob, S.FindRow, S.DueMessages, S.DueIds;
  }

  lemma InsertedPersists(rows: seq<S.Row>, rows': seq<S.Row>, id: Uuid, p: JobPayload)
    requires Inserted(rows, id, p) && Keeps(rows, rows')
    ensures Inserted(rows', id, p)
  {
    hide FromJson;
    var i :| 0 <= i < |rows| && rows[i].id == id && FromJson(rows[i].payload) == Some(p);
    assert rows'[i].id == id && rows'[i].payload == rows[i].payload;
  }

  lemma OwnedPersists(rows: seq<S.Row>, rows': seq<S.Row>, d: Uuid, id: Uuid, p: JobPayload)
    requires Owned(rows, d, id, p) && Keeps(rows, rows')
    ensures Owned(rows', d, id, p)
  {
    hide FromJson;
    var i :| 0 <= i < |rows| && rows[i].device == d && rows[i].id == id && FromJson(rows[i].payload) == Some(p);
    assert rows'[i].id == id && rows'[i].device == d && rows'[i].payload == rows[i].payload;
  }

  lemma NewMessageSigned(w: R.World, e: R.Event, m: S.Sent)
    requires m in R.NewMessages(w, e) && m.msg.DispatchJob?
    ensures SignedFor(m, R.Step(w, e).jobs.rows, w.jobs.signer)
  {
    hide FromJson, SignJob, S.FindRow, S.DueMessages, S.DueIds;
    var rows, rows' := w.jobs.rows, R.Step(w, e).jobs.rows;
    match e
    case Create(_, _, _) => assert rows'[|rows|].id == m.msg.jobId && rows'[|rows|].device == m.device;
    case Drain(d) =>
      R.DueMessagesSources(rows, d, w.jobs.signer);
      var i :| 0 <= i < |rows| && S.Due(rows[i], d)
        && m == S.Dispatch(rows[i], FromJson(rows[i].payload).value, w.jobs.signer);
      assert rows'[i].id == rows[i].id && rows'[i].device == d && rows'[i].payload == rows[i].payload;
    case _ =>
  }

  lemma SignedPreserved(w: R.World, e: R.Event)
    requires Signed(w.jobs)
    ensures Signed(R.Step(w, e).jobs)
  {
    R.StepAppends(w, e);
    StepKeeps(w, e);
    hide R.Step, R.NewMessages, SignJob, Keeps, Owned;
    var s' := R.Step(w, e).jobs;
    forall m | m in s'.log && m.msg.DispatchJob?
      ensures SignedFor(m, s'.rows, s'.signer)
    {
      if m in w.jobs.log {
        OwnedPersists(w.jobs.rows, s'.rows, m.device, m.msg.jobId, m.msg.payload);
      } else {
        NewMessageSigned(w, e, m);
      }
    }
  }

  lemma BackedPersists(tasks: seq<A.Task>, rows: seq<S.Row>, rows': seq<S.Row>)
    requires Backed(tasks, rows) && Keeps(rows, rows')
    ensures Backed(tasks, rows')
  {
    hide Inserted, Keeps;
    forall t | 0 <= t < |tasks| && tasks[t].accepted
      ensures Inserted(rows', tasks[t].id, tasks[t].payload)
    {
      InsertedPersists(rows, rows', tasks[t].id, tasks[t].payload);
    }
  }

  /** Verification passes only for a job that the server signed, and it signs only what it inserted. */
  lemma AcceptedWasInserted(y: System, key: StoredKey, id: Uuid, p: JobPayload, sig: Signature)
    requires Inv(y) && Obtainable(y.server.jobs.log, sig)
    requires VerifyJob(key, id, p, sig) == Accepted
    ensures Inserted(y.server.jobs.rows, id, p)
  {
    hide FromJson, SigningBytes, Inserted, Owned;
    var s := y.server.jobs;
    var m :| m in s.log && m.msg.DispatchJob? && m.msg.signature == sig;
    assert SignedFor(m, s.rows, s.signer);
    SigningBytesInjective(id, p, m.msg.jobId, m.msg.payload);
    OwnedIsInserted(s.rows, m.device, id, p);
  }

  lemma InvPreserved(y: System, e: Event)
    requires Inv(y) && Possible(y, e)
    ensures Inv(Next(y, e))
  {
    hide Signed, R.Step, T.TasksOk, A.TaskStep, A.TaskEnabled, VerifyJob, FromJson, Backed, A.LastMessages, Keeps;
    match e
    case Serve(ev) =>
      StepKeeps(y.server, ev);
      SignedPreserved(y.server, ev);
      forall d | d in y.agents
        ensures Backed(y.agents[d].tasks, Next(y, e).server.jobs.rows)
      {
        BackedPersists(y.agents[d].tasks, y.server.jobs.rows, Next(y, e).server.jobs.rows);
      }
    case Deliver(d, id, p, sig) =>
      T.StepOk(y.agents[d], A.Receive(id, p, VerifyJob(y.agents[d].key, id, p, sig)));
      ReceiveBacked(y, e);
    case Act(d, a) =>
      T.StepOk(y.agents[d], a);
      ActBacked(y, e);
  }

  lemma ReceiveBacked(y: System, e: Event)
    requires Inv(y) && Possible(y, e) && e.Deliver?
    ensures Backed(Next(y, e).agents[e.device].tasks, y.server.jobs.rows)
  {
    hide Signed, T.TasksOk, VerifyJob, FromJson, A.LastMessages, A.TaskStep, A.TaskEnabled, Inserted;
    var agent := y.agents[e.device];
    if VerifyJob(agent.key, e.id, e.payload, e.signature) == Accepted {
      AcceptedWasInserted(y, agent.key, e.id, e.payload, e.signature);
    }
    var tasks := Next(y, e).agents[e.device].tasks;
    forall t | 0 <= t < |tasks| && tasks[t].accepted
      ensures Inserted(y.server.jobs.rows, tasks[t].id, tasks[t].payload)
    {
      if t < |agent.tasks| {
        assert tasks[t] == agent.tasks[t];
      }
    }
  }

  lemma ActBacked(y: System, e: Event)
    requires Inv(y) && Possible(y, e) && e.Act?
    ensures Backed(Next(y, e).agents[e.device].tasks, y.server.jobs.rows)
  {
    hide Signed, T.TasksOk, FromJson, VerifyJob, A.TaskStep, A.TaskEnabled, Inserted, Obtainable;
    var agent := y.agents[e.device];
    if !e.action.Revoke? {
      T.TaskStepFrame(agent, e.action);
      hide A.Apply;
      assert Next(y, e).agents[e.device] == A.Apply(agent, e.action);
    }
  }

  lemma {:induction false} RunInv(y: System, events: seq<Event>)
    requires Inv(y) && Run(y, events).Some?
    ensures Inv(Run(y, events).value)
    decreases |events|
  {
    hide Inv, Next, Possible;
    if events != [] {
      InvPreserved(y, events[0]);
      RunInv(Next(y, events[0]), events[1..]);
    }
  }

  /** A task got past verification: it is running, has run, or failed to spawn. */
  predicate Executed(task: A.Task) {
    !((task.pc.Sending? || task.pc.Over?) && task.pc.cause.Rejected?)
  }

  /** Whatever the network does in either direction, every (job id, payload) an agent executes is
      that of a row that `create_job` inserted. */
  lemma ExecutedJobsWereCreated(devices: set<Uuid>, signer: bool, agents: map<Uuid, A.Agent>, events: seq<Event>,
      d: Uuid, t: nat)
    requires forall x :: x in agents ==> agents[x] == A.Initial(agents[x].windows, agents[x].key)
    requires Run(System(R.Initial(devices, signer), agents), events).Some?
    requires var y := Run(System(R.Initial(devices, signer), agents), events).value;
      d in y.agents && t < |y.agents[d].tasks| && Executed(y.agents[d].tasks[t])
    ensures var y := Run(System(R.Initial(devices, signer), agents), events).value;
      Inserted(y.server.jobs.rows, y.agents[d].tasks[t].id, y.agents[d].tasks[t].payload)
  {
    hide Run, FromJson, SignJob, T.Trace, T.Finished, A.LastMessages, S.AfterCreate;
    var y0 := System(R.Initial(devices, signer), agents);
    forall x | x in agents
      ensures T.TasksOk(agents[x])
    {
      T.InitialOk(agents[x].windows, agents[x].key);
    }
    RunInv(y0, events);
    var y := Run(y0, events).value;
    assert T.TaskOk(y.agents[d].tasks[t], T.Trace(y.agents[d].out, t));
  }

  /** An agent without the server's key, or a server without a signer, executes nothing. */
  lemma NoKeyNoExecution(y: System, d: Uuid, id: Uuid, p: JobPayload, sig: Signature)
    requires Inv(y) && d in y.agents && Obtainable(y.server.jobs.log, sig)
    requires y.agents[d].key != ServerKey || !y.server.jobs.signer
    ensures VerifyJob(y.agents[d].key, id, p, sig) != Accepted
  {
    hide FromJson, SigningBytes;
    var s := y.server.jobs;
    if exists m :: m in s.log && m.msg.DispatchJob? && m.msg.signature == sig {
      var m :| m in s.log && m.msg.DispatchJob? && m.msg.signature == sig;
      assert SignedFor(m, s.rows, s.signer);
    }
  }

  /** An unaltered delivery to an agent holding the server's key is executed: the signature
      the server attached verifies. */
  lemma HonestDeliveryAccepted(y: System, m: S.Sent)
    requires Inv(y) && y.server.jobs.signer && m in y.server.jobs.log && m.msg.DispatchJob?
    ensures VerifyJob(ServerKey, m.msg.jobId, m.msg.payload, m.msg.signature) == Accepted
  {
    hide FromJson, SigningBytes;
    assert SignedFor(m, y.server.jobs.rows, y.server.jobs.signer);
  }

  /** The cause of a finished task decides the row's final status: `completed` for a zero exit,
      an inventory or a written file, `failed` for everything else. */
  lemma StatusTellsOutcome(s: S.Jobs, id: Uuid, c: A.Cause, i: nat)
    requires i < |s.rows| && s.rows[i].id == id
    ensures S.AfterComplete(s, id, A.ExitCode(c)).rows[i].status
              == if c == A.Exited(Some(0)) || c == A.Inventoried || c.Wrote? then S.Completed else S.Failed
  {}

  // ---- whose jobs an agent executes ----

  /** The signature was sent to this device. */
  ghost predicate SentTo(log: seq<S.Sent>, d: Uuid, sig: Signature) {
    exists m :: m in log && m.device == d && m.msg.DispatchJob? && m.msg.signature == sig
  }

  lemma SentIsOwned(s: S.Jobs, d: Uuid, key: StoredKey, id: Uuid, p: JobPayload, sig: Signature)
    requires Signed(s) && SentTo(s.log, d, sig) && VerifyJob(key, id, p, sig) == Accepted
    ensures Owned(s.rows, d, id, p)
  {
    hide FromJson, SigningBytes, Owned;
    var m :| m in s.log && m.device == d && m.msg.DispatchJob? && m.msg.signature == sig;
    assert SignedFor(m, s.rows, s.signer);
    SigningBytesInjective(id, p, m.msg.jobId, m.msg.payload);
  }

  /** The signing bytes name no device. With distinct row ids, an accepted delivery is of a job of the agent's
      own device if and only if its signature was sent to that device. */
  lemma OwnJobIffSentToIt(y: System, d: Uuid, key: StoredKey, id: Uuid, p: JobPayload, sig: Signature)
    requires Inv(y) && R.UniqueIds(y.server.jobs.rows) && Obtainable(y.server.jobs.log, sig)
    requires VerifyJob(key, id, p, sig) == Accepted
    ensures Owned(y.server.jobs.rows, d, id, p) <==> SentTo(y.server.jobs.log, d, sig)
  {
    hide FromJson, SigningBytes, SignJob;
    var s := y.server.jobs;
    var m :| m in s.log && m.msg.DispatchJob? && m.msg.signature == sig;
    assert SentTo(s.log, m.device, sig);
    SentIsOwned(s, m.device, key, id, p, sig);
    if SentTo(s.log, d, sig) {
      SentIsOwned(s, d, key, id, p, sig);
    }
    if Owned(s.rows, d, id, p) {
      var i :| 0 <= i < |s.rows| && s.rows[i].device == d && s.rows[i].id == id
        && FromJson(s.rows[i].payload) == Some(p);
      var k :| 0 <= k < |s.rows| && s.rows[k].device == m.device && s.rows[k].id == id
        && FromJson(s.rows[k].payload) == Some(p);
      assert i == k;
    }
  }

  ghost predicate OwnBacked(tasks: seq<A.Task>, d: Uuid, rows: seq<S.Row>) {
    forall t :: 0 <= t < |tasks| && tasks[t].accepted ==> Owned(rows, d, tasks[t].id, tasks[t].payload)
  }

  /** Every delivery of the run carries a signature sent to the device it reaches, or one no agent accepts. */
  ghost predicate Direct(y: System, events: seq<Event>)
    decreases |events|
  {
    events == []
    || (Possible(y, events[0])
        && (events[0].Deliver? ==>
              SentTo(y.server.jobs.log, events[0].device, events[0].signature)
              || !events[0].signature.OverBytes?)
        && Direct(Next(y, events[0]), events[1..]))
  }

  lemma OwnBackedPersists(tasks: seq<A.Task>, d: Uuid, rows: seq<S.Row>, rows': seq<S.Row>)
    requires OwnBacked(tasks, d, rows) && Keeps(rows, rows')
    ensures OwnBacked(tasks, d, rows')
  {
    hide Owned, Keeps;
    forall t | 0 <= t < |tasks| && tasks[t].accepted
      ensures Owned(rows', d, tasks[t].id, tasks[t].payload)
    {
      OwnedPersists(rows, rows', d, tasks[t].id, tasks[t].payload);
    }
  }

  lemma ReceivedOwn(agent: A.Agent, d: Uuid, s: S.Jobs, id: Uuid, p: JobPayload, sig: Signature)
    requires OwnBacked(agent.tasks, d, s.rows) && Signed(s) && (SentTo(s.log, d, sig) || !sig.OverBytes?)
    ensures OwnBacked(A.Apply(agent, A.Receive(id, p, VerifyJob(agent.key, id, p, sig))).tasks, d, s.rows)
  {
    hide Owned, Signed, SentTo, SigningBytes, A.LastMessages, A.TaskStep, A.TaskEnabled;
    if VerifyJob(agent.key, id, p, sig) == Accepted {
      SentIsOwned(s, d, agent.key, id, p, sig);
    }
    hide VerifyJob;
  }

  lemma ActedOwn(agent: A.Agent, d: Uuid, rows: seq<S.Row>, a: A.Action)
    requires OwnBacked(agent.tasks, d, rows) && !a.Receive? && A.Enabled(agent, a)
    ensures OwnBacked(A.Apply(agent, a).tasks, d, rows)
  {
    hide Owned, A.TaskStep, A.TaskEnabled;
    if !a.Revoke? {
      T.TaskStepFrame(agent, a);
      hide A.Apply;
    }
  }

  lemma OwnStep(y: System, e: Event, d: Uuid)
    requires Inv(y) && Possible(y, e) && d in y.agents && OwnBacked(y.agents[d].tasks, d, y.server.jobs.rows)
    requires e.Deliver? ==> SentTo(y.server.jobs.log, e.device, e.signature) || !e.signature.OverBytes?
    ensures d in Next(y, e).agents && OwnBacked(Next(y, e).agents[d].tasks, d, Next(y, e).server.jobs.rows)
  {
    hide Signed, SentTo, R.Step, T.TasksOk, A.Apply, A.Enabled, VerifyJob, OwnBacked, Backed, Obtainable;
    match e
    case Serve(ev) =>
      StepKeeps(y.server, ev);
      OwnBackedPersists(y.agents[d].tasks, d, y.server.jobs.rows, R.Step(y.server, ev).jobs.rows);
    case Deliver(x, id, p, sig) =>
      if x == d {
        ReceivedOwn(y.agents[d], d, y.server.jobs, id, p, sig);
      }
    case Act(x, a) =>
      if x == d {
        ActedOwn(y.agents[d], d, y.server.jobs.rows, a);
      }
  }

  /** If every delivery reaches the device its signature was sent to, an agent executes only its own device's jobs. */
  lemma {:induction false} DirectRunsOwnJobs(y: System, events: seq<Event>, d: Uuid)
    requires Inv(y) && Direct(y, events) && d in y.agents && OwnBacked(y.agents[d].tasks, d, y.server.jobs.rows)
    ensures Run(y, events).Some? && d in Run(y, events).value.agents
    ensures OwnBacked(Run(y, events).value.agents[d].tasks, d, Run(y, events).value.server.jobs.rows)
    decreases |events|
  {
    hide Inv, Next, Possible, OwnBacked, SentTo;
    if events != [] {
      InvPreserved(y, events[0]);
      OwnStep(y, events[0], d);
      DirectRunsOwnJobs(Next(y, events[0]), events[1..], d);
    }
  }

  function MisdeliveryRun(d: Uuid, other: Uuid, id: Uuid, p: JobPayload): seq<Event> {
    [Serve(R.Connect(d))] + ([Serve(R.Create(d, Obj(Fields(p)), id))]
      + ([Deliver(other, id, p, SignJob(true, id, p))] + []))
  }

  /** Two agents that hold the server's key, one of them with its first job accepted or not. */
  function TwoAgents(d: Uuid, other: Uuid, windows: bool, tasks: seq<A.Task>): map<Uuid, A.Agent> {
    map[d := A.Initial(windows, ServerKey), other := A.Initial(windows, ServerKey).(tasks := tasks)]
  }

  /** A run in which an agent executes a job of another device: the dispatch to one agent is delivered to the
      other, which holds the same key. */
  lemma MisdeliveryIsExecuted(d: Uuid, other: Uuid, id: Uuid, p: JobPayload, windows: bool)
    requires d != other
    ensures Run(System(R.Initial({d, other}, true), TwoAgents(d, other, windows, [])), MisdeliveryRun(d, other, id, p))
         == Some(System(WithJob(d, other, id, p), TwoAgents(d, other, windows, [A.Task(id, p, true, A.Entered)])))
    ensures !Owned(WithJob(d, other, id, p).jobs.rows, other, id, p)
  {
    hide Run, FromJson, SignJob, VerifyJob, Fields, A.Apply, Obtainable, Owned;
    var y0 := System(R.Initial({d, other}, true), TwoAgents(d, other, windows, []));
    var connect, create := Serve(R.Connect(d)), Serve(R.Create(d, Obj(Fields(p)), id));
    var deliver := Deliver(other, id, p, SignJob(true, id, p));
    var y1 := y0.(server := Connected(d, other));
    var y2 := y0.(server := WithJob(d, other, id, p));
    ServesOneJob(d, other, id, p);
    OnlyOthersRow(d, other, id, p);
    assert Next(y0, connect) == y1 && Next(y1, create) == y2;
    SentSignature(d, other, id, p);
    FirstDelivery(y2, other, id, p, SignJob(true, id, p), A.Initial(windows, ServerKey));
    var y3 := y2.(agents := TwoAgents(d, other, windows, [A.Task(id, p, true, A.Entered)]));
    assert Next(y2, deliver) == y3;
    hide Possible, Next, R.Step, SignJob, VerifyJob, WithJob, Connected, TwoAgents;
    RunFirst(y0, connect, [create] + ([deliver] + []));
    RunFirst(y1, create, [deliver] + []);
    RunFirst(y2, deliver, []);
    RunNothing(y3);
  }

  lemma RunNothing(y: System)
    ensures Run(y, []) == Some(y)
  {}

  lemma FirstDelivery(y: System, d: Uuid, id: Uuid, p: JobPayload, sig: Signature, agent: A.Agent)
    requires d in y.agents && y.agents[d] == agent == A.Initial(agent.windows, agent.key)
    requires Obtainable(y.server.jobs.log, sig) && VerifyJob(agent.key, id, p, sig) == Accepted
    ensures Possible(y, Deliver(d, id, p, sig))
    ensures Next(y, Deliver(d, id, p, sig))
         == y.(agents := y.agents[d := agent.(tasks := [A.Task(id, p, true, A.Entered)])])
  {
    hide VerifyJob, A.LastMessages;
    var task := A.Task(id, p, true, A.Entered);
    assert agent.tasks + [task] == [task];
  }

  /** The server once one device has connected. */
  function Connected(d: Uuid, other: Uuid): R.World {
    R.World(S.Jobs({d, other}, [], map[d := true], true, []), {})
  }

  /** The server once it has dispatched one job to that device. */
  function WithJob(d: Uuid, other: Uuid, id: Uuid, p: JobPayload): R.World {
    var row := S.Row(id, d, Obj(Fields(p)), S.Pending, None);
    R.World(S.Jobs({d, other}, [row.(status := S.Dispatched)], map[d := true], true, [S.Dispatch(row, p, true)]), {})
  }

  lemma ServesOneJob(d: Uuid, other: Uuid, id: Uuid, p: JobPayload)
    ensures R.Step(R.Initial({d, other}, true), R.Connect(d)) == Connected(d, other)
    ensures R.Step(Connected(d, other), R.Create(d, Obj(Fields(p)), id)) == WithJob(d, other, id, p)
  {
    hide FromJson, SignJob, Fields;
    FromToJson(p);
  }

  lemma OnlyOthersRow(d: Uuid, other: Uuid, id: Uuid, p: JobPayload)
    requires d != other
    ensures !Owned(WithJob(d, other, id, p).jobs.rows, other, id, p)
  {
    hide FromJson, SignJob, Fields;
  }

  lemma SentSignature(d: Uuid, other: Uuid, id: Uuid, p: JobPayload)
    ensures Obtainable(WithJob(d, other, id, p).jobs.log, SignJob(true, id, p))
    ensures VerifyJob(ServerKey, id, p, SignJob(true, id, p)) == Accepted
  {
    hide SigningBytes, Fields;
    var log := WithJob(d, other, id, p).jobs.log;
    assert log[0] in log;
  }

  lemma RunFirst(y: System, e: Event, rest: seq<Event>)
    requires Possible(y, e)
    ensures Run(y, [e] + rest) == Run(Next(y, e), rest)
  {
    assert ([e] + rest)[1..] == rest;
  }
}
