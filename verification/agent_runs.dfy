/** Trace properties of the agent's jobs, over every interleaving of their tasks. */
module AgentRuns {
  import opened Common
  import opened Payloads
  import opened Signing
  import opened AgentJobs

  /** What one task has sent, in order. */
  function Trace(out: seq<Emission>, t: nat): seq<AgentMessage> {
    if out == [] then []
    else
      var e := out[|out| - 1];
      Trace(out[..|out| - 1], t) + (if e.task == t then [e.msg] else [])
  }

  lemma TraceAppend(out: seq<Emission>, e: Emission, t: nat)
    ensures Trace(out + [e], t) == Trace(out, t) + (if e.task == t then [e.msg] else [])
  {
    assert (out + [e])[..|out|] == out;
  }

  predicate About(m: AgentMessage, id: Uuid) { !m.InventoryReport? && m.jobId == id }

  /** What the channel carries about one job, in order. */
  function JobTrace(out: seq<Emission>, id: Uuid): seq<AgentMessage> {
    Filter(Map(out, (e: Emission) => e.msg), (m: AgentMessage) => About(m, id))
  }

  predicate AllLogs(ms: seq<AgentMessage>, id: Uuid) {
    forall m :: m in ms ==> m.JobLog? && m.jobId == id
  }

  /** Log lines of the job (and perhaps an inventory report), then its one completion. */
  predicate Finished(ms: seq<AgentMessage>, id: Uuid, c: Cause) {
    && |ms| > 0
    && ms[|ms| - 1] == JobCompleted(id, ExitCode(c))
    && forall i :: 0 <= i < |ms| - 1 ==> ms[i].InventoryReport? || (ms[i].JobLog? && ms[i].jobId == id)
  }

  ghost predicate TaskOk(task: Task, sent: seq<AgentMessage>) {
    match task.pc
    case Entered => sent == [] && task.accepted
    case Listed => sent == [] && task.accepted
    case Working => sent == [] && task.accepted
    case Running(_, _) => AllLogs(sent, task.id) && task.accepted
    case Decided(c, _, _) => AllLogs(sent, task.id) && task.accepted && Ended(c)
    case Joining(c, _, _) => AllLogs(sent, task.id) && task.accepted && Ended(c)
    case Sending(c, rest) => Finished(sent + rest, task.id, c) && (task.accepted <==> !c.Rejected?)
    case Over(c) => Finished(sent, task.id, c) && (task.accepted <==> !c.Rejected?)
  }

  /** Causes decided by the select over a running child. */
  predicate Ended(c: Cause) { c.Exited? || c == WaitFailed || c == TimedOut || c == Killed }

  ghost predicate TasksOk(s: Agent) {
    && (forall t :: 0 <= t < |s.tasks| ==> TaskOk(s.tasks[t], Trace(s.out, t)))
    && (forall e :: e in s.out ==> e.task < |s.tasks| && (e.msg.InventoryReport? || e.msg.jobId == s.tasks[e.task].id))
  }

  // ---- one step ----

  lemma TraceOfUnknownTask(out: seq<Emission>, t: nat)
    requires forall e :: e in out ==> e.task < t
    ensures Trace(out, t) == []
  {
    if out != [] {
      assert out[|out| - 1] in out;
      TraceOfUnknownTask(out[..|out| - 1], t);
    }
  }

  lemma LastMessagesFinish(id: Uuid, p: JobPayload, c: Cause, logs: seq<AgentMessage>)
    requires AllLogs(logs, id)
    ensures Finished(logs + LastMessages(id, p, c), id, c)
  {
    var ms := logs + LastMessages(id, p, c);
    forall i | 0 <= i < |logs|
      ensures ms[i].JobLog? && ms[i].jobId == id
    {
      assert ms[i] == logs[i] && logs[i] in logs;
    }
  }

  /** What a step puts on the channel. */
  function NewMessages(s: Agent, a: Action): seq<AgentMessage>
    requires Enabled(s, a)
  {
    match a
    case SendLine(t, stream) => [JobLog(s.tasks[t].id, ChildLine(ReaderOf(s.tasks[t].pc, stream).line), stream)]
    case SendNext(t) => if s.tasks[t].pc.rest == [] then [] else [s.tasks[t].pc.rest[0]]
    case _ => []
  }

  /** A step of one task leaves the others' control alone; what it sends is its own. */
  lemma TaskStepFrame(s: Agent, a: Action)
    requires Enabled(s, a) && !a.Receive? && !a.Revoke?
    ensures var s' := Apply(s, a);
      && |s'.tasks| == |s.tasks|
      && (forall t :: 0 <= t < |s.tasks| && t != a.t ==> s'.tasks[t] == s.tasks[t])
      && s'.tasks[a.t] == s.tasks[a.t].(pc := s'.tasks[a.t].pc)
      && s'.out == s.out + (if NewMessages(s, a) == [] then [] else [Emission(a.t, NewMessages(s, a)[0])])
      && s'.windows == s.windows && s'.key == s.key && s'.revoked == s.revoked
  {
    hide LastMessages, Registered, Removed;
  }

  lemma TaskStepTrace(s: Agent, a: Action, t: nat)
    requires Enabled(s, a) && !a.Receive? && !a.Revoke?
    ensures Trace(Apply(s, a).out, t) == Trace(s.out, t) + (if t == a.t then NewMessages(s, a) else [])
  {
    hide Apply;
    TaskStepFrame(s, a);
    if NewMessages(s, a) == [] {
      assert s.out + [] == s.out;
    } else {
      TraceAppend(s.out, Emission(a.t, NewMessages(s, a)[0]), t);
    }
  }

  lemma ReaderStepOk(s: Agent, a: Action)
    requires Enabled(s, a) && (a.ReadLine? || a.SendLine? || a.EndOfFile?)
    requires TaskOk(s.tasks[a.t], Trace(s.out, a.t))
    ensures TaskOk(Apply(s, a).tasks[a.t], Trace(s.out, a.t) + NewMessages(s, a))
  {
    hide LastMessages, Trace;
    var sent := Trace(s.out, a.t);
    if a.SendLine? {
      var m := NewMessages(s, a)[0];
      assert AllLogs(sent + [m], s.tasks[a.t].id);
    } else {
      assert sent + [] == sent;
    }
  }

  lemma SendStepOk(s: Agent, a: Action)
    requires Enabled(s, a) && a.SendNext?
    requires TaskOk(s.tasks[a.t], Trace(s.out, a.t))
    ensures TaskOk(Apply(s, a).tasks[a.t], Trace(s.out, a.t) + NewMessages(s, a))
    ensures NewMessages(s, a) != [] ==>
              NewMessages(s, a)[0].InventoryReport? || NewMessages(s, a)[0].jobId == s.tasks[a.t].id
  {
    hide LastMessages, Trace;
    var sent, rest := Trace(s.out, a.t), s.tasks[a.t].pc.rest;
    if rest == [] {
      assert sent + rest == sent;
    } else {
      assert sent + rest == (sent + [rest[0]]) + rest[1..];
      assert (sent + rest)[|sent|] == rest[0];
    }
  }

  lemma ControlStepOk(s: Agent, a: Action)
    requires Enabled(s, a)
        && (a.Register? || a.EnterArm? || a.Spawn? || a.FinishWork? || a.Decide? || a.Deregister? || a.Join?)
    requires TaskOk(s.tasks[a.t], Trace(s.out, a.t))
    ensures NewMessages(s, a) == []
    ensures TaskOk(Apply(s, a).tasks[a.t], Trace(s.out, a.t))
  {
    hide LastMessages, Trace, Finished;
    var task, sent := s.tasks[a.t], Trace(s.out, a.t);
    match a
    case Spawn(_, error) =>
      if error.Some? { LastMessagesFinish(task.id, task.payload, SpawnFailed(error.value), sent); }
    case FinishWork(_, c) => LastMessagesFinish(task.id, task.payload, c, sent);
    case Join(_) => LastMessagesFinish(task.id, task.payload, task.pc.cause, sent);
    case _ =>
  }

  lemma TaskStepOk(s: Agent, a: Action)
    requires TasksOk(s) && Enabled(s, a) && !a.Receive? && !a.Revoke?
    ensures TasksOk(Apply(s, a))
  {
    hide TaskOk, Apply, NewMessages, TaskEnabled, Trace;
    assert TaskOk(s.tasks[a.t], Trace(s.out, a.t));
    TaskStepFrame(s, a);
    OwnStepOk(s, a);
    forall t | 0 <= t < |s.tasks|
      ensures TaskOk(Apply(s, a).tasks[t], Trace(Apply(s, a).out, t))
    {
      TaskStepTrace(s, a, t);
      assert Trace(s.out, t) + [] == Trace(s.out, t);
    }
  }

  lemma OwnStepOk(s: Agent, a: Action)
    requires Enabled(s, a) && !a.Receive? && !a.Revoke?
    requires TaskOk(s.tasks[a.t], Trace(s.out, a.t))
    ensures TaskOk(Apply(s, a).tasks[a.t], Trace(s.out, a.t) + NewMessages(s, a))
    ensures NewMessages(s, a) != [] ==>
              NewMessages(s, a)[0].InventoryReport? || NewMessages(s, a)[0].jobId == s.tasks[a.t].id
  {
    hide TaskOk, Apply, Trace;
    assert Trace(s.out, a.t) + [] == Trace(s.out, a.t);
    if a.ReadLine? || a.SendLine? || a.EndOfFile? {
      ReaderStepOk(s, a);
    } else if a.SendNext? {
      SendStepOk(s, a);
    } else {
      ControlStepOk(s, a);
    }
  }

  lemma ReceiveOk(s: Agent, a: Action)
    requires TasksOk(s) && a.Receive?
    ensures TasksOk(Apply(s, a))
  {
    hide LastMessages, Finished, Trace;
    var c := Rejected(a.verdict);
    var last := LastMessages(a.id, a.payload, c);
    TraceOfUnknownTask(s.out, |s.tasks|);
    LastMessagesFinish(a.id, a.payload, c, []);
    assert [] + last == last;
    forall t | 0 <= t < |s.tasks|
      ensures TaskOk(Apply(s, a).tasks[t], Trace(s.out, t))
    {
      assert TaskOk(s.tasks[t], Trace(s.out, t));
    }
  }

  lemma StepOk(s: Agent, a: Action)
    requires TasksOk(s) && Enabled(s, a)
    ensures TasksOk(Apply(s, a))
  {
    hide TaskOk, TaskStep, TaskEnabled, Trace, Removed;
    match a
    case Receive(_, _, _) => ReceiveOk(s, a);
    case Revoke(_) =>
    case _ => TaskStepOk(s, a);
  }

  // ---- whole runs ----

  lemma {:induction false} RunOk(s: Agent, actions: seq<Action>)
    requires TasksOk(s) && Run(s, actions).Some?
    ensures TasksOk(Run(s, actions).value)
    decreases |actions|
  {
    hide TasksOk, Apply, Enabled;
    if actions != [] {
      StepOk(s, actions[0]);
      RunOk(Apply(s, actions[0]), actions[1..]);
    }
  }

  predicate OnlyTask(s: Agent, t: nat) {
    t < |s.tasks| && forall k :: 0 <= k < |s.tasks| && k != t ==> s.tasks[k].id != s.tasks[t].id
  }

  predicate DistinctIds(s: Agent) {
    forall t, k :: 0 <= t < k < |s.tasks| ==> s.tasks[t].id != s.tasks[k].id
  }

  lemma {:induction false} JobTraceOfOnlyTask(s: Agent, t: nat, n: nat)
    requires TasksOk(s) && OnlyTask(s, t) && n <= |s.out|
    ensures JobTrace(s.out[..n], s.tasks[t].id)
        == Filter(Trace(s.out[..n], t), (m: AgentMessage) => About(m, s.tasks[t].id))
  {
    hide TaskOk;
    if n > 0 {
      var p := (m: AgentMessage) => About(m, s.tasks[t].id);
      var out, e := s.out[..n - 1], s.out[n - 1];
      JobTraceOfOnlyTask(s, t, n - 1);
      assert s.out[..n] == out + [e];
      assert e in s.out;
      TraceAppend(out, e, t);
      MapAppend(out, [e], (x: Emission) => x.msg);
      FilterAppend(Map(out, (x: Emission) => x.msg), [e.msg], p);
      FilterAppend(Trace(out, t), if e.task == t then [e.msg] else [], p);
      assert Map([e], (x: Emission) => x.msg) == [e.msg];
    }
  }

  lemma {:induction false} FilterLogs(ms: seq<AgentMessage>, id: Uuid)
    requires forall m :: m in ms ==> m.InventoryReport? || (m.JobLog? && m.jobId == id)
    ensures AllLogs(Filter(ms, (m: AgentMessage) => About(m, id)), id)
  {
    FilterMembers(ms, (m: AgentMessage) => About(m, id));
  }

  /** Log lines of the job and nothing else, or those and then its one completion. */
  ghost predicate WellOrdered(ms: seq<AgentMessage>, id: Uuid) {
    || AllLogs(ms, id)
    || (|ms| > 0 && AllLogs(ms[..|ms| - 1], id) && ms[|ms| - 1].JobCompleted? && ms[|ms| - 1].jobId == id)
  }

  lemma FinishedFilters(ms: seq<AgentMessage>, id: Uuid, c: Cause)
    requires Finished(ms, id, c)
    ensures var f := Filter(ms, (m: AgentMessage) => About(m, id));
      |f| > 0 && AllLogs(f[..|f| - 1], id) && f[|f| - 1] == JobCompleted(id, ExitCode(c))
  {
    var init, last := ms[..|ms| - 1], ms[|ms| - 1];
    var p := (m: AgentMessage) => About(m, id);
    assert ms == init + [last];
    FilterAppend(init, [last], p);
    assert Filter([last], p) == [last];
    forall m | m in init
      ensures m.InventoryReport? || (m.JobLog? && m.jobId == id)
    {
      var i :| 0 <= i < |init| && init[i] == m;
      assert ms[i] == m;
    }
    FilterLogs(init, id);
    assert Filter(ms, p)[..|Filter(ms, p)| - 1] == Filter(init, p);
  }

  /** In every interleaving, a job received once appears on the channel as its log lines and
      then, exactly when its task is over, one completion whose code tells how it ended: -1 for a program that
      could not be started, waited for or that left no code, and for a file that could not be written. */
  lemma JobMessagesInOrder(windows: bool, key: StoredKey, actions: seq<Action>, t: nat)
    requires Run(Initial(windows, key), actions).Some?
    requires OnlyTask(Run(Initial(windows, key), actions).value, t)
    ensures var s := Run(Initial(windows, key), actions).value;
      var id, ms := s.tasks[t].id, JobTrace(s.out, s.tasks[t].id);
      && WellOrdered(ms, id)
      && (match s.tasks[t].pc
          case Over(c) =>
            && |ms| > 0 && AllLogs(ms[..|ms| - 1], id)
            && ms[|ms| - 1] == JobCompleted(id, match c
                 case Killed => -4
                 case Rejected(_) => -3
                 case TimedOut => -2
                 case Exited(Some(code)) => code
                 case Inventoried => 0
                 case Wrote(_) => 0
                 case _ => -1)
          case Sending(_, _) => true
          case _ => AllLogs(ms, id))
  {
    hide Run, Enabled, Apply, Trace, LastMessages;
    InitialOk(windows, key);
    RunOk(Initial(windows, key), actions);
    var s := Run(Initial(windows, key), actions).value;
    var id := s.tasks[t].id;
    assert s.out[..|s.out|] == s.out;
    JobTraceOfOnlyTask(s, t, |s.out|);
    var sent := Trace(s.out, t);
    assert TaskOk(s.tasks[t], sent);
    match s.tasks[t].pc
    case Over(c) => FinishedFilters(sent, id, c);
    case Sending(c, rest) =>
      if rest == [] {
        assert sent + rest == sent;
        FinishedFilters(sent, id, c);
      } else {
        forall m | m in sent
          ensures m.InventoryReport? || (m.JobLog? && m.jobId == id)
        {
          var i :| 0 <= i < |sent| && sent[i] == m;
          assert (sent + rest)[i] == m;
        }
        FilterLogs(sent, id);
      }
    case _ => FilterLogs(sent, id);
  }

  lemma InitialOk(windows: bool, key: StoredKey)
    ensures TasksOk(Initial(windows, key))
  {}

  /** After its task is over nothing more is sent for it, however the run goes on. */
  lemma {:induction false} OverIsSilent(s: Agent, actions: seq<Action>, t: nat)
    requires TasksOk(s) && t < |s.tasks| && s.tasks[t].pc.Over? && Run(s, actions).Some?
    ensures t < |Run(s, actions).value.tasks| && Run(s, actions).value.tasks[t] == s.tasks[t]
    ensures Trace(Run(s, actions).value.out, t) == Trace(s.out, t)
    decreases |actions|
  {
    hide TasksOk, Trace, TaskStep, LastMessages, Removed;
    if actions != [] {
      var a := actions[0];
      StepOk(s, a);
      if !a.Receive? && !a.Revoke? {
        TaskStepFrame(s, a);
        TaskStepTrace(s, a, t);
        assert a.t != t;
        assert Trace(s.out, t) + [] == Trace(s.out, t);
      }
      OverIsSilent(Apply(s, a), actions[1..], t);
    }
  }
}
