/** What the agent says about a job in words: over every interleaving, the whole trace of a job that no child ran,
    and which payloads can end how. */
module AgentVerdicts {
  import opened Common
  import opened Payloads
  import opened Signing
  import opened AgentJobs
  import opened AgentRuns
  import Numerals

  /** A task no child ran has sent its last messages, or some of them, and nothing before. */
  ghost predicate Says(task: Task, sent: seq<AgentMessage>) {
    match task.pc
    case Sending(c, rest) => !Ended(c) ==> sent + rest == LastMessages(task.id, task.payload, c)
    case Over(c) => !Ended(c) ==> sent == LastMessages(task.id, task.payload, c)
    case Decided(c, _, _) => Ended(c)
    case Joining(c, _, _) => Ended(c)
    case Running(_, _) => true
    case _ => sent == []
  }

  /** The payload can come to where its task is. */
  predicate Fits(windows: bool, task: Task) {
    var alone := task.payload.CollectInventory? || (windows && task.payload.PushFile?);
    match task.pc
    case Entered => true
    case Listed => true
    case Working => alone
    case Running(_, _) => !alone
    case Decided(_, _, _) => !alone
    case Joining(_, _, _) => !alone
    case Sending(c, _) => CauseFits(windows, task.payload, c)
    case Over(c) => CauseFits(windows, task.payload, c)
  }

  predicate CauseFits(windows: bool, p: JobPayload, c: Cause) {
    match c
    case Rejected(v) => v != Accepted
    case Inventoried => p.CollectInventory?
    case Wrote(_) => windows && p.PushFile?
    case WriteFailed(_) => windows && p.PushFile?
    case _ => !p.CollectInventory? && !(windows && p.PushFile?)
  }

  ghost predicate AllSay(s: Agent) {
    forall t :: 0 <= t < |s.tasks| ==> Says(s.tasks[t], Trace(s.out, t)) && Fits(s.windows, s.tasks[t])
  }

  lemma OwnSays(s: Agent, a: Action)
    requires Enabled(s, a) && !a.Receive? && !a.Revoke?
    requires Says(s.tasks[a.t], Trace(s.out, a.t)) && Fits(s.windows, s.tasks[a.t])
    ensures Says(Apply(s, a).tasks[a.t], Trace(s.out, a.t) + NewMessages(s, a))
    ensures Fits(s.windows, Apply(s, a).tasks[a.t])
  {
    hide Trace, LastMessages, Registered, Removed;
    var task, sent := s.tasks[a.t], Trace(s.out, a.t);
    assert sent + [] == sent;
    if a.SendNext? {
      SendSays(s, a);
    } else if sent == [] && Apply(s, a).tasks[a.t].pc.Sending? {
      var rest := Apply(s, a).tasks[a.t].pc.rest;
      assert sent + rest == rest;
    }
  }

  lemma SendSays(s: Agent, a: Action)
    requires Enabled(s, a) && a.SendNext?
    requires Says(s.tasks[a.t], Trace(s.out, a.t)) && Fits(s.windows, s.tasks[a.t])
    ensures Says(Apply(s, a).tasks[a.t], Trace(s.out, a.t) + NewMessages(s, a))
    ensures Fits(s.windows, Apply(s, a).tasks[a.t])
  {
    hide Trace, LastMessages, CauseFits;
    var rest, sent := s.tasks[a.t].pc.rest, Trace(s.out, a.t);
    if rest == [] {
      assert sent + rest == sent;
    } else {
      assert sent + rest == (sent + [rest[0]]) + rest[1..];
    }
  }

  lemma StepSays(s: Agent, a: Action)
    requires TasksOk(s) && AllSay(s) && Enabled(s, a)
    ensures AllSay(Apply(s, a))
  {
    hide TaskOk, Says, Fits, Trace, NewMessages, LastMessages, TaskEnabled, TaskStep;
    if a.Receive? {
      ReceiveSays(s, a);
    } else if !a.Revoke? {
      TaskStepFrame(s, a);
      OwnSays(s, a);
      hide Apply;
      forall t | 0 <= t < |s.tasks|
        ensures Says(Apply(s, a).tasks[t], Trace(Apply(s, a).out, t)) && Fits(s.windows, Apply(s, a).tasks[t])
      {
        TaskStepTrace(s, a, t);
        assert Trace(s.out, t) + [] == Trace(s.out, t);
      }
    }
  }

  lemma ReceiveSays(s: Agent, a: Action)
    requires TasksOk(s) && AllSay(s) && a.Receive?
    ensures AllSay(Apply(s, a))
  {
    hide TaskOk, Trace, LastMessages;
    TraceOfUnknownTask(s.out, |s.tasks|);
    var last := LastMessages(a.id, a.payload, Rejected(a.verdict));
    assert [] + last == last;
  }

  lemma {:induction false} RunSays(s: Agent, actions: seq<Action>)
    requires TasksOk(s) && AllSay(s) && Run(s, actions).Some?
    ensures AllSay(Run(s, actions).value) && Run(s, actions).value.windows == s.windows
    decreases |actions|
  {
    hide TasksOk, AllSay, Enabled;
    if actions != [] {
      StepOk(s, actions[0]);
      StepSays(s, actions[0]);
      WindowsKept(s, actions[0]);
      hide Apply;
      RunSays(Apply(s, actions[0]), actions[1..]);
    }
  }

  lemma WindowsKept(s: Agent, a: Action)
    requires Enabled(s, a)
    ensures Apply(s, a).windows == s.windows
  {
    hide TaskStep, TaskEnabled, NewMessages;
    if !a.Receive? && !a.Revoke? {
      TaskStepFrame(s, a);
    }
  }

  /** One log line, then the completion. */
  predicate LineThen(ms: seq<AgentMessage>, id: Uuid, stream: Stream, line: string, code: int) {
    && |ms| == 2 && ms[0].JobLog? && ms[0].jobId == id && ms[0].stream == stream && Render(ms[0].text) == line
    && ms[1] == JobCompleted(id, code)
  }

  lemma RejectionWords(id: Uuid, p: JobPayload, v: Verdict)
    ensures LineThen(LastMessages(id, p, Rejected(v)), id, Stderr, "Job rejected: " + Reason(v), -3)
  {}

  lemma LastWords(id: Uuid, p: JobPayload, c: Cause)
    ensures match c
            case SpawnFailed(e) => LineThen(LastMessages(id, p, c), id, Stderr, "Failed to spawn: " + e, -1)
            case Inventoried => LastMessages(id, p, c) == [InventoryReport, JobCompleted(id, 0)]
            case Wrote(n) =>
              p.PushFile? ==>
                LineThen(LastMessages(id, p, c), id, Stdout,
                  "wrote " + Numerals.Decimal(n) + " bytes to " + p.destination, 0)
            case WriteFailed(e) => LineThen(LastMessages(id, p, c), id, Stderr, e, -1)
            case _ => true
  {
    hide Numerals.Decimal;
  }

  /** In every interleaving, everything that is sent for a job no child ran, word for word; and how each payload
      can end. */
  lemma WholeTrace(windows: bool, key: StoredKey, actions: seq<Action>, t: nat)
    requires Run(Initial(windows, key), actions).Some?
    requires var s := Run(Initial(windows, key), actions).value; t < |s.tasks| && s.tasks[t].pc.Over?
    ensures var s := Run(Initial(windows, key), actions).value;
      var id, p, ms := s.tasks[t].id, s.tasks[t].payload, Trace(s.out, t);
      match s.tasks[t].pc.cause
      case Rejected(NoServerKey) =>
        LineThen(ms, id, Stderr, "Job rejected: " + "no server signing key configured — re-enroll the agent", -3)
      case Rejected(NoSignature) => LineThen(ms, id, Stderr, "Job rejected: " + "job has no signature", -3)
      case Rejected(BadSignature) => LineThen(ms, id, Stderr, "Job rejected: " + "signature verification failed", -3)
      case Rejected(Accepted) => false
      case SpawnFailed(e) =>
        !p.CollectInventory? && !(windows && p.PushFile?) && LineThen(ms, id, Stderr, "Failed to spawn: " + e, -1)
      case Inventoried => p.CollectInventory? && ms == [InventoryReport, JobCompleted(id, 0)]
      case Wrote(n) =>
        windows && p.PushFile?
        && LineThen(ms, id, Stdout, "wrote " + Numerals.Decimal(n) + " bytes to " + p.destination, 0)
      case WriteFailed(e) => windows && p.PushFile? && LineThen(ms, id, Stderr, e, -1)
      case _ => !p.CollectInventory? && !(windows && p.PushFile?)
  {
    hide Run, Trace, TasksOk;
    InitialOk(windows, key);
    RunSays(Initial(windows, key), actions);
    var s := Run(Initial(windows, key), actions).value;
    var task := s.tasks[t];
    assert Says(task, Trace(s.out, t)) && Fits(s.windows, task);
    if task.pc.cause.Rejected? {
      RejectionWords(task.id, task.payload, task.pc.cause.verdict);
    } else {
      LastWords(task.id, task.payload, task.pc.cause);
    }
    hide LastMessages, LineThen, AllSay, Numerals.Decimal;
  }
}
