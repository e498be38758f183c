/** No task gets stuck: from any state it can be brought to its end by steps of its own, and a running child can end
    in every way there is. */
module AgentProgress {
  import opened Common
  import opened Payloads
  import opened Signing
  import opened AgentJobs
  import opened AgentRuns

  function ReaderLeft(r: Reader): nat {
    match r
    case Reading => 1
    case Holding(_) => 2
    case Closed => 0
  }

  /** An upper bound for the steps to the end. */
  function StepsLeft(pc: Pc): nat {
    match pc
    case Entered => 10
    case Listed => 9
    case Working => 4
    case Running(out, err) => 6 + ReaderLeft(out) + ReaderLeft(err)
    case Decided(_, out, err) => 5 + ReaderLeft(out) + ReaderLeft(err)
    case Joining(_, out, err) => 4 + ReaderLeft(out) + ReaderLeft(err)
    case Sending(_, rest) => 1 + |rest|
    case Over(_) => 0
  }

  function ReaderAction(t: nat, stream: Stream, r: Reader): Action {
    if r.Holding? then SendLine(t, stream) else EndOfFile(t, stream)
  }

  /** A step the task can take. */
  function NextAction(s: Agent, t: nat): Action
    requires t < |s.tasks|
  {
    match s.tasks[t].pc
    case Entered => Register(t)
    case Listed => if InProcess(s.windows, s.tasks[t].payload) then EnterArm(t) else Spawn(t, None)
    case Working => FinishWork(t, if s.tasks[t].payload.CollectInventory? then Inventoried else Wrote(0))
    case Running(_, _) => Decide(t, Exited(Some(0)))
    case Decided(_, _, _) => Deregister(t)
    case Joining(_, out, err) =>
      if out != Closed then ReaderAction(t, Stdout, out)
      else if err != Closed then ReaderAction(t, Stderr, err) else Join(t)
    case _ => SendNext(t)
  }

  function CauseOf(pc: Pc): Option<Cause> {
    if pc.Decided? || pc.Joining? || pc.Sending? || pc.Over? then Some(pc.cause) else None
  }

  lemma StepToEnd(s: Agent, t: nat)
    requires t < |s.tasks| && !s.tasks[t].pc.Over?
    ensures var a := NextAction(s, t);
      && Enabled(s, a) && !a.Receive? && !a.Revoke? && a.t == t
      && StepsLeft(Apply(s, a).tasks[t].pc) < StepsLeft(s.tasks[t].pc)
      && (CauseOf(s.tasks[t].pc).Some? ==> CauseOf(Apply(s, a).tasks[t].pc) == CauseOf(s.tasks[t].pc))
  {
    hide Registered, Removed, LastMessages;
    ShortGoodbyes(s.tasks[t]);
  }

  lemma ShortGoodbyes(task: Task)
    ensures forall c :: |LastMessages(task.id, task.payload, c)| <= 2
  {}

  /** From any state a task reaches its end by steps of its own, and keeps its cause if it has one. */
  lemma {:induction false} CanFinish(s: Agent, t: nat) returns (actions: seq<Action>)
    requires t < |s.tasks|
    ensures forall a :: a in actions ==> !a.Receive? && !a.Revoke? && a.t == t
    ensures Run(s, actions).Some? && t < |Run(s, actions).value.tasks|
    ensures var pc := Run(s, actions).value.tasks[t].pc;
      pc.Over? && (CauseOf(s.tasks[t].pc).Some? ==> pc.cause == CauseOf(s.tasks[t].pc).value)
    decreases StepsLeft(s.tasks[t].pc)
  {
    if s.tasks[t].pc.Over? {
      actions := [];
    } else {
      var a := NextAction(s, t);
      StepToEnd(s, t);
      hide Enabled, Apply, StepsLeft, NextAction;
      var rest := CanFinish(Apply(s, a), t);
      actions := [a] + rest;
      assert actions[1..] == rest;
    }
  }

  /** A running child can exit with any code or with none, fail to be waited for, or run out of time, and its job
      then ends that way. */
  lemma RunningCanEnd(s: Agent, t: nat, c: Cause) returns (actions: seq<Action>)
    requires t < |s.tasks| && s.tasks[t].pc.Running? && (c.Exited? || c == WaitFailed || c == TimedOut)
    ensures Run(s, actions).Some? && t < |Run(s, actions).value.tasks|
    ensures Run(s, actions).value.tasks[t].pc == Over(c)
  {
    var a := Decide(t, c);
    assert Enabled(s, a) && CauseOf(Apply(s, a).tasks[t].pc) == Some(c);
    hide Enabled, Apply;
    var rest := CanFinish(Apply(s, a), t);
    actions := [a] + rest;
    assert actions[1..] == rest;
  }
}
