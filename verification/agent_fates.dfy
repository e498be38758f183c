/** What a revocation does to a job, and which registry entries outlive their job, over every run,
    for a job whose id no other job of the agent has. */
module AgentFates {
  import opened Common
  import opened Payloads
  import opened Signing
  import opened AgentJobs
  import opened AgentRuns
  import opened AgentKills

  // ---- the registry entry of a task ----

  /** The task has not registered yet; it may have an entry; or it has removed its entry. */
  datatype Phase = Before | Listening | Gone

  function PhaseOf(pc: Pc): Phase {
    match pc
    case Entered => Before
    case Listed => Listening
    case Running(_, _) => Listening
    case Decided(_, _, _) => Listening
    case Working => Gone
    case Joining(_, _, _) => Gone
    case Sending(c, _) => if c.SpawnFailed? then Listening else Gone
    case Over(c) => if c.SpawnFailed? then Listening else Gone
  }

  /** The registry maps the task's id to the task. */
  predicate HoldsEntry(s: Agent, t: nat)
    requires t < |s.tasks|
  {
    s.tasks[t].id in s.kills.senders && s.kills.senders[s.tasks[t].id] == t
  }

  /** The select decides no cause that keeps an entry. */
  predicate SelectCause(pc: Pc) { pc.Decided? || pc.Joining? ==> !pc.cause.SpawnFailed? }

  ghost predicate EntryOk(s: Agent, t: nat)
    requires t < |s.tasks|
  {
    var pc := s.tasks[t].pc;
    && SelectCause(pc)
    && match PhaseOf(pc)
       case Before => !HoldsEntry(s, t) && t !in s.kills.woken
       case Listening => HoldsEntry(s, t) <==> t !in s.kills.woken
       case Gone => !HoldsEntry(s, t)
  }

  ghost predicate PhaseMoves(s: Agent, a: Action)
    requires Enabled(s, a) && !a.Receive? && !a.Revoke?
  {
    var pc, pc' := s.tasks[a.t].pc, Apply(s, a).tasks[a.t].pc;
    && PhaseOf(pc') == (if a.Register? then Listening else if a.EnterArm? || a.Deregister? then Gone else PhaseOf(pc))
    && (a.Register? ==> PhaseOf(pc) == Before)
    && SelectCause(pc')
  }

  lemma ReaderPhase(s: Agent, a: Action)
    requires Enabled(s, a) && (a.ReadLine? || a.SendLine? || a.EndOfFile?) && SelectCause(s.tasks[a.t].pc)
    ensures PhaseMoves(s, a)
  {
    hide LastMessages, Registered, Removed;
  }

  lemma StartPhase(s: Agent, a: Action)
    requires Enabled(s, a) && (a.Register? || a.EnterArm? || a.Spawn? || a.FinishWork?) && SelectCause(s.tasks[a.t].pc)
    ensures PhaseMoves(s, a)
  {
    hide LastMessages, Registered, Removed;
  }

  lemma EndPhase(s: Agent, a: Action)
    requires Enabled(s, a) && (a.Decide? || a.Deregister? || a.Join? || a.SendNext?) && SelectCause(s.tasks[a.t].pc)
    ensures PhaseMoves(s, a)
  {
    hide LastMessages, Registered, Removed;
  }

  lemma PhaseStep(s: Agent, a: Action)
    requires Enabled(s, a) && !a.Receive? && !a.Revoke? && SelectCause(s.tasks[a.t].pc)
    ensures PhaseMoves(s, a)
  {
    hide Enabled, SelectCause, PhaseMoves;
    if a.ReadLine? || a.SendLine? || a.EndOfFile? {
      ReaderPhase(s, a);
    } else if a.Register? || a.EnterArm? || a.Spawn? || a.FinishWork? {
      StartPhase(s, a);
    } else {
      EndPhase(s, a);
    }
  }

  lemma TaskStepEntry(s: Agent, a: Action, t: nat)
    requires RegistryOk(s) && Enabled(s, a) && !a.Receive? && !a.Revoke? && OnlyTask(s, t) && EntryOk(s, t)
    ensures EntryOk(Apply(s, a), t)
  {
    hide TaskStep, TaskEnabled, LastMessages, NewMessages;
    if a.t == t {
      PhaseStep(s, a);
    }
    TaskStepFrame(s, a);
    TaskStepKills(s, a);
    hide Apply, RegistryOk, PhaseOf, SelectCause;
  }

  lemma EntryStep(s: Agent, a: Action, t: nat)
    requires RegistryOk(s) && Enabled(s, a) && OnlyTask(Apply(s, a), t)
    requires t < |s.tasks| ==> EntryOk(s, t)
    ensures EntryOk(Apply(s, a), t)
  {
    hide TaskStep, TaskEnabled, LastMessages, NewMessages;
    if t < |s.tasks| {
      TaskStays(s, a, t);
    }
    if !a.Receive? && !a.Revoke? {
      hide Apply, EntryOk;
      TaskStepEntry(s, a, t);
    }
  }

  lemma {:induction false} RunEntry(s: Agent, actions: seq<Action>, t: nat)
    requires RegistryOk(s) && (t < |s.tasks| ==> EntryOk(s, t))
    requires Run(s, actions).Some? && OnlyTask(Run(s, actions).value, t)
    ensures EntryOk(Run(s, actions).value, t)
    decreases |actions|
  {
    hide OnlyTask, Enabled, Apply, EntryOk, RegistryOk;
    if actions != [] {
      var next := Apply(s, actions[0]);
      RegistryStep(s, actions[0]);
      if t < |next.tasks| {
        RunTaskStays(next, actions[1..], t);
        EntryStep(s, actions[0], t);
      }
      RunEntry(next, actions[1..], t);
    } else {
      OnlyExists(s, t);
    }
  }

  lemma OnlyExists(s: Agent, t: nat)
    requires OnlyTask(s, t)
    ensures t < |s.tasks|
  {}

  /** A revocation of the id arrived after the task had registered. */
  predicate RevokedSince(actions: seq<Action>, t: nat, id: Uuid) {
    actions != []
    && if actions[0] == Register(t) then Revoke(id) in actions[1..] else RevokedSince(actions[1..], t, id)
  }

  lemma WokenStep(s: Agent, a: Action, t: nat)
    requires RegistryOk(s) && Enabled(s, a) && OnlyTask(Apply(s, a), t) && (t < |s.tasks| ==> EntryOk(s, t))
    requires PhaseOf(Apply(s, a).tasks[t].pc) != Gone
    ensures t < |s.tasks| ==> PhaseOf(s.tasks[t].pc) != Gone
    ensures var heard := t < |s.tasks| && PhaseOf(s.tasks[t].pc) == Listening;
      && (PhaseOf(Apply(s, a).tasks[t].pc) == Listening <==> heard || a == Register(t))
      && (heard ==> a != Register(t))
      && (heard ==> (t in Apply(s, a).kills.woken <==> t in s.kills.woken || a == Revoke(s.tasks[t].id)))
      && (!heard ==> t !in Apply(s, a).kills.woken)
  {
    hide TaskStep, TaskEnabled, LastMessages, NewMessages;
    if t < |s.tasks| {
      TaskStays(s, a, t);
    }
    if !a.Receive? && !a.Revoke? {
      if a.t == t {
        PhaseStep(s, a);
      }
      TaskStepFrame(s, a);
      TaskStepKills(s, a);
      hide Apply, PhaseOf, SelectCause;
    }
  }

  /** A task that still listens at the end was woken exactly by a revocation since it registered. */
  lemma {:induction false} RunWokenMeans(s: Agent, actions: seq<Action>, t: nat)
    requires RegistryOk(s) && (t < |s.tasks| ==> EntryOk(s, t))
    requires Run(s, actions).Some? && OnlyTask(Run(s, actions).value, t)
    requires PhaseOf(Run(s, actions).value.tasks[t].pc) != Gone
    ensures t < |s.tasks| ==> PhaseOf(s.tasks[t].pc) != Gone
    ensures var end := Run(s, actions).value;
      var id := end.tasks[t].id;
      if t < |s.tasks| && PhaseOf(s.tasks[t].pc) == Listening
      then t in end.kills.woken <==> t in s.kills.woken || Revoke(id) in actions
      else t in end.kills.woken <==> RevokedSince(actions, t, id)
    decreases |actions|
  {
    hide OnlyTask, Enabled, Apply, RegistryOk, PhaseOf;
    if actions == [] {
      OnlyExists(s, t);
    } else {
      var a, rest := actions[0], actions[1..];
      var next := Apply(s, a);
      assert actions == [a] + rest;
      RegistryStep(s, a);
      if t < |next.tasks| {
        RunTaskStays(next, rest, t);
        EntryStep(s, a, t);
        RunWokenMeans(next, rest, t);
        WokenStep(s, a, t);
        if t < |s.tasks| {
          TaskStays(s, a, t);
        }
      } else {
        NotYetRegistered(s, a, t);
        RunWokenMeans(next, rest, t);
      }
    }
  }

  lemma NotYetRegistered(s: Agent, a: Action, t: nat)
    requires Enabled(s, a) && t >= |Apply(s, a).tasks|
    ensures t >= |s.tasks| && a != Register(t)
  {}

  /** A job that is over still has a registry entry if and only if it failed to spawn and no revocation
      arrived after it had registered. */
  lemma EntryOutlivesJob(windows: bool, key: StoredKey, actions: seq<Action>, t: nat)
    requires Run(Initial(windows, key), actions).Some?
    requires OnlyTask(Run(Initial(windows, key), actions).value, t)
    requires Run(Initial(windows, key), actions).value.tasks[t].pc.Over?
    ensures var s := Run(Initial(windows, key), actions).value;
      s.tasks[t].id in s.kills.senders <==>
        s.tasks[t].pc.cause.SpawnFailed? && !RevokedSince(actions, t, s.tasks[t].id)
  {
    hide Run;
    RunEntry(Initial(windows, key), actions, t);
    RunRegistry(Initial(windows, key), actions);
    var s := Run(Initial(windows, key), actions).value;
    if s.tasks[t].pc.cause.SpawnFailed? {
      RunWokenMeans(Initial(windows, key), actions, t);
    }
  }

  // ---- short runs, step by step ----

  predicate Leads(s: Agent, a: Action, s': Agent) { Enabled(s, a) && Apply(s, a) == s' }

  /** A run given moment by moment. */
  lemma {:induction false} RunThrough(run: seq<Action>, moments: seq<Agent>, i: nat)
    requires |moments| == |run| + 1 && i <= |run|
    requires forall k :: 0 <= k < |run| ==> Leads(moments[k], run[k], moments[k + 1])
    ensures Run(moments[i], run[i..]) == Some(moments[|run|])
    decreases |run| - i
  {
    hide Enabled, Apply;
    if i < |run| {
      assert Leads(moments[i], run[i], moments[i + 1]);
      assert run[i..][0] == run[i] && run[i..][1..] == run[i + 1..];
      RunThrough(run, moments, i + 1);
    }
  }

  /** An agent with one task. */
  function OneTask(s: Agent, task: Task, kills: KillMap, revoked: set<Uuid>, out: seq<Emission>): Agent {
    s.(tasks := [task], kills := kills, revoked := revoked, out := out)
  }

  lemma SendLast(s: Agent, c: Cause, m: AgentMessage, rest: seq<AgentMessage>)
    requires |s.tasks| == 1 && s.tasks[0].pc == Sending(c, [m] + rest)
    ensures Enabled(s, SendNext(0))
    ensures Apply(s, SendNext(0)) == s.(tasks := [s.tasks[0].(pc := Sending(c, rest))], out := s.out + [Emission(0, m)])
  {
    assert ([m] + rest)[1..] == rest;
  }

  lemma SendDone(s: Agent, c: Cause)
    requires |s.tasks| == 1 && s.tasks[0].pc == Sending(c, [])
    ensures Enabled(s, SendNext(0))
    ensures Apply(s, SendNext(0)) == s.(tasks := [s.tasks[0].(pc := Over(c))])
  {}

  const SCRIPT := RunScript(Sh, "")

  function FailedSpawnRun(id: Uuid, error: string): (run: seq<Action>)
    ensures |run| == 6
  {
    [Receive(id, SCRIPT, Accepted), Register(0), Spawn(0, Some(error)), SendNext(0), SendNext(0), SendNext(0)]
  }

  lemma FailedSpawnStarts(s0: Agent, id: Uuid, error: string)
    requires s0 == Initial(false, s0.key)
    ensures var log, done := JobLog(id, FailedToSpawn(error), Stderr), JobCompleted(id, -1);
      var entered := OneTask(s0, Task(id, SCRIPT, true, Entered), s0.kills, {}, []);
      var listed := OneTask(s0, Task(id, SCRIPT, true, Listed), KillMap(map[id := 0], {}), {}, []);
      var last := Sending(SpawnFailed(error), [log] + ([done] + []));
      && Leads(s0, Receive(id, SCRIPT, Accepted), entered)
      && Leads(entered, Register(0), listed)
      && Leads(listed, Spawn(0, Some(error)), listed.(tasks := [Task(id, SCRIPT, true, last)]))
  {
    var log, done := JobLog(id, FailedToSpawn(error), Stderr), JobCompleted(id, -1);
    assert [log] + ([done] + []) == LastMessages(id, SCRIPT, SpawnFailed(error));
  }

  /** A run that leaves an entry behind: the program of the job cannot be started. */
  lemma FailedSpawnLeavesEntry(key: StoredKey, id: Uuid, error: string)
    ensures var end := Run(Initial(false, key), FailedSpawnRun(id, error));
      && end.Some? && end.value.tasks == [Task(id, SCRIPT, true, Over(SpawnFailed(error)))]
      && end.value.kills.senders == map[id := 0] && OnlyTask(end.value, 0)
  {
    var s0 := Initial(false, key);
    var cause := SpawnFailed(error);
    var log, done := JobLog(id, FailedToSpawn(error), Stderr), JobCompleted(id, -1);
    var kills := KillMap(map[id := 0], {});
    var s1 := OneTask(s0, Task(id, SCRIPT, true, Entered), s0.kills, {}, []);
    var s2 := OneTask(s0, Task(id, SCRIPT, true, Listed), kills, {}, []);
    var s3 := OneTask(s0, Task(id, SCRIPT, true, Sending(cause, [log] + ([done] + []))), kills, {}, []);
    var s4 := OneTask(s0, Task(id, SCRIPT, true, Sending(cause, [done] + [])), kills, {}, [] + [Emission(0, log)]);
    var s5 := OneTask(s0, Task(id, SCRIPT, true, Sending(cause, [])), kills, {},
                      [] + [Emission(0, log)] + [Emission(0, done)]);
    var s6 := s5.(tasks := [Task(id, SCRIPT, true, Over(cause))]);
    FailedSpawnStarts(s0, id, error);
    SendLast(s3, cause, log, [done] + []);
    SendLast(s4, cause, done, []);
    SendDone(s5, cause);
    assert Leads(s3, SendNext(0), s4) && Leads(s4, SendNext(0), s5) && Leads(s5, SendNext(0), s6);
    hide Leads, Run, Enabled, Apply;
    RunThrough(FailedSpawnRun(id, error), [s0, s1, s2, s3, s4, s5, s6], 0);
    assert FailedSpawnRun(id, error)[0..] == FailedSpawnRun(id, error);
  }

  // ---- the fate of a revoked job ----

  /** The task was not killed, and its kill arm is not ready. */
  ghost predicate Unkilled(s: Agent, t: nat) {
    t < |s.tasks| && !CauseIs(s.tasks[t].pc, Killed) && (Killable(s.tasks[t].pc) ==> t !in s.kills.woken)
  }

  lemma UnkilledStep(s: Agent, a: Action, t: nat)
    requires RegistryOk(s) && Enabled(s, a) && OnlyTask(s, t) && Unkilled(s, t) && a != Revoke(s.tasks[t].id)
    ensures Unkilled(Apply(s, a), t)
  {
    hide TaskStep, TaskEnabled, LastMessages, NewMessages;
    if !a.Receive? && !a.Revoke? {
      TaskStepFrame(s, a);
      TaskStepKills(s, a);
      DecideKilledNeedsWake(s, a);
      hide Apply;
    }
  }

  lemma {:induction false} RunUnkilled(s: Agent, actions: seq<Action>, t: nat)
    requires RegistryOk(s) && Unkilled(s, t) && Run(s, actions).Some? && OnlyTask(Run(s, actions).value, t)
    requires Revoke(s.tasks[t].id) !in actions
    ensures Unkilled(Run(s, actions).value, t)
    decreases |actions|
  {
    hide OnlyTask, Enabled, Apply, RegistryOk;
    if actions != [] {
      RunTaskStays(s, actions, t);
      RegistryStep(s, actions[0]);
      UnkilledStep(s, actions[0], t);
      TaskStays(s, actions[0], t);
      RunUnkilled(Apply(s, actions[0]), actions[1..], t);
    }
  }

  /** A task that has a child, or was killed, is not one the agent works on by itself. */
  ghost predicate ChildOk(s: Agent, t: nat) {
    t < |s.tasks| && (HasReaders(s.tasks[t].pc) || CauseIs(s.tasks[t].pc, Killed)) ==>
      !InProcess(s.windows, s.tasks[t].payload)
  }

  lemma ChildMoves(s: Agent, a: Action)
    requires Enabled(s, a) && !a.Receive? && !a.Revoke?
    ensures var pc, pc' := s.tasks[a.t].pc, Apply(s, a).tasks[a.t].pc;
      && (HasReaders(pc') ==> HasReaders(pc) || (a.Spawn? && !InProcess(s.windows, s.tasks[a.t].payload)))
      && (CauseIs(pc', Killed) ==> CauseIs(pc, Killed) || HasReaders(pc))
  {
    hide LastMessages, Registered, Removed;
  }

  lemma ChildStep(s: Agent, a: Action, t: nat)
    requires Enabled(s, a) && ChildOk(s, t)
    ensures ChildOk(Apply(s, a), t)
  {
    hide TaskStep, TaskEnabled, LastMessages, NewMessages, InProcess;
    if !a.Receive? && !a.Revoke? {
      TaskStepFrame(s, a);
      ChildMoves(s, a);
      hide Apply;
    }
  }

  lemma {:induction false} RunChildOk(s: Agent, actions: seq<Action>, t: nat)
    requires ChildOk(s, t) && Run(s, actions).Some?
    ensures ChildOk(Run(s, actions).value, t)
    decreases |actions|
  {
    hide Enabled, Apply, ChildOk;
    if actions != [] {
      ChildStep(s, actions[0], t);
      RunChildOk(Apply(s, actions[0]), actions[1..], t);
    }
  }

  /** The first and only revocation of a job that has not yet ended its select reaches it if and only if the job
      is registered at that moment and runs in a child process: then its kill arm is ready whenever its
      select runs, and otherwise the job is never killed. Registered is every job but one just accepted. */
  lemma RevocationReaches(windows: bool, key: StoredKey, actions: seq<Action>, t: nat, later: seq<Action>)
    requires Run(Initial(windows, key), actions).Some?
    requires var s := Run(Initial(windows, key), actions).value;
      && t < |s.tasks| && Killable(s.tasks[t].pc) && s.tasks[t].id !in s.revoked && Revoke(s.tasks[t].id) !in later
      && Run(Apply(s, Revoke(s.tasks[t].id)), later).Some?
      && OnlyTask(Run(Apply(s, Revoke(s.tasks[t].id)), later).value, t)
    ensures var s := Run(Initial(windows, key), actions).value;
      var end := Run(Apply(s, Revoke(s.tasks[t].id)), later).value;
      var reached := s.tasks[t].id in s.kills.senders && !InProcess(windows, s.tasks[t].payload);
      && (s.tasks[t].id in s.kills.senders <==> s.tasks[t].pc != Entered)
      && t < |end.tasks|
      && (end.tasks[t].pc.Running? ==> (Enabled(end, Decide(t, Killed)) <==> reached))
      && (!reached ==> !Enabled(end, Decide(t, Killed)) && !CauseIs(end.tasks[t].pc, Killed))
  {
    hide Run, LastMessages, OnlyTask, InProcess;
    var s0 := Initial(windows, key);
    var s := Run(s0, actions).value;
    var id := s.tasks[t].id;
    var told := Apply(s, Revoke(id));
    RunTaskStays(told, later, t);
    TaskStays(s, Revoke(id), t);
    RunEntry(s0, actions, t);
    RunRegistry(s0, actions);
    RunKillAsked(s0, actions, t);
    RunWindows(s0, actions);
    RegistryStep(s, Revoke(id));
    RunChildOk(s0, actions, t);
    ChildStep(s, Revoke(id), t);
    RunChildOk(told, later, t);
    ListedHoldsEntry(s, t);
    if id !in s.kills.senders {
      RunUnkilled(told, later, t);
    }
  }

  lemma ListedHoldsEntry(s: Agent, t: nat)
    requires RegistryOk(s) && OnlyTask(s, t) && EntryOk(s, t) && KillAsked(s, t)
    requires Killable(s.tasks[t].pc) && s.tasks[t].id !in s.revoked
    ensures s.tasks[t].id in s.kills.senders <==> s.tasks[t].pc != Entered
    ensures var told := Apply(s, Revoke(s.tasks[t].id));
      if s.tasks[t].id in s.kills.senders then t in told.kills.woken else Unkilled(told, t)
  {}

  lemma {:induction false} RunWindows(s: Agent, actions: seq<Action>)
    requires Run(s, actions).Some?
    ensures Run(s, actions).value.windows == s.windows
    decreases |actions|
  {
    hide Enabled;
    if actions != [] {
      WindowsStays(s, actions[0]);
      hide Apply;
      RunWindows(Apply(s, actions[0]), actions[1..]);
    }
  }

  lemma WindowsStays(s: Agent, a: Action)
    requires Enabled(s, a)
    ensures Apply(s, a).windows == s.windows
  {
    hide TaskStep, TaskEnabled, LastMessages, NewMessages;
    if !a.Receive? && !a.Revoke? {
      TaskStepFrame(s, a);
    }
  }

  function LostRevocationRun(id: Uuid): (run: seq<Action>)
    ensures |run| == 11
  {
    [Receive(id, SCRIPT, Accepted), Revoke(id), Register(0), Spawn(0, None), EndOfFile(0, Stdout), EndOfFile(0, Stderr),
     Decide(0, Exited(Some(0))), Deregister(0), Join(0), SendNext(0), SendNext(0)]
  }

  /** The control of the one task after `i` actions of that run. */
  function PcAfter(id: Uuid, i: nat): Pc {
    var cause, done := Exited(Some(0)), JobCompleted(id, 0);
    if i <= 2 then Entered
    else if i == 3 then Listed
    else if i == 4 then Running(Reading, Reading)
    else if i == 5 then Running(AgentJobs.Closed, Reading)
    else if i == 6 then Running(AgentJobs.Closed, AgentJobs.Closed)
    else if i == 7 then Decided(cause, AgentJobs.Closed, AgentJobs.Closed)
    else if i == 8 then Joining(cause, AgentJobs.Closed, AgentJobs.Closed)
    else if i == 9 then Sending(cause, [done])
    else if i == 10 then Sending(cause, [])
    else Over(cause)
  }

  /** The whole agent after `i` actions of that run. */
  function Moment(key: StoredKey, id: Uuid, i: nat): Agent {
    Agent(false, key,
          if i == 0 then [] else [Task(id, SCRIPT, true, PcAfter(id, i))],
          if i <= 2 then KillMap(map[], {}) else if i <= 7 then KillMap(map[id := 0], {}) else KillMap(map[], {0}),
          if i <= 1 then {} else {id},
          if i <= 9 then [] else [Emission(0, JobCompleted(id, 0))])
  }

  lemma StartMoments(key: StoredKey, id: Uuid, i: nat)
    requires i < 4
    ensures var a := LostRevocationRun(id)[i];
      Leads(Moment(key, id, i), a, Moment(key, id, i + 1))
  {
    hide LastMessages;
  }

  lemma SelectMoments(key: StoredKey, id: Uuid, i: nat)
    requires 4 <= i < 8
    ensures var a := LostRevocationRun(id)[i];
      Leads(Moment(key, id, i), a, Moment(key, id, i + 1))
  {
    hide LastMessages;
    assert map[id := 0 as nat] - {id} == map[];
  }

  lemma EndMoments(key: StoredKey, id: Uuid, i: nat)
    requires 8 <= i < 11
    ensures var a := LostRevocationRun(id)[i];
      Leads(Moment(key, id, i), a, Moment(key, id, i + 1))
  {
    if i > 8 {
      hide LastMessages;
      assert [JobCompleted(id, 0)][1..] == [];
    }
  }

  /** A run that loses a revocation: it arrives before the accepted job has registered, and the job runs
      to its end and reports success. */
  lemma RevokedJobRunsToEnd(key: StoredKey, id: Uuid)
    ensures var end := Run(Initial(false, key), LostRevocationRun(id));
      && end.Some? && id in end.value.revoked && OnlyTask(end.value, 0)
      && end.value.tasks == [Task(id, SCRIPT, true, Over(Exited(Some(0))))]
      && end.value.out == [Emission(0, JobCompleted(id, 0))]
  {
    hide Run, Leads, LostRevocationRun;
    var run := LostRevocationRun(id);
    var moments := seq(12, i requires 0 <= i < 12 => Moment(key, id, i));
    forall i | 0 <= i < 11
      ensures Leads(moments[i], run[i], moments[i + 1])
    {
      if i < 4 {
        StartMoments(key, id, i);
      } else if i < 8 {
        SelectMoments(key, id, i);
      } else {
        EndMoments(key, id, i);
      }
    }
    RunThrough(run, moments, 0);
    assert run[0..] == run;
  }

  function LateInventoryRun(id: Uuid): (run: seq<Action>)
    ensures |run| == 8
  {
    [Receive(id, CollectInventory, Accepted), Register(0), Revoke(id), EnterArm(0), FinishWork(0, Inventoried),
     SendNext(0), SendNext(0), SendNext(0)]
  }

  function InventoryPcAfter(id: Uuid, i: nat): Pc {
    if i <= 1 then Entered
    else if i <= 3 then Listed
    else if i == 4 then Working
    else if i == 5 then Sending(Inventoried, [InventoryReport, JobCompleted(id, 0)])
    else if i == 6 then Sending(Inventoried, [JobCompleted(id, 0)])
    else if i == 7 then Sending(Inventoried, [])
    else Over(Inventoried)
  }

  function InventoryMoment(windows: bool, key: StoredKey, id: Uuid, i: nat): Agent {
    var report, done := Emission(0, InventoryReport), Emission(0, JobCompleted(id, 0));
    Agent(windows, key,
          if i == 0 then [] else [Task(id, CollectInventory, true, InventoryPcAfter(id, i))],
          if i <= 1 then KillMap(map[], {}) else if i == 2 then KillMap(map[id := 0], {}) else KillMap(map[], {0}),
          if i <= 2 then {} else {id},
          if i <= 5 then [] else if i == 6 then [report] else [report, done])
  }

  lemma InventoryStarts(windows: bool, key: StoredKey, id: Uuid, i: nat)
    requires i < 5
    ensures var a := LateInventoryRun(id)[i];
      Leads(InventoryMoment(windows, key, id, i), a, InventoryMoment(windows, key, id, i + 1))
  {
    assert map[id := 0 as nat] - {id} == map[];
  }

  lemma InventoryEnds(windows: bool, key: StoredKey, id: Uuid, i: nat)
    requires 5 <= i < 8
    ensures var a := LateInventoryRun(id)[i];
      Leads(InventoryMoment(windows, key, id, i), a, InventoryMoment(windows, key, id, i + 1))
  {
    hide LastMessages;
    var done := JobCompleted(id, 0);
    assert [InventoryReport, done][1..] == [done] && [done][1..] == [];
  }

  /** A registered job that no revocation reaches: the agent collects the inventory itself, without ever
      looking at the kill channel, and reports success. */
  lemma RevokedInventoryRunsToEnd(windows: bool, key: StoredKey, id: Uuid)
    ensures var end := Run(Initial(windows, key), LateInventoryRun(id));
      && end.Some? && id in end.value.revoked && OnlyTask(end.value, 0)
      && end.value.tasks == [Task(id, CollectInventory, true, Over(Inventoried))]
      && end.value.out == [Emission(0, InventoryReport), Emission(0, JobCompleted(id, 0))]
  {
    hide Run, Leads, LateInventoryRun;
    var run := LateInventoryRun(id);
    var moments := seq(9, i requires 0 <= i < 9 => InventoryMoment(windows, key, id, i));
    forall i | 0 <= i < 8
      ensures Leads(moments[i], run[i], moments[i + 1])
    {
      if i < 5 {
        InventoryStarts(windows, key, id, i);
      } else {
        InventoryEnds(windows, key, id, i);
      }
    }
    RunThrough(run, moments, 0);
    assert run[0..] == run;
  }
}
