/** Who can kill a running job, and when a revocation reaches it. */
module AgentKills {
  import opened Common
  import opened Signing
  import opened AgentJobs
  import opened AgentRuns

  /** The task's receiver is, or is about to be, polled by its select. */
  predicate Killable(pc: Pc) { pc == Entered || pc == Listed || pc.Running? }

  predicate CauseIs(pc: Pc, c: Cause) {
    (pc.Decided? || pc.Joining? || pc.Sending? || pc.Over?) && pc.cause == c
  }

  ghost predicate RegistryOk(s: Agent) {
    && (forall id :: id in s.kills.senders ==>
          s.kills.senders[id] < |s.tasks| && s.tasks[s.kills.senders[id]].id == id
            && s.tasks[s.kills.senders[id]].pc != Entered)
    && (forall t :: t in s.kills.woken ==> t < |s.tasks|)
    && (forall t :: 0 <= t < |s.tasks| && (s.tasks[t].pc == Listed || s.tasks[t].pc.Running?) ==>
          t in s.kills.woken || (s.tasks[t].id in s.kills.senders && s.kills.senders[s.tasks[t].id] == t))
  }

  /** Only a revocation wakes the task while it can still be killed, or has killed it. */
  ghost predicate KillAsked(s: Agent, t: nat) {
    t < |s.tasks| && ((t in s.kills.woken && Killable(s.tasks[t].pc)) || CauseIs(s.tasks[t].pc, Killed)) ==>
      s.tasks[t].id in s.revoked
  }

  lemma TaskStepKills(s: Agent, a: Action)
    requires Enabled(s, a) && !a.Receive? && !a.Revoke?
    ensures Apply(s, a).kills == match a
              case Register(t) => Registered(s.kills, s.tasks[t].id, t)
              case EnterArm(t) => Removed(s.kills, s.tasks[t].id)
              case Deregister(t) => Removed(s.kills, s.tasks[t].id)
              case _ => s.kills
    ensures var pc, pc' := s.tasks[a.t].pc, Apply(s, a).tasks[a.t].pc;
      && (Killable(pc') ==> Killable(pc) && pc' != Entered && (pc == Entered ==> a.Register?))
      && (pc' == Listed || pc'.Running? ==> a.Register? || pc == Listed || pc.Running?)
      && (CauseIs(pc', Killed) ==> CauseIs(pc, Killed) || (a == Decide(a.t, Killed)))
      && (a.EnterArm? || a.Deregister? ==> !Killable(pc'))
      && (a.Register? ==> pc == Entered)
      && pc' != Entered
  {
    hide LastMessages, Registered, Removed;
  }

  lemma RegistryStep(s: Agent, a: Action)
    requires RegistryOk(s) && Enabled(s, a)
    ensures RegistryOk(Apply(s, a))
  {
    hide TaskStep, TaskEnabled, LastMessages, NewMessages;
    if !a.Receive? && !a.Revoke? {
      hide Apply;
      TaskStepFrame(s, a);
      TaskStepKills(s, a);
    }
  }

  lemma KillsStep(s: Agent, a: Action, t: nat)
    requires RegistryOk(s) && KillAsked(s, t) && Enabled(s, a) && OnlyTask(Apply(s, a), t)
    ensures KillAsked(Apply(s, a), t)
  {
    hide TaskStep, TaskEnabled, LastMessages, NewMessages;
    if !a.Receive? && !a.Revoke? {
      TaskStepFrame(s, a);
      TaskStepKills(s, a);
      DecideKilledNeedsWake(s, a);
      hide Apply;
    }
  }

  lemma DecideKilledNeedsWake(s: Agent, a: Action)
    requires Enabled(s, a)
    ensures a.Decide? && a.cause == Killed ==> a.t in s.kills.woken && s.tasks[a.t].pc.Running?
  {}

  lemma TaskStays(s: Agent, a: Action, t: nat)
    requires Enabled(s, a) && t < |s.tasks|
    ensures var s' := Apply(s, a);
      && s'.tasks[t].id == s.tasks[t].id && s'.tasks[t].payload == s.tasks[t].payload
      && s.kills.woken <= s'.kills.woken && s'.windows == s.windows
      && (OnlyTask(s', t) ==> OnlyTask(s, t))
  {
    hide TaskStep, TaskEnabled, LastMessages, NewMessages;
    if !a.Receive? && !a.Revoke? {
      TaskStepFrame(s, a);
      TaskStepKills(s, a);
      hide Apply;
    }
    var s' := Apply(s, a);
    assert forall k :: 0 <= k < |s.tasks| ==> s'.tasks[k].id == s.tasks[k].id;
  }

  lemma {:induction false} RunTaskStays(s: Agent, actions: seq<Action>, t: nat)
    requires Run(s, actions).Some? && t < |s.tasks|
    ensures var end := Run(s, actions).value;
      && t < |end.tasks|
      && end.tasks[t].id == s.tasks[t].id && end.tasks[t].payload == s.tasks[t].payload
      && s.kills.woken <= end.kills.woken && end.windows == s.windows
      && (OnlyTask(end, t) ==> OnlyTask(s, t))
    decreases |actions|
  {
    hide OnlyTask, Enabled;
    if actions != [] {
      TaskStays(s, actions[0], t);
      hide Apply;
      RunTaskStays(Apply(s, actions[0]), actions[1..], t);
    }
  }

  lemma {:induction false} RunRegistry(s: Agent, actions: seq<Action>)
    requires RegistryOk(s) && Run(s, actions).Some?
    ensures RegistryOk(Run(s, actions).value)
    decreases |actions|
  {
    hide Enabled, Apply, RegistryOk;
    if actions != [] {
      RegistryStep(s, actions[0]);
      RunRegistry(Apply(s, actions[0]), actions[1..]);
    }
  }

  lemma {:induction false} RunKillAsked(s: Agent, actions: seq<Action>, t: nat)
    requires RegistryOk(s) && KillAsked(s, t) && Run(s, actions).Some? && OnlyTask(Run(s, actions).value, t)
    ensures KillAsked(Run(s, actions).value, t)
    decreases |actions|
  {
    hide OnlyTask, Enabled, Apply, RegistryOk, KillAsked;
    if actions != [] {
      var next := Apply(s, actions[0]);
      RegistryStep(s, actions[0]);
      if t < |next.tasks| {
        RunTaskStays(next, actions[1..], t);
        KillsStep(s, actions[0], t);
      } else {
        NoTaskAsked(next, t);
      }
      RunKillAsked(next, actions[1..], t);
    }
  }

  lemma NoTaskAsked(s: Agent, t: nat)
    requires t >= |s.tasks|
    ensures KillAsked(s, t)
  {}

  /** A job whose id no other job has ends as killed (exit code -4) only if it was revoked. */
  lemma KilledOnlyIfRevoked(windows: bool, key: StoredKey, actions: seq<Action>, t: nat)
    requires Run(Initial(windows, key), actions).Some?
    requires OnlyTask(Run(Initial(windows, key), actions).value, t)
    requires CauseIs(Run(Initial(windows, key), actions).value.tasks[t].pc, Killed)
    ensures Run(Initial(windows, key), actions).value.tasks[t].id in Run(Initial(windows, key), actions).value.revoked
  {
    hide Run;
    RunKillAsked(Initial(windows, key), actions, t);
  }

  /** A revocation makes the kill arm of a running job ready, in every reachable state. */
  lemma RevocationReachesRunningJob(windows: bool, key: StoredKey, actions: seq<Action>, t: nat)
    requires Run(Initial(windows, key), actions).Some?
    requires OnlyTask(Run(Initial(windows, key), actions).value, t)
    requires Run(Initial(windows, key), actions).value.tasks[t].pc.Running?
    ensures var s := Run(Initial(windows, key), actions).value;
      Enabled(Apply(s, Revoke(s.tasks[t].id)), Decide(t, Killed))
  {
    hide Run;
    RunRegistry(Initial(windows, key), actions);
  }

  /** Without distinct ids the guarantee fails: registering an id again drops the first
      sender, so the first job can be killed although nobody revoked it. */
  lemma DuplicateIdKillsFirstJob(s: Agent, t: nat)
    requires t < |s.tasks| && s.tasks[t].pc.Running?
    requires s.tasks[t].id in s.kills.senders && s.kills.senders[s.tasks[t].id] == t
    ensures var again := [Receive(s.tasks[t].id, s.tasks[t].payload, Accepted), Register(|s.tasks|)];
      && Run(s, again).Some?
      && Run(s, again).value.revoked == s.revoked
      && Enabled(Run(s, again).value, Decide(t, Killed))
  {
    hide LastMessages;
    var again := [Receive(s.tasks[t].id, s.tasks[t].payload, Accepted), Register(|s.tasks|)];
    var s1 := Apply(s, again[0]);
    var s2 := Apply(s1, again[1]);
    assert s1.tasks[t] == s.tasks[t] && s1.tasks[|s.tasks|].pc == Entered;
    assert s2.tasks[t] == s.tasks[t] && t in s2.kills.woken;
    hide Apply;
    assert again[1..] == [again[1]] && again[1..][1..] == [];
    assert Run(s2, []) == Some(s2);
    assert Run(s1, again[1..]) == Some(s2);
  }
}
