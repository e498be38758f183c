/** The agent's side of the job protocol: received jobs run as concurrent tasks that share
    one outbound channel and one kill registry. Every action below is one atomic step of
    one task; a run is any interleaving of them. */
module AgentJobs {
  import opened Common
  import opened Payloads
  import opened Signing
  import Numerals

  // ---- the kill registry (jobs/registry.rs) ----

  /** `senders` maps a job to the number of its kill channel; `woken` holds the channels whose
      sender was used or dropped, either of which completes the receiver. */
  datatype KillMap = KillMap(senders: map<Uuid, nat>, woken: set<nat>)

  function Registered(k: KillMap, id: Uuid, channel: nat): KillMap {
    KillMap(k.senders[id := channel], if id in k.senders then k.woken + {k.senders[id]} else k.woken)
  }

  function Removed(k: KillMap, id: Uuid): KillMap {
    if id in k.senders then KillMap(k.senders - {id}, k.woken + {k.senders[id]}) else k
  }

  class Registry {
    var senders: map<Uuid, nat>
    var woken: set<nat>

    ghost function State(): KillMap
      reads this
    {
      KillMap(senders, woken)
    }

    constructor ()
      ensures State() == KillMap(map[], {})
    {
      senders, woken := map[], {};
    }

    /** Inserting over an old entry drops its sender. */
    method Register(id: Uuid, channel: nat)
      modifies this
      ensures State() == old(Registered(State(), id, channel))
    {
      if id in senders {
        woken := woken + {senders[id]};
      }
      senders := senders[id := channel];
    }

    /** True exactly when a sender was registered and its receiver still listens. */
    method Cancel(id: Uuid, listening: set<nat>) returns (ok: bool)
      modifies this
      ensures State() == old(Removed(State(), id))
      ensures ok <==> old(id in senders && senders[id] in listening)
    {
      ok := false;
      if id in senders {
        var tx := senders[id];
        senders := senders - {id};
        woken := woken + {tx};
        ok := tx in listening;
      }
    }

    method Remove(id: Uuid)
      modifies this
      ensures State() == old(Removed(State(), id))
    {
      if id in senders {
        woken := woken + {senders[id]};
      }
      senders := senders - {id};
    }
  }

  // ---- tasks ----

  datatype Stream = Stdout | Stderr

  /** The text of a log line: one read from the child, or one the agent words itself. */
  datatype LogText =
    | ChildLine(line: string)
    | JobRejected(verdict: Verdict)
    | FailedToSpawn(error: string)
    | WroteBytes(bytes: nat, destination: string)
    | WriteError(error: string)

  datatype AgentMessage =
    | JobLog(jobId: Uuid, text: LogText, stream: Stream)
    | JobCompleted(jobId: Uuid, exitCode: int)
    | InventoryReport

  /** A line reader: waiting for a line, holding one it has yet to send, or at end of file. */
  datatype Reader = Reading | Holding(line: string) | Closed

  /** Why a job is over. */
  datatype Cause =
    | Rejected(verdict: Verdict)
    | SpawnFailed(error: string)
    | Exited(code: Option<int>)
    | WaitFailed
    | Killed
    | TimedOut
    | Inventoried
    | Wrote(bytes: nat)
    | WriteFailed(error: string)

  function ExitCode(c: Cause): int {
    match c
    case Rejected(_) => -3
    case SpawnFailed(_) => -1
    case Exited(code) => if code.Some? then code.value else -1
    case WaitFailed => -1
    case Killed => -4
    case TimedOut => -2
    case Inventoried => 0
    case Wrote(_) => 0
    case WriteFailed(_) => -1
  }

  function Reason(v: Verdict): string {
    match v
    case Accepted => ""
    case NoServerKey => "no server signing key configured — re-enroll the agent"
    case NoSignature => "job has no signature"
    case BadSignature => "signature verification failed"
  }

  /** The line as it is sent. */
  function Render(t: LogText): string {
    match t
    case ChildLine(line) => line
    case JobRejected(v) => "Job rejected: " + Reason(v)
    case FailedToSpawn(e) => "Failed to spawn: " + e
    case WroteBytes(n, destination) => "wrote " + Numerals.Decimal(n) + " bytes to " + destination
    case WriteError(e) => e
  }

  /** The messages a task sends once it knows its cause; a script's log lines came before. */
  function LastMessages(id: Uuid, p: JobPayload, c: Cause): seq<AgentMessage> {
    var done := JobCompleted(id, ExitCode(c));
    match c
    case Rejected(v) => [JobLog(id, JobRejected(v), Stderr), done]
    case SpawnFailed(e) => [JobLog(id, FailedToSpawn(e), Stderr), done]
    case Inventoried => [InventoryReport, done]
    case Wrote(n) => [JobLog(id, WroteBytes(n, if p.PushFile? then p.destination else ""), Stdout), done]
    case WriteFailed(e) => [JobLog(id, WriteError(e), Stderr), done]
    case _ => [done]
  }

  datatype Pc =
    | Entered                                         // execute_job begins
    | Listed                                          // kill sender registered
    | Working                                         // in-process arm, entry removed
    | Running(out: Reader, err: Reader)               // child spawned, select pending
    | Decided(cause: Cause, out: Reader, err: Reader) // select done, entry not yet removed
    | Joining(cause: Cause, out: Reader, err: Reader) // waiting for both readers
    | Sending(cause: Cause, rest: seq<AgentMessage>)
    | Over(cause: Cause)

  datatype Task = Task(id: Uuid, payload: JobPayload, accepted: bool, pc: Pc)

  /** A sent message and the task that sent it. */
  datatype Emission = Emission(task: nat, msg: AgentMessage)

  datatype Agent = Agent(windows: bool, key: StoredKey, tasks: seq<Task>, kills: KillMap, revoked: set<Uuid>,
      out: seq<Emission>)

  /** Payloads handled without a child process. */
  predicate InProcess(windows: bool, p: JobPayload) {
    p.CollectInventory? || (windows && p.PushFile?)
  }

  // ---- actions ----

  /** A received job comes with the verdict `verify_job_signature` reached on it. */
  datatype Action =
    | Receive(id: Uuid, payload: JobPayload, verdict: Verdict)
    | Revoke(id: Uuid)
    | Register(t: nat)
    | EnterArm(t: nat)
    | Spawn(t: nat, error: Option<string>)
    | FinishWork(t: nat, cause: Cause)
    | ReadLine(t: nat, stream: Stream, line: string)
    | SendLine(t: nat, stream: Stream)
    | EndOfFile(t: nat, stream: Stream)
    | Decide(t: nat, cause: Cause)
    | Deregister(t: nat)
    | Join(t: nat)
    | SendNext(t: nat)

  predicate HasReaders(pc: Pc) { pc.Running? || pc.Decided? || pc.Joining? }

  function ReaderOf(pc: Pc, stream: Stream): Reader
    requires HasReaders(pc)
  {
    if stream == Stdout then pc.out else pc.err
  }

  function WithReader(pc: Pc, stream: Stream, r: Reader): Pc
    requires HasReaders(pc)
  {
    match pc
    case Running(o, e) => if stream == Stdout then Running(r, e) else Running(o, r)
    case Decided(c, o, e) => if stream == Stdout then Decided(c, r, e) else Decided(c, o, r)
    case Joining(c, o, e) => if stream == Stdout then Joining(c, r, e) else Joining(c, o, r)
  }

  /** The ways an in-process arm can end. */
  predicate WorkCause(p: JobPayload, c: Cause) {
    if p.CollectInventory? then c == Inventoried else c.Wrote? || c.WriteFailed?
  }

  predicate Enabled(s: Agent, a: Action) {
    match a
    case Receive(_, _, _) => true
    case Revoke(_) => true
    case _ => a.t < |s.tasks| && TaskEnabled(s, a)
  }

  predicate TaskEnabled(s: Agent, a: Action)
    requires !a.Receive? && !a.Revoke? && a.t < |s.tasks|
  {
    var task := s.tasks[a.t];
    var pc := task.pc;
    match a
    case Register(_) => pc == Entered
    case EnterArm(_) => pc == Listed && InProcess(s.windows, task.payload)
    case Spawn(_, _) => pc == Listed && !InProcess(s.windows, task.payload)
    case FinishWork(_, c) => pc == Working && WorkCause(task.payload, c)
    case ReadLine(_, stream, _) => HasReaders(pc) && ReaderOf(pc, stream) == Reading
    case SendLine(_, stream) => HasReaders(pc) && ReaderOf(pc, stream).Holding?
    case EndOfFile(_, stream) => HasReaders(pc) && ReaderOf(pc, stream) == Reading
    case Decide(t, c) =>
      pc.Running? && (c.Exited? || c == WaitFailed || c == TimedOut || (c == Killed && t in s.kills.woken))
    case Deregister(_) => pc.Decided?
    case Join(_) => pc.Joining? && pc.out == Closed && pc.err == Closed
    case SendNext(_) => pc.Sending?
  }

  function Goto(s: Agent, t: nat, pc: Pc): Agent
    requires t < |s.tasks|
  {
    s.(tasks := s.tasks[t := s.tasks[t].(pc := pc)])
  }

  function Emit(s: Agent, t: nat, m: AgentMessage): Agent {
    s.(out := s.out + [Emission(t, m)])
  }

  function Apply(s: Agent, a: Action): (s': Agent)
    requires Enabled(s, a)
    ensures |s'.tasks| == |s.tasks| + if a.Receive? then 1 else 0
  {
    match a
    case Receive(id, p, verdict) =>
      var pc := if verdict == Accepted then Entered
        else Sending(Rejected(verdict), LastMessages(id, p, Rejected(verdict)));
      s.(tasks := s.tasks + [Task(id, p, verdict == Accepted, pc)])
    case Revoke(id) => s.(kills := Removed(s.kills, id), revoked := s.revoked + {id})
    case _ => TaskStep(s, a)
  }

  function TaskStep(s: Agent, a: Action): (s': Agent)
    requires !a.Receive? && !a.Revoke? && a.t < |s.tasks| && TaskEnabled(s, a)
    ensures |s'.tasks| == |s.tasks|
  {
    var t := a.t;
    var task := s.tasks[t];
    match a
    case Register(_) => Goto(s, t, Listed).(kills := Registered(s.kills, task.id, t))
    case EnterArm(_) => Goto(s, t, Working).(kills := Removed(s.kills, task.id))
    case Spawn(_, error) =>
      // A failed spawn returns without removing its registry entry.
      if error.None? then Goto(s, t, Running(Reading, Reading))
      else Goto(s, t, Sending(SpawnFailed(error.value), LastMessages(task.id, task.payload, SpawnFailed(error.value))))
    case FinishWork(_, c) => Goto(s, t, Sending(c, LastMessages(task.id, task.payload, c)))
    case ReadLine(_, stream, line) => Goto(s, t, WithReader(task.pc, stream, Holding(line)))
    case SendLine(_, stream) =>
      Emit(Goto(s, t, WithReader(task.pc, stream, Reading)), t,
        JobLog(task.id, ChildLine(ReaderOf(task.pc, stream).line), stream))
    case EndOfFile(_, stream) => Goto(s, t, WithReader(task.pc, stream, Closed))
    case Decide(_, c) => Goto(s, t, Decided(c, task.pc.out, task.pc.err))
    case Deregister(_) =>
      Goto(s, t, Joining(task.pc.cause, task.pc.out, task.pc.err)).(kills := Removed(s.kills, task.id))
    case Join(_) => Goto(s, t, Sending(task.pc.cause, LastMessages(task.id, task.payload, task.pc.cause)))
    case SendNext(_) =>
      if task.pc.rest == [] then Goto(s, t, Over(task.pc.cause))
      else Emit(Goto(s, t, Sending(task.pc.cause, task.pc.rest[1..])), t, task.pc.rest[0])
  }

  function Initial(windows: bool, key: StoredKey): Agent {
    Agent(windows, key, [], KillMap(map[], {}), {}, [])
  }

  function Run(s: Agent, actions: seq<Action>): Option<Agent>
    decreases |actions|
  {
    if actions == [] then Some(s)
    else if Enabled(s, actions[0]) then Run(Apply(s, actions[0]), actions[1..])
    else None
  }
}
