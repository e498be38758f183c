/** No line of a job is lost, repeated or reordered: what the readers read is what the channel carries. */
module AgentLines {
  import opened Common
  import opened Signing
  import opened AgentJobs
  import opened AgentRuns

  function IsLogOn(stream: Stream): AgentMessage -> bool { (m: AgentMessage) => m.JobLog? && m.stream == stream }

  function LineOf(): AgentMessage -> string { (m: AgentMessage) => if m.JobLog? then Render(m.text) else "" }

  /** The lines logged on one stream, in order. */
  function LogLines(ms: seq<AgentMessage>, stream: Stream): seq<string> { Map(Filter(ms, IsLogOn(stream)), LineOf()) }

  /** The lines one task's reader read from its child, in order. */
  function LinesRead(actions: seq<Action>, t: nat, stream: Stream): seq<string> {
    if actions == [] then []
    else LineRead(actions[0], t, stream) + LinesRead(actions[1..], t, stream)
  }

  function LineRead(a: Action, t: nat, stream: Stream): seq<string> {
    if a.ReadLine? && a.t == t && a.stream == stream then [a.line] else []
  }

  function Held(r: Reader): seq<string> { if r.Holding? then [r.line] else [] }

  /** Lines logged and held account for the lines read; from the verdict on, its own messages follow. */
  predicate Accounted(task: Task, sent: seq<AgentMessage>, stream: Stream, read: seq<string>) {
    var pc := task.pc;
    match pc
    case Sending(c, rest) =>
      LogLines(sent + rest, stream) == read + LogLines(LastMessages(task.id, task.payload, c), stream)
    case Over(c) => LogLines(sent, stream) == read + LogLines(LastMessages(task.id, task.payload, c), stream)
    case _ =>
      if HasReaders(pc) then LogLines(sent, stream) + Held(ReaderOf(pc, stream)) == read
      else sent == [] && read == []
  }

  ghost predicate TaskAccounted(s: Agent, t: nat, stream: Stream, read: seq<string>) {
    if t < |s.tasks| then Accounted(s.tasks[t], Trace(s.out, t), stream, read) else read == []
  }

  lemma LogLinesAppend(a: seq<AgentMessage>, b: seq<AgentMessage>, stream: Stream)
    ensures LogLines(a + b, stream) == LogLines(a, stream) + LogLines(b, stream)
  {
    FilterAppend(a, b, IsLogOn(stream));
    MapAppend(Filter(a, IsLogOn(stream)), Filter(b, IsLogOn(stream)), LineOf());
  }

  lemma LogLinesOne(m: AgentMessage, stream: Stream)
    ensures LogLines([m], stream) == if m.JobLog? && m.stream == stream then [Render(m.text)] else []
  {
    assert Filter([m], IsLogOn(stream)) == if m.JobLog? && m.stream == stream then [m] else [];
  }

  lemma ReaderStep(s: Agent, a: Action, stream: Stream, read: seq<string>)
    requires Enabled(s, a) && (a.ReadLine? || a.SendLine? || a.EndOfFile?)
    requires Accounted(s.tasks[a.t], Trace(s.out, a.t), stream, read)
    ensures Accounted(Apply(s, a).tasks[a.t], Trace(s.out, a.t) + NewMessages(s, a), stream,
        read + LineRead(a, a.t, stream))
  {
    hide Trace, LogLines, LastMessages;
    var sent := Trace(s.out, a.t);
    assert sent + [] == sent && read + [] == read;
    if a.SendLine? {
      var m := NewMessages(s, a)[0];
      LogLinesAppend(sent, [m], stream);
      LogLinesOne(m, stream);
    }
  }

  lemma SendStep(s: Agent, a: Action, stream: Stream, read: seq<string>)
    requires Enabled(s, a) && a.SendNext?
    requires Accounted(s.tasks[a.t], Trace(s.out, a.t), stream, read)
    ensures Accounted(Apply(s, a).tasks[a.t], Trace(s.out, a.t) + NewMessages(s, a), stream, read)
  {
    hide Trace, LogLines, LastMessages;
    var sent, rest := Trace(s.out, a.t), s.tasks[a.t].pc.rest;
    if rest == [] {
      assert sent + rest == sent;
    } else {
      assert sent + rest == (sent + [rest[0]]) + rest[1..];
    }
  }

  lemma ControlStep(s: Agent, a: Action, stream: Stream, read: seq<string>)
    requires Enabled(s, a)
        && (a.Register? || a.EnterArm? || a.Spawn? || a.FinishWork? || a.Decide? || a.Deregister? || a.Join?)
    requires Accounted(s.tasks[a.t], Trace(s.out, a.t), stream, read)
    ensures Accounted(Apply(s, a).tasks[a.t], Trace(s.out, a.t), stream, read)
  {
    hide Trace, LogLines, LastMessages;
    var task, sent := s.tasks[a.t], Trace(s.out, a.t);
    NoLines(stream);
    match a
    case Spawn(_, error) =>
      if error.Some? {
        assert sent + LastMessages(task.id, task.payload, SpawnFailed(error.value))
            == LastMessages(task.id, task.payload, SpawnFailed(error.value));
      }
    case FinishWork(_, c) =>
      assert sent + LastMessages(task.id, task.payload, c) == LastMessages(task.id, task.payload, c);
    case Join(_) =>
      LogLinesAppend(sent, LastMessages(task.id, task.payload, task.pc.cause), stream);
    case _ =>
  }

  lemma NoLines(stream: Stream)
    ensures LogLines([], stream) == []
  {}

  lemma StepAccounts(s: Agent, a: Action, t: nat, stream: Stream, read: seq<string>)
    requires TasksOk(s) && Enabled(s, a) && TaskAccounted(s, t, stream, read)
    ensures TaskAccounted(Apply(s, a), t, stream, read + LineRead(a, t, stream))
  {
    hide Trace, Accounted, NewMessages, TaskEnabled, TaskStep, LastMessages;
    assert read + [] == read;
    if a.Receive? {
      ReceiveAccounts(s, a, t, stream, read);
    } else if !a.Revoke? {
      TaskStepFrame(s, a);
      TaskStepTrace(s, a, t);
      assert Trace(s.out, t) + [] == Trace(s.out, t);
      if t == a.t {
        OwnStep(s, a, stream, read);
      }
    }
  }

  lemma OwnStep(s: Agent, a: Action, stream: Stream, read: seq<string>)
    requires Enabled(s, a) && !a.Receive? && !a.Revoke?
    requires Accounted(s.tasks[a.t], Trace(s.out, a.t), stream, read)
    ensures Accounted(Apply(s, a).tasks[a.t], Trace(s.out, a.t) + NewMessages(s, a), stream,
        read + LineRead(a, a.t, stream))
  {
    hide Trace, Accounted, Apply;
    assert read + [] == read && Trace(s.out, a.t) + [] == Trace(s.out, a.t);
    if a.ReadLine? || a.SendLine? || a.EndOfFile? {
      ReaderStep(s, a, stream, read);
    } else if a.SendNext? {
      SendStep(s, a, stream, read);
    } else {
      ControlStep(s, a, stream, read);
    }
  }

  lemma ReceiveAccounts(s: Agent, a: Action, t: nat, stream: Stream, read: seq<string>)
    requires TasksOk(s) && a.Receive? && TaskAccounted(s, t, stream, read)
    ensures TaskAccounted(Apply(s, a), t, stream, read)
  {
    hide Trace, LogLines, LastMessages, TaskOk;
    if t == |s.tasks| {
      TraceOfUnknownTask(s.out, t);
      var last := LastMessages(a.id, a.payload, Rejected(a.verdict));
      assert [] + last == last;
    }
  }

  lemma {:induction false} RunAccounts(s: Agent, actions: seq<Action>, t: nat, stream: Stream, read: seq<string>)
    requires TasksOk(s) && Run(s, actions).Some? && TaskAccounted(s, t, stream, read)
    ensures TaskAccounted(Run(s, actions).value, t, stream, read + LinesRead(actions, t, stream))
    decreases |actions|
  {
    hide TasksOk, Apply, Enabled, TaskAccounted, LineRead;
    if actions == [] {
      assert read + [] == read;
    } else {
      StepOk(s, actions[0]);
      StepAccounts(s, actions[0], t, stream, read);
      RunAccounts(Apply(s, actions[0]), actions[1..], t, stream, read + LineRead(actions[0], t, stream));
      assert (read + LineRead(actions[0], t, stream)) + LinesRead(actions[1..], t, stream)
          == read + LinesRead(actions, t, stream);
    }
  }

  /** In every interleaving, once a task is over the lines it logged on a stream are exactly the lines
      its reader read from the child, in order, and then those of its verdict. */
  lemma LinesDeliveredInOrder(windows: bool, key: StoredKey, actions: seq<Action>, t: nat, stream: Stream)
    requires Run(Initial(windows, key), actions).Some?
    requires var s := Run(Initial(windows, key), actions).value; t < |s.tasks| && s.tasks[t].pc.Over?
    ensures var s := Run(Initial(windows, key), actions).value;
      var task := s.tasks[t];
      LogLines(Trace(s.out, t), stream)
        == LinesRead(actions, t, stream) + LogLines(LastMessages(task.id, task.payload, task.pc.cause), stream)
  {
    hide Run, Trace, LogLines, LastMessages, LinesRead;
    InitialOk(windows, key);
    RunAccounts(Initial(windows, key), actions, t, stream, []);
    assert [] + LinesRead(actions, t, stream) == LinesRead(actions, t, stream);
  }
}
