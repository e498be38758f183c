/** Safety of the job table and the agent channels over every run of the handlers. */
module JobRuns {
  import opened Common
  import opened Json
  import opened Payloads
  import opened Signing
  import opened JobServer
  import PayloadTexts

  /** The server, and the ids whose completion some agent has reported. */
  datatype World = World(jobs: Jobs, done: set<Uuid>)

  datatype Event =
    | Create(device: Uuid, payload: Json, id: Uuid)
    | Cancel(id: Uuid)
    | Drain(device: Uuid)
    | Complete(device: Uuid, id: Uuid, code: int)
    | Connect(device: Uuid)
    | ReceiverDrops(device: Uuid)
    | Unregister(device: Uuid)

  predicate IsDispatch(m: Sent, id: Uuid) { m.msg.DispatchJob? && m.msg.jobId == id }

  /** Row ids are generated fresh; an agent completes a job it received, once. */
  predicate Allowed(w: World, e: Event) {
    match e
    case Create(_, _, id) => FindRow(w.jobs.rows, id) == None
    case Complete(d, id, _) => id !in w.done && exists m :: m in w.jobs.log && m.device == d && IsDispatch(m, id)
    case _ => true
  }

  function Step(w: World, e: Event): World {
    var s := w.jobs;
    match e
    case Create(d, payload, id) => w.(jobs := AfterCreate(s, d, payload, id))
    case Cancel(id) => w.(jobs := AfterCancel(s, id))
    case Drain(d) => w.(jobs := AfterDrain(s, d))
    case Complete(_, id, code) => World(AfterComplete(s, id, code), w.done + {id})
    case Connect(d) => if d in s.devices then w.(jobs := s.(handles := s.handles[d := true])) else w
    case ReceiverDrops(d) => if d in s.handles then w.(jobs := s.(handles := s.handles[d := false])) else w
    case Unregister(d) => w.(jobs := s.(handles := s.handles - {d}))
  }

  function Initial(devices: set<Uuid>, signer: bool): World {
    World(Jobs(devices, [], map[], signer, []), {})
  }

  function Run(w: World, events: seq<Event>): Option<World>
    decreases |events|
  {
    if events == [] then Some(w)
    else if Allowed(w, events[0]) then Run(Step(w, events[0]), events[1..])
    else None
  }

  // ---- the status order ----

  function Rank(st: Status): nat {
    match st
    case Pending => 0
    case Dispatched => 1
    case Cancelled => 2
    case Completed => 3
    case Failed => 3
  }

  /** No row is lost or rewritten, and a status that changes goes up. */
  ghost predicate Climbs(rows: seq<Row>, rows': seq<Row>) {
    && |rows| <= |rows'|
    && forall i :: 0 <= i < |rows| ==>
         && rows'[i].id == rows[i].id && rows'[i].device == rows[i].device && rows'[i].payload == rows[i].payload
         && (rows'[i].status == rows[i].status || Rank(rows'[i].status) > Rank(rows[i].status))
  }

  // ---- the invariant ----

  ghost predicate UniqueIds(rows: seq<Row>) {
    forall i, j :: 0 <= i < j < |rows| ==> rows[i].id != rows[j].id
  }

  /** The row a message is about: a dispatch carries that row's id, payload and
      signature and the row has left `pending`; a revocation's row was cancelled. */
  ghost predicate About(m: Sent, r: Row, signer: bool) {
    && r.id == m.msg.jobId && r.device == m.device
    && (m.msg.DispatchJob? ==> r.status != Pending && FromJson(r.payload) == Some(m.msg.payload)
                               && m.msg.signature == SignJob(signer, r.id, m.msg.payload))
    && (m.msg.RevokeJob? ==> Rank(r.status) >= 2)
  }

  ghost predicate Sourced(m: Sent, rows: seq<Row>, signer: bool) {
    exists i :: 0 <= i < |rows| && About(m, rows[i], signer)
  }

  function Dispatches(log: seq<Sent>, id: Uuid): nat {
    |Filter(log, (m: Sent) => IsDispatch(m, id))|
  }

  ghost predicate NoDispatchAfterRevoke(log: seq<Sent>) {
    forall i, j :: 0 <= i < j < |log| && log[i].msg.RevokeJob? ==> !IsDispatch(log[j], log[i].msg.jobId)
  }

  ghost predicate RowsOk(w: World) {
    && UniqueIds(w.jobs.rows)
    && (forall r :: r in w.jobs.rows && Finished(r.status) ==> r.id in w.done)
    && (forall r :: r in w.jobs.rows && FromJson(r.payload) == None ==> r.status == Pending || r.status == Cancelled)
  }

  ghost predicate LogOk(w: World) {
    && (forall m :: m in w.jobs.log ==> Sourced(m, w.jobs.rows, w.jobs.signer))
    && (forall id: Uuid :: Dispatches(w.jobs.log, id) <= 1)
    && NoDispatchAfterRevoke(w.jobs.log)
  }

  ghost predicate Inv(w: World) { RowsOk(w) && LogOk(w) }

  // ---- what one step adds to the log ----

  function NewMessages(w: World, e: Event): seq<Sent> {
    var s := w.jobs;
    match e
    case Create(d, payload, id) =>
      if d in s.devices && FromJson(payload).Some? && Live(s, d)
      then [Dispatch(Row(id, d, payload, Pending, None), FromJson(payload).value, s.signer)] else []
    case Cancel(id) =>
      (match FindRow(s.rows, id)
       case None => []
       case Some(row) =>
         if !Finished(row.status) && row.status != Cancelled && Live(s, row.device)
         then [Sent(row.device, RevokeJob(id))] else [])
    case Drain(d) => if Live(s, d) then DueMessages(s.rows, d, s.signer) else []
    case _ => []
  }

  lemma StepAppends(w: World, e: Event)
    ensures Step(w, e).jobs.log == w.jobs.log + NewMessages(w, e)
    ensures Step(w, e).jobs.signer == w.jobs.signer
  {
    hide FromJson, Update, DueMessages, SignJob, FindRow;
  }

  lemma {:induction false} DueMessagesSources(rows: seq<Row>, d: Uuid, signer: bool)
    ensures forall m :: m in DueMessages(rows, d, signer) ==>
              exists i ::
                0 <= i < |rows| && Due(rows[i], d) && m == Dispatch(rows[i], FromJson(rows[i].payload).value, signer)
  {
    hide FromJson, SignJob;
    if rows != [] {
      DueMessagesSources(rows[1..], d, signer);
      forall m | m in DueMessages(rows, d, signer)
        ensures exists i ::
          0 <= i < |rows| && Due(rows[i], d) && m == Dispatch(rows[i], FromJson(rows[i].payload).value, signer)
      {
        if m in DueMessages(rows[1..], d, signer) {
          var i :| 0 <= i < |rows[1..]| && Due(rows[1..][i], d)
            && m == Dispatch(rows[1..][i], FromJson(rows[1..][i].payload).value, signer);
          assert rows[i + 1] == rows[1..][i];
        }
      }
    }
  }

  lemma {:induction false} DueMessagesOnce(rows: seq<Row>, d: Uuid, signer: bool, id: Uuid)
    requires UniqueIds(rows)
    ensures Dispatches(DueMessages(rows, d, signer), id) <= 1
    ensures (forall i :: 0 <= i < |rows| ==> rows[i].id != id) ==> Dispatches(DueMessages(rows, d, signer), id) == 0
  {
    hide FromJson, SignJob;
    if rows != [] {
      DueMessagesOnce(rows[1..], d, signer, id);
      var first := if Due(rows[0], d) then [Dispatch(rows[0], FromJson(rows[0].payload).value, signer)] else [];
      FilterAppend(first, DueMessages(rows[1..], d, signer), (m: Sent) => IsDispatch(m, id));
      assert Dispatches(first, id) <= if rows[0].id == id then 1 else 0;
      if rows[0].id == id {
        assert forall i :: 0 <= i < |rows[1..]| ==> rows[1..][i] == rows[i + 1];
      }
    }
  }

  lemma DispatchesMember(log: seq<Sent>, id: Uuid)
    ensures Dispatches(log, id) == 0 <==> forall m :: m in log ==> !IsDispatch(m, id)
  {
    var p := (m: Sent) => IsDispatch(m, id);
    FilterMembers(log, p);
    if Dispatches(log, id) > 0 {
      assert Filter(log, p)[0] in Filter(log, p);
    }
  }

  // ---- one step ----

  lemma RowById(rows: seq<Row>, i: nat)
    requires i < |rows| && UniqueIds(rows)
    ensures FindRow(rows, rows[i].id) == Some(rows[i])
  {
    var r := FindRow(rows, rows[i].id);
    assert rows[i] in rows;
  }

  /** An agent that received a job has a row for it that is dispatched or cancelled. */
  lemma CompletedRowWasOpen(w: World, e: Event, i: nat)
    requires Inv(w) && e.Complete? && Allowed(w, e)
    requires i < |w.jobs.rows| && w.jobs.rows[i].id == e.id
    ensures w.jobs.rows[i].status == Dispatched || w.jobs.rows[i].status == Cancelled
    ensures FromJson(w.jobs.rows[i].payload).Some?
  {
    hide FromJson, SignJob, FindRow;
    var m :| m in w.jobs.log && m.device == e.device && IsDispatch(m, e.id);
    assert Sourced(m, w.jobs.rows, w.jobs.signer);
    var k :| 0 <= k < |w.jobs.rows| && About(m, w.jobs.rows[k], w.jobs.signer);
    assert w.jobs.rows[k] in w.jobs.rows;
    assert k == i;
  }

  lemma UpdateClimbs(rows: seq<Row>, ids: set<Uuid>, st: Status)
    requires forall i :: 0 <= i < |rows| && rows[i].id in ids ==> Rank(rows[i].status) < Rank(st)
    ensures Climbs(rows, Update(rows, ids, st))
  {}

  lemma FinishClimbs(rows: seq<Row>, id: Uuid, code: int)
    requires forall i :: 0 <= i < |rows| && rows[i].id == id ==> Rank(rows[i].status) < 3
    ensures Climbs(rows, Finish(rows, id, code))
  {}

  lemma CreateClimbs(s: Jobs, d: Uuid, payload: Json, id: Uuid)
    ensures Climbs(s.rows, AfterCreate(s, d, payload, id).rows)
  {
    hide FromJson, SignJob;
  }

  /** Status only climbs `pending` < `dispatched` < `cancelled` < `completed`/`failed`. */
  lemma StatusClimbs(w: World, e: Event)
    requires Inv(w) && Allowed(w, e)
    ensures Climbs(w.jobs.rows, Step(w, e).jobs.rows)
  {
    hide FromJson, DueMessages, SignJob, FindRow, Update, Finish, Climbs;
    var rows := w.jobs.rows;
    ClimbsReflexive(rows);
    match e
    case Create(d, payload, id) =>
      CreateClimbs(w.jobs, d, payload, id);
      hide AfterCreate;
    case Drain(d) =>
      forall i | 0 <= i < |rows| && rows[i].id in DueIds(rows, d)
        ensures rows[i].status == Pending
      {
        var r :| r in rows && Due(r, d) && r.id == rows[i].id;
        RowById(rows, i);
      }
      UpdateClimbs(rows, DueIds(rows, d), Dispatched);
    case Cancel(id) =>
      forall i | 0 <= i < |rows| && rows[i].id == id
        ensures FindRow(rows, id) == Some(rows[i])
      {
        RowById(rows, i);
      }
      if FindRow(rows, id).Some? && Rank(FindRow(rows, id).value.status) < 2 {
        UpdateClimbs(rows, {id}, Cancelled);
      }
    case Complete(_, id, code) =>
      forall i | 0 <= i < |rows| && rows[i].id == id
        ensures Rank(rows[i].status) < 3
      {
        CompletedRowWasOpen(w, e, i);
      }
      FinishClimbs(rows, id, code);
    case _ =>
  }

  lemma IdsStayUnique(w: World, e: Event)
    requires Inv(w) && Allowed(w, e)
    ensures UniqueIds(Step(w, e).jobs.rows)
  {
    hide FromJson, DueMessages, SignJob, FindRow;
    var rows := w.jobs.rows;
    StatusClimbs(w, e);
    if e.Create? {
      forall i | 0 <= i < |rows|
        ensures rows[i].id != e.id
      {
        assert rows[i] in rows;
        assert FindRow(rows, e.id) == None;
      }
    }
  }

  lemma RowsPreserved(w: World, e: Event)
    requires Inv(w) && Allowed(w, e)
    ensures RowsOk(Step(w, e))
  {
    hide FromJson, DueMessages, SignJob, FindRow;
    IdsStayUnique(w, e);
    hide UniqueIds;
    var rows, rows' := w.jobs.rows, Step(w, e).jobs.rows;
    forall i | 0 <= i < |rows'|
      ensures Finished(rows'[i].status) ==> rows'[i].id in Step(w, e).done
      ensures FromJson(rows'[i].payload) == None ==> rows'[i].status == Pending || rows'[i].status == Cancelled
    {
      if i < |rows| {
        assert rows[i] in rows;
        if e.Complete? && rows[i].id == e.id {
          CompletedRowWasOpen(w, e, i);
        }
        if e.Drain? && rows[i].id in DueIds(rows, e.device) {
          DueRowParses(w, e.device, i);
        }
      }
    }
  }

  lemma DueRowParses(w: World, d: Uuid, i: nat)
    requires Inv(w) && i < |w.jobs.rows| && w.jobs.rows[i].id in DueIds(w.jobs.rows, d)
    ensures FromJson(w.jobs.rows[i].payload).Some?
  {
    DueById(w, d, i);
    hide FromJson, Inv;
  }

  lemma OldMessagesStillSourced(w: World, e: Event)
    requires Inv(w) && Allowed(w, e)
    ensures forall m :: m in w.jobs.log ==> Sourced(m, Step(w, e).jobs.rows, w.jobs.signer)
  {
    hide FromJson, SignJob, Step;
    StatusClimbs(w, e);
    forall m | m in w.jobs.log
      ensures Sourced(m, Step(w, e).jobs.rows, w.jobs.signer)
    {
      var i :| 0 <= i < |w.jobs.rows| && About(m, w.jobs.rows[i], w.jobs.signer);
      assert About(m, Step(w, e).jobs.rows[i], w.jobs.signer);
    }
  }

  /** A new message is made from a row of the new table; a new dispatch from one that was new or pending. */
  ghost predicate GoodNew(w: World, e: Event, m: Sent) {
    && Sourced(m, Step(w, e).jobs.rows, w.jobs.signer)
    && (m.msg.DispatchJob? ==>
          forall i :: 0 <= i < |w.jobs.rows| && w.jobs.rows[i].id == m.msg.jobId ==> w.jobs.rows[i].status == Pending)
  }

  lemma NewFromCreate(w: World, e: Event, m: Sent)
    requires Inv(w) && Allowed(w, e) && e.Create? && m in NewMessages(w, e)
    ensures GoodNew(w, e, m)
  {
    hide FromJson, SignJob, FindRow;
    var rows := w.jobs.rows;
    assert About(m, Step(w, e).jobs.rows[|rows|], w.jobs.signer);
    forall i | 0 <= i < |rows|
      ensures rows[i].id != e.id
    {
      assert rows[i] in rows;
      assert FindRow(rows, e.id) == None;
    }
  }

  lemma NewFromCancel(w: World, e: Event, m: Sent)
    requires Inv(w) && Allowed(w, e) && e.Cancel? && m in NewMessages(w, e)
    ensures GoodNew(w, e, m)
  {
    hide FromJson, SignJob, FindRow;
    var rows := w.jobs.rows;
    var row := FindRow(rows, e.id).value;
    var i :| 0 <= i < |rows| && rows[i] == row;
    assert About(m, Step(w, e).jobs.rows[i], w.jobs.signer);
  }

  lemma NewFromDrain(w: World, e: Event, m: Sent)
    requires Inv(w) && Allowed(w, e) && e.Drain? && m in NewMessages(w, e)
    ensures GoodNew(w, e, m)
  {
    hide FromJson, SignJob, FindRow, DueMessages;
    var rows, d := w.jobs.rows, e.device;
    DueMessagesSources(rows, d, w.jobs.signer);
    var k :| 0 <= k < |rows| && Due(rows[k], d)
      && m == Dispatch(rows[k], FromJson(rows[k].payload).value, w.jobs.signer);
    assert rows[k].id in DueIds(rows, d);
    assert About(m, Step(w, e).jobs.rows[k], w.jobs.signer);
  }

  lemma NewMessagesSourced(w: World, e: Event)
    requires Inv(w) && Allowed(w, e)
    ensures forall m :: m in NewMessages(w, e) ==> GoodNew(w, e, m)
    ensures |NewMessages(w, e)| <= 1 || forall m :: m in NewMessages(w, e) ==> m.msg.DispatchJob?
  {
    hide FromJson, SignJob, FindRow, DueMessages, GoodNew, Inv, Allowed;
    if e.Drain? {
      DueMessagesSources(w.jobs.rows, e.device, w.jobs.signer);
    }
    forall m | m in NewMessages(w, e)
      ensures GoodNew(w, e, m)
    {
      if e.Create? {
        NewFromCreate(w, e, m);
      } else if e.Cancel? {
        NewFromCancel(w, e, m);
      } else {
        NewFromDrain(w, e, m);
      }
    }
  }

  /** Nothing in the log is about a job whose dispatch is new. */
  lemma NewDispatchIsFirst(w: World, e: Event, id: Uuid)
    requires Inv(w) && Allowed(w, e)
    requires exists m :: m in NewMessages(w, e) && IsDispatch(m, id)
    ensures forall m :: m in w.jobs.log ==> m.msg.jobId != id
  {
    hide FromJson, SignJob, Step, NewMessages;
    NewMessagesSourced(w, e);
    var n :| n in NewMessages(w, e) && IsDispatch(n, id);
    forall m | m in w.jobs.log
      ensures m.msg.jobId != id
    {
      var i :| 0 <= i < |w.jobs.rows| && About(m, w.jobs.rows[i], w.jobs.signer);
    }
  }

  lemma NewDispatchesOnce(w: World, e: Event, id: Uuid)
    requires Inv(w) && Allowed(w, e)
    ensures Dispatches(NewMessages(w, e), id) <= 1
  {
    hide FromJson, SignJob, FindRow;
    if e.Drain? {
      DueMessagesOnce(w.jobs.rows, e.device, w.jobs.signer, id);
    }
    FilterShrinks(NewMessages(w, e), (m: Sent) => IsDispatch(m, id));
  }

  lemma LogPreserved(w: World, e: Event)
    requires Inv(w) && Allowed(w, e)
    ensures LogOk(Step(w, e))
  {
    hide FromJson, SignJob, Step, NewMessages;
    StepAppends(w, e);
    OldMessagesStillSourced(w, e);
    NewMessagesSourced(w, e);
    var log, added := w.jobs.log, NewMessages(w, e);
    forall id: Uuid
      ensures Dispatches(log + added, id) <= 1
    {
      FilterAppend(log, added, (m: Sent) => IsDispatch(m, id));
      NewDispatchesOnce(w, e, id);
      DispatchesMember(log, id);
      DispatchesMember(added, id);
      if Dispatches(added, id) > 0 {
        NewDispatchIsFirst(w, e, id);
      }
    }
    forall r, m | r in log && m in added && m.msg.DispatchJob?
      ensures r.msg.jobId != m.msg.jobId
    {
      NewDispatchIsFirst(w, e, m.msg.jobId);
    }
    AppendKeepsOrder(log, added);
  }

  lemma AppendKeepsOrder(log: seq<Sent>, added: seq<Sent>)
    requires NoDispatchAfterRevoke(log)
    requires |added| <= 1 || forall m :: m in added ==> m.msg.DispatchJob?
    requires forall r, m :: r in log && m in added && m.msg.DispatchJob? ==> r.msg.jobId != m.msg.jobId
    ensures NoDispatchAfterRevoke(log + added)
  {
    var all := log + added;
    assert forall i :: 0 <= i < |log| ==> all[i] == log[i] && all[i] in log;
    assert forall i :: |log| <= i < |all| ==> all[i] == added[i - |log|] && all[i] in added;
  }

  lemma InvPreserved(w: World, e: Event)
    requires Inv(w) && Allowed(w, e)
    ensures Inv(Step(w, e))
  {
    hide RowsOk, LogOk, Step, Allowed;
    RowsPreserved(w, e);
    LogPreserved(w, e);
  }

  // ---- whole runs ----

  lemma {:induction false} RunInv(w: World, events: seq<Event>)
    requires Inv(w) && Run(w, events).Some?
    ensures Inv(Run(w, events).value)
    decreases |events|
  {
    hide Inv, Step, Allowed;
    if events != [] {
      InvPreserved(w, events[0]);
      RunInv(Step(w, events[0]), events[1..]);
    }
  }

  lemma InitialInv(devices: set<Uuid>, signer: bool)
    ensures Inv(Initial(devices, signer))
  {
    var log: seq<Sent> := [];
    assert forall id: Uuid :: Dispatches(log, id) == 0;
  }

  lemma ClimbsTransitive(a: seq<Row>, b: seq<Row>, c: seq<Row>)
    requires Climbs(a, b) && Climbs(b, c)
    ensures Climbs(a, c)
  {}

  /** Between any two moments of a run every row kept its place and its status only climbed. */
  lemma {:induction false} RunClimbs(w: World, events: seq<Event>)
    requires Inv(w) && Run(w, events).Some?
    ensures Climbs(w.jobs.rows, Run(w, events).value.jobs.rows)
    decreases |events|
  {
    hide Inv, Step, Allowed, Climbs;
    if events == [] {
      ClimbsReflexive(w.jobs.rows);
    } else {
      StatusClimbs(w, events[0]);
      InvPreserved(w, events[0]);
      RunClimbs(Step(w, events[0]), events[1..]);
      ClimbsTransitive(w.jobs.rows, Step(w, events[0]).jobs.rows, Run(w, events).value.jobs.rows);
    }
  }

  lemma ClimbsReflexive(rows: seq<Row>)
    ensures Climbs(rows, rows)
  {}

  /** Every run from an empty table: each job is put on a channel at most once, never after
      its revocation, always for the device and payload of its own row; and a row whose
      payload does not parse is never dispatched nor finished. */
  lemma ChannelSafety(devices: set<Uuid>, signer: bool, events: seq<Event>)
    requires Run(Initial(devices, signer), events).Some?
    ensures var s := Run(Initial(devices, signer), events).value.jobs;
      && (forall id: Uuid :: Dispatches(s.log, id) <= 1)
      && NoDispatchAfterRevoke(s.log)
      && (forall m :: m in s.log ==> Sourced(m, s.rows, s.signer))
      && (forall r :: r in s.rows && FromJson(r.payload) == None ==> r.status == Pending || r.status == Cancelled)
  {
    InitialInv(devices, signer);
    RunInv(Initial(devices, signer), events);
  }

  /** Once a job is cancelled no later step of the run puts it on a channel. */
  lemma {:induction false} NeverDispatchedAfterCancel(w: World, events: seq<Event>, i: nat)
    requires Inv(w) && Run(w, events).Some?
    requires i < |w.jobs.rows| && Rank(w.jobs.rows[i].status) >= Rank(Cancelled)
    ensures Dispatches(Run(w, events).value.jobs.log, w.jobs.rows[i].id) == Dispatches(w.jobs.log, w.jobs.rows[i].id)
    decreases |events|
  {
    hide Inv, Step, Allowed, FromJson, SignJob, NewMessages;
    if events != [] {
      var e, id := events[0], w.jobs.rows[i].id;
      StatusClimbs(w, e);
      InvPreserved(w, e);
      NeverDispatchedAfterCancel(Step(w, e), events[1..], i);
      StepAppends(w, e);
      NewMessagesSourced(w, e);
      FilterAppend(w.jobs.log, NewMessages(w, e), (m: Sent) => IsDispatch(m, id));
      DispatchesMember(NewMessages(w, e), id);
    }
  }

  // ---- the drain ----

  /** The ids a message list dispatches, in order. */
  function DispatchedIds(log: seq<Sent>): seq<Uuid> {
    Map(Filter(log, (m: Sent) => m.msg.DispatchJob?), (m: Sent) => m.msg.jobId)
  }

  function DueInOrder(rows: seq<Row>, d: Uuid): seq<Uuid> {
    Map(Filter(rows, (r: Row) => Due(r, d)), (r: Row) => r.id)
  }

  lemma {:induction false} DueMessagesInOrder(rows: seq<Row>, d: Uuid, signer: bool)
    ensures DispatchedIds(DueMessages(rows, d, signer)) == DueInOrder(rows, d)
  {
    hide FromJson, SignJob;
    if rows != [] {
      DueMessagesInOrder(rows[1..], d, signer);
      var first := if Due(rows[0], d) then [Dispatch(rows[0], FromJson(rows[0].payload).value, signer)] else [];
      FilterAppend(first, DueMessages(rows[1..], d, signer), (m: Sent) => m.msg.DispatchJob?);
      assert Filter(first, (m: Sent) => m.msg.DispatchJob?) == first;
      var rest := Filter(DueMessages(rows[1..], d, signer), (m: Sent) => m.msg.DispatchJob?);
      MapAppend(first, rest, (m: Sent) => m.msg.jobId);
      MapAppend(if Due(rows[0], d) then [rows[0]] else [], Filter(rows[1..], (r: Row) => Due(r, d)), (r: Row) => r.id);
    }
  }

  lemma SameIdSameRow(rows: seq<Row>, r: Row, i: nat)
    requires UniqueIds(rows) && r in rows && i < |rows| && r.id == rows[i].id
    ensures r == rows[i]
  {
    var k :| 0 <= k < |rows| && rows[k] == r;
    assert k == i;
  }

  lemma DueById(w: World, d: Uuid, i: nat)
    requires Inv(w) && i < |w.jobs.rows|
    ensures w.jobs.rows[i].id in DueIds(w.jobs.rows, d) <==> Due(w.jobs.rows[i], d)
  {
    hide Due, LogOk;
    var rows := w.jobs.rows;
    assert rows[i] in rows;
    forall r | r in rows && r.id == rows[i].id
      ensures r == rows[i]
    {
      SameIdSameRow(rows, r, i);
    }
    hide Inv;
  }

  /** A drain over a live handle enqueues the due jobs of the device in creation order
      and leaves it no pending row that parses; a drain over a dead one changes nothing. */
  lemma DrainEmptiesQueue(w: World, d: Uuid)
    requires Inv(w)
    ensures var s, s' := w.jobs, AfterDrain(w.jobs, d);
      if Live(s, d) then
        && s'.log == s.log + NewMessages(w, Drain(d))
        && DispatchedIds(NewMessages(w, Drain(d))) == DueInOrder(s.rows, d)
        && (forall m :: m in NewMessages(w, Drain(d)) ==> m.device == d)
        && (forall r :: r in s'.rows && r.device == d && r.status == Pending ==> FromJson(r.payload) == None)
        && |s'.rows| == |s.rows|
        && (forall i :: 0 <= i < |s.rows| ==>
              s'.rows[i] == if Due(s.rows[i], d) then s.rows[i].(status := Dispatched) else s.rows[i])
      else s' == s
  {
    hide FromJson, SignJob;
    DueMessagesInOrder(w.jobs.rows, d, w.jobs.signer);
    DueMessagesSources(w.jobs.rows, d, w.jobs.signer);
    var rows, rows' := w.jobs.rows, AfterDrain(w.jobs, d).rows;
    if Live(w.jobs, d) {
      assert forall r :: r in rows && Due(r, d) ==> r.id in DueIds(rows, d);
      assert forall i :: 0 <= i < |rows| ==> rows[i] in rows;
      forall i | 0 <= i < |rows|
        ensures rows[i].id in DueIds(rows, d) <==> Due(rows[i], d)
      {
        DueById(w, d, i);
      }
    }
  }

  /** A device that connects and is drained is sent every job that waits for it. */
  lemma ReconnectEmptiesQueue(w: World, d: Uuid)
    requires Inv(w) && d in w.jobs.devices
    ensures var end := Run(w, [Connect(d), Drain(d)]);
      && end.Some? && w.jobs.log <= end.value.jobs.log
      && DispatchedIds(end.value.jobs.log[|w.jobs.log|..]) == DueInOrder(w.jobs.rows, d)
      && forall r :: r in end.value.jobs.rows && r.device == d && r.status == Pending ==> FromJson(r.payload) == None
  {
    hide FromJson, SignJob, DueMessages, DispatchedIds, DueInOrder;
    var w' := Step(w, Connect(d));
    InvPreserved(w, Connect(d));
    DrainEmptiesQueue(w', d);
    assert [Connect(d), Drain(d)][1..] == [Drain(d)] && [Drain(d)][1..] == [];
    assert (w.jobs.log + NewMessages(w', Drain(d)))[|w.jobs.log|..] == NewMessages(w', Drain(d));
    hide Inv, NewMessages, AfterDrain;
    assert Run(w', [Drain(d)]) == Run(Step(w', Drain(d)), []);
    assert Run(w, [Connect(d), Drain(d)]) == Run(w', [Drain(d)]);
  }

  // ---- where the code's choices show ----

  /** A completion overwrites the status whatever it was: exit code 0 is `completed`, anything
      else `failed`, so a cancelled job whose process is killed ends `failed`. */
  lemma CompletionOverwrites(w: World, e: Event, i: nat)
    requires Inv(w) && e.Complete? && Allowed(w, e)
    requires i < |w.jobs.rows| && w.jobs.rows[i].id == e.id
    ensures Step(w, e).jobs.rows[i].status == if e.code == 0 then Completed else Failed
    ensures Step(w, e).jobs.rows[i].exitCode == Some(e.code)
    ensures forall j :: 0 <= j < |w.jobs.rows| && j != i ==> Step(w, e).jobs.rows[j] == w.jobs.rows[j]
  {
    hide FromJson, SignJob, DueMessages, FindRow, AfterCreate, AfterDrain, AfterCancel;
  }

  predicate Completes(e: Event, id: Uuid) { e.Complete? && e.id == id }

  /** Only a completion changes a row that is cancelled or finished. */
  lemma OverRowStays(w: World, e: Event, i: nat)
    requires Inv(w) && Allowed(w, e)
    requires i < |w.jobs.rows| && Rank(w.jobs.rows[i].status) >= 2 && !Completes(e, w.jobs.rows[i].id)
    ensures i < |Step(w, e).jobs.rows| && Step(w, e).jobs.rows[i] == w.jobs.rows[i]
  {
    hide FromJson, SignJob, DueMessages, FindRow;
    var rows, id := w.jobs.rows, w.jobs.rows[i].id;
    RowById(rows, i);
    forall r | r in rows && r.id == id
      ensures r == rows[i]
    {
      var k :| 0 <= k < |rows| && rows[k] == r;
      RowById(rows, k);
    }
  }

  /** A cancelled row is still cancelled at the end of a run if and only if no completion of its job was
      reported; once one is, the row is finished for good. */
  lemma {:induction false} CancelledUnlessCompleted(w: World, events: seq<Event>, i: nat)
    requires Inv(w) && Run(w, events).Some?
    requires i < |w.jobs.rows| && w.jobs.rows[i].status == Cancelled
    ensures var end := Run(w, events).value.jobs.rows;
      && i < |end|
      && (end[i].status == Cancelled <==> forall e :: e in events ==> !Completes(e, w.jobs.rows[i].id))
      && (end[i].status != Cancelled ==> Finished(end[i].status))
    decreases |events|
  {
    hide Inv, Step, Allowed;
    if events != [] {
      var e, rest, id := events[0], events[1..], w.jobs.rows[i].id;
      assert events == [e] + rest;
      StatusClimbs(w, e);
      InvPreserved(w, e);
      if Completes(e, id) {
        CompletionOverwrites(w, e, i);
        RunClimbs(Step(w, e), rest);
      } else {
        OverRowStays(w, e, i);
        CancelledUnlessCompleted(Step(w, e), rest, i);
      }
    }
  }

  lemma RunFirst(w: World, e: Event, rest: seq<Event>)
    requires Allowed(w, e)
    ensures Run(w, [e] + rest) == Run(Step(w, e), rest)
  {
    assert ([e] + rest)[1..] == rest;
  }

  function CancelledRun(d: Uuid, id: Uuid, p: JobPayload): seq<Event> {
    [Connect(d)] + ([Create(d, Obj(Fields(p)), id)] + ([Cancel(id)] + ([Complete(d, id, -4)] + [])))
  }

  /** The world of one job of a live device. */
  function OneJob(d: Uuid, row: Row, signer: bool, log: seq<Sent>, done: set<Uuid>): World {
    World(Jobs({d}, [row], map[d := true], signer, log), done)
  }

  lemma CreateOne(d: Uuid, id: Uuid, p: JobPayload, signer: bool)
    ensures var w := World(Jobs({d}, [], map[d := true], signer, []), {});
      var row := Row(id, d, Obj(Fields(p)), Pending, None);
      && Allowed(w, Create(d, Obj(Fields(p)), id))
      && Step(w, Create(d, Obj(Fields(p)), id))
        == OneJob(d, row.(status := Dispatched), signer, [Dispatch(row, p, signer)], {})
  {
    hide FromJson, SignJob, Fields;
    FromToJson(p);
  }

  lemma CancelOne(d: Uuid, row: Row, signer: bool, log: seq<Sent>)
    requires row.device == d && row.status == Dispatched
    ensures Step(OneJob(d, row, signer, log, {}), Cancel(row.id))
         == OneJob(d, row.(status := Cancelled), signer, log + [Sent(d, RevokeJob(row.id))], {})
  {
    hide FromJson, SignJob, DueMessages;
  }

  lemma CompleteOne(d: Uuid, row: Row, signer: bool, log: seq<Sent>, code: int)
    requires log != [] && log[0].device == d && IsDispatch(log[0], row.id)
    ensures var w := OneJob(d, row, signer, log, {});
      && Allowed(w, Complete(d, row.id, code))
      && Step(w, Complete(d, row.id, code)).jobs.rows
        == [row.(status := if code == 0 then Completed else Failed, exitCode := Some(code))]
  {
    hide FromJson, SignJob, DueMessages;
    assert log[0] in log;
  }

  /** A cancelled job does not stay cancelled: the agent kills its process and reports exit code -4. */
  lemma CancelledEndsFailed(d: Uuid, id: Uuid, p: JobPayload, signer: bool)
    ensures var end := Run(Initial({d}, signer), CancelledRun(d, id, p));
      end.Some? && end.value.jobs.rows == [Row(id, d, Obj(Fields(p)), Failed, Some(-4))]
  {
    hide FromJson, SignJob, Fields;
    var create, cancel, complete := Create(d, Obj(Fields(p)), id), Cancel(id), Complete(d, id, -4);
    var row := Row(id, d, Obj(Fields(p)), Pending, None);
    var log := [Dispatch(row, p, signer)];
    var w1 := World(Jobs({d}, [], map[d := true], signer, []), {});
    var w2 := OneJob(d, row.(status := Dispatched), signer, log, {});
    var w3 := OneJob(d, row.(status := Cancelled), signer, log + [Sent(d, RevokeJob(id))], {});
    assert Step(Initial({d}, signer), Connect(d)) == w1;
    CreateOne(d, id, p, signer);
    CancelOne(d, row.(status := Dispatched), signer, log);
    CompleteOne(d, row.(status := Cancelled), signer, log + [Sent(d, RevokeJob(id))], -4);
    RunFirst(Initial({d}, signer), Connect(d), [create] + ([cancel] + ([complete] + [])));
    hide Step, Allowed;
    RunFirst(w1, create, [cancel] + ([complete] + []));
    RunFirst(w2, cancel, [complete] + []) by { CancelAllowed(w2, id); }
    RunFirst(w3, complete, []);
  }

  lemma CancelAllowed(w: World, id: Uuid)
    ensures Allowed(w, Cancel(id))
  {}

  /** Everything put on the channel of one device. */
  function SentTo(log: seq<Sent>, d: Uuid): seq<Sent> { Filter(log, (m: Sent) => m.device == d) }

  lemma NothingNewFor(w: World, e: Event, d: Uuid)
    requires !Live(w.jobs, d)
    ensures forall m :: m in NewMessages(w, e) ==> m.device != d
    ensures e != Connect(d) ==> !Live(Step(w, e).jobs, d)
  {
    hide FromJson, SignJob, FindRow, DueMessages;
    if e.Drain? {
      DueMessagesSources(w.jobs.rows, e.device, w.jobs.signer);
    }
  }

  /** A connection that ends leaves no live handle, whichever side ended it. */
  lemma ConnectionEnds(w: World, d: Uuid)
    ensures d !in Step(w, Unregister(d)).jobs.handles
    ensures d in Step(w, ReceiverDrops(d)).jobs.handles ==> !Step(w, ReceiverDrops(d)).jobs.handles[d]
    ensures Step(w, Unregister(d)).jobs.rows == w.jobs.rows == Step(w, ReceiverDrops(d)).jobs.rows
  {
    hide AfterCreate, AfterCancel, AfterDrain, AfterComplete;
  }

  /** Once a device's handle is gone or dead, nothing is put on its channel until it connects again. */
  lemma {:induction false} DisconnectedGetsNothing(w: World, events: seq<Event>, d: Uuid)
    requires (d in w.jobs.handles ==> !w.jobs.handles[d]) && Connect(d) !in events && Run(w, events).Some?
    ensures SentTo(Run(w, events).value.jobs.log, d) == SentTo(w.jobs.log, d)
    decreases |events|
  {
    hide Step, Allowed, NewMessages;
    if events != [] {
      var e, p := events[0], (m: Sent) => m.device == d;
      NothingNewFor(w, e, d);
      StepAppends(w, e);
      FilterAppend(w.jobs.log, NewMessages(w, e), p);
      FilterMembers(NewMessages(w, e), p);
      NoneFound(Filter(NewMessages(w, e), p));
      assert SentTo(w.jobs.log, d) + [] == SentTo(w.jobs.log, d);
      DisconnectedGetsNothing(Step(w, e), events[1..], d);
    }
  }

  lemma NoneFound(ms: seq<Sent>)
    ensures ms == [] || exists m :: m in ms
  {
    if ms != [] {
      assert ms[0] in ms;
    }
  }

  /** A cancel of an unfinished job marks it and, over a live handle, makes its revocation
      the last message of that device; a finished or cancelled job is left alone. */
  lemma CancelMarksAndRevokes(w: World, i: nat)
    requires Inv(w) && i < |w.jobs.rows|
    ensures var s, s', row := w.jobs, AfterCancel(w.jobs, w.jobs.rows[i].id), w.jobs.rows[i];
      if Rank(row.status) >= 2 then s' == s
      else
        && s'.rows == s.rows[i := row.(status := Cancelled)]
        && s'.log == if Live(s, row.device) then s.log + [Sent(row.device, RevokeJob(row.id))] else s.log
  {
    hide FromJson, SignJob, DueMessages;
    RowById(w.jobs.rows, i);
  }

  /** The document alone decides: one for a job is dispatched as that job over a live handle and waits over a
      dead one; one for no job is kept as a pending row, and nothing is sent. */
  lemma CreateMeans(w: World, d: Uuid, payload: Json, id: Uuid, p: JobPayload)
    requires Allowed(w, Create(d, payload, id)) && d in w.jobs.devices
    ensures var s, s' := w.jobs, AfterCreate(w.jobs, d, payload, id);
      && (PayloadTexts.Means(payload, p) && Live(s, d) ==>
            s' == s.(rows := s.rows + [Row(id, d, payload, Dispatched, None)],
                     log := s.log + [Sent(d, DispatchJob(id, p, SignJob(s.signer, id, p)))]))
      && (!Live(s, d) || (forall q :: !PayloadTexts.Means(payload, q)) ==>
            s' == s.(rows := s.rows + [Row(id, d, payload, Pending, None)]))
  {
    PayloadTexts.PayloadMeans(payload, p);
    PayloadTexts.RefusedMeans(payload);
    hide FromJson, SignJob, PayloadTexts.Means;
  }

  /** Creating a job appends exactly one row; it is dispatched at once exactly when the payload
      parses and the device has a live handle, and otherwise it stays pending. */
  lemma CreateQueuesOrDispatches(w: World, d: Uuid, payload: Json, id: Uuid)
    requires Inv(w) && Allowed(w, Create(d, payload, id)) && d in w.jobs.devices
    ensures var s, s' := w.jobs, AfterCreate(w.jobs, d, payload, id);
      && |s'.rows| == |s.rows| + 1 && s'.rows[..|s.rows|] == s.rows
      && s'.rows[|s.rows|].id == id && s'.rows[|s.rows|].device == d && s'.rows[|s.rows|].payload == payload
      && s'.rows[|s.rows|].exitCode == None
      && (s'.rows[|s.rows|].status == Dispatched <==> FromJson(payload).Some? && Live(s, d))
      && (s'.rows[|s.rows|].status == Pending <==> FromJson(payload).None? || !Live(s, d))
      && Dispatches(s'.log, id) == (if FromJson(payload).Some? && Live(s, d) then 1 else 0)
  {
    hide FromJson, SignJob;
    var e := Create(d, payload, id);
    StepAppends(w, e);
    FilterAppend(w.jobs.log, NewMessages(w, e), (m: Sent) => IsDispatch(m, id));
    forall m | m in w.jobs.log
      ensures !IsDispatch(m, id)
    {
      var i :| 0 <= i < |w.jobs.rows| && About(m, w.jobs.rows[i], w.jobs.signer);
      assert w.jobs.rows[i] in w.jobs.rows;
    }
    DispatchesMember(w.jobs.log, id);
  }
}
