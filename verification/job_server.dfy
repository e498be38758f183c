/** The server's side of the job protocol: the `jobs` table, the live agent
    handles, and the messages put on each agent's channel. Every handler is one step. */
module JobServer {
  import opened Common
  import opened Json
  import opened Payloads
  import opened Signing
  import PayloadTexts

  datatype Status = Pending | Dispatched | Cancelled | Completed | Failed

  datatype Row = Row(id: Uuid, device: Uuid, payload: Json, status: Status, exitCode: Option<int>)

  datatype ServerMessage =
    | DispatchJob(jobId: Uuid, payload: JobPayload, signature: Signature)
    | RevokeJob(jobId: Uuid)

  /** A message accepted by the channel of a device. */
  datatype Sent = Sent(device: Uuid, msg: ServerMessage)

  /** `rows` is in creation order; `handles[d]` says whether the registered
      write handle of `d` still has a receiver; `log` is everything ever enqueued. */
  datatype Jobs = Jobs(devices: set<Uuid>, rows: seq<Row>, handles: map<Uuid, bool>, signer: bool, log: seq<Sent>)

  predicate Live(s: Jobs, d: Uuid) { d in s.handles && s.handles[d] }

  predicate Finished(st: Status) { st == Completed || st == Failed }

  function Update(rows: seq<Row>, ids: set<Uuid>, st: Status): (r: seq<Row>)
    ensures |r| == |rows|
  {
    seq(|rows|, i requires 0 <= i < |rows| => if rows[i].id in ids then rows[i].(status := st) else rows[i])
  }

  function Finish(rows: seq<Row>, id: Uuid, code: int): (r: seq<Row>)
    ensures |r| == |rows|
  {
    seq(|rows|, i requires 0 <= i < |rows| =>
      if rows[i].id == id then rows[i].(status := if code == 0 then Completed else Failed, exitCode := Some(code))
        else rows[i])
  }

  function FindRow(rows: seq<Row>, id: Uuid): (r: Option<Row>)
    ensures r.None? <==> forall x :: x in rows ==> x.id != id
    ensures r.Some? ==> r.value in rows && r.value.id == id
  {
    if rows == [] then None else if rows[0].id == id then Some(rows[0]) else FindRow(rows[1..], id)
  }

  function Dispatch(r: Row, p: JobPayload, signer: bool): Sent {
    Sent(r.device, DispatchJob(r.id, p, SignJob(signer, r.id, p)))
  }

  // ---- what each handler does to the state ----

  function AfterCreate(s: Jobs, d: Uuid, payload: Json, id: Uuid): Jobs {
    var row := Row(id, d, payload, Pending, None);
    if d !in s.devices then s
    else match FromJson(payload)
      case None => s.(rows := s.rows + [row])
      case Some(p) =>
        if Live(s, d) then
          s.(rows := s.rows + [row.(status := Dispatched)], log := s.log + [Dispatch(row, p, s.signer)])
        else s.(rows := s.rows + [row])
  }

  function AfterCancel(s: Jobs, id: Uuid): Jobs {
    match FindRow(s.rows, id)
    case None => s
    case Some(row) =>
      if Finished(row.status) || row.status == Cancelled then s
      else s.(rows := Update(s.rows, {id}, Cancelled),
              log := if Live(s, row.device) then s.log + [Sent(row.device, RevokeJob(id))] else s.log)
  }

  /** `SELECT ... WHERE device_id = $1 AND status = 'pending' ORDER BY created_at`. */
  function PendingFor(rows: seq<Row>, d: Uuid): seq<Row> {
    Filter(rows, (r: Row) => r.device == d && r.status == Pending)
  }

  /** A job the drain of `d` will put on the channel. */
  predicate Due(r: Row, d: Uuid) { r.device == d && r.status == Pending && FromJson(r.payload).Some? }

  function DueIds(rows: seq<Row>, d: Uuid): set<Uuid> {
    set r | r in rows && Due(r, d) :: r.id
  }

  function DueMessages(rows: seq<Row>, d: Uuid, signer: bool): seq<Sent> {
    if rows == [] then []
    else (if Due(rows[0], d) then [Dispatch(rows[0], FromJson(rows[0].payload).value, signer)] else [])
         + DueMessages(rows[1..], d, signer)
  }

  function AfterDrain(s: Jobs, d: Uuid): Jobs {
    if Live(s, d) then
      s.(rows := Update(s.rows, DueIds(s.rows, d), Dispatched), log := s.log + DueMessages(s.rows, d, s.signer))
    else s
  }

  function AfterComplete(s: Jobs, id: Uuid, code: int): Jobs {
    s.(rows := Finish(s.rows, id, code))
  }

  // ---- the handlers ----

  datatype CreateResult = Created(row: Row) | DeviceNotFound | InvalidPayload

  datatype CancelResult = CancelDone | JobNotFound | AlreadyOver(status: Status)

  class Server {
    var devices: set<Uuid>
    var rows: seq<Row>
    var handles: map<Uuid, bool>
    var signer: bool
    var log: seq<Sent>

    ghost function State(): Jobs
      reads this
    {
      Jobs(devices, rows, handles, signer, log)
    }

    constructor (devices: set<Uuid>, signer: bool)
      ensures State() == Jobs(devices, [], map[], signer, [])
    {
      this.devices, this.signer := devices, signer;
      rows, handles, log := [], map[], [];
    }

    method SendToAgent(d: Uuid, msg: ServerMessage) returns (sent: bool)
      modifies this`log
      ensures sent <==> old(d in handles && handles[d])
      ensures log == if sent then old(log) + [Sent(d, msg)] else old(log)
    {
      sent := d in handles && handles[d];
      if sent {
        log := log + [Sent(d, msg)];
      }
    }

    /** `newId` is the UUID the database generates for the row. */
    method CreateJob(d: Uuid, payload: Json, newId: Uuid) returns (r: CreateResult)
      requires FindRow(rows, newId) == None
      modifies this
      ensures State() == old(AfterCreate(State(), d, payload, newId))
      ensures r == if d !in old(devices) then DeviceNotFound
                   else if FromJson(payload) == None then InvalidPayload
                   else Created(Row(newId, d, payload, Pending, None))
      ensures r == InvalidPayload <==> d in old(devices) && forall p :: !PayloadTexts.Means(payload, p)
    {
      PayloadTexts.RefusedMeans(payload);
      if d !in devices {
        return DeviceNotFound;
      }
      var job := Row(newId, d, payload, Pending, None);
      rows := rows + [job];
      var parsed := FromJson(payload);
      if parsed == None {
        return InvalidPayload;
      }
      var dispatched := SendToAgent(d, DispatchJob(newId, parsed.value, SignJob(signer, newId, parsed.value)));
      if dispatched {
        rows := Update(rows, {newId}, Dispatched);
        assert rows == old(rows) + [job.(status := Dispatched)];
      }
      return Created(job);
    }

    method CancelJob(id: Uuid) returns (r: CancelResult)
      modifies this
      ensures State() == old(AfterCancel(State(), id))
      ensures match old(FindRow(rows, id))
              case None => r == JobNotFound
              case Some(row) =>
                r == if row.status == Pending || row.status == Dispatched then CancelDone else AlreadyOver(row.status)
    {
      var found := FindRow(rows, id);
      if found == None {
        return JobNotFound;
      }
      var job := found.value;
      if job.status == Completed || job.status == Failed || job.status == Cancelled {
        return AlreadyOver(job.status);
      }
      var _ := SendToAgent(job.device, RevokeJob(id));
      rows := Update(rows, {id}, Cancelled);
      return CancelDone;
    }

    method DispatchPendingJobs(d: Uuid)
      modifies this
      ensures State() == old(AfterDrain(State(), d))
    {
      hide FromJson, Update, DueIds, DueMessages, SignJob;
      var jobs := PendingFor(rows, d);
      var k := 0;
      NothingDue(rows, d, signer);
      while k < |jobs|
        invariant 0 <= k <= |jobs|
        invariant devices == old(devices) && handles == old(handles) && signer == old(signer)
        invariant Live(State(), d) ==> rows == Update(old(rows), DueIds(jobs[..k], d), Dispatched)
        invariant Live(State(), d) ==> log == old(log) + DueMessages(jobs[..k], d, signer)
        invariant !Live(State(), d) ==> rows == old(rows) && log == old(log)
      {
        var job := jobs[k];
        DueStep(old(rows), d, k, signer);
        UpdateTwice(old(rows), DueIds(jobs[..k], d), {job.id}, Dispatched);
        match FromJson(job.payload) {
          case None =>
          case Some(p) =>
            var sent := SendToAgent(d, DispatchJob(job.id, p, SignJob(signer, job.id, p)));
            if sent {
              rows := Update(rows, {job.id}, Dispatched);
            }
        }
        k := k + 1;
      }
      assert jobs[..k] == jobs;
      DueOfPending(old(rows), d, signer);
    }

    method JobCompleted(id: Uuid, code: int)
      modifies this
      ensures State() == old(AfterComplete(State(), id, code))
    {
      rows := Finish(rows, id, code);
    }

    method Connect(d: Uuid)
      modifies this
      ensures State() == old(if d in devices then State().(handles := handles[d := true]) else State())
    {
      if d in devices {
        handles := handles[d := true];
      }
    }

    /** Cleanup after a read loop ends, and `disconnect_agent`. */
    method Unregister(d: Uuid)
      modifies this
      ensures State() == old(State().(handles := handles - {d}))
    {
      handles := handles - {d};
    }
  }

  // ---- bookkeeping for the drain loop ----

  lemma NothingDue(rows: seq<Row>, d: Uuid, signer: bool)
    ensures Update(rows, DueIds([], d), Dispatched) == rows && DueMessages([], d, signer) == []
  {}

  lemma UpdateTwice(rows: seq<Row>, a: set<Uuid>, b: set<Uuid>, st: Status)
    ensures Update(Update(rows, a, st), b, st) == Update(rows, a + b, st)
  {}

  lemma {:induction false} DueMessagesAppend(a: seq<Row>, b: seq<Row>, d: Uuid, signer: bool)
    ensures DueMessages(a + b, d, signer) == DueMessages(a, d, signer) + DueMessages(b, d, signer)
  {
    hide FromJson, SignJob;
    if a == [] {
      assert a + b == b;
    } else {
      assert (a + b)[1..] == a[1..] + b;
      DueMessagesAppend(a[1..], b, d, signer);
    }
  }

  /** One more row of the pending list. */
  lemma DueStep(rows: seq<Row>, d: Uuid, k: nat, signer: bool)
    requires k < |PendingFor(rows, d)|
    ensures var jobs := PendingFor(rows, d);
      && jobs[k].device == d
      && DueIds(jobs[..k + 1], d)
        == (if FromJson(jobs[k].payload).Some? then DueIds(jobs[..k], d) + {jobs[k].id} else DueIds(jobs[..k], d))
      && DueMessages(jobs[..k + 1], d, signer) == DueMessages(jobs[..k], d, signer)
         + (if FromJson(jobs[k].payload).Some? then [Dispatch(jobs[k], FromJson(jobs[k].payload).value, signer)]
           else [])
  {
    hide FromJson, SignJob;
    var jobs := PendingFor(rows, d);
    FilterMembers(rows, (r: Row) => r.device == d && r.status == Pending);
    assert jobs[k] in jobs;
    assert jobs[..k + 1] == jobs[..k] + [jobs[k]];
    DueMessagesAppend(jobs[..k], [jobs[k]], d, signer);
  }

  /** Reading the whole table or only its pending rows finds the same work. */
  lemma {:induction false} DueOfPending(rows: seq<Row>, d: Uuid, signer: bool)
    ensures DueIds(PendingFor(rows, d), d) == DueIds(rows, d)
    ensures DueMessages(PendingFor(rows, d), d, signer) == DueMessages(rows, d, signer)
  {
    hide FromJson, SignJob;
    FilterMembers(rows, (r: Row) => r.device == d && r.status == Pending);
    if rows != [] {
      var tail := PendingFor(rows[1..], d);
      DueOfPending(rows[1..], d, signer);
      if rows[0].device == d && rows[0].status == Pending {
        assert PendingFor(rows, d) == [rows[0]] + tail;
        DueMessagesAppend([rows[0]], tail, d, signer);
      } else {
        assert PendingFor(rows, d) == tail;
      }
    }
  }
}
