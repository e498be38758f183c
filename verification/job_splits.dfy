/** Dispatches as the two actions they are: a job read as pending is sent, and its row is marked later,
    with anything in between. */
module JobSplits {
  import opened Common
  import opened Json
  import opened Payloads
  import opened Signing
  import opened JobServer
  import opened JobRuns

  datatype Action =
    | Handle(event: Event)  // a whole handler
    | Send(id: Uuid)        // one dispatch, first half
    | Mark(id: Uuid)        // and its second: `UPDATE jobs SET status = 'dispatched' WHERE id = $1`

  /** The row the sender read; what it puts on the channel. */
  function AfterSend(s: Jobs, id: Uuid): Jobs {
    match FindRow(s.rows, id)
    case None => s
    case Some(row) =>
      match FromJson(row.payload)
      case None => s
      case Some(p) => if Live(s, row.device) then s.(log := s.log + [Dispatch(row, p, s.signer)]) else s
  }

  function After(w: World, a: Action): World {
    match a
    case Handle(e) => Step(w, e)
    case Send(id) => w.(jobs := AfterSend(w.jobs, id))
    case Mark(id) => w.(jobs := w.jobs.(rows := Update(w.jobs.rows, {id}, Dispatched)))
  }

  /** The one row of the job. */
  ghost predicate RowOf(rows: seq<Row>, i: nat, id: Uuid) {
    && i < |rows| && rows[i].id == id
    && forall k :: 0 <= k < |rows| && k != i ==> rows[k].id != id
  }

  /** The job is cancelled or completed. */
  predicate Overtakes(a: Action, id: Uuid) { a.Handle? && (a.event == Cancel(id) || Completes(a.event, id)) }

  /** No generated id repeats the job's. */
  predicate Foreign(a: Action, id: Uuid) { a.Handle? && a.event.Create? ==> a.event.id != id }

  lemma ActionKeepsRow(w: World, a: Action, i: nat, id: Uuid)
    requires RowOf(w.jobs.rows, i, id) && Foreign(a, id)
    ensures RowOf(After(w, a).jobs.rows, i, id)
  {
    hide FromJson, SignJob, DueMessages, DueIds, FindRow;
  }

  lemma FindsRow(rows: seq<Row>, i: nat, id: Uuid)
    requires RowOf(rows, i, id)
    ensures FindRow(rows, id) == Some(rows[i])
    ensures forall r :: r in rows && r.id == id ==> r == rows[i]
  {
    assert rows[i] in rows;
  }

  lemma CreateKeeps(w: World, d: Uuid, payload: Json, other: Uuid, i: nat)
    requires i < |w.jobs.rows|
    ensures i < |AfterCreate(w.jobs, d, payload, other).rows|
    ensures AfterCreate(w.jobs, d, payload, other).rows[i] == w.jobs.rows[i]
  {
    hide FromJson, SignJob;
  }

  lemma DrainRank(s: Jobs, d: Uuid, i: nat, id: Uuid)
    requires RowOf(s.rows, i, id)
    ensures i < |AfterDrain(s, d).rows|
    ensures AfterDrain(s, d).rows[i].status == s.rows[i].status
            || (s.rows[i].status == Pending && AfterDrain(s, d).rows[i].status == Dispatched)
  {
    hide FromJson, SignJob, DueMessages;
    FindsRow(s.rows, i, id);
  }

  lemma CancelRank(s: Jobs, x: Uuid, i: nat, id: Uuid)
    requires RowOf(s.rows, i, id)
    ensures i < |AfterCancel(s, x).rows|
    ensures AfterCancel(s, x).rows[i].status
         == if x == id && Rank(s.rows[i].status) < 2 then Cancelled else s.rows[i].status
  {
    FindsRow(s.rows, i, id);
    hide FindRow;
  }

  /** What one action does to the rank of the job's status. */
  lemma ActionRank(w: World, a: Action, i: nat, id: Uuid)
    requires RowOf(w.jobs.rows, i, id)
    ensures i < |After(w, a).jobs.rows|
    ensures var before, after := Rank(w.jobs.rows[i].status), Rank(After(w, a).jobs.rows[i].status);
      && (a == Mark(id) ==> after == 1)
      && (Overtakes(a, id) ==> after >= 2 && after >= before)
      && (a != Mark(id) && !Overtakes(a, id) ==> after >= before && (before >= 2 || after < 2))
  {
    hide FromJson, SignJob, DueMessages, AfterCreate, AfterDrain, AfterCancel, FindRow;
    if a.Handle? {
      match a.event
      case Create(d, payload, other) => CreateKeeps(w, d, payload, other, i);
      case Drain(d) => DrainRank(w.jobs, d, i, id);
      case Cancel(x) => CancelRank(w.jobs, x, i, id);
      case _ =>
    }
  }

  /** The status of row `i` never falls along the actions. */
  predicate NeverFalls(w: World, actions: seq<Action>, i: nat)
    decreases |actions|
  {
    actions == []
    || (var rows, rows' := w.jobs.rows, After(w, actions[0]).jobs.rows;
        i < |rows| && i < |rows'| && Rank(rows'[i].status) >= Rank(rows[i].status)
        && NeverFalls(After(w, actions[0]), actions[1..], i))
  }

  /** A mark of the job comes after one of its cancellations or completions. */
  predicate LateMark(actions: seq<Action>, id: Uuid) {
    actions != [] && ((Overtakes(actions[0], id) && Mark(id) in actions[1..]) || LateMark(actions[1..], id))
  }

  lemma {:induction false} LateMarkMeans(actions: seq<Action>, id: Uuid)
    ensures LateMark(actions, id) <==>
              exists j, k :: 0 <= j < k < |actions| && Overtakes(actions[j], id) && actions[k] == Mark(id)
  {
    if actions != [] {
      var rest := actions[1..];
      LateMarkMeans(rest, id);
      if Overtakes(actions[0], id) && Mark(id) in rest {
        var k :| 0 <= k < |rest| && rest[k] == Mark(id);
        assert Overtakes(actions[0], id) && actions[k + 1] == Mark(id);
      } else if LateMark(rest, id) {
        var j, k :| 0 <= j < k < |rest| && Overtakes(rest[j], id) && rest[k] == Mark(id);
        assert Overtakes(actions[j + 1], id) && actions[k + 1] == Mark(id);
      }
      if j, k :| 0 <= j < k < |actions| && Overtakes(actions[j], id) && actions[k] == Mark(id) {
        assert rest[k - 1] == Mark(id);
        if j > 0 {
          assert Overtakes(rest[j - 1], id);
        }
      }
    }
  }

  lemma {:induction false} OverNeverMarked(w: World, actions: seq<Action>, i: nat, id: Uuid)
    requires RowOf(w.jobs.rows, i, id) && (forall a :: a in actions ==> Foreign(a, id))
    requires Rank(w.jobs.rows[i].status) >= 2
    ensures NeverFalls(w, actions, i) <==> Mark(id) !in actions
    decreases |actions|
  {
    hide After;
    if actions != [] {
      var a, rest := actions[0], actions[1..];
      assert actions == [a] + rest && a in actions;
      ActionRank(w, a, i, id);
      ActionKeepsRow(w, a, i, id);
      if a != Mark(id) {
        OverNeverMarked(After(w, a), rest, i, id);
      }
    }
  }

  lemma {:induction false} NeverFallsIff(w: World, actions: seq<Action>, i: nat, id: Uuid)
    requires RowOf(w.jobs.rows, i, id) && (forall a :: a in actions ==> Foreign(a, id))
    requires Rank(w.jobs.rows[i].status) < 2
    ensures NeverFalls(w, actions, i) <==> !LateMark(actions, id)
    decreases |actions|
  {
    hide After;
    if actions != [] {
      var a, rest := actions[0], actions[1..];
      assert actions == [a] + rest && a in actions;
      ActionRank(w, a, i, id);
      ActionKeepsRow(w, a, i, id);
      if Overtakes(a, id) {
        OverNeverMarked(After(w, a), rest, i, id);
        LateMarkNeedsMark(rest, id);
      } else {
        NeverFallsIff(After(w, a), rest, i, id);
      }
    }
  }

  lemma {:induction false} LateMarkNeedsMark(actions: seq<Action>, id: Uuid)
    ensures LateMark(actions, id) ==> Mark(id) in actions
  {
    if actions != [] {
      assert actions == [actions[0]] + actions[1..];
      if LateMark(actions[1..], id) {
        LateMarkNeedsMark(actions[1..], id);
      }
    }
  }

  /** With sending and marking as two actions, overlapping drains included, the status of a job read as
      pending never falls if and only if no cancellation or completion of it comes before a mark of it. */
  lemma SplitStatusClimbsIff(w: World, actions: seq<Action>, i: nat, id: Uuid)
    requires RowOf(w.jobs.rows, i, id) && (forall a :: a in actions ==> Foreign(a, id))
    requires w.jobs.rows[i].status == Pending
    ensures NeverFalls(w, actions, i) <==>
              !exists j, k :: 0 <= j < k < |actions| && Overtakes(actions[j], id) && actions[k] == Mark(id)
  {
    NeverFallsIff(w, actions, i, id);
    LateMarkMeans(actions, id);
  }

  /** The failing input: the agent reports the job completed between the two halves of its dispatch. */
  lemma LateMarkFallsBack(d: Uuid, id: Uuid, p: JobPayload, signer: bool)
    ensures var w := OneJob(d, Row(id, d, Obj(Fields(p)), Pending, None), signer, [], {});
      var actions := [Send(id), Handle(Complete(d, id, 0)), Mark(id)];
      && !NeverFalls(w, actions, 0)
      && After(After(After(w, actions[0]), actions[1]), actions[2]).jobs.rows
         == [Row(id, d, Obj(Fields(p)), Dispatched, Some(0))]
  {
    hide FromJson, SignJob, Fields;
    var w := OneJob(d, Row(id, d, Obj(Fields(p)), Pending, None), signer, [], {});
    var actions := [Send(id), Handle(Complete(d, id, 0)), Mark(id)];
    assert Overtakes(actions[1], id) && actions[2] == Mark(id);
    SplitStatusClimbsIff(w, actions, 0, id);
  }

  lemma {:induction false} OneDueMessage(rows: seq<Row>, d: Uuid, signer: bool, i: nat)
    requires i < |rows| && Due(rows[i], d) && forall k :: 0 <= k < |rows| ==> (Due(rows[k], d) <==> k == i)
    ensures DueMessages(rows, d, signer) == [Dispatch(rows[i], FromJson(rows[i].payload).value, signer)]
  {
    hide FromJson, SignJob, Due;
    if i == 0 {
      NoDueMessage(rows[1..], d, signer);
    } else {
      OneDueMessage(rows[1..], d, signer, i - 1);
    }
  }

  lemma {:induction false} NoDueMessage(rows: seq<Row>, d: Uuid, signer: bool)
    requires forall k :: 0 <= k < |rows| ==> !Due(rows[k], d)
    ensures DueMessages(rows, d, signer) == []
  {
    hide FromJson, SignJob, Due;
    if rows != [] {
      NoDueMessage(rows[1..], d, signer);
    }
  }

  /** With nothing between them the two actions are the drain of a device with one job due. */
  lemma SendAndMarkIsDrain(w: World, d: Uuid, i: nat, id: Uuid)
    requires RowOf(w.jobs.rows, i, id) && Live(w.jobs, d)
    requires forall k :: 0 <= k < |w.jobs.rows| ==> (Due(w.jobs.rows[k], d) <==> k == i)
    ensures After(After(w, Send(id)), Mark(id)) == Step(w, Drain(d))
  {
    hide FromJson, SignJob, DueMessages;
    var rows := w.jobs.rows;
    FindsRow(rows, i, id);
    OneDueMessage(rows, d, w.jobs.signer, i);
    assert rows[i] in rows && Due(rows[i], d);
    assert DueIds(rows, d) == {id};
  }
}
