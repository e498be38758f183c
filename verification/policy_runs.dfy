/** The assignment table as a relation, its invariant over every run, and the agreement
    of the two queries. */
module PolicyRuns {
  import opened Common
  import opened Policies

  datatype Event =
    | EnrollDevice(id: Uuid)
    | CreateGroup(id: Uuid, groupName: string)
    | CreatePolicy(id: Uuid, name: string, description: Option<string>, rules: string)
    | UpdatePolicy(id: Uuid, newName: Option<string>, newDescription: Option<string>, newRules: Option<string>,
      newEnabled: Option<bool>)
    | DeletePolicy(id: Uuid)
    | Assign(row: Assignment)
    | Unassign(id: Uuid, fromDevice: Option<Uuid>, fromGroup: Option<Uuid>)
    | AddMember(group: Uuid, device: Uuid)
    | RemoveMember(group: Uuid, device: Uuid)
    | DeleteGroup(id: Uuid)
    | DeleteDevice(id: Uuid)

  function Step(db: Db, e: Event): Db {
    match e
    case EnrollDevice(id) => db.(devices := db.devices + {id})
    case CreateGroup(id, name) => AfterCreateGroup(db, id, name)
    case CreatePolicy(id, name, description, rules) => AfterCreatePolicy(db, id, name, description, rules)
    case UpdatePolicy(id, name, description, rules, enabled) =>
      AfterUpdatePolicy(db, id, name, description, rules, enabled)
    case DeletePolicy(id) => AfterDeletePolicy(db, id)
    case Assign(row) => AfterAssign(db, row)
    case Unassign(id, device, group) => AfterUnassign(db, id, device, group)
    case AddMember(group, device) => AfterAddMember(db, group, device)
    case RemoveMember(group, device) => AfterRemoveMember(db, group, device)
    case DeleteGroup(id) => AfterDeleteGroup(db, id)
    case DeleteDevice(id) => AfterDeleteDevice(db, id)
  }

  function Run(db: Db, events: seq<Event>): Db
    decreases |events|
  {
    if events == [] then db else Run(Step(db, events[0]), events[1..])
  }

  // ---- the invariant ----

  lemma {:induction false} KeepIndexed(rows: seq<Assignment>, keep: Assignment -> bool)
    requires Indexed(rows)
    ensures Indexed(Keep(rows, keep))
    ensures forall r :: r in Keep(rows, keep) <==> r in rows && keep(r)
  {
    FilterMembers(rows, keep);
    hide Conflict;
    if rows != [] {
      var rest := Keep(rows[1..], keep);
      KeepIndexed(rows[1..], keep);
      forall j | 0 <= j < |rest|
        ensures !Conflict(rows[0], rest[j])
      {
        assert rest[j] in rows[1..];
        var k :| 0 <= k < |rows[1..]| && rows[1..][k] == rest[j];
        assert rows[k + 1] == rest[j];
      }
    }
  }

  /** Every handler and every cascade keeps one target per row, all references and both indexes. */
  lemma InvKept(db: Db, e: Event)
    requires Inv(db)
    ensures Inv(Step(db, e))
  {
    hide Keep;
    match e
    case DeletePolicy(id) => KeepIndexed(db.assignments, NotOfPolicy(id));
    case Unassign(id, device, group) => KeepIndexed(db.assignments, NotUnassigned(id, device, group));
    case DeleteGroup(id) => KeepIndexed(db.assignments, NotOfGroup(id));
    case DeleteDevice(id) => KeepIndexed(db.assignments, NotOfDevice(id));
    case _ =>
  }

  lemma {:induction false} InvOverRuns(db: Db, events: seq<Event>)
    requires Inv(db)
    ensures Inv(Run(db, events))
    decreases |events|
  {
    if events != [] {
      InvKept(db, events[0]);
      InvOverRuns(Step(db, events[0]), events[1..]);
    }
  }

  // ---- the table is a relation ----

  datatype Target = OnDevice(id: Uuid) | OnGroup(id: Uuid)

  function RowFor(policy: Uuid, t: Target): (r: Assignment)
    ensures OneTarget(r)
  {
    match t
    case OnDevice(d) => Assignment(policy, Some(d), None)
    case OnGroup(g) => Assignment(policy, None, Some(g))
  }

  predicate AssignedTo(db: Db, policy: Uuid, t: Target) { RowFor(policy, t) in db.assignments }

  lemma RowsHaveTargets(r: Assignment)
    requires OneTarget(r)
    ensures r == RowFor(r.policy, if r.device.Some? then OnDevice(r.device.value) else OnGroup(r.group.value))
  {}

  lemma ConflictIsEqual(r: Assignment, t: Assignment)
    requires OneTarget(r) && OneTarget(t)
    ensures Conflict(r, t) <==> r == t
  {}

  /** No two rows say the same thing, so the table is exactly the relation. */
  lemma {:induction false} RowsDistinct(rows: seq<Assignment>, r: Assignment)
    requires Indexed(rows) && forall t :: t in rows ==> OneTarget(t)
    ensures multiset(rows)[r] <= 1
  {
    if rows != [] {
      assert rows == [rows[0]] + rows[1..];
      RowsDistinct(rows[1..], r);
      assert rows[0] in rows;
      forall t | t in rows[1..]
        ensures t != rows[0]
      {
        var k :| 0 <= k < |rows[1..]| && rows[1..][k] == t;
        assert !Conflict(rows[0], rows[k + 1]);
        ConflictIsEqual(rows[0], t);
      }
    }
  }

  /** An accepted assignment adds that pair and nothing else; a refused one changes nothing. */
  lemma AssignAdds(db: Db, policy: Uuid, t: Target, policy': Uuid, t': Target)
    requires Inv(db)
    ensures var after := AfterAssign(db, RowFor(policy, t));
            var ok := AssignOutcome(db, RowFor(policy, t)) == Assigned;
            && (ok <==> References(db, RowFor(policy, t)))
            && (AssignedTo(after, policy', t') <==> AssignedTo(db, policy', t') || (ok && policy' == policy && t' == t))
            && multiset(after.assignments)[RowFor(policy, t)] == (if ok then 1 else 0)
  {
    var r := RowFor(policy, t);
    var after := AfterAssign(db, r);
    if exists q :: q in db.assignments && Conflict(q, r) {
      var q :| q in db.assignments && Conflict(q, r);
      ConflictIsEqual(q, r);
    }
    if r in db.assignments {
      ConflictIsEqual(r, r);
    }
    InvKept(db, Assign(r));
    RowsDistinct(after.assignments, r);
  }

  /** Unassigning removes the named pairs and nothing else. A request that names no target removes nothing. */
  lemma UnassignRemoves(db: Db, policy: Uuid, device: Option<Uuid>, group: Option<Uuid>, policy': Uuid, t': Target)
    requires Inv(db)
    ensures var after := AfterUnassign(db, policy, device, group);
            AssignedTo(after, policy', t') <==>
              AssignedTo(db, policy', t')
              && !(policy' == policy
                && ((t'.OnDevice? && device == Some(t'.id)) || (t'.OnGroup? && group == Some(t'.id))))
  {
    KeepIndexed(db.assignments, NotUnassigned(policy, device, group));
  }

  lemma {:induction false} KeepAll(rows: seq<Assignment>, keep: Assignment -> bool)
    requires forall r :: r in rows ==> keep(r)
    ensures Keep(rows, keep) == rows
  {
    if rows != [] {
      assert rows == [rows[0]] + rows[1..];
      KeepAll(rows[1..], keep);
    }
  }

  /** Unassigning undoes an assignment that was new: the tables are as before. */
  lemma UnassignUndoesAssign(db: Db, policy: Uuid, t: Target)
    requires Inv(db) && !AssignedTo(db, policy, t)
    ensures var r := RowFor(policy, t);
            AfterUnassign(AfterAssign(db, r), policy, r.device, r.group) == db
  {
    var r := RowFor(policy, t);
    var keep := NotUnassigned(policy, r.device, r.group);
    forall q | q in db.assignments
      ensures keep(q)
    {
      RowsHaveTargets(q);
    }
    KeepAll(db.assignments, keep);
    if AfterAssign(db, r) != db {
      FilterAppend(db.assignments, [r], keep);
      assert !keep(r);
      assert Filter([r], keep) == [];
    }
  }

  /** Deleting a group removes its memberships and its assignments; every other pair stays. */
  lemma DeleteGroupCascades(db: Db, g: Uuid, policy: Uuid, t: Target)
    requires Inv(db)
    ensures var after := AfterDeleteGroup(db, g);
            && (AssignedTo(after, policy, t) <==> (AssignedTo(db, policy, t) && t != OnGroup(g)))
            && after.groups == db.groups - {g} && after.policies == db.policies && after.devices == db.devices
            && (forall g', d: Uuid :: (g', d) in after.members <==> g' != g && (g', d) in db.members)
  {
    KeepIndexed(db.assignments, NotOfGroup(g));
  }

  // ---- the two queries ----

  /** The policy is assigned to the device, or to a group the device is in. */
  ghost predicate Covers(db: Db, policy: Uuid, device: Uuid) {
    AssignedTo(db, policy, OnDevice(device))
    || exists g :: (g, device) in db.members && AssignedTo(db, policy, OnGroup(g))
  }

  lemma FoundIsCovered(db: Db, policy: Uuid, device: Uuid)
    requires Inv(db) && device in DevicesOf(db, policy)
    ensures Covers(db, policy, device)
  {
    if r :| r in db.assignments && r.policy == policy && r.device == Some(device) {
      RowsHaveTargets(r);
    } else {
      var r, m :| r in db.assignments && m in db.members && r.group == Some(m.0) && r.policy == policy
        && m.1 == device;
      RowsHaveTargets(r);
      assert m == (m.0, device);
    }
  }

  lemma CoveredIsFound(db: Db, policy: Uuid, device: Uuid)
    requires Covers(db, policy, device)
    ensures device in DevicesOf(db, policy)
  {
    if AssignedTo(db, policy, OnDevice(device)) {
      assert RowFor(policy, OnDevice(device)).device == Some(device);
    } else {
      var g :| (g, device) in db.members && AssignedTo(db, policy, OnGroup(g));
      var m := (g, device);
      assert RowFor(policy, OnGroup(g)).group == Some(m.0) && m.1 == device;
    }
  }

  lemma PolicySide(db: Db, policy: Uuid, device: Uuid)
    requires Inv(db)
    ensures device in DevicesOf(db, policy) <==> Covers(db, policy, device)
  {
    if device in DevicesOf(db, policy) {
      FoundIsCovered(db, policy, device);
    }
    if Covers(db, policy, device) {
      CoveredIsFound(db, policy, device);
    }
    hide DevicesOf, Covers, Inv;
  }

  /** Adding a member to a group makes the group's policies cover that device, and changes no other cover. */
  lemma AddMemberCovers(db: Db, g: Uuid, d: Uuid, policy: Uuid, device: Uuid)
    ensures Covers(AfterAddMember(db, g, d), policy, device) <==>
              Covers(db, policy, device)
              || (g in db.groups && d in db.devices && device == d && AssignedTo(db, policy, OnGroup(g)))
  {
    var after := AfterAddMember(db, g, d);
    if Covers(db, policy, device) && !AssignedTo(db, policy, OnDevice(device)) {
      var x :| (x, device) in db.members && AssignedTo(db, policy, OnGroup(x));
      assert (x, device) in after.members && AssignedTo(after, policy, OnGroup(x));
    }
    if g in db.groups && d in db.devices && device == d && AssignedTo(db, policy, OnGroup(g)) {
      assert (g, device) in after.members && AssignedTo(after, policy, OnGroup(g));
    }
  }

  /** Removing a member leaves a device covered exactly if something else covers it: a direct assignment
      or a membership other than the removed one. */
  lemma RemoveMemberUncovers(db: Db, g: Uuid, d: Uuid, policy: Uuid, device: Uuid)
    ensures Covers(AfterRemoveMember(db, g, d), policy, device) <==>
              AssignedTo(db, policy, OnDevice(device))
              || exists x :: (x, device) in db.members && (x, device) != (g, d) && AssignedTo(db, policy, OnGroup(x))
  {
    var after := AfterRemoveMember(db, g, d);
    if x :| (x, device) in db.members && (x, device) != (g, d) && AssignedTo(db, policy, OnGroup(x)) {
      assert (x, device) in after.members && AssignedTo(after, policy, OnGroup(x));
    }
  }

  predicate Enabled(db: Db, policy: Uuid) { policy in db.policies && db.policies[policy].enabled }

  lemma GroupMember(db: Db, g: Uuid, device: Uuid)
    ensures g in GroupsOf(db, device) <==> (g, device) in db.members
  {
    if (g, device) in db.members {
      assert (g, device).1 == device && (g, device).0 == g;
    }
    if g in GroupsOf(db, device) {
      var m :| m in db.members && m.1 == device && m.0 == g;
      assert m == (g, device);
    }
  }

  /** What the device's `WHERE` keeps, under the null semantics of `=`, `IN` and `OR`. */
  lemma WhereMeans(db: Db, device: Uuid, r: Assignment)
    ensures DeviceWhere(db, device, r).True? <==>
              Enabled(db, r.policy)
                && (r.device == Some(device) || (r.group.Some? && (r.group.value, device) in db.members))
  {
    if r.group.Some? {
      GroupMember(db, r.group.value, device);
    }
  }

  lemma DeviceSide(db: Db, policy: Uuid, device: Uuid)
    requires Inv(db)
    ensures policy in PoliciesFor(db, device) <==> Enabled(db, policy) && Covers(db, policy, device)
  {
    hide DeviceWhere, Enabled;
    var rows := Filter(db.assignments, Selects(db, device));
    FilterMembers(db.assignments, Selects(db, device));
    if policy in PoliciesFor(db, device) {
      var k :| 0 <= k < |rows| && rows[k].policy == policy;
      assert rows[k] in rows;
      WhereMeans(db, device, rows[k]);
      RowsHaveTargets(rows[k]);
    }
    if Enabled(db, policy) && Covers(db, policy, device) {
      var r;
      if AssignedTo(db, policy, OnDevice(device)) {
        r := RowFor(policy, OnDevice(device));
      } else {
        var g :| (g, device) in db.members && AssignedTo(db, policy, OnGroup(g));
        r := RowFor(policy, OnGroup(g));
      }
      WhereMeans(db, device, r);
      assert r in rows;
      var k :| 0 <= k < |rows| && rows[k] == r;
      assert PoliciesFor(db, device)[k] == policy;
    }
  }

  /** Both queries compute one relation from opposite ends: in every state a run reaches, an enabled
      policy is sent to a device by the policy's query exactly when it is in the device's result. */
  lemma QueriesAgree(start: Db, events: seq<Event>, policy: Uuid, device: Uuid)
    requires Inv(start) && Enabled(Run(start, events), policy)
    ensures var db := Run(start, events);
            device in DevicesOf(db, policy) <==> policy in PoliciesFor(db, device)
  {
    InvOverRuns(start, events);
    PolicySide(Run(start, events), policy, device);
    DeviceSide(Run(start, events), policy, device);
  }

  // ---- how often ----

  /** The groups in `rows` of the policy that contain the device. */
  function AssignedGroups(rows: seq<Assignment>, members: set<Member>, policy: Uuid, device: Uuid): set<Uuid> {
    set m | m in members && m.1 == device && RowFor(policy, OnGroup(m.0)) in rows :: m.0
  }

  /** One for a direct assignment, one for each assigned group. */
  function Reasons(rows: seq<Assignment>, members: set<Member>, policy: Uuid, device: Uuid): nat {
    (if RowFor(policy, OnDevice(device)) in rows then 1 else 0) + |AssignedGroups(rows, members, policy, device)|
  }

  function Answer(db: Db, rows: seq<Assignment>, device: Uuid): seq<Uuid> {
    Map(Filter(rows, Selects(db, device)), PolicyIdOf())
  }

  lemma AnswerHead(db: Db, rows: seq<Assignment>, device: Uuid)
    requires rows != []
    ensures Answer(db, rows, device)
         == (if DeviceWhere(db, device, rows[0]).True? then [rows[0].policy] else []) + Answer(db, rows[1..], device)
  {
    hide DeviceWhere;
  }

  lemma GroupsHead(rows: seq<Assignment>, members: set<Member>, policy: Uuid, device: Uuid)
    requires rows != [] && rows[0] !in rows[1..]
    ensures forall g :: g in AssignedGroups(rows, members, policy, device) <==>
              g in AssignedGroups(rows[1..], members, policy, device)
              || ((g, device) in members && RowFor(policy, OnGroup(g)) == rows[0])
    ensures forall g :: RowFor(policy, OnGroup(g)) == rows[0] ==>
              g !in AssignedGroups(rows[1..], members, policy, device)
  {
    hide RowFor;
    assert rows == [rows[0]] + rows[1..];
    forall g | (g, device) in members && RowFor(policy, OnGroup(g)) == rows[0]
      ensures g in AssignedGroups(rows, members, policy, device)
    {
      var m := (g, device);
      assert m.1 == device && RowFor(policy, OnGroup(m.0)) in rows;
    }
  }

  lemma ReasonsHead(rows: seq<Assignment>, members: set<Member>, policy: Uuid, device: Uuid)
    requires rows != [] && OneTarget(rows[0]) && rows[0] !in rows[1..]
    ensures var r := rows[0];
            Reasons(rows, members, policy, device) == Reasons(rows[1..], members, policy, device)
              + if r.policy == policy
                && (r.device == Some(device) || (r.group.Some? && (r.group.value, device) in members))
                then 1 else 0
  {
    hide AssignedGroups;
    var r, rest := rows[0], rows[1..];
    assert rows == [r] + rest;
    var all, some := AssignedGroups(rows, members, policy, device), AssignedGroups(rest, members, policy, device);
    GroupsHead(rows, members, policy, device);
    if r.group.Some? && r.policy == policy && (r.group.value, device) in members {
      assert RowFor(policy, OnGroup(r.group.value)) == r;
      assert all == some + {r.group.value};
    } else {
      assert all == some;
    }
  }

  lemma {:induction false} CountRows(db: Db, rows: seq<Assignment>, policy: Uuid, device: Uuid)
    requires Enabled(db, policy) && Indexed(rows) && forall r :: r in rows ==> OneTarget(r)
    ensures multiset(Answer(db, rows, device))[policy] == Reasons(rows, db.members, policy, device)
  {
    if rows == [] {
      assert AssignedGroups(rows, db.members, policy, device) == {};
    } else {
      hide DeviceWhere, Enabled, Answer, Reasons, Conflict;
      RowsDistinct(rows, rows[0]);
      assert rows == [rows[0]] + rows[1..];
      CountRows(db, rows[1..], policy, device);
      WhereMeans(db, device, rows[0]);
      AnswerHead(db, rows, device);
      ReasonsHead(rows, db.members, policy, device);
    }
  }

  /** The device's query repeats an enabled policy once per direct assignment plus once per
      assigned group that contains the device. */
  lemma DeviceSideCount(db: Db, policy: Uuid, device: Uuid)
    requires Inv(db) && Enabled(db, policy)
    ensures multiset(PoliciesFor(db, device))[policy]
         == (if AssignedTo(db, policy, OnDevice(device)) then 1 else 0)
          + |AssignedGroups(db.assignments, db.members, policy, device)|
  {
    CountRows(db, db.assignments, policy, device);
  }

  // ---- what the agents receive ----

  lemma AnswerMember(db: Db, device: Uuid, ids: seq<Uuid>, p: Uuid)
    requires Answers(db, device, ids)
    ensures p in ids <==> p in PoliciesFor(db, device)
  {
    assert p in ids <==> p in multiset(ids);
  }

  /** After a push, a connected device has one more message exactly when an enabled policy covers it;
      the message is that policy's id, name and rules alone. */
  lemma PushReachesCovered(db: Db, channels: Channels, policy: Uuid, device: Uuid)
    requires Inv(db) && device in channels
    ensures var pushed := AfterPush(db, channels, policy);
            pushed.Keys == channels.Keys
            && pushed[device] == channels[device]
              + if Enabled(db, policy) && Covers(db, policy, device)
                then [[Definition(policy, db.policies[policy].name, db.policies[policy].rules)]] else []
  {
    hide DevicesOf, Covers;
    PolicySide(db, policy, device);
  }

  /** Whatever order the database answers in, a connecting device is sent the id, name and rules of exactly the
      policies that cover it, in that order and in one message, or nothing if none does. */
  lemma ConnectPushIsCover(db: Db, channels: Channels, device: Uuid, ids: seq<Uuid>, policy: Uuid)
    requires Inv(db) && device in channels && Answers(db, device, ids)
    ensures AllExist(db, ids)
    ensures var sent := AfterConnectPush(db, channels, device, ids);
            && sent.Keys == channels.Keys && (forall d :: d in channels && d != device ==> sent[d] == channels[d])
            && (ids == [] ==> sent[device] == channels[device])
            && (ids != [] ==>
                  && |sent[device]| == |channels[device]| + 1 && channels[device] <= sent[device]
                  && IsDefinitions(db, ids, sent[device][|channels[device]|]))
            && (policy in ids <==> Enabled(db, policy) && Covers(db, policy, device))
  {
    hide PoliciesFor, Covers, Answers;
    AnswersExist(db, device, ids);
    AnswerMember(db, device, ids, policy);
    DeviceSide(db, policy, device);
  }

  /** The i-th definition is that of the i-th policy. */
  ghost predicate IsDefinitions(db: Db, ids: seq<Uuid>, msg: seq<Definition>) {
    && |msg| == |ids|
    && forall i :: 0 <= i < |ids| ==>
         ids[i] in db.policies && msg[i] == Definition(ids[i], db.policies[ids[i]].name, db.policies[ids[i]].rules)
  }
}
