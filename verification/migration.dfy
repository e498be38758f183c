/** The reshape of `policy_assignments` from (target_type, target_id) to the two nullable
    columns device_id and group_id, run as one transaction. */
module Migration {
  import opened Common
  import opened Policies
  import opened PolicyRuns

  datatype OldRow = OldRow(policy: Uuid, kind: string, target: Uuid)

  /** The tables before the migration. */
  datatype OldDb = OldDb(policies: map<Uuid, Policy>, devices: set<Uuid>, groups: map<Uuid, string>,
                         members: set<Member>, rows: seq<OldRow>)

  /** The type check, the uniqueness and the foreign keys of the old schema. */
  ghost predicate OldInv(db: OldDb) {
    && (forall r :: r in db.rows ==> r.kind in ["device", "group"] && r.policy in db.policies)
    && (forall i, j :: 0 <= i < j < |db.rows| ==> db.rows[i] != db.rows[j])
    && (forall m :: m in db.members ==> m.0 in db.groups && m.1 in db.devices)
    && DistinctNames(db.groups)
  }

  predicate Exists(db: OldDb, r: OldRow) {
    (r.kind == "device" ==> r.target in db.devices) && (r.kind == "group" ==> r.target in db.groups)
  }

  /** A row while both shapes coexist. */
  datatype WideRow = WideRow(was: OldRow, device: Option<Uuid>, group: Option<Uuid>)

  function Widened(r: OldRow): WideRow { WideRow(r, None, None) }

  function WithDevice(r: WideRow): WideRow { if r.was.kind == "device" then r.(device := Some(r.was.target)) else r }

  function WithGroup(r: WideRow): WideRow { if r.was.kind == "group" then r.(group := Some(r.was.target)) else r }

  function Narrowed(r: WideRow): Assignment { Assignment(r.was.policy, r.device, r.group) }

  function NewRow(r: OldRow): Assignment { Narrowed(WithGroup(WithDevice(Widened(r)))) }

  function Reshaped(db: OldDb): Db {
    Db(db.policies, db.devices, db.groups, db.members,
      seq(|db.rows|, i requires 0 <= i < |db.rows| => NewRow(db.rows[i])))
  }

  /** `UPDATE ... SET device_id = target_id WHERE target_type = 'device'`; a missing device fails the statement. */
  method UpdateDevices(table: seq<WideRow>, devices: set<Uuid>) returns (ok: bool, rows: seq<WideRow>)
    ensures ok <==> forall k :: 0 <= k < |table| && table[k].was.kind == "device" ==> table[k].was.target in devices
    ensures ok ==> |rows| == |table| && forall k :: 0 <= k < |rows| ==> rows[k] == WithDevice(table[k])
  {
    rows := table;
    var i := 0;
    while i < |table|
      invariant 0 <= i <= |table| == |rows|
      invariant forall k :: 0 <= k < i ==> table[k].was.kind == "device" ==> table[k].was.target in devices
      invariant forall k :: 0 <= k < |rows| ==> rows[k] == if k < i then WithDevice(table[k]) else table[k]
    {
      if rows[i].was.kind == "device" {
        if rows[i].was.target !in devices {
          return false, [];
        }
        rows := rows[i := rows[i].(device := Some(rows[i].was.target))];
      }
      i := i + 1;
    }
    ok := true;
  }

  /** `UPDATE ... SET group_id = target_id WHERE target_type = 'group'`. */
  method UpdateGroups(table: seq<WideRow>, groups: set<Uuid>) returns (ok: bool, rows: seq<WideRow>)
    ensures ok <==> forall k :: 0 <= k < |table| && table[k].was.kind == "group" ==> table[k].was.target in groups
    ensures ok ==> |rows| == |table| && forall k :: 0 <= k < |rows| ==> rows[k] == WithGroup(table[k])
  {
    rows := table;
    var i := 0;
    while i < |table|
      invariant 0 <= i <= |table| == |rows|
      invariant forall k :: 0 <= k < i ==> table[k].was.kind == "group" ==> table[k].was.target in groups
      invariant forall k :: 0 <= k < |rows| ==> rows[k] == if k < i then WithGroup(table[k]) else table[k]
    {
      if rows[i].was.kind == "group" {
        if rows[i].was.target !in groups {
          return false, [];
        }
        rows := rows[i := rows[i].(group := Some(rows[i].was.target))];
      }
      i := i + 1;
    }
    ok := true;
  }

  /** `CREATE UNIQUE INDEX` for both indexes: fails on a duplicate entry. */
  method CreateIndexes(rows: seq<Assignment>) returns (ok: bool)
    ensures ok <==> Indexed(rows)
  {
    var j := 0;
    while j < |rows|
      invariant 0 <= j <= |rows| && Indexed(rows[..j])
    {
      if exists i :: 0 <= i < j && Conflict(rows[i], rows[j]) {
        return false;
      }
      j := j + 1;
    }
    assert rows[..j] == rows;
    ok := true;
  }

  lemma IndexesHold(db: OldDb)
    requires OldInv(db)
    ensures Indexed(Reshaped(db).assignments)
  {
    var rows := Reshaped(db).assignments;
    forall i, j | 0 <= i < j < |rows|
      ensures !Conflict(rows[i], rows[j])
    {
      assert db.rows[i] in db.rows && db.rows[j] in db.rows;
    }
  }

  /** The statements in order; None is a failed statement, which rolls everything back. The
      indexes can always be created, so only a missing target fails the migration. */
  method Reshape(db: OldDb) returns (result: Option<Db>)
    requires OldInv(db)
    ensures result == if forall r :: r in db.rows ==> Exists(db, r) then Some(Reshaped(db)) else None
  {
    hide OldInv, Indexed;
    var table := seq(|db.rows|, i requires 0 <= i < |db.rows| => Widened(db.rows[i]));
    assert forall k :: 0 <= k < |table| ==> table[k].was in db.rows;
    var ok, withDevices := UpdateDevices(table, db.devices);
    if !ok {
      return None;
    }
    assert forall k :: 0 <= k < |table| ==> withDevices[k].was == table[k].was;
    var ok', wide := UpdateGroups(withDevices, db.groups.Keys);
    if !ok' {
      return None;
    }
    var rows := seq(|wide|, i requires 0 <= i < |wide| => Narrowed(wide[i]));
    assert rows == Reshaped(db).assignments;
    IndexesHold(db);
    var unique := CreateIndexes(rows);
    assert forall k :: 0 <= k < |db.rows| ==> table[k].was == db.rows[k];
    result := if unique then Some(Db(db.policies, db.devices, db.groups, db.members, rows)) else None;
  }

  /** The reshape keeps the (policy, kind, target) relation and the number of rows, and its result
      meets the new schema. */
  lemma ReshapeKeepsMeaning(db: OldDb, policy: Uuid, target: Uuid)
    requires OldInv(db) && forall r :: r in db.rows ==> Exists(db, r)
    ensures Inv(Reshaped(db)) && |Reshaped(db).assignments| == |db.rows|
    ensures Reshaped(db) == Db(db.policies, db.devices, db.groups, db.members, Reshaped(db).assignments)
    ensures OldRow(policy, "device", target) in db.rows <==> AssignedTo(Reshaped(db), policy, OnDevice(target))
    ensures OldRow(policy, "group", target) in db.rows <==> AssignedTo(Reshaped(db), policy, OnGroup(target))
  {
    var rows := Reshaped(db).assignments;
    IndexesHold(db);
    forall r | r in db.rows
      ensures NewRow(r) in rows
    {
      var k :| 0 <= k < |db.rows| && db.rows[k] == r;
      assert rows[k] == NewRow(r);
    }
    forall r | r in rows
      ensures exists o :: o in db.rows && NewRow(o) == r
    {
      var k :| 0 <= k < |rows| && rows[k] == r;
      assert db.rows[k] in db.rows;
    }
    assert NewRow(OldRow(policy, "device", target)) == RowFor(policy, OnDevice(target));
    assert NewRow(OldRow(policy, "group", target)) == RowFor(policy, OnGroup(target));
  }

  /** Both indexes, and one target per row, hold after the migration and after everything done since. */
  lemma KeptSinceReshape(db: OldDb, events: seq<Event>)
    requires OldInv(db) && forall r :: r in db.rows ==> Exists(db, r)
    ensures Inv(Run(Reshaped(db), events))
  {
    if r :| r in db.rows {
      ReshapeKeepsMeaning(db, r.policy, r.target);
    }
    InvOverRuns(Reshaped(db), events);
  }
}
