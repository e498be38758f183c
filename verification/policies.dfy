/** Policies, device groups and assignments: the tables, the handlers that change them,
    and the two queries that say which device gets which policy. */
module Policies {
  import opened Common
  import opened Sql

  datatype Policy = Policy(name: string, description: Option<string>, rules: string, version: nat, enabled: bool)

  /** A row of `policy_assignments`. */
  datatype Assignment = Assignment(policy: Uuid, device: Option<Uuid>, group: Option<Uuid>)

  /** A row of `group_members` is a pair (group, device). */
  type Member = (Uuid, Uuid)

  /** `groups` maps a group to its name. */
  datatype Db = Db(policies: map<Uuid, Policy>, devices: set<Uuid>, groups: map<Uuid, string>, members: set<Member>,
                   assignments: seq<Assignment>)

  /** What is sent to an agent for one policy. */
  datatype Definition = Definition(id: Uuid, name: string, rules: string)

  function DefinitionOf(id: Uuid, p: Policy): Definition { Definition(id, p.name, p.rules) }

  // ---- constraints of the schema ----

  predicate SameDevice(r: Assignment, t: Assignment) {
    r.policy == t.policy && r.device.Some? && r.device == t.device
  }

  predicate SameGroup(r: Assignment, t: Assignment) {
    r.policy == t.policy && r.group.Some? && r.group == t.group
  }

  predicate Conflict(r: Assignment, t: Assignment) { SameDevice(r, t) || SameGroup(r, t) }

  /** Both partial unique indexes. */
  ghost predicate Indexed(rows: seq<Assignment>) {
    forall i, j :: 0 <= i < j < |rows| ==> !Conflict(rows[i], rows[j])
  }

  predicate OneTarget(r: Assignment) { r.device.Some? <==> r.group.None? }

  predicate References(db: Db, r: Assignment) {
    && r.policy in db.policies
    && (r.device.Some? ==> r.device.value in db.devices)
    && (r.group.Some? ==> r.group.value in db.groups)
  }

  /** The unique constraint on `device_groups.name`. */
  ghost predicate DistinctNames(groups: map<Uuid, string>) {
    forall g, h :: g in groups && h in groups && groups[g] == groups[h] ==> g == h
  }

  /** Every row has exactly one target, every reference resolves and both indexes hold. */
  ghost predicate Inv(db: Db) {
    && (forall r :: r in db.assignments ==> OneTarget(r) && References(db, r))
    && (forall m :: m in db.members ==> m.0 in db.groups && m.1 in db.devices)
    && DistinctNames(db.groups)
    && Indexed(db.assignments)
  }

  // ---- what each handler does to the tables ----

  function Keep(rows: seq<Assignment>, keep: Assignment -> bool): seq<Assignment> { Filter(rows, keep) }

  function AfterCreatePolicy(db: Db, id: Uuid, name: string, description: Option<string>, rules: string): Db {
    if id in db.policies then db
    else db.(policies := db.policies[id := Policy(name, description, rules, 1, true)])
  }

  function Edited(p: Policy, name: Option<string>, description: Option<string>, rules: Option<string>,
                  enabled: Option<bool>): Policy
  {
    Policy(if name.Some? then name.value else p.name,
           if description.Some? then description else p.description,
           if rules.Some? then rules.value else p.rules,
           if rules.Some? then p.version + 1 else p.version,
           if enabled.Some? then enabled.value else p.enabled)
  }

  function AfterUpdatePolicy(db: Db, id: Uuid, name: Option<string>, description: Option<string>, rules: Option<string>,
                             enabled: Option<bool>): Db
  {
    if id !in db.policies then db
    else db.(policies := db.policies[id := Edited(db.policies[id], name, description, rules, enabled)])
  }

  function NotOfPolicy(id: Uuid): Assignment -> bool { (r: Assignment) => r.policy != id }

  function AfterDeletePolicy(db: Db, id: Uuid): Db {
    db.(policies := db.policies - {id}, assignments := Keep(db.assignments, NotOfPolicy(id)))
  }

  datatype AssignResult = Assigned | BadRequest | ForeignKeyError

  function AssignOutcome(db: Db, r: Assignment): AssignResult {
    if !OneTarget(r) then BadRequest
    else if (exists t :: t in db.assignments && Conflict(t, r)) || References(db, r) then Assigned
    else ForeignKeyError
  }

  /** `INSERT ... ON CONFLICT DO NOTHING`, after the two request checks. */
  function AfterAssign(db: Db, r: Assignment): Db {
    if !OneTarget(r) || (exists t :: t in db.assignments && Conflict(t, r)) || !References(db, r) then db
    else db.(assignments := db.assignments + [r])
  }

  /** `policy_id = $1 AND (device_id = $2 OR group_id = $3)`. */
  function UnassignWhere(r: Assignment, id: Uuid, device: Option<Uuid>, group: Option<Uuid>): Truth {
    And(Equals(Some(r.policy), Some(id)), Or(Equals(r.device, device), Equals(r.group, group)))
  }

  function NotUnassigned(id: Uuid, device: Option<Uuid>, group: Option<Uuid>): Assignment -> bool {
    (r: Assignment) => !UnassignWhere(r, id, device, group).True?
  }

  function AfterUnassign(db: Db, id: Uuid, device: Option<Uuid>, group: Option<Uuid>): Db {
    db.(assignments := Keep(db.assignments, NotUnassigned(id, device, group)))
  }

  function NotOfGroup(id: Uuid): Assignment -> bool { (r: Assignment) => r.group != Some(id) }

  function NotOfDevice(id: Uuid): Assignment -> bool { (r: Assignment) => r.device != Some(id) }

  function AfterDeleteGroup(db: Db, id: Uuid): Db {
    db.(groups := db.groups - {id}, members := (set m | m in db.members && m.0 != id),
        assignments := Keep(db.assignments, NotOfGroup(id)))
  }

  function AfterDeleteDevice(db: Db, id: Uuid): Db {
    db.(devices := db.devices - {id}, members := (set m | m in db.members && m.1 != id),
        assignments := Keep(db.assignments, NotOfDevice(id)))
  }

  predicate NameTaken(groups: map<Uuid, string>, name: string) { exists g :: g in groups && groups[g] == name }

  function AfterCreateGroup(db: Db, id: Uuid, name: string): Db {
    if id in db.groups || NameTaken(db.groups, name) then db else db.(groups := db.groups[id := name])
  }

  function AfterAddMember(db: Db, group: Uuid, device: Uuid): Db {
    if group in db.groups && device in db.devices then db.(members := db.members + {(group, device)}) else db
  }

  function AfterRemoveMember(db: Db, group: Uuid, device: Uuid): Db {
    db.(members := db.members - {(group, device)})
  }

  // ---- the two queries ----

  /** The policy's side: `SELECT DISTINCT device_id ... UNION SELECT DISTINCT gm.device_id ...`. */
  function DevicesOf(db: Db, id: Uuid): set<Uuid> {
    (set r | r in db.assignments
        && And(Equals(Some(r.policy), Some(id)), if r.device.Some? then True else False).True? :: r.device.value)
    + (set r, m | r in db.assignments && m in db.members
        && And(Equals(r.group, Some(m.0)), Equals(Some(r.policy), Some(id))).True? :: m.1)
  }

  function GroupsOf(db: Db, device: Uuid): set<Uuid> {
    set m | m in db.members && m.1 == device :: m.0
  }

  /** The device's side: its `WHERE`, for a row joined with its policy. */
  function DeviceWhere(db: Db, device: Uuid, r: Assignment): Truth {
    And(Or(Equals(r.device, Some(device)), In(r.group, GroupsOf(db, device))),
        if r.policy in db.policies && db.policies[r.policy].enabled then True else False)
  }

  function Selects(db: Db, device: Uuid): Assignment -> bool {
    (r: Assignment) => DeviceWhere(db, device, r).True?
  }

  function PolicyIdOf(): Assignment -> Uuid { (r: Assignment) => r.policy }

  /** The policies of the joined rows the device's query returns, one per row. */
  function PoliciesFor(db: Db, device: Uuid): seq<Uuid> {
    Map(Filter(db.assignments, Selects(db, device)), PolicyIdOf())
  }

  /** The query promises no order: any arrangement of its rows is an answer. */
  ghost predicate Answers(db: Db, device: Uuid, ids: seq<Uuid>) { multiset(ids) == multiset(PoliciesFor(db, device)) }

  predicate AllExist(db: Db, ids: seq<Uuid>) { forall id :: id in ids ==> id in db.policies }

  lemma AnswersExist(db: Db, device: Uuid, ids: seq<Uuid>)
    requires Answers(db, device, ids)
    ensures AllExist(db, ids)
  {
    var rows := Filter(db.assignments, Selects(db, device));
    FilterMembers(db.assignments, Selects(db, device));
    forall id | id in ids
      ensures id in db.policies
    {
      assert id in multiset(PoliciesFor(db, device));
      var i :| 0 <= i < |rows| && PoliciesFor(db, device)[i] == id;
      assert rows[i] in rows;
    }
  }

  function DefinitionsOf(db: Db, ids: seq<Uuid>): (r: seq<Definition>)
    requires AllExist(db, ids)
    ensures |r| == |ids|
    ensures forall i :: 0 <= i < |r| ==> r[i].id == ids[i]
  {
    seq(|ids|, i requires 0 <= i < |ids| => assert ids[i] in ids; DefinitionOf(ids[i], db.policies[ids[i]]))
  }

  // ---- messages to the agents ----

  /** The `PushPolicy` messages put on each connected agent's channel. */
  type Channels = map<Uuid, seq<seq<Definition>>>

  function Pushed(channels: Channels, devices: set<Uuid>, msg: seq<Definition>): Channels {
    map d | d in channels :: if d in devices then channels[d] + [msg] else channels[d]
  }

  function AfterPush(db: Db, channels: Channels, id: Uuid): Channels {
    if id in db.policies && db.policies[id].enabled
    then Pushed(channels, DevicesOf(db, id), [DefinitionOf(id, db.policies[id])])
    else channels
  }

  /** `ids` is the answer the device's query gave. */
  function AfterConnectPush(db: Db, channels: Channels, device: Uuid, ids: seq<Uuid>): Channels
    requires AllExist(db, ids)
  {
    if ids == [] then channels else Pushed(channels, {device}, DefinitionsOf(db, ids))
  }

  lemma PushedOne(channels: Channels, sent: set<Uuid>, d: Uuid, msg: seq<Definition>)
    requires d !in sent
    ensures Pushed(channels, sent + {d}, msg)
         == var c := Pushed(channels, sent, msg); if d in c then c[d := c[d] + [msg]] else c
  {}

  lemma PushedNone(channels: Channels, msg: seq<Definition>)
    ensures Pushed(channels, {}, msg) == channels
  {}

  // ---- the handlers ----

  /** One `UPDATE` for each field of the request, all on the same row. */
  method UpdateColumns(was: Policy, name: Option<string>, description: Option<string>, rules: Option<string>,
                       enabled: Option<bool>)
    returns (row: Policy)
    ensures row == Edited(was, name, description, rules, enabled)
  {
    row := was;
    if name.Some? {
      row := row.(name := name.value);
    }
    if description.Some? {
      row := row.(description := description);
    }
    if rules.Some? {
      row := row.(rules := rules.value, version := row.version + 1);
    }
    if enabled.Some? {
      row := row.(enabled := enabled.value);
    }
  }

  class PolicyServer {
    var policies: map<Uuid, Policy>
    var devices: set<Uuid>
    var groups: map<Uuid, string>
    var members: set<Member>
    var assignments: seq<Assignment>
    var channels: Channels

    ghost function State(): Db
      reads this
    {
      Db(policies, devices, groups, members, assignments)
    }

    constructor (devices: set<Uuid>)
      ensures State() == Db(map[], devices, map[], {}, []) && channels == map[] && Inv(State())
    {
      this.policies, this.devices, this.groups, this.members := map[], devices, map[], {};
      this.assignments, this.channels := [], map[];
    }

    /** `gen_random_uuid` is the parameter `id`; the primary key refuses one in use. */
    method CreatePolicy(id: Uuid, name: string, description: Option<string>, rules: string) returns (ok: bool)
      modifies this`policies
      ensures ok <==> id !in old(policies)
      ensures State() == AfterCreatePolicy(old(State()), id, name, description, rules)
    {
      ok := id !in policies;
      if ok {
        policies := policies[id := Policy(name, description, rules, 1, true)];
      }
    }

    method UpdatePolicy(id: Uuid, name: Option<string>, description: Option<string>, rules: Option<string>,
                        enabled: Option<bool>)
      returns (ok: bool)
      modifies this`policies, this`channels
      ensures ok <==> id in old(policies)
      ensures State() == AfterUpdatePolicy(old(State()), id, name, description, rules, enabled)
      ensures channels == if ok then AfterPush(State(), old(channels), id) else old(channels)
    {
      hide AfterPush, Edited;
      ok := id in policies;
      if !ok {
        return;
      }
      var row := UpdateColumns(policies[id], name, description, rules, enabled);
      policies := policies[id := row];
      PushPolicyToAgents(id);
    }

    method DeletePolicy(id: Uuid) returns (ok: bool)
      modifies this`policies, this`assignments
      ensures ok <==> id in old(policies)
      ensures State() == AfterDeletePolicy(old(State()), id)
    {
      ok := id in policies;
      policies := policies - {id};
      assignments := Keep(assignments, NotOfPolicy(id));
    }

    method AssignPolicy(id: Uuid, device: Option<Uuid>, group: Option<Uuid>) returns (result: AssignResult)
      modifies this`assignments, this`channels
      ensures result == AssignOutcome(old(State()), Assignment(id, device, group))
      ensures State() == AfterAssign(old(State()), Assignment(id, device, group))
      ensures channels == if result == Assigned then AfterPush(State(), old(channels), id) else old(channels)
    {
      if device.None? && group.None? {
        return BadRequest;
      }
      if device.Some? && group.Some? {
        return BadRequest;
      }
      var row := Assignment(id, device, group);
      if exists t :: t in assignments && Conflict(t, row) {
      } else if id in policies && (device.Some? ==> device.value in devices)
        && (group.Some? ==> group.value in groups) {
        assignments := assignments + [row];
      } else {
        return ForeignKeyError;
      }
      PushPolicyToAgents(id);
      result := Assigned;
    }

    method UnassignPolicy(id: Uuid, device: Option<Uuid>, group: Option<Uuid>)
      modifies this`assignments
      ensures State() == AfterUnassign(old(State()), id, device, group)
    {
      assignments := Keep(assignments, NotUnassigned(id, device, group));
    }

    /** False is the refusal of a name that another group has. */
    method CreateGroup(id: Uuid, name: string) returns (ok: bool)
      modifies this`groups
      ensures ok <==> id !in old(groups) && forall g :: g in old(groups) ==> old(groups)[g] != name
      ensures State() == AfterCreateGroup(old(State()), id, name)
    {
      ok := id !in groups && !NameTaken(groups, name);
      if ok {
        groups := groups[id := name];
      }
    }

    method DeleteGroup(id: Uuid) returns (ok: bool)
      modifies this`groups, this`members, this`assignments
      ensures ok <==> id in old(groups)
      ensures State() == AfterDeleteGroup(old(State()), id)
    {
      ok := id in groups;
      groups := groups - {id};
      members := set m | m in members && m.0 != id;
      assignments := Keep(assignments, NotOfGroup(id));
    }

    /** False is the foreign-key error. */
    method AddMember(group: Uuid, device: Uuid) returns (ok: bool)
      modifies this`members
      ensures ok <==> (group, device) in old(members) || (group in groups && device in devices)
      ensures State() == AfterAddMember(old(State()), group, device)
    {
      if (group, device) in members {
        assert members == members + {(group, device)};
        return true;
      }
      ok := group in groups && device in devices;
      if ok {
        members := members + {(group, device)};
      }
    }

    method RemoveMember(group: Uuid, device: Uuid)
      modifies this`members
      ensures State() == AfterRemoveMember(old(State()), group, device)
    {
      members := members - {(group, device)};
    }

    /** Every connected device of the policy's query is sent the definition once, in any order. */
    method PushPolicyToAgents(id: Uuid)
      modifies this`channels
      ensures channels == AfterPush(State(), old(channels), id)
    {
      hide DevicesOf, Pushed;
      if id !in policies || !policies[id].enabled {
        return;
      }
      var msg := [DefinitionOf(id, policies[id])];
      var all := DevicesOf(Db(policies, devices, groups, members, assignments), id);
      var todo := all;
      PushedNone(channels, msg);
      assert all - todo == {};
      while todo != {}
        invariant todo <= all && channels == Pushed(old(channels), all - todo, msg)
        decreases |todo|
      {
        var d :| d in todo;
        PushedOne(old(channels), all - todo, d, msg);
        assert all - (todo - {d}) == all - todo + {d};
        if d in channels {
          channels := channels[d := channels[d] + [msg]];
        }
        todo := todo - {d};
      }
      assert all - todo == all;
    }

    /** `ids` is what the database answers to the device's query. */
    method PushPoliciesToDevice(device: Uuid, ids: seq<Uuid>)
      requires Answers(State(), device, ids)
      modifies this`channels
      ensures AllExist(State(), ids)
      ensures channels == AfterConnectPush(State(), old(channels), device, ids)
    {
      AnswersExist(State(), device, ids);
      if ids == [] {
        return;
      }
      var defs := DefinitionsOf(Db(policies, devices, groups, members, assignments), ids);
      if device in channels {
        channels := channels[device := channels[device] + [defs]];
      }
    }
  }
}
