/** What each policy request changes, field by field and cascade by cascade, and what a policy has become after
    any run. */
module PolicyLaws {
  import opened Common
  import opened Policies
  import opened PolicyRuns

  /** A new policy is enabled, at version 1, as it was written; nothing is assigned to it yet. */
  lemma CreatePolicyMeans(db: Db, id: Uuid, name: string, description: Option<string>, rules: string, device: Uuid)
    requires Inv(db) && id !in db.policies
    ensures var after := AfterCreatePolicy(db, id, name, description, rules);
      && after == db.(policies := after.policies)
      && after.policies == db.policies[id := Policy(name, description, rules, 1, true)]
      && !Covers(after, id, device)
  {}

  /** An update changes what the request gives and nothing else; new rules, and only they, raise the version by
      one. */
  lemma UpdatePolicyMeans(db: Db, id: Uuid, name: Option<string>, description: Option<string>, rules: Option<string>,
      enabled: Option<bool>)
    requires id in db.policies
    ensures var after := AfterUpdatePolicy(db, id, name, description, rules, enabled);
      var was := db.policies[id];
      && after == db.(policies := after.policies)
      && after.policies == db.policies[id := after.policies[id]]
      && after.policies[id].name == (match name case None => was.name case Some(n) => n)
      && after.policies[id].description == (match description case None => was.description case Some(_) => description)
      && after.policies[id].rules == (match rules case None => was.rules case Some(r) => r)
      && after.policies[id].version == was.version + (match rules case None => 0 case Some(_) => 1)
      && after.policies[id].enabled == (match enabled case None => was.enabled case Some(b) => b)
  {}

  /** The updates of the policy that give new rules. */
  function NewRules(events: seq<Event>, id: Uuid): seq<string> {
    if events == [] then []
    else (match events[0]
          case UpdatePolicy(x, _, _, Some(rules), _) => if x == id then [rules] else []
          case _ => [])
         + NewRules(events[1..], id)
  }

  lemma OnePolicyStep(db: Db, e: Event, id: Uuid)
    requires id in db.policies && e != DeletePolicy(id)
    ensures var after, news := Step(db, e), NewRules([e], id);
      && id in after.policies
      && after.policies[id].version == db.policies[id].version + |news|
      && after.policies[id].rules == (if news == [] then db.policies[id].rules else news[|news| - 1])
  {
    assert [e][1..] == [];
  }

  /** Over every run a policy that is not deleted has counted its changes of rules in its version, and has the
      rules of the last of them. */
  lemma {:induction false} VersionCountsRules(db: Db, events: seq<Event>, id: Uuid)
    requires id in db.policies && DeletePolicy(id) !in events
    ensures var end, news := Run(db, events), NewRules(events, id);
      && id in end.policies
      && end.policies[id].version == db.policies[id].version + |news|
      && end.policies[id].rules == (if news == [] then db.policies[id].rules else news[|news| - 1])
    decreases |events|
  {
    hide Step;
    if events != [] {
      assert events == [events[0]] + events[1..] && [events[0]][1..] == [];
      OnePolicyStep(db, events[0], id);
      VersionCountsRules(Step(db, events[0]), events[1..], id);
      assert NewRules([events[0]], id) + NewRules(events[1..], id) == NewRules(events, id) by {
        assert NewRules([events[0]], id) + [] == NewRules([events[0]], id);
      }
    }
  }

  /** Deleting a policy removes it and its assignments; everything else stays. */
  lemma DeletePolicyCascades(db: Db, id: Uuid, policy: Uuid, t: Target)
    requires Inv(db)
    ensures var after := AfterDeletePolicy(db, id);
      && after == db.(policies := db.policies - {id}, assignments := after.assignments)
      && (AssignedTo(after, policy, t) <==> AssignedTo(db, policy, t) && policy != id)
  {
    KeepIndexed(db.assignments, NotOfPolicy(id));
  }

  /** Deleting a device removes it, its memberships and its assignments; everything else stays. */
  lemma DeleteDeviceCascades(db: Db, id: Uuid, policy: Uuid, t: Target)
    requires Inv(db)
    ensures var after := AfterDeleteDevice(db, id);
      && after.policies == db.policies && after.groups == db.groups && after.devices == db.devices - {id}
      && (AssignedTo(after, policy, t) <==> AssignedTo(db, policy, t) && t != OnDevice(id))
      && (forall g, d: Uuid :: (g, d) in after.members <==> d != id && (g, d) in db.members)
  {
    KeepIndexed(db.assignments, NotOfDevice(id));
  }

  /** A request needs exactly one target, and an existing policy and target; a row that exists already is fine. */
  lemma AssignAnswers(db: Db, policy: Uuid, device: Option<Uuid>, group: Option<Uuid>)
    requires Inv(db)
    ensures var answer := AssignOutcome(db, Assignment(policy, device, group));
      && (answer == BadRequest <==> (device.None? && group.None?) || (device.Some? && group.Some?))
      && (answer == Assigned <==>
           policy in db.policies
           && ((device.Some? && group.None? && device.value in db.devices)
               || (group.Some? && device.None? && group.value in db.groups)))
  {
    var r := Assignment(policy, device, group);
    if OneTarget(r) && exists t :: t in db.assignments && Conflict(t, r) {
      var t :| t in db.assignments && Conflict(t, r);
      ConflictIsEqual(t, r);
    }
  }

  /** A group is made if and only if no group has its name, and changes nothing else. */
  lemma CreateGroupMeans(db: Db, id: Uuid, name: string)
    requires id !in db.groups
    ensures AfterCreateGroup(db, id, name)
         == if exists g :: g in db.groups && db.groups[g] == name then db else db.(groups := db.groups[id := name])
  {}

  /** A member is added if both ends exist, and memberships are all that changes. */
  lemma MembersMean(db: Db, g: Uuid, d: Uuid)
    ensures AfterAddMember(db, g, d).(members := db.members) == db
    ensures AfterRemoveMember(db, g, d).(members := db.members) == db
    ensures forall x, y: Uuid :: (x, y) in AfterAddMember(db, g, d).members <==>
              (x, y) in db.members || (x == g && y == d && g in db.groups && d in db.devices)
    ensures forall x, y: Uuid :: (x, y) in AfterRemoveMember(db, g, d).members <==>
              (x, y) in db.members && !(x == g && y == d)
  {}
}
