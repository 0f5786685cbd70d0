/** The master election of asgmaster: find this instance's role, read the
    role's master tag from any instance, then claim, confirm or yield. The
    EC2 client is a TagStore; whether each of its calls fails is an input. */
module AsgMaster {
  import opened Tags

  /** Suffix that turns a role into the key of its master tag. */
  const MasterSuffix := ":master"

  /** Exit status when no other instance is master (claimed or confirmed). */
  const ExitMaster := 0
  /** Exit status when another instance holds the master tag. */
  const ExitOtherMaster := 1

  /** Which of the three EC2 calls of one run fail. */
  datatype Faults = Faults(roleReadFails: bool, masterReadFails: bool, writeFails: bool)

  const NoFaults := Faults(false, false, false)

  function MasterKey(role: string): string {
    role + MasterSuffix
  }

  /** The filters of the role lookup: this instance, resource type instance, the role field. */
  function RoleFilter(instanceId: string, field: string): Filter {
    Filter(Some(instanceId), InstanceType, field)
  }

  /** The filters of the master lookup: resource type instance and the key, on any resource. */
  function MasterFilter(key: string): Filter {
    Filter(None, InstanceType, key)
  }

  /** What both lookups make of a DescribeTags outcome: the value of its
      first tag, or "" when it listed nothing or failed. */
  function FirstValue(d: Described): string {
    match d
    case Err => ""
    case Ok(tags) => if |tags| > 0 then tags[0].value else ""
  }

  /** A lookup reports the value of the first matching tag of the store, and
      "" when nothing matches or the call fails. */
  lemma LookupIsFirstMatch(tags: seq<Tag>, f: Filter, fails: bool)
    ensures FirstValue(DescribeTags(tags, f, fails)) ==
              if fails then "" else FirstMatchValue(f, tags).GetOr("")
  {
    SelectStartsAtFirstMatch(f, tags);
  }

  /** The role of the instance: the value of its first tag keyed `field`. */
  function GetAsgRole(tags: seq<Tag>, readFails: bool, instanceId: string, field: string): (role: string)
    ensures role == if readFails then "" else FirstMatchValue(RoleFilter(instanceId, field), tags).GetOr("")
  {
    LookupIsFirstMatch(tags, RoleFilter(instanceId, field), readFails);
    FirstValue(DescribeTags(tags, RoleFilter(instanceId, field), readFails))
  }

  /** The current master of a role: the value of the first instance tag keyed
      `key`, whichever instance carries it. */
  function GetMasterTag(tags: seq<Tag>, readFails: bool, key: string): (master: string)
    ensures master == if readFails then "" else FirstMatchValue(MasterFilter(key), tags).GetOr("")
  {
    LookupIsFirstMatch(tags, MasterFilter(key), readFails);
    FirstValue(DescribeTags(tags, MasterFilter(key), readFails))
  }

  /** The master value of `key` in the store, as a successful lookup reports it. */
  function ClaimedMaster(tags: seq<Tag>, key: string): string {
    FirstMatchValue(MasterFilter(key), tags).GetOr("")
  }

  /** The tag a claim writes: on the instance itself, the master key, the instance's id. */
  function ClaimTag(instanceId: string, key: string): Tag {
    Tag(instanceId, InstanceType, key, instanceId)
  }

  /** The key of the master tag one run uses. */
  function RunKey(tags: seq<Tag>, instanceId: string, field: string, faults: Faults): string {
    MasterKey(GetAsgRole(tags, faults.roleReadFails, instanceId, field))
  }

  /** Exit status and store after one run. */
  datatype Outcome = Outcome(exitCode: int, tags: seq<Tag>)

  /** One run of the decision, as a function of the store before it. */
  function Run(tags: seq<Tag>, instanceId: string, field: string, faults: Faults): (o: Outcome)
    ensures o.exitCode == ExitMaster || o.exitCode == ExitOtherMaster
    ensures o.tags == tags || o.tags == Put(tags, ClaimTag(instanceId, RunKey(tags, instanceId, field, faults)))
  {
    var key := RunKey(tags, instanceId, field, faults);
    var master := GetMasterTag(tags, faults.masterReadFails, key);
    if master == "" then
      Outcome(ExitMaster, if faults.writeFails then tags else Put(tags, ClaimTag(instanceId, key)))
    else if master == instanceId then
      Outcome(ExitMaster, tags)
    else
      Outcome(ExitOtherMaster, tags)
  }

  /** Writes the master tag on the instance and reports the key, or "" when
      CreateTags fails. */
  method SetMasterTag(svc: TagStore, instanceId: string, key: string, writeFails: bool) returns (written: string)
    modifies svc
    ensures written == if writeFails then "" else key
    ensures svc.tags == if writeFails then old(svc.tags) else Put(old(svc.tags), ClaimTag(instanceId, key))
  {
    var ok := svc.CreateTags(instanceId, key, instanceId, writeFails);
    if !ok {
      return "";
    }
    return key;
  }

  /** The decision block of the program, ending in an exit status. */
  method Decide(svc: TagStore, instanceId: string, field: string, faults: Faults) returns (exitCode: int)
    modifies svc
    ensures Outcome(exitCode, svc.tags) == Run(old(svc.tags), instanceId, field, faults)
  {
    var asgRole := GetAsgRole(svc.tags, faults.roleReadFails, instanceId, field);
    var masterTag := GetMasterTag(svc.tags, faults.masterReadFails, asgRole + MasterSuffix);
    if masterTag == "" {
      var _ := SetMasterTag(svc, instanceId, asgRole + MasterSuffix, faults.writeFails);
      return ExitMaster;
    } else if masterTag == instanceId {
      return ExitMaster;
    }
    return ExitOtherMaster;
  }

  // The branch table, stated against the store.

  /** Unclaimed, or the master read failed: exit 0 and write the claim (if the write goes through). */
  lemma RunClaimsWhenUnclaimed(tags: seq<Tag>, instanceId: string, field: string, faults: Faults, key: string)
    requires key == RunKey(tags, instanceId, field, faults)
    requires faults.masterReadFails || ClaimedMaster(tags, key) == ""
    ensures Run(tags, instanceId, field, faults) ==
              Outcome(ExitMaster, if faults.writeFails then tags else Put(tags, ClaimTag(instanceId, key)))
  {
  }

  /** Claimed by this instance: exit 0, no write. */
  lemma RunConfirmsOwnClaim(tags: seq<Tag>, instanceId: string, field: string, faults: Faults, key: string)
    requires key == RunKey(tags, instanceId, field, faults)
    requires !faults.masterReadFails && instanceId != "" && ClaimedMaster(tags, key) == instanceId
    ensures Run(tags, instanceId, field, faults) == Outcome(ExitMaster, tags)
  {
  }

  /** Claimed by another instance: exit 1, no write. */
  lemma RunYieldsToOtherClaim(tags: seq<Tag>, instanceId: string, field: string, faults: Faults, key: string)
    requires key == RunKey(tags, instanceId, field, faults)
    requires !faults.masterReadFails && ClaimedMaster(tags, key) != "" && ClaimedMaster(tags, key) != instanceId
    ensures Run(tags, instanceId, field, faults) == Outcome(ExitOtherMaster, tags)
  {
  }

  /** A run exits 1 exactly when the master read succeeds and finds a claim
      by some other instance; it changes the store only when it found no
      claim (or could not read one). */
  lemma ExitAndWriteConditions(tags: seq<Tag>, instanceId: string, field: string, faults: Faults)
    ensures var key := RunKey(tags, instanceId, field, faults);
            var o := Run(tags, instanceId, field, faults);
            && (o.exitCode == ExitOtherMaster <==>
                  !faults.masterReadFails && ClaimedMaster(tags, key) != "" && ClaimedMaster(tags, key) != instanceId)
            && (o.tags != tags ==> faults.masterReadFails || ClaimedMaster(tags, key) == "")
  {
  }

  // Lookup scoping.

  /** A tag that is not this instance's role tag never changes the role lookup. */
  lemma RoleLookupIgnoresOtherTags(a: seq<Tag>, t: Tag, b: seq<Tag>, readFails: bool, instanceId: string, field: string)
    requires t.resourceId != instanceId || t.resourceType != InstanceType || t.key != field
    ensures GetAsgRole(a + [t] + b, readFails, instanceId, field) == GetAsgRole(a + b, readFails, instanceId, field)
  {
    SelectSkipsUnmatched(RoleFilter(instanceId, field), a, t, b);
  }

  /** A tag with another key, or not on an instance, never changes the master lookup. */
  lemma MasterLookupIgnoresOtherTags(a: seq<Tag>, t: Tag, b: seq<Tag>, readFails: bool, key: string)
    requires t.resourceType != InstanceType || t.key != key
    ensures GetMasterTag(a + [t] + b, readFails, key) == GetMasterTag(a + b, readFails, key)
  {
    SelectSkipsUnmatched(MasterFilter(key), a, t, b);
  }

  /** Different roles have different master keys. */
  lemma MasterKeyInjective(role1: string, role2: string)
    requires MasterKey(role1) == MasterKey(role2)
    ensures role1 == role2
  {
    assert |role1| == |role2|;
    assert role1 == MasterKey(role1)[..|role1|];
    assert role2 == MasterKey(role2)[..|role2|];
  }

  /** A write to a slot the role filter cannot see leaves the role as it was. */
  lemma RoleLookupIgnoresUnseenWrite(tags: seq<Tag>, t: Tag, readFails: bool, instanceId: string, field: string)
    requires Outside(RoleFilter(instanceId, field), t.resourceId, t.key)
    ensures GetAsgRole(Put(tags, t), readFails, instanceId, field) == GetAsgRole(tags, readFails, instanceId, field)
  {
    SelectPutOutside(RoleFilter(instanceId, field), tags, t);
    assert DescribeTags(Put(tags, t), RoleFilter(instanceId, field), readFails)
        == DescribeTags(tags, RoleFilter(instanceId, field), readFails);
  }

  /** A write to a slot the master filter cannot see leaves the master as it was. */
  lemma MasterLookupIgnoresUnseenWrite(tags: seq<Tag>, t: Tag, readFails: bool, key: string)
    requires Outside(MasterFilter(key), t.resourceId, t.key)
    ensures GetMasterTag(Put(tags, t), readFails, key) == GetMasterTag(tags, readFails, key)
  {
    SelectPutOutside(MasterFilter(key), tags, t);
    assert DescribeTags(Put(tags, t), MasterFilter(key), readFails)
        == DescribeTags(tags, MasterFilter(key), readFails);
  }

  /** A write that neither lookup of a run can see leaves the run's verdict as it was. */
  lemma RunIgnoresUnseenWrite(tags: seq<Tag>, t: Tag, instanceId: string, field: string, faults: Faults)
    requires Outside(RoleFilter(instanceId, field), t.resourceId, t.key)
    requires Outside(MasterFilter(RunKey(tags, instanceId, field, faults)), t.resourceId, t.key)
    ensures Run(Put(tags, t), instanceId, field, faults).exitCode == Run(tags, instanceId, field, faults).exitCode
  {
    var key := RunKey(tags, instanceId, field, faults);
    var written := Put(tags, t);
    RoleLookupIgnoresUnseenWrite(tags, t, faults.roleReadFails, instanceId, field);
    assert RunKey(written, instanceId, field, faults) == key;
    MasterLookupIgnoresUnseenWrite(tags, t, faults.masterReadFails, key);
    RunVerdict(tags, instanceId, field, faults);
    RunVerdict(written, instanceId, field, faults);
  }

  /** The exit status of a run depends only on the master value it read. */
  lemma RunVerdict(tags: seq<Tag>, instanceId: string, field: string, faults: Faults)
    ensures var master := GetMasterTag(tags, faults.masterReadFails, RunKey(tags, instanceId, field, faults));
            Run(tags, instanceId, field, faults).exitCode ==
              if master == "" || master == instanceId then ExitMaster else ExitOtherMaster
  {
  }

  /** Another instance of another role cannot influence a run: whatever the
      first run wrote, the second run's verdict is what it would have been. */
  lemma GroupsIndependent(tags: seq<Tag>, a: string, b: string, field: string, fa: Faults, fb: Faults)
    requires a != b
    requires GetAsgRole(tags, fa.roleReadFails, a, field) != GetAsgRole(tags, fb.roleReadFails, b, field)
    ensures Run(Run(tags, a, field, fa).tags, b, field, fb).exitCode == Run(tags, b, field, fb).exitCode
  {
    var keyA := RunKey(tags, a, field, fa);
    if Run(tags, a, field, fa).tags != tags {
      if keyA == RunKey(tags, b, field, fb) {
        MasterKeyInjective(GetAsgRole(tags, fa.roleReadFails, a, field), GetAsgRole(tags, fb.roleReadFails, b, field));
      }
      RunIgnoresUnseenWrite(tags, ClaimTag(a, keyA), b, field, fb);
    }
  }

  // Confirmation after a claim.

  /** One instance, one run at a time: a claim on a store with no master tag
      for the role is confirmed by the next run through the "equals self"
      branch (the next run's key is the same and its master read returns this
      instance's non-empty id), so that run writes nothing. */
  lemma ClaimThenConfirm(tags: seq<Tag>, instanceId: string, field: string, first: Faults, second: Faults, key: string)
    requires key == RunKey(tags, instanceId, field, first)
    requires forall t :: t in tags ==> !Matches(MasterFilter(key), t)
    requires instanceId != "" && field != key
    requires !first.writeFails
    requires second.roleReadFails == first.roleReadFails && !second.masterReadFails
    ensures Run(tags, instanceId, field, first) == Outcome(ExitMaster, Put(tags, ClaimTag(instanceId, key)))
    ensures RunKey(Put(tags, ClaimTag(instanceId, key)), instanceId, field, second) == key
    ensures GetMasterTag(Put(tags, ClaimTag(instanceId, key)), false, key) == instanceId
    ensures Run(Put(tags, ClaimTag(instanceId, key)), instanceId, field, second) ==
              Outcome(ExitMaster, Put(tags, ClaimTag(instanceId, key)))
  {
    var claimed := Put(tags, ClaimTag(instanceId, key));
    RoleLookupIgnoresUnseenWrite(tags, ClaimTag(instanceId, key), second.roleReadFails, instanceId, field);
    assert RunKey(claimed, instanceId, field, second) == key;
    SelectPutFirst(MasterFilter(key), tags, ClaimTag(instanceId, key));
    assert DescribeTags(claimed, MasterFilter(key), false) == Ok([ClaimTag(instanceId, key)]);
  }

  /** When the role field is itself a master key (here ":master" on an
      instance with no role tag), the claim is written into the role field:
      the next run reads the instance id as its role, uses another key and
      claims again. */
  lemma RoleFieldCollision(claimed: seq<Tag>)
    requires claimed == [Tag("i-A", InstanceType, ":master", "i-A")]
    ensures RunKey([], "i-A", ":master", NoFaults) == ":master"
    ensures Run([], "i-A", ":master", NoFaults) == Outcome(ExitMaster, claimed)
    ensures RunKey(claimed, "i-A", ":master", NoFaults) == "i-A:master"
    ensures Run(claimed, "i-A", ":master", NoFaults) == Outcome(ExitMaster, Put(claimed, ClaimTag("i-A", "i-A:master")))
    ensures Put(claimed, ClaimTag("i-A", "i-A:master")) != claimed
  {
    assert MasterKey("") == ":master";
    assert Put([], ClaimTag("i-A", ":master")) == claimed by {
      assert Without([], "i-A", ":master") == [];
    }
    assert FirstMatch(RoleFilter("i-A", ":master"), claimed) == Some(0);
    assert MasterKey("i-A") == "i-A:master";
    assert !Matches(MasterFilter("i-A:master"), claimed[0]);
    assert FirstMatch(MasterFilter("i-A:master"), claimed) == None;
    RunClaimsWhenUnclaimed(claimed, "i-A", ":master", NoFaults, "i-A:master");
    assert |Put(claimed, ClaimTag("i-A", "i-A:master"))| == 2 by {
      assert Without(claimed, "i-A", "i-A:master") == claimed;
    }
  }

  /** A master tag with an empty value reads as "unclaimed": when one sits on
      another instance ahead of any real claim, two instances of the role both
      claim and both exit 0, one after the other. */
  lemma EmptyValuedClaimElectsEveryone(tags: seq<Tag>, afterA: seq<Tag>)
    requires tags == [Tag("i-X", InstanceType, "web:master", ""), Tag("i-A", InstanceType, "role", "web"),
                      Tag("i-B", InstanceType, "role", "web")]
    requires afterA == Put(tags, ClaimTag("i-A", "web:master"))
    ensures Run(tags, "i-A", "role", NoFaults) == Outcome(ExitMaster, afterA)
    ensures Run(afterA, "i-B", "role", NoFaults) == Outcome(ExitMaster, Put(afterA, ClaimTag("i-B", "web:master")))
  {
    EmptyValuedClaimStore(tags, afterA);
    RunClaimsWhenUnclaimed(tags, "i-A", "role", NoFaults, "web:master");
    RunClaimsWhenUnclaimed(afterA, "i-B", "role", NoFaults, "web:master");
  }

  /** What that scenario's stores hold: both roles, and the empty-valued tag listed first. */
  lemma EmptyValuedClaimStore(tags: seq<Tag>, afterA: seq<Tag>)
    requires tags == [Tag("i-X", InstanceType, "web:master", ""), Tag("i-A", InstanceType, "role", "web"),
                      Tag("i-B", InstanceType, "role", "web")]
    requires afterA == Put(tags, ClaimTag("i-A", "web:master"))
    ensures RunKey(tags, "i-A", "role", NoFaults) == "web:master" && ClaimedMaster(tags, "web:master") == ""
    ensures RunKey(afterA, "i-B", "role", NoFaults) == "web:master" && ClaimedMaster(afterA, "web:master") == ""
  {
    assert MasterKey("web") == "web:master";
    assert FirstMatch(RoleFilter("i-A", "role"), tags) == Some(1) by {
      assert Matches(RoleFilter("i-A", "role"), tags[1]);
    }
    assert FirstMatch(MasterFilter("web:master"), tags) == Some(0);
    assert FirstMatch(RoleFilter("i-B", "role"), tags) == Some(2);
    RoleLookupIgnoresUnseenWrite(tags, ClaimTag("i-A", "web:master"), false, "i-B", "role");
    assert afterA[0] == tags[0] by {
      assert Without(tags, "i-A", "web:master")[0] == tags[0];
    }
    assert FirstMatch(MasterFilter("web:master"), afterA) == Some(0);
  }

  /** The end-to-end scenario: instance A of role web claims, B yields, A confirms. */
  lemma EndToEnd(start: seq<Tag>, claimed: seq<Tag>)
    requires start == [Tag("i-A", InstanceType, "role", "web"), Tag("i-B", InstanceType, "role", "web")]
    requires claimed == start + [Tag("i-A", InstanceType, "web:master", "i-A")]
    ensures Run(start, "i-A", "role", NoFaults) == Outcome(ExitMaster, claimed)
    ensures Run(claimed, "i-B", "role", NoFaults) == Outcome(ExitOtherMaster, claimed)
    ensures Run(claimed, "i-A", "role", NoFaults) == Outcome(ExitMaster, claimed)
  {
    EndToEndStore(start, claimed);
    ClaimThenConfirm(start, "i-A", "role", NoFaults, NoFaults, "web:master");
    RunYieldsToOtherClaim(claimed, "i-B", "role", NoFaults, "web:master");
  }

  /** What the scenario's stores hold: the roles, the master key, the claim. */
  lemma EndToEndStore(start: seq<Tag>, claimed: seq<Tag>)
    requires start == [Tag("i-A", InstanceType, "role", "web"), Tag("i-B", InstanceType, "role", "web")]
    requires claimed == start + [Tag("i-A", InstanceType, "web:master", "i-A")]
    ensures claimed == Put(start, ClaimTag("i-A", "web:master"))
    ensures RunKey(start, "i-A", "role", NoFaults) == "web:master"
    ensures forall t :: t in start ==> !Matches(MasterFilter("web:master"), t)
    ensures RunKey(claimed, "i-B", "role", NoFaults) == "web:master"
    ensures ClaimedMaster(claimed, "web:master") == "i-A"
  {
    var claim := ClaimTag("i-A", "web:master");
    assert Put(start, claim) == claimed by {
      WithoutAbsorbs(start, "i-A", "web:master", []);
      assert start + [] == start;
    }
    assert MasterKey("web") == "web:master";
    assert FirstMatch(RoleFilter("i-A", "role"), start) == Some(0) by {
      assert Matches(RoleFilter("i-A", "role"), start[0]);
    }
    assert FirstMatch(RoleFilter("i-B", "role"), start) == Some(1);
    RoleLookupIgnoresUnseenWrite(start, claim, false, "i-B", "role");
    SelectPutFirst(MasterFilter("web:master"), start, claim);
    assert GetMasterTag(claimed, false, "web:master") == "i-A";
  }

  /** The master read failing looks exactly like an unclaimed role, so a run
      claims even where another instance holds the tag. */
  lemma ReadErrorClaimsOverOtherMaster(tags: seq<Tag>, instanceId: string, field: string, faults: Faults, key: string)
    requires key == RunKey(tags, instanceId, field, faults)
    requires faults.masterReadFails && !faults.writeFails
    ensures GetMasterTag(tags, true, key) == GetMasterTag([], false, key) == ""
    ensures Run(tags, instanceId, field, faults) == Outcome(ExitMaster, Put(tags, ClaimTag(instanceId, key)))
  {
  }
}
