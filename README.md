# asgmaster: a Dafny model of tag-based master election

asgmaster runs on each member of an EC2 auto-scaling group, typically from
cron as `asgmaster && do_action.sh`. It answers "am I the master?" through its
exit status. The shared EC2 tag store is the only thing the instances
coordinate through:

1. the *role lookup* reads this instance's tag under a configurable field
   (default `role`), for example `web`;
2. the *master lookup* reads the tag `<role>:master` from any instance;
3. the *decision* claims mastership when that value is empty, confirms it
   when the value is this instance's id, and yields otherwise.

Claiming means writing the tag `<role>:master = <own id>` on the instance
itself.

The model has two modules.

- `Tags` (tags.dfy) is the EC2 tag store, which the program uses but does
  not contain.
  - A tag is `Tag(resourceId, resourceType, key, value)`.
  - `DescribeTags` either fails (`Err`) or lists every matching tag in the
    store's order (`Ok`). `Select` gives that order, which is the order of
    the store's sequence.
  - `FirstMatch` is an independent reference for "the first matching tag".
  - `Put` is a successful `CreateTags`. A resource holds one tag per key, so
    an old tag with the same resource and key is replaced, and the new tag is
    listed last.
  - `TagStore` is the client object. Its field `tags` is the store's state,
    and its method `CreateTags` updates it in place.
- `AsgMaster` (asgmaster.dfy) holds the program's own code.
  - The lookups `GetAsgRole` and `GetMasterTag` are functions over the tag
    sequence.
  - `SetMasterTag` and the decision block of `main` (`Decide`) are methods
    that change a `TagStore`.
  - `Decide` returns the exit status that `main` passes to `os.Exit`.
  - `Decide` is proved equal to the function `Run`, which gives the exit
    status and the store after one run. The election properties are lemmas
    about `Run`.
  - A `Faults` record is an input that says which of the run's three EC2
    calls fail (role read, master read, write). A failed read yields `""`,
    just as the program's error paths do.

Some consequences of the code, each proved by a lemma below:

- A failed master read makes the instance claim even when another instance
  holds the tag (`ReadErrorClaimsOverOtherMaster`).
- A master tag whose value is empty reads as "unclaimed". If such a tag sits
  on another instance ahead of every real claim, each instance of the role
  claims in turn and exits 0 (`EmptyValuedClaimElectsEveryone`).
- When the role field is itself a master key, the claim overwrites the
  instance's own role tag, so the next run computes a different key and claims
  again (`RoleFieldCollision`).

`setMasterTag` returns `""` when `CreateTags` fails (asgmaster.go:186) and
the key otherwise (asgmaster.go:189); `main` ignores the value
(asgmaster.go:56).

## Model

| member | source | states |
|---|---|---|
| `Tags.Select` | asgmaster.go:74-95 | lists exactly the store's tags that match every filter (resource-id when given, resource-type, key), and is empty exactly when none matches |
| `Tags.DescribeTags` | asgmaster.go:137-150 | a call fails exactly when the failure input says so; a successful call lists exactly the matching tags of the store |
| `Tags.FirstMatch` | asgmaster.go:152-155 | reference for "first result": the least position whose tag matches, or none exactly when no tag of the store matches |
| `Tags.SelectStartsAtFirstMatch` | asgmaster.go:112-115 | the listing returned by the store starts with the first matching tag of the store |
| `Tags.SelectSkipsUnmatched` | asgmaster.go:120-135 | inserting a tag that the filter does not match anywhere in the store leaves the listing unchanged |
| `Tags.Put` | asgmaster.go:161-174 | after a write, the written tag is the only tag in its (resource, key) slot, every tag outside that slot is kept, and the new tag is listed last |
| `Tags.SelectPutOutside` | asgmaster.go:161-172 | a write to a slot that a filter cannot match leaves that filter's listing unchanged |
| `Tags.SelectPutFirst` | asgmaster.go:161-172 | writing into a store where a filter matches nothing, with a tag it matches, makes that tag the whole listing |
| `Tags.PutIdempotent` | asgmaster.go:161-174 | writing the same tag twice leaves the store as one write does |
| `Tags.TagStore.CreateTags` | asgmaster.go:174-187 | reports success exactly when the call does not fail; on failure the store is unchanged, otherwise it becomes `Put` of the written instance tag |
| `AsgMaster.LookupIsFirstMatch` | asgmaster.go:97-115 | the value a lookup reports is that of the first matching tag of the store, and `""` when nothing matches or the call fails |
| `AsgMaster.GetAsgRole` | asgmaster.go:73-116 | the role is `""` when the read fails, else the value of the first tag on this instance, of resource type instance, with the configured field as key, or `""` when none exists |
| `AsgMaster.GetMasterTag` | asgmaster.go:119-156 | the master is `""` when the read fails, else the value of the first instance tag keyed `key` on any resource, or `""` when none exists |
| `AsgMaster.RoleLookupIgnoresOtherTags` | asgmaster.go:74-95 | a tag on another resource, of another type or with another key never changes the role an instance reads |
| `AsgMaster.MasterLookupIgnoresOtherTags` | asgmaster.go:120-135 | a tag with another key (such as another role's master key) or not on an instance never changes the master read for `key` |
| `AsgMaster.RoleLookupIgnoresUnseenWrite` | asgmaster.go:74-95 | a write to a slot that the role filter cannot match leaves the role unchanged |
| `AsgMaster.MasterLookupIgnoresUnseenWrite` | asgmaster.go:120-135 | a write to a slot that the master filter cannot match leaves the master value unchanged |
| `AsgMaster.MasterKeyInjective` | asgmaster.go:52 | two roles with the same master key are the same role, so `web:master` and `db:master` never coincide |
| `AsgMaster.SetMasterTag` | asgmaster.go:161-190 | returns the key when the write succeeds and `""` when it fails; writes the tag (self, key, self) on success and nothing on failure |
| `AsgMaster.Run` | asgmaster.go:51-68 | the exit status is 0 or 1, and the store after a run is either unchanged or the store with this instance's claim for its role's master key written |
| `AsgMaster.Decide` | asgmaster.go:51-68 | the returned exit status and the new store are those of `Run` on the old store |
| `AsgMaster.RunVerdict` | asgmaster.go:53-68 | the exit status is 0 when the master value read is `""` or equals self, and 1 otherwise |
| `AsgMaster.RunClaimsWhenUnclaimed` | asgmaster.go:53-57 | when the master read fails or finds no non-empty claim, the run exits 0 and writes exactly the claim (self, `role:master`, self), or nothing if the write fails |
| `AsgMaster.RunConfirmsOwnClaim` | asgmaster.go:58-61 | when the store's claim for the key is this instance's (non-empty) id, the run exits 0 and leaves the store unchanged |
| `AsgMaster.RunYieldsToOtherClaim` | asgmaster.go:62-68 | when the store's claim is non-empty and names another instance, the run exits 1 and leaves the store unchanged |
| `AsgMaster.ExitAndWriteConditions` | asgmaster.go:53-68 | a run exits 1 if and only if the master read succeeds and finds a non-empty claim by another instance; a run changes the store only when the master read failed or found no claim |
| `AsgMaster.ReadErrorClaimsOverOtherMaster` | asgmaster.go:137-150 | a failed master read gives the same `""` as an empty store, so the run claims and exits 0 whatever claim the store holds |
| `AsgMaster.RunIgnoresUnseenWrite` | asgmaster.go:51-58 | a write that neither of a run's lookups can see leaves the run's exit status unchanged |
| `AsgMaster.GroupsIndependent` | asgmaster.go:51-57 | after instance A of one role runs (claim or not), instance B of another role exits exactly as it would had A not run |
| `AsgMaster.ClaimThenConfirm` | asgmaster.go:53-61 | with no master tag for the key in the store, a run whose write succeeds claims and exits 0; the next run of the same instance uses the same key, its master read returns this instance's non-empty id (the "equals self" branch, not a second claim), and it exits 0 without changing the store |
| `AsgMaster.RoleFieldCollision` | asgmaster.go:51-57 | with role field `:master` on an instance with no role tag, the first run claims key `:master`, which becomes the instance's role tag; the second run uses key `i-A:master`, claims again and changes the store |
| `AsgMaster.EmptyValuedClaimElectsEveryone` | asgmaster.go:52-57 | with an empty-valued `web:master` tag on another instance listed first, instances A and B of role `web` both claim and both exit 0, one after the other |
| `AsgMaster.EndToEnd` | asgmaster.go:51-68 | store with instances A and B of role `web` and no claim: A exits 0 and writes `web:master = i-A`; B then exits 1 with no write; A then exits 0 with no write |

## Left out

- Flag parsing and defaults (asgmaster.go:32-36): the region, the role field and the debug switch are plumbing. The role field is an input of `Decide`.
- Logging and its suppression (asgmaster.go:38-40 and every `log.Printf`): it has no effect on the store or on the exit status.
- AWS session, EC2 client and metadata client (asgmaster.go:42-49): the instance id is an input. The error at line 45 is discarded, so the id may be `""`. The model accepts any string, including `""`.
- The `awserr.Error` type switch in each error path: it only selects what is logged. Every failure is the single `Err` outcome, chosen by the `Faults` input.
- Network calls, their outcomes and timing: whether each EC2 call fails is an input, not modelled behaviour.
- EC2 semantics beyond the code's filters: wildcards in filter values, pagination of results, deriving resource types from id prefixes, and the rejection of malformed resource ids. The store lists matches in its sequence order.
- `Tags.TagStore.CreateTags`: records every tag it creates with resource type `instance`, because the only resource the program tags is its own instance.
- Concurrency: the model assumes one run at a time. It does not model the check-then-write race between instances that claim at the same moment.
- `ClaimThenConfirm`: requires that no instance tag with the key exists at all, not merely that the master value read as `""`. It also requires that the role field differs from the master key, that both runs' role reads have the same outcome, that the instance id is not `""` (an empty id reads as "unclaimed", so such an instance claims again on every run) and that the first write and the second master read succeed. Without these conditions the second run can claim again (`EmptyValuedClaimElectsEveryone`, `RoleFieldCollision`) or use another key.
- `Tags.Put`: lists a newly written tag after every tag already in the store. Where EC2 places a new tag in later DescribeTags results is not stated by the code or by EC2; this position is a modelling assumption, and `EmptyValuedClaimElectsEveryone` relies on it (the claim lands after the empty-valued tag).
