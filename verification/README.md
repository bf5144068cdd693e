# The claim lifecycle of the Smeltry operator, in Dafny

The operator turns `ClusterClaim` and `ServerClaim` objects into machines, addresses and clusters. Two
reconcilers share one inventory (Netbox: devices, OSD disks, an address allocator) and one API server. A pass
reads a claim, makes a series of calls that may each fail, and writes the claim back. This project models both
reconcilers, both implementations of the inventory (the HTTP client and the in-memory one), the versioned claim
store, and the small controllers around them, and proves what holds of every step and of every run.

## How it is built

*Specification.* `ClusterPass`, `ServerPass`, `Passes`, `Inventory`, `ApiServer`, `RoleRules`, `RookValues` and
`Claims` give every step as a function of a `World` (inventory, API server, clock). An `Env` decides what the code
cannot: the outcome of every remote call, the text of a fresh address, the clock, the order of ties in
`sort.Slice` and the order of map iteration. A call works (`Ok`), is refused and changes nothing (`Refused`), or
takes effect while its answer is lost (`Lost`); a pass that stops midway is one whose later calls are all refused.
Claims are stored with their whole history: the index is the resource version, a read may return any version, a
write is accepted only from the last one. `Runs` puts passes of any claim from any version together with users
creating, editing, annotating and deleting claims and with everything other controllers may change.

*Code.* `ClusterController`, `ServerController`, `Inventory.NetboxClient`, `ApiServer.KubeClient`,
`MachineClasses` and `Timers` hold the imperative form: objects with mutable fields, working copies edited in place,
loops. Each method's postcondition equates its whole effect with the specification function of the same step, so
the theorems about runs are theorems about these methods.

*Theorems.*

| files | subject |
|---|---|
| `Ownership`, on `Holdings`, `Exclusivity` and `Releasing`; `LostOwnership` | no machine and no address in two claims, whatever fails; when the intended release keeps that, exactly, told before each pass; two ways of losing it |
| `Lifecycle`, on `Histories` | every stored version carries its evidence; versions only move forward, one phase at a time |
| `Evidence`, on `EvidenceSteps`; `ServerEvidence`; `FittingMachines` | over every run, whatever fails: what a pass records or builds has its cause in the world it found (machines that suffice, the Job's result, the claim's own class and site, the address of the recorded ID) |
| `Verdicts`, `JobVerdicts`, `Equipping`, `Replies` | what an undisturbed pass decides, exactly: acceptance, the Job's outcome, the machines taken, scaling, and when the next pass comes; no claim is forgotten |
| `AddressLedger`; `MachineLedger`, on `MachineAccounts` | what can be stranded, how much at most, and that it never comes back |
| `Restoration`, on `Bookkeeping` | without failures the inventory is the initial one with exactly the recorded machines staged |
| `Progress`, `ServerProgress` | Ready within eight passes, or four for a server claim, when nothing fails, whatever happens to other claims in between |
| `Simulation` | the two inventories in step |
| `Scaling` | one pass converges exactly when it can; growing is undone by shrinking |
| `Addons`, on `AddonSteps` | releases in order, saying what their component says, and never altered; which objects a pass alters and when exactly, AddonsReady only over ready releases |
| `RookMachines`, on `RecordedDisks` and `RookDecoding` | the rook-ceph text reads back as the disks of the recorded machines |
| `Grants`, on `GrantSteps` | which kubeconfigs a tenant Role lists, when exactly each pass keeps that right, who can read what |
| `MachineClasses` | class summaries agree with the query claims are served from |
| `Conditions`, `Timers` | the condition list as a map; timed deletion |

A run is a sequence of events with the world before each event and after the last one (`Runs.IsRun`); theorems about
runs speak of every moment `n` of every run. Any events can happen from any world (`Runs.Play`).

## Assumptions

- `MachineCount` is a natural number; the validation bound of at least one (api/v1alpha1/clusterclaim_types.go:36-38)
  is not needed.
- Device IDs are unique and nonzero; fresh address IDs are nonzero and never reused; where a theorem needs it,
  addresses have a nonempty part before the `/` (`AddressesNonempty`).
- Passes happen in tenant namespaces: the namespace is not exactly `tenant-` and not empty (`TenantSlug(ns) != ""`).
- Claims start with an empty status; the phases `""` and `Pending` are one. Claims and their events are typed:
  a key of one kind holds claims of that kind.
- Nobody but the operator changes devices, disks and addresses in Netbox; other controllers and administrators change
  sites, profiles, Jobs, objects and Roles (`Runs.Change`). The ownership theorems rely on the first part.
- Passes do not overlap: one worker per controller is the default
  (internal/controller/clusterclaim_controller.go:927-929). The two controllers are separate workers, so passes of
  different kinds overlap in practice; `LostOwnership.OverlapDoubleBooks` shows that a server claim and a cluster claim
  can then record one machine although no call fails.
- A Role is read as it is, and its update is not refused for a stale version.
- `CreateOrUpdate` reads the object, sets the fields of its mutate function and sends an update only if that changes
  something. Of those fields the model keeps the references of a Cluster, the replica count of a MachineDeployment, and
  the address and pool annotations of a Service; nobody outside the operator changes the others.
- A rule of Kubernetes RBAC that lists no resource names speaks of every object of its resources.
- The HTTP client's query matches site and model exactly and cuts the answer at the page size; an error answer with a
  JSON body is decoded as an empty list without an error (the client checks no status code on queries), which is what
  `Lost` means for a query.

## Where the code and its documentation differ

- `requiredTags` is documented as tags that must all be present on the machine
  (api/v1alpha1/other_types.go:124); `machinesHaveTag` asks for each tag on
  some machine of the selection (internal/controller/clusterclaim_controller.go:887-896). The model follows the code.
- `ensureHelmRelease` says it creates or updates; it never updates
  (internal/controller/clusterclaim_controller.go:774-786): a release is in no `ResetBy` of `Addons.PassAlters`.
- Updating the tenant Role is meant to give read access to one secret (internal/controller/clusterclaim_controller.go:355).
  Until the first name is listed, and again after the last one is revoked, the secrets rule names nothing and so lets
  its subjects read every secret of the namespace: `Grants.ReadersExactly`.
- The replica count of the MachineDeployment is set in provisioning passes only, so it does not follow scaling; and a
  pass that sees an old version of the claim sets the old count: `Addons.ReplicasSet`.
- Releasing a machine is meant to give it back to the pool. With the HTTP client the tenant stays, because an empty slug
  is left out of the request (internal/netbox/client.go:150-155), so the machine is never offered again:
  `Simulation.RealTenantStays`, `MachineLedger.StrandedForever`.
- The in-memory client compares models only when both site and model are given and never looks at a device's site
  (internal/netbox/fake/client.go:82-99).
- A server Job that failed is reported before completion is looked at; a cluster Job the other way round
  (internal/controller/serverclaim_controller.go:188-194, internal/controller/clusterclaim_controller.go:275-281).

## Model

| member | source | states |
|---|---|---|
| `Ownership.RealClientExclusive` | internal/controller/clusterclaim_controller.go:216-257 | HTTP client: at every moment of every run, with any call failing, any pass stopping midway and any old version read, no machine is recorded by two claims or twice by one |
| `Ownership.RealClientAddressesExclusive` | internal/controller/clusterclaim_controller.go:180-214 | the same for addresses, and every recorded address was handed out by Netbox |
| `Ownership.IntendedReleaseExclusive` | internal/netbox/fake/client.go:101-125 | either client: in every run whose releasing passes are careful, judged before each pass by the version it sees and the fate of its calls, recorded machines are staged under their holder's tenant and have one holder; allocating passes may fail anywhere |
| `Ownership.IntendedReleaseExactly` | internal/controller/clusterclaim_controller.go:459-489 | and only then: a run keeps that at every moment if and only if every one of its passes is careful |
| `Releasing.CarefulKeepsExactly` | internal/controller/clusterclaim_controller.go:446-517 | a pass of either reconciler, from any version, keeps the holdings apart if and only if it is careful |
| `Ownership.FinalizeExactly` | internal/controller/clusterclaim_controller.go:473-517 | a finalizing pass keeps them apart if and only if its read fails, or it works from the current version and the removal is not refused, or every PATCH of a machine that some claim records is refused |
| `Ownership.ScaleDownExactly` | internal/controller/clusterclaim_controller.go:446-469 | a shrinking pass keeps them apart if and only if a read fails, rook-ceph forbids it, every PATCH is answered and the list written from the current version, or no machine is freed that some claim records |
| `Ownership.ReleasesOnlyItsOwn` | internal/controller/clusterclaim_controller.go:459-489 | finalizing or shrinking one claim changes no machine another claim holds |
| `LostOwnership.LostRemovalDoubleBooks` | internal/controller/serverclaim_controller.go:202-226 | a run from the start, every pass from the current version, in which one refused removal of a finalizer lets two claims record one machine |
| `LostOwnership.OverlapDoubleBooks` | internal/controller/serverclaim_controller.go:144-170 | no call failing: a server claim's pass lists, a cluster claim's pass lists, stages and records, the first one stages and records what it was offered, and both claims hold the machine |
| `LostOwnership.AliceLosesHerRemoval` | internal/controller/serverclaim_controller.go:202-226 | the first six events of that run: a claim is equipped, deleted, its machine freed and its removal refused |
| `LostOwnership.BobTakesIt` | internal/controller/serverclaim_controller.go:144-170 | the other four: a second claim is offered the machine and records it |
| `Releasing.RunKeeps` | internal/controller/clusterclaim_controller.go:60-100 | the holdings invariant over whole runs of allowed events |
| `Exclusivity.PassKeeps` | internal/controller/clusterclaim_controller.go:60-100 | one pass of either reconciler keeps the holdings invariant |
| `Exclusivity.OutsideKeeps` | internal/controller/clusterclaim_controller.go:387-398 | creating, editing, annotating, deleting and outside changes keep it |
| `Exclusivity.AllocateMachinesKeeps` | internal/controller/clusterclaim_controller.go:216-257 | staging and recording keep it, complete or not |
| `Holdings.StageFacts` | internal/controller/clusterclaim_controller.go:227-252 | the staging loop touches only offered devices; the IDs it returns are the first ones offered, all staged, exactly n of them when it succeeds |
| `Holdings.StagedFit` | internal/controller/clusterclaim_controller.go:216-257 | freshly staged machines may be added to what a claim holds: no repetition, nobody else holds them |
| `Lifecycle.EveryHistorySound` | internal/controller/clusterclaim_controller.go:82-99 | every version ever stored shows its evidence (addresses with one distinct ID each, webhook only after control plane, cluster reference, true conditions, kubeconfig exactly in Ready) and follows from the one before |
| `Lifecycle.OnlyForward` | internal/controller/clusterclaim_controller.go:82-99 | between any two versions of a live claim the phase rank never falls, Failed is final and entered only from Pending or Provisioning, and recorded addresses only grow |
| `Lifecycle.OneStepAtATime` | internal/controller/clusterclaim_controller.go:82-99 | from one version to the next the phase of a cluster claim advances at most one step |
| `Histories.ControlPlaneIPSane` | internal/controller/clusterclaim_controller.go:180-196 | the control-plane address is recorded with its ID in one write, or at most that one address is stranded |
| `Histories.WebhookIPSane` | internal/controller/clusterclaim_controller.go:198-214 | the same for the webhook address |
| `Histories.ServerProvisionSane` | internal/controller/serverclaim_controller.go:115-198 | a server claim's provisioning pass keeps every history sound, wherever it stops |
| `Evidence.AcceptedOnlyIfSufficient` | internal/controller/clusterclaim_controller.go:104-165 | in every run, whatever fails, a pending cluster claim is accepted only when its profile and site exist, the free machines of its class on its site are as many as it asks for, and each tag its profile requires is on one of those |
| `Evidence.JobCauses` | internal/controller/clusterclaim_controller.go:259-294 | in every run a pass that records MachineCfgDone, or takes a provisioning claim to ClusterReady, found the machinecfg Job completed and not failed; one that fails a provisioning claim found it completed and failed |
| `Evidence.BuildsOnlyWhenDone` | internal/controller/clusterclaim_controller.go:275-294 | in every run an object behind a cluster is made or altered only by a pass that sees its claim in Provisioning, over a Job completed and not failed, on a site that says how users log in |
| `Evidence.AddressesNamed` | internal/controller/clusterclaim_controller.go:180-214 | in every run a newly recorded address is that of the ID recorded with it, the first for the control plane and the second for the webhook, under the claim's name in the zone of its site |
| `ServerEvidence.ServerCauses` | internal/controller/serverclaim_controller.go:78-197 | in every run a server claim is accepted only when its site offers a machine of its class, becomes Ready only over a Job completed and not failed, and once it has a machine fails only over a failed Job |
| `ServerEvidence.ServerAddressNamed` | internal/controller/serverclaim_controller.go:126-142 | in every run the address a server claim newly records is that of the ID recorded with it, under the claim's name in the zone of its site |
| `FittingMachines.RecordsFitting` | internal/controller/serverclaim_controller.go:144-170 | in every run, whatever fails, a machine that a claim of either kind newly records, at first or when it grows, was free and is what a query for its class and site selects; with the HTTP client it has that model and is on that site |
| `Verdicts.ValidatesExactly` | internal/controller/clusterclaim_controller.go:104-165 | an undisturbed validating pass accepts the claim if and only if profile, site, number of machines and tags suffice; otherwise the claim fails and its Validated condition says what was missing first |
| `Verdicts.ServerValidatesExactly` | internal/controller/serverclaim_controller.go:78-111 | a server claim is accepted if and only if its site exists and offers a machine of its class; otherwise it fails and says which was missing |
| `JobVerdicts.JobDecides` | internal/controller/clusterclaim_controller.go:259-294 | an undisturbed pass over an equipped claim: without a completed Job the claim waits ten seconds (and a missing Job is started); it fails if and only if the Job completed and failed; over a finished one it gets MachineCfgDone, reference and objects, and moves on exactly when its Cluster is ready |
| `JobVerdicts.ServerJobDecides` | internal/controller/serverclaim_controller.go:172-197 | an equipped server claim fails if and only if the Job has failed, is Ready if and only if it completed and has not failed, and otherwise stays as it is for ten seconds |
| `Equipping.EquipsExactly` | internal/controller/clusterclaim_controller.go:216-257 | an undisturbed pass over a claim without machines records the first devices of the inventory, in order, that its class and site select: as many as it asks for, or as a listing offers |
| `Equipping.ServerEquipsExactly` | internal/controller/serverclaim_controller.go:144-170 | an undisturbed pass over a server claim without a machine records the first device of the inventory that its class and site select; if there is none it fails with InsufficientMachines, and as long as it has no Job only then |
| `Replies.NeverForgotten` | internal/controller/clusterclaim_controller.go:60-100 | in every run, from any version and whatever fails, a pass of either kind that asks for no other one has written its claim, or the claim has nothing left to do |
| `Replies.AddonsDecide` | internal/controller/clusterclaim_controller.go:299-345 | an undisturbed addon pass moves the claim on and asks for the next pass at once if and only if the required releases were ready; otherwise the claim stays as it is and comes back after thirty seconds |
| `Replies.ScalingAnswers` | internal/controller/clusterclaim_controller.go:389-469 | an undisturbed pass over a Ready claim that cannot scale says so in exactly one condition: too few machines, and it tries again after five minutes, or rook-ceph in the profile, and it waits for an edit; every other one comes back after five minutes |
| `AddressLedger.LeakBound` | internal/controller/clusterclaim_controller.go:180-214 | the stranded addresses never outnumber the aborted allocating passes and the refused releases |
| `AddressLedger.NeverRecordedAgain` | internal/controller/clusterclaim_controller.go:180-214 | an address in no claim is never recorded again |
| `AddressLedger.PassAccounts` | internal/controller/clusterclaim_controller.go:477-489 | one pass strands at most the last address it was given, a finalizer only those whose release is refused |
| `MachineAccounts.PassAccount` | internal/controller/clusterclaim_controller.go:216-257 | one pass, at any version and with any failure, draws at most the machines its claim wants, records what it draws unless it ends in an error, records nothing else, and takes no machine out of its claim unless it finalizes, shrinks or asks for deletion |
| `MachineLedger.PassDraws` | internal/controller/serverclaim_controller.go:144-170 | in every run, a pass draws at most the machines its claim wants, and a claim newly holds only what its pass has drawn |
| `MachineLedger.PassStrands` | internal/controller/clusterclaim_controller.go:459-489 | where a stranded machine comes from: drawn by a pass that ended in an error, or dropped by its claim (with the fake, only when the release did not take effect) |
| `MachineLedger.MachineLeakBound` | internal/controller/clusterclaim_controller.go:416-489 | the stranded machines of a run never outnumber what its events put at stake, each told before the event: what an allocating pass wants; for a finalizer with the in-memory client the PATCHes that are refused, with the HTTP client the claim's machines; for shrinking none, or the surplus |
| `MachineLedger.LosesAtMost` | internal/controller/clusterclaim_controller.go:459-489 | no pass strands more machines than were at stake before it |
| `MachineLedger.StrandedForever` | internal/netbox/client.go:150-165 | HTTP client: a machine that has a tenant and no claim is never recorded again |
| `MachineAccounts.DrawnAtMost` | internal/controller/clusterclaim_controller.go:227-231 | no more machines are drawn than the loop was told to stage, even when it fails |
| `Restoration.EverythingRestored` | internal/netbox/fake/client.go:101-156 | without failures, when every claim is gone every device has the status and tenant it started with and every address handed out was released exactly once |
| `Restoration.PoolConserved` | internal/netbox/fake/client.go:101-125 | at every moment of such a run the free pool plus the recorded machines is the initial pool, a cluster claim records at most two addresses and a server claim one |
| `Restoration.RunBooks` | internal/controller/clusterclaim_controller.go:60-100 | the books over the whole run: each device is as at the start or staged for the one claim that records it |
| `Bookkeeping.ShrinkResult` | internal/controller/clusterclaim_controller.go:446-469 | without failures shrinking releases exactly the tail and records the rest |
| `Bookkeeping.FinalizeBooks` | internal/controller/clusterclaim_controller.go:473-518 | finalizing balances the books |
| `Bookkeeping.ReleaseUntilErrorAll` | internal/controller/clusterclaim_controller.go:459-466 | without failures the shrinking loop releases what the finalizer's loop would |
| `Progress.ReadyInEightTurns` | internal/controller/clusterclaim_controller.go:60-100 | when nothing fails, a claim is Ready after at most eight passes that find the outside done with its work, and after no more than remain, with any passes of other claims in between that leave a pending claim enough machines and any outside change that takes nothing away |
| `ServerProgress.ReadyInFourTurns` | internal/controller/serverclaim_controller.go:46-74 | when nothing fails, a server claim is Ready after at most four passes that find its Job finished, and after no more than remain, whatever harmless events of other claims and of the outside come in between |
| `Progress.HarmlessHelps` | internal/controller/clusterclaim_controller.go:60-100 | such an event leaves the claim's needs met and nothing more to do |
| `Progress.PassProgress` | internal/controller/clusterclaim_controller.go:170-383 | every pass of a claim that is not Ready strictly lowers the measure |
| `Progress.ProvisionReachesJob` | internal/controller/clusterclaim_controller.go:170-257 | without failures provisioning gets through addresses and machines to the Job |
| `Progress.WatchAddonsProgress` | internal/controller/clusterclaim_controller.go:299-345 | the addon step enters AddonsReady or makes every required release exist |
| `Simulation.RealOffersLess` | internal/netbox/fake/client.go:82-125 | after the same status calls from the same start all statuses agree, a tenant held in the fake is held in the real inventory, and everything the real one offers, cut or not, the fake offers |
| `Simulation.FakeOffersMore` | internal/netbox/client.go:110-128 | exactly what the fake selects on top: other sites, and devices that ever had a tenant |
| `Simulation.RealTenantStays` | internal/netbox/client.go:150-155 | HTTP client: a device is free if and only if it was free at the start and no effective call ever gave it a tenant |
| `Scaling.ScalingConverges` | internal/controller/clusterclaim_controller.go:389-413 | one failure-free pass makes the list as long as asked if and only if there are enough machines to grow, or no rook-ceph to stop it shrinking; otherwise list and inventory stay as they are |
| `Scaling.ShrinkUndoesGrow` | internal/controller/clusterclaim_controller.go:416-469 | growing by d and shrinking by d restores the exact list and all statuses, and with the fake all tenants |
| `Scaling.GrowResult` | internal/controller/clusterclaim_controller.go:416-442 | growing stages and appends exactly the first machines offered, or blocks |
| `Scaling.ShrinkPass` | internal/controller/clusterclaim_controller.go:446-469 | shrinking releases exactly the last machines, or blocks |
| `Addons.AlwaysOrderClosed` | internal/controller/clusterclaim_controller.go:310-320 | at every moment of every run, whatever fails and however ties are ordered, a release exists only if those of all smaller orders do |
| `Addons.PassAlters` | internal/controller/clusterclaim_controller.go:580-783 | in every run a pass creates only its own claim's objects (those behind the cluster only over a finished Job), removes none, and alters none but, when it sees the claim in Provisioning, its Cluster, MachineDeployment and Service, which, new or altered, say what that version wants |
| `Addons.ReleasesSayRight` | internal/controller/clusterclaim_controller.go:786-827 | in every run a release that a pass creates belongs to a component of the profile its addon step sees and names the cluster and that component's repository, chart and version; it is bootstrap if and only if the order is 1, and its values are the component's own, with the recorded disks appended only for rook-ceph |
| `Addons.AltersExactly` | internal/controller/clusterclaim_controller.go:645-752 | an existing object is altered if and only if CreateOrUpdate is in charge of it, the pass gets to it, its read works, it says something else than is wanted, and the update takes effect |
| `Addons.ReplicasSet` | internal/controller/clusterclaim_controller.go:699-723 | a failure-free pass over a provisioned claim gives the MachineDeployment the machine count of the version it sees, even an old one |
| `Addons.AddonsReadyExactly` | internal/controller/clusterclaim_controller.go:322-344 | the claim enters AddonsReady only over required releases that were ready before the pass, and without failures exactly then |
| `Addons.InstallClosed` | internal/controller/clusterclaim_controller.go:316-320 | installing in sorted order keeps the closure wherever it stops |
| `Addons.CollideExactly` | internal/controller/clusterclaim_controller.go:801-802 | two claims can share a release if and only if they are in one namespace and the name of one followed by a dash begins the other's |
| `Addons.OrderClosedByNames` | internal/controller/clusterclaim_controller.go:801-802 | with names that cannot collide the order is closed in every run, whatever profiles the other claims use |
| `Addons.CollisionBreaksOrder` | internal/controller/clusterclaim_controller.go:801-802 | two claims whose release names collide: installing for one breaks the order of the other |
| `RookDecoding.RookRoundTrip` | internal/controller/clusterclaim_controller.go:568-578 | for every order of the map, an independent reader recovers exactly the map from the text |
| `RookMachines.RookDescribesMachines` | internal/controller/clusterclaim_controller.go:789-792 | in every run in which no disk query of a staging loop that had disks to report is answered by an error body, whatever else fails, the rook-ceph values read back as exactly the recorded machines with tagged disks and their disk lists |
| `RookMachines.PassRecordsExactly` | internal/controller/clusterclaim_controller.go:216-257 | a pass that leaves a claim recording its first machines has recorded their disks rightly if and only if those queries were heard |
| `RecordedDisks.StagedDisks` | internal/controller/clusterclaim_controller.go:225-252 | what a successful staging loop collects describes exactly the machines it staged if and only if no query with disks to report was lost |
| `RecordedDisks.RunFaithful` | internal/controller/clusterclaim_controller.go:253-256 | until a claim is Ready, in every run whose disk queries are heard, its recorded disks are those of its recorded machines |
| `RecordedDisks.DisksLostExactly` | internal/controller/clusterclaim_controller.go:242-246 | a disk query answered by an error body loses a machine's disks silently, if and only if it had any |
| `Text.DecimalInjective` | internal/controller/clusterclaim_controller.go:247 | two IDs never share a key |
| `Text.DecimalRoundTrip` | internal/controller/clusterclaim_controller.go:247 | printing an ID loses nothing |
| `Grants.GrantsAlwaysRight` | internal/controller/clusterclaim_controller.go:353-382 | in every run whose exposing and finalizing passes are tidy (told before the pass), whatever else fails, from any versions, with tenant-sync overwrites at any moment: listed names are duplicate-free and belong to live Ready claims of the namespace; all of them are listed if no overwrite meets a Ready claim |
| `Grants.PassKeepsExactly` | internal/controller/clusterclaim_controller.go:60-100 | every pass keeps that if and only if it is tidy |
| `Grants.ReadersExactly` | internal/controller/netboxtenant_controller.go:115-137 | who can read what: the listed secrets, or every secret of the namespace when none is listed; so only kubeconfigs of live Ready claims are readable if and only if at least one is listed |
| `Grants.ExposeExactly` | internal/controller/clusterclaim_controller.go:349-383 | an exposing pass, from any version, keeps the lists right if and only if a read finds nothing, the name is there already, the Role update is refused, the claim is Ready by now, or the update is answered and the status write takes effect |
| `Grants.FinalizeExactly` | internal/controller/clusterclaim_controller.go:491-517 | a finalizing pass, from any version, keeps them right if and only if it cannot read its claim, or its name leaves the Role if the claim goes and does not leave it while the claim stays Ready |
| `Grants.RevokeUndoesGrant` | internal/controller/clusterclaim_controller.go:363-374 | granting a fresh name and revoking it restores every rule of an arbitrary Role |
| `Grants.WithoutFacts` | internal/controller/clusterclaim_controller.go:916-924 | removal keeps everything else and introduces no repetition |
| `Grants.TenantRoleListsNothing` | internal/controller/netboxtenant_controller.go:115-137 | the Role the tenant synchronisation writes has a secrets rule that lists no name |
| `ClusterController.RemoveString` | internal/controller/clusterclaim_controller.go:916-924 | writing over the buffer being read yields the order-preserving filter of the old contents and leaves the rest of the buffer alone |
| `MachineClasses.AggregateMachineClasses` | internal/controller/siteconfig_controller.go:68-115 | whatever order the map gives, the result lists each named class once in increasing order with its free machines counted and its tags the sorted union |
| `MachineClasses.Group` | internal/controller/siteconfig_controller.go:73-92 | the group-by holds exactly the named classes, their counts and their tags |
| `MachineClasses.SummaryUnique` | internal/controller/siteconfig_controller.go:109-114 | the summary depends on the multiset of devices only |
| `MachineClasses.CountsAgree` | internal/netbox/client.go:130-148 | a class's count equals the number of machines its claims are offered if and only if the site fits a page, no free machine of the class is past the page, or the page is full of them |
| `MachineClasses.SummaryAgrees` | internal/netbox/client.go:105-128 | on a site of at most a thousand active devices the published counts are the answers claims get, and an unlisted class has none |
| `MachineClasses.SortTags` | internal/controller/siteconfig_controller.go:96-100 | the tags of a set in strictly increasing order, whatever order the set gives |
| `MachineClasses.IncreasingUnique` | internal/controller/siteconfig_controller.go:109-112 | an increasing list is determined by its elements |
| `Conditions.ListRefinesMap` | internal/controller/clusterclaim_controller.go:851-870 | after any updates types are unique, a lookup gives the last write of its type, and types stand in the order of their first write |
| `Conditions.LookupAfterSet` | internal/controller/clusterclaim_controller.go:851-870 | one update changes what its own type looks up to and nothing else |
| `ClusterController.WorkingCopy.SetCondition` | internal/controller/clusterclaim_controller.go:851-870 | rewriting in place or appending is the update the specification says |
| `Timers.PurgedInTwoPasses` | internal/controller/auditevent_controller.go:39-58 | with looks at the clock less than a second apart an event is never deleted early and goes in that pass or in the next one, which does come |
| `Timers.AuditEventPurgeReconciler.Reconcile` | internal/controller/auditevent_controller.go:31-59 | own, default or malformed TTL: delete, or come back a second after expiry |
| `Timers.DeadlineKept` | internal/controller/clusterclaim_controller.go:392-400 | a Ready claim with a deadline is deleted only after it, and its waiting pass is followed by another exactly under the same condition |
| `Timers.DeadlineMet` | internal/controller/clusterclaim_controller.go:392-400 | the pass that the delay brings asks for the deletion |
| `ClusterController.ClusterClaimReconciler.Reconcile` | internal/controller/clusterclaim_controller.go:60-100 | the imperative pass has exactly the effect and the reply the theorems speak of |
| `ClusterController.ClusterClaimReconciler.Step` | internal/controller/clusterclaim_controller.go:69-99 | finalizer, then the step of the phase |
| `ClusterController.ClusterClaimReconciler.StepValidate` | internal/controller/clusterclaim_controller.go:104-126 | profile and site are found or the claim fails |
| `ClusterController.ClusterClaimReconciler.CheckMachines` | internal/controller/clusterclaim_controller.go:128-165 | enough machines with the required tags or the claim fails |
| `ClusterController.LacksSomeTag` | internal/controller/clusterclaim_controller.go:141-148 | true exactly when some required tag is on no machine |
| `ClusterController.MachinesHaveTag` | internal/controller/clusterclaim_controller.go:887-896 | true exactly when some machine has the tag |
| `ClusterController.ClusterClaimReconciler.StepProvision` | internal/controller/clusterclaim_controller.go:170-295 | the provisioning step, stopping where the specification stops |
| `ClusterController.ClusterClaimReconciler.AllocateControlPlaneIP` | internal/controller/clusterclaim_controller.go:180-196 | one address, recorded with its ID and name in one write, unless it is there already |
| `ClusterController.ClusterClaimReconciler.AllocateWebhookIP` | internal/controller/clusterclaim_controller.go:198-214 | the same for the webhook |
| `ClusterController.ClusterClaimReconciler.AllocateMachines` | internal/controller/clusterclaim_controller.go:216-257 | list, stage, record |
| `ClusterController.ClusterClaimReconciler.StageMachines` | internal/controller/clusterclaim_controller.go:225-252 | the loop that stages, appends and collects disks up to the first error |
| `ClusterController.CollectDisks` | internal/controller/clusterclaim_controller.go:246-251 | appending names one by one under a key |
| `ClusterController.ClusterClaimReconciler.RunJob` | internal/controller/clusterclaim_controller.go:259-281 | create the Job, wait for it, fail on it, or go on |
| `ClusterController.ClusterClaimReconciler.EnsureCluster` | internal/controller/clusterclaim_controller.go:283-294 | objects, cluster reference, readiness, phase, conditions, one write |
| `ClusterController.ClusterClaimReconciler.EnsureObjects` | internal/controller/clusterclaim_controller.go:591-752 | the six objects in order up to the first error, three of them set again to what the claim and the site say |
| `ClusterController.ClusterClaimReconciler.StepWatchAddons` | internal/controller/clusterclaim_controller.go:299-345 | install in order, check readiness, move on or wait |
| `ClusterController.ClusterClaimReconciler.InstallAddons` | internal/controller/clusterclaim_controller.go:316-320 | the installing loop |
| `ClusterController.ClusterClaimReconciler.CheckAddons` | internal/controller/clusterclaim_controller.go:322-335 | the readiness loop over required components |
| `ClusterController.ClusterClaimReconciler.EnsureHelmRelease` | internal/controller/clusterclaim_controller.go:786-827 | one release, with the rook-ceph values appended where they belong |
| `ClusterController.BuildRookValues` | internal/controller/clusterclaim_controller.go:568-578 | the text for a map visited in a given order |
| `ClusterController.ClusterClaimReconciler.StepExposeKubeconfig` | internal/controller/clusterclaim_controller.go:349-383 | grant the secret in the first secrets rule, then write Ready |
| `ClusterController.ClusterClaimReconciler.StepReconcileReady` | internal/controller/clusterclaim_controller.go:389-413 | deadline first, then the size |
| `ClusterController.ClusterClaimReconciler.ScaleUp` | internal/controller/clusterclaim_controller.go:416-442 | grow or block |
| `ClusterController.ClusterClaimReconciler.ScaleDown` | internal/controller/clusterclaim_controller.go:446-469 | shrink or block |
| `ClusterController.ClusterClaimReconciler.ReleaseMachines` | internal/controller/clusterclaim_controller.go:461-465 | release up to the first error |
| `ClusterController.ClusterClaimReconciler.ReconcileDelete` | internal/controller/clusterclaim_controller.go:473-518 | release everything, revoke, remove the claim |
| `ClusterController.ClusterClaimReconciler.ReleaseEverything` | internal/controller/clusterclaim_controller.go:477-489 | both loops, going on after errors |
| `ClusterController.ClusterClaimReconciler.RevokeSecret` | internal/controller/clusterclaim_controller.go:491-504 | the secret leaves every secrets rule; errors are ignored |
| `ClusterController.ClusterClaimReconciler.Fail` | internal/controller/clusterclaim_controller.go:522-527 | phase Failed with its condition |
| `ServerController.ServerClaimReconciler.Reconcile` | internal/controller/serverclaim_controller.go:46-74 | the imperative pass has exactly the effect and the reply the theorems speak of |
| `ServerController.ServerClaimReconciler.Step` | internal/controller/serverclaim_controller.go:54-73 | finalizer, then the step of the phase |
| `ServerController.ServerClaimReconciler.StepValidate` | internal/controller/serverclaim_controller.go:78-111 | site found and some machine free, or the claim fails |
| `ServerController.ServerClaimReconciler.StepProvision` | internal/controller/serverclaim_controller.go:115-198 | the provisioning step, stopping where the specification stops |
| `ServerController.ServerClaimReconciler.AllocateServerIP` | internal/controller/serverclaim_controller.go:126-142 | one address in one write |
| `ServerController.ServerClaimReconciler.AllocateMachine` | internal/controller/serverclaim_controller.go:144-170 | the first machine offered, staged and recorded |
| `ServerController.ServerClaimReconciler.RunJob` | internal/controller/serverclaim_controller.go:172-197 | create the Job, fail on it, wait for it, or be Ready |
| `ServerController.ServerClaimReconciler.ReconcileDelete` | internal/controller/serverclaim_controller.go:202-226 | release the address and the machine, remove the claim |
| `ServerController.ServerClaimReconciler.Fail` | internal/controller/serverclaim_controller.go:230-241 | phase Failed with one more condition |
| `Inventory.ListedAreAvailable` | internal/netbox/client.go:110-128 | an answer holds distinct devices of the inventory, each active and without a tenant |
| `Inventory.Selected` | internal/netbox/fake/client.go:82-99 | exactly the devices the client's query selects |
| `Inventory.OnSite` | internal/netbox/client.go:130-148 | exactly the active devices of the site |
| `Inventory.PatchDevice` | internal/netbox/client.go:150-165 | the named device is patched and no other |
| `Inventory.NetboxClient.ListAvailableDevices` | internal/netbox/fake/client.go:82-99 | the accumulating loop gives the selection, cut to a page by the HTTP client |
| `Inventory.NetboxClient.ListDevicesBySite` | internal/netbox/fake/client.go:63-80 | the same for the site query |
| `Inventory.NetboxClient.ListOSDDisks` | internal/netbox/fake/client.go:127-134 | the disks of a device, cut to a page by the HTTP client |
| `Inventory.NetboxClient.SetStatus` | internal/netbox/fake/client.go:101-125 | the search loop patches exactly the named device; an unknown device is an error |
| `Inventory.NetboxClient.Allocate` | internal/netbox/fake/client.go:136-149 | a fresh ID each time |
| `Inventory.NetboxClient.Release` | internal/netbox/fake/client.go:151-156 | the in-memory client logs every release; Netbox refuses a second one |
| `ApiServer.KubeClient.Read` | internal/controller/clusterclaim_controller.go:64-67 | a read answers with the version the cache holds, with nothing, or with an error |
| `ApiServer.KubeClient.Write` | internal/controller/siteconfig_controller.go:53-60 | a write is accepted only from the current version |
| `ApiServer.KubeClient.Delete` | internal/controller/clusterclaim_controller.go:395-397 | a delete request marks a claim that has a finalizer and removes one that has none |
| `ApiServer.KubeClient.EnsureObject` | internal/controller/clusterclaim_controller.go:775-783 | create when missing; when there, leave alone, or under CreateOrUpdate set what is wanted if it says something else |
| `ApiServer.KubeClient.NewJob` | internal/controller/clusterclaim_controller.go:563-564 | create the Job |
| `ApiServer.KubeClient.UpdateRole` | internal/controller/clusterclaim_controller.go:367-371 | write the Role |
| `RoleRules.SecretsRule` | internal/controller/clusterclaim_controller.go:363-374 | the first rule about secrets |
| `RoleRules.Revoke` | internal/controller/clusterclaim_controller.go:497-501 | every rule is filtered on its own |
| `Text.TenantSlug` | internal/controller/clusterclaim_controller.go:875-877 | the text without the prefix, when it has it |
| `Text.StripPrefix` | internal/controller/clusterclaim_controller.go:880-885 | the part before the first slash |
| `Claims.IndexOf` | internal/controller/clusterclaim_controller.go:854-862 | the first condition of that type |

## Left out

- HTTP, JSON, URL building and status codes of the Netbox client: only what a query selects and a request changes is kept; an error answer that decodes as an empty list is kept as an outcome.
- The other fields of TenantControlPlane, TinkerbellCluster, Cluster, TinkerbellMachineTemplate, MachineDeployment, Service and Job: they are named objects with a readiness bit, and of their content only the references, the replica count and the address and pool are kept.
- Messages and transition times of conditions, audit events, logging and metrics: nothing reads them back.
- The tenant controller's namespaces, quotas and role bindings: thin wrappers; its Role overwrite is part of `Grants`.
- SiteConfigReconciler.Reconcile around the aggregation: one query and one status write.
- Parsing of durations and RFC 3339 timestamps (section 5.6 of RFC 3339): a value or a failure.
- Integer overflow of times and durations: times are unbounded integers of nanoseconds.
- Workers that overlap, beyond `LostOwnership.OverlapDoubleBooks`: the code has nothing that makes listing and staging one action.
- Stale Role versions: a Role update is never refused with a conflict, so a lost update between two claims of one namespace is not modelled.
- Garbage collection by owner reference: deleting a claim leaves its objects to the outside.
- ResolvePrefixID and the choice of prefix, DNS registration and tags of an address: an address is an ID and a text.
- ClusterController.ClusterClaimReconciler.StepWatchAddons: sort.Slice is taken as given, any nondecreasing order with ties in any order.
- MachineClasses.AggregateMachineClasses: the library sorts are modelled by insertion.
- Restoration.EverythingRestored: for the in-memory inventory only, since with the HTTP client it is false (`Simulation.RealTenantStays`).
- Progress.ReadyInEightTurns: the claim's own passes before the outside is done are not among the events allowed in between.
- ServerProgress.ReadyInFourTurns: the claim's own passes before its Job is finished are not among the events allowed in between.
