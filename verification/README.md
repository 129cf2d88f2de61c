# Verified model of the SR-IOV DRA driver

A Dafny model of the stateful core of the SR-IOV dynamic-resource-allocation driver, with proofs
about whole runs of it. The common theme is state that has to agree with something else: the
advertised devices with the policies, the shared claim status with what other drivers wrote, the
drivers bound on the host with what memory and the checkpoint file know, and a published status
with what was persisted before. `dafny verify dfyconfig.toml` checks everything.

| file | what it models |
|---|---|
| `Attributes.dfy`, `Discovery.dfy` | devices, reserved attribute keys, device names |
| `Ordering.dfy`, `PolicyMatching.dfy` | filters, attribute resolution, first match by policy name |
| `PolicyDevices.dfy`, `Reconcile.dfy` | the in-place policy update and whole runs of the reconciler |
| `ClaimStatus.dfy`, `StatusRetry.dfy`, `RetryOutcomes.dfy` | merging `status.devices`, the retry loop against an API server, and which replies end it |
| `Environment.dfy` | the replies of everything outside the driver |
| `HostDriver.dfy` | binding and restoring drivers through sysfs |
| `PodManager.dfy` | the store of prepared claims, its checkpoint, and runs of requests |
| `VfConfig.dfy`, `Naming.dfy` | folding claim configurations, interface names |
| `Preparation.dfy`, `Prepare.dfy` | preparing and unpreparing a claim: as functions, and as the operations that compute them |
| `AllOrNothing.dfy`, `PrepareSuccess.dfy`, `InterfaceNames.dfy` | what those functions guarantee: rollback, records, when they succeed, names |
| `Hooks.dfy`, `DraHook.dfy` | the kubelet hooks: as functions, and as the operations that compute them |
| `DriverLeak.dfy`, `HookOutcomes.dfy`, `CallOutcomes.dfy` | whole runs of hooks with restarts, what the kubelet is told, and when a call succeeds |
| `StaleExample.dfy`, `FaultExamples.dfy` | concrete cases of what the code does not guarantee |
| `NetworkData.dfy`, `PublishedData.dfy` | the asynchronous network-data updater, runs of it, and what it publishes |

## How faults and order are modelled

Everything outside the driver is an arbitrary `Script` of replies. Each access to sysfs, to a
device-info file, a CDI spec or the checkpoint, and each look-up consumes the next reply, which says
whether an error is reported and whether a failed write took effect all the same. An operation is
therefore a function of the state, its arguments and the script; the class methods are proved to
compute that function, state by state, and the theorems are lemmas about the functions, for every
script. `Calm` means that no access in a stretch of time fails. The API server of `StatusRetry` has a
script of its own, which decides per attempt what other writers do, which requests are lost, which
are applied although their reply is an error, and when the context is cancelled.

Go map iteration is an arbitrary choice; where it decides which pod or which claim comes first, the
choice is returned (`Pick`, `order`) and constrained only to be possible. Label selection is a
parameter (`selects`) that rejects malformed selectors. A checkpoint write is atomic: when it fails
the old file remains. Go's `Manager` is split by the fields its two halves touch into
`PolicyDevices.Manager` and `Prepare.ClaimManager`. `Tally` counts rollbacks that did not restore a
device, failed binds that moved one, and failed clean-ups; the functions say when it counts, and
`CalmRunsLeakNothing` and `PrepareIsAllOrNothing` when it stays put.

## Where the code does less than it seems to

- Dropping devices that carry no policy attribute does not republish: `RepublishMissed` gives the
  exact condition on the old and new policies, `RepublishMissedExample` a case. A failed republish is
  not retried by an identical update (`RepeatedUpdate`).
- A policy may take a discovered attribute away exactly when discovery uses an unreserved key
  (`HistoryIndependence`); discovery never does (`VfAttributesAreReserved`).
- A device found on `igb_uio` or `uio_pci_generic` is moved off it and can never be restored,
  because the module check rejects those drivers (`BindThenRestore`, `NeverMovedBack`, and
  `NeverBackOnIgbUio` for a case).
- A bind that fails after it detached its device leaves the device off its driver, and nothing
  restores it (`FailedBindMoves` and `DirtyBindExactly` for exactly when, `HalfBound` for a case).
- After a failed checkpoint write the devices are rolled back but the claim stays in memory, so a
  retry reports it as prepared although nothing is bound (`StaleExactly` and `RetryReportsStale` for
  exactly when, `StaleClaim` for a case).
- A successful unprepare need not be durable. When everything is undone but the file cannot be
  written, memory has forgotten the claim, so the retry finds nothing, writes nothing and reports
  success; after a restart the claim is back and is reported as prepared with nothing bound
  (`UnpreparedInFile` and `UnpreparedClaimInFile` for exactly when the file still has it,
  `ForgottenClaimReturns` for the run, `ClaimReturns` for a case).
- Unpreparing one claim forgets the whole pod; a sibling claim that is still prepared loses its
  record, in memory and in the file, and its device stays where it is
  (`UnprepareKeepsAccountUnlessSibling` for exactly when, `SiblingIsStrandedExample` for a case).
- A rollback of a call is no different: of the claims of one pod only the first is unprepared, the
  others are forgotten with the pod before their turn comes, and their specs and drivers stay
  although the rollback reports success (`RollbackExactly` and `SpecSurvivesExactly` for exactly when,
  `RollbackStrandsSibling` for a case). The spec of a claim that failed to prepare is not removed
  either, should its write have taken effect.
- The comment in `statehelpers.go` says that a configuration without requests applies to all
  requests; it is ignored for a request that any configuration names (`CatchAllIsHidden`). The model
  follows the code.
- Interface names count from zero in every call, so devices that two calls prepared share a name
  exactly when prepared claims of both took the same number (`CallsReuseNames`). When no claim fails,
  that is when each call has a new claim with a device that needs a generated name
  (`SuccessfulCallsReuseNames`); `TwoPodsOneName` is a case.

## Model

| member | source | states |
|---|---|---|
| `PolicyDevices.Manager.GetAdvertisedDevices` | pkg/devicestate/state.go:553-562 | the result is exactly the tracked devices that exist, with their live attributes |
| `PolicyDevices.Manager.ClearPolicyAttributes` | pkg/devicestate/state.go:660-680 | removes exactly the device's tracked keys and its tracking, and reports a change only if it had keys and exists |
| `PolicyDevices.Manager.ClearUnmatched` | pkg/devicestate/state.go:572-582 | forgets exactly the tracked devices that no policy matches, in any iteration order |
| `PolicyDevices.Manager.NamesChanged` | pkg/devicestate/state.go:584-596 | the length test and the scan together decide whether the two name sets differ |
| `PolicyDevices.SetAttributes` | pkg/devicestate/state.go:609-624 | overlays the unreserved attributes, reports the keys now owned by policy and whether any value was written |
| `PolicyDevices.DropStale` | pkg/devicestate/state.go:626-635 | removes exactly the old keys that the new policy does not set |
| `PolicyDevices.Manager.ApplyToDevice` | pkg/devicestate/state.go:599-642 | one device ends with its other attributes plus the policy's, and reports a change iff a value or key changed |
| `PolicyDevices.Manager.ApplyMatched` | pkg/devicestate/state.go:598-642 | overlays every matched device that exists, in any order |
| `PolicyDevices.Manager.UpdatePolicyDevices` | pkg/devicestate/state.go:564-658 | the new view, at most one republish and exactly when something changed, of the devices then advertised; fails iff that republish fails |
| `PolicyDevices.UpdateForgetsThePast` | pkg/devicestate/state.go:564-658 | an update over any policy in force leaves discovery data plus the new policy's unreserved attributes, and tracks exactly its existing devices |
| `PolicyDevices.RunInForce` | pkg/devicestate/state.go:564-658 | after any sequence of updates the view is discovery plus the last policy map |
| `PolicyDevices.InForceExactly` | pkg/devicestate/state.go:599-642 | key by key: a policy sets the attributes that are not reserved, discovery the others, and exactly the existing devices of the policy are advertised |
| `PolicyDevices.HistoryIndependence` | pkg/consts/consts.go:80-98 | every run is fixed by its last update if and only if discovery keeps to the reserved keys |
| `PolicyDevices.LostAfterWithdrawal` | pkg/devicestate/state.go:674-678 | setting and withdrawing an unreserved discovery key loses the discovered attribute |
| `PolicyDevices.SilentUpdate` | pkg/devicestate/state.go:644-647 | a skipped republish means: nothing added, survivors unchanged, dropped devices had no policy keys |
| `PolicyDevices.RepublishExact` | pkg/devicestate/state.go:572-655 | in every reachable view the update is silent iff the slice only loses devices without policy attributes |
| `PolicyDevices.SurvivorsKeepTheirPolicy` | pkg/devicestate/state.go:599-642 | surviving devices look the same iff the two policies set the same unreserved attributes on them |
| `PolicyDevices.RepublishMissed` | pkg/devicestate/state.go:661-666 | the slice goes stale without a republish iff the new policies drop a device, every dropped one had no settable attribute, and the others keep theirs |
| `PolicyDevices.RepublishMissedExample` | pkg/devicestate/state.go:661-666 | a single bare device is dropped from the slice without a republish |
| `PolicyDevices.RepeatedUpdate` | pkg/devicestate/state.go:644-655 | the same update again changes nothing, and is silent iff it names only known devices |
| `Discovery.DeviceNameIsInjective` | pkg/devicestate/discovery.go:148-149 | equal device names come from equal well-formed PCI addresses, for any domain width |
| `Discovery.DeviceNameExactly` | pkg/devicestate/discovery.go:148-149 | colons and dots become dashes, and nothing else changes |
| `Discovery.DeviceNameNeedsTheFormat` | pkg/devicestate/discovery.go:148-149 | two malformed addresses that share a name |
| `Discovery.VfAttributesAreReserved` | pkg/devicestate/discovery.go:164-211 | discovery sets exactly the reserved keys |
| `Discovery.VfAttributesExact` | pkg/devicestate/discovery.go:164-211 | each of the fourteen attributes holds the property of the physical or virtual function that its key names |
| `Discovery.DiscoveredMatches` | pkg/controller/resourcepolicycontroller.go:264-341 | a filter accepts a discovered function iff each of its lists is empty or has the property of the function that the list is about |
| `Discovery.AddFunctions` | pkg/devicestate/discovery.go:147-216 | every listed function gets its device, with the attributes of that function and of its physical function, and every device is that of a listed function |
| `Discovery.CollectDevices` | pkg/devicestate/discovery.go:125-221 | the device map covers exactly the listed functions, and fails iff a listing failed |
| `Discovery.ListedExactly` | pkg/devicestate/discovery.go:125-147 | the covered functions are those of the listings, each with its own physical function |
| `Discovery.DiscoveryIsFaithful` | pkg/devicestate/discovery.go:147-216 | discovered keys are reserved, and each well-formed address is found again under its own name, with the attributes of its own function |
| `Ordering.InsertByName` | pkg/controller/resourcepolicycontroller.go:133-135 | keeps order and multiset |
| `Ordering.SortByName` | pkg/controller/resourcepolicycontroller.go:133-135 | a permutation in ascending alphabetical order, with no promise on ties |
| `Ordering.BeforeIsAlphabetical` | pkg/controller/resourcepolicycontroller.go:133-135 | the order is the alphabetical one: a proper prefix, or the smaller character at the first difference |
| `PolicyMatching.FiltersReadReservedOnly` | pkg/controller/resourcepolicycontroller.go:248-341 | filters give the same verdict on attribute maps that agree on reserved keys |
| `PolicyMatching.LinkTypeNames` | pkg/api/sriovdra/v1alpha1/api.go:112-121 | both spellings of Ethernet and InfiniBand in any case; other link types are lower-cased |
| `PolicyMatching.SelectObjects` | pkg/controller/resourcepolicycontroller.go:192-199 | exactly the objects the selector matches |
| `PolicyMatching.MergeInOrder` | pkg/controller/resourcepolicycontroller.go:204-209 | each key holds the value of the last object that sets it |
| `PolicyMatching.ResolveDeviceAttributes` | pkg/controller/resourcepolicycontroller.go:174-212 | the merge of the selected objects in which the last name wins, empty without a selector |
| `PolicyMatching.ResolvedKeys` | pkg/controller/resourcepolicycontroller.go:174-212 | no attributes without a selector; with one, exactly the keys of the objects it selects |
| `PolicyMatching.LargerNameSupplies` | pkg/controller/resourcepolicycontroller.go:200-209 | of two selected objects that set a key, the one with the alphabetically larger name supplies it |
| `PolicyMatching.AddMatches` | pkg/controller/resourcepolicycontroller.go:145-162 | adds exactly the matching devices that have no entry yet |
| `PolicyMatching.GetPolicyDeviceMap` | pkg/controller/resourcepolicycontroller.go:117-172 | a device is in the map iff some configuration matches it, with the attributes of the first match by policy name and position |
| `PolicyMatching.SmallerNameDecides` | pkg/controller/resourcepolicycontroller.go:133-162 | of two policies that match a device, the one with the alphabetically smaller name decides |
| `PolicyMatching.PolicyAComesFirst` | pkg/controller/resourcepolicycontroller.go:133-162 | policies "b" and "a" for all devices, listed in that order: every device gets what "a" selects |
| `PolicyMatching.ResolvesIsUnique` | pkg/controller/resourcepolicycontroller.go:174-177 | with unique names, resolution does not depend on list order |
| `PolicyMatching.PolicyMapIsUnique` | pkg/controller/resourcepolicycontroller.go:120-172 | with unique names the map is fixed by the sets of policies and objects and by reserved attributes, whatever the list, map or edit history |
| `Reconcile.ReconcileOnce` | pkg/controller/resourcepolicycontroller.go:69-115 | applies the policy map of the live devices, or leaves the manager alone when a look-up fails |
| `Reconcile.AdvertisedExactly` | pkg/controller/resourcepolicycontroller.go:93-163 | a device is to be advertised iff some policy has no node terms or one that selects the node, and a configuration without filters or with one that accepts the device |
| `Reconcile.TargetOnSameDiscovery` | pkg/controller/resourcepolicycontroller.go:131-163 | matching on edited live maps gives the same map as on pristine ones |
| `Reconcile.EveryRunRealizesItsLastInputs` | pkg/controller/resourcepolicycontroller.go:99-114 | in every run with aborted reconciles, the state is what the last completed one asks for on discovery data |
| `Reconcile.ReconcileIsAFunctionOfItsInputs` | pkg/controller/resourcepolicycontroller.go:99-114 | two runs with any histories agree as soon as their last inputs do, up to list order |
| `Reconcile.RepeatedReconcileIsIdle` | pkg/controller/resourcepolicycontroller.go:108-112 | reconciling equal inputs again changes and republishes nothing |
| `ClaimStatus.UpsertDeviceStatus` | pkg/types/claimstatus.go:48-66 | replaces the first entry of the key or appends |
| `ClaimStatus.UpsertsByDevice` | pkg/types/claimstatus.go:24-66 | the entry replaced is the first with the same driver, pool, device and share, a missing share ID counting as an empty one |
| `ClaimStatus.MergeDeviceStatuses` | pkg/types/claimstatus.go:68-109 | the loops compute the merge |
| `ClaimStatus.MergeKeepsForeignWritesOwn` | pkg/types/claimstatus.go:68-109 | other drivers' entries are kept in order; this driver's entries become the last desired value per key, each key once |
| `ClaimStatus.MergeUniqueKeys` | pkg/types/claimstatus.go:98-107 | the result has unique keys iff the foreign entries have |
| `ClaimStatus.MergeAbsorbs` | pkg/types/claimstatus.go:68-109 | a later merge by the same driver absorbs an earlier one; merging is idempotent |
| `ClaimStatus.MergesCommute` | pkg/types/claimstatus.go:77-80 | merges by two drivers commute as keyed maps |
| `ClaimStatus.UpsertKeepsForeign` | pkg/devicestate/state.go:204-214 | reporting an own device leaves other drivers' entries alone |
| `StatusRetry.SubmittedIsSafe` | pkg/types/statusretry.go:74-77 | an update is stored as sent over the version it was built on, and that one write is reported, or nothing is stored |
| `StatusRetry.RebasedIsReady` | pkg/types/statusretry.go:83-104 | after a refetch the claim carries the desired entries over the latest list and is valid |
| `StatusRetry.TriedIsSafe` | pkg/types/statusretry.go:73-114 | one attempt loses no update, and stores only its own write besides what others wrote |
| `StatusRetry.NoLostUpdates` | pkg/types/statusretry.go:52-124 | for every interleaving of writers, faults and cancellations: each accepted write changes this driver's entries into the desired ones and nothing else, and every new version of the object is one of those writes or another client's |
| `StatusRetry.LoopEnds` | pkg/types/statusretry.go:73-114 | at most `steps` attempts; ends acknowledged, at the first permanent error, or with transient errors only (`RetryOutcomes.RoundDecides` says which errors are which) |
| `StatusRetry.OutcomeIsHonest` | pkg/types/statusretry.go:116-123 | success means that the server holds the acknowledged write; failure with a live context returns the last API error |
| `StatusRetry.TwoQuietRoundsSuffice` | pkg/types/statusretry.go:79-106 | a stale claim needs one conflict and one merge |
| `StatusRetry.Refresh` | pkg/types/statusretry.go:83-104 | the refetch, the UID test and the merge |
| `StatusRetry.TryOnce` | pkg/types/statusretry.go:73-114 | the retried condition computes one attempt, whose verdict `RetryOutcomes.SeenInRound` ties to the replies |
| `StatusRetry.Backoff` | pkg/types/statusretry.go:73-114 | the loop computes the attempts |
| `StatusRetry.UpdateClaimStatusWithRetry` | pkg/types/statusretry.go:52-124 | the server ends exactly where the attempts take it, without a lost update or an unaccounted version |
| `RetryOutcomes.SeenInRound` | pkg/types/statusretry.go:73-114 | a round acknowledges iff it saw no error, goes on iff the error it saw last is a conflict or has no name of its own, and otherwise stops with that error |
| `RetryOutcomes.RoundDecides` | pkg/types/statusretry.go:37-114 | in every run, a round is followed by another iff it saw such a passing error, steps remain, the cap is not reached and the context lives; the last round decides the result: Invalid, Forbidden, NotFound and a replaced UID come back as they are |
| `RetryOutcomes.CallerGetsLastSeen` | pkg/types/statusretry.go:116-123 | success iff the last round saw no error; otherwise the error it saw, unless that is a passing one and the context was cancelled |
| `RetryOutcomes.RidesOutPassingErrors` | pkg/types/statusretry.go:73-114 | any number of rounds with other writers of the object, conflicts and unnamed errors on update and refetch, lost or applied, followed by two undisturbed ones within the steps, ends in success |
| `RetryOutcomes.OverloadedOnce` | pkg/types/statusretry.go:109-113 | one 503 on the first update: the call succeeds |
| `HostDriver.BindingToBinds` | pkg/host/host.go:452-485 | on success the device has the driver and an empty override; a device that already has it never loses it; no other device changes; without faults it succeeds exactly for loadable drivers |
| `HostDriver.DefaultingBinds` | pkg/host/host.go:424-450 | a kernel driver is kept; otherwise the override is reset and the kernel probes: if the probe attaches a driver it is the kernel's own choice, and else there is none |
| `HostDriver.BindingBinds` | pkg/host/host.go:382-411 | binds as asked; a failed bind without faults leaves the driver as it is |
| `HostDriver.RestoringRestores` | pkg/host/host.go:413-422 | puts the recorded driver back, or the default; fails without faults exactly for unknown DPDK drivers |
| `HostDriver.ModuleCheck` | pkg/host/host.go:748-761 | no bind to uio_pci_generic or igb_uio and no restore of them ever succeeds; without faults every other driver can be bound and restored |
| `HostDriver.BindThenRestore` | pkg/host/host.go:382-485 | the round trip returns a bound device to its driver, leaves an unbound one off DPDK drivers, keeps an empty override and every other device, and completes without faults exactly for loadable drivers |
| `HostDriver.NeverMovedBack` | pkg/host/host.go:748-761 | a device on a driver that the module check rejects keeps it only when the kernel chooses it again |
| `HostDriver.FailedBindMoves` | pkg/host/host.go:424-499 | a failed bind leaves a bound device off its driver iff the write that detaches it took effect |
| `HostDriver.Host.SetDriverOverride` | pkg/host/host.go:555-582 | sets the override of an overridable device and nothing else |
| `HostDriver.Host.EnsureDpdkModuleLoaded` | pkg/host/host.go:748-761 | rejects DPDK drivers other than vfio-pci |
| `HostDriver.Host.UnbindDriver` | pkg/host/host.go:487-499 | detaches the device and nothing else |
| `HostDriver.Host.BindDriverByBusAndDevice` | pkg/host/host.go:452-485 | the steps compute the bind and keep what it promises |
| `HostDriver.Host.BindDefaultDriver` | pkg/host/host.go:424-450 | the steps compute the default bind and keep what it promises |
| `HostDriver.Host.BindDeviceDriver` | pkg/host/host.go:382-411 | binds as asked and reports the driver the device had |
| `HostDriver.Host.RestoreDeviceDriver` | pkg/host/host.go:413-422 | restores as promised |
| `PodManager.PodManager.SyncToCheckpoint` | pkg/podmanager/podmanager.go:174-181 | the file becomes the store or stays as it was |
| `PodManager.PodManager.Set` | pkg/podmanager/podmanager.go:74-85 | memory gains the claim even when the write fails; a successful write stores exactly memory |
| `PodManager.PodManager.Get` | pkg/podmanager/podmanager.go:87-97 | the devices of a pod's claim, if any |
| `PodManager.PodManager.DeletePod` | pkg/podmanager/podmanager.go:115-121 | forgets the pod and nothing else |
| `PodManager.PodManager.GetByClaim` | pkg/podmanager/podmanager.go:123-136 | the devices of the claim under some pod, found iff tracked |
| `PodManager.PodManager.UpdatePreparedDeviceNetworkData` | pkg/podmanager/podmanager.go:138-149 | the data is on the shared device and, on success, in the file |
| `PodManager.PodManager.DeleteClaim` | pkg/podmanager/podmanager.go:151-172 | forgets one whole pod that has the claim; an unknown claim writes nothing |
| `PodManager.PodManager.Reload` | pkg/podmanager/podmanager.go:40-72 | a restart rebuilds the store from the file, on fresh device objects |
| `PodManager.LoadTable` | pkg/podmanager/podmanager.go:52-61 | reading a snapshot back gives a table with that snapshot |
| `PodManager.PodManager.GetDevicesByPodUID` | pkg/podmanager/podmanager.go:99-113 | the devices of the pod's claims, each claim visited once in some order and its devices in order |
| `PodManager.Serve` | pkg/podmanager/podmanager.go:74-181 | a request does to table, shared network data and file what its meaning says, and answers accordingly |
| `PodManager.FileIsLastSync` | pkg/podmanager/podmanager.go:174-181 | in every run the file is the store as of the last request that wrote and was answered with success |
| `PodManager.RunThenRestart` | pkg/podmanager/podmanager.go:40-181 | the store goes through the states that follow from the requests, and a restart brings back exactly the last durable one, network data set through shared devices included |
| `Naming.DecimalRoundTrip` | pkg/devicestate/state.go:374-377 | decimal printing can be undone |
| `Naming.AutoNamesDiffer` | pkg/devicestate/state.go:374-377 | different counters give different interface names |
| `Naming.AutoNameExamples` | pkg/devicestate/state.go:371-377 | the names count net0, net1 and so on in decimal |
| `VfConfigs.VfConfig.Override` | pkg/api/virtualfunction/v1alpha1/api.go:64-75 | only three fields, and only when set, are carried over |
| `VfConfigs.OverrideRequests` | pkg/devicestate/statehelpers.go:78-85 | every named request is overridden once, each on an object of its own |
| `VfConfigs.SplitBySource` | pkg/devicestate/statehelpers.go:29-45 | class configurations before claim configurations, each in order; fails iff a source is unknown |
| `VfConfigs.GetMapOfOpaqueDeviceConfigForDevice` | pkg/devicestate/statehelpers.go:14-90 | folds the configurations: claim over class, later over earlier, per field and by position; fails iff a source is unknown or a configuration is bad, with the first error |
| `VfConfigs.FoldedByPosition` | pkg/devicestate/statehelpers.go:30-90 | by position in the claim's list, for driver, interface name and attachment: the last claim configuration for the request that sets the field gives its value, without one the last class configuration, and else it is empty; the other two fields keep their defaults |
| `VfConfigs.FoldedRequests` | pkg/devicestate/statehelpers.go:73-85 | the map has exactly the requests that some configuration of this driver names, or "" for one that names none |
| `VfConfigs.FoldableExactly` | pkg/devicestate/statehelpers.go:34-72 | folding succeeds iff every source is known, every configuration is opaque, and those of this driver decode to its kind |
| `VfConfigs.ClaimBeatsClassExample` | pkg/devicestate/statehelpers.go:44-45 | a class asks for ixgbevf and the claim for vfio-pci: vfio-pci |
| `VfConfigs.InterleavingDoesNotMatter` | pkg/devicestate/statehelpers.go:34-45 | how class and claim entries interleave does not matter |
| `VfConfigs.LastSetIsLast` | pkg/devicestate/statehelpers.go:16-20 | a field comes from the last configuration that sets it |
| `VfConfigs.CatchAllIsHidden` | pkg/devicestate/state.go:179-185 | a catch-all configuration is used exactly for requests that no configuration names |
| `VfConfigs.CatchAllIsHiddenExample` | pkg/devicestate/statehelpers.go:74-77 | a driver asked for on all requests is lost on a named one |
| `VfConfigs.ResolvesIsUnique` | pkg/devicestate/statehelpers.go:14-90 | the folded map is the only one that gives each named request its resolved settings |
| `VfConfigs.FoldCandidates` | pkg/devicestate/statehelpers.go:47-90 | folds lowest precedence first and fails at the first bad configuration |
| `AllOrNothing.RestoringAllRestores` | pkg/devicestate/state.go:529-551 | restores recorded drivers and touches no other device; on success all are back, on failure none that was back is lost; without faults it succeeds for loadable originals |
| `AllOrNothing.CleaningAllCleans` | pkg/devicestate/deviceinfo.go:127-156 | only the devices' files go; on success exactly they are gone |
| `AllOrNothing.SavingAllSaves` | pkg/devicestate/deviceinfo.go:65-125 | only the devices' files change; on success exactly they are added; without faults it succeeds iff every device that gets a file has an address |
| `AllOrNothing.ApplyingConfigApplies` | pkg/devicestate/state.go:222-408 | a prepared device is bound as asked, with its old driver, its configured or generated name and its claim on record; no other device changes |
| `AllOrNothing.ApplyingConfigFailsWell` | pkg/devicestate/state.go:257-273 | a failed step after the bind is undone unless its restore is counted as failed; without faults nothing is counted for loadable drivers |
| `AllOrNothing.DirtyBindExactly` | pkg/devicestate/state.go:257-264 | a failed bind is counted as dirty iff it got as far as detaching its bound device |
| `AllOrNothing.RolledBack` | pkg/devicestate/state.go:190-197 | restoring what was prepared undoes it, up to a device whose bind failed |
| `AllOrNothing.StepUndone` | pkg/devicestate/state.go:190-197 | the rollback at any result undoes the claim so far |
| `AllOrNothing.PreparingRestPrepares` | pkg/devicestate/state.go:169-220 | after any results either every prepared device is on record or everything is undone |
| `AllOrNothing.FailedBindFailed` | pkg/devicestate/state.go:257-260 | the results before the exempt device were prepared, and in the state that left, its bind returned an error |
| `AllOrNothing.WholeRollback` | pkg/devicestate/state.go:144-164 | restoring every prepared device undoes a complete preparation |
| `AllOrNothing.WritingFilesWrites` | pkg/devicestate/state.go:142-164 | the files and the spec are written, or drivers and files are back |
| `AllOrNothing.PrepareIsAllOrNothing` | pkg/devicestate/state.go:123-167 | on failure at any step every initially bound device, except one whose bind failed, is back and no file of the call remains; other claims' devices and files are untouched; without faults no rollback fails |
| `AllOrNothing.PreparedClaimMatches` | pkg/devicestate/state.go:169-220 | one device per served result, in order and under its request's configuration |
| `AllOrNothing.PreparedReports` | pkg/devicestate/state.go:204-214 | reporting devices keeps other drivers' statuses and doubles no key |
| `AllOrNothing.UnpreparingUnprepares` | pkg/devicestate/state.go:499-527 | every part is attempted; success means that drivers, files and specs are all undone; succeeds without faults for loadable originals |
| `PrepareSuccess.UnboundNeeds` | pkg/devicestate/state.go:241-264 | a device whose driver is left alone is prepared iff its network look-up, made in STANDALONE mode only, and the later steps succeed |
| `PrepareSuccess.CalmApplying` | pkg/devicestate/state.go:222-408 | without faults a device is prepared iff the node knows it and its configuration asks for no driver, or it is on the bus and the driver has a known module |
| `PrepareSuccess.CalmPreparing` | pkg/devicestate/state.go:169-220 | without faults all results are prepared iff each of this driver's can be |
| `PrepareSuccess.CalmWriting` | pkg/devicestate/state.go:142-164 | without faults the files are written iff every device that gets one has an address |
| `PrepareSuccess.CalmPrepareExactly` | pkg/devicestate/state.go:123-167 | without faults a claim is prepared iff its configurations fold, it has a result of this driver, and every such result can be bound and saved: a condition on the claim, the devices and the bus only |
| `PrepareSuccess.PreparedIsReported` | pkg/devicestate/state.go:204-214 | every served result of a prepared claim is reported under its own driver, pool, device and share; every entry is an earlier one or that of a served result |
| `PrepareSuccess.RestoringStops` | pkg/devicestate/state.go:529-551 | restoring stops at the first device that cannot be restored |
| `PrepareSuccess.CleaningGoesOn` | pkg/devicestate/deviceinfo.go:127-156 | cleaning goes on after a failure and reports it in the end |
| `PrepareSuccess.SavingGoesOn` | pkg/devicestate/deviceinfo.go:65-93 | so does saving |
| `PrepareSuccess.UnprepareGoesOn` | pkg/devicestate/state.go:499-527 | drivers are restored although files could not be removed, and specs removed although drivers could not be restored |
| `InterfaceNames.PreparingEnumerates` | pkg/devicestate/state.go:371-377 | the generated names of a claim are the next numbers, each once and in order |
| `InterfaceNames.ClaimEnumerates` | pkg/devicestate/state.go:371-377 | the counter moves on by exactly the names of the prepared devices |
| `InterfaceNames.CounterCountsNames` | pkg/devicestate/state.go:371-377 | the counter equals the number of names given out, also when the claim fails later on |
| `InterfaceNames.NamesDiffer` | pkg/devicestate/state.go:374-377 | two devices of a claim with generated names have different names |
| `Prepare.ClaimManager.UnprepareDevices` | pkg/devicestate/state.go:529-551 | the loop computes the restores, stopping at the first failure |
| `Prepare.ClaimManager.SyncDeviceInfos` | pkg/devicestate/deviceinfo.go:65-125 | the loop writes the eligible files, going on after an error |
| `Prepare.ClaimManager.CleanDeviceInfos` | pkg/devicestate/deviceinfo.go:127-156 | the loop deletes the eligible files, going on after an error |
| `Prepare.ClaimManager.ApplyConfigOnDevice` | pkg/devicestate/state.go:222-408 | the steps compute what happens to one device, its record and the counter |
| `Prepare.ClaimManager.PrepareDevices` | pkg/devicestate/state.go:169-220 | the loop computes the preparation of all results, with rollback, and keeps foreign statuses |
| `Prepare.ClaimManager.PrepareDevicesForClaim` | pkg/devicestate/state.go:123-167 | computes the preparation of the claim, all or nothing; `PrepareSuccess.CalmPrepareExactly` says when it succeeds |
| `Prepare.ClaimManager.Unprepare` | pkg/devicestate/state.go:499-527 | computes the unprepare of the claim and keeps what it promises |
| `HookOutcomes.PreparedIsDurable` | pkg/driver/dra_hook.go:142-184 | a new claim is reported as prepared iff its devices are prepared and the checkpoint is written; then memory and file have its entry |
| `HookOutcomes.StaleExactly` | pkg/driver/dra_hook.go:155-166 | a failed claim stays tracked iff its devices were prepared and the checkpoint write failed; the file is unchanged |
| `HookOutcomes.StaleIsRolledBack` | pkg/driver/dra_hook.go:155-166 | its devices are back on their drivers |
| `HookOutcomes.RetryReportsStale` | pkg/driver/dra_hook.go:131-139 | a retry reports it as prepared and touches nothing |
| `HookOutcomes.UnpreparedInFile` | pkg/driver/dra_hook.go:205-220 | after a successful unprepare the file still tracks the claim iff it did before and memory did not |
| `HookOutcomes.UnpreparedIsForgotten` | pkg/driver/dra_hook.go:84-105 | when unpreparing the claims of a call succeeds, memory tracks none of them, and the file is memory iff memory tracked one of them before; otherwise nothing is written |
| `HookOutcomes.UnpreparedClaimInFile` | pkg/driver/dra_hook.go:84-105 | so the file still tracks one of them iff it did before and memory tracked none |
| `HookOutcomes.ForgottenClaimReturns` | pkg/driver/dra_hook.go:200-221 | failed forget, retry, restart, prepare: the retry reports success, and the claim is reported as prepared with its devices on their old drivers |
| `HookOutcomes.CallNamesDiffer` | pkg/driver/dra_hook.go:26-37 | two devices newly prepared in one call with generated names have different names, across claims and past failed ones |
| `HookOutcomes.CallNamesAreDistinct` | pkg/driver/dra_hook.go:26-37 | all generated names of a call are pairwise different |
| `HookOutcomes.CallCounterCounts` | pkg/driver/dra_hook.go:26-37 | at the end of a call the counter is the number of names given out, also to claims that failed |
| `HookOutcomes.CallsReuseNames` | pkg/driver/dra_hook.go:26-27 | devices prepared by two calls share a generated name iff a prepared claim of each took the same number |
| `HookOutcomes.SuccessfulCallsReuseNames` | pkg/driver/dra_hook.go:26-37 | when no claim fails, iff each call has a claim that is new and has a served result without a configured name |
| `CallOutcomes.FirstPodIsFirst` | pkg/driver/dra_hook.go:39-48 | the pod of a call is that of the first claim that is reserved |
| `CallOutcomes.EachGains` | pkg/driver/dra_hook.go:28-37 | preparing claims keeps every entry of memory, and adds entries of the call's claims only, under their pods, with devices the node knows |
| `CallOutcomes.CalmOneExactly` | pkg/driver/dra_hook.go:107-184 | without faults a claim is reported as prepared iff it is reserved for one pod and allocated, and is tracked already or can be served |
| `CallOutcomes.CalmEachTracks` | pkg/driver/dra_hook.go:28-37 | without faults a pod is tracked after the claims are prepared iff it was before or one of its claims can be served |
| `CallOutcomes.SuccessWritesSpec` | pkg/driver/dra_hook.go:70-81 | a call that succeeds leaves the pod's CDI spec in place, and for the rest exactly what preparing the claims left |
| `CallOutcomes.CalmCallExactly` | pkg/driver/dra_hook.go:18-82 | without faults a call succeeds iff it has no claims, or its pod is tracked before or one of its claims for the pod can be served, and the node knows every device the pod already had |
| `CallOutcomes.CallWithoutPod` | pkg/driver/dra_hook.go:46-54 | a call without a tracked pod fails and rolls nothing back |
| `CallOutcomes.UnpreparingRemoves` | pkg/driver/dra_hook.go:84-105 | when unpreparing claims succeeds, exactly the specs go that belong to the first of them in each pod: its own and the pod's |
| `CallOutcomes.RollbackExactly` | pkg/driver/dra_hook.go:59-78 | a call whose spec fails and whose rollback succeeds fails, memory tracks none of its claims, and exactly those specs are gone |
| `CallOutcomes.RollbackRemovesPodSpec` | pkg/driver/dra_hook.go:70-78 | then the pod's spec is gone whenever a claim of the call was tracked under the pod |
| `CallOutcomes.SpecSurvivesExactly` | pkg/driver/dra_hook.go:84-105 | and a tracked claim's own spec is left behind iff it was there and another claim of the call comes first in its pod |
| `CallOutcomes.RollbackStrandsSibling` | pkg/driver/dra_hook.go:84-105 | a pod with two claims: the rollback succeeds without a fault, and the second claim's spec and driver stay with nothing tracking them |
| `CallOutcomes.AnsweredFromMemory` | pkg/driver/dra_hook.go:107-139 | a claim that is not reserved for one pod or not allocated is refused, a tracked one is answered with its entry, and neither touches anything |
| `CallOutcomes.UnprepareExactly` | pkg/driver/dra_hook.go:200-221 | an unknown claim is a success that touches nothing; a tracked one succeeds iff everything is undone and the file written, and its pod is forgotten in memory as soon as everything is undone |
| `CallOutcomes.ToldGoneIsLast` | pkg/driver/dra_hook.go:186-198 | every claim is answered with how its last unprepare of the call ended |
| `CallOutcomes.ToldIsLast` | pkg/driver/dra_hook.go:29-37 | every claim is answered with how its last preparation of the call ended |
| `CallOutcomes.RestartRebuilds` | pkg/podmanager/podmanager.go:40-72 | a restart makes memory the file and touches nothing else, or fails and changes nothing |
| `StaleExample.StaleClaim` | pkg/driver/dra_hook.go:131-166 | a claim for vfio-pci whose checkpoint write fails: the call fails, the device is back on its driver, the retry reports it as prepared |
| `FaultExamples.HalfBound` | pkg/host/host.go:452-485 | a failing override write after the unbind leaves the device without a driver |
| `FaultExamples.NeverBackOnIgbUio` | pkg/host/host.go:748-761 | without faults a device found on igb_uio ends on vfio-pci |
| `FaultExamples.ClaimReturns` | pkg/driver/dra_hook.go:200-221 | one failed checkpoint write, a retry and a restart bring back an unprepared claim |
| `FaultExamples.TwoPodsOneName` | pkg/driver/dra_hook.go:26-27 | two pods that get one function each in two calls, both named net0 |
| `DriverLeak.StoredAccounts` | pkg/driver/dra_hook.go:142-166 | a stored claim accounts for every device it moved |
| `DriverLeak.StaleAccounts` | pkg/driver/dra_hook.go:155-166 | a claim rolled back after a failed write leaves nothing unaccounted for, in memory or in the file |
| `DriverLeak.ForgottenAccounts` | pkg/podmanager/podmanager.go:165-168 | forgetting a restored claim and its pod loses no account with one claim per pod |
| `DriverLeak.PreparingOneKeeps` | pkg/driver/dra_hook.go:107-184 | preparing an exclusive claim keeps the account, whatever happens short of a failed rollback or a dirty bind |
| `DriverLeak.UnpreparingOneKeeps` | pkg/driver/dra_hook.go:200-221 | unpreparing keeps the account under every fault |
| `DriverLeak.PreparingCallKeeps` | pkg/driver/dra_hook.go:18-82 | so does a kubelet call, with its rollback |
| `DriverLeak.NoDriverLeak` | pkg/driver/dra_hook.go:107-221 | at every moment of any run of hooks, faults and restarts, every device off its baseline driver is held by an entry, in memory and in the file, that records the baseline |
| `DriverLeak.CalmRunsLeakNothing` | pkg/driver/dra_hook.go:107-221 | a run without faults from loadable drivers leaks nothing and leaves nothing to count |
| `DriverLeak.NothingTrackedNothingLeaked` | pkg/driver/dra_hook.go:200-221 | when nothing is tracked, in memory or in the file, every device is on its baseline driver |
| `DriverLeak.UnprepareKeepsAccountUnlessSibling` | pkg/podmanager/podmanager.go:165-168 | with several claims per pod, a successful unprepare keeps the account iff no sibling claim still holds a device off its baseline |
| `DriverLeak.SiblingIsStranded` | pkg/podmanager/podmanager.go:165-168 | unpreparing such a sibling afterwards reports success and leaves its device off its baseline |
| `DriverLeak.SiblingIsStrandedExample` | pkg/podmanager/podmanager.go:165-168 | a pod with two claims that loses the second without any fault |
| `DraHook.Driver.StoreClaim` | pkg/driver/dra_hook.go:155-166 | stored in memory and file, or rolled back with the entry left in memory |
| `DraHook.Driver.PrepareResourceClaim` | pkg/driver/dra_hook.go:107-184 | computes the preparation of one claim |
| `DraHook.Driver.UnprepareResourceClaim` | pkg/driver/dra_hook.go:200-221 | computes the unprepare of one claim, which on success forgets the whole pod |
| `DraHook.Driver.UnprepareResourceClaims` | pkg/driver/dra_hook.go:186-198 | every claim is tried in order, and each is answered with how its last unprepare ended |
| `DraHook.Driver.RollbackPreparedClaims` | pkg/driver/dra_hook.go:84-105 | unprepares every claim of the call in order |
| `DraHook.Driver.WritePodSpec` | pkg/driver/dra_hook.go:55-78 | fails on an unknown device before anything is written, and otherwise writes the pod's spec |
| `DraHook.Driver.PrepareResourceClaims` | pkg/driver/dra_hook.go:18-82 | computes the call: what the kubelet is told per claim, and the state after the pod's spec or the rollback, which the `CallOutcomes` rows spell out |
| `DraHook.Driver.Restart` | pkg/podmanager/podmanager.go:40-72 | memory is rebuilt from the file |
| `DraHook.Driver.Run` | pkg/driver/dra_hook.go:18-221 | the node goes through the states that follow from the hooks, and no driver is leaked at any of them |
| `NetworkData.GroupNetworkDataByClaim` | pkg/nri/nri.go:262-279 | an order-preserving partition of the usable items by claim |
| `NetworkData.BuildClaimStatusDeviceIndex` | pkg/nri/nri.go:281-292 | each key leads to exactly its positions |
| `NetworkData.PositionsExact` | pkg/nri/nri.go:281-292 | positions are exactly the entries of the key, ascending |
| `NetworkData.ClaimObject.UpdateClaimDeviceStatus` | pkg/nri/nri.go:294-324 | the indexed update equals a scan that rewrites exactly this driver's entries of the device; the index stays valid |
| `NetworkData.RewriteKeepsForeign` | pkg/nri/nri.go:294-324 | other drivers' entries are untouched |
| `NetworkData.BatchIsOwnOnly` | pkg/nri/nri.go:186-242 | a fetched claim rewritten by a batch meets what the retry loop relies on |
| `NetworkData.PersistedExactly` | pkg/nri/nri.go:212-225 | the persisted items are those whose checkpoint write succeeded, and the log holds them in order |
| `NetworkData.AppliedExactly` | pkg/nri/nri.go:212-230 | the list is the fetched one rewritten by exactly the persisted items, in order |
| `NetworkData.EntryIsBacked` | pkg/nri/nri.go:212-230 | every entry of a rewritten list is as fetched or carries the data of a rewriting item of its device |
| `PublishedData.EntryExactly` | pkg/nri/nri.go:294-324 | field by field: the last item about the entry gives its network data, the last of those with marshalled data gives its data, and nothing else changes |
| `PublishedData.ItemsOfExactly` | pkg/nri/nri.go:262-279 | the items of a claim are those whose device was prepared for its namespace, name and UID |
| `PublishedData.PublishedExactly` | pkg/nri/nri.go:207-241 | a fetched claim is published iff an item whose checkpoint write succeeded has an entry in it, once, with the list rewritten by just those items |
| `PublishedData.BatchClaims` | pkg/nri/nri.go:186-206 | only claims that were fetched under their UID are published |
| `PublishedData.CalmBatchPublishes` | pkg/nri/nri.go:186-242 | without faults every claim of the batch that could be fetched and has an entry for an item is published, with all its items written |
| `NetworkData.RewritesKeepForeign` | pkg/nri/nri.go:294-324 | a batch of rewrites leaves other drivers' entries alone |
| `NetworkData.BatchIsARun` | pkg/nri/nri.go:186-242 | a batch is the run of its fetch, item and finish steps without requests in between |
| `NetworkData.BatchIsSound` | pkg/nri/nri.go:186-242 | whatever fails, a batch publishes exactly the fetched list rewritten by the persisted items of that claim, and never for a claim recreated under another UID |
| `NetworkData.PersistBeforePublish` | pkg/nri/nri.go:186-242 | in every run of the updater, with arbitrary requests to the store between any two of its steps, a published list is the fetched one rewritten by exactly the items of that claim persisted since it was fetched, each in a file that had it wherever the store then held the device |
| `NetworkData.Plugin.Persist` | pkg/nri/nri.go:216-225 | sets the data, writes the checkpoint, and logs the event exactly on success with the table and file of that moment |
| `NetworkData.Plugin.ApplyItems` | pkg/nri/nri.go:212-230 | the loop persists and rewrites item by item; updates are reported iff a persisted item has an entry |
| `NetworkData.Plugin.UpdateClaim` | pkg/nri/nri.go:207-241 | published iff a persisted item has an entry, and then exactly the rewritten list |
| `NetworkData.Plugin.UpdateNetworkDeviceData` | pkg/nri/nri.go:186-242 | the batch extends the log by exactly its events, visits each claim once, and keeps the log sound |

## Left out

- sysfs paths, `/proc`, kernel module loading, netlink, RDMA and VFIO look-ups: only whether they fail matters after a bind.
- CDI spec content, JSON and checksum bytes, the CNI runtime: stores are sets of keys, and the marshalled configuration in a device status is a fixed text.
- Label-selector semantics, node look-up and list calls: parameters.
- Controller wiring, health checks, flags, NRI start and stop, logging, metrics of the backoff (delay, jitter): only the step bound, the cap and cancellation are kept.
- `buildRequestMetadataUpdates` and the kubelet metadata update: another grouping loop that would only add easy members.
- The best-effort status write at the end of a prepare: its input condition is proved (`PreparedReports`), the call itself is modelled in `StatusRetry`.
- Nil entries in lists of prepared devices, which the code skips: device lists hold no nil.
- Slices that alias: `UpsertDeviceStatus` and `MergeDeviceStatuses` work on values, so a caller's view of the old backing array is not captured.
- Crashes inside a hook: restarts happen between hooks. The node's device map does not change during a run of hooks.
- A checkpoint write that fails after it took effect: a failed write keeps the old file.
- StatusRetry.UpdateClaimStatusWithRetry: an update without a resource version, which the API server would accept unconditionally, is not modelled; both callers pass a fetched claim.
- DriverLeak.NoDriverLeak: assumes exclusive allocation of addresses, one claim per pod, that a claim is not still tracked under another pod when it is prepared, that devices start bound, that rollbacks restore their devices and that failed binds leave their device alone; `UnprepareKeepsAccountUnlessSibling` says what several claims per pod cost.
