# Mystic control plane: ports, exposures and workload lifecycle

This project models two connected parts of the Mystic backend and proves
properties of the model.

* **Port allocation.** The SSH port allocator keeps two maps, by workload and by
  port, that point to the same mutable records; it saves only the first map and
  rebuilds the second on a restart. The allocator engine validates single, range
  and explicit port requests and searches a pool for a free run. The exposure
  manager is the registry built on the engine. The Incus proxy driver prints
  device strings, applies them once, and observes drift; the allocator reads the
  same strings back.
* **Workload lifecycle.** A workload goes from draft over planned, approved and
  provisioned to reconciled and deleted, or is adopted. Plans are identified by
  the digest of a text, instances by ownership labels, and an operation whose
  outcome is unknown is resolved by the next reconciliation.

## How the model is organised

Every stateful component is a class whose methods update maps and shared records
in place, with the loops of the source. Each method is proved against a function
on values, and the properties of runs are proved about those functions. What such
a function means is stated apart from it, field by field or by what can be observed
afterwards, in a contract or a lemma that does not mention it.

| file | component |
|---|---|
| `text.dfy` | decimal printing and parsing, splitting, trimming, string order |
| `port_allocation.dfy` | the allocator engine |
| `snapshot_file.dfy` | a store written as temporary file, sync and rename |
| `instances.dfy` | provider instances and the sync decision |
| `exposures.dfy` | exposures as values, and the registry over whole runs |
| `proxy_devices.dfy` | the Incus proxy driver and the SSH device parser |
| `exposure_manager.dfy` | the exposure registry class |
| `ssh_book.dfy` | the two port indexes as a value, over whole runs with failing saves and restarts |
| `ssh_allocator.dfy` | the SSH port allocator class |
| `plan_text.dfy` | the text that a plan digest is taken of, and ownership labels |
| `primary_ip.dfy` | the choice of an instance's primary address |
| `byte_sizes.dfy` | memory limits as the provider prints them |
| `workloads.dfy` | workloads as values: adoption and both reconciliations |
| `lifecycle.dfy` | the lifecycle as a state machine of locked sections, and plan discipline over all runs |
| `ownership.dfy` | provider safety over all runs |
| `surroundings.dfy` | what adoption, publication, refresh and deletion do to labels, exposures and ports |
| `workload_manager.dfy` | the workload manager class |
| `refinement.dfy` | a whole call of the manager is one path of the state machine |

Conventions of the model:

* A pointer to a struct that two maps share is an object with one field `data`,
  which holds the struct's fields as a value. Reference equality of these objects
  is the pointer equality of the source.
* The outcome of every save, command and lookup is a parameter, so each theorem
  holds for all combinations of outcomes, and each of several saves or commands of
  one call has an outcome of its own. A store that fails to save is a `Fault`
  at one of its steps. A stop of the process in mid-call is a save that took
  place or did not, followed by a restart. A manager without a store behaves like
  one whose saves always succeed.
* Generated ids are parameters. Time stamps and log output are dropped. Messages
  are constructors of a datatype.
* `net.ParseIP` is an arbitrary predicate, the plan digest an arbitrary function.
  That the digest has no collisions is assumed in one lemma only,
  `CheckedSpecIsPlannedSpec`, and written in its `requires`.
* `isHostListeningPort` always answers false, and no caller passes host
  information that matters, so both are left out of the engine's arguments.
* Go's map iteration is a loop that takes keys in any order; results are proved
  independent of it.
* Integers are unbounded where the source cannot overflow. `strconv.Atoi` is
  modelled with its 64-bit range.
* The memory limits are exact for integer numerals whose product is below 2^53,
  where the source's floating point is exact.

## Results that qualify what the source promises

Each is a lemma with the exact condition and, where it says so, a concrete input.

* A second release of a released record takes the port entry away from a workload
  that has since been given the port (`backend/internal/networking/ssh_allocator.go:268-278`).
  `SSHBooks.ReleaseConsistentIff` is the condition, `HarmfulReleaseReachable` a
  run from the empty allocator that leads there, `HarmfulReleaseSharesPort` what
  follows. Status updates and external reservations have their own conditions.
* An exposure update is written before it is validated and not undone on
  rejection (`backend/internal/networking/exposure_manager.go:207-235`), and
  migration inserts without validation. `Exposures.WriteKeepsSafeIff`,
  `MigrateOneKeepsSafeIff` and `RunSafeIff` are the conditions,
  `RejectedUpdateBreaksSafe` an input.
* The gateway test of the conflict analysis is asymmetric: of two exposures on one
  endpoint the one that names no gateway is refused beside one that names a
  gateway, and not the other way round (`Exposures.ObstructionAsymmetricIff`).
  Uniqueness of a public port is therefore stated per equal gateway
  (`Exposures.SafeSharesNoTransport`).
* The driver shares one device name between exposure ids that differ only in
  slashes and blanks; `ProxyDevices.ApplyingAnotherKeepsActive` says exactly when
  applying one exposure leaves another active, `ApplyingAnotherCanDeactivate` gives
  two exposures and a device where it does not.
* The text of a plan identifies the specification, among all specifications,
  exactly when none of its text fields has a colon; among those that have none
  outside the image it always does (`PlanTexts.PlanTextIdentifiesIff`,
  `PlanTextInjective`).
* A memory limit of two megabytes or more never reads back as the requested size,
  so a freshly provisioned workload is reported as drifted
  (`Workloads.WrittenMemoryDriftsIff`).
* The bulk pass does not look at ownership where single reconciliation does. In an
  ambiguous state the two report the same status exactly for an owned instance that
  runs or is stopped and has not drifted (`Workloads.AmbiguousPassesAgreeIff`).
* An adoption of an instance that carries the workload's id, the short owned label
  and another value of the long one reports success although the instance does
  not count as owned (`Surroundings.TaggedIsOwnedIff`; `MisreadTagging` gives the
  labels).
* `DeleteWorkload` deletes somebody else's instance exactly when the lookup fails and
  the provider obeys (`WorkloadManagers.ForeignDeletedIff`). That creations and
  deletions are safe is therefore stated for faithful lookups, calls on one
  workload that do not overlap, workloads that are not renamed, new ids on
  registration and adoption, and outside changes that leave alone the instances a
  call is working on (`OwnershipSafety.Orderly`). The plan discipline
  (`Lifecycles.CreateFollowsApproval`) needs none of this.
* A deletion releases the port of a workload whose record may have been released
  before. It takes the port entry of another live workload exactly when that
  release is harmful (`Surroundings.DeletionLeavesNothing`,
  `WorkloadManagers.Manager.DeleteWorkload`); `Surroundings.DeletionCanTakeEntry` is a
  run from the empty allocator that leads there.
* Start, stop, restart and the device writes of a publication, refresh or removal
  act on the name without a look at ownership. An instance that no registered
  workload owns is unchanged by a step exactly when the step is none of these, no
  adoption of it that sets labels and no outside change (`OwnershipSafety.ForeignInstancesUntouchedIff`);
  `OwnershipSafety.ForeignInstanceCanBeStopped` is a run of three steps that stops any
  such instance.
* A provisioning keeps the port book consistent in every outcome when the id has no
  outer blanks or no released record of its own
  (`WorkloadManagers.Unpadded`, `NothingReleased`). Otherwise the port is reserved for
  the trimmed id and released or activated for the id as it is, and
  `ProvisionHarmless`, in the contract of `ProvisionWorkload`, is the exact condition;
  `PaddedProvisioningHarms` gives a book and an id where it fails.
* A failed tagging may leave labels on the instance, and with a failing last save its
  record in the file, from where a restart takes it up again
  (`WorkloadManagers.Manager.AdoptWorkload`, `Lifecycles.FailedAdoptionReturnsIff`).
* A loaded file of ports gives a consistent book exactly when it is sound, so one
  that was written after a harmful release may not (`SSHBooks.LoadingIsConsistent`).

## Model

| member | source | states |
|---|---|---|
| Text.AtoiInvertsSignedDecimal | backend/internal/networking/ssh_allocator.go:356-421 | parsing the decimal numeral of any 64-bit integer, negative ones included, gives that integer back |
| Text.JoinInvertsSplit | backend/internal/networking/ssh_allocator.go:356-421 | joining the parts of a split string with the separator gives the string back, for every string |
| PortAllocation.AllocatorEngine.ValidateAllocation | backend/internal/networking/allocator.go:21-323 | the verdict is exact: valid with these mappings if and only if the fields hold, the request means these mappings, no port and protocol repeat, and no rule on a matching gateway overlaps; and the status reported in every case |
| PortAllocation.AllocatorEngine.CheckBasics | backend/internal/networking/allocator.go:40-99 | no blocker if and only if all required fields, addresses, protocol, workload and gateway are in order |
| PortAllocation.AllocatorEngine.NormalizeRange | backend/internal/networking/allocator.go:121-183 | a range is accepted exactly when it has a meaning: equal sizes, bounds, or a first fit in the pool, and then yields consecutive mappings |
| PortAllocation.AllocatorEngine.NormalizeExplicit | backend/internal/networking/allocator.go:185-226 | one mapping per rule with the source's field defaults; accepted exactly when there is a rule and all ports are in range |
| PortAllocation.AllocatorEngine.FindFreePoolRange | backend/internal/networking/allocator.go:325-355 | sound, complete and minimal: the lowest start of a free run inside the pool, and 0 only when there is none |
| PortAllocation.AllocatorEngine.IsPortFree | backend/internal/networking/allocator.go:357-374 | free exactly when not reserved and not held by a rule with an overlapping protocol |
| PortAllocation.AllocatorEngine.AnalyseConflicts | backend/internal/networking/allocator.go:239-310 | blocked exactly when a mapping repeats or clashes; status by precedence |
| PortAllocation.OverlapIsSharedTransport | backend/internal/networking/allocator.go:395-400 | the overlap test is the intersection of the transports the two protocols stand for |
| PortAllocation.PortKeyInjective | backend/internal/networking/allocator.go:239-256 | the printed key of the seen-map identifies port and protocol |
| PortAllocation.NormalizesUnique | backend/internal/networking/allocator.go:101-237 | a request means at most one list of mappings |
| PortAllocation.PoolRunAlwaysAdmissible | backend/internal/networking/allocator.go:121-183 | a pool run that ends within the port space always passes the later analysis and yields exactly the requested number of mappings |
| PortAllocation.PoolRequestExactness | backend/internal/networking/allocator.go:121-183 | a pool request is admissible if and only if the fields hold and a first fit exists that ends within the port space |
| PortAllocation.MoreRulesNeverHelp | backend/internal/networking/allocator.go:258-308 | adding rules never makes a rejected request acceptable, for every request; without them an accepted one gets the same mappings, or for a pool request as many from the same or an earlier port |
| SnapshotFiles.SnapshotFile.Save | backend/internal/networking/ssh_allocation_store.go:44-87 | with a failure or a stop at any step the main file holds either the new data whole or what it held before; an error leaves no half-written file; the file stays what the history of saves makes of it |
| SnapshotFiles.SnapshotFile.Load | backend/internal/networking/ssh_allocation_store.go:90-118 | whatever became of the saves since the file was found, a load gives the data of the last one that committed; with none, what was there: missing and blank files load as empty, torn or unreadable ones as an error |
| SnapshotFiles.LoadGivesLastCommitted | backend/internal/networking/ssh_allocation_store.go:44-118 | after any history of failed, interrupted and successful saves there is a last committed one, unless there is none at all, and the file holds its data whole |
| Exposures.ConversionRoundTrip | backend/internal/networking/exposure.go:57-120 | to the legacy form and back keeps everything but the observed state, exactly for exposures with an id and a desired state |
| Exposures.OlderFormConverts | backend/internal/networking/exposure.go:57-98 | a rule that has ports and address in the older fields only converts to the same exposure; a missing id or desired state is filled in |
| Exposures.VerdictIsAcceptance | backend/internal/networking/exposure_manager.go:316-340 | the engine's verdict over any listing of the other exposures is the acceptance rule over the registry |
| Exposures.AcceptedIff | backend/internal/networking/exposure_manager.go:316-340 | in a conflict-free registry an exposure is accepted if and only if its fields are in order, it asks for neither port 22 nor 8443, and no other one shares a transport of its port on its gateway, or on any gateway when it names none |
| Exposures.ObstructionAsymmetricIff | backend/internal/networking/allocator.go:258-308 | of two exposures on one endpoint one obstructs the other and not conversely, if and only if the obstructed one names no gateway and the other does |
| Exposures.CreateKeepsSafe | backend/internal/networking/exposure_manager.go:93-157 | a created exposure keeps the registry free of conflicts |
| Exposures.RegisteredAsAsked | backend/internal/networking/exposure_manager.go:93-157 | a registered exposure is the one asked for, with id, protocol and desired state filled in where missing, configured and in sync |
| Exposures.UnusedPortIsAccepted | backend/internal/networking/exposure_manager.go:316-340 | a port that no exposure uses is never refused as a conflict |
| Exposures.WriteKeepsSafeIff | backend/internal/networking/exposure_manager.go:198-244 | an in-place update keeps the registry safe if and only if the written exposure is well formed and its endpoint unclaimed |
| Exposures.MergedTakesWhatIsGiven | backend/internal/networking/exposure_manager.go:207-229 | an update takes every field that is given and keeps the others; id, workload, gateway and states never change; repeating it changes nothing |
| Exposures.RejectedUpdateBreaksSafe | backend/internal/networking/exposure_manager.go:207-235 | an update that is rejected and still leaves two exposures on one endpoint |
| Exposures.AppliedSaysWhether | backend/internal/networking/exposure_manager.go:272-305 | an apply makes the exposure desired; it is recorded applied and in sync if the driver succeeded, unconfigured and out of sync if not, and changes in nothing else |
| Exposures.AcceptedIsHarmless | backend/internal/networking/exposure_manager.go:198-244 | every update that passes validation is harmless |
| Exposures.MigrateOneKeepsSafeIff | backend/internal/networking/exposure_manager.go:423-445 | a migrated rule keeps the registry safe if and only if it is known already, or well formed and unclaimed |
| Exposures.MigrationIdempotent | backend/internal/networking/exposure_manager.go:422-445 | migrating the same rules again inserts nothing |
| Exposures.StepSafeIff | backend/internal/networking/exposure_manager.go:93-445 | one step of the registry, a start with an unreadable file included, keeps it safe, in memory and on disk, if and only if it is harmless |
| Exposures.RunSafeIff | backend/internal/networking/exposure_manager.go:93-445 | over every run with failing saves, failing loads and restarts no two exposures claim one endpoint and none uses a management port, if and only if every unchecked write was harmless |
| Exposures.SafeSharesNoTransport | backend/internal/networking/allocator.go:395-400 | in a safe registry two exposures on one gateway and port have disjoint transports |
| ProxyDevices.ParseInvertsPrint | backend/internal/networking/ssh_allocator.go:356-421 | the parser reads the printed strings of any SSH port back, if and only if the addresses are free of colons |
| ProxyDevices.PrintParseRoundTrip | backend/internal/providers/incus/proxy.go:136-141 | the strings written for an SSH exposure with colon-free addresses are read back as its port and addresses |
| ProxyDevices.ParsesOnlySSH | backend/internal/networking/ssh_allocator.go:356-421 | of all printed forwardings the parser takes exactly those from a port of 22100 to 22200 to port 22, on devices of proxy or missing type |
| ProxyDevices.EndpointInjective | backend/internal/providers/incus/proxy.go:137-141 | equal endpoint strings mean equal address and port |
| ProxyDevices.IncusProxyDriver.CreateExposure | backend/internal/providers/incus/proxy.go:121-178 | the devices afterwards are what the issued commands, obeyed one by one, make of them, and as before when the command fails; every issued add or set is for the exposure's instance and device and carries its listen and connect strings; the error in every case |
| ProxyDevices.ApplyIsExact | backend/internal/providers/incus/proxy.go:121-178 | when an apply is refused, finds its device in place, or issues its one command; afterwards the device is in place, with type, endpoints and nat, if it was absent or of proxy type |
| ProxyDevices.EffectsAreCarriedOut | backend/internal/providers/incus/proxy.go:157-196 | applying and removing change the devices by their commands alone |
| ProxyDevices.TargetIs | backend/internal/providers/incus/proxy.go:73-92 | a command goes to the trimmed workload name, or to the id when that is blank, and never to a name that looks like an option |
| ProxyDevices.IncusProxyDriver.DeleteExposure | backend/internal/providers/incus/proxy.go:181-204 | the devices afterwards are what the issued removal makes of them, for the exposure's own device only; a missing one counts as removed |
| ProxyDevices.IncusProxyDriver.GetExposure | backend/internal/providers/incus/proxy.go:207-290 | active exactly when a proxy device with the expected strings is there |
| ProxyDevices.ApplyThenObserve | backend/internal/providers/incus/proxy.go:121-290 | after a successful apply on an absent or proxy device the exposure is observed active |
| ProxyDevices.SecondApplyIsSilent | backend/internal/providers/incus/proxy.go:157-160 | a second apply succeeds, issues no command and changes nothing |
| ProxyDevices.DeleteThenObserve | backend/internal/providers/incus/proxy.go:181-290 | after a successful removal every answered query says inactive and the device is gone; the query is unanswered exactly when it fails or the instance is missing |
| ProxyDevices.OtherDevicesUntouched | backend/internal/providers/incus/proxy.go:121-204 | apply and remove leave every other device of every instance as it was |
| ProxyDevices.DeviceNamesDistinct | backend/internal/providers/incus/proxy.go:67-71 | device names of different ids differ when the ids have no slashes or blanks |
| ProxyDevices.ApplyingAnotherKeepsActive | backend/internal/providers/incus/proxy.go:67-178 | when applying one exposure leaves another one active, exactly |
| ProxyDevices.ApplyingAnotherCanDeactivate | backend/internal/providers/incus/proxy.go:67-178 | two exposures with ids that differ only in a slash, and a device table, where applying the second turns the first inactive |
| ProxyDevices.AppliedDeviceIsDiscovered | backend/internal/providers/incus/proxy.go:121-178 | a device that the driver applied for an SSH port is recognised by the allocator's parser |
| ExposureManagers.ExposureManager.constructor | backend/internal/networking/exposure_manager.go:46-61 | the registry starts as what the store loads, whatever that is; it is in order if and only if every exposure is filed under its own id |
| ExposureManagers.ExposureManager.CreateNetworkExposure | backend/internal/networking/exposure_manager.go:93-157 | the new state and the error, in every case; a failed save leaves the registry as it was |
| ExposureManagers.ExposureManager.ValidateExposure | backend/internal/networking/exposure_manager.go:316-340 | acceptable if and only if the acceptance rule holds over the registry |
| ExposureManagers.ExposureManager.UpdateNetworkExposure | backend/internal/networking/exposure_manager.go:198-244 | the record is written before it is checked, and stays written; the error in every case: missing, conflict exactly when not acceptable, failed save, none |
| ExposureManagers.ExposureManager.DeleteNetworkExposure | backend/internal/networking/exposure_manager.go:247-262 | the entry is gone, its device removed, all other entries kept; the error says missing or not saved, never what the driver said |
| ExposureManagers.ExposureManager.ApplyExposure | backend/internal/networking/exposure_manager.go:272-305 | registry, file and devices after success and failure of the driver, and the error in every case |
| ExposureManagers.ExposureManager.ReconcileExposure | backend/internal/networking/exposure_manager.go:343-375 | after an answered query the exposure is applied if and only if a matching proxy device is there, unconfigured otherwise, and in sync if and only if that is the desired state; without an answer it stays, without a driver only its sync status becomes in sync; an unknown id is an error |
| ExposureManagers.ExposureManager.ReconcileAllExposures | backend/internal/networking/exposure_manager.go:396-420 | the same for every entry, each by its own device and query, in any order; without a driver nothing changes; an error only when the save fails |
| ExposureManagers.RemovalIsNoticed | backend/internal/networking/exposure_manager.go:343-375 | once its device is removed, reconciling an exposure whose query is answered finds it unconfigured, and out of sync unless that is desired, whatever was recorded; no other entry changes |
| ExposureManagers.ExposureManager.MigrateForwardingRules | backend/internal/networking/exposure_manager.go:423-445 | the registry is the migrated one, the count the number of entries added |
| ExposureManagers.ExposureManager.IsPublicPortInUse | backend/internal/networking/ssh_allocator.go:480-493 | true if and only if some exposure uses the port |
| ExposureManagers.ApplyThenReconcileInSync | backend/internal/networking/exposure_manager.go:272-375 | reconciling after a successful apply reports applied and in sync and changes nothing |
| SSHBooks.ConsistentPortsDistinct | backend/internal/networking/ssh_allocator.go:22-29 | in a consistent book live ports are in 22100 to 22200 and never shared |
| SSHBooks.LoadingIsConsistent | backend/internal/networking/ssh_allocator.go:32-56 | a file that has every record under its own workload loads into a book that saves the same file, and the book is consistent if and only if no two live records share a port and all are in the range |
| SSHBooks.SnapshotIsSound | backend/internal/networking/ssh_allocator.go:66-77 | what a consistent book saves can be loaded safely |
| SSHBooks.LowestAvailable | backend/internal/networking/ssh_allocator.go:139-156 | the lowest port neither indexed nor used by an exposure, none only if all are taken |
| SSHBooks.ExhaustedIff | backend/internal/networking/ssh_allocator.go:139-156 | allocation fails if and only if each of the 101 ports is indexed or in use |
| SSHBooks.FailedAllocateKeepsLiveView | backend/internal/networking/ssh_allocator.go:177-184 | a failed save leaves the live allocations and the port index as they were |
| SSHBooks.AllocateIdempotent | backend/internal/networking/ssh_allocator.go:134-137 | allocating again for a live workload changes nothing |
| SSHBooks.AllocateKeepsConsistent | backend/internal/networking/ssh_allocator.go:121-193 | allocation keeps the book consistent, whether or not its save succeeds |
| SSHBooks.ReleaseConsistentIff | backend/internal/networking/ssh_allocator.go:264-294 | a release keeps the book consistent if and only if it does not take the port entry of another live allocation |
| SSHBooks.UpdateConsistentIff | backend/internal/networking/ssh_allocator.go:240-261 | a status update keeps the book consistent if and only if it does not revive a record that is no longer indexed |
| SSHBooks.OneRecordChanges | backend/internal/networking/ssh_allocator.go:240-278 | a status update and a release change one record, in status and given address, in status alone; a release takes one entry out of the port index, and nothing else of either index changes |
| SSHBooks.ReserveConsistentIff | backend/internal/networking/ssh_allocator.go:80-118 | an external reservation keeps the book consistent if and only if the port is not live for somebody else |
| SSHBooks.DiscoveryKeepsConsistent | backend/internal/networking/ssh_allocator.go:298-343 | registering any list of found ports that are missing in the index keeps the book consistent |
| SSHBooks.AtMost101Live | backend/internal/networking/ssh_allocator.go:139-156 | a consistent book has at most 101 live allocations |
| SSHBooks.StepConsistentIff | backend/internal/networking/ssh_allocator.go:80-477 | one step keeps book and file sound if and only if it is harmless |
| SSHBooks.RunConsistentIff | backend/internal/networking/ssh_allocator.go:32-477 | over every run with failing saves, failing loads and restarts anywhere, every live record is the one its port entry holds, if and only if every release, update and reservation was harmless |
| SSHBooks.HarmfulReleaseReachable | backend/internal/networking/ssh_allocator.go:264-294 | a run from the empty allocator after which a second release is harmful |
| SSHBooks.HarmfulReleaseSharesPort | backend/internal/networking/ssh_allocator.go:264-294 | after a harmful release the next allocation that reaches the port shares it |
| SSHBooks.FreshPortExposureAccepted | backend/internal/workloads/manager.go:893-906 | the exposure for a freshly allocated port, with a new id and a valid address, is always accepted |
| SSHAllocators.SSHPortAllocator.constructor | backend/internal/networking/ssh_allocator.go:32-56 | the two maps after loading any file, pointing to the same records; consistent if and only if the file is sound |
| SSHAllocators.SSHPortAllocator.FindPort | backend/internal/networking/ssh_allocator.go:139-152 | the search loop finds the lowest available port, 0 when there is none |
| SSHAllocators.SSHPortAllocator.AllocatePort | backend/internal/networking/ssh_allocator.go:121-193 | result, records, both maps and file for every case: blank workload, live allocation, no port, failed save, success |
| SSHAllocators.AllocationIsStep | backend/internal/networking/ssh_allocator.go:121-193 | a call changes the book exactly as the allocation step of the runs does, with either outcome of the save, and keeps it consistent |
| SSHAllocators.GrantedRecordIs | backend/internal/networking/ssh_allocator.go:139-193 | a new grant is the lowest available port for that workload, forwarded to port 22 over TCP, without an address yet, under both maps |
| SSHAllocators.ExposureStandsForSome | backend/internal/networking/ssh_allocator.go:298-343 | the record made for a registered exposure is for some workload even where the exposure names none, active, with the exposure's ports and address |
| SSHAllocators.SSHPortAllocator.RegisterExternalPortReservation | backend/internal/networking/ssh_allocator.go:80-118 | overwrites both entries with one new record, for ports in the range only |
| SSHAllocators.SSHPortAllocator.UpdateAllocationStatus | backend/internal/networking/ssh_allocator.go:240-261 | the workload's record has the asked status, and the given address where one is given, and is otherwise the same; every other record and both maps stay; result and file in every case |
| SSHAllocators.SSHPortAllocator.ReleasePort | backend/internal/networking/ssh_allocator.go:264-294 | the record is marked released and otherwise the same, its port leaves the port index, whoever holds it; every other record and the workload map stay; a failed save is only logged |
| SSHAllocators.SSHPortAllocator.ReconcileExposures | backend/internal/networking/ssh_allocator.go:298-343 | every SSH port of an exposure is indexed afterwards, by records for exposures and missing ports only |
| SSHAllocators.SSHPortAllocator.ReconcileFromProviderInstances | backend/internal/networking/ssh_allocator.go:425-477 | every SSH proxy device of every instance has its port indexed, by records seen on devices and missing ports only |
| PlanTexts.PlanTextInjective | backend/internal/workloads/execution.go:78-89 | specifications without colons outside the image have equal texts only if equal in all nine fields |
| PlanTexts.PlanTextIdentifiesIff | backend/internal/workloads/execution.go:78-89 | a text belongs to no other specification if and only if no text field has a colon |
| PlanTexts.OwnerUnique | backend/internal/workloads/execution.go:111-136 | an instance belongs to one workload at most |
| PlanTexts.OwnedByLabels | backend/internal/workloads/execution.go:111-136 | owned if and only if the owned label says true and the id label this id, each in its long form where set and in its short form otherwise |
| PlanTexts.CreationLabelsOwn | backend/internal/workloads/manager.go:838-845 | an instance on which the two ownership labels were accepted belongs to its workload |
| PrimaryIPs.CheckDeviceMap | backend/internal/providers/incus/incus.go:922-943 | the interface table after folding in a device map, the same for every order |
| PrimaryIPs.CollectCandidates | backend/internal/providers/incus/incus.go:945-980 | exactly the usable addresses with their scores |
| PrimaryIPs.SortByPrioritySorts | backend/internal/providers/incus/incus.go:986-994 | the order sorts any candidate list and keeps its contents |
| PrimaryIPs.ExtractPrimaryIP | backend/internal/providers/incus/incus.go:920-996 | the address of a candidate that no other precedes, empty only if there is none |
| PrimaryIPs.PrimaryDetermined | backend/internal/providers/incus/incus.go:920-996 | that address is the same for every order of devices, interfaces and addresses |
| PrimaryIPs.PrimaryPrefers | backend/internal/providers/incus/incus.go:955-994 | the chosen address is on an interface connected to a network if any usable one is, else on a configured one, else on a standard name, on an inner bridge only as a last resort |
| PrimaryIPs.DockerNeverFirst | backend/internal/providers/incus/incus.go:955-994 | an unconfigured docker0 is never chosen where enp5s0 has a usable address |
| ByteSizes.ParseIncusByteSize | backend/internal/providers/incus/incus.go:1013-1076 | the loop computes the specified size, unit by unit, with every error case; fractions in due form and products beyond 2^53 are told apart as inexact |
| ByteSizes.SizesReadBack | backend/internal/providers/incus/incus.go:1013-1076 | a printed number with any of the thirteen units reads back as so many of it: KB to TB in powers of 1000, K to T and KIB to TIB of 1024 |
| ByteSizes.LimitReadsBack | backend/internal/providers/incus/incus.go:460-463 | a written limit of n megabytes reads back as n million bytes |
| ByteSizes.LimitShrinks | backend/internal/instances/reconciler.go:96-100 | that floors below n mebibytes for every n, and to zero, which is not compared, exactly for one |
| Workloads.LookupsAgree | backend/internal/workloads/manager.go:516-533 | with unique names the bulk index and the provider's lookup find the same instance |
| Workloads.BulkFindsByProviderID | backend/internal/workloads/manager.go:535-550 | the bulk pass finds an instance by the provider's id of the workload, whatever its name is now |
| Workloads.BulkEqualsSingle | backend/internal/workloads/manager.go:499-574 | bulk and single reconciliation give the same workload for every status but draft, provisioning and unknown |
| Workloads.ReconciliationReportsSight | backend/internal/instances/reconciler.go:91-110 | both passes report drift and out of sync if and only if a set desired state differs from the instance's, or both core counts are positive and differ, or both whole mebibytes, or both whole gibibytes; otherwise in sync, with the observed state; state and address are as observed |
| Workloads.ReconciliationWithoutSight | backend/internal/workloads/manager.go:1116-1179 | a workload without an instance is orphaned; an ambiguous one fails for a missing or foreign instance and settles by its own; drafts are passed over in bulk |
| Workloads.AmbiguousPassesAgreeIff | backend/internal/workloads/manager.go:499-1145 | in an ambiguous state bulk and single reconciliation report the same status if and only if the instance is owned, in sync, and running or stopped |
| Workloads.BulkIgnoresOwnership | backend/internal/workloads/manager.go:535-562 | in an ambiguous state the bulk pass reports a foreign running instance as this workload's where the single one reports a failure |
| Workloads.SingleResolvesAmbiguity | backend/internal/workloads/manager.go:1116-1179 | single reconciliation never leaves provisioning or unknown; from these it reports running only for an owned running instance, a failure exactly for a missing or foreign one; from any other status it goes by the sync decision alone, whoever owns the instance |
| Workloads.SingleIdempotent | backend/internal/workloads/manager.go:1116-1179 | against the same instance a second reconciliation changes nothing, for every status but provisioning and unknown; for these a third one changes nothing |
| Workloads.AdoptThenReconcile | backend/internal/workloads/manager.go:245-321 | reconciling an adopted, unchanged instance changes nothing, for all limits |
| Workloads.AdoptionKeepsID | backend/internal/workloads/manager.go:249-257 | an adopted instance keeps the id it carries, only one without gets a generated one; the record owns it from the start if and only if the labels say so |
| Workloads.AdoptedAsFound | backend/internal/workloads/manager.go:258-321 | an adopted record describes the instance as it is, with the stated sizes where the instance has none |
| Workloads.WrittenMemoryDriftsIff | backend/internal/instances/reconciler.go:91-110 | a provisioned workload unchanged but for its printed limit reads as drifted if and only if it has two megabytes or more |
| Workloads.PlanVerdict | backend/internal/workloads/manager.go:582-619 | an exact verdict over the known workloads decides plan validity; which other workloads exist does not matter |
| Workloads.SinglePlanValidIff | backend/internal/workloads/manager.go:582-619 | the plan of a single port is valid if and only if id, addresses, protocol and ports, filled in from the workload, are in order |
| Workloads.PlanWithoutModeValidIff | backend/internal/workloads/manager.go:588-602 | without a mode a plan is valid if and only if the workload is private or unconfigured and names no protocol |
| Workloads.RequestFillsIn | backend/internal/workloads/manager.go:604-612 | the checked request is the user's own for this workload, with its gateway and address where none is named |
| Lifecycles.PlanOrigin | backend/internal/workloads/manager.go:622-681 | in every run each plan was generated at one moment, for a registered workload, and not regenerated since |
| Lifecycles.ApprovalOrigin | backend/internal/workloads/manager.go:683-714 | each approved plan was approved after that moment by a call that was accepted, and has stood approved and valid at every moment since |
| Lifecycles.CheckOrigin | backend/internal/workloads/manager.go:716-749 | each creating call passed the check with the specification and hash it remembers |
| Lifecycles.CreateFollowsApproval | backend/internal/workloads/manager.go:716-852 | over every run with specification edits and interleaving, a creation goes back to a passed check, an accepted approval and a generation, in order, of one valid plan; the approval stood until the check, and the plan's hash is that of the specification at generation and check |
| Lifecycles.CheckedSpecIsPlannedSpec | backend/internal/workloads/execution.go:78-89 | without digest collisions and colons the checked specification is the planned one in all nine fields |
| Lifecycles.FailedAdoptionReturnsIff | backend/internal/workloads/manager.go:323-337 | after a failed tagging the workload is out of memory, and back after a restart if and only if its record stayed in the file and the file can be read |
| Lifecycles.GeneratingMeans | backend/internal/workloads/manager.go:622-681 | a new plan carries digest and validity of the specification as it is, unapproved; nothing but this workload's status, hash and plan changes |
| Lifecycles.PlanSectionsMean | backend/internal/workloads/manager.go:683-749 | an approval is accepted if and only if the plan is valid and of the specification as it is, a check is passed if and only if it is approved, of that specification and not carried out already; a changed specification costs the approval; nothing else changes |
| Lifecycles.OperationKeysDiffer | backend/internal/workloads/execution.go:92-97 | operation keys of colon-free hashes agree if and only if workload and hash do, a missing hash counting as noplan |
| Lifecycles.PoweringMeans | backend/internal/workloads/manager.go:941-1045 | which start, stop or restart is refused or needless, and what the workload wants afterwards; nothing else changes |
| Lifecycles.ApprovalRevoked | backend/internal/workloads/manager.go:700-708 | regenerating a plan or finding it out of date revokes the approval, and the next check refuses |
| OwnershipSafety.StepKeepsTidy | backend/internal/workloads/manager.go:150-1179 | every section, failed registrations and adoptions, start, stop, restart and device writes included, keeps names distinct, in memory and in the file, and what each running call has learned true |
| OwnershipSafety.ProviderCallsSafe | backend/internal/workloads/manager.go:780-813 | over every orderly run creations are asked for absent names only and deletions for owned instances only |
| OwnershipSafety.ForeignInstancesUntouchedIff | backend/internal/workloads/manager.go:323-1217 | over every orderly run a step leaves an instance that no registered workload owns unchanged if and only if it is no start, stop, restart or device write for its name, no adoption of it, successful or not, that sets labels, and no outside change to it; creations and deletions always do |
| OwnershipSafety.ForeignInstanceCanBeStopped | backend/internal/workloads/manager.go:974-1008 | for any such instance an orderly run of three steps that stops it: a draft is registered under its name and stopped |
| OwnershipSafety.CreatedIsOwned | backend/internal/workloads/manager.go:828-852 | a created instance whose ownership labels were accepted is owned by its workload |
| Surroundings.RegisteringKeepsNames | backend/internal/workloads/manager.go:158-163 | registering under an untaken name keeps managed names distinct and equal to the provider's |
| Surroundings.UndoRestoresIff | backend/internal/workloads/manager.go:323-329 | the undo of a failed registration restores the registry if and only if the id was new |
| Surroundings.TaggedIsOwnedIff | backend/internal/providers/incus/incus.go:554-583 | after a successful tagging the instance is owned, if and only if the short cut was not taken on labels the ownership test rejects |
| Surroundings.MisreadTagging | backend/internal/providers/incus/incus.go:554-583 | labels, for any instance and id, on which a tagging succeeds and leaves the instance not owned |
| Surroundings.TaggingCanBeRepeated | backend/internal/providers/incus/incus.go:554-583 | for an instance that was not tagged yet, a second tagging after any fault succeeds and leaves it owned |
| Surroundings.TaggingTouchesTwoLabels | backend/internal/providers/incus/incus.go:554-583 | whatever the fault, only the two ownership labels can change, a refused step leaves its own as it was, and success is reported exactly when no step failed |
| Surroundings.DeletionLeavesNothing | backend/internal/workloads/manager.go:1077-1093 | a deletion leaves no workload, plan, exposure or live port of the id; of the others it keeps workloads, plans, live records and every exposure not under its own ssh id; it keeps their port entries, and the book consistent, if and only if the release is harmless |
| Surroundings.DeletionCanTakeEntry | backend/internal/workloads/manager.go:1077-1093 | a run from the empty allocator after which deleting one workload takes the port entry of another live one |
| Surroundings.DeletionFreesPortIff | backend/internal/workloads/manager.go:1077-1087 | the port of the workload's record, released before or not, can be handed out again if and only if it is in the range and no remaining exposure uses it |
| Surroundings.CleaningKeepsSafe | backend/internal/workloads/manager.go:1077-1084 | the clean-up keeps the registry free of conflicts |
| Surroundings.SSHExposureIDInjective | backend/internal/workloads/manager.go:894-894 | ssh exposure ids of different workloads differ |
| Surroundings.RefreshKeepsSafe | backend/internal/workloads/manager.go:1181-1217 | a refresh keeps the registry and its file free of conflicts although it writes to a registered record directly |
| Surroundings.RefreshedEntry | backend/internal/workloads/manager.go:1195-1217 | a refreshed exposure is at the workload's address afterwards; unless it was applied there already its device is applied and its states say whether that worked; no other exposure changes |
| Surroundings.RefreshActivates | backend/internal/workloads/manager.go:1181-1217 | one refresh makes the workload's record active at its address and moves its exposure there; no other record changes; without an address or a live port nothing does |
| Surroundings.RefreshingKeepsSafe | backend/internal/workloads/manager.go:1181-1217 | so does any sequence of refreshes; the port book stays consistent and its file sound |
| WorkloadManagers.Provider.AdoptInstance | backend/internal/providers/incus/incus.go:554-583 | labels and outcome under a fault at any step; no other instance changes |
| WorkloadManagers.Manager.CreateWorkload | backend/internal/workloads/manager.go:150-217 | error cases exactly; success is registered and saved; only a failing save takes the entry out again |
| WorkloadManagers.DraftedAsAsked | backend/internal/workloads/manager.go:150-217 | a draft is what was asked for, with provider and kind filled in, wanting to run, with the digest of its own plan |
| WorkloadManagers.Manager.TagDurablyRecorded | backend/internal/workloads/manager.go:323-339 | tagging is logged with what the file holds at that moment, and demands that the record is in it |
| WorkloadManagers.Manager.AdoptWorkload | backend/internal/workloads/manager.go:219-349 | error cases exactly; success is registered, saved and tagged; any error leaves the registry without the id; the file in every case; each tagging of the history found the record in the file |
| WorkloadManagers.Manager.ValidateWorkload | backend/internal/workloads/manager.go:582-620 | valid exactly when the plan is valid, over the known workloads in any order |
| WorkloadManagers.Manager.GeneratePlan | backend/internal/workloads/manager.go:622-681 | the new plan with hash and validity, unapproved, and the planned status |
| WorkloadManagers.Manager.ApprovePlan | backend/internal/workloads/manager.go:683-714 | result and registries in every case; saved only on success |
| WorkloadManagers.Manager.CheckProvision | backend/internal/workloads/manager.go:716-749 | result and registries of the first locked section |
| WorkloadManagers.Manager.ResolveExisting | backend/internal/workloads/manager.go:780-814 | foreign, matching and differing instances under the workload's name |
| WorkloadManagers.Manager.CreateAndPublish | backend/internal/workloads/manager.go:852-938 | provider, ports, exposures, devices and files after a creation that succeeds, fails or times out; a success ends running, as the lookup saw it, with a success record, a timeout unknown with an ambiguous record, a failure failed with a failure record |
| WorkloadManagers.Manager.ProvisionWorkload | backend/internal/workloads/manager.go:716-939 | a whole call: creation only after the check passed and the lookup found nothing; a success ends running with a success record and the observed state and address, a timeout unknown and ambiguous, a failure failed; an instance found ends failed when foreign, running when owned with equal cores, drifted otherwise; no port or no capability ends failed; no other workload, plan or record changes. The port is the one held before or the lowest available, refused only when there is none to be had; a provisioned workload holds it, active at its address once it has one, a failed creation holds none, other workloads keep theirs; exposures, devices and all three files in every case; the book stays consistent under the exact condition stated |
| WorkloadManagers.NextCallAfter | backend/internal/workloads/manager.go:716-939 | after a provisioning that ended well the next call finds it done; after any other end that passed the check it may try again |
| WorkloadManagers.TimeoutIsResolved | backend/internal/workloads/manager.go:866-874 | a creation that timed out is resolved by single reconciliation: running if and only if a running instance of its own is found, failed if and only if none of its own is |
| WorkloadManagers.Manager.DeleteWorkload | backend/internal/workloads/manager.go:1047-1097 | a success removes workload, plan, exposures, port and instance, with all three files; the ports stay consistent if and only if the release is harmless; anything else removes nothing; a foreign instance that the lookup finds is refused |
| WorkloadManagers.ForeignDeletedIff | backend/internal/workloads/manager.go:1060-1075 | an instance of somebody else under the workload's name is deleted if and only if the lookup fails and the provider obeys |
| WorkloadManagers.DeletedIff | backend/internal/workloads/manager.go:1060-1075 | deleted if and only if the provider obeys and the lookup finds no foreign instance |
| WorkloadManagers.DeletionSafeIff | backend/internal/workloads/manager.go:1077-1093 | what a deletion does keeps exposures free of conflicts always, ports consistent if and only if the release is harmless, and then the file it writes sound |
| WorkloadManagers.Manager.PowerWorkload | backend/internal/workloads/manager.go:941-1045 | start, stop and restart: when refused or needless nothing changes; otherwise the command goes to the instance of that name, whoever owns it, and a success is followed by a reconciliation |
| WorkloadManagers.CommandTakesHold | backend/internal/workloads/manager.go:941-1045 | a command that takes effect and is seen leaves the workload stopped or running as commanded and in sync, drifted if and only if sizes differ or a restarted one wants something else |
| WorkloadManagers.Manager.RefreshSSHAccess | backend/internal/workloads/manager.go:1181-1230 | ports, exposures, devices and files after one refresh, from the outcomes of its saves and commands |
| WorkloadManagers.Manager.ReconcileWorkload | backend/internal/workloads/manager.go:1099-1179 | the workload is what single reconciliation reports, which `ReconciliationReportsSight` and `ReconciliationWithoutSight` spell out; one refresh follows, with the given outcomes, unless the state was ambiguous |
| WorkloadManagers.Manager.ReconcileAll | backend/internal/workloads/manager.go:499-574 | seen ports registered, then one turn of every workload in any order, reported as `ReconciliationReportsSight` spells out, each refresh with its own outcomes, then the save |
| WorkloadManagers.TurnIsOneRefresh | backend/internal/workloads/manager.go:499-574 | a turn is one refresh of the workload as reconciliation left it, none for a draft in bulk or an ambiguous one in a single pass |
| WorkloadManagers.Manager.PassEnds | backend/internal/workloads/manager.go:499-574 | at the end every workload had exactly one turn and is what bulk reconciliation makes of it, whatever the order; the network is what the refreshes of these turns make of it; a safe network is still safe |
| WorkloadManagers.ProvisioningPublishesItsPort | backend/internal/workloads/manager.go:817-906 | from the contract of a provisioning that granted a new port: the port is in the range and publishing it is never refused; the workload's ssh exposure is registered with that port and the instance's address, all others are kept, and a conflict-free registry stays so |
| WorkloadManagers.ProvisionedPortForwards | backend/internal/workloads/manager.go:885-906 | with a driver that works, the device of the granted port is in place on the workload's instance afterwards and the exposure is recorded applied |
| WorkloadManagers.PublishedOnlyWithAddress | backend/internal/workloads/manager.go:885-906 | without an address, or without success, exposures and devices stay as they were |
| WorkloadManagers.PublishedPortIsFoundAgain | backend/internal/networking/ssh_allocator.go:298-477 | the record found again from the published exposure is the one the provisioning left, and from its device the same under the instance's name |
| WorkloadManagers.ReservationIsHeld | backend/internal/workloads/manager.go:817-856 | what a provisioning leaves in the port book, in each of its outcomes: which port, who holds it with what record, what others keep, and exactly when the book stays consistent |
| WorkloadManagers.ProvisioningKeepsFile | backend/internal/workloads/manager.go:817-938 | a provisioning whose saves work leaves the port file in step with the book; book and file stay sound if and only if the provisioning is harmless, whatever saves fail |
| WorkloadManagers.PaddedProvisioningHarms | backend/internal/workloads/manager.go:817-856 | a book and an id with a leading blank for which a failed creation takes the port entry of another live workload |
| Refinement.CreatingIsPath | backend/internal/workloads/manager.go:716-939 | what the manager is proved to do when it creates is what the state machine does along check, lookup, creation and end |
| Refinement.NotCreatingIsPath | backend/internal/workloads/manager.go:716-814 | the same for the calls that end before a creation |
| Refinement.AdoptingIsPath | backend/internal/workloads/manager.go:219-349 | the same for adoption, however it ends: memory, labels and file |
| Refinement.RegisteringIsPath | backend/internal/workloads/manager.go:150-217 | the same for registration, saved or not |
| Refinement.DeletingIsPath | backend/internal/workloads/manager.go:1047-1097 | the same for deletion |
| Refinement.PoweringIsPath | backend/internal/workloads/manager.go:941-1045 | the same for start, stop and restart |

## Left out

- WorkloadManagers.Manager.ProvisionWorkload: covers a call that no other call interrupts; interleaving is in the state machine.
- WorkloadManagers.Manager.constructor: loads the registry; its methods then require that workloads are filed under their own ids, as every save writes them; the migration of stored forwarding rules and the first bulk pass that follow in the source are modelled by their own methods.
- WorkloadManagers.Manager.DeleteWorkload: the branch without an attached instance provider, which skips the provider, is not modelled; nor is it for start, stop and restart.
- OwnershipSafety.ProviderCallsSafe: assumes faithful lookups and calls on one workload that do not overlap, because the code deletes when the lookup fails and does not exclude overlapping calls; it claims nothing about starts, stops and device writes, which look at no ownership.
- PortAllocation.AllocatorEngine.CheckBasics: the contract does not list the warnings.
- Surroundings.UndoRestoresIff: an id that is registered already is overwritten and then lost, as in the code; ids are taken as given, not as fresh clock readings.
- ByteSizes.ParseIncusByteSize: sizes with a fraction in due form and products beyond 2^53, which go through floating point, are outside the exact part.
- Workloads.AdoptThenReconcile: the wrap-around of 64-bit byte counts for sizes beyond eight exbibytes is not modelled.
- SSHAccessInfo on workloads, adoption previews and listings: derived views.
- HTTP routing, JSON encoding, command line, frontend, logging, audit records, configuration: no hard property.
- Command execution, sockets, timeouts as clock time, parsing of provider output: replaced by outcome parameters.
- CPU limit syntax and storage extraction of the provider driver: the first is a list of formats, the second depends on map order.
- Services, connection profiles, roles, snapshots, and the LXC and KVM stubs: look-ups and field checks.
- SHA-256 and its truncation: the digest is an arbitrary function.
- Directory syncs after a rename: the source makes none, and a rename counts as durable here.
- The background ticker and the mutexes: each locked section is one step.
- Installer shell scripts.
