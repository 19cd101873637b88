// Managed workloads as values: adoption, reconciliation one by one and in bulk.
module Workloads {
  import opened Text
  import opened PortAllocation
  import opened Instances
  import opened PlanTexts
  import opened ByteSizes

  datatype Status =
    | DRAFT | VALIDATED | PLANNED | APPROVED | PROVISIONING | RUNNING | STOPPED | FAILED | DRIFTED | ORPHANED | UNKNOWN

  datatype Workload = Workload(
    id: string, spec: Spec, providerInstanceID: string, status: Status,
    desiredState: InstanceState, actualState: InstanceState, syncStatus: SyncStatus,
    privateIPv4: string, exposureMode: string, gatewayID: string, portRequest: PortAllocationRequest, planHash: string)

  const NO_REQUEST: PortAllocationRequest :=
    PortAllocationRequest("", "", UnknownMode(""), 0, 0, 0, 0, "", "", "", [])

  // ---------------------------------------------------------- reconciliation

  function MetadataOf(w: Workload): InstanceMetadata {
    InstanceMetadata(w.id, w.spec.name, w.desiredState, w.spec.cpu, w.spec.memoryMB * MiB, w.spec.storageGB * GiB)
  }

  function AddressAfter(w: Workload, inst: Instance): string {
    if inst.ipAddress != "" then inst.ipAddress else w.privateIPv4
  }

  function StatusAfter(before: Status, r: ReconciledInstance): Status {
    if r.syncStatus == OutOfSync then DRIFTED
    else if r.syncStatus == ProviderMissing then ORPHANED
    else if r.authoritativeState == Running then RUNNING
    else if r.authoritativeState == Stopped then STOPPED
    else before
  }

  // Single reconciliation, with recovery from an ambiguous provisioning.
  function ReconciledSingle(w: Workload, live: Option<Instance>): Workload {
    if w.status == Status.UNKNOWN || w.status == PROVISIONING then
      match live
      case None => w.(status := Status.FAILED)
      case Some(inst) =>
        if OwnedBy(inst, w.id) then
          w.(actualState := inst.state, privateIPv4 := AddressAfter(w, inst),
             status := if inst.state == Running then RUNNING else STOPPED)
        else w.(status := Status.FAILED)
    else
      var r := Reconcile(Some(MetadataOf(w)), live).value;
      w.(actualState := r.authoritativeState, syncStatus := r.syncStatus, status := StatusAfter(w.status, r),
         privateIPv4 := if live.Some? then AddressAfter(w, live.value) else w.privateIPv4)
  }

  // One turn of the bulk pass.
  function ReconciledBulk(w: Workload, live: Option<Instance>): Workload {
    if w.status == DRAFT then w
    else match live
      case None => w.(actualState := UnknownState, status := ORPHANED, syncStatus := ProviderMissing)
      case Some(inst) =>
        var r := Reconcile(Some(MetadataOf(w)), live).value;
        w.(actualState := r.authoritativeState, syncStatus := r.syncStatus, status := StatusAfter(w.status, r),
           privateIPv4 := AddressAfter(w, inst))
  }

  // The instance is not as the workload has it: another state than the desired one,
  // where there is one, or another number of cores, whole mebibytes or whole
  // gibibytes, where both numbers are positive.
  predicate Departs(w: Workload, inst: Instance) {
    || (w.desiredState != InstanceState.NoState && inst.state != w.desiredState)
    || DifferentSizes(w.spec.cpu, inst.limits.cpuCores)
    || DifferentSizes(w.spec.memoryMB, inst.limits.memoryBytes / 1_048_576)
    || DifferentSizes(w.spec.storageGB, inst.limits.diskBytes / 1_073_741_824)
  }

  predicate DifferentSizes(asked: int, found: int) { asked != found && asked >= 1 && found >= 1 }

  // What reconciliation makes of a workload whose instance is there: state and
  // address as observed, drift exactly when the instance departs from the workload,
  // and otherwise the observed state as its status where that is running or stopped.
  ghost predicate ReportsSight(w: Workload, inst: Instance, after: Workload) {
    && after == w.(status := after.status, actualState := inst.state, syncStatus := after.syncStatus, privateIPv4 := after.privateIPv4)
    && after.privateIPv4 == (if inst.ipAddress == "" then w.privateIPv4 else inst.ipAddress)
    && (after.status == DRIFTED && after.syncStatus == OutOfSync <==> Departs(w, inst))
    && (!Departs(w, inst) ==>
          after.syncStatus == InSync &&
          after.status == if inst.state == Running then RUNNING else if inst.state == Stopped then STOPPED else w.status)
  }

  // Both reconciliations report what they see, each outside the states it treats
  // specially: the single one the ambiguous states, the bulk pass drafts.
  lemma ReconciliationReportsSight(w: Workload, inst: Instance)
    ensures w.status != Status.UNKNOWN && w.status != PROVISIONING ==> ReportsSight(w, inst, ReconciledSingle(w, Some(inst)))
    ensures w.status != DRAFT ==> ReportsSight(w, inst, ReconciledBulk(w, Some(inst)))
  {
    WholeUnits(w.spec.memoryMB, inst.limits.memoryBytes, MiB);
    WholeUnits(w.spec.storageGB, inst.limits.diskBytes, GiB);
  }

  lemma WholeUnits(n: int, bytes: int, unit: int)
    requires unit > 0
    ensures TruncDiv(n * unit, unit) == n
    ensures TruncDiv(bytes, unit) >= 1 <==> bytes / unit >= 1
    ensures bytes >= 0 ==> TruncDiv(bytes, unit) == bytes / unit
  {
    if n < 0 {
      assert -(n * unit) == (-n) * unit;
    }
  }

  // An instance that is not found makes the workload orphaned, and in an ambiguous
  // state one that is not found or not its own makes it failed; its own instance
  // settles such a state by whether it runs.
  lemma ReconciliationWithoutSight(w: Workload, live: Option<Instance>)
    ensures var orphaned := w.(actualState := UnknownState, status := ORPHANED, syncStatus := ProviderMissing);
            (w.status != DRAFT ==> ReconciledBulk(w, None) == orphaned) &&
            (w.status != Status.UNKNOWN && w.status != PROVISIONING ==> ReconciledSingle(w, None) == orphaned)
    ensures ReconciledBulk(w.(status := DRAFT), live) == w.(status := DRAFT)
    ensures w.status == Status.UNKNOWN || w.status == PROVISIONING ==>
              var after := ReconciledSingle(w, live);
              && after == w.(status := after.status, actualState := after.actualState, privateIPv4 := after.privateIPv4)
              && (if live.None? || !OwnedBy(live.value, w.id) then after == w.(status := Status.FAILED)
                  else after.actualState == live.value.state &&
                       (after.status == if live.value.state == Running then RUNNING else STOPPED) &&
                       (after.privateIPv4 == if live.value.ipAddress == "" then w.privateIPv4 else live.value.ipAddress))
  {
  }

  // The provider's lookup: the first instance with that id or name.
  function GetInstance(list: seq<Instance>, idOrName: string): Option<Instance> {
    if list == [] then None
    else if list[0].id == idOrName || list[0].name == idOrName then Some(list[0])
    else GetInstance(list[1..], idOrName)
  }

  // The bulk pass looks workloads up in an index by name, later entries winning.
  function NameIndex(list: seq<Instance>): map<string, Instance> {
    if list == [] then map[] else NameIndex(list[..|list| - 1])[list[|list| - 1].name := list[|list| - 1]]
  }

  function IndexName(w: Workload): string { if w.providerInstanceID == "" then w.spec.name else w.providerInstanceID }

  function Lookup<T>(index: map<string, T>, name: string): Option<T> {
    if name in index then Some(index[name]) else None
  }

  ghost predicate UniqueNames(list: seq<Instance>) {
    (forall i :: 0 <= i < |list| ==> list[i].id == list[i].name) &&
    forall i, j :: 0 <= i < j < |list| ==> list[i].name != list[j].name
  }

  lemma {:induction false} GetInstanceFinds(list: seq<Instance>, name: string)
    requires UniqueNames(list)
    ensures GetInstance(list, name).None? ==> forall i :: 0 <= i < |list| ==> list[i].name != name
    ensures GetInstance(list, name).Some? ==> exists i :: 0 <= i < |list| && list[i].name == name && GetInstance(list, name).value == list[i]
  {
    if list != [] && list[0].name != name {
      GetInstanceFinds(list[1..], name);
      if GetInstance(list, name).Some? {
        var i :| 0 <= i < |list[1..]| && list[1..][i].name == name && GetInstance(list[1..], name).value == list[1..][i];
        assert list[i + 1] == list[1..][i];
      } else {
        assert forall i :: 1 <= i < |list| ==> list[i] == list[1..][i - 1];
      }
    }
  }

  lemma {:induction false} NameIndexFinds(list: seq<Instance>, name: string)
    requires UniqueNames(list)
    ensures name !in NameIndex(list) ==> forall i :: 0 <= i < |list| ==> list[i].name != name
    ensures name in NameIndex(list) ==> exists i :: 0 <= i < |list| && list[i].name == name && NameIndex(list)[name] == list[i]
  {
    if list != [] && list[|list| - 1].name != name {
      NameIndexFinds(list[..|list| - 1], name);
    }
  }

  // With unique names both lookups find the same instance.
  lemma LookupsAgree(list: seq<Instance>, w: Workload)
    requires UniqueNames(list) && IndexName(w) == w.spec.name
    ensures Lookup(NameIndex(list), IndexName(w)) == GetInstance(list, w.spec.name)
  {
    GetInstanceFinds(list, w.spec.name);
    NameIndexFinds(list, w.spec.name);
  }

  // The bulk pass finds a workload's instance by the provider's id of it, where it
  // has one, whatever the workload is called now.
  lemma BulkFindsByProviderID(list: seq<Instance>, w: Workload)
    requires UniqueNames(list) && w.providerInstanceID != ""
    ensures var found := Lookup(NameIndex(list), IndexName(w));
            (found.None? ==> forall i :: 0 <= i < |list| ==> list[i].name != w.providerInstanceID) &&
            (found.Some? ==> found.value in list && found.value.name == w.providerInstanceID)
  {
    NameIndexFinds(list, w.providerInstanceID);
  }

  // Bulk and single reconciliation give the same workload when it is neither a
  // draft nor in an ambiguous state.
  lemma BulkEqualsSingle(list: seq<Instance>, w: Workload)
    requires UniqueNames(list) && IndexName(w) == w.spec.name
    requires w.status != DRAFT && w.status != PROVISIONING && w.status != Status.UNKNOWN
    ensures ReconciledBulk(w, Lookup(NameIndex(list), IndexName(w))) == ReconciledSingle(w, GetInstance(list, w.spec.name))
  {
    LookupsAgree(list, w);
  }

  // In an ambiguous state the two passes report the same status exactly for an
  // instance of the workload's own that runs or is stopped and has not drifted.
  lemma AmbiguousPassesAgreeIff(w: Workload, live: Option<Instance>)
    requires w.status == Status.UNKNOWN || w.status == PROVISIONING
    ensures ReconciledBulk(w, live).status == ReconciledSingle(w, live).status <==>
              (live.Some? && OwnedBy(live.value, w.id) && Compare(MetadataOf(w), live.value) == InSync &&
               (live.value.state == Running || live.value.state == Stopped))
  {
  }

  // In particular the bulk pass does not look at ownership:
  // it reports a foreign running instance as this workload running or
  // drifted where single reconciliation reports a failure.
  lemma BulkIgnoresOwnership(w: Workload, inst: Instance)
    requires w.status == Status.UNKNOWN || w.status == PROVISIONING
    requires !OwnedBy(inst, w.id) && inst.state == Running
    ensures ReconciledBulk(w, Some(inst)).status in {RUNNING, DRIFTED}
    ensures ReconciledSingle(w, Some(inst)).status == Status.FAILED
  {
  }

  // Single reconciliation always resolves an ambiguous state; it reports the
  // workload alive only for an instance of its own.
  lemma SingleResolvesAmbiguity(w: Workload, live: Option<Instance>)
    ensures ReconciledSingle(w, live).status != PROVISIONING && ReconciledSingle(w, live).status != Status.UNKNOWN
    // in an ambiguous state, alive only for an instance of its own
    ensures w.status == Status.UNKNOWN || w.status == PROVISIONING ==>
              (ReconciledSingle(w, live).status == Status.FAILED <==> live.None? || !OwnedBy(live.value, w.id)) &&
              (ReconciledSingle(w, live).status == RUNNING <==>
                 live.Some? && OwnedBy(live.value, w.id) && live.value.state == Running)
    // in every other state, by the sync decision alone, whoever owns the instance
    ensures w.status != Status.UNKNOWN && w.status != PROVISIONING ==>
              (ReconciledSingle(w, live).status == RUNNING <==>
                 live.Some? && Compare(MetadataOf(w), live.value) == InSync &&
                 (live.value.state == Running || (live.value.state != Stopped && w.status == RUNNING)))
  {
  }

  // Reconciling against the same instance settles: at once when the state was
  // not ambiguous, and after the one further turn that then follows the
  // resolution of an ambiguous one.
  lemma SingleIdempotent(w: Workload, live: Option<Instance>)
    ensures var once := ReconciledSingle(w, live);
            var twice := ReconciledSingle(once, live);
            ReconciledSingle(twice, live) == twice &&
            (w.status != Status.UNKNOWN && w.status != PROVISIONING ==> twice == once)
  {
    SingleResolvesAmbiguity(w, live);
    if w.status != Status.UNKNOWN && w.status != PROVISIONING {
      SettledIsStable(w, live);
    }
    SettledIsStable(ReconciledSingle(w, live), live);
  }

  lemma SettledIsStable(w: Workload, live: Option<Instance>)
    requires w.status != Status.UNKNOWN && w.status != PROVISIONING
    ensures ReconciledSingle(ReconciledSingle(w, live), live) == ReconciledSingle(w, live)
  {
    SingleResolvesAmbiguity(w, live);
  }

  // ---------------------------------------------------------------- adoption

  function AdoptionID(inst: Instance, generated: string): string {
    if inst.labels.Some? && Property(inst.labels.value, "user.mystic.workload_id") != ""
    then Property(inst.labels.value, "user.mystic.workload_id")
    else if inst.labels.Some? && Property(inst.labels.value, "mystic.workload_id") != ""
    then Property(inst.labels.value, "mystic.workload_id")
    else generated
  }

  // The id that an adopted instance carries is kept, whether or not it was marked as
  // owned; only an instance without one gets the generated id. So the record owns
  // the instance from the start exactly when its labels say so.
  lemma AdoptionKeepsID(inst: Instance, generated: string)
    requires generated != ""
    ensures var labelled := inst.labels.Some? && WorkloadLabel(inst.labels.value) != "";
            AdoptionID(inst, generated) == (if labelled then WorkloadLabel(inst.labels.value) else generated) &&
            (OwnedBy(inst, AdoptionID(inst, generated)) <==> labelled && OwnedLabel(inst.labels.value) == "true")
  {
  }

  function AdoptedFrom(inst: Instance, id: string, provider: string, digest: string -> string): Workload {
    var memory, storage := TruncDiv(inst.limits.memoryBytes, MiB), TruncDiv(inst.limits.diskBytes, GiB);
    var spec := Spec(
      inst.name, provider, if inst.isVM then "INCUS_VM" else "INCUS_CONTAINER",
      if inst.labels.Some? && Property(inst.labels.value, "image") != "" then inst.labels.value["image"] else "adopted-external",
      if inst.limits.cpuCores <= 0 then 1 else inst.limits.cpuCores,
      if memory <= 0 then 512 else memory,
      if storage <= 0 then 10 else storage,
      "host-local", "incusbr0");
    Workload(id, spec, inst.name,
             if inst.state == Running then RUNNING else if inst.state == Error then Status.FAILED else STOPPED,
             inst.state, inst.state, InSync, inst.ipAddress, "PRIVATE_ONLY", "", NO_REQUEST, digest(PlanText(spec)))
  }

  // Reconciling a just adopted, unchanged instance changes nothing at all: it
  // is in sync whatever its limits, including absent and fractional ones.
  lemma AdoptThenReconcile(inst: Instance, id: string, provider: string, digest: string -> string)
    ensures ReconciledSingle(AdoptedFrom(inst, id, provider, digest), Some(inst)) == AdoptedFrom(inst, id, provider, digest)
    ensures AdoptedFrom(inst, id, provider, digest).syncStatus == InSync
  {
    var w := AdoptedFrom(inst, id, provider, digest);
    MebibytesSurvive(w.spec.memoryMB, MiB);
    MebibytesSurvive(w.spec.storageGB, GiB);
  }

  // An adopted record describes the instance as it is, with a core, 512 MB and 10 GB
  // where the instance has no limit of at least one unit.
  lemma AdoptedAsFound(inst: Instance, id: string, provider: string, digest: string -> string)
    ensures var w := AdoptedFrom(inst, id, provider, digest);
            && w.id == id && w.spec.name == w.providerInstanceID == inst.name && w.spec.provider == provider
            && w.actualState == w.desiredState == inst.state && w.privateIPv4 == inst.ipAddress
            && w.spec.cpu == (if inst.limits.cpuCores >= 1 then inst.limits.cpuCores else 1)
            && w.spec.memoryMB == (if inst.limits.memoryBytes >= 1_048_576 then inst.limits.memoryBytes / 1_048_576 else 512)
            && w.spec.storageGB == (if inst.limits.diskBytes >= 1_073_741_824 then inst.limits.diskBytes / 1_073_741_824 else 10)
            && w.spec.kind == (if inst.isVM then "INCUS_VM" else "INCUS_CONTAINER")
            && w.spec.image == (if inst.labels.Some? && Property(inst.labels.value, "image") != ""
                                then Property(inst.labels.value, "image") else "adopted-external")
            && (w.status == RUNNING <==> inst.state == Running) && (w.status == Status.FAILED <==> inst.state == Error)
            && (w.status == STOPPED <==> inst.state != Running && inst.state != Error)
            && w.planHash == digest(PlanText(w.spec))
  {
  }

  lemma MebibytesSurvive(n: int, unit: int)
    requires n >= 0 && unit > 0
    ensures TruncDiv(n * unit, unit) == n
  {
  }

  // The memory limit written on creation never reads back as the requested
  // size: reconciling a provisioned workload that changed in nothing else
  // reports drift exactly from two megabytes up.
  lemma WrittenMemoryDriftsIff(w: Workload, inst: Instance, n: nat)
    requires w.spec.memoryMB == n >= 1 && n * 1_000_000 <= EXACT_LIMIT
    requires inst.limits.memoryBytes >= 0 && ParseByteSize(LimitString(n)) == Bytes(inst.limits.memoryBytes)
    requires w.desiredState == inst.state == Running && w.status == RUNNING
    requires inst.limits.cpuCores == w.spec.cpu && inst.limits.diskBytes == 0
    ensures ReconciledSingle(w, Some(inst)).status == (if n >= 2 then DRIFTED else RUNNING)
  {
    LimitReadsBack(n);
    LimitShrinks(n);
    MebibytesSurvive(n, MiB);
  }

  // -------------------------------------------------------------- plan checks

  predicate NeedsNoPorts(w: Workload) {
    w.portRequest.protocol == "" && w.portRequest.mode == UnknownMode("") &&
    (w.exposureMode == "PRIVATE_ONLY" || w.exposureMode == "UNCONFIGURED")
  }

  function RequestOf(w: Workload): PortAllocationRequest {
    w.portRequest.(
      workloadID := w.id,
      gatewayID := if w.portRequest.gatewayID == "" then w.gatewayID else w.portRequest.gatewayID,
      destinationIP := if w.portRequest.destinationIP == "" then w.privateIPv4 else w.portRequest.destinationIP)
  }

  // The request that a plan is checked for is the user's own for this workload, with
  // the workload's gateway and address where it names none.
  lemma RequestFillsIn(w: Workload)
    ensures var asked, r := w.portRequest, RequestOf(w);
            && r == asked.(workloadID := w.id, gatewayID := r.gatewayID, destinationIP := r.destinationIP)
            && r.gatewayID == (if asked.gatewayID != "" then asked.gatewayID else w.gatewayID)
            && r.destinationIP == (if asked.destinationIP != "" then asked.destinationIP else w.privateIPv4)
  {
  }

  function NetworkConfigOf(w: Workload): WorkloadNetworkConfig { WorkloadNetworkConfig(w.id, w.id, w.privateIPv4) }

  // Whether a plan for the workload is valid; no other workload matters.
  ghost predicate PlanValid(engine: AllocatorEngine, w: Workload) {
    NeedsNoPorts(w) ||
    exists ms: seq<PortMapping> :: engine.Admissible(RequestOf(w), [], [], [], None, ms)
  }

  // Without a mode a plan is valid exactly for a private or unconfigured workload that
  // names no protocol either.
  lemma PlanWithoutModeValidIff(engine: AllocatorEngine, w: Workload)
    requires w.portRequest.mode.UnknownMode?
    ensures PlanValid(engine, w) <==>
              w.portRequest.mode.name == "" && w.portRequest.protocol == "" && w.exposureMode in ["PRIVATE_ONLY", "UNCONFIGURED"]
  {
  }

  // A single port is planned validly exactly when its fields, filled in from the
  // workload, are in order; what other workloads ask for does not matter.
  lemma SinglePlanValidIff(engine: AllocatorEngine, w: Workload)
    requires w.portRequest.mode.SINGLE?
    ensures var asked := w.portRequest;
            var destination := if asked.destinationIP != "" then asked.destinationIP else w.privateIPv4;
            PlanValid(engine, w) <==>
              && TrimSpace(w.id) != "" && TrimSpace(destination) != "" && engine.validIP(destination)
              && (asked.publicIP == "" || engine.validIP(asked.publicIP)) && Transports(asked.protocol) != {}
              && 1 <= asked.externalStartPort <= 65535 && 1 <= asked.internalStartPort <= 65535
  {
    var r := RequestOf(w);
    var ms := [PortMapping(r.externalStartPort, r.internalStartPort, r.protocol, r.publicIP, r.destinationIP)];
    assert OverTCP in Transports(TCP) && OverUDP in Transports(UDP) && OverTCP in Transports(TCP_UDP);
    assert !AnyClash(r.gatewayID, [], ms);
    if engine.BasicsHold(r, [], []) && PortInRange(r.externalStartPort) && PortInRange(r.internalStartPort) {
      assert engine.Admissible(r, [], [], [], None, ms);
    }
  }

  // The list of known workloads contains the workload itself, so the existence
  // check of the engine never adds anything.
  lemma KnownWorkloadsIrrelevant(engine: AllocatorEngine, w: Workload, known: seq<WorkloadNetworkConfig>, ms: seq<PortMapping>)
    requires NetworkConfigOf(w) in known
    ensures engine.Admissible(RequestOf(w), [], known, [], None, ms) <==>
            engine.Admissible(RequestOf(w), [], [], [], None, ms)
  {
    var k :| 0 <= k < |known| && known[k] == NetworkConfigOf(w);
    assert WorkloadKnown(w.id, known);
  }

  // An exact verdict over the known workloads decides the validity of the plan.
  lemma PlanVerdict(engine: AllocatorEngine, w: Workload, known: seq<WorkloadNetworkConfig>, valid: bool, ms: seq<PortMapping>)
    requires NetworkConfigOf(w) in known && !NeedsNoPorts(w)
    requires valid ==> engine.Admissible(RequestOf(w), [], known, [], None, ms)
    requires forall other :: engine.Admissible(RequestOf(w), [], known, [], None, other) ==> valid
    ensures valid <==> PlanValid(engine, w)
  {
    if valid {
      KnownWorkloadsIrrelevant(engine, w, known, ms);
    } else if other :| engine.Admissible(RequestOf(w), [], [], [], None, other) {
      KnownWorkloadsIrrelevant(engine, w, known, other);
    }
  }
}
