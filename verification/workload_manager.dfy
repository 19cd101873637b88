// The workload manager: registered workloads and plans, edited in place between
// provider calls and saves. A call that the source splits into locked sections
// is split the same way here; each section is proved against the function that
// the lifecycle machine uses for it.
module WorkloadManagers {
  import opened Text
  import opened PortAllocation
  import opened Instances
  import opened SnapshotFiles
  import opened PlanTexts
  import opened Workloads
  import opened Lifecycles
  import opened Exposures
  import opened ProxyDevices
  import opened ExposureManagers
  import opened SSHBooks
  import opened SSHAllocators
  import opened Surroundings

  // The struct that the workload map points to.
  class WorkloadRecord {
    var data: Workload

    constructor (w: Workload)
      ensures data == w
    {
      data := w;
    }
  }

  class ProvisioningPlan {
    const workloadID: string
    var data: Plan

    constructor (workloadID: string, p: Plan)
      ensures this.workloadID == workloadID && data == p
    {
      this.workloadID, data := workloadID, p;
    }
  }

  // The records of finished operations.
  class ExecutionGuard {
    var records: map<string, OperationResult>

    constructor ()
      ensures records == map[]
    {
      records := map[];
    }

    method RecordOperation(key: string, result: OperationResult)
      modifies this
      ensures records == old(records)[key := result]
    {
      records := records[key := result];
    }
  }

  // The instances behind the provider. How each command turns out is a parameter.
  class Provider {
    var instances: map<string, Instance>

    ghost predicate Valid()
      reads this
    {
      forall n :: n in instances ==> instances[n].name == n
    }

    constructor ()
      ensures Valid() && instances == map[]
    {
      instances := map[];
    }

    // A lookup may also go unanswered, which callers take for an absent instance.
    function GetInstance(name: string, answers: bool): Option<Instance>
      reads this
    {
      if answers then Lookup(instances, name) else None
    }

    // made is the instance as the launch leaves it.
    method CreateInstance(made: Instance, outcome: CreateOutcome) returns (ok: bool)
      requires Valid()
      modifies this
      ensures Valid()
      ensures ok <==> outcome.Created? && made.name !in old(instances)
      ensures instances == if made.name !in old(instances) && (outcome.Created? || outcome.made)
                           then old(instances)[made.name := made] else old(instances)
    {
      if made.name in instances {
        return false;
      }
      if outcome.Created? || outcome.made {
        instances := instances[made.name := made];
      }
      return outcome.Created?;
    }

    method StartInstance(name: string, state: InstanceState, address: string)
      requires Valid()
      modifies this
      ensures Valid()
      ensures instances == if name in old(instances)
                           then old(instances)[name := old(instances)[name].(state := state, ipAddress := address)]
                           else old(instances)
    {
      if name in instances {
        instances := instances[name := instances[name].(state := state, ipAddress := address)];
      }
    }

    // Starts, stops or restarts, whatever is then reported.
    method PowerInstance(name: string, power: Power, obeyed: bool, address: string)
      requires Valid()
      modifies this
      ensures Valid()
      ensures instances == if obeyed && name in old(instances)
                           then old(instances)[name := Powered(old(instances)[name], power, address)] else old(instances)
    {
      if obeyed && name in instances {
        instances := instances[name := Powered(instances[name], power, address)];
      }
    }

    method DeleteInstance(name: string, obeys: bool) returns (ok: bool)
      requires Valid()
      modifies this
      ensures Valid() && ok == obeys
      ensures instances == if ok then old(instances) - {name} else old(instances)
    {
      if obeys {
        instances := instances - {name};
      }
      return obeys;
    }

    // Sets the two ownership labels one after the other.
    method AdoptInstance(name: string, workloadID: string, fault: TagFault) returns (ok: bool)
      requires Valid()
      modifies this
      ensures Valid()
      ensures name !in old(instances) ==> !ok && instances == old(instances)
      ensures name in old(instances) ==>
                var effect := Tagging(old(instances)[name], workloadID, fault);
                ok == effect.ok && instances == old(instances)[name := effect.instance]
    {
      if fault == Unreachable || name !in instances {
        assert name in instances ==> instances == instances[name := instances[name]];
        return false;
      }
      if AlreadyTagged(instances[name], workloadID) {
        assert instances == instances[name := instances[name]];
        return true;
      }
      if fault == OwnedRefused {
        assert instances == instances[name := instances[name]];
        return false;
      }
      instances := instances[name := WithLabel(instances[name], "user.mystic.owned", "true")];
      if workloadID != "" {
        if fault == IdRefused {
          return false;
        }
        instances := instances[name := WithLabel(instances[name], "user.mystic.workload_id", workloadID)];
      }
      return fault != RereadFailed;
    }
  }

  // What a user asks for.
  datatype Request = Request(
    spec: Spec, privateIP: string, exposureMode: string, gatewayID: string, portRequest: PortAllocationRequest)

  function Drafted(r: Request, id: string, digest: string -> string): Workload {
    var spec := r.spec.(provider := if r.spec.provider == "" then "incus" else r.spec.provider,
                        kind := if r.spec.kind == "" then "INCUS_CONTAINER" else r.spec.kind);
    Workload(id, spec, spec.name, DRAFT, Running, UnknownState, ProviderMissing, r.privateIP, r.exposureMode,
             r.gatewayID, r.portRequest, digest(PlanText(spec)))
  }

  // A draft is what was asked for, on Incus and as a container where that was left
  // open; it wants to run, is not at the provider yet and has the digest of its plan.
  lemma DraftedAsAsked(r: Request, id: string, digest: string -> string)
    ensures var w := Drafted(r, id, digest);
            && w.id == id && w.status == DRAFT && w.desiredState == Running && w.syncStatus == ProviderMissing
            && w.spec == r.spec.(provider := w.spec.provider, kind := w.spec.kind)
            && (if r.spec.provider == "" then w.spec.provider == "incus" else w.spec.provider == r.spec.provider)
            && (if r.spec.kind == "" then w.spec.kind == "INCUS_CONTAINER" else w.spec.kind == r.spec.kind)
            && w.providerInstanceID == r.spec.name && w.planHash == digest(PlanText(w.spec))
            && w.privateIPv4 == r.privateIP && w.gatewayID == r.gatewayID && w.portRequest == r.portRequest
            && w.exposureMode == r.exposureMode
  {
  }

  datatype RegisterResult =
    | Registered(record: WorkloadRecord)
    | EmptyName
    | NameInUse
    | NotAtProvider
    | RegistryNotSaved
    | TaggingFailed

  type Registrations = map<string, Workload>

  ghost predicate IdsAreKeys(ws: Registrations) { forall k :: k in ws ==> ws[k].id == k }

  // answers: the lookup succeeds; last: the save that follows the tagging.
  datatype AdoptFaults = AdoptFaults(answers: bool, first: Fault, tag: TagFault, last: Fault) {
    predicate Possible() {
      first.Possible() && !first.StopsBefore? && last.Possible() && !last.StopsBefore?
    }
  }

  // How a start, stop or restart turns out: obeyed: it takes effect; reported: as
  // a success; answers: the lookup of the reconciliation that then follows succeeds.
  datatype PowerFaults = PowerFaults(
    obeyed: bool, reported: bool, address: string, answers: bool, publish: PublishFaults, last: Fault)
  {
    predicate Possible() { publish.Possible() && last.Possible() && !last.StopsBefore? }
  }

  // A tagging, with what the registry's file holds at that moment.
  datatype TagRequest = TagRequest(name: string, id: string, file: Content<Registrations>) {
    ghost predicate Recorded() { file.Whole? && id in file.value && file.value[id].providerInstanceID == name }
  }

  // Why an adoption is refused before anything is done.
  ghost function AdoptionRefusal(ws: Registrations, instances: map<string, Instance>, name: string, answers: bool): Option<RegisterResult> {
    if name == "" then Some(EmptyName)
    else if Managed(ws, name) then Some(NameInUse)
    else if name !in instances || !answers then Some(NotAtProvider)
    else None
  }

  // An adoption of the instance called name as w, from the first save on. The
  // file holds the record before the instance is tagged; only a failing last save
  // leaves it there after a failed tagging.
  ghost predicate AdoptedAs(
    before: Registrations, after: Registrations, held: map<string, Instance>, holds: map<string, Instance>,
    stored: Content<Registrations>, stores: Content<Registrations>, asked: seq<TagRequest>, asks: seq<TagRequest>,
    name: string, w: Workload, faults: AdoptFaults, result: RegisterResult)
    requires name in held
  {
    var effect, recorded := Tagging(held[name], w.id, faults.tag), Whole(before[w.id := w]);
    && (result.RegistryNotSaved? <==> faults.first != NoFault)
    && (result.TaggingFailed? <==> faults.first == NoFault && !effect.ok)
    && after == (if result.Registered? then before[w.id := w] else before - {w.id})
    && holds == (if result.RegistryNotSaved? then held else held[name := effect.instance])
    && asks == (if result.RegistryNotSaved? then asked else asked + [TagRequest(name, w.id, recorded)])
    && stores == if result.RegistryNotSaved? then stored
                 else if result.Registered? || faults.last == NoFault then Whole(after) else recorded
  }

  // A command changes at most the instance of that name.
  predicate PoweredAs(before: map<string, Instance>, after: map<string, Instance>, name: string, power: Power, faults: PowerFaults) {
    after == if faults.obeyed && name in before then before[name := Powered(before[name], power, faults.address)] else before
  }

  // What the reconciliation after a command makes of the workload.
  function AfterCommand(w: Workload, instances: map<string, Instance>, faults: PowerFaults): Workload {
    ReconciledSingle(w, if faults.answers then Lookup(instances, w.spec.name) else None)
  }

  // A command that takes effect and is seen leaves the workload as commanded: it is
  // in sync then, unless its sizes differ or it was restarted and wants to be stopped.
  lemma CommandTakesHold(
    w: Workload, held: map<string, Instance>, holds: map<string, Instance>, power: Power, faults: PowerFaults)
    requires w.status != Status.UNKNOWN && w.status != Status.PROVISIONING && w.spec.name in held
    requires PoweredAs(held, holds, w.spec.name, power, faults) && faults.obeyed && faults.answers
    ensures var after := AfterCommand(Ordered(w, power), holds, faults);
            var fits := SameSizes(w, held[w.spec.name]) && (power == PowerCycle ==> w.desiredState in {InstanceState.NoState, Running});
            && after.actualState == (if power == PowerOff then Stopped else Running)
            && after.desiredState == (if power == PowerOff then Stopped else if power == PowerOn then Running else w.desiredState)
            && (after.status == DRIFTED && after.syncStatus == OutOfSync <==> !fits)
            && (fits ==> after.syncStatus == InSync && after.status == if power == PowerOff then STOPPED else RUNNING)
  {
    ReconciliationReportsSight(Ordered(w, power), holds[w.spec.name]);
  }

  predicate SameSizes(w: Workload, inst: Instance) {
    && !DifferentSizes(w.spec.cpu, inst.limits.cpuCores)
    && !DifferentSizes(w.spec.memoryMB, inst.limits.memoryBytes / 1_048_576)
    && !DifferentSizes(w.spec.storageGB, inst.limits.diskBytes / 1_073_741_824)
  }

  // The refresh that follows a command.
  function PowerTurn(w: Workload, after: Option<Workload>, faults: PowerFaults): seq<Refresh> {
    if after.Some? then SingleTurn(w, after.value, faults.publish) else []
  }

  // The workload w after the command and, when it was reported as a success, the
  // reconciliation.
  predicate CommandedAs(
    before: Registrations, after: Registrations, held: map<string, Instance>, holds: map<string, Instance>, w: Workload,
    power: Power, faults: PowerFaults, reconciled: Option<Workload>)
  {
    && PoweredAs(held, holds, w.spec.name, power, faults)
    && reconciled == (if faults.reported then Some(AfterCommand(w, holds, faults)) else None)
    && after == before[w.id := if reconciled.Some? then reconciled.value else w]
  }

  lemma CommandedSince(
    start: Registrations, before: Registrations, after: Registrations, held: map<string, Instance>, holds: map<string, Instance>,
    w: Workload, power: Power, faults: PowerFaults, reconciled: Option<Workload>)
    requires before == start[w.id := w] && CommandedAs(before, after, held, holds, w, power, faults, reconciled)
    ensures CommandedAs(start, after, held, holds, w, power, faults, reconciled)
  {
  }

  datatype DeleteResult = NoSuchWorkload | OwnershipConflict | ProviderFailed | Deleted

  // answers: the lookup succeeds; obeys: the provider carries out the deletion.
  datatype DeleteFaults = DeleteFaults(
    answers: bool, obeys: bool, links: Links, saves: string -> Fault, release: Fault, last: Fault)
  {
    ghost predicate Possible() {
      SavesPossible(saves) &&
      release.Possible() && !release.StopsBefore? && last.Possible() && !last.StopsBefore?
    }
  }

  ghost predicate SavesPossible(saves: string -> Fault) { forall k :: saves(k).Possible() && !saves(k).StopsBefore? }

  ghost predicate AllSaved(saves: string -> Fault) { forall k :: saves(k) == NoFault }

  datatype ProvisionResult =
    | NotCleared(check: CheckResult)
    | Incapable
    | Resolved(ok: bool)
    | NoPort
    | CreationFailed
    | Provisioned

  // Each workload's turn of a pass has outcomes of its own.
  ghost predicate EachPossible(faults: string -> PublishFaults) { forall k :: faults(k).Possible() }

  // How everything outside behaves during one provisioning. launched is the
  // instance as a launch leaves it; state and address are what it has after the
  // start; seen: the lookup after the start is answered.
  datatype ProvisionFaults = ProvisionFaults(
    capable: bool, answers: bool, reserve: Fault, launched: Instance, creation: CreateOutcome, release: Fault,
    state: InstanceState, address: string, seen: bool, publish: PublishFaults, last: Fault)
  {
    predicate Possible() {
      reserve.Possible() && !reserve.StopsBefore? && release.Possible() && !release.StopsBefore? &&
      publish.Possible() && last.Possible() && !last.StopsBefore?
    }
  }

  // What a launch does at the provider: nothing when the name is taken; nothing
  // to any other instance; live is what the lookup after the start finds.
  ghost predicate LaunchedAs(
    before: map<string, Instance>, after: map<string, Instance>, name: string, faults: ProvisionFaults, ok: bool,
    live: Option<Instance>)
  {
    var launched := faults.launched.(name := name);
    && (ok <==> faults.creation.Created? && name !in before)
    && after == (if name in before then before
                 else if ok then before[name := launched.(state := faults.state, ipAddress := faults.address)]
                 else if faults.creation.made then before[name := launched]
                 else before)
    && live == (if ok && faults.seen then Some(after[name]) else None)
  }

  predicate TimedOut(faults: ProvisionFaults) { faults.creation.CreateFailed? && faults.creation.timedOut }

  // The registries after a provisioning that has passed the check: found is what
  // the lookup before the creation said, live what the one after the start said.
  function AfterResult(
    c: Core, id: string, hash: string, result: ProvisionResult, found: Option<Instance>, timedOut: bool, live: Option<Instance>): Core
  {
    if result.Resolved? then AfterLookup(c, id, hash, found)
    else if result.CreationFailed? then AfterFailedCreate(c, id, hash, timedOut)
    else if result.Provisioned? then AfterFinish(c, id, hash, live)
    else WithStatus(c, id, Status.FAILED)
  }

  // How a provisioning that has passed the check ends, told from the state before it:
  // the workload's status, observed state and address, and the record of the
  // operation. Nothing else changes, and no plan does.
  ghost predicate EndsAs(
    before: Core, after: Core, id: string, hash: string, result: ProvisionResult, found: Option<Instance>, timedOut: bool,
    live: Option<Instance>)
    requires id in before.workloads && (result.Resolved? ==> found.Some?)
  {
    var w, key := before.workloads[id], OperationKey(id, hash);
    && OthersAsBefore(before, after, id, key)
    && var end := after.workloads[id];
       end == w.(status := end.status, actualState := end.actualState, privateIPv4 := end.privateIPv4) &&
       match result
       case Provisioned =>
         && end.status == RUNNING && RecordedAs(after, key, SUCCESS)
         && end.actualState == (if live.Some? then live.value.state else Running)
         && end.privateIPv4 == (if HasAddress(live) then live.value.ipAddress else w.privateIPv4)
       case CreationFailed =>
         && (end.status == Status.UNKNOWN <==> timedOut) && (end.status == Status.FAILED <==> !timedOut)
         && (RecordedAs(after, key, AMBIGUOUS) <==> timedOut) && (RecordedAs(after, key, FAILURE) <==> !timedOut)
         && end.actualState == w.actualState && end.privateIPv4 == w.privateIPv4
       case Resolved(_) =>
         var inst := found.value;
         && end.privateIPv4 == w.privateIPv4
         && (if OwnedAndEqual(inst, w)
             then end.status == RUNNING && end.actualState == inst.state && RecordedAs(after, key, SUCCESS)
             else end.status == (if OwnedBy(inst, w.id) then DRIFTED else Status.FAILED) &&
                  end.actualState == w.actualState && after.records == before.records)
       case _ => end == w.(status := Status.FAILED) && after.records == before.records
  }

  // All plans, all other workloads and all other records of operations.
  predicate OthersAsBefore(before: Core, after: Core, id: string, key: string) {
    && id in after.workloads && after.plans == before.plans
    && after.workloads - {id} == before.workloads - {id} && after.records - {key} == before.records - {key}
  }

  lemma OthersAre(before: Core, after: Core, id: string, key: string)
    requires id in after.workloads && after.plans == before.plans && after.workloads == before.workloads[id := after.workloads[id]]
    requires after.records == before.records || (key in after.records && after.records == before.records[key := after.records[key]])
    ensures OthersAsBefore(before, after, id, key)
  {
  }

  predicate RecordedAs(c: Core, key: string, result: OperationResult) { key in c.records && c.records[key] == result }

  lemma EndingIs(
    c: Core, id: string, hash: string, result: ProvisionResult, found: Option<Instance>, timedOut: bool, live: Option<Instance>)
    requires id in c.workloads && c.workloads[id].id == id && (result.Resolved? ==> found.Some?)
    ensures EndsAs(c, AfterResult(c, id, hash, result, found, timedOut, live), id, hash, result, found, timedOut, live)
  {
    OthersAre(c, AfterResult(c, id, hash, result, found, timedOut, live), id, OperationKey(id, hash));
  }

  // The status that the check has set leaves no trace.
  lemma CheckLeavesNoTrace(
    world: World, c: Core, id: string, hash: string, result: ProvisionResult, found: Option<Instance>, timedOut: bool,
    live: Option<Instance>)
    requires CheckResultOf(world, c, id) == Proceed && c.workloads[id].id == id && (result.Resolved? ==> found.Some?)
    ensures var after := AfterResult(AfterCheck(world, c, id), id, hash, result, found, timedOut, live);
            EndsAs(c, after, id, hash, result, found, timedOut, live)
  {
    var after := AfterResult(AfterCheck(world, c, id), id, hash, result, found, timedOut, live);
    assert after.workloads == AfterResult(c, id, hash, result, found, timedOut, live).workloads;
    EndingIs(c, id, hash, result, found, timedOut, live);
  }

  // A provisioning that ended well is not carried out again: the next call finds it
  // done. After any other end that has passed the check the next call may try again.
  lemma NextCallAfter(
    world: World, before: Core, after: Core, id: string, result: ProvisionResult, found: Option<Instance>, timedOut: bool,
    live: Option<Instance>)
    requires CheckResultOf(world, before, id) == Proceed && (result.Resolved? ==> found.Some?)
    requires EndsAs(before, after, id, before.plans[id].hash, result, found, timedOut, live)
    ensures CheckResultOf(world, after, id) ==
              if result.Provisioned? || (result.Resolved? && OwnedAndEqual(found.value, before.workloads[id])) then AlreadyDone
              else Proceed
  {
  }

  // A creation that timed out leaves the question open to the next reconciliation:
  // it reports the workload running exactly for a running instance of its own, and
  // failed exactly when there is none of its own.
  lemma TimeoutIsResolved(
    before: Core, after: Core, id: string, hash: string, live: Option<Instance>, seen: Option<Instance>)
    requires id in before.workloads && before.workloads[id].id == id
    requires EndsAs(before, after, id, hash, CreationFailed, None, true, live)
    ensures var w := ReconciledSingle(after.workloads[id], seen);
            && (w.status == RUNNING <==> seen.Some? && OwnedBy(seen.value, id) && seen.value.state == Running)
            && (w.status == Status.FAILED <==> seen.None? || !OwnedBy(seen.value, id))
            && (w.status != RUNNING && w.status != Status.FAILED ==> w.status == STOPPED)
  {
    SingleResolvesAmbiguity(after.workloads[id], seen);
  }

  predicate OwnedAndEqual(inst: Instance, w: Workload) { OwnedBy(inst, w.id) && inst.limits.cpuCores == w.spec.cpu }

  // The ports after a provisioning, from the reservation on.
  function BookAfter<R>(reserved: Book<R>, id: string, result: ProvisionResult, live: Option<Instance>): Book<R> {
    if result.CreationFailed? then AfterRelease(reserved, id)
    else if result.Provisioned? && HasAddress(live) then AfterStatus(reserved, id, ACTIVE, live.value.ipAddress)
    else reserved
  }

  function PortsAfter<R>(
    reserved: Ports<R>, id: string, result: ProvisionResult, live: Option<Instance>, faults: ProvisionFaults): (after: Ports<R>)
    ensures after.book == BookAfter(reserved.book, id, result, live)
  {
    if result.CreationFailed? then PortsReleased(reserved, id, faults.release == NoFault)
    else if result.Provisioned? && HasAddress(live)
    then PortsUpdated(reserved, id, ACTIVE, live.value.ipAddress, faults.publish.status == NoFault)
    else reserved
  }

  // A new reservation is saved if its save works; nothing else is.
  ghost predicate ReservedFrom<R>(before: Ports<R>, reserved: Ports<R>, fault: Fault) {
    reserved.file == if reserved.book != before.book && fault == NoFault then Whole(SnapshotOf(reserved.book)) else before.file
  }

  // Exposures, devices, ports and files after a provisioning that has reserved
  // the port: it is published once the started instance has an address.
  ghost function AfterCreation<R>(
    engine: AllocatorEngine, reserved: Network<R>, w: Workload, port: int, result: ProvisionResult, live: Option<Instance>,
    faults: ProvisionFaults): Network<R>
  {
    Network(if result.Provisioned? && HasAddress(live)
            then AfterPublish(engine, reserved.edge, SSHExposure(w, port, live.value.ipAddress), faults.publish) else reserved.edge,
            PortsAfter(reserved.ports, w.id, result, live, faults))
  }

  lemma FailedCreation<R>(
    engine: AllocatorEngine, n: Network<R>, w: Workload, port: int, live: Option<Instance>, faults: ProvisionFaults)
    ensures AfterCreation(engine, n, w, port, CreationFailed, live, faults) ==
              n.(ports := PortsReleased(n.ports, w.id, faults.release == NoFault))
  {
  }

  lemma PublicationIs<R>(
    engine: AllocatorEngine, n: Network<R>, w: Workload, port: int, live: Option<Instance>, faults: ProvisionFaults)
    ensures AfterCreation(engine, n, w, port, Provisioned, live, faults) ==
              if HasAddress(live)
              then Network(AfterPublish(engine, n.edge, SSHExposure(w, port, live.value.ipAddress), faults.publish),
                           PortsUpdated(n.ports, w.id, ACTIVE, live.value.ipAddress, faults.publish.status == NoFault))
              else n
  {
  }

  // Every workload after the bulk pass.
  function ReconciledRecords(ws: Registrations, index: map<string, Instance>): Registrations {
    map k | k in ws :: ReconciledBulk(ws[k], Lookup(index, IndexName(ws[k])))
  }

  // What reconciling one workload makes of it.
  function SingleOutcome(ws: Registrations, instances: map<string, Instance>, id: string, answers: bool): Option<Workload> {
    if id in ws
    then Some(ReconciledSingle(ws[id], if answers then Lookup(instances, ws[id].spec.name) else None))
    else None
  }

  // What a bulk pass started from, and the outcomes of each workload's turn.
  datatype Pass = Pass(
    workloads: Registrations, network: Network<SSHAllocation>, index: map<string, Instance>, faults: string -> PublishFaults)

  // What a bulk pass has made of the registry and the network so far.
  datatype Progress = Progress(workloads: Registrations, network: Network<SSHAllocation>)

  // The refresh, if any, that follows a reconciliation.
  function TurnUnless(skip: bool, w: Workload, faults: PublishFaults): seq<Refresh> {
    if skip then [] else [Refresh(w, faults)]
  }

  function BulkTurn(before: Workload, after: Workload, faults: PublishFaults): seq<Refresh> {
    TurnUnless(before.status == DRAFT, after, faults)
  }

  // The turn of workload k: reconciliation, and a refresh unless it is a draft.
  ghost function AfterTurn(engine: AllocatorEngine, pass: Pass, p: Progress, k: string): Progress
    requires k in p.workloads
  {
    var w := p.workloads[k];
    var after := ReconciledBulk(w, Lookup(pass.index, IndexName(w)));
    Progress(p.workloads[k := after], Refreshed(engine, p.network, BulkTurn(w, after, pass.faults(k))))
  }

  // The turns of a pass so far, in their order, and where each of them led.
  datatype Course = Begun | Turned(earlier: Course, id: string, now: Progress)

  // The course is one of this pass, has led to now, and every workload had its
  // turn exactly once but those in left.
  ghost predicate Underway(engine: AllocatorEngine, pass: Pass, left: set<string>, c: Course, now: Progress)
    decreases c
  {
    match c
    case Begun => now == Progress(pass.workloads, pass.network) && left == pass.workloads.Keys
    case Turned(earlier, id, _) =>
      id !in left && now == c.now && Underway(engine, pass, left + {id}, earlier, Before(pass, earlier)) &&
      id in Before(pass, earlier).workloads && now == AfterTurn(engine, pass, Before(pass, earlier), id)
  }

  function Before(pass: Pass, c: Course): Progress {
    match c
    case Begun => Progress(pass.workloads, pass.network)
    case Turned(_, _, now) => now
  }

  lemma PassAdvances(engine: AllocatorEngine, pass: Pass, left: set<string>, c: Course, now: Progress, id: string, after: Progress)
    requires Underway(engine, pass, left, c, now) && id in left && id in now.workloads && after == AfterTurn(engine, pass, now, id)
    ensures Underway(engine, pass, left - {id}, Turned(c, id, after), after)
  {
    assert left - {id} + {id} == left;
  }

  // The refreshes of a pass in that order.
  function RefreshesOf(pass: Pass, c: Course): seq<Refresh> {
    match c
    case Begun => []
    case Turned(earlier, id, _) => RefreshesOf(pass, earlier) + RefreshOf(pass, id)
  }

  function RefreshOf(pass: Pass, k: string): seq<Refresh> {
    if k !in pass.workloads then []
    else
      BulkTurn(pass.workloads[k], ReconciledBulk(pass.workloads[k], Lookup(pass.index, IndexName(pass.workloads[k]))), pass.faults(k))
  }

  // Whatever the order: a workload that had its turn is what ReconciledBulk makes
  // of it, the others are as they were, and the network has had the refreshes.
  lemma {:induction false} TurnsInAnyOrder(engine: AllocatorEngine, pass: Pass, left: set<string>, c: Course, now: Progress)
    requires Underway(engine, pass, left, c, now)
    ensures now.workloads.Keys == pass.workloads.Keys && left <= pass.workloads.Keys
    ensures forall k :: k in pass.workloads ==>
              now.workloads[k] ==
              if k in left then pass.workloads[k]
              else ReconciledBulk(pass.workloads[k], Lookup(pass.index, IndexName(pass.workloads[k])))
    decreases c
  {
    match c
    case Begun =>
    case Turned(earlier, id, _) =>
      TurnsInAnyOrder(engine, pass, left + {id}, earlier, Before(pass, earlier));
  }

  lemma {:induction false} RefreshesInOrder(engine: AllocatorEngine, pass: Pass, left: set<string>, c: Course, now: Progress)
    requires Underway(engine, pass, left, c, now)
    ensures now.network == Refreshed(engine, pass.network, RefreshesOf(pass, c))
    decreases c
  {
    match c
    case Begun =>
    case Turned(earlier, id, _) =>
      RefreshesInOrder(engine, pass, left + {id}, earlier, Before(pass, earlier));
      TurnsInAnyOrder(engine, pass, left + {id}, earlier, Before(pass, earlier));
      RefreshedConcat(engine, pass.network, RefreshesOf(pass, earlier), RefreshOf(pass, id));
  }

  // How often a workload had its turn.
  function TurnsOf(c: Course, k: string): nat {
    match c
    case Begun => 0
    case Turned(earlier, id, _) => TurnsOf(earlier, k) + if id == k then 1 else 0
  }

  lemma {:induction false} OneTurnEach(engine: AllocatorEngine, pass: Pass, left: set<string>, c: Course, now: Progress, k: string)
    requires Underway(engine, pass, left, c, now) && k in pass.workloads
    ensures TurnsOf(c, k) == if k in left then 0 else 1
    decreases c
  {
    match c
    case Begun =>
    case Turned(earlier, id, _) => OneTurnEach(engine, pass, left + {id}, earlier, Before(pass, earlier), k);
  }

  predicate Ambiguous(status: Status) { status == Status.UNKNOWN || status == Status.PROVISIONING }

  lemma StepOfLive<R>(engine: AllocatorEngine, n: Network<R>, after: Network<R>, r: Refresh)
    requires LiveAt(n.ports.book, r.workload.id) && r.workload.privateIPv4 != ""
    requires var w := r.workload;
             after == Network(AfterRefresh(engine, n.edge, SSHExposure(w, PortOf(n.ports.book, w.id), w.privateIPv4), r.faults),
                              PortsUpdated(n.ports, w.id, ACTIVE, w.privateIPv4, r.faults.status == NoFault))
    ensures after == AfterStep(engine, n, r)
  {
  }

  function SingleTurn(before: Workload, after: Workload, faults: PublishFaults): seq<Refresh> {
    TurnUnless(Ambiguous(before.status), after, faults)
  }

  // A turn refreshes the workload once, as reconciliation left it; no draft in the
  // bulk pass, and none that was ambiguous in a single one.
  lemma TurnIsOneRefresh<R>(engine: AllocatorEngine, n: Network<R>, before: Workload, after: Workload, faults: PublishFaults)
    ensures var step := AfterStep(engine, n, Refresh(after, faults));
            && Refreshed(engine, n, BulkTurn(before, after, faults)) == (if before.status == DRAFT then n else step)
            && Refreshed(engine, n, SingleTurn(before, after, faults)) ==
                 (if before.status == Status.UNKNOWN || before.status == Status.PROVISIONING then n else step)
  {
    RefreshedOnce(engine, n, Refresh(after, faults));
  }

  // What a deletion leaves of the workload in exposures and ports, and their files.
  ghost predicate NetworkCleaned<R>(before: Network<R>, after: Network<R>, id: string, faults: DeleteFaults) {
    && after.edge.state.registry == Cleaned(before.edge.state.registry, id)
    && ShrunkTo(before.edge.state, after.edge.state, AllSaved(faults.saves))
    && after.ports == PortsReleased(before.ports, id, faults.release == NoFault)
  }

  // A deletion never endangers the exposures; the ports stay consistent, with
  // their file, exactly when the release is harmless.
  lemma DeletionSafeIff<R>(before: Network<R>, after: Network<R>, id: string, faults: DeleteFaults)
    requires NetworkCleaned(before, after, id, faults)
    ensures Safe(before.edge.state.registry) ==> Safe(after.edge.state.registry)
    ensures Consistent(before.ports.book) ==> (Consistent(after.ports.book) <==> ReleaseHarmless(before.ports.book, id))
    ensures SafePorts(before.ports) ==> (SafePorts(after.ports) <==> ReleaseHarmless(before.ports.book, id))
  {
    if Safe(before.edge.state.registry) {
      CleaningKeepsSafe(before.edge.state.registry, id);
    }
    if Consistent(before.ports.book) {
      ReleaseConsistentIff(before.ports.book, id);
      if SafePorts(before.ports) && Consistent(after.ports.book) {
        FilingKeepsSafe(before.ports, after.ports.book, faults.release == NoFault);
      }
    }
  }

  predicate HasAddress(live: Option<Instance>) { live.Some? && live.value.ipAddress != "" }

  // An instance that the lookup finds in somebody else's hands is left alone.
  function DeleteVerdict(w: Workload, instances: map<string, Instance>, faults: DeleteFaults): DeleteResult {
    var found := if faults.answers then Lookup(instances, w.spec.name) else None;
    if found.Some? && !OwnedBy(found.value, w.id) then OwnershipConflict
    else if faults.obeys then Deleted
    else ProviderFailed
  }

  // Deleted is exactly what the provider carries out and the lookup does not find in
  // somebody else's hands.
  lemma DeletedIff(w: Workload, instances: map<string, Instance>, faults: DeleteFaults)
    ensures var foreign := faults.answers && w.spec.name in instances && !OwnedBy(instances[w.spec.name], w.id);
            && (DeleteVerdict(w, instances, faults) == Deleted <==> faults.obeys && !foreign)
            && (DeleteVerdict(w, instances, faults) == ProviderFailed <==> !faults.obeys && !foreign)
  {
  }

  // The refusal depends on the lookup: an instance of somebody else under the
  // workload's name is deleted exactly when the lookup fails and the provider obeys.
  lemma ForeignDeletedIff(w: Workload, instances: map<string, Instance>, faults: DeleteFaults)
    requires w.spec.name in instances && !OwnedBy(instances[w.spec.name], w.id)
    ensures DeleteVerdict(w, instances, faults) == Deleted <==> !faults.answers && faults.obeys
    ensures DeleteVerdict(w, instances, faults) == OwnershipConflict <==> faults.answers
  {
  }

  class Manager {
    var workloads: map<string, WorkloadRecord>
    var plans: map<string, ProvisioningPlan>
    ghost var cells: set<WorkloadRecord>        // every workload record made so far
    ghost var planCells: set<ProvisioningPlan>  // every plan made so far
    ghost var tagged: seq<TagRequest>           // every tagging asked of the provider, in order
    const world: World
    const guard: ExecutionGuard
    const provider: Provider
    const store: SnapshotFile<Registrations>
    const exposureMgr: ExposureManager
    const ssh: SSHPortAllocator

    // No tagging was asked for before its record was in the file.
    ghost predicate TagsRecorded()
      reads this
    {
      forall t :: t in tagged ==> t.Recorded()
    }

    // The managers of exposures and ports are in order, and the three stores are
    // different files.
    ghost predicate NetworkValid()
      reads exposureMgr, exposureMgr.records, ssh
    {
      exposureMgr.Valid() && ssh.Valid() && ssh.exposureMgr == exposureMgr &&
      (store as object) != exposureMgr.store && (store as object) != ssh.store && (ssh.store as object) != exposureMgr.store
    }

    ghost predicate Valid()
      reads this, cells
    {
      workloads.Values <= cells && plans.Values <= planCells &&
      (forall k :: k in workloads ==> workloads[k].data.id == k) && (forall k :: k in plans ==> plans[k].workloadID == k)
    }

    // Exposures, devices, ports and their files.
    ghost function Net(): Network<SSHAllocation>
      reads exposureMgr, exposureMgr.records, exposureMgr.store, exposureMgr.driver, ssh, ssh.records, ssh.store
    {
      Network(exposureMgr.Edge(), Ports(ssh.Contents(), ssh.store.main))
    }

    twostate predicate NetworkKept()
      reads exposureMgr, exposureMgr.records, exposureMgr.store, exposureMgr.driver, ssh, ssh.records, ssh.store
    {
      old(NetworkValid()) ==> NetworkValid() && Net() == old(Net())
    }

    ghost function Records(): Registrations
      reads this, cells
    {
      map k | k in workloads && workloads[k] in cells :: workloads[k].data
    }

    ghost function Plans(): map<string, Plan>
      reads this, planCells
    {
      map k | k in plans && plans[k] in planCells :: plans[k].data
    }

    ghost function Contents(): Core
      reads this, cells, planCells, guard
    {
      Core(Records(), Plans(), guard.records)
    }

    lemma ValidIffKeyed()
      requires workloads.Values <= cells && plans == map[]
      ensures Valid() <==> IdsAreKeys(Records())
    {
      assert forall k :: k in workloads ==> k in Records() && Records()[k] == workloads[k].data;
    }

    // Any file is loaded as it is; the registry is in order exactly when the file
    // has every workload under its own id.
    constructor (
      world: World, provider: Provider, store: SnapshotFile<Registrations>, exposureMgr: ExposureManager,
      ssh: SSHPortAllocator, readable: bool)
      ensures workloads.Values <= cells && (Valid() <==> IdsAreKeys(Records()))
      ensures this.world == world && this.provider == provider && this.store == store
      ensures this.exposureMgr == exposureMgr && this.ssh == ssh
      ensures fresh(cells) && fresh(guard) && tagged == [] && TagsRecorded()
      ensures Contents() == match SnapshotFiles.LoadedFrom(store.main, map[], readable)
                            case Loaded(ws) => Core(ws, map[], map[])
                            case LoadError => Core(map[], map[], map[])
    {
      this.world, this.provider, this.store, this.exposureMgr, this.ssh := world, provider, store, exposureMgr, ssh;
      guard := new ExecutionGuard();
      workloads, plans, cells, planCells, tagged := map[], map[], {}, {}, [];
      new;
      var loaded := store.Load(map[], readable);
      if loaded.Loaded? {
        LoadRecords(loaded.value);
      }
      ValidIffKeyed();
    }

    method LoadRecords(ws: Registrations)
      requires workloads == map[] && cells == {}
      modifies this`workloads, this`cells
      ensures workloads.Values <= cells && fresh(cells) && Records() == ws
    {
      var left := ws.Keys;
      while left != {}
        invariant left <= ws.Keys && workloads.Keys == ws.Keys - left && workloads.Values <= cells && fresh(cells)
        invariant forall k :: k in workloads ==> workloads[k].data == ws[k]
      {
        var k :| k in left;
        left := left - {k};
        var w := new WorkloadRecord(ws[k]);
        workloads, cells := workloads[k := w], cells + {w};
      }
    }

    method SaveStore(fault: Fault) returns (ok: bool)
      requires Valid() && fault.Possible() && !fault.StopsBefore?
      modifies store
      ensures ok <==> fault == NoFault
      ensures store.main == if ok then Whole(Records()) else old(store.main)
      ensures Valid() && Records() == old(Records()) && NetworkKept()
    {
      var snapshot := map k | k in workloads :: workloads[k].data;
      assert snapshot == Records();
      var result := store.Save(snapshot, fault);
      ok := result == Saved;
    }

    // ------------------------------------------------------------ registration

    method NameRegistered(name: string) returns (taken: bool)
      requires Valid()
      ensures taken <==> NameTaken(Records(), name)
    {
      var left := workloads.Keys;
      while left != {}
        invariant left <= workloads.Keys
        invariant forall k :: k in workloads && k !in left ==> workloads[k].data.spec.name != name
      {
        var k :| k in left;
        left := left - {k};
        if workloads[k].data.spec.name == name {
          assert Records()[k].spec.name == name;
          return true;
        }
      }
      return false;
    }

    method AlreadyManaged(name: string) returns (managed: bool)
      requires Valid()
      ensures managed <==> Managed(Records(), name)
    {
      var left := workloads.Keys;
      while left != {}
        invariant left <= workloads.Keys
        invariant forall k :: k in workloads && k !in left ==>
                                workloads[k].data.spec.name != name && workloads[k].data.providerInstanceID != name
      {
        var k :| k in left;
        left := left - {k};
        if workloads[k].data.spec.name == name || workloads[k].data.providerInstanceID == name {
          assert k in Records() && Records()[k] == workloads[k].data;
          return true;
        }
      }
      return false;
    }

    method Insert(w: Workload) returns (record: WorkloadRecord)
      requires Valid()
      modifies this`workloads, this`cells
      ensures Valid() && fresh(record) && record.data == w && workloads == old(workloads)[w.id := record]
      ensures Records() == old(Records())[w.id := w]
    {
      record := new WorkloadRecord(w);
      workloads, cells := workloads[w.id := record], cells + {record};
    }

    method Forget(id: string)
      requires Valid()
      modifies this`workloads, this`cells
      ensures Valid() && workloads == old(workloads) - {id}
      ensures Records() == old(Records()) - {id}
    {
      workloads := workloads - {id};
    }

    // Inserts the workload and saves; takes it out again when the save fails.
    method InsertAndSave(w: Workload, fault: Fault) returns (ok: bool)
      requires Valid() && fault.Possible() && !fault.StopsBefore?
      modifies this`workloads, this`cells, store
      ensures Valid() && (ok <==> fault == NoFault) && (ok ==> w.id in workloads)
      ensures Records() == if ok then old(Records())[w.id := w] else old(Records()) - {w.id}
      ensures store.main == if ok then Whole(Records()) else old(store.main)
    {
      ghost var before := Records();
      UndoRestoresIff(before, w);
      var _ := Insert(w);
      ok := SaveStore(fault);
      assert Records() == before[w.id := w];
      if !ok {
        Forget(w.id);
      }
    }

    // Registers a workload under id, or reports why not and leaves no new entry.
    method CreateWorkload(request: Request, id: string, fault: Fault) returns (result: RegisterResult)
      requires Valid() && fault.Possible() && !fault.StopsBefore?
      modifies this`workloads, this`cells, store
      ensures Valid()
      ensures result.EmptyName? <==> TrimSpace(request.spec.name) == ""
      ensures result.NameInUse? <==>
                TrimSpace(request.spec.name) != "" && NameTaken(old(Records()), request.spec.name)
      ensures result.Registered? || result.RegistryNotSaved? || result.EmptyName? || result.NameInUse?
      ensures result.Registered? ==>
                fault == NoFault && store.main == Whole(Records()) &&
                Records() == old(Records())[id := Drafted(request, id, world.digest)] &&
                id in workloads && result.record == workloads[id]
      ensures result.RegistryNotSaved? ==>
                fault != NoFault && Records() == old(Records()) - {id} && store.main == old(store.main)
      ensures result.EmptyName? || result.NameInUse? ==> workloads == old(workloads) && store.main == old(store.main)
    {
      if TrimSpace(request.spec.name) == "" {
        return EmptyName;
      }
      var taken := NameRegistered(request.spec.name);
      if taken {
        return NameInUse;
      }
      var ok := InsertAndSave(Drafted(request, id, world.digest), fault);
      return if ok then RegisterResult.Registered(workloads[id]) else RegistryNotSaved;
    }

    // Tagging changes the provider. It may only be called for a workload whose
    // record is already in the file, and the history says that it was.
    method TagDurablyRecorded(name: string, id: string, fault: TagFault) returns (ok: bool)
      requires provider.Valid()
      requires TagRequest(name, id, store.main).Recorded()
      modifies provider, this`tagged
      ensures provider.Valid()
      ensures tagged == old(tagged) + [TagRequest(name, id, store.main)] && (old(TagsRecorded()) ==> TagsRecorded())
      ensures name !in old(provider.instances) ==> !ok && provider.instances == old(provider.instances)
      ensures name in old(provider.instances) ==>
                var effect := Tagging(old(provider.instances)[name], id, fault);
                ok == effect.ok && provider.instances == old(provider.instances)[name := effect.instance]
    {
      ok := provider.AdoptInstance(name, id, fault);
      tagged := tagged + [TagRequest(name, id, store.main)];
    }

    // Tags the instance of a saved record. A failed tagging takes the record out
    // of memory, and out of the file if the following save works.
    method TagOrForget(name: string, id: string, faults: AdoptFaults) returns (ok: bool)
      requires Valid() && provider.Valid() && faults.Possible() && name in provider.instances
      requires id in Records() && Records()[id].providerInstanceID == name && store.main == Whole(Records())
      modifies this`workloads, this`cells, this`tagged, store, provider
      ensures Valid() && provider.Valid()
      ensures tagged == old(tagged) + [TagRequest(name, id, old(store.main))] && (old(TagsRecorded()) ==> TagsRecorded())
      ensures ok == Tagging(old(provider.instances)[name], id, faults.tag).ok
      ensures provider.instances ==
                old(provider.instances)[name := Tagging(old(provider.instances)[name], id, faults.tag).instance]
      ensures workloads == if ok then old(workloads) else old(workloads) - {id}
      ensures Records() == if ok then old(Records()) else old(Records()) - {id}
      ensures store.main == if ok || faults.last != NoFault then old(store.main) else Whole(Records())
    {
      ok := TagDurablyRecorded(name, id, faults.tag);
      if ok {
        var _ := SaveStore(faults.last);
      } else {
        ForgetAndSave(id, faults.last);
      }
    }

    method ForgetAndSave(id: string, fault: Fault)
      requires Valid() && fault.Possible() && !fault.StopsBefore?
      modifies this`workloads, this`cells, store
      ensures Valid() && workloads == old(workloads) - {id} && Records() == old(Records()) - {id}
      ensures store.main == if fault == NoFault then Whole(Records()) else old(store.main)
    {
      Forget(id);
      var _ := SaveStore(fault);
    }

    // Adopts the instance called name as w: the record is saved first, then the
    // instance is tagged, then the registry is saved again.
    method AdoptAs(w: Workload, name: string, faults: AdoptFaults) returns (result: RegisterResult)
      requires Valid() && provider.Valid() && faults.Possible()
      requires name in provider.instances && w.providerInstanceID == name
      modifies this`workloads, this`cells, this`tagged, store, provider
      ensures Valid() && provider.Valid() && (old(TagsRecorded()) ==> TagsRecorded())
      ensures result.RegistryNotSaved? || result.TaggingFailed? ||
              (result.Registered? && w.id in workloads && result.record == workloads[w.id])
      ensures AdoptedAs(old(Records()), Records(), old(provider.instances), provider.instances, old(store.main), store.main,
                        old(tagged), tagged, name, w, faults, result)
    {
      var saved := InsertAndSave(w, faults.first);
      if !saved {
        return RegistryNotSaved;
      }
      UndoRestoresIff(old(Records()), w);
      var ok := TagOrForget(name, w.id, faults);
      return if ok then RegisterResult.Registered(workloads[w.id]) else TaggingFailed;
    }

    // The record that adopting the instance makes.
    function AdoptionOf(inst: Instance, generated: string): Workload {
      AdoptedFrom(inst, AdoptionID(inst, generated), "incus", world.digest)
    }

    method LookForAdoption(name: string, answers: bool) returns (refusal: Option<RegisterResult>)
      requires Valid()
      ensures refusal == AdoptionRefusal(Records(), provider.instances, name, answers)
    {
      if name == "" {
        return Some(EmptyName);
      }
      var managed := AlreadyManaged(name);
      if managed {
        return Some(NameInUse);
      }
      var found := provider.GetInstance(name, answers);
      return if found.None? then Some(NotAtProvider) else None;
    }

    // Adopts an external instance. A success registers and saves the record and
    // tags the instance; any error leaves the registry in memory without the id,
    // so as it was when the id is new. The instance is untouched unless the
    // file held the record before; only a failing last save leaves it there after
    // a failed tagging.
    method AdoptWorkload(name: string, generated: string, faults: AdoptFaults) returns (result: RegisterResult)
      requires Valid() && provider.Valid() && faults.Possible()
      modifies this`workloads, this`cells, this`tagged, store, provider
      ensures Valid() && provider.Valid() && (old(TagsRecorded()) ==> TagsRecorded())
      ensures var refusal := AdoptionRefusal(old(Records()), old(provider.instances), TrimSpace(name), faults.answers);
              if refusal.Some? then
                result == refusal.value && workloads == old(workloads) && store.main == old(store.main) && tagged == old(tagged) &&
                provider.instances == old(provider.instances)
              else
                (result.Registered? || result.RegistryNotSaved? || result.TaggingFailed?) &&
                AdoptedAs(old(Records()), Records(), old(provider.instances), provider.instances, old(store.main), store.main,
                          old(tagged), tagged, TrimSpace(name), AdoptionOf(old(provider.instances)[TrimSpace(name)], generated),
                          faults, result)
    {
      var trimmed := TrimSpace(name);
      var refusal := LookForAdoption(trimmed, faults.answers);
      if refusal.Some? {
        return refusal.value;
      }
      result := AdoptAs(AdoptionOf(provider.instances[trimmed], generated), trimmed, faults);
    }

    // ------------------------------------------------------------------- plans

    method SetStatus(id: string, status: Status)
      requires Valid() && id in workloads
      modifies workloads[id]
      ensures Valid() && Plans() == old(Plans()) && NetworkKept()
      ensures Records() == old(Records())[id := old(Records())[id].(status := status)]
    {
      SetWorkload(id, workloads[id].data.(status := status));
    }

    method SetWorkload(id: string, w: Workload)
      requires Valid() && id in workloads && w.id == id
      modifies workloads[id]
      ensures Valid() && Plans() == old(Plans()) && NetworkKept()
      ensures Records() == old(Records())[id := w]
    {
      WriteWorkload(id, w);
    }

    method WriteWorkload(id: string, w: Workload)
      requires Valid() && id in workloads && w.id == id
      modifies workloads[id]
      ensures Valid() && Plans() == old(Plans()) && Records() == old(Records())[id := w]
    {
      workloads[id].data := w;
    }

    method SetApproval(id: string, approved: bool)
      requires Valid() && id in plans
      modifies plans[id]
      ensures Valid() && Records() == old(Records()) && NetworkKept()
      ensures Plans() == old(Plans())[id := old(Plans())[id].(approved := approved)]
    {
      plans[id].data := plans[id].data.(approved := approved);
    }

    method KnownConfigs() returns (known: seq<WorkloadNetworkConfig>)
      requires Valid()
      ensures forall k :: k in workloads ==> NetworkConfigOf(workloads[k].data) in known
      ensures forall c :: c in known ==> exists k :: k in workloads && c == NetworkConfigOf(workloads[k].data)
    {
      known := [];
      var left := workloads.Keys;
      while left != {}
        invariant left <= workloads.Keys
        invariant forall k :: k in workloads && k !in left ==> NetworkConfigOf(workloads[k].data) in known
        invariant forall c :: c in known ==> exists k :: k in workloads && c == NetworkConfigOf(workloads[k].data)
      {
        var k :| k in left;
        left := left - {k};
        known := known + [NetworkConfigOf(workloads[k].data)];
      }
    }

    method ValidateWorkload(id: string) returns (valid: bool)
      requires Valid() && id in workloads
      ensures valid <==> PlanValid(world.engine, Records()[id])
    {
      var w := workloads[id].data;
      if NeedsNoPorts(w) {
        return true;
      }
      var known := KnownConfigs();
      var result := world.engine.ValidateAllocation(RequestOf(w), [], known, [], None);
      valid := result.isValid;
      PlanVerdict(world.engine, w, known, valid, result.normalizedMappings);
    }

    method GeneratePlan(id: string) returns (found: bool)
      requires Valid()
      modifies this`plans, this`planCells, cells
      ensures Valid() && (found <==> id in workloads)
      ensures Contents() == AfterGenerate(world, old(Contents()), id)
    {
      if id !in workloads {
        return false;
      }
      var valid := ValidateWorkload(id);
      var w := workloads[id].data;
      var hash := world.digest(PlanText(w.spec));
      WriteWorkload(id, w.(planHash := hash, status := PLANNED));
      PutPlan(id, Plan(hash, valid, false));
      return true;
    }

    method PutPlan(id: string, p: Plan)
      requires Valid()
      modifies this`plans, this`planCells
      ensures Valid() && Plans() == old(Plans())[id := p] && Records() == old(Records())
    {
      var plan := new ProvisioningPlan(id, p);
      plans, planCells := plans[id := plan], planCells + {plan};
    }

    // A plan that no longer matches its workload goes back to draft.
    method Revoke(id: string)
      requires Valid() && id in workloads && id in plans
      modifies workloads[id], plans[id]
      ensures Valid() && NetworkKept() && Contents() == Revoked(old(Contents()), id)
    {
      SetStatus(id, DRAFT);
      SetApproval(id, false);
    }

    method ApprovePlan(id: string, fault: Fault) returns (result: ApproveResult)
      requires Valid() && fault.Possible() && !fault.StopsBefore?
      modifies cells, planCells, store
      ensures Valid()
      ensures result == ApproveResultOf(world, old(Contents()), id)
      ensures Contents() == AfterApprove(world, old(Contents()), id)
      ensures store.main == if result == Accepted && fault == NoFault then Whole(Records()) else old(store.main)
    {
      if id !in plans {
        return NoPlan;
      }
      if !plans[id].data.valid {
        return InvalidPlan;
      }
      if id !in workloads {
        return NoWorkload;
      }
      result := ApproveOrRevoke(id, fault);
    }

    method ApproveOrRevoke(id: string, fault: Fault) returns (result: ApproveResult)
      requires Valid() && fault.Possible() && !fault.StopsBefore?
      requires id in workloads && id in plans && plans[id].data.valid
      modifies workloads[id], plans[id], store
      ensures Valid()
      ensures result == ApproveResultOf(world, old(Contents()), id)
      ensures Contents() == AfterApprove(world, old(Contents()), id)
      ensures store.main == if result == Accepted && fault == NoFault then Whole(Records()) else old(store.main)
    {
      if world.digest(PlanText(workloads[id].data.spec)) != plans[id].data.hash {
        Revoke(id);
        return SpecModified;
      }
      Approve(id);
      var _ := SaveStore(fault);
      return Accepted;
    }

    method Approve(id: string)
      requires Valid() && id in workloads && id in plans
      modifies workloads[id], plans[id]
      ensures Valid()
      ensures Records() == old(Records())[id := old(Records())[id].(status := APPROVED)]
      ensures Plans() == old(Plans())[id := old(Plans())[id].(approved := true)]
    {
      SetApproval(id, true);
      SetStatus(id, APPROVED);
    }

    // ------------------------------------------------------------ provisioning

    // The section before the provider is asked anything.
    method CheckProvision(id: string) returns (result: CheckResult)
      requires Valid()
      modifies cells, planCells
      ensures Valid() && NetworkKept()
      ensures result == CheckResultOf(world, old(Contents()), id)
      ensures Contents() == AfterCheck(world, old(Contents()), id)
    {
      if id !in workloads {
        return CheckResult.NotFound;
      }
      if id !in plans || !plans[id].data.approved {
        return NotApproved;
      }
      if world.digest(PlanText(workloads[id].data.spec)) != plans[id].data.hash {
        Revoke(id);
        return Invalidated;
      }
      var key := OperationKey(id, plans[id].data.hash);
      if key in guard.records && guard.records[key] == SUCCESS && workloads[id].data.status == RUNNING {
        return AlreadyDone;
      }
      SetStatus(id, Status.PROVISIONING);
      return Proceed;
    }

    // The provider already holds an instance of that name.
    method ResolveExisting(id: string, hash: string, inst: Instance) returns (ok: bool)
      requires Valid() && id in workloads
      modifies workloads[id], guard
      ensures Valid() && NetworkKept()
      ensures ok <==> OwnedBy(inst, id) && inst.limits.cpuCores == old(Records())[id].spec.cpu
      ensures Contents() == AfterLookup(old(Contents()), id, hash, Some(inst))
    {
      var w := workloads[id].data;
      if !OwnedBy(inst, id) {
        SetStatus(id, Status.FAILED);
        return false;
      }
      if inst.limits.cpuCores != w.spec.cpu {
        SetStatus(id, DRIFTED);
        return false;
      }
      RecordExisting(id, hash, inst);
      return true;
    }

    method RecordExisting(id: string, hash: string, inst: Instance)
      requires Valid() && id in workloads && OwnedBy(inst, id) && inst.limits.cpuCores == workloads[id].data.spec.cpu
      modifies workloads[id], guard
      ensures Valid() && NetworkKept() && Contents() == AfterLookup(old(Contents()), id, hash, Some(inst))
    {
      SetWorkload(id, workloads[id].data.(actualState := inst.state, status := RUNNING));
      Record(OperationKey(id, hash), SUCCESS);
    }

    method RecordFailure(id: string, hash: string, timedOut: bool)
      requires Valid() && id in workloads
      modifies workloads[id], guard
      ensures Valid() && NetworkKept() && Contents() == AfterFailedCreate(old(Contents()), id, hash, timedOut)
    {
      SetStatus(id, if timedOut then Status.UNKNOWN else Status.FAILED);
      Record(OperationKey(id, hash), if timedOut then AMBIGUOUS else FAILURE);
    }

    method Record(key: string, result: OperationResult)
      requires Valid()
      modifies guard
      ensures Valid() && NetworkKept() && store.main == old(store.main)
      ensures Contents() == old(Contents()).(records := old(Contents()).records[key := result])
    {
      guard.RecordOperation(key, result);
    }

    // The last section of a provisioning: live is what the lookup after the start found.
    method Finish(id: string, hash: string, live: Option<Instance>, fault: Fault)
      requires Valid() && id in workloads && fault.Possible() && !fault.StopsBefore?
      modifies workloads[id], guard, store
      ensures Valid() && NetworkKept() && Contents() == AfterFinish(old(Contents()), id, hash, live)
      ensures store.main == if fault == NoFault then Whole(Records()) else old(store.main)
    {
      MarkRunning(id, live);
      SaveAndRecord(OperationKey(id, hash), fault);
    }

    method SaveAndRecord(key: string, fault: Fault)
      requires Valid() && fault.Possible() && !fault.StopsBefore?
      modifies guard, store
      ensures Valid() && NetworkKept() && Contents() == old(Contents()).(records := old(Contents()).records[key := SUCCESS])
      ensures store.main == if fault == NoFault then Whole(Records()) else old(store.main)
    {
      var _ := SaveStore(fault);
      Record(key, SUCCESS);
    }

    method MarkRunning(id: string, live: Option<Instance>)
      requires Valid() && id in workloads
      modifies workloads[id]
      ensures Valid() && Plans() == old(Plans()) && NetworkKept()
      ensures Records() == old(Records())[id := Lifecycles.Seen(old(Records())[id], live).(status := RUNNING)]
    {
      var w := workloads[id].data;
      if live.Some? {
        w := w.(actualState := live.value.state, privateIPv4 := AddressAfter(w, live.value));
      } else {
        w := w.(actualState := Running);
      }
      SetWorkload(id, w.(status := RUNNING));
    }

    // -------------------------------------------------------------- publishing

    // Registers the exposure. Conflicts do not stand in the way of going on.
    method RegisterExposure(e: Exposure, fault: Fault) returns (goOn: bool)
      requires Valid() && NetworkValid() && fault.Possible() && !fault.StopsBefore?
      modifies exposureMgr, exposureMgr.store
      ensures Valid() && NetworkValid() && Contents() == old(Contents())
      ensures fresh(exposureMgr.records - old(exposureMgr.records))
      ensures goOn <==> GoesOn(exposureMgr.engine, old(exposureMgr.Contents()), e, fault == NoFault)
      ensures var n := old(Net());
              Net() == n.(edge := n.edge.(state := AfterCreate(exposureMgr.engine, n.edge.state, e, fault == NoFault)))
    {
      var record := new NetworkExposure(e);
      var error := exposureMgr.CreateNetworkExposure(record, fault);
      goOn := error.None? || error == Some(Conflict);
    }

    method ApplyExposure(id: string, link: Link, fault: Fault)
      requires Valid() && NetworkValid() && fault.Possible() && !fault.StopsBefore?
      modifies exposureMgr.records, exposureMgr.store, exposureMgr.driver
      ensures Valid() && NetworkValid() && Contents() == old(Contents())
      ensures var n := old(Net()); Net() == n.(edge := AfterApplying(n.edge, id, link, fault == NoFault))
    {
      var _ := exposureMgr.ApplyExposure(id, link, fault);
    }

    // An exposure of that id that exists already is applied as it is.
    method PublishExposure(e: Exposure, faults: PublishFaults)
      requires Valid() && NetworkValid() && faults.Possible()
      modifies exposureMgr, exposureMgr.records, exposureMgr.store, exposureMgr.driver
      ensures Valid() && NetworkValid() && Contents() == old(Contents())
      ensures fresh(exposureMgr.records - old(exposureMgr.records))
      ensures Net().edge == AfterPublish(exposureMgr.engine, old(Net()).edge, e, faults) && Net().ports == old(Net()).ports
    {
      var goOn := RegisterExposure(e, faults.create);
      if goOn {
        ApplyExposure(e.id, faults.link, faults.apply);
      }
    }

    method ActivateSSH(id: string, address: string, fault: Fault)
      requires Valid() && NetworkValid() && fault.Possible() && !fault.StopsBefore?
      modifies ssh.records, ssh.store
      ensures Valid() && NetworkValid() && Contents() == old(Contents())
      ensures exposureMgr.records == old(exposureMgr.records)
      ensures Net().edge == old(Net()).edge && Net().ports == PortsUpdated(old(Net()).ports, id, ACTIVE, address, fault == NoFault)
    {
      var _ := ssh.UpdateAllocationStatus(id, ACTIVE, address, fault);
    }

    // Marks the port as active and publishes it.
    method PublishSSH(id: string, port: int, address: string, faults: PublishFaults)
      requires Valid() && NetworkValid() && faults.Possible() && id in workloads
      modifies ssh.records, ssh.store, exposureMgr, exposureMgr.records, exposureMgr.store, exposureMgr.driver
      ensures Valid() && NetworkValid() && Contents() == old(Contents())
      ensures var n := old(Net());
              Net() == Network(AfterPublish(exposureMgr.engine, n.edge, SSHExposure(Records()[id], port, address), faults),
                               PortsUpdated(n.ports, id, ACTIVE, address, faults.status == NoFault))
    {
      ActivateSSH(id, address, faults.status);
      PublishExposure(SSHExposure(workloads[id].data, port, address), faults);
    }

    // Writes the address into the registered record directly.
    method WriteAddress(id: string, address: string)
      requires Valid() && NetworkValid() && id in exposureMgr.exposures
      modifies exposureMgr.exposures[id]
      ensures Valid() && NetworkValid() && Contents() == old(Contents())
      ensures var n := old(Net()); Net() == n.(edge := n.edge.(state := Moved(n.edge.state, id, address)))
    {
      exposureMgr.WriteAddress(id, address);
    }

    method UpdateWithItself(id: string, fault: Fault)
      requires Valid() && NetworkValid() && id in exposureMgr.exposures && fault.Possible() && !fault.StopsBefore?
      modifies exposureMgr.records, exposureMgr.store
      ensures Valid() && NetworkValid() && Contents() == old(Contents())
      ensures var n := old(Net());
              var st := n.edge.state;
              Net() == n.(edge := n.edge.(state := AfterUpdate(exposureMgr.engine, st, id, st.registry[id], fault == NoFault)))
    {
      var _ := exposureMgr.UpdateNetworkExposure(id, exposureMgr.exposures[id].data, fault);
    }

    method MoveExposure(id: string, address: string, fault: Fault)
      requires Valid() && NetworkValid() && id in exposureMgr.exposures && fault.Possible() && !fault.StopsBefore?
      modifies exposureMgr.records, exposureMgr.store
      ensures Valid() && NetworkValid() && Contents() == old(Contents())
      ensures var n := old(Net());
              Net() == n.(edge := n.edge.(state := AfterMove(exposureMgr.engine, n.edge.state, id, address, fault == NoFault)))
    {
      WriteAddress(id, address);
      UpdateWithItself(id, fault);
    }

    method RefreshExposure(e: Exposure, faults: PublishFaults)
      requires Valid() && NetworkValid() && faults.Possible()
      modifies exposureMgr, exposureMgr.records, exposureMgr.store, exposureMgr.driver
      ensures Valid() && NetworkValid() && Contents() == old(Contents())
      ensures fresh(exposureMgr.records - old(exposureMgr.records))
      ensures Net().edge == AfterRefresh(exposureMgr.engine, old(Net()).edge, e, faults) && Net().ports == old(Net()).ports
    {
      if e.id !in exposureMgr.exposures {
        PublishExposure(e, faults);
      } else if !UpToDateAt(exposureMgr.exposures[e.id].data, e.internalIP) {
        MoveExposure(e.id, e.internalIP, faults.update);
        ApplyExposure(e.id, faults.link, faults.apply);
      }
    }

    // A workload that holds a live port and has an address gets its port marked
    // active and its exposure refreshed.
    method RefreshSSHAccess(id: string, faults: PublishFaults)
      requires Valid() && NetworkValid() && faults.Possible() && id in workloads
      modifies ssh.records, ssh.store, exposureMgr, exposureMgr.records, exposureMgr.store, exposureMgr.driver
      ensures Valid() && NetworkValid() && Contents() == old(Contents())
      ensures fresh(exposureMgr.records - old(exposureMgr.records))
      ensures Net() == AfterStep(exposureMgr.engine, old(Net()), Refresh(Records()[id], faults))
    {
      var w := workloads[id].data;
      if id in ssh.allocations && Live(ssh.allocations[id].data) && w.privateIPv4 != "" {
        ghost var before := Net();
        RefreshLive(id, SSHExposure(w, ssh.allocations[id].data.publicPort, w.privateIPv4), faults);
        StepOfLive(exposureMgr.engine, before, Net(), Refresh(w, faults));
      }
    }

    // Marks the port as active and refreshes its exposure.
    method RefreshLive(id: string, e: Exposure, faults: PublishFaults)
      requires Valid() && NetworkValid() && faults.Possible()
      modifies ssh.records, ssh.store, exposureMgr, exposureMgr.records, exposureMgr.store, exposureMgr.driver
      ensures Valid() && NetworkValid() && Contents() == old(Contents())
      ensures fresh(exposureMgr.records - old(exposureMgr.records))
      ensures Net().edge == AfterRefresh(exposureMgr.engine, old(Net()).edge, e, faults)
      ensures Net().ports == PortsUpdated(old(Net()).ports, id, ACTIVE, e.internalIP, faults.status == NoFault)
    {
      ActivateSSH(id, e.internalIP, faults.status);
      RefreshExposure(e, faults);
    }

    method RefreshUnless(skip: bool, id: string, faults: PublishFaults)
      requires Valid() && NetworkValid() && faults.Possible() && id in workloads
      modifies ssh.records, ssh.store, exposureMgr, exposureMgr.records, exposureMgr.store, exposureMgr.driver
      ensures Valid() && NetworkValid() && Contents() == old(Contents())
      ensures fresh(exposureMgr.records - old(exposureMgr.records))
      ensures Net() == Refreshed(exposureMgr.engine, old(Net()), TurnUnless(skip, Records()[id], faults))
    {
      if !skip {
        RefreshedOnce(exposureMgr.engine, Net(), Refresh(Records()[id], faults));
        RefreshSSHAccess(id, faults);
      }
    }

    // ---------------------------------------------------------- reconciliation

    // Reconciles one workload with what the provider says; after an ambiguous
    // operation its SSH access is not refreshed.
    method ReconcileWorkload(id: string, answers: bool, faults: PublishFaults, last: Fault) returns (after: Option<Workload>)
      requires Valid() && NetworkValid() && faults.Possible() && last.Possible() && !last.StopsBefore?
      modifies cells, store
      modifies ssh.records, ssh.store, exposureMgr, exposureMgr.records, exposureMgr.store, exposureMgr.driver
      ensures Valid() && NetworkValid()
      ensures after == SingleOutcome(old(Records()), provider.instances, id, answers)
      ensures after.None? ==> Records() == old(Records()) && store.main == old(store.main) && Net() == old(Net())
      ensures after.Some? ==>
                Records() == old(Records())[id := after.value] &&
                store.main == (if last == NoFault then Whole(Records()) else old(store.main)) &&
                Net() == Refreshed(exposureMgr.engine, old(Net()), SingleTurn(old(Records())[id], after.value, faults))
    {
      if id !in workloads {
        return None;
      }
      var live := provider.GetInstance(workloads[id].data.spec.name, answers);
      ReconcileFound(id, live, faults, last);
      after := Some(workloads[id].data);
    }

    method ReconcileFound(id: string, live: Option<Instance>, faults: PublishFaults, last: Fault)
      requires Valid() && NetworkValid() && faults.Possible() && id in workloads && last.Possible() && !last.StopsBefore?
      modifies workloads[id], store
      modifies ssh.records, ssh.store, exposureMgr, exposureMgr.records, exposureMgr.store, exposureMgr.driver
      ensures Valid() && NetworkValid()
      ensures workloads[id].data == ReconciledSingle(old(workloads[id].data), live)
      ensures Records() == old(Records())[id := workloads[id].data]
      ensures store.main == if last == NoFault then Whole(Records()) else old(store.main)
      ensures Net() == Refreshed(exposureMgr.engine, old(Net()), SingleTurn(old(workloads[id].data), workloads[id].data, faults))
    {
      var ambiguous := Ambiguous(workloads[id].data.status);
      ReconcileEntry(id, live);
      RefreshAndSave(ambiguous, id, faults, last);
    }

    method RefreshAndSave(skip: bool, id: string, faults: PublishFaults, last: Fault)
      requires Valid() && NetworkValid() && faults.Possible() && id in workloads && last.Possible() && !last.StopsBefore?
      modifies store, ssh.records, ssh.store
      modifies exposureMgr, exposureMgr.records, exposureMgr.store, exposureMgr.driver
      ensures Valid() && NetworkValid() && Records() == old(Records())
      ensures store.main == if last == NoFault then Whole(old(Records())) else old(store.main)
      ensures Net() == Refreshed(exposureMgr.engine, old(Net()), TurnUnless(skip, Records()[id], faults))
    {
      RefreshUnless(skip, id, faults);
      var _ := SaveStore(last);
    }

    method ReconcileEntry(id: string, live: Option<Instance>)
      requires Valid() && NetworkValid() && id in workloads
      modifies workloads[id]
      ensures Valid() && NetworkValid() && Net() == old(Net())
      ensures workloads[id].data == ReconciledSingle(old(workloads[id].data), live)
      ensures Records() == old(Records())[id := workloads[id].data]
    {
      ReconcileRecord(workloads[id], live);
    }

    method ReconcileRecord(record: WorkloadRecord, live: Option<Instance>)
      modifies record
      ensures record.data == ReconciledSingle(old(record.data), live)
    {
      var w := record.data;
      if Ambiguous(w.status) {
        if live.None? || !OwnedBy(live.value, w.id) {
          record.data := w.(status := Status.FAILED);
          return;
        }
        record.data := w.(actualState := live.value.state, privateIPv4 := AddressAfter(w, live.value),
                          status := if live.value.state == Running then RUNNING else STOPPED);
        return;
      }
      var reconciled := Reconcile(Some(MetadataOf(w)), live).value;
      record.data := w.(actualState := reconciled.authoritativeState, syncStatus := reconciled.syncStatus);
      if HasAddress(live) {
        record.data := record.data.(privateIPv4 := live.value.ipAddress);
      }
      record.data := record.data.(status := StatusAfter(w.status, reconciled));
    }

    // One turn of the bulk pass.
    method ReconcileInBulk(record: WorkloadRecord, index: map<string, Instance>)
      modifies record
      ensures record.data == ReconciledBulk(old(record.data), Lookup(index, IndexName(old(record.data))))
    {
      var w := record.data;
      if w.status == DRAFT {
        return;
      }
      var target := if w.providerInstanceID == "" then w.spec.name else w.providerInstanceID;
      if target !in index {
        record.data := w.(actualState := UnknownState, status := ORPHANED, syncStatus := ProviderMissing);
        return;
      }
      var inst := index[target];
      var reconciled := Reconcile(Some(MetadataOf(w)), Some(inst)).value;
      record.data := w.(actualState := reconciled.authoritativeState, syncStatus := reconciled.syncStatus);
      if inst.ipAddress != "" {
        record.data := record.data.(privateIPv4 := inst.ipAddress);
      }
      record.data := record.data.(status := StatusAfter(w.status, reconciled));
    }

    method IndexByName(list: seq<Instance>) returns (index: map<string, Instance>)
      ensures index == NameIndex(list)
    {
      index := map[];
      for i := 0 to |list|
        invariant index == NameIndex(list[..i])
      {
        index := index[list[i].name := list[i]];
        assert list[..i + 1][..i] == list[..i];
      }
      assert list[..|list|] == list;
    }

    // The turn of one workload: drafts are passed over.
    method ReconcileTurn(id: string, index: map<string, Instance>, faults: PublishFaults)
      requires Valid() && NetworkValid() && faults.Possible() && id in workloads
      modifies workloads[id]
      modifies ssh.records, ssh.store, exposureMgr, exposureMgr.records, exposureMgr.store, exposureMgr.driver
      ensures Valid() && NetworkValid()
      ensures workloads[id].data == ReconciledBulk(old(workloads[id].data), Lookup(index, IndexName(old(workloads[id].data))))
      ensures Records() == old(Records())[id := workloads[id].data]
      ensures Net() == Refreshed(exposureMgr.engine, old(Net()), BulkTurn(old(workloads[id].data), workloads[id].data, faults))
      ensures fresh(exposureMgr.records - old(exposureMgr.records))
    {
      var draft := workloads[id].data.status == DRAFT;
      ReconcileEntryInBulk(id, index);
      RefreshUnless(draft, id, faults);
    }

    method ReconcileEntryInBulk(id: string, index: map<string, Instance>)
      requires Valid() && NetworkValid() && id in workloads
      modifies workloads[id]
      ensures Valid() && NetworkValid() && Net() == old(Net()) && exposureMgr.records == old(exposureMgr.records)
      ensures workloads[id].data == ReconciledBulk(old(workloads[id].data), Lookup(index, IndexName(old(workloads[id].data))))
      ensures Records() == old(Records())[id := workloads[id].data]
    {
      ReconcileInBulk(workloads[id], index);
    }

    // In the middle of a pass: the workloads of the course had their turn, those
    // in left are still to come.
    ghost predicate MidPass(pass: Pass, left: set<string>, c: Course)
      reads this, cells, planCells
      reads exposureMgr, exposureMgr.records, exposureMgr.store, exposureMgr.driver, ssh, ssh.records, ssh.store
    {
      Valid() && NetworkValid() && left <= workloads.Keys && Underway(exposureMgr.engine, pass, left, c, Standing())
    }

    lemma PassStarts(index: map<string, Instance>, faults: string -> PublishFaults)
      requires Valid() && NetworkValid()
      ensures MidPass(Pass(Records(), Net(), index, faults), workloads.Keys, Begun)
    {
    }

    ghost function Standing(): Progress
      reads this, cells
      reads exposureMgr, exposureMgr.records, exposureMgr.store, exposureMgr.driver, ssh, ssh.records, ssh.store
    {
      Progress(Records(), Net())
    }

    // Every workload has its turn, in whatever order the map is walked.
    method ReconcileRecords(ghost pass: Pass, index: map<string, Instance>, faults: string -> PublishFaults)
      returns (ghost c: Course)
      requires MidPass(pass, workloads.Keys, Begun) && EachPossible(faults) && index == pass.index && faults == pass.faults
      modifies cells
      modifies ssh.records, ssh.store, exposureMgr, exposureMgr.records, exposureMgr.store, exposureMgr.driver
      ensures MidPass(pass, {}, c)
    {
      c := Begun;
      var left := workloads.Keys;
      while left != {}
        invariant MidPass(pass, left, c)
        invariant fresh(exposureMgr.records - old(exposureMgr.records))
      {
        left, c := ReconcileSome(pass, index, faults, left, c);
      }
    }

    method ReconcileSome(
      ghost pass: Pass, index: map<string, Instance>, faults: string -> PublishFaults, left: set<string>, ghost c: Course)
      returns (rest: set<string>, ghost more: Course)
      requires MidPass(pass, left, c) && EachPossible(faults) && left != {} && index == pass.index && faults == pass.faults
      modifies cells
      modifies ssh.records, ssh.store, exposureMgr, exposureMgr.records, exposureMgr.store, exposureMgr.driver
      ensures rest < left && MidPass(pass, rest, more)
      ensures fresh(exposureMgr.records - old(exposureMgr.records))
    {
      var id :| id in left;
      ghost var now := Standing();
      ReconcileTurn(id, index, faults(id));
      PassAdvances(exposureMgr.engine, pass, left, c, now, id, Standing());
      rest, more := left - {id}, Turned(c, id, Standing());
    }

    method ReconcileAndSave(list: seq<Instance>, faults: string -> PublishFaults, last: Fault) returns (ghost c: Course)
      requires Valid() && NetworkValid() && EachPossible(faults) && last.Possible() && !last.StopsBefore?
      modifies cells, store
      modifies ssh.records, ssh.store, exposureMgr, exposureMgr.records, exposureMgr.store, exposureMgr.driver
      ensures MidPass(Pass(old(Records()), old(Net()), NameIndex(list), faults), {}, c)
      ensures store.main == if last == NoFault then Whole(Records()) else old(store.main)
    {
      ghost var pass := Pass(Records(), Net(), NameIndex(list), faults);
      var index := IndexByName(list);
      PassStarts(NameIndex(list), faults);
      c := ReconcileRecords(pass, index, faults);
      SavePass(pass, c, last);
    }

    method SavePass(ghost pass: Pass, ghost c: Course, fault: Fault)
      requires MidPass(pass, {}, c) && fault.Possible() && !fault.StopsBefore?
      modifies store
      ensures MidPass(pass, {}, c)
      ensures store.main == if fault == NoFault then Whole(Records()) else old(store.main)
    {
      var _ := SaveStore(fault);
    }

    // The bulk pass: ports seen at the provider are registered first, then all
    // workloads are reconciled against one list of instances, then saved.
    // Without a list from the provider nothing happens. Each refresh has outcomes
    // of its own.
    method ReconcileAll(list: Option<seq<Instance>>, discovered: Fault, faults: string -> PublishFaults, last: Fault)
      returns (ghost found: seq<Finding<SSHAllocation>>, ghost c: Course)
      requires Valid() && NetworkValid() && EachPossible(faults)
      requires discovered.Possible() && !discovered.StopsBefore? && last.Possible() && !last.StopsBefore?
      modifies cells, store, ssh, ssh.records, ssh.store
      modifies exposureMgr, exposureMgr.records, exposureMgr.store, exposureMgr.driver
      ensures list.None? ==> Records() == old(Records()) && store.main == old(store.main) && Net() == old(Net())
      ensures list.Some? ==>
                FreshFindings(old(Net()).ports.book, found) &&
                MidPass(Pass(old(Records()), WithFindings(old(Net()), found, discovered == NoFault), NameIndex(list.value), faults),
                        {}, c) &&
                store.main == if last == NoFault then Whole(Records()) else old(store.main)
    {
      if list.None? {
        return [], Begun;
      }
      found := RegisterSeenPorts(list.value, discovered);
      c := ReconcileAndSave(list.value, faults, last);
    }

    // At the end of a pass every workload is what ReconciledBulk makes of it, in
    // whatever order they came; every one but the drafts was refreshed exactly
    // once, with the outcomes of its own turn; so a network that was safe is safe.
    lemma PassEnds(pass: Pass, c: Course)
      requires MidPass(pass, {}, c)
      ensures forall k :: k in pass.workloads ==> TurnsOf(c, k) == 1
      ensures Records() == ReconciledRecords(pass.workloads, pass.index)
      ensures Net() == Refreshed(exposureMgr.engine, pass.network, RefreshesOf(pass, c))
      ensures SafeNetwork(pass.network) ==> SafeNetwork(Net())
    {
      var now := Standing();
      TurnsInAnyOrder(exposureMgr.engine, pass, {}, c, now);
      RefreshesInOrder(exposureMgr.engine, pass, {}, c, now);
      forall k | k in pass.workloads ensures TurnsOf(c, k) == 1 {
        OneTurnEach(exposureMgr.engine, pass, {}, c, now, k);
      }
      if SafeNetwork(pass.network) {
        RefreshingKeepsSafe(exposureMgr.engine, pass.network, RefreshesOf(pass, c));
      }
    }

    method RegisterSeenPorts(list: seq<Instance>, fault: Fault) returns (ghost found: seq<Finding<SSHAllocation>>)
      requires Valid() && NetworkValid() && fault.Possible() && !fault.StopsBefore?
      modifies ssh, ssh.store
      ensures Valid() && NetworkValid() && Records() == old(Records())
      ensures EveryOccupied(ssh.portMap.Keys, list) && fresh(ssh.records - old(ssh.records))
      ensures FreshFindings(old(Net()).ports.book, found) && Net() == WithFindings(old(Net()), found, fault == NoFault)
    {
      found := ssh.ReconcileFromProviderInstances(list, fault);
    }

    // ------------------------------------------------ start, stop and restart

    method SetDesired(id: string, power: Power)
      requires Valid() && NetworkValid() && id in workloads
      modifies workloads[id]
      ensures Valid() && NetworkValid() && Net() == old(Net()) && Plans() == old(Plans())
      ensures Records() == old(Records())[id := Ordered(old(Records())[id], power)]
    {
      if power == PowerCycle {
        assert Records() == Records()[id := Records()[id]];
      } else {
        SetWorkload(id, workloads[id].data.(desiredState := PoweredState(power)));
      }
    }

    method BeginPower(id: string, power: Power) returns (result: PowerResult)
      requires Valid() && NetworkValid()
      modifies cells
      ensures Valid() && NetworkValid() && Net() == old(Net())
      ensures result == PowerResultOf(old(Contents()), id, power)
      ensures Contents() == AfterPower(old(Contents()), id, power)
      ensures result == PowerProceeds ==>
                id in workloads && Records() == old(Records())[id := Ordered(old(Records())[id], power)]
    {
      if id !in workloads {
        return PowerNotFound;
      }
      var status := workloads[id].data.status;
      if (power == PowerOn && status == RUNNING) || (power == PowerOff && status == STOPPED) {
        return NothingToDo;
      }
      if status == Status.PROVISIONING || (power != PowerOff && status == Status.UNKNOWN) {
        return IllegalState;
      }
      SetDesired(id, power);
      return PowerProceeds;
    }

    method CommandPower(name: string, power: Power, faults: PowerFaults)
      requires Valid() && NetworkValid() && provider.Valid()
      modifies provider
      ensures Valid() && NetworkValid() && provider.Valid() && OthersUnchanged()
      ensures PoweredAs(old(provider.instances), provider.instances, name, power, faults)
    {
      provider.PowerInstance(name, power, faults.obeyed, faults.address);
    }

    // The command goes to the instance that has the workload's name; whose it is
    // is not looked at. A success is followed by a reconciliation.
    method PowerWorkload(id: string, power: Power, faults: PowerFaults) returns (result: PowerResult, after: Option<Workload>)
      requires Valid() && NetworkValid() && provider.Valid() && faults.Possible()
      modifies cells, store, provider
      modifies ssh.records, ssh.store, exposureMgr, exposureMgr.records, exposureMgr.store, exposureMgr.driver
      ensures Valid() && NetworkValid() && provider.Valid()
      ensures result == PowerResultOf(old(Contents()), id, power)
      ensures result != PowerProceeds ==>
                after.None? && Records() == old(Records()) && Net() == old(Net()) && provider.instances == old(provider.instances)
      ensures result == PowerProceeds ==>
                var w := Ordered(old(Records())[id], power);
                CommandedAs(old(Records()), Records(), old(provider.instances), provider.instances, w, power, faults, after) &&
                Net() == Refreshed(exposureMgr.engine, old(Net()), PowerTurn(w, after, faults))
      ensures store.main == if after.Some? && faults.last == NoFault then Whole(Records()) else old(store.main)
    {
      after := None;
      result := BeginPower(id, power);
      if result != PowerProceeds {
        return;
      }
      ghost var before, w := Records(), Records()[id];
      after := CommandAndReconcile(id, power, faults);
      CommandedSince(old(Records()), before, Records(), old(provider.instances), provider.instances, w, power, faults, after);
    }

    method CommandAndReconcile(id: string, power: Power, faults: PowerFaults) returns (after: Option<Workload>)
      requires Valid() && NetworkValid() && provider.Valid() && faults.Possible() && id in workloads
      modifies cells, store, provider
      modifies ssh.records, ssh.store, exposureMgr, exposureMgr.records, exposureMgr.store, exposureMgr.driver
      ensures Valid() && NetworkValid() && provider.Valid()
      ensures CommandedAs(old(Records()), Records(), old(provider.instances), provider.instances, old(Records())[id], power,
                          faults, after)
      ensures Net() == Refreshed(exposureMgr.engine, old(Net()), PowerTurn(old(Records())[id], after, faults))
      ensures store.main == if after.Some? && faults.last == NoFault then Whole(Records()) else old(store.main)
    {
      after := None;
      CommandPower(workloads[id].data.spec.name, power, faults);
      if faults.reported {
        after := ReconcileWorkload(id, faults.answers, faults.publish, faults.last);
      }
    }

    // ---------------------------------------------------------------- deletion

    // The outcome of a single deletion is ignored.
    method DropExposure(k: string, links: Links, saves: string -> Fault)
      requires exposureMgr.Valid() && SavesPossible(saves)
      modifies exposureMgr, exposureMgr.store, exposureMgr.driver
      ensures exposureMgr.Valid() && exposureMgr.Contents() == old(exposureMgr.Contents()) - {k}
      ensures ShrunkTo(old(exposureMgr.State()), exposureMgr.State(), AllSaved(saves))
    {
      ShrunkByOne(exposureMgr.State(), k, saves(k) == NoFault, AllSaved(saves));
      var _ := exposureMgr.DeleteNetworkExposure(k, links(k), saves(k));
    }

    method DropExposures(ids: set<string>, links: Links, saves: string -> Fault)
      requires exposureMgr.Valid() && SavesPossible(saves)
      modifies exposureMgr, exposureMgr.store, exposureMgr.driver
      ensures exposureMgr.Valid() && exposureMgr.Contents() == old(exposureMgr.Contents()) - ids
      ensures ShrunkTo(old(exposureMgr.State()), exposureMgr.State(), AllSaved(saves))
    {
      var left := ids;
      while left != {}
        invariant left <= ids && exposureMgr.Valid()
        invariant exposureMgr.Contents() == old(exposureMgr.Contents()) - (ids - left)
        invariant ShrunkTo(old(exposureMgr.State()), exposureMgr.State(), AllSaved(saves))
      {
        var k :| k in left;
        left := left - {k};
        ghost var before := exposureMgr.State();
        DropExposure(k, links, saves);
        ShrunkFurther(old(exposureMgr.State()), before, exposureMgr.State(), AllSaved(saves));
      }
    }

    // Deletes the workload's own ssh exposure, then every exposure listed for it.
    method DropOwned(id: string, links: Links, saves: string -> Fault)
      requires exposureMgr.Valid() && SavesPossible(saves)
      modifies exposureMgr, exposureMgr.store, exposureMgr.driver
      ensures exposureMgr.Valid() && exposureMgr.Contents() == Cleaned(old(exposureMgr.Contents()), id)
      ensures ShrunkTo(old(exposureMgr.State()), exposureMgr.State(), AllSaved(saves))
    {
      CleanedInTwo(exposureMgr.Contents(), id);
      DropExposure(SSHExposureID(id), links, saves);
      ghost var before := exposureMgr.State();
      DropListed(id, links, saves);
      ShrunkFurther(old(exposureMgr.State()), before, exposureMgr.State(), AllSaved(saves));
    }

    method DropListed(id: string, links: Links, saves: string -> Fault)
      requires exposureMgr.Valid() && SavesPossible(saves)
      modifies exposureMgr, exposureMgr.store, exposureMgr.driver
      ensures exposureMgr.Valid()
      ensures exposureMgr.Contents() == old(exposureMgr.Contents()) - ListedFor(old(exposureMgr.Contents()), id)
      ensures ShrunkTo(old(exposureMgr.State()), exposureMgr.State(), AllSaved(saves))
    {
      var ids := exposureMgr.ListWorkloadExposures(id);
      DropExposures(ids, links, saves);
    }

    method RemoveExposures(id: string, links: Links, saves: string -> Fault)
      requires Valid() && NetworkValid() && SavesPossible(saves)
      modifies exposureMgr, exposureMgr.store, exposureMgr.driver
      ensures Valid() && NetworkValid() && Contents() == old(Contents()) && Net().ports == old(Net()).ports
      ensures Net().edge.state.registry == Cleaned(old(Net()).edge.state.registry, id)
      ensures ShrunkTo(old(Net()).edge.state, Net().edge.state, AllSaved(saves))
    {
      DropOwned(id, links, saves);
    }

    method ReleaseSSHPort(id: string, fault: Fault)
      requires Valid() && NetworkValid() && fault.Possible() && !fault.StopsBefore?
      modifies ssh, ssh.records, ssh.store
      ensures Valid() && NetworkValid() && Contents() == old(Contents())
      ensures var n := old(Net()); Net() == n.(ports := PortsReleased(n.ports, id, fault == NoFault))
    {
      ssh.ReleasePort(id, fault);
    }

    // Removes what belongs to the workload outside the manager.
    method CleanUpNetwork(id: string, faults: DeleteFaults)
      requires Valid() && NetworkValid() && faults.Possible()
      modifies exposureMgr, exposureMgr.store, exposureMgr.driver, ssh, ssh.records, ssh.store
      ensures Valid() && NetworkValid() && Contents() == old(Contents())
      ensures NetworkCleaned(old(Net()), Net(), id, faults)
    {
      RemoveExposures(id, faults.links, faults.saves);
      ReleaseSSHPort(id, faults.release);
    }

    method ForgetAll(id: string)
      requires Valid()
      modifies this`workloads, this`plans
      ensures Valid() && NetworkKept() && Records() == old(Records()) - {id} && Plans() == old(Plans()) - {id}
    {
      workloads, plans := workloads - {id}, plans - {id};
    }

    method Remove(id: string, fault: Fault)
      requires Valid() && fault.Possible() && !fault.StopsBefore?
      modifies this`workloads, this`cells, this`plans, this`planCells, store
      ensures Valid() && NetworkKept() && Records() == old(Records()) - {id} && Plans() == old(Plans()) - {id}
      ensures store.main == if fault == NoFault then Whole(Records()) else old(store.main)
    {
      ForgetAll(id);
      var _ := SaveStore(fault);
    }

    // What follows the provider's deletion.
    method RemoveEverywhere(id: string, faults: DeleteFaults)
      requires Valid() && NetworkValid() && faults.Possible()
      modifies this`workloads, this`cells, this`plans, this`planCells, store
      modifies exposureMgr, exposureMgr.store, exposureMgr.driver, ssh, ssh.records, ssh.store
      ensures Valid() && NetworkValid()
      ensures Contents() == AfterRemove(old(Contents()), id)
      ensures NetworkCleaned(old(Net()), Net(), id, faults)
      ensures store.main == if faults.last == NoFault then Whole(Records()) else old(store.main)
    {
      CleanUpNetwork(id, faults);
      Remove(id, faults.last);
    }

    // Nothing but the provider changes.
    twostate predicate OthersUnchanged()
      reads this, cells, planCells, guard, store, exposureMgr, exposureMgr.records, exposureMgr.store, exposureMgr.driver,
            ssh, ssh.records, ssh.store
    {
      Contents() == old(Contents()) && store.main == old(store.main) && NetworkKept()
    }

    // Asks the provider to delete the workload's instance, unless the lookup
    // finds one that belongs to somebody else.
    method DeleteOwned(w: Workload, faults: DeleteFaults) returns (result: DeleteResult)
      requires Valid() && provider.Valid() && NetworkValid()
      modifies provider
      ensures Valid() && provider.Valid() && NetworkValid() && OthersUnchanged()
      ensures result == DeleteVerdict(w, old(provider.instances), faults)
      ensures provider.instances == if result.Deleted? then old(provider.instances) - {w.spec.name} else old(provider.instances)
    {
      var found := provider.GetInstance(w.spec.name, faults.answers);
      if found.Some? && !OwnedBy(found.value, w.id) {
        return OwnershipConflict;
      }
      var ok := provider.DeleteInstance(w.spec.name, faults.obeys);
      return if ok then Deleted else ProviderFailed;
    }

    method DeleteWorkload(id: string, faults: DeleteFaults) returns (result: DeleteResult)
      requires Valid() && provider.Valid() && NetworkValid() && faults.Possible()
      modifies this`workloads, this`cells, this`plans, this`planCells, store, provider
      modifies exposureMgr, exposureMgr.store, exposureMgr.driver, ssh, ssh.records, ssh.store
      ensures Valid() && provider.Valid() && NetworkValid()
      ensures result.NoSuchWorkload? <==> id !in old(workloads)
      ensures id in old(workloads) ==>
                result == DeleteVerdict(old(workloads[id].data), old(provider.instances), faults)
      // a success removes the workload everywhere, and its own instance
      ensures result.Deleted? ==>
                Contents() == AfterRemove(old(Contents()), id) &&
                NetworkCleaned(old(Net()), Net(), id, faults) &&
                provider.instances == old(provider.instances) - {old(workloads[id].data).spec.name} &&
                store.main == if faults.last == NoFault then Whole(Records()) else old(store.main)
      // the ports stay consistent exactly when the release is harmless
      ensures result.Deleted? && Consistent(old(ssh.Contents())) ==>
                (Consistent(ssh.Contents()) <==> ReleaseHarmless(old(ssh.Contents()), id))
      // anything else removes nothing
      ensures !result.Deleted? ==> OthersUnchanged() && provider.instances == old(provider.instances)
    {
      if id !in workloads {
        return NoSuchWorkload;
      }
      result := DeleteRegistered(id, workloads[id].data, faults);
      if result.Deleted? {
        DeletionSafeIff(old(Net()), Net(), id, faults);
      }
    }

    method DeleteRegistered(id: string, w: Workload, faults: DeleteFaults) returns (result: DeleteResult)
      requires Valid() && provider.Valid() && NetworkValid() && faults.Possible()
      modifies this`workloads, this`cells, this`plans, this`planCells, store, provider
      modifies exposureMgr, exposureMgr.store, exposureMgr.driver, ssh, ssh.records, ssh.store
      ensures Valid() && provider.Valid() && NetworkValid()
      ensures result == DeleteVerdict(w, old(provider.instances), faults)
      ensures result.Deleted? ==>
                Contents() == AfterRemove(old(Contents()), id) &&
                NetworkCleaned(old(Net()), Net(), id, faults) &&
                provider.instances == old(provider.instances) - {w.spec.name} &&
                store.main == if faults.last == NoFault then Whole(Records()) else old(store.main)
      ensures !result.Deleted? ==> OthersUnchanged() && provider.instances == old(provider.instances)
    {
      result := DeleteOwned(w, faults);
      if result.Deleted? {
        RemoveEverywhere(id, faults);
      }
    }

    // ------------------------------------------------- a whole provisioning call

    // A failed creation gives the port back.
    method FailCreation(id: string, hash: string, faults: ProvisionFaults)
      requires Valid() && NetworkValid() && faults.Possible() && id in workloads
      modifies workloads[id], guard, ssh, ssh.records, ssh.store
      ensures Valid() && NetworkValid()
      ensures Contents() == AfterFailedCreate(old(Contents()), id, hash, TimedOut(faults)) && store.main == old(store.main)
      ensures var n := old(Net()); Net() == n.(ports := PortsReleased(n.ports, id, faults.release == NoFault))
    {
      ReleaseSSHPort(id, faults.release);
      RecordFailure(id, hash, TimedOut(faults));
    }

    method Launch(name: string, faults: ProvisionFaults) returns (ok: bool, live: Option<Instance>)
      requires Valid() && NetworkValid() && provider.Valid()
      modifies provider
      ensures Valid() && NetworkValid() && provider.Valid()
      ensures Contents() == old(Contents()) && store.main == old(store.main) && Net() == old(Net())
      ensures LaunchedAs(old(provider.instances), provider.instances, name, faults, ok, live)
    {
      live := None;
      ok := provider.CreateInstance(faults.launched.(name := name), faults.creation);
      if ok {
        provider.StartInstance(name, faults.state, faults.address);
        live := provider.GetInstance(name, faults.seen);
      }
    }

    // Publishes the port when the instance has an address, then marks the
    // workload as running.
    method Complete(id: string, hash: string, port: int, live: Option<Instance>, faults: ProvisionFaults)
      requires Valid() && NetworkValid() && faults.Possible() && id in workloads
      modifies workloads[id], guard, store
      modifies ssh.records, ssh.store, exposureMgr, exposureMgr.records, exposureMgr.store, exposureMgr.driver
      ensures Valid() && NetworkValid()
      ensures Contents() == AfterFinish(old(Contents()), id, hash, live)
      ensures Net() == AfterCreation(exposureMgr.engine, old(Net()), old(Records())[id], port, Provisioned, live, faults)
      ensures store.main == if faults.last == NoFault then Whole(Records()) else old(store.main)
    {
      PublishAt(id, port, live, faults);
      Finish(id, hash, live, faults.last);
    }

    method PublishAt(id: string, port: int, live: Option<Instance>, faults: ProvisionFaults)
      requires Valid() && NetworkValid() && faults.Possible() && id in workloads
      modifies ssh.records, ssh.store, exposureMgr, exposureMgr.records, exposureMgr.store, exposureMgr.driver
      ensures Valid() && NetworkValid() && Contents() == old(Contents()) && store.main == old(store.main)
      ensures Net() == AfterCreation(exposureMgr.engine, old(Net()), Records()[id], port, Provisioned, live, faults)
    {
      PublicationIs(exposureMgr.engine, Net(), Records()[id], port, live, faults);
      if HasAddress(live) {
        PublishSSH(id, port, live.value.ipAddress, faults.publish);
      }
    }

    // Creates, starts and publishes the instance of a workload that has passed
    // the check and the lookup and holds the port.
    method CreateAndPublish(id: string, hash: string, port: int, faults: ProvisionFaults)
      returns (result: ProvisionResult, live: Option<Instance>)
      requires Valid() && NetworkValid() && provider.Valid() && faults.Possible() && id in workloads
      modifies workloads[id], guard, store, provider, ssh, ssh.records, ssh.store
      modifies exposureMgr, exposureMgr.records, exposureMgr.store, exposureMgr.driver
      ensures Valid() && NetworkValid() && provider.Valid()
      ensures result.CreationFailed? || result.Provisioned?
      ensures LaunchedAs(old(provider.instances), provider.instances, old(Records())[id].spec.name, faults, result.Provisioned?, live)
      ensures Contents() == if result.Provisioned? then AfterFinish(old(Contents()), id, hash, live)
                            else AfterFailedCreate(old(Contents()), id, hash, TimedOut(faults))
      ensures EndsAs(old(Contents()), Contents(), id, hash, result, None, TimedOut(faults), live)
      ensures Net() == AfterCreation(exposureMgr.engine, old(Net()), old(Records())[id], port, result, live, faults)
      ensures store.main == if result.Provisioned? && faults.last == NoFault then Whole(Records()) else old(store.main)
    {
      var ok;
      ok, live := Launch(workloads[id].data.spec.name, faults);
      result := EndCreation(ok, id, hash, port, live, faults);
      EndingIs(old(Contents()), id, hash, result, None, TimedOut(faults), live);
    }

    method EndCreation(ok: bool, id: string, hash: string, port: int, live: Option<Instance>, faults: ProvisionFaults)
      returns (result: ProvisionResult)
      requires Valid() && NetworkValid() && faults.Possible() && id in workloads
      modifies workloads[id], guard, store, ssh, ssh.records, ssh.store
      modifies exposureMgr, exposureMgr.records, exposureMgr.store, exposureMgr.driver
      ensures Valid() && NetworkValid() && result == if ok then Provisioned else CreationFailed
      ensures Contents() == if ok then AfterFinish(old(Contents()), id, hash, live)
                            else AfterFailedCreate(old(Contents()), id, hash, TimedOut(faults))
      ensures Net() == AfterCreation(exposureMgr.engine, old(Net()), old(Records())[id], port, result, live, faults)
      ensures store.main == if ok && faults.last == NoFault then Whole(Records()) else old(store.main)
    {
      if ok {
        Complete(id, hash, port, live, faults);
        return Provisioned;
      }
      FailedCreation(exposureMgr.engine, Net(), Records()[id], port, live, faults);
      FailCreation(id, hash, faults);
      return CreationFailed;
    }

    method ReservePort(id: string, fault: Fault) returns (granted: bool, port: int, ghost grant: AllocateResult)
      requires Valid() && NetworkValid() && id in workloads && fault.Possible() && !fault.StopsBefore?
      modifies ssh, ssh.store
      ensures Valid() && NetworkValid() && Contents() == old(Contents()) && store.main == old(store.main)
      ensures Net().edge == old(Net()).edge && fresh(ssh.records - old(ssh.records))
      ensures granted <==> grant.Granted?
      ensures ReservedAs(old(Net()), Records()[id], fault, Net().ports, grant, port)
    {
      var result := ssh.AllocatePort(id, workloads[id].data.spec.name, fault);
      granted, port, grant := result.Granted?, if result.Granted? then result.record.data.publicPort else 0, result;
    }

    // Goes on to create the instance if a port was granted.
    method CreateWith(id: string, hash: string, granted: bool, port: int, faults: ProvisionFaults)
      returns (result: ProvisionResult, live: Option<Instance>)
      requires Valid() && NetworkValid() && provider.Valid() && faults.Possible() && id in workloads
      modifies workloads[id], guard, store, provider, ssh, ssh.records, ssh.store
      modifies exposureMgr, exposureMgr.records, exposureMgr.store, exposureMgr.driver
      ensures Valid() && NetworkValid() && provider.Valid()
      ensures result.NoPort? || result.CreationFailed? || result.Provisioned?
      ensures result.NoPort? <==> !granted
      ensures Contents() == AfterResult(old(Contents()), id, hash, result, None, TimedOut(faults), live)
      ensures if result.NoPort? then provider.instances == old(provider.instances)
              else LaunchedAs(old(provider.instances), provider.instances, old(Records())[id].spec.name, faults, result.Provisioned?, live)
      ensures Net() == AfterCreation(exposureMgr.engine, old(Net()), old(Records())[id], port, result, live, faults)
      ensures store.main == if result.Provisioned? && faults.last == NoFault then Whole(Records()) else old(store.main)
    {
      if !granted {
        SetStatus(id, Status.FAILED);
        return NoPort, None;
      }
      result, live := CreateAndPublish(id, hash, port, faults);
    }

    method ReserveAndCreate(id: string, hash: string, faults: ProvisionFaults)
      returns (result: ProvisionResult, live: Option<Instance>, ghost port: int, ghost reserved: Ports<SSHAllocation>,
               ghost grant: AllocateResult)
      requires Valid() && NetworkValid() && provider.Valid() && faults.Possible() && id in workloads
      modifies workloads[id], guard, store, provider, ssh, ssh.records, ssh.store
      modifies exposureMgr, exposureMgr.records, exposureMgr.store, exposureMgr.driver
      ensures Valid() && NetworkValid() && provider.Valid()
      ensures result.NoPort? || result.CreationFailed? || result.Provisioned?
      ensures result.NoPort? <==> !grant.Granted?
      ensures Contents() == AfterResult(old(Contents()), id, hash, result, None, TimedOut(faults), live)
      ensures if result.NoPort? then provider.instances == old(provider.instances)
              else LaunchedAs(old(provider.instances), provider.instances, old(Records())[id].spec.name, faults, result.Provisioned?, live)
      ensures ReservedAs(old(Net()), old(Records())[id], faults.reserve, reserved, grant, port)
      ensures Net() == AfterCreation(exposureMgr.engine, old(Net()).(ports := reserved), old(Records())[id], port, result, live, faults)
      ensures store.main == if result.Provisioned? && faults.last == NoFault then Whole(Records()) else old(store.main)
    {
      var granted, p;
      granted, p, grant := ReservePort(id, faults.reserve);
      port, reserved := p, Net().ports;
      result, live := CreateWith(id, hash, granted, p, faults);
    }

    // What follows a passed check on a capable provider.
    method Execute(id: string, hash: string, faults: ProvisionFaults)
      returns (result: ProvisionResult, live: Option<Instance>, ghost port: int, ghost reserved: Ports<SSHAllocation>)
      requires Valid() && NetworkValid() && provider.Valid() && faults.Possible() && id in workloads
      modifies workloads[id], guard, store, provider, ssh, ssh.records, ssh.store
      modifies exposureMgr, exposureMgr.records, exposureMgr.store, exposureMgr.driver
      ensures Valid() && NetworkValid() && provider.Valid()
      ensures result.Resolved? || result.NoPort? || result.CreationFailed? || result.Provisioned?
      ensures var name := old(Records())[id].spec.name;
              var found := if faults.answers then Lookup(old(provider.instances), name) else None;
              (result.Resolved? <==> found.Some?) &&
              (result.Resolved? ==> result.ok == OwnedAndEqual(found.value, old(Records())[id])) &&
              Contents() == AfterResult(old(Contents()), id, hash, result, found, TimedOut(faults), live) &&
              if result.CreationFailed? || result.Provisioned?
              then LaunchedAs(old(provider.instances), provider.instances, name, faults, result.Provisioned?, live)
              else provider.instances == old(provider.instances)
      ensures NetworkProvisioned(exposureMgr.engine, old(Net()), Net(), old(Records())[id], result, live, port, reserved, faults)
      ensures store.main == if result.Provisioned? && faults.last == NoFault then Whole(Records()) else old(store.main)
    {
      live, port, reserved := None, 0, Net().ports;
      var found := provider.GetInstance(workloads[id].data.spec.name, faults.answers);
      if found.Some? {
        NothingProvisioned(exposureMgr.engine, Net(), Records()[id], Resolved(OwnedAndEqual(found.value, Records()[id])), faults);
        var ok := ResolveExisting(id, hash, found.value);
        return Resolved(ok), live, port, reserved;
      }
      ghost var before, w, grant := Net(), Records()[id], WorkloadRequired;
      result, live, port, reserved, grant := ReserveAndCreate(id, hash, faults);
      ReservationProvisions(exposureMgr.engine, before, Net(), w, grant, result, live, port, reserved, faults);
    }

    method ExecuteIfCapable(id: string, hash: string, faults: ProvisionFaults)
      returns (result: ProvisionResult, live: Option<Instance>, ghost port: int, ghost reserved: Ports<SSHAllocation>)
      requires Valid() && NetworkValid() && provider.Valid() && faults.Possible() && id in workloads
      modifies workloads[id], guard, store, provider, ssh, ssh.records, ssh.store
      modifies exposureMgr, exposureMgr.records, exposureMgr.store, exposureMgr.driver
      ensures Valid() && NetworkValid() && provider.Valid()
      ensures var name := old(Records())[id].spec.name;
              var found := if faults.answers then Lookup(old(provider.instances), name) else None;
              (result.Incapable? <==> !faults.capable) && (result.Resolved? <==> faults.capable && found.Some?) &&
              (result.Resolved? ==> result.ok == OwnedAndEqual(found.value, old(Records())[id])) && !result.NotCleared? &&
              Contents() == AfterResult(old(Contents()), id, hash, result, found, TimedOut(faults), live) &&
              if result.CreationFailed? || result.Provisioned?
              then faults.capable && found.None? &&
                   LaunchedAs(old(provider.instances), provider.instances, name, faults, result.Provisioned?, live)
              else provider.instances == old(provider.instances)
      ensures NetworkProvisioned(exposureMgr.engine, old(Net()), Net(), old(Records())[id], result, live, port, reserved, faults)
      ensures store.main == if result.Provisioned? && faults.last == NoFault then Whole(Records()) else old(store.main)
    {
      if !faults.capable {
        NothingProvisioned(exposureMgr.engine, Net(), Records()[id], Incapable, faults);
        live, port, reserved := None, 0, Net().ports;
        SetStatus(id, Status.FAILED);
        return Incapable, live, port, reserved;
      }
      result, live, port, reserved := Execute(id, hash, faults);
    }

    // A whole call, without another one in between. Creation is only asked for
    // after the check was passed and the lookup found nothing; only a success is
    // saved to the registry's file.
    method ProvisionWorkload(id: string, faults: ProvisionFaults)
      returns (result: ProvisionResult, live: Option<Instance>, ghost port: int, ghost reserved: Ports<SSHAllocation>)
      requires Valid() && NetworkValid() && provider.Valid() && faults.Possible()
      modifies cells, planCells, guard, store, provider, ssh, ssh.records, ssh.store
      modifies exposureMgr, exposureMgr.records, exposureMgr.store, exposureMgr.driver
      ensures Valid() && NetworkValid() && provider.Valid()
      ensures var check := CheckResultOf(world, old(Contents()), id);
              var cleared := AfterCheck(world, old(Contents()), id);
              if check != Proceed then
                result == NotCleared(check) && Contents() == cleared && provider.instances == old(provider.instances) &&
                Net() == old(Net())
              else
                var w, hash := cleared.workloads[id], cleared.plans[id].hash;
                var found := if faults.answers then Lookup(old(provider.instances), w.spec.name) else None;
                Contents() == AfterResult(cleared, id, hash, result, found, TimedOut(faults), live) &&
                NetworkProvisioned(exposureMgr.engine, old(Net()), Net(), w, result, live, port, reserved, faults) &&
                if result.CreationFailed? || result.Provisioned?
                then faults.capable && found.None? &&
                     LaunchedAs(old(provider.instances), provider.instances, w.spec.name, faults, result.Provisioned?, live)
                else provider.instances == old(provider.instances)
      // what this means for the workload and its operation
      ensures CheckResultOf(world, old(Contents()), id) == Proceed ==>
                var w, hash := old(Records())[id], old(Plans())[id].hash;
                var found := if faults.answers then Lookup(old(provider.instances), w.spec.name) else None;
                (result.Incapable? <==> !faults.capable) && (result.Resolved? <==> faults.capable && found.Some?) &&
                (result.Resolved? ==> result.ok == OwnedAndEqual(found.value, w)) && !result.NotCleared? &&
                EndsAs(old(Contents()), Contents(), id, hash, result, found, TimedOut(faults), live)
      ensures store.main == if result.Provisioned? && faults.last == NoFault then Whole(Records()) else old(store.main)
    {
      var check := CheckProvision(id);
      if check != Proceed {
        return NotCleared(check), None, 0, Net().ports;
      }
      ghost var hash, held := plans[id].data.hash, provider.instances;
      result, live, port, reserved := ExecuteIfCapable(id, plans[id].data.hash, faults);
      ghost var found := if faults.answers then Lookup(held, old(Records())[id].spec.name) else None;
      CheckLeavesNoTrace(world, old(Contents()), id, hash, result, found, TimedOut(faults), live);
    }
  }

  // What a provisioning leaves in the port book: the port is the one the workload
  // already held or the lowest that was available; for an id without outer blanks
  // a provisioned workload holds it and a failed creation holds none; the ports of
  // other workloads stay, and the book stays consistent, with the one exception
  // that ProvisionHarmless names.
  ghost predicate BookProvisioned<R>(
    before: Book<R>, reg: Registry, after: Book<R>, id: string, result: ProvisionResult, live: Option<Instance>, port: int)
  {
    && (result.NotCleared? || result.Incapable? || result.Resolved? ==> after == before)
    && (result.NoPort? ==> LiveView(after) == LiveView(before))
    && (result.CreationFailed? || result.Provisioned? ==> PortFor(before, reg, TrimSpace(id), port))
    && (Unpadded(id) && result.Provisioned? ==>
          LiveAt(after, id) && PortOf(after, id) == port &&
          HeldRecord(after.records[after.byWorkload[id]], id, live, !LiveAt(before, id)))
    && (Unpadded(id) && result.CreationFailed? ==> !LiveAt(after, id))
    && (Linked(before) ==> forall w :: w != id && LiveAt(before, w) ==> LiveAt(after, w) && PortOf(after, w) == PortOf(before, w))
    && (Consistent(before) ==> (Consistent(after) <==> ProvisionHarmless(before, id, result, HasAddress(live), port)))
  }

  // The record of a provisioned workload: active at the address of the instance, once
  // that has one; a newly granted one forwards to port 22, and is otherwise as granted.
  predicate HeldRecord(a: Allocation, id: string, live: Option<Instance>, granted: bool) {
    && (HasAddress(live) ==> a.status == ACTIVE && a.privateIP == live.value.ipAddress)
    && (granted ==> a.workloadID == id && a.destinationPort == 22 && a.protocol == "TCP")
    && (granted && !HasAddress(live) ==> a.status == ALLOCATED && a.privateIP == "")
  }

  // There is a port to be had: one that w holds, or, if it can be saved, a free one.
  ghost predicate PortToBeHad<R>(b: Book<R>, reg: Registry, w: string, fault: Fault) {
    w != "" && (LiveAt(b, w) || (fault == NoFault && exists p :: Available(b, reg, p)))
  }

  predicate Unpadded(id: string) { id != "" && TrimSpace(id) == id }

  // The port that an allocation for w grants.
  ghost predicate PortFor<R>(before: Book<R>, reg: Registry, w: string, port: int) {
    w != "" && if LiveAt(before, w) then port == PortOf(before, w) else Lowest(before, reg, port)
  }

  // The id has no record, or a live one.
  predicate NothingReleased<R>(b: Book<R>, id: string) {
    id !in b.byWorkload || b.byWorkload[id] !in b.records || LiveAt(b, id)
  }

  // Harmless in every outcome when, already before the call, the id has no outer
  // blanks or no released record. Otherwise it depends on the outcome:
  // the allocation goes to the trimmed id, the later release or activation to the
  // id as it is. For an id with outer blanks that has a released record of its
  // own, the release takes a port that is in use, and the activation revives a
  // record that the port index does not know.
  predicate ProvisionHarmless<R>(before: Book<R>, id: string, result: ProvisionResult, addressed: bool, port: int) {
    Unpadded(id) || NothingReleased(before, id) ||
    ((result.CreationFailed? ==> PortOf(before, id) != port && !HeldLive(before, PortOf(before, id))) &&
     (result.Provisioned? && addressed ==> IndexedAt(before, id)))
  }

  // Exposures, devices, ports and files after a provisioning that has passed the
  // check.
  ghost predicate NetworkProvisioned<R>(
    engine: AllocatorEngine, before: Network<R>, after: Network<R>, w: Workload, result: ProvisionResult, live: Option<Instance>,
    port: int, reserved: Ports<R>, faults: ProvisionFaults)
  {
    && BookProvisioned(before.ports.book, before.edge.state.registry, after.ports.book, w.id, result, live, port)
    && (result.NoPort? ==> !PortToBeHad(before.ports.book, before.edge.state.registry, TrimSpace(w.id), faults.reserve))
    && (result.CreationFailed? || result.Provisioned? ==>
          PortToBeHad(before.ports.book, before.edge.state.registry, TrimSpace(w.id), faults.reserve))
    && ReservedFrom(before.ports, reserved, faults.reserve) && (Consistent(before.ports.book) ==> Consistent(reserved.book))
    && after == AfterCreation(engine, before.(ports := reserved), w, port, result, live, faults)
  }

  // The port reserved for the workload, and the ports afterwards.
  ghost predicate ReservedAs(
    before: Network<SSHAllocation>, w: Workload, fault: Fault, reserved: Ports<SSHAllocation>, grant: AllocateResult, port: int)
  {
    && AllocateContract(before.ports.book, before.edge.state.registry, TrimSpace(w.id),
                        InstanceNameOr(TrimSpace(w.spec.name), TrimSpace(w.id)), fault, reserved.book, grant)
    && (grant.Granted? ==> grant.record in reserved.book.records && reserved.book.records[grant.record].publicPort == port)
    && ReservedFrom(before.ports, reserved, fault)
  }

  lemma NothingProvisioned<R>(engine: AllocatorEngine, n: Network<R>, w: Workload, result: ProvisionResult, faults: ProvisionFaults)
    requires result.Incapable? || result.Resolved?
    ensures NetworkProvisioned(engine, n, n, w, result, None, 0, n.ports, faults)
  {
  }

  lemma ReservationProvisions(
    engine: AllocatorEngine, before: Network<SSHAllocation>, after: Network<SSHAllocation>, w: Workload, grant: AllocateResult,
    result: ProvisionResult, live: Option<Instance>, port: int, reserved: Ports<SSHAllocation>, faults: ProvisionFaults)
    requires ReservedAs(before, w, faults.reserve, reserved, grant, port)
    requires after == AfterCreation(engine, before.(ports := reserved), w, port, result, live, faults)
    requires result.NoPort? || result.CreationFailed? || result.Provisioned?
    requires result.NoPort? <==> !grant.Granted?
    ensures NetworkProvisioned(engine, before, after, w, result, live, port, reserved, faults)
  {
    var b, reg, name := before.ports.book, before.edge.state.registry, InstanceNameOr(TrimSpace(w.spec.name), TrimSpace(w.id));
    AllocationIsStep(b, reg, TrimSpace(w.id), name, faults.reserve, reserved.book, grant);
    GrantedIff(b, reg, TrimSpace(w.id), name, faults.reserve, reserved.book, grant);
    ReservationIsHeld(b, reg, w.id, name, faults.reserve, reserved.book, grant, result, live, port);
  }

  lemma ReservationIsHeld(
    before: Book<SSHAllocation>, reg: Registry, id: string, name: string, fault: Fault, reserved: Book<SSHAllocation>,
    grant: AllocateResult, result: ProvisionResult, live: Option<Instance>, port: int)
    requires AllocateContract(before, reg, TrimSpace(id), name, fault, reserved, grant)
    requires result.NoPort? || result.CreationFailed? || result.Provisioned?
    requires result.NoPort? <==> !grant.Granted?
    requires grant.Granted? ==> grant.record in reserved.records && reserved.records[grant.record].publicPort == port
    ensures BookProvisioned(before, reg, BookAfter(reserved, id, result, live), id, result, live, port)
  {
    if Linked(before) {
      OthersKeepPorts(before, reg, id, name, fault, reserved, grant, result, live);
    }
    if Consistent(before) {
      ReservationConsistentIff(before, reg, id, name, fault, reserved, grant, result, live, port);
    }
    OwnPortHeld(before, reg, id, name, fault, reserved, grant, result, live, port);
  }

  lemma GrantedIff(
    b: Book<SSHAllocation>, reg: Registry, w: string, name: string, fault: Fault, after: Book<SSHAllocation>, grant: AllocateResult)
    requires AllocateContract(b, reg, w, name, fault, after, grant)
    ensures grant.Granted? <==> PortToBeHad(b, reg, w, fault)
  {
    if w != "" && LowestAvailable(b, reg).Some? {
      assert Available(b, reg, LowestAvailable(b, reg).value);
    }
  }

  lemma OthersKeepPorts(
    before: Book<SSHAllocation>, reg: Registry, id: string, name: string, fault: Fault, reserved: Book<SSHAllocation>,
    grant: AllocateResult, result: ProvisionResult, live: Option<Instance>)
    requires AllocateContract(before, reg, TrimSpace(id), name, fault, reserved, grant) && Linked(before)
    requires result.NoPort? <==> !grant.Granted?
    ensures var after := BookAfter(reserved, id, result, live);
            forall w :: w != id && LiveAt(before, w) ==> LiveAt(after, w) && PortOf(after, w) == PortOf(before, w)
  {
    var after := BookAfter(reserved, id, result, live);
    forall w | w != id && LiveAt(before, w) ensures LiveAt(after, w) && PortOf(after, w) == PortOf(before, w) {
      ReservationKeepsOthers(before, reg, id, name, fault, reserved, grant, w);
    }
  }

  lemma OwnPortHeld(
    before: Book<SSHAllocation>, reg: Registry, id: string, name: string, fault: Fault, reserved: Book<SSHAllocation>,
    grant: AllocateResult, result: ProvisionResult, live: Option<Instance>, port: int)
    requires AllocateContract(before, reg, TrimSpace(id), name, fault, reserved, grant)
    requires result.NoPort? || result.CreationFailed? || result.Provisioned?
    requires result.NoPort? <==> !grant.Granted?
    requires grant.Granted? ==> grant.record in reserved.records && reserved.records[grant.record].publicPort == port
    ensures var after := BookAfter(reserved, id, result, live);
            (result.NoPort? ==> LiveView(after) == LiveView(before)) &&
            (result.CreationFailed? || result.Provisioned? ==> PortFor(before, reg, TrimSpace(id), port)) &&
            (Unpadded(id) && result.Provisioned? ==>
               LiveAt(after, id) && PortOf(after, id) == port &&
               HeldRecord(after.records[after.byWorkload[id]], id, live, !LiveAt(before, id))) &&
            (Unpadded(id) && result.CreationFailed? ==> !LiveAt(after, id))
  {
  }

  lemma ReservationConsistentIff(
    before: Book<SSHAllocation>, reg: Registry, id: string, name: string, fault: Fault, reserved: Book<SSHAllocation>,
    grant: AllocateResult, result: ProvisionResult, live: Option<Instance>, port: int)
    requires AllocateContract(before, reg, TrimSpace(id), name, fault, reserved, grant) && Consistent(before)
    requires result.NoPort? || result.CreationFailed? || result.Provisioned?
    requires result.NoPort? <==> !grant.Granted?
    requires grant.Granted? ==> grant.record in reserved.records && reserved.records[grant.record].publicPort == port
    ensures Consistent(BookAfter(reserved, id, result, live)) <==> ProvisionHarmless(before, id, result, HasAddress(live), port)
  {
    AllocationIsStep(before, reg, TrimSpace(id), name, fault, reserved, grant);
    if result.CreationFailed? {
      ReleaseConsistentIff(reserved, id);
      ReservedReleaseIff(before, reg, id, name, fault, reserved, grant, port);
    } else if result.Provisioned? && HasAddress(live) {
      UpdateConsistentIff(reserved, id, ACTIVE, live.value.ipAddress);
      ReservedUpdateIff(before, reg, id, name, fault, reserved, grant, port);
    }
  }

  lemma ReservedReleaseIff(
    before: Book<SSHAllocation>, reg: Registry, id: string, name: string, fault: Fault, reserved: Book<SSHAllocation>,
    grant: AllocateResult, port: int)
    requires AllocateContract(before, reg, TrimSpace(id), name, fault, reserved, grant) && Consistent(before)
    requires grant.Granted? && grant.record in reserved.records && reserved.records[grant.record].publicPort == port
    ensures ReleaseHarmless(reserved, id) <==> ProvisionHarmless(before, id, CreationFailed, false, port)
  {
    if LiveAt(before, TrimSpace(id)) {
      assert IndexedAt(before, TrimSpace(id));
    } else if id in before.byWorkload && id != TrimSpace(id) {
      assert before.records[before.byWorkload[id]].workloadID == id;
    }
  }

  lemma ReservedUpdateIff(
    before: Book<SSHAllocation>, reg: Registry, id: string, name: string, fault: Fault, reserved: Book<SSHAllocation>,
    grant: AllocateResult, port: int)
    requires AllocateContract(before, reg, TrimSpace(id), name, fault, reserved, grant) && Consistent(before)
    requires grant.Granted? && grant.record in reserved.records && reserved.records[grant.record].publicPort == port
    ensures UpdateHarmless(reserved, id, ACTIVE) <==> ProvisionHarmless(before, id, Provisioned, true, port)
  {
    if id in before.byWorkload && id != TrimSpace(id) {
      assert before.records[before.byWorkload[id]].workloadID == id;
    }
  }

  lemma ReservationKeepsOthers(
    before: Book<SSHAllocation>, reg: Registry, id: string, name: string, fault: Fault, reserved: Book<SSHAllocation>,
    grant: AllocateResult, w: string)
    requires AllocateContract(before, reg, TrimSpace(id), name, fault, reserved, grant)
    requires Linked(before) && LiveAt(before, w)
    ensures LiveAt(reserved, w) && PortOf(reserved, w) == PortOf(before, w)
    ensures id in reserved.byWorkload && id != w && grant.Granted? ==> reserved.byWorkload[id] != reserved.byWorkload[w]
  {
    if !grant.Granted? {
      assert w in LiveView(reserved) && LiveView(reserved)[w] == LiveView(before)[w];
    }
  }

  // A freshly granted port is used by no exposure, so publishing it is never
  // refused: after a provisioning that granted one, and once the first save works,
  // the workload's ssh exposure is registered with that very port and the
  // instance's address, every other exposure is as it was, and a conflict-free
  // registry stays so.
  lemma ProvisioningPublishesItsPort<R>(
    engine: AllocatorEngine, before: Network<R>, after: Network<R>, w: Workload, live: Option<Instance>, port: int,
    reserved: Ports<R>, faults: ProvisionFaults)
    requires NetworkProvisioned(engine, before, after, w, Provisioned, live, port, reserved, faults)
    requires !LiveAt(before.ports.book, TrimSpace(w.id)) && HasAddress(live) && faults.publish.create == NoFault
    requires Keyed(before.edge.state.registry) && SSHExposureID(w.id) !in before.edge.state.registry
    requires TrimSpace(live.value.ipAddress) != "" && engine.validIP(live.value.ipAddress)
    ensures SSHPort(port) && SSHExposureID(w.id) in after.edge.state.registry
    ensures var e := after.edge.state.registry[SSHExposureID(w.id)];
            e.publicPort == port && e.internalIP == live.value.ipAddress && e.workloadID == w.id && e.internalPort == 22
    ensures after.edge.state.registry - {SSHExposureID(w.id)} == before.edge.state.registry
    ensures var st, end := before.edge.state, after.edge.state;
            Safe(st.registry) && Safe(st.disk) ==> Safe(end.registry) && Safe(end.disk)
  {
    var e := SSHExposure(w, port, live.value.ipAddress);
    UnusedPortIsAccepted(engine, before.edge.state.registry, e);
    PublishedEntry(engine, before.edge, e, faults.publish);
    if Safe(before.edge.state.registry) && Safe(before.edge.state.disk) {
      PublishKeepsSafe(engine, before.edge, e, faults.publish);
    }
  }

  // With a driver that works the published port is really forwarded afterwards: the
  // device is in place on the workload's instance and the exposure says so.
  lemma ProvisionedPortForwards<R>(
    engine: AllocatorEngine, before: Network<R>, after: Network<R>, w: Workload, live: Option<Instance>, port: int,
    reserved: Ports<R>, faults: ProvisionFaults)
    requires NetworkProvisioned(engine, before, after, w, Provisioned, live, port, reserved, faults)
    requires !LiveAt(before.ports.book, TrimSpace(w.id)) && HasAddress(live) && faults.publish.create == NoFault
    requires Keyed(before.edge.state.registry) && SSHExposureID(w.id) !in before.edge.state.registry
    requires TrimSpace(live.value.ipAddress) != "" && engine.validIP(live.value.ipAddress)
    requires before.edge.devices.Some? && faults.publish.link == Link(true, true)
    requires var e := SSHExposure(w, port, live.value.ipAddress);
             var target := ResolveInstanceName(e);
             target.Target? && target.name in before.edge.devices.value &&
             (DeviceOf(before.edge.devices.value, e).None? || ProxyTyped(DeviceOf(before.edge.devices.value, e).value))
    ensures SSHExposureID(w.id) in after.edge.state.registry && after.edge.devices.Some?
    ensures var e := after.edge.state.registry[SSHExposureID(w.id)];
            e.actualState == APPLIED && InPlace(after.edge.devices.value, e)
  {
    var e := SSHExposure(w, port, live.value.ipAddress);
    UnusedPortIsAccepted(engine, before.edge.state.registry, e);
    PublishedEntry(engine, before.edge, e, faults.publish);
    ApplyIsExact(before.edge.devices.value, Exposures.Registered(e).(desiredState := APPLIED), faults.publish.link);
  }

  // What is found again of a published port, in the registered exposure and in its
  // device, stands for the record that the provisioning left.
  lemma PublishedPortIsFoundAgain(w: Workload, port: int, address: string, inst: Instance, dev: Device)
    requires w.id != "" && SSHPort(port) && ':' !in address
    requires var e := SSHExposure(w, port, address);
             Property(dev, "type") == "proxy" && Property(dev, "listen") == ListenString(e) && Property(dev, "connect") == ConnectString(e)
    ensures var record := NewAllocation(port, w.id, w.spec.name).(privateIP := address, status := ACTIVE);
            var found := ParseSSHProxyDevice(DeviceName(SSHExposureID(w.id)), dev);
            && AllocationForExposure(SSHExposure(w, port, address)) == record
            && found.Some?
            && AllocationForDevice(inst, found.value) ==
                 record.(workloadID := if inst.id != "" then inst.id else inst.name, instanceName := inst.name)
  {
    assert ToLower("proxy") == "proxy";
    PrintParseRoundTrip(DeviceName(SSHExposureID(w.id)), dev, SSHExposure(w, port, address));
  }

  // Without an address nothing is published: exposures, devices and their file stay.
  lemma PublishedOnlyWithAddress<R>(
    engine: AllocatorEngine, before: Network<R>, after: Network<R>, w: Workload, result: ProvisionResult, live: Option<Instance>,
    port: int, reserved: Ports<R>, faults: ProvisionFaults)
    requires NetworkProvisioned(engine, before, after, w, result, live, port, reserved, faults)
    requires !result.Provisioned? || live.None? || live.value.ipAddress == ""
    ensures after.edge == before.edge
  {
  }

  // The file holds what is in memory.
  ghost predicate InStep<R>(p: Ports<R>) { p.file == Whole(SnapshotOf(p.book)) }

  // A provisioning whose saves all work leaves the file of the ports in step with
  // the book. Whatever saves fail, book and file stay sound exactly when the book
  // stays consistent.
  lemma ProvisioningKeepsFile<R>(
    engine: AllocatorEngine, before: Network<R>, after: Network<R>, w: Workload, result: ProvisionResult, live: Option<Instance>,
    port: int, reserved: Ports<R>, faults: ProvisionFaults)
    requires NetworkProvisioned(engine, before, after, w, result, live, port, reserved, faults)
    ensures InStep(before.ports) && faults.reserve == faults.release == faults.publish.status == NoFault ==> InStep(after.ports)
    ensures SafePorts(before.ports) ==>
              (SafePorts(after.ports) <==> ProvisionHarmless(before.ports.book, w.id, result, HasAddress(live), port))
  {
    if SafePorts(before.ports) {
      SnapshotIsSound(reserved.book);
      if Consistent(after.ports.book) {
        SnapshotIsSound(after.ports.book);
      }
    }
  }

  // An input: the id has a leading blank and a released record of its own, whose
  // port has gone to w2. The port is reserved for the trimmed id, the creation
  // fails, and the release takes the entry of w2.
  lemma PaddedProvisioningHarms() returns (b: Book<nat>, reserved: Book<nat>)
    ensures Consistent(b) && LiveAt(b, "w2") && !LiveAt(b, TrimSpace(" w1"))
    ensures reserved == AfterAllocate(b, map[], TrimSpace(" w1"), "web", 3, true) && Consistent(reserved)
    ensures !ProvisionHarmless(b, " w1", CreationFailed, false, SSH_PORT_MIN + 1)
    ensures !Consistent(BookAfter(reserved, " w1", CreationFailed, None))
  {
    b := StaleBook();
    assert TrimSpace(" w1") == "w1";
    reserved := AfterAllocate(b, map[], "w1", "web", 3, true);
    AllocateKeepsConsistent(b, map[], "w1", "web", 3, true);
    AllocationLeavesOthers(b, map[], "w1", "web", 3, " w1");
    AllocationLeavesOthers(b, map[], "w1", "web", 3, "w2");
    ReleaseConsistentIff(reserved, " w1");
  }

  // w2 holds the port of the released record of " w1".
  lemma StaleBook() returns (b: Book<nat>)
    ensures Consistent(b) && b.records.Keys == {1, 2} && LiveAt(b, "w2") && "w1" !in b.byWorkload
    ensures " w1" in b.byWorkload && !LiveAt(b, " w1") && PortOf(b, " w1") == PortOf(b, "w2") == SSH_PORT_MIN
    ensures HeldLive(b, SSH_PORT_MIN) && b.records[b.byPort[SSH_PORT_MIN]].workloadID == "w2"
  {
    b := Book(map[1 := NewAllocation(SSH_PORT_MIN, " w1", "web").(status := RELEASED),
                  2 := NewAllocation(SSH_PORT_MIN, "w2", "db")],
              map[" w1" := 1, "w2" := 2], map[SSH_PORT_MIN := 2]);
    assert forall w :: LiveAt(b, w) ==> w == "w2";
  }
}
