// What the manager's calls do around its own registries, as values: an adoption
// to labels and names, a provisioning and the periodic refresh to exposures and
// ports, a deletion to all of them.
module Surroundings {
  import opened Text
  import opened PortAllocation
  import opened Instances
  import opened SnapshotFiles
  import opened PlanTexts
  import opened Workloads
  import opened Lifecycles
  import opened OwnershipSafety
  import opened Exposures
  import opened ProxyDevices
  import opened SSHBooks

  // ------------------------------------------------------------ registration

  // A workload registered under an untaken name keeps the names distinct and
  // equal to the provider's, even when its id replaces an older one.
  lemma RegisteringKeepsNames(ws: map<string, Workload>, w: Workload)
    requires NamesTidy(ws) && !NameTaken(ws, w.spec.name) && w.providerInstanceID == w.spec.name
    ensures NamesTidy(ws[w.id := w])
  {
    forall k | k in ws && k != w.id ensures ws[k].spec.name != w.spec.name {
      assert k in ws;
    }
  }

  // The undo of a failed registration removes the entry; it restores the
  // registry exactly when the id was not registered before.
  lemma UndoRestoresIff(ws: map<string, Workload>, w: Workload)
    ensures ws[w.id := w] - {w.id} == ws - {w.id}
    ensures ws[w.id := w] - {w.id} == ws <==> w.id !in ws
  {
    if w.id in ws {
      assert w.id !in ws[w.id := w] - {w.id};
    } else {
      assert ws[w.id := w] - {w.id} == ws;
    }
  }

  // ----------------------------------------------------------------- tagging

  datatype TagFault = NoTagFault | Unreachable | OwnedRefused | IdRefused | RereadFailed

  predicate AlreadyTagged(inst: Instance, id: string) {
    inst.labels.Some? && id != "" && WorkloadLabel(inst.labels.value) == id &&
    (Property(inst.labels.value, "user.mystic.owned") == "true" || Property(inst.labels.value, "mystic.owned") == "true")
  }

  function WithLabel(inst: Instance, key: string, value: string): Instance {
    inst.(labels := Some(if inst.labels.Some? then inst.labels.value[key := value] else map[key := value]))
  }

  datatype TagEffect = TagEffect(instance: Instance, ok: bool)

  // The two labels are set one after the other; a fault leaves what was set.
  function Tagging(inst: Instance, id: string, fault: TagFault): TagEffect {
    if fault == Unreachable then TagEffect(inst, false)
    else if AlreadyTagged(inst, id) then TagEffect(inst, true)
    else if fault == OwnedRefused then TagEffect(inst, false)
    else
      var owned := WithLabel(inst, "user.mystic.owned", "true");
      if id == "" then TagEffect(owned, fault != RereadFailed)
      else if fault == IdRefused then TagEffect(owned, false)
      else TagEffect(WithLabel(owned, "user.mystic.workload_id", id), fault != RereadFailed)
  }

  // The short cut for already tagged instances looks at both forms of the owned
  // label, the ownership test only at the first non-empty one.
  predicate MisreadAsTagged(inst: Instance, id: string) {
    AlreadyTagged(inst, id) && Property(inst.labels.value, "user.mystic.owned") !in {"", "true"}
  }

  // A successful adoption leaves an instance that its workload owns, except
  // when the short cut was taken on labels that the ownership test rejects.
  lemma TaggedIsOwnedIff(inst: Instance, id: string, fault: TagFault)
    requires id != "" && Tagging(inst, id, fault).ok
    ensures OwnedBy(Tagging(inst, id, fault).instance, id) <==> !MisreadAsTagged(inst, id)
  {
    if !AlreadyTagged(inst, id) {
      var owned := WithLabel(inst, "user.mystic.owned", "true");
      var both := WithLabel(owned, "user.mystic.workload_id", id);
      assert Property(both.labels.value, "user.mystic.owned") == "true";
      assert Property(both.labels.value, "user.mystic.workload_id") == id;
    }
  }

  // Such labels: the long form says not owned, the short form owned. Tagging
  // succeeds without doing anything, and the workload does not own the instance.
  lemma MisreadTagging(inst: Instance, id: string) returns (labelled: Instance)
    requires id != ""
    ensures Tagging(labelled, id, NoTagFault) == TagEffect(labelled, true) && !OwnedBy(labelled, id)
    ensures labelled == inst.(labels := labelled.labels)
  {
    var labels := map["user.mystic.owned" := "false", "mystic.owned" := "true", "user.mystic.workload_id" := id];
    labelled := inst.(labels := Some(labels));
    assert Property(labels, "user.mystic.owned") == "false" && Property(labels, "mystic.owned") == "true";
    assert Property(labels, "user.mystic.workload_id") == id;
    TaggedIsOwnedIff(labelled, id, NoTagFault);
  }

  // Tagging can be repeated: whatever fault the first attempt met, a second one
  // without a fault succeeds and leaves the instance owned.
  lemma TaggingCanBeRepeated(inst: Instance, id: string, fault: TagFault)
    requires id != "" && !AlreadyTagged(inst, id)
    ensures var second := Tagging(Tagging(inst, id, fault).instance, id, NoTagFault);
            second.ok && OwnedBy(second.instance, id)
  {
    var owned := WithLabel(inst, "user.mystic.owned", "true");
    var both := WithLabel(owned, "user.mystic.workload_id", id);
    assert Property(owned.labels.value, "user.mystic.owned") == "true";
    assert Property(both.labels.value, "user.mystic.owned") == "true";
    assert Property(both.labels.value, "user.mystic.workload_id") == id;
    var first := Tagging(inst, id, fault).instance;
    assert first == inst || first == owned || first == both;
    assert !MisreadAsTagged(first, id);
    TaggedIsOwnedIff(first, id, NoTagFault);
  }

  // Whatever the fault, tagging changes nothing but the two labels, and a refused
  // step leaves its own label, and all after it, as they were.
  lemma TaggingTouchesTwoLabels(inst: Instance, id: string, fault: TagFault)
    ensures var effect := Tagging(inst, id, fault);
            && effect.instance == inst.(labels := effect.instance.labels)
            && (forall k :: k != "user.mystic.owned" && k != "user.mystic.workload_id" ==>
                  LabelOf(effect.instance, k) == LabelOf(inst, k))
            && (fault == Unreachable || fault == OwnedRefused || AlreadyTagged(inst, id) ==> effect.instance == inst)
            && (fault == IdRefused ==>
                  LabelOf(effect.instance, "user.mystic.workload_id") == LabelOf(inst, "user.mystic.workload_id"))
            && (AlreadyTagged(inst, id) ==> (effect.ok <==> fault != Unreachable))
            && (!AlreadyTagged(inst, id) ==> (effect.ok <==> fault == NoTagFault || (fault == IdRefused && id == "")))
  {
  }

  function LabelOf(inst: Instance, key: string): Option<string> {
    if inst.labels.Some? then Lookup(inst.labels.value, key) else None
  }

  // ---------------------------------------------------------------- deletion

  function SSHExposureID(id: string): string { "exp-" + id + "-ssh" }

  // The exposure that publishes a workload's SSH port.
  function SSHExposure(w: Workload, port: int, address: string): Exposure {
    Exposure(SSHExposureID(w.id), w.id, w.spec.name, "", "NAT_FORWARDED", "", port, address, 22, TCP,
             ExposureState.NoState, ExposureState.NoState, NoSync, "SSH Proxy for " + w.spec.name)
  }

  // Saves and driver channels while a port is published or refreshed.
  datatype PublishFaults = PublishFaults(status: Fault, create: Fault, update: Fault, apply: Fault, link: Link) {
    predicate Possible() {
      status.Possible() && !status.StopsBefore? && create.Possible() && !create.StopsBefore? &&
      update.Possible() && !update.StopsBefore? && apply.Possible() && !apply.StopsBefore?
    }
  }

  // Creating the exposure and then applying it; a conflict does not stand in the
  // way of applying, invalid fields and a failed save do.
  ghost predicate GoesOn(engine: AllocatorEngine, reg: Registry, e: Exposure, created: bool) {
    FieldsValid(engine, e) && (CreateAccepted(engine, reg, e) ==> created)
  }

  ghost function AfterPublish(engine: AllocatorEngine, x: Edge, e: Exposure, faults: PublishFaults): Edge {
    var registered := x.(state := AfterCreate(engine, x.state, e, faults.create == NoFault));
    if GoesOn(engine, x.state.registry, e, faults.create == NoFault)
    then AfterApplying(registered, e.id, faults.link, faults.apply == NoFault) else registered
  }

  // The periodic refresh: a missing exposure is published; an existing one is
  // moved to the workload's address by a direct write to the shared record, then
  // updated with itself and applied, unless it is applied there already.
  predicate UpToDateAt(e: Exposure, address: string) { e.internalIP == address && e.actualState == APPLIED }

  function Moved(st: ManagerState, id: string, address: string): ManagerState
    requires id in st.registry
  {
    st.(registry := st.registry[id := st.registry[id].(internalIP := address)])
  }

  // The move and the update of a registered exposure.
  ghost function AfterMove(engine: AllocatorEngine, st: ManagerState, id: string, address: string, updated: bool): ManagerState
    requires id in st.registry
  {
    var moved := Moved(st, id, address);
    AfterUpdate(engine, moved, id, moved.registry[id], updated)
  }

  ghost function AfterRefresh(engine: AllocatorEngine, x: Edge, e: Exposure, faults: PublishFaults): Edge {
    if e.id !in x.state.registry then AfterPublish(engine, x, e, faults)
    else if UpToDateAt(x.state.registry[e.id], e.internalIP) then x
    else
      AfterApplying(x.(state := AfterMove(engine, x.state, e.id, e.internalIP, faults.update == NoFault)),
                    e.id, faults.link, faults.apply == NoFault)
  }

  lemma SelfUpdateChangesNothing(engine: AllocatorEngine, st: ManagerState, id: string, saved: bool)
    requires id in st.registry
    ensures Merged(st.registry[id], st.registry[id]) == st.registry[id]
    ensures AfterUpdate(engine, st, id, st.registry[id], saved).registry == st.registry
  {
  }

  lemma ApplyingKeepsSafe(x: Edge, id: string, link: Link, saved: bool)
    requires Safe(x.state.registry) && Safe(x.state.disk)
    ensures var after := AfterApplying(x, id, link, saved).state;
            Safe(after.registry) && Safe(after.disk)
  {
    if id in x.state.registry && x.devices.Some? {
      var effect := ApplyEffect(x.devices.value, x.state.registry[id].(desiredState := APPLIED), link);
      ApplyKeepsSafe(x.state, id, effect.error.None?, saved);
    }
  }

  // An accepted exposure is registered under its own id; with a driver its device
  // is applied, and the exposure says whether that worked.
  lemma PublishedEntry(engine: AllocatorEngine, x: Edge, e: Exposure, faults: PublishFaults)
    requires CreateAccepted(engine, x.state.registry, e) && e.id != "" && e.protocol != "" && faults.create == NoFault
    ensures var after := AfterPublish(engine, x, e, faults);
            var reg := after.state.registry;
            e.id in reg && reg - {e.id} == x.state.registry &&
            reg[e.id].publicPort == e.publicPort && reg[e.id].internalPort == e.internalPort &&
            reg[e.id].internalIP == e.internalIP && reg[e.id].workloadID == e.workloadID &&
            (x.devices.None? ==> after.devices.None?) &&
            (x.devices.Some? ==>
               var effect := ApplyEffect(x.devices.value, Registered(e).(desiredState := APPLIED), faults.link);
               after.devices == Some(effect.table) &&
               reg[e.id].actualState == (if effect.error.None? then APPLIED else UNCONFIGURED))
  {
    var created := AfterCreate(engine, x.state, e, true).registry;
    assert created == x.state.registry[e.id := Registered(e)];
    assert created - {e.id} == x.state.registry;
    forall applied: bool ensures created[e.id := Applied(created[e.id], applied)] - {e.id} == x.state.registry {
    }
  }

  lemma PublishKeepsSafe(engine: AllocatorEngine, x: Edge, e: Exposure, faults: PublishFaults)
    requires Safe(x.state.registry) && Safe(x.state.disk)
    ensures var after := AfterPublish(engine, x, e, faults).state;
            Safe(after.registry) && Safe(after.disk)
  {
    StepSafeIff(engine, x.state, Exposures.Event.Create(e, faults.create == NoFault));
    ApplyingKeepsSafe(x.(state := AfterCreate(engine, x.state, e, faults.create == NoFault)), e.id, faults.link, faults.apply == NoFault);
  }

  lemma MoveKeepsSafe(engine: AllocatorEngine, st: ManagerState, id: string, address: string, updated: bool)
    requires Safe(st.registry) && Safe(st.disk) && id in st.registry
    ensures var after := AfterMove(engine, st, id, address, updated);
            Safe(after.registry) && Safe(after.disk)
  {
    var moved := Moved(st, id, address);
    TouchKeepsSafe(st.registry, moved.registry);
    SelfUpdateChangesNothing(engine, moved, id, updated);
  }

  // Neither publishing nor refreshing breaks the safety of the registry or its
  // file, although the refresh writes to a registered exposure directly.
  lemma RefreshKeepsSafe(engine: AllocatorEngine, x: Edge, e: Exposure, faults: PublishFaults)
    requires Safe(x.state.registry) && Safe(x.state.disk)
    ensures var after := AfterRefresh(engine, x, e, faults).state;
            Safe(after.registry) && Safe(after.disk)
  {
    if e.id !in x.state.registry {
      PublishKeepsSafe(engine, x, e, faults);
    } else if !UpToDateAt(x.state.registry[e.id], e.internalIP) {
      MoveKeepsSafe(engine, x.state, e.id, e.internalIP, faults.update == NoFault);
      ApplyingKeepsSafe(x.(state := AfterMove(engine, x.state, e.id, e.internalIP, faults.update == NoFault)),
                        e.id, faults.link, faults.apply == NoFault);
    }
  }

  // A refreshed exposure is at the workload's address afterwards, whatever is saved.
  // Unless it was applied there already its device is applied, and the exposure says
  // whether that worked. No other exposure changes.
  lemma RefreshedEntry(engine: AllocatorEngine, x: Edge, e: Exposure, faults: PublishFaults)
    requires e.id in x.state.registry
    ensures var before, after := x.state.registry[e.id], AfterRefresh(engine, x, e, faults);
            && e.id in after.state.registry && after.state.registry - {e.id} == x.state.registry - {e.id}
            && var now := after.state.registry[e.id];
               now == before.(internalIP := e.internalIP, desiredState := now.desiredState, actualState := now.actualState,
                              syncStatus := now.syncStatus) &&
               if (before.internalIP == e.internalIP && before.actualState == APPLIED) then after == x
               else if x.devices.None? then after.devices.None? && now.actualState == before.actualState
               else
                 var effect := ApplyEffect(x.devices.value, before.(internalIP := e.internalIP, desiredState := APPLIED), faults.link);
                 after.devices == Some(effect.table) && now.desiredState == APPLIED &&
                 (if effect.error.None? then now.actualState == APPLIED && now.syncStatus == InSync
                  else now.actualState == UNCONFIGURED && now.syncStatus == OutOfSync)
  {
    var moved := Moved(x.state, e.id, e.internalIP);
    SelfUpdateChangesNothing(engine, moved, e.id, faults.update == NoFault);
    OneEntryOnly(x.state.registry, AfterRefresh(engine, x, e, faults).state.registry, e.id);
  }

  lemma OneEntryOnly(reg: Registry, after: Registry, id: string)
    requires id in after && after == reg[id := after[id]]
    ensures after - {id} == reg - {id}
  {
  }

  // The book of ports, and what its file holds.
  datatype Ports<R(==)> = Ports(book: Book<R>, file: Content<Snapshot>)

  // A change of the book that is followed by a save.
  function Filed<R>(p: Ports<R>, book: Book<R>, saved: bool): Ports<R> {
    Ports(book, if saved then Whole(SnapshotOf(book)) else p.file)
  }

  // Nothing is saved for an unknown workload.
  function PortsUpdated<R>(p: Ports<R>, id: string, status: SSHStatus, address: string, saved: bool): Ports<R> {
    if id in p.book.byWorkload then Filed(p, AfterStatus(p.book, id, status, address), saved) else p
  }

  function PortsReleased<R>(p: Ports<R>, id: string, saved: bool): Ports<R> {
    if id in p.book.byWorkload then Filed(p, AfterRelease(p.book, id), saved) else p
  }

  ghost predicate SafePorts<R>(p: Ports<R>) {
    Consistent(p.book) && (p.file.Whole? ==> Sound(p.file.value))
  }

  lemma FilingKeepsSafe<R>(p: Ports<R>, book: Book<R>, saved: bool)
    requires SafePorts(p) && Consistent(book)
    ensures SafePorts(Filed(p, book, saved))
  {
    SnapshotIsSound(book);
  }

  // The exposures with their devices, and the ports.
  datatype Network<R(==)> = Network(edge: Edge, ports: Ports<R>)

  ghost predicate SafeNetwork<R>(n: Network<R>) {
    Safe(n.edge.state.registry) && Safe(n.edge.state.disk) && SafePorts(n.ports)
  }

  // The records found at the provider are added to the ports.
  ghost function WithFindings<R>(n: Network<R>, found: seq<Finding<R>>, saved: bool): Network<R> {
    n.(ports := Filed(n.ports, Discovered(n.ports.book, found), saved))
  }

  lemma FindingsKeepSafe<R>(n: Network<R>, found: seq<Finding<R>>, saved: bool)
    requires SafeNetwork(n) && FreshFindings(n.ports.book, found)
    ensures SafeNetwork(WithFindings(n, found, saved))
  {
    DiscoveryKeepsConsistent(n.ports.book, found);
    FilingKeepsSafe(n.ports, Discovered(n.ports.book, found), saved);
  }

  // One workload's refresh, and how its saves and commands turn out.
  datatype Refresh = Refresh(workload: Workload, faults: PublishFaults)

  // Only a workload with an address and a live port is refreshed.
  ghost function AfterStep<R>(engine: AllocatorEngine, n: Network<R>, r: Refresh): Network<R> {
    var w := r.workload;
    if !LiveAt(n.ports.book, w.id) || w.privateIPv4 == "" then n
    else Network(AfterRefresh(engine, n.edge, SSHExposure(w, PortOf(n.ports.book, w.id), w.privateIPv4), r.faults),
                 PortsUpdated(n.ports, w.id, ACTIVE, w.privateIPv4, r.faults.status == NoFault))
  }

  // One refresh: the workload's record becomes active at its address and no other
  // record or index entry changes; an exposure that is registered for it is at that
  // address afterwards. Without an address or a live port nothing happens.
  lemma RefreshActivates<R>(engine: AllocatorEngine, n: Network<R>, r: Refresh)
    ensures var w, book, after := r.workload, n.ports.book, AfterStep(engine, n, r);
            if w.privateIPv4 == "" || !LiveAt(book, w.id) then after == n
            else
              && after.ports.book.byWorkload == book.byWorkload && after.ports.book.byPort == book.byPort
              && after.ports.book.records - {book.byWorkload[w.id]} == book.records - {book.byWorkload[w.id]}
              && LiveAt(after.ports.book, w.id)
              && UpdatedTo(book.records[book.byWorkload[w.id]], after.ports.book.records[book.byWorkload[w.id]], ACTIVE, w.privateIPv4)
              && (after.ports.file == if r.faults.status == NoFault then Whole(SnapshotOf(after.ports.book)) else n.ports.file)
              && (SSHExposureID(w.id) in n.edge.state.registry ==>
                    SSHExposureID(w.id) in after.edge.state.registry &&
                    after.edge.state.registry[SSHExposureID(w.id)].internalIP == w.privateIPv4)
  {
    var w, book := r.workload, n.ports.book;
    if w.privateIPv4 != "" && LiveAt(book, w.id) {
      OneRecordChanges(book, w.id, ACTIVE, w.privateIPv4);
      if SSHExposureID(w.id) in n.edge.state.registry {
        RefreshedEntry(engine, n.edge, SSHExposure(w, PortOf(book, w.id), w.privateIPv4), r.faults);
      }
    }
  }

  ghost function Refreshed<R>(engine: AllocatorEngine, n: Network<R>, steps: seq<Refresh>): Network<R> {
    if steps == [] then n
    else AfterStep(engine, Refreshed(engine, n, steps[..|steps| - 1]), steps[|steps| - 1])
  }

  lemma RefreshedOnce<R>(engine: AllocatorEngine, n: Network<R>, r: Refresh)
    ensures Refreshed(engine, n, [r]) == AfterStep(engine, n, r)
  {
    assert [r][..0] == [];
  }

  lemma {:induction false} RefreshedConcat<R>(engine: AllocatorEngine, n: Network<R>, first: seq<Refresh>, second: seq<Refresh>)
    ensures Refreshed(engine, n, first + second) == Refreshed(engine, Refreshed(engine, n, first), second)
  {
    if second == [] {
      assert first + second == first;
    } else {
      RefreshedConcat(engine, n, first, second[..|second| - 1]);
      assert (first + second)[..|first + second| - 1] == first + second[..|second| - 1];
    }
  }

  // No number of refreshes, in any order and with any outcomes, endangers the
  // exposures or the ports, in memory or in the files.
  lemma {:induction false} RefreshingKeepsSafe<R>(engine: AllocatorEngine, n: Network<R>, steps: seq<Refresh>)
    requires SafeNetwork(n)
    ensures SafeNetwork(Refreshed(engine, n, steps))
  {
    if steps != [] {
      var before, r := Refreshed(engine, n, steps[..|steps| - 1]), steps[|steps| - 1];
      RefreshingKeepsSafe(engine, n, steps[..|steps| - 1]);
      StepKeepsSafe(engine, before, r);
    }
  }

  lemma StepKeepsSafe<R>(engine: AllocatorEngine, n: Network<R>, r: Refresh)
    requires SafeNetwork(n)
    ensures SafeNetwork(AfterStep(engine, n, r))
  {
    var w := r.workload;
    if LiveAt(n.ports.book, w.id) && w.privateIPv4 != "" {
      RefreshKeepsSafe(engine, n.edge, SSHExposure(w, PortOf(n.ports.book, w.id), w.privateIPv4), r.faults);
      UpdateConsistentIff(n.ports.book, w.id, ACTIVE, w.privateIPv4);
      FilingKeepsSafe(n.ports, AfterStatus(n.ports.book, w.id, ACTIVE, w.privateIPv4), r.faults.status == NoFault);
    }
  }

  lemma SSHExposureIDInjective(a: string, b: string)
    requires SSHExposureID(a) == SSHExposureID(b)
    ensures a == b
  {
    assert a == SSHExposureID(a)[4..|SSHExposureID(a)| - 4];
    assert b == SSHExposureID(b)[4..|SSHExposureID(b)| - 4];
  }

  // What the deletion of workload id takes out of the exposure registry.
  predicate GoesWith(k: string, e: Exposure, id: string) { k == SSHExposureID(id) || e.workloadID == id }

  function Cleaned(reg: Registry, id: string): Registry {
    map k | k in reg && !GoesWith(k, reg[k], id) :: reg[k]
  }

  // First the workload's own ssh exposure goes, then all that are listed for it.
  lemma CleanedInTwo(reg: Registry, id: string)
    ensures var rest := reg - {SSHExposureID(id)};
            rest - ListedFor(rest, id) == Cleaned(reg, id)
  {
  }

  ghost predicate Within(smaller: Registry, larger: Registry) {
    forall k :: k in smaller ==> k in larger && smaller[k] == larger[k]
  }

  // A number of exposures was deleted, each with a save of its own. The file is
  // as it was or holds one of the registries in between; when every save worked
  // it holds the last one, unless nothing was there to delete.
  ghost predicate ShrunkTo(before: ManagerState, after: ManagerState, allSaved: bool) {
    && Within(after.registry, before.registry)
    && (after.disk == before.disk || (Within(after.registry, after.disk) && Within(after.disk, before.registry)))
    && (allSaved ==> after.disk == if after.registry == before.registry then before.disk else after.registry)
  }

  lemma ShrunkByOne(st: ManagerState, k: string, saved: bool, allSaved: bool)
    requires allSaved ==> saved
    ensures ShrunkTo(st, AfterDelete(st, k, saved), allSaved)
  {
    if k in st.registry {
      assert k !in st.registry - {k};
    }
  }

  lemma ShrunkFurther(st: ManagerState, mid: ManagerState, after: ManagerState, allSaved: bool)
    requires ShrunkTo(st, mid, allSaved) && ShrunkTo(mid, after, allSaved)
    ensures ShrunkTo(st, after, allSaved)
  {
    if after.registry == st.registry {
      assert mid.registry == st.registry;
    }
  }

  // A successful deletion leaves nothing of the workload in any registry. It
  // takes nothing of any other workload but an exposure that carries this
  // workload's own ssh id, and, exactly when the release is harmful, the port
  // entry of another live allocation: this workload's record was released
  // before, and its port has since gone to the other one.
  lemma DeletionLeavesNothing<R>(c: Core, reg: Registry, b: Book<R>, id: string)
    requires Consistent(b)
    ensures id !in AfterRemove(c, id).workloads && id !in AfterRemove(c, id).plans
    ensures forall k :: k in Cleaned(reg, id) ==> Cleaned(reg, id)[k].workloadID != id
    ensures !LiveAt(AfterRelease(b, id), id)
    ensures forall w :: w != id ==> Lookup(AfterRemove(c, id).workloads, w) == Lookup(c.workloads, w)
    ensures forall w :: w != id ==> Lookup(AfterRemove(c, id).plans, w) == Lookup(c.plans, w)
    ensures forall k :: k in reg && reg[k].workloadID != id && k != SSHExposureID(id) ==>
                          k in Cleaned(reg, id) && Cleaned(reg, id)[k] == reg[k]
    ensures forall w :: w != id && LiveAt(b, w) ==>
                          LiveAt(AfterRelease(b, id), w) && PortOf(AfterRelease(b, id), w) == PortOf(b, w)
    ensures (forall w :: w != id && LiveAt(b, w) ==> KeepsEntry(b, id, w)) <==> ReleaseHarmless(b, id)
    ensures Consistent(AfterRelease(b, id)) <==> ReleaseHarmless(b, id)
  {
    forall w | w != id && LiveAt(b, w)
      ensures LiveAt(AfterRelease(b, id), w) && PortOf(AfterRelease(b, id), w) == PortOf(b, w) {
      OthersStayLive(b, id, w);
    }
    ReleaseConsistentIff(b, id);
    EntriesKeptIff(b, id);
  }

  // The release of id leaves w's port entry pointing to w's record.
  ghost predicate KeepsEntry<R>(b: Book<R>, id: string, w: string) {
    LiveAt(AfterRelease(b, id), w) && IndexedAt(AfterRelease(b, id), w)
  }

  lemma OthersStayLive<R>(b: Book<R>, id: string, w: string)
    requires Linked(b) && w != id && LiveAt(b, w)
    ensures LiveAt(AfterRelease(b, id), w) && PortOf(AfterRelease(b, id), w) == PortOf(b, w)
  {
    if id in b.byWorkload {
      assert b.records[b.byWorkload[w]].workloadID == w && b.records[b.byWorkload[id]].workloadID == id;
    }
  }

  lemma EntriesKeptIff<R>(b: Book<R>, id: string)
    requires Consistent(b)
    ensures (forall w :: w != id && LiveAt(b, w) ==> KeepsEntry(b, id, w)) <==> ReleaseHarmless(b, id)
  {
    ReleaseConsistentIff(b, id);
    var after := AfterRelease(b, id);
    forall w | w != id && LiveAt(b, w) ensures ReleaseHarmless(b, id) ==> KeepsEntry(b, id, w) {
      OthersStayLive(b, id, w);
    }
    if !ReleaseHarmless(b, id) {
      var w :| LiveAt(after, w) && !IndexedAt(after, w);
      assert w != id && LiveAt(b, w) && !KeepsEntry(b, id, w);
    }
  }

  // It happens: after a run from the empty allocator the deletion of w1 takes
  // the port entry of another live workload.
  lemma DeletionCanTakeEntry() returns (events: seq<SSHBooks.Event<nat>>, w: string)
    ensures AlwaysEnabled(NOTHING, events) && Consistent(SSHBooks.Run(NOTHING, events).book)
    ensures w != "w1" && LiveAt(SSHBooks.Run(NOTHING, events).book, w) && !KeepsEntry(SSHBooks.Run(NOTHING, events).book, "w1", w)
  {
    events := HarmfulReleaseReachable();
    var b := SSHBooks.Run(NOTHING, events).book;
    EntriesKeptIff(b, "w1");
    w :| w != "w1" && LiveAt(b, w) && !KeepsEntry(b, "w1", w);
  }

  // It keeps the registry free of conflicts.
  lemma CleaningKeepsSafe(reg: Registry, id: string)
    requires Safe(reg)
    ensures Safe(Cleaned(reg, id))
  {
    var after := Cleaned(reg, id);
    forall j, k | j in after && k in after && j != k ensures !SameClaim(after[j], after[k]) {
      assert !SameClaim(reg[j], reg[k]);
    }
  }

  // The port of a deleted workload, whether its allocation was still live or
  // released before, can be handed out again exactly when no exposure that stays
  // behind uses it; an entry of another workload does not stand in the way.
  lemma DeletionFreesPortIff<R>(b: Book<R>, reg: Registry, id: string)
    requires Linked(b) && id in b.byWorkload
    ensures Available(AfterRelease(b, id), Cleaned(reg, id), PortOf(b, id)) <==>
              SSHPort(PortOf(b, id)) && !PortInUse(Cleaned(reg, id), PortOf(b, id))
  {
  }
}
