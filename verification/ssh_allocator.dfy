// The port allocator itself: two maps that point to the same mutable records.
module SSHAllocators {
  import opened Text
  import opened SnapshotFiles
  import opened Instances
  import opened Exposures
  import opened ProxyDevices
  import opened ExposureManagers
  import opened SSHBooks

  // The struct that both maps point to.
  class SSHAllocation {
    var data: Allocation

    constructor (a: Allocation)
      ensures data == a
    {
      data := a;
    }
  }

  datatype AllocateResult =
    | Granted(record: SSHAllocation)
    | WorkloadRequired
    | NoPortsAvailable
    | NotSaved

  datatype UpdateResult = Updated(data: Allocation) | AllocationNotFound | UpdateNotSaved

  function InstanceNameOr(name: string, workload: string): string { if name == "" then workload else name }

  // A placement whose save succeeds adds one new record under both indexes; one
  // whose save fails takes both entries away again, which leaves the live
  // allocations and the port index alone.
  ghost predicate PlaceContract(
    b: Book<SSHAllocation>, a: Allocation, fault: Fault, after: Book<SSHAllocation>, result: AllocateResult)
  {
    if fault == NoFault then
      result.Granted? && result.record !in b.records && after == Placed(b, result.record, a)
    else
      result == NotSaved && LiveView(after) == LiveView(b) && after.byPort == b.byPort &&
      exists r :: r in after.records && r !in b.records && after == Withdrawn(Placed(b, r, a), a.workloadID, a.publicPort)
  }

  ghost predicate AllocateContract(
    b: Book<SSHAllocation>, reg: Registry, w: string, name: string, fault: Fault,
    after: Book<SSHAllocation>, result: AllocateResult)
  {
    if w == "" then result == WorkloadRequired && after == b
    else if LiveAt(b, w) then result == Granted(b.byWorkload[w]) && after == b
    else match LowestAvailable(b, reg)
      case None => result == NoPortsAvailable && after == b
      case Some(port) => PlaceContract(b, NewAllocation(port, w, name), fault, after, result)
  }

  // An allocation is the step that the runs of the port book are made of, so it
  // keeps the book consistent whether its save works or not.
  lemma AllocationIsStep(
    b: Book<SSHAllocation>, reg: Registry, w: string, name: string, fault: Fault, after: Book<SSHAllocation>, result: AllocateResult)
    requires AllocateContract(b, reg, w, name, fault, after, result)
    ensures after == b ||
            exists r :: r in after.records && r !in b.records && after == AfterAllocate(b, reg, w, name, r, fault == NoFault)
    ensures after == b <==> w == "" || LiveAt(b, w) || LowestAvailable(b, reg).None?
    ensures b.byWorkload.Values <= b.records.Keys ==>
              (result.Granted? && result.record !in b.records <==> after != b && fault == NoFault)
    ensures Consistent(b) ==> Consistent(after)
  {
    if w != "" && !LiveAt(b, w) && LowestAvailable(b, reg).Some? {
      var a := NewAllocation(LowestAvailable(b, reg).value, w, name);
      var r :| r in after.records && r !in b.records && after.records == b.records[r := a] &&
               after == AfterAllocate(b, reg, w, name, r, fault == NoFault);
      if Consistent(b) {
        AllocateKeepsConsistent(b, reg, w, name, r, fault == NoFault);
      }
    }
  }

  // What a new grant records: the lowest port that was available, forwarded to port
  // 22 of the workload's instance, which has no address yet.
  lemma GrantedRecordIs(
    b: Book<SSHAllocation>, reg: Registry, w: string, name: string, fault: Fault, after: Book<SSHAllocation>, record: SSHAllocation)
    requires AllocateContract(b, reg, w, name, fault, after, Granted(record)) && !LiveAt(b, w)
    ensures record !in b.records && record in after.records
    ensures var a := after.records[record];
            && Lowest(b, reg, a.publicPort) && a.id == "ssh-alloc-" + SignedDecimal(a.publicPort)
            && a.protocol == "TCP" && a.destinationPort == 22 && a.privateIP == "" && a.status == ALLOCATED
            && a.workloadID == w && a.instanceName == name
            && after.byWorkload == b.byWorkload[w := record] && after.byPort == b.byPort[a.publicPort := record]
  {
  }

  // The record a registered exposure stands for.
  function AllocationForExposure(e: Exposure): Allocation {
    var workload := if e.workloadID != "" then e.workloadID
                    else if e.workloadName != "" then e.workloadName
                    else "workload-port-" + SignedDecimal(e.publicPort);
    Allocation(AllocationID(e.publicPort), e.publicPort, "TCP", workload, e.workloadName, e.internalIP, e.internalPort, ACTIVE)
  }

  // It is for some workload even where the exposure names none, and in use.
  lemma ExposureStandsForSome(e: Exposure)
    ensures var a := AllocationForExposure(e);
            && a.workloadID != "" && a.status == ACTIVE && a.publicPort == e.publicPort
            && a.privateIP == e.internalIP && a.destinationPort == e.internalPort && a.instanceName == e.workloadName
            && (e.workloadID != "" ==> a.workloadID == e.workloadID)
            && (e.workloadID == "" && e.workloadName != "" ==> a.workloadID == e.workloadName)
  {
  }

  // The record an observed proxy device stands for.
  function AllocationForDevice(inst: Instance, proxy: DiscoveredProxy): Allocation {
    Allocation(AllocationID(proxy.publicPort), proxy.publicPort, proxy.protocol,
               if inst.id == "" then inst.name else inst.id, inst.name, proxy.privateIP, proxy.destinationPort, ACTIVE)
  }

  class SSHPortAllocator {
    var allocations: map<string, SSHAllocation>
    var portMap: map<int, SSHAllocation>
    const store: SnapshotFile<Snapshot>
    const exposureMgr: ExposureManager?
    ghost var records: set<SSHAllocation>  // every record made so far

    ghost predicate Valid()
      reads this
    {
      allocations.Values <= records && portMap.Values <= records
    }

    ghost function Contents(): Book<SSHAllocation>
      reads this, records
    {
      Book(map r | r in records :: r.data, allocations, portMap)
    }

    ghost function InUse(): Registry
      reads this, exposureMgr, if exposureMgr == null then {} else exposureMgr.records
    {
      if exposureMgr == null then map[] else exposureMgr.Contents()
    }

    // Any file is loaded as it is.
    constructor (store: SnapshotFile<Snapshot>, exposureMgr: ExposureManager?, readable: bool)
      ensures Valid() && fresh(records) && this.store == store && this.exposureMgr == exposureMgr
      ensures match SnapshotFiles.LoadedFrom(store.main, map[], readable)
              case Loaded(disk) =>
                SSHBooks.LoadedFrom(Contents(), disk) &&
                (FiledByWorkload(disk) ==> SnapshotOf(Contents()) == disk && (Consistent(Contents()) <==> Sound(disk)))
              case LoadError => Contents() == Book(map[], map[], map[])
    {
      this.store, this.exposureMgr := store, exposureMgr;
      allocations, portMap, records := map[], map[], {};
      new;
      var loaded := store.Load(map[], readable);
      if loaded.Loaded? {
        LoadRecords(loaded.value);
        LoadingIsConsistent(Contents(), loaded.value);
      }
    }

    method LoadRecords(disk: Snapshot)
      requires Valid() && allocations == map[] && portMap == map[] && records == {}
      modifies this
      ensures Valid() && fresh(records) && SSHBooks.LoadedFrom(Contents(), disk)
    {
      var left := disk.Keys;
      while left != {}
        invariant left <= disk.Keys && Valid() && fresh(records)
        invariant LoadedPart(Contents(), disk, disk.Keys - left)
      {
        var k :| k in left;
        LoadEntry(disk, k, left);
        left := left - {k};
      }
      assert disk.Keys - left == disk.Keys;
    }

    method LoadEntry(disk: Snapshot, k: string, ghost left: set<string>)
      requires Valid() && k in left && left <= disk.Keys && LoadedPart(Contents(), disk, disk.Keys - left)
      modifies this
      ensures Valid() && fresh(records - old(records)) && LoadedPart(Contents(), disk, disk.Keys - (left - {k}))
    {
      ghost var before := Contents();
      var r := LoadRecord(disk[k]);
      LoadedOneMore(before, disk, disk.Keys - left, k, r, Contents());
      assert disk.Keys - left + {k} == disk.Keys - (left - {k});
    }

    method LoadRecord(a: Allocation) returns (r: SSHAllocation)
      requires Valid()
      modifies this
      ensures Valid() && fresh(r) && records == old(records) + {r}
      ensures var b := old(Contents());
              Contents() == Book(b.records[r := a], b.byWorkload[a.workloadID := r],
                                 if Live(a) && SSHPort(a.publicPort) then b.byPort[a.publicPort := r] else b.byPort)
    {
      r := new SSHAllocation(a);
      records := records + {r};
      allocations := allocations[a.workloadID := r];
      if Live(a) && SSHPort(a.publicPort) {
        portMap := portMap[a.publicPort := r];
      }
    }

    // Writes the whole workload map.
    method SaveStore(fault: Fault) returns (ok: bool)
      requires Valid() && fault.Possible() && !fault.StopsBefore?
      modifies store
      ensures ok <==> fault == NoFault
      ensures store.main == if ok then Whole(SnapshotOf(Contents())) else old(store.main)
    {
      var snapshot := map w | w in allocations :: allocations[w].data;
      assert snapshot == SnapshotOf(Contents());
      var result := store.Save(snapshot, fault);
      ok := result == Saved;
    }

    // The search loop.
    method FindPort() returns (port: int)
      requires exposureMgr == null || exposureMgr.Valid()
      ensures port == match LowestAvailable(Contents(), InUse()) case Some(p) => p case None => 0
    {
      ghost var b, reg := Contents(), InUse();
      for candidate := SSH_PORT_MIN to SSH_PORT_MAX + 1
        invariant forall p :: p < candidate ==> !Available(b, reg, p)
      {
        if candidate !in portMap {
          var used := false;
          if exposureMgr != null {
            used := exposureMgr.IsPublicPortInUse(candidate);
          }
          if !used {
            assert Available(b, reg, candidate);
            return candidate;
          }
        }
      }
      return 0;
    }

    method AllocatePort(workloadID: string, instanceName: string, fault: Fault) returns (result: AllocateResult)
      requires Valid() && fault.Possible() && !fault.StopsBefore?
      requires exposureMgr == null || exposureMgr.Valid()
      modifies this, store
      ensures Valid() && fresh(records - old(records))
      ensures result.Granted? ==> result.record in records
      ensures AllocateContract(old(Contents()), old(InUse()), TrimSpace(workloadID),
                               InstanceNameOr(TrimSpace(instanceName), TrimSpace(workloadID)), fault, Contents(), result)
      // what is new is saved
      ensures store.main == if Contents() != old(Contents()) && fault == NoFault then Whole(SnapshotOf(Contents())) else old(store.main)
    {
      var w := TrimSpace(workloadID);
      ghost var b, reg := Contents(), InUse();
      result := AllocateTrimmed(w, InstanceNameOr(TrimSpace(instanceName), w), fault);
      AllocationIsStep(b, reg, w, InstanceNameOr(TrimSpace(instanceName), w), fault, Contents(), result);
    }

    method AllocateTrimmed(w: string, name: string, fault: Fault) returns (result: AllocateResult)
      requires Valid() && fault.Possible() && !fault.StopsBefore?
      requires exposureMgr == null || exposureMgr.Valid()
      modifies this, store
      ensures Valid() && fresh(records - old(records))
      ensures result.Granted? ==> result.record in records
      ensures AllocateContract(old(Contents()), old(InUse()), w, name, fault, Contents(), result)
      ensures store.main == if result.Granted? && result.record !in old(records) then Whole(SnapshotOf(Contents())) else old(store.main)
    {
      if w == "" {
        return WorkloadRequired;
      }
      if w in allocations && Live(allocations[w].data) {
        return Granted(allocations[w]);
      }
      var port := FindPort();
      if port == 0 {
        return NoPortsAvailable;
      }
      result := PlaceAndSave(NewAllocation(port, w, name), fault);
    }

    method PlaceAndSave(a: Allocation, fault: Fault) returns (result: AllocateResult)
      requires Valid() && fault.Possible() && !fault.StopsBefore?
      requires !LiveAt(Contents(), a.workloadID) && a.publicPort !in portMap
      modifies this, store
      ensures Valid() && fresh(records - old(records))
      ensures result.Granted? ==> result.record in records
      ensures PlaceContract(old(Contents()), a, fault, Contents(), result)
      ensures store.main == if fault == NoFault then Whole(SnapshotOf(Contents())) else old(store.main)
    {
      ghost var before := Contents();
      var r := Place(a);
      var ok := SaveStore(fault);
      if ok {
        return Granted(r);
      }
      allocations := allocations - {a.workloadID};
      portMap := portMap - {a.publicPort};
      assert Contents() == Withdrawn(Placed(before, r, a), a.workloadID, a.publicPort);
      WithdrawnKeepsLiveView(before, r, a);
      return NotSaved;
    }

    method Place(a: Allocation) returns (r: SSHAllocation)
      requires Valid()
      modifies this
      ensures Valid() && fresh(r) && records == old(records) + {r}
      ensures Contents() == Placed(old(Contents()), r, a)
    {
      r := new SSHAllocation(a);
      allocations := allocations[a.workloadID := r];
      portMap := portMap[a.publicPort := r];
      records := records + {r};
    }

    method RegisterExternalPortReservation(workloadID: string, instanceName: string, port: int, privateIP: string, fault: Fault)
      requires Valid() && fault.Possible() && !fault.StopsBefore?
      modifies this, store
      ensures Valid() && fresh(records - old(records))
      ensures var a := Allocation(AllocationID(port), port, "TCP", workloadID, instanceName, privateIP, 22, ACTIVE);
              if SSHPort(port) then
                workloadID in allocations && fresh(allocations[workloadID]) &&
                Contents() == AfterReserve(old(Contents()), allocations[workloadID], a) &&
                store.main == if fault == NoFault then Whole(SnapshotOf(Contents())) else old(store.main)
              else Contents() == old(Contents()) && store.main == old(store.main)
    {
      if !SSHPort(port) {
        return;
      }
      var _ := Place(Allocation(AllocationID(port), port, "TCP", workloadID, instanceName, privateIP, 22, ACTIVE));
      var _ := SaveStore(fault);
    }

    // The edit of a shared record is visible through both maps.
    method Edit(w: string, a: Allocation)
      requires Valid() && w in allocations
      modifies allocations[w]
      ensures Contents() == old(Contents()).(records := old(Contents()).records[allocations[w] := a])
    {
      allocations[w].data := a;
    }

    method UpdateAllocationStatus(workloadID: string, status: SSHStatus, privateIP: string, fault: Fault)
      returns (result: UpdateResult)
      requires Valid() && fault.Possible() && !fault.StopsBefore?
      modifies records, store
      ensures Valid()
      ensures Contents() == AfterStatus(old(Contents()), workloadID, status, privateIP)
      // one record changes, in what was asked for
      ensures workloadID in allocations ==> UpdatedTo(old(allocations[workloadID].data), allocations[workloadID].data, status, privateIP)
      ensures forall r :: r in records && (workloadID in allocations ==> r != allocations[workloadID]) ==> r.data == old(r.data)
      ensures result == (if workloadID !in allocations then AllocationNotFound
                         else if fault == NoFault then Updated(allocations[workloadID].data) else UpdateNotSaved)
      ensures store.main == if workloadID in allocations && fault == NoFault then Whole(SnapshotOf(Contents())) else old(store.main)
    {
      if workloadID !in allocations {
        return AllocationNotFound;
      }
      var a := allocations[workloadID].data;
      Edit(workloadID, a.(status := status, privateIP := if privateIP != "" then privateIP else a.privateIP));
      var ok := SaveStore(fault);
      return if ok then Updated(allocations[workloadID].data) else UpdateNotSaved;
    }

    method ReleasePort(workloadID: string, fault: Fault)
      requires Valid() && fault.Possible() && !fault.StopsBefore?
      modifies this, records, store
      ensures Valid() && records == old(records)
      ensures Contents() == AfterRelease(old(Contents()), workloadID)
      ensures allocations == old(allocations)
      ensures workloadID in allocations ==>
                ReleasedFrom(old(allocations[workloadID].data), allocations[workloadID].data) &&
                portMap == old(portMap) - {old(allocations[workloadID].data).publicPort}
      ensures forall r :: r in records && (workloadID in allocations ==> r != allocations[workloadID]) ==> r.data == old(r.data)
      ensures store.main == if workloadID in allocations && fault == NoFault then Whole(SnapshotOf(Contents())) else old(store.main)
    {
      if workloadID !in allocations {
        return;
      }
      var a := allocations[workloadID].data;
      Edit(workloadID, a.(status := RELEASED));
      portMap := portMap - {a.publicPort};
      var _ := SaveStore(fault);
    }

    // Registers a record unless the port index has an entry.
    method RegisterIfMissing(a: Allocation, ghost found: seq<Finding<SSHAllocation>>, ghost start: Book<SSHAllocation>)
      returns (ghost more: seq<Finding<SSHAllocation>>)
      requires Valid() && SSHPort(a.publicPort)
      requires Contents() == Discovered(start, found) && FreshFindings(start, found)
      requires start.records.Keys <= records && RecordsOf(found) <= records
      modifies this
      ensures Valid() && fresh(records - old(records)) && old(records) <= records
      ensures Contents() == Discovered(start, more) && FreshFindings(start, more)
      ensures RecordsOf(more) <= records
      ensures a.publicPort in portMap && old(portMap).Keys <= portMap.Keys
      ensures found <= more && forall f :: f in more && f !in found ==> f.allocation == a
    {
      more := found;
      if a.publicPort !in portMap {
        var r := Place(a);
        FindingAdded(start, found, Finding(r, a));
        more := found + [Finding(r, a)];
      }
    }

    // Marks the SSH ports of registered exposures as occupied.
    method ReconcileExposures(exposures: Registry, fault: Fault) returns (ghost found: seq<Finding<SSHAllocation>>)
      requires Valid() && fault.Possible() && !fault.StopsBefore?
      modifies this, store
      ensures Valid() && fresh(records - old(records))
      ensures Contents() == Discovered(old(Contents()), found) && FreshFindings(old(Contents()), found)
      ensures forall f :: f in found ==> exists k :: k in exposures && f.allocation == AllocationForExposure(exposures[k])
      ensures forall k :: k in exposures && SSHPort(exposures[k].publicPort) ==> exposures[k].publicPort in portMap
      ensures store.main == if fault == NoFault then Whole(SnapshotOf(Contents())) else old(store.main)
    {
      found := [];
      ghost var start := Contents();
      var left := exposures.Keys;
      while left != {}
        invariant left <= exposures.Keys && Valid() && fresh(records - old(records)) && old(records) <= records
        invariant start.records.Keys == old(records) && RecordsOf(found) <= records && unchanged(store)
        invariant Contents() == Discovered(start, found) && FreshFindings(start, found)
        invariant forall f :: f in found ==> exists k :: k in exposures && f.allocation == AllocationForExposure(exposures[k])
        invariant forall k :: k in exposures && k !in left && SSHPort(exposures[k].publicPort) ==>
                                exposures[k].publicPort in portMap
      {
        var k :| k in left;
        left := left - {k};
        if SSHPort(exposures[k].publicPort) {
          found := RegisterIfMissing(AllocationForExposure(exposures[k]), found, start);
        }
      }
      var _ := SaveStore(fault);
    }

    method ReconcileDevice(inst: Instance, d: string, ghost found: seq<Finding<SSHAllocation>>, ghost start: Book<SSHAllocation>)
      returns (ghost more: seq<Finding<SSHAllocation>>)
      requires Valid() && inst.devices.Some? && d in inst.devices.value
      requires Contents() == Discovered(start, found) && FreshFindings(start, found)
      requires start.records.Keys <= records && RecordsOf(found) <= records
      modifies this
      ensures Valid() && fresh(records - old(records)) && old(records) <= records
      ensures Contents() == Discovered(start, more) && FreshFindings(start, more)
      ensures RecordsOf(more) <= records
      ensures old(portMap).Keys <= portMap.Keys
      ensures Occupied(portMap.Keys, d, inst.devices.value[d])
      ensures forall f :: f in more ==> f in found || SeenOn(inst, f.allocation)
    {
      more := found;
      var proxy := ParseSSHProxyDevice(d, inst.devices.value[d]);
      if proxy.Some? {
        more := RegisterIfMissing(AllocationForDevice(inst, proxy.value), found, start);
        assert SeenOn(inst, AllocationForDevice(inst, proxy.value));
      }
    }

    // Marks the SSH proxy devices of one instance as occupied.
    method ReconcileInstance(inst: Instance, ghost found: seq<Finding<SSHAllocation>>, ghost start: Book<SSHAllocation>)
      returns (ghost more: seq<Finding<SSHAllocation>>)
      requires Valid() && inst.devices.Some?
      requires Contents() == Discovered(start, found) && FreshFindings(start, found)
      requires start.records.Keys <= records && RecordsOf(found) <= records
      modifies this
      ensures Valid() && fresh(records - old(records)) && old(records) <= records
      ensures Contents() == Discovered(start, more) && FreshFindings(start, more)
      ensures RecordsOf(more) <= records
      ensures old(portMap).Keys <= portMap.Keys
      ensures DevicesOccupied(portMap.Keys, inst, {})
      ensures forall f :: f in more ==> f in found || SeenOn(inst, f.allocation)
    {
      more := found;
      var left := inst.devices.value.Keys;
      while left != {}
        invariant left <= inst.devices.value.Keys && Valid() && fresh(records - old(records)) && old(records) <= records
        invariant start.records.Keys <= records && RecordsOf(more) <= records
        invariant Contents() == Discovered(start, more) && FreshFindings(start, more)
        invariant old(portMap).Keys <= portMap.Keys
        invariant DevicesOccupied(portMap.Keys, inst, left)
        invariant forall f :: f in more ==> f in found || SeenOn(inst, f.allocation)
      {
        var d :| d in left;
        left := left - {d};
        ghost var before := portMap.Keys;
        more := ReconcileDevice(inst, d, more, start);
        DevicesOccupiedStep(before, portMap.Keys, inst, left, d);
      }
    }

    // Marks every SSH proxy device of the provider's instances as occupied.
    method ReconcileFromProviderInstances(instances: seq<Instance>, fault: Fault)
      returns (ghost found: seq<Finding<SSHAllocation>>)
      requires Valid() && fault.Possible() && !fault.StopsBefore?
      modifies this, store
      ensures Valid() && fresh(records - old(records))
      ensures Contents() == Discovered(old(Contents()), found) && FreshFindings(old(Contents()), found)
      ensures EveryOccupied(portMap.Keys, instances)
      ensures forall f :: f in found ==> exists inst :: inst in instances && SeenOn(inst, f.allocation)
      ensures store.main == if fault == NoFault then Whole(SnapshotOf(Contents())) else old(store.main)
    {
      found := [];
      ghost var start := Contents();
      for i := 0 to |instances|
        invariant Valid() && fresh(records - old(records)) && old(records) <= records
        invariant start.records.Keys == old(records) && RecordsOf(found) <= records && unchanged(store)
        invariant Contents() == Discovered(start, found) && FreshFindings(start, found)
        invariant EveryOccupied(portMap.Keys, instances[..i])
        invariant forall f :: f in found ==> exists inst :: inst in instances && SeenOn(inst, f.allocation)
      {
        ghost var before := portMap.Keys;
        if instances[i].devices.Some? {
          found := ReconcileInstance(instances[i], found, start);
        }
        OccupiedStep(before, portMap.Keys, instances, i);
      }
      assert instances[..|instances|] == instances;
      var _ := SaveStore(fault);
    }
  }

  // A device that forwards an SSH port has its port in the index.
  predicate Occupied(ports: set<int>, name: string, dev: Device) {
    var proxy := ParseSSHProxyDevice(name, dev);
    proxy.Some? ==> proxy.value.publicPort in ports
  }

  // The record stands for one of the instance's SSH proxy devices.
  ghost predicate SeenOn(inst: Instance, a: Allocation) {
    inst.devices.Some? &&
    exists d :: d in inst.devices.value && ParseSSHProxyDevice(d, inst.devices.value[d]).Some? &&
                a == AllocationForDevice(inst, ParseSSHProxyDevice(d, inst.devices.value[d]).value)
  }

  ghost predicate DevicesOccupied(ports: set<int>, inst: Instance, except: set<string>)
    requires inst.devices.Some?
  {
    forall d :: d in inst.devices.value && d !in except ==> Occupied(ports, d, inst.devices.value[d])
  }

  lemma DevicesOccupiedStep(before: set<int>, after: set<int>, inst: Instance, left: set<string>, d: string)
    requires inst.devices.Some? && d in inst.devices.value && before <= after
    requires DevicesOccupied(before, inst, left + {d}) && Occupied(after, d, inst.devices.value[d])
    ensures DevicesOccupied(after, inst, left)
  {
    forall e | e in inst.devices.value && e !in left ensures Occupied(after, e, inst.devices.value[e]) {
      assert e != d ==> Occupied(before, e, inst.devices.value[e]);
    }
  }

  ghost predicate AllOccupied(ports: set<int>, inst: Instance) {
    inst.devices.Some? ==> DevicesOccupied(ports, inst, {})
  }

  ghost predicate EveryOccupied(ports: set<int>, instances: seq<Instance>) {
    forall i :: 0 <= i < |instances| ==> AllOccupied(ports, instances[i])
  }

  lemma OccupiedStep(before: set<int>, after: set<int>, instances: seq<Instance>, i: nat)
    requires i < |instances| && before <= after
    requires EveryOccupied(before, instances[..i]) && AllOccupied(after, instances[i])
    ensures EveryOccupied(after, instances[..i + 1])
  {
    forall j | 0 <= j < i ensures AllOccupied(after, instances[j]) {
      assert AllOccupied(before, instances[..i][j]);
      if instances[j].devices.Some? {
        forall d | d in instances[j].devices.value ensures Occupied(after, d, instances[j].devices.value[d]) {
          assert Occupied(before, d, instances[j].devices.value[d]);
        }
        assert DevicesOccupied(after, instances[j], {});
      }
    }
  }
}
