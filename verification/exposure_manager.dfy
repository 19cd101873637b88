// The stateful registry of network exposures.
module ExposureManagers {
  import opened Text
  import opened PortAllocation
  import opened Instances
  import opened SnapshotFiles
  import opened Exposures
  import opened ProxyDevices

  // A shared exposure record: the struct that a pointer designates. The manager
  // edits its fields in place.
  class NetworkExposure {
    var data: Exposure

    constructor (e: Exposure)
      ensures data == e
    {
      data := e;
    }

    method Merge(u: Exposure)
      modifies this
      ensures data == Merged(old(data), u)
    {
      if u.publicPort > 0 { data := data.(publicPort := u.publicPort); }
      if u.internalPort > 0 { data := data.(internalPort := u.internalPort); }
      if u.internalIP != "" { data := data.(internalIP := u.internalIP); }
      if u.publicIP != "" { data := data.(publicIP := u.publicIP); }
      if u.protocol != "" { data := data.(protocol := u.protocol); }
      if u.exposureMode != "" { data := data.(exposureMode := u.exposureMode); }
      if u.description != "" { data := data.(description := u.description); }
    }

    // Fills in the protocol and the id when they are missing.
    method Prepare()
      modifies this
      ensures data == Prepared(old(data))
    {
      if data.protocol == "" { data := data.(protocol := TCP); }
      if data.id == "" { data := data.(id := GeneratedID(data.workloadID, data.publicPort)); }
    }

    // The states of a newly registered exposure.
    method Stamp()
      modifies this
      ensures data == old(data).(
                desiredState := if old(data).desiredState == ExposureState.NoState then CONFIGURED else old(data).desiredState,
                actualState := CONFIGURED, syncStatus := InSync)
    {
      if data.desiredState == ExposureState.NoState { data := data.(desiredState := CONFIGURED); }
      data := data.(actualState := CONFIGURED, syncStatus := InSync);
    }
  }

  datatype ManagerError = Invalid | Conflict | NotFound | StoreFailed | DriverMissing | DriverFailed

  // Without a driver nothing can be applied; a failure of the driver is reported
  // even when the save fails as well.
  function ApplyError(x: Edge, id: string, link: Link, fault: Fault): Option<ManagerError> {
    if id !in x.state.registry then Some(NotFound)
    else if x.devices.None? then Some(DriverMissing)
    else if ApplyEffect(x.devices.value, x.state.registry[id].(desiredState := APPLIED), link).error.Some? then Some(DriverFailed)
    else if fault != NoFault then Some(StoreFailed)
    else None
  }

  function Observed(devices: Option<DeviceTable>, e: Exposure, link: Link): Observation {
    if devices.None? then NoDriver
    else match Observe(devices.value, e, link) case None => DriverError case Some(active) => Seen(active)
  }

  // What the driver says about every registered exposure; nothing without a driver.
  function Reports(devices: Option<DeviceTable>, reg: Registry, links: Links): map<string, Observation> {
    map k | k in reg && devices.Some? :: Observed(devices, reg[k], links(k))
  }

  // A query is answered when the exposure names no usable instance, which then has
  // no device, or when the provider answers and knows the instance.
  predicate Answered(table: DeviceTable, e: Exposure, link: Link) {
    ResolveInstanceName(e).Target? ==> link.queryOk && ResolveInstanceName(e).name in table
  }

  // Some device of the exposure's name forwards for it: proxy type, its endpoints.
  predicate ForwardedBy(table: DeviceTable, e: Exposure) {
    DeviceOf(table, e).Some? &&
    var dev := DeviceOf(table, e).value;
    && Property(dev, "type") in ["", "proxy"]
    && Property(dev, "listen") in [ListenString(e), "tcp::" + SignedDecimal(e.publicPort)]
    && Property(dev, "connect") == ConnectString(e)
  }

  // What reconciling makes of an exposure, from the devices themselves: an answered
  // query sets the observed state by whether the device is there and the sync
  // status by whether that is the desired state; without an answer nothing changes,
  // without a driver only the sync status.
  predicate ReconciledWith(devices: Option<DeviceTable>, link: Link, e: Exposure, after: Exposure) {
    if devices.None? then after == e.(syncStatus := InSync)
    else if !Answered(devices.value, e, link) then after == e
    else
      && after == e.(actualState := after.actualState, syncStatus := after.syncStatus)
      && (after.actualState == APPLIED <==> ForwardedBy(devices.value, e))
      && (after.actualState == UNCONFIGURED <==> !ForwardedBy(devices.value, e))
      && (after.syncStatus == InSync <==> e.desiredState == after.actualState)
      && (after.syncStatus == OutOfSync <==> e.desiredState != after.actualState)
  }

  lemma ReconcilingIsBySight(devices: Option<DeviceTable>, link: Link, e: Exposure)
    ensures ReconciledWith(devices, link, e, Reconciled(e, Observed(devices, e, link)))
  {
    ShorthandIs(e);
  }

  lemma EveryReconcilingIsBySight(devices: Option<DeviceTable>, reg: Registry, links: Links)
    ensures var after := ReconciledAll(reg, Reports(devices, reg, links));
            after.Keys == reg.Keys && (devices.None? ==> after == reg) &&
            (devices.Some? ==> forall k :: k in reg ==> ReconciledWith(devices, links(k), reg[k], after[k]))
  {
    forall k | k in reg && devices.Some? ensures ReconciledWith(devices, links(k), reg[k], Reconciled(reg[k], Observed(devices, reg[k], links(k)))) {
      ReconcilingIsBySight(devices, links(k), reg[k]);
    }
  }

  // A device that was removed is noticed: an exposure that should be applied is then
  // unconfigured and out of sync, whatever was recorded before.
  lemma RemovalIsNoticed(
    st: ManagerState, id: string, table: DeviceTable, link: Link, later: Link, saved: bool)
    requires id in st.registry && RemoveEffect(table, st.registry[id], link).error.None?
    requires Answered(table, st.registry[id], later)
    ensures var e := st.registry[id];
            var seen := Observed(Some(RemoveEffect(table, e, link).table), e, later);
            var after := AfterReconcile(st, id, seen, saved);
            after.registry - {id} == st.registry - {id} && after.registry[id].actualState == UNCONFIGURED &&
            (after.registry[id].syncStatus == OutOfSync <==> e.desiredState != UNCONFIGURED) &&
            (saved ==> after.disk == after.registry)
  {
    var e := st.registry[id];
    DeleteThenObserve(table, e, link, later);
    ReconcilingIsBySight(Some(RemoveEffect(table, e, link).table), later, e);
  }

  // How the driver's channels behave when asked about each exposure.
  type Links = string -> Link

  class ExposureManager {
    var exposures: map<string, NetworkExposure>
    const engine: AllocatorEngine
    const store: SnapshotFile<Registry>
    const driver: IncusProxyDriver?
    ghost var records: set<NetworkExposure>  // every record registered so far

    ghost predicate Valid()
      reads this, records
    {
      exposures.Values <= records && forall k :: k in exposures ==> exposures[k].data.id == k
    }

    ghost function Contents(): Registry
      reads this, records
    {
      map k | k in exposures && exposures[k] in records :: exposures[k].data
    }

    // The registry in memory and the last snapshot on disk.
    ghost function State(): ManagerState
      reads this, records, store
    {
      ManagerState(Contents(), if store.main.Whole? then store.main.value else map[])
    }

    // The devices behind the driver, None without a driver.
    ghost function Devices(): Option<DeviceTable>
      reads this, driver
    {
      if driver == null then None else Some(driver.table)
    }

    ghost function Edge(): Edge
      reads this, records, store, driver
    {
      ProxyDevices.Edge.Edge(State(), Devices())
    }

    lemma ValidIffKeyed()
      requires exposures.Values <= records
      ensures Valid() <==> Keyed(Contents())
    {
      assert forall k :: k in exposures ==> k in Contents() && Contents()[k] == exposures[k].data;
    }

    // Any file is loaded as it is; the manager is in order exactly when the file
    // has every exposure under its own id.
    constructor (engine: AllocatorEngine, store: SnapshotFile<Registry>, driver: IncusProxyDriver?, readable: bool)
      ensures exposures.Values <= records && (Valid() <==> Keyed(Contents()))
      ensures this.engine == engine && this.store == store && this.driver == driver
      ensures fresh(records)
      ensures Contents() == match LoadedFrom(store.main, map[], readable) case Loaded(reg) => reg case LoadError => map[]
    {
      this.engine, this.store, this.driver := engine, store, driver;
      exposures, records := map[], {};
      new;
      var loaded := store.Load(map[], readable);
      if loaded.Loaded? {
        var ids := loaded.value.Keys;
        while ids != {}
          invariant ids <= loaded.value.Keys
          invariant exposures.Keys == loaded.value.Keys - ids
          invariant exposures.Values <= records && fresh(records)
          invariant forall k :: k in exposures ==> exposures[k].data == loaded.value[k]
        {
          var k :| k in ids;
          var e := new NetworkExposure(loaded.value[k]);
          exposures, records := exposures[k := e], records + {e};
          ids := ids - {k};
        }
      }
      ValidIffKeyed();
    }

    method SaveStore(fault: Fault) returns (ok: bool)
      requires Valid() && fault.Possible() && !fault.StopsBefore?
      modifies store
      ensures ok <==> fault == NoFault
      ensures store.main == if ok then Whole(Contents()) else old(store.main)
      ensures State() == Put(old(State()), old(Contents()), ok)
    {
      var snapshot := map k | k in exposures :: exposures[k].data;
      assert snapshot == Contents();
      var result := store.Save(snapshot, fault);
      ok := result == Saved;
    }

    ghost function CreateError(e: Exposure, fault: Fault): Option<ManagerError>
      reads this, records
    {
      if !FieldsValid(engine, e) then Some(Invalid)
      else if !CreateAccepted(engine, Contents(), e) then Some(Conflict)
      else if fault != NoFault then Some(StoreFailed)
      else None
    }

    method CreateNetworkExposure(e: NetworkExposure?, fault: Fault) returns (error: Option<ManagerError>)
      requires Valid() && fault.Possible() && !fault.StopsBefore?
      requires e != null ==> e !in records
      modifies this, e, store
      ensures Valid()
      ensures e == null ==> error == Some(Invalid) && State() == old(State())
      ensures e != null ==> error == old(CreateError(e.data, fault))
      ensures e != null ==> State() == AfterCreate(engine, old(State()), old(e.data), fault == NoFault)
      ensures error.None? ==> exposures == old(exposures)[e.data.id := e] && e.data == Registered(old(e.data))
      ensures error.Some? ==> exposures == old(exposures)
      ensures records == old(records) || (e != null && records == old(records) + {e})
    {
      if e == null || !FieldsValid(engine, e.data) {
        return Some(Invalid);
      }
      e.Prepare();
      assert Contents() == old(Contents());
      if e.data.id in exposures {
        return Some(Conflict);
      }
      var acceptable := ValidateExposure(e.data);
      if !acceptable {
        return Some(Conflict);
      }
      e.Stamp();
      assert Contents() == old(Contents());
      var ok := InsertAndSave(e, fault);
      return if ok then None else Some(StoreFailed);
    }

    method InsertAndSave(e: NetworkExposure, fault: Fault) returns (ok: bool)
      requires Valid() && fault.Possible() && !fault.StopsBefore?
      requires e !in records && e.data.id !in exposures
      modifies this, store
      ensures Valid() && (ok <==> fault == NoFault)
      ensures exposures == (if ok then old(exposures)[e.data.id := e] else old(exposures)) && records == old(records) + {e}
      ensures State() == if ok then Put(old(State()), old(Contents())[e.data.id := e.data], true) else old(State())
    {
      Insert(e);
      assert exposures - {e.data.id} == old(exposures) && Contents() - {e.data.id} == old(Contents());
      ok := SaveStore(fault);
      if !ok {
        Withdraw(e.data.id);
      }
    }

    method Insert(e: NetworkExposure)
      requires Valid()
      modifies this
      ensures Valid() && exposures == old(exposures)[e.data.id := e] && records == old(records) + {e}
      ensures e !in old(records) ==> Contents() == old(Contents())[e.data.id := e.data]
    {
      exposures, records := exposures[e.data.id := e], records + {e};
    }

    method Withdraw(id: string)
      requires Valid()
      modifies this
      ensures Valid() && exposures == old(exposures) - {id} && records == old(records)
      ensures Contents() == old(Contents()) - {id}
    {
      exposures := exposures - {id};
    }

    // Runs the engine over the rules of all other registered exposures.
    method ValidateExposure(e: Exposure) returns (acceptable: bool)
      requires Valid()
      ensures acceptable <==> Acceptable(engine, Contents(), e)
    {
      var rules: seq<ForwardingRule> := [];
      var ids := exposures.Keys;
      while ids != {}
        invariant ids <= exposures.Keys
        invariant forall k :: k in exposures && k !in ids && exposures[k].data.id != e.id ==>
                                ToForwardingRule(exposures[k].data) in rules
        invariant forall r :: r in rules ==>
                                exists k :: k in exposures && exposures[k].data.id != e.id && r == ToForwardingRule(exposures[k].data)
      {
        var k :| k in ids;
        ids := ids - {k};
        if exposures[k].data.id != e.id {
          rules := rules + [ToForwardingRule(exposures[k].data)];
        }
      }
      assert ListsOthers(Contents(), e.id, rules) by {
        forall r | r in rules
          ensures exists k :: k in Contents() && Contents()[k].id != e.id && r == ToForwardingRule(Contents()[k]) {
          var k :| k in exposures && exposures[k].data.id != e.id && r == ToForwardingRule(exposures[k].data);
          assert k in Contents();
        }
      }
      var result := engine.ValidateAllocation(RequestFor(e), rules, [], [], None);
      acceptable := result.isValid && result.status == AVAILABLE;
      ghost var ms := [PortMapping(e.publicPort, e.internalPort, e.protocol, e.publicIP, e.internalIP)];
      VerdictIsAcceptance(engine, Contents(), e, rules, ms);
    }

    method UpdateNetworkExposure(id: string, update: Exposure, fault: Fault) returns (error: Option<ManagerError>)
      requires Valid() && fault.Possible() && !fault.StopsBefore?
      modifies records, store
      ensures Valid()
      ensures State() == AfterUpdate(engine, old(State()), id, update, fault == NoFault)
      ensures error == (if id !in exposures then Some(NotFound)
                        else if !Acceptable(engine, old(Contents()), Merged(old(Contents())[id], update)) then Some(Conflict)
                        else if fault != NoFault then Some(StoreFailed)
                        else None)
    {
      if id !in exposures {
        return Some(NotFound);
      }
      WriteInPlace(id, update);
      ghost var merged := Merged(old(Contents())[id], update);
      var acceptable := ValidateExposure(exposures[id].data);
      AcceptableIgnoresSelf(engine, old(Contents()), merged);
      if !acceptable {
        return Some(Conflict);
      }
      var ok := SaveStore(fault);
      return if ok then None else Some(StoreFailed);
    }

    method WriteInPlace(id: string, update: Exposure)
      requires Valid() && id in exposures
      modifies exposures[id]
      ensures Valid()
      ensures Contents() == old(Contents())[id := Merged(old(Contents())[id], update)]
    {
      exposures[id].Merge(update);
    }

    // The write of a caller that holds the record.
    method WriteAddress(id: string, address: string)
      requires Valid() && id in exposures
      modifies exposures[id]
      ensures Valid() && Contents() == old(Contents())[id := old(Contents())[id].(internalIP := address)]
    {
      exposures[id].data := exposures[id].data.(internalIP := address);
    }

    method DeleteNetworkExposure(id: string, link: Link, fault: Fault) returns (error: Option<ManagerError>)
      requires Valid() && fault.Possible() && !fault.StopsBefore?
      modifies this, store, driver
      ensures Valid()
      ensures State() == AfterDelete(old(State()), id, fault == NoFault)
      ensures exposures == old(exposures) - {id} && records == old(records)
      ensures Contents() == old(Contents()) - {id}
      ensures driver != null && id in old(exposures) ==>
                driver.table == RemoveEffect(old(driver.table), old(Contents())[id], link).table
      ensures driver != null && id !in old(exposures) ==> driver.table == old(driver.table)
      // the outcome at the driver is not reported
      ensures error == if id !in old(exposures) then Some(NotFound) else if fault != NoFault then Some(StoreFailed) else None
    {
      if id !in exposures {
        return Some(NotFound);
      }
      RemoveDevice(exposures[id].data, link);
      var ok := RemoveAndSave(id, fault);
      return if ok then None else Some(StoreFailed);
    }

    // The outcome of the driver call is ignored.
    method RemoveDevice(e: Exposure, link: Link)
      modifies driver
      ensures driver != null ==> driver.table == RemoveEffect(old(driver.table), e, link).table
    {
      if driver != null {
        var _ := driver.DeleteExposure(e, link);
      }
    }

    method RemoveAndSave(id: string, fault: Fault) returns (ok: bool)
      requires Valid() && fault.Possible() && !fault.StopsBefore?
      modifies this, store
      ensures Valid() && (ok <==> fault == NoFault)
      ensures exposures == old(exposures) - {id} && records == old(records)
      ensures State() == Put(old(State()), old(Contents()) - {id}, ok)
    {
      Withdraw(id);
      ok := SaveStore(fault);
    }

    method ApplyExposure(id: string, link: Link, fault: Fault) returns (error: Option<ManagerError>)
      requires Valid() && fault.Possible() && !fault.StopsBefore?
      modifies records, store, driver
      ensures Valid()
      ensures Edge() == AfterApplying(old(Edge()), id, link, fault == NoFault)
      ensures error == ApplyError(old(Edge()), id, link, fault)
    {
      if id !in exposures {
        return Some(NotFound);
      }
      if driver == null {
        return Some(DriverMissing);
      }
      error := ApplyRegistered(id, link, fault);
    }

    method ApplyRegistered(id: string, link: Link, fault: Fault) returns (error: Option<ManagerError>)
      requires Valid() && fault.Possible() && !fault.StopsBefore? && id in exposures && driver != null
      modifies exposures[id], store, driver
      ensures Valid()
      ensures var effect := ApplyEffect(old(driver.table), old(Contents())[id].(desiredState := APPLIED), link);
              driver.table == effect.table &&
              State() == AfterApply(old(State()), id, effect.error.None?, fault == NoFault) &&
              error == if effect.error.Some? then Some(DriverFailed) else if fault != NoFault then Some(StoreFailed) else None
    {
      var failure := ApplyRecord(exposures[id], link);
      assert Contents() == old(Contents())[id := Applied(old(Contents())[id], failure.None?)];
      var ok := SaveStore(fault);
      return if failure.Some? then Some(DriverFailed) else if ok then None else Some(StoreFailed);
    }

    method ApplyRecord(e: NetworkExposure, link: Link) returns (failure: Option<ProxyError>)
      requires driver != null
      modifies e, driver
      ensures var effect := ApplyEffect(old(driver.table), old(e.data).(desiredState := APPLIED), link);
              failure == effect.error && driver.table == effect.table
      ensures e.data == Applied(old(e.data), failure.None?)
    {
      e.data := e.data.(desiredState := APPLIED);
      failure := driver.CreateExposure(e.data, link);
      if failure.Some? {
        e.data := e.data.(actualState := UNCONFIGURED, syncStatus := OutOfSync);
      } else {
        e.data := e.data.(actualState := APPLIED, syncStatus := InSync);
      }
    }

    method ReconcileExposure(id: string, link: Link, fault: Fault) returns (error: Option<ManagerError>)
      requires Valid() && fault.Possible() && !fault.StopsBefore?
      modifies records, store
      ensures Valid()
      ensures error == if id in exposures then None else Some(NotFound)
      ensures id !in exposures ==> State() == old(State())
      ensures id in exposures ==>
                State() == AfterReconcile(old(State()), id, Observed(Devices(), old(Contents())[id], link), fault == NoFault)
      ensures id in exposures ==> ReconciledWith(Devices(), link, old(Contents())[id], Contents()[id])
    {
      if id !in exposures {
        return Some(NotFound);
      }
      ReconcilingIsBySight(Devices(), link, Contents()[id]);
      ReconcileEntry(id, link);
      var _ := SaveStore(fault);
      return None;
    }

    method ReconcileEntry(id: string, link: Link)
      requires Valid() && id in exposures
      modifies exposures[id]
      ensures Valid() && Devices() == old(Devices())
      ensures Contents() == old(Contents())[id := Reconciled(old(Contents())[id], Observed(old(Devices()), old(Contents())[id], link))]
    {
      ReconcileRecord(exposures[id], link);
    }

    method ReconcileRecord(e: NetworkExposure, link: Link)
      modifies e
      ensures e.data == Reconciled(old(e.data), Observed(Devices(), old(e.data), link))
    {
      if driver == null {
        e.data := e.data.(syncStatus := InSync);
        return;
      }
      var active := driver.GetExposure(e.data, link);
      if active.Some? {
        e.data := e.data.(actualState := if active.value then APPLIED else UNCONFIGURED);
        e.data := e.data.(syncStatus := if e.data.desiredState == e.data.actualState then InSync else OutOfSync);
      }
    }

    method ReconcileAllExposures(links: Links, fault: Fault) returns (error: Option<ManagerError>)
      requires Valid() && fault.Possible() && !fault.StopsBefore?
      modifies records, store
      ensures Valid()
      ensures State() == AfterReconcileEvery(old(State()), Reports(Devices(), old(Contents()), links), fault == NoFault)
      ensures Contents().Keys == old(Contents()).Keys
      ensures driver == null ==> Contents() == old(Contents())
      ensures driver != null ==>
                forall k :: k in Contents() ==> ReconciledWith(Devices(), links(k), old(Contents())[k], Contents()[k])
      ensures error == if fault == NoFault then None else Some(StoreFailed)
    {
      ghost var reg, reports := Contents(), Reports(Devices(), Contents(), links);
      EveryReconcilingIsBySight(Devices(), reg, links);
      ReconcileContents(links);
      assert Contents() == ReconciledAll(reg, reports);
      var ok := SaveStore(fault);
      return if ok then None else Some(StoreFailed);
    }

    method ReconcileContents(links: Links)
      requires Valid()
      modifies records
      ensures Valid()
      ensures State() == old(State()).(registry := ReconciledAll(old(Contents()), Reports(Devices(), old(Contents()), links)))
    {
      ghost var reg, reports := Contents(), Reports(Devices(), Contents(), links);
      if driver != null {
        ReconcileRecords(links);
      }
      ReconciledAllIs(reg, Contents(), reports);
    }

    method ReconcileRecords(links: Links)
      requires Valid() && driver != null
      modifies records
      ensures Valid()
      ensures forall k :: k in exposures ==>
                exposures[k].data == Reconciled(old(exposures[k].data), Observed(Devices(), old(exposures[k].data), links(k)))
    {
      var ids := exposures.Keys;
      while ids != {}
        invariant ids <= exposures.Keys
        invariant Valid()
        invariant forall k :: k in ids ==> exposures[k].data == old(exposures[k].data)
        invariant forall k :: k in exposures && k !in ids ==>
                    exposures[k].data == Reconciled(old(exposures[k].data), Observed(Devices(), old(exposures[k].data), links(k)))
      {
        var k :| k in ids;
        ReconcileRecord(exposures[k], links(k));
        ids := ids - {k};
      }
    }

    method MigrateForwardingRules(
      workloadID: string, workloadName: string, mode: string, rules: seq<ForwardingRule>, fault: Fault)
      returns (count: nat)
      requires Valid() && fault.Possible() && !fault.StopsBefore?
      modifies this, store
      ensures Valid() && fresh(records - old(records))
      ensures Contents() == Migrated(old(Contents()), workloadID, workloadName, mode, rules)
      ensures count == |Contents()| - |old(Contents())|
      ensures store.main == if count > 0 && fault == NoFault then Whole(Contents()) else old(store.main)
    {
      count := 0;
      for i := 0 to |rules|
        invariant Valid() && fresh(records - old(records))
        invariant Contents() == Migrated(old(Contents()), workloadID, workloadName, mode, rules[..i])
        invariant count == |Contents()| - |old(Contents())|
        invariant unchanged(store)
      {
        var converted := ConvertForwardingRule(rules[i], workloadID, workloadName, mode);
        assert rules[..i + 1][..i] == rules[..i];
        var inserted := InsertIfMissing(converted);
        count := if inserted then count + 1 else count;
      }
      assert rules[..|rules|] == rules;
      if count > 0 {
        var _ := SaveStore(fault);
      }
    }

    method InsertIfMissing(value: Exposure) returns (inserted: bool)
      requires Valid()
      modifies this
      ensures Valid() && fresh(records - old(records))
      ensures Contents() == MigrateOne(old(Contents()), value)
      ensures inserted <==> value.id !in old(Contents())
    {
      inserted := value.id !in exposures;
      if inserted {
        var e := new NetworkExposure(value);
        Insert(e);
      }
    }

    // Whether any registered exposure uses the port, whatever its gateway or transport.
    method IsPublicPortInUse(port: int) returns (inUse: bool)
      requires Valid()
      ensures inUse <==> PortInUse(Contents(), port)
    {
      var ids := exposures.Keys;
      while ids != {}
        invariant ids <= exposures.Keys
        invariant forall k :: k in exposures && k !in ids ==> exposures[k].data.publicPort != port
      {
        var k :| k in ids;
        ids := ids - {k};
        if exposures[k].data.publicPort == port {
          assert Contents()[k].publicPort == port;
          return true;
        }
      }
      return false;
    }

    // The exposures of one workload.
    method ListWorkloadExposures(workloadID: string) returns (ids: set<string>)
      requires Valid()
      ensures ids == ListedFor(Contents(), workloadID)
    {
      ids := set k | k in exposures && exposures[k].data.workloadID == workloadID;
    }
  }

  // After a successful apply, on a device that was absent or of proxy type,
  // reconciling reports the exposure applied and in sync.
  lemma ApplyThenReconcileInSync(st: ManagerState, id: string, table: DeviceTable, link: Link, later: Link, saved: bool)
    requires id in st.registry && later.queryOk
    requires ApplyEffect(table, st.registry[id].(desiredState := APPLIED), link).error.None?
    requires DeviceOf(table, st.registry[id]).None? || ProxyTyped(DeviceOf(table, st.registry[id]).value)
    ensures var e := st.registry[id].(desiredState := APPLIED);
            var applied := AfterApply(st, id, true, saved);
            var seen := Observe(ApplyEffect(table, e, link).table, applied.registry[id], later);
            seen == Some(true) &&
            AfterReconcile(applied, id, Seen(true), saved).registry == applied.registry &&
            applied.registry[id].syncStatus == InSync && applied.registry[id].actualState == APPLIED
  {
    var e := st.registry[id].(desiredState := APPLIED);
    assert DeviceOf(table, e) == DeviceOf(table, st.registry[id]);
    ApplyThenObserve(table, e, link, later);
    var applied := AfterApply(st, id, true, saved);
    var after := ApplyEffect(table, e, link).table;
    assert Observe(after, applied.registry[id], later) == Observe(after, e, later);
    assert Reconciled(applied.registry[id], Seen(true)) == applied.registry[id];
  }
}
