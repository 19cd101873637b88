// The bookkeeping of public SSH ports: records shared by two indexes, the
// operations on them, and their behaviour over whole runs with failing saves
// and restarts. A record is designated by a reference of type R, so that the
// sharing of one record by both indexes is part of the model.
module SSHBooks {
  import opened Text
  import opened Exposures
  import opened ProxyDevices

  datatype SSHStatus = ALLOCATED | PROVISIONING | ACTIVE | RELEASING | RELEASED | FAILED_STATUS

  datatype Allocation = Allocation(
    id: string, publicPort: int, protocol: string, workloadID: string, instanceName: string,
    privateIP: string, destinationPort: int, status: SSHStatus)

  predicate Live(a: Allocation) { a.status != RELEASED }

  function AllocationID(port: int): string { "ssh-alloc-" + SignedDecimal(port) }

  function NewAllocation(port: int, workloadID: string, instanceName: string): Allocation {
    Allocation(AllocationID(port), port, "TCP", workloadID, instanceName, "", 22, ALLOCATED)
  }

  // byWorkload and byPort refer to the same records.
  datatype Book<R(==)> = Book(records: map<R, Allocation>, byWorkload: map<string, R>, byPort: map<int, R>)

  // ------------------------------------------------------------- consistency

  ghost predicate Linked<R>(b: Book<R>) {
    && (forall w :: w in b.byWorkload ==> b.byWorkload[w] in b.records && b.records[b.byWorkload[w]].workloadID == w)
    && (forall p :: p in b.byPort ==> b.byPort[p] in b.records && b.records[b.byPort[p]].publicPort == p)
  }

  predicate LiveAt<R>(b: Book<R>, w: string)
  {
    w in b.byWorkload && b.byWorkload[w] in b.records && Live(b.records[b.byWorkload[w]])
  }

  function PortOf<R>(b: Book<R>, w: string): int
    requires w in b.byWorkload && b.byWorkload[w] in b.records
  {
    b.records[b.byWorkload[w]].publicPort
  }

  // The port entry of w's record is that very record.
  predicate IndexedAt<R>(b: Book<R>, w: string)
    requires w in b.byWorkload && b.byWorkload[w] in b.records
  {
    SSHPort(PortOf(b, w)) && PortOf(b, w) in b.byPort && b.byPort[PortOf(b, w)] == b.byWorkload[w]
  }

  ghost predicate Consistent<R>(b: Book<R>) {
    Linked(b) && forall w :: LiveAt(b, w) ==> IndexedAt(b, w)
  }

  // What consistency gives: live ports are in range and never shared.
  lemma ConsistentPortsDistinct<R>(b: Book<R>, v: string, w: string)
    requires Consistent(b) && LiveAt(b, v) && LiveAt(b, w) && v != w
    ensures SSHPort(PortOf(b, v)) && PortOf(b, v) != PortOf(b, w)
  {
    assert IndexedAt(b, v) && IndexedAt(b, w);
  }

  // What the store holds, and what it must satisfy to be loaded safely.
  type Snapshot = map<string, Allocation>

  function SnapshotOf<R>(b: Book<R>): Snapshot {
    map w | w in b.byWorkload && b.byWorkload[w] in b.records :: b.records[b.byWorkload[w]]
  }

  // Every entry is filed under its own workload, as every save writes it.
  ghost predicate FiledByWorkload(disk: Snapshot) { forall k :: k in disk ==> disk[k].workloadID == k }

  ghost predicate Sound(disk: Snapshot) {
    && FiledByWorkload(disk)
    && (forall w :: w in disk && Live(disk[w]) ==> SSHPort(disk[w].publicPort))
    && (forall v, w :: v in disk && w in disk && v != w && Live(disk[v]) && Live(disk[w]) ==>
                         disk[v].publicPort != disk[w].publicPort)
  }

  lemma SnapshotIsSound<R>(b: Book<R>)
    requires Consistent(b)
    ensures Sound(SnapshotOf(b))
  {
    var disk := SnapshotOf(b);
    forall w | w in disk && Live(disk[w]) ensures SSHPort(disk[w].publicPort) {
      assert LiveAt(b, w) && IndexedAt(b, w);
    }
    forall v, w | v in disk && w in disk && v != w && Live(disk[v]) && Live(disk[w])
      ensures disk[v].publicPort != disk[w].publicPort {
      ConsistentPortsDistinct(b, v, w);
    }
  }

  // No other entry is for the same workload.
  ghost predicate OnlyEntry(disk: Snapshot, k: string) {
    k in disk && forall j :: j in disk && disk[j].workloadID == disk[k].workloadID ==> j == k
  }

  ghost predicate EntryFor(disk: Snapshot, done: set<string>, w: string, a: Allocation) {
    exists k :: k in disk && k in done && disk[k].workloadID == w && disk[k] == a
  }

  // The port entry is a live record of that port, and the one that the workload
  // has, unless the file has several for this workload.
  ghost predicate PortEntryFor<R>(b: Book<R>, disk: Snapshot, done: set<string>, p: int)
    requires p in b.byPort && b.byPort[p] in b.records
  {
    exists k :: k in disk && k in done && Live(disk[k]) && SSHPort(p) && disk[k].publicPort == p &&
                b.records[b.byPort[p]] == disk[k] &&
                (OnlyEntry(disk, k) ==>
                   disk[k].workloadID in b.byWorkload && b.byPort[p] == b.byWorkload[disk[k].workloadID])
  }

  // b is what loading the entries in done produces, whatever is in the file and
  // in whatever order: records under their workloads, and a port index rebuilt
  // from the live ones in the range; where several compete, one of them.
  ghost predicate LoadedPart<R>(b: Book<R>, disk: Snapshot, done: set<string>) {
    && Linked(b)
    && (forall k :: k in disk && k in done ==> disk[k].workloadID in b.byWorkload)
    && (forall w :: w in b.byWorkload ==> EntryFor(disk, done, w, b.records[b.byWorkload[w]]))
    && (forall k :: k in disk && k in done && Live(disk[k]) && SSHPort(disk[k].publicPort) ==> disk[k].publicPort in b.byPort)
    && (forall p :: p in b.byPort ==> PortEntryFor(b, disk, done, p))
  }

  ghost predicate LoadedFrom<R>(b: Book<R>, disk: Snapshot) { LoadedPart(b, disk, disk.Keys) }

  // One entry more.
  lemma LoadedOneMore<R>(b: Book<R>, disk: Snapshot, done: set<string>, k: string, r: R, after: Book<R>)
    requires LoadedPart(b, disk, done) && k in disk && k !in done && r !in b.records
    requires after == Book(b.records[r := disk[k]], b.byWorkload[disk[k].workloadID := r],
                           if Live(disk[k]) && SSHPort(disk[k].publicPort) then b.byPort[disk[k].publicPort := r] else b.byPort)
    ensures LoadedPart(after, disk, done + {k})
  {
    forall w | w in after.byWorkload ensures EntryFor(disk, done + {k}, w, after.records[after.byWorkload[w]]) {
      if w != disk[k].workloadID {
        assert EntryFor(disk, done, w, b.records[b.byWorkload[w]]);
      }
    }
    forall p | p in after.byPort ensures PortEntryFor(after, disk, done + {k}, p) {
      if after.byPort[p] != r {
        assert PortEntryFor(b, disk, done, p);
      } else {
        assert k in done + {k};
      }
    }
  }

  // Every file that a save can have written loads into a consistent book exactly
  // when it is sound, that is, when no two live entries share a port and all are
  // in the range; and saving what was loaded writes the same file.
  lemma LoadingIsConsistent<R>(b: Book<R>, disk: Snapshot)
    requires LoadedFrom(b, disk)
    ensures FiledByWorkload(disk) ==> SnapshotOf(b) == disk && (Consistent(b) <==> Sound(disk))
  {
    if FiledByWorkload(disk) {
      LoadingIsFaithful(b, disk);
      if Sound(disk) {
        forall w | LiveAt(b, w) ensures IndexedAt(b, w) {
          assert PortEntryFor(b, disk, disk.Keys, disk[w].publicPort);
          assert OnlyEntry(disk, w);
        }
      }
      if Consistent(b) {
        SnapshotIsSound(b);
      }
    }
  }

  lemma LoadingIsFaithful<R>(b: Book<R>, disk: Snapshot)
    requires LoadedFrom(b, disk) && FiledByWorkload(disk)
    ensures SnapshotOf(b) == disk
  {
    forall w | w in b.byWorkload ensures w in disk && b.records[b.byWorkload[w]] == disk[w] {
      assert EntryFor(disk, disk.Keys, w, b.records[b.byWorkload[w]]);
    }
    forall w | w in disk ensures w in b.byWorkload {
      assert disk[w].workloadID == w;
    }
  }

  // -------------------------------------------------------------- allocation

  ghost predicate Available<R>(b: Book<R>, reg: Registry, port: int) {
    SSHPort(port) && port !in b.byPort && !PortInUse(reg, port)
  }

  ghost predicate Lowest<R>(b: Book<R>, reg: Registry, port: int) {
    Available(b, reg, port) && forall q :: Available(b, reg, q) ==> port <= q
  }

  lemma {:induction false} LowestExists<R>(b: Book<R>, reg: Registry, port: int)
    requires Available(b, reg, port)
    ensures exists p :: Lowest(b, reg, p)
    decreases port - SSH_PORT_MIN
  {
    if q :| Available(b, reg, q) && q < port {
      LowestExists(b, reg, q);
    } else {
      assert Lowest(b, reg, port);
    }
  }

  // The lowest port that is neither indexed nor used by an exposure.
  ghost function LowestAvailable<R>(b: Book<R>, reg: Registry): (port: Option<int>)
    ensures port.Some? ==> Lowest(b, reg, port.value)
    ensures port.None? ==> forall p :: !Available(b, reg, p)
  {
    if p :| Lowest(b, reg, p) then Some(p)
    else
      assert forall p :: !Available(b, reg, p) by {
        forall p ensures !Available(b, reg, p) {
          if Available(b, reg, p) {
            LowestExists(b, reg, p);
          }
        }
      }
      None
  }

  // Allocation fails exactly when all ports of the range are covered.
  lemma ExhaustedIff<R>(b: Book<R>, reg: Registry)
    ensures LowestAvailable(b, reg).None? <==>
              forall p :: SSHPort(p) ==> p in b.byPort || PortInUse(reg, p)
  {
    var port := LowestAvailable(b, reg);
    forall p | SSHPort(p) && port.None? ensures p in b.byPort || PortInUse(reg, p) {
      assert !Available(b, reg, p);
    }
  }

  function Placed<R>(b: Book<R>, r: R, a: Allocation): Book<R> {
    Book(b.records[r := a], b.byWorkload[a.workloadID := r], b.byPort[a.publicPort := r])
  }

  // The indexes after a placement that could not be saved.
  function Withdrawn<R>(b: Book<R>, w: string, port: int): Book<R> {
    Book(b.records, b.byWorkload - {w}, b.byPort - {port})
  }

  ghost function AfterAllocate<R>(b: Book<R>, reg: Registry, w: string, name: string, r: R, saved: bool): Book<R> {
    if LiveAt(b, w) then b
    else match LowestAvailable(b, reg)
      case None => b
      case Some(port) =>
        var placed := Placed(b, r, NewAllocation(port, w, name));
        if saved then placed else Withdrawn(placed, w, port)
  }

  ghost function LiveView<R>(b: Book<R>): Snapshot {
    map w | w in b.byWorkload && LiveAt(b, w) :: b.records[b.byWorkload[w]]
  }

  // Withdrawing an unsaved placement leaves every live allocation and the
  // whole port index as they were.
  lemma WithdrawnKeepsLiveView<R>(b: Book<R>, r: R, a: Allocation)
    requires b.byWorkload.Values <= b.records.Keys && r !in b.records
    requires !LiveAt(b, a.workloadID) && a.publicPort !in b.byPort
    ensures var after := Withdrawn(Placed(b, r, a), a.workloadID, a.publicPort);
            LiveView(after) == LiveView(b) && after.byPort == b.byPort
  {
    var after := Withdrawn(Placed(b, r, a), a.workloadID, a.publicPort);
    assert forall v :: LiveAt(b, v) <==> LiveAt(after, v);
  }

  lemma FailedAllocateKeepsLiveView<R>(b: Book<R>, reg: Registry, w: string, name: string, r: R)
    requires Linked(b) && r !in b.records
    ensures LiveView(AfterAllocate(b, reg, w, name, r, false)) == LiveView(b)
    ensures AfterAllocate(b, reg, w, name, r, false).byPort == b.byPort
  {
    var port := LowestAvailable(b, reg);
    if !LiveAt(b, w) && port.Some? {
      WithdrawnKeepsLiveView(b, r, NewAllocation(port.value, w, name));
    }
  }

  // Asking again for a workload that holds a live allocation changes nothing.
  lemma AllocateIdempotent<R>(b: Book<R>, reg: Registry, later: Registry, w: string, name: string, r: R, s: R, saved: bool)
    requires Linked(b) && r !in b.records
    requires LiveAt(b, w) || LowestAvailable(b, reg).Some?
    ensures var once := AfterAllocate(b, reg, w, name, r, true);
            LiveAt(once, w) && AfterAllocate(once, later, w, name, s, saved) == once
  {
  }

  // It leaves the records and entries that are there as they were.
  lemma AllocationLeavesOthers<R>(b: Book<R>, reg: Registry, w: string, name: string, r: R, v: string)
    requires r !in b.records && v != w
    ensures var after := AfterAllocate(b, reg, w, name, r, true);
            (v in after.byWorkload <==> v in b.byWorkload) &&
            (v in b.byWorkload ==> after.byWorkload[v] == b.byWorkload[v]) &&
            (forall k :: k in b.records ==> k in after.records && after.records[k] == b.records[k]) &&
            (forall p :: p in b.byPort ==> p in after.byPort && after.byPort[p] == b.byPort[p])
  {
  }

  // Placing a fresh record at an unindexed port keeps the book consistent.
  lemma PlacingKeepsConsistent<R>(b: Book<R>, r: R, a: Allocation)
    requires Consistent(b) && r !in b.records
    requires SSHPort(a.publicPort) && a.publicPort !in b.byPort
    ensures Consistent(Placed(b, r, a))
  {
    forall w | LiveAt(Placed(b, r, a), w) ensures IndexedAt(Placed(b, r, a), w) {
      if w != a.workloadID {
        assert LiveAt(b, w) && IndexedAt(b, w);
      }
    }
  }

  lemma AllocateKeepsConsistent<R>(b: Book<R>, reg: Registry, w: string, name: string, r: R, saved: bool)
    requires Consistent(b) && r !in b.records
    ensures Consistent(AfterAllocate(b, reg, w, name, r, saved))
  {
    var port := LowestAvailable(b, reg);
    if !LiveAt(b, w) && port.Some? {
      PlacingKeepsConsistent(b, r, NewAllocation(port.value, w, name));
      if !saved {
        var after := AfterAllocate(b, reg, w, name, r, saved);
        forall v | LiveAt(after, v) ensures IndexedAt(after, v) {
          assert LiveAt(b, v) && IndexedAt(b, v);
        }
      }
    }
  }

  // ------------------------------------------- release, status, registration

  // The port entry belongs to a live allocation.
  predicate HeldLive<R>(b: Book<R>, port: int) {
    port in b.byPort && b.byPort[port] in b.records &&
    var owner := b.records[b.byPort[port]].workloadID;
    LiveAt(b, owner) && b.byWorkload[owner] == b.byPort[port]
  }

  function AfterRelease<R>(b: Book<R>, w: string): Book<R> {
    if w !in b.byWorkload || b.byWorkload[w] !in b.records then b
    else
      var r := b.byWorkload[w];
      Book(b.records[r := b.records[r].(status := RELEASED)], b.byWorkload, b.byPort - {b.records[r].publicPort})
  }

  // Releasing is harmless unless the record was released before and its port
  // has since gone to another live allocation.
  predicate ReleaseHarmless<R>(b: Book<R>, w: string) {
    w !in b.byWorkload || b.byWorkload[w] !in b.records || LiveAt(b, w) || !HeldLive(b, PortOf(b, w))
  }

  lemma ReleaseConsistentIff<R>(b: Book<R>, w: string)
    requires Consistent(b)
    ensures Consistent(AfterRelease(b, w)) <==> ReleaseHarmless(b, w)
  {
    if w in b.byWorkload {
      var after := AfterRelease(b, w);
      var port := PortOf(b, w);
      forall v | v in b.byWorkload && v != w ensures after.records[after.byWorkload[v]] == b.records[b.byWorkload[v]] {
        assert b.records[b.byWorkload[v]].workloadID == v;
      }
      if ReleaseHarmless(b, w) {
        forall v | LiveAt(after, v) ensures IndexedAt(after, v) {
          assert v != w && LiveAt(b, v) && IndexedAt(b, v);
        }
      } else {
        var owner := b.records[b.byPort[port]].workloadID;
        assert LiveAt(after, owner) && !IndexedAt(after, owner);
      }
    }
  }

  function AfterStatus<R>(b: Book<R>, w: string, status: SSHStatus, ip: string): Book<R> {
    if w !in b.byWorkload || b.byWorkload[w] !in b.records then b
    else
      var a := b.records[b.byWorkload[w]];
      b.(records := b.records[b.byWorkload[w] := a.(status := status, privateIP := if ip != "" then ip else a.privateIP)])
  }

  // The record after an update that asked for this status and address.
  predicate UpdatedTo(a: Allocation, now: Allocation, status: SSHStatus, ip: string) {
    && now.status == status && (if ip == "" then now.privateIP == a.privateIP else now.privateIP == ip)
    && now.publicPort == a.publicPort && now.workloadID == a.workloadID && now.destinationPort == a.destinationPort
    && now.id == a.id && now.protocol == a.protocol && now.instanceName == a.instanceName
  }

  // The record after a release: nothing but its status is new.
  predicate ReleasedFrom(a: Allocation, now: Allocation) { UpdatedTo(a, now, RELEASED, "") }

  // Both change the one record that is on file for the workload; an update keeps
  // both indexes, a release takes the record's port out of the port index.
  lemma OneRecordChanges<R>(b: Book<R>, w: string, status: SSHStatus, ip: string)
    requires w in b.byWorkload && b.byWorkload[w] in b.records
    ensures var after := AfterStatus(b, w, status, ip);
            UpdatedTo(b.records[b.byWorkload[w]], after.records[b.byWorkload[w]], status, ip) &&
            after.byWorkload == b.byWorkload && after.byPort == b.byPort
    ensures var after := AfterRelease(b, w);
            ReleasedFrom(b.records[b.byWorkload[w]], after.records[b.byWorkload[w]]) &&
            after.byWorkload == b.byWorkload && (forall p :: p in after.byPort <==> p in b.byPort && p != PortOf(b, w)) &&
            (forall p :: p in after.byPort ==> after.byPort[p] == b.byPort[p])
    ensures forall after :: after in {AfterStatus(b, w, status, ip), AfterRelease(b, w)} ==>
              after.records - {b.byWorkload[w]} == b.records - {b.byWorkload[w]}
  {
  }

  // A status update is harmless unless it revives a released record that the
  // port index no longer knows.
  predicate UpdateHarmless<R>(b: Book<R>, w: string, status: SSHStatus) {
    w !in b.byWorkload || b.byWorkload[w] !in b.records || status == RELEASED || LiveAt(b, w) || IndexedAt(b, w)
  }

  lemma UpdateConsistentIff<R>(b: Book<R>, w: string, status: SSHStatus, ip: string)
    requires Consistent(b)
    ensures Consistent(AfterStatus(b, w, status, ip)) <==> UpdateHarmless(b, w, status)
  {
    if w in b.byWorkload {
      var after := AfterStatus(b, w, status, ip);
      forall v | v in b.byWorkload && v != w ensures after.records[after.byWorkload[v]] == b.records[b.byWorkload[v]] {
        assert b.records[b.byWorkload[v]].workloadID == v;
      }
      if UpdateHarmless(b, w, status) {
        forall v | LiveAt(after, v) ensures IndexedAt(after, v) {
          assert LiveAt(b, v) ==> IndexedAt(b, v);
        }
      } else {
        assert LiveAt(after, w) && !IndexedAt(after, w);
      }
    }
  }

  // An unconditional reservation of a port in the range.
  function AfterReserve<R>(b: Book<R>, r: R, a: Allocation): Book<R> {
    if SSHPort(a.publicPort) then Placed(b, r, a) else b
  }

  predicate ReserveHarmless<R>(b: Book<R>, a: Allocation) {
    !SSHPort(a.publicPort) || !HeldLive(b, a.publicPort) ||
    b.records[b.byPort[a.publicPort]].workloadID == a.workloadID
  }

  lemma ReserveConsistentIff<R>(b: Book<R>, r: R, a: Allocation)
    requires Consistent(b) && r !in b.records && Live(a)
    ensures Consistent(AfterReserve(b, r, a)) <==> ReserveHarmless(b, a)
  {
    if SSHPort(a.publicPort) {
      var after := Placed(b, r, a);
      if ReserveHarmless(b, a) {
        forall v | LiveAt(after, v) ensures IndexedAt(after, v) {
          if v != a.workloadID {
            assert LiveAt(b, v) && IndexedAt(b, v);
          }
        }
      } else {
        var owner := b.records[b.byPort[a.publicPort]].workloadID;
        assert LiveAt(after, owner) && !IndexedAt(after, owner);
      }
    }
  }

  // Discovery registers a record only where the port index has no entry.
  function AfterDiscover<R>(b: Book<R>, r: R, a: Allocation): Book<R> {
    if a.publicPort in b.byPort then b else Placed(b, r, a)
  }

  lemma DiscoverKeepsConsistent<R>(b: Book<R>, r: R, a: Allocation)
    requires Consistent(b) && r !in b.records && SSHPort(a.publicPort)
    ensures Consistent(AfterDiscover(b, r, a))
  {
    if a.publicPort !in b.byPort {
      PlacingKeepsConsistent(b, r, a);
    }
  }

  datatype Finding<R> = Finding(record: R, allocation: Allocation)

  function Discovered<R>(b: Book<R>, found: seq<Finding<R>>): Book<R> {
    if found == [] then b
    else
      var last := found[|found| - 1];
      AfterDiscover(Discovered(b, found[..|found| - 1]), last.record, last.allocation)
  }

  ghost predicate FreshFindings<R>(b: Book<R>, found: seq<Finding<R>>) {
    && (forall i :: 0 <= i < |found| ==> found[i].record !in b.records && SSHPort(found[i].allocation.publicPort))
    && (forall i, j :: 0 <= i < j < |found| ==> found[i].record != found[j].record)
  }

  function RecordsOf<R>(found: seq<Finding<R>>): set<R> { set f | f in found :: f.record }

  lemma FindingAdded<R>(b: Book<R>, found: seq<Finding<R>>, f: Finding<R>)
    requires FreshFindings(b, found) && f.record !in b.records && f.record !in RecordsOf(found)
    requires SSHPort(f.allocation.publicPort)
    ensures FreshFindings(b, found + [f]) && RecordsOf(found + [f]) == RecordsOf(found) + {f.record}
    ensures Discovered(b, found + [f]) == AfterDiscover(Discovered(b, found), f.record, f.allocation)
  {
    assert (found + [f])[..|found|] == found;
    assert forall i :: 0 <= i < |found| ==> found[i].record in RecordsOf(found);
  }

  // A whole discovery pass keeps the book consistent.
  lemma {:induction false} DiscoveryKeepsConsistent<R>(b: Book<R>, found: seq<Finding<R>>)
    requires Consistent(b) && FreshFindings(b, found)
    ensures Consistent(Discovered(b, found))
    ensures Discovered(b, found).records.Keys <= b.records.Keys + RecordsOf(found)
  {
    if found != [] {
      var shorter, last := found[..|found| - 1], found[|found| - 1];
      DiscoveryKeepsConsistent(b, shorter);
      assert last.record !in Discovered(b, shorter).records;
      DiscoverKeepsConsistent(Discovered(b, shorter), last.record, last.allocation);
      assert RecordsOf(found) == RecordsOf(shorter) + {last.record};
    }
  }

  // It leaves existing port entries alone and indexes every port it found.
  lemma {:induction false} DiscoveryIndexes<R>(b: Book<R>, found: seq<Finding<R>>)
    ensures forall p :: p in b.byPort ==> p in Discovered(b, found).byPort && Discovered(b, found).byPort[p] == b.byPort[p]
    ensures forall f :: f in found ==> f.allocation.publicPort in Discovered(b, found).byPort
  {
    if found != [] {
      var shorter, last := found[..|found| - 1], found[|found| - 1];
      DiscoveryIndexes(b, shorter);
      assert found == shorter + [last];
    }
  }

  // ---------------------------------------------------------- pigeonhole bound

  function PortRange(low: int, high: int): (ports: set<int>)
    ensures forall p :: p in ports <==> low <= p <= high
    ensures |ports| == if low <= high then high - low + 1 else 0
    decreases high - low
  {
    if low > high then {} else PortRange(low, high - 1) + {high}
  }

  // Workloads with live allocations hold pairwise different ports of the range.
  lemma {:induction false} LiveWorkloadsFitPorts<R>(b: Book<R>, ws: set<string>, ports: set<int>)
    requires Consistent(b)
    requires forall w :: w in ws ==> LiveAt(b, w) && PortOf(b, w) in ports
    ensures |ws| <= |ports|
    decreases |ws|
  {
    if ws != {} {
      var w :| w in ws;
      var rest, fewer := ws - {w}, ports - {PortOf(b, w)};
      forall v | v in rest ensures PortOf(b, v) in fewer {
        ConsistentPortsDistinct(b, v, w);
      }
      LiveWorkloadsFitPorts(b, rest, fewer);
    }
  }

  lemma AtMost101Live<R>(b: Book<R>)
    requires Consistent(b)
    ensures |LiveView(b)| <= 101
  {
    var ws := LiveView(b).Keys;
    forall w | w in ws ensures PortOf(b, w) in PortRange(SSH_PORT_MIN, SSH_PORT_MAX) {
      assert IndexedAt(b, w);
    }
    LiveWorkloadsFitPorts(b, ws, PortRange(SSH_PORT_MIN, SSH_PORT_MAX));
    assert |LiveView(b)| == |ws|;
  }

  // --------------------------------------------------------------- whole runs

  datatype System<R(==)> = System(book: Book<R>, disk: Snapshot)

  // Each allocator call ends with one save of the whole map, which may fail.
  datatype Event<R(==)> =
    | Allocate(workload: string, name: string, record: R, registry: Registry, saved: bool)
    | Release(workload: string, saved: bool)
    | UpdateStatus(workload: string, status: SSHStatus, ip: string, saved: bool)
    | Reserve(record: R, allocation: Allocation, saved: bool)
    | Discover(found: seq<Finding<R>>, saved: bool)
    | Restart(loaded: Book<R>)
    | StartEmpty  // the file could not be loaded

  // New records are new, and a restart loads what is on disk, if it can.
  ghost predicate Enabled<R>(s: System<R>, ev: Event<R>) {
    match ev
    case Allocate(_, _, r, _, _) => r !in s.book.records
    case Reserve(r, a, _) => r !in s.book.records && Live(a)
    case Discover(found, _) => FreshFindings(s.book, found)
    case Restart(loaded) => LoadedFrom(loaded, s.disk)
    case _ => true
  }

  predicate Harmless<R>(b: Book<R>, ev: Event<R>) {
    match ev
    case Release(w, _) => ReleaseHarmless(b, w)
    case UpdateStatus(w, status, _, _) => UpdateHarmless(b, w, status)
    case Reserve(_, a, _) => ReserveHarmless(b, a)
    case _ => true
  }

  function Keep<R>(s: System<R>, b: Book<R>, saved: bool): System<R> {
    System(b, if saved then SnapshotOf(b) else s.disk)
  }

  ghost function After<R>(s: System<R>, ev: Event<R>): System<R> {
    match ev
    case Allocate(w, name, r, reg, saved) =>
      if LiveAt(s.book, w) || LowestAvailable(s.book, reg).None? then s
      else Keep(s, AfterAllocate(s.book, reg, w, name, r, saved), saved)
    case Release(w, saved) => if w in s.book.byWorkload then Keep(s, AfterRelease(s.book, w), saved) else s
    case UpdateStatus(w, status, ip, saved) =>
      if w in s.book.byWorkload then Keep(s, AfterStatus(s.book, w, status, ip), saved) else s
    case Reserve(r, a, saved) => if SSHPort(a.publicPort) then Keep(s, AfterReserve(s.book, r, a), saved) else s
    case Discover(found, saved) => Keep(s, Discovered(s.book, found), saved)
    case Restart(loaded) => System(loaded, s.disk)
    case StartEmpty => System(Book(map[], map[], map[]), s.disk)
  }

  ghost function Run<R>(s: System<R>, events: seq<Event<R>>): System<R> {
    if events == [] then s else After(Run(s, events[..|events| - 1]), events[|events| - 1])
  }

  ghost predicate AlwaysEnabled<R>(s: System<R>, events: seq<Event<R>>) {
    events == [] ||
    (AlwaysEnabled(s, events[..|events| - 1]) && Enabled(Run(s, events[..|events| - 1]), events[|events| - 1]))
  }

  ghost predicate AlwaysHarmless<R>(s: System<R>, events: seq<Event<R>>) {
    events == [] ||
    (AlwaysHarmless(s, events[..|events| - 1]) && Harmless(Run(s, events[..|events| - 1]).book, events[|events| - 1]))
  }

  ghost predicate AlwaysConsistent<R>(s: System<R>, events: seq<Event<R>>) {
    Consistent(Run(s, events).book) && (events == [] || AlwaysConsistent(s, events[..|events| - 1]))
  }

  lemma StepConsistentIff<R>(s: System<R>, ev: Event<R>)
    requires Consistent(s.book) && Sound(s.disk) && Enabled(s, ev)
    ensures Consistent(After(s, ev).book) <==> Harmless(s.book, ev)
    ensures Harmless(s.book, ev) ==> Sound(After(s, ev).disk)
  {
    match ev {
      case Allocate(w, name, r, reg, saved) => AllocateKeepsConsistent(s.book, reg, w, name, r, saved);
      case Release(w, saved) => ReleaseConsistentIff(s.book, w);
      case UpdateStatus(w, status, ip, saved) => UpdateConsistentIff(s.book, w, status, ip);
      case Reserve(r, a, saved) => ReserveConsistentIff(s.book, r, a);
      case Discover(found, saved) => DiscoveryKeepsConsistent(s.book, found);
      case Restart(loaded) => LoadingIsConsistent(loaded, s.disk);
      case StartEmpty =>
    }
    if Consistent(After(s, ev).book) {
      SnapshotIsSound(After(s, ev).book);
    }
  }

  // Over every run, with any save failing and restarts anywhere: every live
  // allocation is the very record its port entry holds, its port is in the
  // range, and (ConsistentPortsDistinct) no two live allocations share a port,
  // at every moment of the run, exactly when every release, status update and
  // external reservation of the run was harmless.
  lemma {:induction false} RunConsistentIff<R>(s: System<R>, events: seq<Event<R>>)
    requires Consistent(s.book) && Sound(s.disk) && AlwaysEnabled(s, events)
    ensures AlwaysConsistent(s, events) <==> AlwaysHarmless(s, events)
    ensures AlwaysConsistent(s, events) ==> Sound(Run(s, events).disk)
  {
    if events != [] {
      var before := events[..|events| - 1];
      RunConsistentIff(s, before);
      if AlwaysConsistent(s, before) {
        StepConsistentIff(Run(s, before), events[|events| - 1]);
      }
    }
  }

  // A harmful release leaves its port without an entry although another
  // workload holds it; the next allocation that reaches the port shares it.
  lemma HarmfulReleaseSharesPort<R>(b: Book<R>, v: string, w: string, u: string, name: string, reg: Registry, r: R)
    requires Consistent(b) && !ReleaseHarmless(b, v) && r !in b.records
    requires w == b.records[b.byPort[PortOf(b, v)]].workloadID
    requires !LiveAt(b, u)
    requires LowestAvailable(AfterRelease(b, v), reg) == Some(PortOf(b, v))
    ensures var end := AfterAllocate(AfterRelease(b, v), reg, u, name, r, true);
            LiveAt(end, w) && LiveAt(end, u) && u != w && PortOf(end, u) == PortOf(end, w)
  {
  }

  lemma MinIsLowest<R>(b: Book<R>, reg: Registry)
    requires SSH_PORT_MIN !in b.byPort && !PortInUse(reg, SSH_PORT_MIN)
    ensures LowestAvailable(b, reg) == Some(SSH_PORT_MIN)
  {
    assert Available(b, reg, SSH_PORT_MIN);
  }

  const NOTHING: System<nat> := System(Book(map[], map[], map[]), map[])
  const FIRST_STEPS: seq<Event<nat>> := [Event.Allocate("w1", "a", 1, map[], true), Event.Release("w1", true)]

  lemma FirstSteps()
    ensures var gone := NewAllocation(SSH_PORT_MIN, "w1", "a").(status := RELEASED);
            Run(NOTHING, FIRST_STEPS).book == Book(map[1 := gone], map["w1" := 1], map[])
    ensures AlwaysEnabled(NOTHING, FIRST_STEPS) && AlwaysHarmless(NOTHING, FIRST_STEPS)
  {
    var a1 := NewAllocation(SSH_PORT_MIN, "w1", "a");
    var b1: Book<nat> := Book(map[1 := a1], map["w1" := 1], map[SSH_PORT_MIN := 1]);
    MinIsLowest(NOTHING.book, map[]);
    assert After(NOTHING, FIRST_STEPS[0]).book == b1;
    RunPrefix(NOTHING, [], FIRST_STEPS[0]);
    RunPrefix(NOTHING, FIRST_STEPS[..1], FIRST_STEPS[1]);
    AlwaysHarmlessPrefix(NOTHING, [], FIRST_STEPS[0]);
    AlwaysHarmlessPrefix(NOTHING, FIRST_STEPS[..1], FIRST_STEPS[1]);
    assert [] + [FIRST_STEPS[0]] == FIRST_STEPS[..1] && FIRST_STEPS[..1] + [FIRST_STEPS[1]] == FIRST_STEPS;
  }

  lemma ThirdStep()
    ensures var next := Event.Allocate("w2", "b", 2, map[], true);
            Run(NOTHING, FIRST_STEPS + [next]).book ==
              Placed(Run(NOTHING, FIRST_STEPS).book, 2, NewAllocation(SSH_PORT_MIN, "w2", "b")) &&
            AlwaysEnabled(NOTHING, FIRST_STEPS + [next]) && AlwaysHarmless(NOTHING, FIRST_STEPS + [next])
  {
    var next := Event.Allocate("w2", "b", 2, map[], true);
    FirstSteps();
    MinIsLowest(Run(NOTHING, FIRST_STEPS).book, map[]);
    RunPrefix(NOTHING, FIRST_STEPS, next);
    AlwaysHarmlessPrefix(NOTHING, FIRST_STEPS, next);
  }

  // Such a release is reachable from the empty book: a failed creation releases
  // its port, the port goes to a second workload, and deleting the first
  // workload releases it again.
  lemma HarmfulReleaseReachable() returns (events: seq<Event<nat>>)
    ensures AlwaysEnabled(NOTHING, events) && AlwaysConsistent(NOTHING, events)
    ensures !ReleaseHarmless(Run(NOTHING, events).book, "w1")
  {
    events := FIRST_STEPS + [Event.Allocate("w2", "b", 2, map[], true)];
    FirstSteps();
    ThirdStep();
    RunConsistentIff(NOTHING, events);
    StaleRecordIsHarmful(Run(NOTHING, FIRST_STEPS).book);
  }

  lemma StaleRecordIsHarmful(b: Book<nat>)
    requires b == Book(map[1 := NewAllocation(SSH_PORT_MIN, "w1", "a").(status := RELEASED)], map["w1" := 1], map[])
    ensures !ReleaseHarmless(Placed(b, 2, NewAllocation(SSH_PORT_MIN, "w2", "b")), "w1")
  {
    var end := Placed(b, 2, NewAllocation(SSH_PORT_MIN, "w2", "b"));
    assert end.byWorkload["w1"] == 1 && end.byWorkload["w2"] == 2;
  }

  lemma AlwaysHarmlessPrefix<R>(s: System<R>, events: seq<Event<R>>, ev: Event<R>)
    ensures AlwaysHarmless(s, events + [ev]) <==> (AlwaysHarmless(s, events) && Harmless(Run(s, events).book, ev))
  {
    assert (events + [ev])[..|events|] == events;
  }

  lemma RunPrefix<R>(s: System<R>, events: seq<Event<R>>, ev: Event<R>)
    ensures Run(s, events + [ev]) == After(Run(s, events), ev)
    ensures AlwaysEnabled(s, events + [ev]) <==> (AlwaysEnabled(s, events) && Enabled(Run(s, events), ev))
  {
    assert (events + [ev])[..|events|] == events;
  }

  // A freshly allocated port is one that no exposure uses, so the SSH exposure
  // for it is never refused as a conflict.
  lemma FreshPortExposureAccepted<R>(
    engine: PortAllocation.AllocatorEngine, b: Book<R>, reg: Registry, w: string, name: string, r: R, e: Exposure)
    requires Keyed(reg) && !LiveAt(b, w) && LowestAvailable(b, reg).Some?
    requires e.publicPort == LowestAvailable(b, reg).value
    requires e.workloadID == w && TrimSpace(w) != "" && e.internalPort == 22 && e.protocol == "TCP"
    requires e.publicIP == "" && TrimSpace(e.internalIP) != "" && engine.validIP(e.internalIP)
    requires e.id != "" && e.id !in reg
    ensures LiveAt(AfterAllocate(b, reg, w, name, r, true), w)
    ensures PortOf(AfterAllocate(b, reg, w, name, r, true), w) == e.publicPort
    ensures CreateAccepted(engine, reg, e)
  {
    UnusedPortIsAccepted(engine, reg, e);
  }
}
