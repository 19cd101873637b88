// Provider instances, their metadata records, and the sync decision.
module Instances {
  import opened Text

  datatype InstanceState = NoState | Running | Stopped | Frozen | Error | Creating | Deleting | UnknownState

  datatype SyncStatus = NoSync | InSync | OutOfSync | ProviderMissing | Orphaned

  datatype ResourceLimits = ResourceLimits(cpuCores: int, memoryBytes: int, diskBytes: int)

  type Labels = map<string, string>
  type Device = map<string, string>

  datatype Instance = Instance(
    id: string, name: string, isVM: bool, state: InstanceState, ipAddress: string,
    limits: ResourceLimits, labels: Option<Labels>, devices: Option<map<string, Device>>)

  datatype InstanceMetadata = InstanceMetadata(
    id: string, name: string, desiredState: InstanceState, cpuCores: int, memoryBytes: int, diskBytes: int)

  datatype ReconciledInstance = ReconciledInstance(
    metadata: InstanceMetadata, authoritativeState: InstanceState, syncStatus: SyncStatus, liveIPAddress: string)

  const MiB: int := 1024 * 1024
  const GiB: int := 1024 * 1024 * 1024

  // Go's integer division truncates toward zero.
  function TruncDiv(a: int, b: int): int
    requires b > 0
  {
    if a >= 0 then a / b else -((-a) / b)
  }

  function Property(m: map<string, string>, key: string): string {
    if key in m then m[key] else ""
  }

  function Reconcile(meta: Option<InstanceMetadata>, inst: Option<Instance>): Option<ReconciledInstance> {
    match (meta, inst)
    case (None, None) => None
    case (None, Some(i)) =>
      Some(ReconciledInstance(InstanceMetadata(i.id, i.name, NoState, 0, 0, 0), i.state, Orphaned, i.ipAddress))
    case (Some(m), None) => Some(ReconciledInstance(m, UnknownState, ProviderMissing, ""))
    case (Some(m), Some(i)) => Some(ReconciledInstance(m, i.state, Compare(m, i), i.ipAddress))
  }

  // Differing values count only when both sides are positive.
  predicate Drifts(recorded: int, observed: int) { recorded > 0 && observed > 0 && recorded != observed }

  function Compare(m: InstanceMetadata, i: Instance): SyncStatus {
    if (m.desiredState != NoState && m.desiredState != i.state)
       || Drifts(TruncDiv(m.memoryBytes, MiB), TruncDiv(i.limits.memoryBytes, MiB))
       || Drifts(TruncDiv(m.diskBytes, GiB), TruncDiv(i.limits.diskBytes, GiB))
       || Drifts(m.cpuCores, i.limits.cpuCores)
    then OutOfSync else InSync
  }
}
