// The workload lifecycle as a state machine. Calls that release the manager's
// lock while they talk to the provider are split into their locked sections, so
// that calls on different workloads interleave freely.
module Lifecycles {
  import opened Text
  import opened PortAllocation
  import opened Instances
  import opened PlanTexts
  import opened Workloads
  import Exposures
  import ProxyDevices

  // The port engine, and the truncated digest of a plan text.
  datatype World = World(engine: AllocatorEngine, digest: string -> string)

  datatype Plan = Plan(hash: string, valid: bool, approved: bool)

  datatype OperationResult = SUCCESS | FAILURE | AMBIGUOUS

  datatype Core = Core(workloads: map<string, Workload>, plans: map<string, Plan>, records: map<string, OperationResult>)

  function HashOf(world: World, w: Workload): string { world.digest(PlanText(w.spec)) }

  function OperationKey(id: string, hash: string): string {
    "op:" + id + ":PROVISION:" + (if hash == "" then "noplan" else hash)
  }

  // Operations on different workloads or plans have different keys; only a missing
  // hash and the hash "noplan" are not told apart.
  lemma OperationKeysDiffer(id: string, hash: string, otherID: string, other: string)
    requires ':' !in hash && ':' !in other
    ensures OperationKey(id, hash) == OperationKey(otherID, other) <==>
              id == otherID && (hash == other || {hash, other} == {"", "noplan"})
  {
    KeySplits(id, hash);
    KeySplits(otherID, other);
    if OperationKey(id, hash) == OperationKey(otherID, other) {
      var s, t := Split(OperationKey(id, hash), ':'), Split(OperationKey(otherID, other), ':');
      var front, rear := "op:" + id + ":PROVISION", "op:" + otherID + ":PROVISION";
      assert s[..|s| - 1] == Split(front, ':') && t[..|t| - 1] == Split(rear, ':');
      SplitInjective(front, rear, ':');
      assert id == front[3..|front| - 10] && otherID == rear[3..|rear| - 10];
      assert s[|s| - 1] == t[|t| - 1];
    }
  }

  lemma KeySplits(id: string, hash: string)
    requires ':' !in hash
    ensures Split(OperationKey(id, hash), ':') == Split("op:" + id + ":PROVISION", ':') + [if hash == "" then "noplan" else hash]
  {
    var front, last := "op:" + id + ":PROVISION", if hash == "" then "noplan" else hash;
    assert OperationKey(id, hash) == front + [':'] + last;
    SplitClean(last, ':');
    SplitAppend(front, ':', last);
  }

  // --------------------------------------------------------- locked sections

  function WithWorkload(c: Core, id: string, w: Workload): Core { c.(workloads := c.workloads[id := w]) }

  function WithStatus(c: Core, id: string, status: Status): Core {
    if id in c.workloads then WithWorkload(c, id, c.workloads[id].(status := status)) else c
  }

  ghost function AfterGenerate(world: World, c: Core, id: string): Core {
    if id !in c.workloads then c
    else
      var w := c.workloads[id];
      WithWorkload(c, id, w.(planHash := HashOf(world, w), status := PLANNED))
        .(plans := c.plans[id := Plan(HashOf(world, w), PlanValid(world.engine, w), false)])
  }

  datatype ApproveResult = Accepted | NoPlan | InvalidPlan | NoWorkload | SpecModified

  function ApproveResultOf(world: World, c: Core, id: string): ApproveResult {
    if id !in c.plans then NoPlan
    else if !c.plans[id].valid then InvalidPlan
    else if id !in c.workloads then NoWorkload
    else if HashOf(world, c.workloads[id]) != c.plans[id].hash then SpecModified
    else Accepted
  }

  // A plan found out of date goes back to draft and loses its approval.
  function Revoked(c: Core, id: string): Core
    requires id in c.plans
  {
    WithStatus(c, id, DRAFT).(plans := c.plans[id := c.plans[id].(approved := false)])
  }

  function AfterApprove(world: World, c: Core, id: string): Core {
    match ApproveResultOf(world, c, id)
    case Accepted => WithStatus(c, id, APPROVED).(plans := c.plans[id := c.plans[id].(approved := true)])
    case SpecModified => Revoked(c, id)
    case _ => c
  }

  datatype CheckResult = Proceed | NotFound | NotApproved | Invalidated | AlreadyDone

  function CheckResultOf(world: World, c: Core, id: string): CheckResult {
    if id !in c.workloads then NotFound
    else if id !in c.plans || !c.plans[id].approved then NotApproved
    else if HashOf(world, c.workloads[id]) != c.plans[id].hash then Invalidated
    else
      var key := OperationKey(id, c.plans[id].hash);
      if key in c.records && c.records[key] == SUCCESS && c.workloads[id].status == RUNNING then AlreadyDone
      else Proceed
  }

  function AfterCheck(world: World, c: Core, id: string): Core {
    match CheckResultOf(world, c, id)
    case Proceed => WithStatus(c, id, PROVISIONING)
    case Invalidated => Revoked(c, id)
    case _ => c
  }

  // The outcome of the lookup for an existing instance: None when creation may
  // go ahead.
  function AfterLookup(c: Core, id: string, hash: string, found: Option<Instance>): Core {
    if id !in c.workloads || found.None? then c
    else
      var w, inst := c.workloads[id], found.value;
      if !OwnedBy(inst, id) then WithStatus(c, id, Status.FAILED)
      else if inst.limits.cpuCores == w.spec.cpu then
        WithWorkload(c, id, w.(actualState := inst.state, status := RUNNING))
          .(records := c.records[OperationKey(id, hash) := SUCCESS])
      else WithStatus(c, id, DRIFTED)
  }

  // A failed creation, timed out or not, may still have made the instance: the
  // provider can fail after the launch.
  datatype CreateOutcome = Created | CreateFailed(timedOut: bool, made: bool)

  function AfterFailedCreate(c: Core, id: string, hash: string, timedOut: bool): Core {
    WithStatus(c, id, if timedOut then Status.UNKNOWN else Status.FAILED)
      .(records := c.records[OperationKey(id, hash) := if timedOut then AMBIGUOUS else FAILURE])
  }

  // What the lookup after the start says about the workload; without an answer
  // it is taken to be running.
  function Seen(w: Workload, live: Option<Instance>): Workload {
    match live
    case Some(inst) => w.(actualState := inst.state, privateIPv4 := AddressAfter(w, inst))
    case None => w.(actualState := Running)
  }

  function AfterFinish(c: Core, id: string, hash: string, live: Option<Instance>): Core {
    var records := c.records[OperationKey(id, hash) := SUCCESS];
    if id !in c.workloads then c.(records := records)
    else WithWorkload(c, id, Seen(c.workloads[id], live).(status := RUNNING)).(records := records)
  }

  // Starting, stopping and restarting. Only the status is looked at.
  datatype Power = PowerOn | PowerOff | PowerCycle

  datatype PowerResult = PowerNotFound | NothingToDo | IllegalState | PowerProceeds

  function PowerResultOf(c: Core, id: string, power: Power): PowerResult {
    if id !in c.workloads then PowerNotFound
    else
      var status := c.workloads[id].status;
      if (power == PowerOn && status == RUNNING) || (power == PowerOff && status == STOPPED) then NothingToDo
      else if status == PROVISIONING || (power != PowerOff && status == Status.UNKNOWN) then IllegalState
      else PowerProceeds
  }

  function PoweredState(power: Power): InstanceState { if power == PowerOff then Stopped else Running }

  // A restart leaves the desired state as it is.
  function Ordered(w: Workload, power: Power): Workload {
    if power == PowerCycle then w else w.(desiredState := PoweredState(power))
  }

  function AfterPower(c: Core, id: string, power: Power): Core {
    if PowerResultOf(c, id, power) == PowerProceeds then WithWorkload(c, id, Ordered(c.workloads[id], power)) else c
  }

  function AfterRemove(c: Core, id: string): Core {
    c.(workloads := c.workloads - {id}, plans := c.plans - {id})
  }

  ghost predicate NameTaken(workloads: map<string, Workload>, name: string) {
    exists k :: k in workloads && workloads[k].spec.name == name
  }

  ghost predicate Managed(workloads: map<string, Workload>, name: string) {
    exists k :: k in workloads && (workloads[k].spec.name == name || workloads[k].providerInstanceID == name)
  }

  // ------------------------------------------------------------ the machine

  // A call between two of its locked sections. spec is what the provisioning
  // check saw, hash the plan it belongs to.
  datatype Task =
    | Provisioning(id: string, spec: Spec, hash: string)
    | Cleared(id: string, spec: Spec, hash: string)
    | Finishing(id: string, spec: Spec, hash: string)
    | Deleting(id: string, spec: Spec)
    | DeleteCleared(id: string, spec: Spec)
    | Removing(id: string, spec: Spec)
    | Powering(id: string, spec: Spec, power: Power)

  // The record is saved before the instance is tagged. A tagging that fails, or
  // that the process does not survive, may have set some labels; recorded: the
  // record is still in the file.
  datatype AdoptOutcome = Adopted | TagFailed(recorded: bool) | NotSaved

  datatype State = State(
    core: Core, tasks: map<nat, Task>, instances: map<string, Instance>, disk: map<string, Workload>)

  datatype Event =
    | EditSpec(id: string, spec: Spec)
    | AddWorkload(workload: Workload, saved: bool)
    | Adopt(workload: Workload, labels: Option<Labels>, ending: AdoptOutcome)  // labels: what the instance then has
    | GeneratePlan(id: string)
    | ApprovePlan(id: string)
    | CheckProvision(task: nat, id: string)
    | AbandonProvision(task: nat)
    | ProvisionLookup(task: nat, found: Option<Instance>)
    | IssueCreate(task: nat, outcome: CreateOutcome, made: Instance)
    | FinishProvision(task: nat, live: Option<Instance>)
    | BeginDelete(task: nat, id: string)
    | DeleteLookup(task: nat, found: Option<Instance>)
    | IssueDelete(task: nat, ok: bool)
    | FinishDelete(task: nat)
    | BeginPower(task: nat, id: string, power: Power)
    | IssuePower(task: nat, obeyed: bool, address: string)  // obeyed: it takes effect, whatever is reported
    | WriteDevice(exposure: Exposures.Exposure, link: ProxyDevices.Link)   // publication and refresh
    | RemoveDevice(exposure: Exposures.Exposure, link: ProxyDevices.Link)  // deletion of an exposure
    | ReconcileOne(id: string, live: Option<Instance>, bulk: bool)         // bulk: a turn of the bulk pass
    | Persist
    | ProviderChange(instances: map<string, Instance>)
    | Restart(readable: bool)

  // The name a call uses: the workload's current one.
  function NameNow(s: State, t: Task): string {
    if t.id in s.core.workloads then s.core.workloads[t.id].spec.name else t.spec.name
  }

  function SpecNow(s: State, t: Task): Spec {
    if t.id in s.core.workloads then s.core.workloads[t.id].spec else t.spec
  }

  predicate InPhase(s: State, task: nat, ev: Event) {
    task in s.tasks &&
    match ev
    case AbandonProvision(_) => s.tasks[task].Provisioning? || s.tasks[task].Cleared?
    case ProvisionLookup(_, _) => s.tasks[task].Provisioning?
    case IssueCreate(_, _, _) => s.tasks[task].Cleared?
    case FinishProvision(_, _) => s.tasks[task].Finishing?
    case DeleteLookup(_, _) => s.tasks[task].Deleting?
    case IssueDelete(_, _) => s.tasks[task].DeleteCleared?
    case FinishDelete(_) => s.tasks[task].Removing?
    case IssuePower(_, _, _) => s.tasks[task].Powering?
    case _ => false
  }

  // When an event can happen at all.
  ghost predicate Enabled(s: State, ev: Event) {
    match ev
    case CheckProvision(task, _) => task !in s.tasks
    case BeginDelete(task, _) => task !in s.tasks
    case BeginPower(task, _, _) => task !in s.tasks
    case AbandonProvision(task) => InPhase(s, task, ev)
    case ProvisionLookup(task, _) => InPhase(s, task, ev)
    case IssueCreate(task, _, made) =>
      InPhase(s, task, ev) && made.name == NameNow(s, s.tasks[task])
    case FinishProvision(task, _) => InPhase(s, task, ev)
    case DeleteLookup(task, _) => InPhase(s, task, ev)
    case IssueDelete(task, _) => InPhase(s, task, ev)
    case FinishDelete(task) => InPhase(s, task, ev)
    case IssuePower(task, _, _) => InPhase(s, task, ev)
    case _ => true
  }

  // Creation takes effect when the provider carries it out and the name is free.
  predicate CreateTakesEffect(s: State, name: string, outcome: CreateOutcome) {
    name !in s.instances && (outcome.Created? || outcome.made)
  }

  function Tagged(inst: Instance, labels: Option<Labels>): Instance { inst.(labels := labels) }

  // The undo of a registration leaves a plan of that id behind.
  function WithoutWorkload(c: Core, id: string): Core { c.(workloads := c.workloads - {id}) }

  function AfterEdit(s: State, id: string, spec: Spec): State {
    if id in s.core.workloads then s.(core := WithWorkload(s.core, id, s.core.workloads[id].(spec := spec))) else s
  }

  ghost function AfterAdd(s: State, w: Workload, saved: bool): State {
    if NameTaken(s.core.workloads, w.spec.name) then s
    else if !saved then s.(core := WithoutWorkload(s.core, w.id))
    else s.(core := WithWorkload(s.core, w.id, w), disk := s.core.workloads[w.id := w])
  }

  ghost function AfterAdopt(s: State, w: Workload, labels: Option<Labels>, ending: AdoptOutcome): State {
    var name := w.spec.name;
    if Managed(s.core.workloads, name) || name !in s.instances then s
    else
      var tagged := s.instances[name := Tagged(s.instances[name], labels)];
      match ending
      case NotSaved => s.(core := WithoutWorkload(s.core, w.id))
      case TagFailed(recorded) =>
        s.(core := WithoutWorkload(s.core, w.id), instances := tagged,
           disk := if recorded then s.core.workloads[w.id := w] else s.core.workloads - {w.id})
      case Adopted => s.(core := WithWorkload(s.core, w.id, w), instances := tagged, disk := s.core.workloads[w.id := w])
  }

  // A file that cannot be read leaves the manager empty.
  function AfterRestart(s: State, readable: bool): State {
    State(Core(if readable then s.disk else map[], map[], map[]), map[], s.instances, s.disk)
  }

  // A failed adoption of a new id comes back with the next start exactly when its
  // record is still in the file, which can be read.
  lemma FailedAdoptionReturnsIff(s: State, w: Workload, labels: Option<Labels>, recorded: bool, readable: bool)
    requires !Managed(s.core.workloads, w.spec.name) && w.spec.name in s.instances && w.id !in s.core.workloads
    ensures var failed := AfterAdopt(s, w, labels, TagFailed(recorded));
            failed.core.workloads == s.core.workloads &&
            (w.id in AfterRestart(failed, readable).core.workloads <==> recorded && readable)
  {
    assert s.core.workloads - {w.id} == s.core.workloads;
  }

  function AfterCheckProvision(world: World, s: State, task: nat, id: string): State {
    s.(core := AfterCheck(world, s.core, id),
       tasks := if CheckResultOf(world, s.core, id) == Proceed
                then s.tasks[task := Provisioning(id, s.core.workloads[id].spec, s.core.plans[id].hash)] else s.tasks)
  }

  function AfterAbandon(s: State, task: nat): State
    requires task in s.tasks
  {
    s.(core := WithStatus(s.core, s.tasks[task].id, Status.FAILED), tasks := s.tasks - {task})
  }

  function AfterProvisionLookup(s: State, task: nat, found: Option<Instance>): State
    requires task in s.tasks && s.tasks[task].Provisioning?
  {
    var t := s.tasks[task];
    s.(core := AfterLookup(s.core, t.id, t.hash, found),
       tasks := if found.None? then s.tasks[task := Cleared(t.id, t.spec, t.hash)] else s.tasks - {task})
  }

  function AfterIssueCreate(s: State, task: nat, outcome: CreateOutcome, made: Instance): State
    requires task in s.tasks && s.tasks[task].Cleared?
  {
    var t := s.tasks[task];
    var name := NameNow(s, t);
    var succeeded := outcome.Created? && name !in s.instances;
    State(if succeeded then s.core else AfterFailedCreate(s.core, t.id, t.hash, outcome.CreateFailed? && outcome.timedOut),
          if succeeded then s.tasks[task := Finishing(t.id, t.spec, t.hash)] else s.tasks - {task},
          if CreateTakesEffect(s, name, outcome) then s.instances[name := made] else s.instances,
          s.disk)
  }

  function AfterFinishProvision(s: State, task: nat, live: Option<Instance>): State
    requires task in s.tasks && s.tasks[task].Finishing?
  {
    var t := s.tasks[task];
    s.(core := AfterFinish(s.core, t.id, t.hash, live), tasks := s.tasks - {task})
  }

  function AfterBeginDelete(s: State, task: nat, id: string): State {
    if id in s.core.workloads then s.(tasks := s.tasks[task := Task.Deleting(id, s.core.workloads[id].spec)]) else s
  }

  function AfterDeleteLookup(s: State, task: nat, found: Option<Instance>): State
    requires task in s.tasks
  {
    var t := s.tasks[task];
    s.(tasks := if found.Some? && !OwnedBy(found.value, t.id) then s.tasks - {task}
                else s.tasks[task := DeleteCleared(t.id, t.spec)])
  }

  function AfterIssueDelete(s: State, task: nat, ok: bool): State
    requires task in s.tasks
  {
    var t := s.tasks[task];
    if ok then s.(tasks := s.tasks[task := Removing(t.id, t.spec)], instances := s.instances - {NameNow(s, t)})
    else s.(tasks := s.tasks - {task})
  }

  function AfterFinishDelete(s: State, task: nat): State
    requires task in s.tasks
  {
    s.(core := AfterRemove(s.core, s.tasks[task].id), tasks := s.tasks - {task})
  }

  function AfterBeginPower(s: State, task: nat, id: string, power: Power): State {
    s.(core := AfterPower(s.core, id, power),
       tasks := if PowerResultOf(s.core, id, power) == PowerProceeds
                then s.tasks[task := Powering(id, s.core.workloads[id].spec, power)] else s.tasks)
  }

  // The command goes to whatever instance has the workload's name.
  function AfterIssuePower(s: State, task: nat, obeyed: bool, address: string): State
    requires task in s.tasks && s.tasks[task].Powering?
  {
    var name := NameNow(s, s.tasks[task]);
    s.(tasks := s.tasks - {task},
       instances := if obeyed && name in s.instances
                    then s.instances[name := Powered(s.instances[name], s.tasks[task].power, address)] else s.instances)
  }

  function Powered(inst: Instance, power: Power, address: string): Instance {
    inst.(state := PoweredState(power), ipAddress := address)
  }

  function DevicesOf(inst: Instance): map<string, Device> {
    if inst.devices.Some? then inst.devices.value else map[]
  }

  // What the proxy driver works on.
  function DeviceTableOf(instances: map<string, Instance>): ProxyDevices.DeviceTable {
    map n | n in instances :: DevicesOf(instances[n])
  }

  function WithDevices(instances: map<string, Instance>, table: ProxyDevices.DeviceTable): map<string, Instance> {
    map n | n in instances ::
      if n in table && table[n] != DevicesOf(instances[n]) then instances[n].(devices := Some(table[n])) else instances[n]
  }

  function AfterWriteDevice(s: State, e: Exposures.Exposure, link: ProxyDevices.Link): State {
    s.(instances := WithDevices(s.instances, ProxyDevices.ApplyEffect(DeviceTableOf(s.instances), e, link).table))
  }

  function AfterRemoveDevice(s: State, e: Exposures.Exposure, link: ProxyDevices.Link): State {
    s.(instances := WithDevices(s.instances, ProxyDevices.RemoveEffect(DeviceTableOf(s.instances), e, link).table))
  }

  function AfterReconcile(s: State, id: string, live: Option<Instance>, bulk: bool): State {
    if id !in s.core.workloads then s
    else
      var w := s.core.workloads[id];
      s.(core := WithWorkload(s.core, id, if bulk then ReconciledBulk(w, live) else ReconciledSingle(w, live)))
  }

  ghost function After(world: World, s: State, ev: Event): State
    requires Enabled(s, ev)
  {
    match ev
    case EditSpec(id, spec) => AfterEdit(s, id, spec)
    case AddWorkload(w, saved) => AfterAdd(s, w, saved)
    case Adopt(w, labels, ending) => AfterAdopt(s, w, labels, ending)
    case GeneratePlan(id) => s.(core := AfterGenerate(world, s.core, id))
    case ApprovePlan(id) => s.(core := AfterApprove(world, s.core, id))
    case CheckProvision(task, id) => AfterCheckProvision(world, s, task, id)
    case AbandonProvision(task) => AfterAbandon(s, task)
    case ProvisionLookup(task, found) => AfterProvisionLookup(s, task, found)
    case IssueCreate(task, outcome, made) => AfterIssueCreate(s, task, outcome, made)
    case FinishProvision(task, live) => AfterFinishProvision(s, task, live)
    case BeginDelete(task, id) => AfterBeginDelete(s, task, id)
    case DeleteLookup(task, found) => AfterDeleteLookup(s, task, found)
    case IssueDelete(task, ok) => AfterIssueDelete(s, task, ok)
    case FinishDelete(task) => AfterFinishDelete(s, task)
    case BeginPower(task, id, power) => AfterBeginPower(s, task, id, power)
    case IssuePower(task, obeyed, address) => AfterIssuePower(s, task, obeyed, address)
    case WriteDevice(e, link) => AfterWriteDevice(s, e, link)
    case RemoveDevice(e, link) => AfterRemoveDevice(s, e, link)
    case ReconcileOne(id, live, bulk) => AfterReconcile(s, id, live, bulk)
    case Persist => s.(disk := s.core.workloads)
    case ProviderChange(instances) => s.(instances := instances)
    case Restart(readable) => AfterRestart(s, readable)
  }

  datatype Trace = Trace(states: seq<State>, events: seq<Event>)

  ghost predicate IsRun(world: World, tr: Trace) {
    && |tr.states| == |tr.events| + 1
    && tr.states[0].core.plans == map[] && tr.states[0].tasks == map[]
    && forall i :: 0 <= i < |tr.events| ==> IsStep(world, tr, i)
  }

  ghost predicate IsStep(world: World, tr: Trace, i: nat)
    requires i < |tr.events| < |tr.states|
  {
    Enabled(tr.states[i], tr.events[i]) && tr.states[i + 1] == After(world, tr.states[i], tr.events[i])
  }

  // --------------------------------------------------------- plan discipline

  // Event j generates a plan for id: there is such a workload.
  ghost predicate Generates(tr: Trace, j: nat, id: string) {
    j < |tr.events| && j < |tr.states| && tr.events[j] == GeneratePlan(id) && id in tr.states[j].core.workloads
  }

  // The plan of id was generated by event g from the specification at g.
  ghost predicate GeneratedAt(world: World, tr: Trace, g: nat, id: string, plan: Plan) {
    Generates(tr, g, id) && plan.hash == HashOf(world, tr.states[g].core.workloads[id]) &&
    plan.valid == PlanValid(world.engine, tr.states[g].core.workloads[id])
  }

  ghost predicate NotRegenerated(tr: Trace, from: nat, to: nat, id: string) {
    forall j :: from <= j < to ==> !Generates(tr, j, id)
  }

  predicate TouchesPlans(ev: Event) {
    ev.GeneratePlan? || ev.ApprovePlan? || ev.CheckProvision? || ev.FinishDelete? || ev.Restart?
  }

  predicate Provisions(ev: Event) {
    ev.AbandonProvision? || ev.ProvisionLookup? || ev.IssueCreate? || ev.FinishProvision?
  }

  lemma PlansKeptByProvisioning(world: World, s: State, ev: Event)
    requires Enabled(s, ev) && Provisions(ev)
    ensures After(world, s, ev).core.plans == s.core.plans
  {
  }

  lemma PlansKept(world: World, s: State, ev: Event)
    requires Enabled(s, ev) && !TouchesPlans(ev)
    ensures After(world, s, ev).core.plans == s.core.plans
  {
    if Provisions(ev) {
      PlansKeptByProvisioning(world, s, ev);
    }
  }

  // What one step can do to a plan.
  lemma PlanStep(world: World, s: State, ev: Event, id: string)
    requires Enabled(s, ev) && id in After(world, s, ev).core.plans
    requires ev == GeneratePlan(id) ==> id !in s.core.workloads
    ensures id in s.core.plans
    ensures var before, after := s.core.plans[id], After(world, s, ev).core.plans[id];
            after.hash == before.hash && after.valid == before.valid &&
            (after.approved && !before.approved ==> ev == ApprovePlan(id) && ApproveResultOf(world, s.core, id) == Accepted)
  {
    if !TouchesPlans(ev) {
      PlansKept(world, s, ev);
    }
  }

  // Event a approves the plan of id: the call is accepted.
  ghost predicate ApprovesAt(world: World, tr: Trace, a: nat, id: string) {
    a < |tr.events| && a < |tr.states| && tr.events[a] == ApprovePlan(id) &&
    ApproveResultOf(world, tr.states[a].core, id) == Accepted
  }

  // The plan of id is there, valid and approved, at every moment after a, up to k.
  ghost predicate StandsApproved(tr: Trace, a: nat, k: nat, id: string) {
    k < |tr.states| && forall j :: a < j <= k ==> ApprovedAt(tr.states[j].core, id)
  }

  predicate ApprovedAt(c: Core, id: string) { id in c.plans && c.plans[id].valid && c.plans[id].approved }

  // Where a plan that is present after step i comes from.
  lemma PlanBefore(world: World, tr: Trace, i: nat, id: string)
    requires IsRun(world, tr) && i < |tr.events| && id in tr.states[i + 1].core.plans
    ensures
      var after := tr.states[i + 1].core.plans[id];
      if Generates(tr, i, id) then GeneratedAt(world, tr, i, id, after) && !after.approved
      else
        id in tr.states[i].core.plans &&
        var before := tr.states[i].core.plans[id];
        before.hash == after.hash && before.valid == after.valid &&
        (after.approved && !before.approved ==> ApprovesAt(world, tr, i, id))
  {
    assert IsStep(world, tr, i);
    if !Generates(tr, i, id) {
      PlanStep(world, tr.states[i], tr.events[i], id);
    }
  }

  // The plan that id has at k was generated at g and not regenerated since.
  ghost predicate GeneratedAndKept(world: World, tr: Trace, g: nat, k: nat, id: string) {
    g < k < |tr.states| && id in tr.states[k].core.plans &&
    GeneratedAt(world, tr, g, id, tr.states[k].core.plans[id]) && NotRegenerated(tr, g + 1, k, id)
  }

  lemma KeptOneMore(world: World, tr: Trace, g: nat, k: nat, id: string)
    requires k + 1 < |tr.states| && k < |tr.events| && id in tr.states[k + 1].core.plans && !Generates(tr, k, id)
    requires GeneratedAndKept(world, tr, g, k, id)
    requires tr.states[k].core.plans[id].hash == tr.states[k + 1].core.plans[id].hash
    requires tr.states[k].core.plans[id].valid == tr.states[k + 1].core.plans[id].valid
    ensures GeneratedAndKept(world, tr, g, k + 1, id)
  {
  }

  lemma JustGenerated(world: World, tr: Trace, g: nat, id: string)
    requires IsRun(world, tr) && Generates(tr, g, id) && id in tr.states[g + 1].core.plans
    ensures GeneratedAndKept(world, tr, g, g + 1, id)
  {
    PlanBefore(world, tr, g, id);
  }

  // A plan that is present was generated by the last event or was there before it.
  lemma GeneratedJustNow(world: World, tr: Trace, k: nat, id: string) returns (now: bool)
    requires IsRun(world, tr) && k < |tr.states| && id in tr.states[k].core.plans
    ensures k > 0 && (if now then GeneratedAndKept(world, tr, k - 1, k, id)
                      else !Generates(tr, k - 1, id) && id in tr.states[k - 1].core.plans)
    ensures !now ==> var before, after := tr.states[k - 1].core.plans[id], tr.states[k].core.plans[id];
                     before.hash == after.hash && before.valid == after.valid
  {
    now := Generates(tr, k - 1, id);
    if now {
      JustGenerated(world, tr, k - 1, id);
    } else {
      PlanBefore(world, tr, k - 1, id);
    }
  }

  // Every plan was generated at some moment and not regenerated since.
  lemma {:induction false} PlanOrigin(world: World, tr: Trace, k: nat, id: string) returns (g: nat)
    requires IsRun(world, tr) && k < |tr.states| && id in tr.states[k].core.plans
    ensures GeneratedAndKept(world, tr, g, k, id)
    decreases k
  {
    var now := GeneratedJustNow(world, tr, k, id);
    g := k - 1;
    if !now {
      g := PlanOrigin(world, tr, k - 1, id);
      KeptOneMore(world, tr, g, k - 1, id);
    }
  }

  // Every approved plan was approved by a call that was accepted, and has stood
  // approved and valid since.
  lemma {:induction false} ApprovalSince(world: World, tr: Trace, k: nat, id: string) returns (a: nat)
    requires IsRun(world, tr) && k < |tr.states| && id in tr.states[k].core.plans && tr.states[k].core.plans[id].approved
    ensures a < k && ApprovesAt(world, tr, a, id) && StandsApproved(tr, a, k, id)
    decreases k
  {
    var now := ApprovedJustNow(world, tr, k - 1, id);
    if now {
      a := k - 1;
    } else {
      a := ApprovalSince(world, tr, k - 1, id);
      assert ApprovedAt(tr.states[k - 1].core, id);
    }
    StandsOneMore(tr, a, k - 1, id);
  }

  lemma StandsOneMore(tr: Trace, a: nat, k: nat, id: string)
    requires a <= k && (a < k ==> StandsApproved(tr, a, k, id)) && k + 1 < |tr.states| && ApprovedAt(tr.states[k + 1].core, id)
    ensures StandsApproved(tr, a, k + 1, id)
  {
    forall j | a < j <= k + 1 ensures ApprovedAt(tr.states[j].core, id) {
      assert j <= k || j == k + 1;
    }
  }

  // The approval came after the generation of that very plan.
  lemma ApprovalOrigin(world: World, tr: Trace, k: nat, id: string) returns (g: nat, a: nat)
    requires IsRun(world, tr) && k < |tr.states| && id in tr.states[k].core.plans && tr.states[k].core.plans[id].approved
    ensures g < a < k && ApprovesAt(world, tr, a, id) && StandsApproved(tr, a, k, id)
    ensures GeneratedAndKept(world, tr, g, k, id) && tr.states[k].core.plans[id].valid
  {
    a := ApprovalSince(world, tr, k, id);
    g := PlanOrigin(world, tr, k, id);
    if a <= g {
      assert ApprovedAt(tr.states[g + 1].core, id);
      PlanBefore(world, tr, g, id);
      assert false;
    }
    assert ApprovedAt(tr.states[k].core, id);
  }

  // A plan that is approved after step i was so before, or step i approved it.
  lemma ApprovedJustNow(world: World, tr: Trace, i: nat, id: string) returns (now: bool)
    requires IsRun(world, tr) && i < |tr.events| && id in tr.states[i + 1].core.plans && tr.states[i + 1].core.plans[id].approved
    ensures !Generates(tr, i, id) && id in tr.states[i].core.plans
    ensures tr.states[i].core.plans[id].hash == tr.states[i + 1].core.plans[id].hash
    ensures tr.states[i].core.plans[id].valid == tr.states[i + 1].core.plans[id].valid
    ensures now <==> !tr.states[i].core.plans[id].approved
    ensures now ==> ApprovesAt(world, tr, i, id)
  {
    PlanBefore(world, tr, i, id);
    now := !tr.states[i].core.plans[id].approved;
  }

  predicate BeforeCreation(t: Task) { t.Provisioning? || t.Cleared? }

  predicate SamePlan(t: Task, u: Task)
    requires BeforeCreation(t) && BeforeCreation(u)
  {
    t.id == u.id && t.spec == u.spec && t.hash == u.hash
  }

  // The workload passes the check and the call remembers what it saw.
  predicate PassesCheck(world: World, c: Core, t: Task)
    requires BeforeCreation(t)
  {
    CheckResultOf(world, c, t.id) == Proceed && t.spec == c.workloads[t.id].spec && t.hash == c.plans[t.id].hash
  }

  // A call that has yet to create either just passed the check or was there before.
  lemma TaskStep(world: World, s: State, ev: Event, task: nat)
    requires Enabled(s, ev)
    requires task in After(world, s, ev).tasks && BeforeCreation(After(world, s, ev).tasks[task])
    ensures var t := After(world, s, ev).tasks[task];
            if ev == CheckProvision(task, t.id) then PassesCheck(world, s.core, t)
            else task in s.tasks && BeforeCreation(s.tasks[task]) && SamePlan(s.tasks[task], t)
  {
  }

  // The check that a provisioning call passed.
  lemma {:induction false} CheckOrigin(world: World, tr: Trace, k: nat, task: nat) returns (c: nat)
    requires IsRun(world, tr) && k < |tr.states| && task in tr.states[k].tasks
    requires BeforeCreation(tr.states[k].tasks[task])
    ensures var t := tr.states[k].tasks[task];
            c < k && tr.events[c] == CheckProvision(task, t.id) && PassesCheck(world, tr.states[c].core, t)
    decreases k
  {
    assert IsStep(world, tr, k - 1);
    TaskStep(world, tr.states[k - 1], tr.events[k - 1], task);
    if tr.events[k - 1] == CheckProvision(task, tr.states[k].tasks[task].id) {
      c := k - 1;
    } else {
      c := CheckOrigin(world, tr, k - 1, task);
    }
  }

  // In every run, with specification edits anywhere and any interleaving: each
  // creation issued to the provider goes back to a provisioning check c, an
  // approval a and a generation g, in this order, of one and the same plan of
  // that workload. The approval was accepted and stood from a to c, where the
  // check passed; the plan was valid, was not regenerated between g and c, and
  // carries the hash of the specification both at g and at c.
  lemma CreateFollowsApproval(world: World, tr: Trace, k: nat) returns (g: nat, a: nat, c: nat)
    requires IsRun(world, tr) && k < |tr.events| && tr.events[k].IssueCreate?
    ensures tr.events[k].task in tr.states[k].tasks && tr.states[k].tasks[tr.events[k].task].Cleared?
    ensures var t := tr.states[k].tasks[tr.events[k].task];
            g < a < c < k && Generates(tr, g, t.id) && NotRegenerated(tr, g + 1, c, t.id) &&
            ApprovesAt(world, tr, a, t.id) && StandsApproved(tr, a, c, t.id) &&
            tr.events[c] == CheckProvision(tr.events[k].task, t.id) && PassesCheck(world, tr.states[c].core, t) &&
            PlanValid(world.engine, tr.states[g].core.workloads[t.id]) &&
            HashOf(world, tr.states[g].core.workloads[t.id]) == HashOf(world, tr.states[c].core.workloads[t.id])
  {
    assert IsStep(world, tr, k);
    var t := tr.states[k].tasks[tr.events[k].task];
    c := CheckOrigin(world, tr, k, tr.events[k].task);
    g, a := ApprovalOrigin(world, tr, c, t.id);
  }

  ghost predicate Collisionless(digest: string -> string) {
    forall x, y :: digest(x) == digest(y) ==> x == y
  }

  // With a digest free of collisions and colon-free fields, the specification
  // that passed the check is the specification the plan was generated from, in
  // all nine fields.
  lemma CheckedSpecIsPlannedSpec(world: World, tr: Trace, k: nat) returns (g: nat)
    requires IsRun(world, tr) && k < |tr.events| && tr.events[k].IssueCreate?
    requires Collisionless(world.digest)
    requires forall i, id :: 0 <= i < |tr.states| && id in tr.states[i].core.workloads ==>
                               ColonFree(tr.states[i].core.workloads[id].spec)
    ensures tr.events[k].task in tr.states[k].tasks
    ensures var t := tr.states[k].tasks[tr.events[k].task];
            g < k && tr.events[g] == GeneratePlan(t.id) && t.id in tr.states[g].core.workloads &&
            t.spec == tr.states[g].core.workloads[t.id].spec
  {
    var a, c;
    g, a, c := CreateFollowsApproval(world, tr, k);
    var t := tr.states[k].tasks[tr.events[k].task];
    var x, y := tr.states[g].core.workloads[t.id].spec, tr.states[c].core.workloads[t.id].spec;
    assert ColonFree(x) && ColonFree(y);
    PlanTextInjective(x, y);
  }

  // Regenerating a plan, and finding it out of date, revoke its approval.
  lemma ApprovalRevoked(world: World, c: Core, id: string)
    ensures id in c.workloads ==> id in AfterGenerate(world, c, id).plans && !AfterGenerate(world, c, id).plans[id].approved
    ensures ApproveResultOf(world, c, id) == SpecModified ==>
              !AfterApprove(world, c, id).plans[id].approved && AfterApprove(world, c, id).workloads[id].status == DRAFT
    ensures CheckResultOf(world, c, id) == Invalidated ==>
              !AfterCheck(world, c, id).plans[id].approved && AfterCheck(world, c, id).workloads[id].status == DRAFT
    ensures CheckResultOf(world, c, id) == Invalidated ==> CheckResultOf(world, AfterCheck(world, c, id), id) == NotApproved
  {
  }

  // The sections change the one workload's status and its plan, and nothing else.
  ghost predicate OnlyChanges(c: Core, after: Core, id: string, status: Status, plan: Plan)
    requires id in c.workloads
  {
    && id in after.workloads && id in after.plans && after.records == c.records
    && after.workloads[id] == c.workloads[id].(status := status, planHash := after.workloads[id].planHash)
    && after.plans[id] == plan
    && (forall k :: k != id ==> Lookup(after.workloads, k) == Lookup(c.workloads, k) && Lookup(after.plans, k) == Lookup(c.plans, k))
  }

  // A generated plan is unapproved and carries the digest of the specification as
  // it is; it is what later changes are measured against.
  lemma GeneratingMeans(world: World, c: Core, id: string)
    requires id in c.workloads
    ensures var after, w := AfterGenerate(world, c, id), c.workloads[id];
            var hash := world.digest(PlanText(w.spec));
            OnlyChanges(c, after, id, PLANNED, Plan(hash, PlanValid(world.engine, w), false)) &&
            after.workloads[id].planHash == hash
  {
  }

  // An approval is accepted exactly for a valid plan of the specification as it is.
  // A check is passed exactly for an approved plan of it that was not carried out
  // already. A changed specification costs the approval either way.
  lemma PlanSectionsMean(world: World, c: Core, id: string)
    requires id in c.workloads && id in c.plans
    ensures var plan, w := c.plans[id], c.workloads[id];
            var current := world.digest(PlanText(w.spec)) == plan.hash;
            var approved, checked := AfterApprove(world, c, id), AfterCheck(world, c, id);
            && (ApproveResultOf(world, c, id) == Accepted <==> plan.valid && current)
            && (if !plan.valid then approved == c
                else if current then OnlyChanges(c, approved, id, APPROVED, plan.(approved := true))
                else OnlyChanges(c, approved, id, DRAFT, plan.(approved := false)))
            && (CheckResultOf(world, c, id) == Proceed <==> plan.approved && current && !CarriedOutAlready(c, id))
            && (if !plan.approved || (current && CarriedOutAlready(c, id)) then checked == c
                else if current then OnlyChanges(c, checked, id, Status.PROVISIONING, plan)
                else OnlyChanges(c, checked, id, DRAFT, plan.(approved := false)))
            && approved.workloads[id].planHash == checked.workloads[id].planHash == w.planHash
  {
  }

  // The workload runs, and its plan was recorded as a success.
  predicate CarriedOutAlready(c: Core, id: string)
    requires id in c.workloads && id in c.plans
  {
    var key := OperationKey(id, c.plans[id].hash);
    c.workloads[id].status == RUNNING && key in c.records && c.records[key] == SUCCESS
  }

  // Starting wants Running and stopping wants Stopped; a restart keeps what was
  // wanted. A running workload is not started and a stopped one not stopped again,
  // none is commanded while it is provisioned, and only a stop while it is unknown.
  lemma PoweringMeans(c: Core, id: string, power: Power)
    requires id in c.workloads
    ensures var w, result, after := c.workloads[id], PowerResultOf(c, id, power), AfterPower(c, id, power);
            && (result == IllegalState <==> w.status == Status.PROVISIONING || (w.status == Status.UNKNOWN && power != PowerOff))
            && (result == NothingToDo <==> (power == PowerOn && w.status == RUNNING) || (power == PowerOff && w.status == STOPPED))
            && after.plans == c.plans && after.records == c.records && result != PowerNotFound
            && (result != PowerProceeds ==> after == c)
            && (result == PowerProceeds ==>
                  id in after.workloads &&
                  after.workloads[id] == w.(desiredState := if power == PowerOn then Running
                                                            else if power == PowerOff then Stopped else w.desiredState) &&
                  forall k :: k != id ==> Lookup(after.workloads, k) == Lookup(c.workloads, k))
  {
  }
}
