// Provider safety of the lifecycle: creations only for absent names, deletions
// only of owned instances, over every run with faithful lookups; and which steps
// change an instance that no workload owns.
module OwnershipSafety {
  import opened Text
  import opened PortAllocation
  import opened Instances
  import opened PlanTexts
  import opened Workloads
  import opened Lifecycles
  import Exposures
  import ProxyDevices

  // Registered names are pairwise distinct and equal to the provider's names.
  ghost predicate NamesTidy(ws: map<string, Workload>) {
    && (forall k :: k in ws ==> ws[k].id == k && ws[k].providerInstanceID == ws[k].spec.name)
    && (forall j, k :: j in ws && k in ws && j != k ==> ws[j].spec.name != ws[k].spec.name)
  }

  ghost predicate NoTaskOn(s: State, id: string) { forall t :: t in s.tasks ==> s.tasks[t].id != id }

  // At most one call per workload is under way, on a registered workload.
  ghost predicate TasksTidy(s: State) {
    && (forall t :: t in s.tasks ==> s.tasks[t].id in s.core.workloads)
    && (forall t, u :: t in s.tasks && u in s.tasks && t != u ==> s.tasks[t].id != s.tasks[u].id)
  }

  // What a call learned from its lookup still holds.
  ghost predicate Vetted(s: State, t: Task) {
    && (t.Cleared? ==> NameNow(s, t) !in s.instances)
    && (t.DeleteCleared? && NameNow(s, t) in s.instances ==> OwnedBy(s.instances[NameNow(s, t)], t.id))
  }

  ghost predicate Tidy(s: State) {
    && NamesTidy(s.core.workloads) && NamesTidy(s.disk) && TasksTidy(s)
    && (forall n :: n in s.instances ==> s.instances[n].name == n)
    && (forall t :: t in s.tasks ==> Vetted(s, s.tasks[t]))
  }

  // The circumstances under which safety is claimed: lookups answer what the
  // provider holds, calls on one workload do not overlap, nobody renames a
  // workload, adopted ids are new, and outside changes leave alone the
  // instances that a call is just working on.
  ghost predicate Orderly(s: State, ev: Event) {
    match ev
    case EditSpec(id, spec) => id in s.core.workloads ==> spec.name == s.core.workloads[id].spec.name
    case AddWorkload(w, _) => w.id !in s.core.workloads && w.providerInstanceID == w.spec.name
    case Adopt(w, _, _) => w.id !in s.core.workloads && w.providerInstanceID == w.spec.name
    case CheckProvision(_, id) => NoTaskOn(s, id)
    case BeginDelete(_, id) => NoTaskOn(s, id)
    case BeginPower(_, id, _) => NoTaskOn(s, id)
    case ProvisionLookup(task, found) => task in s.tasks ==> found == Lookup(s.instances, NameNow(s, s.tasks[task]))
    case DeleteLookup(task, found) => task in s.tasks ==> found == Lookup(s.instances, NameNow(s, s.tasks[task]))
    case ProviderChange(after) =>
      (forall n :: n in after ==> after[n].name == n) &&
      forall t :: t in s.tasks ==> Lookup(after, NameNow(s, s.tasks[t])) == Lookup(s.instances, NameNow(s, s.tasks[t]))
    case _ => true
  }

  // Same ids, names and provider names.
  ghost predicate SameIdentities(before: map<string, Workload>, after: map<string, Workload>) {
    before.Keys == after.Keys &&
    forall k :: k in before ==>
      after[k].id == before[k].id && after[k].spec.name == before[k].spec.name &&
      after[k].providerInstanceID == before[k].providerInstanceID
  }

  lemma NamesTidyKept(before: map<string, Workload>, after: map<string, Workload>)
    requires NamesTidy(before) && SameIdentities(before, after)
    ensures NamesTidy(after)
  {
    forall j, k | j in after && k in after && j != k ensures after[j].spec.name != after[k].spec.name {
      assert before[j].spec.name != before[k].spec.name;
    }
  }

  // A step that changes no identity, no instance, and gives no call a new
  // unvetted phase.
  lemma TidyKept(s: State, after: State)
    requires Tidy(s) && after.instances == s.instances && after.disk == s.disk
    requires SameIdentities(s.core.workloads, after.core.workloads)
    requires TasksTidy(after)
    requires forall t :: t in after.tasks ==> (t in s.tasks && after.tasks[t] == s.tasks[t]) || Vetted(after, after.tasks[t])
    ensures Tidy(after)
  {
    NamesTidyKept(s.core.workloads, after.core.workloads);
    forall t | t in after.tasks ensures Vetted(after, after.tasks[t]) {
      if t in s.tasks && after.tasks[t] == s.tasks[t] {
        assert Vetted(s, s.tasks[t]);
      }
    }
  }

  lemma TidyWithCore(s: State, core: Core)
    requires Tidy(s) && SameIdentities(s.core.workloads, core.workloads)
    ensures Tidy(s.(core := core))
  {
    TidyKept(s, s.(core := core));
  }

  // The call ends.
  lemma TidyWithoutTask(s: State, core: Core, task: nat)
    requires Tidy(s) && SameIdentities(s.core.workloads, core.workloads)
    ensures Tidy(s.(core := core, tasks := s.tasks - {task}))
  {
    TidyKept(s, s.(core := core, tasks := s.tasks - {task}));
  }

  lemma TasksTidyWith(s: State, ws: map<string, Workload>, task: nat, t: Task, after: State)
    requires TasksTidy(s) && s.core.workloads.Keys == ws.Keys && t.id in ws
    requires if task in s.tasks then t.id == s.tasks[task].id else NoTaskOn(s, t.id)
    requires after.core.workloads == ws && after.tasks == s.tasks[task := t]
    ensures TasksTidy(after)
  {
  }

  // The call starts, or moves on to a phase that is vetted.
  lemma TidyWithTask(s: State, core: Core, task: nat, t: Task)
    requires Tidy(s) && SameIdentities(s.core.workloads, core.workloads) && t.id in core.workloads
    requires if task in s.tasks then t.id == s.tasks[task].id else NoTaskOn(s, t.id)
    requires Vetted(s, t)
    ensures Tidy(s.(core := core, tasks := s.tasks[task := t]))
  {
    var after := s.(core := core, tasks := s.tasks[task := t]);
    TasksTidyWith(s, core.workloads, task, t, after);
    assert NameNow(after, t) == NameNow(s, t);
    TidyKept(s, after);
  }

  // No locked section changes an identity.
  lemma OneEntryKeepsIdentities(ws: map<string, Workload>, id: string, w: Workload)
    requires id in ws && w.id == ws[id].id && w.spec.name == ws[id].spec.name
    requires w.providerInstanceID == ws[id].providerInstanceID
    ensures SameIdentities(ws, ws[id := w])
  {
  }

  lemma StatusKeepsIdentities(c: Core, id: string, status: Status)
    ensures SameIdentities(c.workloads, WithStatus(c, id, status).workloads)
  {
    if id in c.workloads {
      OneEntryKeepsIdentities(c.workloads, id, c.workloads[id].(status := status));
    }
  }

  lemma GenerateKeepsIdentities(world: World, c: Core, id: string)
    ensures SameIdentities(c.workloads, AfterGenerate(world, c, id).workloads)
  {
    if id in c.workloads {
      OneEntryKeepsIdentities(c.workloads, id, AfterGenerate(world, c, id).workloads[id]);
    }
  }

  lemma LookupKeepsIdentities(c: Core, id: string, hash: string, found: Option<Instance>)
    ensures SameIdentities(c.workloads, AfterLookup(c, id, hash, found).workloads)
  {
    if id in c.workloads && found.Some? {
      StatusKeepsIdentities(c, id, Status.FAILED);
      StatusKeepsIdentities(c, id, DRIFTED);
      OneEntryKeepsIdentities(c.workloads, id, c.workloads[id].(actualState := found.value.state, status := RUNNING));
    }
  }

  lemma FinishKeepsIdentities(c: Core, id: string, hash: string, live: Option<Instance>)
    ensures SameIdentities(c.workloads, AfterFinish(c, id, hash, live).workloads)
  {
    if id in c.workloads {
      OneEntryKeepsIdentities(c.workloads, id, AfterFinish(c, id, hash, live).workloads[id]);
    }
  }

  // Only the instance called name may have changed, not in its name.
  ghost predicate OnlyAltered(before: map<string, Instance>, after: map<string, Instance>, name: string) {
    after.Keys == before.Keys && (forall n :: n in after ==> after[n].name == n) &&
    forall n :: n in after && n != name ==> after[n] == before[n]
  }

  lemma NamesTidyWith(ws: map<string, Workload>, w: Workload)
    requires NamesTidy(ws) && w.id !in ws && w.providerInstanceID == w.spec.name && !NameTaken(ws, w.spec.name)
    ensures NamesTidy(ws[w.id := w])
  {
  }

  // No call is working on the instance of an unused name.
  lemma VettedBesides(s: State, instances: map<string, Instance>, name: string, t: nat)
    requires Tidy(s) && t in s.tasks && !NameTaken(s.core.workloads, name) && OnlyAltered(s.instances, instances, name)
    ensures Vetted(s.(instances := instances), s.tasks[t])
  {
    assert Vetted(s, s.tasks[t]) && s.core.workloads[s.tasks[t].id].spec.name != name;
  }

  // The workload is in the file only, or nowhere.
  lemma TidyUnregistered(s: State, w: Workload, instances: map<string, Instance>, disk: map<string, Workload>)
    requires Tidy(s) && NamesTidy(disk)
    requires !NameTaken(s.core.workloads, w.spec.name) && OnlyAltered(s.instances, instances, w.spec.name)
    ensures Tidy(s.(instances := instances, disk := disk))
  {
    var after := s.(instances := instances, disk := disk);
    forall t | t in s.tasks ensures Vetted(after, s.tasks[t]) {
      VettedBesides(s, instances, w.spec.name, t);
    }
  }

  lemma TidyRegistered(s: State, w: Workload, instances: map<string, Instance>)
    requires Tidy(s) && w.id !in s.core.workloads && w.providerInstanceID == w.spec.name
    requires !NameTaken(s.core.workloads, w.spec.name) && OnlyAltered(s.instances, instances, w.spec.name)
    ensures Tidy(s.(core := WithWorkload(s.core, w.id, w), instances := instances, disk := s.core.workloads[w.id := w]))
  {
    var after := s.(core := WithWorkload(s.core, w.id, w), instances := instances, disk := s.core.workloads[w.id := w]);
    NamesTidyWith(s.core.workloads, w);
    forall t | t in s.tasks ensures Vetted(after, s.tasks[t]) {
      VettedBesides(s, instances, w.spec.name, t);
      assert NameNow(after, s.tasks[t]) == NameNow(s, s.tasks[t]);
    }
  }

  lemma AddKeepsTidy(s: State, w: Workload, saved: bool)
    requires Tidy(s) && w.id !in s.core.workloads && w.providerInstanceID == w.spec.name
    ensures Tidy(AfterAdd(s, w, saved))
  {
    assert s.core.workloads - {w.id} == s.core.workloads;
    if !NameTaken(s.core.workloads, w.spec.name) && saved {
      TidyRegistered(s, w, s.instances);
    }
  }

  // However the adoption ends.
  lemma AdoptKeepsTidy(s: State, w: Workload, labels: Option<Labels>, ending: AdoptOutcome)
    requires Tidy(s) && w.id !in s.core.workloads && w.providerInstanceID == w.spec.name
    ensures Tidy(AfterAdopt(s, w, labels, ending))
  {
    var ws, name := s.core.workloads, w.spec.name;
    assert ws - {w.id} == ws;
    if !Managed(ws, name) && name in s.instances {
      assert !NameTaken(ws, name);
      var instances := s.instances[name := Tagged(s.instances[name], labels)];
      if ending.Adopted? {
        TidyRegistered(s, w, instances);
      } else if ending.TagFailed? {
        NamesTidyWith(ws, w);
        TidyUnregistered(s, w, instances, if ending.recorded then ws[w.id := w] else ws);
      }
    }
  }

  // The provider's answer to one call changes only the instance of that call's
  // workload, which no other call is working on.
  lemma VettedAfterProviderCall(s: State, task: nat, u: nat, after: State)
    requires Tidy(s) && task in s.tasks && u in s.tasks && u != task
    requires SameIdentities(s.core.workloads, after.core.workloads)
    requires forall n :: n != NameNow(s, s.tasks[task]) ==> Lookup(after.instances, n) == Lookup(s.instances, n)
    ensures Vetted(after, s.tasks[u])
  {
    assert Vetted(s, s.tasks[u]) && s.tasks[u].id != s.tasks[task].id;
    var name := NameNow(s, s.tasks[u]);
    assert NameNow(after, s.tasks[u]) == name && name != NameNow(s, s.tasks[task]);
    assert Lookup(after.instances, name) == Lookup(s.instances, name);
  }

  lemma TidyAfterProviderCall(s: State, task: nat, tasks: map<nat, Task>, core: Core, instances: map<string, Instance>)
    requires Tidy(s) && task in s.tasks
    requires forall t :: t in tasks && t != task ==> t in s.tasks && tasks[t] == s.tasks[t]
    requires task in tasks ==> tasks[task].id == s.tasks[task].id && !tasks[task].Cleared? && !tasks[task].DeleteCleared?
    requires SameIdentities(s.core.workloads, core.workloads)
    requires forall n :: n in instances ==> instances[n].name == n
    requires forall n :: n != NameNow(s, s.tasks[task]) ==> Lookup(instances, n) == Lookup(s.instances, n)
    ensures Tidy(State(core, tasks, instances, s.disk))
  {
    var after := State(core, tasks, instances, s.disk);
    NamesTidyKept(s.core.workloads, core.workloads);
    forall t | t in after.tasks ensures Vetted(after, after.tasks[t]) {
      if t != task {
        VettedAfterProviderCall(s, task, t, after);
      }
    }
  }

  lemma RemovalKeepsTidy(s: State, task: nat)
    requires Tidy(s) && task in s.tasks
    ensures Tidy(s.(core := AfterRemove(s.core, s.tasks[task].id), tasks := s.tasks - {task}))
  {
    var after := s.(core := AfterRemove(s.core, s.tasks[task].id), tasks := s.tasks - {task});
    forall t | t in after.tasks ensures Vetted(after, after.tasks[t]) && after.tasks[t].id in after.core.workloads {
      assert Vetted(s, s.tasks[t]) && s.tasks[t].id != s.tasks[task].id;
      assert NameNow(after, s.tasks[t]) == NameNow(s, s.tasks[t]);
    }
  }

  lemma CheckKeepsTidy(world: World, s: State, task: nat, id: string)
    requires Tidy(s) && task !in s.tasks && NoTaskOn(s, id)
    ensures Tidy(AfterCheckProvision(world, s, task, id))
  {
    var core := AfterCheck(world, s.core, id);
    StatusKeepsIdentities(s.core, id, PROVISIONING);
    StatusKeepsIdentities(s.core, id, DRAFT);
    if CheckResultOf(world, s.core, id) == Proceed {
      TidyWithTask(s, core, task, Provisioning(id, s.core.workloads[id].spec, s.core.plans[id].hash));
    } else {
      TidyWithCore(s, core);
    }
  }

  lemma LookupKeepsTidy(s: State, task: nat, found: Option<Instance>)
    requires Tidy(s) && task in s.tasks && s.tasks[task].Provisioning?
    requires found == Lookup(s.instances, NameNow(s, s.tasks[task]))
    ensures Tidy(AfterProvisionLookup(s, task, found))
  {
    var t := s.tasks[task];
    LookupKeepsIdentities(s.core, t.id, t.hash, found);
    if found.None? {
      TidyWithTask(s, AfterLookup(s.core, t.id, t.hash, found), task, Cleared(t.id, t.spec, t.hash));
    } else {
      TidyWithoutTask(s, AfterLookup(s.core, t.id, t.hash, found), task);
    }
  }

  lemma EndKeepsTidy(s: State, task: nat, live: Option<Instance>)
    requires Tidy(s) && task in s.tasks
    ensures Tidy(AfterAbandon(s, task))
    ensures s.tasks[task].Finishing? ==> Tidy(AfterFinishProvision(s, task, live))
  {
    var t := s.tasks[task];
    StatusKeepsIdentities(s.core, t.id, Status.FAILED);
    TidyWithoutTask(s, WithStatus(s.core, t.id, Status.FAILED), task);
    if t.Finishing? {
      FinishKeepsIdentities(s.core, t.id, t.hash, live);
      TidyWithoutTask(s, AfterFinish(s.core, t.id, t.hash, live), task);
    }
  }

  lemma DeleteLookupKeepsTidy(s: State, task: nat, found: Option<Instance>)
    requires Tidy(s) && task in s.tasks && s.tasks[task].Deleting?
    requires found == Lookup(s.instances, NameNow(s, s.tasks[task]))
    ensures Tidy(AfterDeleteLookup(s, task, found))
  {
    var t := s.tasks[task];
    if found.Some? && !OwnedBy(found.value, t.id) {
      TidyWithoutTask(s, s.core, task);
    } else {
      TidyWithTask(s, s.core, task, DeleteCleared(t.id, t.spec));
    }
  }

  lemma EditKeepsTidy(s: State, id: string, w: Workload)
    requires Tidy(s) && id in s.core.workloads && w.id == id
    requires w.spec.name == s.core.workloads[id].spec.name && w.providerInstanceID == s.core.workloads[id].providerInstanceID
    ensures Tidy(s.(core := WithWorkload(s.core, id, w)))
  {
    OneEntryKeepsIdentities(s.core.workloads, id, w);
    TidyWithCore(s, WithWorkload(s.core, id, w));
  }

  lemma ReconcileKeepsTidy(s: State, id: string, live: Option<Instance>, bulk: bool)
    requires Tidy(s)
    ensures Tidy(AfterReconcile(s, id, live, bulk))
  {
    if id in s.core.workloads {
      EditKeepsTidy(s, id, AfterReconcile(s, id, live, bulk).core.workloads[id]);
    }
  }

  lemma GenerateKeepsTidy(world: World, s: State, id: string)
    requires Tidy(s)
    ensures Tidy(s.(core := AfterGenerate(world, s.core, id)))
  {
    GenerateKeepsIdentities(world, s.core, id);
    TidyWithCore(s, AfterGenerate(world, s.core, id));
  }

  lemma ApproveKeepsTidy(world: World, s: State, id: string)
    requires Tidy(s)
    ensures Tidy(s.(core := AfterApprove(world, s.core, id)))
  {
    StatusKeepsIdentities(s.core, id, APPROVED);
    StatusKeepsIdentities(s.core, id, DRAFT);
    TidyWithCore(s, AfterApprove(world, s.core, id));
  }

  // Whether the creation is reported or not, at most the call's own name changes.
  lemma CreateKeepsTidy(s: State, task: nat, outcome: CreateOutcome, made: Instance)
    requires Tidy(s) && task in s.tasks && s.tasks[task].Cleared? && made.name == NameNow(s, s.tasks[task])
    ensures Tidy(AfterIssueCreate(s, task, outcome, made))
  {
    var name := NameNow(s, s.tasks[task]);
    var instances := if CreateTakesEffect(s, name, outcome) then s.instances[name := made] else s.instances;
    if outcome.Created? && name !in s.instances {
      CreatedKeepsTidy(s, task, instances);
    } else {
      FailedCreateKeepsTidy(s, task, outcome.CreateFailed? && outcome.timedOut, instances);
    }
  }

  lemma CreatedKeepsTidy(s: State, task: nat, instances: map<string, Instance>)
    requires Tidy(s) && task in s.tasks && s.tasks[task].Cleared?
    requires forall n :: n in instances ==> instances[n].name == n
    requires forall n :: n != NameNow(s, s.tasks[task]) ==> Lookup(instances, n) == Lookup(s.instances, n)
    ensures var t := s.tasks[task];
            Tidy(State(s.core, s.tasks[task := Finishing(t.id, t.spec, t.hash)], instances, s.disk))
  {
    var t := s.tasks[task];
    TidyAfterProviderCall(s, task, s.tasks[task := Finishing(t.id, t.spec, t.hash)], s.core, instances);
  }

  lemma FailedCreateKeepsTidy(s: State, task: nat, timedOut: bool, instances: map<string, Instance>)
    requires Tidy(s) && task in s.tasks && s.tasks[task].Cleared?
    requires forall n :: n in instances ==> instances[n].name == n
    requires forall n :: n != NameNow(s, s.tasks[task]) ==> Lookup(instances, n) == Lookup(s.instances, n)
    ensures var t := s.tasks[task];
            Tidy(State(AfterFailedCreate(s.core, t.id, t.hash, timedOut), s.tasks - {task}, instances, s.disk))
  {
    var t := s.tasks[task];
    StatusKeepsIdentities(s.core, t.id, if timedOut then Status.UNKNOWN else Status.FAILED);
    TidyAfterProviderCall(s, task, s.tasks - {task}, AfterFailedCreate(s.core, t.id, t.hash, timedOut), instances);
  }

  lemma DeleteKeepsTidy(s: State, task: nat, ok: bool)
    requires Tidy(s) && task in s.tasks
    ensures Tidy(AfterIssueDelete(s, task, ok))
  {
    var after := AfterIssueDelete(s, task, ok);
    TidyAfterProviderCall(s, task, after.tasks, after.core, after.instances);
  }

  lemma OutsideKeepsTidy(s: State, after: map<string, Instance>)
    requires Tidy(s) && Orderly(s, ProviderChange(after))
    ensures Tidy(s.(instances := after))
  {
    forall t | t in s.tasks ensures Vetted(s.(instances := after), s.tasks[t]) {
      assert Vetted(s, s.tasks[t]);
    }
  }

  lemma BeginPowerKeepsTidy(s: State, task: nat, id: string, power: Power)
    requires Tidy(s) && task !in s.tasks && NoTaskOn(s, id)
    ensures Tidy(AfterBeginPower(s, task, id, power))
  {
    var core := AfterPower(s.core, id, power);
    if id in s.core.workloads {
      OneEntryKeepsIdentities(s.core.workloads, id, Ordered(s.core.workloads[id], power));
    }
    if PowerResultOf(s.core, id, power) == PowerProceeds {
      TidyWithTask(s, core, task, Powering(id, s.core.workloads[id].spec, power));
    } else {
      TidyWithCore(s, core);
    }
  }

  lemma IssuePowerKeepsTidy(s: State, task: nat, obeyed: bool, address: string)
    requires Tidy(s) && task in s.tasks && s.tasks[task].Powering?
    ensures Tidy(AfterIssuePower(s, task, obeyed, address))
  {
    var after := AfterIssuePower(s, task, obeyed, address);
    TidyAfterProviderCall(s, task, after.tasks, after.core, after.instances);
  }

  // Writing devices changes neither names nor labels.
  lemma DevicesKeepTidy(s: State, table: ProxyDevices.DeviceTable)
    requires Tidy(s)
    ensures Tidy(s.(instances := WithDevices(s.instances, table)))
  {
    var after := s.(instances := WithDevices(s.instances, table));
    forall t | t in after.tasks ensures Vetted(after, after.tasks[t]) {
      assert Vetted(s, s.tasks[t]) && NameNow(after, s.tasks[t]) == NameNow(s, s.tasks[t]);
    }
  }

  lemma PowerStepKeepsTidy(world: World, s: State, ev: Event)
    requires Tidy(s) && Enabled(s, ev) && Orderly(s, ev)
    requires ev.BeginPower? || ev.IssuePower? || ev.WriteDevice? || ev.RemoveDevice?
    ensures Tidy(After(world, s, ev))
  {
    match ev
    case BeginPower(task, id, power) => BeginPowerKeepsTidy(s, task, id, power);
    case IssuePower(task, obeyed, address) => IssuePowerKeepsTidy(s, task, obeyed, address);
    case WriteDevice(e, link) => DevicesKeepTidy(s, ProxyDevices.ApplyEffect(DeviceTableOf(s.instances), e, link).table);
    case RemoveDevice(e, link) => DevicesKeepTidy(s, ProxyDevices.RemoveEffect(DeviceTableOf(s.instances), e, link).table);
  }

  lemma RegistryStepKeepsTidy(world: World, s: State, ev: Event)
    requires Tidy(s) && Enabled(s, ev) && Orderly(s, ev)
    requires ev.AddWorkload? || ev.Adopt? || ev.EditSpec? || ev.ReconcileOne? || ev.GeneratePlan? || ev.ApprovePlan?
    ensures Tidy(After(world, s, ev))
  {
    match ev
    case AddWorkload(w, saved) => AddKeepsTidy(s, w, saved);
    case Adopt(w, labels, ending) => AdoptKeepsTidy(s, w, labels, ending);
    case EditSpec(id, spec) =>
      if id in s.core.workloads { EditKeepsTidy(s, id, s.core.workloads[id].(spec := spec)); }
    case ReconcileOne(id, live, bulk) => ReconcileKeepsTidy(s, id, live, bulk);
    case GeneratePlan(id) => GenerateKeepsTidy(world, s, id);
    case ApprovePlan(id) => ApproveKeepsTidy(world, s, id);
  }

  lemma ClearingStepKeepsTidy(world: World, s: State, ev: Event)
    requires Tidy(s) && Enabled(s, ev) && Orderly(s, ev) && (ev.CheckProvision? || ev.ProvisionLookup?)
    ensures Tidy(After(world, s, ev))
  {
    match ev
    case CheckProvision(task, id) => CheckKeepsTidy(world, s, task, id);
    case ProvisionLookup(task, found) => LookupKeepsTidy(s, task, found);
  }

  lemma ProvisionStepKeepsTidy(world: World, s: State, ev: Event)
    requires Tidy(s) && Enabled(s, ev) && (ev.AbandonProvision? || ev.FinishProvision? || ev.IssueCreate?)
    ensures Tidy(After(world, s, ev))
  {
    match ev
    case AbandonProvision(task) => EndKeepsTidy(s, task, None);
    case FinishProvision(task, live) => EndKeepsTidy(s, task, live);
    case IssueCreate(task, outcome, made) => CreateKeepsTidy(s, task, outcome, made);
  }

  lemma DeleteStepKeepsTidy(world: World, s: State, ev: Event)
    requires Tidy(s) && Enabled(s, ev) && Orderly(s, ev)
    requires ev.BeginDelete? || ev.DeleteLookup? || ev.IssueDelete? || ev.FinishDelete?
    ensures Tidy(After(world, s, ev))
  {
    match ev
    case BeginDelete(task, id) =>
      if id in s.core.workloads { TidyWithTask(s, s.core, task, Task.Deleting(id, s.core.workloads[id].spec)); }
    case DeleteLookup(task, found) => DeleteLookupKeepsTidy(s, task, found);
    case IssueDelete(task, ok) => DeleteKeepsTidy(s, task, ok);
    case FinishDelete(task) => RemovalKeepsTidy(s, task);
  }

  lemma OutsideStepKeepsTidy(world: World, s: State, ev: Event)
    requires Tidy(s) && Enabled(s, ev) && Orderly(s, ev)
    requires ev.ProviderChange? || ev.Persist? || ev.Restart?
    ensures Tidy(After(world, s, ev))
  {
    if ev.ProviderChange? {
      OutsideKeepsTidy(s, ev.instances);
    }
  }

  lemma StepKeepsTidy(world: World, s: State, ev: Event)
    requires Tidy(s) && Enabled(s, ev) && Orderly(s, ev)
    ensures Tidy(After(world, s, ev))
  {
    if ev.CheckProvision? || ev.ProvisionLookup? {
      ClearingStepKeepsTidy(world, s, ev);
    } else if ev.AbandonProvision? || ev.FinishProvision? || ev.IssueCreate? {
      ProvisionStepKeepsTidy(world, s, ev);
    } else if ev.BeginDelete? || ev.DeleteLookup? || ev.IssueDelete? || ev.FinishDelete? {
      DeleteStepKeepsTidy(world, s, ev);
    } else if ev.ProviderChange? || ev.Persist? || ev.Restart? {
      OutsideStepKeepsTidy(world, s, ev);
    } else if ev.BeginPower? || ev.IssuePower? || ev.WriteDevice? || ev.RemoveDevice? {
      PowerStepKeepsTidy(world, s, ev);
    } else {
      RegistryStepKeepsTidy(world, s, ev);
    }
  }

  ghost predicate OrderlyRun(world: World, tr: Trace) {
    IsRun(world, tr) && Tidy(tr.states[0]) &&
    forall i :: 0 <= i < |tr.events| ==> Orderly(tr.states[i], tr.events[i])
  }

  lemma {:induction false} RunStaysTidy(world: World, tr: Trace, k: nat)
    requires OrderlyRun(world, tr) && k < |tr.states|
    ensures Tidy(tr.states[k])
  {
    if k > 0 {
      RunStaysTidy(world, tr, k - 1);
      assert IsStep(world, tr, k - 1);
      StepKeepsTidy(world, tr.states[k - 1], tr.events[k - 1]);
    }
  }

  // Over every orderly run: a creation is only ever issued for a name that is
  // absent at the provider, and a deletion only for an instance that carries
  // the owned label and the id of the workload acted on.
  lemma ProviderCallsSafe(world: World, tr: Trace, k: nat)
    requires OrderlyRun(world, tr) && k < |tr.events|
    ensures tr.events[k].IssueCreate? ==>
              tr.events[k].task in tr.states[k].tasks &&
              NameNow(tr.states[k], tr.states[k].tasks[tr.events[k].task]) !in tr.states[k].instances
    ensures tr.events[k].IssueDelete? ==>
              tr.events[k].task in tr.states[k].tasks &&
              var t := tr.states[k].tasks[tr.events[k].task];
              var name := NameNow(tr.states[k], t);
              name in tr.states[k].instances ==> OwnedBy(tr.states[k].instances[name], t.id)
  {
    RunStaysTidy(world, tr, k);
    var s, ev := tr.states[k], tr.events[k];
    assert IsStep(world, tr, k);
    if ev.IssueCreate? || ev.IssueDelete? {
      assert Vetted(s, s.tasks[ev.task]);
    }
  }

  // An instance that no registered workload owns.
  ghost predicate Foreign(s: State, name: string) {
    name in s.instances && forall id :: id in s.core.workloads ==> !OwnedBy(s.instances[name], id)
  }

  // The driver's write leaves the devices of this instance different.
  predicate DriverWrites(inst: Instance, e: Exposures.Exposure, link: ProxyDevices.Link) {
    e.protocol != UDP && link.queryOk && link.commandOk &&
    var device, devices := ProxyDevices.DeviceName(e.id), DevicesOf(inst);
    device in devices ==>
      !ProxyDevices.UpToDate(devices[device], e) && ProxyDevices.Configured(devices[device], e) != devices[device]
  }

  predicate DriverRemoves(inst: Instance, e: Exposures.Exposure, link: ProxyDevices.Link) {
    link.commandOk && ProxyDevices.DeviceName(e.id) in DevicesOf(inst)
  }

  // The steps that change the instance called name. None of them asks whose it
  // is: commands of a start, stop or restart go to the name of the workload,
  // device writes to the name in the exposure; an adoption, even one that then
  // fails, sets labels.
  ghost predicate Alters(s: State, ev: Event, name: string)
    requires Enabled(s, ev) && name in s.instances
  {
    var inst := s.instances[name];
    match ev
    case IssuePower(task, obeyed, address) =>
      obeyed && NameNow(s, s.tasks[task]) == name &&
      (inst.state != PoweredState(s.tasks[task].power) || inst.ipAddress != address)
    case WriteDevice(e, link) => ProxyDevices.ResolveInstanceName(e) == ProxyDevices.Target(name) && DriverWrites(inst, e, link)
    case RemoveDevice(e, link) => ProxyDevices.ResolveInstanceName(e) == ProxyDevices.Target(name) && DriverRemoves(inst, e, link)
    case Adopt(w, labels, ending) =>
      w.spec.name == name && !Managed(s.core.workloads, name) && !ending.NotSaved? && inst.labels != labels
    case ProviderChange(after) => Lookup(after, name) != Some(inst)
    case _ => false
  }

  lemma DeviceWriteAltersIff(instances: map<string, Instance>, e: Exposures.Exposure, link: ProxyDevices.Link, name: string)
    requires name in instances
    ensures var after := WithDevices(instances, ProxyDevices.ApplyEffect(DeviceTableOf(instances), e, link).table);
            name in after &&
            (after[name] == instances[name] <==>
               !(ProxyDevices.ResolveInstanceName(e) == ProxyDevices.Target(name) && DriverWrites(instances[name], e, link)))
  {
    var device, devices := ProxyDevices.DeviceName(e.id), DevicesOf(instances[name]);
    var after := ProxyDevices.ApplyEffect(DeviceTableOf(instances), e, link).table;
    if after[name] != devices {
      assert DevicesOf(instances[name].(devices := Some(after[name]))) != devices;
    }
    if ProxyDevices.ResolveInstanceName(e) == ProxyDevices.Target(name) && DriverWrites(instances[name], e, link) {
      assert after[name][device] == ProxyDevices.Configured(if device in devices then devices[device] else map["type" := "proxy"], e);
    } else {
      assert device in devices ==> devices[device := devices[device]] == devices;
    }
  }

  lemma DeviceRemovalAltersIff(instances: map<string, Instance>, e: Exposures.Exposure, link: ProxyDevices.Link, name: string)
    requires name in instances
    ensures var after := WithDevices(instances, ProxyDevices.RemoveEffect(DeviceTableOf(instances), e, link).table);
            name in after &&
            (after[name] == instances[name] <==>
               !(ProxyDevices.ResolveInstanceName(e) == ProxyDevices.Target(name) && DriverRemoves(instances[name], e, link)))
  {
    var device, devices := ProxyDevices.DeviceName(e.id), DevicesOf(instances[name]);
    var after := ProxyDevices.RemoveEffect(DeviceTableOf(instances), e, link).table;
    if after[name] != devices {
      assert DevicesOf(instances[name].(devices := Some(after[name]))) != devices;
    }
    if device in devices {
      assert device !in devices - {device};
    } else {
      assert devices - {device} == devices;
    }
  }

  // Creations and deletions never meet an instance that no workload owns.
  lemma CallsSpareForeign(world: World, s: State, ev: Event, name: string)
    requires Tidy(s) && Enabled(s, ev) && Foreign(s, name) && (ev.IssueCreate? || ev.IssueDelete?)
    ensures Lookup(After(world, s, ev).instances, name) == Some(s.instances[name])
  {
    assert Vetted(s, s.tasks[ev.task]);
  }

  // Commands, adoptions and outside changes.
  lemma DirectChangeAltersIff(world: World, s: State, ev: Event, name: string)
    requires Enabled(s, ev) && name in s.instances && (ev.IssuePower? || ev.Adopt? || ev.ProviderChange?)
    ensures Lookup(After(world, s, ev).instances, name) == Some(s.instances[name]) <==> !Alters(s, ev, name)
  {
  }

  lemma ForeignStep(world: World, s: State, ev: Event, name: string)
    requires Tidy(s) && Enabled(s, ev) && Foreign(s, name)
    ensures Lookup(After(world, s, ev).instances, name) == Some(s.instances[name]) <==> !Alters(s, ev, name)
  {
    if ev.IssueCreate? || ev.IssueDelete? {
      CallsSpareForeign(world, s, ev, name);
    } else if ev.IssuePower? || ev.Adopt? || ev.ProviderChange? {
      DirectChangeAltersIff(world, s, ev, name);
    } else if ev.WriteDevice? {
      DeviceWriteAltersIff(s.instances, ev.exposure, ev.link, name);
    } else if ev.RemoveDevice? {
      DeviceRemovalAltersIff(s.instances, ev.exposure, ev.link, name);
    }
  }

  // Over every orderly run, an instance that no registered workload owns is left
  // unchanged by a step exactly when the step is not one of those above. In
  // particular no creation and no deletion touches it; a stop does.
  lemma ForeignInstancesUntouchedIff(world: World, tr: Trace, k: nat, name: string)
    requires OrderlyRun(world, tr) && k < |tr.events| && Foreign(tr.states[k], name)
    ensures Enabled(tr.states[k], tr.events[k])
    ensures Lookup(tr.states[k + 1].instances, name) == Some(tr.states[k].instances[name]) <==>
              !Alters(tr.states[k], tr.events[k], name)
  {
    RunStaysTidy(world, tr, k);
    assert IsStep(world, tr, k);
    ForeignStep(world, tr.states[k], tr.events[k], name);
  }

  // Such a run: a workload is registered under the name of an instance that is
  // not its own, then stopped. The instance stops, whatever it was.
  lemma ForeignInstanceCanBeStopped(world: World, inst: Instance, w: Workload) returns (tr: Trace)
    requires !OwnedBy(inst, w.id) && inst.state != Stopped
    requires w.spec.name == inst.name == w.providerInstanceID && w.status == DRAFT
    ensures OrderlyRun(world, tr) && |tr.events| == 3
    ensures tr.states[0] == State(Core(map[], map[], map[]), map[], map[inst.name := inst], map[])
    ensures forall k :: 0 <= k < 3 ==> Foreign(tr.states[k], inst.name)
    ensures tr.states[3].instances == map[inst.name := inst.(state := Stopped, ipAddress := "")]
  {
    var s1, s2, s3;
    tr, s1, s2, s3 := StoppingRun(world, inst, w);
    StepsAreRun(world, tr);
    StoppingIsOrderly(world, tr, w, inst, s1);
    assert Foreign(tr.states[0], inst.name) && Foreign(s1, inst.name) && Foreign(s2, inst.name);
  }

  lemma StepsAreRun(world: World, tr: Trace)
    requires |tr.states| == 4 && |tr.events| == 3 && tr.states[0].core.plans == map[] && tr.states[0].tasks == map[]
    requires IsStep(world, tr, 0) && IsStep(world, tr, 1) && IsStep(world, tr, 2)
    ensures IsRun(world, tr)
  {
    forall i | 0 <= i < 3 ensures IsStep(world, tr, i) {
      assert i == 0 || i == 1 || i == 2;
    }
  }

  lemma StoppingIsOrderly(world: World, tr: Trace, w: Workload, inst: Instance, s1: State)
    requires w.spec.name == inst.name == w.providerInstanceID && IsRun(world, tr) && |tr.events| == 3
    requires tr.states[0] == State(Core(map[], map[], map[]), map[], map[inst.name := inst], map[])
    requires tr.events == [AddWorkload(w, true), BeginPower(0, w.id, PowerOff), IssuePower(0, true, "")]
    requires tr.states[1] == s1 && s1.tasks == map[]
    ensures OrderlyRun(world, tr)
  {
    forall i | 0 <= i < 3 ensures Orderly(tr.states[i], tr.events[i]) {
      assert i == 0 || i == 1 || i == 2;
    }
  }

  lemma StoppingRun(world: World, inst: Instance, w: Workload) returns (tr: Trace, s1: State, s2: State, s3: State)
    requires w.spec.name == inst.name && w.status == DRAFT
    ensures var s0 := State(Core(map[], map[], map[]), map[], map[inst.name := inst], map[]);
            var e0, e1, e2 := AddWorkload(w, true), BeginPower(0, w.id, PowerOff), IssuePower(0, true, "");
            tr == Trace([s0, s1, s2, s3], [e0, e1, e2]) && IsStep(world, tr, 0) && IsStep(world, tr, 1) && IsStep(world, tr, 2)
    ensures s1.core.workloads == map[w.id := w] && s1.tasks == map[] && s1.instances == map[inst.name := inst]
    ensures s2.core.workloads.Keys == {w.id} && s2.instances == map[inst.name := inst]
    ensures s3.instances == map[inst.name := inst.(state := Stopped, ipAddress := "")]
  {
    var t := Powering(w.id, w.spec, PowerOff);
    var s0 := State(Core(map[], map[], map[]), map[], map[inst.name := inst], map[]);
    s1 := s0.(core := Core(map[w.id := w], map[], map[]), disk := map[w.id := w]);
    s2 := s1.(core := Core(map[w.id := w.(desiredState := Stopped)], map[], map[]), tasks := map[0 := t]);
    s3 := s2.(tasks := map[], instances := map[inst.name := inst.(state := Stopped, ipAddress := "")]);
    tr := Trace([s0, s1, s2, s3], [AddWorkload(w, true), BeginPower(0, w.id, PowerOff), IssuePower(0, true, "")]);
    assert AfterAdd(s0, w, true) == s1;
    assert AfterPower(s1.core, w.id, PowerOff) == s2.core;
    assert AfterBeginPower(s1, 0, w.id, PowerOff) == s2;
    assert map[0 := t] - {0} == map[];
    assert AfterIssuePower(s2, 0, true, "") == s3;
  }

  // A provisioning call that creates an instance, and whose ownership labels the
  // provider accepted, leaves one that its workload owns, so a later deletion of that
  // workload is not refused.
  lemma CreatedIsOwned(world: World, tr: Trace, k: nat)
    requires OrderlyRun(world, tr) && k < |tr.events| && tr.events[k].IssueCreate? && tr.events[k].outcome.Created?
    requires tr.events[k].task in tr.states[k].tasks ==>
               var t := tr.states[k].tasks[tr.events[k].task];
               t.id != "" && OwnershipAccepted(SpecNow(tr.states[k], t), t.id, tr.events[k].made)
    ensures tr.events[k].task in tr.states[k].tasks
    ensures var t := tr.states[k].tasks[tr.events[k].task];
            var name := NameNow(tr.states[k], t);
            name in tr.states[k + 1].instances && OwnedBy(tr.states[k + 1].instances[name], t.id)
  {
    ProviderCallsSafe(world, tr, k);
    assert IsStep(world, tr, k);
    var t := tr.states[k].tasks[tr.events[k].task];
    CreationLabelsOwn(SpecNow(tr.states[k], t), t.id, tr.events[k].made);
  }
}
