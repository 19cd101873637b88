// A call that registers, adopts, provisions, starts, stops, restarts or deletes
// and is not interrupted by another call is one path of the lifecycle machine:
// what the manager's methods are proved to do to workloads, plans, operation
// records, instances and the file is what the machine does along that path. So
// the results about all runs of the machine hold for the manager.
module Refinement {
  import opened Text
  import opened Instances
  import opened PlanTexts
  import opened Workloads
  import opened Lifecycles
  import opened SnapshotFiles
  import opened Surroundings
  import opened WorkloadManagers

  // The state after the check and a lookup that found nothing.
  function ClearedState(world: World, s: State, task: nat, id: string): State
    requires task !in s.tasks && CheckResultOf(world, s.core, id) == Proceed
  {
    AfterProvisionLookup(AfterCheckProvision(world, s, task, id), task, None)
  }

  lemma ClearedStateIs(world: World, s: State, task: nat, id: string)
    requires task !in s.tasks && CheckResultOf(world, s.core, id) == Proceed
    ensures ClearedState(world, s, task, id) ==
              s.(core := AfterCheck(world, s.core, id),
                 tasks := s.tasks[task := Cleared(id, s.core.workloads[id].spec, s.core.plans[id].hash)])
    ensures NameNow(ClearedState(world, s, task, id), ClearedState(world, s, task, id).tasks[task]) == s.core.workloads[id].spec.name
  {
    var checked := AfterCheckProvision(world, s, task, id);
    assert checked.tasks[task := Cleared(id, s.core.workloads[id].spec, s.core.plans[id].hash)] ==
           s.tasks[task := Cleared(id, s.core.workloads[id].spec, s.core.plans[id].hash)];
  }

  // The instance that a launch leaves, started when the launch was reported.
  function MadeBy(faults: ProvisionFaults, name: string, ok: bool): Instance {
    var launched := faults.launched.(name := name);
    if ok then launched.(state := faults.state, ipAddress := faults.address) else launched
  }

  // Check, lookup, creation and, when the creation was reported, the end.
  lemma CreatingIsPath(
    world: World, s: State, task: nat, id: string, faults: ProvisionFaults, after: map<string, Instance>,
    result: ProvisionResult, live: Option<Instance>)
    requires task !in s.tasks && CheckResultOf(world, s.core, id) == Proceed
    requires result.Provisioned? || result.CreationFailed?
    requires LaunchedAs(s.instances, after, s.core.workloads[id].spec.name, faults, result.Provisioned?, live)
    ensures var name, hash := s.core.workloads[id].spec.name, s.core.plans[id].hash;
            var issued := AfterIssueCreate(ClearedState(world, s, task, id), task, faults.creation,
                                           MadeBy(faults, name, result.Provisioned?));
            var end := s.(core := AfterResult(AfterCheck(world, s.core, id), id, hash, result, None, TimedOut(faults), live),
                          instances := after);
            if result.CreationFailed? then issued == end
            else task in issued.tasks && issued.tasks[task].Finishing? && AfterFinishProvision(issued, task, live) == end
  {
    var name, hash := s.core.workloads[id].spec.name, s.core.plans[id].hash;
    ClearedStateIs(world, s, task, id);
    var cleared := ClearedState(world, s, task, id);
    var issued := AfterIssueCreate(cleared, task, faults.creation, MadeBy(faults, name, result.Provisioned?));
    assert issued.instances == after;
    assert cleared.tasks - {task} == s.tasks;
    assert cleared.tasks[task := Finishing(id, s.core.workloads[id].spec, hash)] - {task} == s.tasks;
  }

  // The other ends of a call that has passed the check.
  lemma NotCreatingIsPath(
    world: World, s: State, task: nat, id: string, found: Option<Instance>, result: ProvisionResult, timedOut: bool)
    requires task !in s.tasks && CheckResultOf(world, s.core, id) == Proceed
    requires (result.Resolved? && found.Some?) || result.Incapable? || result.NoPort?
    ensures var checked := AfterCheckProvision(world, s, task, id);
            var end := s.(core := AfterResult(AfterCheck(world, s.core, id), id, s.core.plans[id].hash, result, found, timedOut, None));
            if result.Resolved? then AfterProvisionLookup(checked, task, found) == end
            else if result.Incapable? then AfterAbandon(checked, task) == end
            else AfterAbandon(ClearedState(world, s, task, id), task) == end
  {
    ClearedStateIs(world, s, task, id);
    var checked := AfterCheckProvision(world, s, task, id);
    assert checked.tasks - {task} == s.tasks;
    assert ClearedState(world, s, task, id).tasks - {task} == s.tasks;
  }

  // Begin, lookup, deletion and removal; or an end after the lookup or the deletion.
  lemma DeletingIsPath(s: State, task: nat, id: string, answers: bool, obeys: bool)
    requires task !in s.tasks && id in s.core.workloads && s.core.workloads[id].id == id
    ensures var name := s.core.workloads[id].spec.name;
            var found := if answers then Lookup(s.instances, name) else None;
            var looked := AfterDeleteLookup(AfterBeginDelete(s, task, id), task, found);
            if found.Some? && !OwnedBy(found.value, id) then looked == s
            else
              task in looked.tasks &&
              var issued := AfterIssueDelete(looked, task, obeys);
              if !obeys then issued == s
              else task in issued.tasks &&
                   AfterFinishDelete(issued, task) == s.(core := AfterRemove(s.core, id), instances := s.instances - {name})
  {
    var spec := s.core.workloads[id].spec;
    assert s.tasks[task := Task.Deleting(id, spec)] - {task} == s.tasks;
    assert s.tasks[task := Task.Deleting(id, spec)][task := DeleteCleared(id, spec)] - {task} == s.tasks;
    assert s.tasks[task := Task.Deleting(id, spec)][task := DeleteCleared(id, spec)][task := Removing(id, spec)] - {task} == s.tasks;
  }

  // Begin and command of a start, stop or restart.
  lemma PoweringIsPath(world: World, s: State, task: nat, id: string, power: Power, obeyed: bool, address: string)
    requires task !in s.tasks
    ensures var begun := AfterBeginPower(s, task, id, power);
            if PowerResultOf(s.core, id, power) != PowerProceeds then begun == s
            else
              var name := s.core.workloads[id].spec.name;
              task in begun.tasks && begun.tasks[task].Powering? &&
              AfterIssuePower(begun, task, obeyed, address) ==
                s.(core := AfterPower(s.core, id, power),
                   instances := if obeyed && name in s.instances
                                then s.instances[name := Powered(s.instances[name], power, address)] else s.instances)
  {
    if PowerResultOf(s.core, id, power) == PowerProceeds {
      assert s.tasks[task := Powering(id, s.core.workloads[id].spec, power)] - {task} == s.tasks;
    }
  }

  // How an adoption of an instance that can be adopted ends.
  function EndingOf(effect: TagEffect, faults: AdoptFaults): AdoptOutcome {
    if faults.first != NoFault then NotSaved
    else if effect.ok then Adopted
    else TagFailed(faults.last != NoFault)
  }

  // Registration and adoption, however they end: memory, instances and file.
  lemma AdoptingIsPath(s: State, w: Workload, faults: AdoptFaults)
    requires w.spec.name in s.instances && !Managed(s.core.workloads, w.spec.name)
    ensures var name := w.spec.name;
            var effect := Tagging(s.instances[name], w.id, faults.tag);
            var ending := EndingOf(effect, faults);
            var end := AfterAdopt(s, w, effect.instance.labels, ending);
            end.core == s.core.(workloads := if ending.Adopted? then s.core.workloads[w.id := w] else s.core.workloads - {w.id}) &&
            end.tasks == s.tasks &&
            end.instances == (if ending.NotSaved? then s.instances else s.instances[name := effect.instance]) &&
            end.disk == (if ending.NotSaved? then s.disk
                         else if ending.Adopted? || faults.last == NoFault then end.core.workloads
                         else s.core.workloads[w.id := w])
  {
    var effect := Tagging(s.instances[w.spec.name], w.id, faults.tag);
    assert effect.instance == Tagged(s.instances[w.spec.name], effect.instance.labels);
  }

  lemma RegisteringIsPath(s: State, w: Workload, saved: bool)
    requires !NameTaken(s.core.workloads, w.spec.name)
    ensures var end := AfterAdd(s, w, saved);
            end.core == s.core.(workloads := if saved then s.core.workloads[w.id := w] else s.core.workloads - {w.id}) &&
            end.tasks == s.tasks && end.instances == s.instances &&
            end.disk == if saved then end.core.workloads else s.disk
  {
  }
}
