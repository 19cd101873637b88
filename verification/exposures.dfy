// Network exposures as values: conversions, the acceptance rule for a new or
// changed exposure, and the registry's behaviour over whole runs.
module Exposures {
  import opened Text
  import opened PortAllocation
  import opened Instances

  datatype Exposure = Exposure(
    id: string, workloadID: string, workloadName: string, gatewayID: string, exposureMode: string,
    publicIP: string, publicPort: int, internalIP: string, internalPort: int, protocol: Protocol,
    desiredState: ExposureState, actualState: ExposureState, syncStatus: SyncStatus, description: string)

  type Registry = map<string, Exposure>

  // -------------------------------------------------------------- conversions

  function GeneratedID(workloadID: string, publicPort: int): string {
    "exp-" + workloadID + "-" + SignedDecimal(publicPort)
  }

  function ConvertForwardingRule(rule: ForwardingRule, workloadID: string, workloadName: string, mode: string): Exposure {
    var publicPort := RulePort(rule);
    Exposure(
      if rule.id == "" then GeneratedID(workloadID, publicPort) else rule.id,
      workloadID, workloadName, rule.gatewayID, mode, rule.publicIP, publicPort,
      if rule.internalIP == "" then rule.destinationIP else rule.internalIP,
      RuleInternalPort(rule), rule.protocol,
      if rule.state == ExposureState.NoState then CONFIGURED else rule.state,
      APPLIED, InSync, rule.description)
  }

  function ToForwardingRule(e: Exposure): ForwardingRule {
    ForwardingRule(e.id, e.gatewayID, e.publicIP, e.publicPort, e.protocol, e.internalIP, e.internalPort,
                   e.workloadID, e.desiredState, e.description, e.publicPort, e.internalIP, e.internalPort)
  }

  // Going to the legacy form and back keeps everything except the observed
  // state, exactly for exposures that have an id and a desired state.
  lemma ConversionRoundTrip(e: Exposure)
    ensures ConvertForwardingRule(ToForwardingRule(e), e.workloadID, e.workloadName, e.exposureMode)
              == e.(actualState := APPLIED, syncStatus := InSync)
            <==> e.id != "" && e.desiredState != ExposureState.NoState
  {
    assert |GeneratedID(e.workloadID, e.publicPort)| > 0;
  }

  // A rule that has its ports and address in the older fields only converts alike,
  // and a missing id is made of workload and port, a missing desired state CONFIGURED.
  lemma OlderFormConverts(e: Exposure)
    ensures var rule := ToForwardingRule(e);
            var made := ConvertForwardingRule(rule, e.workloadID, e.workloadName, e.exposureMode);
            ConvertForwardingRule(rule.(externalPort := 0, internalIP := "", internalPort := 0),
                                  e.workloadID, e.workloadName, e.exposureMode) == made &&
            (e.id == "" ==> made.id == "exp-" + e.workloadID + "-" + SignedDecimal(e.publicPort)) &&
            (e.desiredState == ExposureState.NoState ==> made.desiredState == CONFIGURED)
  {
  }

  // ------------------------------------------------------------------ safety

  // Two exposures claim the same public endpoint of the same gateway.
  predicate SameClaim(a: Exposure, b: Exposure) {
    a.gatewayID == b.gatewayID && a.publicPort == b.publicPort && ProtocolsOverlap(a.protocol, b.protocol)
  }

  predicate Wellformed(e: Exposure) {
    KnownProtocol(e.protocol) && PortInRange(e.publicPort) && !ReservedManagementPort(e.publicPort)
  }

  ghost predicate Unclaimed(reg: Registry, e: Exposure) {
    forall k :: k in reg && k != e.id ==> !SameClaim(reg[k], e)
  }

  ghost predicate Keyed(reg: Registry) { forall k :: k in reg ==> reg[k].id == k }

  // The exposures of one workload.
  function ListedFor(reg: Registry, workloadID: string): set<string> { set k | k in reg && reg[k].workloadID == workloadID }

  ghost predicate Safe(reg: Registry) {
    && Keyed(reg)
    && (forall k :: k in reg ==> Wellformed(reg[k]))
    && (forall j, k :: j in reg && k in reg && j != k ==> !SameClaim(reg[j], reg[k]))
  }

  // What Safe says about transports: one gateway, one port, disjoint transports.
  lemma SafeSharesNoTransport(reg: Registry, j: string, k: string)
    requires Safe(reg) && j in reg && k in reg && j != k
    requires reg[j].gatewayID == reg[k].gatewayID && reg[j].publicPort == reg[k].publicPort
    ensures Transports(reg[j].protocol) !! Transports(reg[k].protocol)
  {
    OverlapIsSharedTransport(reg[j].protocol, reg[k].protocol);
    assert !SameClaim(reg[j], reg[k]);
  }

  // Some registered exposure uses the port, on whatever gateway and transport.
  ghost predicate PortInUse(reg: Registry, port: int) { exists k :: k in reg && reg[k].publicPort == port }

  // --------------------------------------------------------------- acceptance

  function RequestFor(e: Exposure): PortAllocationRequest {
    PortAllocationRequest(e.workloadID, e.gatewayID, SINGLE, e.publicPort, e.publicPort,
                          e.internalPort, e.internalPort, e.protocol, e.publicIP, e.internalIP, [])
  }

  // A registered exposure under another id stands in the way of e.
  predicate Obstructs(other: Exposure, e: Exposure) {
    other.id != e.id && other.publicPort == e.publicPort && ProtocolsOverlap(other.protocol, e.protocol) &&
    (other.gatewayID == e.gatewayID || e.gatewayID == "")
  }

  // The test is asymmetric: of two exposures on one endpoint, one is refused
  // while the other is there and not the other way round exactly when the
  // refused one names no gateway and the other does.
  lemma ObstructionAsymmetricIff(a: Exposure, b: Exposure)
    requires a.id != b.id && a.publicPort == b.publicPort && ProtocolsOverlap(a.protocol, b.protocol)
    ensures Obstructs(a, b) && !Obstructs(b, a) <==> b.gatewayID == "" && a.gatewayID != ""
  {
  }

  ghost predicate Acceptable(engine: AllocatorEngine, reg: Registry, e: Exposure) {
    && engine.BasicsHold(RequestFor(e), [], [])
    && PortInRange(e.publicPort) && PortInRange(e.internalPort) && !ReservedManagementPort(e.publicPort)
    && forall k :: k in reg ==> !Obstructs(reg[k], e)
  }

  // In a conflict-free registry an exposure is accepted exactly when its fields are in
  // order, it asks for no management port, and no other exposure has a transport of
  // its port on its gateway, or on any gateway when it names none.
  lemma AcceptedIff(engine: AllocatorEngine, reg: Registry, e: Exposure)
    requires Safe(reg)
    ensures Acceptable(engine, reg, e) <==>
              && TrimSpace(e.workloadID) != "" && TrimSpace(e.internalIP) != "" && engine.validIP(e.internalIP)
              && (e.publicIP == "" || engine.validIP(e.publicIP)) && Transports(e.protocol) != {}
              && 1 <= e.publicPort <= 65535 && 1 <= e.internalPort <= 65535 && e.publicPort != 22 && e.publicPort != 8443
              && forall k :: k in reg && k != e.id && reg[k].publicPort == e.publicPort && e.gatewayID in {"", reg[k].gatewayID} ==>
                   Transports(reg[k].protocol) * Transports(e.protocol) == {}
  {
    if KnownProtocol(e.protocol) {
      assert OverTCP in Transports(e.protocol) || OverUDP in Transports(e.protocol);
      forall k | k in reg ensures ProtocolsOverlap(reg[k].protocol, e.protocol) <==> Transports(reg[k].protocol) * Transports(e.protocol) != {} {
        OverlapIsSharedTransport(reg[k].protocol, e.protocol);
      }
      ObstructedIff(reg, e);
    }
  }

  lemma ObstructedIff(reg: Registry, e: Exposure)
    requires Safe(reg) && forall k :: k in reg ==>
      (ProtocolsOverlap(reg[k].protocol, e.protocol) <==> Transports(reg[k].protocol) * Transports(e.protocol) != {})
    ensures (forall k :: k in reg ==> !Obstructs(reg[k], e)) <==>
              forall k :: k in reg && k != e.id && reg[k].publicPort == e.publicPort && e.gatewayID in {"", reg[k].gatewayID} ==>
                Transports(reg[k].protocol) * Transports(e.protocol) == {}
  {
    if k :| k in reg && Obstructs(reg[k], e) {
      assert reg[k].id == k;
    }
  }

  // rules lists, in some order, the rules of all registered exposures but the one called id.
  ghost predicate ListsOthers(reg: Registry, id: string, rules: seq<ForwardingRule>) {
    && (forall k :: k in reg && reg[k].id != id ==> ToForwardingRule(reg[k]) in rules)
    && (forall r :: r in rules ==> exists k :: k in reg && reg[k].id != id && r == ToForwardingRule(reg[k]))
  }

  // The engine's verdict over any such list is the acceptance rule over the registry.
  lemma VerdictIsAcceptance(engine: AllocatorEngine, reg: Registry, e: Exposure, rules: seq<ForwardingRule>, ms: seq<PortMapping>)
    requires ListsOthers(reg, e.id, rules)
    requires ms == [PortMapping(e.publicPort, e.internalPort, e.protocol, e.publicIP, e.internalIP)]
    ensures Acceptable(engine, reg, e) <==>
              (engine.Admissible(RequestFor(e), rules, [], [], None, ms) &&
               ConflictOutcome(e.gatewayID, rules, ms) == AVAILABLE)
  {
    assert AnyReserved(ms) <==> ReservedManagementPort(e.publicPort) by {
      assert ms[0].externalPort == e.publicPort;
    }
    if k :| k in reg && Obstructs(reg[k], e) {
      var r := ToForwardingRule(reg[k]);
      var i :| 0 <= i < |rules| && rules[i] == r;
      assert Clash(e.gatewayID, rules[i], ms[0]);
      assert Clashes(e.gatewayID, rules, ms[0]);
    } else if AnyClash(e.gatewayID, rules, ms) {
      var i :| 0 <= i < |rules| && Clash(e.gatewayID, rules[i], ms[0]);
      assert rules[i] in rules;
      var k :| k in reg && reg[k].id != e.id && rules[i] == ToForwardingRule(reg[k]);
      assert Obstructs(reg[k], e);
    }
  }

  // ------------------------------------------------- operations on the registry

  // Defaults filled in before the registry is consulted.
  function Prepared(e: Exposure): Exposure {
    var p := if e.protocol == "" then e.(protocol := TCP) else e;
    if p.id == "" then p.(id := GeneratedID(p.workloadID, p.publicPort)) else p
  }

  predicate FieldsValid(engine: AllocatorEngine, e: Exposure) {
    && e.workloadID != ""
    && PortInRange(e.publicPort) && PortInRange(e.internalPort)
    && (e.internalIP == "" || engine.validIP(e.internalIP))
    && (e.protocol == "" || KnownProtocol(e.protocol))
  }

  ghost predicate CreateAccepted(engine: AllocatorEngine, reg: Registry, e: Exposure) {
    FieldsValid(engine, e) && Prepared(e).id !in reg && Acceptable(engine, reg, Prepared(e))
  }

  function Registered(e: Exposure): Exposure {
    var p := Prepared(e);
    p.(desiredState := if p.desiredState == ExposureState.NoState then CONFIGURED else p.desiredState,
       actualState := CONFIGURED, syncStatus := InSync)
  }

  function Merged(e: Exposure, u: Exposure): Exposure {
    e.(publicPort := if u.publicPort > 0 then u.publicPort else e.publicPort,
       internalPort := if u.internalPort > 0 then u.internalPort else e.internalPort,
       internalIP := if u.internalIP != "" then u.internalIP else e.internalIP,
       publicIP := if u.publicIP != "" then u.publicIP else e.publicIP,
       protocol := if u.protocol != "" then u.protocol else e.protocol,
       exposureMode := if u.exposureMode != "" then u.exposureMode else e.exposureMode,
       description := if u.description != "" then u.description else e.description)
  }

  function Applied(e: Exposure, ok: bool): Exposure {
    if ok then e.(desiredState := APPLIED, actualState := APPLIED, syncStatus := InSync)
    else e.(desiredState := APPLIED, actualState := UNCONFIGURED, syncStatus := OutOfSync)
  }

  // A registered exposure is the one asked for, on TCP and under an id of its own
  // where none was given; it is configured, in sync, and desired as asked.
  lemma RegisteredAsAsked(e: Exposure)
    ensures var r := Registered(e);
            && r == e.(id := r.id, protocol := r.protocol, desiredState := r.desiredState, actualState := CONFIGURED, syncStatus := InSync)
            && r.id == (if e.id != "" then e.id else "exp-" + e.workloadID + "-" + SignedDecimal(e.publicPort))
            && (if e.protocol == "" then r.protocol == TCP else r.protocol == e.protocol)
            && (if e.desiredState == ExposureState.NoState then r.desiredState == CONFIGURED else r.desiredState == e.desiredState)
  {
  }

  // An update takes what is given and keeps what is not; id, workload, gateway and
  // states it never changes. Repeating it changes nothing.
  lemma MergedTakesWhatIsGiven(e: Exposure, u: Exposure)
    ensures var m := Merged(e, u);
            && (if u.publicPort <= 0 then m.publicPort == e.publicPort else m.publicPort == u.publicPort)
            && (if u.internalPort <= 0 then m.internalPort == e.internalPort else m.internalPort == u.internalPort)
            && (if u.internalIP == "" then m.internalIP == e.internalIP else m.internalIP == u.internalIP)
            && (if u.publicIP == "" then m.publicIP == e.publicIP else m.publicIP == u.publicIP)
            && (if u.protocol == "" then m.protocol == e.protocol else m.protocol == u.protocol)
            && (if u.exposureMode == "" then m.exposureMode == e.exposureMode else m.exposureMode == u.exposureMode)
            && (if u.description == "" then m.description == e.description else m.description == u.description)
            && m.id == e.id && m.workloadID == e.workloadID && m.workloadName == e.workloadName && m.gatewayID == e.gatewayID
            && m.desiredState == e.desiredState && m.actualState == e.actualState && m.syncStatus == e.syncStatus
            && Merged(m, u) == m
  {
  }

  // An apply always makes the exposure desired; observed and in sync it is exactly
  // when the driver succeeded. Nothing else changes.
  lemma AppliedSaysWhether(e: Exposure, ok: bool)
    ensures var a := Applied(e, ok);
            && a == e.(desiredState := APPLIED, actualState := a.actualState, syncStatus := a.syncStatus)
            && (if ok then a.actualState == APPLIED && a.syncStatus == InSync
                else a.actualState == UNCONFIGURED && a.syncStatus == OutOfSync)
  {
  }

  datatype Observation = NoDriver | DriverError | Seen(active: bool)

  function Reconciled(e: Exposure, observed: Observation): Exposure {
    match observed
    case NoDriver => e.(syncStatus := InSync)
    case DriverError => e
    case Seen(active) =>
      var actual := if active then APPLIED else UNCONFIGURED;
      e.(actualState := actual, syncStatus := if e.desiredState == actual then InSync else OutOfSync)
  }

  function MigrateOne(reg: Registry, e: Exposure): Registry { if e.id in reg then reg else reg[e.id := e] }

  function Migrated(reg: Registry, workloadID: string, workloadName: string, mode: string, rules: seq<ForwardingRule>): Registry {
    if rules == [] then reg
    else MigrateOne(Migrated(reg, workloadID, workloadName, mode, rules[..|rules| - 1]),
                    ConvertForwardingRule(rules[|rules| - 1], workloadID, workloadName, mode))
  }

  // The exposure being changed does not stand in its own way.
  lemma AcceptableIgnoresSelf(engine: AllocatorEngine, reg: Registry, e: Exposure)
    requires Keyed(reg) && e.id in reg
    ensures Acceptable(engine, reg[e.id := e], e) <==> Acceptable(engine, reg, e)
  {
    var after := reg[e.id := e];
    assert forall k :: k in reg && k != e.id ==> after[k] == reg[k];
    assert !Obstructs(after[e.id], e) && !Obstructs(reg[e.id], e);
  }

  // ----------------------------------------------------------- single results

  lemma CreateKeepsSafe(engine: AllocatorEngine, reg: Registry, e: Exposure)
    requires Safe(reg) && CreateAccepted(engine, reg, e)
    ensures Safe(reg[Prepared(e).id := Registered(e)])
  {
    PlacingKeepsSafe(engine, reg, Registered(e));
  }

  // A port that no exposure uses never meets a conflict: the exposure is
  // accepted as soon as its id is unused and its fields are valid.
  lemma UnusedPortIsAccepted(engine: AllocatorEngine, reg: Registry, e: Exposure)
    requires Keyed(reg) && !PortInUse(reg, e.publicPort) && !ReservedManagementPort(e.publicPort)
    requires FieldsValid(engine, e) && TrimSpace(e.workloadID) != "" && TrimSpace(e.internalIP) != ""
    requires engine.validIP(e.internalIP) && (e.publicIP == "" || engine.validIP(e.publicIP))
    requires Prepared(e).id !in reg
    ensures CreateAccepted(engine, reg, e)
  {
    forall k | k in reg ensures !Obstructs(reg[k], Prepared(e)) {
      assert reg[k].publicPort != e.publicPort;
    }
  }

  // Placing an acceptable exposure under its id keeps the registry safe.
  lemma PlacingKeepsSafe(engine: AllocatorEngine, reg: Registry, e: Exposure)
    requires Safe(reg) && Acceptable(engine, reg, e)
    ensures Safe(reg[e.id := e])
  {
    var after := reg[e.id := e];
    forall j, k | j in after && k in after && j != k ensures !SameClaim(after[j], after[k]) {
      if j == e.id {
        assert !Obstructs(reg[k], e);
      } else if k == e.id {
        assert !Obstructs(reg[j], e);
      }
    }
  }

  // An in-place write keeps the registry safe exactly when the written exposure
  // is well formed and its endpoint is unclaimed. The code performs the write
  // before it checks, and does not undo it when the check fails.
  lemma WriteKeepsSafeIff(reg: Registry, id: string, u: Exposure)
    requires Safe(reg) && id in reg
    ensures Safe(reg[id := Merged(reg[id], u)]) <==>
              (Wellformed(Merged(reg[id], u)) && Unclaimed(reg, Merged(reg[id], u)))
  {
    var e := Merged(reg[id], u);
    var after := reg[id := e];
    if Safe(after) {
      assert Wellformed(after[id]);
      forall k | k in reg && k != e.id ensures !SameClaim(reg[k], e) {
        assert !SameClaim(after[k], after[id]);
      }
    }
    if Wellformed(e) && Unclaimed(reg, e) {
      forall j, k | j in after && k in after && j != k ensures !SameClaim(after[j], after[k]) {
        if j == id {
          assert !SameClaim(reg[k], e);
        } else if k == id {
          assert !SameClaim(reg[j], e);
        }
      }
    }
  }

  // A rejected update that nevertheless leaves two exposures on one endpoint.
  lemma RejectedUpdateBreaksSafe(engine: AllocatorEngine) returns (reg: Registry, u: Exposure)
    ensures Safe(reg) && "b" in reg
    ensures !Acceptable(engine, reg, Merged(reg["b"], u))
    ensures !Safe(reg["b" := Merged(reg["b"], u)])
  {
    var a := Exposure("a", "w1", "w1", "", "", "", 8080, "10.0.0.1", 80, TCP, CONFIGURED, CONFIGURED, InSync, "");
    var b := a.(id := "b", workloadID := "w2", publicPort := 9090);
    reg := map["a" := a, "b" := b];
    u := b.(publicPort := 8080);
    assert "a" != "b";
    assert Obstructs(reg["a"], Merged(b, u));
    var after := reg["b" := Merged(b, u)];
    assert SameClaim(after["a"], after["b"]);
  }

  // Migration inserts unvalidated rules: one inserted exposure keeps the
  // registry safe exactly when it is well formed and its endpoint is unclaimed.
  lemma MigrateOneKeepsSafeIff(reg: Registry, e: Exposure)
    requires Safe(reg)
    ensures Safe(MigrateOne(reg, e)) <==> (e.id in reg || (Wellformed(e) && Unclaimed(reg, e)))
  {
    if e.id !in reg {
      var after := MigrateOne(reg, e);
      if Safe(after) {
        assert Wellformed(after[e.id]);
        forall k | k in reg && k != e.id ensures !SameClaim(reg[k], e) {
          assert !SameClaim(after[k], after[e.id]);
        }
      }
      if Wellformed(e) && Unclaimed(reg, e) {
        forall j, k | j in after && k in after && j != k ensures !SameClaim(after[j], after[k]) {
          if j == e.id {
            assert !SameClaim(reg[k], e);
          } else if k == e.id {
            assert !SameClaim(reg[j], e);
          }
        }
      }
    }
  }

  // Running the migration again, on any later registry that still has the
  // migrated ids, inserts nothing.
  lemma {:induction false} MigrationIdempotent(
    reg: Registry, workloadID: string, workloadName: string, mode: string, rules: seq<ForwardingRule>, later: Registry)
    requires Migrated(reg, workloadID, workloadName, mode, rules).Keys <= later.Keys
    ensures Migrated(later, workloadID, workloadName, mode, rules) == later
    ensures reg.Keys <= Migrated(reg, workloadID, workloadName, mode, rules).Keys
  {
    if rules != [] {
      MigrationIdempotent(reg, workloadID, workloadName, mode, rules[..|rules| - 1], later);
    }
  }

  // --------------------------------------------------------------- whole runs

  datatype ManagerState = ManagerState(registry: Registry, disk: Registry)

  // saved tells whether the store write of the call succeeded.
  datatype Event =
    | Create(exposure: Exposure, saved: bool)
    | Update(id: string, update: Exposure, saved: bool)
    | Insert(exposure: Exposure, saved: bool)  // one migrated rule
    | Apply(id: string, applied: bool, saved: bool)
    | ReconcileOne(id: string, observed: Observation, saved: bool)
    | ReconcileEvery(reports: map<string, Observation>, saved: bool)
    | Delete(id: string, saved: bool)
    | Restart(readable: bool)

  function Put(st: ManagerState, reg: Registry, saved: bool): ManagerState {
    ManagerState(reg, if saved then reg else st.disk)
  }

  function ReconciledAll(reg: Registry, reports: map<string, Observation>): Registry {
    map k | k in reg :: if k in reports then Reconciled(reg[k], reports[k]) else reg[k]
  }

  // A registry whose entries were all reconciled is the reconciled registry.
  lemma ReconciledAllIs(reg: Registry, after: Registry, reports: map<string, Observation>)
    requires after.Keys == reg.Keys
    requires forall k :: k in reg ==> after[k] == if k in reports then Reconciled(reg[k], reports[k]) else reg[k]
    ensures after == ReconciledAll(reg, reports)
  {
  }

  ghost function AfterCreate(engine: AllocatorEngine, st: ManagerState, e: Exposure, saved: bool): ManagerState {
    if CreateAccepted(engine, st.registry, e) && saved
    then Put(st, st.registry[Prepared(e).id := Registered(e)], true) else st
  }

  ghost function AfterUpdate(engine: AllocatorEngine, st: ManagerState, id: string, u: Exposure, saved: bool): ManagerState {
    var reg := st.registry;
    if id in reg
    then Put(st, reg[id := Merged(reg[id], u)], saved && Acceptable(engine, reg, Merged(reg[id], u))) else st
  }

  function AfterInsert(st: ManagerState, e: Exposure, saved: bool): ManagerState {
    Put(st, MigrateOne(st.registry, e), saved)
  }

  function AfterApply(st: ManagerState, id: string, applied: bool, saved: bool): ManagerState {
    if id in st.registry then Put(st, st.registry[id := Applied(st.registry[id], applied)], saved) else st
  }

  function AfterReconcile(st: ManagerState, id: string, observed: Observation, saved: bool): ManagerState {
    if id in st.registry then Put(st, st.registry[id := Reconciled(st.registry[id], observed)], saved) else st
  }

  function AfterReconcileEvery(st: ManagerState, reports: map<string, Observation>, saved: bool): ManagerState {
    Put(st, ReconciledAll(st.registry, reports), saved)
  }

  function AfterDelete(st: ManagerState, id: string, saved: bool): ManagerState {
    if id in st.registry then Put(st, st.registry - {id}, saved) else st
  }

  ghost function After(engine: AllocatorEngine, st: ManagerState, ev: Event): ManagerState {
    match ev
    case Create(e, saved) => AfterCreate(engine, st, e, saved)
    case Update(id, u, saved) => AfterUpdate(engine, st, id, u, saved)
    case Insert(e, saved) => AfterInsert(st, e, saved)
    case Apply(id, applied, saved) => AfterApply(st, id, applied, saved)
    case ReconcileOne(id, observed, saved) => AfterReconcile(st, id, observed, saved)
    case ReconcileEvery(reports, saved) => AfterReconcileEvery(st, reports, saved)
    case Delete(id, saved) => AfterDelete(st, id, saved)
    case Restart(readable) => ManagerState(if readable then st.disk else map[], st.disk)
  }

  // The writes that the code performs without a check, or before it.
  ghost predicate Harmless(reg: Registry, ev: Event) {
    match ev
    case Update(id, u, _) => id in reg ==> Wellformed(Merged(reg[id], u)) && Unclaimed(reg, Merged(reg[id], u))
    case Insert(e, _) => e.id in reg || (Wellformed(e) && Unclaimed(reg, e))
    case _ => true
  }

  // Every update that the validation accepts is harmless.
  lemma AcceptedIsHarmless(engine: AllocatorEngine, reg: Registry, id: string, u: Exposure, saved: bool)
    requires Keyed(reg) && id in reg && Acceptable(engine, reg, Merged(reg[id], u))
    ensures Harmless(reg, Update(id, u, saved))
  {
    var e := Merged(reg[id], u);
    forall k | k in reg && k != e.id ensures !SameClaim(reg[k], e) {
      assert !Obstructs(reg[k], e);
    }
  }

  ghost function Run(engine: AllocatorEngine, st: ManagerState, events: seq<Event>): ManagerState {
    if events == [] then st else After(engine, Run(engine, st, events[..|events| - 1]), events[|events| - 1])
  }

  // Field changes that leave the endpoint alone.
  lemma TouchKeepsSafe(reg: Registry, after: Registry)
    requires Safe(reg) && after.Keys == reg.Keys
    requires forall k :: k in reg ==>
      after[k].id == reg[k].id && after[k].gatewayID == reg[k].gatewayID &&
      after[k].publicPort == reg[k].publicPort && after[k].protocol == reg[k].protocol
    ensures Safe(after)
  {
    forall j, k | j in after && k in after && j != k ensures !SameClaim(after[j], after[k]) {
      assert !SameClaim(reg[j], reg[k]);
    }
  }

  lemma CheckedStepSafe(engine: AllocatorEngine, st: ManagerState, ev: Event)
    requires Safe(st.registry) && Safe(st.disk)
    requires ev.Create? || ev.Delete? || ev.Restart?
    ensures Safe(After(engine, st, ev).registry) && Safe(After(engine, st, ev).disk)
  {
    if ev.Create? && CreateAccepted(engine, st.registry, ev.exposure) {
      CreateKeepsSafe(engine, st.registry, ev.exposure);
    }
  }

  lemma ApplyKeepsSafe(st: ManagerState, id: string, applied: bool, saved: bool)
    requires Safe(st.registry) && Safe(st.disk)
    ensures Safe(AfterApply(st, id, applied, saved).registry) && Safe(AfterApply(st, id, applied, saved).disk)
  {
    if id in st.registry {
      TouchKeepsSafe(st.registry, st.registry[id := Applied(st.registry[id], applied)]);
    }
  }

  lemma ReconcileKeepsSafe(st: ManagerState, id: string, observed: Observation, saved: bool)
    requires Safe(st.registry) && Safe(st.disk)
    ensures Safe(AfterReconcile(st, id, observed, saved).registry) && Safe(AfterReconcile(st, id, observed, saved).disk)
  {
    if id in st.registry {
      TouchKeepsSafe(st.registry, st.registry[id := Reconciled(st.registry[id], observed)]);
    }
  }

  lemma ReconcileEveryKeepsSafe(st: ManagerState, reports: map<string, Observation>, saved: bool)
    requires Safe(st.registry) && Safe(st.disk)
    ensures Safe(AfterReconcileEvery(st, reports, saved).registry) && Safe(AfterReconcileEvery(st, reports, saved).disk)
  {
    ReconciledAllSafe(st.registry, reports);
  }

  lemma ReconciledAllSafe(reg: Registry, reports: map<string, Observation>)
    requires Safe(reg)
    ensures Safe(ReconciledAll(reg, reports))
  {
    TouchKeepsSafe(reg, ReconciledAll(reg, reports));
  }

  lemma UncheckedStepSafeIff(engine: AllocatorEngine, st: ManagerState, ev: Event)
    requires Safe(st.registry) && Safe(st.disk)
    requires ev.Update? || ev.Insert?
    ensures Safe(After(engine, st, ev).registry) <==> Harmless(st.registry, ev)
    ensures Harmless(st.registry, ev) ==> Safe(After(engine, st, ev).disk)
  {
    match ev
    case Update(id, u, saved) =>
      if id in st.registry { WriteKeepsSafeIff(st.registry, id, u); }
    case Insert(e, saved) => MigrateOneKeepsSafeIff(st.registry, e);
  }

  lemma StepSafeIff(engine: AllocatorEngine, st: ManagerState, ev: Event)
    requires Safe(st.registry) && Safe(st.disk)
    ensures Safe(After(engine, st, ev).registry) <==> Harmless(st.registry, ev)
    ensures Harmless(st.registry, ev) ==> Safe(After(engine, st, ev).disk)
  {
    if ev.Update? || ev.Insert? {
      UncheckedStepSafeIff(engine, st, ev);
    } else if ev.Create? || ev.Delete? || ev.Restart? {
      CheckedStepSafe(engine, st, ev);
    } else if ev.Apply? {
      ApplyKeepsSafe(st, ev.id, ev.applied, ev.saved);
    } else if ev.ReconcileOne? {
      ReconcileKeepsSafe(st, ev.id, ev.observed, ev.saved);
    } else {
      ReconcileEveryKeepsSafe(st, ev.reports, ev.saved);
    }
  }

  ghost predicate AlwaysSafe(engine: AllocatorEngine, st: ManagerState, events: seq<Event>) {
    Safe(Run(engine, st, events).registry) &&
    (events == [] || AlwaysSafe(engine, st, events[..|events| - 1]))
  }

  ghost predicate AlwaysHarmless(engine: AllocatorEngine, st: ManagerState, events: seq<Event>) {
    events == [] ||
    (AlwaysHarmless(engine, st, events[..|events| - 1]) &&
     Harmless(Run(engine, st, events[..|events| - 1]).registry, events[|events| - 1]))
  }

  // Over every run of creates, updates, migrations, applies, reconciles,
  // deletes and restarts, with any save failing: no two registered exposures
  // ever claim one endpoint and none ever uses a management port, exactly when
  // every unchecked write of the run was harmless.
  lemma {:induction false} RunSafeIff(engine: AllocatorEngine, st: ManagerState, events: seq<Event>)
    requires Safe(st.registry) && Safe(st.disk)
    ensures AlwaysSafe(engine, st, events) <==> AlwaysHarmless(engine, st, events)
    ensures AlwaysSafe(engine, st, events) ==> Safe(Run(engine, st, events).disk)
  {
    if events != [] {
      RunSafeIff(engine, st, events[..|events| - 1]);
      if AlwaysSafe(engine, st, events[..|events| - 1]) {
        StepSafeIff(engine, Run(engine, st, events[..|events| - 1]), events[|events| - 1]);
      }
    }
  }
}
