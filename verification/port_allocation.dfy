// The allocation engine: validation of a port request, the first-fit search
// of an allocation pool, and conflict analysis against existing rules.
module PortAllocation {
  import opened Text

  // ------------------------------------------------------------ vocabulary

  type Protocol = string
  const TCP: Protocol := "TCP"
  const UDP: Protocol := "UDP"
  const TCP_UDP: Protocol := "TCP_UDP"

  predicate KnownProtocol(p: Protocol) { p == TCP || p == UDP || p == TCP_UDP }

  predicate ProtocolsOverlap(p: Protocol, q: Protocol) {
    p == TCP_UDP || q == TCP_UDP || p == q
  }

  datatype Transport = OverTCP | OverUDP

  function Transports(p: Protocol): set<Transport> {
    if p == TCP then {OverTCP} else if p == UDP then {OverUDP} else if p == TCP_UDP then {OverTCP, OverUDP} else {}
  }

  // For the three protocols the engine knows, overlap is a shared transport.
  lemma OverlapIsSharedTransport(p: Protocol, q: Protocol)
    requires KnownProtocol(p) && KnownProtocol(q)
    ensures ProtocolsOverlap(p, q) <==> Transports(p) * Transports(q) != {}
  {
    assert OverTCP in Transports(TCP) * Transports(TCP_UDP);
    assert OverUDP in Transports(UDP) * Transports(TCP_UDP);
    assert OverTCP in Transports(TCP) && OverUDP in Transports(UDP);
    assert Transports(TCP) * Transports(UDP) == {};
    if ProtocolsOverlap(p, q) {
      if p == UDP || q == UDP {
        assert OverUDP in Transports(p) * Transports(q);
      } else {
        assert OverTCP in Transports(p) * Transports(q);
      }
    }
  }

  datatype Mode = SINGLE | RANGE | EXPLICIT | UnknownMode(name: string)

  datatype ExposureState = NoState | UNCONFIGURED | CONFIGURED | REQUESTED | APPLIED | VERIFIED | FAILED

  datatype ForwardingRule = ForwardingRule(
    id: string, gatewayID: string, publicIP: string, publicPort: int, protocol: Protocol,
    destinationIP: string, destinationPort: int, workloadID: string, state: ExposureState,
    description: string, externalPort: int, internalIP: string, internalPort: int)

  datatype WorkloadNetworkConfig = WorkloadNetworkConfig(id: string, workloadID: string, privateIPv4: string)

  datatype GatewayConfig = GatewayConfig(id: string, externallyManaged: bool)

  datatype AllocationPool = AllocationPool(name: string, startPort: int, endPort: int, isConfigured: bool)

  datatype PortMapping = PortMapping(
    externalPort: int, internalPort: int, protocol: Protocol, publicIP: string, destinationIP: string)

  datatype PortAllocationRequest = PortAllocationRequest(
    workloadID: string, gatewayID: string, mode: Mode,
    externalStartPort: int, externalEndPort: int, internalStartPort: int, internalEndPort: int,
    protocol: Protocol, publicIP: string, destinationIP: string, explicitRules: seq<ForwardingRule>)

  datatype ConflictStatus =
    | AVAILABLE | ALREADY_ALLOCATED_BY_MYSTIC | RESERVED_MANAGEMENT | UNKNOWN | ALLOCATION_POOL_UNCONFIGURED

  datatype Message =
    | WorkloadIDRequired
    | DestinationIPRequired
    | InvalidDestinationIP(ip: string)
    | InvalidPublicIP(ip: string)
    | InvalidProtocol(protocol: Protocol)
    | TargetWorkloadMissing(id: string)
    | DestinationDiffers(ip: string, primary: string)
    | TargetGatewayMissing(id: string)
    | GatewayNotManaged
    | PortOutOfRange(port: int)
    | RangeReversed(first: int, last: int)
    | RangeSizesDiffer(external: int, internal: int)
    | PoolRangeInvalid
    | PoolExhausted(size: int, pool: string)
    | PoolUnconfigured
    | NoExplicitRules
    | UnrecognisedMode(name: string)
    | DuplicatePort(port: int, protocol: Protocol)
    | ReservedPort(port: int)
    | PortTaken(port: int, protocol: Protocol, owner: string)

  datatype ConflictDetail = ConflictDetail(port: int, protocol: Protocol, status: ConflictStatus, message: Message)

  datatype ValidationResult = ValidationResult(
    isValid: bool, status: ConflictStatus, conflicts: seq<ConflictDetail>, warnings: seq<Message>,
    blockers: seq<Message>, normalizedMappings: seq<PortMapping>, allocationState: ExposureState)

  // -------------------------------------------- what a valid request means

  predicate PortInRange(port: int) { 1 <= port <= 65535 }

  predicate ReservedManagementPort(port: int) { port == 22 || port == 8443 }

  function RulePort(r: ForwardingRule): int { if r.externalPort == 0 then r.publicPort else r.externalPort }

  function RuleInternalPort(r: ForwardingRule): int {
    if r.internalPort == 0 then r.destinationPort else r.internalPort
  }

  ghost predicate WorkloadKnown(id: string, workloads: seq<WorkloadNetworkConfig>) {
    exists k :: 0 <= k < |workloads| && (workloads[k].workloadID == id || workloads[k].id == id)
  }

  ghost predicate GatewayKnown(id: string, gateways: seq<GatewayConfig>) {
    exists k :: 0 <= k < |gateways| && gateways[k].id == id
  }

  // A port nobody may hand out (reserved) or that an overlapping rule holds is not free.
  predicate RuleHolds(r: ForwardingRule, port: int, proto: Protocol) {
    RulePort(r) == port && ProtocolsOverlap(r.protocol, proto)
  }

  ghost predicate PortFree(port: int, proto: Protocol, rules: seq<ForwardingRule>) {
    !ReservedManagementPort(port) && forall k :: 0 <= k < |rules| ==> !RuleHolds(rules[k], port, proto)
  }

  ghost predicate RunFree(first: int, last: int, proto: Protocol, rules: seq<ForwardingRule>) {
    forall q :: first <= q <= last ==> PortFree(q, proto, rules)
  }

  predicate PoolUsable(pool: AllocationPool) { pool.startPort > 0 && pool.endPort >= pool.startPort }

  // A run of size free ports starting at start lies inside the pool.
  ghost predicate Fits(pool: AllocationPool, size: int, proto: Protocol, rules: seq<ForwardingRule>, start: int) {
    size >= 1 && pool.startPort <= start && start + size - 1 <= pool.endPort &&
    RunFree(start, start + size - 1, proto, rules)
  }

  ghost predicate FirstFit(pool: AllocationPool, size: int, proto: Protocol, rules: seq<ForwardingRule>, start: int) {
    PoolUsable(pool) && Fits(pool, size, proto, rules, start) &&
    forall s :: Fits(pool, size, proto, rules, s) ==> start <= s
  }

  predicate PoolRequested(req: PortAllocationRequest) {
    req.mode == RANGE && req.externalStartPort == 0 && req.externalEndPort == 0
  }

  function InternalSize(req: PortAllocationRequest): int { req.internalEndPort - req.internalStartPort + 1 }

  predicate InternalRangeOk(req: PortAllocationRequest) {
    1 <= req.internalStartPort <= req.internalEndPort <= 65535
  }

  // ms maps size consecutive external ports one to one to consecutive internal ports.
  ghost predicate IsRange(req: PortAllocationRequest, externalStart: int, size: int, ms: seq<PortMapping>) {
    |ms| == size &&
    forall i :: 0 <= i < |ms| ==>
      ms[i] == PortMapping(externalStart + i, req.internalStartPort + i, req.protocol, req.publicIP, req.destinationIP)
  }

  predicate Resolves(req: PortAllocationRequest, rule: ForwardingRule, m: PortMapping) {
    && m.externalPort == RulePort(rule)
    && m.internalPort == RuleInternalPort(rule)
    && m.protocol == (if rule.protocol == "" then req.protocol else rule.protocol)
    && m.publicIP == rule.publicIP
    && m.destinationIP == (if rule.internalIP != "" then rule.internalIP
                           else if rule.destinationIP != "" then rule.destinationIP else req.destinationIP)
  }

  // ms is the list of port mappings that the request stands for.
  ghost predicate Normalizes(
    req: PortAllocationRequest, rules: seq<ForwardingRule>, pool: Option<AllocationPool>, ms: seq<PortMapping>)
  {
    match req.mode
    case SINGLE =>
      PortInRange(req.externalStartPort) && PortInRange(req.internalStartPort) &&
      ms == [PortMapping(req.externalStartPort, req.internalStartPort, req.protocol, req.publicIP, req.destinationIP)]
    case RANGE =>
      InternalRangeOk(req) &&
      if PoolRequested(req) then
        pool.Some? && pool.value.isConfigured && |ms| > 0 &&
        FirstFit(pool.value, InternalSize(req), req.protocol, rules, ms[0].externalPort) &&
        ms[0].externalPort + InternalSize(req) - 1 <= 65535 &&
        IsRange(req, ms[0].externalPort, InternalSize(req), ms)
      else
        1 <= req.externalStartPort <= req.externalEndPort <= 65535 &&
        req.externalEndPort - req.externalStartPort + 1 == InternalSize(req) &&
        IsRange(req, req.externalStartPort, InternalSize(req), ms)
    case EXPLICIT =>
      |ms| > 0 && |ms| == |req.explicitRules| &&
      forall i :: 0 <= i < |ms| ==>
        Resolves(req, req.explicitRules[i], ms[i]) && PortInRange(ms[i].externalPort) && PortInRange(ms[i].internalPort)
    case UnknownMode(_) => false
  }

  ghost predicate NoRepeats(ms: seq<PortMapping>) {
    forall i, j :: 0 <= i < j < |ms| ==> ms[i].externalPort != ms[j].externalPort || ms[i].protocol != ms[j].protocol
  }

  predicate Clash(gatewayID: string, r: ForwardingRule, m: PortMapping) {
    RuleHolds(r, m.externalPort, m.protocol) && (r.gatewayID == gatewayID || gatewayID == "")
  }

  ghost predicate Clashes(gatewayID: string, rules: seq<ForwardingRule>, m: PortMapping) {
    exists k :: 0 <= k < |rules| && Clash(gatewayID, rules[k], m)
  }

  ghost predicate AnyClash(gatewayID: string, rules: seq<ForwardingRule>, ms: seq<PortMapping>) {
    exists i :: 0 <= i < |ms| && Clashes(gatewayID, rules, ms[i])
  }

  ghost predicate AnyReserved(ms: seq<PortMapping>) {
    exists i :: 0 <= i < |ms| && ReservedManagementPort(ms[i].externalPort)
  }

  ghost function ConflictOutcome(gatewayID: string, rules: seq<ForwardingRule>, ms: seq<PortMapping>): ConflictStatus {
    if AnyClash(gatewayID, rules, ms) then ALREADY_ALLOCATED_BY_MYSTIC
    else if AnyReserved(ms) then RESERVED_MANAGEMENT
    else AVAILABLE
  }

  ghost predicate Unobjectionable(gatewayID: string, rules: seq<ForwardingRule>, ms: seq<PortMapping>) {
    NoRepeats(ms) && !AnyClash(gatewayID, rules, ms)
  }

  ghost function NextStatus(
    gatewayID: string, rules: seq<ForwardingRule>, m: PortMapping, before: ConflictStatus): ConflictStatus
  {
    if Clashes(gatewayID, rules, m) then ALREADY_ALLOCATED_BY_MYSTIC
    else if ReservedManagementPort(m.externalPort) && before == AVAILABLE then RESERVED_MANAGEMENT
    else before
  }

  function PortKey(m: PortMapping): string { SignedDecimal(m.externalPort) + "/" + m.protocol }

  lemma PortKeyInjective(m: PortMapping, n: PortMapping)
    requires PortKey(m) == PortKey(n)
    ensures m.externalPort == n.externalPort && m.protocol == n.protocol
  {
    PortKeySplits(m);
    PortKeySplits(n);
    var a, b := Split(PortKey(m), '/'), Split(PortKey(n), '/');
    assert a[0] == SignedDecimal(m.externalPort) && b[0] == SignedDecimal(n.externalPort);
    SignedDecimalInjective(m.externalPort, n.externalPort);
    assert a[1..] == Split(m.protocol, '/') && b[1..] == Split(n.protocol, '/');
    SplitInjective(m.protocol, n.protocol, '/');
  }

  lemma PortKeySplits(m: PortMapping)
    ensures Split(PortKey(m), '/') == [SignedDecimal(m.externalPort)] + Split(m.protocol, '/')
  {
    var port := SignedDecimal(m.externalPort);
    if '/' in port {
      SignedDecimalHas(m.externalPort, '/');
    }
    SplitClean(port, '/');
    SplitAppend(port, '/', m.protocol);
    assert PortKey(m) == port + ['/'] + m.protocol;
  }

  // The declarative meaning of a request has at most one reading.
  lemma NormalizesUnique(
    req: PortAllocationRequest, rules: seq<ForwardingRule>, pool: Option<AllocationPool>,
    ms: seq<PortMapping>, ns: seq<PortMapping>)
    requires Normalizes(req, rules, pool, ms) && Normalizes(req, rules, pool, ns)
    ensures ms == ns
  {
    if req.mode == EXPLICIT {
      forall i | 0 <= i < |ms| ensures ms[i] == ns[i] {
        assert Resolves(req, req.explicitRules[i], ms[i]) && Resolves(req, req.explicitRules[i], ns[i]);
      }
    } else if PoolRequested(req) {
      assert ms[0].externalPort == ns[0].externalPort;
    }
  }

  // ------------------------------------------------------------- the engine

  // validIP stands for net.ParseIP answering something.
  datatype AllocatorEngine = AllocatorEngine(validIP: string -> bool) {

    ghost predicate BasicsHold(
      req: PortAllocationRequest, workloads: seq<WorkloadNetworkConfig>, gateways: seq<GatewayConfig>)
    {
      && TrimSpace(req.workloadID) != ""
      && TrimSpace(req.destinationIP) != "" && validIP(req.destinationIP)
      && (req.publicIP == "" || validIP(req.publicIP))
      && KnownProtocol(req.protocol)
      && (workloads == [] || WorkloadKnown(req.workloadID, workloads))
      && (req.gatewayID == "" || gateways == [] || GatewayKnown(req.gatewayID, gateways))
    }

    // Everything a request must satisfy, ms being the mappings it stands for.
    ghost predicate Admissible(
      req: PortAllocationRequest, rules: seq<ForwardingRule>, workloads: seq<WorkloadNetworkConfig>,
      gateways: seq<GatewayConfig>, pool: Option<AllocationPool>, ms: seq<PortMapping>)
    {
      && BasicsHold(req, workloads, gateways)
      && Normalizes(req, rules, pool, ms)
      && NoRepeats(ms)
      && !AnyClash(req.gatewayID, rules, ms)
    }

    method ValidateAllocation(
      req: PortAllocationRequest, rules: seq<ForwardingRule>, workloads: seq<WorkloadNetworkConfig>,
      gateways: seq<GatewayConfig>, pool: Option<AllocationPool>) returns (res: ValidationResult)
      // exact, in both directions
      ensures res.isValid ==> Admissible(req, rules, workloads, gateways, pool, res.normalizedMappings)
      ensures forall ms :: Admissible(req, rules, workloads, gateways, pool, ms) ==>
                             res.isValid && res.normalizedMappings == ms
      ensures res.isValid <==> res.blockers == []
      ensures res.allocationState == if res.isValid then CONFIGURED else FAILED
      // the reported status, for every request
      ensures !BasicsHold(req, workloads, gateways) ==> res.status == UNKNOWN
      ensures BasicsHold(req, workloads, gateways) && PoolRequested(req) && (pool.None? || !pool.value.isConfigured) ==>
                res.status == ALLOCATION_POOL_UNCONFIGURED
      ensures (BasicsHold(req, workloads, gateways) && !(PoolRequested(req) && (pool.None? || !pool.value.isConfigured)) &&
               forall ms :: !Normalizes(req, rules, pool, ms)) ==> res.status == AVAILABLE
      ensures forall ms :: BasicsHold(req, workloads, gateways) && Normalizes(req, rules, pool, ms) ==>
                             res.status == ConflictOutcome(req.gatewayID, rules, ms)
      ensures res.isValid ==> forall c :: c in res.conflicts ==> c.status == RESERVED_MANAGEMENT
    {
      var blockers, warnings := CheckBasics(req, workloads, gateways);
      if blockers != [] {
        return ValidationResult(false, UNKNOWN, [], warnings, blockers, [], FAILED);
      }
      if PoolRequested(req) && (pool.None? || !pool.value.isConfigured) {
        return ValidationResult(false, ALLOCATION_POOL_UNCONFIGURED, [], warnings, [PoolUnconfigured], [], FAILED);
      }
      var mappings;
      blockers, mappings := Normalize(req, rules, pool);
      if blockers != [] {
        return ValidationResult(false, AVAILABLE, [], warnings, blockers, mappings, FAILED);
      }
      forall ms | Normalizes(req, rules, pool, ms) ensures ms == mappings {
        NormalizesUnique(req, rules, pool, ms, mappings);
      }
      var conflicts, status, reserved;
      conflicts, reserved, blockers, status := AnalyseConflicts(req.gatewayID, rules, mappings);
      var valid := blockers == [];
      res := ValidationResult(valid, status, conflicts, warnings + reserved, blockers, mappings,
                              if valid then CONFIGURED else FAILED);
    }

    method CheckBasics(
      req: PortAllocationRequest, workloads: seq<WorkloadNetworkConfig>, gateways: seq<GatewayConfig>)
      returns (blockers: seq<Message>, warnings: seq<Message>)
      ensures blockers == [] <==> BasicsHold(req, workloads, gateways)
    {
      blockers, warnings := [], [];
      if TrimSpace(req.workloadID) == "" {
        blockers := blockers + [WorkloadIDRequired];
      }
      if TrimSpace(req.destinationIP) == "" {
        blockers := blockers + [DestinationIPRequired];
      } else if !validIP(req.destinationIP) {
        blockers := blockers + [InvalidDestinationIP(req.destinationIP)];
      }
      if req.publicIP != "" && !validIP(req.publicIP) {
        blockers := blockers + [InvalidPublicIP(req.publicIP)];
      }
      if !KnownProtocol(req.protocol) {
        blockers := blockers + [InvalidProtocol(req.protocol)];
      }
      if |workloads| > 0 && req.workloadID != "" {
        var target := FindWorkload(req.workloadID, workloads);
        if target.None? {
          blockers := blockers + [TargetWorkloadMissing(req.workloadID)];
        } else if req.destinationIP != "" && target.value.privateIPv4 != "" &&
                  target.value.privateIPv4 != req.destinationIP {
          warnings := warnings + [DestinationDiffers(req.destinationIP, target.value.privateIPv4)];
        }
      }
      if req.gatewayID != "" && |gateways| > 0 {
        var target := FindGateway(req.gatewayID, gateways);
        if target.None? {
          blockers := blockers + [TargetGatewayMissing(req.gatewayID)];
        } else if target.value.externallyManaged {
          warnings := warnings + [GatewayNotManaged];
        }
      }
    }

    static method FindWorkload(id: string, workloads: seq<WorkloadNetworkConfig>)
      returns (target: Option<WorkloadNetworkConfig>)
      ensures target.Some? <==> WorkloadKnown(id, workloads)
      // the first one that matches
      ensures target.Some? ==>
                exists k :: 0 <= k < |workloads| && target.value == workloads[k] &&
                            (workloads[k].workloadID == id || workloads[k].id == id) && !WorkloadKnown(id, workloads[..k])
    {
      for k := 0 to |workloads|
        invariant forall j :: 0 <= j < k ==> workloads[j].workloadID != id && workloads[j].id != id
      {
        if workloads[k].workloadID == id || workloads[k].id == id {
          assert !WorkloadKnown(id, workloads[..k]);
          return Some(workloads[k]);
        }
      }
      return None;
    }

    static method FindGateway(id: string, gateways: seq<GatewayConfig>) returns (target: Option<GatewayConfig>)
      ensures target.Some? <==> GatewayKnown(id, gateways)
      ensures target.Some? ==>
                exists k :: 0 <= k < |gateways| && target.value == gateways[k] && gateways[k].id == id &&
                            !GatewayKnown(id, gateways[..k])
    {
      for k := 0 to |gateways|
        invariant forall j :: 0 <= j < k ==> gateways[j].id != id
      {
        if gateways[k].id == id {
          assert !GatewayKnown(id, gateways[..k]);
          return Some(gateways[k]);
        }
      }
      return None;
    }

    // Either blockers, or the mappings the request stands for.
    static method Normalize(req: PortAllocationRequest, rules: seq<ForwardingRule>, pool: Option<AllocationPool>)
      returns (blockers: seq<Message>, mappings: seq<PortMapping>)
      requires PoolRequested(req) ==> pool.Some? && pool.value.isConfigured
      ensures blockers == [] ==> Normalizes(req, rules, pool, mappings)
      ensures blockers != [] ==> forall ms :: !Normalizes(req, rules, pool, ms)
    {
      blockers, mappings := [], [];
      match req.mode {
        case SINGLE =>
          blockers := PortBlockers(req.externalStartPort) + PortBlockers(req.internalStartPort);
          if blockers == [] {
            mappings := [PortMapping(req.externalStartPort, req.internalStartPort, req.protocol,
                                     req.publicIP, req.destinationIP)];
          }
        case RANGE =>
          blockers, mappings := NormalizeRange(req, rules, pool);
        case EXPLICIT =>
          blockers, mappings := NormalizeExplicit(req);
          if blockers != [] {
            forall ms ensures !Normalizes(req, rules, pool, ms) {
              if |ms| == |mappings| && forall i :: 0 <= i < |ms| ==> Resolves(req, req.explicitRules[i], ms[i]) {
                assert forall i :: 0 <= i < |ms| ==> ms[i] == mappings[i];
              }
            }
          }
        case UnknownMode(name) =>
          blockers := [UnrecognisedMode(name)];
      }
    }

    static function PortBlockers(port: int): (b: seq<Message>)
      ensures b == [] <==> PortInRange(port)
    {
      if PortInRange(port) then [] else [PortOutOfRange(port)]
    }

    static method NormalizeRange(req: PortAllocationRequest, rules: seq<ForwardingRule>, pool: Option<AllocationPool>)
      returns (blockers: seq<Message>, mappings: seq<PortMapping>)
      requires req.mode == RANGE
      requires PoolRequested(req) ==> pool.Some? && pool.value.isConfigured
      ensures blockers == [] ==> Normalizes(req, rules, pool, mappings)
      ensures blockers != [] ==> forall ms :: !Normalizes(req, rules, pool, ms)
    {
      blockers, mappings := [], [];
      var externalStart, externalEnd := req.externalStartPort, req.externalEndPort;
      if PoolRequested(req) {
        if !InternalRangeOk(req) {
          return [PoolRangeInvalid], [];
        }
        var found := FindFreePoolRange(pool, InternalSize(req), req.protocol, rules);
        if found == 0 {
          blockers := [PoolExhausted(InternalSize(req), pool.value.name)];
        } else {
          externalStart, externalEnd := found, found + InternalSize(req) - 1;
        }
      }
      blockers := blockers + PortBlockers(externalStart) + PortBlockers(externalEnd);
      if externalStart > externalEnd {
        blockers := blockers + [RangeReversed(externalStart, externalEnd)];
      }
      blockers := blockers + PortBlockers(req.internalStartPort) + PortBlockers(req.internalEndPort);
      if req.internalStartPort > req.internalEndPort {
        blockers := blockers + [RangeReversed(req.internalStartPort, req.internalEndPort)];
      }
      var size := externalEnd - externalStart + 1;
      if size != InternalSize(req) {
        blockers := blockers + [RangeSizesDiffer(size, InternalSize(req))];
      }
      if blockers == [] {
        for i := 0 to size
          invariant IsRange(req, externalStart, i, mappings)
        {
          mappings := mappings +
            [PortMapping(externalStart + i, req.internalStartPort + i, req.protocol, req.publicIP, req.destinationIP)];
        }
      }
    }

    static method NormalizeExplicit(req: PortAllocationRequest)
      returns (blockers: seq<Message>, mappings: seq<PortMapping>)
      ensures |mappings| == |req.explicitRules|
      ensures forall i :: 0 <= i < |mappings| ==> Resolves(req, req.explicitRules[i], mappings[i])
      ensures blockers == [] <==>
                (|mappings| > 0 &&
                 forall i :: 0 <= i < |mappings| ==>
                   PortInRange(mappings[i].externalPort) && PortInRange(mappings[i].internalPort))
    {
      blockers, mappings := if |req.explicitRules| == 0 then [NoExplicitRules] else [], [];
      for i := 0 to |req.explicitRules|
        invariant |mappings| == i
        invariant forall j :: 0 <= j < i ==> Resolves(req, req.explicitRules[j], mappings[j])
        invariant blockers == [] <==>
                    (|req.explicitRules| > 0 &&
                     forall j :: 0 <= j < i ==>
                       PortInRange(mappings[j].externalPort) && PortInRange(mappings[j].internalPort))
      {
        var rule := req.explicitRules[i];
        blockers := blockers + PortBlockers(RulePort(rule)) + PortBlockers(RuleInternalPort(rule));
        var destination := if rule.internalIP != "" then rule.internalIP
                           else if rule.destinationIP != "" then rule.destinationIP else req.destinationIP;
        mappings := mappings + [PortMapping(RulePort(rule), RuleInternalPort(rule),
                                            if rule.protocol == "" then req.protocol else rule.protocol,
                                            rule.publicIP, destination)];
      }
    }

    // First-fit search: the lowest start of a free run, or 0 when there is none.
    static method FindFreePoolRange(pool: Option<AllocationPool>, size: int, proto: Protocol, rules: seq<ForwardingRule>)
      returns (start: int)
      ensures start != 0 ==> start > 0 && pool.Some? && FirstFit(pool.value, size, proto, rules, start)
      ensures start == 0 ==> pool.None? || !PoolUsable(pool.value) || forall s :: !Fits(pool.value, size, proto, rules, s)
    {
      if pool.None? || !PoolUsable(pool.value) {
        return 0;
      }
      var consecutive, candidate := 0, 0;
      for p := pool.value.startPort to pool.value.endPort + 1
        invariant 0 <= consecutive <= p - pool.value.startPort
        invariant consecutive > 0 ==> candidate == p - consecutive
        invariant RunFree(p - consecutive, p - 1, proto, rules)
        invariant size >= 1 ==> consecutive < size
        // the current run cannot be extended to the left
        invariant p - consecutive == pool.value.startPort || !PortFree(p - consecutive - 1, proto, rules)
        invariant forall s :: Fits(pool.value, size, proto, rules, s) ==> p - consecutive <= s
      {
        var free := IsPortFree(p, proto, rules);
        if free {
          if consecutive == 0 {
            candidate := p;
          }
          consecutive := consecutive + 1;
          if consecutive == size {
            return candidate;
          }
        } else {
          forall s | Fits(pool.value, size, proto, rules, s) ensures p + 1 <= s {
            assert s <= p <= s + size - 1 ==> PortFree(p, proto, rules);
          }
          consecutive, candidate := 0, 0;
        }
      }
      return 0;
    }

    static method IsPortFree(port: int, proto: Protocol, rules: seq<ForwardingRule>) returns (free: bool)
      ensures free <==> PortFree(port, proto, rules)
    {
      if ReservedManagementPort(port) {
        return false;
      }
      for k := 0 to |rules|
        invariant forall j :: 0 <= j < k ==> !RuleHolds(rules[j], port, proto)
      {
        if RulePort(rules[k]) == port && ProtocolsOverlap(rules[k].protocol, proto) {
          return false;
        }
      }
      return true;
    }

    static method AnalyseConflicts(gatewayID: string, rules: seq<ForwardingRule>, ms: seq<PortMapping>)
      returns (conflicts: seq<ConflictDetail>, warnings: seq<Message>, blockers: seq<Message>, status: ConflictStatus)
      ensures blockers == [] <==> Unobjectionable(gatewayID, rules, ms)
      ensures status == ConflictOutcome(gatewayID, rules, ms)
      ensures blockers == [] ==> forall c :: c in conflicts ==> c.status == RESERVED_MANAGEMENT
    {
      conflicts, warnings, blockers, status := [], [], [], AVAILABLE;
      var seen: set<string> := {};
      for i := 0 to |ms|
        invariant SeenExactly(seen, ms, i)
        invariant blockers == [] <==> Unobjectionable(gatewayID, rules, ms[..i])
        invariant status == ConflictOutcome(gatewayID, rules, ms[..i])
        invariant blockers == [] ==> forall c :: c in conflicts ==> c.status == RESERVED_MANAGEMENT
      {
        var found, noted, refused;
        found, noted, refused, seen, status := AnalyseNext(gatewayID, rules, ms, i, seen, status);
        conflicts, warnings, blockers := conflicts + found, warnings + noted, blockers + refused;
      }
      assert ms[..|ms|] == ms;
    }

    // One turn of the analysis.
    static method AnalyseNext(
      gatewayID: string, rules: seq<ForwardingRule>, ms: seq<PortMapping>, i: nat, seen: set<string>, before: ConflictStatus)
      returns (conflicts: seq<ConflictDetail>, warnings: seq<Message>, blockers: seq<Message>, after: set<string>, status: ConflictStatus)
      requires i < |ms| && SeenExactly(seen, ms, i) && before == ConflictOutcome(gatewayID, rules, ms[..i])
      ensures SeenExactly(after, ms, i + 1)
      ensures Unobjectionable(gatewayID, rules, ms[..i + 1]) <==> Unobjectionable(gatewayID, rules, ms[..i]) && blockers == []
      ensures status == ConflictOutcome(gatewayID, rules, ms[..i + 1])
      ensures blockers == [] ==> forall c :: c in conflicts ==> c.status == RESERVED_MANAGEMENT
    {
      SeenStep(seen, ms, i);
      VerdictStep(gatewayID, rules, ms, i, PortKey(ms[i]) in seen);
      conflicts, warnings, blockers, status := AnalyseMapping(gatewayID, rules, ms[i], PortKey(ms[i]) in seen, before);
      after := seen + {PortKey(ms[i])};
    }

    // A repeated key is a conflict by itself; a new one is judged.
    static method AnalyseMapping(
      gatewayID: string, rules: seq<ForwardingRule>, m: PortMapping, repeated: bool, before: ConflictStatus)
      returns (conflicts: seq<ConflictDetail>, warnings: seq<Message>, blockers: seq<Message>, status: ConflictStatus)
      ensures blockers == [] <==> !repeated && !Clashes(gatewayID, rules, m)
      ensures status == if repeated then before else NextStatus(gatewayID, rules, m, before)
      ensures blockers == [] ==> forall c :: c in conflicts ==> c.status == RESERVED_MANAGEMENT
    {
      if repeated {
        var message := DuplicatePort(m.externalPort, m.protocol);
        return [ConflictDetail(m.externalPort, m.protocol, ALREADY_ALLOCATED_BY_MYSTIC, message)], [], [message], before;
      }
      conflicts, warnings, blockers, status := JudgeMapping(gatewayID, rules, m, before);
    }

    static method JudgeMapping(gatewayID: string, rules: seq<ForwardingRule>, m: PortMapping, before: ConflictStatus)
      returns (conflicts: seq<ConflictDetail>, warnings: seq<Message>, blockers: seq<Message>, status: ConflictStatus)
      ensures blockers == [] <==> !Clashes(gatewayID, rules, m)
      ensures status == NextStatus(gatewayID, rules, m, before)
      ensures blockers == [] ==> forall c :: c in conflicts ==> c.status == RESERVED_MANAGEMENT
    {
      conflicts, warnings, status := [], [], before;
      if ReservedManagementPort(m.externalPort) {
        conflicts := [ConflictDetail(m.externalPort, m.protocol, RESERVED_MANAGEMENT, ReservedPort(m.externalPort))];
        warnings := [ReservedPort(m.externalPort)];
        if status == AVAILABLE {
          status := RESERVED_MANAGEMENT;
        }
      }
      var taken := RulesClashingWith(gatewayID, rules, m);
      conflicts := conflicts + taken;
      blockers := seq(|taken|, k requires 0 <= k < |taken| => taken[k].message);
      if taken != [] {
        status := ALREADY_ALLOCATED_BY_MYSTIC;
      }
    }

    static method RulesClashingWith(gatewayID: string, rules: seq<ForwardingRule>, m: PortMapping)
      returns (taken: seq<ConflictDetail>)
      ensures taken == [] <==> !Clashes(gatewayID, rules, m)
    {
      taken := [];
      for k := 0 to |rules|
        invariant taken == [] <==> forall j :: 0 <= j < k ==> !Clash(gatewayID, rules[j], m)
      {
        if RulePort(rules[k]) == m.externalPort && (rules[k].gatewayID == gatewayID || gatewayID == "") {
          if ProtocolsOverlap(rules[k].protocol, m.protocol) {
            taken := taken + [ConflictDetail(m.externalPort, m.protocol, ALREADY_ALLOCATED_BY_MYSTIC,
                                             PortTaken(m.externalPort, m.protocol, rules[k].workloadID))];
          }
        }
      }
    }
  }

  // How the verdict on a list of mappings changes when one mapping is added.
  lemma PrefixStep(gatewayID: string, rules: seq<ForwardingRule>, ms: seq<PortMapping>, i: nat)
    requires i < |ms|
    ensures AnyClash(gatewayID, rules, ms[..i + 1]) <==>
              AnyClash(gatewayID, rules, ms[..i]) || Clashes(gatewayID, rules, ms[i])
    ensures AnyReserved(ms[..i + 1]) <==> AnyReserved(ms[..i]) || ReservedManagementPort(ms[i].externalPort)
    ensures NoRepeats(ms[..i + 1]) <==>
              (NoRepeats(ms[..i]) &&
               forall j :: 0 <= j < i ==> ms[j].externalPort != ms[i].externalPort || ms[j].protocol != ms[i].protocol)
  {
    var longer, shorter := ms[..i + 1], ms[..i];
    assert forall j :: 0 <= j < i ==> longer[j] == shorter[j];
    assert longer[i] == ms[i];
    if AnyClash(gatewayID, rules, shorter) {
      var j :| 0 <= j < i && Clashes(gatewayID, rules, shorter[j]);
      assert Clashes(gatewayID, rules, longer[j]);
    }
    if AnyReserved(shorter) {
      var j :| 0 <= j < i && ReservedManagementPort(shorter[j].externalPort);
      assert ReservedManagementPort(longer[j].externalPort);
    }
    if NoRepeats(longer) {
      forall j, k | 0 <= j < k < i
        ensures shorter[j].externalPort != shorter[k].externalPort || shorter[j].protocol != shorter[k].protocol {
        assert longer[j] == shorter[j] && longer[k] == shorter[k];
      }
    }
  }

  // The seen-map holds the keys of the first i mappings and no others.
  ghost predicate SeenExactly(seen: set<string>, ms: seq<PortMapping>, i: nat) {
    forall key :: key in seen <==> KeyAmong(key, ms, i)
  }

  ghost predicate KeyAmong(key: string, ms: seq<PortMapping>, i: nat) {
    exists j :: 0 <= j < i && j < |ms| && PortKey(ms[j]) == key
  }

  lemma SeenStep(seen: set<string>, ms: seq<PortMapping>, i: nat)
    requires i < |ms| && SeenExactly(seen, ms, i)
    ensures SeenExactly(seen + {PortKey(ms[i])}, ms, i + 1)
    ensures PortKey(ms[i]) in seen <==> exists j :: 0 <= j < i && PortKey(ms[j]) == PortKey(ms[i])
  {
    assert PortKey(ms[i]) in seen <==> KeyAmong(PortKey(ms[i]), ms, i);
    forall key ensures key in seen + {PortKey(ms[i])} <==> KeyAmong(key, ms, i + 1) {
      assert key in seen <==> KeyAmong(key, ms, i);
    }
  }

  // A repeated port and protocol gets the verdict its first occurrence got.
  lemma SameVerdict(gatewayID: string, rules: seq<ForwardingRule>, ms: seq<PortMapping>, j: nat, i: nat)
    requires j < i < |ms|
    requires ms[j].externalPort == ms[i].externalPort && ms[j].protocol == ms[i].protocol
    ensures Clashes(gatewayID, rules, ms[i]) ==> AnyClash(gatewayID, rules, ms[..i])
    ensures ReservedManagementPort(ms[i].externalPort) ==> AnyReserved(ms[..i])
  {
    assert ms[..i][j] == ms[j];
    if Clashes(gatewayID, rules, ms[i]) {
      var k :| 0 <= k < |rules| && Clash(gatewayID, rules[k], ms[i]);
      assert Clash(gatewayID, rules[k], ms[j]);
    }
  }

  // One turn of the analysis: a repeated key changes nothing but the blockers,
  // a new one contributes its own clashes and reservation.
  lemma VerdictStep(gatewayID: string, rules: seq<ForwardingRule>, ms: seq<PortMapping>, i: nat, repeated: bool)
    requires i < |ms|
    requires repeated <==> exists j :: 0 <= j < i && PortKey(ms[j]) == PortKey(ms[i])
    ensures Unobjectionable(gatewayID, rules, ms[..i + 1]) <==>
              (Unobjectionable(gatewayID, rules, ms[..i]) && !repeated && !Clashes(gatewayID, rules, ms[i]))
    ensures ConflictOutcome(gatewayID, rules, ms[..i + 1]) ==
              if repeated then ConflictOutcome(gatewayID, rules, ms[..i])
              else NextStatus(gatewayID, rules, ms[i], ConflictOutcome(gatewayID, rules, ms[..i]))
  {
    PrefixStep(gatewayID, rules, ms, i);
    if repeated {
      var j :| 0 <= j < i && PortKey(ms[j]) == PortKey(ms[i]);
      PortKeyInjective(ms[j], ms[i]);
      SameVerdict(gatewayID, rules, ms, j, i);
    }
  }

  // -------------------------------------------------------------- main lemmas

  // A pool request either cannot be satisfied or goes through without any
  // conflict: the search already avoided everything the analysis looks for,
  // on every gateway.
  lemma PoolRunAlwaysAdmissible(
    engine: AllocatorEngine, req: PortAllocationRequest, rules: seq<ForwardingRule>,
    workloads: seq<WorkloadNetworkConfig>, gateways: seq<GatewayConfig>, pool: AllocationPool, start: int)
    returns (ms: seq<PortMapping>)
    requires engine.BasicsHold(req, workloads, gateways)
    requires PoolRequested(req) && InternalRangeOk(req) && pool.isConfigured
    requires FirstFit(pool, InternalSize(req), req.protocol, rules, start)
    requires start + InternalSize(req) - 1 <= 65535
    ensures engine.Admissible(req, rules, workloads, gateways, Some(pool), ms)
    ensures ConflictOutcome(req.gatewayID, rules, ms) == AVAILABLE
    ensures |ms| == InternalSize(req)
    ensures forall i :: 0 <= i < |ms| ==>
              ms[i].externalPort == start + i &&
              ms[i].externalPort - ms[i].internalPort == start - req.internalStartPort
  {
    var size := InternalSize(req);
    ms := seq(size, i requires 0 <= i < size =>
                PortMapping(start + i, req.internalStartPort + i, req.protocol, req.publicIP, req.destinationIP));
    assert Normalizes(req, rules, Some(pool), ms);
    forall i | 0 <= i < |ms|
      ensures !Clashes(req.gatewayID, rules, ms[i]) && !ReservedManagementPort(ms[i].externalPort) {
      assert PortFree(start + i, req.protocol, rules);
    }
  }

  // The reading of a pool request: it is admissible exactly when the basic
  // fields hold, a first fit exists, and that fit ends within the port space.
  lemma PoolRequestExactness(
    engine: AllocatorEngine, req: PortAllocationRequest, rules: seq<ForwardingRule>,
    workloads: seq<WorkloadNetworkConfig>, gateways: seq<GatewayConfig>, pool: AllocationPool)
    requires PoolRequested(req)
    ensures (exists ms :: engine.Admissible(req, rules, workloads, gateways, Some(pool), ms)) <==>
              (engine.BasicsHold(req, workloads, gateways) && InternalRangeOk(req) && pool.isConfigured &&
               exists start :: FirstFit(pool, InternalSize(req), req.protocol, rules, start) &&
                               start + InternalSize(req) - 1 <= 65535)
  {
    if engine.BasicsHold(req, workloads, gateways) && InternalRangeOk(req) && pool.isConfigured &&
       exists start :: FirstFit(pool, InternalSize(req), req.protocol, rules, start) && start + InternalSize(req) - 1 <= 65535 {
      var start :| FirstFit(pool, InternalSize(req), req.protocol, rules, start) && start + InternalSize(req) - 1 <= 65535;
      var ms := PoolRunAlwaysAdmissible(engine, req, rules, workloads, gateways, pool, start);
    }
    if ms: seq<PortMapping> :| engine.Admissible(req, rules, workloads, gateways, Some(pool), ms) {
      assert FirstFit(pool, InternalSize(req), req.protocol, rules, ms[0].externalPort);
    }
  }

  // A free run has a first one before or at it.
  lemma {:induction false} FirstFitExists(
    pool: AllocationPool, size: int, proto: Protocol, rules: seq<ForwardingRule>, at: int) returns (start: int)
    requires PoolUsable(pool) && Fits(pool, size, proto, rules, at)
    ensures FirstFit(pool, size, proto, rules, start) && start <= at
    decreases at - pool.startPort
  {
    if s :| Fits(pool, size, proto, rules, s) && s < at {
      start := FirstFitExists(pool, size, proto, rules, s);
    } else {
      start := at;
    }
  }

  // A run that is free under more rules is free under fewer.
  lemma FitsUnderFewerRules(
    pool: AllocationPool, size: int, proto: Protocol, rules: seq<ForwardingRule>, extra: seq<ForwardingRule>, at: int)
    requires Fits(pool, size, proto, rules + extra, at)
    ensures Fits(pool, size, proto, rules, at)
  {
    forall q | at <= q <= at + size - 1 ensures PortFree(q, proto, rules) {
      assert PortFree(q, proto, rules + extra);
      assert forall k :: 0 <= k < |rules| ==> (rules + extra)[k] == rules[k];
    }
  }

  // Adding rules never makes a rejected request acceptable. What an accepted
  // request means stays the same, except that a pool request may then be given
  // an earlier run.
  lemma MoreRulesNeverHelp(
    engine: AllocatorEngine, req: PortAllocationRequest, rules: seq<ForwardingRule>, extra: seq<ForwardingRule>,
    workloads: seq<WorkloadNetworkConfig>, gateways: seq<GatewayConfig>, pool: Option<AllocationPool>, ms: seq<PortMapping>)
    returns (fewer: seq<PortMapping>)
    requires engine.Admissible(req, rules + extra, workloads, gateways, pool, ms)
    ensures engine.Admissible(req, rules, workloads, gateways, pool, fewer)
    ensures !PoolRequested(req) ==> fewer == ms
    ensures PoolRequested(req) ==> |fewer| == |ms| && fewer[0].externalPort <= ms[0].externalPort
  {
    if PoolRequested(req) {
      var size, at := InternalSize(req), ms[0].externalPort;
      FitsUnderFewerRules(pool.value, size, req.protocol, rules, extra, at);
      var start := FirstFitExists(pool.value, size, req.protocol, rules, at);
      fewer := PoolRunAlwaysAdmissible(engine, req, rules, workloads, gateways, pool.value, start);
    } else {
      fewer := ms;
      forall i, k | 0 <= i < |ms| && 0 <= k < |rules| ensures !Clash(req.gatewayID, rules[k], ms[i]) {
        assert !Clashes(req.gatewayID, rules + extra, ms[i]);
        assert (rules + extra)[k] == rules[k];
      }
      assert Normalizes(req, rules, pool, ms);
    }
  }
}
